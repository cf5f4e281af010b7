/** The driver's state, its steps, and the invariant they keep. */
module States {
  import opened Events
  import opened Clocks
  import opened Graphs
  import opened ImmSpec
  import opened Causality
  import opened HbExact
  import opened Settling
  import opened StampBounds
  import opened Trimming
  import opened RevisitSpec
  import opened DepCutSpec
  import opened Exchanges

  /** The graph, the threads that wait for a child or are yet to be created again, and the bounds not to cut at:
      reads and worklist items stamped from them on are not revisited any more. */
  datatype State = State(graph: Graph, blocked: set<nat>, shut: set<nat>)

  // ----- the invariant -----

  /** A join that has been completed was by the finish of its child. */
  ghost predicate JoinChildren(g: Graph) {
    forall x :: In(g, x) && L(g, x).kind.ThreadJoin? && L(g, x).kind.childLast != Initializer ==>
                  L(g, x).kind.childLast.thread == L(g, x).kind.childId
  }

  /** No begin of another thread claims to be created by c. */
  predicate Unclaimed(g: Graph, c: Event) {
    forall t :: 0 <= t < |g| && |g[t]| > 0 ==> g[t][0].kind != ThreadStart(c)
  }

  predicate BeginsDistinct(g: Graph) {
    forall t, u :: 0 <= t < |g| && 0 <= u < |g| && |g[t]| > 0 && |g[u]| > 0 && g[t][0].kind == g[u][0].kind ==> t == u
  }

  /** What is said of the whole graph, whatever its threads wait for. */
  ghost predicate GraphOk(g: Graph) {
    Begun(g) && RfInverse(g) && Stamped(g) && FinishesLast(g) && JoinChildren(g) && BeginsDistinct(g)
  }

  ghost predicate Inv(s: State) {
    && GraphOk(s.graph)
    && HeldAllOk(s.graph, s.blocked, Settled(s.graph, s.blocked))
    && (exists o :: InvAt(Settled(s.graph, s.blocked), o))
    && (forall n: nat :: n !in s.shut ==> Whole(s.graph, n))
  }

  // ----- steps -----

  datatype Action =
    | Append(lab: Label, deps: EventDeps)
    | Recreate(lab: Label, deps: EventDeps, child: nat)
    | Retarget(read: Event, store: Event)
    | Complete(join: Event, finish: Event)
    | CutBack(stamp: nat)
    | Revisit(read: Event, write: Event)

  function Placed(g: Graph, lab: Label): Graph
    requires Addable(g, lab.pos)
  {
    if lab.IsRead() then AddRead(g, lab) else AddLabel(g, lab)
  }

  /** A start label comes with a thread of its own. */
  function Roomy(g: Graph, lab: Label): Graph { if lab.kind.ThreadStart? then g + [[]] else g }

  /** The label comes from a thread that is neither blocked nor finished, fresh from its constructor. */
  ghost predicate Issued(s: State, lab: Label) {
    && Newest(s.graph, lab.stamp)
    && (lab.pos.index > 0 ==>
          lab.pos.thread !in s.blocked && In(s.graph, lab.pos.Prev()) && !L(s.graph, lab.pos.Prev()).kind.ThreadFinish?)
    && (lab.kind.ThreadJoin? ==> lab.kind.childLast == Initializer)
    && (lab.kind.ThreadFinish? ==> lab.kind.parentJoin == Initializer)
  }

  function BlockedBy(blocked: set<nat>, lab: Label): set<nat> {
    if lab.kind.ThreadJoin? then Add(blocked, lab.pos.thread) else blocked
  }

  /** Views are computed over the graph and the label added; a join blocks its thread. */
  ghost predicate AppendStep(s: State, lab: Label, deps: EventDeps, lab': Label, s': State) {
    var r := Roomy(s.graph, lab);
    && Viewable(r, lab, deps) && ViewsComputed(r, lab, deps, lab') && Issued(s, lab)
    && (lab.kind.ThreadCreate? ==> Unclaimed(s.graph, lab.pos))
    && (lab.kind.ThreadStart? ==> Unclaimed(s.graph, lab.kind.parentCreate))
    && s' == State(Placed(r, lab'), BlockedBy(s.blocked, lab), s.shut)
  }

  /** A creation is added again; the begin of its child, still there, is brought up to date. */
  ghost predicate RecreateStep(s: State, lab: Label, deps: EventDeps, t: nat, lab': Label, begin': Label, s': State) {
    var g := s.graph;
    && lab.kind.ThreadCreate? && Viewable(g, lab, deps) && ViewsComputed(g, lab, deps, lab') && Issued(s, lab)
    && t in s.blocked && t < |g| && |g[t]| == 1 && g[t][0].kind == ThreadStart(lab.pos)
    && var h := AddLabel(g, lab');
       In(h, Event(t, 0)) && StartRecomputed(h, L(h, Event(t, 0)), lab.pos, begin') &&
       s' == State(Set(h, Event(t, 0), begin'), Drop(s.blocked, t), s.shut)
  }

  /** The bounds strictly between two stamps. */
  function Strictly(lo: nat, hi: nat): (r: set<nat>)
    ensures forall n :: n in r <==> lo < n < hi
    decreases hi
  {
    if hi <= lo + 1 then {} else Strictly(lo, hi - 1) + {hi - 1}
  }

  /** The bounds between a read and a younger write. */
  function Between(g: Graph, read: Event, store: Event): set<nat>
    requires In(g, read)
  {
    if In(g, store) && store.index >= 1 then Strictly(L(g, read).stamp, L(g, store).stamp + 1) else {}
  }

  ghost predicate RetargetStep(s: State, read: Event, store: Event, lab': Label, s': State) {
    var g := s.graph;
    && LastRecomputable(g, read) && L(g, read).IsRead() && (store == Bottom || RfTarget(g, store))
    && var c := RfChanged(g, read, store);
       In(c, read) && RfRecomputed(c, L(c, read), lab') &&
       s' == State(Set(c, read, lab'), s.blocked, s.shut + Between(g, read, store))
  }

  /** The child a join waits for has finished. */
  ghost predicate CompleteStep(s: State, join: Event, f: Event, lab': Label, s': State) {
    var g := s.graph;
    && LastRecomputable(g, join) && L(g, join).kind.ThreadJoin? && FinishOf(g, L(g, join).kind.childId, f)
    && var c := JoinUpdated(g, join, f);
       In(c, join) && JoinRecomputed(c, L(c, join), f, lab') &&
       s' == State(Set(c, join, lab'), Drop(s.blocked, join.thread), s.shut)
  }

  ghost predicate CutStep(s: State, stamp: nat, s': State) {
    && stamp + 1 !in s.shut && IsDepCut(s.graph, stamp, s'.graph)
    && s' == State(s'.graph, Stuck(s.graph, s.blocked, s'.graph), set n | n in s.shut && n <= stamp)
  }

  /** The view has no gaps. */
  ghost predicate NoGaps(v: Clock) {
    forall e: Event, j :: v.Has(e) && 1 <= j <= e.index ==> v.Has(Event(e.thread, j))
  }

  /** No label of c but the read, and what blocked threads wait at, knows the read. */
  ghost predicate Unknown(c: Graph, blocked: set<nat>, read: Event) {
    forall x :: CHas(c, x, read) && !IsHeld(c, blocked, x) ==> x == read
  }

  /** Nothing that blocked threads wait at builds on the read. */
  ghost predicate Unbuilt(c: Graph, blocked: set<nat>, read: Event) {
    forall x :: IsHeld(c, blocked, x) && x != read ==> !PHas(c, x, read)
  }

  /** The graph is copied up to the revisit view, labels younger than the read get new stamps, and the read is
      re-targeted. */
  ghost predicate RevisitMade(s: State, read: Event, write: Event, v: Clock, c: Graph, r: Graph, next: nat, lab': Label,
                              s': State) {
    var g := s.graph;
    && IsRevisitView(g, Backward(read, write), v) && write.thread != read.thread && L(g, read).stamp !in s.shut
    && IsCopy(g, v, c) && Restamped(c, L(g, read).stamp, r, next) && IsReadAt(r, read)
    && var h := RfChanged(r, read, write);
       In(h, read) && RfContents(h, L(h, read), lab') &&
       s' == State(Set(h, read, lab'), Stuck(g, s.blocked, c),
                   (set n | n in s.shut && n <= L(g, read).stamp) + Strictly(L(g, read).stamp, next))
  }

  /** The view has no gaps, nothing kept knows or builds on the read, and the acquire fences kept after it have what
      the message of its new write says. */
  ghost predicate RevisitFits(v: Clock, c: Graph, read: Event, s': State) {
    && NoGaps(v) && Unknown(c, s'.blocked, read) && Unbuilt(c, s'.blocked, read)
    && LateFencesExact(s'.graph, read)
  }

  ghost predicate RevisitStep(s: State, read: Event, write: Event, v: Clock, c: Graph, r: Graph, next: nat, lab': Label,
                              s': State) {
    RevisitMade(s, read, write, v, c, r, next, lab', s') && RevisitFits(v, c, read, s')
  }

  ghost predicate Step(s: State, act: Action, s': State) {
    match act
    case Append(lab, deps) => exists lab' :: AppendStep(s, lab, deps, lab', s')
    case Recreate(lab, deps, t) => exists lab', begin' :: RecreateStep(s, lab, deps, t, lab', begin', s')
    case Retarget(read, store) => exists lab' :: RetargetStep(s, read, store, lab', s')
    case Complete(join, f) => exists lab' :: CompleteStep(s, join, f, lab', s')
    case CutBack(stamp) => CutStep(s, stamp, s')
    case Revisit(read, write) => exists v, c, r, next, lab' :: RevisitStep(s, read, write, v, c, r, next, lab', s')
  }

  /** The start of main, with nothing blocked and every bound open. */
  function InitialState(): State { State([[MainStart()]], {}, {}) }

  ghost predicate IsChain(ss: seq<State>, acts: seq<Action>) {
    |ss| == |acts| + 1 && forall i :: 0 <= i < |acts| ==> Step(ss[i], acts[i], ss[i + 1])
  }

  ghost predicate IsRun(ss: seq<State>, acts: seq<Action>) {
    IsChain(ss, acts) && ss[0] == InitialState()
  }

  lemma ChainGrows(ss: seq<State>, acts: seq<Action>, act: Action, s': State)
    requires IsChain(ss, acts) && Step(ss[|ss| - 1], act, s')
    ensures IsChain(ss + [s'], acts + [act])
  {
    hide Step;
    var ss', acts' := ss + [s'], acts + [act];
    forall i | 0 <= i < |acts'| ensures Step(ss'[i], acts'[i], ss'[i + 1]) {
      if i < |acts| { assert Step(ss[i], acts[i], ss[i + 1]); }
    }
  }
}
