/** Runs of the driver: every state they reach satisfies the invariant, and what that says of its graph. */
module Runs {
  import opened Events
  import opened Clocks
  import opened Graphs
  import opened ImmSpec
  import opened Causality
  import opened HbExact
  import opened Restriction
  import opened Sources
  import opened Settling
  import opened StampBounds
  import opened Trimming
  import opened RevisitSpec
  import opened CutSpec
  import opened DepCutSpec
  import opened States
  import opened Additions
  import opened Recompute
  import opened Cutbacks

  // ----- the initial state -----

  lemma InitialAt()
    ensures var g := InitialState().graph;
            && (forall x :: In(g, x) <==> x == Initializer)
            && L(g, Initializer) == MainStart() && Settled(g, {}) == g && |g| == 1 && |g[0]| == 1
  {}

  lemma InitialSources(g: Graph, w: Event, p: Event)
    requires forall x :: In(g, x) ==> !L(g, x).IsWrite()
    ensures !MsgSource(g, w, p)
  {}

  lemma InitialHb(o: Order)
    ensures HbInv(InitialState().graph, o)
  {
    var g := InitialState().graph;
    InitialAt();
    forall w, p ensures !MsgSource(g, w, p) { InitialSources(g, w, p); }
    hide InitialState, MsgSource, Settled;
    forall p, x ensures !HbEdge(g, p, x) {}
    hide HbEdge;
    assert LocallyExact(g) && MessagesExact(g) && PoOrdered(g, o) && EdgesOrdered(g, o) && SourcesOrdered(g, o);
  }

  lemma InitialCausal(o: Order)
    requires o == Order(map[Initializer := 0], map[Initializer := 0], 1)
    ensures Causal(InitialState().graph, o)
  {
    var g := InitialState().graph;
    InitialAt();
    hide InitialState, Settled;
    assert Ready(g);
    assert forall x, a :: !CHas(g, x, a) && !PHas(g, x, a);
    hide CHas, PHas;
    assert RefsInside(g);
  }

  lemma InitialGraph()
    ensures var g := InitialState().graph; RfInverse(g) && Stamped(g) && GraphOk(g)
    ensures forall n: nat :: Whole(InitialState().graph, n)
  {
    hide InitialState, Settled, RfInverse, Stamped, Whole, MainStart;
    InitialAt();
    var g := InitialState().graph;
    assert RfInverse(g) && Stamped(g) by { OneLabel(g); }
    assert Begun(g) && FinishesLast(g) && JoinChildren(g) && BeginsDistinct(g) by { OneBegin(g); }
    hide Begun, FinishesLast, JoinChildren, BeginsDistinct;
    forall n: nat ensures Whole(g, n) { OneWhole(g, n); }
  }

  lemma OneLabel(g: Graph)
    requires (forall x :: In(g, x) <==> x == Initializer) && L(g, Initializer) == MainStart()
    ensures RfInverse(g) && Stamped(g)
  {}

  lemma OneBegin(g: Graph)
    requires (forall x :: In(g, x) <==> x == Initializer) && L(g, Initializer) == MainStart() && |g| == 1 && |g[0]| == 1
    ensures Begun(g) && FinishesLast(g) && JoinChildren(g) && BeginsDistinct(g)
  {}

  lemma OneWhole(g: Graph, n: nat)
    requires (forall x :: In(g, x) <==> x == Initializer) && L(g, Initializer) == MainStart()
    ensures Whole(g, n)
  {}

  lemma InitialRest(o: Order)
    ensures var g := InitialState().graph;
                Sourced(g) && RfKnown(g) && RfOrdered(g, o) && OrderingsFixed(g) && MainBegun(g)
  {
    var g := InitialState().graph;
    InitialAt();
    hide InitialState, Settled;
    assert WfOrdering(MainStart()) && !MainStart().IsRead();
    assert MainBegun(g) && OrderingsFixed(g) && RfKnown(g) && RfOrdered(g, o);
    hide MainBegun, OrderingsFixed, RfKnown, RfOrdered, WfOrdering, IsAcquireOrFence, ThroughSource, ThroughThread;
    assert forall x, a :: !CHas(g, x, a);
    assert Sourced(g);
  }

  /** A new graph satisfies the invariant, with no bound shut. */
  lemma InitialInv()
    ensures Inv(InitialState())
  {
    var o := Order(map[Initializer := 0], map[Initializer := 0], 1);
    InitialHb(o);
    InitialCausal(o);
    InitialRest(o);
    InitialGraph();
    InitialAt();
    hide HbInv, Causal, Sourced, RfKnown, RfOrdered, OrderingsFixed, GraphOk, Whole;
    InvWhole(InitialState().graph, o);
    hide InvAt;
    InvHolds(InitialState(), o);
  }

  // ----- all runs -----

  lemma StepKeeps(s: State, act: Action, s': State)
    requires Inv(s) && Step(s, act, s')
    ensures Inv(s')
  {
    hide Inv, AppendStep, RecreateStep, RetargetStep, CompleteStep, CutStep, RevisitStep;
    match act
    case Append(lab, deps) =>
      var lab' :| AppendStep(s, lab, deps, lab', s');
      AppendKeeps(s, lab, deps, lab', s');
    case Recreate(lab, deps, t) =>
      var lab', begin' :| RecreateStep(s, lab, deps, t, lab', begin', s');
      RecreateKeeps(s, lab, deps, t, lab', begin', s');
    case Retarget(read, store) =>
      var lab' :| RetargetStep(s, read, store, lab', s');
      RetargetKeeps(s, read, store, lab', s');
    case Complete(join, f) =>
      var lab' :| CompleteStep(s, join, f, lab', s');
      CompleteKeeps(s, join, f, lab', s');
    case CutBack(stamp) => CutKeeps(s, stamp, s');
    case Revisit(read, write) =>
      var v, c, r, next, lab' :| RevisitStep(s, read, write, v, c, r, next, lab', s');
      RevisitKeeps(s, read, write, v, c, r, next, lab', s');
  }

  lemma {:induction false} RunKeeps(ss: seq<State>, acts: seq<Action>, i: nat)
    requires IsRun(ss, acts) && i < |ss|
    ensures Inv(ss[i])
    decreases i
  {
    hide Inv, Step;
    if i == 0 {
      InitialInv();
    } else {
      RunKeeps(ss, acts, i - 1);
      assert Step(ss[i - 1], acts[i - 1], ss[i - 1 + 1]);
      StepKeeps(ss[i - 1], acts[i - 1], ss[i]);
    }
  }

  // ----- what the invariant says -----

  lemma ClosedUnlessHeld(s: State, x: Event, a: Event, b: Event)
    requires Inv(s) && !IsHeld(s.graph, s.blocked, x) && CHas(s.graph, x, a) && CHas(s.graph, a, b)
    ensures CHas(s.graph, x, b)
  {
    var g, w := s.graph, Settled(s.graph, s.blocked);
    hide Inv;
    var o := InvOrder(s);
    SettledAt(g, s.blocked);
    InvParts(w, o);
    CausalBits(w, o);
    hide InvAt, Settled, Causal, Anchored, ReadsInside;
    assert CHas(w, x, a) && In(w, a) && CHas(w, a, b) && CHas(w, x, b);
  }

  /** In every graph of every run the pporf views are causally closed, those labels aside that blocked threads wait
      at. */
  lemma RunsCausallyClosed(ss: seq<State>, acts: seq<Action>, i: nat, x: Event, a: Event, b: Event)
    requires IsRun(ss, acts) && i < |ss| && !IsHeld(ss[i].graph, ss[i].blocked, x)
    requires CHas(ss[i].graph, x, a) && CHas(ss[i].graph, a, b)
    ensures CHas(ss[i].graph, x, b)
  {
    hide Inv;
    RunKeeps(ss, acts, i);
    ClosedUnlessHeld(ss[i], x, a, b);
  }

  lemma SettledSupported(g: Graph, blocked: set<nat>, o: Order)
    requires InvAt(Settled(g, blocked), o)
    ensures Supported(Settled(g, blocked), g)
  {
    var w := Settled(g, blocked);
    SettledAt(g, blocked);
    InvParts(w, o);
    hide InvAt, HbInv, Sourced, RfKnown, RfOrdered, OrderingsFixed, Settled, MainBegun;
    CausalReady(w, o);
    hide Causal;
    forall x | In(w, x) ensures RefersInside(w, L(w, x)) && KnowsInside(w, L(w, x)) {}
  }

  /** A chain of edges to a settled label runs through settled labels. */
  lemma {:induction false} PathSettled(g: Graph, w: Graph, ps: seq<Event>)
    requires Supported(w, g) && RefsInside(w) && Positioned(w) && HbPath(g, ps) && In(w, ps[|ps| - 1])
    ensures HbPath(w, ps)
    decreases |ps|
  {
    var n := |ps|;
    hide HbEdge, Supported, RefsInside, Positioned;
    assert HbEdge(g, ps[n - 2], ps[n - 1]);
    PartEdge(w, g, ps[n - 2], ps[n - 1]);
    EdgeEnds(w, ps[n - 2], ps[n - 1]);
    if n > 2 {
      var qs := ps[..n - 1];
      forall i | 0 < i < |qs| ensures HbEdge(g, qs[i - 1], qs[i]) { assert HbEdge(g, ps[i - 1], ps[i]); }
      PathSettled(g, w, qs);
      forall i | 0 < i < n ensures HbEdge(w, ps[i - 1], ps[i]) { assert i < n - 1 ==> HbEdge(w, qs[i - 1], qs[i]); }
    }
  }

  lemma {:induction false} PathWidened(g: Graph, w: Graph, ps: seq<Event>)
    requires Supported(w, g) && RefsInside(w) && Positioned(w) && HbPath(w, ps)
    ensures HbPath(g, ps)
  {
    hide HbEdge, Supported, RefsInside, Positioned;
    forall i | 0 < i < |ps| ensures HbEdge(g, ps[i - 1], ps[i]) {
      EdgeEnds(w, ps[i - 1], ps[i]);
      PartEdge(w, g, ps[i - 1], ps[i]);
    }
  }

  lemma ReachesSettled(g: Graph, w: Graph, a: Event, b: Event)
    requires Supported(w, g) && RefsInside(w) && Positioned(w) && In(w, b)
    ensures Reaches(g, a, b) <==> Reaches(w, a, b)
  {
    hide HbEdge, Supported, RefsInside, Positioned;
    if Reaches(g, a, b) {
      var ps :| HbPath(g, ps) && ps[0] == a && ps[|ps| - 1] == b;
      PathSettled(g, w, ps);
    }
    if Reaches(w, a, b) {
      var ps :| HbPath(w, ps) && ps[0] == a && ps[|ps| - 1] == b;
      PathWidened(g, w, ps);
    }
  }

  lemma HbExactAt(g: Graph, o: Order, a: Event, b: Event)
    requires InvAt(g, o) && In(g, b) && a.index >= 1
    ensures HbHas(g, b, a) <==> a == b || Reaches(g, a, b)
    ensures !Reaches(g, b, b)
  {
    HbViewsExact(g, o, a, b);
    if Reaches(g, b, b) {
      var ps :| HbPath(g, ps) && ps[0] == b && ps[|ps| - 1] == b;
      PathOrdered(g, o, ps);
    }
  }

  lemma HbUnlessHeld(s: State, a: Event, b: Event)
    requires Inv(s) && In(s.graph, b) && !IsHeld(s.graph, s.blocked, b) && a.index >= 1
    ensures HbHas(s.graph, b, a) <==> a == b || Reaches(s.graph, a, b)
    ensures !Reaches(s.graph, b, b)
  {
    var g, w := s.graph, Settled(s.graph, s.blocked);
    hide Inv, Reaches;
    var o := InvOrder(s);
    SettledAt(g, s.blocked);
    SettledSupported(g, s.blocked, o);
    HbExactAt(w, o, a, b);
    InvParts(w, o);
    hide InvAt, Settled, Supported, HbInv;
    CausalReady(w, o);
    hide Causal;
    ReachesSettled(g, w, a, b);
    ReachesSettled(g, w, b, b);
  }

  /** In every graph of every run, and but for what blocked threads wait at: a is in hb(b) exactly when a is b or
      reaches b, and no b reaches itself. */
  lemma RunsHbExact(ss: seq<State>, acts: seq<Action>, i: nat, a: Event, b: Event)
    requires IsRun(ss, acts) && i < |ss| && In(ss[i].graph, b) && !IsHeld(ss[i].graph, ss[i].blocked, b) && a.index >= 1
    ensures HbHas(ss[i].graph, b, a) <==> a == b || Reaches(ss[i].graph, a, b)
    ensures !Reaches(ss[i].graph, b, b)
  {
    hide Inv;
    RunKeeps(ss, acts, i);
    HbUnlessHeld(ss[i], a, b);
  }

  /** In every graph of every run reads-from and reader lists are mutually inverse, stamps are distinct and increase
      along threads, and below an open bound no write is younger than its reader. */
  lemma RunsRfInverse(ss: seq<State>, acts: seq<Action>, i: nat)
    requires IsRun(ss, acts) && i < |ss|
    ensures RfInverse(ss[i].graph) && Stamped(ss[i].graph)
    ensures forall n: nat, x :: n !in ss[i].shut && IsReadAt(ss[i].graph, x) && Below(ss[i].graph, n, x) ==>
                                  L(ss[i].graph, x).rf == Bottom || Below(ss[i].graph, n, L(ss[i].graph, x).rf)
  {
    hide RfInverse, Stamped;
    RunKeeps(ss, acts, i);
  }

  /** What a thread is blocked at in a run: a begin whose creation is gone, or a join. */
  lemma RunsBlockedAt(ss: seq<State>, acts: seq<Action>, i: nat, x: Event)
    requires IsRun(ss, acts) && i < |ss| && IsHeld(ss[i].graph, ss[i].blocked, x)
    ensures var lab := L(ss[i].graph, x);
            if x.index == 0 then lab.kind.ThreadStart? && !CreatorRef(ss[i].graph, lab.kind.parentCreate)
            else lab.kind.ThreadJoin?
  {
    hide Inv, IsRun;
    RunKeeps(ss, acts, i);
    BlockedAt(ss[i], x);
  }

  lemma BlockedAt(s: State, x: Event)
    requires Inv(s) && IsHeld(s.graph, s.blocked, x)
    ensures var lab := L(s.graph, x);
            if x.index == 0 then lab.kind.ThreadStart? &&
                !CreatorRef(s.graph, lab.kind.parentCreate) else lab.kind.ThreadJoin?
  {
    hide GraphOk, InvAt, Whole, Settled, BaseOk, PpoSourced, WfOrdering;
    assert HeldOk(s.graph, Settled(s.graph, s.blocked), x.thread);
  }

  // ----- open bounds -----

  /** The step shuts no bound: no backward revisit, and no read re-targeted to a younger write. */
  predicate KeepsOrder(s: State, act: Action) {
    match act
    case Retarget(read, store) =>
      In(s.graph, read) && In(s.graph, store) && store.index >= 1 ==> L(s.graph, store).stamp <= L(s.graph, read).stamp
    case Revisit(_, _) => false
    case _ => true
  }

  /** Runs that always read from older writes may be cut anywhere. */
  lemma {:induction false} OrderedRunsShutNothing(ss: seq<State>, acts: seq<Action>, i: nat)
    requires IsRun(ss, acts) && i < |ss| && forall j :: 0 <= j < i ==> KeepsOrder(ss[j], acts[j])
    ensures ss[i].shut == {}
    decreases i
  {
    if i > 0 {
      OrderedRunsShutNothing(ss, acts, i - 1);
      assert Step(ss[i - 1], acts[i - 1], ss[i - 1 + 1]) && KeepsOrder(ss[i - 1], acts[i - 1]);
      OrderedStep(ss[i - 1], acts[i - 1], ss[i]);
    }
  }

  lemma OrderedStep(s: State, act: Action, s': State)
    requires Step(s, act, s') && KeepsOrder(s, act) && s.shut == {}
    ensures s'.shut == {}
  {
    match act
    case Append(lab, deps) =>
      var lab' :| AppendStep(s, lab, deps, lab', s');
    case Recreate(lab, deps, t) =>
      var lab', begin' :| RecreateStep(s, lab, deps, t, lab', begin', s');
    case Retarget(read, store) =>
      var lab' :| RetargetStep(s, read, store, lab', s');
      assert Between(s.graph, read, store) == {};
    case Complete(join, f) =>
      var lab' :| CompleteStep(s, join, f, lab', s');
    case CutBack(stamp) =>
  }
}
