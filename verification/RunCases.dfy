/** Particular runs: what cuts and backward revisits do to clocks when they do not leave them right. */
module RunCases {
  import opened Events
  import opened Clocks
  import opened Graphs
  import opened ImmSpec
  import opened Causality
  import opened HbExact
  import opened Sources
  import opened Settling
  import opened StampBounds
  import opened Trimming
  import opened RevisitSpec
  import opened CutSpec
  import opened DepCutSpec
  import opened States
  import opened Additions
  import opened Cutbacks
  import opened Runs
  import opened Outcomes
  import opened ExecutionGraphs
  import opened ImmDrivers
  import opened Visits

  // ----- runs under construction -----

  ghost predicate Reached(d: ImmDriver, ss: seq<State>, acts: seq<Action>, s: State)
    reads d.graph
  {
    IsRun(ss, acts) && |ss| > 0 && ss[|ss| - 1] == s && Tracks(d, s)
  }

  lemma InitialTracked()
    ensures Inv(InitialState()) && Timed(InitialState().graph, 1) && IsRun([InitialState()], [])
  {
    InitialInv();
    hide Inv;
    InitialAt();
    hide InitialState;
  }

  method Start() returns (d: ImmDriver, ghost ss: seq<State>, ghost acts: seq<Action>, ghost s: State)
    ensures fresh(d.graph) && Reached(d, ss, acts, s) && s == InitialState() && d.graph.timestamp == 1 && acts == []
  {
    InitialTracked();
    hide Inv, Timed;
    var g := new ExecutionGraph();
    d := new ImmDriver(g);
    s := InitialState();
    ss, acts := [s], [];
  }

  lemma RunGrows(ss: seq<State>, acts: seq<Action>, act: Action, s: State)
    requires IsRun(ss, acts) && Step(ss[|ss| - 1], act, s)
    ensures IsRun(ss + [s], acts + [act])
  {
    ChainGrows(ss, acts, act, s);
  }

  /** The label at e, views and reader list aside. */
  predicate Has(g: Graph, e: Event, lab: Label) {
    In(g, e) && var l := L(g, e);
    l == lab.(readers := l.readers, hb := l.hb, ppo := l.ppo, pporf := l.pporf, msg := l.msg)
  }

  lemma HasKept(g: Graph, placed: Label, h: Graph, e: Event, lab: Label)
    requires OneMore(g, placed, h) && Has(g, e, lab)
    ensures Has(h, e, lab) && L(h, e).pporf == L(g, e).pporf && L(h, e).ppo == L(g, e).ppo
  {}

  lemma Longer(g: Graph, placed: Label, h: Graph)
    requires OneMore(g, placed, h)
    ensures |h| == |g| && forall t :: 0 <= t < |g| ==> |h[t]| == |g[t]| + if t == placed.pos.thread then 1 else 0
  {}

  /** Adds a label of a running thread. */
  method AddNext(d: ImmDriver, ghost ss: seq<State>, ghost acts: seq<Action>, ghost s: State, lab: Label,
                 deps: EventDeps)
    returns (ghost ss': seq<State>, ghost acts': seq<Action>, ghost s': State, ghost placed: Label)
    requires Reached(d, ss, acts, s) && Visitable(s, lab, deps) && !lab.kind.ThreadStart?
    modifies d.graph
    ensures Reached(d, ss', acts', s') && d.graph.timestamp == old(d.graph.timestamp) + 1
    ensures OneMore(s.graph, placed, s'.graph) && Has(s'.graph, lab.pos, lab.(stamp := old(d.graph.timestamp)))
    ensures s'.blocked == BlockedBy(s.blocked, lab) && s'.shut == s.shut && placed.pos == lab.pos
    ensures ViewsComputed(s.graph, lab.(stamp := old(d.graph.timestamp)), deps, placed)
    ensures acts' == acts + [Append(lab.(stamp := old(d.graph.timestamp)), deps)]
  {
    hide Inv, Timed, Visitable, AppendStep, Step, OneMore, Viewable;
    var p;
    p, s' := VisitLabel(d, s, lab, deps);
    placed := p;
    ghost var l := lab.(stamp := old(d.graph.timestamp));
    AppendedAt(s, l, deps, placed, s');
    AppendStepShape(s, l, deps, placed, s');
    RunGrows(ss, acts, Append(l, deps), s');
    ss', acts' := ss + [s'], acts + [Append(l, deps)];
    PlacedHas(s.graph, l, deps, placed, s'.graph);
  }

  lemma PlacedHas(g: Graph, lab: Label, deps: EventDeps, placed: Label, h: Graph)
    requires OneMore(g, placed, h) && ViewsComputed(g, lab, deps, placed) && Viewable(g, lab, deps)
    ensures Has(h, lab.pos, lab)
  {
    ComputedShape(g, lab, deps, placed);
  }

  // ----- runs in which main creates threads first -----

  function CreateOf(t: nat): Label { NewLabel(Event(0, t), ThreadCreate, Release, 0, Bottom) }

  /** main has created threads 1 to k, which have begun. */
  ghost predicate Spawned(s: State, k: nat) {
    var g := s.graph;
    && |g| == k + 1 && |g[0]| == k + 1 && (forall t :: 1 <= t <= k ==> |g[t]| == 1) && s.blocked == {} && s.shut == {}
    && SpawnedLabels(g, k)
  }

  ghost predicate SpawnedLabels(g: Graph, k: nat) {
    && Has(g, Initializer, MainStart())
    && (forall t: nat :: 1 <= t <= k ==> Has(g, Event(0, t), CreateOf(t).(stamp := 2 * t - 1)))
    && (forall t: nat :: 1 <= t <= k ==> Has(g, Event(t, 0), StartLabel(t, Event(0, t)).(stamp := 2 * t)))
  }

  lemma AppendedShape(s: State, lab: Label, deps: EventDeps, s': State)
    requires Step(s, Append(lab, deps), s')
    ensures exists placed :: OneMore(Roomy(s.graph, lab), placed, s'.graph) && placed.pos == lab.pos
    ensures Has(s'.graph, lab.pos, lab)
    ensures s'.blocked == BlockedBy(s.blocked, lab) && s'.shut == s.shut
  {
    var placed :| AppendStep(s, lab, deps, placed, s');
    AppendStepShape(s, lab, deps, placed, s');
    var r := Roomy(s.graph, lab);
    hide Viewable, ViewsComputed, Placed, Issued, Roomy, AppendStep, Step;
    ViewableShape(r, lab, deps);
    ComputedShape(r, lab, deps, placed);
    PlacedOneMore(r, placed);
    PlacedHas(r, lab, deps, placed, s'.graph);
  }

  lemma SpawnedMore(s: State, k: nat, s1: State, s': State)
    requires Spawned(s, k) && Step(s, Append(CreateOf(k + 1).(stamp := 2 * k + 1), NoDeps()), s1)
    requires Step(s1, Append(StartLabel(k + 1, Event(0, k + 1)).(stamp := 2 * k + 2), NoDeps()), s')
    ensures Spawned(s', k + 1)
  {
    hide Step, Settled, OneMore, Has, SpawnedLabels;
    AppendedShape(s, CreateOf(k + 1).(stamp := 2 * k + 1), NoDeps(), s1);
    AppendedShape(s1, StartLabel(k + 1, Event(0, k + 1)).(stamp := 2 * k + 2), NoDeps(), s');
    ThreadAdded(s.graph, k, s1.graph, s'.graph);
  }

  lemma ThreadAdded(g: Graph, k: nat, g1: Graph, h: Graph)
    requires |g| == k + 1 && |g[0]| == k + 1 && (forall t :: 1 <= t <= k ==> |g[t]| == 1) && SpawnedLabels(g, k)
    requires exists p :: OneMore(g, p, g1) && p.pos == Event(0, k + 1)
    requires Has(g1, Event(0, k + 1), CreateOf(k + 1).(stamp := 2 * k + 1))
    requires exists p :: OneMore(g1 + [[]], p, h) && p.pos == Event(k + 1, 0)
    requires Has(h, Event(k + 1, 0), StartLabel(k + 1, Event(0, k + 1)).(stamp := 2 * k + 2))
    ensures |h| == k + 2 && |h[0]| == k + 2 && (forall t :: 1 <= t <= k + 1 ==> |h[t]| == 1) && SpawnedLabels(h, k + 1)
  {
    var p :| OneMore(g, p, g1) && p.pos == Event(0, k + 1);
    var p' :| OneMore(g1 + [[]], p', h) && p'.pos == Event(k + 1, 0);
    forall x, lab | Has(g, x, lab) ensures Has(h, x, lab) { HasTwice(g, p, g1, p', h, x, lab); }
    HasOnce(g1, p', h, Event(0, k + 1), CreateOf(k + 1).(stamp := 2 * k + 1));
    hide Has;
    forall t: nat | 1 <= t <= k + 1
      ensures Has(h, Event(0, t), CreateOf(t).(stamp := 2 * t - 1))
      ensures Has(h, Event(t, 0), StartLabel(t, Event(0, t)).(stamp := 2 * t))
    {
      if t <= k { assert Has(g, Event(0, t), CreateOf(t).(stamp := 2 * t - 1)); }
    }
  }

  lemma HasOnce(g: Graph, p: Label, h: Graph, x: Event, lab: Label)
    requires OneMore(g + [[]], p, h) && Has(g, x, lab)
    ensures Has(h, x, lab)
  {
    assert In(g + [[]], x) && L(g + [[]], x) == L(g, x);
  }

  lemma HasTwice(g: Graph, p: Label, g1: Graph, p': Label, h: Graph, x: Event, lab: Label)
    requires OneMore(g, p, g1) && OneMore(g1 + [[]], p', h) && Has(g, x, lab)
    ensures Has(h, x, lab)
  {
    HasKept(g, p, g1, x, lab);
    HasOnce(g1, p', h, x, lab);
  }

  /** main creates another thread, which begins. */
  method CreateNext(d: ImmDriver, ghost ss: seq<State>, ghost acts: seq<Action>, ghost s: State, k: nat)
    returns (ghost ss': seq<State>, ghost acts': seq<Action>, ghost s': State)
    requires Reached(d, ss, acts, s) && Spawned(s, k) && d.graph.timestamp == 2 * k + 1
    modifies d.graph
    ensures Reached(d, ss', acts', s') && Spawned(s', k + 1) && d.graph.timestamp == 2 * k + 3
    ensures forall a :: a in acts' ==> a in acts || a.Append?
  {
    hide Inv, Timed, Step, Spawned, Creatable;
    SpawnVisitable(s, k);
    ghost var s1, s2;
    var cid;
    cid, s1, s2 := VisitThreadCreate(d, s, CreateOf(k + 1), NoDeps());
    SpawnedMore(s, k, s1, s2);
    ghost var create, begin := Append(CreateOf(k + 1).(stamp := 2 * k + 1), NoDeps()),
        Append(StartLabel(k + 1, Event(0, k + 1)).(stamp := 2 * k + 2), NoDeps());
    RunGrows(ss, acts, create, s1);
    RunGrows(ss + [s1], acts + [create], begin, s2);
    ss', acts', s' := ss + [s1] + [s2], acts + [create] + [begin], s2;
  }

  lemma SpawnVisitable(s: State, k: nat)
    requires Spawned(s, k)
    ensures Creatable(s, CreateOf(k + 1), NoDeps()) && |s.graph| == k + 1
    ensures forall t :: 0 <= t < |s.graph| ==> s.graph[t] != [] && s.graph[t][0].kind != ThreadStart(Event(0, k + 1))
  {
    var g := s.graph;
    assert In(g, Event(0, k)) && !L(g, Event(0, k)).kind.ThreadFinish? by {
      if k > 0 { assert Has(g, Event(0, k), CreateOf(k).(stamp := 2 * k - 1)); }
    }
    forall t | 0 <= t < |g| ensures g[t] != [] && g[t][0].kind != ThreadStart(Event(0, k + 1)) {
      if t > 0 { assert Has(g, Event(t, 0), StartLabel(t, Event(0, t)).(stamp := 2 * t)); }
    }
  }

  method Spawn(k: nat) returns (d: ImmDriver, ghost ss: seq<State>, ghost acts: seq<Action>, ghost s: State)
    ensures fresh(d.graph) && Reached(d, ss, acts, s) && Spawned(s, k) && d.graph.timestamp == 2 * k + 1
    ensures forall a :: a in acts ==> a.Append?
  {
    hide Inv, Timed, Step, Spawned;
    d, ss, acts, s := Start();
    InitialSpawned();
    var n := 0;
    while n < k
      invariant 0 <= n <= k && fresh(d.graph) && Reached(d, ss, acts, s) && Spawned(s, n)
      invariant d.graph.timestamp == 2 * n + 1 && forall a :: a in acts ==> a.Append?
    {
      ss, acts, s := CreateNext(d, ss, acts, s, n);
      n := n + 1;
    }
  }

  lemma InitialSpawned()
    ensures Spawned(InitialState(), 0)
  {
    InitialAt();
    assert InitialState().blocked == {} && InitialState().shut == {};
    hide InitialState;
  }

  // ----- a join that outlives its child's finish -----

  const CREATE: Event := Event(0, 1)

  const STORE: Event := Event(0, 2)

  const JOIN: Event := Event(0, 3)

  const READ: Event := Event(1, 1)

  const FINISH: Event := Event(1, 2)

  function StoreLabel(): Label { NewLabel(STORE, Write(PlainWrite), Monotonic, 1, Bottom) }

  function ReadLabel(): Label { NewLabel(READ, Read(PlainRead), Monotonic, 1, STORE) }

  function JoinOf(i: nat): Label { NewLabel(Event(0, i), ThreadJoin(1, Initializer), Acquire, 0, Bottom) }

  function FinishLabel(): Label { NewLabel(FINISH, ThreadFinish(Initializer), Release, 0, Bottom) }

  /** main joins thread 1 at index i of thread 0, once the graph is that long. */
  lemma JoinVisitable(s: State, i: nat)
    requires Begun(s.graph) && |s.graph| == 2 && i >= 1 && |s.graph[0]| == i && s.blocked == {}
    requires !L(s.graph, Event(0, i - 1)).kind.ThreadFinish?
    ensures Visitable(s, JoinOf(i), NoDeps())
  {}

  lemma StoreVisitable(s: State)
    requires Spawned(s, 1)
    ensures Visitable(s, StoreLabel(), NoDeps())
    ensures Has(s.graph, Initializer, MainStart()) && Has(s.graph, Event(1, 0), StartLabel(1, CREATE).(stamp := 2))
  {
    assert Has(s.graph, CREATE, CreateOf(1).(stamp := 1));
  }

  lemma ReadVisitable(s: State)
    requires Waiting(s)
    ensures Visitable(s, ReadLabel(), NoDeps())
  {}

  lemma FinishVisitable(s: State)
    requires |s.graph| == 2 && |s.graph[1]| == 2 && 1 !in s.blocked && Has(s.graph, READ, ReadLabel().(stamp := 5))
    ensures Visitable(s, FinishLabel(), NoDeps())
  {
    assert L(s.graph, READ) == s.graph[1][1];
  }

  /** The join at index i, added at stamp t, has been completed by the finish, which is younger than the read. */
  ghost predicate JoinedAt(g: Graph, i: nat, t: nat) {
    && In(g, Event(0, i)) && L(g, Event(0, i)).kind == ThreadJoin(1, FINISH) && L(g, Event(0, i)).stamp == t
    && In(g, FINISH) && L(g, FINISH).kind.ThreadFinish? && L(g, FINISH).stamp == 6
    && IsReadAt(g, READ) && L(g, READ).stamp == 5 && L(g, READ).rf == STORE
  }

  /** main waits for thread 1, which has not added anything. */
  ghost predicate Waiting(s: State) {
    && |s.graph| == 2 && |s.graph[0]| == 4 && |s.graph[1]| == 1 && s.blocked == {0} && s.shut == {}
    && Has(s.graph, STORE, StoreLabel().(stamp := 3)) && Has(s.graph, JOIN, JoinOf(3).(stamp := 4))
    && Has(s.graph, Event(1, 0), StartLabel(1, CREATE).(stamp := 2))
  }

  method JoinWaits() returns (d: ImmDriver, ghost ss: seq<State>, ghost acts: seq<Action>, ghost s: State)
    ensures fresh(d.graph) && Reached(d, ss, acts, s) && Waiting(s) && d.graph.timestamp == 5
  {
    hide Inv, Timed, Step, Visitable, ViewsComputed, OneMore, Has, SpawnedLabels;
    ghost var placed;
    d, ss, acts, s := Spawn(1);
    StoreVisitable(s);
    ghost var g := s.graph;
    ss, acts, s, placed := AddNext(d, ss, acts, s, StoreLabel(), NoDeps());
    Longer(g, placed, s.graph);
    HasKept(g, placed, s.graph, Event(1, 0), StartLabel(1, CREATE).(stamp := 2));
    InvStarted(s);
    AfterStore(s);
    g := s.graph;
    ss, acts, s, placed := AddNext(d, ss, acts, s, JoinOf(3), NoDeps());
    Longer(g, placed, s.graph);
    HasKept(g, placed, s.graph, Event(1, 0), StartLabel(1, CREATE).(stamp := 2));
    HasKept(g, placed, s.graph, STORE, StoreLabel().(stamp := 3));
  }

  lemma AfterStore(s: State)
    requires Begun(s.graph) && |s.graph| == 2 && |s.graph[0]| == 3 && s.blocked == {}
    requires Has(s.graph, STORE, StoreLabel().(stamp := 3))
    ensures Visitable(s, JoinOf(3), NoDeps())
  {
    JoinVisitable(s, 3);
  }

  /** Thread 1 has read and finished. */
  ghost predicate ChildDone(s: State) {
    && |s.graph| == 2 && |s.graph[0]| == 4 && |s.graph[1]| == 3 && s.blocked == {0} && s.shut == {}
    && Has(s.graph, JOIN, JoinOf(3).(stamp := 4)) && Has(s.graph, READ, ReadLabel().(stamp := 5))
    && Has(s.graph, FINISH, FinishLabel().(stamp := 6))
  }

  method ChildFinishes() returns (d: ImmDriver, ghost ss: seq<State>, ghost acts: seq<Action>, ghost s: State)
    ensures fresh(d.graph) && Reached(d, ss, acts, s) && ChildDone(s) && d.graph.timestamp == 7
  {
    hide Inv, Timed, Step, Visitable, ViewsComputed, OneMore, Has;
    ghost var placed;
    d, ss, acts, s := JoinWaits();
    ReadVisitable(s);
    ghost var g := s.graph;
    ss, acts, s, placed := AddNext(d, ss, acts, s, ReadLabel(), NoDeps());
    Longer(g, placed, s.graph);
    HasKept(g, placed, s.graph, JOIN, JoinOf(3).(stamp := 4));
    FinishVisitable(s);
    g := s.graph;
    ss, acts, s, placed := AddNext(d, ss, acts, s, FinishLabel(), NoDeps());
    Longer(g, placed, s.graph);
    HasKept(g, placed, s.graph, JOIN, JoinOf(3).(stamp := 4));
    HasKept(g, placed, s.graph, READ, ReadLabel().(stamp := 5));
  }

  /** main waits for thread 1, which reads and finishes, whereupon the join is completed. */
  method JoinFinished() returns (d: ImmDriver, ghost ss: seq<State>, ghost acts: seq<Action>, ghost s: State)
    ensures fresh(d.graph) && Reached(d, ss, acts, s) && s.blocked == {} && s.shut == {} && d.graph.timestamp == 7
    ensures |s.graph| == 2 && |s.graph[0]| == 4 && |s.graph[1]| == 3 && JoinedAt(s.graph, 3, 4)
  {
    hide Inv, Timed, Step;
    ghost var lab;
    d, ss, acts, s := ChildFinishes();
    var ok;
    ghost var was := s;
    ok, lab, s := UpdateJoin(d, s, JOIN, FINISH);
    CompletedLabels(was, JOIN, FINISH, lab, s);
    RunGrows(ss, acts, Complete(JOIN, FINISH), s);
    ss, acts := ss + [s], acts + [Complete(JOIN, FINISH)];
  }

  /** A run whose last graph, cut back to a read of the child, does not leave all clocks right: the finish goes, the
      join stays. */
  method JoinOutlivesFinish() returns (d: ImmDriver, ghost ss: seq<State>, ghost acts: seq<Action>, ghost s: State)
    ensures fresh(d.graph) && Reached(d, ss, acts, s) && s.blocked == {} && s.shut == {} && !RefsKept(s.graph, 6)
    ensures IsReadAt(s.graph, READ) && L(s.graph, READ).stamp == 5 && L(s.graph, READ).rf == STORE
    ensures forall s' :: CutStep(s, 5, s') ==> Inv(s') && !exists o :: InvAt(s'.graph, o)
  {
    hide Inv, Timed, Step, CutStep, InvAt;
    d, ss, acts, s := JoinFinished();
    assert Below(s.graph, 6, JOIN) && Dangles(s.graph, 6, JOIN);
    forall s' | CutStep(s, 5, s') ensures Inv(s') && !exists o :: InvAt(s'.graph, o) {
      CutKeepsClocksIff(s, 5, s');
      CutKeeps(s, 5, s');
    }
  }

  lemma StaleLink(s: State, stamp: nat)
    requires Inv(s) && JoinedAt(s.graph, 3, 4) && L(s.graph, FINISH).kind == ThreadFinish(Event(0, 4)) && stamp == 5
    ensures !LinkedBack(s.graph, stamp)
  {
    GraphParts(s);
    hide Inv, KeptBy, ThreadsIncrease;
    DeletedIffNotKept(s.graph, stamp, JOIN);
    DeletedIffNotKept(s.graph, stamp, FINISH);
  }

  /** A run whose last graph has a child joined twice: cut back to a read of the child, the cut for dependency
      graphs leaves the first join pointing at the deleted finish, which the plain cut does not. */
  method JoinedTwice() returns (d: ImmDriver, ghost ss: seq<State>, ghost acts: seq<Action>, ghost s: State)
    ensures fresh(d.graph) && Reached(d, ss, acts, s) && s.shut == {} && Begun(s.graph) && !LinkedBack(s.graph, 5)
    ensures IsReadAt(s.graph, READ) && L(s.graph, READ).stamp == 5 && L(s.graph, READ).rf == STORE
    ensures forall h :: IsDepCut(s.graph, 5, h) ==> h != Cut(s.graph, 5)
  {
    hide Inv, Timed, Step, Visitable, ViewsComputed, IsDepCut, Cut, LinkedBack, OneMore;
    ghost var placed, lab;
    d, ss, acts, s := JoinFinished();
    InvStarted(s);
    JoinVisitable(s, 4);
    ghost var s1 := s;
    ss, acts, s, placed := AddNext(d, ss, acts, s, JoinOf(4), NoDeps());
    JoinedStays(s1.graph, placed, s.graph);
    var ok;
    ghost var s2 := s;
    ok, lab, s := UpdateJoin(d, s, Event(0, 4), FINISH);
    CompletedLabels(s2, Event(0, 4), FINISH, lab, s);
    RunGrows(ss, acts, Complete(Event(0, 4), FINISH), s);
    ss, acts := ss + [s], acts + [Complete(Event(0, 4), FINISH)];
    StaleLink(s, 5);
    InvStarted(s);
    forall h | IsDepCut(s.graph, 5, h) ensures h != Cut(s.graph, 5) { CutsAgreeIff(s, 5, h); }
  }

  lemma JoinedStays(g: Graph, placed: Label, h: Graph)
    requires OneMore(g, placed, h) && JoinedAt(g, 3, 4) && placed.pos == Event(0, 4)
    requires |g| == 2 && |g[0]| == 4 && |g[1]| == 3 && Has(h, Event(0, 4), JoinOf(4).(stamp := 7))
    ensures JoinedAt(h, 3, 4) && LastRecomputable(h, Event(0, 4)) && L(h, Event(0, 4)).kind.ThreadJoin?
    ensures L(h, Event(0, 4)).kind.childId == 1 && |h| == 2 && |h[1]| == 3
  {}
}
