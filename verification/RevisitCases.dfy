/** Runs of two threads and backward revisits of their graphs: causal closure fails after one, after another hb views
    miss something, and the third is part of a run that goes on. */
module RevisitCases {
  import opened Events
  import opened Clocks
  import opened Graphs
  import opened ImmSpec
  import opened Causality
  import opened HbExact
  import opened Sources
  import opened Settling
  import opened StampBounds
  import opened Trimming
  import opened RevisitSpec
  import opened Construction
  import opened States
  import opened Additions
  import opened Cutbacks
  import opened Outcomes
  import opened HbRevisits
  import opened Runs
  import opened ExecutionGraphs
  import opened DepExecutionGraphs
  import opened Exchanges
  import opened ImmDrivers
  import opened Visits
  import opened RunCases
  import opened Scripts

  // ----- the driver makes such revisits -----

  /** A write of a child, the only one of its address, and the only read main has of the initialiser there: the first
      label it adds after creating its children. */
  ghost predicate Alone(g: Graph, p: Script, read: Event, write: Event) {
    && read == Event(0, 1 + p.kids) && IsReadAt(g, read) && L(g, read).rf == Initializer
    && IsWriteAt(g, write) && write.thread >= 1 && !L(g, write).IsRmwStore() && L(g, write).addr == L(g, read).addr
    && forall e :: IsReadAt(g, e) && L(g, e).addr == L(g, write).addr && L(g, e).rf == Initializer ==> e == read
  }

  lemma AloneCoherent(s: State, p: Script, n: nat, rec: Records, read: Event, write: Event)
    requires Inv(s) && Ran(s, p, n) && AllOrdinary(p, n) && KidsRelaxed(p, n) && p.kids <= 2
    requires Alone(s.graph, p, read, write) && PlainRecords(s.graph, rec)
    ensures CoherentRevisit(s.graph, rec, write, read)
  {
    hide Inv, Ran, AllOrdinary, KidsRelaxed;
    var g := s.graph;
    if HbHas(g, write, read) { EarlyKnows(s, p, n, read, write); }
    assert forall x :: !Succeeds([write], write, x);
    forall e | CoBefore(g, [write], write, e) ensures !HbHas(g, e.Prev(), read) {
      assert forall x :: x != Initializer ==> !Succeeds([write], x, write);
      if HbHas(g, e.Prev(), read) { EarlyKnows(s, p, n, read, e.Prev()); }
    }
  }

  /** If all other accesses are kept, the driver makes the revisit. */
  lemma AloneMade(s: State, p: Script, n: nat, rec: Records, read: Event, write: Event, v: Clock)
    requires Inv(s) && Ran(s, p, n) && AllOrdinary(p, n) && KidsRelaxed(p, n) && p.kids <= 2
    requires Alone(s.graph, p, read, write) && PlainRecords(s.graph, rec) && !CHas(s.graph, write, read)
    requires forall x :: IsAccess(s.graph, x) && x != read ==> v.Has(x)
    ensures MakesPlain(s.graph, rec, Backward(read, write), v)
  {
    hide Inv, AllOrdinary, KidsRelaxed, CoherentRevisit;
    AloneCoherent(s, p, n, rec, read, write);
    InitialFirst(s, p, n);
    hide Ran;
    var g, r := s.graph, Backward(read, write);
    assert forall w :: Succeeds([write], Initializer, w) ==> w == write;
    assert !NotMaximal(g, rec, v, r, read);
  }

  lemma InitialFirst(s: State, p: Script, n: nat)
    requires Ran(s, p, n)
    ensures In(s.graph, Initializer) && L(s.graph, Initializer).stamp == 0
  {}

  // ----- load buffering through a release that is read within its own thread -----

  const A: int := 1

  const Y: int := 2

  const Z: int := 3

  const READ_A: Event := Event(0, 2)

  const STORE_Y: Event := Event(0, 3)

  const READ_Y: Event := Event(0, 4)

  const STORE_Z: Event := Event(0, 5)

  const READ_Z: Event := Event(1, 1)

  const STORE_A: Event := Event(1, 2)

  function DataDep(d: Event): EventDeps { EventDeps([], [d], [], [], []) }

  function LbItem(n: nat): Item {
    match n
    case 0 => Item(NewLabel(READ_A, Read(PlainRead), Monotonic, A, Initializer), NoDeps())
    case 1 => Item(NewLabel(STORE_Y, Write(PlainWrite), Release, Y, Bottom), NoDeps())
    case 2 => Item(NewLabel(READ_Y, Read(PlainRead), Monotonic, Y, STORE_Y), NoDeps())
    case 3 => Item(NewLabel(STORE_Z, Write(PlainWrite), Monotonic, Z, Bottom), DataDep(READ_Y))
    case 4 => Item(NewLabel(READ_Z, Read(PlainRead), Monotonic, Z, STORE_Z), NoDeps())
    case _ => Item(NewLabel(STORE_A, Write(PlainWrite), Monotonic, A, Bottom), DataDep(READ_Z))
  }

  /** r = a; y =rel 1; x = y; z = x   in thread 0, and in thread 1   b = z; a = b. */
  function Lb(): Script { Script(1, 4, 2, LbItem) }

  /** Besides the read of a itself only the release of y knows it. */
  function LbKnowers(): set<Event> { {READ_A, STORE_Y} }

  ghost predicate LbClocks(g: Graph, n: nat) {
    && Hidden(g, READ_A, LbKnowers(), {READ_A})
    && (n >= 4 ==> CHas(g, STORE_Z, READ_Y)) && (n >= 6 ==> CHas(g, STORE_A, READ_Z))
  }

  lemma LbShape(n: nat)
    requires n < 6
    ensures Weak(Lb(), n, LbKnowers()) && Unreleased(Lb(), n) && Unfinished(Lb(), n)
    ensures Ordinary(Lb().Lab(n)) && Lb().Lab(n).pos == Lb().Pos(n) && Lb().Lab(n).ppo == EmptyClock
    ensures !Lb().Lab(n).kind.ThreadFinish? && Lb().Pos(n).thread <= 1
  {}

  lemma LbShielded(n: nat)
    requires n < 6
    ensures Shielded(Lb(), n, READ_A, LbKnowers(), {READ_A})
  {}

  lemma LbItems(n: nat)
    requires n < 6
    ensures var it := Lb().item(n);
            && it.lab.pos == Lb().Pos(n) && Unviewed(it.lab) && it.lab.stamp == 0 && Ordinary(it.lab)
            && WfOrdering(it.lab)
            && !it.lab.IsRmwStore() && !it.lab.kind.Fence?
            && (it.lab.IsRead() ==> n == 0 || n == 2 || n == 4) && (forall d :: it.deps.Has(d) ==> n == 3 || n == 5)
            && (it.lab.IsRead() ==> it.lab.rf == if n == 0 then Initializer else Lb().Pos(n - 1))
            && (forall d :: it.deps.Has(d) ==> d == Lb().Pos(n - 1))
            && (n > 0 ==> Lb().Pos(n - 1).thread == Lb().Pos(n).thread || n == 4)
            && (n > 0 ==> Lb().Pos(n - 1).index < Lb().Pos(n).index || n == 4)
            && (n == 2 || n == 4 ==> Lb().Lab(n - 1).IsWrite())
  {}

  lemma LbGrounded(s: State, n: nat)
    requires Ran(s, Lb(), n) && n < 6
    ensures Grounded(s, Lb(), n)
  {
    hide Ran, Lb;
    LbItems(n);
    assert Lb().kids == 1 by { LbKids(); }
    StartsThere(s, Lb(), n);
    if n >= 1 { ItemAdded(s, Lb(), n, n - 1); }
  }

  lemma LbKids()
    ensures Lb().kids == 1
  {}

  /** What the new label is to know. */
  lemma LbAware(s: State, n: nat, placed: Label)
    requires Inv(s) && Ran(s, Lb(), n) && (n == 3 || n == 5)
    requires ViewsComputed(s.graph, Lb().Lab(n).(stamp := Lb().Stamp(n)), Lb().item(n).deps, placed)
    ensures placed.pporf.Has(if n == 3 then READ_Y else READ_Z)
  {
    hide Inv, ViewsComputed;
    var d := if n == 3 then READ_Y else READ_Z;
    ItemAdded(s, Lb(), n, n - 1);
    StartsThere(s, Lb(), n);
    hide Ran;
    SelfAware(s, d);
    KnowsDep(s.graph, Lb().Lab(n).(stamp := Lb().Stamp(n)), Lb().item(n).deps, placed, d);
  }

  lemma LbStep(s: State, n: nat, placed: Label, s': State)
    requires Inv(s) && Ran(s, Lb(), n) && LbClocks(s.graph, n) && n < 6 && placed.pos == Lb().Pos(n)
    requires Limit(s.graph, Lb().Pos(n)) && OneMore(s.graph, placed, s'.graph)
    requires ViewsComputed(s.graph, Lb().Lab(n).(stamp := Lb().Stamp(n)), Lb().item(n).deps, placed)
    ensures LbClocks(s'.graph, n + 1)
  {
    hide Inv, ViewsComputed, Ran, OneMore, Hidden, Shielded, Weak, Unreleased, Unfinished, CHas;
    LbShape(n);
    LbShielded(n);
    StaysHidden(s, Lb(), n, placed, s', READ_A, LbKnowers(), {READ_A});
    if n == 3 || n == 5 {
      LbAware(s, n, placed);
      NewKnows(s.graph, placed, s'.graph, if n == 3 then READ_Y else READ_Z);
    }
    if n >= 4 { KnowledgeStays(s.graph, placed, s'.graph, STORE_Z, READ_Y); }
  }

  method LbRun() returns (d: ImmDriver, ghost ss: seq<State>, ghost acts: seq<Action>, ghost s: State)
    ensures fresh(d.graph) && Reached(d, ss, acts, s) && Ran(s, Lb(), 6) && LbClocks(s.graph, 6)
    ensures forall a :: a in acts ==> a.Append?
    ensures forall x :: CHas(s.graph, x, STORE_A) ==> x == STORE_A
  {
    hide Inv, Timed, LbClocks, Step, OneMore, ViewsComputed, Ran, Spawned, Grounded, Unfinished, Weak, Unreleased;
    d, ss, acts, s := Spawn(1);
    LbStarts(s);
    var n := 0;
    while n < 6
      invariant 0 <= n <= 6 && fresh(d.graph) && Reached(d, ss, acts, s) && Ran(s, Lb(), n) && LbClocks(s.graph, n)
      invariant d.graph.timestamp == Lb().Stamp(n) && forall a :: a in acts ==> a.Append?
      invariant n == 6 ==> forall x :: CHas(s.graph, x, STORE_A) ==> x == STORE_A
    {
      LbGrounded(s, n);
      LbShape(n);
      ghost var was, placed := s, LbItem(n).lab;
      ss, acts, s, placed := RunNext(d, ss, acts, s, Lb(), n, LbItem(n));
      LbStep(was, n, placed, s);
      StartsThere(was, Lb(), n);
      JustAdded(was, placed, s);
      n := n + 1;
    }
  }

  lemma LbStarts(s: State)
    requires Inv(s) && Spawned(s, 1)
    ensures Ran(s, Lb(), 0) && LbClocks(s.graph, 0)
  {
    hide Inv;
    RanStarts(s, Lb());
    UnheardOf(s, READ_A, LbKnowers(), {READ_A});
  }

  lemma LbPlaces(s: State)
    requires Ran(s, Lb(), 6)
    ensures var g := s.graph;
            && IsReadAt(g, READ_A) && IsWriteAt(g, STORE_A) && IsWriteAt(g, STORE_Y) && IsReadAt(g, READ_Y)
            && L(g, READ_Y).rf == STORE_Y && IsReadAt(g, READ_Z) && L(g, READ_Z).rf == STORE_Z
            && IsListedRelease(L(g, STORE_Y))
  {
    hide Ran;
    ItemAdded(s, Lb(), 6, 0);
    ItemAdded(s, Lb(), 6, 1);
    ItemAdded(s, Lb(), 6, 2);
    ItemAdded(s, Lb(), 6, 4);
    ItemAdded(s, Lb(), 6, 5);
  }

  lemma LbUnknown(g: Graph)
    requires LbClocks(g, 6)
    ensures !CHas(g, STORE_A, READ_A) && CHas(g, STORE_Z, READ_Y) && CHas(g, STORE_A, READ_Z)
  {}

  /** The store of a knows the read of y, but not that of a; the store of y knows the read of a. */
  lemma LbKnown(s: State)
    requires Inv(s) && Ran(s, Lb(), 6) && LbClocks(s.graph, 6)
    ensures var g := s.graph;
            && IsReadAt(g, READ_A) && IsWriteAt(g, STORE_A) && IsWriteAt(g, STORE_Y)
            && IsReadAt(g, READ_Y) && L(g, READ_Y).rf == STORE_Y
            && CHas(g, STORE_A, READ_Y) && !CHas(g, STORE_A, READ_A) && CHas(g, STORE_Y, READ_A)
            && CHas(g, STORE_A, READ_Z) && CHas(g, STORE_A, STORE_Z) && CHas(g, STORE_A, STORE_A)
  {
    hide Inv;
    LbPlaces(s);
    StartsThere(s, Lb(), 6);
    hide Ran;
    LbUnknown(s.graph);
    ReleaseKnows(s, STORE_Y, READ_A);
    SelfAware(s, STORE_A);
    KnowsSource(s, READ_Z);
    KnowsOnward(s, STORE_A, READ_Z, STORE_Z);
    KnowsOnward(s, STORE_A, STORE_Z, READ_Y);
  }

  /** What a prefix reads within its threads is kept. */
  lemma InternalKept(g: Graph, read: Event, write: Event, v: Clock, x: Event)
    requires IsRevisitView(g, Backward(read, write), v) && L(g, write).pporf.Wf() && CHas(g, write, x) && IsReadAt(g, x)
    requires L(g, x).rf.thread == x.thread && 1 <= L(g, x).rf.index < x.index
    ensures v.Has(L(g, x).rf)
  {
    var p, e := L(g, write).pporf, L(g, x).rf;
    var preds :| IsPrefixView(g, L(g, read).stamp, preds) && PrefixAdded(g, preds, p, v);
    JoinedHas(preds, p);
    HasAt(p, x);
    HasAt(preds.Joined(p), x);
    assert ReadInternally(g, preds.Joined(p), p, e);
  }

  /** The revisit keeps the store of y, which still knows the read of a. */
  lemma LbKept(s: State, v: Clock, c: Graph)
    requires Inv(s) && Ran(s, Lb(), 6) && LbClocks(s.graph, 6)
    requires IsRevisitView(s.graph, Backward(READ_A, STORE_A), v) && IsCopy(s.graph, v, c)
    ensures CHas(c, STORE_Y, READ_A) && IsWriteAt(c, STORE_Y)
  {
    hide Inv, Ran, LbClocks, IsRevisitView, IsCopy, InvAt, HeldAllOk, GraphOk, Settled, Revisitable;
    var g := s.graph;
    LbKnown(s);
    var o := InvOrder(s);
    InvRevisitable(g, s.blocked, o);
    StoreClock(g);
    InternalKept(g, READ_A, STORE_A, v, READ_Y);
    RevisitViewInside(g, Backward(READ_A, STORE_A), v);
    CopyHas(g, v, c, STORE_Y);
    CopiedReadAt(g, v, c, STORE_Y);
  }

  lemma LbNotClosed(s: State, v: Clock, c: Graph, r: Graph, next: nat, lab: Label, s': State)
    requires Inv(s) && Ran(s, Lb(), 6) && LbClocks(s.graph, 6)
    requires RevisitMade(s, READ_A, STORE_A, v, c, r, next, lab, s')
    requires forall x :: CHas(s.graph, x, STORE_A) ==> x == STORE_A
    ensures !ClosedBut(s'.graph, s'.blocked)
  {
    hide Inv, Ran, LbClocks, RevisitMade, IsRevisitView, IsCopy, ClosedBut, Stuck;
    LbKnown(s);
    MadeEnds(s, READ_A, STORE_A, v, c, r, next, lab, s');
    MadeStuck(s, READ_A, STORE_A, v, c, r, next, lab, s');
    RevisitClosedIff(s, READ_A, STORE_A, v, c, r, next, lab, s');
    CopiedRead(s, READ_A, STORE_A, v, c);
    LbKept(s, v, c);
  }

  function LbRecords(): Records {
    Records({}, {}, map[A := [STORE_A], Y := [STORE_Y], Z := [STORE_Z]])
  }

  /** The accesses of the graph. */
  ghost predicate LbAccesses(g: Graph) {
    && IsReadAt(g, READ_A) && L(g, READ_A).rf == Initializer && L(g, READ_A).addr == A && L(g, READ_A).stamp == 3
    && IsWriteAt(g, STORE_Y) && !L(g, STORE_Y).IsRmwStore() && L(g, STORE_Y).addr == Y && L(g, STORE_Y).stamp == 4
    && IsReadAt(g, READ_Y) && L(g, READ_Y).rf == STORE_Y && L(g, READ_Y).addr == Y && L(g, READ_Y).stamp == 5
    && IsWriteAt(g, STORE_Z) && !L(g, STORE_Z).IsRmwStore() && L(g, STORE_Z).addr == Z && L(g, STORE_Z).stamp == 6
    && IsReadAt(g, READ_Z) && L(g, READ_Z).rf == STORE_Z && L(g, READ_Z).addr == Z && L(g, READ_Z).stamp == 7
    && IsWriteAt(g, STORE_A) && !L(g, STORE_A).IsRmwStore() && L(g, STORE_A).addr == A && L(g, STORE_A).stamp == 8
    && forall x :: IsAccess(g, x) ==>
           x == READ_A || x == STORE_Y || x == READ_Y || x == STORE_Z || x == READ_Z || x == STORE_A
  }

  lemma LbAccess(s: State, x: Event)
    requires Ran(s, Lb(), 6) && IsAccess(s.graph, x)
    ensures x == READ_A || x == STORE_Y || x == READ_Y || x == STORE_Z || x == READ_Z || x == STORE_A
  {
    hide Ran;
    if Lb().Starts(x) {
      RanStart(s, Lb(), 6, x);
    } else {
      RanAt(s, Lb(), 6, x);
    }
  }

  lemma LbListed(s: State)
    requires Ran(s, Lb(), 6)
    ensures LbAccesses(s.graph)
  {
    hide Ran;
    ItemAdded(s, Lb(), 6, 0);
    ItemAdded(s, Lb(), 6, 1);
    ItemAdded(s, Lb(), 6, 2);
    ItemAdded(s, Lb(), 6, 3);
    ItemAdded(s, Lb(), 6, 4);
    ItemAdded(s, Lb(), 6, 5);
    forall x | IsAccess(s.graph, x)
      ensures x == READ_A || x == STORE_Y || x == READ_Y || x == STORE_Z || x == READ_Z || x == STORE_A
    {
      LbAccess(s, x);
    }
  }

  lemma LbRecorded(g: Graph)
    requires LbAccesses(g)
    ensures PlainRecords(g, LbRecords())
  {
    forall r | IsReadAt(g, r) ensures ReadNewest(g, r) {
      assert IsAccess(g, r);
      forall w | IsWriteAt(g, w) && L(g, w).addr == L(g, r).addr && L(g, w).stamp < L(g, r).stamp
        ensures w == L(g, r).rf
      {
        assert IsAccess(g, w);
      }
    }
    forall w | IsWriteAt(g, w)
      ensures L(g, w).addr in LbRecords().co && LbRecords().co[L(g, w).addr] == [w]
    {
      assert IsAccess(g, w);
    }
    hide ReadNewest;
  }

  lemma LbAlone(g: Graph)
    requires LbAccesses(g)
    ensures Alone(g, Lb(), READ_A, STORE_A)
  {
    forall e | IsReadAt(g, e) && L(g, e).addr == L(g, STORE_A).addr && L(g, e).rf == Initializer
      ensures e == READ_A
    {
      assert IsAccess(g, e);
    }
  }

  lemma LbRelaxed()
    ensures AllOrdinary(Lb(), 6) && KidsRelaxed(Lb(), 6)
  {
    forall i: nat | i < 6 ensures Ordinary(Lb().Lab(i)) { LbShape(i); }
  }

  lemma LbMakes(s: State, v: Clock)
    requires Inv(s) && Ran(s, Lb(), 6) && LbClocks(s.graph, 6)
    requires IsRevisitView(s.graph, Backward(READ_A, STORE_A), v)
    ensures MakesPlain(s.graph, LbRecords(), Backward(READ_A, STORE_A), v) && PlainRecords(s.graph, LbRecords())
  {
    hide Inv, Ran, LbClocks, IsRevisitView, InvAt, HeldAllOk, GraphOk, Settled, Revisitable, LbRecords, PlainRecords,
         Lb, MakesPlain, Alone;
    var g := s.graph;
    LbKnown(s);
    LbListed(s);
    LbRecorded(g);
    LbAlone(g);
    LbRelaxed();
    var o := InvOrder(s);
    InvRevisitable(g, s.blocked, o);
    StoreClock(g);
    InternalKept(g, READ_A, STORE_A, v, READ_Y);
    forall x | IsAccess(g, x) && x != READ_A ensures v.Has(x) {
      if x != STORE_Y { PrefixInView(g, READ_A, STORE_A, v, x); }
    }
    LbKids();
    AloneMade(s, Lb(), 6, LbRecords(), READ_A, STORE_A, v);
  }

  lemma StoreClock(g: Graph)
    requires Revisitable(g) && IsWriteAt(g, STORE_A)
    ensures L(g, STORE_A).pporf.Wf()
  {}

  /** The revisit of the read of a by the store of a keeps the store of y, which was read within its thread, and with it
      knowledge of what the read read before: the graph is not causally closed any more. */
  method LoadBuffering()
    returns (d: ImmDriver, ghost ss: seq<State>, ghost acts: seq<Action>, ghost s: State, d': ImmDriver,
        ghost s': State)
    ensures Reached(d, ss, acts, s) && d'.graph.events == s'.graph
    ensures (forall a :: a in acts ==> a.Append?) && PlainRecords(s.graph, LbRecords())
    ensures exists v, c, r, next, lab ::
              && RevisitMade(s, READ_A, STORE_A, v, c, r, next, lab, s')
              && MakesPlain(s.graph, LbRecords(), Backward(READ_A, STORE_A), v)
    ensures !CHas(s.graph, STORE_A, READ_A) && forall x :: CHas(s.graph, x, STORE_A) ==> x == STORE_A
    ensures !ClosedBut(s'.graph, s'.blocked)
  {
    hide Inv, Timed, Ran, LbClocks, Step, RevisitMade, ClosedBut, RevisitFits, MakesPlain, PlainRecords, IsRevisitView,
         IsCopy;
    d, ss, acts, s := LbRun();
    LbKnown(s);
    StartsThere(s, Lb(), 6);
    ghost var v, c, r, next, lab;
    d', v, c, r, next, lab, s' := Visits.BackwardRevisit(d, s, READ_A, STORE_A);
    MadeEnds(s, READ_A, STORE_A, v, c, r, next, lab, s');
    LbMakes(s, v);
    LbNotClosed(s, v, c, r, next, lab, s');
  }

  // ----- a fence after the read -----

  const X: int := 1

  const READ_X: Event := Event(0, 2)

  const FENCE: Event := Event(0, 3)

  const PUT_Z: Event := Event(0, 4)

  const TAKE_Z: Event := Event(1, 1)

  const STORE_X: Event := Event(1, 2)

  function FcItem(n: nat): Item {
    match n
    case 0 => Item(NewLabel(READ_X, Read(PlainRead), Monotonic, X, Initializer), NoDeps())
    case 1 => Item(NewLabel(FENCE, Fence, Acquire, 0, Bottom), NoDeps())
    case 2 => Item(NewLabel(PUT_Z, Write(PlainWrite), Monotonic, Z, Bottom), NoDeps())
    case 3 => Item(NewLabel(TAKE_Z, Read(PlainRead), Monotonic, Z, PUT_Z), NoDeps())
    case _ => Item(NewLabel(STORE_X, Write(PlainWrite), Release, X, Bottom), NoDeps())
  }

  /** r = x; fence acq; z = 1   in thread 0, and in thread 1   s = z; x =rel 1. */
  function Fc(): Script { Script(1, 3, 2, FcItem) }

  /** Nobody knows the read of x, and the store of z knows the fence. */
  ghost predicate FcClocks(g: Graph, n: nat) {
    Hidden(g, READ_X, {READ_X}, {READ_X}) && (n >= 3 ==> CHas(g, PUT_Z, FENCE))
  }

  lemma FcShape(n: nat)
    requires n < 5
    ensures Weak(Fc(), n, {READ_X}) && Unreleased(Fc(), n) && Unfinished(Fc(), n)
    ensures Ordinary(Fc().Lab(n)) && Fc().Lab(n).pos == Fc().Pos(n) && Fc().Lab(n).ppo == EmptyClock
    ensures Fc().Pos(n).thread <= 1
  {}

  lemma FcShielded(n: nat)
    requires n < 5
    ensures Shielded(Fc(), n, READ_X, {READ_X}, {READ_X})
  {}

  lemma FcItems(n: nat)
    requires n < 5
    ensures var it := Fc().item(n);
            && it.lab.pos == Fc().Pos(n) && Unviewed(it.lab) && it.lab.stamp == 0 && Ordinary(it.lab)
            && WfOrdering(it.lab)
            && !it.lab.IsRmwStore() && (it.lab.kind.Fence? ==> n == 1) && (it.lab.IsRead() ==> n == 0 || n == 3)
            && (it.lab.IsRead() ==> it.lab.rf == if n == 0 then Initializer else Fc().Pos(2)) && it.deps == NoDeps()
            && Fc().Lab(2).IsWrite() && Fc().kids == 1 && Fc().Pos(1) == FENCE
  {}

  lemma FcGrounded(s: State, n: nat)
    requires Ran(s, Fc(), n) && n < 5
    ensures Grounded(s, Fc(), n)
  {
    hide Ran, Fc;
    FcItems(n);
    StartsThere(s, Fc(), n);
    if n == 3 { ItemAdded(s, Fc(), n, 2); }
    if n == 1 { FenceReads(s); }
  }

  /** The fence scans one read. */
  lemma FenceReads(s: State)
    requires Ran(s, Fc(), 1)
    ensures forall r :: ScannedRead(s.graph, FENCE, r) ==> In(s.graph, L(s.graph, r).rf)
  {
    StartsThere(s, Fc(), 1);
    ItemAdded(s, Fc(), 1, 0);
    hide Ran;
  }

  lemma FcAware(s: State, placed: Label)
    requires Inv(s) && Ran(s, Fc(), 2)
    requires ViewsComputed(s.graph, Fc().Lab(2).(stamp := Fc().Stamp(2)), Fc().item(2).deps, placed)
    ensures placed.pporf.Has(FENCE)
  {
    hide Inv, ViewsComputed;
    ItemAdded(s, Fc(), 2, 1);
    StartsThere(s, Fc(), 2);
    hide Ran;
    SelfAware(s, FENCE);
    KnowsFence(s.graph, Fc().Lab(2).(stamp := Fc().Stamp(2)), Fc().item(2).deps, placed, FENCE);
  }

  lemma FcStep(s: State, n: nat, placed: Label, s': State)
    requires Inv(s) && Ran(s, Fc(), n) && FcClocks(s.graph, n) && n < 5 && placed.pos == Fc().Pos(n)
    requires Limit(s.graph, Fc().Pos(n)) && OneMore(s.graph, placed, s'.graph)
    requires ViewsComputed(s.graph, Fc().Lab(n).(stamp := Fc().Stamp(n)), Fc().item(n).deps, placed)
    ensures FcClocks(s'.graph, n + 1)
  {
    hide Inv, ViewsComputed, Ran, OneMore, Hidden, Shielded, Weak, Unreleased, Unfinished, CHas;
    FcShape(n);
    FcShielded(n);
    StaysHidden(s, Fc(), n, placed, s', READ_X, {READ_X}, {READ_X});
    if n == 2 {
      FcAware(s, placed);
      NewKnows(s.graph, placed, s'.graph, FENCE);
    }
    if n >= 3 { KnowledgeStays(s.graph, placed, s'.graph, PUT_Z, FENCE); }
  }

  /** The store added last is not known to anybody, in either way. */
  ghost predicate Unheard(g: Graph, w: Event) {
    (forall x :: CHas(g, x, w) ==> x == w) && forall x :: HbHas(g, x, w) ==> x == w
  }

  method FcRun() returns (d: ImmDriver, ghost ss: seq<State>, ghost acts: seq<Action>, ghost s: State)
    ensures fresh(d.graph) && Reached(d, ss, acts, s) && Ran(s, Fc(), 5) && FcClocks(s.graph, 5)
    ensures forall a :: a in acts ==> a.Append?
    ensures Unheard(s.graph, STORE_X)
  {
    hide Inv, Timed, FcClocks, Step, OneMore, ViewsComputed, Ran, Spawned, Grounded, Unfinished, Weak, Unreleased;
    d, ss, acts, s := Spawn(1);
    FcStarts(s);
    var n := 0;
    while n < 5
      invariant 0 <= n <= 5 && fresh(d.graph) && Reached(d, ss, acts, s) && Ran(s, Fc(), n) && FcClocks(s.graph, n)
      invariant d.graph.timestamp == Fc().Stamp(n) && forall a :: a in acts ==> a.Append?
      invariant n == 5 ==> Unheard(s.graph, STORE_X)
    {
      FcGrounded(s, n);
      FcShape(n);
      ghost var was, placed := s, FcItem(n).lab;
      ss, acts, s, placed := RunNext(d, ss, acts, s, Fc(), n, FcItem(n));
      FcStep(was, n, placed, s);
      StartsThere(was, Fc(), n);
      JustAdded(was, placed, s);
      JustAddedHb(was, placed, s);
      n := n + 1;
    }
  }

  lemma FcStarts(s: State)
    requires Inv(s) && Spawned(s, 1)
    ensures Ran(s, Fc(), 0) && FcClocks(s.graph, 0)
  {
    hide Inv;
    RanStarts(s, Fc());
    UnheardOf(s, READ_X, {READ_X}, {READ_X});
  }

  lemma FcPlaces(s: State)
    requires Ran(s, Fc(), 5)
    ensures var g := s.graph;
            && IsReadAt(g, READ_X) && L(g, READ_X).ord == Monotonic && L(g, READ_X).stamp == 3
            && In(g, FENCE) && L(g, FENCE).kind.Fence? && L(g, FENCE).ord == Acquire && IsWriteAt(g, PUT_Z)
            && IsReadAt(g, TAKE_Z) && L(g, TAKE_Z).rf == PUT_Z
            && IsWriteAt(g, STORE_X) && L(g, STORE_X).ord == Release && L(g, STORE_X).kind == Write(PlainWrite)
  {
    hide Ran;
    ItemAdded(s, Fc(), 5, 0);
    ItemAdded(s, Fc(), 5, 1);
    ItemAdded(s, Fc(), 5, 2);
    ItemAdded(s, Fc(), 5, 3);
    ItemAdded(s, Fc(), 5, 4);
  }

  lemma FcUnknown(g: Graph)
    requires FcClocks(g, 5)
    ensures CHas(g, PUT_Z, FENCE) && forall x :: CHas(g, x, READ_X) ==> x == READ_X
  {}

  /** The store of x knows what comes before the store of z, but not the read of x. */
  lemma FcKnown(s: State)
    requires Inv(s) && Ran(s, Fc(), 5) && FcClocks(s.graph, 5)
    ensures CHas(s.graph, STORE_X, PUT_Z) && CHas(s.graph, STORE_X, FENCE) && !CHas(s.graph, STORE_X, READ_X)
  {
    hide Inv;
    FcPlaces(s);
    StartsThere(s, Fc(), 5);
    hide Ran;
    FcUnknown(s.graph);
    hide FcClocks;
    ReleaseKnows(s, STORE_X, TAKE_Z);
    KnowsSource(s, TAKE_Z);
    KnowsOnward(s, STORE_X, TAKE_Z, PUT_Z);
    KnowsOnward(s, STORE_X, PUT_Z, FENCE);
  }

  lemma PrefixInView(g: Graph, read: Event, write: Event, v: Clock, e: Event)
    requires IsRevisitView(g, Backward(read, write), v) && CHas(g, write, e)
    ensures v.Has(e)
  {}

  /** The revisit keeps the fence, which is not the last label of its thread. */
  lemma FcKept(s: State, v: Clock, c: Graph)
    requires Inv(s) && Ran(s, Fc(), 5) && FcClocks(s.graph, 5)
    requires IsRevisitView(s.graph, Backward(READ_X, STORE_X), v) && IsCopy(s.graph, v, c) && IsReadAt(c, READ_X)
    ensures SyncsLater(c, Stuck(s.graph, s.blocked, c), READ_X, FENCE)
  {
    hide Inv, Ran, FcClocks, IsRevisitView, IsCopy, InvAt, HeldAllOk, GraphOk, Settled, Revisitable, Stuck;
    var g := s.graph;
    FcPlaces(s);
    FcKnown(s);
    var o := InvOrder(s);
    InvRevisitable(g, s.blocked, o);
    RevisitViewInside(g, Backward(READ_X, STORE_X), v);
    PrefixInView(g, READ_X, STORE_X, v, PUT_Z);
    PrefixInView(g, READ_X, STORE_X, v, FENCE);
    CopyHas(g, v, c, PUT_Z);
    assert In(c, Event(0, 3)) && In(c, Event(0, 2));
    ViewContains(v, FENCE);
    CopyLabel(g, v, c, FENCE);
    CopyLabel(g, v, c, READ_X);
  }

  lemma ViewContains(v: Clock, e: Event)
    requires v.Has(e)
    ensures v.Contains(e)
  {}

  lemma FcMakes(s: State, v: Clock)
    requires Inv(s) && Ran(s, Fc(), 5) && FcClocks(s.graph, 5)
    requires IsRevisitView(s.graph, Backward(READ_X, STORE_X), v)
    ensures MakesPlain(s.graph, FcRecords(), Backward(READ_X, STORE_X), v) && PlainRecords(s.graph, FcRecords())
  {
    hide Inv, Ran, FcClocks, IsRevisitView, FcRecords, PlainRecords, Fc, MakesPlain, Alone;
    var g := s.graph;
    FcPlaces(s);
    FcKnown(s);
    FcListed(s);
    FcRecorded(g);
    FcAlone(g);
    FcRelaxed();
    FcItems(0);
    StartsThere(s, Fc(), 5);
    ReleaseKnows(s, STORE_X, STORE_X);
    ReleaseKnows(s, STORE_X, TAKE_Z);
    forall x | IsAccess(g, x) && x != READ_X ensures v.Has(x) { PrefixInView(g, READ_X, STORE_X, v, x); }
    AloneMade(s, Fc(), 5, FcRecords(), READ_X, STORE_X, v);
  }

  lemma FcMisses(s: State, v: Clock, c: Graph, r: Graph, next: nat, lab: Label, s': State)
    requires Inv(s) && Ran(s, Fc(), 5) && FcClocks(s.graph, 5) && Unheard(s.graph, STORE_X)
    requires RevisitMade(s, READ_X, STORE_X, v, c, r, next, lab, s')
    ensures ClosedBut(s'.graph, s'.blocked) && !Heeding(s'.graph, s'.blocked)
  {
    hide Inv, Ran, FcClocks, RevisitMade, IsRevisitView, IsCopy, ClosedBut, Heeding, Stuck, SyncsLater;
    FcPlaces(s);
    FcKnown(s);
    FcUnknown(s.graph);
    MadeEnds(s, READ_X, STORE_X, v, c, r, next, lab, s');
    MadeStuck(s, READ_X, STORE_X, v, c, r, next, lab, s');
    CopiedRead(s, READ_X, STORE_X, v, c);
    RevisitClosedIff(s, READ_X, STORE_X, v, c, r, next, lab, s');
    FcKept(s, v, c);
    ReleaseHeedsIff(s, READ_X, STORE_X, v, c, r, next, lab, s');
  }

  function FcRecords(): Records {
    Records({}, {}, map[X := [STORE_X], Z := [PUT_Z]])
  }

  /** The accesses of the graph. */
  ghost predicate FcAccesses(g: Graph) {
    && IsReadAt(g, READ_X) && L(g, READ_X).rf == Initializer && L(g, READ_X).addr == X && L(g, READ_X).stamp == 3
    && IsWriteAt(g, PUT_Z) && !L(g, PUT_Z).IsRmwStore() && L(g, PUT_Z).addr == Z && L(g, PUT_Z).stamp == 5
    && IsReadAt(g, TAKE_Z) && L(g, TAKE_Z).rf == PUT_Z && L(g, TAKE_Z).addr == Z && L(g, TAKE_Z).stamp == 6
    && IsWriteAt(g, STORE_X) && !L(g, STORE_X).IsRmwStore() && L(g, STORE_X).addr == X && L(g, STORE_X).stamp == 7
    && forall x :: IsAccess(g, x) ==> x == READ_X || x == PUT_Z || x == TAKE_Z || x == STORE_X
  }

  lemma FcAccess(s: State, x: Event)
    requires Ran(s, Fc(), 5) && IsAccess(s.graph, x)
    ensures x == READ_X || x == PUT_Z || x == TAKE_Z || x == STORE_X
  {
    hide Ran;
    if Fc().Starts(x) {
      RanStart(s, Fc(), 5, x);
    } else {
      RanAt(s, Fc(), 5, x);
    }
  }

  lemma FcListed(s: State)
    requires Ran(s, Fc(), 5)
    ensures FcAccesses(s.graph)
  {
    hide Ran;
    ItemAdded(s, Fc(), 5, 0);
    ItemAdded(s, Fc(), 5, 2);
    ItemAdded(s, Fc(), 5, 3);
    ItemAdded(s, Fc(), 5, 4);
    forall x | IsAccess(s.graph, x) ensures x == READ_X || x == PUT_Z || x == TAKE_Z || x == STORE_X {
      FcAccess(s, x);
    }
  }

  lemma FcRecorded(g: Graph)
    requires FcAccesses(g)
    ensures PlainRecords(g, FcRecords())
  {
    forall r | IsReadAt(g, r) ensures ReadNewest(g, r) {
      assert IsAccess(g, r);
      forall w | IsWriteAt(g, w) && L(g, w).addr == L(g, r).addr && L(g, w).stamp < L(g, r).stamp
        ensures w == L(g, r).rf
      {
        assert IsAccess(g, w);
      }
    }
    forall w | IsWriteAt(g, w)
      ensures L(g, w).addr in FcRecords().co && FcRecords().co[L(g, w).addr] == [w]
    {
      assert IsAccess(g, w);
    }
    hide ReadNewest;
  }

  lemma FcAlone(g: Graph)
    requires FcAccesses(g)
    ensures Alone(g, Fc(), READ_X, STORE_X)
  {
    forall e | IsReadAt(g, e) && L(g, e).addr == L(g, STORE_X).addr && L(g, e).rf == Initializer
      ensures e == READ_X
    {
      assert IsAccess(g, e);
    }
  }

  lemma FcRelaxed()
    ensures AllOrdinary(Fc(), 5) && KidsRelaxed(Fc(), 5)
  {
    forall i: nat | i < 5 ensures Ordinary(Fc().Lab(i)) { FcShape(i); }
  }

  /** The revisit of the relaxed read of x by the release of x keeps the acquire fence, which the prefix of the release
      contains: the release now comes before the fence, whose hb view does not hold it. Causal closure is kept. */
  method StaleFence()
    returns (d: ImmDriver, ghost ss: seq<State>, ghost acts: seq<Action>, ghost s: State, d': ImmDriver,
        ghost s': State)
    ensures Reached(d, ss, acts, s) && d'.graph.events == s'.graph
    ensures (forall a :: a in acts ==> a.Append?) && PlainRecords(s.graph, FcRecords())
    ensures exists v, c, r, next, lab ::
              && RevisitMade(s, READ_X, STORE_X, v, c, r, next, lab, s')
              && MakesPlain(s.graph, FcRecords(), Backward(READ_X, STORE_X), v)
    ensures !CHas(s.graph, STORE_X, READ_X) && Unheard(s.graph, STORE_X)
    ensures ClosedBut(s'.graph, s'.blocked) && !Heeding(s'.graph, s'.blocked)
  {
    hide Inv, Timed, Ran, FcClocks, Step, RevisitMade, ClosedBut, Heeding, RevisitFits, Unheard, MakesPlain,
         PlainRecords, IsRevisitView, IsCopy;
    d, ss, acts, s := FcRun();
    FcPlaces(s);
    FcKnown(s);
    StartsThere(s, Fc(), 5);
    ghost var v, c, r, next, lab;
    d', v, c, r, next, lab, s' := Visits.BackwardRevisit(d, s, READ_X, STORE_X);
    MadeEnds(s, READ_X, STORE_X, v, c, r, next, lab, s');
    FcMakes(s, v);
    FcMisses(s, v, c, r, next, lab, s');
  }

  // ----- load buffering that a run takes part in -----

  const PUT: Event := Event(0, 3)

  function RbItem(n: nat): Item {
    match n
    case 0 => Item(NewLabel(READ_X, Read(PlainRead), Monotonic, X, Initializer), NoDeps())
    case 1 => Item(NewLabel(PUT, Write(PlainWrite), Monotonic, Z, Bottom), NoDeps())
    case 2 => Item(NewLabel(TAKE_Z, Read(PlainRead), Monotonic, Z, PUT), NoDeps())
    case _ => Item(NewLabel(STORE_X, Write(PlainWrite), Release, X, Bottom), NoDeps())
  }

  /** r = x; z = 1   in thread 0, and in thread 1   s = z; x =rel 1. */
  function Rb(): Script { Script(1, 2, 2, RbItem) }

  /** Nobody knows the read of x. */
  ghost predicate RbClocks(g: Graph) { Hidden(g, READ_X, {READ_X}, {READ_X}) }

  lemma RbShape(n: nat)
    requires n < 4
    ensures Weak(Rb(), n, {READ_X}) && Unreleased(Rb(), n) && Unfinished(Rb(), n)
    ensures Ordinary(Rb().Lab(n)) && Rb().Lab(n).pos == Rb().Pos(n) && Rb().Lab(n).ppo == EmptyClock
    ensures Rb().Pos(n).thread <= 1
  {}

  lemma RbShielded(n: nat)
    requires n < 4
    ensures Shielded(Rb(), n, READ_X, {READ_X}, {READ_X})
  {}

  lemma RbItems(n: nat)
    requires n < 4
    ensures var it := Rb().item(n);
            && it.lab.pos == Rb().Pos(n) && Unviewed(it.lab) && it.lab.stamp == 0 && Ordinary(it.lab)
            && WfOrdering(it.lab)
            && !it.lab.IsRmwStore() && !it.lab.kind.Fence? && (it.lab.IsRead() ==> n == 0 || n == 2)
            && (it.lab.IsRead() ==> it.lab.rf == if n == 0 then Initializer else Rb().Pos(1)) && it.deps == NoDeps()
            && Rb().Lab(1).IsWrite() && Rb().kids == 1
  {}

  lemma RbGrounded(s: State, n: nat)
    requires Ran(s, Rb(), n) && n < 4
    ensures Grounded(s, Rb(), n)
  {
    hide Ran, Rb;
    RbItems(n);
    StartsThere(s, Rb(), n);
    if n == 2 { ItemAdded(s, Rb(), n, 1); }
  }

  lemma RbStep(s: State, n: nat, placed: Label, s': State)
    requires Inv(s) && Ran(s, Rb(), n) && RbClocks(s.graph) && n < 4 && placed.pos == Rb().Pos(n)
    requires Limit(s.graph, Rb().Pos(n)) && OneMore(s.graph, placed, s'.graph)
    requires ViewsComputed(s.graph, Rb().Lab(n).(stamp := Rb().Stamp(n)), Rb().item(n).deps, placed)
    ensures RbClocks(s'.graph)
  {
    hide Inv, ViewsComputed, Ran, OneMore, Hidden, Shielded, Weak, Unreleased, Unfinished;
    RbShape(n);
    RbShielded(n);
    StaysHidden(s, Rb(), n, placed, s', READ_X, {READ_X}, {READ_X});
  }

  method RbRun() returns (d: ImmDriver, ghost ss: seq<State>, ghost acts: seq<Action>, ghost s: State)
    ensures fresh(d.graph) && Reached(d, ss, acts, s) && Ran(s, Rb(), 4) && RbClocks(s.graph)
    ensures forall a :: a in acts ==> a.Append?
  {
    hide Inv, Timed, RbClocks, Step, OneMore, ViewsComputed, Ran, Spawned, Grounded, Unfinished, Weak, Unreleased;
    d, ss, acts, s := Spawn(1);
    RbStarts(s);
    var n := 0;
    while n < 4
      invariant 0 <= n <= 4 && fresh(d.graph) && Reached(d, ss, acts, s) && Ran(s, Rb(), n) && RbClocks(s.graph)
      invariant d.graph.timestamp == Rb().Stamp(n) && forall a :: a in acts ==> a.Append?
    {
      RbGrounded(s, n);
      RbShape(n);
      ghost var was, placed := s, RbItem(n).lab;
      ss, acts, s, placed := RunNext(d, ss, acts, s, Rb(), n, RbItem(n));
      RbStep(was, n, placed, s);
      n := n + 1;
    }
  }

  lemma RbStarts(s: State)
    requires Inv(s) && Spawned(s, 1)
    ensures Ran(s, Rb(), 0) && RbClocks(s.graph)
  {
    hide Inv;
    RanStarts(s, Rb());
    UnheardOf(s, READ_X, {READ_X}, {READ_X});
  }

  lemma RbPlaces(s: State)
    requires Ran(s, Rb(), 4)
    ensures var g := s.graph;
            && IsReadAt(g, READ_X) && L(g, READ_X).stamp == 3 && IsWriteAt(g, PUT)
            && IsReadAt(g, TAKE_Z) && L(g, TAKE_Z).rf == PUT
            && IsWriteAt(g, STORE_X) && IsListedRelease(L(g, STORE_X))
            && |g| == 2 && |g[0]| == 4 && |g[1]| == 3
  {
    ItemAdded(s, Rb(), 4, 0);
    ItemAdded(s, Rb(), 4, 1);
    ItemAdded(s, Rb(), 4, 2);
    ItemAdded(s, Rb(), 4, 3);
  }

  lemma RbNoFence(s: State, x: Event)
    requires Ran(s, Rb(), 4) && In(s.graph, x)
    ensures !L(s.graph, x).kind.Fence?
  {
    hide Ran;
    if Rb().Starts(x) {
      RanStart(s, Rb(), 4, x);
    } else {
      RanAt(s, Rb(), 4, x);
    }
  }

  /** The store of x knows the other labels but the read. */
  lemma RbKnown(s: State)
    requires Inv(s) && Ran(s, Rb(), 4)
    ensures CHas(s.graph, STORE_X, STORE_X) && CHas(s.graph, STORE_X, TAKE_Z) && CHas(s.graph, STORE_X, PUT)
  {
    hide Inv;
    RbPlaces(s);
    StartsThere(s, Rb(), 4);
    hide Ran;
    ReleaseKnows(s, STORE_X, STORE_X);
    ReleaseKnows(s, STORE_X, TAKE_Z);
    KnowsSource(s, TAKE_Z);
    KnowsOnward(s, STORE_X, TAKE_Z, PUT);
  }

  /** All is kept. */
  lemma RbKept(s: State, v: Clock)
    requires Inv(s) && Ran(s, Rb(), 4) && IsRevisitView(s.graph, Backward(READ_X, STORE_X), v)
    ensures NoGaps(v)
  {
    hide Inv, IsRevisitView, InvAt, HeldAllOk, GraphOk, Settled, Revisitable;
    var g, rv := s.graph, Backward(READ_X, STORE_X);
    RbPlaces(s);
    RbKnown(s);
    var o := InvOrder(s);
    InvRevisitable(g, s.blocked, o);
    RevisitViewInside(g, rv, v);
    CreationFirst(s);
    forall e: Event | In(g, e) && e.index >= 1 ensures v.Has(e) {
      if e.thread == 0 && e.index < 3 {
        assert InPrefix(g, 3, e);
      } else {
        assert e == PUT || e == TAKE_Z || e == STORE_X;
      }
      PrefixAndWriteKept(g, rv, v, e);
    }
  }

  lemma CreationFirst(s: State)
    requires Ran(s, Rb(), 4)
    ensures In(s.graph, Event(0, 1)) && L(s.graph, Event(0, 1)).stamp < 3
  {
    StartsThere(s, Rb(), 4);
    RanStart(s, Rb(), 4, Event(0, 1));
  }

  /** The driver makes the revisit of the read of x by the store of x. */
  ghost predicate RbMade(g: Graph) {
    exists v :: IsRevisitView(g, Backward(READ_X, STORE_X), v) &&
        MakesPlain(g, RbRecords(), Backward(READ_X, STORE_X), v)
  }

  lemma RbMakes(s: State, v: Clock)
    requires Inv(s) && Ran(s, Rb(), 4) && RbClocks(s.graph)
    requires IsRevisitView(s.graph, Backward(READ_X, STORE_X), v)
    ensures MakesPlain(s.graph, RbRecords(), Backward(READ_X, STORE_X), v) && PlainRecords(s.graph, RbRecords())
  {
    hide Inv, Ran, IsRevisitView, RbRecords, PlainRecords, Rb, MakesPlain, Alone;
    var g := s.graph;
    RbPlaces(s);
    RbKnown(s);
    RbListed(s);
    RbRecorded(g);
    RbAlone(g);
    RbRelaxed();
    RbItems(0);
    RbUnknown(g);
    forall x | IsAccess(g, x) && x != READ_X ensures v.Has(x) { PrefixInView(g, READ_X, STORE_X, v, x); }
    AloneMade(s, Rb(), 4, RbRecords(), READ_X, STORE_X, v);
  }

  lemma RbUnknown(g: Graph)
    requires RbClocks(g)
    ensures !CHas(g, STORE_X, READ_X)
  {}

  lemma CopyHides(g: Graph, v: Clock, c: Graph)
    requires IsCopy(g, v, c) && RbClocks(g)
    ensures RbClocks(c)
  {
    forall x ensures (CHas(c, x, READ_X) ==> x == READ_X) && (PHas(c, x, READ_X) ==> x == READ_X) {
      assert (CHas(g, x, READ_X) ==> x in {READ_X}) && (PHas(g, x, READ_X) ==> x in {READ_X});
    }
  }

  lemma HiddenUnknown(c: Graph, b: set<nat>)
    requires RbClocks(c)
    ensures Unknown(c, b, READ_X) && Unbuilt(c, b, READ_X)
  {
    assert forall x :: (CHas(c, x, READ_X) ==> x in {READ_X}) && (PHas(c, x, READ_X) ==> x in {READ_X});
  }

  lemma MadeKind(s: State, v: Clock, c: Graph, r: Graph, next: nat, lab: Label, s': State, x: Event)
    requires RevisitMade(s, READ_X, STORE_X, v, c, r, next, lab, s') && In(s'.graph, x)
    ensures L(s'.graph, x).kind.Fence? ==> In(s.graph, x) && L(s.graph, x).kind.Fence?
  {
    hide RevisitMade, IsRevisitView, IsCopy;
    MadeEnds(s, READ_X, STORE_X, v, c, r, next, lab, s');
    MadeRead(s, READ_X, STORE_X, v, c, r, next, lab, s');
    if x != READ_X {
      MadeLabel(s, READ_X, STORE_X, v, c, r, next, lab, s', x);
      CopyLabel(s.graph, v, c, x);
    }
  }

  lemma NoLateFence(h: Graph)
    requires forall x :: In(h, x) ==> !L(h, x).kind.Fence?
    ensures LateFencesExact(h, READ_X)
  {}

  /** A label of the prefix of the store of x is kept as it is. */
  lemma MadeKept(s: State, v: Clock, c: Graph, r: Graph, next: nat, lab: Label, s': State, x: Event)
    requires Inv(s) && RevisitMade(s, READ_X, STORE_X, v, c, r, next, lab, s') && CHas(s.graph, STORE_X, x)
    requires x != READ_X
    ensures In(s.graph, x) && In(s'.graph, x)
    ensures L(s'.graph, x).kind == L(s.graph, x).kind && L(s'.graph, x).rf == L(s.graph, x).rf
  {
    var g, rv := s.graph, Backward(READ_X, STORE_X);
    hide Inv, RevisitMade, IsRevisitView, IsCopy, InvAt, HeldAllOk, GraphOk, Settled, Revisitable;
    MadeEnds(s, READ_X, STORE_X, v, c, r, next, lab, s');
    var o := InvOrder(s);
    InvRevisitable(g, s.blocked, o);
    RevisitViewInside(g, rv, v);
    PrefixInView(g, READ_X, STORE_X, v, x);
    CopyHas(g, v, c, x);
    ViewContains(v, x);
    InCopy(c, x);
    CopyAt(g, v, c, x);
    MadeLabel(s, READ_X, STORE_X, v, c, r, next, lab, s', x);
  }

  lemma InCopy(c: Graph, x: Event)
    requires x.index >= 0 && forall j :: 0 <= j <= x.index ==> In(c, Event(x.thread, j))
    ensures In(c, x)
  {
    assert In(c, Event(x.thread, x.index));
  }

  lemma RbFits(s: State, v: Clock, c: Graph, r: Graph, next: nat, lab: Label, s': State)
    requires Inv(s) && Ran(s, Rb(), 4) && RbClocks(s.graph)
    requires RevisitMade(s, READ_X, STORE_X, v, c, r, next, lab, s')
    ensures RevisitFits(v, c, READ_X, s')
    ensures IsReadAt(s'.graph, READ_X) && L(s'.graph, READ_X).rf == STORE_X
    ensures IsReadAt(s'.graph, TAKE_Z) && L(s'.graph, TAKE_Z).rf == PUT && IsWriteAt(s'.graph, PUT)
    ensures IsWriteAt(s'.graph, STORE_X)
  {
    hide Inv, Ran, RbClocks, RevisitMade, IsRevisitView, IsCopy, NoGaps, Unknown, Unbuilt, LateFencesExact;
    MadeEnds(s, READ_X, STORE_X, v, c, r, next, lab, s');
    RbKept(s, v);
    CopyHides(s.graph, v, c);
    HiddenUnknown(c, s'.blocked);
    forall x | In(s'.graph, x) ensures !L(s'.graph, x).kind.Fence? {
      MadeKind(s, v, c, r, next, lab, s', x);
      if In(s.graph, x) { RbNoFence(s, x); }
    }
    NoLateFence(s'.graph);
    RbPlaces(s);
    RbKnown(s);
    MadeRead(s, READ_X, STORE_X, v, c, r, next, lab, s');
    MadeKept(s, v, c, r, next, lab, s', TAKE_Z);
    MadeKept(s, v, c, r, next, lab, s', PUT);
    MadeKept(s, v, c, r, next, lab, s', STORE_X);
  }

  function RbRecords(): Records {
    Records({}, {}, map[X := [STORE_X], Z := [PUT]])
  }

  /** The accesses of the graph. */
  ghost predicate RbAccesses(g: Graph) {
    && IsReadAt(g, READ_X) && L(g, READ_X).rf == Initializer && L(g, READ_X).addr == X && L(g, READ_X).stamp == 3
    && IsWriteAt(g, PUT) && !L(g, PUT).IsRmwStore() && L(g, PUT).addr == Z && L(g, PUT).stamp == 4
    && IsReadAt(g, TAKE_Z) && L(g, TAKE_Z).rf == PUT && L(g, TAKE_Z).addr == Z && L(g, TAKE_Z).stamp == 5
    && IsWriteAt(g, STORE_X) && !L(g, STORE_X).IsRmwStore() && L(g, STORE_X).addr == X && L(g, STORE_X).stamp == 6
    && forall x :: IsAccess(g, x) ==> x == READ_X || x == PUT || x == TAKE_Z || x == STORE_X
  }

  lemma RbAccess(s: State, x: Event)
    requires Ran(s, Rb(), 4) && IsAccess(s.graph, x)
    ensures x == READ_X || x == PUT || x == TAKE_Z || x == STORE_X
  {
    hide Ran;
    if Rb().Starts(x) {
      RanStart(s, Rb(), 4, x);
    } else {
      RanAt(s, Rb(), 4, x);
    }
  }

  lemma RbListed(s: State)
    requires Ran(s, Rb(), 4)
    ensures RbAccesses(s.graph)
  {
    hide Ran;
    ItemAdded(s, Rb(), 4, 0);
    ItemAdded(s, Rb(), 4, 1);
    ItemAdded(s, Rb(), 4, 2);
    ItemAdded(s, Rb(), 4, 3);
    forall x | IsAccess(s.graph, x) ensures x == READ_X || x == PUT || x == TAKE_Z || x == STORE_X {
      RbAccess(s, x);
    }
  }

  lemma RbRecorded(g: Graph)
    requires RbAccesses(g)
    ensures PlainRecords(g, RbRecords())
  {
    forall r | IsReadAt(g, r) ensures ReadNewest(g, r) {
      assert IsAccess(g, r);
      forall w | IsWriteAt(g, w) && L(g, w).addr == L(g, r).addr && L(g, w).stamp < L(g, r).stamp
        ensures w == L(g, r).rf
      {
        assert IsAccess(g, w);
      }
    }
    forall w | IsWriteAt(g, w)
      ensures L(g, w).addr in RbRecords().co && RbRecords().co[L(g, w).addr] == [w]
    {
      assert IsAccess(g, w);
    }
    hide ReadNewest;
  }

  lemma RbAlone(g: Graph)
    requires RbAccesses(g)
    ensures Alone(g, Rb(), READ_X, STORE_X)
  {
    forall e | IsReadAt(g, e) && L(g, e).addr == L(g, STORE_X).addr && L(g, e).rf == Initializer
      ensures e == READ_X
    {
      assert IsAccess(g, e);
    }
  }

  lemma RbRelaxed()
    ensures AllOrdinary(Rb(), 4) && KidsRelaxed(Rb(), 4)
  {
    forall i: nat | i < 4 ensures Ordinary(Rb().Lab(i)) { RbShape(i); }
  }

  /** The revisit of the read of x by the release of x keeps what follows the read in its thread, where nobody knows it:
      the run goes on, with a cycle of program order and reads-from in its graph. */
  method RelaxedBuffering()
    returns (d: ImmDriver, ghost ss: seq<State>, ghost acts: seq<Action>, ghost s: State)
    ensures Reached(d, ss, acts, s) && |acts| > 0 && acts[|acts| - 1] == Revisit(READ_X, STORE_X)
    ensures (forall a :: a in acts[..|acts| - 1] ==> a.Append?) && PlainRecords(ss[|acts| - 1].graph, RbRecords())
    ensures RbMade(ss[|acts| - 1].graph)
    ensures IsReadAt(s.graph, READ_X) && L(s.graph, READ_X).rf == STORE_X && IsWriteAt(s.graph, STORE_X)
    ensures IsReadAt(s.graph, TAKE_Z) && L(s.graph, TAKE_Z).rf == PUT && IsWriteAt(s.graph, PUT)
    ensures Before(READ_X, PUT) && Before(TAKE_Z, STORE_X)
  {
    hide Inv, Timed, Ran, RbClocks, Step, RevisitMade, RevisitFits, MakesPlain, PlainRecords, IsRevisitView, IsCopy;
    d, ss, acts, s := RbRun();
    RbPlaces(s);
    StartsThere(s, Rb(), 4);
    ghost var v, c, r, next, lab, s';
    d, v, c, r, next, lab, s' := Visits.BackwardRevisit(d, s, READ_X, STORE_X);
    RbFits(s, v, c, r, next, lab, s');
    MadeEnds(s, READ_X, STORE_X, v, c, r, next, lab, s');
    RbMakes(s, v);
    RunGrows(ss, acts, Revisit(READ_X, STORE_X), s');
    ss, acts, s := ss + [s'], acts + [Revisit(READ_X, STORE_X)], s';
  }
}
