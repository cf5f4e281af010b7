/** A run, and a helper revisit of its graph that the driver makes, and whose result it cannot accept. */
module HelperCases {
  import opened Events
  import opened Clocks
  import opened Graphs
  import opened ImmSpec
  import opened Causality
  import opened HbExact
  import opened Sources
  import opened Settling
  import opened StampBounds
  import opened Trimming
  import opened RevisitSpec
  import DepCutSpec
  import opened PendingRmw
  import opened Construction
  import opened States
  import opened Additions
  import opened Cutbacks
  import opened Outcomes
  import opened Runs
  import opened ExecutionGraphs
  import opened DepExecutionGraphs
  import opened ImmDrivers
  import opened Visits
  import opened RunCases
  import opened Scripts

  // ----- the program -----

  const A: int := 1

  const Y: int := 2

  const Z: int := 3

  const READ_A: Event := Event(0, 3)

  const STORE_Y: Event := Event(0, 4)

  const FINISH_0: Event := Event(0, 5)

  const FLAG: Event := Event(1, 1)

  const RMW_READ: Event := Event(1, 2)

  const MID: Event := Event(1, 3)

  const READ_MID: Event := Event(1, 4)

  const PASS: Event := Event(1, 5)

  const FINISH_1: Event := Event(1, 6)

  const GET_Y: Event := Event(2, 1)

  const GET: Event := Event(2, 2)

  const REV_READ: Event := Event(2, 3)

  const REV: Event := Event(2, 4)

  function CtrlDep(d: Event): EventDeps { EventDeps([], [], [d], [], []) }

  function DepsOn(d: Event): EventDeps { EventDeps([], [d], [FLAG], [], []) }

  function Finish(e: Event): Label { NewLabel(e, ThreadFinish(Initializer), Release, 0, Bottom) }

  /** In main: r = a; y = 1. In thread 1: if (y == 0) { a++; x = a; z = x }. In thread 2: c = y; b = z; a++ as a
      release. The flag reads y as 1 until it is revisited, and the second increment reads what the first has
      written. */
  function HpItem(n: nat, flag: Event, second: Event): Item {
    match n
    case 0 => Item(NewLabel(READ_A, Read(PlainRead), Monotonic, A, Initializer), NoDeps())
    case 1 => Item(NewLabel(STORE_Y, Write(PlainWrite), Monotonic, Y, Bottom), NoDeps())
    case 2 => Item(Finish(FINISH_0), NoDeps())
    case 3 => Item(NewLabel(FLAG, Read(PlainRead), Monotonic, Y, flag), NoDeps())
    case 4 => Item(NewLabel(RMW_READ, Read(FaiRead), Monotonic, A, Initializer), CtrlDep(FLAG))
    case 5 => Item(NewLabel(MID, Write(FaiWrite), Monotonic, A, Bottom), CtrlDep(FLAG))
    case 6 => Item(NewLabel(READ_MID, Read(PlainRead), Monotonic, A, MID), CtrlDep(FLAG))
    case 7 => Item(NewLabel(PASS, Write(PlainWrite), Monotonic, Z, Bottom), DepsOn(READ_MID))
    case 8 => Item(Finish(FINISH_1), NoDeps())
    case 9 => Item(NewLabel(GET_Y, Read(PlainRead), Monotonic, Y, STORE_Y), NoDeps())
    case 10 => Item(NewLabel(GET, Read(PlainRead), Monotonic, Z, PASS), NoDeps())
    case 11 => Item(NewLabel(REV_READ, Read(FaiRead), Release, A, second), NoDeps())
    case _ => Item(NewLabel(REV, Write(FaiWrite), Release, A, Bottom), NoDeps())
  }

  function Hp(flag: Event, second: Event): Script { Script(2, 3, 6, (n: nat) => HpItem(n, flag, second)) }

  /** The script up to the revisit of the flag, up to that of the second increment, and from then on. */
  ghost predicate Stage(n: nat, flag: Event, second: Event) {
    && n <= 13
    && ((flag == STORE_Y && second == MID && n <= 4) || (flag == Initializer && second == MID && 4 <= n <= 12) ||
        (flag == Initializer && second == Initializer && n >= 12))
  }

  // ----- who knows what -----

  function KnowA(): set<Event> { {READ_A, FINISH_0} }

  function KnowMid(second: Event): set<Event> {
    {MID, FINISH_1} + if second == MID then {REV_READ} else {}
  }

  function KnowRmw(second: Event): set<Event> {
    {RMW_READ, MID, READ_MID, PASS, FINISH_1, GET, REV} + if second == MID then {REV_READ} else {}
  }

  function KeepRmw(): set<Event> { {RMW_READ, MID, PASS} }

  ghost predicate HpHiding(g: Graph, second: Event) {
    && Hidden(g, READ_A, KnowA(), {READ_A}) && Hidden(g, MID, KnowMid(second), {MID})
    && Hidden(g, RMW_READ, KnowRmw(second), KeepRmw())
  }

  ghost predicate HpClocks(g: Graph, n: nat, second: Event) {
    && HpHiding(g, second)
    && (n >= 5 ==> CHas(g, RMW_READ, FLAG)) && (n >= 6 ==> CHas(g, MID, RMW_READ))
    && (n >= 8 ==> CHas(g, PASS, READ_MID))
  }

  lemma HpShape(n: nat, flag: Event, second: Event)
    requires n < 13
    ensures var p := Hp(flag, second);
            && p.Lab(n).pos == p.Pos(n) && Ordinary(p.Lab(n)) && p.Lab(n).ppo == EmptyClock && p.Pos(n).thread <= 2
            && (p.Lab(n).kind.ThreadFinish? ==> p.Lab(n).AtLeastRelease()) && !p.Lab(n).AtLeastAcquire()
            && !p.Lab(n).kind.Fence?
            && (IsListedRelease(p.Lab(n)) ==> n == 2 || n == 8 || n == 12)
            && (p.Lab(n).kind.ThreadFinish? <==> n == 2 || n == 8) && Unviewed(p.Lab(n)) && p.Lab(n).stamp == 0
            && WfOrdering(p.Lab(n))
  {}

  lemma HpScript(n: nat, flag: Event, second: Event)
    requires n < 13
    ensures Unreleased(Hp(flag, second), n) && Unfinished(Hp(flag, second), n)
    ensures forall c :: Weak(Hp(flag, second), n, c)
  {
    forall i: nat | i <= n { HpShape(i, flag, second); }
    hide HpItem;
  }

  lemma DepsA(n: nat, flag: Event, second: Event)
    requires n < 13 && Stage(n, flag, second) && (n == 12 ==> second == Initializer)
    ensures var p := Hp(flag, second);
                p.Pos(n) !in {READ_A} || p.Pos(n) !in KnowA() ==> DepsApart(p, n, READ_A, KnowA())
  {}

  lemma SourceA(n: nat, flag: Event, second: Event)
    requires n < 13 && Stage(n, flag, second) && (n == 12 ==> second == Initializer)
    ensures var p := Hp(flag, second); p.Pos(n) !in KnowA() ==> SourceApart(p, n, READ_A, KnowA(), {READ_A})
  {}

  lemma ShieldedA(n: nat, flag: Event, second: Event)
    requires n < 13 && Stage(n, flag, second) && (n == 12 ==> second == Initializer)
    ensures Shielded(Hp(flag, second), n, READ_A, KnowA(), {READ_A})
  {
    DepsA(n, flag, second);
    SourceA(n, flag, second);
    hide HpItem, DepsApart, SourceApart;
  }

  lemma DepsMid(n: nat, flag: Event, second: Event)
    requires n < 13 && Stage(n, flag, second) && (n == 12 ==> second == Initializer)
    ensures var p := Hp(flag, second);
                p.Pos(n) !in {MID} || p.Pos(n) !in KnowMid(second) ==> DepsApart(p, n, MID, KnowMid(second))
  {}

  lemma SourceMid(n: nat, flag: Event, second: Event)
    requires n < 13 && Stage(n, flag, second) && (n == 12 ==> second == Initializer)
    ensures var p := Hp(flag, second); p.Pos(n) !in KnowMid(second) ==> SourceApart(p, n, MID, KnowMid(second), {MID})
  {}

  lemma ShieldedMid(n: nat, flag: Event, second: Event)
    requires n < 13 && Stage(n, flag, second) && (n == 12 ==> second == Initializer)
    ensures Shielded(Hp(flag, second), n, MID, KnowMid(second), {MID})
  {
    DepsMid(n, flag, second);
    SourceMid(n, flag, second);
    hide HpItem, DepsApart, SourceApart;
  }

  lemma DepsRmw(n: nat, flag: Event, second: Event)
    requires n < 13 && Stage(n, flag, second) && (n == 12 ==> second == Initializer)
    ensures var p := Hp(flag, second);
                p.Pos(n) !in KeepRmw() || p.Pos(n) !in KnowRmw(second) ==> DepsApart(p, n, RMW_READ, KnowRmw(second))
  {}

  lemma SourceRmw(n: nat, flag: Event, second: Event)
    requires n < 13 && Stage(n, flag, second) && (n == 12 ==> second == Initializer)
    ensures var p := Hp(flag, second);
                p.Pos(n) !in KnowRmw(second) ==> SourceApart(p, n, RMW_READ, KnowRmw(second), KeepRmw())
  {}

  lemma ShieldedRmw(n: nat, flag: Event, second: Event)
    requires n < 13 && Stage(n, flag, second) && (n == 12 ==> second == Initializer)
    ensures Shielded(Hp(flag, second), n, RMW_READ, KnowRmw(second), KeepRmw())
  {
    DepsRmw(n, flag, second);
    SourceRmw(n, flag, second);
    hide HpItem, DepsApart, SourceApart;
  }

  // ----- adding the labels -----

  /** Label i is there. */
  lemma Added(s: State, n: nat, flag: Event, second: Event, i: nat)
    requires Ran(s, Hp(flag, second), n) && i < n && i < 13
    ensures var lab := HpItem(i, flag, second).lab;
            && In(s.graph, lab.pos) && L(s.graph, lab.pos).kind == lab.kind && L(s.graph, lab.pos).ord == lab.ord
            && L(s.graph, lab.pos).addr == lab.addr && L(s.graph, lab.pos).rf == lab.rf
            && L(s.graph, lab.pos).stamp == 5 + i
  {
    hide Ran;
    ItemAdded(s, Hp(flag, second), n, i);
    HpShape(i, flag, second);
    hide HpItem;
  }

  lemma DepsThere(s: State, n: nat, flag: Event, second: Event)
    requires Ran(s, Hp(flag, second), n) && n < 13
    ensures var p := Hp(flag, second); forall d :: p.item(n).deps.Has(d) ==>
                                                     In(s.graph, d) && d.thread == p.Pos(n).thread &&
                                                         d.index < p.Pos(n).index
  {
    hide Ran;
    if n >= 4 { Added(s, n, flag, second, 3); }
    if n >= 7 { Added(s, n, flag, second, 6); }
  }

  lemma SourceThere(s: State, n: nat, flag: Event, second: Event)
    requires Ran(s, Hp(flag, second), n) && n < 13 && Stage(n, flag, second)
    ensures Hp(flag, second).Lab(n).IsRead() ==> RfTarget(s.graph, Hp(flag, second).Lab(n).rf)
  {
    StartsThere(s, Hp(flag, second), n);
    hide Ran;
    if n >= 2 { Added(s, n, flag, second, 1); }
    if n >= 6 { Added(s, n, flag, second, 5); }
    if n >= 8 { Added(s, n, flag, second, 7); }
  }

  lemma ReadHalfThere(s: State, n: nat, flag: Event, second: Event)
    requires Ran(s, Hp(flag, second), n) && (n == 5 || n == 12) && Stage(n, flag, second)
    ensures var r := Hp(flag, second).Pos(n).Prev();
            IsReadAt(s.graph, r) && L(s.graph, r).ord != NotAtomic && In(s.graph, L(s.graph, r).rf)
  {
    hide Ran;
    StartsThere(s, Hp(flag, second), n);
    Added(s, n, flag, second, n - 1);
    if n == 12 { Added(s, n, flag, second, 5); }
  }

  lemma RmwStores(n: nat, flag: Event, second: Event)
    requires n < 13
    ensures Hp(flag, second).Lab(n).IsRmwStore() ==> n == 5 || n == 12
  {}

  lemma HpGrounded(s: State, n: nat, flag: Event, second: Event)
    requires Ran(s, Hp(flag, second), n) && n < 13 && Stage(n, flag, second)
    ensures Grounded(s, Hp(flag, second), n)
  {
    hide Ran;
    HpShape(n, flag, second);
    DepsThere(s, n, flag, second);
    SourceThere(s, n, flag, second);
    RmwStores(n, flag, second);
    hide HpItem;
    if n == 5 || n == 12 { ReadHalfThere(s, n, flag, second); }
  }

  function HpKnows(n: nat): Event { if n == 4 then FLAG else if n == 5 then RMW_READ else READ_MID }

  /** What the new label is to know. */
  lemma HpAware(s: State, n: nat, flag: Event, second: Event, placed: Label)
    requires Inv(s) && Ran(s, Hp(flag, second), n) && (n == 4 || n == 5 || n == 7)
    requires var p := Hp(flag, second); ViewsComputed(s.graph, p.Lab(n).(stamp := p.Stamp(n)), p.item(n).deps, placed)
    ensures placed.pporf.Has(HpKnows(n))
  {
    hide Inv, ViewsComputed;
    var p := Hp(flag, second);
    ItemAdded(s, p, n, n - 1);
    StartsThere(s, p, n);
    hide Ran;
    SelfAware(s, HpKnows(n));
    if n == 5 {
      KnowsReadHalf(s.graph, p.Lab(n).(stamp := p.Stamp(n)), p.item(n).deps, placed);
    } else {
      KnowsDep(s.graph, p.Lab(n).(stamp := p.Stamp(n)), p.item(n).deps, placed, HpKnows(n));
    }
  }

  lemma HpHidden(s: State, n: nat, flag: Event, second: Event, placed: Label, s': State)
    requires Ran(s, Hp(flag, second), n) && HpClocks(s.graph, n, second) && n < 13 && Stage(n, flag, second)
    requires n == 12 ==> second == Initializer
    requires var p := Hp(flag, second);
             && Limit(s.graph, p.Pos(n)) && OneMore(s.graph, placed, s'.graph)
             && ViewsComputed(s.graph, p.Lab(n).(stamp := p.Stamp(n)), p.item(n).deps, placed)
    ensures HpHiding(s'.graph, second)
  {
    hide ViewsComputed, Ran, OneMore, Hidden, Shielded, Weak, Unreleased, Unfinished, KnowA, KnowMid, KnowRmw, KeepRmw;
    HpShape(n, flag, second);
    HpScript(n, flag, second);
    ShieldedA(n, flag, second);
    ShieldedMid(n, flag, second);
    ShieldedRmw(n, flag, second);
    hide HpItem;
    StaysHidden(s, Hp(flag, second), n, placed, s', READ_A, KnowA(), {READ_A});
    StaysHidden(s, Hp(flag, second), n, placed, s', MID, KnowMid(second), {MID});
    StaysHidden(s, Hp(flag, second), n, placed, s', RMW_READ, KnowRmw(second), KeepRmw());
  }

  lemma HpStep(s: State, n: nat, flag: Event, second: Event, placed: Label, s': State)
    requires Inv(s) && Ran(s, Hp(flag, second), n) && HpClocks(s.graph, n, second) && n < 13 && Stage(n, flag, second)
    requires (n == 12 ==> second == Initializer) && placed.pos == Hp(flag, second).Pos(n)
    requires var p := Hp(flag, second);
             && Limit(s.graph, p.Pos(n)) && OneMore(s.graph, placed, s'.graph)
             && ViewsComputed(s.graph, p.Lab(n).(stamp := p.Stamp(n)), p.item(n).deps, placed)
    ensures HpClocks(s'.graph, n + 1, second)
  {
    hide Inv, ViewsComputed, Ran, OneMore, HpHiding, CHas, HpItem;
    HpHidden(s, n, flag, second, placed, s');
    if n == 4 || n == 5 || n == 7 {
      HpAware(s, n, flag, second, placed);
      NewKnows(s.graph, placed, s'.graph, HpKnows(n));
    }
    if n >= 5 { KnowledgeStays(s.graph, placed, s'.graph, RMW_READ, FLAG); }
    if n >= 6 { KnowledgeStays(s.graph, placed, s'.graph, MID, RMW_READ); }
    if n >= 8 { KnowledgeStays(s.graph, placed, s'.graph, PASS, READ_MID); }
  }

  // ----- the run -----

  function FlagAt(n: nat): Event { if n <= 3 then STORE_Y else Initializer }

  function SecondAt(n: nat): Event { if n <= 11 then MID else Initializer }

  /** The script by which label n is added. */
  function HpAt(n: nat): Script { Hp(FlagAt(n), SecondAt(n)) }

  /** Label 3, the flag, and label 11, the read half of the second increment, are revisited at once. */
  predicate Revisited(n: nat) { n == 3 || n == 11 }

  lemma HpRevised(n: nat)
    requires Revisited(n)
    ensures Revised(HpAt(n), n, HpAt(n + 1)) && HpAt(n).Lab(n).IsRead()
    ensures HpAt(n).Pos(n) == if n == 3 then FLAG else REV_READ
  {}

  lemma HpOrdinary(n: nat, m: nat)
    requires m <= 13
    ensures AllOrdinary(HpAt(n), m)
  {
    forall i: nat | i < m { HpShape(i, FlagAt(n), SecondAt(n)); }
    hide HpItem;
  }

  lemma KnowersForward(n: nat, read: Event)
    requires (n == 3 && read == FLAG) || (n == 11 && read == REV_READ)
    ensures KnowA() - {read} == KnowA() && KnowMid(SecondAt(n)) - {read} == KnowMid(SecondAt(n + 1))
    ensures KnowRmw(SecondAt(n)) - {read} == KnowRmw(SecondAt(n + 1)) && read !in KeepRmw()
  {}

  lemma HpForward(g: Graph, n: nat, read: Event, h: Graph)
    requires (n == 3 && read == FLAG) || (n == 11 && read == REV_READ)
    requires HpClocks(g, n + 1, SecondAt(n)) && Forwarded(g, read, h)
    ensures HpClocks(h, n + 1, SecondAt(n + 1))
  {
    hide Forwarded, Hidden, CHas, KnowA, KnowMid, KnowRmw;
    KnowersForward(n, read);
    assert Initializer !in KeepRmw();
    HiddenForward(g, read, h, READ_A, KnowA(), {READ_A});
    HiddenForward(g, read, h, MID, KnowMid(SecondAt(n)), {MID});
    HiddenForward(g, read, h, RMW_READ, KnowRmw(SecondAt(n)), KeepRmw());
    hide KeepRmw;
    if n == 11 {
      KnowledgeForwarded(g, read, h, RMW_READ, FLAG);
      KnowledgeForwarded(g, read, h, MID, RMW_READ);
      KnowledgeForwarded(g, read, h, PASS, READ_MID);
    }
  }

  /** e has been revisited by a forward revisit, after which it does not count as added maximally. */
  ghost predicate DemotedBy(acts: seq<Action>, e: Event) { exists w :: Retarget(e, w) in acts }

  /** The run adds labels and makes forward revisits, of the flag and the second increment. */
  ghost predicate HpActs(acts: seq<Action>, n: nat) {
    && (forall a :: a in acts ==> a.Append? || a.CutBack? || a.Retarget?)
    && (forall e :: DemotedBy(acts, e) <==> (e == FLAG && n >= 4) || (e == REV_READ && n >= 12))
  }

  lemma ActsAppended(acts: seq<Action>, n: nat, lab: Label, deps: EventDeps)
    requires HpActs(acts, n) && !Revisited(n)
    ensures HpActs(acts + [Append(lab, deps)], n + 1)
  {
    var acts' := acts + [Append(lab, deps)];
    forall e ensures DemotedBy(acts', e) <==> DemotedBy(acts, e) {
      if w :| Retarget(e, w) in acts { assert Retarget(e, w) in acts'; }
      if w :| Retarget(e, w) in acts' { assert Retarget(e, w) in acts; }
    }
    hide DemotedBy;
  }

  lemma ActsForwarded(acts: seq<Action>, n: nat, lab: Label, deps: EventDeps, stamp: nat)
    requires HpActs(acts, n) && Revisited(n)
    ensures var read := if n == 3 then FLAG else REV_READ;
            HpActs(acts + [Append(lab, deps)] + [CutBack(stamp), Retarget(read, Initializer)], n + 1)
  {
    var read := if n == 3 then FLAG else REV_READ;
    var acts' := acts + [Append(lab, deps)] + [CutBack(stamp), Retarget(read, Initializer)];
    assert acts'[|acts| + 2] == Retarget(read, Initializer);
    forall e ensures DemotedBy(acts', e) <==> DemotedBy(acts, e) || e == read {
      if w :| Retarget(e, w) in acts { assert Retarget(e, w) in acts'; }
      if w :| Retarget(e, w) in acts' { assert Retarget(e, w) in acts || e == read; }
    }
    hide DemotedBy;
  }

  lemma HpStarts(s: State)
    requires Inv(s) && Spawned(s, 2)
    ensures Ran(s, HpAt(0), 0) && HpClocks(s.graph, 0, SecondAt(0))
  {
    hide Inv;
    RanStarts(s, HpAt(0));
    UnheardOf(s, READ_A, KnowA(), {READ_A});
    UnheardOf(s, MID, KnowMid(SecondAt(0)), {MID});
    UnheardOf(s, RMW_READ, KnowRmw(SecondAt(0)), KeepRmw());
  }

  /** One label, and its revisit where there is one. */
  method HpNext(d: ImmDriver, ghost ss: seq<State>, ghost acts: seq<Action>, ghost s: State, n: nat)
    returns (ghost ss': seq<State>, ghost acts': seq<Action>, ghost s': State)
    requires n < 13 && RunCases.Reached(d, ss, acts, s) && Ran(s, HpAt(n), n) && HpClocks(s.graph, n, SecondAt(n))
    requires HpActs(acts, n) && d.graph.timestamp == 5 + n
    modifies d.graph
    ensures RunCases.Reached(d, ss', acts', s') && Ran(s', HpAt(n + 1), n + 1)
    ensures HpClocks(s'.graph, n + 1, SecondAt(n + 1)) && HpActs(acts', n + 1) && d.graph.timestamp == 6 + n
  {
    hide Inv, Timed, HpClocks, Step, OneMore, ViewsComputed, Ran, Grounded, Unfinished, Weak, Unreleased, HpActs,
         Forwarded, AllOrdinary, Revised, HpItem;
    HpGrounded(s, n, FlagAt(n), SecondAt(n));
    HpScript(n, FlagAt(n), SecondAt(n));
    HpShape(n, FlagAt(n), SecondAt(n));
    ghost var placed;
    ss', acts', s', placed := RunNext(d, ss, acts, s, HpAt(n), n, HpItem(n, FlagAt(n), SecondAt(n)));
    HpStep(s, n, FlagAt(n), SecondAt(n), placed, s');
    ghost var lab, deps := HpAt(n).Lab(n).(stamp := HpAt(n).Stamp(n)), HpAt(n).item(n).deps;
    if Revisited(n) {
      HpRevised(n);
      HpOrdinary(n, n + 1);
      ActsForwarded(acts, n, lab, deps, HpAt(n).Stamp(n));
      ghost var was := s';
      ss', acts', s' := Forward(d, ss', acts', s', HpAt(n), n, if n == 3 then FLAG else REV_READ, HpAt(n + 1));
      HpForward(was.graph, n, HpAt(n).Pos(n), s'.graph);
    } else {
      ActsAppended(acts, n, lab, deps);
    }
  }

  method HpRun() returns (d: ImmDriver, ghost ss: seq<State>, ghost acts: seq<Action>, ghost s: State)
    ensures fresh(d.graph) && RunCases.Reached(d, ss, acts, s) && Ran(s, HpAt(13), 13)
    ensures HpClocks(s.graph, 13, Initializer) && HpActs(acts, 13)
  {
    hide Inv, Timed, HpClocks, Step, Ran, Spawned;
    d, ss, acts, s := Spawn(2);
    HpStarts(s);
    var n := 0;
    while n < 13
      invariant 0 <= n <= 13 && fresh(d.graph) && RunCases.Reached(d, ss, acts, s) && Ran(s, HpAt(n), n)
      invariant HpClocks(s.graph, n, SecondAt(n)) && HpActs(acts, n) && d.graph.timestamp == 5 + n
    {
      ss, acts, s := HpNext(d, ss, acts, s, n);
      n := n + 1;
    }
  }

  // ----- its last graph -----

  ghost predicate ReadIs(g: Graph, e: Event, kind: ReadKind, addr: int, rf: Event, stamp: nat) {
    In(g, e) && L(g, e).kind == Read(kind) && L(g, e).addr == addr && L(g, e).rf == rf && L(g, e).stamp == stamp
  }

  ghost predicate WriteIs(g: Graph, e: Event, kind: WriteKind, addr: int, stamp: nat) {
    In(g, e) && L(g, e).kind == Write(kind) && L(g, e).addr == addr && L(g, e).stamp == stamp
  }

  /** The accesses of address a. */
  ghost predicate AccessesOfA(g: Graph) {
    && ReadIs(g, READ_A, PlainRead, A, Initializer, 5) && ReadIs(g, RMW_READ, FaiRead, A, Initializer, 9)
    && WriteIs(g, MID, FaiWrite, A, 10) && ReadIs(g, READ_MID, PlainRead, A, MID, 11)
    && ReadIs(g, REV_READ, FaiRead, A, Initializer, 16) && WriteIs(g, REV, FaiWrite, A, 17)
  }

  ghost predicate OtherAccesses(g: Graph) {
    && WriteIs(g, STORE_Y, PlainWrite, Y, 6) && ReadIs(g, FLAG, PlainRead, Y, Initializer, 8)
    && WriteIs(g, PASS, PlainWrite, Z, 12) && ReadIs(g, GET_Y, PlainRead, Y, STORE_Y, 14)
    && ReadIs(g, GET, PlainRead, Z, PASS, 15)
  }

  predicate AtA(x: Event) {
    x == READ_A || x == RMW_READ || x == MID || x == READ_MID || x == REV_READ || x == REV
  }

  predicate Elsewhere(x: Event) { x == STORE_Y || x == FLAG || x == PASS || x == GET_Y || x == GET }

  ghost predicate HpGraph(g: Graph) {
    AccessesOfA(g) && OtherAccesses(g) && forall x :: IsAccess(g, x) ==> AtA(x) || Elsewhere(x)
  }

  lemma HpAtA(s: State)
    requires Ran(s, HpAt(13), 13)
    ensures AccessesOfA(s.graph)
  {
    hide Ran;
    Added(s, 13, Initializer, Initializer, 0);
    Added(s, 13, Initializer, Initializer, 4);
    Added(s, 13, Initializer, Initializer, 5);
    Added(s, 13, Initializer, Initializer, 6);
    Added(s, 13, Initializer, Initializer, 11);
    Added(s, 13, Initializer, Initializer, 12);
  }

  lemma HpElsewhere(s: State)
    requires Ran(s, HpAt(13), 13)
    ensures OtherAccesses(s.graph)
  {
    hide Ran;
    Added(s, 13, Initializer, Initializer, 1);
    Added(s, 13, Initializer, Initializer, 3);
    Added(s, 13, Initializer, Initializer, 7);
    Added(s, 13, Initializer, Initializer, 9);
    Added(s, 13, Initializer, Initializer, 10);
  }

  lemma HpAccess(s: State, x: Event)
    requires Ran(s, HpAt(13), 13) && IsAccess(s.graph, x)
    ensures AtA(x) || Elsewhere(x)
  {
    var p := HpAt(13);
    if p.Starts(x) {
      RanStart(s, p, 13, x);
    } else {
      RanAt(s, p, 13, x);
      hide Ran;
      HpShape(p.Place(x), Initializer, Initializer);
    }
  }

  lemma HpPlaces(s: State)
    requires Ran(s, HpAt(13), 13)
    ensures HpGraph(s.graph) && s.blocked == {} && s.shut == {}
    ensures forall x :: In(s.graph, x) ==>
                x.thread <= 2 && !L(s.graph, x).kind.ThreadJoin? && !L(s.graph, x).kind.Fence?
    ensures forall x :: IsReadAt(s.graph, x) ==> !L(s.graph, x).AtLeastAcquire()
    ensures forall x :: In(s.graph, x) && L(s.graph, x).kind.ThreadStart? && x != Initializer ==>
                          L(s.graph, x).kind.parentCreate.thread == 0 && 1 <= L(s.graph, x).kind.parentCreate.index <= 2
  {
    HpAtA(s);
    HpElsewhere(s);
    StartsThere(s, HpAt(13), 13);
    HpOrdinary(13, 13);
    HpScript(12, Initializer, Initializer);
    forall x | IsAccess(s.graph, x) ensures AtA(x) || Elsewhere(x) { HpAccess(s, x); }
    forall x | In(s.graph, x)
      ensures x.thread <= 2 && !L(s.graph, x).kind.ThreadJoin? && !L(s.graph, x).kind.Fence?
      ensures L(s.graph, x).IsRead() ==> !L(s.graph, x).AtLeastAcquire()
      ensures L(s.graph, x).kind.ThreadStart? && x != Initializer ==>
                L(s.graph, x).kind.parentCreate.thread == 0 && 1 <= L(s.graph, x).kind.parentCreate.index <= 2
    {
      HpLabel(s, x);
    }
  }

  lemma HpLabel(s: State, x: Event)
    requires Ran(s, HpAt(13), 13) && In(s.graph, x)
    ensures x.thread <= 2 && !L(s.graph, x).kind.ThreadJoin? && !L(s.graph, x).kind.Fence?
    ensures L(s.graph, x).IsRead() ==> !L(s.graph, x).AtLeastAcquire()
    ensures L(s.graph, x).kind.ThreadStart? && x != Initializer ==>
              L(s.graph, x).kind.parentCreate.thread == 0 && 1 <= L(s.graph, x).kind.parentCreate.index <= 2
  {
    var p := HpAt(13);
    StartsThere(s, p, 13);
    hide Ran, HpItem;
    HpOrdinary(13, 13);
    RanKinds(s, p, 13, x);
    if p.Starts(x) {
      RanStart(s, p, 13, x);
    } else {
      RanAt(s, p, 13, x);
      HpShape(p.Place(x), Initializer, Initializer);
    }
  }

  // ----- what its clocks say -----

  /** The increment that revisits knows all its thread has read, and what that knows. */
  lemma RevKnows(s: State)
    requires Inv(s) && Ran(s, HpAt(13), 13) && HpClocks(s.graph, 13, Initializer)
    ensures var g := s.graph;
            && CHas(g, REV, GET_Y) && CHas(g, REV, STORE_Y) && CHas(g, REV, GET) && CHas(g, REV, PASS)
            && CHas(g, REV, READ_MID) && CHas(g, REV, REV_READ) && CHas(g, REV, REV)
  {
    hide Inv;
    var g := s.graph;
    HpPlaces(s);
    Added(s, 13, Initializer, Initializer, 12);
    hide Ran, HpHiding;
    ReleaseKnows(s, REV, GET_Y);
    ReleaseKnows(s, REV, GET);
    ReleaseKnows(s, REV, REV_READ);
    ReleaseKnows(s, REV, REV);
    KnowsSource(s, GET_Y);
    KnowsSource(s, GET);
    KnowsOnward(s, REV, GET_Y, STORE_Y);
    KnowsOnward(s, REV, GET, PASS);
    KnowsOnward(s, REV, PASS, READ_MID);
  }

  lemma MidKnows(s: State)
    requires Inv(s) && Ran(s, HpAt(13), 13) && HpClocks(s.graph, 13, Initializer)
    ensures CHas(s.graph, MID, MID) && CHas(s.graph, MID, RMW_READ) && CHas(s.graph, MID, FLAG)
  {
    hide Inv;
    HpPlaces(s);
    hide Ran, HpHiding;
    SelfAware(s, MID);
    KnowsOnward(s, MID, RMW_READ, FLAG);
  }

  lemma HpUnknown(g: Graph)
    requires HpClocks(g, 13, Initializer)
    ensures forall x :: CHas(g, x, READ_A) ==> x == READ_A || x == FINISH_0
    ensures !CHas(g, REV, MID) && !CHas(g, REV_READ, RMW_READ)
  {}

  // ----- happens-before -----

  /** What the children can have heard of: their own events and those of main up to the creations. */
  predicate Heard(x: Event) { x.thread >= 1 || x.index <= 2 }

  predicate OfMain(x: Event) { x.thread == 0 && x.index <= 2 }

  lemma HpEdge(s: State, p: Event, x: Event)
    requires Ran(s, HpAt(13), 13) && HbEdge(s.graph, p, x)
    ensures (Heard(x) ==> Heard(p)) && (OfMain(x) ==> OfMain(p)) && In(s.graph, x)
  {
    HpPlaces(s);
    HpLabel(s, x);
    MainNeverStarts(s);
    hide Ran, MsgSource;
  }

  lemma MainNeverStarts(s: State)
    requires Ran(s, HpAt(13), 13)
    ensures forall x :: In(s.graph, x) && x.thread == 0 && x.index >= 1 ==> !L(s.graph, x).kind.ThreadStart?
    ensures forall x :: In(s.graph, x) ==> L(s.graph, x).pos == x
    ensures In(s.graph, Initializer) && L(s.graph, Initializer).kind == ThreadStart(Initializer)
  {
    HpOrdinary(13, 13);
    forall x | In(s.graph, x)
      ensures x.thread == 0 && x.index >= 1 ==> !L(s.graph, x).kind.ThreadStart?
      ensures L(s.graph, x).pos == x
    {
      RanKinds(s, HpAt(13), 13, x);
      HpPos(s, x);
    }
  }

  lemma HpPos(s: State, x: Event)
    requires Ran(s, HpAt(13), 13) && In(s.graph, x)
    ensures L(s.graph, x).pos == x
  {
    var p := HpAt(13);
    if p.Starts(x) {
      if x.index >= 1 {
        assert Has(s.graph, Event(0, x.index), CreateOf(x.index).(stamp := 2 * x.index - 1));
      } else if x.thread >= 1 {
        var t: nat := x.thread;
        assert Has(s.graph, Event(t, 0), StartLabel(t, Event(0, t)).(stamp := 2 * t));
      }
    } else {
      RanAt(s, p, 13, x);
      hide Ran;
      HpShape(p.Place(x), Initializer, Initializer);
    }
  }

  lemma {:induction false} PathHeard(s: State, ps: seq<Event>)
    requires Ran(s, HpAt(13), 13) && HbPath(s.graph, ps)
    ensures (Heard(ps[|ps| - 1]) ==> Heard(ps[0])) && (OfMain(ps[|ps| - 1]) ==> OfMain(ps[0]))
    decreases |ps|
  {
    hide Ran;
    var n := |ps|;
    assert HbEdge(s.graph, ps[n - 2], ps[n - 1]);
    HpEdge(s, ps[n - 2], ps[n - 1]);
    if n > 2 { PathHeard(s, ps[..n - 1]); }
  }

  lemma HpHb(s: State, a: Event, b: Event)
    requires Inv(s) && Ran(s, HpAt(13), 13) && HbHas(s.graph, b, a) && a.index >= 1
    ensures (Heard(b) ==> Heard(a)) && (OfMain(b) ==> OfMain(a))
  {
    hide Inv;
    StartsThere(s, HpAt(13), 13);
    hide Ran;
    HbUnlessHeld(s, a, b);
    if a != b {
      var ps :| HbPath(s.graph, ps) && ps[0] == a && ps[|ps| - 1] == b;
      PathHeard(s, ps);
    }
  }

  // ----- the driver makes the revisit -----

  function HpRevisit(): RevisitSpec.BackwardRevisit { BackwardHelper(READ_A, REV, MID) }

  /** Forward revisits demote; nothing has been fixed, there having been no backward revisit. The second increment comes
      right after the initialiser it reads, and so before the first. */
  function HpRecords(): Records { Records({FLAG, REV_READ}, {}, map[A := [REV, MID]]) }

  lemma HpNewest(g: Graph, r: Event)
    requires HpGraph(g) && IsReadAt(g, r) && r !in HpRecords().demoted
    ensures ReadNewest(g, r)
  {
    assert IsAccess(g, r);
    forall w | IsWriteAt(g, w) && L(g, w).addr == L(g, r).addr && L(g, w).stamp < L(g, r).stamp
      ensures In(g, L(g, r).rf) && (w == L(g, r).rf || L(g, w).stamp < L(g, L(g, r).rf).stamp)
    {
      assert IsAccess(g, w);
    }
  }

  lemma HpCompetitor(g: Graph)
    requires HpGraph(g)
    ensures forall r :: Competes(g, REV_READ, r) <==> r == RMW_READ
    ensures IsEarliestCompetitor(g, REV_READ, RMW_READ)
  {
    forall r ensures Competes(g, REV_READ, r) <==> r == RMW_READ {
      if Competes(g, REV_READ, r) { assert IsAccess(g, r); }
    }
  }

  lemma HpBlocker(g: Graph)
    requires HpGraph(g)
    ensures RevBlocker(g, HpRecords(), MID)
  {
    assert PreviousAccess(g, RMW_READ, FLAG);
  }

  lemma HpBuilt(g: Graph)
    requires HpGraph(g) && HpClocks(g, 13, Initializer)
    ensures HelperBuilt(g, HpRecords(), HpRevisit()) && Candidate(g, HpRecords(), REV, READ_A)
    ensures !ReadBySettled(g, HpRecords(), REV_READ, Initializer)
  {
    hide RevBlocker, Competes, HpHiding, ReadBySettled;
    HpUnknown(g);
    HpCompetitor(g);
    HpBlocker(g);
    forall p | IsEarliestCompetitor(g, REV_READ, p) && p != Initializer ensures L(g, READ_A).stamp <= L(g, p).stamp {
      assert Competes(g, REV_READ, RMW_READ);
    }
    HpNotSettled(g);
  }

  lemma HpNotSettled(g: Graph)
    requires HpGraph(g) && !CHas(g, REV_READ, RMW_READ) && forall r :: Competes(g, REV_READ, r) <==> r == RMW_READ
    ensures !ReadBySettled(g, HpRecords(), REV_READ, Initializer)
  {
    hide RevBlocker;
    forall r | IsReadAt(g, r) && r != REV_READ && IsRmwLoad(g, r) && L(g, r).rf == Initializer && L(g, r).addr == A
      ensures r !in HpRecords().fixed && !CHas(g, REV_READ, r)
    {
      assert Competes(g, REV_READ, r);
    }
  }

  /** Readers of the first increment. */
  lemma MidReaders(g: Graph)
    requires HpGraph(g) && RfInverse(g)
    ensures forall e :: ItOrReader(g, MID, e) <==> e == MID || e == READ_MID
  {
    forall e ensures ItOrReader(g, MID, e) <==> e == MID || e == READ_MID {
      if e in L(g, MID).readers {
        assert IsReadAt(g, e) && L(g, e).rf == MID && IsAccess(g, e);
      }
      assert IsReadAt(g, READ_MID) && IsWriteAt(g, L(g, READ_MID).rf);
    }
  }

  lemma HpCoherent(s: State)
    requires Inv(s) && Ran(s, HpAt(13), 13)
    ensures CoherentRevisit(s.graph, HpRecords(), REV, READ_A)
  {
    hide Inv, Ran;
    var g := s.graph;
    HpPlaces(s);
    HpAfter(s);
    if HbHas(g, REV, READ_A) { HpHb(s, READ_A, REV); }
    forall e | CoBefore(g, HpRecords().co[A], REV, e) ensures !HbHas(g, e.Prev(), READ_A) {
      HpBefore(g, e);
      if HbHas(g, e.Prev(), READ_A) { HpHb(s, READ_A, e.Prev()); }
    }
  }

  /** Only the first increment and its readers come after the second in coherence order. */
  lemma HpAfter(s: State)
    requires Inv(s) && Ran(s, HpAt(13), 13)
    ensures forall e :: CoAfter(s.graph, HpRecords().co[A], REV, e) ==> !HbHas(s.graph, READ_A.Prev(), e)
  {
    hide Inv, Ran, RfInverse, ThreadsIncrease, Stamped, GraphOk, SpawnedLabels;
    var g, co := s.graph, HpRecords().co[A];
    HpPlaces(s);
    GraphParts(s);
    MidReaders(g);
    forall e | CoAfter(g, co, REV, e) ensures !HbHas(g, READ_A.Prev(), e) {
      var x :| Succeeds(co, REV, x) && ItOrReader(g, x, e);
      assert x == MID;
      if HbHas(g, READ_A.Prev(), e) { HpHb(s, e, READ_A.Prev()); }
    }
  }

  /** What is before the second increment in coherence order are reads of the initialiser. */
  lemma HpBefore(g: Graph, e: Event)
    requires HpGraph(g) && CoBefore(g, [REV, MID], REV, e)
    ensures Heard(e.Prev())
  {
    assert forall x :: x != Initializer ==> !Succeeds([REV, MID], x, REV);
    assert IsAccess(g, e);
  }

  lemma ViewHasMid(g: Graph, r: RevisitSpec.BackwardRevisit, v: Clock, e: Event)
    requires IsRevisitView(g, r, v) && r.BackwardHelper? && (CHas(g, r.rev, e) || CHas(g, r.mid, e))
    ensures v.Has(e)
  {}

  /** Of all accesses only the read revisited is not in the view, or counts as if it were not, and it is one whose
      source the prefix determines. */
  lemma HpMaximal(s: State, v: Clock)
    requires Inv(s) && Ran(s, HpAt(13), 13) && HpClocks(s.graph, 13, Initializer)
    requires IsRevisitView(s.graph, HpRevisit(), v)
    ensures MaximalExtension(s.graph, HpRecords(), HpRevisit(), v)
  {
    hide Inv, IsRevisitView, NotMaximal;
    var g, r := s.graph, HpRevisit();
    RevKnows(s);
    MidKnows(s);
    HpPlaces(s);
    RevWf(s);
    hide Ran, HpClocks;
    RevClock(g);
    assert SuccessorStays(g, HpRecords(), r, v);
    forall x | IsAccess(g, x) ensures (x != r.pos && v.Has(x)) || InPrefixHole(g, r, x) {
      if x != READ_A { ViewHasMid(g, r, v, x); }
    }
  }

  lemma RevWf(s: State)
    requires Inv(s) && IsWriteAt(s.graph, REV)
    ensures L(s.graph, REV).pporf.Wf()
  {
    hide Inv, InvAt, GraphOk, HeldAllOk, Settled;
    var o := InvOrder(s);
    InvRevisitable(s.graph, s.blocked, o);
  }

  /** The hole at the read of a in the prefix of the second increment. */
  lemma RevClock(g: Graph)
    requires HpGraph(g) && CHas(g, REV, STORE_Y) && CHas(g, REV, REV_READ) && L(g, REV).pporf.Wf()
    ensures InPrefixHole(g, HpRevisit(), READ_A)
  {
    var c := L(g, REV).pporf;
    HasAt(c, STORE_Y);
    assert c.Has(REV_READ) && IsReadAt(g, REV_READ);
    assert FixedHole(g, READ_A, c);
  }

  lemma HpMakes(s: State, v: Clock)
    requires Inv(s) && Ran(s, HpAt(13), 13) && HpClocks(s.graph, 13, Initializer)
    requires IsRevisitView(s.graph, HpRevisit(), v)
    ensures MakesHelper(s.graph, HpRecords(), HpRevisit(), v)
    ensures forall r :: IsReadAt(s.graph, r) && r !in HpRecords().demoted ==> ReadNewest(s.graph, r)
  {
    hide Inv, Ran, HpClocks, IsRevisitView, HelperBuilt, Candidate, CoherentRevisit, ReadBySettled, MaximalExtension,
         ReadNewest;
    HpPlaces(s);
    HpBuilt(s.graph);
    HpCoherent(s);
    HpMaximal(s, v);
    forall r | IsReadAt(s.graph, r) && r !in HpRecords().demoted
      ensures ReadNewest(s.graph, r)
    {
      HpNewest(s.graph, r);
    }
  }

  // ----- and its result is not accepted -----

  lemma ReaderKept(g: Graph, r: RevisitSpec.BackwardRevisit, v: Clock, x: Event)
    requires r.BackwardHelper? && v.Wf() && v.Has(x) && IsReadAt(g, x) && x != r.pos && L(g, x).rf == r.mid
    requires r.mid.thread >= 0
    requires x != r.mid && x != r.mid.Prev()
    ensures !NobodyReadsMid(g, r, Punched(r, v))
  {
    PunchedHas(r, v);
    assert Punched(r, v).Has(x);
  }

  lemma HpReadsMid(s: State, v: Clock)
    requires Inv(s) && Ran(s, HpAt(13), 13) && HpClocks(s.graph, 13, Initializer)
    requires IsRevisitView(s.graph, HpRevisit(), v)
    ensures !NobodyReadsMid(s.graph, HpRevisit(), Punched(HpRevisit(), v))
  {
    hide Inv, InvAt, GraphOk, HeldAllOk, Ran, HpClocks, IsRevisitView, Revisitable, Settled, NobodyReadsMid;
    HpPlaces(s);
    RevKnows(s);
    var o := InvOrder(s);
    InvRevisitable(s.graph, s.blocked, o);
    RevisitViewInside(s.graph, HpRevisit(), v);
    ViewHasMid(s.graph, HpRevisit(), v, READ_MID);
    ReaderKept(s.graph, HpRevisit(), v, READ_MID);
  }

  lemma HpRevisitable(s: State, timestamp: nat)
    requires Inv(s) && Timed(s.graph, timestamp) && Ran(s, HpAt(13), 13)
    ensures var g, r := s.graph, HpRevisit();
            && Revisitable(g) && Begun(g) && In(g, Initializer) && HelperOk(g, r) && IsReadAt(g, r.pos)
            && IsWriteAt(g, r.rev)
            && (forall e :: In(g, e) && e != Initializer ==> L(g, e).stamp > 0)
            && RfClosedPrefix(g, L(g, r.pos).stamp, r.pos)
  {
    hide Inv, InvAt, GraphOk, HeldAllOk, Ran, Revisitable, Settled, RfClosedPrefix, Whole, Timed;
    HpPlaces(s);
    TimedStamps(s.graph, timestamp);
    ReadOpen(s, READ_A);
  }

  /** What reads of an open stamp can rely on. */
  lemma ReadOpen(s: State, read: Event)
    requires Inv(s) && IsReadAt(s.graph, read) && L(s.graph, read).stamp !in s.shut
    ensures Revisitable(s.graph) && Begun(s.graph) && In(s.graph, Initializer)
    ensures RfClosedPrefix(s.graph, L(s.graph, read).stamp, read)
  {
    hide Inv, InvAt, GraphOk, HeldAllOk, Revisitable, Settled, RfClosedPrefix, Whole, RfInverse;
    var o := InvOrder(s);
    InvRevisitable(s.graph, s.blocked, o);
    GraphParts(s);
    OpenPrefix(s.graph, read);
  }

  /** A run of additions and forward revisits, and a helper revisit that the driver makes of its last graph. The first
      increment is taken out with a read of it left, and validate() refuses the graph. */
  method HelperDangles()
    returns (d: ImmDriver, ghost ss: seq<State>, ghost acts: seq<Action>, ghost s: State, copy: ExecutionGraph,
        ghost v: Clock)
    ensures RunCases.Reached(d, ss, acts, s) && IsRevisitView(s.graph, HpRevisit(), v)
    ensures MakesHelper(s.graph, HpRecords(), HpRevisit(), v)
    ensures forall a :: a in acts ==> a.Append? || a.CutBack? || a.Retarget?
    ensures forall e :: e in HpRecords().demoted <==> DemotedBy(acts, e)
    ensures forall r :: IsReadAt(s.graph, r) && r !in HpRecords().demoted ==> ReadNewest(s.graph, r)
    ensures exists c, h ::
              IsCopy(s.graph, Punched(HpRevisit(), v), c) && IsReadAt(s.graph, READ_A) && IsReadAt(h, READ_A) &&
              Restamped(c, L(s.graph, READ_A).stamp, h, copy.timestamp) && copy.events == RfChanged(h, READ_A, REV)
    ensures !RfInverse(copy.events)
  {
    hide Inv, Timed, Ran, HpClocks, Step, Revisitable, RfClosedPrefix, IsRevisitView, RfInverse, NobodyReadsMid,
         HelperOk, IsCopy, Restamped, RfChanged, MakesHelper, ReadNewest, DemotedBy, HpItem;
    d, ss, acts, s := HpRun();
    HpPlaces(s);
    HpRevisitable(s, d.graph.timestamp);
    var dep := new DepExecutionGraph(d.graph);
    copy, v := dep.Revisit(HpRevisit());
    HpReadsMid(s, v);
    HpMakes(s, v);
  }
}
