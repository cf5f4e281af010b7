/** The driver's visits and revisits: each one is a step of a run, or several. */
module Visits {
  import opened Events
  import opened Clocks
  import opened Graphs
  import opened ImmSpec
  import opened Causality
  import opened HbExact
  import opened Restriction
  import opened Sources
  import opened Settling
  import opened StampBounds
  import opened Trimming
  import opened RevisitSpec
  import opened CutSpec
  import opened DepCutSpec
  import opened States
  import opened Additions
  import opened Recompute
  import opened Cutbacks
  import opened Runs
  import opened Outcomes
  import opened DepViews
  import opened ExecutionGraphs
  import opened DepExecutionGraphs
  import opened ImmDrivers

  // ----- the driver and its state -----

  /** Stamps to come are later than all there are, and only main began at stamp 0. */
  ghost predicate Timed(g: Graph, timestamp: nat) {
    Newest(g, timestamp) && timestamp >= 1 && forall e :: In(g, e) && e != Initializer ==> L(g, e).stamp > 0
  }

  /** The driver is in state s. */
  ghost predicate Tracks(d: ImmDriver, s: State)
    reads d.graph
  {
    d.graph.events == s.graph && Inv(s) && Timed(s.graph, d.graph.timestamp)
  }

  /** The labels that views of a running thread are computed from have clocks to rely on. */
  lemma NearReady(g: Graph, blocked: set<nat>, o: Order, t: int)
    requires InvAt(Settled(g, blocked), o) && HeldAllOk(g, blocked, Settled(g, blocked)) && FinishesLast(g)
    requires 0 <= t < |g| && t !in blocked
    ensures ReadyNear(g, t)
  {
    var w := Settled(g, blocked);
    hide InvAt, HeldAllOk, Settled, HbInv, Causal, Sourced, FinishesLast, ReadyNear, Ready, Started, Positioned;
    InvParts(w, o);
    SettledShows(g, blocked, t);
    CausalReady(w, o);
    SettledStarted(g, blocked);
    ShownReady(g, w, t);
  }

  lemma ShownReady(g: Graph, w: Graph, t: int)
    requires Ready(w) && Started(g) && Positioned(g)
    requires (forall x :: In(w, x) ==> In(g, x) && L(w, x) == L(g, x)) && forall x :: Near(g, t, x) ==> In(w, x)
    ensures ReadyNear(g, t)
  {
    hide Started, Positioned;
    assert ClocksNear(g, t);
    hide ClocksNear;
    assert ViewsNear(g, t);
  }

  lemma InvStarted(s: State)
    requires Inv(s)
    ensures Started(s.graph) && Positioned(s.graph) && Begun(s.graph) && NoAbsent(s.graph) && In(s.graph, Initializer)
  {
    hide Inv, InvAt, HeldAllOk, Settled, GraphOk;
    var o := InvOrder(s);
    GraphStamps(s.graph);
    InvRefs(Settled(s.graph, s.blocked), o);
    SettledStarted(s.graph, s.blocked);
    SettledAt(s.graph, s.blocked);
  }

  // ----- additions -----

  /** The stamp a label gets when it is added does not enter its views. */
  lemma StampIrrelevant(g: Graph, lab: Label, deps: EventDeps, lab': Label, stamp: nat)
    requires Viewable(g, lab, deps) && ViewsComputed(g, lab, deps, lab')
    ensures Viewable(g, lab.(stamp := stamp), deps)
    ensures ViewsComputed(g, lab.(stamp := stamp), deps, lab'.(stamp := stamp))
  {
    var l := lab'.(stamp := stamp);
    hide FromPpo, FromRelease, FromRf;
    forall a ensures PpoNew(g, lab', deps, a) <==> PpoNew(g, l, deps, a) {}
    forall a ensures PporfNew(g, lab', deps, a) <==> PporfNew(g, l, deps, a) {}
    forall a ensures HbNew(g, lab', a) <==> HbNew(g, l, a) {}
    forall a ensures MsgNew(g, lab', a) <==> MsgNew(g, l, a) {}
  }

  /** What a visit of a new label may rely on: its thread runs, and no begin claims a creation before it is there. */
  ghost predicate Visitable(s: State, lab: Label, deps: EventDeps) {
    && Viewable(Roomy(s.graph, lab), lab, deps) && lab.stamp == 0
    && (lab.kind.ThreadStart? ==> deps == EventDeps([], [], [], [], []) && Unclaimed(s.graph, lab.kind.parentCreate))
    && (lab.pos.index > 0 ==>
           lab.pos.thread !in s.blocked && In(s.graph, lab.pos.Prev()) &&
           !L(s.graph, lab.pos.Prev()).kind.ThreadFinish?)
    && (lab.kind.ThreadCreate? ==> Unclaimed(s.graph, lab.pos))
    && (lab.kind.ThreadJoin? ==> lab.kind.childLast == Initializer)
    && (lab.kind.ThreadFinish? ==> lab.kind.parentJoin == Initializer)
  }

  lemma VisitReady(s: State, lab: Label, deps: EventDeps, stamp: nat)
    requires Inv(s) && Newest(s.graph, stamp) && Visitable(s, lab, deps)
    ensures var r := Roomy(s.graph, lab);
            && ReadyNear(r, lab.pos.thread) && Newest(r, stamp) && Issued(s, lab.(stamp := stamp))
            && lab.pos != Initializer
            && (lab.kind.ThreadJoin? ==> lab.kind.childId < |r| && |r[lab.kind.childId]| > 0)
  {
    var r := Roomy(s.graph, lab);
    hide Inv, InvAt, HeldAllOk, Settled, Viewable, ReadyNear, Whole, RfInverse, Stamped, GraphOk, FinishesLast, Started,
         Positioned, NoAbsent;
    ViewableShape(r, lab, deps);
    InvStarted(s);
    assert lab.pos != Initializer && Issued(s, lab.(stamp := stamp));
    var o := InvOrder(s);
    hide Visitable;
    RoomyOk(s, o, lab.(stamp := stamp));
    NearReady(r, s.blocked, o, lab.pos.thread);
    if lab.kind.ThreadJoin? { ViewableJoin(r, lab, deps); }
  }

  lemma ViewableJoin(g: Graph, lab: Label, deps: EventDeps)
    requires Viewable(g, lab, deps) && lab.kind.ThreadJoin?
    ensures lab.kind.childId < |g|
  {}

  lemma PlacedTimed(s: State, lab: Label, stamp: nat)
    requires Timed(s.graph, stamp) && lab.stamp == stamp
    requires var r := Roomy(s.graph, lab); Limit(r, lab.pos) && lab.pos.index == |r[lab.pos.thread]|
    requires lab.IsRead() ==> lab.rf != lab.pos
    ensures Timed(Placed(Roomy(s.graph, lab), lab), stamp + 1)
  {
    var r := Roomy(s.graph, lab);
    PlacedOneMore(r, lab);
    assert forall x :: In(r, x) <==> In(s.graph, x);
    assert forall x :: In(r, x) ==> L(r, x) == L(s.graph, x);
  }

  /** Adds a label with its views; a start label to a new thread. */
  method VisitLabel(d: ImmDriver, ghost s: State, lab: Label, deps: EventDeps) returns (placed: Label, ghost s': State)
    requires Tracks(d, s) && Visitable(s, lab, deps)
    modifies d.graph
    ensures d.graph.timestamp == old(d.graph.timestamp) + 1
    ensures AppendStep(s, lab.(stamp := old(d.graph.timestamp)), deps, placed, s')
    ensures Step(s, Append(lab.(stamp := old(d.graph.timestamp)), deps), s') && Tracks(d, s')
  {
    hide Inv, ReadyNear, Viewable, ViewsComputed, Newest;
    ghost var g, stamp := d.graph.events, d.graph.timestamp;
    assert Newest(g, stamp);
    VisitReady(s, lab, deps, stamp);
    ghost var r := Roomy(g, lab);
    ViewableShape(r, lab, deps);
    if lab.kind.ThreadStart? {
      d.graph.AddNewThread();
    }
    assert d.graph.events == r;
    var lab' := d.UpdateLabelViews(lab, deps);
    StampIrrelevant(r, lab, deps, lab', stamp);
    ComputedShape(r, lab, deps, lab');
    placed := lab'.(stamp := d.graph.timestamp);
    if lab'.IsRead() {
      d.graph.AddReadLabelToGraph(lab');
    } else {
      d.graph.AddOtherLabelToGraph(lab');
    }
    s' := State(d.graph.events, BlockedBy(s.blocked, lab), s.shut);
    VisitDone(s, lab, deps, placed, s', stamp);
  }

  lemma VisitDone(s: State, lab: Label, deps: EventDeps, placed: Label, s': State, stamp: nat)
    requires Inv(s) && Timed(s.graph, stamp) && Visitable(s, lab, deps) && Issued(s, lab.(stamp := stamp))
    requires var l := lab.(stamp := stamp);
                 Viewable(Roomy(s.graph, lab), l, deps) && ViewsComputed(Roomy(s.graph, lab), l, deps, placed)
    requires Addable(Roomy(s.graph, lab), placed.pos)
    requires s' == State(Placed(Roomy(s.graph, lab), placed), BlockedBy(s.blocked, lab), s.shut)
    ensures AppendStep(s, lab.(stamp := stamp), deps, placed, s') && Step(s, Append(lab.(stamp := stamp), deps), s')
    ensures Inv(s') && Timed(s'.graph, stamp + 1)
  {
    var l := lab.(stamp := stamp);
    hide Inv, Viewable, ViewsComputed, Timed, Placed, Issued, Unclaimed;
    assert Roomy(s.graph, l) == Roomy(s.graph, lab) && BlockedBy(s.blocked, l) == BlockedBy(s.blocked, lab);
    hide Roomy;
    ComputedShape(Roomy(s.graph, l), l, deps, placed);
    ViewableShape(Roomy(s.graph, l), l, deps);
    assert AppendStep(s, l, deps, placed, s');
    assert Step(s, Append(l, deps), s');
    hide Visitable;
    AppendKeeps(s, l, deps, placed, s');
    hide AppendStep;
    PlacedRoomy(s.graph, l, placed);
    PlacedTimed(s, placed, stamp);
  }

  lemma PlacedRoomy(g: Graph, lab: Label, placed: Label)
    requires placed.kind == lab.kind
    ensures Roomy(g, placed) == Roomy(g, lab)
  {}

  // ----- re-targeting the last read of a thread -----

  /** All that re-targeting a read asks of the graph. */
  ghost predicate Retargetable(g: Graph, read: Event, store: Event) {
    && IsReadAt(g, read) && read.index > 0 && L(g, read).pos == read && (store == Bottom || RfTarget(g, store))
    && (store.thread == read.thread ==> store.index < read.index)
    && WfSources(RfChanged(g, read, store))
    && In(g, read.Prev()) && L(g, read.Prev()).hb.At(read.thread) == read.index - 1
    && L(g, read).ppo.Wf() && L(g, read).ppo.Tight() && L(g, read).ppo.At(read.thread) >= read.index
  }

  lemma RetargetedWf(g: Graph, read: Event, store: Event)
    requires WfSources(g) && IsReadAt(g, read)
    ensures WfSources(RfChanged(g, read, store))
    ensures forall x :: In(g, x) ==> L(RfChanged(g, read, store), x).msg == L(g, x).msg
  {
    var h := RfChanged(g, read, store);
    RfChangedAt(g, read, store);
    RetargetedKinds(g, h, read, store);
    hide RfChanged;
    forall x | In(g, x)
      ensures L(h, x).ppo == L(g, x).ppo && L(h, x).pporf == L(g, x).pporf && L(h, x).msg == L(g, x).msg
      ensures RfTarget(h, x) <==> RfTarget(g, x)
    {}
  }

  lemma ReadyWf(g: Graph, t: int)
    requires ReadyNear(g, t)
    ensures WfSources(g) && Positioned(g)
    ensures forall x: Event :: In(g, x) && x.thread == t ==> L(g, x).ppo.Wf() && L(g, x).ppo.Tight()
    ensures forall x: Event :: In(g, x) && x.thread == t ==> L(g, x).hb.At(t) == x.index
    ensures forall w, a :: IsWriteAt(g, w) && L(g, w).msg.Has(a) ==> In(g, a)
  {
    assert forall w :: IsWriteAt(g, w) ==> Near(g, t, w);
    assert forall x: Event :: In(g, x) && x.thread == t ==> Near(g, t, x);
  }

  lemma LastRetargetable(s: State, read: Event, store: Event)
    requires Inv(s) && LastRecomputable(s.graph, read) && L(s.graph, read).IsRead()
    requires (store == Bottom || RfTarget(s.graph, store))
    ensures Retargetable(s.graph, read, store)
    ensures var h := RfChanged(s.graph, read, store);
            In(h, read) && (store != Bottom ==> In(h, store)) &&
            (store != Bottom && L(h, store).IsWrite() ==> L(h, store).msg.At(read.thread) <= read.index)
  {
    var g := s.graph;
    hide Inv, InvAt, HeldAllOk, Settled, ReadyNear, GraphOk, FinishesLast, Started, Positioned, NoAbsent, RfChanged;
    var o := InvOrder(s);
    ReadRuns(g, s.blocked, read);
    ReadPpo(g, s.blocked, o, read);
    GraphFinishes(g);
    NearReady(g, s.blocked, o, read.thread);
    ReadyWf(g, read.thread);
    RetargetedWf(g, read, store);
    RfChangedAt(g, read, store);
    RetargetedKinds(g, RfChanged(g, read, store), read, store);
    PosAt(g, read);
    if store != Bottom && L(g, store).IsWrite() { MsgBelow(L(g, store).msg, g, read); }
  }

  lemma GraphFinishes(g: Graph)
    requires GraphOk(g)
    ensures FinishesLast(g) && JoinChildren(g)
  {}

  lemma MsgBelow(v: View, g: Graph, read: Event)
    requires In(g, read) && !In(g, read.Next()) && forall a :: v.Has(a) ==> In(g, a)
    ensures v.At(read.thread) <= read.index
  {
    if v.At(read.thread) >= 1 { assert v.Has(Event(read.thread, v.At(read.thread))); }
  }

  lemma ReadRuns(g: Graph, blocked: set<nat>, read: Event)
    requires HeldAllOk(g, blocked, Settled(g, blocked)) && LastRecomputable(g, read) && L(g, read).IsRead()
    ensures read.thread !in blocked
  {
    if read.thread in blocked { HeldKind(g, blocked, Settled(g, blocked), read); }
  }

  lemma ReadPpo(g: Graph, blocked: set<nat>, o: Order, read: Event)
    requires InvAt(Settled(g, blocked), o) && HeldAllOk(g, blocked, Settled(g, blocked)) && IsReadAt(g, read)
    ensures L(g, read).ppo.Wf() && L(g, read).ppo.Tight() && L(g, read).ppo.At(read.thread) >= read.index
  {
    var w := Settled(g, blocked);
    hide InvAt, HeldAllOk, Settled, HbInv, Causal;
    AccessesSettled(g, blocked);
    InvParts(w, o);
    CausalReady(w, o);
    OwnPpo(w, o, read);
  }

  lemma OwnPpo(w: Graph, o: Order, read: Event)
    requires Causal(w, o) && IsReadAt(w, read)
    ensures L(w, read).ppo.Wf() && L(w, read).ppo.Tight() && L(w, read).ppo.At(read.thread) >= read.index
  {
    assert PHas(w, read, read);
  }

  /** Re-targets the last read of a thread. */
  method ChangeRf(d: ImmDriver, ghost s: State, read: Event, store: Event) returns (ghost lab: Label, ghost s': State)
    requires Tracks(d, s) && LastRecomputable(s.graph, read) && L(s.graph, read).IsRead()
    requires store == Bottom || RfTarget(s.graph, store)
    modifies d.graph
    ensures d.graph.timestamp == old(d.graph.timestamp)
    ensures RetargetStep(s, read, store, lab, s') && Step(s, Retarget(read, store), s') && Tracks(d, s')
  {
    hide Inv, RfChanged, RfRecomputed, RfContents, WfSources, Timed, Between, Set, Step, LastRecomputable, RetargetStep,
         RfTarget;
    ghost var g := s.graph;
    LastRetargetable(s, read, store);
    d.ChangeRf(read, store);
    s' := State(d.graph.events, s.blocked, s.shut + Between(g, read, store));
    lab := L(d.graph.events, read);
    RetargetIsStep(s, read, store, lab, s');
    RetargetDone(s, read, store, lab, s', d.graph.timestamp);
  }

  lemma RetargetIsStep(s: State, read: Event, store: Event, lab: Label, s': State)
    requires LastRecomputable(s.graph, read) && L(s.graph, read).IsRead()
    requires (store == Bottom || RfTarget(s.graph, store))
    requires var c := RfChanged(s.graph, read, store);
             In(c, read) && RfRecomputed(c, L(c, read), lab) &&
             s' == State(Set(c, read, lab), s.blocked, s.shut + Between(s.graph, read, store))
    ensures RetargetStep(s, read, store, lab, s')
  {}

  lemma RetargetDone(s: State, read: Event, store: Event, lab: Label, s': State, timestamp: nat)
    requires Inv(s) && Timed(s.graph, timestamp) && RetargetStep(s, read, store, lab, s')
    ensures Step(s, Retarget(read, store), s') && Inv(s') && Timed(s'.graph, timestamp)
  {
    hide Inv, RfChanged, RfRecomputed;
    RetargetKeeps(s, read, store, lab, s');
    var c := RfChanged(s.graph, read, store);
    RfChangedAt(s.graph, read, store);
    SetAt(c, read, lab);
    assert lab.stamp == L(c, read).stamp by { RecomputedFields(c, L(c, read), lab); }
    SameStamps(s.graph, s'.graph, timestamp);
  }

  lemma SameStamps(g: Graph, h: Graph, timestamp: nat)
    requires Timed(g, timestamp) && (forall x :: In(h, x) <==> In(g, x)) && forall x :: In(g, x) ==>
                 L(h, x).stamp == L(g, x).stamp
    ensures Timed(h, timestamp)
  {}

  // ----- joins -----

  /** What the completion of a join asks of the graph. */
  ghost predicate Completable(g: Graph, join: Event) {
    && In(g, join) && L(g, join).kind.ThreadJoin? && join.index > 0 && !In(g, join.Next())
    && L(g, join).pos == join && L(g, join).ppo.Wf() && L(g, join).ppo.Tight()
    && ReadyNear(Without(g, join), join.thread)
  }

  lemma WithoutAt(g: Graph, e: Event)
    requires In(g, e) && e.index == |g[e.thread]| - 1
    ensures forall x :: In(Without(g, e), x) <==> In(g, x) && x != e
    ensures forall x :: In(Without(g, e), x) ==> L(Without(g, e), x) == L(g, x)
  {}

  lemma LastCompletable(s: State, join: Event)
    requires Inv(s) && LastRecomputable(s.graph, join) && L(s.graph, join).kind.ThreadJoin?
    ensures Completable(s.graph, join)
  {
    hide Inv, InvAt, HeldAllOk, Settled, ReadyNear, GraphOk, Started, Positioned, NoAbsent, Without;
    var o := InvOrder(s);
    InvStarted(s);
    JoinBuildable(s.graph, s.blocked, o, join);
    WithoutReady(s.graph, s.blocked, join);
  }

  lemma JoinBuildable(g: Graph, blocked: set<nat>, o: Order, join: Event)
    requires GraphOk(g) && HeldAllOk(g, blocked, Settled(g, blocked)) && InvAt(Settled(g, blocked), o)
    requires LastRecomputable(g, join)
    ensures Ready(Settled(g, Add(blocked, join.thread)))
    ensures L(g, join).pos == join && L(g, join).ppo.Wf() && L(g, join).ppo.Tight()
  {
    var p := Settled(g, Add(blocked, join.thread));
    hide InvAt, HeldAllOk, Settled, GraphOk, Supported, BaseOk, PpoSourced, Ready, Causal, HbInv;
    RestOfLast(g, blocked, o, join);
    InvParts(p, o);
    CausalReady(p, o);
  }

  lemma WithoutReady(g: Graph, blocked: set<nat>, join: Event)
    requires LastRecomputable(g, join) && Ready(Settled(g, Add(blocked, join.thread)))
    requires HeldAllOk(g, blocked, Settled(g, blocked))
    requires Started(g) && Positioned(g)
    ensures ReadyNear(Without(g, join), join.thread)
  {
    var g0, b := Without(g, join), Add(blocked, join.thread);
    var p := Settled(g, b);
    hide HeldAllOk, Settled, ReadyNear, Started, Positioned, Ready, Without;
    WithoutAt(g, join);
    SettledAt(g, b);
    forall x | Near(g0, join.thread, x) ensures In(p, x) {
      if IsHeld(g, b, x) && x.thread != join.thread { HeldKind(g, blocked, Settled(g, blocked), x); }
    }
    PartStarted(g, g0);
    ShownReady(g0, p, join.thread);
  }

  lemma PartStarted(g: Graph, h: Graph)
    requires Started(g) && Positioned(g) && forall x :: In(h, x) ==> In(g, x) && L(h, x) == L(g, x)
    ensures Started(h) && Positioned(h)
  {}

  /** Completes the last join of a thread if its child has finished. */
  method UpdateJoin(d: ImmDriver, ghost s: State, join: Event, childLast: Event)
    returns (ok: bool, ghost lab: Label, ghost s': State)
    requires Tracks(d, s) && LastRecomputable(s.graph, join) && L(s.graph, join).kind.ThreadJoin?
    requires In(s.graph, childLast) && childLast.thread == L(s.graph, join).kind.childId
    requires childLast.index == |s.graph[childLast.thread]| - 1
    modifies d.graph
    ensures d.graph.timestamp == old(d.graph.timestamp) && Tracks(d, s')
    ensures ok <==> L(s.graph, childLast).kind.ThreadFinish?
    ensures if ok then CompleteStep(s, join, childLast, lab, s') && Step(s, Complete(join, childLast), s') else s' == s
  {
    hide Inv, JoinUpdated, JoinRecomputed, ReadyNear, Timed, Set, Step, LastRecomputable, CompleteStep;
    LastCompletable(s, join);
    ok := d.UpdateJoin(join, childLast);
    s' := s;
    lab := L(s.graph, join);
    if ok {
      JoinUpdatedAt(s.graph, join, childLast);
      lab := L(d.graph.events, join);
      s' := State(d.graph.events, Drop(s.blocked, join.thread), s.shut);
      CompleteIsStep(s, join, childLast, lab, s');
      CompleteDone(s, join, childLast, lab, s', d.graph.timestamp);
    }
  }

  lemma CompleteIsStep(s: State, join: Event, f: Event, lab: Label, s': State)
    requires LastRecomputable(s.graph, join) && L(s.graph, join).kind.ThreadJoin?
    requires FinishOf(s.graph, L(s.graph, join).kind.childId, f)
    requires var c := JoinUpdated(s.graph, join, f);
             In(c, join) && JoinRecomputed(c, L(c, join), f, lab) &&
                 s' == State(Set(c, join, lab), Drop(s.blocked, join.thread), s.shut)
    ensures CompleteStep(s, join, f, lab, s')
  {}

  lemma CompleteDone(s: State, join: Event, f: Event, lab: Label, s': State, timestamp: nat)
    requires Inv(s) && Timed(s.graph, timestamp) && CompleteStep(s, join, f, lab, s')
    ensures Step(s, Complete(join, f), s') && Inv(s') && Timed(s'.graph, timestamp)
  {
    hide Inv;
    CompleteKeeps(s, join, f, lab, s');
    CompletedLabels(s, join, f, lab, s');
    hide CompleteStep;
    SameStamps(s.graph, s'.graph, timestamp);
  }

  /** Kinds and stamps after a completion. */
  lemma CompletedLabels(s: State, join: Event, f: Event, lab: Label, s': State)
    requires CompleteStep(s, join, f, lab, s')
    ensures |s'.graph| == |s.graph| && forall t :: 0 <= t < |s.graph| ==> |s'.graph[t]| == |s.graph[t]|
    ensures forall x :: In(s'.graph, x) <==> In(s.graph, x)
    ensures forall x :: In(s.graph, x) ==> L(s'.graph, x).stamp == L(s.graph, x).stamp
    ensures forall x :: In(s.graph, x) && x != join ==>
                          L(s'.graph, x).kind == if x == f then ThreadFinish(join) else L(s.graph, x).kind
    ensures In(s'.graph, join) && L(s'.graph, join).kind == ThreadJoin(L(s.graph, join).kind.childId, f)
    ensures join != f && s'.shut == s.shut && s'.blocked == Drop(s.blocked, join.thread)
  {
    var c := JoinUpdated(s.graph, join, f);
    JoinUpdatedAt(s.graph, join, f);
    SetAt(c, join, lab);
    LengthsUpdated(s.graph, join, f);
    hide JoinUpdated, Set, FinishOf;
  }

  lemma LengthsUpdated(g: Graph, join: Event, f: Event)
    requires In(g, join) && L(g, join).kind.ThreadJoin? && In(g, f) && L(g, f).kind.ThreadFinish?
    ensures |JoinUpdated(g, join, f)| == |g| && forall t :: 0 <= t < |g| ==> |JoinUpdated(g, join, f)[t]| == |g[t]|
  {}

  datatype JoinStatus = Joined | Waits | InvalidJoin

  /** The graph after a label is appended, its thread aside, is as before. */
  lemma AppendedAt(s: State, lab: Label, deps: EventDeps, placed: Label, s': State)
    requires AppendStep(s, lab, deps, placed, s') && !lab.kind.ThreadStart?
    ensures OneMore(s.graph, placed, s'.graph) && placed.kind == lab.kind && placed.pos == lab.pos && lab.pos.index >= 1
    ensures s'.blocked == BlockedBy(s.blocked, lab) && s'.shut == s.shut
    ensures In(s'.graph, lab.pos) && L(s'.graph, lab.pos).kind == lab.kind
    ensures lab.pos.index == |s'.graph[lab.pos.thread]| - 1
    ensures lab.kind.ThreadJoin? ==> lab.kind.childId < |s.graph|
  {
    AppendStepShape(s, lab, deps, placed, s');
    hide AppendStep, Viewable, ViewsComputed, Issued, Placed;
    ViewableShape(s.graph, lab, deps);
    ComputedShape(s.graph, lab, deps, placed);
    PlacedOneMore(s.graph, placed);
    if lab.kind.ThreadJoin? { ViewableJoin(s.graph, lab, deps); }
  }

  /** The last label of another thread is where it was. */
  lemma ChildEnd(g: Graph, lab: Label, h: Graph, c: nat)
    requires OneMore(g, lab, h) && Begun(h) && c < |g| && c != lab.pos.thread
    ensures var f := Event(c, |h[c]| - 1);
            In(h, f) && In(g, f) && (L(h, f).kind.ThreadFinish? <==> exists x :: FinishOf(g, c, x))
  {
    var f := Event(c, |h[c]| - 1);
    assert |h[c]| == |g[c]|;
    assert L(h, f).kind.ThreadFinish? ==> FinishOf(g, c, f);
    assert forall x :: FinishOf(g, c, x) ==> x == f;
  }

  /** Adds a join with its views, which blocks its thread, and completes it at once if its child has finished. */
  method VisitThreadJoin(d: ImmDriver, ghost s: State, lab: Label, deps: EventDeps)
    returns (status: JoinStatus, ghost s1: State, ghost s': State)
    requires Tracks(d, s) && Visitable(s, lab, deps) && lab.kind.ThreadJoin?
    modifies d.graph
    ensures d.graph.timestamp == old(d.graph.timestamp) + 1 && Tracks(d, s')
    ensures Step(s, Append(lab.(stamp := old(d.graph.timestamp)), deps), s1)
    ensures status.InvalidJoin? <==> lab.kind.childId == lab.pos.thread
    ensures status.Joined? <==> !status.InvalidJoin? && exists f :: FinishOf(s.graph, lab.kind.childId, f)
    ensures if status.Joined? then exists f :: Step(s1, Complete(lab.pos, f), s') else s' == s1
  {
    hide Inv, Timed, Visitable, AppendStep, Step, OneMore, FinishOf;
    var placed;
    placed, s1 := VisitLabel(d, s, lab, deps);
    AppendedAt(s, lab.(stamp := old(d.graph.timestamp)), deps, placed, s1);
    s' := s1;
    var c := lab.kind.childId;
    if c == lab.pos.thread { return InvalidJoin, s1, s1; }
    InvStarted(s1);
    ChildEnd(s.graph, placed, s1.graph, c);
    var f := Event(c, |d.graph.events[c]| - 1);
    var ok;
    ghost var completed;
    ok, completed, s' := UpdateJoin(d, s1, lab.pos, f);
    status := if ok then Joined else Waits;
  }

  // ----- thread creation -----

  /** A begin that claims a creation not in the graph yet waits for it. */
  lemma ClaimedWaits(s: State, c: Event, t: nat)
    requires Inv(s) && t < |s.graph| && |s.graph[t]| > 0 && s.graph[t][0].kind == ThreadStart(c) && !In(s.graph, c)
    ensures t in s.blocked && |s.graph[t]| == 1
  {
    var g, x := s.graph, Event(t, 0);
    hide Inv, InvAt, HeldAllOk, Settled, GraphOk;
    var o := InvOrder(s);
    InvRefs(Settled(g, s.blocked), o);
    SettledAt(g, s.blocked);
    assert In(g, x) && L(g, x).kind == ThreadStart(c);
    assert !In(Settled(g, s.blocked), x);
  }

  lemma AddsPlaced(g: Graph, lab: Label)
    requires Addable(g, lab.pos) && !lab.IsRead()
    ensures AddLabel(g, lab) == Placed(g, lab)
  {}

  lemma RecreateReady(s: State, lab: Label, deps: EventDeps, t: nat, placed: Label)
    requires Inv(s) && Viewable(s.graph, lab, deps) && ViewsComputed(s.graph, lab, deps, placed)
    requires lab.kind.ThreadCreate?
    requires t in s.blocked && t < |s.graph| && |s.graph[t]| == 1 && lab.pos.thread !in s.blocked
    requires Addable(s.graph, placed.pos)
    ensures var h, e := AddLabel(s.graph, placed), Event(t, 0);
            && In(h, e) && In(s.graph, e) && L(h, e) == L(s.graph, e) && L(h, e).pos == e && |h| == |s.graph|
            && |h[t]| == 1
            && In(h, lab.pos) && L(h, lab.pos) == placed && ReadyNear(Without(h, e), t)
  {
    hide Inv, InvAt, HeldAllOk, Settled, GraphOk, Viewable, ViewsComputed, AddLabel, Placed, ReadyNear, Extends,
         Without, WfOrdering, FinishesLast;
    var g, h, e := s.graph, AddLabel(s.graph, placed), Event(t, 0);
    ComputedShape(g, lab, deps, placed);
    ViewableShape(g, lab, deps);
    AddsPlaced(g, placed);
    PlacedOneMore(g, placed);
    var o := InvOrder(s);
    GraphFinishes(g);
    AppendSettled(g, s.blocked, o, lab, deps, placed);
    BeginHeld(g, s.blocked, Settled(g, s.blocked), t);
    RebornReady(g, s.blocked, o.Then(placed.pos), placed, h, t);
  }

  lemma RebornReady(g: Graph, blocked: set<nat>, o: Order, lab: Label, h: Graph, t: nat)
    requires OneMore(g, lab, h) && InvAt(Settled(h, blocked), o) && HeldAllOk(g, blocked, Settled(g, blocked))
    requires t in blocked && t < |g| && |g[t]| == 1 && lab.pos.thread !in blocked
    requires L(g, Event(t, 0)).pos == Event(t, 0)
    requires L(g, Event(t, 0)).kind.ThreadStart?
    ensures ReadyNear(Without(h, Event(t, 0)), t)
  {
    var h0, w := Without(h, Event(t, 0)), Settled(h, blocked);
    hide InvAt, HeldAllOk, Settled, ReadyNear, Without, Ready, Causal, HbInv, Started, Positioned, OneMore, Near,
         IsHeld;
    InvParts(w, o);
    CausalReady(w, o);
    HeldSame(g, blocked, lab, h);
    RestStarted(g, blocked, h, w);
    WithoutBegin(g, lab, h, t);
    PartStarted(h, h0);
    RestWithout(h, blocked, t);
    forall x | Near(h0, t, x) ensures In(w, x) { NearSettled(g, blocked, h, t, x); }
    ShownReady(h0, w, t);
  }

  lemma RestStarted(g: Graph, blocked: set<nat>, h: Graph, w: Graph)
    requires HeldAllOk(g, blocked, Settled(g, blocked)) && Started(w) && Positioned(w) && w == Settled(h, blocked)
    requires forall x :: IsHeld(h, blocked, x) ==>
                 IsHeld(g, blocked, x) && L(h, x).kind == L(g, x).kind && L(h, x).pos == L(g, x).pos
    ensures Started(h) && Positioned(h)
  {
    hide HeldAllOk, Settled, Started, Positioned;
    SettledAt(h, blocked);
    HeldStarted(g, blocked, h, w);
  }

  lemma RestWithout(h: Graph, blocked: set<nat>, t: nat)
    requires t in blocked && In(h, Event(t, 0)) && |h[t]| == 1
    ensures var h0, w := Without(h, Event(t, 0)), Settled(h, blocked);
            forall x :: In(w, x) ==> In(h0, x) && L(w, x) == L(h0, x)
  {
    hide Settled;
    SettledAt(h, blocked);
    WithoutAt(h, Event(t, 0));
    assert IsHeld(h, blocked, Event(t, 0));
  }

  lemma HeldSame(g: Graph, blocked: set<nat>, lab: Label, h: Graph)
    requires OneMore(g, lab, h) && lab.pos.thread !in blocked
    ensures forall x :: IsHeld(h, blocked, x) ==>
                IsHeld(g, blocked, x) && L(h, x).kind == L(g, x).kind && L(h, x).pos == L(g, x).pos
  {}

  lemma WithoutBegin(g: Graph, lab: Label, h: Graph, t: nat)
    requires OneMore(g, lab, h) && t < |g| && |g[t]| == 1 && lab.pos.thread != t
    ensures In(h, Event(t, 0)) && |h[t]| == 1
    ensures var h0 := Without(h, Event(t, 0));
                |h0| == |h| && |h0[t]| == 0 && forall x :: In(h0, x) ==> In(h, x) && L(h0, x) == L(h, x)
  {}

  lemma NearSettled(g: Graph, blocked: set<nat>, h: Graph, t: nat, x: Event)
    requires HeldAllOk(g, blocked, Settled(g, blocked)) && In(h, Event(t, 0)) && |h[t]| == 1
    requires Near(Without(h, Event(t, 0)), t, x)
    requires forall y :: IsHeld(h, blocked, y) ==>
                 IsHeld(g, blocked, y) && L(h, y).kind == L(g, y).kind && L(h, y).pos == L(g, y).pos
    ensures In(Settled(h, blocked), x)
  {
    hide HeldAllOk, Settled;
    SettledAt(h, blocked);
    assert In(h, x) && x.thread != t && L(Without(h, Event(t, 0)), x) == L(h, x);
    if IsHeld(h, blocked, x) { HeldKind(g, blocked, Settled(g, blocked), x); }
  }

  lemma HeldStarted(g: Graph, blocked: set<nat>, h: Graph, w: Graph)
    requires HeldAllOk(g, blocked, Settled(g, blocked)) && Started(w) && Positioned(w)
    requires forall x :: In(h, x) ==> (In(w, x) && L(w, x) == L(h, x)) || IsHeld(h, blocked, x)
    requires forall x :: IsHeld(h, blocked, x) ==>
                 IsHeld(g, blocked, x) && L(h, x).kind == L(g, x).kind && L(h, x).pos == L(g, x).pos
    ensures Started(h) && Positioned(h)
  {
    forall x | In(h, x) ensures L(h, x).pos == x && (L(h, x).kind.ThreadStart? <==> x.index == 0) {
      if IsHeld(h, blocked, x) { assert HeldOk(g, Settled(g, blocked), x.thread); }
    }
  }

  /** What the visit of a creation may rely on; a begin may be waiting for it. */
  ghost predicate Creatable(s: State, lab: Label, deps: EventDeps) {
    && Viewable(s.graph, lab, deps) && lab.stamp == 0 && lab.kind.ThreadCreate? && lab.pos.thread !in s.blocked
    && In(s.graph, lab.pos.Prev()) && !L(s.graph, lab.pos.Prev()).kind.ThreadFinish?
  }

  lemma CreatableShape(s: State, lab: Label, deps: EventDeps)
    requires Creatable(s, lab, deps)
    ensures Limit(s.graph, lab.pos) && lab.pos.index == |s.graph[lab.pos.thread]| && !In(s.graph, lab.pos)
    ensures lab.kind.ThreadCreate?
    ensures Roomy(s.graph, lab) == s.graph && (Unclaimed(s.graph, lab.pos) ==> Visitable(s, lab, deps))
  {}

  /** A thread's begin fresh from its constructor. */
  function StartLabel(t: nat, create: Event): Label { NewLabel(Event(t, 0), ThreadStart(create), Acquire, 0, Bottom) }

  function NoDeps(): EventDeps { EventDeps([], [], [], [], []) }

  lemma StartVisitable(s: State, create: Event)
    requires In(s.graph, create) && L(s.graph, create).kind.ThreadCreate? && Unclaimed(s.graph, create)
    ensures Visitable(s, StartLabel(|s.graph|, create), NoDeps())
  {
    var g, lab := s.graph, StartLabel(|s.graph|, create);
    var r := Roomy(g, lab);
    assert In(r, create) && L(r, create) == L(g, create) && r[|g|] == [];
  }

  lemma StillUnclaimed(s: State, lab: Label, placed: Label, s': State, c: Event)
    requires Unclaimed(s.graph, c) && OneMore(s.graph, placed, s'.graph) && placed.pos.index >= 1 && Begun(s.graph)
    ensures Unclaimed(s'.graph, c)
  {
    forall t | 0 <= t < |s'.graph| ensures s'.graph[t][0].kind == s.graph[t][0].kind {
      assert In(s'.graph, Event(t, 0)) && L(s'.graph, Event(t, 0)) == s'.graph[t][0] &&
          L(s.graph, Event(t, 0)) == s.graph[t][0];
    }
  }

  /** Adds a creation with its views. A begin that waits for it is brought up to date; if there is none, a new thread
      begins. */
  method VisitThreadCreate(d: ImmDriver, ghost s: State, lab: Label, deps: EventDeps)
    returns (cid: nat, ghost s1: State, ghost s': State)
    requires Tracks(d, s) && Creatable(s, lab, deps)
    modifies d.graph
    ensures Tracks(d, s') && d.graph.timestamp == old(d.graph.timestamp) + (if cid < |s.graph| then 1 else 2)
    ensures cid < |s.graph| ==>
              s.graph[cid] != [] && s.graph[cid][0].kind == ThreadStart(lab.pos) && s1 == s' &&
              Step(s, Recreate(lab.(stamp := old(d.graph.timestamp)), deps, cid), s')
    ensures cid >= |s.graph| ==>
              cid == |s.graph| && Unclaimed(s.graph, lab.pos) &&
              Step(s, Append(lab.(stamp := old(d.graph.timestamp)), deps), s1) &&
              Step(s1, Append(StartLabel(cid, lab.pos).(stamp := old(d.graph.timestamp) + 1), NoDeps()), s')
  {
    hide Inv, Timed, Visitable, Creatable, AppendStep, RecreateStep, Step, OneMore, Viewable;
    InvStarted(s);
    CreatableShape(s, lab, deps);
    cid := 0;
    while cid < |d.graph.events| && d.graph.events[cid][0].kind != ThreadStart(lab.pos)
      invariant cid <= |d.graph.events|
      invariant forall t :: 0 <= t < cid ==> s.graph[t][0].kind != ThreadStart(lab.pos)
    {
      cid := cid + 1;
    }
    if cid < |d.graph.events| {
      s' := Recreated(d, s, lab, deps, cid);
      s1 := s';
    } else {
      var placed, placed';
      placed, s1 := VisitLabel(d, s, lab, deps);
      AppendedAt(s, lab.(stamp := old(d.graph.timestamp)), deps, placed, s1);
      StillUnclaimed(s, lab, placed, s1, lab.pos);
      OneMoreSize(s.graph, placed, s1.graph);
      StartVisitable(s1, lab.pos);
      placed', s' := VisitLabel(d, s1, StartLabel(cid, lab.pos), NoDeps());
    }
  }

  lemma OneMoreSize(g: Graph, lab: Label, h: Graph)
    requires OneMore(g, lab, h)
    ensures |h| == |g|
  {}

  /** Adds a creation that a begin waits for. */
  method Recreated(d: ImmDriver, ghost s: State, lab: Label, deps: EventDeps, cid: nat) returns (ghost s': State)
    requires Tracks(d, s) && Creatable(s, lab, deps) && cid < |s.graph| && |s.graph[cid]| > 0
    requires s.graph[cid][0].kind == ThreadStart(lab.pos)
    modifies d.graph
    ensures d.graph.timestamp == old(d.graph.timestamp) + 1
    ensures Tracks(d, s') && Step(s, Recreate(lab.(stamp := old(d.graph.timestamp)), deps, cid), s')
  {
    hide Inv, Viewable, ViewsComputed, Newest, ReadyNear, StartRecomputed, Unclaimed, Step;
    ghost var g, stamp := d.graph.events, d.graph.timestamp;
    CreateReady(s, lab, deps, stamp, cid);
    var lab' := d.UpdateLabelViews(lab, deps);
    StampIrrelevant(g, lab, deps, lab', stamp);
    ComputedShape(g, lab, deps, lab');
    ghost var placed := lab'.(stamp := stamp);
    d.graph.AddOtherLabelToGraph(lab');
    RecreateReady(s, lab.(stamp := stamp), deps, cid, placed);
    d.UpdateStart(lab.pos, Event(cid, 0));
    s' := State(d.graph.events, Drop(s.blocked, cid), s.shut);
    RecreateDone(s, lab, deps, cid, placed, L(d.graph.events, Event(cid, 0)), s', stamp);
  }

  lemma CreateReady(s: State, lab: Label, deps: EventDeps, stamp: nat, t: nat)
    requires Inv(s) && Newest(s.graph, stamp) && Creatable(s, lab, deps) && t < |s.graph| && |s.graph[t]| > 0
    requires s.graph[t][0].kind == ThreadStart(lab.pos)
    ensures ReadyNear(s.graph, lab.pos.thread) && Issued(s, lab.(stamp := stamp)) && Limit(s.graph, lab.pos)
    ensures lab.pos != Initializer
    ensures t in s.blocked && |s.graph[t]| == 1 && t != lab.pos.thread
  {
    hide Inv, InvAt, HeldAllOk, Settled, Viewable, ReadyNear, GraphOk, FinishesLast, Started, Positioned, NoAbsent;
    CreatableShape(s, lab, deps);
    InvStarted(s);
    var o := InvOrder(s);
    GraphFinishes(s.graph);
    NearReady(s.graph, s.blocked, o, lab.pos.thread);
    ClaimedWaits(s, lab.pos, t);
  }

  lemma RecreateDone(s: State, lab: Label, deps: EventDeps, t: nat, placed: Label, begin: Label, s': State, stamp: nat)
    requires Inv(s) && Timed(s.graph, stamp) && lab.kind.ThreadCreate? && Issued(s, lab.(stamp := stamp))
    requires var l := lab.(stamp := stamp); Viewable(s.graph, l, deps) && ViewsComputed(s.graph, l, deps, placed)
    requires t in s.blocked && t < |s.graph| && |s.graph[t]| == 1 && s.graph[t][0].kind == ThreadStart(lab.pos)
    requires Addable(s.graph, placed.pos) && In(AddLabel(s.graph, placed), Event(t, 0))
    requires var h := AddLabel(s.graph, placed);
             StartRecomputed(h, L(h, Event(t, 0)), lab.pos, begin) &&
                 s' == State(Set(h, Event(t, 0), begin), Drop(s.blocked, t), s.shut)
    ensures Step(s, Recreate(lab.(stamp := stamp), deps, t), s') && Inv(s') && Timed(s'.graph, stamp + 1)
  {
    var l, h := lab.(stamp := stamp), AddLabel(s.graph, placed);
    hide Inv, Viewable, ViewsComputed, Timed, Issued, AddLabel, Set, StartRecomputed, RecreateStep, Step;
    RecreateIsStep(s, l, deps, t, placed, begin, s');
    RecreateKeeps(s, l, deps, t, placed, begin, s');
    ComputedShape(s.graph, l, deps, placed);
    ViewableShape(s.graph, l, deps);
    BeginStamp(h, L(h, Event(t, 0)), lab.pos, begin);
    RecreatedTimed(s, placed, t, begin, stamp);
  }

  lemma RecreatedTimed(s: State, placed: Label, t: nat, begin: Label, stamp: nat)
    requires Timed(s.graph, stamp) && placed.stamp == stamp && placed.kind.ThreadCreate?
    requires Limit(s.graph, placed.pos) && placed.pos.index == |s.graph[placed.pos.thread]|
    requires var h := AddLabel(s.graph, placed); In(h, Event(t, 0)) && begin.stamp == L(h, Event(t, 0)).stamp
    ensures Timed(Set(AddLabel(s.graph, placed), Event(t, 0), begin), stamp + 1)
  {
    var h := AddLabel(s.graph, placed);
    hide Timed, AddLabel, Set;
    PlacedIsAdded(s.graph, placed);
    PlacedTimed(s, placed, stamp);
    SetAt(h, Event(t, 0), begin);
    SameStamps(h, Set(h, Event(t, 0), begin), stamp + 1);
  }

  lemma RecreateIsStep(s: State, l: Label, deps: EventDeps, t: nat, placed: Label, begin: Label, s': State)
    requires Viewable(s.graph, l, deps) && ViewsComputed(s.graph, l, deps, placed) && l.kind.ThreadCreate?
    requires Issued(s, l)
    requires t in s.blocked && t < |s.graph| && |s.graph[t]| == 1 && s.graph[t][0].kind == ThreadStart(l.pos)
    requires Addable(s.graph, placed.pos) && In(AddLabel(s.graph, placed), Event(t, 0))
    requires var h := AddLabel(s.graph, placed);
             StartRecomputed(h, L(h, Event(t, 0)), l.pos, begin) &&
                 s' == State(Set(h, Event(t, 0), begin), Drop(s.blocked, t), s.shut)
    ensures RecreateStep(s, l, deps, t, placed, begin, s') && Step(s, Recreate(l, deps, t), s')
  {
    hide Viewable, ViewsComputed, StartRecomputed, Issued, AddLabel, Set;
    assert RecreateStep(s, l, deps, t, placed, begin, s');
  }

  lemma BeginStamp(g: Graph, lab: Label, create: Event, lab': Label)
    requires StartRecomputed(g, lab, create, lab')
    ensures lab'.stamp == lab.stamp
  {}

  lemma PlacedIsAdded(g: Graph, lab: Label)
    requires Addable(g, lab.pos) && lab.kind.ThreadCreate?
    ensures Placed(g, lab) == AddLabel(g, lab) && Roomy(g, lab) == g
  {}

  // ----- thread finish -----

  /** Thread i does not wait for thread c, whose finish is f: a join of c that it ends with is completed. */
  predicate Relieved(s: State, c: int, f: Event, i: nat)
    requires i < |s.graph| && |s.graph[i]| > 0
  {
    var lab := s.graph[i][|s.graph[i]| - 1];
    lab.kind.ThreadJoin? && lab.kind.childId == c ==> lab.kind.childLast == f && i !in s.blocked
  }

  /** The graph still ends thread c with its finish f, and has the threads it had. */
  ghost predicate Relieving(g: Graph, f: Event, h: Graph) {
    && Begun(h) && |h| == |g| && (forall t :: 0 <= t < |g| ==> |h[t]| == |g[t]|)
    && In(h, f) && L(h, f).kind.ThreadFinish? && f.index == |h[f.thread]| - 1
  }

  lemma WaitingJoin(s: State, i: nat)
    requires Inv(s) && i < |s.graph| && |s.graph[i]| > 0 && s.graph[i][|s.graph[i]| - 1].kind.ThreadJoin?
    ensures var j := Event(i, |s.graph[i]| - 1); LastRecomputable(s.graph, j) && L(s.graph, j).kind.ThreadJoin?
  {
    hide Inv;
    InvStarted(s);
    assert L(s.graph, Event(i, |s.graph[i]| - 1)).kind.ThreadJoin?;
  }

  lemma CompletedRelieves(s: State, i: nat, f: Event, lab: Label, s': State, g: Graph)
    requires i < |s.graph| && |s.graph[i]| > 0
    requires var j := Event(i, |s.graph[i]| - 1); L(s.graph, j).kind.ThreadJoin? && CompleteStep(s, j, f, lab, s')
    requires Relieving(g, f, s.graph)
    ensures Relieving(g, f, s'.graph) && Relieved(s', f.thread, f, i)
    ensures forall k :: 0 <= k < |g| && Relieved(s, f.thread, f, k) ==> Relieved(s', f.thread, f, k)
  {
    var j := Event(i, |s.graph[i]| - 1);
    CompletedLabels(s, j, f, lab, s');
    hide CompleteStep;
    forall k | 0 <= k < |g| && Relieved(s, f.thread, f, k) ensures Relieved(s', f.thread, f, k) {
      var e := Event(k, |s.graph[k]| - 1);
      assert In(s.graph, e) && L(s.graph, e) == s.graph[k][e.index] && L(s'.graph, e) == s'.graph[k][e.index];
    }
    assert L(s'.graph, j) == s'.graph[i][j.index];
  }

  lemma FinishAdded(g: Graph, lab: Label, h: Graph)
    requires OneMore(g, lab, h) && Begun(g) && lab.kind.ThreadFinish?
    ensures Relieving(h, lab.pos, h)
  {}

  /** Adds a finish with its views, and completes the joins of all threads that end with a join of this one. */
  method VisitThreadFinish(d: ImmDriver, ghost s: State, lab: Label)
    returns (ghost ss: seq<State>, ghost acts: seq<Action>)
    requires Tracks(d, s) && Visitable(s, lab, NoDeps()) && lab.kind.ThreadFinish?
    modifies d.graph
    ensures d.graph.timestamp == old(d.graph.timestamp) + 1
    ensures IsChain(ss, acts) && ss[0] == s && |acts| >= 1 && Tracks(d, ss[|acts|])
    ensures acts[0] == Append(lab.(stamp := old(d.graph.timestamp)), NoDeps())
    ensures forall k :: 1 <= k < |acts| ==> acts[k].Complete? && acts[k].finish == lab.pos
    ensures var s' := ss[|acts|];
            forall i :: 0 <= i < |s'.graph| && lab.pos.thread != 0 ==>
                          |s'.graph[i]| > 0 && Relieved(s', lab.pos.thread, lab.pos, i)
  {
    hide Inv, Timed, Visitable, AppendStep, Step, OneMore, CompleteStep, Relieved;
    InvStarted(s);
    var placed;
    ghost var cur;
    placed, cur := VisitLabel(d, s, lab, NoDeps());
    AppendedAt(s, lab.(stamp := old(d.graph.timestamp)), NoDeps(), placed, cur);
    FinishAdded(s.graph, placed, cur.graph);
    ss, acts := [s, cur], [Append(lab.(stamp := old(d.graph.timestamp)), NoDeps())];
    if lab.pos.thread == 0 { return; }
    ghost var g := cur.graph;
    var i := 0;
    while i < |d.graph.events|
      invariant d.graph.timestamp == old(d.graph.timestamp) + 1 && 0 <= i <= |g| && |d.graph.events| == |g|
      invariant IsChain(ss, acts) && |acts| >= 1 && ss[0] == s && ss[|acts|] == cur && Tracks(d, cur)
      invariant acts[0] == Append(lab.(stamp := old(d.graph.timestamp)), NoDeps())
      invariant forall k :: 1 <= k < |acts| ==> acts[k].Complete? && acts[k].finish == lab.pos
      invariant Relieving(g, lab.pos, cur.graph)
      invariant forall k :: 0 <= k < i ==> Relieved(cur, lab.pos.thread, lab.pos, k)
    {
      var j := Event(i, |d.graph.events[i]| - 1);
      var pLab := L(d.graph.events, j);
      if pLab.kind.ThreadJoin? && pLab.kind.childId == lab.pos.thread {
        WaitingJoin(cur, i);
        ghost var completed, next;
        var ok;
        ok, completed, next := UpdateJoin(d, cur, j, lab.pos);
        CompletedRelieves(cur, i, lab.pos, completed, next, g);
        ChainGrows(ss, acts, Complete(j, lab.pos), next);
        ss, acts, cur := ss + [next], acts + [Complete(j, lab.pos)], next;
      } else {
        NotWaiting(cur, lab.pos.thread, lab.pos, i);
      }
      i := i + 1;
    }
  }

  lemma NotWaiting(s: State, c: int, f: Event, i: nat)
    requires i < |s.graph| && |s.graph[i]| > 0
    requires var lab := s.graph[i][|s.graph[i]| - 1]; !(lab.kind.ThreadJoin? && lab.kind.childId == c)
    ensures Relieved(s, c, f, i)
  {}

  // ----- cuts and forward revisits -----

  lemma CutTimed(s: State, stamp: nat, s': State, timestamp: nat)
    requires Inv(s) && CutStep(s, stamp, s') && Timed(s.graph, timestamp)
    ensures Timed(s'.graph, stamp + 1)
  {
    var g, h := s.graph, s'.graph;
    hide Inv, IsDepCut, ThreadsIncrease, GraphOk, Stuck, Timed, Below, RfInverse, Whole;
    GraphParts(s);
    forall x | In(h, x) ensures In(g, x) && L(h, x).stamp == L(g, x).stamp && Below(g, stamp + 1, x) {
      CutKeepsBelow(g, stamp, h, x);
      SurvivorLabel(g, stamp, h, x);
    }
    hide CutStep;
    SurvivorsTimed(g, stamp, h, timestamp);
  }

  lemma SurvivorsTimed(g: Graph, stamp: nat, h: Graph, timestamp: nat)
    requires Timed(g, timestamp) && forall x :: In(h, x) ==>
                 In(g, x) && L(h, x).stamp == L(g, x).stamp && Below(g, stamp + 1, x)
    ensures Timed(h, stamp + 1)
  {}

  /** Cuts the graph back to a stamp. A read to be deleted has been given a write. */
  method RestrictGraph(d: ImmDriver, ghost s: State, stamp: nat) returns (ghost s': State)
    requires Tracks(d, s) && stamp + 1 !in s.shut
    requires forall e :: IsReadAt(s.graph, e) && Deleted(s.graph, stamp, e) ==> L(s.graph, e).rf != Bottom
    modifies d.graph
    ensures d.graph.timestamp == stamp + 1
    ensures CutStep(s, stamp, s') && Step(s, CutBack(stamp), s') && Tracks(d, s')
  {
    hide Inv, Timed, IsDepCut, Stuck, Positioned, NoAbsent, Newest;
    InvStarted(s);
    var g := new DepExecutionGraph(d.graph);
    g.CutToStamp(stamp);
    d.graph.ResetStamp(stamp + 1);
    s' := State(d.graph.events, Stuck(s.graph, s.blocked, d.graph.events), set n | n in s.shut && n <= stamp);
    CutKeeps(s, stamp, s');
    CutTimed(s, stamp, s', old(d.graph.timestamp));
  }

  /** After a cut at its own stamp a read is the last label of its thread, and writes of the prefix are still there. */
  lemma CutAtRead(s: State, read: Event, store: Event, s': State)
    requires Inv(s) && IsReadAt(s.graph, read) && RfTarget(s.graph, store)
    requires Below(s.graph, L(s.graph, read).stamp + 1, store)
    requires CutStep(s, L(s.graph, read).stamp, s')
    ensures LastRecomputable(s'.graph, read) && L(s'.graph, read).IsRead() && RfTarget(s'.graph, store)
  {
    hide Inv, CutStep, GraphOk, Started, Positioned, NoAbsent, ThreadsIncrease, RfInverse, IsDepCut, LastRecomputable;
    GraphParts(s);
    InvStarted(s);
    CutIsDep(s, L(s.graph, read).stamp, s');
    ReadEndsCut(s.graph, read, store, s'.graph);
  }

  lemma CutIsDep(s: State, stamp: nat, s': State)
    requires CutStep(s, stamp, s')
    ensures IsDepCut(s.graph, stamp, s'.graph)
  {}

  lemma ReadEndsCut(g: Graph, read: Event, store: Event, h: Graph)
    requires Begun(g) && ThreadsIncrease(g) && NoAbsent(g) && IsReadAt(g, read) && RfTarget(g, store)
    requires Below(g, L(g, read).stamp + 1, store) && IsDepCut(g, L(g, read).stamp, h)
    ensures LastRecomputable(h, read) && L(h, read).IsRead() && RfTarget(h, store)
  {
    var p := L(g, read).stamp;
    hide IsDepCut, NoAbsent, ThreadsIncrease;
    AccessIndexed(g, read);
    forall x ensures In(h, x) <==> Below(g, p + 1, x) { CutKeepsBelow(g, p, h, x); }
    SurvivorKind(g, p, h, read);
    SurvivorKind(g, p, h, store);
    var last := Event(read.thread, |h[read.thread]| - 1);
    assert In(h, last);
    if last != read { LaterStamp(g, read, last); }
  }

  lemma SurvivorKind(g: Graph, stamp: nat, h: Graph, x: Event)
    requires Begun(g) && ThreadsIncrease(g) && IsDepCut(g, stamp, h) && In(h, x)
    ensures In(g, x) && (!L(g, x).kind.ThreadJoin? ==> L(h, x).kind == L(g, x).kind)
  {
    SurvivorLabel(g, stamp, h, x);
  }

  lemma LaterStamp(g: Graph, x: Event, y: Event)
    requires ThreadsIncrease(g) && In(g, x) && In(g, y) && x.thread == y.thread && 1 <= x.index < y.index
    ensures L(g, x).stamp < L(g, y).stamp
  {}

  /** A forward revisit: the graph is cut back to a read, which then reads from a write of what is left. */
  method ForwardRevisit(d: ImmDriver, ghost s: State, read: Event, store: Event)
    returns (ghost s1: State, ghost s': State)
    requires Tracks(d, s) && IsReadAt(s.graph, read) && L(s.graph, read).stamp + 1 !in s.shut
    requires RfTarget(s.graph, store) && Below(s.graph, L(s.graph, read).stamp + 1, store)
    requires forall e :: IsReadAt(s.graph, e) && Deleted(s.graph, L(s.graph, read).stamp, e) ==>
                 L(s.graph, e).rf != Bottom
    modifies d.graph
    ensures Step(s, CutBack(L(s.graph, read).stamp), s1) && Step(s1, Retarget(read, store), s') && Tracks(d, s')
    ensures LastRecomputable(s'.graph, read) && L(s'.graph, read).rf == store
    ensures d.graph.timestamp == L(s.graph, read).stamp + 1
  {
    hide Inv, Timed, CutStep, RetargetStep, Step, LastRecomputable;
    s1 := RestrictGraph(d, s, L(d.graph.events, read).stamp);
    CutAtRead(s, read, store, s1);
    ghost var lab;
    lab, s' := ChangeRf(d, s1, read, store);
    RetargetedRead(s1, read, store, lab, s');
  }

  lemma RetargetedRead(s: State, read: Event, store: Event, lab: Label, s': State)
    requires RetargetStep(s, read, store, lab, s') && LastRecomputable(s.graph, read)
    ensures LastRecomputable(s'.graph, read) && L(s'.graph, read).rf == store
  {
    var c := RfChanged(s.graph, read, store);
    RfChangedAt(s.graph, read, store);
    RecomputedFields(c, L(c, read), lab);
    SetAt(c, read, lab);
    LengthsSame(s.graph, read, store);
    hide RfChanged, Set;
  }

  // ----- backward revisits -----

  /** What a copy is to a read that it keeps. */
  lemma CopiedSources(s: State, read: Event, write: Event, v: Clock, c: Graph)
    requires Inv(s) && IsRevisitView(s.graph, Backward(read, write), v) && IsCopy(s.graph, v, c)
    ensures IsReadAt(c, read) && read.index > 0 && L(c, read).pos == read && IsWriteAt(c, write) && WfSources(c)
    ensures In(c, read.Prev()) && L(c, read.Prev()).hb.At(read.thread) == read.index - 1
    ensures L(c, read).ppo.Wf() && L(c, read).ppo.Tight() && L(c, read).ppo.At(read.thread) >= read.index
  {
    var g, rv := s.graph, Backward(read, write);
    RevisitEnds(g, rv, v);
    hide Inv, InvAt, Settled, HeldAllOk, GraphOk, IsRevisitView, IsCopy, WfSources, NoAbsent, ClosedBut, Stuck;
    CopiedRead(s, read, write, v, c);
    CopiedLabelOf(s, read, write, v, c);
    var o := InvOrder(s);
    GraphStamps(g);
    AccessIndexed(g, read);
    PrevKept(g, s.blocked, o, rv, v, c);
    SourcesCopied(g, s.blocked, o, v, c);
    ReadPpo(g, s.blocked, o, read);
  }

  /** And so is a restamped copy. */
  lemma CopyRetargetable(s: State, read: Event, write: Event, v: Clock, c: Graph, r: Graph, next: nat)
    requires Inv(s) && IsRevisitView(s.graph, Backward(read, write), v) && IsCopy(s.graph, v, c)
    requires write.thread != read.thread
    requires Restamped(c, L(s.graph, read).stamp, r, next)
    ensures Retargetable(r, read, write)
  {
    hide Inv, IsRevisitView, IsCopy, Restamped, WfSources, Retargetable;
    RevisitEnds(s.graph, Backward(read, write), v);
    CopiedSources(s, read, write, v, c);
    RestampedSame(c, L(s.graph, read).stamp, r, next);
    RestampedRetargetable(c, r, read, write);
  }

  lemma RestampedRetargetable(c: Graph, r: Graph, read: Event, write: Event)
    requires SameButStamps(c, r) && WfSources(c) && IsReadAt(c, read) && IsWriteAt(c, write)
    requires write.thread != read.thread
    requires read.index > 0 && L(c, read).pos == read && In(c, read.Prev())
    requires L(c, read.Prev()).hb.At(read.thread) == read.index - 1
    requires L(c, read).ppo.Wf() && L(c, read).ppo.Tight() && L(c, read).ppo.At(read.thread) >= read.index
    ensures Retargetable(r, read, write)
  {
    hide RfChanged, WfSources;
    assert L(r, read) == L(c, read).(stamp := L(r, read).stamp) &&
        L(r, write) == L(c, write).(stamp := L(r, write).stamp);
    assert L(r, read.Prev()) == L(c, read.Prev()).(stamp := L(r, read.Prev()).stamp);
    SourcesRestamped(c, r);
    RetargetedWf(r, read, write);
  }

  lemma SourcesRestamped(c: Graph, r: Graph)
    requires WfSources(c) && SameButStamps(c, r)
    ensures WfSources(r)
  {
    forall x | RfTarget(r, x) ensures RfTarget(c, x) && L(r, x).pporf == L(c, x).pporf && L(r, x).ppo == L(c, x).ppo {
      assert L(r, x) == L(c, x).(stamp := L(r, x).stamp);
    }
  }

  lemma CopiedLabelOf(s: State, read: Event, write: Event, v: Clock, c: Graph)
    requires Inv(s) && IsRevisitView(s.graph, Backward(read, write), v) && IsCopy(s.graph, v, c)
    ensures In(c, read) && L(c, read).ppo == L(s.graph, read).ppo
  {
    var g, rv := s.graph, Backward(read, write);
    RevisitEnds(g, rv, v);
    hide Inv, InvAt, Settled, HeldAllOk, GraphOk, IsRevisitView, IsCopy, Revisitable;
    var o := InvOrder(s);
    InvRevisitable(g, s.blocked, o);
    RevisitViewInside(g, rv, v);
    GraphStamps(g);
    CopyHas(g, v, c, read);
    CopiedReadAt(g, v, c, read);
  }

  lemma PrevKept(g: Graph, blocked: set<nat>, o: Order, rv: BackwardRevisit, v: Clock, c: Graph)
    requires InvAt(Settled(g, blocked), o) && HeldAllOk(g, blocked, Settled(g, blocked)) && GraphOk(g)
    requires IsRevisitView(g, rv, v) && IsReadAt(g, rv.pos) && rv.pos.index >= 1 && rv.Backward? && IsCopy(g, v, c)
    requires In(c, rv.pos)
    ensures var e := rv.pos.Prev(); In(c, e) && L(c, e).hb.At(e.thread) == e.index
  {
    var e := rv.pos.Prev();
    hide InvAt, HeldAllOk, Settled, IsRevisitView, GraphOk, IsCopy, ThreadsIncrease, StampsDistinct, NoAbsent,
         RfInverse;
    GraphStamps(g);
    if e.index >= 1 {
      LaterStamp(g, e, rv.pos);
      PrefixAndWriteKept(g, rv, v, e);
    }
    PrevCopied(g, v, c, rv.pos);
    HbOwn(g, blocked, o, e);
  }

  lemma PrevCopied(g: Graph, v: Clock, c: Graph, x: Event)
    requires IsCopy(g, v, c) && In(c, x) && x.index >= 1 && (x.index >= 2 ==> v.Has(x.Prev()))
    ensures In(c, x.Prev()) && In(g, x) && In(g, x.Prev()) && L(c, x.Prev()).hb == L(g, x.Prev()).hb
  {}

  lemma HbOwn(g: Graph, blocked: set<nat>, o: Order, e: Event)
    requires InvAt(Settled(g, blocked), o) && In(g, e) && In(g, e.Next())
    ensures L(g, e).hb.At(e.thread) == e.index
  {
    var w := Settled(g, blocked);
    SettledLabel(g, blocked, e);
    InvParts(w, o);
    hide InvAt, Settled, HbInv;
    CausalReady(w, o);
  }

  lemma SourcesCopied(g: Graph, blocked: set<nat>, o: Order, v: Clock, c: Graph)
    requires InvAt(Settled(g, blocked), o) && HeldAllOk(g, blocked, Settled(g, blocked)) && IsCopy(g, v, c)
    requires NoAbsent(g)
    ensures WfSources(c)
  {
    hide InvAt, HeldAllOk, Settled, HbInv, IsCopy, Causal, Sourced, RfKnown, RfOrdered, OrderingsFixed, RefsInside,
         Started, SelfContained, Ranked;
    var w := Settled(g, blocked);
    AccessesSettled(g, blocked);
    SettledAt(g, blocked);
    InvRefs(w, o);
    InvParts(w, o);
    CausalReady(w, o);
    forall x | RfTarget(c, x) ensures In(w, x) && L(c, x).pporf == L(w, x).pporf && L(c, x).ppo == L(w, x).ppo {
      SourceOfCopy(g, v, c, x);
    }
  }

  lemma SourceOfCopy(g: Graph, v: Clock, c: Graph, x: Event)
    requires IsCopy(g, v, c) && RfTarget(c, x)
    ensures RfTarget(g, x) && L(c, x).pporf == L(g, x).pporf && L(c, x).ppo == L(g, x).ppo
  {}

  /** A backward revisit: the graph is copied up to the revisit view, labels younger than the read get new stamps, and
      the read is re-targeted and its views recomputed. */
  method BackwardRevisit(d: ImmDriver, ghost s: State, read: Event, write: Event)
    returns (d': ImmDriver, ghost v: Clock, ghost c: Graph, ghost r: Graph, ghost next: nat, ghost lab: Label,
        ghost s': State)
    requires Tracks(d, s) && IsReadAt(s.graph, read) && IsWriteAt(s.graph, write) && write.thread != read.thread
    requires L(s.graph, read).stamp !in s.shut
    ensures fresh(d'.graph) && d'.graph.events == s'.graph && RevisitMade(s, read, write, v, c, r, next, lab, s')
    ensures RevisitFits(v, c, read, s') ==> Step(s, Revisit(read, write), s') && Tracks(d', s')
    ensures Novel(s.graph, write) ==> (Inv(s') <==> RevisitFits(v, c, read, s'))
  {
    hide Inv, Timed, IsRevisitView, IsCopy, Restamped, Stuck, RfContents, RfRecomputed, RfChanged, WfSources,
         RevisitFits, Novel, Revisitable, Spans, InvAt, HeldAllOk, Settled, GraphOk, RfInverse, WriteClocks, NoAbsent,
         Set;
    ghost var g, p, rv := s.graph, L(s.graph, read).stamp, Backward(read, write);
    InvStarted(s);
    ghost var o := InvOrder(s);
    InvRevisitable(g, s.blocked, o);
    RevisitParts(g);
    var dep := new DepExecutionGraph(d.graph);
    var preds := dep.GetRevisitView(Backward(read, write));
    v := preds.Snapshot();
    ViewForCopy(g, rv, v);
    TimedStamps(g, d.graph.timestamp);
    var copy := dep.CopyGraph(Backward(read, write), preds);
    r, next := copy.events, copy.timestamp;
    c :| IsCopy(g, v, c) && Restamped(c, p, r, next);
    CopyRetargetable(s, read, write, v, c, r, next);
    d' := new ImmDriver(copy);
    d'.ChangeRf(read, write);
    lab := L(copy.events, read);
    s' := State(copy.events, Stuck(g, s.blocked, c), (set n | n in s.shut && n <= p) + Strictly(p, next));
    RfChangedAt(r, read, write);
    MadeBy(s, read, write, v, c, r, next, lab, s');
    if Novel(g, write) { RevisitKeepsInvIff(s, read, write, v, c, r, next, lab, s'); }
    if RevisitFits(v, c, read, s') {
      assert RevisitStep(s, read, write, v, c, r, next, lab, s');
      RevisitKeeps(s, read, write, v, c, r, next, lab, s');
      RevisitTimed(s, d.graph.timestamp, read, write, v, c, r, next, lab, s');
    }
  }

  lemma RevisitTimed(s: State, timestamp: nat, read: Event, write: Event, v: Clock, c: Graph, r: Graph, next: nat,
                     lab: Label, s': State)
    requires Inv(s) && Timed(s.graph, timestamp) && RevisitStep(s, read, write, v, c, r, next, lab, s')
    requires next > L(s.graph, read).stamp
    ensures Timed(s'.graph, next)
  {
    var g, h, rv, p := s.graph, s'.graph, Backward(read, write), L(s.graph, read).stamp;
    RevisitEnds(g, rv, v);
    hide Inv, Timed, IsRevisitView, IsCopy, InvAt, HeldAllOk, Settled, GraphOk, NoGaps, Stuck, RfContents, RfChanged,
         Revisitable, PartOf, Set, Unknown, Unbuilt;
    var o := InvOrder(s);
    GraphStamps(g);
    InvRevisitable(g, s.blocked, o);
    RevisitViewInside(g, rv, v);
    ViewSpans(g, v);
    CopyPart(g, v, c);
    MadeStamps(s, read, write, v, c, r, next, lab, s');
    hide RevisitStep, RevisitMade, Restamped;
    PartTimed(g, c, h, p, next, timestamp);
  }

  lemma MadeStamps(s: State, read: Event, write: Event, v: Clock, c: Graph, r: Graph, next: nat, lab: Label, s': State)
    requires RevisitMade(s, read, write, v, c, r, next, lab, s')
    ensures forall x :: In(s'.graph, x) <==> In(c, x)
    ensures forall x :: In(c, x) ==> L(s'.graph, x).stamp == L(r, x).stamp
    ensures forall x :: In(c, x) ==>
                          if L(c, x).stamp <= L(s.graph, read).stamp then L(r, x).stamp == L(c, x).stamp
                          else L(s.graph, read).stamp < L(r, x).stamp < next
  {
    var h1 := RfChanged(r, read, write);
    ContentsFields(h1, L(h1, read), lab);
    RfChangedAt(r, read, write);
    SetAt(h1, read, lab);
    hide IsRevisitView, IsCopy, RfChanged, RfContents, Set;
    assert forall x :: In(r, x) <==> In(c, x);
  }

  lemma PartTimed(g: Graph, c: Graph, h: Graph, p: nat, next: nat, timestamp: nat)
    requires Timed(g, timestamp) && PartOf(g, c) && next > p && forall x :: In(h, x) <==> In(c, x)
    requires forall x :: In(c, x) ==>
                 if L(c, x).stamp <= p then L(h, x).stamp == L(c, x).stamp else p < L(h, x).stamp < next
    ensures Timed(h, next)
  {
    forall x | In(h, x) && x != Initializer
      ensures L(h, x).stamp > 0
    {
      assert In(g, x) && L(c, x).stamp == L(g, x).stamp;
    }
  }

  lemma MadeBy(s: State, read: Event, write: Event, v: Clock, c: Graph, r: Graph, next: nat, lab: Label, s': State)
    requires IsReadAt(s.graph, read) && write.thread != read.thread && L(s.graph, read).stamp !in s.shut
    requires IsRevisitView(s.graph, Backward(read, write), v) && IsCopy(s.graph, v, c)
    requires Restamped(c, L(s.graph, read).stamp, r, next) && IsReadAt(r, read)
    requires var h := RfChanged(r, read, write);
                 In(h, read) && RfContents(h, L(h, read), lab) && s'.graph == Set(h, read, lab)
    requires s'.blocked == Stuck(s.graph, s.blocked, c)
    requires var p := L(s.graph, read).stamp; s'.shut == (set n | n in s.shut && n <= p) + Strictly(p, next)
    ensures RevisitMade(s, read, write, v, c, r, next, lab, s')
  {}

  lemma TimedStamps(g: Graph, timestamp: nat)
    requires Timed(g, timestamp)
    ensures forall e :: In(g, e) && e != Initializer ==> L(g, e).stamp > 0
  {}
}
