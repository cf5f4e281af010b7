/** Exactly when a cut or a backward revisit leaves all clocks of the graph right. */
module Outcomes {
  import opened Events
  import opened Clocks
  import opened Graphs
  import opened ImmSpec
  import opened Causality
  import opened HbExact
  import opened Restriction
  import opened Sources
  import opened Settling
  import opened StampBounds
  import opened Trimming
  import opened RevisitSpec
  import opened CutSpec
  import opened DepCutSpec
  import opened States
  import opened Additions
  import opened Recompute
  import opened Cutbacks
  import opened Exchanges
  import opened Runs

  // ----- cuts -----

  /** Below n no begin loses its creation, and no join its finish. */
  ghost predicate RefsKept(g: Graph, n: nat) {
    forall x :: Below(g, n, x) ==> !Dangles(g, n, x)
  }

  lemma NotStuckIfRefsKept(g: Graph, stamp: nat, h: Graph)
    requires RefsKept(g, stamp + 1) && Begun(g) && ThreadsIncrease(g) && IsDepCut(g, stamp, h)
    ensures Stuck(g, {}, h) == {}
  {
    hide IsDepCut, ThreadsIncrease;
    forall t: nat | t < |h| ensures !StuckAt(g, {}, h, t) {
      if StuckAt(g, {}, h, t) {
        var x := Event(t, |h[t]| - 1);
        CutKeepsBelow(g, stamp, h, x);
        assert In(g, x) && !Dangles(g, stamp + 1, x);
        match L(g, x).kind
        case ThreadJoin(_, f) => CutKeepsBelow(g, stamp, h, f);
        case ThreadStart(c) => CutKeepsBelow(g, stamp, h, c);
        case _ =>
      }
    }
  }

  lemma SettledNothing(g: Graph)
    ensures Settled(g, {}) == g
  {
    forall t | 0 <= t < |g| ensures Settled(g, {})[t] == g[t] {}
  }

  /** If the clocks of what a cut leaves are right, no surviving label has lost what it refers to. */
  lemma CutMustKeepRefs(g: Graph, o: Order, stamp: nat, h: Graph, o': Order, x: Event)
    requires InvAt(g, o) && InvAt(h, o') && GraphOk(g) && Whole(g, stamp + 1) && IsDepCut(g, stamp, h)
    requires Below(g, stamp + 1, x)
    ensures !Dangles(g, stamp + 1, x)
  {
    InvParts(g, o);
    InvParts(h, o');
    GraphStamps(g);
    CutKeepsBelow(g, stamp, h, x);
    SurvivorLabel(g, stamp, h, x);
    InvRefs(h, o');
    InvRefs(g, o);
    hide InvAt, IsDepCut, GraphOk, Sourced, RfKnown, RfOrdered, OrderingsFixed, RfInverse, ThreadsIncrease;
    match L(g, x).kind
    case ThreadStart(c) => CutKeepsBelow(g, stamp, h, c);
    case ThreadJoin(_, f) =>
      CutKeepsBelow(g, stamp, h, f);
      if f != Initializer { FinishStays(g, o, h, o', x); }
    case _ =>
  }

  lemma FinishStays(g: Graph, o: Order, h: Graph, o': Order, x: Event)
    requires Causal(g, o) && HbInv(g, o) && Causal(h, o') && In(g, x) && In(h, x) && L(h, x).hb == L(g, x).hb
    requires L(g, x).kind.ThreadJoin? && L(g, x).kind.childLast != Initializer
    ensures In(h, L(g, x).kind.childLast)
  {
    JoinKnowsFinish(g, o, x);
    CausalReady(h, o');
    assert HbHas(h, x, L(g, x).kind.childLast);
  }

  lemma AllRefsKept(g: Graph, o: Order, stamp: nat, h: Graph, o': Order)
    requires InvAt(g, o) && InvAt(h, o') && GraphOk(g) && Whole(g, stamp + 1) && IsDepCut(g, stamp, h)
    ensures RefsKept(g, stamp + 1)
  {
    hide InvAt, GraphOk, Whole, IsDepCut;
    var n := stamp + 1;
    forall x | Below(g, n, x) ensures !Dangles(g, n, x) { CutMustKeepRefs(g, o, stamp, h, o', x); }
  }

  lemma JoinKnowsFinish(g: Graph, o: Order, x: Event)
    requires HbInv(g, o) && Causal(g, o)
    requires In(g, x) && L(g, x).kind.ThreadJoin? && L(g, x).kind.childLast != Initializer
    ensures HbHas(g, x, L(g, x).kind.childLast)
  {
    CausalReady(g, o);
    hide Causal;
    var f := L(g, x).kind.childLast;
    assert EdgeInto(g, f, L(g, x)) && f != x;
    assert HbEdge(g, f, x) && HbHas(g, f, f);
    assert ViaEdge(g, x, f);
  }

  /** If no thread is blocked, a cut leaves all clocks right exactly if no surviving begin loses its creation and no
      surviving join its finish; the threads of those that do are blocked from then on. */
  lemma CutKeepsClocksIff(s: State, stamp: nat, s': State)
    requires Inv(s) && CutStep(s, stamp, s') && s.blocked == {}
    ensures (exists o :: InvAt(s'.graph, o)) <==> RefsKept(s.graph, stamp + 1)
    ensures RefsKept(s.graph, stamp + 1) ==> s'.blocked == {}
  {
    var g, h := s.graph, s'.graph;
    hide Inv, InvAt, RefsKept, Stuck, IsDepCut, Whole, GraphOk, Dangles, HeldAllOk;
    var o := InvOrder(s);
    SettledNothing(g);
    SettledNothing(h);
    hide Settled;
    GraphStamps(g);
    if RefsKept(g, stamp + 1) {
      NotStuckIfRefsKept(g, stamp, h);
      CutKeeps(s, stamp, s');
      var o' := InvOrder(s');
    }
    if o' :| InvAt(h, o') {
      AllRefsKept(g, o, stamp, h, o');
    }
  }

  // ----- the cut for dependency graphs and the plain cut -----

  /** A surviving join whose finish is gone is the one the finish points back to. */
  ghost predicate LinkedBack(g: Graph, stamp: nat) {
    forall x :: In(g, x) && KeptBy(g, stamp, x) && L(g, x).kind.ThreadJoin? &&
                !KeptBy(g, stamp, L(g, x).kind.childLast) ==>
                  JoinedBy(g, L(g, x).kind.childLast, x)
  }

  lemma GoneFinishIsChild(g: Graph, stamp: nat, x: Event, f: Event)
    requires Whole(g, stamp + 1) && Begun(g) && ThreadsIncrease(g)
    requires In(g, x) && KeptBy(g, stamp, x) && L(g, x).kind.ThreadJoin? && GoneFinish(g, stamp, |g|, 0, x, f)
    ensures L(g, x).kind.childLast == f && JoinedBy(g, f, x) && !KeptBy(g, stamp, f)
  {
    DeletedIffNotKept(g, stamp, x);
    DeletedIffNotKept(g, stamp, f);
    hide KeptBy, ThreadsIncrease;
    assert JoinedBy(g, f, x) && Below(g, stamp + 1, x) && !Below(g, stamp + 1, f);
  }

  lemma LinkedFinishIsGone(g: Graph, stamp: nat, x: Event, f: Event)
    requires Begun(g) && ThreadsIncrease(g) && JoinedBy(g, f, x) && !KeptBy(g, stamp, f)
    ensures GoneFinish(g, stamp, |g|, 0, x, f)
  {
    DeletedIffNotKept(g, stamp, f);
  }

  /** Resetting the joins that deleted finishes point back to, and the joins whose finish is deleted, comes to the same
      exactly if each of the latter is pointed back to; a child joined twice is what breaks it. */
  lemma CutsAgreeIff(s: State, stamp: nat, h: Graph)
    requires Inv(s) && stamp + 1 !in s.shut && IsDepCut(s.graph, stamp, h)
    ensures Begun(s.graph)
    ensures h == Cut(s.graph, stamp) <==> LinkedBack(s.graph, stamp)
  {
    var g := s.graph;
    GraphParts(s);
    hide Inv, GraphOk, ThreadsIncrease, Whole, IsDepCut, Cut, KeptBy, RfInverse;
    assert Whole(g, stamp + 1);
    if LinkedBack(g, stamp) {
      LinkedAgree(g, stamp);
      CutsAgree(g, stamp, h);
    }
    if h == Cut(g, stamp) { AgreeLinked(g, stamp); }
  }

  lemma GraphParts(s: State)
    requires Inv(s)
    ensures Begun(s.graph) && ThreadsIncrease(s.graph) && RfInverse(s.graph) && GraphOk(s.graph)
    ensures forall n: nat :: n !in s.shut ==> Whole(s.graph, n)
  {}

  lemma LinkedAgree(g: Graph, stamp: nat)
    requires LinkedBack(g, stamp) && Whole(g, stamp + 1) && Begun(g) && ThreadsIncrease(g)
    ensures JoinsAgree(g, stamp)
  {
    hide Whole, ThreadsIncrease, KeptBy, GoneFinish;
    forall x | In(g, x) && KeptBy(g, stamp, x) && L(g, x).kind.ThreadJoin?
      ensures KeptBy(g, stamp, L(g, x).kind.childLast) <==> !exists f :: GoneFinish(g, stamp, |g|, 0, x, f)
    {
      if !KeptBy(g, stamp, L(g, x).kind.childLast) { LinkedFinishIsGone(g, stamp, x, L(g, x).kind.childLast); }
      if f :| GoneFinish(g, stamp, |g|, 0, x, f) { GoneFinishIsChild(g, stamp, x, f); }
    }
  }

  lemma AgreeLinked(g: Graph, stamp: nat)
    requires Whole(g, stamp + 1) && Begun(g) && ThreadsIncrease(g) && IsDepCut(g, stamp, Cut(g, stamp))
    ensures LinkedBack(g, stamp)
  {
    forall x | In(g, x) && KeptBy(g, stamp, x) && L(g, x).kind.ThreadJoin? && !KeptBy(g, stamp, L(g, x).kind.childLast)
      ensures JoinedBy(g, L(g, x).kind.childLast, x)
    {
      CutAt(g, stamp);
      DeletedIffNotKept(g, stamp, x);
      hide Cut, Whole, ThreadsIncrease;
      assert L(Cut(g, stamp), x) == LabelAt(g, stamp, |g|, 0, x) == CutLabel(g, stamp, L(g, x));
      assert KeptBy(g, stamp, Initializer);
      var f :| GoneFinish(g, stamp, |g|, 0, x, f);
      GoneFinishIsChild(g, stamp, x, f);
    }
  }

  // ----- backward revisits -----

  lemma MadeEnds(s: State, read: Event, write: Event, v: Clock, c: Graph, r: Graph, next: nat, lab: Label, s': State)
    requires RevisitMade(s, read, write, v, c, r, next, lab, s')
    ensures IsRevisitView(s.graph, Backward(read, write), v) && IsReadAt(s.graph, read) && IsWriteAt(s.graph, write)
    ensures IsCopy(s.graph, v, c) && write.thread != read.thread
  {}

  lemma MadeStuck(s: State, read: Event, write: Event, v: Clock, c: Graph, r: Graph, next: nat, lab: Label, s': State)
    requires RevisitMade(s, read, write, v, c, r, next, lab, s')
    ensures s'.blocked == Stuck(s.graph, s.blocked, c)
  {}

  /** What the revisited graph holds at the place of a label copied, the read aside. */
  lemma MadeLabel(s: State, read: Event, write: Event, v: Clock, c: Graph, r: Graph, next: nat, lab: Label, s': State,
                  x: Event)
    requires RevisitMade(s, read, write, v, c, r, next, lab, s') && x != read
    ensures In(s'.graph, x) <==> In(c, x)
    ensures In(c, x) ==>
                L(s'.graph, x).pporf == L(c, x).pporf && L(s'.graph, x).kind == L(c, x).kind &&
                L(s'.graph, x).rf == L(c, x).rf
  {
    var g, p := s.graph, L(s.graph, read).stamp;
    hide IsRevisitView, IsCopy, RfChanged, HbComputed, FromRf;
    RfChangedAt(r, read, write);
    SetAt(RfChanged(r, read, write), read, lab);
  }

  lemma MadeRead(s: State, read: Event, write: Event, v: Clock, c: Graph, r: Graph, next: nat, lab: Label, s': State)
    requires RevisitMade(s, read, write, v, c, r, next, lab, s')
    ensures In(c, read) && L(c, read).IsRead() && |s'.graph| == |c|
    ensures In(s'.graph, read) && L(s'.graph, read) == lab && lab.IsRead() && lab.rf == write
    ensures lab.ppo == L(c, read).ppo && lab.addr == L(c, read).addr && lab.pos == L(c, read).pos
    ensures forall t :: 0 <= t < |c| ==> |s'.graph[t]| == |c[t]|
  {
    hide IsRevisitView, IsCopy, HbComputed, FromRf;
    RfChangedAt(r, read, write);
    SetAt(RfChanged(r, read, write), read, lab);
    LengthsSame(r, read, write);
    hide RfChanged;
  }

  lemma LengthsSame(r: Graph, read: Event, write: Event)
    requires IsReadAt(r, read)
    ensures |RfChanged(r, read, write)| == |r| && forall t :: 0 <= t < |r| ==> |RfChanged(r, read, write)[t]| == |r[t]|
  {}

  lemma CopyAt(g: Graph, v: Clock, c: Graph, x: Event)
    requires IsCopy(g, v, c) && In(c, x)
    ensures In(g, x) && |c[x.thread]| == v.At(x.thread) + 1
    ensures if x.index == 0 || v.Contains(x) then L(c, x).pporf == L(g, x).pporf && L(c, x).kind == L(g, x).kind &&
                L(c, x).rf == L(g, x).rf
            else L(c, x).pporf == EmptyClock && !L(c, x).IsRead() && !L(c, x).IsWrite()
  {}

  /** A gap in the copy knows not even itself. */
  lemma GapsShow(s: State, read: Event, write: Event, v: Clock, c: Graph, r: Graph, next: nat, lab: Label, s': State)
    requires Inv(s) && RevisitMade(s, read, write, v, c, r, next, lab, s') && Inv(s')
    ensures NoGaps(v)
  {
    var g, h := s.graph, s'.graph;
    hide Inv, RevisitMade, IsRevisitView, IsCopy, InvAt, Settled, Revisitable;
    MadeEnds(s, read, write, v, c, r, next, lab, s');
    MadeRead(s, read, write, v, c, r, next, lab, s');
    var o := InvOrder(s);
    var o' := InvOrder(s');
    InvRevisitable(g, s.blocked, o);
    RevisitViewInside(g, Backward(read, write), v);
    forall e: Event, j | v.Has(e) && 1 <= j <= e.index ensures v.Has(Event(e.thread, j)) {
      var x := Event(e.thread, j);
      if !v.Has(x) {
        HasAt(v, e);
        CopyHas(g, v, c, e);
        CopyAt(g, v, c, x);
        MadeLabel(s, read, write, v, c, r, next, lab, s', x);
        assert !IsHeld(h, s'.blocked, x);
        SelfKnown(h, s'.blocked, o', x);
        assert false;
      }
    }
  }

  lemma CopyHas(g: Graph, v: Clock, c: Graph, e: Event)
    requires IsCopy(g, v, c) && v.Wf() && v.Has(e) && In(g, e)
    ensures forall j :: 0 <= j <= e.index ==> In(c, Event(e.thread, j))
  {
    HasAt(v, e);
  }

  lemma SelfKnown(g: Graph, blocked: set<nat>, o: Order, x: Event)
    requires InvAt(Settled(g, blocked), o) && In(g, x) && !IsHeld(g, blocked, x) && x.index >= 1
    ensures CHas(g, x, x)
  {
    SettledLabel(g, blocked, x);
    InvParts(Settled(g, blocked), o);
    hide InvAt, Settled;
    CausalReady(Settled(g, blocked), o);
  }

  // ----- causal closure after any backward revisit -----

  /** Causal closure of every label but those that blocked threads wait at. */
  ghost predicate ClosedBut(g: Graph, blocked: set<nat>) {
    forall x, a, b :: CHas(g, x, a) && CHas(g, a, b) && !IsHeld(g, blocked, x) ==> CHas(g, x, b)
  }

  lemma InvClosed(s: State)
    requires Inv(s)
    ensures ClosedBut(s.graph, s.blocked)
  {
    hide Inv;
    forall x, a, b | CHas(s.graph, x, a) && CHas(s.graph, a, b) && !IsHeld(s.graph, s.blocked, x)
      ensures CHas(s.graph, x, b)
    {
      ClosedUnlessHeld(s, x, a, b);
    }
  }

  /** Whatever the gaps, a copy keeps causal closure, and reads keep knowing their writes. */
  lemma CopyKeepsClosure(g: Graph, blocked: set<nat>, v: Clock, c: Graph)
    requires IsCopy(g, v, c) && Spans(g, v)
    ensures ClosedBut(g, blocked) ==> ClosedBut(c, Stuck(g, blocked, c))
    ensures RfKnown(g) ==> RfKnown(c)
  {
    forall x, a | CHas(c, x, a) ensures CHas(g, x, a) && L(c, x).pporf == L(g, x).pporf { CopyKnows(g, v, c, x, a); }
    forall x | In(c, x) && IsHeld(g, blocked, x)
      ensures IsHeld(c, Stuck(g, blocked, c), x)
    {
      StaysHeld(g, blocked, v, c, x);
    }
    forall x | ReadsExternally(c, x) ensures RfKnown(g) ==> CHas(c, x, L(c, x).rf) { CopyAt(g, v, c, x); }
    hide IsCopy, Spans, Stuck;
  }

  lemma CopyKnows(g: Graph, v: Clock, c: Graph, x: Event, a: Event)
    requires IsCopy(g, v, c) && CHas(c, x, a)
    ensures CHas(g, x, a) && L(c, x).pporf == L(g, x).pporf
  {
    CopyAt(g, v, c, x);
  }

  lemma StaysHeld(g: Graph, blocked: set<nat>, v: Clock, c: Graph, x: Event)
    requires IsCopy(g, v, c) && Spans(g, v) && In(c, x) && IsHeld(g, blocked, x)
    ensures IsHeld(c, Stuck(g, blocked, c), x)
  {
    assert StuckAt(g, blocked, c, x.thread);
  }

  /** h is c with another clock for the read: its ppo view, that of the write, and those of earlier writes of its
      thread. */
  ghost predicate Reread(c: Graph, read: Event, write: Event, h: Graph) {
    && In(c, read) && In(h, read)
    && (forall x, a :: x != read ==> (CHas(h, x, a) <==> CHas(c, x, a)))
    && (forall x, t :: IsHeld(h, t, x) <==> IsHeld(c, t, x))
    && (forall a :: CHas(h, read, a) <==>
                    L(c, read).ppo.Has(a) || CHas(c, write, a) || FromOwnWrites(c, read, L(c, read).addr, a))
  }

  /** Once the read has another clock, closure is kept exactly if no other label knows the read. */
  lemma RereadClosedIff(c: Graph, blocked: set<nat>, read: Event, write: Event, h: Graph)
    requires ClosedBut(c, blocked) && Reread(c, read, write, h) && IsReadAt(c, read) && IsWriteAt(c, write)
    requires forall x :: IsWriteAt(c, x) ==> !IsHeld(c, blocked, x)
    requires forall a, b :: L(c, read).ppo.Has(a) && a != read && CHas(c, a, b) ==> L(c, read).ppo.Has(b)
    requires CHas(c, write, write) && !CHas(c, write, read) && forall x :: CHas(c, x, write) && x != read ==> x == write
    ensures ClosedBut(h, blocked) <==> Unknown(c, blocked, read)
  {
    if ClosedBut(h, blocked) {
      assert CHas(h, read, write);
      forall x | CHas(c, x, read) && !IsHeld(c, blocked, x) ensures x == read {
        if x != read { KnowsWrite(c, blocked, read, write, h, x); }
      }
    }
    if Unknown(c, blocked, read) {
      forall x, a, b | CHas(h, x, a) && CHas(h, a, b) && !IsHeld(h, blocked, x) ensures CHas(h, x, b) {
        if x == read && a != read { RereadStep(c, blocked, read, write, h, a, b); }
      }
    }
  }

  lemma KnowsWrite(c: Graph, blocked: set<nat>, read: Event, write: Event, h: Graph, x: Event)
    requires ClosedBut(h, blocked) && Reread(c, read, write, h) && CHas(h, read, write)
    requires CHas(c, x, read) && !IsHeld(c, blocked, x) && x != read
    ensures CHas(c, x, write)
  {
    assert CHas(h, x, read);
  }

  lemma RereadStep(c: Graph, blocked: set<nat>, read: Event, write: Event, h: Graph, a: Event, b: Event)
    requires ClosedBut(c, blocked) && Reread(c, read, write, h) && IsReadAt(c, read) && IsWriteAt(c, write)
    requires forall x :: IsWriteAt(c, x) ==> !IsHeld(c, blocked, x)
    requires forall a, b :: L(c, read).ppo.Has(a) && a != read && CHas(c, a, b) ==> L(c, read).ppo.Has(b)
    requires CHas(h, read, a) && a != read && CHas(h, a, b)
    ensures CHas(h, read, b)
  {
    assert CHas(c, a, b);
    if FromOwnWrites(c, read, L(c, read).addr, a) {
      var w: Event :| w.thread == read.thread && w.index < read.index && IsWriteAt(c, w) &&
          L(c, w).addr == L(c, read).addr && CHas(c, w, a);
      assert CHas(c, w, b);
      assert FromOwnWrites(c, read, L(c, read).addr, b);
    }
  }

  /** What the graph says of the copy's write and read. */
  lemma CopiedRead(s: State, read: Event, write: Event, v: Clock, c: Graph)
    requires Inv(s) && IsRevisitView(s.graph, Backward(read, write), v) && IsCopy(s.graph, v, c)
    ensures var b := Stuck(s.graph, s.blocked, c);
            && IsReadAt(c, read) && L(c, read).pos == read && IsWriteAt(c, write) && ClosedBut(c, b)
            && CHas(c, write, write)
            && (forall x :: IsWriteAt(c, x) ==> !IsHeld(c, b, x))
    ensures forall x, a :: CHas(c, x, a) ==> CHas(s.graph, x, a)
    ensures forall x, y :: L(c, read).ppo.Has(x) && x != read && CHas(c, x, y) ==> L(c, read).ppo.Has(y)
  {
    var g, b, rv := s.graph, Stuck(s.graph, s.blocked, c), Backward(read, write);
    RevisitEnds(g, rv, v);
    hide Inv, InvAt, Settled, HeldAllOk, GraphOk, IsRevisitView, IsCopy, Revisitable, ClosedBut, Stuck;
    var o := InvOrder(s);
    GraphStamps(g);
    InvRevisitable(g, s.blocked, o);
    RevisitViewInside(g, rv, v);
    WriteKnown(g, write);
    ViewSpans(g, v);
    InvClosed(s);
    CopyKeepsClosure(g, s.blocked, v, c);
    CopyHas(g, v, c, read);
    CopyHas(g, v, c, write);
    AccessIndexed(g, read);
    AccessIndexed(g, write);
    CopiedReadAt(g, v, c, read);
    CopiedReadAt(g, v, c, write);
    ReadBase(g, s.blocked, o, read);
    ReadPlaced(g, read);
    forall x, a | CHas(c, x, a) ensures CHas(g, x, a) { CopyKnows(g, v, c, x, a); }
    forall x | IsWriteAt(c, x) ensures !IsHeld(c, b, x) { WriteNotHeld(g, s.blocked, v, c, x); }
  }

  lemma CopiedReadAt(g: Graph, v: Clock, c: Graph, x: Event)
    requires IsCopy(g, v, c) && In(c, x) && v.Has(x)
    ensures In(g, x) && L(c, x).pos == L(g, x).pos && L(c, x).kind == L(g, x).kind && L(c, x).ppo == L(g, x).ppo
    ensures L(c, x).pporf == L(g, x).pporf
  {}

  lemma WriteNotHeld(g: Graph, blocked: set<nat>, v: Clock, c: Graph, x: Event)
    requires HeldAllOk(g, blocked, Settled(g, blocked)) && IsCopy(g, v, c) && Spans(g, v) && IsWriteAt(c, x)
    ensures !IsHeld(c, Stuck(g, blocked, c), x)
  {
    CopyAt(g, v, c, x);
    if x.thread in blocked && |c[x.thread]| == |g[x.thread]| && x.index == |c[x.thread]| - 1 {
      HeldKind(g, blocked, Settled(g, blocked), x);
    }
    assert L(g, x) == g[x.thread][x.index];
  }

  lemma ReadBase(g: Graph, blocked: set<nat>, o: Order, read: Event)
    requires InvAt(Settled(g, blocked), o) && HeldAllOk(g, blocked, Settled(g, blocked)) && IsReadAt(g, read)
    ensures forall a, b :: L(g, read).ppo.Has(a) && a != read && CHas(g, a, b) ==> L(g, read).ppo.Has(b)
  {
    var w := Settled(g, blocked);
    AccessesSettled(g, blocked);
    SettledAt(g, blocked);
    InvParts(w, o);
    hide InvAt, HeldAllOk, Settled, HbInv;
    CHasInGraph(w, o);
    forall a, b | L(g, read).ppo.Has(a) && a != read && CHas(g, a, b) ensures L(g, read).ppo.Has(b) {
      PpoStep(w, o, read, a, b);
    }
  }

  lemma ReadPlaced(g: Graph, read: Event)
    requires Revisitable(g) && In(g, read)
    ensures L(g, read).pos == read
  {
    RevisitParts(g);
  }

  lemma PpoStep(w: Graph, o: Order, read: Event, a: Event, b: Event)
    requires Causal(w, o) && In(w, read) && PHas(w, read, a) && a != read
    ensures In(w, a) && (CHas(w, a, b) ==> PHas(w, read, b))
  {}

  lemma RetargetedFields(c: Graph, p: nat, r: Graph, next: nat, read: Event, write: Event)
    requires Restamped(c, p, r, next) && IsReadAt(r, read)
    ensures var h := RfChanged(r, read, write);
            && (forall x :: In(h, x) <==> In(c, x)) && IsReadAt(h, read) && L(h, read).rf == write
            && (forall x :: In(c, x) ==>
                   L(h, x).pporf == L(c, x).pporf && L(h, x).ppo == L(c, x).ppo && L(h, x).addr == L(c, x).addr)
            && (forall x :: In(c, x) ==> L(h, x).IsWrite() == L(c, x).IsWrite() && L(h, x).pos == L(c, x).pos)
  {
    var h := RfChanged(r, read, write);
    RfChangedAt(r, read, write);
    RetargetedKinds(r, h, read, write);
    hide RfChanged;
    assert forall x :: In(r, x) <==> In(c, x);
    forall x | In(c, x)
      ensures L(h, x).pporf == L(c, x).pporf && L(h, x).ppo == L(c, x).ppo && L(h, x).addr == L(c, x).addr
    {
      assert L(r, x) == L(c, x).(stamp := L(r, x).stamp);
    }
  }

  lemma FromNewRf(c: Graph, h: Graph, read: Event, write: Event, addr: int, base: Clock, a: Event)
    requires (forall x :: In(h, x) <==> In(c, x)) && In(h, write) && write != Initializer && write != Bottom
    requires forall x :: In(c, x) ==>
                 L(h, x).pporf == L(c, x).pporf && L(h, x).addr == L(c, x).addr &&
                 L(h, x).IsWrite() == L(c, x).IsWrite()
    requires write.thread != read.thread
    ensures FromRf(h, read, addr, write, base, a) <==>
                base.Has(a) || CHas(c, write, a) || FromOwnWrites(c, read, addr, a)
  {
    assert FromOwnWrites(h, read, addr, a) <==> FromOwnWrites(c, read, addr, a);
  }

  lemma MadeReread(s: State, read: Event, write: Event, v: Clock, c: Graph, r: Graph, next: nat, lab: Label, s': State)
    requires RevisitMade(s, read, write, v, c, r, next, lab, s') && IsReadAt(c, read) && IsWriteAt(c, write)
    requires L(c, read).pos == read
    requires write != Bottom && write != Initializer
    ensures Reread(c, read, write, s'.graph)
  {
    var h, h1 := s'.graph, RfChanged(r, read, write);
    MadeRead(s, read, write, v, c, r, next, lab, s');
    forall x, a | x != read
      ensures CHas(h, x, a) <==> CHas(c, x, a)
    {
      MadeLabel(s, read, write, v, c, r, next, lab, s', x);
    }
    forall x | x != read ensures In(h, x) <==> In(c, x) { MadeLabel(s, read, write, v, c, r, next, lab, s', x); }
    RetargetedFields(c, L(s.graph, read).stamp, r, next, read, write);
    hide IsRevisitView, IsCopy, RfChanged, HbComputed, FromRf, FromOwnWrites, Restamped;
    forall a ensures CHas(h, read, a) <==>
                     L(c, read).ppo.Has(a) || CHas(c, write, a) || FromOwnWrites(c, read, L(c, read).addr, a)
    {
      FromNewRf(c, h1, read, write, L(c, read).addr, L(c, read).ppo, a);
      assert L(h, read).pporf.Has(a) <==> FromRf(h1, read, L(c, read).addr, write, L(c, read).ppo, a);
    }
  }

  /** After a backward revisit of a run's graph, whatever the gaps of its view, closure holds exactly if no label kept,
      other than the read, knew the read. The write is one nobody knows yet, and the read is not in its prefix. */
  lemma RevisitClosedIff(s: State, read: Event, write: Event, v: Clock, c: Graph, r: Graph, next: nat, lab: Label,
                         s': State)
    requires Inv(s) && RevisitMade(s, read, write, v, c, r, next, lab, s')
    requires !CHas(s.graph, write, read) && forall x :: CHas(s.graph, x, write) ==> x == write
    ensures ClosedBut(s'.graph, s'.blocked) <==> Unknown(c, s'.blocked, read)
  {
    MadeEnds(s, read, write, v, c, r, next, lab, s');
    MadeStuck(s, read, write, v, c, r, next, lab, s');
    WriteIsNoMark(s, write);
    hide Inv, RevisitMade, IsRevisitView, IsCopy, Stuck, ClosedBut, Unknown, Reread;
    CopiedRead(s, read, write, v, c);
    MadeReread(s, read, write, v, c, r, next, lab, s');
    RereadClosedIff(c, s'.blocked, read, write, s'.graph);
  }

  lemma WriteIsNoMark(s: State, w: Event)
    requires Inv(s) && IsWriteAt(s.graph, w)
    ensures w != Initializer && w != Bottom
  {}

  // ----- exactly when a backward revisit keeps the invariant -----

  /** The write is one that nobody else knows or builds on. */
  ghost predicate Novel(g: Graph, write: Event) {
    forall x :: CHas(g, x, write) || PHas(g, x, write) ==> x == write
  }

  lemma FenceMustBeExact(q: Graph, x: Event)
    requires LocallyExact(q) && MessagesExact(q) && Positioned(q) && IsAcquireFence(q, x) && x.index >= 1
    ensures FenceExact(q, x)
  {
    PosAt(q, x);
    assert In(q, x.Prev());
    hide LocallyExact, MessagesExact, MsgSource, Positioned;
    forall a ensures HbHas(q, x, a) <==> a == x || HbHas(q, x.Prev(), a) || ViaFence(q, x, a) {
      FenceViewExact(q, x, a);
    }
  }

  lemma FenceViewExact(q: Graph, x: Event, a: Event)
    requires LocallyExact(q) && MessagesExact(q) && IsAcquireFence(q, x) && x.index >= 1 && L(q, x).pos == x
    requires In(q, x.Prev())
    ensures HbHas(q, x, a) <==> a == x || HbHas(q, x.Prev(), a) || ViaFence(q, x, a)
  {
    hide MessagesExact, MsgSource;
    assert HbEdge(q, x.Prev(), x);
    assert HbHas(q, x, a) <==> (a == x && In(q, x) && x.index >= 1) || ViaEdge(q, x, a);
    if ViaEdge(q, x, a) {
      var p :| HbEdge(q, p, x) && HbHas(q, p, a);
      if p != x.Prev() {
        var r :| FenceableRead(q, x, r) && MsgSource(q, L(q, r).rf, p);
        SaidBySource(q, L(q, r).rf, p, a);
      }
    }
    if r :| FenceableRead(q, x, r) && MsgHas(q, L(q, r).rf, a) {
      var p := SourceOfMessage(q, L(q, r).rf, a);
      assert p != x ==> EdgeInto(q, p, L(q, x)) && HbEdge(q, p, x);
    }
  }

  lemma SaidBySource(q: Graph, w: Event, p: Event, a: Event)
    requires MessagesExact(q) && MsgSource(q, w, p) && HbHas(q, p, a)
    ensures MsgHas(q, w, a)
  {
    assert ViaSource(q, w, a);
  }

  lemma SourceOfMessage(q: Graph, w: Event, a: Event) returns (p: Event)
    requires MessagesExact(q) && MsgHas(q, w, a)
    ensures MsgSource(q, w, p) && HbHas(q, p, a)
  {
    assert ViaSource(q, w, a);
    p :| MsgSource(q, w, p) && HbHas(q, p, a);
  }

  lemma FencesMustBeExact(h: Graph, blocked: set<nat>, o: Order, read: Event)
    requires InvAt(Settled(h, blocked), o) && HeldAllOk(h, blocked, Settled(h, blocked)) && read.index >= 0
    ensures LateFencesExact(h, read)
  {
    var q := Settled(h, blocked);
    hide InvAt, HeldAllOk, Settled, FenceExact, LocallyExact, MessagesExact, Positioned, HbInv, Causal, IsHeld;
    SettledAt(h, blocked);
    AccessesSettled(h, blocked);
    InvParts(q, o);
    CausalReady(q, o);
    assert LocallyExact(q) && MessagesExact(q) by { ExactParts(q, o); }
    forall x | LateFence(h, read, x) ensures FenceExact(h, x) {
      if IsHeld(h, blocked, x) { HeldKind(h, blocked, q, x); }
      FenceMustBeExact(q, x);
      SettledFence(h, q, x);
    }
  }

  lemma ExactParts(q: Graph, o: Order)
    requires HbInv(q, o)
    ensures LocallyExact(q) && MessagesExact(q)
  {}

  lemma SettledFence(h: Graph, q: Graph, x: Event)
    requires (forall y :: In(q, y) ==> In(h, y) && L(q, y) == L(h, y)) && (forall y :: IsWriteAt(h, y) ==> In(q, y))
    requires In(q, x) && FenceExact(q, x)
    ensures FenceExact(h, x)
  {
    forall a ensures HbHas(h, x, a) <==> a == x || HbHas(h, x.Prev(), a) || ViaFence(h, x, a) {
      FenceSettled(h, q, x, a);
    }
  }

  /** The read cannot come before its own write. */
  lemma NotMutual(h: Graph, blocked: set<nat>, o: Order, read: Event, write: Event)
    requires InvAt(Settled(h, blocked), o) && HeldAllOk(h, blocked, Settled(h, blocked)) && read != write
    requires IsReadAt(h, read) && IsWriteAt(h, write) && CHas(h, read, write)
    ensures !CHas(h, write, read)
  {
    var q := Settled(h, blocked);
    hide InvAt, HeldAllOk, Settled, Ordered;
    AccessesSettled(h, blocked);
    InvParts(q, o);
    CausalOrdered(q, o);
    OrderedOneWay(q, o, read, write);
  }

  lemma OrderedOneWay(q: Graph, o: Order, x: Event, y: Event)
    requires Ordered(q, o) && x != y && CHas(q, x, y)
    ensures !CHas(q, y, x)
  {
    assert o.Before(y, x);
  }

  /** What blocked threads build on is closed. */
  lemma HeldClosed(h: Graph, blocked: set<nat>, read: Event, write: Event, x: Event)
    requires HeldAllOk(h, blocked, Settled(h, blocked)) && IsReadAt(h, read) && CHas(h, read, write)
    requires IsHeld(h, blocked, x) && PHas(h, x, read) && x != read
    ensures PHas(h, x, write)
  {
    var q := Settled(h, blocked);
    AccessesSettled(h, blocked);
    SettledAt(h, blocked);
    hide Settled, PpoSourced, LaterIn;
    assert HeldOk(h, q, x.thread);
    assert CHas(q, read, write);
  }

  /** Knowing the read means knowing the write, which nobody does. */
  lemma KnownByNone(h: Graph, b: set<nat>, o: Order, c: Graph, read: Event, write: Event)
    requires InvAt(Settled(h, b), o) && HeldAllOk(h, b, Settled(h, b)) && ClosedBut(h, b) && Reread(c, read, write, h)
    requires CHas(c, write, write) && IsReadAt(h, read) && IsWriteAt(h, write) && read != write
    requires forall x :: CHas(c, x, write) ==> x == write
    ensures Unknown(c, b, read)
  {
    hide InvAt, HeldAllOk, Settled;
    assert CHas(h, read, write);
    NotMutual(h, b, o, read, write);
    forall x | CHas(c, x, read) && !IsHeld(c, b, x) ensures x == read {
      if x != read { KnowsWrite(c, b, read, write, h, x); }
    }
  }

  lemma BuiltByNone(h: Graph, b: set<nat>, c: Graph, read: Event, write: Event)
    requires HeldAllOk(h, b, Settled(h, b)) && Reread(c, read, write, h) && CHas(c, write, write)
    requires IsReadAt(h, read) && IsWriteAt(h, write) && read != write
    requires forall x :: PHas(c, x, write) ==> x == write
    requires forall x, a :: x != read ==> (PHas(h, x, a) <==> PHas(c, x, a))
    ensures Unbuilt(c, b, read)
  {
    assert CHas(h, read, write);
    forall x | IsHeld(c, b, x) && x != read ensures !PHas(c, x, read) {
      if PHas(c, x, read) {
        HeldClosed(h, b, read, write, x);
        HeldKind(h, b, Settled(h, b), x);
      }
    }
  }

  lemma CopyKnowsLess(s: State, read: Event, write: Event, v: Clock, c: Graph)
    requires Inv(s) && IsRevisitView(s.graph, Backward(read, write), v) && IsCopy(s.graph, v, c)
    requires Novel(s.graph, write)
    ensures forall x :: CHas(c, x, write) || PHas(c, x, write) ==> x == write
  {
    hide Inv, IsRevisitView;
    forall x | CHas(c, x, write) || PHas(c, x, write) ensures x == write {
      assert CHas(s.graph, x, write) || PHas(s.graph, x, write);
    }
  }

  lemma MadePpo(s: State, read: Event, write: Event, v: Clock, c: Graph, r: Graph, next: nat, lab: Label, s': State)
    requires RevisitMade(s, read, write, v, c, r, next, lab, s') && IsReadAt(c, read)
    ensures forall x, a :: x != read ==> (PHas(s'.graph, x, a) <==> PHas(c, x, a))
    ensures forall x :: x != read ==> (In(s'.graph, x) <==> In(c, x)) && (IsWriteAt(s'.graph, x) <==> IsWriteAt(c, x))
  {
    var h1 := RfChanged(r, read, write);
    RetargetedFields(c, L(s.graph, read).stamp, r, next, read, write);
    SetAt(h1, read, lab);
    hide IsRevisitView, IsCopy, RfChanged, RfContents, Restamped, Set, Stuck;
  }

  /** What a revisit that keeps the invariant must have found. */
  lemma RevisitMustFit(s: State, read: Event, write: Event, v: Clock, c: Graph, r: Graph, next: nat, lab: Label,
                       s': State)
    requires Inv(s) && RevisitMade(s, read, write, v, c, r, next, lab, s') && Novel(s.graph, write) && Inv(s')
    ensures RevisitFits(v, c, read, s')
  {
    var h, b := s'.graph, s'.blocked;
    hide Inv, RevisitMade, IsRevisitView, IsCopy, InvAt, Settled, HeldAllOk, GraphOk, NoGaps, Unknown, Unbuilt,
         LateFencesExact, ClosedBut, Reread, Stuck, Novel;
    MadeEnds(s, read, write, v, c, r, next, lab, s');
    WriteIsNoMark(s, write);
    CopiedRead(s, read, write, v, c);
    MadeReread(s, read, write, v, c, r, next, lab, s');
    MadeRead(s, read, write, v, c, r, next, lab, s');
    MadePpo(s, read, write, v, c, r, next, lab, s');
    CopyKnowsLess(s, read, write, v, c);
    var o' := InvOrder(s');
    InvClosed(s');
    GapsShow(s, read, write, v, c, r, next, lab, s');
    ReadIndexed(s, read);
    FencesMustBeExact(h, b, o', read);
    KnownByNone(h, b, o', c, read, write);
    BuiltByNone(h, b, c, read, write);
  }

  lemma ReadIndexed(s: State, read: Event)
    requires Inv(s) && IsReadAt(s.graph, read)
    ensures read.index >= 1
  {
    GraphParts(s);
    hide Inv;
    GraphStamps(s.graph);
    AccessIndexed(s.graph, read);
  }

  /** A backward revisit by a write nobody knows yet keeps the invariant exactly if its view has no gaps, nothing kept
      knows or builds on the read, and the acquire fences kept after it have what the new message says. */
  lemma RevisitKeepsInvIff(s: State, read: Event, write: Event, v: Clock, c: Graph, r: Graph, next: nat, lab: Label,
                           s': State)
    requires Inv(s) && RevisitMade(s, read, write, v, c, r, next, lab, s') && Novel(s.graph, write)
    ensures Inv(s') <==> RevisitFits(v, c, read, s')
  {
    hide Inv, RevisitMade, RevisitFits, Novel;
    if RevisitFits(v, c, read, s') { RevisitKeeps(s, read, write, v, c, r, next, lab, s'); }
    if Inv(s') { RevisitMustFit(s, read, write, v, c, r, next, lab, s'); }
  }
}
