/** Added labels keep the invariant: labels of running threads, joins to wait at, threads created again. */
module Additions {
  import opened Events
  import opened Clocks
  import opened Graphs
  import opened ImmSpec
  import opened Causality
  import opened HbExact
  import opened Fitting
  import opened Restriction
  import opened Sources
  import opened Settling
  import opened StampBounds
  import opened Trimming
  import opened States

  // ----- shapes -----

  lemma ComputedShape(g: Graph, lab0: Label, deps: EventDeps, lab: Label)
    requires Viewable(g, lab0, deps) && ViewsComputed(g, lab0, deps, lab)
    ensures lab.pporf.Wf() && lab.pporf.Tight() && lab.ppo.Wf() && lab.ppo.Tight()
    ensures lab.hb.At(lab.pos.thread) == lab.pos.index
    ensures lab.kind == lab0.kind && lab.pos == lab0.pos && lab.stamp == lab0.stamp && lab.readers == []
    ensures lab.rf == lab0.rf
    ensures lab.ord == lab0.ord && WfOrdering(lab)
  {}

  lemma ViewableShape(g: Graph, lab: Label, deps: EventDeps)
    requires Viewable(g, lab, deps)
    ensures Limit(g, lab.pos) && lab.pos.index == |g[lab.pos.thread]| && WfOrdering(lab) && !lab.kind.Absent?
    ensures lab.kind.ThreadStart? <==> lab.pos.index == 0
    ensures lab.IsRead() ==> (lab.rf == Bottom || RfTarget(g, lab.rf)) && lab.rf != lab.pos
    ensures lab.kind.ThreadStart? ==> In(g, lab.kind.parentCreate) && L(g, lab.kind.parentCreate).kind.ThreadCreate?
  {}

  /** Labels of the graph with one more, field by field. */
  lemma PlacedFields(g: Graph, lab: Label)
    requires Limit(g, lab.pos) && lab.pos.index == |g[lab.pos.thread]| && (lab.IsRead() ==> lab.rf != lab.pos)
    ensures var h := Placed(g, lab);
            && |h| == |g| && (forall t :: 0 <= t < |g| ==> |h[t]| == |g[t]| + if t == lab.pos.thread then 1 else 0)
            && (forall x :: In(h, x) <==> In(g, x) || x == lab.pos)
            && (forall x :: In(h, x) ==>
                              var l, m := if x == lab.pos then lab else L(g, x), L(h, x);
                              m == l.(readers := m.readers) && (!l.IsWrite() ==> m == l))
            && L(h, lab.pos) == lab
  {
    if lab.IsRead() { AddReadAt(g, lab); } else { AddLabelAt(g, lab); }
  }

  lemma PlacedInverse(g: Graph, lab: Label)
    requires RfInverse(g) && Limit(g, lab.pos) && lab.pos.index == |g[lab.pos.thread]|
    requires lab.readers == [] && !lab.kind.Absent? && (lab.IsMemAccess() ==> lab.pos.index > 0)
    requires lab.IsRead() ==> lab.rf == Bottom || RfTarget(g, lab.rf)
    ensures RfInverse(Placed(g, lab))
  {
    if lab.IsRead() { AddReadKeepsInverse(g, lab); } else { AddOtherKeepsInverse(g, lab); }
  }

  // ----- a label that fits -----

  /** An appended label that fits keeps the invariants of a graph nothing is blocked in. */
  lemma ExtendInv(g: Graph, o: Order, lab: Label, h: Graph)
    requires InvAt(g, o) && Extends(g, lab, h) && Fits(g, lab) && FitsViews(g, lab) && FitsRefs(g, lab)
    requires HbFits(g, lab) && MsgFits(g, lab) && SourcedLabel(g, lab) && WfOrdering(lab)
    requires lab.IsRead() && lab.rf != Bottom && lab.rf != Initializer && lab.rf.thread != lab.pos.thread ==>
                 lab.pporf.Has(lab.rf)
    ensures InvAt(h, o.Then(lab.pos))
  {
    InvParts(g, o);
    CausalReady(g, o);
    hide InvAt, Causal, HbInv, Sourced, RfKnown, RfOrdered, OrderingsFixed, Fits, FitsViews, HbFits, MsgFits, Extends,
         WfOrdering, ClocksInGraph, ViewsInGraph, RefsInside, SourcedLabel, Ranked, StartsBare, SelfContained;
    ExtendCausal(g, o, lab, h);
    ExtendHb(g, o, lab, h);
    ExtendSourced(g, lab, h);
    assert lab.IsRead() ==> lab.rf == Bottom || In(g, lab.rf);
    ExtendRfOrdered(g, o, lab, h);
    ExtendRest(g, lab, h);
    InvWhole(h, o.Then(lab.pos));
  }

  lemma ExtendRest(g: Graph, lab: Label, h: Graph)
    requires RfKnown(g) && OrderingsFixed(g) && MainBegun(g) && Extends(g, lab, h) && WfOrdering(lab)
    requires lab.IsRead() && lab.rf != Bottom && lab.rf != Initializer && lab.rf.thread != lab.pos.thread ==>
                 lab.pporf.Has(lab.rf)
    ensures RfKnown(h) && OrderingsFixed(h) && MainBegun(h)
  {
    ExtendedContents(g, lab, h);
    assert forall x :: In(h, x) <==> In(g, x) || x == lab.pos;
    forall x | In(h, x)
      ensures var l := if x == lab.pos then lab else L(g, x);
              L(h, x).rf == l.rf && L(h, x).IsRead() == l.IsRead() && WfOrdering(L(h, x)) &&
                  (l.kind.ThreadStart? ==> L(h, x).kind == l.kind)
    {
      CoreFields(L(h, x), if x == lab.pos then lab else L(g, x));
    }
    hide Extends, WfOrdering;
    forall x | ReadsExternally(h, x) ensures CHas(h, x, L(h, x).rf) {
      assert x != lab.pos ==> ReadsExternally(g, x);
    }
  }

  lemma RfInClock(g: Graph, e: Event, addr: int, rf: Event, base: Clock)
    requires SelfContained(g) && Started(g) && RfTarget(g, rf) && rf != Initializer && rf.thread != e.thread
    requires rf != Bottom
    ensures FromRf(g, e, addr, rf, base, rf)
  {
    assert rf.index >= 1 ==> CHas(g, rf, rf);
  }

  lemma ReadKnowsRf(g: Graph, lab0: Label, deps: EventDeps, lab: Label)
    requires SelfContained(g) && Started(g) && ViewsComputed(g, lab0, deps, lab) && lab.IsRead()
    requires lab.rf == Bottom || RfTarget(g, lab.rf)
    ensures lab.rf != Bottom && lab.rf != Initializer && lab.rf.thread != lab.pos.thread ==> lab.pporf.Has(lab.rf)
  {
    hide FromRf, SelfContained, Started, PpoComputed, HbComputed, MsgComputed;
    if lab.rf != Bottom && lab.rf != Initializer && lab.rf.thread != lab.pos.thread {
      RfInClock(g, lab.pos, lab.addr, lab.rf, lab.ppo);
    }
  }

  /** What a computed label satisfies before it is placed. */
  lemma ComputedReady(g: Graph, o: Order, lab0: Label, deps: EventDeps, lab: Label)
    requires InvAt(g, o) && Viewable(g, lab0, deps) && ViewsComputed(g, lab0, deps, lab) && !lab.kind.ThreadJoin?
    ensures Fits(g, lab) && FitsViews(g, lab) && FitsRefs(g, lab) && HbFits(g, lab) && MsgFits(g, lab)
    ensures SourcedLabel(g, lab)
  {
    InvParts(g, o);
    CausalReady(g, o);
    ComputedFits(g, o, lab0, deps, lab);
    ComputedSourced(g, o, lab0, deps, lab);
    hide InvAt, Causal, HbInv, Fits, HbFits, MsgFits, RfKnown, OrderingsFixed, LocallyExact, MessagesExact,
         SourcedLabel, PpoComputed, PporfComputed, MsgComputed, HbComputed, RefsInside, ClocksInGraph, ViewsInGraph,
         Sourced, RfOrdered;
    HbInvReady(g, o);
    ComputedShape(g, lab0, deps, lab);
    HbComputedFits(g, lab);
    if lab.pos.index >= 1 { MsgComputedFits(g, o, lab); } else { assert !lab.IsWrite(); }
    FitsViewsFrom(g, lab);
    FitsRefsFrom(g, lab0, deps, lab);
  }

  lemma FitsRefsFrom(g: Graph, lab0: Label, deps: EventDeps, lab: Label)
    requires Viewable(g, lab0, deps) && lab.kind == lab0.kind && lab.pos == lab0.pos && lab.rf == lab0.rf
    requires !lab.kind.ThreadJoin?
    ensures FitsRefs(g, lab)
  {}

  /** Any computed label but a join extends a graph that nothing is blocked in. */
  lemma ComputedExtends(g: Graph, o: Order, lab0: Label, deps: EventDeps, lab: Label, h: Graph)
    requires InvAt(g, o) && Viewable(g, lab0, deps) && ViewsComputed(g, lab0, deps, lab) && !lab.kind.ThreadJoin?
    requires Extends(g, lab, h)
    ensures InvAt(h, o.Then(lab.pos))
  {
    InvParts(g, o);
    CausalReady(g, o);
    ComputedShape(g, lab0, deps, lab);
    ViewableShape(g, lab0, deps);
    hide InvAt, Causal, Viewable, ViewsComputed, Fits, HbFits, MsgFits, FitsRefs, FitsViews, SelfContained, Started,
         HbInv, Ready, RefsInside, Extends, SourcedLabel, Sourced, RfKnown, RfOrdered, OrderingsFixed;
    ComputedReady(g, o, lab0, deps, lab);
    if lab.IsRead() { ReadKnowsRf(g, lab0, deps, lab); }
    ExtendInv(g, o, lab, h);
  }

  // ----- blocked threads do not notice -----

  /** What is to be built on stays so when a label of another thread is added. */
  lemma BaseGrows(w: Graph, lab: Label, w': Graph, x: Event, c: Clock)
    requires Extends(w, lab, w') && BaseOk(w, x, c) && PpoSourced(w, x, c) && x.thread != lab.pos.thread
    ensures BaseOk(w', x, c) && PpoSourced(w', x, c)
  {
    ExtendedContents(w, lab, w');
    ExtendedIn(w, lab, w');
    forall a | c.Has(a) && a != x ensures Admissible(w', x, c, a) && a != lab.pos && ThroughThread(w', x, c, a) {
      assert Admissible(w, x, c, a) && ThroughThread(w, x, c, a);
      var p :| In(w, p) && Before(p, x) && (p.index == 0 || c.Has(p)) && (a == p || CHas(w, p, a));
      assert In(w', p);
    }
    forall q, b | Before(q, x) && IsAcquireOrFence(w', q) && CHas(w', q, b) ensures c.Has(b) {
      assert In(w, q);
      CoreFields(L(w', q), L(w, q));
    }
    hide Extends, Admissible, ThroughThread, AcquiresIn;
  }

  /** Blocked threads stay so: their labels are the same, and their ppo views still to be built on. */
  lemma HeldGrows(g: Graph, blocked: set<nat>, w: Graph, lab: Label, h: Graph, w': Graph)
    requires HeldAllOk(g, blocked, w) && Extends(w, lab, w') && |h| == |g| && lab.pos.thread !in blocked
    requires forall t :: t in blocked && t < |g| ==>
                 |h[t]| == |g[t]| && (|g[t]| > 0 ==> h[t][|g[t]| - 1] == g[t][|g[t]| - 1])
    requires forall t: nat, c :: t in blocked && t < |g| && |g[t]| == 1 && g[t][0].kind == ThreadStart(c) &&
                                 CreatorRef(h, c) ==>
                                   CreatorRef(g, c)
    ensures HeldAllOk(h, blocked, w')
  {
    forall t | t in blocked ensures HeldOk(h, w', t) {
      assert HeldOk(g, w, t);
      var x := Event(t, |g[t]| - 1);
      assert L(h, x) == L(g, x);
      if x.index >= 1 {
        hide HeldAllOk, Extends;
        BaseGrows(w, lab, w', x, L(g, x).ppo);
      }
    }
  }

  // ----- the whole graph -----

  lemma InvIntact(g: Graph, blocked: set<nat>, o: Order)
    requires GraphOk(g) && HeldAllOk(g, blocked, Settled(g, blocked)) && InvAt(Settled(g, blocked), o)
    ensures Intact(g)
  {
    var w := Settled(g, blocked);
    hide InvAt, HeldAllOk, Settled, RefsInside, GraphOk, Started, Positioned, NoAbsent;
    InvRefs(w, o);
    SettledAt(g, blocked);
    forall x | In(g, x) && !IsHeld(g, blocked, x)
      ensures L(g, x).kind.ThreadStart? ==> In(g, L(g, x).kind.parentCreate)
      ensures L(g, x).kind.ThreadJoin? ==> In(g, L(g, x).kind.childLast)
    {
      RefsAt(w, x);
    }
    GraphRfs(g);
  }

  lemma GraphRfs(g: Graph)
    requires GraphOk(g)
    ensures forall x :: IsReadAt(g, x) ==> L(g, x).rf == Bottom || In(g, L(g, x).rf)
  {
    assert RfInverse(g);
    hide GraphOk;
    assert forall x :: IsReadAt(g, x) ==> x != Bottom;
  }

  lemma RefsAt(g: Graph, x: Event)
    requires RefsInside(g) && In(g, x)
    ensures L(g, x).kind.ThreadStart? ==> In(g, L(g, x).kind.parentCreate)
    ensures L(g, x).kind.ThreadJoin? ==> In(g, L(g, x).kind.childLast)
  {}

  lemma PlacedGraphOk(g: Graph, lab: Label)
    requires RfInverse(g) && Stamped(g) && FinishesLast(g) && JoinChildren(g) && BeginsDistinct(g)
    requires forall t :: 0 <= t < |g| && t != lab.pos.thread ==> |g[t]| > 0
    requires Newest(g, lab.stamp) && Limit(g, lab.pos) && lab.pos.index == |g[lab.pos.thread]|
    requires lab.readers == [] && !lab.kind.Absent? && (lab.kind.ThreadStart? <==> lab.pos.index == 0)
    requires lab.IsRead() ==> (lab.rf == Bottom || RfTarget(g, lab.rf)) && lab.rf != lab.pos
    requires lab.pos.index > 0 ==> !L(g, lab.pos.Prev()).kind.ThreadFinish?
    requires lab.kind.ThreadJoin? ==> lab.kind.childLast == Initializer
    requires lab.kind.ThreadStart? ==> Unclaimed(g, lab.kind.parentCreate)
    ensures GraphOk(Placed(g, lab))
  {
    PlacedFields(g, lab);
    hide RfInverse;
    PlacedInverse(g, lab);
    var h := Placed(g, lab);
    hide Placed;
    assert Stamped(h) by { PlacedStamped(g, lab, h); }
    assert FinishesLast(h) by { PlacedFinishes(g, lab, h); }
    assert BeginsDistinct(h) by { PlacedBegins(g, lab, h); }
  }

  ghost predicate OneMore(g: Graph, lab: Label, h: Graph) {
    && Limit(g, lab.pos) && lab.pos.index == |g[lab.pos.thread]|
    && |h| == |g| && (forall t :: 0 <= t < |g| ==> |h[t]| == |g[t]| + if t == lab.pos.thread then 1 else 0)
    && (forall x :: In(h, x) <==> In(g, x) || x == lab.pos)
    && (forall x :: In(h, x) ==>
                      var l, m := if x == lab.pos then lab else L(g, x), L(h, x);
                      m == l.(readers := m.readers) && (!l.IsWrite() ==> m == l))
    && L(h, lab.pos) == lab
  }

  lemma PlacedStamped(g: Graph, lab: Label, h: Graph)
    requires Stamped(g) && Newest(g, lab.stamp) && OneMore(g, lab, h)
    ensures Stamped(h)
  {}

  lemma PlacedFinishes(g: Graph, lab: Label, h: Graph)
    requires FinishesLast(g) && OneMore(g, lab, h) && (lab.pos.index > 0 ==> !L(g, lab.pos.Prev()).kind.ThreadFinish?)
    ensures FinishesLast(h)
  {
    assert lab.pos.index > 0 ==> In(g, lab.pos.Prev());
  }

  lemma PlacedBegins(g: Graph, lab: Label, h: Graph)
    requires BeginsDistinct(g) && OneMore(g, lab, h)
    requires lab.pos.index == 0 ==> lab.kind.ThreadStart? && Unclaimed(g, lab.kind.parentCreate)
    ensures BeginsDistinct(h)
  {
    forall t | 0 <= t < |h| && |h[t]| > 0
      ensures h[t][0].kind == if Event(t, 0) == lab.pos then lab.kind else L(g, Event(t, 0)).kind
      ensures Event(t, 0) != lab.pos ==> In(g, Event(t, 0)) && g[t][0] == L(g, Event(t, 0))
    {
      assert In(h, Event(t, 0)) && h[t][0] == L(h, Event(t, 0));
    }
  }

  /** h is g with lab added, as far as references and stamps go. */
  ghost predicate RefsAdded(g: Graph, lab: Label, h: Graph) {
    && !In(g, lab.pos) && (forall x :: In(g, x) && x.thread == lab.pos.thread ==> x.index < lab.pos.index)
    && (forall x :: In(h, x) <==> In(g, x) || x == lab.pos)
    && (forall x :: In(h, x) ==> var l := if x == lab.pos then lab else L(g, x);
                                 L(h, x).kind == l.kind && L(h, x).stamp == l.stamp && L(h, x).rf == l.rf)
  }

  lemma OneMoreRefs(g: Graph, lab: Label, h: Graph)
    requires OneMore(g, lab, h)
    ensures RefsAdded(g, lab, h)
  {}

  lemma WholeAdded(g: Graph, lab: Label, h: Graph, n: nat)
    requires (n <= lab.stamp ==> Whole(g, n)) && RefsAdded(g, lab, h) && Newest(g, lab.stamp) && Intact(h)
    requires lab.pos.index > 0 ==> In(g, lab.pos.Prev()) && Firm(g, lab.pos.Prev())
    requires lab.kind.ThreadStart? <==> lab.pos.index == 0
    requires lab.kind.ThreadFinish? ==> lab.kind.parentJoin == Initializer
    requires In(h, Initializer) && L(h, Initializer).kind.ThreadStart?
    ensures Whole(h, n)
  {
    if n <= lab.stamp {
      forall j ensures !JoinedBy(h, lab.pos, j) {}
      AppendedWhole(g, lab, h, n);
    } else {
      NewestWhole(h, n);
    }
  }

  // ----- a thread of one's own -----

  /** r is g with room for one more thread. */
  ghost predicate Widened(g: Graph, r: Graph) { r == g + [[]] }

  lemma WidenedSame(g: Graph, r: Graph)
    requires Widened(g, r)
    ensures |r| == |g| + 1 && (forall t :: 0 <= t < |g| ==> r[t] == g[t])
    ensures forall x :: In(r, x) <==> In(g, x)
    ensures forall x :: In(g, x) ==> L(r, x) == L(g, x)
  {}

  lemma WidenedGraph(g: Graph, r: Graph)
    requires Widened(g, r) && GraphOk(g)
    ensures RfInverse(r) && Stamped(r) && FinishesLast(r) && JoinChildren(r) && BeginsDistinct(r)
  {
    WidenedSame(g, r);
    hide Widened, RfInverse;
    WidenedInverse(g, r);
  }

  lemma WidenedInverse(g: Graph, r: Graph)
    requires RfInverse(g) && (forall x :: In(r, x) <==> In(g, x)) && forall x :: In(g, x) ==> L(r, x) == L(g, x)
    ensures RfInverse(r)
  {
    forall e | IsReadAt(r, e) && L(r, e).rf != Bottom
      ensures RfTarget(r, L(r, e).rf) && (IsWriteAt(r, L(r, e).rf) ==> e in L(r, L(r, e).rf).readers)
    {
      assert IsReadAt(g, e);
    }
    forall w, x | IsWriteAt(r, w) && x in L(r, w).readers ensures IsReadAt(r, x) && L(r, x).rf == w {
      assert IsWriteAt(g, w) && IsReadAt(g, x);
    }
  }

  lemma WidenedWhole(g: Graph, r: Graph, n: nat)
    requires Widened(g, r) && Whole(g, n)
    ensures Whole(r, n)
  {
    WidenedSame(g, r);
    hide Widened;
    assert SameBelow(g, n, r);
    SameBelowWhole(g, n, r);
  }

  lemma WidenedSettled(g: Graph, blocked: set<nat>, o: Order, r: Graph)
    requires Widened(g, r) && HeldAllOk(g, blocked, Settled(g, blocked)) && InvAt(Settled(g, blocked), o)
    ensures InvAt(Settled(r, blocked), o) && HeldAllOk(r, blocked, Settled(r, blocked))
  {
    hide InvAt, Settled, Widened, HeldAllOk, RefsInside, Closed, Started, Positioned;
    var w, v := Settled(g, blocked), Settled(r, blocked);
    WidenedSame(g, r);
    NotBlocked(g, blocked, w);
    SettledAt(g, blocked);
    SettledAt(r, blocked);
    assert forall x :: In(v, x) <==> In(w, x);
    assert forall x :: In(w, x) ==> L(v, x) == L(w, x);
    InvRefs(w, o);
    SameClosed(w, v);
    PartInv(v, w, o);
    WidenedHeld(g, blocked, w, r, v);
  }

  lemma InvRefs(w: Graph, o: Order)
    requires InvAt(w, o)
    ensures RefsInside(w) && Started(w) && Positioned(w) && In(w, Initializer)
  {
    InvParts(w, o);
    hide InvAt;
    CausalReady(w, o);
  }

  lemma NotBlocked(g: Graph, blocked: set<nat>, w: Graph)
    requires HeldAllOk(g, blocked, w)
    ensures |g| !in blocked
  {}

  lemma WidenedHeld(g: Graph, blocked: set<nat>, w: Graph, r: Graph, v: Graph)
    requires HeldAllOk(g, blocked, w) && |r| == |g| + 1 && forall t :: 0 <= t < |g| ==> r[t] == g[t]
    requires (forall x :: In(r, x) <==> In(g, x)) && forall x :: In(g, x) ==> L(r, x) == L(g, x)
    requires (forall x :: In(v, x) <==> In(w, x)) && forall x :: In(w, x) ==> L(v, x) == L(w, x)
    ensures HeldAllOk(r, blocked, v)
  {
    forall t | t in blocked ensures HeldOk(r, v, t) {
      assert HeldOk(g, w, t);
      var x := Event(t, |g[t]| - 1);
      assert L(r, x) == L(g, x);
      if x.index >= 1 {
        hide HeldAllOk, BaseOk, PpoSourced;
        SameBase(w, v, x, L(g, x).ppo);
      }
    }
  }

  lemma SameClosed(w: Graph, v: Graph)
    requires RefsInside(w) && (forall x :: In(v, x) <==> In(w, x)) && forall x :: In(w, x) ==> L(v, x) == L(w, x)
    ensures Closed(v, w)
  {}

  lemma SameBase(w: Graph, v: Graph, x: Event, c: Clock)
    requires (forall y :: In(v, y) <==> In(w, y)) && forall y :: In(w, y) ==> L(v, y) == L(w, y)
    requires BaseOk(w, x, c) && PpoSourced(w, x, c)
    ensures BaseOk(v, x, c) && PpoSourced(v, x, c)
  {
    forall a | c.Has(a) && a != x ensures ThroughThread(v, x, c, a) {
      assert ThroughThread(w, x, c, a);
      var q :| In(w, q) && Before(q, x) && (q.index == 0 || c.Has(q)) && (a == q || CHas(w, q, a));
      assert In(v, q);
    }
    hide LaterIn, ThroughThread;
  }

  // ----- appending -----

  /** The settled graph grows by the same label. */
  lemma SettledGrows(g: Graph, blocked: set<nat>, lab: Label, h: Graph)
    requires OneMore(g, lab, h) && lab.pos.thread !in blocked
    ensures Extends(Settled(g, blocked), lab, Settled(h, blocked))
  {
    var w, w' := Settled(g, blocked), Settled(h, blocked);
    SettledAt(g, blocked);
    SettledAt(h, blocked);
    forall x | In(h, x) && x != lab.pos ensures IsHeld(h, blocked, x) <==> IsHeld(g, blocked, x) {}
    hide Settled;
    forall x | In(w, x) ensures Core(L(w', x)) == Core(L(w, x)) {
      assert In(h, x) && L(h, x) == L(g, x).(readers := L(h, x).readers);
    }
  }

  lemma PlacedOneMore(g: Graph, lab: Label)
    requires Limit(g, lab.pos) && lab.pos.index == |g[lab.pos.thread]| && (lab.IsRead() ==> lab.rf != lab.pos)
    ensures OneMore(g, lab, Placed(g, lab))
  {
    PlacedFields(g, lab);
  }

  lemma OneMoreHeld(g: Graph, blocked: set<nat>, w: Graph, lab: Label, h: Graph, w': Graph)
    requires HeldAllOk(g, blocked, w) && Extends(w, lab, w') && OneMore(g, lab, h) && lab.pos.thread !in blocked
    requires In(g, Initializer)
    requires lab.kind.ThreadCreate? ==> forall t :: t in blocked && t < |g| && |g[t]| > 0 ==>
                 g[t][0].kind != ThreadStart(lab.pos)
    ensures HeldAllOk(h, blocked, w')
  {
    forall t | t in blocked && t < |g|
      ensures |h[t]| == |g[t]| && (|g[t]| > 0 ==> h[t][|g[t]| - 1] == g[t][|g[t]| - 1])
    {
      if |g[t]| > 0 {
        var x := Event(t, |g[t]| - 1);
        assert HeldOk(g, w, t);
        assert In(h, x) && L(h, x) == L(g, x);
      }
    }
    forall c | CreatorRef(h, c) && !CreatorRef(g, c) ensures c == lab.pos && lab.kind.ThreadCreate? {
      assert c != Initializer && In(h, c);
    }
    HeldGrows(g, blocked, w, lab, h, w');
  }

  /** A label that does not block its thread. */
  lemma AppendSettled(g: Graph, blocked: set<nat>, o: Order, lab0: Label, deps: EventDeps, lab: Label)
    requires HeldAllOk(g, blocked, Settled(g, blocked)) && InvAt(Settled(g, blocked), o) && FinishesLast(g)
    requires Viewable(g, lab0, deps) && ViewsComputed(g, lab0, deps, lab) && !lab.kind.ThreadJoin?
    requires lab.pos.thread !in blocked
    ensures Addable(g, lab.pos)
    ensures var w' := Settled(Placed(g, lab), blocked);
            Extends(Settled(g, blocked), lab, w') && InvAt(w', o.Then(lab.pos))
  {
    ComputedShape(g, lab0, deps, lab);
    ViewableShape(g, lab0, deps);
    var h, w := Placed(g, lab), Settled(g, blocked);
    InvRefs(w, o);
    hide Viewable, ViewsComputed, InvAt, HeldAllOk, FinishesLast, Placed, Settled, Extends, OneMore, Shows, RefsInside,
         Started;
    SettledShows(g, blocked, lab.pos.thread);
    ComputedShown(g, w, lab0, deps, lab);
    PlacedOneMore(g, lab);
    SettledGrows(g, blocked, lab, h);
    ComputedExtends(w, o, lab0, deps, lab, Settled(h, blocked));
  }

  lemma AppendOther(g: Graph, blocked: set<nat>, o: Order, lab0: Label, deps: EventDeps, lab: Label)
    requires HeldAllOk(g, blocked, Settled(g, blocked)) && InvAt(Settled(g, blocked), o) && FinishesLast(g)
    requires Viewable(g, lab0, deps) && ViewsComputed(g, lab0, deps, lab) && !lab.kind.ThreadJoin?
    requires lab.pos.thread !in blocked
    requires lab.kind.ThreadCreate? ==> Unclaimed(g, lab.pos)
    ensures Addable(g, lab.pos)
    ensures var h := Placed(g, lab);
            HeldAllOk(h, blocked, Settled(h, blocked)) && InvAt(Settled(h, blocked), o.Then(lab.pos))
  {
    ComputedShape(g, lab0, deps, lab);
    ViewableShape(g, lab0, deps);
    hide Viewable, ViewsComputed, InvAt, HeldAllOk, FinishesLast, Placed, Settled, Extends, OneMore;
    AppendSettled(g, blocked, o, lab0, deps, lab);
    PlacedOneMore(g, lab);
    MainStillBegun(g, blocked, o);
    OneMoreHeld(g, blocked, Settled(g, blocked), lab, Placed(g, lab), Settled(Placed(g, lab), blocked));
  }

  /** A join leaves the settled graph as it is: its thread is blocked. */
  lemma AppendJoin(g: Graph, blocked: set<nat>, o: Order, lab0: Label, deps: EventDeps, lab: Label)
    requires HeldAllOk(g, blocked, Settled(g, blocked)) && InvAt(Settled(g, blocked), o) && FinishesLast(g)
    requires Viewable(g, lab0, deps) && ViewsComputed(g, lab0, deps, lab) && lab.kind.ThreadJoin?
    requires lab.pos.thread !in blocked
    ensures Addable(g, lab.pos)
    ensures var h, b := Placed(g, lab), BlockedBy(blocked, lab);
            HeldAllOk(h, b, Settled(h, b)) && InvAt(Settled(h, b), o)
  {
    ComputedShape(g, lab0, deps, lab);
    ViewableShape(g, lab0, deps);
    hide Viewable, ViewsComputed, InvAt, Settled, HeldAllOk, OneMore, BaseOk, PpoSourced;
    PlacedOneMore(g, lab);
    SettledSame(g, blocked, lab, Placed(g, lab));
    JoinHeld(g, blocked, o, lab0, deps, lab);
    MainStillBegun(g, blocked, o);
    JoinHeldAll(g, blocked, Settled(g, blocked), lab, Placed(g, lab));
  }

  lemma JoinHeldAll(g: Graph, blocked: set<nat>, w: Graph, lab: Label, h: Graph)
    requires HeldAllOk(g, blocked, w) && OneMore(g, lab, h) && lab.kind.ThreadJoin? && lab.pos.index > 0
    requires In(g, Initializer)
    requires WfOrdering(lab) && lab.ppo.Wf() && lab.ppo.Tight() && BaseOk(w, lab.pos, lab.ppo)
    requires PpoSourced(w, lab.pos, lab.ppo)
    ensures HeldAllOk(h, BlockedBy(blocked, lab), w)
  {
    hide BaseOk, PpoSourced, WfOrdering;
    forall c | CreatorRef(h, c) ensures CreatorRef(g, c) {}
    forall t | t in BlockedBy(blocked, lab) ensures HeldOk(h, w, t) {
      if t == lab.pos.thread {
        assert h[t][|h[t]| - 1] == L(h, lab.pos);
      } else {
        var x := Event(t, |g[t]| - 1);
        assert HeldOk(g, w, t);
        assert In(h, x) && L(h, x) == L(g, x);
      }
    }
  }

  lemma SettledSame(g: Graph, blocked: set<nat>, lab: Label, h: Graph)
    requires OneMore(g, lab, h) && lab.pos.thread !in blocked && lab.kind.ThreadJoin? && h == AddLabel(g, lab)
    ensures Settled(h, BlockedBy(blocked, lab)) == Settled(g, blocked)
  {
    var b := BlockedBy(blocked, lab);
    forall t | 0 <= t < |g| ensures Settled(h, b)[t] == Settled(g, blocked)[t] {
      if t == lab.pos.thread { assert (g[t] + [lab])[..|g[t]|] == g[t]; }
    }
  }

  /** The ppo view of a new join can be built on. */
  lemma JoinHeld(g: Graph, blocked: set<nat>, o: Order, lab0: Label, deps: EventDeps, lab: Label)
    requires HeldAllOk(g, blocked, Settled(g, blocked)) && InvAt(Settled(g, blocked), o) && FinishesLast(g)
    requires Viewable(g, lab0, deps) && ViewsComputed(g, lab0, deps, lab) && lab.kind.ThreadJoin?
    requires lab.pos.thread !in blocked
    ensures BaseOk(Settled(g, blocked), lab.pos, lab.ppo) && PpoSourced(Settled(g, blocked), lab.pos, lab.ppo)
  {
    var w := Settled(g, blocked);
    hide InvAt, HeldAllOk, FinishesLast, Settled, Shows, Causal, HbInv, Sourced, RfKnown, RfOrdered, OrderingsFixed,
         RefsInside, Started, SelfContained, StartsBare, Ranked, BaseOk, PpoSourced, PporfComputed, HbComputed,
         MsgComputed, ClocksInGraph, ViewsInGraph, Anchored, ReadsInside, CausallyClosed, FromPpo, WfDeps, Ready,
         Positioned;
    InvParts(w, o);
    CausalReady(w, o);
    ViewableShape(g, lab0, deps);
    CausalBits(w, o);
    SettledShows(g, blocked, lab.pos.thread);
    ComputedShown(g, w, lab0, deps, lab);
    PpoBaseOk(w, lab.pos, deps, lab.ppo);
    PpoComputedSourced(w, lab.pos, deps, lab.ppo);
  }

  lemma CausalBits(g: Graph, o: Order)
    requires Causal(g, o)
    ensures ClocksInGraph(g) && Anchored(g) && ReadsInside(g) && CausallyClosed(g)
  {}

  lemma AppendKeeps(s: State, lab0: Label, deps: EventDeps, lab: Label, s': State)
    requires Inv(s) && AppendStep(s, lab0, deps, lab, s')
    ensures Inv(s')
  {
    hide Inv, AppendStep, Viewable, ViewsComputed, InvAt, HeldAllOk, Placed, Settled, Whole, RfInverse, Roomy,
         Unclaimed, BlockedBy, WfOrdering, Stamped, FinishesLast, JoinChildren, BeginsDistinct, Newest, GraphOk, Issued;
    var r := Roomy(s.graph, lab0);
    AppendStepShape(s, lab0, deps, lab, s');
    ComputedShape(r, lab0, deps, lab);
    ViewableShape(r, lab0, deps);
    var o := InvOrder(s);
    RoomyOk(s, o, lab0);
    assert lab.kind.ThreadStart? ==> Unclaimed(r, lab.kind.parentCreate);
    AppendedSettled(s, r, o, lab0, deps, lab, s');
    AppendedGraph(s, r, lab, s');
    var o' :| InvAt(Settled(s'.graph, s'.blocked), o');
    AppendedWholes(s, r, o, o', lab, s');
    InvHolds(s', o');
  }

  lemma AppendStepShape(s: State, lab0: Label, deps: EventDeps, lab: Label, s': State)
    requires AppendStep(s, lab0, deps, lab, s')
    ensures var r := Roomy(s.graph, lab0);
            && Viewable(r, lab0, deps) && ViewsComputed(r, lab0, deps, lab) && Issued(s, lab0) && Addable(r, lab.pos)
            && s'.graph == Placed(r, lab) && s'.blocked == BlockedBy(s.blocked, lab0) && s'.shut == s.shut
    ensures lab0.kind.ThreadCreate? ==> Unclaimed(s.graph, lab0.pos)
    ensures lab0.kind.ThreadStart? ==> Unclaimed(s.graph, lab0.kind.parentCreate)
    ensures lab0.kind.ThreadJoin? ==> lab0.kind.childLast == Initializer
    ensures lab0.kind.ThreadFinish? ==> lab0.kind.parentJoin == Initializer
  {}

  lemma InvOrder(s: State) returns (o: Order)
    requires Inv(s)
    ensures InvAt(Settled(s.graph, s.blocked), o)
    ensures GraphOk(s.graph) && HeldAllOk(s.graph, s.blocked, Settled(s.graph, s.blocked))
    ensures forall n: nat :: n !in s.shut ==> Whole(s.graph, n)
  {
    hide InvAt, GraphOk, HeldAllOk, Whole;
    o :| InvAt(Settled(s.graph, s.blocked), o);
  }

  lemma InvHolds(s: State, o: Order)
    requires GraphOk(s.graph) && HeldAllOk(s.graph, s.blocked, Settled(s.graph, s.blocked))
    requires InvAt(Settled(s.graph, s.blocked), o) && forall n: nat :: n !in s.shut ==> Whole(s.graph, n)
    ensures Inv(s)
  {}

  lemma AppendedSettled(s: State, r: Graph, o: Order, lab0: Label, deps: EventDeps, lab: Label, s': State)
    requires HeldAllOk(r, s.blocked, Settled(r, s.blocked)) && InvAt(Settled(r, s.blocked), o) && FinishesLast(r)
    requires Viewable(r, lab0, deps) && ViewsComputed(r, lab0, deps, lab) && lab.pos.thread !in s.blocked
    requires Addable(r, lab.pos)
    requires lab.kind == lab0.kind && lab.pos == lab0.pos && (lab.kind.ThreadCreate? ==> Unclaimed(r, lab.pos))
    requires s'.graph == Placed(r, lab) && s'.blocked == BlockedBy(s.blocked, lab0)
    ensures HeldAllOk(s'.graph, s'.blocked, Settled(s'.graph, s'.blocked))
    ensures exists o' :: InvAt(Settled(s'.graph, s'.blocked), o')
  {
    hide InvAt, HeldAllOk, Settled, Placed, FinishesLast, Viewable, ViewsComputed, Unclaimed;
    if lab.kind.ThreadJoin? {
      AppendJoin(r, s.blocked, o, lab0, deps, lab);
    } else {
      AppendOther(r, s.blocked, o, lab0, deps, lab);
    }
  }

  /** What the graph, with room for the label, offers it. */
  ghost predicate Receives(s: State, o: Order, lab: Label, r: Graph) {
    && InvAt(Settled(r, s.blocked), o) && HeldAllOk(r, s.blocked, Settled(r, s.blocked))
    && RfInverse(r) && Stamped(r) && FinishesLast(r) && JoinChildren(r) && BeginsDistinct(r)
    && (forall n: nat :: n !in s.shut ==> Whole(r, n))
    && (forall t :: 0 <= t < |r| && t != lab.pos.thread ==> |r[t]| > 0)
    && Newest(r, lab.stamp) && lab.pos.thread !in s.blocked
    && (forall c :: Unclaimed(s.graph, c) ==> Unclaimed(r, c))
    && (lab.pos.index > 0 ==> In(r, lab.pos.Prev()) && !L(r, lab.pos.Prev()).kind.ThreadFinish?)
  }

  lemma RoomyOk(s: State, o: Order, lab: Label)
    requires Inv(s) && InvAt(Settled(s.graph, s.blocked), o) && Issued(s, lab) && lab.pos.thread >= 0
    requires lab.kind.ThreadStart? <==> lab.pos.index == 0
    requires var r := Roomy(s.graph, lab); Limit(r, lab.pos) && lab.pos.index == |r[lab.pos.thread]|
    ensures Receives(s, o, lab, Roomy(s.graph, lab))
  {
    var g, r := s.graph, Roomy(s.graph, lab);
    hide InvAt, Settled, Whole, RfInverse;
    if lab.kind.ThreadStart? {
      assert lab.pos.thread == |g|;
      NotBlocked(g, s.blocked, Settled(g, s.blocked));
      hide HeldAllOk;
      WidenedSame(g, r);
      WidenedSettled(g, s.blocked, o, r);
      WidenedGraph(g, r);
      forall n: nat | n !in s.shut ensures Whole(r, n) { WidenedWhole(g, r, n); }
    }
  }

  lemma AppendedGraph(s: State, r: Graph, lab: Label, s': State)
    requires Addable(r, lab.pos) && s'.graph == Placed(r, lab)
    requires RfInverse(r) && Stamped(r) && FinishesLast(r) && JoinChildren(r) && BeginsDistinct(r)
    requires forall t :: 0 <= t < |r| && t != lab.pos.thread ==> |r[t]| > 0
    requires Newest(r, lab.stamp) && Limit(r, lab.pos) && lab.pos.index == |r[lab.pos.thread]|
    requires lab.readers == [] && !lab.kind.Absent? && (lab.kind.ThreadStart? <==> lab.pos.index == 0)
    requires lab.IsRead() ==> (lab.rf == Bottom || RfTarget(r, lab.rf)) && lab.rf != lab.pos
    requires lab.pos.index > 0 ==> In(r, lab.pos.Prev()) && !L(r, lab.pos.Prev()).kind.ThreadFinish?
    requires lab.kind.ThreadJoin? ==> lab.kind.childLast == Initializer
    requires lab.kind.ThreadStart? ==> Unclaimed(r, lab.kind.parentCreate)
    ensures GraphOk(s'.graph)
  {
    PlacedGraphOk(r, lab);
  }

  /** A running thread goes on from a label whose references are there. */
  lemma RunsOn(g: Graph, blocked: set<nat>, o: Order, x: Event)
    requires InvAt(Settled(g, blocked), o) && In(g, x) && x.thread !in blocked
    ensures Firm(g, x)
  {
    var w := Settled(g, blocked);
    InvRefs(w, o);
    SettledLabel(g, blocked, x);
    SettledAt(g, blocked);
    hide InvAt, Settled, RefsInside;
    RefsAt(w, x);
  }

  lemma AppendedWholes(s: State, r: Graph, o0: Order, o: Order, lab: Label, s': State)
    requires InvAt(Settled(r, s.blocked), o0) && lab.pos.thread !in s.blocked
    requires Limit(r, lab.pos) && lab.pos.index == |r[lab.pos.thread]| && s'.graph == Placed(r, lab)
    requires s'.shut == s.shut
    requires forall n: nat :: n !in s.shut ==> Whole(r, n)
    requires Newest(r, lab.stamp) && (lab.IsRead() ==> lab.rf != lab.pos)
    requires GraphOk(s'.graph) && HeldAllOk(s'.graph, s'.blocked, Settled(s'.graph, s'.blocked))
    requires InvAt(Settled(s'.graph, s'.blocked), o)
    requires lab.kind.ThreadStart? <==> lab.pos.index == 0
    requires lab.kind.ThreadFinish? ==> lab.kind.parentJoin == Initializer
    ensures forall n: nat :: n !in s'.shut ==> Whole(s'.graph, n)
  {
    hide OneMore, Firm, Placed, Whole, Intact, GraphOk, HeldAllOk, InvAt, Newest, RefsAdded, Settled;
    InvIntact(s'.graph, s'.blocked, o);
    PlacedOneMore(r, lab);
    MainStillBegun(s'.graph, s'.blocked, o);
    OneMoreRefs(r, lab, s'.graph);
    if lab.pos.index > 0 { PrevThere(r, lab.pos); RunsOn(r, s.blocked, o0, lab.pos.Prev()); }
    forall n: nat | n !in s'.shut ensures Whole(s'.graph, n) { WholeAdded(r, lab, s'.graph, n); }
  }

  lemma PrevThere(g: Graph, e: Event)
    requires Limit(g, e) && e.index > 0
    ensures In(g, e.Prev())
  {}

  lemma MainStillBegun(g: Graph, blocked: set<nat>, o: Order)
    requires InvAt(Settled(g, blocked), o)
    ensures In(g, Initializer) && L(g, Initializer).kind.ThreadStart?
  {
    InvParts(Settled(g, blocked), o);
    hide InvAt;
    SettledAt(g, blocked);
  }

  // ----- threads created again -----

  /** The begin brought up to date fits the settled graph, in which its thread is empty. */
  lemma BeginRebuilt(w: Graph, o: Order, lab: Label, h: Graph)
    requires InvAt(w, o) && lab.kind.ThreadStart? && lab.pos.index == 0 && lab.ppo == EmptyClock && WfOrdering(lab)
    requires var c := lab.kind.parentCreate; In(w, c) && L(w, c).kind.ThreadCreate?
    requires lab.pporf.Wf() && lab.pporf.Tight() && forall a :: lab.pporf.Has(a) <==> CHas(w, lab.kind.parentCreate, a)
    requires lab.hb.At(lab.pos.thread) == 0 && forall a :: lab.hb.Has(a) <==> HbHas(w, lab.kind.parentCreate, a)
    requires Extends(w, lab, h) && lab.pos.index == |w[lab.pos.thread]|
    ensures InvAt(h, o.Then(lab.pos))
  {
    hide InvAt, Causal, HbInv, Sourced, RfKnown, RfOrdered, OrderingsFixed, Extends, Fits, FitsViews, FitsRefs, HbFits,
         MsgFits, SourcedLabel, ClocksInGraph, ViewsInGraph, RefsInside, Ranked, StartsBare, WfOrdering;
    ExtendsLimit(w, lab, h);
    InvParts(w, o);
    CausalReady(w, o);
    StartFits(w, o, lab);
    StartSourced(w, lab);
    StartHbFits(w, lab);
    assert MsgFits(w, lab) by { SendsNothing(w, lab); }
    FitsViewsFrom(w, lab);
    assert FitsRefs(w, lab) by { StartRefsFit(w, lab); }
    ExtendInv(w, o, lab, h);
  }

  lemma ExtendsLimit(g: Graph, lab: Label, h: Graph)
    requires Extends(g, lab, h)
    ensures Limit(g, lab.pos)
  {}

  lemma StartHbFits(g: Graph, lab: Label)
    requires lab.kind.ThreadStart? && lab.pos.index == 0 && In(g, lab.kind.parentCreate)
    requires forall a :: lab.hb.Has(a) <==> HbHas(g, lab.kind.parentCreate, a)
    ensures HbFits(g, lab)
  {
    assert EdgeInto(g, lab.kind.parentCreate, lab);
  }

  lemma SendsNothing(g: Graph, lab: Label)
    requires !lab.IsWrite() && Limit(g, lab.pos)
    ensures MsgFits(g, lab)
  {}

  lemma StartRefsFit(g: Graph, lab: Label)
    requires lab.kind.ThreadStart? && lab.pos.index == 0 && CreatorRef(g, lab.kind.parentCreate)
    ensures FitsRefs(g, lab)
  {}

  /** What a creation added again leaves, views apart. */
  ghost predicate Recreated(s: State, lab: Label, t: nat, begin: Label, h: Graph, s': State) {
    var g, e := s.graph, Event(t, 0);
    && OneMore(g, lab, h) && lab.kind.ThreadCreate? && lab.pos.index > 0 && lab.readers == []
    && lab.pos.thread !in s.blocked
    && t in s.blocked && t < |g| && |g[t]| == 1 && g[t][0].kind == ThreadStart(lab.pos)
    && In(h, e) && In(g, e) && L(h, e) == L(g, e)
    && StartRecomputed(h, L(g, e), lab.pos, begin) && begin == L(g, e).(hb := begin.hb, pporf := begin.pporf)
    && s' == State(Set(h, e, begin), Drop(s.blocked, t), s.shut)
  }

  lemma RecreateShape(s: State, lab0: Label, deps: EventDeps, t: nat, lab: Label, begin: Label, s': State)
    requires RecreateStep(s, lab0, deps, t, lab, begin, s')
    ensures Viewable(s.graph, lab0, deps) && ViewsComputed(s.graph, lab0, deps, lab) && Issued(s, lab0)
    ensures Addable(s.graph, lab.pos) && Recreated(s, lab, t, begin, AddLabel(s.graph, lab), s')
    ensures lab.stamp == lab0.stamp && lab.pos == lab0.pos && lab.pos.index > 0
  {
    ComputedShape(s.graph, lab0, deps, lab);
    ViewableShape(s.graph, lab0, deps);
    assert lab.pos.thread !in s.blocked;
    hide Viewable, ViewsComputed, WfOrdering, Issued, StartRecomputed;
    PlacedOneMore(s.graph, lab);
    RebornShape(s, lab, t, begin, AddLabel(s.graph, lab), s');
  }

  lemma RebornShape(s: State, lab: Label, t: nat, begin: Label, h: Graph, s': State)
    requires OneMore(s.graph, lab, h) && lab.kind.ThreadCreate? && lab.pos.index > 0 && lab.readers == []
    requires lab.pos.thread !in s.blocked
    requires t in s.blocked && t < |s.graph| && |s.graph[t]| == 1 && s.graph[t][0].kind == ThreadStart(lab.pos)
    requires In(h, Event(t, 0)) && StartRecomputed(h, L(h, Event(t, 0)), lab.pos, begin)
    requires s' == State(Set(h, Event(t, 0), begin), Drop(s.blocked, t), s.shut)
    ensures Recreated(s, lab, t, begin, h, s')
  {
    assert In(s.graph, Event(t, 0)) && Event(t, 0) != lab.pos;
  }

  /** The begin of the thread, and what is left of the others. */
  ghost predicate Reborn(s: State, lab: Label, t: nat, begin: Label, h: Graph, s': State) {
    && OneMore(s.graph, lab, h) && lab.pos.thread !in s.blocked
    && t in s.blocked && t < |s.graph| && |s.graph[t]| == 1 && s.graph[t][0].kind == ThreadStart(lab.pos)
    && In(h, Event(t, 0)) && In(s.graph, Event(t, 0))
    && StartRecomputed(h, L(s.graph, Event(t, 0)), lab.pos, begin)
    && begin == L(s.graph, Event(t, 0)).(hb := begin.hb, pporf := begin.pporf)
    && s'.graph == Set(h, Event(t, 0), begin) && s'.blocked == Drop(s.blocked, t)
  }

  lemma RecreateInv(s: State, o: Order, lab0: Label, deps: EventDeps, t: nat, lab: Label, begin: Label, s': State)
    requires GraphOk(s.graph) && HeldAllOk(s.graph, s.blocked, Settled(s.graph, s.blocked))
    requires InvAt(Settled(s.graph, s.blocked), o)
    requires Viewable(s.graph, lab0, deps) && ViewsComputed(s.graph, lab0, deps, lab) && Addable(s.graph, lab.pos)
    requires Recreated(s, lab, t, begin, AddLabel(s.graph, lab), s')
    ensures InvAt(Settled(s'.graph, s'.blocked), o.Then(lab.pos).Then(Event(t, 0)))
    ensures HeldAllOk(s'.graph, s'.blocked, Settled(s'.graph, s'.blocked))
  {
    var g, h := s.graph, AddLabel(s.graph, lab);
    hide GraphOk, Viewable, ViewsComputed, InvAt, HeldAllOk, Settled, Extends, AddLabel, FinishesLast, Placed,
         BeginsDistinct, JoinChildren, Recreated, Reborn;
    RecreatedReborn(s, lab, t, begin, h, s');
    GraphThreads(g);
    CreatePlaced(g, lab);
    AppendSettled(g, s.blocked, o, lab0, deps, lab);
    MainStillBegun(g, s.blocked, o);
    RebornInv(s, o.Then(lab.pos), lab, t, begin, h, s');
  }

  lemma RecreatedReborn(s: State, lab: Label, t: nat, begin: Label, h: Graph, s': State)
    requires Recreated(s, lab, t, begin, h, s')
    ensures Reborn(s, lab, t, begin, h, s') && lab.kind.ThreadCreate?
  {}

  lemma RebornInv(s: State, o: Order, lab: Label, t: nat, begin: Label, h: Graph, s': State)
    requires Reborn(s, lab, t, begin, h, s') && lab.kind.ThreadCreate? && In(s.graph, Initializer)
    requires var w := Settled(s.graph, s.blocked); HeldAllOk(s.graph, s.blocked, w) && BeginsDistinct(s.graph)
    requires InvAt(Settled(h, s.blocked), o) && Extends(Settled(s.graph, s.blocked), lab, Settled(h, s.blocked))
    ensures InvAt(Settled(s'.graph, s'.blocked), o.Then(Event(t, 0)))
    ensures HeldAllOk(s'.graph, s'.blocked, Settled(s'.graph, s'.blocked))
  {
    hide InvAt, HeldAllOk, Settled, Extends, WfOrdering, StartRecomputed, OneMore, Set, BeginsDistinct;
    BeginHeld(s.graph, s.blocked, Settled(s.graph, s.blocked), t);
    OrderingSame(L(s.graph, Event(t, 0)), begin);
    RebornSettled(s, lab, t, begin, h, s');
    RebornViews(s, lab, t, begin, h);
    RebornHeld(s, Settled(s.graph, s.blocked), lab, t, begin, h, s', Settled(h, s.blocked));
    BeginRebuilt(Settled(h, s.blocked), o, begin, Settled(s'.graph, s'.blocked));
  }

  lemma OrderingSame(l: Label, m: Label)
    requires WfOrdering(l) && l.kind == m.kind && l.ord == m.ord
    ensures WfOrdering(m)
  {}

  lemma GraphThreads(g: Graph)
    requires GraphOk(g)
    ensures Begun(g) && FinishesLast(g) && JoinChildren(g) && BeginsDistinct(g)
  {}

  lemma CreatePlaced(g: Graph, lab: Label)
    requires Addable(g, lab.pos) && lab.kind.ThreadCreate?
    ensures Placed(g, lab) == AddLabel(g, lab)
  {}

  lemma BeginHeld(g: Graph, blocked: set<nat>, w: Graph, t: nat)
    requires HeldAllOk(g, blocked, w) && t in blocked && t < |g| && |g[t]| == 1
    ensures var l := L(g, Event(t, 0));
                l.pos == Event(t, 0) && WfOrdering(l) && l.kind.ThreadStart? && l.ppo == EmptyClock
  {
    assert HeldOk(g, w, t);
  }

  lemma RebornSettled(s: State, lab: Label, t: nat, begin: Label, h: Graph, s': State)
    requires OneMore(s.graph, lab, h) && t in s.blocked && t < |s.graph| && |s.graph[t]| == 1
    requires lab.pos.thread !in s.blocked
    requires In(h, Event(t, 0)) && begin.pos == Event(t, 0)
    requires s'.graph == Set(h, Event(t, 0), begin) && s'.blocked == Drop(s.blocked, t)
    ensures Extends(Settled(h, s.blocked), begin, Settled(s'.graph, s'.blocked))
    ensures |Settled(h, s.blocked)[t]| == 0 && In(Settled(h, s.blocked), lab.pos)
    ensures L(Settled(h, s.blocked), lab.pos) == lab
  {
    SetAt(h, Event(t, 0), begin);
    SettledAt(h, s.blocked);
    SettledAt(s'.graph, s'.blocked);
    var w1, w2 := Settled(h, s.blocked), Settled(s'.graph, s'.blocked);
    hide Settled, Set;
    forall x ensures In(w2, x) <==> In(w1, x) || x == Event(t, 0) {
      if In(h, x) && x != Event(t, 0) { assert IsHeld(s'.graph, s'.blocked, x) <==> IsHeld(h, s.blocked, x); }
    }
    SettledLabel(h, s.blocked, lab.pos);
  }

  lemma RebornViews(s: State, lab: Label, t: nat, begin: Label, h: Graph)
    requires OneMore(s.graph, lab, h) && t < |s.graph| && lab.pos.thread !in s.blocked && In(s.graph, Event(t, 0))
    requires StartRecomputed(h, L(s.graph, Event(t, 0)), lab.pos, begin) && L(s.graph, Event(t, 0)).pos == Event(t, 0)
    ensures begin.pporf.Wf() && begin.pporf.Tight() && begin.hb.At(t) == 0
    ensures var w1 := Settled(h, s.blocked);
            forall a :: (begin.pporf.Has(a) <==> CHas(w1, lab.pos, a)) && (begin.hb.Has(a) <==> HbHas(w1, lab.pos, a))
  {
    SettledLabel(h, s.blocked, lab.pos);
  }

  lemma RebornHeld(s: State, w: Graph, lab: Label, t: nat, begin: Label, h: Graph, s': State, w1: Graph)
    requires HeldAllOk(s.graph, s.blocked, w) && Extends(w, lab, w1) && OneMore(s.graph, lab, h)
    requires BeginsDistinct(s.graph)
    requires t in s.blocked && t < |s.graph| && |s.graph[t]| == 1 && s.graph[t][0].kind == ThreadStart(lab.pos)
    requires lab.pos.thread !in s.blocked && In(h, Event(t, 0)) && begin.pos == Event(t, 0) && In(s.graph, Initializer)
    requires begin == L(s.graph, Event(t, 0)).(hb := begin.hb, pporf := begin.pporf)
    requires s'.graph == Set(h, Event(t, 0), begin) && s'.blocked == Drop(s.blocked, t)
    requires Extends(w1, begin, Settled(s'.graph, s'.blocked))
    ensures HeldAllOk(s'.graph, s'.blocked, Settled(s'.graph, s'.blocked))
  {
    var g, b := s.graph, s'.blocked;
    SetAt(h, Event(t, 0), begin);
    assert HeldAllOk(g, b, w);
    hide Settled, HeldAllOk, Set, Extends;
    forall u | u in b && u < |g| && |g[u]| > 0 ensures g[u][0].kind != ThreadStart(lab.pos) {}
    OneMoreHeld(g, b, w, lab, h, w1);
    forall c | CreatorRef(s'.graph, c) ensures CreatorRef(h, c) {}
    forall u | u in b && u < |h|
      ensures |s'.graph[u]| == |h[u]| && (|h[u]| > 0 ==> s'.graph[u][|h[u]| - 1] == h[u][|h[u]| - 1])
    {
      if |h[u]| > 0 {
        var x := Event(u, |h[u]| - 1);
        assert L(s'.graph, x) == L(h, x);
      }
    }
    HeldGrows(h, b, w1, begin, s'.graph, Settled(s'.graph, b));
  }

  lemma RecreateGraph(s: State, lab: Label, t: nat, begin: Label, h: Graph, s': State)
    requires GraphOk(s.graph) && Newest(s.graph, lab.stamp) && Recreated(s, lab, t, begin, h, s')
    requires h == AddLabel(s.graph, lab)
    requires Started(s.graph) && In(s.graph, lab.pos.Prev()) && !L(s.graph, lab.pos.Prev()).kind.ThreadFinish?
    ensures GraphOk(s'.graph) && RefsAdded(s.graph, lab, s'.graph)
  {
    var g, h', e := s.graph, s'.graph, Event(t, 0);
    assert h == Placed(g, lab);
    SetAt(h, e, begin);
    hide GraphOk, Placed, AddLabel, Set, StartRecomputed;
    assert GraphOk(h) by { RecreateAdded(g, lab, h); }
    BeginReplaced(h, e, begin, h');
  }

  lemma RecreateAdded(g: Graph, lab: Label, h: Graph)
    requires GraphOk(g) && Newest(g, lab.stamp) && OneMore(g, lab, h) && lab.kind.ThreadCreate? && lab.pos.index > 0
    requires lab.readers == []
    requires In(g, lab.pos.Prev()) && !L(g, lab.pos.Prev()).kind.ThreadFinish? && h == Placed(g, lab)
    ensures GraphOk(h)
  {
    PlacedGraphOk(g, lab);
  }

  lemma BeginReplaced(h: Graph, e: Event, begin: Label, h': Graph)
    requires GraphOk(h) && In(h, e) && begin == L(h, e).(hb := begin.hb, pporf := begin.pporf) && h' == Set(h, e, begin)
    ensures GraphOk(h')
  {
    SetAt(h, e, begin);
    hide Set;
    forall t | 0 <= t < |h| ensures h'[t][0].kind == h[t][0].kind {
      assert h'[t][0] == L(h', Event(t, 0)) && h[t][0] == L(h, Event(t, 0));
    }
    assert RfInverse(h') by {
      hide Stamped, FinishesLast, JoinChildren, BeginsDistinct;
      BeginReplacedInverse(h, e, begin, h');
    }
  }

  lemma BeginReplacedInverse(h: Graph, e: Event, begin: Label, h': Graph)
    requires RfInverse(h) && In(h, e) && begin == L(h, e).(hb := begin.hb, pporf := begin.pporf)
    requires (forall x :: In(h', x) <==> In(h, x)) && forall x :: In(h, x) ==>
                 L(h', x) == if x == e then begin else L(h, x)
    ensures RfInverse(h')
  {
    forall x | IsReadAt(h', x) && L(h', x).rf != Bottom
      ensures RfTarget(h', L(h', x).rf) && (IsWriteAt(h', L(h', x).rf) ==> x in L(h', L(h', x).rf).readers)
    {
      assert IsReadAt(h, x);
    }
    forall w, r | IsWriteAt(h', w) && r in L(h', w).readers ensures IsReadAt(h', r) && L(h', r).rf == w {
      assert IsWriteAt(h, w) && IsReadAt(h, r);
    }
  }

  lemma RecreateKeeps(s: State, lab0: Label, deps: EventDeps, t: nat, lab: Label, begin: Label, s': State)
    requires Inv(s) && RecreateStep(s, lab0, deps, t, lab, begin, s')
    ensures Inv(s')
  {
    var g := s.graph;
    hide Inv, RecreateStep, GraphOk, Viewable, ViewsComputed, InvAt, HeldAllOk, Settled, AddLabel, Whole, Recreated,
         RefsAdded, Intact;
    RecreateShape(s, lab0, deps, t, lab, begin, s');
    var o := InvOrder(s);
    RecreateInv(s, o, lab0, deps, t, lab, begin, s');
    RecreateWholes(s, o, lab, t, begin, s');
    InvHolds(s', o.Then(lab.pos).Then(Event(t, 0)));
  }

  lemma RecreateWholes(s: State, o: Order, lab: Label, t: nat, begin: Label, s': State)
    requires GraphOk(s.graph) && HeldAllOk(s.graph, s.blocked, Settled(s.graph, s.blocked))
    requires InvAt(Settled(s.graph, s.blocked), o)
    requires Addable(s.graph, lab.pos) && Recreated(s, lab, t, begin, AddLabel(s.graph, lab), s')
    requires Newest(s.graph, lab.stamp) && In(s.graph, lab.pos.Prev()) && !L(s.graph, lab.pos.Prev()).kind.ThreadFinish?
    requires InvAt(Settled(s'.graph, s'.blocked), o.Then(lab.pos).Then(Event(t, 0)))
    requires HeldAllOk(s'.graph, s'.blocked, Settled(s'.graph, s'.blocked))
    requires forall n: nat :: n !in s.shut ==> Whole(s.graph, n)
    ensures GraphOk(s'.graph) && forall n: nat :: n !in s'.shut ==> Whole(s'.graph, n)
  {
    var o' := o.Then(lab.pos).Then(Event(t, 0));
    assert lab.kind.ThreadCreate? && lab.pos.index > 0 && lab.pos.thread !in s.blocked && s'.shut == s.shut;
    hide GraphOk, InvAt, HeldAllOk, Settled, Whole, Recreated, RefsAdded, Intact, AddLabel;
    InvRefs(Settled(s.graph, s.blocked), o);
    hide RefsInside, Started;
    SettledStarted(s.graph, s.blocked);
    RecreateGraph(s, lab, t, begin, AddLabel(s.graph, lab), s');
    InvIntact(s'.graph, s'.blocked, o');
    MainStillBegun(s'.graph, s'.blocked, o');
    RunsOn(s.graph, s.blocked, o, lab.pos.Prev());
    hide Firm;
    forall n: nat | n !in s'.shut ensures Whole(s'.graph, n) { WholeAdded(s.graph, lab, s'.graph, n); }
  }
}
