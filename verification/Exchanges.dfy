/** A read in the middle of a thread takes another write: when the clocks of the graph stay right. */
module Exchanges {
  import opened Events
  import opened Clocks
  import opened Graphs
  import opened ImmSpec
  import opened Causality
  import opened HbExact
  import opened Restriction
  import opened Sources
  import opened Settling
  import opened Trimming
  import opened Orders

  /** q is part of w and closed under what labels refer to, but for the read e: it reads from another write there. */
  ghost predicate Swapped(q: Graph, w: Graph, e: Event) {
    && IsReadAt(q, e) && IsReadAt(w, e) && e.index >= 1
    && (forall x :: In(q, x) ==> In(w, x) && RefersInside(q, L(q, x)))
    && (forall x :: In(q, x) && x != e ==> Core(L(q, x)) == Core(L(w, x)))
    && Core(L(q, e)) == Core(L(w, e).(rf := L(q, e).rf, hb := L(q, e).hb, pporf := L(q, e).pporf))
    && IsWriteAt(q, L(q, e).rf) && L(q, e).rf.thread != e.thread
  }

  /** No other label knows e. */
  ghost predicate Unseen(q: Graph, e: Event) { forall x :: CHas(q, x, e) ==> x == e }

  lemma SwapFields(q: Graph, w: Graph, e: Event, x: Event)
    requires Swapped(q, w, e) && In(q, x)
    ensures In(w, x) && RefersInside(q, L(q, x))
    ensures var l, m := L(q, x), L(w, x);
            && l.pos == m.pos && l.ord == m.ord && l.addr == m.addr && l.ppo == m.ppo && l.msg == m.msg
            && (l.kind == m.kind || (l.kind.ThreadFinish? && m.kind.ThreadFinish?))
            && (x != e ==> l.rf == m.rf && l.hb == m.hb && l.pporf == m.pporf)
  {
    if x == e {
      CoreFields(L(q, e), L(w, e).(rf := L(q, e).rf, hb := L(q, e).hb, pporf := L(q, e).pporf));
    } else {
      CoreFields(L(q, x), L(w, x));
    }
  }

  lemma SwapContents(q: Graph, w: Graph, e: Event)
    requires Swapped(q, w, e)
    ensures forall x, a :: In(q, x) && x != e ==>
                (CHas(q, x, a) <==> CHas(w, x, a)) && (HbHas(q, x, a) <==> HbHas(w, x, a))
    ensures forall x, a :: In(q, x) ==> (PHas(q, x, a) <==> PHas(w, x, a)) && (MsgHas(q, x, a) <==> MsgHas(w, x, a))
    ensures forall x :: In(q, x) ==> In(w, x) && IsListedRelease(L(q, x)) == IsListedRelease(L(w, x)) &&
                                     KeepsPpo(L(q, x)) == KeepsPpo(L(w, x)) &&
                                     IsRecomputable(L(q, x)) == IsRecomputable(L(w, x))
    ensures forall x :: In(q, x) ==> IsAnchor(q, x) == IsAnchor(w, x) &&
                                     IsAcquireOrFence(q, x) == IsAcquireOrFence(w, x)
  {
    forall x | In(q, x)
      ensures In(w, x) && L(q, x).ppo == L(w, x).ppo && L(q, x).msg == L(w, x).msg
      ensures x != e ==> L(q, x).pporf == L(w, x).pporf && L(q, x).hb == L(w, x).hb
      ensures IsListedRelease(L(q, x)) == IsListedRelease(L(w, x)) && KeepsPpo(L(q, x)) == KeepsPpo(L(w, x))
      ensures IsRecomputable(L(q, x)) == IsRecomputable(L(w, x)) && L(q, x).IsWrite() == L(w, x).IsWrite()
      ensures IsAnchor(q, x) == IsAnchor(w, x) && IsAcquireOrFence(q, x) == IsAcquireOrFence(w, x)
    {
      SwapFields(q, w, e, x);
    }
  }

  // ----- what is kept knows only of what is kept -----

  /** The part as it was before the read took another write. */
  function Unswapped(q: Graph, w: Graph, e: Event): Graph
    requires In(q, e) && In(w, e)
  {
    Set(q, e, L(w, e))
  }

  lemma UnswappedClosed(q: Graph, w: Graph, e: Event)
    requires Swapped(q, w, e) && Unseen(q, e)
    ensures ClosedExcept(Unswapped(q, w, e), w, e) && forall x :: In(Unswapped(q, w, e), x) <==> In(q, x)
    ensures |Unswapped(q, w, e)| == |q| && forall t :: 0 <= t < |q| ==> |Unswapped(q, w, e)[t]| == |q[t]|
  {
    var p := Unswapped(q, w, e);
    SetAt(q, e, L(w, e));
    hide Unswapped, Set;
    assert forall x :: In(q, x) ==> L(p, x) == if x == e then L(w, e) else L(q, x);
    forall x | In(p, x) && x != e ensures RefersInside(p, L(p, x)) { assert RefersInside(q, L(q, x)); }
    assert forall x :: CHas(p, x, e) && x != e ==> CHas(q, x, e);
  }

  lemma Grounds(w: Graph, o: Order)
    requires InvAt(w, o)
    ensures Ordered(w, o) && RfOrdered(w, o) && RefsInside(w) && Positioned(w) && Started(w) && Sourced(w)
    ensures HbInv(w, o)
  {
    hide InvAt, Causal, HbInv, Sourced, RfKnown, RfOrdered, OrderingsFixed, RefsInside, Ordered, Started, Positioned;
    InvParts(w, o);
    CausalReady(w, o);
    CausalOrdered(w, o);
  }

  lemma SwapKnown(q: Graph, w: Graph, o: Order, e: Event, x: Event, a: Event)
    requires InvAt(w, o) && Swapped(q, w, e) && Unseen(q, e) && In(q, x) && x != e && CHas(w, x, a)
    ensures In(q, a)
  {
    hide InvAt, HbInv, Sourced, RfOrdered, Swapped, Unseen, Unswapped, ClosedExcept, RefsInside, Ordered, Started,
         Positioned;
    SwapReadIn(q, w, e);
    Grounds(w, o);
    UnswappedClosed(q, w, e);
    KnownInPart(Unswapped(q, w, e), w, e, o, x, a);
  }

  lemma SwapPpoKnown(q: Graph, w: Graph, o: Order, e: Event, x: Event, c: Clock, a: Event)
    requires InvAt(w, o) && Swapped(q, w, e) && Unseen(q, e) && Limit(q, x) && PpoSourced(w, x, c)
    requires c.Has(a) && a != x && (c.Has(e) ==> e.thread != x.thread || e.index >= x.index)
    ensures In(q, a)
  {
    hide InvAt, HbInv, Sourced, RfOrdered, Swapped, Unseen, Unswapped, ClosedExcept, RefsInside, Ordered, Started,
         Positioned, PpoSourced;
    SwapReadIn(q, w, e);
    Grounds(w, o);
    UnswappedClosed(q, w, e);
    PpoKnownInPart(Unswapped(q, w, e), w, e, o, x, c, a);
  }

  lemma SwapReadIn(q: Graph, w: Graph, e: Event)
    requires Swapped(q, w, e)
    ensures In(q, e) && In(w, e)
  {}

  // ----- messages come from the same labels -----

  /** No read-modify-write that is kept has e for its read half. */
  lemma RmwElsewhere(q: Graph, w: Graph, e: Event, x: Event)
    requires Swapped(q, w, e) && Unseen(q, e) && Sourced(w) && Positioned(w) && In(q, x) && L(q, x).IsRmwStore()
    ensures x.Prev() != e
  {
    SwapFields(q, w, e, x);
    SourcedAt(w, x);
    PosAt(w, x);
    assert RmwKnown(w, L(w, x));
    if x.Prev() == e { assert CHas(q, x, e); }
  }

  lemma ReleaseSame(q: Graph, w: Graph, e: Event, x: Event, addr: int)
    requires Swapped(q, w, e) && In(q, x)
    ensures In(w, x) && LastReleaseAtLoc(q, x, addr) == LastReleaseAtLoc(w, x, addr)
  {
    SwapFields(q, w, e, x);
    var p := (l: Label) => IsListedReleaseAt(l, addr);
    var i, j := LastIndex(q, x.thread, x.index, p), LastIndex(w, x.thread, x.index, p);
    forall k | 0 <= k < x.index ensures p(w[x.thread][k]) == p(q[x.thread][k]) {
      var y := Event(x.thread, k);
      SwapFields(q, w, e, y);
      assert L(q, y) == q[x.thread][k] && L(w, y) == w[x.thread][k];
    }
    if i < j { assert false; }
    if j < i { assert false; }
  }

  lemma BaseSame(q: Graph, w: Graph, e: Event, x: Event, p: Event)
    requires Swapped(q, w, e) && In(q, x)
    ensures BaseSource(q, x, p) <==> BaseSource(w, x, p)
  {
    SwapFields(q, w, e, x);
    ReleaseSame(q, w, e, x, L(q, x).addr);
    if x.index > 0 { SwapFields(q, w, e, x.Prev()); }
  }

  lemma {:induction false} SourceSame(q: Graph, w: Graph, e: Event, x: Event, p: Event, n: nat)
    requires Swapped(q, w, e) && Unseen(q, e) && Sourced(w) && Positioned(w) && (In(q, x) || x == Bottom)
    ensures SourceWithin(q, x, p, n) <==> SourceWithin(w, x, p, n)
    decreases n
  {
    hide Unseen, Sourced, Positioned, BaseSource;
    if x == Bottom {
      NoSourceAtBottom(q, p, n);
      NoSourceAtBottom(w, p, n);
    } else {
      BaseSame(q, w, e, x, p);
      SwapFields(q, w, e, x);
      if n > 0 && L(q, x).IsRmwStore() {
        RmwElsewhere(q, w, e, x);
        if In(q, x.Prev()) {
          SwapFields(q, w, e, x.Prev());
          if IsReadAt(q, x.Prev()) { SourceSame(q, w, e, L(q, x.Prev()).rf, p, n - 1); }
        }
      }
    }
  }

  lemma NoSourceAtBottom(g: Graph, p: Event, n: nat)
    ensures !SourceWithin(g, Bottom, p, n)
  {}

  lemma MsgSourceSame(q: Graph, w: Graph, e: Event, x: Event)
    requires Swapped(q, w, e) && Unseen(q, e) && Sourced(w) && Positioned(w) && (In(q, x) || x == Bottom)
    ensures forall p :: MsgSource(q, x, p) <==> MsgSource(w, x, p)
  {
    forall p, n: nat ensures SourceWithin(q, x, p, n) <==> SourceWithin(w, x, p, n) { SourceSame(q, w, e, x, p, n); }
  }

  /** A message comes from a write, a release or a begin. */
  lemma {:induction false} SourceKind(g: Graph, x: Event, p: Event, n: nat)
    requires SourceWithin(g, x, p, n)
    ensures p.index == 0 || (In(g, p) && (L(g, p).IsWrite() || IsListedRelease(L(g, p))))
    decreases n
  {
    if !BaseSource(g, x, p) { SourceKind(g, L(g, x.Prev()).rf, p, n - 1); }
  }

  lemma SwapRefs(q: Graph, w: Graph, e: Event)
    requires Swapped(q, w, e) && RefsInside(w) && Positioned(w) && Started(w)
    ensures RefsInside(q) && Positioned(q) && Started(q)
  {
    forall x | In(q, x)
      ensures L(q, x).pos == x && (L(q, x).kind.ThreadStart? <==> x.index == 0)
      ensures L(q, x).IsRead() ==> L(q, x).rf == Bottom || (RfTarget(q, L(q, x).rf) && L(q, x).rf != x)
      ensures L(q, x).kind.ThreadStart? ==> CreatorRef(q, L(q, x).kind.parentCreate)
      ensures L(q, x).kind.ThreadJoin? ==> FinishRef(q, L(q, x).kind.childLast)
    {
      SwapFields(q, w, e, x);
      if L(q, x).IsRead() && x != e && L(q, x).rf != Bottom { SwapFields(q, w, e, L(q, x).rf); }
      if L(q, x).kind.ThreadStart? { SwapFields(q, w, e, L(q, x).kind.parentCreate); }
      if L(q, x).kind.ThreadJoin? { SwapFields(q, w, e, L(q, x).kind.childLast); }
    }
  }

  // ----- edges -----

  /** x is an acquire fence after e in its thread. */
  predicate LateFence(q: Graph, e: Event, x: Event) {
    IsAcquireFence(q, x) && x.thread == e.thread && x.index > e.index
  }

  lemma FenceablesSame(q: Graph, w: Graph, e: Event, x: Event, r: Event)
    requires Swapped(q, w, e) && In(q, x)
    ensures FenceableRead(q, x, r) <==> FenceableRead(w, x, r)
    ensures FenceableRead(q, x, r) && !LateFence(q, e, x) && IsAcquireFence(q, x) ==> r != e
    ensures FenceableRead(q, x, r) && r != e ==> L(q, r).rf == L(w, r).rf && RefersInside(q, L(q, r))
  {
    if r.thread == x.thread && 1 <= r.index < x.index { SwapFields(q, w, e, r); }
  }

  /** Edges into what is kept come from what is kept, and stay, late fences and the read aside. */
  lemma EdgeSame(q: Graph, w: Graph, e: Event, p: Event, x: Event)
    requires Swapped(q, w, e) && Unseen(q, e) && Sourced(w) && Positioned(w) && RefsInside(w) && Started(w)
    requires In(q, x) && x != e && !LateFence(q, e, x)
    ensures HbEdge(q, p, x) <==> HbEdge(w, p, x)
  {
    SwapRefs(q, w, e);
    SwapFields(q, w, e, x);
    PosAt(w, x);
    var l := L(q, x);
    hide Unseen, Sourced, Started, MsgSource, FenceableRead, RefsInside, Positioned;
    if In(q, p) { SwapFields(q, w, e, p); }
    if l.IsRead() {
      MsgSourceSame(q, w, e, l.rf);
      if MsgSource(q, l.rf, p) { MsgSourceInside(q, l.rf, p); }
    }
    if IsAcquireFence(q, x) {
      forall r | FenceableRead(q, x, r) || FenceableRead(w, x, r)
        ensures FenceableRead(q, x, r) && FenceableRead(w, x, r) && L(q, r).rf == L(w, r).rf
        ensures MsgSource(q, L(q, r).rf, p) <==> MsgSource(w, L(w, r).rf, p)
        ensures MsgSource(q, L(q, r).rf, p) ==> In(q, p)
      {
        FenceablesSame(q, w, e, x, r);
        FenceableThere(q, x, r);
        MsgSourceSame(q, w, e, L(q, r).rf);
        if MsgSource(q, L(q, r).rf, p) { MsgSourceInside(q, L(q, r).rf, p); }
      }
    }
  }

  lemma FenceableThere(q: Graph, x: Event, r: Event)
    requires FenceableRead(q, x, r)
    ensures IsReadAt(q, r)
  {}

  // ----- hb views stay exact -----

  ghost predicate ViaFence(g: Graph, x: Event, a: Event) {
    exists r :: FenceableRead(g, x, r) && MsgHas(g, L(g, r).rf, a)
  }

  /** The hb view of a fence is what it would be if computed now. */
  ghost predicate FenceExact(g: Graph, x: Event) {
    forall a :: HbHas(g, x, a) <==> a == x || HbHas(g, x.Prev(), a) || ViaFence(g, x, a)
  }

  ghost predicate LateFencesExact(q: Graph, e: Event) {
    forall x :: LateFence(q, e, x) ==> FenceExact(q, x)
  }

  /** The sources of the message e reads come before the fences that synchronise with it. */
  ghost predicate LateFencesAfter(q: Graph, o: Order, e: Event)
    requires In(q, e)
  {
    forall p, x :: LateFence(q, e, x) && L(q, e).AtMostRelease() && MsgSource(q, L(q, e).rf, p) ==> o.HbBefore(p, x)
  }

  /** e has the hb view that its new write gives it. */
  ghost predicate ReadExact(q: Graph, e: Event)
    requires In(q, e)
  {
    forall a :: HbHas(q, e, a) <==>
                a == e || HbHas(q, e.Prev(), a) || (L(q, e).AtLeastAcquire() && MsgHas(q, L(q, e).rf, a))
  }

  /** All that is asked for the hb half. */
  ghost predicate HbSwap(q: Graph, w: Graph, o: Order, e: Event) {
    && Swapped(q, w, e) && Unseen(q, e) && ReadExact(q, e) && LateFencesExact(q, e) && LateFencesAfter(q, o, e)
    && Sourced(w) && Positioned(w) && RefsInside(w) && Started(w) && ReleasesCover(w) && SelfContained(w) && HbInv(w, o)
  }

  /** Whatever follows an acquire knows it. */
  lemma AcquireEnds(q: Graph, w: Graph, e: Event, x: Event)
    requires Swapped(q, w, e) && Unseen(q, e) && Sourced(w) && Positioned(w) && L(q, e).AtLeastAcquire()
    requires CHas(w, e, e) && In(q, x) && x.thread == e.thread
    ensures x.index <= e.index
  {
    assert CHas(q, x, e) ==> x == e;
    SwapFields(q, w, e, x);
    SwapFields(q, w, e, e);
    SourcedAt(w, x);
    PosAt(w, x);
    if x.index > e.index { AcquireKnown(w, x, e, e); }
  }

  /** In hb a relaxed read comes after what is before it in its thread, and nothing else. */
  lemma RelaxedSame(q: Graph, w: Graph, o: Order, e: Event, a: Event)
    requires HbSwap(q, w, o, e) && !L(q, e).AtLeastAcquire()
    ensures HbHas(q, e, a) <==> HbHas(w, e, a)
    ensures HbHas(w, e, a) <==> a == e || HbHas(w, e.Prev(), a)
  {
    SwapFields(q, w, e, e);
    SwapContents(q, w, e);
    PosAt(w, e);
    assert In(q, e.Prev());
    hide Swapped, Unseen, LateFencesExact, LateFencesAfter, Sourced, RefsInside, Positioned, MsgSource;
    RelaxedExact(w, e, a);
  }

  lemma RelaxedExact(w: Graph, e: Event, a: Event)
    requires LocallyExact(w) && IsReadAt(w, e) && e.index >= 1 && L(w, e).pos == e && !L(w, e).AtLeastAcquire()
    ensures HbHas(w, e, a) <==> a == e || HbHas(w, e.Prev(), a)
  {
    hide MsgSource;
    forall p ensures HbEdge(w, p, e) <==> p == e.Prev() {}
    hide HbEdge;
    assert HbHas(w, e, a) <==> (a == e && In(w, e) && e.index >= 1) || ViaEdge(w, e, a);
  }

  /** Edges from a read lead to the next label only. */
  lemma EdgeFromRead(w: Graph, o: Order, e: Event, x: Event)
    requires SourcesOrdered(w, o) && RefsInside(w) && Positioned(w) && IsReadAt(w, e) && e.index >= 1 && HbEdge(w, e, x)
    ensures x.Prev() == e
  {
    hide MsgSource;
    PosAt(w, x);
    assert forall v :: !MsgSource(w, v, e);
  }

  /** A late fence sends nothing. */
  lemma FenceSendsNothing(q: Graph, w: Graph, e: Event, x: Event, v: Event)
    requires Swapped(q, w, e) && Unseen(q, e) && ReleasesCover(w) && LateFence(q, e, x)
    ensures !MsgSource(q, v, x)
  {
    SwapFields(q, w, e, x);
    assert CHas(q, x, e) ==> x == e;
    assert IsListedRelease(L(w, x)) ==> CHas(w, x, e);
    if MsgSource(q, v, x) {
      var n: nat :| SourceWithin(q, v, x, n);
      SourceKind(q, v, x, n);
    }
  }

  /** What hb views of kept labels hold is kept. */
  lemma {:induction false} SwapHbKnown(q: Graph, w: Graph, o: Order, e: Event, x: Event, a: Event)
    requires HbSwap(q, w, o, e) && In(q, x) && HbHas(w, x, a) && (x == e ==> !L(q, e).AtLeastAcquire())
    ensures In(q, a)
    decreases if x in o.hb then o.hb[x] else 0
  {
    hide HbSwap, LateFence;
    if a != x {
      if x == e {
        RelaxedStep(q, w, o, e, a);
        SwapHbKnown(q, w, o, e, e.Prev(), a);
      } else if LateFence(q, e, x) {
        var p := FenceStep(q, w, o, e, x, a);
        SwapHbKnown(q, w, o, e, p, a);
      } else {
        var p := EdgeStep(q, w, o, e, x, a);
        SwapHbKnown(q, w, o, e, p, a);
      }
    }
  }

  lemma PrevBefore(w: Graph, o: Order, x: Event)
    requires HbInv(w, o) && In(w, x) && x.index >= 1
    ensures o.HbBefore(x.Prev(), x)
  {
    assert In(w, x.Prev());
    hide LocallyExact, MessagesExact, EdgesOrdered, SourcesOrdered;
  }

  lemma RelaxedStep(q: Graph, w: Graph, o: Order, e: Event, a: Event)
    requires HbSwap(q, w, o, e) && HbHas(w, e, a) && !L(q, e).AtLeastAcquire() && a != e
    ensures In(q, e.Prev()) && HbHas(w, e.Prev(), a) && o.HbBefore(e.Prev(), e)
  {
    RelaxedSame(q, w, o, e, a);
    hide LateFencesExact, LateFencesAfter, Sourced, RefsInside, Positioned, Unseen, HbInv;
    PrevBefore(w, o, e);
  }

  lemma EdgeStep(q: Graph, w: Graph, o: Order, e: Event, x: Event, a: Event) returns (p: Event)
    requires HbSwap(q, w, o, e) && In(q, x) && x != e && !LateFence(q, e, x) && HbHas(w, x, a) && a != x
    ensures In(q, p) && HbHas(w, p, a) && o.HbBefore(p, x) && (p == e ==> !L(q, e).AtLeastAcquire())
  {
    hide Swapped, Unseen, LateFencesExact, LateFencesAfter, Sourced, RefsInside, Positioned, HbEdge, LateFence,
         ReadExact, ReleasesCover, MessagesExact, PoOrdered, SourcesOrdered, SelfContained;
    assert ViaEdge(w, x, a);
    p :| HbEdge(w, p, x) && HbHas(w, p, a);
    EdgeSame(q, w, e, p, x);
    EdgeEnds(q, p, x);
    if p == e { NextOfRead(q, w, o, e, x); }
  }

  lemma NextOfRead(q: Graph, w: Graph, o: Order, e: Event, x: Event)
    requires HbSwap(q, w, o, e) && In(q, x) && HbEdge(w, e, x)
    ensures x.Prev() == e && !L(q, e).AtLeastAcquire()
  {
    hide HbEdge, LateFencesExact, LateFencesAfter, ReadExact, LocallyExact, MessagesExact, PoOrdered, EdgesOrdered,
         Unseen, Sourced, RefsInside, Positioned, SourcesOrdered;
    EdgeFromRead(w, o, e, x);
    assert CHas(w, e, e);
    if L(q, e).AtLeastAcquire() { AcquireEnds(q, w, e, x); }
  }

  lemma FenceStep(q: Graph, w: Graph, o: Order, e: Event, x: Event, a: Event) returns (p: Event)
    requires HbSwap(q, w, o, e) && LateFence(q, e, x) && HbHas(w, x, a) && a != x
    ensures In(q, p) && HbHas(w, p, a) && o.HbBefore(p, x) && (p == e ==> !L(q, e).AtLeastAcquire())
  {
    hide MsgSource, LateFencesAfter, Sourced, RefsInside, Positioned, Unseen, ReleasesCover, HbInv, SelfContained;
    SwapContents(q, w, e);
    SwapFields(q, w, e, x);
    assert FenceExact(q, x);
    hide Swapped;
    if HbHas(q, x.Prev(), a) {
      p := x.Prev();
      PrevBefore(w, o, x);
      if p == e { LateRelaxed(q, w, o, e, x); RelaxedSame(q, w, o, e, a); }
    } else {
      assert ViaFence(q, x, a);
      var r :| FenceableRead(q, x, r) && MsgHas(q, L(q, r).rf, a);
      p := MessageStep(q, w, o, e, x, r, a);
    }
  }

  /** An acquire is not followed by anything. */
  lemma LateRelaxed(q: Graph, w: Graph, o: Order, e: Event, x: Event)
    requires HbSwap(q, w, o, e) && In(q, x) && x.thread == e.thread && x.index > e.index
    ensures !L(q, e).AtLeastAcquire()
  {
    hide LateFencesExact, LateFencesAfter, ReadExact, HbInv, Unseen, Sourced, RefsInside, Positioned;
    assert CHas(w, e, e);
    if L(q, e).AtLeastAcquire() { AcquireEnds(q, w, e, x); }
  }

  lemma MessageStep(q: Graph, w: Graph, o: Order, e: Event, x: Event, r: Event, a: Event) returns (p: Event)
    requires HbSwap(q, w, o, e) && LateFence(q, e, x) && FenceableRead(q, x, r) && MsgHas(q, L(q, r).rf, a)
    ensures In(q, p) && HbHas(w, p, a) && o.HbBefore(p, x) && p != e && MsgSource(q, L(q, r).rf, p)
  {
    hide MsgSource, Sourced, RefsInside, Positioned, Unseen, ReleasesCover, LateFencesExact, ReadExact, LocallyExact,
         SelfContained, PoOrdered;
    var rf := L(q, r).rf;
    SwapContents(q, w, e);
    assert MsgHas(w, rf, a);
    assert ViaSource(w, rf, a);
    p :| MsgSource(w, rf, p) && HbHas(w, p, a);
    MsgSourceSame(q, w, e, rf);
    SwapRefs(q, w, e);
    MsgSourceInside(q, rf, p);
    FenceSendsNothing(q, w, e, x, rf);
    if r != e { OldFenceEdge(q, w, o, e, x, r, p); }
  }

  lemma OldFenceEdge(q: Graph, w: Graph, o: Order, e: Event, x: Event, r: Event, p: Event)
    requires HbSwap(q, w, o, e) && LateFence(q, e, x) && FenceableRead(q, x, r) && r != e
    requires MsgSource(w, L(q, r).rf, p) && p != x && In(w, p)
    ensures o.HbBefore(p, x)
  {
    hide MsgSource, Sourced, RefsInside, Unseen, ReleasesCover, LateFencesExact, LateFencesAfter, ReadExact,
         LocallyExact, SelfContained, PoOrdered, MessagesExact, SourcesOrdered;
    FenceablesSame(q, w, e, x, r);
    SwapFields(q, w, e, x);
    PosAt(w, x);
    assert FenceableRead(w, L(w, x).pos, r) && MsgSource(w, L(w, r).rf, p);
    assert EdgeInto(w, p, L(w, x));
    assert HbEdge(w, p, x);
  }

  /** Messages of kept writes come from kept labels, none of them the read, with the views they have. */
  lemma SourceStays(q: Graph, w: Graph, o: Order, e: Event, x: Event, p: Event)
    requires HbSwap(q, w, o, e) && MsgSource(q, x, p)
    ensures In(q, x) && In(q, p) && p != e && MsgSource(w, x, p) && !IsRecomputable(L(q, p))
    ensures p == x || o.HbBefore(p, x)
    ensures forall a :: HbHas(q, p, a) <==> HbHas(w, p, a)
  {
    hide MsgSource, Sourced, RefsInside, Positioned, Unseen, ReleasesCover, LateFencesExact, LateFencesAfter, ReadExact,
         LocallyExact, SelfContained, PoOrdered, MessagesExact, EdgesOrdered;
    SourceIsWrite(q, x);
    MsgSourceSame(q, w, e, x);
    SwapRefs(q, w, e);
    MsgSourceInside(q, x, p);
    SwapContents(q, w, e);
  }

  lemma SwapMessages(q: Graph, w: Graph, o: Order, e: Event)
    requires HbSwap(q, w, o, e)
    ensures MessagesExact(q) && SourcesOrdered(q, o)
  {
    hide HbSwap, MsgSource;
    forall x, a ensures MsgHas(q, x, a) <==> ViaSource(q, x, a) { MessageSame(q, w, o, e, x, a); }
    forall x, p | MsgSource(q, x, p) ensures In(q, p) && !IsRecomputable(L(q, p)) && (p == x || o.HbBefore(p, x)) {
      SourceStays(q, w, o, e, x, p);
    }
  }

  lemma MessageSame(q: Graph, w: Graph, o: Order, e: Event, x: Event, a: Event)
    requires HbSwap(q, w, o, e)
    ensures MsgHas(q, x, a) <==> ViaSource(q, x, a)
  {
    forall p | MsgSource(q, x, p) ensures MsgSource(w, x, p) && (HbHas(q, p, a) <==> HbHas(w, p, a)) {
      SourceStays(q, w, o, e, x, p);
    }
    hide MsgSource, Sourced, RefsInside, Positioned, Unseen, ReleasesCover, LateFencesExact, LateFencesAfter, ReadExact,
         LocallyExact, SelfContained, PoOrdered, EdgesOrdered, SourcesOrdered;
    if In(q, x) {
      SwapContents(q, w, e);
      MsgSourceSame(q, w, e, x);
      assert MsgHas(w, x, a) <==> ViaSource(w, x, a);
    } else {
      SourceIsWrite(q, x);
    }
  }

  /** The hb half of the invariant, but for the order. */
  lemma SwapLocal(q: Graph, w: Graph, o: Order, e: Event)
    requires HbSwap(q, w, o, e)
    ensures LocallyExact(q)
  {
    hide HbSwap, LateFence, HbEdge;
    forall x, a | In(q, x)
      ensures HbHas(q, x, a) <==> (a == x && x.index >= 1) || ViaEdge(q, x, a)
    {
      if x == e {
        LocalAtRead(q, w, o, e, a);
      } else if LateFence(q, e, x) {
        LocalAtFence(q, w, o, e, x, a);
      } else {
        LocalElsewhere(q, w, o, e, x, a);
      }
    }
    forall x, a | !In(q, x) ensures !ViaEdge(q, x, a) { NotTarget(q, x, a); }
  }

  lemma LocalElsewhere(q: Graph, w: Graph, o: Order, e: Event, x: Event, a: Event)
    requires HbSwap(q, w, o, e) && In(q, x) && x != e && !LateFence(q, e, x)
    ensures HbHas(q, x, a) <==> (a == x && x.index >= 1) || ViaEdge(q, x, a)
  {
    forall p ensures HbEdge(q, p, x) <==> HbEdge(w, p, x) { EdgeSame(q, w, e, p, x); }
    forall p | HbEdge(q, p, x) ensures In(q, p) && (HbHas(q, p, a) <==> HbHas(w, p, a)) {
      EdgeEnds(q, p, x);
      ViewSame(q, w, o, e, p, x, a);
    }
    SwapContents(q, w, e);
    hide HbEdge, MsgSource, Sourced, RefsInside, Positioned, Unseen, ReleasesCover, LateFencesExact, LateFencesAfter,
         SelfContained, PoOrdered, EdgesOrdered, SourcesOrdered, MessagesExact, Swapped, ReadExact;
    assert In(w, x);
    assert HbHas(w, x, a) <==> (a == x && In(w, x) && x.index >= 1) || ViaEdge(w, x, a);
  }

  lemma ViewSame(q: Graph, w: Graph, o: Order, e: Event, p: Event, x: Event, a: Event)
    requires HbSwap(q, w, o, e) && HbEdge(w, p, x) && In(q, p) && In(q, x)
    ensures HbHas(q, p, a) <==> HbHas(w, p, a)
  {
    SwapContents(q, w, e);
    hide HbEdge, MsgSource, Sourced, RefsInside, Positioned, Unseen, ReleasesCover, LateFencesExact, LateFencesAfter,
         SelfContained, HbInv, Swapped, ReadExact;
    if p == e {
      NextOfRead(q, w, o, e, x);
      RelaxedSame(q, w, o, e, a);
    }
  }

  lemma LocalAtRead(q: Graph, w: Graph, o: Order, e: Event, a: Event)
    requires HbSwap(q, w, o, e)
    ensures HbHas(q, e, a) <==> a == e || ViaEdge(q, e, a)
  {
    var rf := L(q, e).rf;
    SwapRefs(q, w, e);
    PosAt(q, e);
    MessageSame(q, w, o, e, rf, a);
    forall p | MsgSource(q, rf, p) ensures In(q, p) && p != e { SourceStays(q, w, o, e, rf, p); }
    assert In(q, e.Prev());
    hide Swapped, MsgSource, Sourced, RefsInside, Positioned, Unseen, ReleasesCover, LateFencesExact, LateFencesAfter,
         SelfContained, HbInv;
    assert forall p :: HbEdge(q, p, e) <==> p == e.Prev() || (L(q, e).AtLeastAcquire() && MsgSource(q, rf, p));
  }

  lemma LocalAtFence(q: Graph, w: Graph, o: Order, e: Event, x: Event, a: Event)
    requires HbSwap(q, w, o, e) && LateFence(q, e, x)
    ensures HbHas(q, x, a) <==> a == x || ViaEdge(q, x, a)
  {
    SwapRefs(q, w, e);
    PosAt(q, x);
    forall r | FenceableRead(q, x, r)
      ensures MsgHas(q, L(q, r).rf, a) <==> ViaSource(q, L(q, r).rf, a)
      ensures forall p :: MsgSource(q, L(q, r).rf, p) ==> In(q, p) && p != x
    {
      FenceMessage(q, w, o, e, x, r, a);
    }
    assert In(q, x.Prev());
    assert FenceExact(q, x);
    hide Swapped, MsgSource, Sourced, RefsInside, Positioned, Unseen, ReleasesCover, LateFencesExact, LateFencesAfter,
         SelfContained, HbInv, ReadExact, FenceableRead;
    FenceEdges(q, x);
    assert HbHas(q, x, a) <==> a == x || HbHas(q, x.Prev(), a) || ViaFence(q, x, a);
    assert ViaEdge(q, x, a) <==> HbHas(q, x.Prev(), a) || ViaFence(q, x, a);
  }

  lemma FenceEdges(q: Graph, x: Event)
    requires IsAcquireFence(q, x) && L(q, x).pos == x && In(q, x.Prev())
    requires forall r, p :: FenceableRead(q, x, r) && MsgSource(q, L(q, r).rf, p) ==> In(q, p) && p != x
    ensures forall p :: HbEdge(q, p, x) <==>
                p == x.Prev() || exists r :: FenceableRead(q, x, r) && MsgSource(q, L(q, r).rf, p)
  {
    hide MsgSource;
  }

  lemma FenceMessage(q: Graph, w: Graph, o: Order, e: Event, x: Event, r: Event, a: Event)
    requires HbSwap(q, w, o, e) && LateFence(q, e, x) && FenceableRead(q, x, r)
    ensures MsgHas(q, L(q, r).rf, a) <==> ViaSource(q, L(q, r).rf, a)
    ensures forall p :: MsgSource(q, L(q, r).rf, p) ==> In(q, p) && p != x
  {
    hide HbSwap, MsgSource;
    MessageSame(q, w, o, e, L(q, r).rf, a);
    forall p | MsgSource(q, L(q, r).rf, p) ensures In(q, p) && p != x {
      SourceStays(q, w, o, e, L(q, r).rf, p);
      FenceQuiet(q, w, o, e, x, L(q, r).rf);
    }
  }

  lemma FenceQuiet(q: Graph, w: Graph, o: Order, e: Event, x: Event, v: Event)
    requires HbSwap(q, w, o, e) && LateFence(q, e, x)
    ensures !MsgSource(q, v, x)
  {
    FenceSendsNothing(q, w, e, x, v);
  }

  // ----- the order hb follows -----

  /** An acquire is computed anew; of another read, only the causal views are. */
  function After(o: Order, lab: Label, e: Event): Order { if lab.AtLeastAcquire() then o.Then(e) else o.Late(e) }

  lemma SwapEdges(q: Graph, w: Graph, o: Order, e: Event)
    requires HbSwap(q, w, o, e) && Ranked(w, o)
    ensures EdgesOrdered(q, After(o, L(q, e), e))
  {
    assert In(q, e);
    hide HbSwap, LateFence, HbEdge, Ranked;
    var o' := After(o, L(q, e), e);
    forall p, x | HbEdge(q, p, x) ensures o'.HbBefore(p, x) {
      EdgeEnds(q, p, x);
      if x == e {
        EdgeToRead(q, w, o, e, p);
      } else {
        if LateFence(q, e, x) { EdgeToFence(q, w, o, e, p, x); } else { EdgeElsewhere(q, w, o, e, p, x); }
        StillBefore(q, w, o, e, p, x);
      }
    }
  }

  lemma EdgeElsewhere(q: Graph, w: Graph, o: Order, e: Event, p: Event, x: Event)
    requires HbSwap(q, w, o, e) && HbEdge(q, p, x) && x != e && !LateFence(q, e, x) && In(q, x)
    ensures o.HbBefore(p, x)
  {
    EdgeSame(q, w, e, p, x);
    hide HbEdge, Swapped, Unseen, Sourced, RefsInside, Positioned, LocallyExact;
  }

  lemma EdgeToFence(q: Graph, w: Graph, o: Order, e: Event, p: Event, x: Event)
    requires HbSwap(q, w, o, e) && HbEdge(q, p, x) && LateFence(q, e, x)
    ensures o.HbBefore(p, x)
  {
    hide MsgSource, HbInv;
    SwapRefs(q, w, e);
    PosAt(q, x);
    SwapFields(q, w, e, x);
    if p == x.Prev() {
      PrevBefore(w, o, x);
    } else {
      var r :| FenceableRead(q, x, r) && MsgSource(q, L(q, r).rf, p);
      if r != e {
        SourceStays(q, w, o, e, L(q, r).rf, p);
        SwapFields(q, w, e, p);
        OldFenceEdge(q, w, o, e, x, r, p);
      }
    }
  }

  lemma EdgeToRead(q: Graph, w: Graph, o: Order, e: Event, p: Event)
    requires HbSwap(q, w, o, e) && HbEdge(q, p, e) && Ranked(w, o)
    ensures After(o, L(q, e), e).HbBefore(p, e)
  {
    hide MsgSource, HbInv;
    SwapRefs(q, w, e);
    PosAt(q, e);
    SwapFields(q, w, e, p);
    SwapFields(q, w, e, e);
    PrevBefore(w, o, e);
  }

  lemma StillBefore(q: Graph, w: Graph, o: Order, e: Event, p: Event, x: Event)
    requires HbSwap(q, w, o, e) && HbEdge(q, p, x) && x != e && o.HbBefore(p, x)
    ensures After(o, L(q, e), e).HbBefore(p, x)
  {
    hide HbSwap, HbEdge;
    assert IsReadAt(q, e) by { ReadThere(q, w, o, e); }
    if p == e { RelaxedFrom(q, w, o, e, x); }
  }

  lemma ReadThere(q: Graph, w: Graph, o: Order, e: Event)
    requires HbSwap(q, w, o, e)
    ensures IsReadAt(q, e) && e.index >= 1
  {}

  lemma RelaxedFrom(q: Graph, w: Graph, o: Order, e: Event, x: Event)
    requires HbSwap(q, w, o, e) && HbEdge(q, e, x) && x != e
    ensures IsReadAt(q, e) && !L(q, e).AtLeastAcquire()
  {
    hide HbSwap, RefsInside, Positioned, MsgSource, SourcesOrdered, HbEdge;
    ReadThere(q, w, o, e);
    assert RefsInside(q) && Positioned(q) by { SwapRefsOf(q, w, o, e); }
    SwapMessages(q, w, o, e);
    EdgeFromRead(q, o, e, x);
    EdgeEnds(q, e, x);
    LateRelaxed(q, w, o, e, x);
  }

  lemma SwapRefsOf(q: Graph, w: Graph, o: Order, e: Event)
    requires HbSwap(q, w, o, e)
    ensures RefsInside(q) && Positioned(q) && Started(q)
  {
    hide Swapped, RefsInside, Positioned, Started;
    SwapRefs(q, w, e);
  }

  lemma SwapPo(q: Graph, w: Graph, o: Order, e: Event)
    requires HbSwap(q, w, o, e) && Ranked(w, o)
    ensures PoOrdered(q, After(o, L(q, e), e))
  {
    var o' := After(o, L(q, e), e);
    assert PoOrdered(w, o);
    forall x, y | In(q, x) && In(q, y) && x.thread == y.thread && x.index < y.index ensures o'.HbBefore(x, y) {
      SwapFields(q, w, e, x);
      SwapFields(q, w, e, y);
      assert o.HbBefore(x, y);
      if x == e { LateRelaxed(q, w, o, e, y); }
    }
  }

  lemma SourcesLater(q: Graph, w: Graph, o: Order, e: Event)
    requires SourcesOrdered(q, o) && Ranked(w, o) && IsReadAt(q, e)
    ensures SourcesOrdered(q, After(o, L(q, e), e))
  {
    hide MsgSource;
    forall v, p | MsgSource(q, v, p)
      ensures In(q, p) && !IsRecomputable(L(q, p)) && (p == v || After(o, L(q, e), e).HbBefore(p, v))
    {
      SourceIsWrite(q, v);
    }
  }

  lemma SwapHb(q: Graph, w: Graph, o: Order, e: Event)
    requires HbSwap(q, w, o, e) && Ranked(w, o)
    ensures HbInv(q, After(o, L(q, e), e))
  {
    SwapLocal(q, w, o, e);
    SwapMessages(q, w, o, e);
    SwapEdges(q, w, o, e);
    SwapPo(q, w, o, e);
    assert IsReadAt(q, e);
    hide HbSwap, LocallyExact, MessagesExact, EdgesOrdered, PoOrdered, Ranked;
    SourcesLater(q, w, o, e);
  }

  // ----- causal views stay right -----

  /** The views e is given are those of a read of its new write, built on the ppo view it keeps. */
  ghost predicate CausalSwap(q: Graph, w: Graph, o: Order, e: Event) {
    && Swapped(q, w, e) && Unseen(q, e) && InvAt(w, o)
    && var lab := L(q, e);
       && lab.pporf.Wf() && lab.pporf.Tight()
       && (forall a :: lab.pporf.Has(a) <==> FromRf(w, e, lab.addr, lab.rf, lab.ppo, a))
  }

  /** What the read now knows: all of it kept, and as a read of w would. */
  lemma RereadFits(q: Graph, w: Graph, o: Order, e: Event)
    requires CausalSwap(q, w, o, e)
    ensures Fits(w, L(q, e)) && SourcedLabel(w, L(q, e)) && RfTarget(w, L(q, e).rf) && L(q, e).pos == e
    ensures KeepsPpo(L(q, e)) && BaseOk(w, e, L(q, e).ppo)
  {
    var lab := L(q, e);
    SwapFields(q, w, e, e);
    SwapFields(q, w, e, lab.rf);
    OwnBase(w, o, e);
    InvParts(w, o);
    LabelParts(w, o, e);
    hide InvAt, Causal, HbInv, Sourced, RfKnown, RfOrdered, OrderingsFixed, BaseOk, PpoSourced, FromRf, Fits,
         SourcedLabel, Swapped, Unseen;
    ReadFits(w, o, lab);
    ReadSourced(w, o, lab);
  }

  lemma RereadKnown(q: Graph, w: Graph, o: Order, e: Event, a: Event)
    requires CausalSwap(q, w, o, e) && CHas(q, e, a)
    ensures In(q, a)
  {
    hide InvAt, BaseOk, PpoSourced, Swapped, Unseen, FromRf, FromOwnWrites;
    var lab := L(q, e);
    RereadShape(q, w, o, e);
    if a != e {
      assert FromRf(w, e, lab.addr, lab.rf, lab.ppo, a);
      RfCases(w, e, lab.addr, lab.rf, lab.ppo, a);
      if lab.ppo.Has(a) {
        SwapPpoKnown(q, w, o, e, e, lab.ppo, a);
      } else if CHas(w, lab.rf, a) {
        SwapKnown(q, w, o, e, lab.rf, a);
      } else {
        OwnWritesKept(q, w, o, e, lab.addr, a);
      }
    }
  }

  lemma RfCases(w: Graph, e: Event, addr: int, rf: Event, base: Clock, a: Event)
    requires FromRf(w, e, addr, rf, base, a) && (rf == Initializer || rf.thread == e.thread ==> false)
    ensures base.Has(a) || CHas(w, rf, a) || FromOwnWrites(w, e, addr, a)
  {}

  lemma OwnWritesKept(q: Graph, w: Graph, o: Order, e: Event, addr: int, a: Event)
    requires InvAt(w, o) && Swapped(q, w, e) && Unseen(q, e) && FromOwnWrites(w, e, addr, a)
    ensures In(q, a)
  {
    hide InvAt, Unseen;
    var v: Event :| v.thread == e.thread && v.index < e.index && IsWriteAt(w, v) && L(w, v).addr == addr &&
        CHas(w, v, a);
    assert In(q, v);
    hide Swapped;
    SwapKnown(q, w, o, e, v, a);
  }

  /** The read in w and in q. */
  lemma RereadShape(q: Graph, w: Graph, o: Order, e: Event)
    requires CausalSwap(q, w, o, e)
    ensures In(q, e) && In(w, e) && L(q, e).pos == e && L(q, e).ppo == L(w, e).ppo && L(q, e).IsRead() && e.index >= 1
    ensures Limit(q, e) && PpoSourced(w, e, L(q, e).ppo) && BaseOk(w, e, L(q, e).ppo)
    ensures L(q, e).ppo.Wf() && L(q, e).ppo.Tight()
    ensures var rf := L(q, e).rf;
                IsWriteAt(q, rf) && IsWriteAt(w, rf) && rf != Initializer && rf != e && rf != Bottom &&
                                      rf.thread != e.thread
  {
    hide InvAt, Unseen, BaseOk, PpoSourced, FromRf;
    SwapParts(q, w, o, e);
    hide CausalSwap;
    SwapFields(q, w, e, e);
    RereadWrite(q, w, o, e);
    assert IsReadAt(q, e) && IsReadAt(w, e) && e.index >= 1;
    hide Swapped;
    LabelParts(w, o, e);
    OwnBase(w, o, e);
  }

  lemma RereadWrite(q: Graph, w: Graph, o: Order, e: Event)
    requires Swapped(q, w, e) && InvAt(w, o)
    ensures var rf := L(q, e).rf;
                IsWriteAt(q, rf) && IsWriteAt(w, rf) && rf != Initializer && rf != e && rf != Bottom &&
                                      rf.thread != e.thread
  {
    hide InvAt;
    SwapFields(q, w, e, L(q, e).rf);
    LabelParts(w, o, L(q, e).rf);
  }

  lemma SwapClocksInside(q: Graph, w: Graph, o: Order, e: Event)
    requires CausalSwap(q, w, o, e)
    ensures ClocksInGraph(q)
  {
    hide CausalSwap, InvAt, Swapped, Unseen;
    forall x | In(q, x)
      ensures L(q, x).pporf.Wf() && L(q, x).pporf.Tight() && L(q, x).ppo.Wf() && L(q, x).ppo.Tight()
      ensures forall a :: L(q, x).pporf.Has(a) ==> In(q, a)
      ensures forall a :: L(q, x).ppo.Has(a) ==> In(q, a)
    {
      if x == e { ClocksAtRead(q, w, o, e); } else { ClocksElsewhere(q, w, o, e, x); }
    }
  }

  lemma ClocksAtRead(q: Graph, w: Graph, o: Order, e: Event)
    requires CausalSwap(q, w, o, e)
    ensures L(q, e).pporf.Wf() && L(q, e).pporf.Tight() && L(q, e).ppo.Wf() && L(q, e).ppo.Tight()
    ensures forall a :: L(q, e).pporf.Has(a) ==> In(q, a)
    ensures forall a :: L(q, e).ppo.Has(a) ==> L(q, e).pporf.Has(a)
  {
    hide InvAt, Swapped, Unseen, FromRf;
    RereadShape(q, w, o, e);
    assert In(q, e);
    BaseInRf(w, e, L(q, e).addr, L(q, e).rf, L(q, e).ppo);
    forall a | L(q, e).pporf.Has(a) ensures In(q, a) { RereadKnown(q, w, o, e, a); }
  }

  lemma ClocksElsewhere(q: Graph, w: Graph, o: Order, e: Event, x: Event)
    requires CausalSwap(q, w, o, e) && In(q, x) && x != e
    ensures L(q, x).pporf.Wf() && L(q, x).pporf.Tight() && L(q, x).ppo.Wf() && L(q, x).ppo.Tight()
    ensures forall a :: L(q, x).pporf.Has(a) ==> In(q, a)
    ensures forall a :: L(q, x).ppo.Has(a) ==> L(q, x).pporf.Has(a)
  {
    SwapFields(q, w, e, x);
    InvParts(w, o);
    CausalReady(w, o);
    assert ClocksInGraph(w);
    hide CausalSwap, InvAt, Swapped, Unseen, Causal, HbInv, Sourced, RfKnown, RfOrdered, OrderingsFixed, Ready;
    forall a | L(q, x).pporf.Has(a) ensures In(q, a) {
      assert InvAt(w, o) && Swapped(q, w, e) && Unseen(q, e) by { SwapParts(q, w, o, e); }
      SwapKnown(q, w, o, e, x, a);
    }
    forall a | L(q, x).ppo.Has(a) ensures L(q, x).pporf.Has(a) { PpoInClock(w, o, x, a); }
  }

  lemma SwapParts(q: Graph, w: Graph, o: Order, e: Event)
    requires CausalSwap(q, w, o, e)
    ensures InvAt(w, o) && Swapped(q, w, e) && Unseen(q, e)
  {}

  /** What the causal invariants of w say of labels of q, in terms of q. */
  lemma SwapCausalFacts(q: Graph, w: Graph, o: Order, e: Event)
    requires CausalSwap(q, w, o, e)
    ensures forall x, a :: In(q, x) && x != e ==> (CHas(q, x, a) <==> CHas(w, x, a))
    ensures forall x, a :: In(q, x) ==> (PHas(q, x, a) <==> PHas(w, x, a))
    ensures forall x, a :: CHas(q, x, a) && x != e ==> a != e
    ensures forall x, a :: CHas(q, x, a) || PHas(q, x, a) ==> In(q, a)
    ensures forall x, a :: PHas(q, x, a) ==> CHas(q, x, a)
  {
    hide InvAt, FromRf;
    SwapContents(q, w, e);
    SwapClocksInside(q, w, o, e);
    hide CausalSwap;
    forall x, a | PHas(q, x, a) ensures CHas(q, x, a) {
      if x == e { ClocksAtRead(q, w, o, e); } else { ClocksElsewhere(q, w, o, e, x); }
    }
    assert Unseen(q, e) by { SwapParts(q, w, o, e); }
  }

  lemma CausalParts(q: Graph, w: Graph, o: Order, e: Event)
    requires CausalSwap(q, w, o, e)
    ensures Ready(w) && Ranked(w, o) && Ordered(w, o) && CausallyClosed(w) && SelfContained(w) && PpoClosed(w)
    ensures ReleasesCover(w) && Anchored(w) && ReadsInside(w) && RefsInside(w) && StartsBare(w)
    ensures Sourced(w) && HbInv(w, o) && RfKnown(w) && RfOrdered(w, o) && OrderingsFixed(w) && MainBegun(w)
    ensures Swapped(q, w, e) && Unseen(q, e)
  {
    hide Swapped, Unseen;
    InvParts(w, o);
  }

  /** The views of the read are closed over the rest. */
  lemma RereadClosed(q: Graph, w: Graph, o: Order, e: Event)
    requires CausalSwap(q, w, o, e)
    ensures CHas(q, e, e) && PHas(q, e, e) && IsReadAt(q, e)
    ensures forall a, b :: CHas(q, e, a) && a != e && CHas(w, a, b) ==> CHas(q, e, b)
    ensures forall a, b :: PHas(q, e, a) && a != e && CHas(w, a, b) ==> PHas(q, e, b)
  {
    hide InvAt, FromRf, Swapped, Unseen, SourcedLabel, PpoSourced, CausalSwap;
    RereadShape(q, w, o, e);
    RereadFits(q, w, o, e);
  }

  lemma SwapClosed(q: Graph, w: Graph, o: Order, e: Event)
    requires CausalSwap(q, w, o, e)
    ensures CausallyClosed(q) && SelfContained(q)
  {
    hide CausalSwap, InvAt, Swapped, Unseen, HbInv, Sourced, RfKnown, RfOrdered, OrderingsFixed, Ready, Ranked, Ordered,
         PpoClosed, ReleasesCover, Anchored, ReadsInside, RefsInside, StartsBare;
    SwapCausalFacts(q, w, o, e);
    RereadClosed(q, w, o, e);
    CausalParts(q, w, o, e);
    PartThere(q, w, e);
    forall x, a, b | CHas(q, x, a) && CHas(q, a, b) ensures CHas(q, x, b) {
      if a != e { assert CHas(w, a, b); }
    }
  }

  lemma PartThere(q: Graph, w: Graph, e: Event)
    requires Swapped(q, w, e)
    ensures forall x :: In(q, x) ==> In(w, x)
  {}

  lemma SwapPpo(q: Graph, w: Graph, o: Order, e: Event)
    requires CausalSwap(q, w, o, e)
    ensures PpoClosed(q) && ReleasesCover(q) && StartsBare(q)
  {
    hide CausalSwap, InvAt, Swapped, Unseen, HbInv, Sourced, RfKnown, RfOrdered, OrderingsFixed, Ready, Ranked, Ordered,
         CausallyClosed, Anchored, ReadsInside, RefsInside, SelfContained;
    SwapCausalFacts(q, w, o, e);
    RereadClosed(q, w, o, e);
    CausalParts(q, w, o, e);
    SwapContents(q, w, e);
    forall x, a, b | PHas(q, x, a) && a != x && CHas(q, a, b) ensures PHas(q, x, b) {
      assert a == e ==> x == e;
      assert a != e ==> CHas(w, a, b);
    }
    forall x | In(q, x) && !KeepsPpo(L(q, x)) ensures L(q, x).ppo == EmptyClock { SwapFields(q, w, e, x); }
  }

  lemma SwapOrder(q: Graph, w: Graph, o: Order, e: Event)
    requires CausalSwap(q, w, o, e)
    ensures Ranked(q, After(o, L(q, e), e)) && Ordered(q, After(o, L(q, e), e))
  {
    hide CausalSwap, InvAt, Swapped, Unseen, HbInv, Sourced, RfKnown, RfOrdered, OrderingsFixed, Ready, CausallyClosed,
         PpoClosed, ReleasesCover, Anchored, ReadsInside, RefsInside, StartsBare, SelfContained;
    SwapCausalFacts(q, w, o, e);
    RereadClosed(q, w, o, e);
    CausalParts(q, w, o, e);
    PartThere(q, w, e);
  }

  lemma RereadAdmits(q: Graph, w: Graph, o: Order, e: Event)
    requires CausalSwap(q, w, o, e)
    ensures forall a :: CHas(q, e, a) && a != e ==> Admissible(w, e, L(q, e).pporf, a)
    ensures forall a :: PHas(q, e, a) && a != e ==> Admissible(w, e, L(q, e).ppo, a)
  {
    hide InvAt, FromRf, Swapped, Unseen, SourcedLabel, PpoSourced, CausalSwap, Admissible;
    RereadShape(q, w, o, e);
    RereadFits(q, w, o, e);
  }

  lemma SwapReads(q: Graph, w: Graph, o: Order, e: Event)
    requires CausalSwap(q, w, o, e)
    ensures ReadsInside(q)
  {
    hide CausalSwap, InvAt, Swapped, Unseen, HbInv, Sourced, RfKnown, RfOrdered, OrderingsFixed, Ready, CausallyClosed,
         PpoClosed, ReleasesCover, Anchored, Ranked, Ordered, RefsInside, StartsBare, LaterIn;
    RereadAdmits(q, w, o, e);
    CausalParts(q, w, o, e);
    SwapContents(q, w, e);
    forall x | In(q, x) ensures L(q, x).ppo == L(w, x).ppo && (x != e ==> L(q, x).pporf == L(w, x).pporf) {
      SwapFields(q, w, e, x);
    }
    forall x, a | CHas(q, x, a) && a.thread != x.thread && In(q, a) && IsRecomputable(L(q, a))
      ensures LaterIn(L(q, x).pporf, a)
    {
      if x == e { assert Admissible(w, e, L(q, e).pporf, a); } else { assert CHas(w, x, a); }
    }
    forall x, a | PHas(q, x, a) && a.thread != x.thread && In(q, a) && IsRecomputable(L(q, a))
      ensures LaterIn(L(q, x).ppo, a)
    {
      assert PHas(w, x, a);
    }
  }

  /** What a label knows of other threads came through an anchor it knows, or is one. */
  lemma {:induction false} AnchorAvoids(q: Graph, w: Graph, o: Order, e: Event, x: Event, a: Event)
    requires CausalSwap(q, w, o, e) && In(q, x) && CHas(q, x, a) && a.thread != x.thread
    ensures ViaAnchor(q, x, a)
    decreases x.index
  {
    hide CausalSwap, ViaAnchor, IsAnchor;
    if x == e {
      RereadShape(q, w, o, e);
      OwnAnchor(q, x, a);
    } else {
      var p := AnchorStep(q, w, o, e, x, a);
      if p == x {
        OwnAnchor(q, x, a);
      } else {
        AnchorAvoids(q, w, o, e, p, a);
        AnchorLater(q, p, x, a);
      }
    }
  }

  lemma AnchorLater(q: Graph, p: Event, x: Event, a: Event)
    requires ViaAnchor(q, p, a) && p.thread == x.thread && p.index < x.index
    ensures ViaAnchor(q, x, a)
  {}

  lemma AnchorStep(q: Graph, w: Graph, o: Order, e: Event, x: Event, a: Event) returns (p: Event)
    requires CausalSwap(q, w, o, e) && In(q, x) && x != e && CHas(q, x, a) && a.thread != x.thread
    ensures In(q, p) && p.thread == x.thread && CHas(q, p, a)
    ensures if p == x then IsAnchor(q, x) else 0 <= p.index < x.index
  {
    hide CausalSwap, InvAt, Swapped, Unseen, HbInv, Sourced, RfKnown, RfOrdered, OrderingsFixed, Ready, CausallyClosed,
         PpoClosed, ReleasesCover, Anchored, Ranked, Ordered, RefsInside, StartsBare, ReadsInside, IsAnchor;
    SwapCausalFacts(q, w, o, e);
    CausalParts(q, w, o, e);
    SwapParts(q, w, o, e);
    SwapFields(q, w, e, x);
    SwapContents(q, w, e);
    LabelParts(w, o, x);
    PositionedReady(w);
    if IsAnchor(w, x) {
      p := x;
    } else {
      SourceAt(w, x, a);
      p :| SourceOf(w, p, L(w, x)) && Trusted(L(w, x), p) && (a == p || CHas(w, p, a));
      if !Before(p, x) { AnchorBySource(w, x, p); }
      KnownSource(w, x, p);
      EarlierKept(q, w, e, x, p);
    }
  }

  lemma KnownSource(w: Graph, x: Event, p: Event)
    requires In(w, x) && Trusted(L(w, x), p) && !IsAnchor(w, x)
    ensures CHas(w, x, p) || p.index == 0
  {}

  lemma PositionedReady(w: Graph)
    requires Ready(w)
    ensures Positioned(w) && Started(w)
  {}

  lemma EarlierKept(q: Graph, w: Graph, e: Event, x: Event, p: Event)
    requires Swapped(q, w, e) && Unseen(q, e) && In(q, x) && x != e && In(w, p) && Before(p, x)
    requires CHas(w, x, p) || p.index == 0
    ensures In(q, p) && p != e && 0 <= p.index
  {
    SwapFields(q, w, e, x);
    assert CHas(q, x, e) ==> x == e;
  }

  /** A label that has a source elsewhere reads, begins or joins. */
  lemma AnchorBySource(w: Graph, x: Event, p: Event)
    requires In(w, x) && L(w, x).pos == x && SourceOf(w, p, L(w, x)) && !Before(p, x) && WfOrdering(L(w, x))
    requires L(w, x).kind.ThreadStart? <==> x.index == 0
    ensures IsAnchor(w, x)
  {}

  lemma SwapAnchored(q: Graph, w: Graph, o: Order, e: Event)
    requires CausalSwap(q, w, o, e)
    ensures Anchored(q)
  {
    hide CausalSwap, ViaAnchor;
    forall x, a | CHas(q, x, a)
      ensures if a.thread == x.thread then a.index <= x.index || L(q, x).IsRead() else ViaAnchor(q, x, a)
    {
      if a.thread == x.thread { OwnEarlier(q, w, o, e, x, a); } else { AnchorAvoids(q, w, o, e, x, a); }
    }
  }

  lemma OwnEarlier(q: Graph, w: Graph, o: Order, e: Event, x: Event, a: Event)
    requires CausalSwap(q, w, o, e) && CHas(q, x, a) && a.thread == x.thread
    ensures a.index <= x.index || L(q, x).IsRead()
  {
    hide CausalSwap, InvAt, Swapped, Unseen, HbInv, Sourced, RfKnown, RfOrdered, OrderingsFixed, Ready, CausallyClosed,
         PpoClosed, ReleasesCover, Ranked, Ordered, RefsInside, StartsBare, ReadsInside, ViaAnchor;
    if x == e {
      RereadClosed(q, w, o, e);
    } else {
      SwapCausalFacts(q, w, o, e);
      CausalParts(q, w, o, e);
      SwapFields(q, w, e, x);
    }
  }

  // ----- where views come from -----

  lemma SwapSourced(q: Graph, w: Graph, o: Order, e: Event)
    requires CausalSwap(q, w, o, e)
    ensures Sourced(q)
  {
    hide CausalSwap, SourcedLabel, Swapped;
    assert In(q, e) && Swapped(q, w, e) by { SwapParts(q, w, o, e); RereadShape(q, w, o, e); }
    forall x | In(q, x) ensures SourcedLabel(q, L(q, x)) {
      if x == e {
        RereadFits(q, w, o, e);
        SourcedAfter(q, w, o, e, e, L(q, e));
      } else {
        SourcedBefore(q, w, o, e, x);
        SourcedAfter(q, w, o, e, x, L(w, x));
      }
    }
  }

  lemma SourcedBefore(q: Graph, w: Graph, o: Order, e: Event, x: Event)
    requires CausalSwap(q, w, o, e) && In(q, x) && x != e
    ensures In(w, x) && SourcedLabel(w, L(w, x)) && L(w, x).pos == x && Core(L(q, x)) == Core(L(w, x))
    ensures !L(w, x).pporf.Has(e) && !L(w, x).ppo.Has(e)
  {
    hide InvAt, FromRf, SourcedLabel;
    assert In(w, x) && Core(L(q, x)) == Core(L(w, x)) by { SwapCore(q, w, e, x); }
    CoreFields(L(q, x), L(w, x));
    SwapCausalFacts(q, w, o, e);
    CausalParts(q, w, o, e);
    PositionedReady(w);
    PosAt(w, x);
    SourcedAt(w, x);
    assert !CHas(q, x, e) && !PHas(q, x, e);
  }

  lemma SwapCore(q: Graph, w: Graph, e: Event, x: Event)
    requires Swapped(q, w, e) && In(q, x) && x != e
    ensures In(w, x) && Core(L(q, x)) == Core(L(w, x))
  {}

  /** Sources of a label are kept with it, and none of them is the read. */
  lemma SourcedAfter(q: Graph, w: Graph, o: Order, e: Event, x: Event, l: Label)
    requires CausalSwap(q, w, o, e) && In(q, x) && l.pos == x && Core(l) == Core(L(q, x)) && SourcedLabel(w, l)
    requires x == e || (!l.pporf.Has(e) && !l.ppo.Has(e))
    ensures SourcedLabel(q, L(q, x))
  {
    hide CausalSwap, AcquiresIn, PpoSourced, ThroughSource, RmwKnown;
    CoreFields(l, L(q, x));
    forall a | ThroughSource(w, l, a) ensures ThroughSource(q, L(q, x), a) { SwapSource(q, w, o, e, x, l, a); }
    SwapAcquires(q, w, o, e, x, l.pporf);
    if KeepsPpo(l) { SwapPpoSourced(q, w, o, e, x, l.ppo); }
    SwapRmw(q, w, o, e, x, l);
  }

  lemma SwapSource(q: Graph, w: Graph, o: Order, e: Event, x: Event, l: Label, a: Event)
    requires CausalSwap(q, w, o, e) && In(q, x) && l.pos == x && Core(l) == Core(L(q, x)) && ThroughSource(w, l, a)
    requires x == e || !l.pporf.Has(e)
    ensures ThroughSource(q, L(q, x), a)
  {
    hide CausalSwap, Swapped, Unseen;
    var m := L(q, x);
    CoreFields(l, m);
    var p :| SourceOf(w, p, l) && Trusted(l, p) && (a == p || CHas(w, p, a));
    SourceStillThere(q, w, o, e, x, l, p);
    SwapCausalFacts(q, w, o, e);
    assert SourceOf(q, p, m) && Trusted(m, p);
  }

  lemma SourceStillThere(q: Graph, w: Graph, o: Order, e: Event, x: Event, l: Label, p: Event)
    requires CausalSwap(q, w, o, e) && In(q, x) && l.pos == x && Core(l) == Core(L(q, x))
    requires SourceOf(w, p, l) && Trusted(l, p) && (x == e || !l.pporf.Has(e))
    ensures In(q, p) && p != e
  {
    hide CausalSwap, Core;
    CoreFields(l, L(q, x));
    RereadShape(q, w, o, e);
    SwapRefKinds(q, w, o, e, x);
    if p.thread == x.thread && p.index < x.index { assert In(q, p); }
  }

  /** What labels of q refer to is not the read. */
  lemma SwapRefKinds(q: Graph, w: Graph, o: Order, e: Event, x: Event)
    requires CausalSwap(q, w, o, e) && In(q, x)
    ensures var l := L(q, x);
            && (l.IsRead() ==> l.rf != e && (l.rf == Bottom || In(q, l.rf)))
            && (l.kind.ThreadStart? ==> l.kind.parentCreate != e && In(q, l.kind.parentCreate))
            && (l.kind.ThreadJoin? ==> l.kind.childLast != e && In(q, l.kind.childLast))
  {
    hide CausalSwap, RefsInside;
    RereadShape(q, w, o, e);
    SwapRefsInside(q, w, o, e);
    RefsNotRead(q, e, x);
  }

  lemma RefsNotRead(q: Graph, e: Event, x: Event)
    requires RefsInside(q) && IsReadAt(q, e) && e.index >= 1 && In(q, x)
    ensures var l := L(q, x);
            && (l.IsRead() ==> l.rf != e && (l.rf == Bottom || In(q, l.rf)))
            && (l.kind.ThreadStart? ==> l.kind.parentCreate != e && In(q, l.kind.parentCreate))
            && (l.kind.ThreadJoin? ==> l.kind.childLast != e && In(q, l.kind.childLast))
  {}

  lemma SwapRefsInside(q: Graph, w: Graph, o: Order, e: Event)
    requires CausalSwap(q, w, o, e)
    ensures RefsInside(q) && Positioned(q) && Started(q)
  {
    hide CausalSwap, Swapped, Unseen, RefsInside, Positioned, Started, HbInv;
    CausalParts(q, w, o, e);
    PositionedReady(w);
    SwapRefs(q, w, e);
  }

  lemma SwapAcquires(q: Graph, w: Graph, o: Order, e: Event, x: Event, c: Clock)
    requires CausalSwap(q, w, o, e) && Limit(q, x) && AcquiresIn(w, x, c) && (c.Has(e) ==> !Before(e, x))
    ensures AcquiresIn(q, x, c)
  {
    hide CausalSwap, IsAcquireOrFence;
    RereadShape(q, w, o, e);
    SwapCausalFacts(q, w, o, e);
    assert Swapped(q, w, e) && SelfContained(w) by { CausalParts(q, w, o, e); }
    SwapContents(q, w, e);
    assert CHas(w, e, e);
    hide Swapped, SelfContained;
  }

  lemma SwapPpoSourced(q: Graph, w: Graph, o: Order, e: Event, x: Event, c: Clock)
    requires CausalSwap(q, w, o, e) && Limit(q, x) && PpoSourced(w, x, c) && (c.Has(e) ==> !Before(e, x))
    ensures PpoSourced(q, x, c)
  {
    hide CausalSwap, AcquiresIn, ThroughThread;
    SwapAcquires(q, w, o, e, x, c);
    forall a | c.Has(a) && a != x ensures ThroughThread(q, x, c, a) {
      assert ThroughThread(w, x, c, a);
      SwapThrough(q, w, o, e, x, c, a);
    }
  }

  lemma SwapThrough(q: Graph, w: Graph, o: Order, e: Event, x: Event, c: Clock, a: Event)
    requires CausalSwap(q, w, o, e) && Limit(q, x) && ThroughThread(w, x, c, a) && (c.Has(e) ==> !Before(e, x))
    ensures ThroughThread(q, x, c, a)
  {
    hide CausalSwap;
    RereadShape(q, w, o, e);
    SwapCausalFacts(q, w, o, e);
    var p :| In(w, p) && Before(p, x) && (p.index == 0 || c.Has(p)) && (a == p || CHas(w, p, a));
    assert In(q, p) && p != e;
  }

  lemma SwapRmw(q: Graph, w: Graph, o: Order, e: Event, x: Event, l: Label)
    requires CausalSwap(q, w, o, e) && In(q, x) && l.pos == x && Core(l) == Core(L(q, x)) && RmwKnown(w, l)
    ensures RmwKnown(q, L(q, x))
  {
    hide CausalSwap, Swapped, Unseen, Core, InvAt;
    CoreFields(l, L(q, x));
    SwapParts(q, w, o, e);
    if In(q, x.Prev()) { SwapFields(q, w, e, x.Prev()); }
  }

  // ----- all of it -----

  lemma SwapRfs(q: Graph, w: Graph, o: Order, e: Event)
    requires CausalSwap(q, w, o, e)
    ensures RfKnown(q) && RfOrdered(q, After(o, L(q, e), e))
  {
    hide CausalSwap, InvAt, HbInv, Sourced, OrderingsFixed, Ready, CausallyClosed, Ordered, Swapped, Unseen,
         PpoClosed, ReleasesCover, Anchored, ReadsInside, RefsInside, StartsBare, SelfContained, BaseOk, PpoSourced;
    RereadShape(q, w, o, e);
    CausalParts(q, w, o, e);
    var o' := After(o, L(q, e), e);
    forall x | IsReadAt(q, x)
      ensures L(q, x).rf != Bottom ==> RfEarlier(o', L(q, x).rf, x)
      ensures ReadsExternally(q, x) ==> CHas(q, x, L(q, x).rf)
    {
      if x == e {
        RereadKnows(q, w, o, e);
      } else {
        SwapFields(q, w, e, x);
        SwapRefKinds(q, w, o, e, x);
        assert IsReadAt(w, x) && (ReadsExternally(q, x) ==> ReadsExternally(w, x));
      }
    }
  }

  lemma RereadKnows(q: Graph, w: Graph, o: Order, e: Event)
    requires CausalSwap(q, w, o, e)
    ensures CHas(q, e, L(q, e).rf) && In(w, L(q, e).rf) && L(q, e).rf.thread != e.thread
  {
    hide InvAt, Swapped, Unseen, BaseOk, PpoSourced;
    RereadShape(q, w, o, e);
    CausalParts(q, w, o, e);
    LabelParts(w, o, L(q, e).rf);
    hide HbInv, Sourced, OrderingsFixed, Ready, CausallyClosed, Ordered, RfKnown, RfOrdered,
         PpoClosed, ReleasesCover, Anchored, ReadsInside, RefsInside, StartsBare, FromOwnWrites;
    assert CHas(w, L(q, e).rf, L(q, e).rf);
  }

  lemma SwapRest(q: Graph, w: Graph, o: Order, e: Event)
    requires CausalSwap(q, w, o, e) && In(q, Initializer)
    ensures OrderingsFixed(q) && MainBegun(q)
  {
    hide InvAt, FromRf, Unseen, WfOrdering;
    SwapParts(q, w, o, e);
    hide CausalSwap, Swapped;
    forall x | In(q, x) ensures WfOrdering(L(q, x)) {
      SwapFields(q, w, e, x);
      LabelParts(w, o, x);
      OrderingCore(L(w, x), L(q, x));
    }
    SwapFields(q, w, e, Initializer);
    InvParts(w, o);
  }

  lemma OrderingCore(l: Label, m: Label)
    requires WfOrdering(l) && l.ord == m.ord && (m.kind == l.kind || (l.kind.ThreadFinish? && m.kind.ThreadFinish?))
    ensures WfOrdering(m)
  {}

  lemma SwapCausal(q: Graph, w: Graph, o: Order, e: Event)
    requires CausalSwap(q, w, o, e) && ViewsInGraph(q)
    ensures Causal(q, After(o, L(q, e), e))
  {
    hide CausalSwap, ClocksInGraph, ViewsInGraph, Started, Positioned, Ranked, Ordered, CausallyClosed, SelfContained,
         PpoClosed, ReleasesCover, Anchored, ReadsInside, RefsInside, StartsBare;
    RereadShape(q, w, o, e);
    SwapClocksInside(q, w, o, e);
    SwapRefsInside(q, w, o, e);
    SwapClosed(q, w, o, e);
    SwapPpo(q, w, o, e);
    SwapOrder(q, w, o, e);
    SwapReads(q, w, o, e);
    SwapAnchored(q, w, o, e);
  }

  /** The views of q stay in q. */
  lemma SwapViews(q: Graph, w: Graph, o: Order, e: Event)
    requires HbSwap(q, w, o, e) && ViewsInGraph(w)
    ensures ViewsInGraph(q)
  {
    hide HbSwap;
    forall x | In(q, x)
      ensures L(q, x).hb.At(x.thread) == x.index
      ensures forall a :: L(q, x).hb.Has(a) ==> In(q, a)
      ensures L(q, x).IsWrite() ==> forall a :: L(q, x).msg.Has(a) ==> In(q, a)
    {
      if x == e { ReadViews(q, w, o, e); } else { OtherViews(q, w, o, e, x); }
    }
  }

  lemma OtherViews(q: Graph, w: Graph, o: Order, e: Event, x: Event)
    requires HbSwap(q, w, o, e) && ViewsInGraph(w) && In(q, x) && x != e
    ensures L(q, x).hb.At(x.thread) == x.index
    ensures forall a :: L(q, x).hb.Has(a) ==> In(q, a)
    ensures L(q, x).IsWrite() ==> forall a :: L(q, x).msg.Has(a) ==> In(q, a)
  {
    assert In(w, x) && L(q, x).hb == L(w, x).hb by { SwapFields(q, w, e, x); }
    assert L(w, x).hb.At(x.thread) == x.index;
    hide HbSwap, ViewsInGraph;
    forall a | L(q, x).hb.Has(a) ensures In(q, a) { SwapHbKnown(q, w, o, e, x, a); }
    if L(q, x).IsWrite() {
      forall a | L(q, x).msg.Has(a) ensures In(q, a) { MessageKnown(q, w, o, e, x, a); }
    }
  }

  lemma MessageKnown(q: Graph, w: Graph, o: Order, e: Event, x: Event, a: Event)
    requires HbSwap(q, w, o, e) && MsgHas(q, x, a)
    ensures In(q, a)
  {
    hide HbSwap, MsgSource;
    MessageSame(q, w, o, e, x, a);
    var p :| MsgSource(q, x, p) && HbHas(q, p, a);
    SourceStays(q, w, o, e, x, p);
    SwapHbKnown(q, w, o, e, p, a);
  }

  lemma ReadAfterPrev(q: Graph, w: Graph, o: Order, e: Event)
    requires HbSwap(q, w, o, e) && ViewsInGraph(w)
    ensures IsReadAt(q, e) && In(q, e.Prev()) && In(w, e.Prev()) && HbHas(q, e, e)
    ensures L(w, e.Prev()).hb.At(e.thread) == e.index - 1
    ensures forall a :: HbHas(q, e, a) ==>
                a == e || HbHas(w, e.Prev(), a) || (L(q, e).AtLeastAcquire() && MsgHas(q, L(q, e).rf, a))
  {
    hide HbInv, Sourced, Positioned, RefsInside, Started, ReleasesCover, SelfContained, Unseen, LateFencesExact,
         LateFencesAfter;
    SwapContents(q, w, e);
    assert In(q, e.Prev());
    SwapFields(q, w, e, e.Prev());
    hide Swapped;
  }

  lemma ReadViews(q: Graph, w: Graph, o: Order, e: Event)
    requires HbSwap(q, w, o, e) && ViewsInGraph(w)
    ensures In(q, e) && L(q, e).hb.At(e.thread) == e.index && L(q, e).IsRead()
    ensures forall a :: L(q, e).hb.Has(a) ==> In(q, a)
  {
    hide HbSwap, ViewsInGraph;
    ReadAfterPrev(q, w, o, e);
    forall a | L(q, e).hb.Has(a)
      ensures In(q, a)
      ensures a.thread == e.thread ==> a.index <= e.index
    {
      ReadViewKnown(q, w, o, e, a);
    }
    var next := Event(e.thread, e.index + 1);
    assert HbHas(q, e, e) && !L(q, e).hb.Has(next);
  }

  lemma ReadViewKnown(q: Graph, w: Graph, o: Order, e: Event, a: Event)
    requires HbSwap(q, w, o, e) && ViewsInGraph(w) && HbHas(q, e, a)
    ensures In(q, a) && (a.thread == e.thread ==> a.index <= e.index)
  {
    hide HbSwap, ViewsInGraph;
    ReadAfterPrev(q, w, o, e);
    if HbHas(w, e.Prev(), a) {
      SwapHbKnown(q, w, o, e, e.Prev(), a);
    } else if a != e {
      MessageKnown(q, w, o, e, L(q, e).rf, a);
      if a.thread == e.thread && a.index > e.index { LateRelaxed(q, w, o, e, a); }
    }
  }

  // ----- fences that have synchronised already -----

  /** A late fence that has what the message of the new write says comes after all it comes from. */
  lemma FencesFollow(q: Graph, w: Graph, o: Order, e: Event)
    requires Swapped(q, w, e) && Unseen(q, e) && InvAt(w, o) && LateFencesExact(q, e)
    ensures LateFencesAfter(q, Lowered(w, o), e)
  {
    hide Swapped, Unseen, InvAt, LateFencesExact, LateFence, Lowered, MsgSource;
    assert In(q, e) by { SwapReadIn(q, w, e); }
    forall p, x | LateFence(q, e, x) && L(q, e).AtMostRelease() && MsgSource(q, L(q, e).rf, p)
      ensures Lowered(w, o).HbBefore(p, x)
    {
      FenceFollows(q, w, o, e, p, x);
    }
  }

  lemma FenceFollows(q: Graph, w: Graph, o: Order, e: Event, p: Event, x: Event)
    requires Swapped(q, w, e) && Unseen(q, e) && InvAt(w, o) && LateFencesExact(q, e)
    requires LateFence(q, e, x) && L(q, e).AtMostRelease() && MsgSource(q, L(q, e).rf, p)
    ensures Lowered(w, o).HbBefore(p, x)
  {
    hide Swapped, Unseen, InvAt, LateFencesExact, LateFence, Lowered, MsgSource, BeginsFollow;
    BeginsDo(w, o);
    FenceParts(q, w, e, x);
    FromMessage(q, w, o, e, p);
    if L(w, p).kind.ThreadStart? {
      BeginInMessage(w, o, p);
      var c := L(w, p).kind.parentCreate;
      if p != Initializer && c != Initializer { FenceHeard(q, w, o, e, p, x, c); }
      BeginLowered(w, o, p, x);
    } else {
      OwnView(w, o, p);
      FenceHeard(q, w, o, e, p, x, p);
      StillOrdered(w, o, p, x);
    }
  }

  lemma FenceParts(q: Graph, w: Graph, e: Event, x: Event)
    requires Swapped(q, w, e) && LateFence(q, e, x)
    ensures In(q, e) && In(w, x) && L(w, x).kind.Fence? && x != e
  {
    SwapFields(q, w, e, x);
  }

  lemma FromMessage(q: Graph, w: Graph, o: Order, e: Event, p: Event)
    requires Swapped(q, w, e) && Unseen(q, e) && InvAt(w, o) && MsgSource(q, L(q, e).rf, p) && In(q, e)
    ensures In(w, p) && MsgSource(w, L(q, e).rf, p)
  {
    hide Unseen, MsgSource, Causal, HbInv, Sourced, RfKnown, RfOrdered, OrderingsFixed, RefsInside, Positioned, Started;
    InvParts(w, o);
    CausalReady(w, o);
    MsgSourceSame(q, w, e, L(q, e).rf);
    hide Swapped;
    MsgSourceInside(w, L(q, e).rf, p);
  }

  lemma BeginInMessage(w: Graph, o: Order, p: Event)
    requires InvAt(w, o) && In(w, p) && L(w, p).kind.ThreadStart?
    ensures var c := L(w, p).kind.parentCreate;
            p != Initializer && c != Initializer ==>
              In(w, c) && L(w, c).kind.ThreadCreate? && c.index >= 1 && HbHas(w, p, c)
  {
    hide InvAt, Causal, Sourced, RfKnown, RfOrdered, OrderingsFixed, MessagesExact, SourcesOrdered, PoOrdered,
         EdgesOrdered, MsgSource, RefsInside, ClocksInGraph, ViewsInGraph, HbEdge, BeginsFollow;
    InvParts(w, o);
    CausalReady(w, o);
    if p != Initializer {
      BeginsDo(w, o);
      var c := L(w, p).kind.parentCreate;
      assert CreationBefore(w, o, p) by { BeginFollows(w, o, p); }
      if c != Initializer {
        LabelParts(w, o, c);
        CreationInView(w, p, c);
      }
    }
  }

  lemma BeginFollows(w: Graph, o: Order, p: Event)
    requires BeginsFollow(w, o) && In(w, p) && L(w, p).kind.ThreadStart? && p != Initializer
    ensures CreationBefore(w, o, p)
  {}

  lemma CreationInView(w: Graph, p: Event, c: Event)
    requires LocallyExact(w) && Positioned(w) && In(w, p) && L(w, p).kind == ThreadStart(c) && In(w, c) && c.index >= 1
    requires L(w, c).kind.ThreadCreate?
    ensures HbHas(w, p, c)
  {
    hide MsgSource;
    PosAt(w, p);
    assert EdgeInto(w, c, L(w, p)) && HbEdge(w, c, p);
    assert HbHas(w, c, c);
    assert ViaEdge(w, p, c);
  }

  lemma OwnView(w: Graph, o: Order, p: Event)
    requires InvAt(w, o) && In(w, p) && !L(w, p).kind.ThreadStart?
    ensures p.index >= 1 && HbHas(w, p, p)
  {
    hide InvAt, Causal, Sourced, RfKnown, RfOrdered, OrderingsFixed, MessagesExact, SourcesOrdered, PoOrdered,
         EdgesOrdered, HbEdge;
    InvParts(w, o);
    LabelParts(w, o, p);
  }

  /** What a source of the message knows, the fence knows, so it comes before the fence. */
  lemma FenceHeard(q: Graph, w: Graph, o: Order, e: Event, p: Event, x: Event, a: Event)
    requires Swapped(q, w, e) && Unseen(q, e) && InvAt(w, o) && LateFencesExact(q, e)
    requires LateFence(q, e, x) && L(q, e).AtMostRelease() && MsgSource(q, L(q, e).rf, p) && MsgSource(w, L(q, e).rf, p)
    requires HbHas(w, p, a) && In(w, a) && (a == p || L(w, a).kind.ThreadCreate?)
    ensures o.HbBefore(a, x)
  {
    hide InvAt, LateFence, MsgSource, BeginsFollow, Unseen, Swapped;
    FenceParts(q, w, e, x);
    var rf := L(q, e).rf;
    InvParts(w, o);
    CausalReady(w, o);
    hide Causal, Sourced, RfKnown, RfOrdered, OrderingsFixed, RefsInside, ClocksInGraph, ViewsInGraph;
    assert MsgHas(w, rf, a) by { MessageSays(w, o, rf, p, a); }
    assert HbHas(w, x, a) by { FenceHears(q, w, e, x, a); }
    if a == p { FenceSilent(q, w, o, e, x, rf); }
    hide LateFencesExact, HbInv;
    HbComesBefore(w, o, a, x);
  }

  lemma MessageSays(w: Graph, o: Order, rf: Event, p: Event, a: Event)
    requires HbInv(w, o) && MsgSource(w, rf, p) && HbHas(w, p, a)
    ensures MsgHas(w, rf, a)
  {
    assert ViaSource(w, rf, a);
  }

  lemma FenceHears(q: Graph, w: Graph, e: Event, x: Event, a: Event)
    requires Swapped(q, w, e) && LateFencesExact(q, e) && LateFence(q, e, x) && L(q, e).AtMostRelease()
    requires MsgHas(w, L(q, e).rf, a)
    ensures HbHas(w, x, a)
  {
    SwapContents(q, w, e);
    assert FenceableRead(q, x, e) && MsgHas(q, L(q, e).rf, a);
    assert FenceExact(q, x) && ViaFence(q, x, a);
  }

  lemma FenceSilent(q: Graph, w: Graph, o: Order, e: Event, x: Event, v: Event)
    requires Swapped(q, w, e) && Unseen(q, e) && InvAt(w, o) && LateFence(q, e, x)
    ensures !MsgSource(q, v, x)
  {
    hide Swapped, Unseen, HbInv, Sourced, RfKnown, RfOrdered, OrderingsFixed, MsgSource;
    InvParts(w, o);
    FenceSendsNothing(q, w, e, x, v);
  }

  lemma HbComesBefore(w: Graph, o: Order, a: Event, x: Event)
    requires InvAt(w, o) && In(w, x) && HbHas(w, x, a) && a != x
    ensures o.HbBefore(a, x)
  {
    hide InvAt, Causal, Sourced, RfKnown, RfOrdered, OrderingsFixed, LocallyExact, MessagesExact, SourcesOrdered,
         PoOrdered, EdgesOrdered;
    InvParts(w, o);
    CausalReady(w, o);
    ReachedByView(w, o, a, x);
    var ps :| HbPath(w, ps) && ps[0] == a && ps[|ps| - 1] == x;
    PathOrdered(w, o, ps);
  }

  lemma SwapAll(q: Graph, w: Graph, o: Order, e: Event)
    requires CausalSwap(q, w, o, e) && In(q, Initializer)
    requires ReadExact(q, e) && LateFencesExact(q, e) && LateFencesAfter(q, o, e)
    ensures InvAt(q, After(o, L(q, e), e))
  {
    hide CausalSwap, InvAt, Swapped, Unseen, ReadExact, LateFencesExact, LateFencesAfter, HbInv, Sourced, RefsInside,
         ReleasesCover, SelfContained, Positioned, Started, ViewsInGraph, ClocksInGraph, Causal, RfKnown, RfOrdered,
         OrderingsFixed, MainBegun, CausallyClosed, PpoClosed, Anchored, ReadsInside, StartsBare, Ordered, Ranked;
    RereadShape(q, w, o, e);
    assert In(q, e);
    CausalParts(q, w, o, e);
    assert HbSwap(q, w, o, e);
    SwapViews(q, w, o, e);
    SwapHb(q, w, o, e);
    hide HbSwap;
    SwapCausal(q, w, o, e);
    SwapSourced(q, w, o, e);
    SwapRfs(q, w, o, e);
    SwapRest(q, w, o, e);
    InvWhole(q, After(o, L(q, e), e));
  }

  /** A read takes another write, though labels follow it in its thread: all clocks stay right if no other label knew
      it, and fences after it have what the new message says. */
  lemma SwapInv(q: Graph, w: Graph, o: Order, e: Event)
    requires CausalSwap(q, w, o, e) && In(q, Initializer) && ReadExact(q, e) && LateFencesExact(q, e)
    ensures InvAt(q, After(Lowered(w, o), L(q, e), e))
  {
    hide InvAt, Swapped, Unseen, ReadExact, LateFencesExact, LateFencesAfter, FromRf, Lowered;
    SwapParts(q, w, o, e);
    FencesFollow(q, w, o, e);
    LoweredInv(w, o);
    assert CausalSwap(q, w, Lowered(w, o), e);
    hide CausalSwap;
    SwapAll(q, w, Lowered(w, o), e);
  }

  /** What a blocked thread waits at can still be built on, if it does not build on the read. */
  lemma SwapBase(q: Graph, w: Graph, o: Order, e: Event, x: Event, c: Clock)
    requires CausalSwap(q, w, o, e) && Limit(q, x) && BaseOk(w, x, c) && PpoSourced(w, x, c) && !c.Has(e)
    ensures BaseOk(q, x, c) && PpoSourced(q, x, c)
  {
    hide CausalSwap, InvAt, Swapped, Unseen, PpoSourced, LaterIn;
    SwapPpoSourced(q, w, o, e, x, c);
    SwapParts(q, w, o, e);
    SwapCausalFacts(q, w, o, e);
    SwapContents(q, w, e);
    forall a | c.Has(a) && a != x ensures In(q, a) { SwapPpoKnown(q, w, o, e, x, c, a); }
  }
}
