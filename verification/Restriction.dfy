/** Parts of a graph that know of nothing outside them inherit its invariants. */
module Restriction {
  import opened Events
  import opened Clocks
  import opened Graphs
  import opened ImmSpec
  import opened Causality
  import opened HbExact

  /** The views of a label stay in the graph. */
  ghost predicate KnowsInside(g: Graph, lab: Label) {
    && (forall a :: lab.pporf.Has(a) || lab.ppo.Has(a) || lab.hb.Has(a) ==> In(g, a))
    && (lab.IsWrite() ==> forall a :: lab.msg.Has(a) ==> In(g, a))
  }

  predicate RefersInside(g: Graph, lab: Label) {
    && (lab.IsRead() ==> lab.rf == Bottom || In(g, lab.rf))
    && (lab.kind.ThreadStart? ==> In(g, lab.kind.parentCreate))
    && (lab.kind.ThreadJoin? ==> In(g, lab.kind.childLast))
  }

  /** g is part of h, and closed under what its labels refer to. */
  ghost predicate Closed(g: Graph, h: Graph) {
    Within(g, h) && forall x :: In(g, x) ==> RefersInside(g, L(g, x))
  }

  /** It is also closed under what its labels know of. */
  ghost predicate Supported(g: Graph, h: Graph) {
    Closed(g, h) && forall x :: In(g, x) ==> KnowsInside(g, L(g, x))
  }

  lemma ClosedAt(g: Graph, h: Graph, x: Event)
    requires Closed(g, h) && In(g, x)
    ensures Within(g, h) && RefersInside(g, L(g, x))
  {}

  /** Labels of the part, field by field. */
  lemma PartFields(g: Graph, h: Graph, x: Event)
    requires Within(g, h) && In(g, x)
    ensures In(h, x)
    ensures var l, m := L(g, x), L(h, x);
            && l.pos == m.pos && l.ord == m.ord && l.addr == m.addr && l.rf == m.rf
            && l.hb == m.hb && l.ppo == m.ppo && l.pporf == m.pporf && l.msg == m.msg
            && (l.kind == m.kind || (l.kind.ThreadFinish? && m.kind.ThreadFinish?))
  {
    CoreFields(L(h, x), L(g, x));
  }

  lemma PartContents(g: Graph, h: Graph)
    requires Within(g, h)
    ensures forall x, a :: In(g, x) ==> (CHas(g, x, a) <==> CHas(h, x, a)) && (PHas(g, x, a) <==> PHas(h, x, a))
    ensures forall x, a :: In(g, x) ==> (HbHas(g, x, a) <==> HbHas(h, x, a)) && (MsgHas(g, x, a) <==> MsgHas(h, x, a))
    ensures forall x :: In(g, x) ==> In(h, x) && IsListedRelease(L(g, x)) == IsListedRelease(L(h, x)) &&
                                     KeepsPpo(L(g, x)) == KeepsPpo(L(h, x)) &&
                                         IsRecomputable(L(g, x)) == IsRecomputable(L(h, x))
    ensures forall x :: In(g, x) ==> IsAnchor(g, x) == IsAnchor(h, x)
  {
    forall x | In(g, x)
      ensures L(g, x).pporf == L(h, x).pporf && L(g, x).ppo == L(h, x).ppo && L(g, x).hb == L(h, x).hb
      ensures L(g, x).msg == L(h, x).msg && L(g, x).IsWrite() == L(h, x).IsWrite()
      ensures IsListedRelease(L(g, x)) == IsListedRelease(L(h, x)) && KeepsPpo(L(g, x)) == KeepsPpo(L(h, x))
      ensures IsRecomputable(L(g, x)) == IsRecomputable(L(h, x)) && IsAnchor(g, x) == IsAnchor(h, x)
    {
      PartFields(g, h, x);
    }
  }

  // ----- causality -----

  lemma SupportedReady(g: Graph, h: Graph)
    requires Supported(g, h) && Ready(h) && RefsInside(h) && StartsBare(h)
    ensures Ready(g) && RefsInside(g) && StartsBare(g)
  {
    forall x | In(g, x)
      ensures L(g, x).pporf.Wf() && L(g, x).pporf.Tight() && L(g, x).ppo.Wf() && L(g, x).ppo.Tight()
      ensures L(g, x).pos == x && L(g, x).hb.At(x.thread) == x.index && (L(g, x).kind.ThreadStart? <==> x.index == 0)
      ensures !KeepsPpo(L(g, x)) ==> L(g, x).ppo == EmptyClock
    {
      PartFields(g, h, x);
    }
    ClosedRefs(g, h);
  }

  lemma ClosedRefs(g: Graph, h: Graph)
    requires Closed(g, h) && RefsInside(h)
    ensures RefsInside(g)
  {
    forall x | In(g, x)
      ensures L(g, x).IsRead() ==> L(g, x).rf == Bottom || (RfTarget(g, L(g, x).rf) && L(g, x).rf != x)
      ensures L(g, x).kind.ThreadStart? ==> CreatorRef(g, L(g, x).kind.parentCreate)
      ensures L(g, x).kind.ThreadJoin? ==> FinishRef(g, L(g, x).kind.childLast)
    {
      PartFields(g, h, x);
      assert RefersInside(g, L(g, x));
      if L(g, x).IsRead() && L(g, x).rf != Bottom { PartFields(g, h, L(g, x).rf); }
      if L(g, x).kind.ThreadStart? { PartFields(g, h, L(g, x).kind.parentCreate); }
      if L(g, x).kind.ThreadJoin? { PartFields(g, h, L(g, x).kind.childLast); }
    }
  }

  lemma SupportedClosed(g: Graph, h: Graph, o: Order)
    requires Supported(g, h) && Causal(h, o)
    ensures Ranked(g, o) && Ordered(g, o) && CausallyClosed(g) && SelfContained(g) && PpoClosed(g) && ReleasesCover(g)
  {
    hide Ready, Anchored, ReadsInside, RefsInside, StartsBare;
    PartContents(g, h);
    KnownInside(g, h);
    hide Supported, Within;
  }

  lemma KnownInside(g: Graph, h: Graph)
    requires Supported(g, h)
    ensures forall x, a :: CHas(g, x, a) || PHas(g, x, a) || HbHas(g, x, a) || MsgHas(g, x, a) ==> In(g, x) && In(g, a)
  {}

  lemma SupportedAnchored(g: Graph, h: Graph, o: Order)
    requires Supported(g, h) && Causal(h, o)
    ensures Anchored(g) && ReadsInside(g)
  {
    hide Ready, RefsInside, StartsBare, CausallyClosed, PpoClosed, ReleasesCover, Ordered, Ranked, SelfContained;
    PartContents(g, h);
    KnownInside(g, h);
    forall x, a | CHas(g, x, a)
      ensures if a.thread == x.thread then a.index <= x.index || L(g, x).IsRead() else ViaAnchor(g, x, a)
    {
      PartFields(g, h, x);
      assert CHas(h, x, a);
      if a.thread != x.thread { AnchorInside(g, h, x, a); }
    }
    forall x | In(g, x) ensures L(g, x).pporf == L(h, x).pporf && L(g, x).ppo == L(h, x).ppo { PartFields(g, h, x); }
    hide Supported, Within, ViaAnchor, LaterIn;
  }

  /** Anchors are earlier in the thread, so they are part of it. */
  lemma AnchorInside(g: Graph, h: Graph, x: Event, a: Event)
    requires Within(g, h) && In(g, x) && ViaAnchor(h, x, a)
    ensures ViaAnchor(g, x, a)
  {
    var q: Event :| q.thread == x.thread && q.index <= x.index && IsAnchor(h, q) && CHas(h, q, a);
    assert In(g, q);
    PartContents(g, h);
    assert IsAnchor(g, q) && CHas(g, q, a);
  }

  /** A supported part of a causal graph is causal. */
  lemma SupportedCausal(g: Graph, h: Graph, o: Order)
    requires Supported(g, h) && Causal(h, o)
    ensures Causal(g, o)
  {
    SupportedReady(g, h);
    SupportedClosed(g, h, o);
    SupportedAnchored(g, h, o);
  }

  // ----- hb -----

  lemma {:induction false} SourceInside(g: Graph, w: Event, p: Event, n: nat)
    requires RefsInside(g) && SourceWithin(g, w, p, n)
    ensures In(g, p)
    decreases n
  {
    if !BaseSource(g, w, p) { SourceInside(g, L(g, w.Prev()).rf, p, n - 1); }
  }

  lemma MsgSourceInside(g: Graph, w: Event, p: Event)
    requires RefsInside(g) && MsgSource(g, w, p)
    ensures In(g, p) && In(g, w)
  {
    var n: nat :| SourceWithin(g, w, p, n);
    SourceInside(g, w, p, n);
  }

  /** Edges into the part come from the part, and are the same. */
  lemma PartEdge(g: Graph, h: Graph, p: Event, x: Event)
    requires Supported(g, h) && RefsInside(g) && Positioned(g) && In(g, x)
    ensures HbEdge(h, p, x) <==> HbEdge(g, p, x)
  {
    hide MsgSource;
    PartFields(g, h, x);
    EdgeIntoCore(h, p, L(h, x), L(g, x));
    assert L(g, x).pos == x;
    if In(g, p) {
      EdgeIntoKept(g, h, p, L(g, x));
    } else if EdgeInto(h, p, L(g, x)) {
      EdgeFromInside(g, h, p, L(g, x));
    }
  }

  lemma EdgeFromInside(g: Graph, h: Graph, p: Event, m: Label)
    requires Closed(g, h) && RefsInside(g) && EdgeInto(h, p, m) && In(g, m.pos) && RefersInside(g, m)
    ensures In(g, p)
  {
    hide MsgSource;
    if m.IsRead() && MsgSource(h, m.rf, p) {
      if m.rf == Bottom {
        SourceIsWrite(h, Bottom);
      } else {
        MsgSourceKept(g, h, m.rf);
        MsgSourceInside(g, m.rf, p);
      }
    } else if m.kind.Fence? {
      if r :| FenceableRead(h, m.pos, r) && MsgSource(h, L(h, r).rf, p) { FenceSourceInside(g, h, m.pos, r, p); }
    }
  }

  lemma FenceSourceInside(g: Graph, h: Graph, e: Event, r: Event, p: Event)
    requires Closed(g, h) && RefsInside(g) && In(g, e) && FenceableRead(h, e, r) && MsgSource(h, L(h, r).rf, p)
    ensures In(g, p)
  {
    hide MsgSource;
    assert In(g, r);
    PartFields(g, h, r);
    SourceIsWrite(h, L(h, r).rf);
    MsgSourceKept(g, h, L(g, r).rf);
    MsgSourceInside(g, L(g, r).rf, p);
  }

  lemma SupportedLocal(g: Graph, h: Graph)
    requires Supported(g, h) && LocallyExact(h) && RefsInside(g) && Positioned(g)
    ensures LocallyExact(g)
  {
    hide RefsInside, Positioned, HbEdge, Supported;
    forall x, a ensures HbHas(g, x, a) <==> (a == x && In(g, x) && x.index >= 1) || ViaEdge(g, x, a) {
      if In(g, x) {
        forall p ensures HbEdge(h, p, x) <==> HbEdge(g, p, x) { PartEdge(g, h, p, x); }
        forall p | HbEdge(g, p, x) ensures In(g, p) { EdgeEnds(g, p, x); }
        assert Within(g, h) by { SupportedWithin(g, h); }
        PartContents(g, h);
        assert HbHas(h, x, a) <==> (a == x && In(h, x) && x.index >= 1) || ViaEdge(h, x, a);
      } else {
        NotTarget(g, x, a);
      }
    }
  }

  lemma SupportedWithin(g: Graph, h: Graph)
    requires Supported(g, h)
    ensures Within(g, h)
  {}

  lemma EdgeEnds(g: Graph, p: Event, x: Event)
    requires HbEdge(g, p, x)
    ensures In(g, p) && In(g, x)
  {}

  lemma SupportedMessages(g: Graph, h: Graph)
    requires Supported(g, h) && MessagesExact(h) && RefsInside(g)
    ensures MessagesExact(g)
  {
    hide RefsInside, MsgSource, Supported;
    forall w, a ensures MsgHas(g, w, a) <==> ViaSource(g, w, a) {
      SourceIsWrite(g, w);
      if In(g, w) {
        SupportedWithin(g, h);
        MsgSourceKept(g, h, w);
        forall p | MsgSource(g, w, p) ensures In(g, p) { MsgSourceInside(g, w, p); }
        PartContents(g, h);
        assert MsgHas(h, w, a) <==> ViaSource(h, w, a);
      }
    }
  }

  /** A supported part keeps the hb invariant. */
  lemma SupportedHb(g: Graph, h: Graph, o: Order)
    requires Supported(g, h) && HbInv(h, o) && RefsInside(g) && Positioned(g)
    ensures HbInv(g, o)
  {
    SupportedLocal(g, h);
    SupportedMessages(g, h);
    hide LocallyExact, MessagesExact, MsgSource, HbEdge, RefsInside, Positioned;
    SupportedWithin(g, h);
    PartContents(g, h);
    forall p, x | HbEdge(g, p, x) ensures o.HbBefore(p, x) {
      EdgeEnds(g, p, x);
      PartEdge(g, h, p, x);
    }
    forall w, p | MsgSource(g, w, p) ensures In(g, p) && !IsRecomputable(L(g, p)) && (p == w || o.HbBefore(p, w)) {
      MsgSourceInside(g, w, p);
      MsgSourceKept(g, h, w);
    }
  }
}
