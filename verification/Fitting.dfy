/** The labels the driver computes fit the graph they are computed over. */
module Fitting {
  import opened Events
  import opened Clocks
  import opened Graphs
  import opened ImmSpec
  import opened Causality
  import opened HbExact

  /** What of the hb invariant a new label relies on. */
  ghost predicate HbReady(g: Graph) {
    LocallyExact(g) && MessagesExact(g) && Positioned(g)
  }

  /** The join records the finish of its child if there is one, and the initialiser otherwise. */
  ghost predicate JoinRecorded(g: Graph, lab: Label) {
    lab.kind.ThreadJoin? ==>
      if exists f :: FinishOf(g, lab.kind.childId, f) then FinishOf(g, lab.kind.childId, lab.kind.childLast)
      else lab.kind.childLast == Initializer && !lab.pos.IsInitializer()
  }

  // ----- hb and messages -----

  lemma MessagesVia(g: Graph, w: Event, a: Event)
    requires MessagesExact(g)
    ensures MsgHas(g, w, a) <==> exists p :: MsgSource(g, w, p) && HbHas(g, p, a)
  {
    assert MsgHas(g, w, a) <==> ViaSource(g, w, a);
  }

  /** Messages reaching an acquire fence: those scanned, and those the fence before had already. */
  lemma FenceMessages(g: Graph, lab: Label, a: Event)
    requires HbReady(g) && lab.kind.Fence? && lab.AtLeastAcquire() && Limit(g, lab.pos) && lab.pos.index >= 1
    ensures HbHas(g, lab.pos.Prev(), a) || (exists r :: ScannedRead(g, lab.pos, r) && MsgHas(g, L(g, r).rf, a)) <==>
            HbHas(g, lab.pos.Prev(), a) ||
            (exists p :: In(g, p) && HbHas(g, p, a) &&
                         exists r :: FenceableRead(g, lab.pos, r) && MsgSource(g, L(g, r).rf, p))
  {
    hide LocallyExact, MessagesExact, MsgSource;
    if r :| ScannedRead(g, lab.pos, r) && MsgHas(g, L(g, r).rf, a) {
      MessagesVia(g, L(g, r).rf, a);
      assert FenceableRead(g, lab.pos, r);
    }
    if p, r :| In(g, p) && HbHas(g, p, a) && FenceableRead(g, lab.pos, r) && MsgSource(g, L(g, r).rf, p) {
      FenceScanComplete(g, lab.pos, r, p, a);
      MessagesVia(g, L(g, r).rf, a);
    }
  }

  /** hb contents as computed are exactly what the edges into the label bring. */
  lemma HbComputedFits(g: Graph, lab: Label)
    requires HbReady(g) && Started(g) && Limit(g, lab.pos) && lab.pos.index == |g[lab.pos.thread]|
    requires HbComputed(g, lab, lab.hb) && JoinRecorded(g, lab)
    requires lab.kind.ThreadStart? <==> lab.pos.index == 0
    ensures HbFits(g, lab)
  {
    hide LocallyExact, MessagesExact, MsgSource, ScannedRead, FenceableRead;
    forall a
      ensures lab.hb.Has(a) <==> (a == lab.pos && a.index >= 1) || exists p :: EdgeInto(g, p, lab) && HbHas(g, p, a)
    {
      if lab.IsRead() { MessagesVia(g, lab.rf, a); }
      if lab.kind.Fence? && lab.AtLeastAcquire() { FenceMessages(g, lab, a); }
      HbNewIffEdge(g, lab, a);
    }
  }

  lemma HbNewIffEdge(g: Graph, lab: Label, a: Event)
    requires Started(g) && Limit(g, lab.pos) && lab.pos.index == |g[lab.pos.thread]| && JoinRecorded(g, lab)
    requires lab.kind.ThreadStart? <==> lab.pos.index == 0
    requires lab.IsRead() ==> (MsgHas(g, lab.rf, a) <==> exists p :: MsgSource(g, lab.rf, p) && HbHas(g, p, a))
    requires lab.kind.Fence? && lab.AtLeastAcquire() ==>
               (HbHas(g, lab.pos.Prev(), a) || (exists r :: ScannedRead(g, lab.pos, r) && MsgHas(g, L(g, r).rf, a)) <==>
                HbHas(g, lab.pos.Prev(), a) ||
                (exists p :: In(g, p) && HbHas(g, p, a) &&
                             exists r :: FenceableRead(g, lab.pos, r) && MsgSource(g, L(g, r).rf, p)))
    ensures HbNew(g, lab, a) <==> (a == lab.pos && a.index >= 1) || exists p :: EdgeInto(g, p, lab) && HbHas(g, p, a)
  {
    hide MsgSource, ScannedRead, FenceableRead;
    if lab.pos.index >= 1 { assert EdgeInto(g, lab.pos.Prev(), lab); }
    match lab.kind
    case ThreadStart(c) => assert EdgeInto(g, c, lab) <==> In(g, c);
    case ThreadJoin(c, f) =>
      assert EdgeInto(g, f, lab) <==> In(g, f) && (f == lab.pos.Prev() || L(g, f).kind.ThreadFinish?);
      assert forall x, y :: FinishOf(g, c, x) && FinishOf(g, c, y) ==> x == y;
    case _ =>
  }

  lemma MsgComputedFits(g: Graph, o: Order, lab: Label)
    requires MessagesExact(g) && SourcesOrdered(g, o) && Limit(g, lab.pos) && !In(g, lab.pos) && lab.pos.index >= 1
    requires MsgComputed(g, lab, lab.msg)
    ensures MsgFits(g, lab)
  {
    hide MessagesExact, MsgSource, LastReleaseAtLoc, NewSource;
    if lab.IsWrite() {
      forall a
        ensures lab.msg.Has(a) <==>
                exists p :: NewSource(g, lab, p) && if p == lab.pos then lab.hb.Has(a) else HbHas(g, p, a)
      {
        if lab.IsRmwStore() { RmwMessage(g, o, lab, a); } else { PlainMessage(g, lab, a); }
      }
    }
  }

  lemma PlainMessage(g: Graph, lab: Label, a: Event)
    requires Limit(g, lab.pos) && lab.pos.index >= 1 && lab.IsWrite() && !lab.IsRmwStore()
    ensures MsgNew(g, lab, a) <==>
            exists p :: NewSource(g, lab, p) && if p == lab.pos then lab.hb.Has(a) else HbHas(g, p, a)
  {
    var w, rel := lab.pos, LastReleaseAtLoc(g, lab.pos, lab.addr);
    LastReleaseBelow(g, w, lab.addr);
    assert lab.AtLeastRelease() ==> NewSource(g, lab, w);
    assert !lab.AtLeastRelease() && lab.AtMostAcquire() ==> NewSource(g, lab, rel);
  }

  lemma RmwMessage(g: Graph, o: Order, lab: Label, a: Event)
    requires MessagesExact(g) && SourcesOrdered(g, o) && Limit(g, lab.pos) && !In(g, lab.pos) && lab.pos.index >= 1
    requires lab.IsRmwStore()
    ensures MsgNew(g, lab, a) <==>
            exists p :: NewSource(g, lab, p) && if p == lab.pos then lab.hb.Has(a) else HbHas(g, p, a)
  {
    hide MessagesExact, MsgSource, LastReleaseAtLoc;
    var w, rel := lab.pos, LastReleaseAtLoc(g, lab.pos, lab.addr);
    assert rel != w by { LastReleaseBelow(g, w, lab.addr); }
    var own := if In(g, w.Prev()) && L(g, w.Prev()).AtLeastRelease() then w else rel;
    assert NewSource(g, lab, own);
    if IsReadAt(g, w.Prev()) {
      var rf := L(g, w.Prev()).rf;
      MessagesVia(g, rf, a);
      assert forall p :: MsgSource(g, rf, p) ==> p != w && NewSource(g, lab, p);
    }
  }

  // ----- all a computed label has to satisfy -----

  lemma ComputedFits(g: Graph, o: Order, lab0: Label, deps: EventDeps, lab: Label)
    requires Causal(g, o) && Viewable(g, lab0, deps) && ViewsComputed(g, lab0, deps, lab) && In(g, Initializer)
    ensures Fits(g, lab)
  {
    hide Ranked, Ordered, CausallyClosed, SelfContained, PpoClosed, ReleasesCover, Anchored, ReadsInside, RefsInside,
         StartsBare, FromPpo, FromRf, FromRelease, ClocksInGraph, ViewsInGraph, HbComputed, MsgComputed, Fits, BaseOk;
    match lab.kind
    case Read(_) =>
      PpoBaseOk(g, lab.pos, deps, lab.ppo);
      ReadFits(g, o, lab);
    case Write(_) => WriteFits(g, o, lab, deps);
    case ThreadStart(_) => StartFits(g, o, lab);
    case ThreadJoin(c, _) =>
      PpoBaseOk(g, lab.pos, deps, lab.ppo);
      if f :| FinishOf(g, c, f) {
        assert forall x :: FinishOf(g, c, x) ==> x == f;
        JoinFits(g, o, lab, f);
      } else {
        JoinFits(g, o, lab, Initializer);
      }
    case LockLapor => LockFits(g, o, lab, deps);
    case _ => PlainFits(g, o, lab, deps);
  }

  /** Views whose contents come from the graph stay in it. */
  lemma HbFitsInside(g: Graph, lab: Label)
    requires ViewsInGraph(g) && HbFits(g, lab)
    ensures forall a :: lab.hb.Has(a) ==> In(g, a) || a == lab.pos
  {}

  lemma MsgFitsInside(g: Graph, lab: Label)
    requires ViewsInGraph(g) && Limit(g, lab.pos) && MsgFits(g, lab) && lab.IsWrite() && HbFits(g, lab)
    ensures forall a :: lab.msg.Has(a) ==> In(g, a) || a == lab.pos
  {
    HbFitsInside(g, lab);
  }

  lemma FitsViewsFrom(g: Graph, lab: Label)
    requires ViewsInGraph(g) && Limit(g, lab.pos) && HbFits(g, lab) && MsgFits(g, lab)
    requires lab.pporf.Wf() && lab.pporf.Tight() && lab.ppo.Wf() && lab.ppo.Tight()
    requires lab.hb.At(lab.pos.thread) == lab.pos.index
    ensures FitsViews(g, lab)
  {
    HbFitsInside(g, lab);
    if lab.IsWrite() { MsgFitsInside(g, lab); }
  }

  lemma HbInvReady(g: Graph, o: Order)
    requires HbInv(g, o) && Positioned(g)
    ensures HbReady(g) && SourcesOrdered(g, o)
  {}

  lemma JoinedHbFits(g: Graph, lab: Label, f: Event)
    requires lab.kind.ThreadJoin? && lab.kind.childLast == f && In(g, f) && L(g, f).kind.ThreadFinish?
    requires lab.pos.index >= 1
    requires Limit(g, lab.pos)
    requires forall a :: lab.hb.Has(a) <==> a == lab.pos || HbHas(g, lab.pos.Prev(), a) || HbHas(g, f, a)
    ensures HbFits(g, lab)
  {
    assert EdgeInto(g, lab.pos.Prev(), lab) && EdgeInto(g, f, lab);
  }

  lemma RecomputableSendsNothing(g: Graph, lab: Label)
    requires IsRecomputable(lab) && Limit(g, lab.pos)
    ensures MsgFits(g, lab)
  {}
}
