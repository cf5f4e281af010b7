/** Causal closure of the pporf views, for labels appended in program order. */
module Causality {
  import opened Events
  import opened Clocks
  import opened Graphs
  import opened ImmSpec

  /** When the views of each event were last computed: an order that pporf follows, and one that hb follows. They part
      when a read is re-targeted to a write that depends on what comes after the read in its thread. */
  datatype Order = Order(rank: map<Event, nat>, hb: map<Event, nat>, next: nat) {
    predicate Before(a: Event, b: Event) { a in rank && b in rank && rank[a] < rank[b] }

    predicate HbBefore(a: Event, b: Event) { a in hb && b in hb && hb[a] < hb[b] }

    function Then(e: Event): Order { Order(rank[e := next], hb[e := next], next + 1) }

    /** Only the causal views of e are computed anew. */
    function Late(e: Event): Order { Order(rank[e := next], hb, next + 1) }
  }

  /** The part of a label its views and those of others depend on. */
  function Core(lab: Label): Label {
    lab.(stamp := 0, readers := [], kind := if lab.kind.ThreadFinish? then ThreadFinish(Bottom) else lab.kind)
  }

  // ----- the invariant -----

  ghost predicate Ranked(g: Graph, o: Order) {
    forall x :: In(g, x) ==> x in o.rank && o.rank[x] < o.next && x in o.hb && o.hb[x] < o.next
  }

  /** Views contain events computed earlier only. */
  ghost predicate Ordered(g: Graph, o: Order) {
    forall x, a :: CHas(g, x, a) && a != x ==> o.Before(a, x)
  }

  /** Causal closure: pporf(a) is part of pporf(x) for every a in it. */
  ghost predicate CausallyClosed(g: Graph) {
    forall x, a, b :: CHas(g, x, a) && CHas(g, a, b) ==> CHas(g, x, b)
  }

  ghost predicate SelfContained(g: Graph) {
    forall x :: In(g, x) && x.index >= 1 ==> CHas(g, x, x)
  }

  /** A ppo view holds its event, and apart from it only earlier events with all they depend on. */
  ghost predicate PpoClosed(g: Graph) {
    && (forall x :: In(g, x) && KeepsPpo(L(g, x)) ==> PHas(g, x, x))
    && (forall x, a :: PHas(g, x, a) ==> CHas(g, x, a))
    && (forall x, a, b :: PHas(g, x, a) && a != x && CHas(g, a, b) ==> PHas(g, x, b))
  }

  /** A release has its whole thread before it. */
  ghost predicate ReleasesCover(g: Graph) {
    forall x, a: Event ::
      In(g, x) && x.index >= 1 && IsListedRelease(L(g, x)) && a.thread == x.thread && 1 <= a.index <= x.index
      ==> CHas(g, x, a)
  }

  predicate IsAnchor(g: Graph, q: Event) {
    IsAcquireOrFence(g, q) || (In(g, q) && (L(g, q).IsRead() || (q.index >= 1 && IsListedRelease(L(g, q)))))
  }

  ghost predicate ViaAnchor(g: Graph, x: Event, a: Event) {
    exists q: Event :: q.thread == x.thread && q.index <= x.index && IsAnchor(g, q) && CHas(g, q, a)
  }

  /** What a view knows of its own thread is earlier, reads aside; what it knows of others came through an anchor. */
  ghost predicate Anchored(g: Graph) {
    forall x, a :: CHas(g, x, a) ==>
                     if a.thread == x.thread then a.index <= x.index || L(g, x).IsRead() else ViaAnchor(g, x, a)
  }

  predicate IsRecomputable(lab: Label) { lab.IsRead() || lab.kind.ThreadJoin? }

  /** e is the last label of its thread, and a read or a join. */
  predicate LastRecomputable(g: Graph, e: Event) {
    In(g, e) && e.index == |g[e.thread]| - 1 && e.index >= 1 && IsRecomputable(L(g, e))
  }

  /** c knows a later event of a's thread. */
  ghost predicate LaterIn(c: Clock, a: Event) {
    exists y :: c.Has(y) && y.thread == a.thread && y.index > a.index
  }

  /** Reads and joins enter other views only together with later events of their thread. */
  ghost predicate ReadsInside(g: Graph) {
    && (forall x, a :: CHas(g, x, a) && a.thread != x.thread && In(g, a) && IsRecomputable(L(g, a)) ==>
                         LaterIn(L(g, x).pporf, a))
    && (forall x, a :: PHas(g, x, a) && a.thread != x.thread && In(g, a) && IsRecomputable(L(g, a)) ==>
                         LaterIn(L(g, x).ppo, a))
  }

  /** References stay inside the graph. */
  ghost predicate RefsInside(g: Graph) {
    forall x :: In(g, x) ==>
                  && (L(g, x).IsRead() ==> L(g, x).rf == Bottom || (RfTarget(g, L(g, x).rf) && L(g, x).rf != x))
                  && (L(g, x).kind.ThreadStart? ==> CreatorRef(g, L(g, x).kind.parentCreate))
                  && (L(g, x).kind.ThreadJoin? ==> FinishRef(g, L(g, x).kind.childLast))
  }

  /** A thread is created by a create label, main by its own start label. */
  predicate CreatorRef(g: Graph, c: Event) {
    In(g, c) && (c == Initializer || L(g, c).kind.ThreadCreate?)
  }

  predicate FinishRef(g: Graph, f: Event) {
    In(g, f) && (f == Initializer || L(g, f).kind.ThreadFinish?)
  }

  /** x reads from a write of another thread. */
  predicate ReadsExternally(g: Graph, x: Event) {
    IsReadAt(g, x) && L(g, x).rf != Bottom && L(g, x).rf != Initializer && L(g, x).rf.thread != x.thread
  }

  /** The clock of a read knows the write of another thread it reads from. */
  ghost predicate RfKnown(g: Graph) {
    forall x :: ReadsExternally(g, x) ==> CHas(g, x, L(g, x).rf)
  }

  ghost predicate Causal(g: Graph, o: Order) {
    && Ready(g) && Ranked(g, o) && Ordered(g, o) && CausallyClosed(g) && SelfContained(g) && PpoClosed(g)
    && ReleasesCover(g) && Anchored(g) && ReadsInside(g) && RefsInside(g) && StartsBare(g)
  }

  lemma CausalReady(g: Graph, o: Order)
    requires Causal(g, o)
    ensures Ready(g) && RefsInside(g) && Positioned(g) && Started(g) && StartsBare(g) && Ranked(g, o)
    ensures SelfContained(g)
  {}

  // ----- closure of the contents of a new label -----

  lemma InGraphOf(g: Graph, x: Event, a: Event)
    requires ClocksInGraph(g) && (CHas(g, x, a) || PHas(g, x, a))
    ensures In(g, a)
  {}

  lemma PpoIsClosed(g: Graph, e: Event, deps: EventDeps, a: Event, b: Event)
    requires CausallyClosed(g) && FromPpo(g, e, deps, a) && a != e && CHas(g, a, b)
    ensures FromPpo(g, e, deps, b)
  {
    if d :| deps.Has(d) && CHas(g, d, a) {
      assert CHas(g, d, b);
    } else {
      var q: Event :| q.thread == e.thread && q.index < e.index && IsAcquireOrFence(g, q) && CHas(g, q, a);
      assert CHas(g, q, b);
    }
  }

  /** An anchor of the thread before a release is covered by what the release collects. */
  lemma AnchorCovered(g: Graph, e: Event, deps: EventDeps, q: Event, b: Event)
    requires CausallyClosed(g) && ReleasesCover(g) && Limit(g, e)
    requires q.thread == e.thread && q.index < e.index && IsAnchor(g, q) && CHas(g, q, b)
    ensures FromPpo(g, e, deps, b) || FromRelease(g, e, b)
  {
    var rel := LastRelease(g, e);
    if IsAcquireOrFence(g, q) {
    } else if q.index >= 1 && q.index <= rel.index {
      assert IsListedRelease(L(g, rel));
      assert CHas(g, rel, q);
    } else {
      assert L(g, q).IsRead() && ReleaseScanStart(g, e) <= q.index;
    }
  }

  /** The removeAllHoles shortcut is sound: with what a release adds, the view is closed. */
  lemma ReleaseIsClosed(g: Graph, e: Event, deps: EventDeps, a: Event, b: Event)
    requires ClocksInGraph(g) && CausallyClosed(g) && ReleasesCover(g) && Anchored(g)
    requires Limit(g, e) && e.index == |g[e.thread]| && FromRelease(g, e, a) && a != e && CHas(g, a, b)
    ensures FromPpo(g, e, deps, b) || FromRelease(g, e, b)
  {
    hide FromPpo, Anchored, ReleasesCover, ClocksInGraph;
    if CHas(g, LastRelease(g, e), a) {
      assert CHas(g, LastRelease(g, e), b);
    } else if r: Event :| r.thread == e.thread && ReleaseScanStart(g, e) <= r.index < e.index &&
                          IsReadAt(g, r) && CHas(g, r, a) {
      assert CHas(g, r, b);
    } else {
      InGraphOf(g, a, b);
      OwnThreadCovered(g, e, deps, a, b);
    }
  }

  lemma OwnThreadCovered(g: Graph, e: Event, deps: EventDeps, a: Event, b: Event)
    requires CausallyClosed(g) && ReleasesCover(g) && Anchored(g) && Limit(g, e) && e.index == |g[e.thread]|
    requires a.thread == e.thread && 1 <= a.index < e.index && CHas(g, a, b) && In(g, b)
    ensures FromPpo(g, e, deps, b) || FromRelease(g, e, b)
  {
    hide CausallyClosed, ReleasesCover, FromPpo;
    if b.thread == e.thread {
      assert 1 <= b.index < e.index;
    } else {
      assert ViaAnchor(g, a, b);
      var q: Event :| q.thread == a.thread && q.index <= a.index && IsAnchor(g, q) && CHas(g, q, b);
      AnchorCovered(g, e, deps, q, b);
    }
  }

  /** An rfi hole leaves no event behind that depends on the write left out. */
  lemma RfiIsClosed(g: Graph, o: Order, rf: Event, a: Event, b: Event)
    requires Ordered(g, o) && PpoClosed(g) && PHas(g, rf, a) && a != rf && CHas(g, a, b)
    ensures PHas(g, rf, b) && b != rf
  {
    assert CHas(g, rf, a) && o.Before(a, rf);
    if b == rf { assert false; }
  }

  lemma OwnWritesClosed(g: Graph, e: Event, addr: int, a: Event, b: Event)
    requires CausallyClosed(g) && FromOwnWrites(g, e, addr, a) && CHas(g, a, b)
    ensures FromOwnWrites(g, e, addr, b)
  {
    var w: Event :| w.thread == e.thread && w.index < e.index && IsWriteAt(g, w) && L(g, w).addr == addr &&
        CHas(g, w, a);
    assert CHas(g, w, b);
  }

  lemma RfIsClosed(g: Graph, o: Order, e: Event, addr: int, rf: Event, base: Clock, a: Event, b: Event)
    requires CausallyClosed(g) && Ordered(g, o) && PpoClosed(g)
    requires base.Has(a) ==> base.Has(b)
    requires FromRf(g, e, addr, rf, base, a) && a != e && CHas(g, a, b)
    ensures FromRf(g, e, addr, rf, base, b)
  {
    hide PpoClosed, Ordered;
    if rf == Bottom || !In(g, rf) || base.Has(a) {
    } else if rf.thread == e.thread || rf == Initializer {
      RfiIsClosed(g, o, rf, a, b);
    } else if !CHas(g, rf, a) {
      OwnWritesClosed(g, e, addr, a, b);
    }
  }

  // ----- where the contents of a new label come from -----

  /** a may be part of view c of a new event e. */
  ghost predicate Admissible(g: Graph, e: Event, c: Clock, a: Event) {
    In(g, a) && (IsRecomputable(L(g, a)) && a.thread != e.thread ==> LaterIn(c, a))
  }

  /** The same, and a came through an anchor of e's thread if it is not of that thread. */
  ghost predicate Welcome(g: Graph, e: Event, c: Clock, a: Event) {
    Admissible(g, e, c, a) && (a.thread != e.thread ==> ViaAnchor(g, e, a))
  }

  /** c includes the view of x. */
  ghost predicate Includes(g: Graph, c: Clock, x: Event) {
    forall b :: CHas(g, x, b) ==> c.Has(b)
  }

  /** The later event known to x is known to whoever includes x. */
  lemma LaterIncluded(g: Graph, c: Clock, x: Event, a: Event)
    requires ReadsInside(g) && CHas(g, x, a) && a.thread != x.thread && In(g, a) && IsRecomputable(L(g, a))
    requires Includes(g, c, x)
    ensures LaterIn(c, a)
  {
    LaterKnown(g, x, a);
    var y :| L(g, x).pporf.Has(y) && y.thread == a.thread && y.index > a.index;
    assert CHas(g, x, y) && c.Has(y);
  }

  lemma LaterKnown(g: Graph, x: Event, a: Event)
    requires ReadsInside(g) && CHas(g, x, a) && a.thread != x.thread && In(g, a) && IsRecomputable(L(g, a))
    ensures LaterIn(L(g, x).pporf, a)
  {}

  lemma ReachedThroughAnchor(g: Graph, e: Event, x: Event, a: Event)
    requires Anchored(g) && x.thread == e.thread && x.index < e.index && CHas(g, x, a) && a.thread != e.thread
    ensures ViaAnchor(g, e, a)
  {
    assert ViaAnchor(g, x, a);
    var q: Event :| q.thread == x.thread && q.index <= x.index && IsAnchor(g, q) && CHas(g, q, a);
  }

  lemma OwnSource(g: Graph, e: Event, c: Clock, x: Event, a: Event)
    requires ClocksInGraph(g) && Anchored(g) && ReadsInside(g) && Limit(g, e)
    requires x.thread == e.thread && x.index < e.index && CHas(g, x, a) && Includes(g, c, x)
    ensures Welcome(g, e, c, a)
  {
    hide ClocksInGraph, Anchored, ReadsInside, Includes;
    InGraphOf(g, x, a);
    if a.thread != e.thread {
      ReachedThroughAnchor(g, e, x, a);
      if IsRecomputable(L(g, a)) { LaterIncluded(g, c, x, a); }
    }
  }

  lemma OtherSource(g: Graph, e: Event, c: Clock, x: Event, a: Event)
    requires ClocksInGraph(g) && Anchored(g) && ReadsInside(g) && SelfContained(g)
    requires CHas(g, x, a) && !IsRecomputable(L(g, x)) && Includes(g, c, x)
    ensures Admissible(g, e, c, a)
  {
    hide ReadsInside, ClocksInGraph;
    InGraphOf(g, x, a);
    if IsRecomputable(L(g, a)) {
      if a.thread == x.thread {
        assert a.index < x.index && CHas(g, x, x);
      } else {
        LaterIncluded(g, c, x, a);
      }
    }
  }

  lemma PpoWelcome(g: Graph, e: Event, deps: EventDeps, c: Clock, a: Event)
    requires ClocksInGraph(g) && Anchored(g) && ReadsInside(g) && Limit(g, e) && WfDeps(g, e, deps)
    requires FromPpo(g, e, deps, a) && a != e
    requires forall b :: FromPpo(g, e, deps, b) ==> c.Has(b)
    ensures Welcome(g, e, c, a)
  {
    hide ClocksInGraph, Anchored, ReadsInside;
    if d :| deps.Has(d) && CHas(g, d, a) {
      OwnSource(g, e, c, d, a);
    } else {
      var q: Event :| q.thread == e.thread && q.index < e.index && IsAcquireOrFence(g, q) && CHas(g, q, a);
      OwnSource(g, e, c, q, a);
    }
  }

  lemma ReleaseWelcome(g: Graph, e: Event, c: Clock, a: Event)
    requires ClocksInGraph(g) && Anchored(g) && ReadsInside(g) && Limit(g, e) && e.index > 0
    requires FromRelease(g, e, a) && a != e
    requires forall b :: FromRelease(g, e, b) ==> c.Has(b)
    ensures Welcome(g, e, c, a)
  {
    hide ClocksInGraph, Anchored, ReadsInside;
    if CHas(g, LastRelease(g, e), a) {
      OwnSource(g, e, c, LastRelease(g, e), a);
    } else if r: Event :| r.thread == e.thread && ReleaseScanStart(g, e) <= r.index < e.index &&
                          IsReadAt(g, r) && CHas(g, r, a) {
      OwnSource(g, e, c, r, a);
    }
  }

  /** The rfi contribution: the ppo view of a write of the same thread. */
  lemma RfiAdmissible(g: Graph, e: Event, rf: Event, base: Clock, c: Clock, a: Event)
    requires ClocksInGraph(g) && ReadsInside(g) && PpoClosed(g)
    requires PHas(g, rf, a) && (rf.thread == e.thread || rf == Initializer)
    requires rf == Initializer ==> In(g, rf) && !KeepsPpo(L(g, rf)) && L(g, rf).ppo == EmptyClock
    requires forall b :: PHas(g, rf, b) && b != rf ==> c.Has(b)
    ensures Admissible(g, e, c, a)
  {
    InGraphOf(g, rf, a);
    if IsRecomputable(L(g, a)) && a.thread != e.thread {
      var y :| L(g, rf).ppo.Has(y) && y.thread == a.thread && y.index > a.index;
      assert PHas(g, rf, y) && y != rf;
    }
  }

  lemma RfAdmissible(g: Graph, e: Event, addr: int, rf: Event, base: Clock, c: Clock, a: Event)
    requires ClocksInGraph(g) && Anchored(g) && ReadsInside(g) && PpoClosed(g) && Started(g) && SelfContained(g)
    requires StartsBare(g)
    requires rf == Bottom || RfTarget(g, rf)
    requires base.Has(a) ==> Admissible(g, e, base, a)
    requires FromRf(g, e, addr, rf, base, a) && a != e
    requires forall b :: FromRf(g, e, addr, rf, base, b) ==> c.Has(b)
    ensures Admissible(g, e, c, a)
  {
    hide ClocksInGraph, ReadsInside, Anchored, SelfContained;
    BaseInRf(g, e, addr, rf, base);
    if rf != Bottom && !base.Has(a) {
      assert !IsRecomputable(L(g, rf));
      if rf.thread == e.thread || rf == Initializer {
        RfiAdmissible(g, e, rf, base, c, a);
      } else if CHas(g, rf, a) {
        OtherSource(g, e, c, rf, a);
      } else {
        var w: Event :| w.thread == e.thread && w.index < e.index && IsWriteAt(g, w) && L(g, w).addr == addr &&
            CHas(g, w, a);
        assert forall b :: CHas(g, w, b) ==> FromOwnWrites(g, e, addr, b);
        OtherSource(g, e, c, w, a);
      }
    }
  }

  lemma BaseInRf(g: Graph, e: Event, addr: int, rf: Event, base: Clock)
    ensures forall a :: base.Has(a) ==> FromRf(g, e, addr, rf, base, a)
  {}

  /** Start labels keep no ppo view. */
  ghost predicate StartsBare(g: Graph) {
    forall x :: In(g, x) && !KeepsPpo(L(g, x)) ==> L(g, x).ppo == EmptyClock
  }

  // ----- a new label fits -----

  /** Its clock admits only admissible events and is closed over the graph. */
  ghost predicate FitsClock(g: Graph, lab: Label) {
    var e, c := lab.pos, lab.pporf;
    && (forall a :: c.Has(a) && a != e ==> Admissible(g, e, c, a))
    && (forall a, b :: c.Has(a) && a != e && CHas(g, a, b) ==> c.Has(b))
    && (e.index >= 1 ==> c.Has(e))
    && (forall a :: c.Has(a) && a.thread != e.thread && !IsAnchorLabel(lab) ==> ViaAnchor(g, e, a))
  }

  predicate IsAnchorLabel(lab: Label) {
    || lab.pos.index == 0 || lab.kind.Fence? || lab.AtLeastAcquire() || lab.IsRead()
    || (lab.pos.index >= 1 && IsListedRelease(lab))
  }

  ghost predicate FitsPpo(g: Graph, lab: Label) {
    var e, p := lab.pos, lab.ppo;
    && (if KeepsPpo(lab) then BaseOk(g, e, p) else p == EmptyClock)
    && (forall a :: p.Has(a) ==> lab.pporf.Has(a))
  }

  /** A ppo view a read, write or join may be (re)built on. */
  ghost predicate BaseOk(g: Graph, e: Event, p: Clock) {
    && p.Has(e)
    && (forall a :: p.Has(a) && a != e ==> Admissible(g, e, p, a))
    && (forall a, b :: p.Has(a) && a != e && CHas(g, a, b) ==> p.Has(b))
  }

  ghost predicate FitsRelease(lab: Label) {
    lab.pos.index >= 1 && IsListedRelease(lab) ==>
      forall a: Event :: a.thread == lab.pos.thread && 1 <= a.index <= lab.pos.index ==> lab.pporf.Has(a)
  }

  ghost predicate Fits(g: Graph, lab: Label) {
    FitsClock(g, lab) && FitsPpo(g, lab) && FitsRelease(lab)
  }

  /** The labels whose pporf is preserved program order and, for a release, its additions. */
  lemma PlainFits(g: Graph, o: Order, lab: Label, deps: EventDeps)
    requires Causal(g, o) && Limit(g, lab.pos) && lab.pos.index > 0 && WfDeps(g, lab.pos, deps) && WfOrdering(lab)
    requires lab.pos.index == |g[lab.pos.thread]|
    requires lab.kind.Other? || lab.kind.ThreadCreate? || lab.kind.ThreadFinish? || lab.kind.UnlockLapor? ||
                 lab.kind.Fence?
    requires lab.ppo == EmptyClock && PporfComputed(g, lab, deps, lab.pporf)
    ensures Fits(g, lab)
  {
    var e, c := lab.pos, lab.pporf;
    OwnEventIn(g, e, deps);
    hide FromPpo, FromRelease, CausallyClosed, ReleasesCover, Anchored, ReadsInside, Ordered, RefsInside, LaterIn,
         ViewsInGraph, Started, Positioned, ClocksInGraph, PpoClosed, SelfContained, Ranked, StartsBare;
    assert forall b :: FromPpo(g, e, deps, b) ==> c.Has(b);
    forall a | c.Has(a) && a != e
      ensures Welcome(g, e, c, a)
      ensures forall b :: CHas(g, a, b) ==> c.Has(b)
    {
      if FromPpo(g, e, deps, a) {
        PpoWelcome(g, e, deps, c, a);
        forall b | CHas(g, a, b) ensures c.Has(b) { PpoIsClosed(g, e, deps, a, b); }
      } else {
        ReleaseWelcome(g, e, c, a);
        forall b | CHas(g, a, b) ensures c.Has(b) { ReleaseIsClosed(g, e, deps, a, b); }
      }
    }
    if IsListedRelease(lab) { OwnThreadIn(g, e); }
  }

  lemma OwnEventIn(g: Graph, e: Event, deps: EventDeps)
    ensures e.index >= 1 ==> FromPpo(g, e, deps, e)
  {}

  lemma OwnThreadIn(g: Graph, e: Event)
    requires Limit(g, e)
    ensures forall a: Event :: a.thread == e.thread && 1 <= a.index <= e.index ==> FromRelease(g, e, a)
  {}

  lemma PpoBaseOk(g: Graph, e: Event, deps: EventDeps, p: Clock)
    requires ClocksInGraph(g) && Anchored(g) && ReadsInside(g) && CausallyClosed(g)
    requires Limit(g, e) && e.index > 0 && WfDeps(g, e, deps)
    requires forall a :: p.Has(a) <==> FromPpo(g, e, deps, a)
    ensures BaseOk(g, e, p)
  {
    hide FromPpo, CausallyClosed, Anchored, ReadsInside, ClocksInGraph, Admissible;
    OwnEventIn(g, e, deps);
    forall a | p.Has(a) && a != e
      ensures Admissible(g, e, p, a)
      ensures forall b :: CHas(g, a, b) ==> p.Has(b)
    {
      PpoWelcome(g, e, deps, p, a);
      forall b | CHas(g, a, b) ensures p.Has(b) { PpoIsClosed(g, e, deps, a, b); }
    }
  }

  lemma ReadFits(g: Graph, o: Order, lab: Label)
    requires Causal(g, o) && lab.IsRead() && BaseOk(g, lab.pos, lab.ppo) && lab.pos.index >= 1
    requires lab.rf == Bottom || (RfTarget(g, lab.rf) && lab.rf != lab.pos)
    requires forall a :: lab.pporf.Has(a) <==> FromRf(g, lab.pos, lab.addr, lab.rf, lab.ppo, a)
    ensures Fits(g, lab)
  {
    hide FromRf, CausallyClosed, PpoClosed, Ordered, ClocksInGraph, ReadsInside, Started, Positioned, ViewsInGraph,
         Anchored, ReleasesCover, Ranked, SelfContained, RefsInside, StartsBare, Admissible;
    var e := lab.pos;
    BaseInRf(g, e, lab.addr, lab.rf, lab.ppo);
    forall a | lab.pporf.Has(a) && a != e
      ensures Admissible(g, e, lab.pporf, a)
      ensures forall b :: CHas(g, a, b) ==> lab.pporf.Has(b)
    {
      RfAdmissible(g, e, lab.addr, lab.rf, lab.ppo, lab.pporf, a);
      forall b | CHas(g, a, b) ensures lab.pporf.Has(b) { RfIsClosed(g, o, e, lab.addr, lab.rf, lab.ppo, a, b); }
    }
  }

  /** A larger clock admits what a smaller one admits. */
  lemma AdmissibleGrows(g: Graph, e: Event, p: Clock, c: Clock, a: Event)
    requires Admissible(g, e, p, a) && forall b :: p.Has(b) ==> c.Has(b)
    ensures Admissible(g, e, c, a)
  {}

  /** A join on its ppo view and, when the child has finished, the finish f. */
  lemma JoinFits(g: Graph, o: Order, lab: Label, f: Event)
    requires Causal(g, o) && lab.kind.ThreadJoin? && WfOrdering(lab) && BaseOk(g, lab.pos, lab.ppo)
    requires lab.pos.index >= 1
    requires In(g, f) && !IsRecomputable(L(g, f))
    requires || (forall a :: lab.pporf.Has(a) <==> lab.ppo.Has(a) || CHas(g, f, a))
             || (forall a :: lab.pporf.Has(a) <==> lab.ppo.Has(a))
    ensures Fits(g, lab)
  {
    hide PpoClosed, Ordered, ClocksInGraph, ReadsInside, Started, Positioned, ViewsInGraph,
         Anchored, ReleasesCover, Ranked, SelfContained, RefsInside, StartsBare, Admissible;
    forall a | lab.pporf.Has(a) && a != lab.pos ensures Admissible(g, lab.pos, lab.pporf, a) {
      if lab.ppo.Has(a) {
        AdmissibleGrows(g, lab.pos, lab.ppo, lab.pporf, a);
      } else {
        OtherSource(g, lab.pos, lab.pporf, f, a);
      }
    }
  }

  lemma StartFits(g: Graph, o: Order, lab: Label)
    requires Causal(g, o) && lab.kind.ThreadStart? && lab.pos.index == 0 && lab.ppo == EmptyClock
    requires In(g, lab.kind.parentCreate) && L(g, lab.kind.parentCreate).kind.ThreadCreate?
    requires forall a :: lab.pporf.Has(a) <==> CHas(g, lab.kind.parentCreate, a)
    ensures Fits(g, lab)
  {
    hide PpoClosed, Ordered, ClocksInGraph, ReadsInside, Started, Positioned, ViewsInGraph,
         Anchored, ReleasesCover, Ranked, SelfContained, RefsInside, StartsBare, Admissible;
    forall a | lab.pporf.Has(a) ensures Admissible(g, lab.pos, lab.pporf, a) {
      OtherSource(g, lab.pos, lab.pporf, lab.kind.parentCreate, a);
    }
  }

  lemma LapUnlockIsUnlock(g: Graph, e: Event, addr: int)
    requires Limit(g, e) && LastUnlockLapor(g, e, addr) != Initializer
    ensures In(g, LastUnlockLapor(g, e, addr)) && L(g, LastUnlockLapor(g, e, addr)).kind.UnlockLapor?
  {}

  lemma LockAdmissible(g: Graph, e: Event, deps: EventDeps, u: Event, c: Clock, a: Event)
    requires ClocksInGraph(g) && Anchored(g) && ReadsInside(g) && SelfContained(g)
    requires Limit(g, e) && e.index > 0 && WfDeps(g, e, deps)
    requires u != Initializer ==> In(g, u) && L(g, u).kind.UnlockLapor?
    requires forall b :: c.Has(b) <==> FromPpo(g, e, deps, b) || (u != Initializer && CHas(g, u, b))
    requires c.Has(a) && a != e
    ensures Admissible(g, e, c, a)
  {
    hide FromPpo, ClocksInGraph, ReadsInside, Anchored, SelfContained, LaterIn;
    if FromPpo(g, e, deps, a) {
      PpoWelcome(g, e, deps, c, a);
    } else {
      OtherSource(g, e, c, u, a);
    }
  }

  lemma LockFits(g: Graph, o: Order, lab: Label, deps: EventDeps)
    requires Causal(g, o) && Limit(g, lab.pos) && lab.pos.index > 0 && WfDeps(g, lab.pos, deps)
    requires lab.kind.LockLapor? && WfOrdering(lab) && lab.ppo == EmptyClock
    requires PporfComputed(g, lab, deps, lab.pporf)
    ensures Fits(g, lab)
  {
    var e, c := lab.pos, lab.pporf;
    var u := LastUnlockLapor(g, e, lab.addr);
    OwnEventIn(g, e, deps);
    if u != Initializer { LapUnlockIsUnlock(g, e, lab.addr); }
    hide FromPpo, PpoClosed, Ordered, ClocksInGraph, ReadsInside, Started, Positioned, ViewsInGraph, StartsBare,
         LaterIn, Anchored, ReleasesCover, Ranked, SelfContained, RefsInside, LastUnlockLapor, Admissible, PporfNew,
         WfDeps;
    LockContents(g, lab, deps);
    forall a | c.Has(a) && a != e ensures Admissible(g, e, c, a) { LockAdmissible(g, e, deps, u, c, a); }
    forall a, b | c.Has(a) && a != e && CHas(g, a, b) ensures c.Has(b) {
      if FromPpo(g, e, deps, a) { PpoIsClosed(g, e, deps, a, b); }
    }
  }

  lemma LockContents(g: Graph, lab: Label, deps: EventDeps)
    requires Limit(g, lab.pos) && lab.kind.LockLapor? && PporfComputed(g, lab, deps, lab.pporf)
    ensures var u := LastUnlockLapor(g, lab.pos, lab.addr);
            forall b :: lab.pporf.Has(b) <==> FromPpo(g, lab.pos, deps, b) || (u != Initializer && CHas(g, u, b))
  {}

  lemma WritePartWelcome(g: Graph, lab: Label, deps: EventDeps, c: Clock, a: Event)
    requires ClocksInGraph(g) && Anchored(g) && ReadsInside(g) && Limit(g, lab.pos) && lab.pos.index > 0
    requires lab.IsWrite()
    requires WfDeps(g, lab.pos, deps) && PporfNew(g, lab, deps, a) && a != lab.pos
    requires forall b :: c.Has(b) <==> PporfNew(g, lab, deps, b)
    ensures Welcome(g, lab.pos, c, a)
  {
    hide FromPpo, FromRelease, ReadsInside, ClocksInGraph, Anchored, LastReleaseAtLoc;
    var e := lab.pos;
    if FromPpo(g, e, deps, a) {
      assert forall b :: FromPpo(g, e, deps, b) ==> PporfNew(g, lab, deps, b);
      PpoWelcome(g, e, deps, c, a);
    } else if lab.IsRmwStore() && CHas(g, e.Prev(), a) {
      assert forall b :: CHas(g, e.Prev(), b) ==> PporfNew(g, lab, deps, b);
      OwnSource(g, e, c, e.Prev(), a);
    } else if lab.AtLeastRelease() && FromRelease(g, e, a) {
      assert forall b :: FromRelease(g, e, b) ==> PporfNew(g, lab, deps, b);
      ReleaseWelcome(g, e, c, a);
    } else {
      var rel := LastReleaseAtLoc(g, e, lab.addr);
      assert forall b :: CHas(g, rel, b) ==> PporfNew(g, lab, deps, b);
      assert rel.thread == e.thread && rel.index < e.index by { LastReleaseBelow(g, e, lab.addr); }
      OwnSource(g, e, c, rel, a);
    }
  }

  lemma LastReleaseBelow(g: Graph, e: Event, addr: int)
    requires Limit(g, e) && e.index > 0
    ensures LastReleaseAtLoc(g, e, addr).thread == e.thread && LastReleaseAtLoc(g, e, addr).index < e.index
  {}

  lemma WriteIsClosed(g: Graph, lab: Label, deps: EventDeps, a: Event, b: Event)
    requires ClocksInGraph(g) && Anchored(g) && ReleasesCover(g) && CausallyClosed(g)
    requires Limit(g, lab.pos) && lab.pos.index == |g[lab.pos.thread]|
    requires lab.IsWrite() && PporfNew(g, lab, deps, a) && a != lab.pos && CHas(g, a, b)
    ensures PporfNew(g, lab, deps, b)
  {
    hide FromPpo, FromRelease, ClocksInGraph, Anchored, ReleasesCover;
    var e := lab.pos;
    if FromPpo(g, e, deps, a) {
      PpoIsClosed(g, e, deps, a, b);
    } else if lab.IsRmwStore() && CHas(g, e.Prev(), a) {
    } else if lab.AtLeastRelease() && FromRelease(g, e, a) {
      ReleaseIsClosed(g, e, deps, a, b);
    }
  }

  lemma WritePpoOk(g: Graph, o: Order, lab: Label, deps: EventDeps)
    requires Causal(g, o) && Limit(g, lab.pos) && lab.pos.index > 0 && WfDeps(g, lab.pos, deps) && lab.IsWrite()
    requires PpoComputed(g, lab, deps, lab.ppo)
    ensures BaseOk(g, lab.pos, lab.ppo)
  {
    var e, p := lab.pos, lab.ppo;
    OwnEventIn(g, e, deps);
    hide FromPpo, PpoClosed, Ordered, ClocksInGraph, ReadsInside, Started, Positioned, ViewsInGraph, LaterIn,
         Anchored, ReleasesCover, Ranked, SelfContained, RefsInside, StartsBare;
    assert forall b :: FromPpo(g, e, deps, b) ==> p.Has(b);
    forall a | p.Has(a) && a != e
      ensures Admissible(g, e, p, a)
      ensures forall b :: CHas(g, a, b) ==> p.Has(b)
    {
      if FromPpo(g, e, deps, a) {
        PpoWelcome(g, e, deps, p, a);
        forall b | CHas(g, a, b) ensures p.Has(b) { PpoIsClosed(g, e, deps, a, b); }
      } else {
        OwnSource(g, e, p, e.Prev(), a);
      }
    }
  }

  lemma WriteFits(g: Graph, o: Order, lab: Label, deps: EventDeps)
    requires Causal(g, o) && Limit(g, lab.pos) && lab.pos.index > 0 && WfDeps(g, lab.pos, deps) && lab.IsWrite()
    requires PpoComputed(g, lab, deps, lab.ppo) && PporfComputed(g, lab, deps, lab.pporf)
    requires lab.pos.index == |g[lab.pos.thread]|
    ensures Fits(g, lab)
  {
    var e, c := lab.pos, lab.pporf;
    OwnEventIn(g, e, deps);
    WritePpoOk(g, o, lab, deps);
    if IsListedRelease(lab) { OwnThreadIn(g, e); }
    hide FromPpo, FromRelease, PpoClosed, Ordered, ClocksInGraph, ReadsInside, Started, Positioned, ViewsInGraph,
         LaterIn, Anchored, ReleasesCover, Ranked, SelfContained, RefsInside, StartsBare, BaseOk;
    forall a | c.Has(a) && a != e
      ensures Welcome(g, e, c, a)
      ensures forall b :: CHas(g, a, b) ==> c.Has(b)
    {
      WritePartWelcome(g, lab, deps, c, a);
      forall b | CHas(g, a, b) ensures c.Has(b) { WriteIsClosed(g, lab, deps, a, b); }
    }
  }

  // ----- extending a causal graph by a label that fits -----

  ghost predicate FitsViews(g: Graph, lab: Label) {
    && lab.pporf.Wf() && lab.pporf.Tight() && lab.ppo.Wf() && lab.ppo.Tight()
    && lab.hb.At(lab.pos.thread) == lab.pos.index
    && (forall a :: lab.hb.Has(a) ==> In(g, a) || a == lab.pos)
    && (lab.IsWrite() ==> forall a :: lab.msg.Has(a) ==> In(g, a) || a == lab.pos)
  }

  ghost predicate FitsRefs(g: Graph, lab: Label) {
    && (lab.kind.ThreadStart? <==> lab.pos.index == 0)
    && (lab.IsRead() ==> lab.rf == Bottom || (RfTarget(g, lab.rf) && lab.rf != lab.pos))
    && (lab.kind.ThreadStart? ==> CreatorRef(g, lab.kind.parentCreate))
    && (lab.kind.ThreadJoin? ==> FinishRef(g, lab.kind.childLast))
  }

  /** Every label of g is one of h; stamps, reader lists and join back-pointers may differ. */
  ghost predicate Within(g: Graph, h: Graph) {
    forall x :: In(g, x) ==> In(h, x) && Core(L(h, x)) == Core(L(g, x))
  }

  /** h is g with lab appended; stamps, reader lists and join back-pointers may differ. */
  ghost predicate Extends(g: Graph, lab: Label, h: Graph) {
    && Limit(g, lab.pos) && !In(g, lab.pos) && |h| == |g|
    && (forall x :: In(h, x) <==> In(g, x) || x == lab.pos)
    && (forall x :: In(g, x) ==> Core(L(h, x)) == Core(L(g, x)))
    && Core(L(h, lab.pos)) == Core(lab)
  }

  lemma ExtendedContents(g: Graph, lab: Label, h: Graph)
    requires Extends(g, lab, h)
    ensures forall x, a :: CHas(h, x, a) <==> if x == lab.pos then lab.pporf.Has(a) else CHas(g, x, a)
    ensures forall x, a :: PHas(h, x, a) <==> if x == lab.pos then lab.ppo.Has(a) else PHas(g, x, a)
    ensures forall x :: In(g, x) ==>
                IsListedRelease(L(h, x)) == IsListedRelease(L(g, x)) && KeepsPpo(L(h, x)) == KeepsPpo(L(g, x))
    ensures forall x :: In(g, x) ==>
                IsRecomputable(L(h, x)) == IsRecomputable(L(g, x)) && IsAnchor(h, x) == IsAnchor(g, x)
    ensures IsListedRelease(L(h, lab.pos)) == IsListedRelease(lab) && KeepsPpo(L(h, lab.pos)) == KeepsPpo(lab)
    ensures IsRecomputable(L(h, lab.pos)) == IsRecomputable(lab) && (IsAnchorLabel(lab) <==> IsAnchor(h, lab.pos))
  {}

  /** What Core keeps, field by field. */
  lemma CoreFields(l: Label, m: Label)
    requires Core(l) == Core(m)
    ensures l.pos == m.pos && l.ord == m.ord && l.addr == m.addr && l.rf == m.rf
    ensures l.hb == m.hb && l.ppo == m.ppo && l.pporf == m.pporf && l.msg == m.msg
    ensures l.kind == m.kind || (l.kind.ThreadFinish? && m.kind.ThreadFinish?)
  {}

  lemma ExtendReady(g: Graph, lab: Label, h: Graph)
    requires Ready(g) && RefsInside(g) && Extends(g, lab, h) && FitsViews(g, lab) && FitsRefs(g, lab)
    requires FitsClock(g, lab) && FitsPpo(g, lab)
    ensures Ready(h) && RefsInside(h)
  {
    ReadyClocks(g, lab, h);
    ReadyViews(g, lab, h);
    ReadyRefs(g, lab, h);
  }

  lemma ReadyViews(g: Graph, lab: Label, h: Graph)
    requires ViewsInGraph(g) && Positioned(g) && Extends(g, lab, h) && FitsViews(g, lab)
    ensures ViewsInGraph(h) && Positioned(h)
  {
    forall x | In(h, x)
      ensures L(h, x).pos == x && L(h, x).hb.At(x.thread) == x.index
      ensures forall a :: L(h, x).hb.Has(a) || (L(h, x).IsWrite() && L(h, x).msg.Has(a)) ==> In(h, a)
    {
      CoreFields(L(h, x), if x == lab.pos then lab else L(g, x));
    }
  }

  lemma ReadyRefs(g: Graph, lab: Label, h: Graph)
    requires RefsInside(g) && Started(g) && Extends(g, lab, h) && FitsRefs(g, lab)
    ensures RefsInside(h) && Started(h)
  {
    forall x | In(g, x)
      ensures L(h, x).IsWrite() == L(g, x).IsWrite() && L(h, x).kind.ThreadCreate? == L(g, x).kind.ThreadCreate?
      ensures L(h, x).kind.ThreadFinish? == L(g, x).kind.ThreadFinish?
    {
      CoreFields(L(h, x), L(g, x));
    }
    assert forall x :: RfTarget(g, x) ==> RfTarget(h, x);
    forall x | In(h, x)
      ensures L(h, x).IsRead() ==> L(h, x).rf == Bottom || (RfTarget(h, L(h, x).rf) && L(h, x).rf != x)
      ensures L(h, x).kind.ThreadStart? ==> CreatorRef(h, L(h, x).kind.parentCreate)
      ensures L(h, x).kind.ThreadJoin? ==> FinishRef(h, L(h, x).kind.childLast)
      ensures L(h, x).kind.ThreadStart? <==> x.index == 0
    {
      CoreFields(L(h, x), if x == lab.pos then lab else L(g, x));
    }
  }

  lemma ReadyClocks(g: Graph, lab: Label, h: Graph)
    requires ClocksInGraph(g) && Extends(g, lab, h) && FitsViews(g, lab) && FitsClock(g, lab) && FitsPpo(g, lab)
    ensures ClocksInGraph(h)
  {
    forall x | In(h, x)
      ensures L(h, x).pporf.Wf() && L(h, x).pporf.Tight() && L(h, x).ppo.Wf() && L(h, x).ppo.Tight()
      ensures forall a :: L(h, x).pporf.Has(a) || L(h, x).ppo.Has(a) ==> In(h, a)
    {
      if x == lab.pos {
        assert L(h, x).pporf == lab.pporf && L(h, x).ppo == lab.ppo;
        assert forall a :: lab.pporf.Has(a) && a != lab.pos ==> Admissible(g, lab.pos, lab.pporf, a);
      } else {
        assert L(h, x).pporf == L(g, x).pporf && L(h, x).ppo == L(g, x).ppo;
      }
    }
  }

  lemma ExtendClosure(g: Graph, o: Order, lab: Label, h: Graph)
    requires Causal(g, o) && Extends(g, lab, h) && Fits(g, lab)
    ensures CausallyClosed(h) && SelfContained(h)
  {
    hide Ready, Ranked, Ordered, Anchored, ReadsInside, RefsInside, ViaAnchor, Admissible, Extends, StartsBare,
         PpoClosed, BaseOk, ReleasesCover;
    ExtendedContents(g, lab, h);
    ExtendedIn(g, lab, h);
    CHasInGraph(g, o);
  }

  lemma ExtendPpo(g: Graph, o: Order, lab: Label, h: Graph)
    requires Causal(g, o) && Extends(g, lab, h) && Fits(g, lab)
    ensures PpoClosed(h) && ReleasesCover(h) && StartsBare(h)
  {
    hide Ready, Ranked, Ordered, Anchored, ReadsInside, RefsInside, ViaAnchor, Admissible, CausallyClosed,
         SelfContained;
    ExtendedContents(g, lab, h);
    CHasInGraph(g, o);
    forall x | In(h, x) && !KeepsPpo(L(h, x)) ensures L(h, x).ppo == EmptyClock {
      CoreFields(L(h, x), if x == lab.pos then lab else L(g, x));
    }
  }

  lemma ExtendedIn(g: Graph, lab: Label, h: Graph)
    requires Extends(g, lab, h)
    ensures !In(g, lab.pos) && forall x :: In(h, x) <==> In(g, x) || x == lab.pos
  {}

  lemma CHasInGraph(g: Graph, o: Order)
    requires Causal(g, o)
    ensures forall x, a :: CHas(g, x, a) ==> In(g, a)
    ensures forall x, a :: PHas(g, x, a) ==> In(g, a)
  {}

  lemma ExtendOrder(g: Graph, o: Order, lab: Label, h: Graph)
    requires Causal(g, o) && Extends(g, lab, h) && Fits(g, lab)
    ensures Ranked(h, o.Then(lab.pos)) && Ordered(h, o.Then(lab.pos))
  {
    hide Ready, Anchored, ReadsInside, RefsInside, ViaAnchor, CausallyClosed, PpoClosed, ReleasesCover, FitsPpo,
         FitsRelease, Extends;
    ExtendedContents(g, lab, h);
    ExtendedIn(g, lab, h);
    CHasInGraph(g, o);
  }

  lemma ExtendAnchors(g: Graph, o: Order, lab: Label, h: Graph)
    requires Causal(g, o) && Extends(g, lab, h) && Fits(g, lab)
    ensures Anchored(h)
  {
    hide Causal, Extends, Fits, FitsClock, Ready, ViaAnchor, IsAnchor, IsAnchorLabel, Core;
    forall x, a | CHas(h, x, a)
      ensures if a.thread == x.thread then a.index <= x.index || L(h, x).IsRead() else ViaAnchor(h, x, a)
    {
      if x == lab.pos { NewAnchored(g, lab, h, a); } else { OldAnchored(g, o, lab, h, x, a); }
    }
  }

  /** What the new label knows of its own thread is earlier. */
  lemma NewAnchored(g: Graph, lab: Label, h: Graph, a: Event)
    requires Extends(g, lab, h) && Fits(g, lab) && CHas(h, lab.pos, a)
    ensures if a.thread == lab.pos.thread then a.index <= lab.pos.index else ViaAnchor(h, lab.pos, a)
  {
    hide FitsPpo, FitsRelease, ViaAnchor, LaterIn, IsAnchor, IsAnchorLabel;
    assert lab.pporf.Has(a) by { CoreFields(L(h, lab.pos), lab); }
    if a.thread != lab.pos.thread {
      if IsAnchorLabel(lab) {
        NewIsAnchor(g, lab, h);
        OwnAnchor(h, lab.pos, a);
      } else {
        assert ViaAnchor(g, lab.pos, a);
        hide FitsClock, Extends;
        ViaAnchorKept(g, lab, h, lab.pos, a);
      }
    }
  }

  lemma NewIsAnchor(g: Graph, lab: Label, h: Graph)
    requires Extends(g, lab, h) && IsAnchorLabel(lab)
    ensures IsAnchor(h, lab.pos)
  {
    CoreFields(L(h, lab.pos), lab);
  }

  lemma OwnAnchor(g: Graph, x: Event, a: Event)
    requires CHas(g, x, a) && IsAnchor(g, x)
    ensures ViaAnchor(g, x, a)
  {}

  lemma OldAnchored(g: Graph, o: Order, lab: Label, h: Graph, x: Event, a: Event)
    requires Causal(g, o) && Extends(g, lab, h) && x != lab.pos && CHas(h, x, a)
    ensures if a.thread == x.thread then a.index <= x.index || L(h, x).IsRead() else ViaAnchor(h, x, a)
  {
    hide Ready, Ordered, RefsInside, CausallyClosed, PpoClosed, ReleasesCover, Ranked, ReadsInside, SelfContained,
         StartsBare, ViaAnchor;
    CoreFields(L(h, x), L(g, x));
    assert CHas(g, x, a);
    if a.thread != x.thread {
      assert ViaAnchor(g, x, a);
      hide Anchored, Extends, Causal;
      ViaAnchorKept(g, lab, h, x, a);
    }
  }

  lemma ExtendReads(g: Graph, o: Order, lab: Label, h: Graph)
    requires Causal(g, o) && Extends(g, lab, h) && Fits(g, lab)
    ensures ReadsInside(h)
  {
    hide Ready, Ordered, RefsInside, CausallyClosed, PpoClosed, ReleasesCover, FitsRelease, Ranked,
         SelfContained, StartsBare, LaterIn, Anchored, ViaAnchor;
    ExtendedContents(g, lab, h);
    CHasInGraph(g, o);
    forall x | In(h, x)
      ensures L(h, x).pporf == (if x == lab.pos then lab else L(g, x)).pporf
      ensures L(h, x).ppo == (if x == lab.pos then lab else L(g, x)).ppo
    {
      CoreFields(L(h, x), if x == lab.pos then lab else L(g, x));
    }
  }

  lemma ViaAnchorKept(g: Graph, lab: Label, h: Graph, x: Event, a: Event)
    requires Extends(g, lab, h) && ViaAnchor(g, x, a)
    ensures ViaAnchor(h, x, a)
  {
    ExtendedContents(g, lab, h);
    var q: Event :| q.thread == x.thread && q.index <= x.index && IsAnchor(g, q) && CHas(g, q, a);
    assert CHas(h, q, a) && IsAnchor(h, q);
  }

  /** Appending a label that fits keeps every causality invariant. */
  lemma ExtendCausal(g: Graph, o: Order, lab: Label, h: Graph)
    requires Causal(g, o) && Extends(g, lab, h) && Fits(g, lab) && FitsViews(g, lab) && FitsRefs(g, lab)
    ensures Causal(h, o.Then(lab.pos))
  {
    ExtendReady(g, lab, h);
    ExtendClosure(g, o, lab, h);
    ExtendPpo(g, o, lab, h);
    ExtendOrder(g, o, lab, h);
    ExtendAnchors(g, o, lab, h);
    ExtendReads(g, o, lab, h);
  }
}
