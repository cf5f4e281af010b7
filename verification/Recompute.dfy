/** Recomputing the views of the last label of a thread is removing it and adding it anew. */
module Recompute {
  import opened Events
  import opened Clocks
  import opened Graphs
  import opened ImmSpec
  import opened Causality
  import opened HbExact
  import opened Fitting
  import opened Restriction
  import opened Sources
  import opened Settling
  import opened StampBounds
  import opened Trimming
  import opened States
  import opened Additions

  // ----- views rebuilt over c are views rebuilt over what is left without the label -----

  /** p has all of c that the views of a label at e are rebuilt from. */
  ghost predicate Sees(c: Graph, p: Graph, e: Event) {
    && (forall x :: In(p, x) ==> In(c, x) && Core(L(c, x)) == Core(L(p, x)))
    && (forall x :: In(c, x) &&
                    (Before(x, e) || x == Initializer || L(c, x).IsWrite() || L(c, x).kind.ThreadFinish?) ==>
                      In(p, x))
  }

  lemma SeenFields(c: Graph, p: Graph, e: Event, x: Event)
    requires Sees(c, p, e) && In(p, x)
    ensures In(c, x)
    ensures var l, m := L(p, x), L(c, x);
            && l.addr == m.addr && l.hb == m.hb && l.ppo == m.ppo && l.pporf == m.pporf && l.msg == m.msg
            && (l.kind == m.kind || (l.kind.ThreadFinish? && m.kind.ThreadFinish?))
  {
    CoreFields(L(c, x), L(p, x));
  }

  lemma SeenContents(c: Graph, p: Graph, e: Event)
    requires Sees(c, p, e)
    ensures forall x, a :: In(p, x) ==> (CHas(p, x, a) <==> CHas(c, x, a)) && (PHas(p, x, a) <==> PHas(c, x, a))
    ensures forall x, a :: In(p, x) ==> (HbHas(p, x, a) <==> HbHas(c, x, a))
    ensures forall x, a :: MsgHas(p, x, a) <==> MsgHas(c, x, a)
    ensures forall x :: IsWriteAt(p, x) <==> IsWriteAt(c, x)
    ensures forall x :: IsWriteAt(p, x) ==> L(p, x).addr == L(c, x).addr
    ensures forall x :: Before(x, e) ==> (In(p, x) <==> In(c, x))
  {
    forall x | In(p, x)
      ensures L(p, x).addr == L(c, x).addr && L(p, x).hb == L(c, x).hb && L(p, x).ppo == L(c, x).ppo
      ensures L(p, x).pporf == L(c, x).pporf
      ensures L(p, x).msg == L(c, x).msg && L(p, x).IsWrite() == L(c, x).IsWrite()
    {
      SeenFields(c, p, e, x);
    }
  }

  lemma RfSeen(c: Graph, p: Graph, e: Event, addr: int, rf: Event, base: Clock)
    requires Sees(c, p, e) && (rf == Bottom || RfTarget(c, rf))
    ensures rf == Bottom || RfTarget(p, rf)
    ensures forall a :: FromRf(p, e, addr, rf, base, a) <==> FromRf(c, e, addr, rf, base, a)
  {
    SeenContents(c, p, e);
    assert In(c, rf) && rf != Bottom ==> In(p, rf);
    assert rf != Bottom && In(p, rf) && rf != Initializer ==> IsWriteAt(p, rf);
    forall a ensures FromOwnWrites(p, e, addr, a) <==> FromOwnWrites(c, e, addr, a) {
      if w: Event :| w.thread == e.thread && w.index < e.index &&
                     IsWriteAt(c, w) && L(c, w).addr == addr && CHas(c, w, a)
      {
        assert IsWriteAt(p, w);
      }
    }
    hide FromOwnWrites, Sees;
    assert In(p, rf) ==> In(c, rf) by { SeenIn(c, p, e, rf); }
  }

  lemma SeenIn(c: Graph, p: Graph, e: Event, x: Event)
    requires Sees(c, p, e)
    ensures In(p, x) ==> In(c, x)
  {}

  lemma ReadHbSeen(c: Graph, p: Graph, lab: Label)
    requires Sees(c, p, lab.pos) && lab.IsRead()
    ensures forall a :: HbNew(p, lab, a) <==> HbNew(c, lab, a)
  {
    SeenContents(c, p, lab.pos);
    assert Before(lab.pos.Prev(), lab.pos);
    hide Sees;
    assert forall a :: HbHas(p, lab.pos.Prev(), a) <==> HbHas(c, lab.pos.Prev(), a);
  }

  // ----- the rebuilt label fits -----

  /** A read rebuilt from its ppo view keeps the invariants. */
  lemma ReadRebuilt(p: Graph, o: Order, lab: Label, h: Graph)
    requires InvAt(p, o) && lab.IsRead() && lab.pos.index >= 1 && Limit(p, lab.pos)
    requires lab.pos.index == |p[lab.pos.thread]|
    requires WfOrdering(lab) && lab.ppo.Wf() && lab.ppo.Tight() && BaseOk(p, lab.pos, lab.ppo)
    requires PpoSourced(p, lab.pos, lab.ppo)
    requires (lab.rf == Bottom || RfTarget(p, lab.rf)) && lab.rf != lab.pos
    requires lab.pporf.Wf() && lab.pporf.Tight() && HbComputed(p, lab, lab.hb)
    requires forall a :: lab.pporf.Has(a) <==> FromRf(p, lab.pos, lab.addr, lab.rf, lab.ppo, a)
    requires Extends(p, lab, h)
    ensures InvAt(h, o.Then(lab.pos))
  {
    InvParts(p, o);
    CausalReady(p, o);
    hide InvAt, Causal, HbInv, Sourced, RfKnown, RfOrdered, OrderingsFixed, BaseOk, PpoSourced, FromRf, HbComputed,
         Extends, Fits, FitsViews, FitsRefs, HbFits, MsgFits, SourcedLabel, ClocksInGraph, ViewsInGraph, RefsInside,
         Ranked, StartsBare, WfOrdering;
    ReadFits(p, o, lab);
    ReadSourced(p, o, lab);
    HbInvReady(p, o);
    HbComputedFits(p, lab);
    RecomputableSendsNothing(p, lab);
    FitsViewsFrom(p, lab);
    assert FitsRefs(p, lab) by { ReadRefsFit(p, lab); }
    if lab.rf != Bottom && lab.rf != Initializer && lab.rf.thread != lab.pos.thread {
      RfInClock(p, lab.pos, lab.addr, lab.rf, lab.ppo);
    }
    ExtendInv(p, o, lab, h);
  }

  lemma ReadRefsFit(p: Graph, lab: Label)
    requires lab.IsRead() && lab.pos.index >= 1 && (lab.rf == Bottom || RfTarget(p, lab.rf)) && lab.rf != lab.pos
    ensures FitsRefs(p, lab)
  {}

  /** A join rebuilt from its ppo view and the finish of its child does too. */
  lemma JoinRebuilt(p: Graph, o: Order, lab: Label, h: Graph)
    requires InvAt(p, o) && lab.kind.ThreadJoin? && lab.pos.index >= 1 && Limit(p, lab.pos)
    requires lab.pos.index == |p[lab.pos.thread]|
    requires WfOrdering(lab) && lab.ppo.Wf() && lab.ppo.Tight() && BaseOk(p, lab.pos, lab.ppo)
    requires PpoSourced(p, lab.pos, lab.ppo)
    requires var f := lab.kind.childLast; In(p, f) && L(p, f).kind.ThreadFinish? && f != Initializer
    requires lab.pporf.Wf() && lab.pporf.Tight() && lab.hb.At(lab.pos.thread) == lab.pos.index
    requires forall a :: lab.pporf.Has(a) <==> lab.ppo.Has(a) || CHas(p, lab.kind.childLast, a)
    requires forall a :: lab.hb.Has(a) <==>
                 a == lab.pos || HbHas(p, lab.pos.Prev(), a) || HbHas(p, lab.kind.childLast, a)
    requires Extends(p, lab, h)
    ensures InvAt(h, o.Then(lab.pos))
  {
    var f := lab.kind.childLast;
    InvParts(p, o);
    CausalReady(p, o);
    hide InvAt, Causal, HbInv, Sourced, RfKnown, RfOrdered, OrderingsFixed, BaseOk, PpoSourced, Extends, Fits,
         FitsViews, FitsRefs, HbFits, MsgFits, SourcedLabel, ClocksInGraph, ViewsInGraph, RefsInside, Ranked,
         StartsBare, WfOrdering;
    JoinFits(p, o, lab, f);
    JoinSourced(p, o, lab);
    JoinedHbFits(p, lab, f);
    RecomputableSendsNothing(p, lab);
    FitsViewsFrom(p, lab);
    assert FitsRefs(p, lab) by { JoinRefsFit(p, lab); }
    ExtendInv(p, o, lab, h);
  }

  lemma JoinRefsFit(p: Graph, lab: Label)
    requires lab.kind.ThreadJoin? && lab.pos.index >= 1 && FinishRef(p, lab.kind.childLast)
    ensures FitsRefs(p, lab)
  {}

  // ----- what is left without the last label of a thread -----

  lemma StuckSelf(g: Graph, blocked: set<nat>, o: Order)
    requires GraphOk(g) && HeldAllOk(g, blocked, Settled(g, blocked)) && InvAt(Settled(g, blocked), o)
    ensures Stuck(g, blocked, g) == blocked
  {
    var w := Settled(g, blocked);
    hide InvAt, RefsInside, Started, Positioned, HeldAllOk, GraphOk, Settled;
    InvRefs(w, o);
    SettledAt(g, blocked);
    GraphThreads(g);
    forall t: nat | t < |g| && t !in blocked ensures !StuckAt(g, blocked, g, t) {
      var x := Event(t, |g[t]| - 1);
      SettledLabel(g, blocked, x);
      RefsAt(w, x);
      assert g[t][|g[t]| - 1] == L(g, x);
    }
    forall t | t in blocked ensures t < |g| && |g[t]| > 0 { HeldThere(g, w, blocked, t); }
  }

  lemma HeldThere(g: Graph, w: Graph, blocked: set<nat>, t: nat)
    requires HeldAllOk(g, blocked, w) && t in blocked
    ensures t < |g| && |g[t]| > 0
  {
    assert HeldOk(g, w, t);
  }

  lemma WholeTrimmed(g: Graph, blocked: set<nat>, o: Order, e: Event)
    requires GraphOk(g) && HeldAllOk(g, blocked, Settled(g, blocked)) && InvAt(Settled(g, blocked), o)
    ensures Trimmed(g, g) && Cohesive(g, g, e)
  {
    hide InvAt, HeldAllOk, GraphOk, Settled, Intact, Trimmed, Cohesive;
    InvIntact(g, blocked, o);
    GraphThreads(g);
    IntactTrimmed(g, e);
  }

  lemma IntactTrimmed(g: Graph, e: Event)
    requires Intact(g) && Begun(g)
    ensures Trimmed(g, g) && Cohesive(g, g, e)
  {}

  /** The graph without the last read or join of a thread, and without what blocked threads wait at. */
  lemma RestOfLast(g: Graph, blocked: set<nat>, o: Order, e: Event)
    requires GraphOk(g) && HeldAllOk(g, blocked, Settled(g, blocked)) && InvAt(Settled(g, blocked), o)
    requires LastRecomputable(g, e)
    ensures InvAt(Settled(g, Add(blocked, e.thread)), o)
    ensures Supported(Settled(g, Add(blocked, e.thread)), Settled(g, blocked))
    ensures Buildable(Settled(g, Add(blocked, e.thread)), L(g, e), e)
  {
    hide InvAt, HeldAllOk, GraphOk, Settled, Supported, Buildable, Trimmed, Cohesive, Losing, Ends, Stuck,
         LastRecomputable;
    LosingSelf(g, blocked, o, e);
    WholeTrimmed(g, blocked, o, e);
    RestInv(g, blocked, o, g, e);
    LastBase(g, blocked, o, e);
  }

  /** The label at e can be rebuilt at the end of its thread in p. */
  ghost predicate Buildable(p: Graph, lab: Label, e: Event) {
    && Limit(p, e) && e.index == |p[e.thread]| >= 1 && lab.pos == e && WfOrdering(lab)
    && lab.ppo.Wf() && lab.ppo.Tight() && BaseOk(p, e, lab.ppo) && PpoSourced(p, e, lab.ppo)
  }

  lemma LastBase(g: Graph, blocked: set<nat>, o: Order, e: Event)
    requires GraphOk(g) && HeldAllOk(g, blocked, Settled(g, blocked)) && InvAt(Settled(g, blocked), o)
    requires LastRecomputable(g, e)
    requires Losing(g, blocked, g, e) == Add(blocked, e.thread) && Trimmed(g, g) && Cohesive(g, g, e) && Ends(g, g, e)
    ensures Buildable(Settled(g, Add(blocked, e.thread)), L(g, e), e)
  {
    hide InvAt, HeldAllOk, GraphOk, Settled, Trimmed, Cohesive, Losing, Ends, WfOrdering, BaseOk, PpoSourced;
    LastHeld(g, blocked, e);
    RestBase(g, blocked, o, g, e, e);
  }

  lemma LastHeld(g: Graph, blocked: set<nat>, e: Event)
    requires LastRecomputable(g, e)
    ensures var b := Add(blocked, e.thread);
                IsHeld(g, b, e) && e.index >= 1 && Limit(Settled(g, b), e) && e.index == |Settled(g, b)[e.thread]|
  {
    SettledAt(g, Add(blocked, e.thread));
  }

  lemma LosingSelf(g: Graph, blocked: set<nat>, o: Order, e: Event)
    requires GraphOk(g) && HeldAllOk(g, blocked, Settled(g, blocked)) && InvAt(Settled(g, blocked), o)
    requires LastRecomputable(g, e)
    ensures Losing(g, blocked, g, e) == Add(blocked, e.thread) && Ends(g, g, e)
  {
    hide InvAt, HeldAllOk, GraphOk, Settled, Stuck;
    StuckSelf(g, blocked, o);
  }

  /** No other view mentions the last read or join of a thread. */
  lemma LastUnknown(s: State, e: Event, x: Event)
    requires Inv(s) && LastRecomputable(s.graph, e) && In(Settled(s.graph, s.blocked), x) && x != e
    ensures !CHas(s.graph, x, e) && !PHas(s.graph, x, e) && !HbHas(s.graph, x, e) && !MsgHas(s.graph, x, e)
  {
    hide Inv, InvAt, HeldAllOk, GraphOk, Settled, BaseOk, PpoSourced, WfOrdering;
    var g, w := s.graph, Settled(s.graph, s.blocked);
    var p := Settled(g, Add(s.blocked, e.thread));
    var o := InvOrder(s);
    RestOfLast(g, s.blocked, o, e);
    SettledAt(g, s.blocked);
    SettledAt(g, Add(s.blocked, e.thread));
    assert In(p, x) && L(p, x) == L(g, x) && !In(p, e);
    hide Closed, Buildable;
    assert KnowsInside(p, L(p, x));
  }

  // ----- blocked threads do not notice -----

  lemma BaseRebuilt(w: Graph, e: Event, w': Graph, x: Event, c: Clock)
    requires BaseOk(w, x, c) && PpoSourced(w, x, c) && x.thread != e.thread
    requires (forall y :: In(w', y) <==> In(w, y) || y == e) && forall y :: In(w, y) && y != e ==>
                 Core(L(w', y)) == Core(L(w, y))
    requires forall y :: In(w, y) && y.thread == e.thread ==> y.index <= e.index
    requires In(w, e) ==> IsRecomputable(L(w, e))
    ensures BaseOk(w', x, c) && PpoSourced(w', x, c)
  {
    forall a | c.Has(a) && a != x ensures a != e && Admissible(w', x, c, a) && ThroughThread(w', x, c, a) {
      assert Admissible(w, x, c, a) && ThroughThread(w, x, c, a);
      LastNotIn(w, e, x, c);
      CoreFields(L(w', a), L(w, a));
      ThreadStays(w, e, w', x, c, a);
    }
    forall a, b | c.Has(a) && a != x && CHas(w', a, b) ensures c.Has(b) {
      assert Admissible(w, x, c, a);
      CoreFields(L(w', a), L(w, a));
      assert CHas(w, a, b);
    }
    forall q, b | Before(q, x) && IsAcquireOrFence(w', q) && CHas(w', q, b) ensures c.Has(b) {
      CoreFields(L(w', q), L(w, q));
      assert IsAcquireOrFence(w, q) && CHas(w, q, b);
    }
  }

  lemma LastNotIn(w: Graph, e: Event, x: Event, c: Clock)
    requires BaseOk(w, x, c) && x.thread != e.thread && (In(w, e) ==> IsRecomputable(L(w, e)))
    requires forall y :: In(w, y) && y.thread == e.thread ==> y.index <= e.index
    ensures !c.Has(e)
  {
    forall y | c.Has(y) && y.thread == e.thread ensures y.index <= e.index { assert y != x; }
    assert !LaterIn(c, e);
    hide LaterIn;
  }

  lemma ThreadStays(w: Graph, e: Event, w': Graph, x: Event, c: Clock, a: Event)
    requires ThroughThread(w, x, c, a) && x.thread != e.thread
    requires (forall y :: In(w', y) <==> In(w, y) || y == e) && forall y :: In(w, y) && y != e ==>
                 Core(L(w', y)) == Core(L(w, y))
    ensures ThroughThread(w', x, c, a)
  {
    var q :| In(w, q) && Before(q, x) && (q.index == 0 || c.Has(q)) && (a == q || CHas(w, q, a));
    CoreFields(L(w', q), L(w, q));
    assert In(w', q);
  }

  /** Blocked threads other than that of e stay blocked when the label at e is rebuilt or added. */
  lemma HeldRebuilt(g: Graph, blocked: set<nat>, w: Graph, e: Event, h: Graph, w': Graph)
    requires HeldAllOk(g, blocked, w) && e.thread !in blocked && |h| == |g|
    requires forall t :: t in blocked && t < |g| && |g[t]| > 0 ==>
                           |h[t]| == |g[t]| && var l, m := g[t][|g[t]| - 1], h[t][|g[t]| - 1]; m == l.(stamp := m.stamp)
    requires forall c :: CreatorRef(h, c) ==> CreatorRef(g, c)
    requires (forall y :: In(w', y) <==> In(w, y) || y == e) && forall y :: In(w, y) && y != e ==>
                 Core(L(w', y)) == Core(L(w, y))
    requires forall y :: In(w, y) && y.thread == e.thread ==> y.index <= e.index
    requires In(w, e) ==> IsRecomputable(L(w, e))
    ensures HeldAllOk(h, blocked, w')
  {
    forall t | t in blocked ensures HeldOk(h, w', t) {
      assert HeldOk(g, w, t);
      var x := Event(t, |g[t]| - 1);
      assert L(h, x) == L(g, x).(stamp := L(h, x).stamp);
      if x.index >= 1 {
        hide HeldAllOk;
        BaseRebuilt(w, e, w', x, L(g, x).ppo);
      }
    }
  }

  // ----- settled graphs before and after -----

  /** h is g but for the label at e, stamps, reader lists and join back-pointers; those blocked stay as they are. */
  ghost predicate Relabeled(g: Graph, blocked: set<nat>, e: Event, h: Graph) {
    && In(g, e) && |h| == |g| && (forall t :: 0 <= t < |g| ==> |h[t]| == |g[t]|)
    && (forall x :: In(g, x) && x != e ==>
           Core(L(h, x)) == Core(L(g, x)) && (IsHeld(g, blocked, x) ==> L(h, x) == L(g, x).(stamp := L(h, x).stamp)))
    && (forall c :: CreatorRef(h, c) ==> CreatorRef(g, c))
  }

  lemma RelabeledSettled(g: Graph, blocked: set<nat>, e: Event, h: Graph, b: set<nat>)
    requires Relabeled(g, blocked, e, h) && LastRecomputable(g, e) && b == Drop(blocked, e.thread) && L(h, e).pos == e
    ensures Extends(Settled(g, Add(blocked, e.thread)), L(h, e), Settled(h, b))
  {
    var p, w' := Settled(g, Add(blocked, e.thread)), Settled(h, b);
    SettledAt(g, Add(blocked, e.thread));
    SettledAt(h, b);
    forall x ensures In(w', x) <==> In(p, x) || x == e {
      if In(g, x) && x != e { assert IsHeld(h, b, x) <==> IsHeld(g, Add(blocked, e.thread), x); }
    }
  }

  lemma RelabeledHeld(g: Graph, blocked: set<nat>, e: Event, h: Graph, b: set<nat>)
    requires Relabeled(g, blocked, e, h) && LastRecomputable(g, e) && b == Drop(blocked, e.thread)
    requires HeldAllOk(g, blocked, Settled(g, blocked))
    ensures HeldAllOk(h, b, Settled(h, b))
  {
    var w, w' := Settled(g, blocked), Settled(h, b);
    SettledAt(g, blocked);
    SettledAt(h, b);
    forall x ensures In(w', x) <==> In(w, x) || x == e {
      if In(g, x) && x != e { assert IsHeld(h, b, x) <==> IsHeld(g, blocked, x); }
    }
    assert HeldAllOk(g, b, w);
    hide Settled, HeldAllOk;
    forall t | t in b && t < |g| && |g[t]| > 0
      ensures |h[t]| == |g[t]| && var l, m := g[t][|g[t]| - 1], h[t][|g[t]| - 1]; m == l.(stamp := m.stamp)
    {
      var x := Event(t, |g[t]| - 1);
      assert IsHeld(g, blocked, x) && L(h, x) == L(g, x).(stamp := L(h, x).stamp);
    }
    HeldRebuilt(g, b, w, e, h, w');
  }

  // ----- the whole graph -----

  ghost predicate SameListing(g: Graph, h: Graph) {
    && (forall x :: In(h, x) <==> In(g, x))
    && (forall x :: In(g, x) ==>
                      && L(h, x).pos == L(g, x).pos && L(h, x).rf == L(g, x).rf && L(h, x).readers == L(g, x).readers
                      && L(h, x).IsRead() == L(g, x).IsRead() && L(h, x).IsWrite() == L(g, x).IsWrite()
                      && L(h, x).kind.Absent? == L(g, x).kind.Absent?)
  }

  /** Reader lists do not depend on views, stamps and joins. */
  lemma SameListingInverse(g: Graph, h: Graph)
    requires SameListing(g, h) && RfInverse(g)
    ensures RfInverse(h)
  {
    forall e | IsReadAt(h, e) && L(h, e).rf != Bottom
      ensures RfTarget(h, L(h, e).rf)
      ensures IsWriteAt(h, L(h, e).rf) ==> e in L(h, L(h, e).rf).readers
    {
      assert IsReadAt(g, e) && RfTarget(g, L(g, e).rf);
    }
    forall w, r | IsWriteAt(h, w) && r in L(h, w).readers
      ensures IsReadAt(h, r) && L(h, r).rf == w
    {
      assert IsWriteAt(g, w) && IsReadAt(g, r);
    }
  }

  /** The two graphs differ in views, reads-from and the links between joins and finishes only. */
  ghost predicate SameShape(g: Graph, h: Graph) {
    && |h| == |g| && (forall t :: 0 <= t < |g| ==> |h[t]| == |g[t]|)
    && (forall x :: In(g, x) ==>
                      && L(h, x).stamp == L(g, x).stamp
                      && (|| L(h, x).kind == L(g, x).kind
                          || (L(h, x).kind.ThreadFinish? && L(g, x).kind.ThreadFinish?)
                          || (L(h, x).kind.ThreadJoin? && L(g, x).kind.ThreadJoin? &&
                                 L(h, x).kind.childId == L(g, x).kind.childId)))
  }

  lemma ShapeOk(g: Graph, h: Graph)
    requires SameShape(g, h) && Begun(g) && Stamped(g) && FinishesLast(g) && BeginsDistinct(g)
    requires Started(g)
    ensures Begun(h) && Stamped(h) && FinishesLast(h) && BeginsDistinct(h)
  {
    assert forall x :: In(h, x) <==> In(g, x);
    forall t | 0 <= t < |g| ensures h[t][0].kind == g[t][0].kind {
      assert In(g, Event(t, 0)) && L(g, Event(t, 0)) == g[t][0] && L(h, Event(t, 0)) == h[t][0];
    }
    hide SameShape, Started;
    ShapeStamped(g, h);
  }

  lemma ShapeStamped(g: Graph, h: Graph)
    requires Stamped(g) && FinishesLast(g)
    ensures SameShape(g, h) ==> Stamped(h) && FinishesLast(h)
  {}

  // ----- re-targeting -----

  lemma NotHeld(g: Graph, blocked: set<nat>, w: Graph, e: Event)
    requires HeldAllOk(g, blocked, w) && LastRecomputable(g, e) && L(g, e).IsRead()
    ensures e.thread !in blocked && Drop(blocked, e.thread) == blocked
  {
    if e.thread in blocked { HeldKind(g, blocked, w, e); }
  }

  lemma RetargetShape(g: Graph, blocked: set<nat>, w: Graph, read: Event, store: Event, lab: Label)
    requires HeldAllOk(g, blocked, w) && LastRecomputable(g, read) && L(g, read).IsRead() && L(g, read).pos == read
    requires var c := RfChanged(g, read, store); In(c, read) && lab == L(c, read).(hb := lab.hb, pporf := lab.pporf)
    ensures var h := Set(RfChanged(g, read, store), read, lab);
            && Relabeled(g, blocked, read, h) && L(h, read) == lab
            && lab == L(g, read).(rf := store, hb := lab.hb, pporf := lab.pporf)
            && SameShape(g, h) && (forall x :: In(g, x) ==> L(h, x).kind == L(g, x).kind)
            && (forall x :: In(g, x) && x != read ==> L(h, x).rf == L(g, x).rf)
  {
    var c := RfChanged(g, read, store);
    RfChangedAt(g, read, store);
    SetAt(c, read, lab);
    var h := Set(c, read, lab);
    assert forall t :: 0 <= t < |g| ==> |h[t]| == |g[t]|;
    assert |h| == |g|;
    hide RfChanged, Set;
    forall x | In(g, x) && x != read
      ensures L(h, x) == L(c, x) && Core(L(h, x)) == Core(L(g, x)) && (IsHeld(g, blocked, x) ==> L(h, x) == L(g, x))
      ensures L(h, x).kind == L(g, x).kind && L(h, x).stamp == L(g, x).stamp && L(h, x).rf == L(g, x).rf
    {
      if IsHeld(g, blocked, x) { HeldKind(g, blocked, w, x); }
    }
    hide Retargeted;
    forall e | CreatorRef(h, e) ensures CreatorRef(g, e) {}
  }

  /** The graph with the read re-targeted has all that its views are rebuilt from. */
  lemma RetargetSees(g: Graph, blocked: set<nat>, read: Event, store: Event)
    requires HeldAllOk(g, blocked, Settled(g, blocked)) && LastRecomputable(g, read) && L(g, read).IsRead()
    ensures Sees(RfChanged(g, read, store), Settled(g, Add(blocked, read.thread)), read)
    ensures RfTarget(g, store) ==> RfTarget(RfChanged(g, read, store), store)
  {
    hide RfChanged, Settled, HeldAllOk;
    var c, p := RfChanged(g, read, store), Settled(g, Add(blocked, read.thread));
    RfChangedAt(g, read, store);
    SettledAt(g, Add(blocked, read.thread));
    RetargetedKinds(g, c, read, store);
    forall x | In(p, x) ensures Core(L(c, x)) == Core(L(p, x)) {
      assert x != read;
    }
    forall x | In(c, x) && (Before(x, read) || x == Initializer || L(c, x).IsWrite() || L(c, x).kind.ThreadFinish?)
      ensures In(p, x)
    {
      if IsHeld(g, Add(blocked, read.thread), x) && x.thread != read.thread {
        HeldKind(g, blocked, Settled(g, blocked), x);
      }
    }
  }

  lemma RetargetInv(g: Graph, blocked: set<nat>, o: Order, read: Event, store: Event, lab: Label)
    requires GraphOk(g) && HeldAllOk(g, blocked, Settled(g, blocked)) && InvAt(Settled(g, blocked), o)
    requires LastRecomputable(g, read) && L(g, read).IsRead() && (store == Bottom || RfTarget(g, store))
    requires var c := RfChanged(g, read, store); In(c, read) && RfRecomputed(c, L(c, read), lab)
    ensures var h := Set(RfChanged(g, read, store), read, lab);
            InvAt(Settled(h, blocked), o.Then(read)) && HeldAllOk(h, blocked, Settled(h, blocked))
  {
    var c := RfChanged(g, read, store);
    var h, p := Set(c, read, lab), Settled(g, Add(blocked, read.thread));
    assert L(g, read).pos == read;
    hide InvAt, HeldAllOk, GraphOk, Settled, RfChanged, FromRf, HbComputed, Supported, Relabeled, Extends, Sees,
         LastRecomputable, BaseOk, PpoSourced, WfOrdering, SameShape;
    NotHeld(g, blocked, Settled(g, blocked), read);
    RetargetShape(g, blocked, Settled(g, blocked), read, store, lab);
    RestOfLast(g, blocked, o, read);
    RelabeledSettled(g, blocked, read, h, blocked);
    RelabeledHeld(g, blocked, read, h, blocked);
    RetargetSees(g, blocked, read, store);
    RetargetedLabel(g, read, store);
    RfSeen(c, p, read, lab.addr, store, lab.ppo);
    ReadViewsSeen(c, p, L(c, read), lab);
    OrderingSame(L(g, read), lab);
    SelfTarget(g, read, store);
    ReadRebuilt(p, o, lab, Settled(h, blocked));
  }

  lemma RetargetedLabel(g: Graph, read: Event, store: Event)
    requires IsReadAt(g, read)
    ensures In(RfChanged(g, read, store), read) && L(RfChanged(g, read, store), read) == L(g, read).(rf := store)
  {
    RfChangedAt(g, read, store);
  }

  lemma SelfTarget(g: Graph, read: Event, store: Event)
    requires IsReadAt(g, read) && LastRecomputable(g, read) && (store == Bottom || RfTarget(g, store))
    ensures store != read
  {}

  /** The hb view of a rebuilt read over what is left. */
  lemma ReadViewsSeen(c: Graph, p: Graph, lab0: Label, lab: Label)
    requires Sees(c, p, lab0.pos) && lab0.IsRead() && HbComputed(c, lab0, lab.hb)
    requires lab == lab0.(hb := lab.hb, pporf := lab.pporf)
    ensures HbComputed(p, lab, lab.hb)
  {
    ReadHbSeen(c, p, lab0);
    hide Sees;
    forall a ensures HbNew(p, lab, a) <==> HbNew(p, lab0, a) {}
  }

  lemma RetargetedListing(g: Graph, read: Event, store: Event, lab: Label)
    requires RfInverse(g) && IsReadAt(g, read) && (store == Bottom || RfTarget(g, store))
    requires In(RfChanged(g, read, store), read)
    requires var l := L(RfChanged(g, read, store), read); lab == l.(hb := lab.hb, pporf := lab.pporf)
    ensures RfInverse(Set(RfChanged(g, read, store), read, lab))
  {
    var c := RfChanged(g, read, store);
    WeakenInverse(g, read);
    ChangeRfKeepsInverse(g, read, store);
    SetAt(c, read, lab);
    hide RfChanged, Set, RfInverse;
    SameListingInverse(c, Set(c, read, lab));
  }

  lemma RetargetWhole(g: Graph, read: Event, store: Event, h: Graph, n: nat)
    requires Whole(g, n) && IsReadAt(g, read) && read.index >= 1 && (store == Bottom || RfTarget(g, store))
    requires n !in Between(g, read, store)
    requires (forall x :: In(h, x) <==> In(g, x)) && L(h, read).rf == store
    requires forall x :: In(g, x) ==> L(h, x).kind == L(g, x).kind && L(h, x).stamp == L(g, x).stamp
    requires forall x :: In(g, x) && x != read ==> L(h, x).rf == L(g, x).rf
    requires store != Bottom && store != Initializer ==> store.index >= 1
    ensures Whole(h, n)
  {
    assert forall x :: Below(h, n, x) <==> Below(g, n, x);
    forall x | Below(h, n, x) ensures Dangles(h, n, x) <==> Dangles(g, n, x) {}
    forall x ensures LastUpTo(h, n, x) <==> LastUpTo(g, n, x) {}
    forall x | IsReadAt(h, x) && Below(h, n, x) ensures L(h, x).rf == Bottom || Below(h, n, L(h, x).rf) {
      if x == read {
        assert store != Bottom && store.index >= 1 ==> n >= L(g, store).stamp + 1;
      } else {
        assert IsReadAt(g, x);
      }
    }
    forall f, j | JoinedBy(h, f, j) && Below(h, n, j) && !Below(h, n, f)
      ensures LastUpTo(h, n, j) && L(h, j).kind.childLast == f
    {
      assert JoinedBy(g, f, j);
    }
  }

  lemma RetargetKeeps(s: State, read: Event, store: Event, lab: Label, s': State)
    requires Inv(s) && RetargetStep(s, read, store, lab, s')
    ensures Inv(s')
  {
    var g, h := s.graph, s'.graph;
    hide Inv, InvAt, HeldAllOk, Settled, RfRecomputed, RfChanged, Whole, Between, GraphOk;
    var o := InvOrder(s);
    RetargetInv(g, s.blocked, o, read, store, lab);
    RetargetGraph(g, s.blocked, o, read, store, lab);
    forall n: nat | n !in s'.shut ensures Whole(h, n) { RetargetWholes(g, s.blocked, o, read, store, lab, n); }
    InvHolds(s', o.Then(read));
  }

  lemma RetargetGraph(g: Graph, blocked: set<nat>, o: Order, read: Event, store: Event, lab: Label)
    requires GraphOk(g) && HeldAllOk(g, blocked, Settled(g, blocked)) && InvAt(Settled(g, blocked), o)
    requires LastRecomputable(g, read) && L(g, read).IsRead() && (store == Bottom || RfTarget(g, store))
    requires var c := RfChanged(g, read, store); In(c, read) && RfRecomputed(c, L(c, read), lab)
    ensures GraphOk(Set(RfChanged(g, read, store), read, lab))
  {
    var c := RfChanged(g, read, store);
    var h := Set(c, read, lab);
    RecomputedFields(c, L(c, read), lab);
    hide InvAt, HeldAllOk, Settled, RfRecomputed, RfChanged, RfInverse, Stamped, FinishesLast, BeginsDistinct,
         SameShape, Relabeled, Set;
    SettledParts(g, blocked, o);
    RetargetShape(g, blocked, Settled(g, blocked), read, store, lab);
    RetargetedListing(g, read, store, lab);
    ShapeOk(g, h);
    SetAt(c, read, lab);
    RfChangedAt(g, read, store);
    ShapeJoins(g, h);
  }

  lemma RetargetWholes(g: Graph, blocked: set<nat>, o: Order, read: Event, store: Event, lab: Label, n: nat)
    requires GraphOk(g) && HeldAllOk(g, blocked, Settled(g, blocked)) && InvAt(Settled(g, blocked), o)
    requires LastRecomputable(g, read) && L(g, read).IsRead() && (store == Bottom || RfTarget(g, store))
    requires var c := RfChanged(g, read, store); In(c, read) && RfRecomputed(c, L(c, read), lab)
    requires Whole(g, n) && n !in Between(g, read, store)
    ensures Whole(Set(RfChanged(g, read, store), read, lab), n)
  {
    var c := RfChanged(g, read, store);
    var h := Set(c, read, lab);
    RecomputedFields(c, L(c, read), lab);
    WriteIndexed(g, store);
    hide InvAt, HeldAllOk, Settled, RfRecomputed, RfChanged, GraphOk, Relabeled, Set, Whole, Between;
    SettledParts(g, blocked, o);
    RetargetShape(g, blocked, Settled(g, blocked), read, store, lab);
    RfChangedAt(g, read, store);
    SetAt(c, read, lab);
    hide Retargeted;
    RetargetWhole(g, read, store, h, n);
  }

  lemma SettledParts(g: Graph, blocked: set<nat>, o: Order)
    requires HeldAllOk(g, blocked, Settled(g, blocked)) && InvAt(Settled(g, blocked), o)
    ensures Started(g) && Positioned(g)
  {
    InvRefs(Settled(g, blocked), o);
    hide InvAt, Settled, HeldAllOk;
    SettledStarted(g, blocked);
  }

  lemma RecomputedFields(c: Graph, l: Label, lab: Label)
    requires RfRecomputed(c, l, lab)
    ensures lab == l.(hb := lab.hb, pporf := lab.pporf)
  {}

  lemma ContentsFields(c: Graph, l: Label, lab: Label)
    requires RfContents(c, l, lab)
    ensures lab == l.(hb := lab.hb, pporf := lab.pporf)
  {}

  lemma ShapeJoins(g: Graph, h: Graph)
    requires JoinChildren(g) && (forall x :: In(h, x) <==> In(g, x)) && forall x :: In(g, x) ==>
                 L(h, x).kind == L(g, x).kind
    ensures JoinChildren(h)
  {}

  lemma WriteIndexed(g: Graph, e: Event)
    requires GraphOk(g)
    ensures RfTarget(g, e) && e != Initializer ==> e.index >= 1
  {}

  // ----- completing a join -----

  lemma CompleteShape(g: Graph, blocked: set<nat>, join: Event, f: Event, lab: Label)
    requires HeldAllOk(g, blocked, Settled(g, blocked)) && LastRecomputable(g, join) && L(g, join).kind.ThreadJoin?
    requires FinishOf(g, L(g, join).kind.childId, f)
    requires var c := JoinUpdated(g, join, f); In(c, join) && lab == L(c, join).(hb := lab.hb, pporf := lab.pporf)
    ensures var h := Set(JoinUpdated(g, join, f), join, lab);
            && Relabeled(g, blocked, join, h) && L(h, join) == lab && SameShape(g, h) && SameListing(g, h)
            && lab == L(g, join).(kind := ThreadJoin(L(g, join).kind.childId, f), hb := lab.hb, pporf := lab.pporf)
            && (forall x :: In(g, x) && x != join && x != f ==> L(h, x) == L(g, x))
            && L(h, f) == L(g, f).(kind := ThreadFinish(join)) && f != join
  {
    var c := JoinUpdated(g, join, f);
    JoinUpdatedAt(g, join, f);
    SetAt(c, join, lab);
    var h := Set(c, join, lab);
    assert |h| == |g| && forall t :: 0 <= t < |g| ==> |h[t]| == |g[t]|;
    hide JoinUpdated, Set, Settled;
    if IsHeld(g, blocked, f) { HeldKind(g, blocked, Settled(g, blocked), f); }
    forall x | In(g, x) && x != join && x != f ensures L(h, x) == L(g, x) {}
    assert Core(L(h, f)) == Core(L(g, f));
    forall e | CreatorRef(h, e) ensures CreatorRef(g, e) {}
  }

  lemma CompleteSees(g: Graph, blocked: set<nat>, join: Event, f: Event)
    requires HeldAllOk(g, blocked, Settled(g, blocked)) && LastRecomputable(g, join) && L(g, join).kind.ThreadJoin?
    requires FinishOf(g, L(g, join).kind.childId, f)
    ensures Sees(JoinUpdated(g, join, f), Settled(g, Add(blocked, join.thread)), join)
    ensures In(Settled(g, Add(blocked, join.thread)), f)
    ensures L(Settled(g, Add(blocked, join.thread)), f).kind.ThreadFinish?
  {
    var c, p := JoinUpdated(g, join, f), Settled(g, Add(blocked, join.thread));
    JoinUpdatedAt(g, join, f);
    SettledAt(g, Add(blocked, join.thread));
    hide JoinUpdated, Settled;
    forall x | In(p, x) ensures Core(L(c, x)) == Core(L(p, x)) {
      assert x != join;
    }
    forall x | In(g, x) && (Before(x, join) || x == Initializer || L(g, x).IsWrite() || L(g, x).kind.ThreadFinish?)
      ensures In(p, x)
    {
      if IsHeld(g, Add(blocked, join.thread), x) && x.thread != join.thread {
        HeldKind(g, blocked, Settled(g, blocked), x);
      }
    }
  }

  lemma CompleteInv(g: Graph, blocked: set<nat>, o: Order, join: Event, f: Event, lab: Label)
    requires GraphOk(g) && HeldAllOk(g, blocked, Settled(g, blocked)) && InvAt(Settled(g, blocked), o)
    requires LastRecomputable(g, join) && L(g, join).kind.ThreadJoin? && FinishOf(g, L(g, join).kind.childId, f)
    requires var c := JoinUpdated(g, join, f); In(c, join) && JoinRecomputed(c, L(c, join), f, lab)
    ensures var h, b := Set(JoinUpdated(g, join, f), join, lab), Drop(blocked, join.thread);
            InvAt(Settled(h, b), o.Then(join)) && HeldAllOk(h, b, Settled(h, b))
  {
    var c := JoinUpdated(g, join, f);
    var h, b, p := Set(c, join, lab), Drop(blocked, join.thread), Settled(g, Add(blocked, join.thread));
    SettledParts(g, blocked, o);
    assert L(g, join).pos == join && f != Initializer;
    hide InvAt, HeldAllOk, GraphOk, Settled, JoinUpdated, Supported, Relabeled, Extends, Sees,
         BaseOk, PpoSourced, WfOrdering, SameShape, SameListing, Started, Positioned;
    CompleteShape(g, blocked, join, f, lab);
    RestOfLast(g, blocked, o, join);
    RelabeledSettled(g, blocked, join, h, b);
    RelabeledHeld(g, blocked, join, h, b);
    CompleteSees(g, blocked, join, f);
    CompletedViews(c, p, L(c, join), f, lab);
    JoinOrderingSame(L(g, join), lab);
    JoinRebuilt(p, o, lab, Settled(h, b));
  }

  lemma JoinOrderingSame(l: Label, m: Label)
    requires WfOrdering(l) && l.kind.ThreadJoin? && m.kind.ThreadJoin? && l.ord == m.ord
    ensures WfOrdering(m)
  {}

  lemma CompletedViews(c: Graph, p: Graph, lab0: Label, f: Event, lab: Label)
    requires Sees(c, p, lab0.pos) && JoinRecomputed(c, lab0, f, lab) && In(p, f) && In(c, f)
    requires In(c, lab0.pos) && lab0.pos.index >= 1
    ensures forall a :: lab.pporf.Has(a) <==> lab.ppo.Has(a) || CHas(p, f, a)
    ensures forall a :: lab.hb.Has(a) <==> a == lab.pos || HbHas(p, lab.pos.Prev(), a) || HbHas(p, f, a)
    ensures lab.pporf.Wf() && lab.pporf.Tight() && lab.hb.At(lab.pos.thread) == lab.pos.index
  {
    SeenContents(c, p, lab0.pos);
    assert Before(lab0.pos.Prev(), lab0.pos) && In(c, lab0.pos.Prev());
    hide Sees;
  }

  lemma CompleteGraph(g: Graph, blocked: set<nat>, o: Order, join: Event, f: Event, lab: Label)
    requires GraphOk(g) && HeldAllOk(g, blocked, Settled(g, blocked)) && InvAt(Settled(g, blocked), o)
    requires LastRecomputable(g, join) && L(g, join).kind.ThreadJoin? && FinishOf(g, L(g, join).kind.childId, f)
    requires var c := JoinUpdated(g, join, f); In(c, join) && JoinRecomputed(c, L(c, join), f, lab)
    ensures GraphOk(Set(JoinUpdated(g, join, f), join, lab))
  {
    var h := Set(JoinUpdated(g, join, f), join, lab);
    hide InvAt, HeldAllOk, Settled, RfInverse, Stamped, FinishesLast, BeginsDistinct, SameShape, Relabeled, SameListing,
         JoinUpdated, Set, JoinChildren, GraphOk, FinishOf, LastRecomputable, Started, Positioned;
    CompletedFields(g, join, f, lab);
    SettledParts(g, blocked, o);
    CompleteShape(g, blocked, join, f, lab);
    GraphAll(g);
    SameListingInverse(g, h);
    ShapeOk(g, h);
    ListingIn(g, h);
    FinishThread(g, L(g, join).kind.childId, f);
    CompletedJoins(g, h, join, f);
    AllGraph(h);
  }

  lemma GraphAll(g: Graph)
    requires GraphOk(g)
    ensures Begun(g) && RfInverse(g) && Stamped(g) && FinishesLast(g) && JoinChildren(g) && BeginsDistinct(g)
  {}

  lemma AllGraph(g: Graph)
    requires Begun(g) && RfInverse(g) && Stamped(g) && FinishesLast(g) && JoinChildren(g) && BeginsDistinct(g)
    ensures GraphOk(g)
  {}

  lemma CompletedFields(g: Graph, join: Event, f: Event, lab: Label)
    requires In(g, join) && L(g, join).kind.ThreadJoin? && FinishOf(g, L(g, join).kind.childId, f)
    requires var c := JoinUpdated(g, join, f); In(c, join) && JoinRecomputed(c, L(c, join), f, lab)
    ensures var l := L(JoinUpdated(g, join, f), join); lab == l.(hb := lab.hb, pporf := lab.pporf)
  {}

  lemma FinishThread(g: Graph, c: nat, f: Event)
    requires FinishOf(g, c, f)
    ensures f.thread == c
  {}

  lemma CompletedJoins(g: Graph, h: Graph, join: Event, f: Event)
    requires JoinChildren(g) && (forall x :: In(h, x) <==> In(g, x)) && In(g, join) && L(g, join).kind.ThreadJoin?
    requires forall x :: In(g, x) && x != join && x != f ==> L(h, x) == L(g, x)
    requires L(h, join).kind == ThreadJoin(L(g, join).kind.childId, f) && f.thread == L(g, join).kind.childId
    requires In(g, f) && !L(h, f).kind.ThreadJoin?
    ensures JoinChildren(h)
  {}

  lemma ListingIn(g: Graph, h: Graph)
    requires SameListing(g, h)
    ensures forall x :: In(h, x) <==> In(g, x)
  {}

  lemma CompleteWhole(g: Graph, join: Event, f: Event, lab: Label, h: Graph, n: nat)
    requires Whole(g, n) && JoinChildren(g) && FinishesLast(g) && LastRecomputable(g, join)
    requires L(g, join).kind.ThreadJoin?
    requires FinishOf(g, L(g, join).kind.childId, f) && f != join && Started(g)
    requires (forall x :: In(h, x) <==> In(g, x)) && forall x :: In(g, x) && x != join && x != f ==> L(h, x) == L(g, x)
    requires L(h, f) == L(g, f).(kind := ThreadFinish(join)) && L(h, join) == lab
    requires lab == L(g, join).(kind := ThreadJoin(L(g, join).kind.childId, f), hb := lab.hb, pporf := lab.pporf)
    ensures Whole(h, n)
  {
    assert forall x :: Below(h, n, x) <==> Below(g, n, x);
    assert LastUpTo(h, n, join);
    forall x | Below(h, n, x) && x != join ensures Dangles(h, n, x) <==> Dangles(g, n, x) {}
    forall x ensures LastUpTo(h, n, x) <==> LastUpTo(g, n, x) {}
    forall x | IsReadAt(h, x) && Below(h, n, x) ensures L(h, x).rf == Bottom || Below(h, n, L(h, x).rf) {
      assert IsReadAt(g, x);
    }
    forall f', j | JoinedBy(h, f', j) && Below(h, n, j) && !Below(h, n, f')
      ensures LastUpTo(h, n, j) && L(h, j).kind.childLast == f'
    {
      if f' != f {
        assert JoinedBy(g, f', j);
      }
    }
  }

  lemma CompleteKeeps(s: State, join: Event, f: Event, lab: Label, s': State)
    requires Inv(s) && CompleteStep(s, join, f, lab, s')
    ensures Inv(s')
  {
    var g, h := s.graph, s'.graph;
    hide Inv, InvAt, HeldAllOk, Settled, JoinRecomputed, JoinUpdated, Whole, GraphOk, FinishOf;
    var o := InvOrder(s);
    CompleteInv(g, s.blocked, o, join, f, lab);
    CompleteGraph(g, s.blocked, o, join, f, lab);
    forall n: nat | n !in s'.shut ensures Whole(h, n) { CompleteWholes(g, s.blocked, o, join, f, lab, n); }
    InvHolds(s', o.Then(join));
  }

  lemma CompleteWholes(g: Graph, blocked: set<nat>, o: Order, join: Event, f: Event, lab: Label, n: nat)
    requires GraphOk(g) && HeldAllOk(g, blocked, Settled(g, blocked)) && InvAt(Settled(g, blocked), o)
    requires LastRecomputable(g, join) && L(g, join).kind.ThreadJoin? && FinishOf(g, L(g, join).kind.childId, f)
    requires var c := JoinUpdated(g, join, f); In(c, join) && JoinRecomputed(c, L(c, join), f, lab)
    requires Whole(g, n)
    ensures Whole(Set(JoinUpdated(g, join, f), join, lab), n)
  {
    var h := Set(JoinUpdated(g, join, f), join, lab);
    assert JoinChildren(g) && FinishesLast(g);
    hide InvAt, HeldAllOk, Settled, GraphOk, SameShape, Relabeled, SameListing, JoinUpdated, Set, Whole, JoinChildren,
         FinishesLast;
    SettledParts(g, blocked, o);
    CompleteShape(g, blocked, join, f, lab);
    ListingIn(g, h);
    CompleteWhole(g, join, f, lab, h, n);
  }
}
