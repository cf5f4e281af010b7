/** hb views after backward revisits with gaps: when they hold nothing but what comes before. */
module GapViews {
  import opened Events
  import opened Clocks
  import opened Graphs
  import opened ImmSpec
  import opened Causality
  import opened HbExact
  import opened Restriction
  import opened Sources
  import opened Settling
  import opened StampBounds
  import opened Trimming
  import opened RevisitSpec
  import opened Exchanges
  import opened States
  import opened Additions
  import opened Recompute
  import opened Cutbacks
  import opened Runs
  import opened Outcomes
  import opened HbRevisits

  // ----- gaps do not synchronise -----

  /** What comes after an acquire, a fence or a join in its thread is kept only with it. */
  lemma AcquiresKept(s: State, read: Event, write: Event, v: Clock, y: Event, x: Event)
    requires Inv(s) && IsRevisitView(s.graph, Backward(read, write), v) && v.Has(x)
    requires Before(y, x) && y.index >= 1 && IsAcquireOrFence(s.graph, y)
    ensures v.Has(y)
  {
    var g, rv := s.graph, Backward(read, write);
    RevisitEnds(g, rv, v);
    hide Inv, InvAt, HeldAllOk, GraphOk, Settled, Revisitable, IsRevisitView;
    var o := InvOrder(s);
    GraphStamps(g);
    InvRevisitable(g, s.blocked, o);
    var z := WhyKept(g, rv, v, x);
    if InPrefix(g, L(g, read).stamp, z) {
      PrefixDown(g, L(g, read).stamp, y, z);
    } else {
      KnownIn(g, s.blocked, o, write, z);
      AcquireInPrefix(g, s.blocked, o, write, y, z);
    }
    PrefixAndWriteKept(g, rv, v, y);
  }

  /** Nothing that follows an acquire is kept when that is re-targeted. */
  lemma NothingAfter(s: State, read: Event, write: Event, v: Clock, x: Event)
    requires Inv(s) && IsRevisitView(s.graph, Backward(read, write), v) && v.Has(x) && Before(read, x)
    requires IsReadAt(s.graph, read) && L(s.graph, read).AtLeastAcquire()
    ensures CHas(s.graph, write, read)
  {
    var g, rv := s.graph, Backward(read, write);
    RevisitEnds(g, rv, v);
    hide Inv, InvAt, HeldAllOk, GraphOk, Settled, Revisitable, IsRevisitView;
    var o := InvOrder(s);
    GraphStamps(g);
    InvRevisitable(g, s.blocked, o);
    AccessIndexed(g, read);
    var z := WhyKept(g, rv, v, x);
    assert L(g, read).stamp < L(g, z).stamp;
    KnownIn(g, s.blocked, o, write, z);
    AcquireInPrefix(g, s.blocked, o, write, read, z);
  }

  lemma PrefixDown(g: Graph, n: nat, y: Event, z: Event)
    requires ThreadsIncrease(g) && InPrefix(g, n, z) && Before(y, z) && y.index >= 1 && In(g, y)
    ensures InPrefix(g, n, y)
  {}

  lemma AcquireInPrefix(g: Graph, blocked: set<nat>, o: Order, write: Event, y: Event, z: Event)
    requires HeldAllOk(g, blocked, Settled(g, blocked)) && InvAt(Settled(g, blocked), o) && IsWriteAt(g, write)
    requires CHas(Settled(g, blocked), write, z) && In(g, z) && Before(y, z) && y.index >= 1 && IsAcquireOrFence(g, y)
    ensures CHas(g, write, y)
  {
    var w := Settled(g, blocked);
    hide InvAt, HeldAllOk, Settled, Causal, HbInv, Sourced, RfKnown, RfOrdered, OrderingsFixed;
    InvParts(w, o);
    SettledAt(g, blocked);
    CHasInGraph(w, o);
    SelfKnown(g, blocked, o, y);
    LabelParts(w, o, z);
    SourcedAt(w, z);
    assert In(w, y) && L(w, y) == L(g, y);
    AcquireKnown(w, z, y, y);
    ClosureAt(w, o, write, z, y);
  }

  // ----- where what an hb view holds may have come from -----

  /** a is of x's own thread, or known before x in it, or to the creation, finish or write that x refers to. */
  ghost predicate Explained(g: Graph, x: Event, a: Event)
    requires In(g, x)
  {
    var lab := L(g, x);
    || (a.thread == x.thread && a.index <= x.index)
    || (exists y :: Before(y, x) && HbHas(g, y, a))
    || (lab.kind.ThreadStart? && HbHas(g, lab.kind.parentCreate, a))
    || (lab.kind.ThreadJoin? && FinishAt(g, lab.kind.childLast) && HbHas(g, lab.kind.childLast, a))
    || (lab.IsRead() && lab.AtLeastAcquire() && MsgHas(g, lab.rf, a))
    || (lab.kind.Fence? && lab.AtLeastAcquire() && ViaFence(g, x, a))
  }

  /** The hb view of x holds nothing else. */
  ghost predicate HoldsOnly(g: Graph, x: Event)
    requires In(g, x)
  {
    forall a :: HbHas(g, x, a) ==> Explained(g, x, a)
  }

  lemma ExactHolds(w: Graph, x: Event)
    requires LocallyExact(w) && MessagesExact(w) && Positioned(w) && In(w, x)
    ensures HoldsOnly(w, x)
  {
    PosAt(w, x);
    hide LocallyExact, MessagesExact, MsgSource, Positioned;
    forall a | HbHas(w, x, a) && a != x ensures Explained(w, x, a) { ViewExplained(w, x, a); }
  }

  lemma ViewExplained(w: Graph, x: Event, a: Event)
    requires LocallyExact(w) && MessagesExact(w) && In(w, x) && L(w, x).pos == x && HbHas(w, x, a) && a != x
    ensures Explained(w, x, a)
  {
    hide MessagesExact, MsgSource;
    assert ViaEdge(w, x, a);
    var p :| HbEdge(w, p, x) && HbHas(w, p, a);
    hide LocallyExact;
    if L(w, x).IsRead() && MsgSource(w, L(w, x).rf, p) { SaidBySource(w, L(w, x).rf, p, a); }
    if r :| FenceableRead(w, x, r) && MsgSource(w, L(w, r).rf, p) { SaidBySource(w, L(w, r).rf, p, a); }
    assert p == x.Prev() ==> Before(p, x);
  }

  lemma HoldsWider(w: Graph, g: Graph, x: Event)
    requires (forall y :: In(w, y) ==> In(g, y) && L(w, y) == L(g, y)) && In(w, x) && HoldsOnly(w, x)
    ensures HoldsOnly(g, x)
  {
    forall a | HbHas(g, x, a) ensures Explained(g, x, a) {
      assert HbHas(w, x, a) && Explained(w, x, a);
      if y :| Before(y, x) && HbHas(w, y, a) { assert HbHas(g, y, a); }
    }
  }

  /** In graphs of runs no view does. */
  lemma RunsHoldOnly(s: State, x: Event)
    requires Inv(s) && In(s.graph, x) && !IsHeld(s.graph, s.blocked, x)
    ensures HoldsOnly(s.graph, x)
  {
    var g, w := s.graph, Settled(s.graph, s.blocked);
    hide Inv, InvAt, HeldAllOk, GraphOk, Settled, Causal, HbInv, LocallyExact, MessagesExact, Positioned, HoldsOnly,
         RefsInside;
    var o := InvOrder(s);
    SettledAt(g, s.blocked);
    InvParts(w, o);
    CausalReady(w, o);
    ExactParts(w, o);
    ExactHolds(w, x);
    HoldsWider(w, g, x);
  }

  // ----- what is kept says what it said -----

  predicate Kept(v: Clock, x: Event) { x.index == 0 || v.Has(x) }

  /** h is the graph after the revisit. */
  ghost predicate Remade(s: State, read: Event, write: Event, v: Clock, c: Graph, h: Graph) {
    && Inv(s) && IsRevisitView(s.graph, Backward(read, write), v) && IsCopy(s.graph, v, c) && Spans(s.graph, v)
    && v.Tight() && Resynced(c, read, write, h) && read != write && !CHas(s.graph, write, read)
    && IsReadAt(s.graph, read) && L(s.graph, read).stamp !in s.shut
  }

  lemma RemadeParts(s: State, read: Event, write: Event, v: Clock, c: Graph, h: Graph)
    requires Remade(s, read, write, v, c, h)
    ensures Inv(s) && IsRevisitView(s.graph, Backward(read, write), v) && IsCopy(s.graph, v, c) && Spans(s.graph, v)
    ensures v.Tight() && Resynced(c, read, write, h) && IsReadAt(s.graph, read) && L(s.graph, read).stamp !in s.shut
  {}

  lemma KeptThere(g: Graph, v: Clock, c: Graph, x: Event)
    requires IsCopy(g, v, c) && Spans(g, v) && Kept(v, x) && In(g, x)
    ensures In(c, x) && L(c, x) == L(g, x).(readers := L(c, x).readers)
  {
    if x.index >= 1 { HasAt(v, x); }
  }

  lemma KeptSays(s: State, read: Event, write: Event, v: Clock, c: Graph, h: Graph, x: Event, a: Event)
    requires Remade(s, read, write, v, c, h) && Kept(v, x) && x != read
    ensures HbHas(s.graph, x, a) ==> HbHas(h, x, a)
    ensures MsgHas(s.graph, x, a) ==> MsgHas(h, x, a)
    ensures FinishAt(s.graph, x) ==> FinishAt(h, x)
  {
    hide Inv, IsRevisitView, IsCopy, Spans;
    if In(s.graph, x) { KeptThere(s.graph, v, c, x); }
  }

  /** A relaxed read knows what came before it in its thread, and nothing else. */
  lemma RelaxedKnew(s: State, read: Event, a: Event)
    requires Inv(s) && IsReadAt(s.graph, read) && !L(s.graph, read).AtLeastAcquire() && HbHas(s.graph, read, a)
    ensures read.index >= 1 && (a == read || HbHas(s.graph, read.Prev(), a))
  {
    hide Inv, InvAt, HeldAllOk, GraphOk, Settled, Causal, HbInv, LocallyExact, MessagesExact, Positioned;
    var g, w := s.graph, Settled(s.graph, s.blocked);
    var o := InvOrder(s);
    GraphStamps(g);
    AccessIndexed(g, read);
    AccessesSettled(g, s.blocked);
    InvParts(w, o);
    CausalReady(w, o);
    ExactParts(w, o);
    PosAt(w, read);
    SettledAt(g, s.blocked);
    RelaxedExact(w, read, a);
  }

  /** So does a re-targeted one. */
  lemma RelaxedSays(s: State, read: Event, write: Event, v: Clock, c: Graph, h: Graph, a: Event)
    requires Remade(s, read, write, v, c, h) && !L(s.graph, read).AtLeastAcquire() && HbHas(s.graph, read, a)
    ensures HbHas(h, read, a)
  {
    hide Inv, IsRevisitView, IsCopy, Spans;
    RelaxedKnew(s, read, a);
    if a != read {
      GraphParts(s);
      PrevKept(s.graph, read, write, v, read.Prev());
      ViewHas(v, read.Prev());
      KeptThere(s.graph, v, c, read.Prev());
    }
  }

  lemma ViewHas(v: Clock, x: Event)
    requires x.index == 0 || v.Contains(x)
    ensures x.index >= 0 ==> Kept(v, x)
  {}

  // ----- what comes through the thread -----

  /** What an earlier label of the thread knew is explained, whatever gaps there are. */
  lemma {:induction false} ThreadExplains(s: State, read: Event, write: Event, v: Clock, c: Graph, h: Graph, x: Event,
                                          z: Event, a: Event)
    requires Remade(s, read, write, v, c, h) && In(h, x) && In(s.graph, x) && v.Has(x) && Before(z, x)
    requires HbHas(s.graph, z, a)
    ensures Explained(h, x, a)
    decreases z.index
  {
    hide Remade, Explained;
    if Kept(v, z) {
      KeptExplains(s, read, write, v, c, h, x, z, a);
    } else {
      var y := GapStep(s, read, write, v, c, h, x, z, a);
      if y != z { ThreadExplains(s, read, write, v, c, h, x, y, a); }
    }
  }

  lemma KeptExplains(s: State, read: Event, write: Event, v: Clock, c: Graph, h: Graph, x: Event, z: Event, a: Event)
    requires Remade(s, read, write, v, c, h) && In(h, x) && v.Has(x) && Before(z, x) && HbHas(s.graph, z, a)
    requires Kept(v, z)
    ensures Explained(h, x, a)
  {
    hide Inv, IsRevisitView, IsCopy, Spans, Resynced;
    if z == read {
      if L(s.graph, read).AtLeastAcquire() { NothingAfter(s, read, write, v, x); }
      RelaxedSays(s, read, write, v, c, h, a);
    } else {
      KeptSays(s, read, write, v, c, h, z, a);
    }
    assert HbHas(h, z, a);
  }

  /** A gap has added nothing to what came before it in its thread. */
  lemma GapStep(s: State, read: Event, write: Event, v: Clock, c: Graph, h: Graph, x: Event, z: Event, a: Event)
    returns (y: Event)
    requires Remade(s, read, write, v, c, h) && In(h, x) && In(s.graph, x) && v.Has(x) && Before(z, x)
    requires HbHas(s.graph, z, a) && !Kept(v, z)
    ensures y == z ==> Explained(h, x, a)
    ensures y != z ==> Before(y, z) && HbHas(s.graph, y, a)
  {
    var g := s.graph;
    hide Inv, IsRevisitView, IsCopy, Spans, Resynced;
    assert !IsHeld(g, s.blocked, z);
    RunsHoldOnly(s, z);
    GapPlain(s, z);
    if IsAcquireOrFence(g, z) { AcquiresKept(s, read, write, v, z, x); }
    y := z;
    if p :| Before(p, z) && HbHas(g, p, a) { y := p; }
  }

  lemma GapPlain(s: State, z: Event)
    requires Inv(s) && In(s.graph, z) && !IsHeld(s.graph, s.blocked, z) && z.index >= 1
    ensures !L(s.graph, z).kind.ThreadStart? && (L(s.graph, z).kind.ThreadJoin? ==> L(s.graph, z).AtLeastAcquire())
  {
    hide Inv, InvAt, HeldAllOk, GraphOk, Settled;
    var o := InvOrder(s);
    SettledAt(s.graph, s.blocked);
    LabelParts(Settled(s.graph, s.blocked), o, z);
  }

  // ----- what labels refer to -----

  lemma TopKept(g: Graph, v: Clock, c: Graph, t: nat)
    requires IsCopy(g, v, c) && Spans(g, v) && v.Tight() && t < |c| && |c[t]| > 1
    ensures v.Has(Event(t, |c[t]| - 1)) && |c[t]| <= |g[t]|
  {
    HasAt(v, Event(t, |c[t]| - 1));
  }

  /** What an earlier label of the thread refers to is kept with what follows it. */
  lemma RefKept(s: State, read: Event, write: Event, v: Clock, x: Event, y: Event, ref: Event)
    requires Inv(s) && IsRevisitView(s.graph, Backward(read, write), v) && v.Has(y) && Before(x, y) && In(s.graph, x)
    requires IsReadAt(s.graph, read) && L(s.graph, read).stamp !in s.shut && ref != Initializer
    requires || (L(s.graph, x).kind.ThreadStart? && x != Initializer && ref == L(s.graph, x).kind.parentCreate)
             || (L(s.graph, x).kind.ThreadJoin? && ref == L(s.graph, x).kind.childLast)
    ensures v.Has(ref)
  {
    var g, rv := s.graph, Backward(read, write);
    RevisitEnds(g, rv, v);
    GraphParts(s);
    hide Inv, InvAt, HeldAllOk, GraphOk, Settled, Revisitable, IsRevisitView, Whole, ThreadsIncrease, RfInverse;
    var o := InvOrder(s);
    InvRevisitable(g, s.blocked, o);
    var z := WhyKept(g, rv, v, y);
    RefsFollow(g, s.blocked, o, rv, v, x, z, ref);
    PrefixAndWriteKept(g, rv, v, ref);
  }

  /** The creation of the begin x has gone, while the begin stays for the next time. */
  predicate Orphaned(c: Graph, x: Event) {
    In(c, x) && L(c, x).kind.ThreadStart? && In(c, L(c, x).kind.parentCreate) &&
    L(c, L(c, x).kind.parentCreate).kind.Empty?
  }

  lemma CreationKept(s: State, read: Event, write: Event, v: Clock, c: Graph, h: Graph, x: Event)
    requires Remade(s, read, write, v, c, h) && Standing(c, Stuck(s.graph, s.blocked, c), x) && x.index == 0
    requires In(s.graph, x) && L(c, x).kind == L(s.graph, x).kind && L(c, x).kind.ThreadStart? && !Orphaned(c, x)
    ensures Kept(v, L(c, x).kind.parentCreate)
  {
    var g, create := s.graph, L(s.graph, x).kind.parentCreate;
    hide Inv, IsRevisitView, IsCopy, Spans, Resynced, Stuck;
    if x == Initializer {
      MainRefers(s);
    } else if |c[x.thread]| == 1 {
      assert In(c, create) by { NotStuckBegin(g, s.blocked, c, x); }
      CopyLabel(g, v, c, create);
      ViewHas(v, create);
    } else if create != Initializer {
      TopKept(g, v, c, x.thread);
      RefKept(s, read, write, v, x, Event(x.thread, |c[x.thread]| - 1), create);
    }
  }

  lemma MainRefers(s: State)
    requires Inv(s)
    ensures In(s.graph, Initializer) ==> L(s.graph, Initializer).kind == ThreadStart(Initializer)
  {
    hide Inv, InvAt, HeldAllOk, GraphOk, Settled;
    var o := InvOrder(s);
    MainStillBegun(s.graph, s.blocked, o);
    SettledAt(s.graph, s.blocked);
    InvParts(Settled(s.graph, s.blocked), o);
  }

  lemma NotStuckBegin(g: Graph, blocked: set<nat>, c: Graph, x: Event)
    requires In(c, x) && In(g, x) && x.index == 0 && x != Initializer && |c[x.thread]| == 1 && |g[x.thread]| >= 1
    requires L(g, x).kind.ThreadStart? && !IsHeld(c, Stuck(g, blocked, c), x)
    ensures In(c, L(g, x).kind.parentCreate)
  {
    assert !StuckAt(g, blocked, c, x.thread);
    assert g[x.thread][0] == L(g, x);
  }

  lemma FinishKept(s: State, read: Event, write: Event, v: Clock, c: Graph, h: Graph, x: Event)
    requires Remade(s, read, write, v, c, h) && Standing(c, Stuck(s.graph, s.blocked, c), x) && In(s.graph, x)
    requires L(c, x).kind == L(s.graph, x).kind && L(c, x).kind.ThreadJoin? && x.index >= 1
    requires FinishAt(s.graph, L(c, x).kind.childLast)
    ensures Kept(v, L(c, x).kind.childLast)
  {
    hide Remade, Inv, IsRevisitView, IsCopy, Spans, Resynced, Stuck, FinishAt, Kept;
    var g, f := s.graph, L(s.graph, x).kind.childLast;
    RemadeParts(s, read, write, v, c, h);
    FinishEnds(s, f);
    assert In(g, f);
    TopKept(g, v, c, x.thread);
    if x.index == |c[x.thread]| - 1 {
      NotStuckJoin(g, s.blocked, c, x);
      LastStays(g, v, c, f);
    } else {
      RefKept(s, read, write, v, x, Event(x.thread, |c[x.thread]| - 1), f);
      KeptAt(v, f);
    }
  }

  lemma FinishEnds(s: State, f: Event)
    requires Inv(s) && FinishAt(s.graph, f)
    ensures In(s.graph, f) && f.index == |s.graph[f.thread]| - 1 && f != Initializer
  {
    MainRefers(s);
    GraphParts(s);
  }

  lemma NotStuckJoin(g: Graph, blocked: set<nat>, c: Graph, x: Event)
    requires In(c, x) && In(g, x) && x.index == |c[x.thread]| - 1 && x.index >= 1 && |c[x.thread]| <= |g[x.thread]|
    requires L(g, x).kind.ThreadJoin? && L(g, x).kind.childLast != Initializer && !IsHeld(c, Stuck(g, blocked, c), x)
    ensures In(c, L(g, x).kind.childLast)
  {
    assert !StuckAt(g, blocked, c, x.thread);
    assert g[x.thread][|c[x.thread]| - 1] == L(g, x);
  }

  lemma KeptAt(v: Clock, f: Event)
    requires v.Has(f)
    ensures Kept(v, f)
  {}

  lemma LastStays(g: Graph, v: Clock, c: Graph, f: Event)
    requires IsCopy(g, v, c) && Spans(g, v) && v.Tight() && In(c, f) && In(g, f) && f.index == |g[f.thread]| - 1
    ensures Kept(v, f)
  {
    if f.index >= 1 { TopKept(g, v, c, f.thread); }
  }

  lemma WriteStays(s: State, read: Event, write: Event, v: Clock, c: Graph, h: Graph, x: Event, a: Event)
    requires Remade(s, read, write, v, c, h) && IsReadAt(s.graph, x) && x != read && v.Has(x)
    requires MsgHas(s.graph, L(s.graph, x).rf, a)
    ensures MsgHas(h, L(s.graph, x).rf, a)
  {
    var g, rv, rf := s.graph, Backward(read, write), L(s.graph, x).rf;
    RevisitEnds(g, rv, v);
    GraphParts(s);
    WriteIsNoMark(s, rf);
    hide Inv, InvAt, HeldAllOk, GraphOk, Settled, Revisitable, IsRevisitView, Whole, RfClosedPrefix, RfClosed, IsCopy,
         Spans, Resynced, ThreadsIncrease;
    var o := InvOrder(s);
    InvRevisitable(g, s.blocked, o);
    OpenPrefix(g, read);
    RevisitViewClosed(g, rv, v);
    assert RfKept(g, v, x) by { ClosedRf(g, v, read, x); }
    KeptSays(s, read, write, v, c, h, rf, a);
  }

  lemma ClosedRf(g: Graph, v: Clock, read: Event, x: Event)
    requires RfClosed(g, v, read) && IsReadAt(g, x) && x != read && v.Has(x)
    ensures RfKept(g, v, x)
  {}

  // ----- all of it -----

  /** x may have synchronised through r, which has gone or is re-targeted. */
  predicate LostRead(g: Graph, v: Clock, read: Event, x: Event, r: Event) {
    FenceableRead(g, x, r) && (r == read || !v.Has(r))
  }

  /** In the copy a is of the thread of fence x, or known before x in it,
      or to a write that x synchronises with once the
      read has been re-targeted. */
  ghost predicate StillSaid(c: Graph, read: Event, write: Event, x: Event, a: Event) {
    || (a.thread == x.thread && a.index <= x.index)
    || (exists y :: Before(y, x) && y != read && HbHas(c, y, a))
    || (exists r :: FenceableRead(c, x, r) && MsgHas(c, if r == read then write else L(c, r).rf, a))
  }

  /** What an acquire fence has learned through lost reads is still said to it. */
  ghost predicate Answered(g: Graph, v: Clock, c: Graph, read: Event, write: Event, x: Event) {
    IsAcquireFence(c, x) ==>
      forall r, a :: LostRead(g, v, read, x, r) && MsgHas(g, L(g, r).rf, a) ==> StillSaid(c, read, write, x, a)
  }

  /** Then nothing is held that should not be, unless by a begin whose creation has gone. */
  lemma KeptHolds(s: State, read: Event, write: Event, v: Clock, c: Graph, h: Graph, x: Event)
    requires Remade(s, read, write, v, c, h) && Standing(h, Stuck(s.graph, s.blocked, c), x)
    requires !Orphaned(c, x) && Answered(s.graph, v, c, read, write, x)
    ensures HoldsOnly(h, x)
  {
    hide Remade, Standing, Orphaned, Answered, Explained, Stuck;
    StandingThere(s, read, write, v, c, h, x);
    forall a | HbHas(h, x, a) ensures Explained(h, x, a) {
      if x == read { ReadExplains(s, read, write, v, c, h, a); } else { LabelExplains(s, read, write, v, c, h, x, a); }
    }
  }

  lemma StandingThere(s: State, read: Event, write: Event, v: Clock, c: Graph, h: Graph, x: Event)
    requires Remade(s, read, write, v, c, h) && Standing(h, Stuck(s.graph, s.blocked, c), x)
    ensures In(h, x) && In(c, x) && In(s.graph, x) && Kept(v, x) && Standing(c, Stuck(s.graph, s.blocked, c), x)
    ensures L(c, x) == L(s.graph, x).(readers := L(c, x).readers) && !IsHeld(s.graph, s.blocked, x)
    ensures x != read ==> L(h, x).kind == L(c, x).kind && L(h, x).ord == L(c, x).ord && L(h, x).rf == L(c, x).rf &&
                          L(h, x).hb == L(c, x).hb
  {
    ResyncedViews(c, read, write, h);
    hide Inv, IsRevisitView, IsCopy, Spans, Stuck;
    CopyLabel(s.graph, v, c, x);
    ViewHas(v, x);
    if IsHeld(s.graph, s.blocked, x) { StaysHeld(s.graph, s.blocked, v, c, x); }
  }

  lemma ReadExplains(s: State, read: Event, write: Event, v: Clock, c: Graph, h: Graph, a: Event)
    requires Remade(s, read, write, v, c, h) && In(h, read) && HbHas(h, read, a)
    ensures Explained(h, read, a)
  {
    var g := s.graph;
    hide Inv, IsRevisitView, IsCopy, Spans;
    ResyncedViews(c, read, write, h);
    assert a != read && HbHas(c, read.Prev(), a) ==> Before(read.Prev(), read) && HbHas(h, read.Prev(), a);
  }

  lemma LabelExplains(s: State, read: Event, write: Event, v: Clock, c: Graph, h: Graph, x: Event, a: Event)
    requires Remade(s, read, write, v, c, h) && Standing(h, Stuck(s.graph, s.blocked, c), x) && x != read && In(h, x)
    requires !Orphaned(c, x) && Answered(s.graph, v, c, read, write, x) && HbHas(h, x, a)
    ensures Explained(h, x, a)
  {
    var g := s.graph;
    hide Remade, Inv, IsRevisitView, IsCopy, Spans, Resynced, Standing, Orphaned, Answered, Stuck, HoldsOnly;
    StandingThere(s, read, write, v, c, h, x);
    RemadeParts(s, read, write, v, c, h);
    RunsHoldOnly(s, x);
    assert Explained(g, x, a) by { HoldsAt(g, x, a); }
    if y :| Before(y, x) && HbHas(g, y, a) {
      LaterHas(g, v, y, x);
      ThreadExplains(s, read, write, v, c, h, x, y, a);
    } else if !(a.thread == x.thread && a.index <= x.index) {
      SourceExplains(s, read, write, v, c, h, x, a);
    }
  }

  lemma HoldsAt(g: Graph, x: Event, a: Event)
    requires In(g, x) && HoldsOnly(g, x) && HbHas(g, x, a)
    ensures Explained(g, x, a)
  {}

  lemma LaterHas(g: Graph, v: Clock, y: Event, x: Event)
    requires Kept(v, x) && Before(y, x) && In(g, y)
    ensures v.Has(x)
  {}

  lemma SourceExplains(s: State, read: Event, write: Event, v: Clock, c: Graph, h: Graph, x: Event, a: Event)
    requires Remade(s, read, write, v, c, h) && Standing(h, Stuck(s.graph, s.blocked, c), x) && x != read && In(h, x)
    requires !Orphaned(c, x) && Answered(s.graph, v, c, read, write, x) && In(s.graph, x) && Explained(s.graph, x, a)
    requires !(a.thread == x.thread && a.index <= x.index) && !exists y :: Before(y, x) && HbHas(s.graph, y, a)
    ensures Explained(h, x, a)
  {
    hide Remade, Standing, Stuck, ViaFence, FinishAt, Kept, Orphaned, Answered;
    var lab := L(s.graph, x);
    StandingThere(s, read, write, v, c, h, x);
    if lab.kind.Fence? {
      FenceExplains(s, read, write, v, c, h, x, a);
    } else if lab.kind.ThreadStart? {
      CreationExplains(s, read, write, v, c, h, x, a);
    } else if lab.kind.ThreadJoin? {
      FinishExplains(s, read, write, v, c, h, x, a);
    } else {
      WriteExplains(s, read, write, v, c, h, x, a);
    }
  }

  lemma CreationExplains(s: State, read: Event, write: Event, v: Clock, c: Graph, h: Graph, x: Event, a: Event)
    requires Remade(s, read, write, v, c, h) && Standing(h, Stuck(s.graph, s.blocked, c), x) && x != read && In(h, x)
    requires !Orphaned(c, x) && In(s.graph, x) && L(s.graph, x).kind.ThreadStart?
    requires HbHas(s.graph, L(s.graph, x).kind.parentCreate, a)
    ensures Explained(h, x, a)
  {
    hide Remade, Inv, IsRevisitView, IsCopy, Spans, Resynced, Standing, Stuck, FinishAt, Kept, Orphaned, ViaFence,
         HbHas, MsgHas;
    var create := L(s.graph, x).kind.parentCreate;
    StandingThere(s, read, write, v, c, h, x);
    RemadeParts(s, read, write, v, c, h);
    Placed(s, x);
    CreationKept(s, read, write, v, c, h, x);
    NotRead(s, read, x);
    KeptSays(s, read, write, v, c, h, create, a);
  }

  lemma FinishExplains(s: State, read: Event, write: Event, v: Clock, c: Graph, h: Graph, x: Event, a: Event)
    requires Remade(s, read, write, v, c, h) && Standing(h, Stuck(s.graph, s.blocked, c), x) && x != read && In(h, x)
    requires In(s.graph, x) && L(s.graph, x).kind.ThreadJoin? && FinishAt(s.graph, L(s.graph, x).kind.childLast)
    requires HbHas(s.graph, L(s.graph, x).kind.childLast, a)
    ensures Explained(h, x, a)
  {
    hide Remade, Inv, IsRevisitView, IsCopy, Spans, Resynced, Standing, Stuck, FinishAt, Kept, ViaFence, HbHas, MsgHas;
    var finish := L(s.graph, x).kind.childLast;
    StandingThere(s, read, write, v, c, h, x);
    RemadeParts(s, read, write, v, c, h);
    Placed(s, x);
    FinishKept(s, read, write, v, c, h, x);
    NotRead(s, read, x);
    KeptSays(s, read, write, v, c, h, finish, a);
  }

  lemma WriteExplains(s: State, read: Event, write: Event, v: Clock, c: Graph, h: Graph, x: Event, a: Event)
    requires Remade(s, read, write, v, c, h) && Standing(h, Stuck(s.graph, s.blocked, c), x) && x != read && In(h, x)
    requires IsReadAt(s.graph, x) && L(s.graph, x).AtLeastAcquire() && MsgHas(s.graph, L(s.graph, x).rf, a)
    ensures Explained(h, x, a)
  {
    hide Remade, Inv, IsRevisitView, IsCopy, Spans, Resynced, Standing, Stuck, FinishAt, Kept, ViaFence, HbHas, MsgHas;
    StandingThere(s, read, write, v, c, h, x);
    RemadeParts(s, read, write, v, c, h);
    Placed(s, x);
    KeptRead(v, x);
    WriteStays(s, read, write, v, c, h, x, a);
  }

  lemma KeptRead(v: Clock, x: Event)
    requires Kept(v, x) && x.index >= 1
    ensures v.Has(x)
  {}

  lemma Placed(s: State, x: Event)
    requires Inv(s) && In(s.graph, x) && !IsHeld(s.graph, s.blocked, x)
    ensures L(s.graph, x).kind.ThreadStart? <==> x.index == 0
  {
    hide Inv, InvAt, HeldAllOk, GraphOk, Settled;
    var o := InvOrder(s);
    SettledAt(s.graph, s.blocked);
    LabelParts(Settled(s.graph, s.blocked), o, x);
  }

  /** No thread is created or joined by a read. */
  lemma NotRead(s: State, read: Event, x: Event)
    requires Inv(s) && In(s.graph, x) && !IsHeld(s.graph, s.blocked, x) && IsReadAt(s.graph, read)
    ensures L(s.graph, x).kind.ThreadStart? ==> L(s.graph, x).kind.parentCreate != read
    ensures L(s.graph, x).kind.ThreadJoin? ==> L(s.graph, x).kind.childLast != read
  {
    var w := Settled(s.graph, s.blocked);
    hide Inv, InvAt, HeldAllOk, GraphOk, Settled, Positioned, Started, RefsInside;
    var o := InvOrder(s);
    SettledAt(s.graph, s.blocked);
    GraphStamps(s.graph);
    AccessIndexed(s.graph, read);
    InvRefs(w, o);
    RefersElsewhere(w, s.graph, read, x);
  }

  lemma RefersElsewhere(w: Graph, g: Graph, read: Event, x: Event)
    requires RefsInside(w) && In(w, x) && In(g, x) && L(w, x) == L(g, x) && IsReadAt(g, read) && read.index >= 1
    requires forall y :: In(w, y) ==> In(g, y) && L(w, y) == L(g, y)
    ensures L(g, x).kind.ThreadStart? ==> L(g, x).kind.parentCreate != read
    ensures L(g, x).kind.ThreadJoin? ==> L(g, x).kind.childLast != read
  {
    if L(w, x).kind.ThreadStart? { assert CreatorRef(w, L(w, x).kind.parentCreate); }
    if L(w, x).kind.ThreadJoin? { assert FinishRef(w, L(w, x).kind.childLast); }
  }

  lemma FenceExplains(s: State, read: Event, write: Event, v: Clock, c: Graph, h: Graph, x: Event, a: Event)
    requires Remade(s, read, write, v, c, h) && Standing(h, Stuck(s.graph, s.blocked, c), x) && x != read && In(h, x)
    requires Answered(s.graph, v, c, read, write, x) && In(s.graph, x) && ViaFence(s.graph, x, a)
    requires L(s.graph, x).kind.Fence? && L(s.graph, x).AtLeastAcquire()
    ensures Explained(h, x, a)
  {
    hide Remade, Inv, IsRevisitView, IsCopy, Spans, Resynced, Standing, Stuck, Kept, StillSaid, Explained;
    var g := s.graph;
    var r :| FenceableRead(g, x, r) && MsgHas(g, L(g, r).rf, a);
    StandingThere(s, read, write, v, c, h, x);
    if LostRead(g, v, read, x, r) {
      assert StillSaid(c, read, write, x, a);
      SaidExplains(s, read, write, v, c, h, x, a);
    } else {
      ReadStays(s, read, write, v, c, h, r);
      WriteStays(s, read, write, v, c, h, r, a);
      FenceSaid(h, x, r, a);
    }
  }

  lemma FenceSaid(h: Graph, x: Event, r: Event, a: Event)
    requires In(h, x) && L(h, x).kind.Fence? && L(h, x).AtLeastAcquire() && FenceableRead(h, x, r)
    requires MsgHas(h, L(h, r).rf, a)
    ensures Explained(h, x, a)
  {
    assert ViaFence(h, x, a);
  }

  lemma ReadStays(s: State, read: Event, write: Event, v: Clock, c: Graph, h: Graph, r: Event)
    requires Remade(s, read, write, v, c, h) && IsReadAt(s.graph, r) && v.Has(r) && r != read
    ensures IsReadAt(h, r) && L(h, r).ord == L(s.graph, r).ord && L(h, r).rf == L(s.graph, r).rf
  {
    hide Inv, IsRevisitView, IsCopy, Spans;
    KeptThere(s.graph, v, c, r);
  }

  lemma SaidExplains(s: State, read: Event, write: Event, v: Clock, c: Graph, h: Graph, x: Event, a: Event)
    requires Remade(s, read, write, v, c, h) && StillSaid(c, read, write, x, a) && In(h, x)
    requires L(h, x).kind.Fence? && L(h, x).AtLeastAcquire()
    ensures Explained(h, x, a)
  {
    hide Inv, IsRevisitView, IsCopy, Spans, FinishAt, Standing, SyncsLater;
    ResyncedViews(c, read, write, h);
    if r :| FenceableRead(c, x, r) && MsgHas(c, if r == read then write else L(c, r).rf, a) {
      assert IsReadAt(c, r) && L(h, r).rf == (if r == read then write else L(c, r).rf) by { FenceableThere(c, x, r); }
      FenceSaid(h, x, r, a);
    }
  }

  // ----- and what goes wrong otherwise -----

  /** A fence that holds nothing else still hears what it has learned. */
  lemma HoldsAnswered(s: State, read: Event, write: Event, v: Clock, c: Graph, h: Graph, x: Event)
    requires Remade(s, read, write, v, c, h) && Standing(h, Stuck(s.graph, s.blocked, c), x) && In(h, x)
    requires HoldsOnly(h, x)
    ensures Answered(s.graph, v, c, read, write, x)
  {
    hide Remade, Inv, IsRevisitView, IsCopy, Spans, Resynced, Standing, Stuck, StillSaid, Explained, HoldsOnly;
    RemadeParts(s, read, write, v, c, h);
    if IsAcquireFence(c, x) {
      StandingThere(s, read, write, v, c, h, x);
      forall r, a | LostRead(s.graph, v, read, x, r) && MsgHas(s.graph, L(s.graph, r).rf, a)
        ensures StillSaid(c, read, write, x, a)
      {
        NotFence(s, read, write, v, c, h, x);
        FenceKnew(s, x, r, a);
        HoldsAt(h, x, a);
        OnlySaid(s, read, write, v, c, h, x, a);
      }
    }
  }

  lemma NotFence(s: State, read: Event, write: Event, v: Clock, c: Graph, h: Graph, x: Event)
    requires Remade(s, read, write, v, c, h) && In(c, x) && !IsReadAt(c, x)
    ensures x != read
  {
    hide Inv, IsRevisitView, IsCopy, Spans;
  }

  lemma FenceKnew(s: State, x: Event, r: Event, a: Event)
    requires Inv(s) && IsAcquireFence(s.graph, x) && !IsHeld(s.graph, s.blocked, x)
    requires FenceableRead(s.graph, x, r) && MsgHas(s.graph, L(s.graph, r).rf, a)
    ensures HbHas(s.graph, x, a)
  {
    hide Inv, IsHeld, MsgHas;
    RunsHeed(s);
    assert Standing(s.graph, s.blocked, x);
    assert HeedsAt(s.graph, x) by { HeedsOf(s.graph, s.blocked, x); }
  }

  lemma OnlySaid(s: State, read: Event, write: Event, v: Clock, c: Graph, h: Graph, x: Event, a: Event)
    requires Remade(s, read, write, v, c, h) && In(h, x) && Explained(h, x, a) && IsAcquireFence(c, x) && Kept(v, x)
    requires L(h, x).kind.Fence?
    ensures StillSaid(c, read, write, x, a)
  {
    hide Inv, IsRevisitView, IsCopy, Spans, FinishAt, Standing, SyncsLater;
    ResyncedViews(c, read, write, h);
    if y :| Before(y, x) && HbHas(h, y, a) {
      if y == read { ReadSaid(s, read, write, v, c, h, x, a); } else { assert HbHas(c, y, a); }
    } else if r :| FenceableRead(h, x, r) && MsgHas(h, L(h, r).rf, a) {
      assert FenceableRead(c, x, r) && MsgHas(c, if r == read then write else L(c, r).rf, a);
    }
  }

  lemma ReadSaid(s: State, read: Event, write: Event, v: Clock, c: Graph, h: Graph, x: Event, a: Event)
    requires Remade(s, read, write, v, c, h) && HbHas(h, read, a) && Before(read, x) && Kept(v, x)
    ensures StillSaid(c, read, write, x, a)
  {
    hide Inv, IsRevisitView, IsCopy, Spans;
    RemadeRead(s, read, write, v, c, h);
    if L(s.graph, read).AtLeastAcquire() { NothingAfter(s, read, write, v, x); }
    if a != read { assert Before(read.Prev(), x) && HbHas(c, read.Prev(), a); }
  }

  lemma RemadeRead(s: State, read: Event, write: Event, v: Clock, c: Graph, h: Graph)
    requires Remade(s, read, write, v, c, h)
    ensures In(c, read) && read.index >= 1 && L(c, read).ord == L(s.graph, read).ord
  {
    hide Inv, IsRevisitView, Spans;
    CopyLabel(s.graph, v, c, read);
    GraphParts(s);
    AccessIndexed(s.graph, read);
  }

  /** A begin whose creation has gone still holds it. */
  lemma OrphanFails(s: State, read: Event, write: Event, v: Clock, c: Graph, h: Graph, x: Event)
    requires Remade(s, read, write, v, c, h) && Standing(h, Stuck(s.graph, s.blocked, c), x) && In(h, x)
    requires Orphaned(c, x)
    ensures !HoldsOnly(h, x)
  {
    hide Remade, Inv, IsRevisitView, IsCopy, Spans, Resynced, Standing, Stuck, HoldsOnly, FinishAt, ViaFence;
    var create := L(c, x).kind.parentCreate;
    StandingThere(s, read, write, v, c, h, x);
    RemadeParts(s, read, write, v, c, h);
    NotFence(s, read, write, v, c, h, x);
    Placed(s, x);
    GoneCreation(s, v, c, x);
    CreationHeld(s, x);
    NotRead(s, read, x);
    KeptEmpty(s, read, write, v, c, h, create);
    assert HbHas(h, x, create) && !Explained(h, x, create);
    if HoldsOnly(h, x) { HoldsAt(h, x, create); }
  }

  lemma KeptEmpty(s: State, read: Event, write: Event, v: Clock, c: Graph, h: Graph, y: Event)
    requires Remade(s, read, write, v, c, h) && y != read && In(c, y) && L(c, y).hb == EmptyView && y.index >= 1
    ensures !HbHas(h, y, y)
  {
    hide Inv, IsRevisitView, IsCopy, Spans;
  }

  /** A creation that has gone was not the begin of main. */
  lemma GoneCreation(s: State, v: Clock, c: Graph, x: Event)
    requires Inv(s) && IsCopy(s.graph, v, c) && Orphaned(c, x) && In(s.graph, x) && !IsHeld(s.graph, s.blocked, x)
    requires L(c, x).kind == L(s.graph, x).kind
    ensures L(c, x).kind.parentCreate.index >= 1 && L(c, L(c, x).kind.parentCreate).hb == EmptyView
  {
    hide Inv, InvAt, HeldAllOk, GraphOk, Settled, IsCopy, RefsInside;
    var g, w, create := s.graph, Settled(s.graph, s.blocked), L(c, x).kind.parentCreate;
    var o := InvOrder(s);
    SettledAt(g, s.blocked);
    InvRefs(w, o);
    CreatorAt(w, x);
    MainRefers(s);
    CopyLabel(g, v, c, create);
  }

  lemma CreatorAt(w: Graph, x: Event)
    requires RefsInside(w) && In(w, x) && L(w, x).kind.ThreadStart?
    ensures CreatorRef(w, L(w, x).kind.parentCreate)
  {}

  lemma CreationHeld(s: State, x: Event)
    requires Inv(s) && In(s.graph, x) && !IsHeld(s.graph, s.blocked, x) && L(s.graph, x).kind.ThreadStart?
    requires L(s.graph, x).kind.parentCreate.index >= 1
    ensures HbHas(s.graph, x, L(s.graph, x).kind.parentCreate)
  {
    hide Inv, InvAt, HeldAllOk, GraphOk, Settled, RefsInside, HbInv, Causal, LocallyExact, MessagesExact, Positioned;
    var g, w, create := s.graph, Settled(s.graph, s.blocked), L(s.graph, x).kind.parentCreate;
    var o := InvOrder(s);
    SettledAt(g, s.blocked);
    InvRefs(w, o);
    CreatorAt(w, x);
    InvParts(w, o);
    CausalReady(w, o);
    ExactParts(w, o);
    SelfHeeded(w, create);
    PosAt(w, x);
    EdgeHeeded(w, create, x, create);
  }

  // ----- any backward revisit -----

  lemma MadeRemade(s: State, read: Event, write: Event, v: Clock, c: Graph, r: Graph, next: nat, lab: Label, s': State)
    requires Inv(s) && RevisitMade(s, read, write, v, c, r, next, lab, s') && !CHas(s.graph, write, read)
    ensures Remade(s, read, write, v, c, s'.graph) && s'.blocked == Stuck(s.graph, s.blocked, c)
  {
    hide Inv, RevisitMade, IsRevisitView, IsCopy, Stuck, Spans, InvAt, HeldAllOk, GraphOk, Settled, Revisitable,
         Resynced;
    MadeEnds(s, read, write, v, c, r, next, lab, s');
    MadeStuck(s, read, write, v, c, r, next, lab, s');
    MadeOpen(s, read, write, v, c, r, next, lab, s');
    CopiedRead(s, read, write, v, c);
    CopySpans(s, read, write, v);
    MadeResynced(s, read, write, v, c, r, next, lab, s');
    var o := InvOrder(s);
    InvRevisitable(s.graph, s.blocked, o);
    RevisitViewInside(s.graph, Backward(read, write), v);
  }

  lemma MadeOpen(s: State, read: Event, write: Event, v: Clock, c: Graph, r: Graph, next: nat, lab: Label, s': State)
    requires RevisitMade(s, read, write, v, c, r, next, lab, s')
    ensures IsReadAt(s.graph, read) && L(s.graph, read).stamp !in s.shut
  {}

  /** After any backward revisit of a read that the write does not depend on, gaps or not, hb views hold what comes
      before their events, all of it and nothing else, exactly if what synchronises later through the read had the
      message of the write, no begin has lost its creation to a gap, and what acquire fences have learned through reads
      that have gone or are re-targeted is still said to them. Nothing else can go wrong: what leaves a gap has not
      synchronised. */
  lemma RevisitExactIff(s: State, read: Event, write: Event, v: Clock, c: Graph, r: Graph, next: nat, lab: Label,
                        s': State)
    requires Inv(s) && RevisitMade(s, read, write, v, c, r, next, lab, s') && !CHas(s.graph, write, read)
    ensures (Heeding(s'.graph, s'.blocked) && forall x :: Standing(s'.graph, s'.blocked, x) ==> HoldsOnly(s'.graph, x))
            <==>
            (Informed(c, s'.blocked, read, write) &&
             forall x :: Standing(s'.graph, s'.blocked, x) ==>
                           !Orphaned(c, x) && Answered(s.graph, v, c, read, write, x))
  {
    hide Inv, RevisitMade, Heeding, Informed, HoldsOnly, Orphaned, Answered, Stuck, Remade;
    RevisitHeedsIff(s, read, write, v, c, r, next, lab, s');
    MadeRemade(s, read, write, v, c, r, next, lab, s');
    forall x | Standing(s'.graph, s'.blocked, x)
      ensures HoldsOnly(s'.graph, x) <==> !Orphaned(c, x) && Answered(s.graph, v, c, read, write, x)
    {
      if Orphaned(c, x) {
        OrphanFails(s, read, write, v, c, s'.graph, x);
      } else if Answered(s.graph, v, c, read, write, x) {
        KeptHolds(s, read, write, v, c, s'.graph, x);
      } else if HoldsOnly(s'.graph, x) {
        HoldsAnswered(s, read, write, v, c, s'.graph, x);
      }
    }
  }
}
