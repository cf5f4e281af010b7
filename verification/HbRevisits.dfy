/** hb views after backward revisits: exactly when they still hold all that comes before their events. */
module HbRevisits {
  import opened Events
  import opened Clocks
  import opened Graphs
  import opened ImmSpec
  import opened Causality
  import opened HbExact
  import opened Settling
  import opened StampBounds
  import opened Trimming
  import opened RevisitSpec
  import opened States
  import opened Additions
  import opened Recompute
  import opened Cutbacks
  import opened Runs
  import opened Exchanges
  import opened Outcomes

  // ----- views that heed what comes before -----

  /** The hb view of x holds those of earlier labels of its thread, of the creation or finish it refers to, and the
      messages it synchronises with. */
  ghost predicate HeedsAt(g: Graph, x: Event)
    requires In(g, x)
  {
    var lab := L(g, x);
    && (x.index >= 1 ==> HbHas(g, x, x))
    && (forall y: Event, a: Event :: y.thread == x.thread && y.index < x.index && HbHas(g, y, a) ==> HbHas(g, x, a))
    && (lab.kind.ThreadStart? ==> forall a :: HbHas(g, lab.kind.parentCreate, a) ==> HbHas(g, x, a))
    && (lab.kind.ThreadJoin? && FinishAt(g, lab.kind.childLast) ==>
          forall a :: HbHas(g, lab.kind.childLast, a) ==> HbHas(g, x, a))
    && (lab.IsRead() && lab.AtLeastAcquire() ==> forall a :: MsgHas(g, lab.rf, a) ==> HbHas(g, x, a))
    && (lab.kind.Fence? && lab.AtLeastAcquire() ==>
          forall r, a :: FenceableRead(g, x, r) && MsgHas(g, L(g, r).rf, a) ==> HbHas(g, x, a))
  }

  predicate FinishAt(g: Graph, f: Event) { In(g, f) && L(g, f).kind.ThreadFinish? }

  /** Labels that are there, and that their threads are not blocked at. */
  predicate Standing(g: Graph, blocked: set<nat>, x: Event) {
    In(g, x) && !IsHeld(g, blocked, x) && !L(g, x).kind.Empty?
  }

  ghost predicate Heeding(g: Graph, blocked: set<nat>) {
    forall x :: Standing(g, blocked, x) ==> HeedsAt(g, x)
  }

  // ----- in runs they do -----

  lemma EdgeHeeded(g: Graph, p: Event, x: Event, a: Event)
    requires LocallyExact(g) && In(g, x) && EdgeInto(g, p, L(g, x)) && HbHas(g, p, a)
    ensures HbHas(g, x, a)
  {
    if p != x {
      assert HbEdge(g, p, x);
      assert ViaEdge(g, x, a);
    }
  }

  lemma ExactHeeds(g: Graph, x: Event)
    requires LocallyExact(g) && MessagesExact(g) && Positioned(g) && In(g, x) && RefsInside(g)
    ensures HeedsAt(g, x)
  {
    var lab := L(g, x);
    hide LocallyExact, MessagesExact, MsgSource;
    if x.index >= 1 { SelfHeeded(g, x); }
    forall y: Event, a: Event | y.thread == x.thread && y.index < x.index && HbHas(g, y, a) ensures HbHas(g, x, a) {
      HbGrowsInThread(g, y, x, a);
    }
    if lab.kind.ThreadStart? {
      forall a | HbHas(g, lab.kind.parentCreate, a)
        ensures HbHas(g, x, a)
      {
        EdgeHeeded(g, lab.kind.parentCreate, x, a);
      }
    }
    if lab.kind.ThreadJoin? && FinishAt(g, lab.kind.childLast) {
      forall a | HbHas(g, lab.kind.childLast, a) ensures HbHas(g, x, a) { EdgeHeeded(g, lab.kind.childLast, x, a); }
    }
    if lab.IsRead() && lab.AtLeastAcquire() {
      forall a | MsgHas(g, lab.rf, a) ensures HbHas(g, x, a) {
        var p := Carrier(g, lab.rf, a);
        EdgeHeeded(g, p, x, a);
      }
    }
    if lab.kind.Fence? && lab.AtLeastAcquire() {
      forall r, a | FenceableRead(g, x, r) && MsgHas(g, L(g, r).rf, a) ensures HbHas(g, x, a) {
        var p := Carrier(g, L(g, r).rf, a);
        assert FenceableRead(g, lab.pos, r) && MsgSource(g, L(g, r).rf, p);
        EdgeHeeded(g, p, x, a);
      }
    }
  }

  lemma SelfHeeded(g: Graph, x: Event)
    requires LocallyExact(g) && In(g, x) && x.index >= 1
    ensures HbHas(g, x, x)
  {}

  lemma Carrier(g: Graph, w: Event, a: Event) returns (p: Event)
    requires MessagesExact(g) && MsgHas(g, w, a)
    ensures MsgSource(g, w, p) && HbHas(g, p, a)
  {
    assert ViaSource(g, w, a);
    p :| MsgSource(g, w, p) && HbHas(g, p, a);
  }

  /** What holds in the settled graph holds of what stands in the whole one: sources are never held. */
  lemma SettledHeeds(g: Graph, blocked: set<nat>, x: Event)
    requires HeldAllOk(g, blocked, Settled(g, blocked)) && In(Settled(g, blocked), x)
    requires HeedsAt(Settled(g, blocked), x) && RefsInside(Settled(g, blocked)) && In(g, x)
    ensures HeedsAt(g, x)
  {
    var w, lab := Settled(g, blocked), L(g, x);
    SettledAt(g, blocked);
    hide Settled;
    WritesSettled(g, blocked, w);
    SettledThread(g, blocked, w, x);
    if lab.kind.ThreadStart? { assert CreatorRef(w, lab.kind.parentCreate); }
    if lab.kind.ThreadJoin? { assert FinishRef(w, lab.kind.childLast); }
    hide HeldAllOk, RefsInside, IsHeld;
    assert forall y, a :: In(w, y) ==> (HbHas(w, y, a) <==> HbHas(g, y, a));
  }

  lemma SettledThread(g: Graph, blocked: set<nat>, w: Graph, x: Event)
    requires forall y :: In(w, y) <==> In(g, y) && !IsHeld(g, blocked, y)
    requires (forall y :: In(w, y) ==> L(w, y) == L(g, y)) && In(w, x)
    ensures forall y: Event :: y.thread == x.thread && y.index <= x.index && In(g, y) ==> In(w, y)
    ensures forall r :: FenceableRead(g, x, r) ==> FenceableRead(w, x, r)
  {}

  lemma WritesSettled(g: Graph, blocked: set<nat>, w: Graph)
    requires HeldAllOk(g, blocked, w) && forall x :: In(w, x) <==> In(g, x) && !IsHeld(g, blocked, x)
    requires forall x :: In(w, x) ==> L(w, x) == L(g, x)
    ensures forall x, a :: MsgHas(g, x, a) ==> MsgHas(w, x, a)
  {
    forall x | IsWriteAt(g, x) ensures In(w, x) {
      if IsHeld(g, blocked, x) { HeldKind(g, blocked, w, x); }
    }
  }

  lemma RunsHeed(s: State)
    requires Inv(s)
    ensures Heeding(s.graph, s.blocked)
  {
    hide Inv, InvAt, GraphOk, HeldAllOk, Settled, HbInv, Causal;
    var g := s.graph;
    var o := InvOrder(s);
    InvParts(Settled(g, s.blocked), o);
    CausalReady(Settled(g, s.blocked), o);
    ExactParts(Settled(g, s.blocked), o);
    hide HeedsAt, LocallyExact, MessagesExact, RefsInside, Positioned;
    forall x | Standing(g, s.blocked, x) ensures HeedsAt(g, x) {
      SettledLabel(g, s.blocked, x);
      ExactHeeds(Settled(g, s.blocked), x);
      SettledHeeds(g, s.blocked, x);
    }
  }

  // ----- so they do in copies -----

  lemma CopyLabel(g: Graph, v: Clock, c: Graph, x: Event)
    requires IsCopy(g, v, c) && In(c, x)
    ensures In(g, x)
    ensures x.index == 0 || v.Contains(x) || !L(c, x).kind.Empty? ==> L(c, x) == L(g, x).(readers := L(c, x).readers)
    ensures x.index == 0 || v.Contains(x) || (L(c, x).kind.Empty? && L(c, x).hb == EmptyView)
  {}

  lemma CopyViews(g: Graph, v: Clock, c: Graph)
    requires IsCopy(g, v, c)
    ensures forall x, a :: HbHas(c, x, a) ==> HbHas(g, x, a)
    ensures forall x, a :: MsgHas(c, x, a) ==> MsgHas(g, x, a)
    ensures forall e, r :: FenceableRead(c, e, r) ==> FenceableRead(g, e, r) && L(c, r).rf == L(g, r).rf
    ensures forall f :: FinishAt(c, f) ==> FinishAt(g, f)
  {
    forall x | In(c, x)
      ensures In(g, x)
      ensures L(c, x) == L(g, x).(readers := L(c, x).readers) || (L(c, x).kind.Empty? && L(c, x).hb == EmptyView)
    {
      CopyLabel(g, v, c, x);
    }
    hide IsCopy;
  }

  lemma CopyHeeds(g: Graph, blocked: set<nat>, v: Clock, c: Graph)
    requires IsCopy(g, v, c) && Spans(g, v) && Heeding(g, blocked)
    ensures Heeding(c, Stuck(g, blocked, c))
  {
    CopyViews(g, v, c);
    forall x | Standing(c, Stuck(g, blocked, c), x) ensures HeedsAt(c, x) {
      CopyLabel(g, v, c, x);
      if IsHeld(g, blocked, x) { StaysHeld(g, blocked, v, c, x); }
      hide IsCopy, Spans, Stuck, IsHeld, Heeding;
      assert Standing(g, blocked, x);
      assert HeedsAt(g, x) by { HeedsOf(g, blocked, x); }
      CopiedHeeds(g, c, x);
    }
  }

  lemma HeedsOf(g: Graph, blocked: set<nat>, x: Event)
    requires Heeding(g, blocked) && Standing(g, blocked, x)
    ensures HeedsAt(g, x)
  {}

  lemma CopiedHeeds(g: Graph, c: Graph, x: Event)
    requires In(g, x) && In(c, x) && L(c, x) == L(g, x).(readers := L(c, x).readers) && HeedsAt(g, x)
    requires forall y, a :: HbHas(c, y, a) ==> HbHas(g, y, a)
    requires forall y, a :: MsgHas(c, y, a) ==> MsgHas(g, y, a)
    requires forall e, r :: FenceableRead(c, e, r) ==> FenceableRead(g, e, r) && L(c, r).rf == L(g, r).rf
    requires forall f :: FinishAt(c, f) ==> FinishAt(g, f)
    ensures HeedsAt(c, x)
  {
    assert forall a :: HbHas(g, x, a) ==> HbHas(c, x, a);
  }

  // ----- and after the read has been re-targeted -----

  /** x is kept after the read in its thread and synchronises through it. */
  predicate SyncsLater(c: Graph, blocked: set<nat>, read: Event, x: Event) {
    && In(c, read) && Standing(c, blocked, x) && x.thread == read.thread && x.index > read.index
    && (L(c, read).AtLeastAcquire() ||
        (L(c, read).AtMostRelease() && L(c, x).kind.Fence? && L(c, x).AtLeastAcquire()))
  }

  /** h is c but for the read, which reads from the write, with the hb view that follows. */
  ghost predicate Resynced(c: Graph, read: Event, write: Event, h: Graph) {
    && IsReadAt(c, read) && IsReadAt(h, read) && (forall x :: In(h, x) <==> In(c, x))
    && (forall x, t :: IsHeld(h, t, x) <==> IsHeld(c, t, x))
    && (forall x :: In(c, x) && x != read ==>
          && L(h, x).hb == L(c, x).hb && L(h, x).msg == L(c, x).msg && L(h, x).kind == L(c, x).kind
          && L(h, x).ord == L(c, x).ord && L(h, x).rf == L(c, x).rf)
    && L(h, read).kind == L(c, read).kind && L(h, read).ord == L(c, read).ord && L(h, read).rf == write
    && (forall a :: HbHas(h, read, a) <==>
                      a == read || HbHas(c, read.Prev(), a) || (L(c, read).AtLeastAcquire() && MsgHas(c, write, a)))
  }

  /** Whoever synchronises through the read has what the write's message says. */
  ghost predicate Informed(c: Graph, blocked: set<nat>, read: Event, write: Event) {
    forall x, a :: SyncsLater(c, blocked, read, x) && MsgHas(c, write, a) ==> HbHas(c, x, a)
  }

  lemma ResyncedViews(c: Graph, read: Event, write: Event, h: Graph)
    requires Resynced(c, read, write, h) && read != write
    ensures forall x, a :: x != read ==> (HbHas(h, x, a) <==> HbHas(c, x, a))
    ensures forall x, a :: MsgHas(h, x, a) <==> MsgHas(c, x, a)
    ensures forall e, r :: FenceableRead(h, e, r) <==> FenceableRead(c, e, r)
    ensures forall f :: FinishAt(h, f) <==> FinishAt(c, f)
    ensures forall b, x :: Standing(h, b, x) <==> Standing(c, b, x)
    ensures forall b, x :: SyncsLater(h, b, read, x) <==> SyncsLater(c, b, read, x)
  {}

  /** What comes before the read has come before the label right before it. */
  ghost predicate PrevHeeds(c: Graph, read: Event) {
    forall y: Event, a: Event :: y.thread == read.thread && y.index < read.index && HbHas(c, y, a) ==>
                                   HbHas(c, read.Prev(), a)
  }

  /** The read itself heeds what it now comes after. */
  lemma ReadHeeds(c: Graph, read: Event, write: Event, h: Graph)
    requires Resynced(c, read, write, h) && read != write && read.index >= 1 && PrevHeeds(c, read)
    ensures HeedsAt(h, read)
  {
    ResyncedViews(c, read, write, h);
  }

  lemma OthersHeed(c: Graph, blocked: set<nat>, read: Event, write: Event, h: Graph, x: Event)
    requires Resynced(c, read, write, h) && read != write && Heeding(c, blocked) && Informed(c, blocked, read, write)
    requires Standing(c, blocked, x) && x != read && read.index >= 1 && Standing(c, blocked, read)
    requires L(c, x).kind != ThreadStart(read)
    ensures HeedsAt(h, x)
  {
    ResyncedViews(c, read, write, h);
    HeedsOf(c, blocked, x);
    HeedsOf(c, blocked, read);
    hide Resynced;
    LaterHeeds(c, blocked, read, write, h, x);
  }

  lemma LaterHeeds(c: Graph, blocked: set<nat>, read: Event, write: Event, h: Graph, x: Event)
    requires Resynced(c, read, write, h) && read != write && Informed(c, blocked, read, write)
    requires Standing(c, blocked, x) && x != read && read.index >= 1 && HeedsAt(c, x) && HeedsAt(c, read) && In(h, x)
    requires L(c, x).kind != ThreadStart(read)
    requires forall y, a :: y != read ==> (HbHas(h, y, a) <==> HbHas(c, y, a))
    requires forall y, a :: MsgHas(h, y, a) <==> MsgHas(c, y, a)
    requires forall e, r :: FenceableRead(h, e, r) <==> FenceableRead(c, e, r)
    requires forall f :: FinishAt(h, f) <==> FinishAt(c, f)
    ensures HeedsAt(h, x)
  {
    forall y: Event, a: Event | y.thread == x.thread && y.index < x.index && HbHas(h, y, a) ensures HbHas(h, x, a) {
      if y == read && a != read && !HbHas(c, read.Prev(), a) { assert SyncsLater(c, blocked, read, x); }
    }
    if L(h, x).kind.Fence? && L(h, x).AtLeastAcquire() {
      forall r, a | FenceableRead(h, x, r) && MsgHas(h, L(h, r).rf, a) ensures HbHas(h, x, a) {
        if r == read { assert SyncsLater(c, blocked, read, x); }
      }
    }
  }

  /** Conversely, views that heed the read have its message. */
  lemma HeedingInforms(c: Graph, blocked: set<nat>, read: Event, write: Event, h: Graph)
    requires Resynced(c, read, write, h) && read != write && Heeding(h, blocked) && read.index >= 1
    ensures Informed(c, blocked, read, write)
  {
    ResyncedViews(c, read, write, h);
    forall x, a | SyncsLater(c, blocked, read, x) && MsgHas(c, write, a) ensures HbHas(c, x, a) {
      HeedsOf(h, blocked, x);
      if L(c, read).AtLeastAcquire() {
        assert HbHas(h, read, a);
      } else {
        assert FenceableRead(h, x, read) && MsgHas(h, L(h, read).rf, a);
      }
      assert HbHas(h, x, a);
    }
  }

  lemma ResyncIff(c: Graph, blocked: set<nat>, read: Event, write: Event, h: Graph)
    requires Resynced(c, read, write, h) && read != write && Heeding(c, blocked) && read.index >= 1
    requires Standing(c, blocked, read) && PrevHeeds(c, read)
    requires forall x :: Standing(c, blocked, x) ==> L(c, x).kind != ThreadStart(read)
    ensures Heeding(h, blocked) <==> Informed(c, blocked, read, write)
  {
    if Heeding(h, blocked) { HeedingInforms(c, blocked, read, write, h); }
    if Informed(c, blocked, read, write) {
      ResyncedViews(c, read, write, h);
      hide Resynced, Heeding, HeedsAt, Informed, PrevHeeds;
      forall x | Standing(h, blocked, x) ensures HeedsAt(h, x) {
        if x == read {
          ReadHeeds(c, read, write, h);
        } else {
          OthersHeed(c, blocked, read, write, h, x);
        }
      }
      HeedingAll(h, blocked);
    }
  }

  lemma HeedingAll(h: Graph, blocked: set<nat>)
    requires forall x :: Standing(h, blocked, x) ==> HeedsAt(h, x)
    ensures Heeding(h, blocked)
  {}

  // ----- any backward revisit of a graph of a run -----

  lemma ReadNotHeld(g: Graph, blocked: set<nat>, v: Clock, c: Graph, x: Event)
    requires HeldAllOk(g, blocked, Settled(g, blocked)) && IsCopy(g, v, c) && Spans(g, v) && IsReadAt(c, x)
    ensures !IsHeld(c, Stuck(g, blocked, c), x)
  {
    CopyAt(g, v, c, x);
    if x.thread in blocked && |c[x.thread]| == |g[x.thread]| && x.index == |c[x.thread]| - 1 {
      HeldKind(g, blocked, Settled(g, blocked), x);
    }
    assert L(g, x) == g[x.thread][x.index];
  }

  /** What the copy holds before the read has been kept. */
  lemma CopyPrevHeeds(s: State, read: Event, write: Event, v: Clock, c: Graph)
    requires Inv(s) && IsRevisitView(s.graph, Backward(read, write), v) && IsCopy(s.graph, v, c) && IsReadAt(c, read)
    requires IsReadAt(s.graph, read)
    ensures read.index >= 1 && PrevHeeds(c, read)
  {
    var g, p := s.graph, read.Prev();
    hide Inv, InvAt, GraphOk, HeldAllOk, Settled, HbInv, Causal;
    var o := InvOrder(s);
    GraphStamps(g);
    AccessIndexed(g, read);
    PrevKept(g, read, write, v, p);
    InvParts(Settled(g, s.blocked), o);
    CausalReady(Settled(g, s.blocked), o);
    ExactParts(Settled(g, s.blocked), o);
    CopyViews(g, v, c);
    if In(c, p) { CopyLabel(g, v, c, p); }
    hide IsCopy, IsRevisitView, LocallyExact, Positioned;
    forall y: Event, a: Event | y.thread == read.thread && y.index < read.index && HbHas(c, y, a)
      ensures HbHas(c, p, a)
    {
      assert HbHas(g, y, a) && In(c, p);
      ThreadHeeds(g, s.blocked, read, y, a);
    }
  }

  lemma PrevKept(g: Graph, read: Event, write: Event, v: Clock, p: Event)
    requires IsRevisitView(g, Backward(read, write), v) && ThreadsIncrease(g) && IsReadAt(g, read) && p == read.Prev()
    requires read.index >= 1
    ensures p.index == 0 || v.Contains(p)
  {
    if p.index >= 1 {
      assert L(g, p).stamp < L(g, read).stamp;
      assert InPrefix(g, L(g, read).stamp, p);
    }
  }

  lemma ThreadHeeds(g: Graph, blocked: set<nat>, read: Event, y: Event, a: Event)
    requires LocallyExact(Settled(g, blocked)) && Positioned(Settled(g, blocked)) && In(g, read)
    requires y.thread == read.thread && y.index < read.index && HbHas(g, y, a)
    ensures HbHas(g, read.Prev(), a)
  {
    SettledAt(g, blocked);
    hide LocallyExact, Positioned;
    HbGrowsInThread(Settled(g, blocked), y, read.Prev(), a);
  }

  lemma CreatorsNotReads(s: State, read: Event, v: Clock, c: Graph, x: Event)
    requires Inv(s) && IsCopy(s.graph, v, c) && Spans(s.graph, v) && IsReadAt(s.graph, read) && read.index >= 1
    requires Standing(c, Stuck(s.graph, s.blocked, c), x)
    ensures L(c, x).kind != ThreadStart(read)
  {
    var g := s.graph;
    hide Inv, InvAt, GraphOk, HeldAllOk, Settled, HbInv, Causal;
    var o := InvOrder(s);
    InvParts(Settled(g, s.blocked), o);
    CausalReady(Settled(g, s.blocked), o);
    CopyLabel(g, v, c, x);
    if IsHeld(g, s.blocked, x) { StaysHeld(g, s.blocked, v, c, x); }
    hide IsCopy, Spans, Stuck, IsHeld;
    SettledLabel(g, s.blocked, x);
    SettledPart(g, s.blocked);
    assert L(g, x).kind == ThreadStart(read) ==> CreatorRef(Settled(g, s.blocked), read);
  }

  lemma SettledPart(g: Graph, blocked: set<nat>)
    ensures forall x :: In(Settled(g, blocked), x) ==> In(g, x) && L(Settled(g, blocked), x) == L(g, x)
  {
    SettledAt(g, blocked);
  }

  lemma MadeShape(s: State, read: Event, write: Event, v: Clock, c: Graph, r: Graph, next: nat, lab: Label, s': State)
    requires RevisitMade(s, read, write, v, c, r, next, lab, s')
    ensures IsReadAt(r, read) && |r| == |c| && (forall t :: 0 <= t < |c| ==> |r[t]| == |c[t]|)
    ensures forall x :: In(c, x) ==> L(r, x) == L(c, x).(stamp := L(r, x).stamp)
    ensures var h := RfChanged(r, read, write);
            In(h, read) && RfContents(h, L(h, read), lab) && s'.graph == Set(h, read, lab)
  {
    hide IsRevisitView, IsCopy, RfChanged, RfContents, Set, Stuck;
  }

  lemma MadeResynced(s: State, read: Event, write: Event, v: Clock, c: Graph, r: Graph, next: nat, lab: Label,
                     s': State)
    requires RevisitMade(s, read, write, v, c, r, next, lab, s') && IsReadAt(c, read) && L(c, read).pos == read
    requires read != write
    ensures Resynced(c, read, write, s'.graph)
  {
    hide RevisitMade, RfChanged, Set, RfContents, Retargeted;
    MadeShape(s, read, write, v, c, r, next, lab, s');
    var h1 := RfChanged(r, read, write);
    RfChangedAt(r, read, write);
    LengthsSame(r, read, write);
    HbAfter(c, r, read, write, h1, lab);
    LabAfter(h1, read, lab);
    SetAt(h1, read, lab);
    OthersAfter(c, r, read, write, h1);
    HeldAfter(c, s'.graph);
  }

  lemma LabAfter(h1: Graph, read: Event, lab: Label)
    requires In(h1, read) && RfContents(h1, L(h1, read), lab)
    ensures lab.kind == L(h1, read).kind && lab.ord == L(h1, read).ord && lab.rf == L(h1, read).rf
  {
    hide FromRf, HbNew;
  }

  lemma OthersAfter(c: Graph, r: Graph, read: Event, write: Event, h1: Graph)
    requires IsReadAt(r, read) && Retargeted(r, read, write, h1) && |r| == |c|
    requires forall t :: 0 <= t < |c| ==> |r[t]| == |c[t]|
    requires forall x :: In(c, x) ==> L(r, x) == L(c, x).(stamp := L(r, x).stamp)
    ensures In(c, read) && In(h1, read) && L(h1, read).kind == L(c, read).kind && L(h1, read).ord == L(c, read).ord
    ensures L(h1, read).rf == write
    ensures forall x :: In(h1, x) <==> In(c, x)
    ensures forall x :: In(c, x) && x != read ==>
              && L(h1, x).hb == L(c, x).hb && L(h1, x).msg == L(c, x).msg && L(h1, x).kind == L(c, x).kind
              && L(h1, x).ord == L(c, x).ord && L(h1, x).rf == L(c, x).rf
  {
    assert forall x :: In(r, x) <==> In(c, x);
  }

  lemma HeldAfter(c: Graph, h: Graph)
    requires |h| == |c| && (forall t :: 0 <= t < |c| ==> |h[t]| == |c[t]|)
    ensures forall x, t :: IsHeld(h, t, x) <==> IsHeld(c, t, x)
  {}

  lemma HbAfter(c: Graph, r: Graph, read: Event, write: Event, h1: Graph, lab: Label)
    requires IsReadAt(r, read) && Retargeted(r, read, write, h1) && RfContents(h1, L(h1, read), lab) && read != write
    requires forall x :: In(r, x) <==> In(c, x)
    requires forall x :: In(c, x) ==> L(r, x) == L(c, x).(stamp := L(r, x).stamp)
    requires IsReadAt(c, read) && L(c, read).pos == read
    ensures forall a :: lab.hb.Has(a) <==>
                          a == read || HbHas(c, read.Prev(), a) || (L(c, read).AtLeastAcquire() && MsgHas(c, write, a))
  {
    hide FromRf;
    forall x, a | x != read ensures (HbHas(h1, x, a) <==> HbHas(c, x, a)) && (MsgHas(h1, x, a) <==> MsgHas(c, x, a)) {}
    hide Retargeted;
    assert L(h1, read).pos == read && L(h1, read).rf == write;
  }

  /** After any backward revisit of a graph of a run hb views hold all that comes before their events exactly if what is
      kept after the read in its thread, and synchronises through it, already had what the write's message says. */
  lemma RevisitHeedsIff(s: State, read: Event, write: Event, v: Clock, c: Graph, r: Graph, next: nat, lab: Label,
                        s': State)
    requires Inv(s) && RevisitMade(s, read, write, v, c, r, next, lab, s')
    ensures Heeding(s'.graph, s'.blocked) <==> Informed(c, s'.blocked, read, write)
  {
    var g, b := s.graph, s'.blocked;
    hide Inv, RevisitMade, IsRevisitView, IsCopy, Stuck, Heeding, Informed, Resynced, PrevHeeds, Spans, HeedsAt;
    MadeEnds(s, read, write, v, c, r, next, lab, s');
    MadeStuck(s, read, write, v, c, r, next, lab, s');
    CopiedRead(s, read, write, v, c);
    CopySpans(s, read, write, v);
    MadeResynced(s, read, write, v, c, r, next, lab, s');
    CopyPrevHeeds(s, read, write, v, c);
    RunsHeed(s);
    CopyHeeds(g, s.blocked, v, c);
    ReadStands(s, v, c, read);
    forall x | Standing(c, b, x) ensures L(c, x).kind != ThreadStart(read) { CreatorsNotReads(s, read, v, c, x); }
    ResyncIff(c, b, read, write, s'.graph);
  }

  lemma CopySpans(s: State, read: Event, write: Event, v: Clock)
    requires Inv(s) && IsRevisitView(s.graph, Backward(read, write), v)
    ensures Spans(s.graph, v)
  {
    hide Inv, InvAt, GraphOk, HeldAllOk, Settled, IsRevisitView, Revisitable, Spans;
    var o := InvOrder(s);
    GraphStamps(s.graph);
    InvRevisitable(s.graph, s.blocked, o);
    RevisitViewInside(s.graph, Backward(read, write), v);
    ViewSpans(s.graph, v);
  }

  lemma ReadStands(s: State, v: Clock, c: Graph, read: Event)
    requires Inv(s) && IsCopy(s.graph, v, c) && Spans(s.graph, v) && IsReadAt(c, read)
    ensures Standing(c, Stuck(s.graph, s.blocked, c), read)
  {
    hide Inv, InvAt, GraphOk, HeldAllOk, Settled, IsCopy, Spans, Stuck;
    var o := InvOrder(s);
    ReadNotHeld(s.graph, s.blocked, v, c, read);
  }

  /** For a release that is not known to anybody yet: exactly if nothing that synchronises through the read is kept. */
  lemma ReleaseHeedsIff(s: State, read: Event, write: Event, v: Clock, c: Graph, r: Graph, next: nat, lab: Label,
                        s': State)
    requires Inv(s) && RevisitMade(s, read, write, v, c, r, next, lab, s')
    requires L(s.graph, write).AtLeastRelease() && !L(s.graph, write).IsRmwStore()
    requires forall x :: HbHas(s.graph, x, write) ==> x == write
    ensures Heeding(s'.graph, s'.blocked) <==> !exists x :: SyncsLater(c, s'.blocked, read, x)
  {
    hide Inv, RevisitMade, IsRevisitView, IsCopy, Heeding, SyncsLater;
    RevisitHeedsIff(s, read, write, v, c, r, next, lab, s');
    MadeEnds(s, read, write, v, c, r, next, lab, s');
    CopiedRead(s, read, write, v, c);
    ReleaseTold(s, write);
    CopyTells(s, read, write, v, c);
    CopyViews(s.graph, v, c);
    forall x | SyncsLater(c, s'.blocked, read, x) ensures x != write && !HbHas(c, x, write) {
      LaterNotWrite(c, s'.blocked, read, write, x);
    }
  }

  lemma LaterNotWrite(c: Graph, blocked: set<nat>, read: Event, write: Event, x: Event)
    requires SyncsLater(c, blocked, read, x) && write.thread != read.thread
    ensures x != write
  {}

  /** A release tells of itself. */
  lemma ReleaseTold(s: State, w: Event)
    requires Inv(s) && IsWriteAt(s.graph, w) && L(s.graph, w).AtLeastRelease() && !L(s.graph, w).IsRmwStore()
    ensures MsgHas(s.graph, w, w)
  {
    hide Inv, InvAt, GraphOk, HeldAllOk, Settled, HbInv, Causal;
    var g := s.graph;
    var o := InvOrder(s);
    var p := Settled(g, s.blocked);
    GraphStamps(g);
    AccessIndexed(g, w);
    AccessesSettled(g, s.blocked);
    InvParts(p, o);
    ExactParts(p, o);
    SelfHeeded(p, w);
    assert BaseSource(p, w, w) && SourceWithin(p, w, w, 0);
    assert MsgSource(p, w, w) && ViaSource(p, w, w);
  }

  lemma CopyTells(s: State, read: Event, write: Event, v: Clock, c: Graph)
    requires Inv(s) && IsRevisitView(s.graph, Backward(read, write), v) && IsCopy(s.graph, v, c) && IsWriteAt(c, write)
    ensures MsgHas(s.graph, write, write) ==> MsgHas(c, write, write)
  {
    hide Inv, IsRevisitView;
    CopyLabel(s.graph, v, c, write);
  }

  // ----- releases read by relaxed reads -----

  lemma FenceSyncs(c: Graph, blocked: set<nat>, read: Event, write: Event, h: Graph, x: Event)
    requires Resynced(c, read, write, h) && LateFence(h, read, x) && !IsHeld(h, blocked, x)
    requires L(c, read).AtMostRelease()
    ensures SyncsLater(c, blocked, read, x)
  {}

  lemma FenceNotHeld(s: State, x: Event)
    requires Inv(s) && In(s.graph, x) && L(s.graph, x).kind.Fence?
    ensures !IsHeld(s.graph, s.blocked, x)
  {
    hide Inv;
    if IsHeld(s.graph, s.blocked, x) { BlockedAt(s, x); }
  }

  lemma CopiedOrd(g: Graph, v: Clock, c: Graph, x: Event)
    requires IsCopy(g, v, c) && IsReadAt(c, x)
    ensures In(g, x) && L(c, x).ord == L(g, x).ord
  {}

  /** A relaxed read takes a release that nobody knows yet: the invariant is kept exactly if the view has no gaps,
      nothing kept knows or builds on the read, and no acquire fence is kept after it. */
  lemma ReleaseKeepsInvIff(s: State, read: Event, write: Event, v: Clock, c: Graph, r: Graph, next: nat, lab: Label,
                           s': State)
    requires Inv(s) && RevisitMade(s, read, write, v, c, r, next, lab, s') && Novel(s.graph, write)
    requires L(s.graph, write).AtLeastRelease() && !L(s.graph, write).IsRmwStore() && L(s.graph, read).AtMostRelease()
    requires forall x :: HbHas(s.graph, x, write) ==> x == write
    ensures Inv(s') <==>
              NoGaps(v) && Unknown(c, s'.blocked, read) && Unbuilt(c, s'.blocked, read) &&
              !exists x :: LateFence(s'.graph, read, x)
  {
    hide Inv, RevisitMade, IsRevisitView, IsCopy, NoGaps, Unknown, Unbuilt, Novel, LateFence, Heeding, SyncsLater,
         Resynced, FenceExact;
    MadeEnds(s, read, write, v, c, r, next, lab, s');
    RevisitKeepsInvIff(s, read, write, v, c, r, next, lab, s');
    if Inv(s') {
      RunsHeed(s');
      ReleaseHeedsIff(s, read, write, v, c, r, next, lab, s');
      CopiedRead(s, read, write, v, c);
      MadeResynced(s, read, write, v, c, r, next, lab, s');
      CopiedOrd(s.graph, v, c, read);
      forall x ensures !LateFence(s'.graph, read, x) {
        if LateFence(s'.graph, read, x) {
          FenceThere(s'.graph, read, x);
          FenceNotHeld(s', x);
          FenceSyncs(c, s'.blocked, read, write, s'.graph, x);
        }
      }
    }
  }

  lemma FenceThere(g: Graph, e: Event, x: Event)
    requires LateFence(g, e, x)
    ensures In(g, x) && L(g, x).kind.Fence?
  {}
}
