/** Where views come from: whatever a view mentions came through po, reads-from, creation or join. */
module Sources {
  import opened Events
  import opened Clocks
  import opened Graphs
  import opened ImmSpec
  import opened Causality
  import opened HbExact
  import opened Fitting
  import opened Restriction

  // ----- the invariant -----

  predicate Before(p: Event, e: Event) { p.thread == e.thread && p.index < e.index }

  /** An earlier event of the label's thread, or the write, creation or finish it refers to. */
  predicate SourceOf(g: Graph, p: Event, lab: Label) {
    In(g, p) &&
    (|| Before(p, lab.pos)
     || (p != Initializer &&
         (|| (lab.IsRead() && p == lab.rf)
          || (lab.kind.ThreadStart? && p == lab.kind.parentCreate)
          || (lab.kind.ThreadJoin? && p == lab.kind.childLast))))
  }

  /** Sources are known themselves, but for begins and the write a read reads from. */
  predicate Trusted(lab: Label, p: Event) { p.index == 0 || lab.pporf.Has(p) || (lab.IsRead() && p == lab.rf) }

  ghost predicate ThroughSource(g: Graph, lab: Label, a: Event) {
    exists p :: SourceOf(g, p, lab) && Trusted(lab, p) && (a == p || CHas(g, p, a))
  }

  /** a has come to c through an earlier label of e's thread that c holds, or its begin. */
  ghost predicate ThroughThread(g: Graph, e: Event, c: Clock, a: Event) {
    exists p :: In(g, p) && Before(p, e) && (p.index == 0 || c.Has(p)) && (a == p || CHas(g, p, a))
  }

  /** A write of a read-modify-write knows the read half. */
  predicate RmwKnown(g: Graph, lab: Label) {
    lab.IsRmwStore() && IsReadAt(g, lab.pos.Prev()) ==> lab.pporf.Has(lab.pos.Prev())
  }

  /** c includes the views of the begin, the fences and the acquires before e. */
  ghost predicate AcquiresIn(g: Graph, e: Event, c: Clock) {
    forall q, b :: Before(q, e) && IsAcquireOrFence(g, q) && CHas(g, q, b) ==> c.Has(b)
  }

  /** The creation and the finish a label refers to are in its clock. */
  predicate RefsKnown(lab: Label) {
    && (lab.kind.ThreadStart? && lab.kind.parentCreate != Initializer ==> lab.pporf.Has(lab.kind.parentCreate))
    && (lab.kind.ThreadJoin? && lab.kind.childLast != Initializer ==> lab.pporf.Has(lab.kind.childLast))
  }

  /** A ppo view holds what came through its thread, the acquires before it included. */
  ghost predicate PpoSourced(g: Graph, e: Event, p: Clock) {
    (forall a :: p.Has(a) && a != e ==> ThroughThread(g, e, p, a)) && AcquiresIn(g, e, p)
  }

  ghost predicate SourcedLabel(g: Graph, lab: Label) {
    && (forall a :: lab.pporf.Has(a) && a != lab.pos ==> ThroughSource(g, lab, a))
    && AcquiresIn(g, lab.pos, lab.pporf)
    && (KeepsPpo(lab) ==> PpoSourced(g, lab.pos, lab.ppo))
    && RefsKnown(lab) && RmwKnown(g, lab)
  }

  ghost predicate Sourced(g: Graph) { forall x :: In(g, x) ==> SourcedLabel(g, L(g, x)) }

  /** Reads are computed after the writes they read from, and come after them if those are in their thread. */
  ghost predicate RfOrdered(g: Graph, o: Order) {
    forall x :: IsReadAt(g, x) && L(g, x).rf != Bottom ==> RfEarlier(o, L(g, x).rf, x)
  }

  predicate RfEarlier(o: Order, rf: Event, x: Event) {
    o.Before(rf, x) && (rf.thread == x.thread ==> rf.index < x.index)
  }

  // ----- frames -----

  /** Sources of a label of g are the same in a larger graph. */
  lemma SourcedKept(g: Graph, h: Graph, l: Label, m: Label)
    requires Within(g, h) && Core(l) == Core(m) && SourcedLabel(g, l) && Limit(g, l.pos)
    ensures SourcedLabel(h, m)
  {
    CoreFields(l, m);
    PartContents(g, h);
    forall a | ThroughSource(g, l, a) ensures ThroughSource(h, m, a) {
      var p :| SourceOf(g, p, l) && Trusted(l, p) && (a == p || CHas(g, p, a));
      assert SourceOf(h, p, m) && Trusted(m, p);
    }
    forall c, a | ThroughThread(g, l.pos, c, a) ensures ThroughThread(h, m.pos, c, a) {
      var p :| In(g, p) && Before(p, l.pos) && (p.index == 0 || c.Has(p)) && (a == p || CHas(g, p, a));
      assert In(h, p);
    }
    RmwKept(g, h, l, m);
    forall q, b | Before(q, m.pos) && IsAcquireOrFence(h, q) && CHas(h, q, b)
      ensures IsAcquireOrFence(g, q) && CHas(g, q, b)
    {
      assert In(g, q);
      PartFields(g, h, q);
    }
    hide ThroughSource, ThroughThread;
  }

  lemma RmwKept(g: Graph, h: Graph, l: Label, m: Label)
    requires Within(g, h) && Core(l) == Core(m) && Limit(g, l.pos)
    ensures RmwKnown(g, l) <==> RmwKnown(h, m)
  {
    CoreFields(l, m);
    if l.pos.index >= 1 { PartFields(g, h, l.pos.Prev()); }
  }

  /** Sources of a label of a closed part lie in the part. */
  lemma SourcedInside(g: Graph, h: Graph, x: Event)
    requires Within(g, h) && In(g, x) && L(g, x).pos == x && RefersInside(g, L(g, x)) && SourcedLabel(h, L(h, x))
    ensures SourcedLabel(g, L(g, x))
  {
    var l, m := L(g, x), L(h, x);
    PartFields(g, h, x);
    PartContents(g, h);
    forall a | ThroughSource(h, m, a) ensures ThroughSource(g, l, a) {
      var p :| SourceOf(h, p, m) && Trusted(m, p) && (a == p || CHas(h, p, a));
      SourceInPart(g, h, x, p);
      assert SourceOf(g, p, l) && Trusted(l, p);
    }
    forall c, a | ThroughThread(h, x, c, a) ensures ThroughThread(g, x, c, a) {
      var p :| In(h, p) && Before(p, x) && (p.index == 0 || c.Has(p)) && (a == p || CHas(h, p, a));
      assert In(g, p);
    }
    CoreFields(l, m);
    RmwKept(g, h, l, m);
    forall q, b | Before(q, x) && IsAcquireOrFence(g, q) && CHas(g, q, b)
      ensures IsAcquireOrFence(h, q) && CHas(h, q, b)
    {
      PartFields(g, h, q);
    }
    hide ThroughSource, ThroughThread;
  }

  lemma SourceInPart(g: Graph, h: Graph, x: Event, p: Event)
    requires Within(g, h) && In(g, x) && L(g, x).pos == x && RefersInside(g, L(g, x)) && SourceOf(h, p, L(h, x))
    ensures In(g, p) && SourceOf(g, p, L(g, x))
  {
    PartFields(g, h, x);
    if !Before(p, x) && L(h, x).IsRead() && p == L(h, x).rf {
      assert p != Bottom;
    }
  }

  lemma ExtendSourced(g: Graph, lab: Label, h: Graph)
    requires Sourced(g) && Positioned(g) && Extends(g, lab, h) && SourcedLabel(g, lab)
    ensures Sourced(h)
  {
    hide SourcedLabel;
    assert Within(g, h);
    forall x | In(h, x) ensures SourcedLabel(h, L(h, x)) {
      if x == lab.pos {
        SourcedKept(g, h, lab, L(h, x));
      } else {
        SourcedKept(g, h, L(g, x), L(h, x));
      }
    }
  }

  lemma PartSourced(g: Graph, h: Graph)
    requires Closed(g, h) && Sourced(h) && Positioned(g)
    ensures Sourced(g)
  {
    hide SourcedLabel, Within;
    forall x | In(g, x) ensures SourcedLabel(g, L(g, x)) {
      ClosedAt(g, h, x);
      SourcedInside(g, h, x);
    }
  }

  lemma ExtendRfOrdered(g: Graph, o: Order, lab: Label, h: Graph)
    requires RfOrdered(g, o) && Ranked(g, o) && RefsInside(g) && Extends(g, lab, h)
    requires lab.IsRead() ==> lab.rf == Bottom || In(g, lab.rf)
    ensures RfOrdered(h, o.Then(lab.pos))
  {
    forall x | IsReadAt(h, x) && L(h, x).rf != Bottom ensures RfEarlier(o.Then(lab.pos), L(h, x).rf, x) {
      if x == lab.pos {
        CoreFields(L(h, x), lab);
      } else {
        CoreFields(L(h, x), L(g, x));
        assert IsReadAt(g, x) && In(g, L(g, x).rf);
      }
    }
  }

  lemma PartRfOrdered(g: Graph, h: Graph, o: Order)
    requires Within(g, h) && RfOrdered(h, o)
    ensures RfOrdered(g, o)
  {
    forall x | IsReadAt(g, x) && L(g, x).rf != Bottom ensures RfEarlier(o, L(g, x).rf, x) {
      PartFields(g, h, x);
      assert IsReadAt(h, x);
    }
  }

  // ----- sources are computed earlier -----

  lemma SourceEarlier(g: Graph, o: Order, x: Event, p: Event)
    requires Ordered(g, o) && RfOrdered(g, o) && Positioned(g) && In(g, x) && SourceOf(g, p, L(g, x))
    requires Trusted(L(g, x), p) && p.index >= 1 && p != x
    ensures o.Before(p, x)
  {
    if !(L(g, x).IsRead() && p == L(g, x).rf) { assert CHas(g, x, p); }
  }

  /** What has come through the begin of a thread has come through its creation, which all labels of the thread know. */
  lemma BeginSource(g: Graph, x: Event, p: Event, a: Event) returns (c: Event)
    requires Sourced(g) && Started(g) && Positioned(g) && RefsInside(g) && In(g, x) && In(g, p) && p.index == 0
    requires Before(p, x) && CHas(g, p, a)
    ensures CHas(g, x, c) && L(g, p).kind.ThreadStart? && c == L(g, p).kind.parentCreate && c.index >= 1
    ensures a == c || CHas(g, c, a)
  {
    SourcedAt(g, p);
    SourcedAt(g, x);
    PosAt(g, p);
    PosAt(g, x);
    assert L(g, p).kind.ThreadStart?;
    hide Sourced, SourcedLabel, Positioned, RefsInside, Started;
    BeginThrough(g, p, a);
    c := BeginRef(g, p, a);
    AcquireKnown(g, x, p, c);
  }

  lemma PosAt(g: Graph, x: Event)
    requires Positioned(g) && In(g, x)
    ensures L(g, x).pos == x
  {}

  lemma BeginRef(g: Graph, p: Event, a: Event) returns (c: Event)
    requires In(g, p) && L(g, p).pos == p && p.index == 0 && L(g, p).kind.ThreadStart? && SourcedLabel(g, L(g, p))
    requires ThroughSource(g, L(g, p), a) && CHas(g, p, a)
    ensures c == L(g, p).kind.parentCreate && CHas(g, p, c) && c.index >= 1 && (a == c || CHas(g, c, a))
  {
    c :| SourceOf(g, c, L(g, p)) && Trusted(L(g, p), c) && (a == c || CHas(g, c, a));
  }

  lemma AcquireKnown(g: Graph, x: Event, p: Event, c: Event)
    requires In(g, x) && L(g, x).pos == x && SourcedLabel(g, L(g, x)) && Before(p, x) && IsAcquireOrFence(g, p)
    requires CHas(g, p, c)
    ensures CHas(g, x, c)
  {}

  lemma BeginThrough(g: Graph, p: Event, a: Event)
    requires In(g, p) && SourcedLabel(g, L(g, p)) && L(g, p).pos == p && p.index == 0 && CHas(g, p, a)
    ensures ThroughSource(g, L(g, p), a)
  {
    ClockIndexed(L(g, p).pporf, a);
  }

  lemma ClockIndexed(c: Clock, a: Event)
    requires c.Has(a)
    ensures a.index >= 1
  {}

  /** A part is closed under po, reads-from, creation and join, but for e, which no other label of it knows. */
  ghost predicate ClosedExcept(g: Graph, h: Graph, e: Event) {
    && Within(g, h) && !IsWriteAt(h, e) && e.index != 0
    && (forall x :: In(g, x) && x != e ==> RefersInside(g, L(g, x)))
    && (forall x :: CHas(g, x, e) ==> x == e)
  }

  lemma ExceptNone(g: Graph, h: Graph)
    requires Closed(g, h)
    ensures ClosedExcept(g, h, Bottom)
  {
    forall x ensures !CHas(g, x, Bottom) {}
  }

  lemma ExceptAt(g: Graph, h: Graph, e: Event, x: Event)
    requires ClosedExcept(g, h, e) && In(g, x)
    ensures Within(g, h) && (x != e ==> RefersInside(g, L(g, x)) && !CHas(h, x, e)) && e.index != 0 && !IsWriteAt(h, e)
  {
    PartContents(g, h);
  }

  /** Such a part knows nothing outside, e aside: pporf. */
  lemma {:induction false} KnownInPart(g: Graph, h: Graph, e: Event, o: Order, x: Event, a: Event)
    requires ClosedExcept(g, h, e) && Ordered(h, o) && RfOrdered(h, o) && RefsInside(h) && Positioned(h) && Started(h)
    requires Sourced(h) && HbInv(h, o) && In(g, x) && x != e && CHas(h, x, a)
    ensures In(g, a)
    decreases if x in o.rank then o.rank[x] else 0
  {
    hide Ordered, RfOrdered, RefsInside, SourceOf, ClosedExcept, Sourced, Within, Started, Positioned, HbInv;
    ExceptAt(g, h, e, x);
    PartFields(g, h, x);
    PosAt(h, x);
    if a != x {
      SourceAt(h, x, a);
      var p :| SourceOf(h, p, L(h, x)) && Trusted(L(h, x), p) && (a == p || CHas(h, p, a));
      SourceInPart(g, h, x, p);
      if a != p {
        var q := p;
        if p.index == 0 { q := CreationInPart(g, h, e, o, x, p, a); } else { SourceStep(h, e, o, x, p); }
        if a != q { KnownInPart(g, h, e, o, q, a); }
      }
    }
  }

  lemma SourceAt(h: Graph, x: Event, a: Event)
    requires Sourced(h) && Positioned(h) && CHas(h, x, a) && a != x
    ensures ThroughSource(h, L(h, x), a)
  {}

  lemma SourceStep(h: Graph, e: Event, o: Order, x: Event, p: Event)
    requires Ordered(h, o) && RfOrdered(h, o) && RefsInside(h) && Positioned(h) && Started(h) && In(h, x)
    requires SourceOf(h, p, L(h, x)) && Trusted(L(h, x), p) && p.index != 0 && !CHas(h, x, e) && !IsWriteAt(h, e)
    ensures o.Before(p, x) && p != e
  {
    hide Ordered, RfOrdered;
    SourceNotSelf(h, x, p);
    SourceEarlier(h, o, x, p);
  }

  lemma CreationInPart(g: Graph, h: Graph, e: Event, o: Order, x: Event, p: Event, a: Event) returns (c: Event)
    requires ClosedExcept(g, h, e) && Ordered(h, o) && RefsInside(h) && Positioned(h) && Started(h) && Sourced(h)
    requires HbInv(h, o) && In(g, x) && x != e && In(g, p) && p.index == 0 && SourceOf(h, p, L(h, x)) && CHas(h, p, a)
    ensures In(g, c) && o.Before(c, x) && c != e && (a == c || CHas(h, c, a))
  {
    hide Sourced, Ordered, HbInv;
    ExceptAt(g, h, e, x);
    ExceptAt(g, h, e, p);
    PartFields(g, h, p);
    SourceIsBegin(h, x, p);
    c := BeginSource(h, x, p, a);
    CreationNotSelf(h, o, x, p, c);
    CreationEarlier(h, o, x, c);
  }

  /** A thread is not created by one of its own labels. */
  lemma CreationNotSelf(h: Graph, o: Order, x: Event, p: Event, c: Event)
    requires HbInv(h, o) && RefsInside(h) && Positioned(h) && In(h, x) && In(h, p) && Before(p, x) && c.index >= 1
    requires L(h, p).kind == ThreadStart(c) && p.index == 0
    ensures c != x
  {
    hide LocallyExact, MessagesExact, SourcesOrdered, MsgSource;
    assert EdgeInto(h, c, L(h, p)) && c != p;
    assert HbEdge(h, c, p);
  }

  lemma CreationEarlier(h: Graph, o: Order, x: Event, c: Event)
    requires Ordered(h, o) && CHas(h, x, c) && c != x
    ensures o.Before(c, x)
  {}

  /** A begin is a source of its thread only. */
  lemma SourceIsBegin(h: Graph, x: Event, p: Event)
    requires RefsInside(h) && Positioned(h) && Started(h) && In(h, x) && SourceOf(h, p, L(h, x)) && p.index == 0
    ensures Before(p, x)
  {}

  lemma SourcedAt(g: Graph, x: Event)
    requires Sourced(g) && In(g, x)
    ensures SourcedLabel(g, L(g, x))
  {}

  /** Only the begin of main refers to itself. */
  lemma SourceNotSelf(g: Graph, x: Event, p: Event)
    requires RefsInside(g) && Positioned(g) && Started(g) && In(g, x) && SourceOf(g, p, L(g, x))
    ensures p != x
  {}

  lemma PpoKnownInPart(g: Graph, h: Graph, e: Event, o: Order, x: Event, p: Clock, a: Event)
    requires ClosedExcept(g, h, e) && Ordered(h, o) && RfOrdered(h, o) && RefsInside(h) && Positioned(h) && Started(h)
    requires Sourced(h) && HbInv(h, o) && Limit(g, x) && PpoSourced(h, x, p) && p.Has(a) && a != x
    requires p.Has(e) ==> e.thread != x.thread || e.index >= x.index
    ensures In(g, a)
  {
    hide Ordered, RfOrdered, RefsInside, Sourced, Started, ClosedExcept, Within, HbInv;
    assert ThroughThread(h, x, p, a);
    var q :| In(h, q) && Before(q, x) && (q.index == 0 || p.Has(q)) && (a == q || CHas(h, q, a));
    assert In(g, q);
    ExceptAt(g, h, e, q);
    if a != q { KnownInPart(g, h, e, o, q, a); }
  }

  /** The same for hb. */
  lemma {:induction false} HbKnownInPart(g: Graph, h: Graph, o: Order, x: Event, a: Event)
    requires Closed(g, h) && RefsInside(g) && HbInv(h, o) && Positioned(g) && In(g, x) && HbHas(h, x, a)
    ensures In(g, a)
    decreases if x in o.hb then o.hb[x] else 0
  {
    hide MsgSource, RefsInside;
    if a != x {
      assert ViaEdge(h, x, a);
      var p :| HbEdge(h, p, x) && HbHas(h, p, a);
      hide LocallyExact, MessagesExact, SourcesOrdered, PoOrdered;
      assert o.HbBefore(p, x);
      hide HbInv;
      EdgeFromPart(g, h, p, x);
      HbKnownInPart(g, h, o, p, a);
    }
  }

  lemma EdgeFromPart(g: Graph, h: Graph, p: Event, x: Event)
    requires Closed(g, h) && RefsInside(g) && Positioned(g) && In(g, x) && HbEdge(h, p, x)
    ensures In(g, p)
  {
    ClosedAt(g, h, x);
    PartFields(g, h, x);
    EdgeIntoCore(h, p, L(h, x), L(g, x));
    EdgeFromInside(g, h, p, L(g, x));
  }

  lemma MsgKnownInPart(g: Graph, h: Graph, o: Order, w: Event, a: Event)
    requires Closed(g, h) && RefsInside(g) && HbInv(h, o) && Positioned(g) && In(g, w) && MsgHas(h, w, a)
    ensures In(g, a)
  {
    hide MsgSource, RefsInside;
    assert ViaSource(h, w, a);
    var p :| MsgSource(h, w, p) && HbHas(h, p, a);
    hide LocallyExact, MessagesExact, SourcesOrdered, PoOrdered, EdgesOrdered;
    MsgSourceKept(g, h, w);
    MsgSourceInside(g, w, p);
    HbKnownInPart(g, h, o, p, a);
  }

  /** A part closed under po, reads-from, creation and join is supported: its labels know nothing outside it. */
  lemma ClosedSupported(g: Graph, h: Graph, o: Order)
    requires Closed(g, h) && Causal(h, o) && HbInv(h, o) && RfOrdered(h, o) && Sourced(h)
    ensures Supported(g, h)
  {
    CausalReady(h, o);
    ClosedRefs(g, h);
    ClosedPositioned(g, h);
    PartContents(g, h);
    ExceptNone(g, h);
    CausalOrdered(h, o);
    hide Causal, HbInv, RfOrdered, Sourced, RefsInside, Ready, SelfContained, StartsBare, Ordered, ClosedExcept;
    forall x | In(g, x) ensures KnowsInside(g, L(g, x)) {
      ClosedAt(g, h, x);
      PartFields(g, h, x);
      forall a | CHas(h, x, a) ensures In(g, a) { KnownInPart(g, h, Bottom, o, x, a); }
      forall a | PHas(h, x, a) ensures In(g, a) { PpoInClock(h, o, x, a); KnownInPart(g, h, Bottom, o, x, a); }
      forall a | HbHas(h, x, a) ensures In(g, a) { HbKnownInPart(g, h, o, x, a); }
      forall a | MsgHas(h, x, a) ensures In(g, a) { MsgKnownInPart(g, h, o, x, a); }
    }
  }

  lemma CausalOrdered(g: Graph, o: Order)
    requires Causal(g, o)
    ensures Ordered(g, o)
  {}

  lemma PpoInClock(g: Graph, o: Order, x: Event, a: Event)
    requires Causal(g, o) && PHas(g, x, a)
    ensures CHas(g, x, a)
  {}

  lemma ClosedPositioned(g: Graph, h: Graph)
    requires Closed(g, h) && Positioned(h)
    ensures Positioned(g)
  {
    forall x | In(g, x) ensures L(g, x).pos == x { PartFields(g, h, x); }
  }

  // ----- computed labels -----

  lemma ThreadIsSource(g: Graph, lab: Label, c: Clock, a: Event)
    requires ThroughThread(g, lab.pos, c, a) && forall b :: c.Has(b) ==> lab.pporf.Has(b)
    ensures ThroughSource(g, lab, a)
  {
    var p :| In(g, p) && Before(p, lab.pos) && (p.index == 0 || c.Has(p)) && (a == p || CHas(g, p, a));
    assert SourceOf(g, p, lab) && Trusted(lab, p);
  }

  lemma ThroughEarlier(g: Graph, e: Event, c: Clock, p: Event, a: Event)
    requires SelfContained(g) && In(g, p) && Before(p, e) && CHas(g, p, a) && forall b :: CHas(g, p, b) ==> c.Has(b)
    ensures ThroughThread(g, e, c, a)
  {
    assert p.index >= 1 ==> CHas(g, p, p);
  }

  lemma FromPpoThrough(g: Graph, e: Event, deps: EventDeps, c: Clock, a: Event)
    requires SelfContained(g) && WfDeps(g, e, deps) && FromPpo(g, e, deps, a) && a != e
    requires forall b :: FromPpo(g, e, deps, b) ==> c.Has(b)
    ensures ThroughThread(g, e, c, a)
  {
    if d :| deps.Has(d) && CHas(g, d, a) {
      forall b | CHas(g, d, b) ensures c.Has(b) { assert FromPpo(g, e, deps, b); }
      ThroughEarlier(g, e, c, d, a);
    } else {
      var q: Event :| q.thread == e.thread && q.index < e.index && IsAcquireOrFence(g, q) && CHas(g, q, a);
      forall b | CHas(g, q, b) ensures c.Has(b) { assert FromPpo(g, e, deps, b); }
      ThroughEarlier(g, e, c, q, a);
    }
  }

  lemma FromReleaseThrough(g: Graph, e: Event, c: Clock, a: Event)
    requires SelfContained(g) && Limit(g, e) && e.index > 0 && FromRelease(g, e, a) && a != e
    requires forall b :: FromRelease(g, e, b) ==> c.Has(b)
    ensures ThroughThread(g, e, c, a)
  {
    if a.thread == e.thread && 1 <= a.index <= e.index {
      assert In(g, a) && Before(a, e);
    } else if CHas(g, LastRelease(g, e), a) {
      ThroughEarlier(g, e, c, LastRelease(g, e), a);
    } else {
      var r: Event :| r.thread == e.thread && ReleaseScanStart(g, e) <= r.index < e.index && IsReadAt(g, r) &&
          CHas(g, r, a);
      ThroughEarlier(g, e, c, r, a);
    }
  }

  lemma PpoComputedSourced(g: Graph, e: Event, deps: EventDeps, p: Clock)
    requires SelfContained(g) && WfDeps(g, e, deps) && forall a :: p.Has(a) <==> FromPpo(g, e, deps, a)
    ensures PpoSourced(g, e, p)
  {
    forall a | p.Has(a) && a != e ensures ThroughThread(g, e, p, a) { FromPpoThrough(g, e, deps, p, a); }
    hide ThroughThread;
  }

  lemma ReadSourced(g: Graph, o: Order, lab: Label)
    requires Causal(g, o) && lab.IsRead() && PpoSourced(g, lab.pos, lab.ppo)
    requires lab.rf == Bottom || RfTarget(g, lab.rf)
    requires forall a :: lab.pporf.Has(a) <==> FromRf(g, lab.pos, lab.addr, lab.rf, lab.ppo, a)
    ensures SourcedLabel(g, lab)
  {
    hide Causal, FromRf, ThroughSource, ThroughThread;
    BaseInRf(g, lab.pos, lab.addr, lab.rf, lab.ppo);
    forall a | lab.pporf.Has(a) && a != lab.pos ensures ThroughSource(g, lab, a) {
      RfThrough(g, o, lab, a);
    }
    BuiltSourced(g, lab);
  }

  /** A read or join that holds its ppo view has the acquires before it as that view has. */
  lemma BuiltSourced(g: Graph, lab: Label)
    requires (lab.IsRead() || lab.kind.ThreadJoin?) && PpoSourced(g, lab.pos, lab.ppo) && RefsKnown(lab)
    requires forall a :: lab.ppo.Has(a) ==> lab.pporf.Has(a)
    requires forall a :: lab.pporf.Has(a) && a != lab.pos ==> ThroughSource(g, lab, a)
    ensures SourcedLabel(g, lab)
  {
    hide ThroughSource, ThroughThread;
  }

  lemma RfThrough(g: Graph, o: Order, lab: Label, a: Event)
    requires Causal(g, o) && lab.IsRead() && PpoSourced(g, lab.pos, lab.ppo) && a != lab.pos
    requires lab.rf == Bottom || RfTarget(g, lab.rf)
    requires FromRf(g, lab.pos, lab.addr, lab.rf, lab.ppo, a)
    requires forall b :: lab.pporf.Has(b) <==> FromRf(g, lab.pos, lab.addr, lab.rf, lab.ppo, b)
    ensures ThroughSource(g, lab, a)
  {
    CausalReady(g, o);
    BaseInRf(g, lab.pos, lab.addr, lab.rf, lab.ppo);
    if PHas(g, lab.rf, a) { PpoInClock(g, o, lab.rf, a); }
    hide Causal, Ready, Ranked, RefsInside, SelfContained, FromOwnWrites, PpoSourced;
    if lab.ppo.Has(a) {
      assert ThroughThread(g, lab.pos, lab.ppo, a) by { PpoThrough(g, lab.pos, lab.ppo, a); }
      ThreadIsSource(g, lab, lab.ppo, a);
    } else if FromOwnWrites(g, lab.pos, lab.addr, a) && lab.rf.thread != lab.pos.thread && lab.rf != Initializer {
      OwnWritesThrough(g, lab, a);
    } else {
      if lab.rf == Initializer { InitializerBare(g); }
      assert SourceOf(g, lab.rf, lab);
    }
  }

  lemma PpoThrough(g: Graph, e: Event, p: Clock, a: Event)
    requires PpoSourced(g, e, p) && p.Has(a) && a != e
    ensures ThroughThread(g, e, p, a)
  {}

  lemma InitializerBare(g: Graph)
    requires StartsBare(g) && Started(g)
    ensures forall a :: !PHas(g, Initializer, a)
  {}

  lemma OwnWritesThrough(g: Graph, lab: Label, a: Event)
    requires SelfContained(g) && FromOwnWrites(g, lab.pos, lab.addr, a)
    requires forall b :: FromOwnWrites(g, lab.pos, lab.addr, b) ==> lab.pporf.Has(b)
    ensures ThroughSource(g, lab, a)
  {
    var e := lab.pos;
    var w: Event :| w.thread == e.thread && w.index < e.index && IsWriteAt(g, w) && L(g, w).addr == lab.addr &&
        CHas(g, w, a);
    forall b | CHas(g, w, b) ensures lab.pporf.Has(b) { assert FromOwnWrites(g, e, lab.addr, b); }
    ThroughEarlier(g, e, lab.pporf, w, a);
    ThreadIsSource(g, lab, lab.pporf, a);
  }

  lemma WriteSourced(g: Graph, lab: Label, deps: EventDeps)
    requires SelfContained(g) && Limit(g, lab.pos) && lab.pos.index > 0 && WfDeps(g, lab.pos, deps) && lab.IsWrite()
    requires PpoComputed(g, lab, deps, lab.ppo) && PporfComputed(g, lab, deps, lab.pporf)
    requires Started(g)
    ensures SourcedLabel(g, lab)
  {
    var e := lab.pos;
    hide FromPpo, FromRelease, WfDeps, LastReleaseAtLoc, SelfContained;
    forall a | PpoOfWrite(g, lab, deps, a) && a != e ensures ThroughThread(g, e, lab.ppo, a) {
      if FromPpo(g, e, deps, a) {
        FromPpoThrough(g, e, deps, lab.ppo, a);
      } else {
        ThroughEarlier(g, e, lab.ppo, e.Prev(), a);
      }
    }
    forall a | PporfNew(g, lab, deps, a) && a != e ensures ThroughSource(g, lab, a) {
      if lab.AtLeastRelease() && FromRelease(g, e, a) {
        FromReleaseThrough(g, e, lab.pporf, a);
        ThreadIsSource(g, lab, lab.pporf, a);
      } else if !PpoOfWrite(g, lab, deps, a) {
        LastReleaseBelow(g, e, lab.addr);
        ThroughEarlier(g, e, lab.pporf, LastReleaseAtLoc(g, e, lab.addr), a);
        ThreadIsSource(g, lab, lab.pporf, a);
      } else {
        ThreadIsSource(g, lab, lab.ppo, a);
      }
    }
    AcquiresFromPpo(g, e, deps);
    RmwComputed(g, lab, deps);
    hide ThroughSource, ThroughThread;
  }

  lemma RmwComputed(g: Graph, lab: Label, deps: EventDeps)
    requires SelfContained(g) && Limit(g, lab.pos) && lab.IsWrite() && PporfComputed(g, lab, deps, lab.pporf)
    requires Started(g)
    ensures RmwKnown(g, lab)
  {
    if lab.IsRmwStore() && IsReadAt(g, lab.pos.Prev()) { assert PpoOfWrite(g, lab, deps, lab.pos.Prev()); }
  }

  lemma AcquiresFromPpo(g: Graph, e: Event, deps: EventDeps)
    ensures forall q, b :: Before(q, e) && IsAcquireOrFence(g, q) && CHas(g, q, b) ==> FromPpo(g, e, deps, b)
  {}

  lemma PlainSourced(g: Graph, lab: Label, deps: EventDeps)
    requires SelfContained(g) && Limit(g, lab.pos) && lab.pos.index > 0 && WfDeps(g, lab.pos, deps)
    requires !lab.IsRead() && !lab.IsWrite() && !lab.kind.ThreadStart? && !lab.kind.ThreadJoin?
    requires PporfComputed(g, lab, deps, lab.pporf)
    ensures SourcedLabel(g, lab)
  {
    var e := lab.pos;
    hide FromPpo, FromRelease, WfDeps, LastUnlockLapor, SelfContained;
    forall a | PporfNew(g, lab, deps, a) && a != e ensures ThroughSource(g, lab, a) {
      if FromPpo(g, e, deps, a) {
        FromPpoThrough(g, e, deps, lab.pporf, a);
      } else if lab.kind.LockLapor? {
        LapUnlockBefore(g, e, lab.addr);
        ThroughEarlier(g, e, lab.pporf, LastUnlockLapor(g, e, lab.addr), a);
      } else {
        FromReleaseThrough(g, e, lab.pporf, a);
      }
      ThreadIsSource(g, lab, lab.pporf, a);
    }
    AcquiresFromPpo(g, e, deps);
    hide ThroughSource;
  }

  lemma LapUnlockBefore(g: Graph, e: Event, addr: int)
    requires Limit(g, e)
    ensures var u := LastUnlockLapor(g, e, addr); u != Initializer ==> Before(u, e)
  {}

  lemma StartSourced(g: Graph, lab: Label)
    requires lab.kind.ThreadStart? && lab.pos.index == 0 && In(g, lab.kind.parentCreate)
    requires L(g, lab.kind.parentCreate).kind.ThreadCreate?
    requires SelfContained(g) && Started(g) && forall a :: lab.pporf.Has(a) <==> CHas(g, lab.kind.parentCreate, a)
    ensures SourcedLabel(g, lab)
  {
    assert SourceOf(g, lab.kind.parentCreate, lab);
    assert CHas(g, lab.kind.parentCreate, lab.kind.parentCreate);
  }

  /** A join on its ppo view, completed by the finish f or still waiting. */
  lemma JoinSourced(g: Graph, o: Order, lab: Label)
    requires Causal(g, o) && lab.kind.ThreadJoin? && PpoSourced(g, lab.pos, lab.ppo) && FinishRef(g, lab.kind.childLast)
    requires var f := lab.kind.childLast;
             forall a :: lab.pporf.Has(a) <==> lab.ppo.Has(a) || (f != Initializer && CHas(g, f, a))
    ensures SourcedLabel(g, lab)
  {
    hide Causal, ThroughSource, ThroughThread, Started, SelfContained;
    if lab.kind.childLast != Initializer { FinishAware(g, o, lab.kind.childLast); }
    forall a | lab.pporf.Has(a) && a != lab.pos ensures ThroughSource(g, lab, a) {
      if lab.ppo.Has(a) {
        PpoThrough(g, lab.pos, lab.ppo, a);
        ThreadIsSource(g, lab, lab.ppo, a);
      } else {
        FinishIsSource(g, lab, a);
      }
    }
    BuiltSourced(g, lab);
  }

  lemma FinishAware(g: Graph, o: Order, f: Event)
    requires Causal(g, o) && In(g, f) && L(g, f).kind.ThreadFinish?
    ensures CHas(g, f, f)
  {
    hide Ready, Ranked, Ordered, CausallyClosed, PpoClosed, ReleasesCover, Anchored, ReadsInside, RefsInside,
         StartsBare;
    CausalReady(g, o);
  }

  lemma FinishIsSource(g: Graph, lab: Label, a: Event)
    requires lab.kind.ThreadJoin? && In(g, lab.kind.childLast) && lab.kind.childLast != Initializer
    requires lab.pporf.Has(lab.kind.childLast) && CHas(g, lab.kind.childLast, a)
    ensures ThroughSource(g, lab, a)
  {
    assert SourceOf(g, lab.kind.childLast, lab);
  }

  /** Whatever label the driver computes. */
  lemma ComputedSourced(g: Graph, o: Order, lab0: Label, deps: EventDeps, lab: Label)
    requires Causal(g, o) && Viewable(g, lab0, deps) && ViewsComputed(g, lab0, deps, lab) && !lab.kind.ThreadJoin?
    ensures SourcedLabel(g, lab)
  {
    CausalReady(g, o);
    hide Causal, SourcedLabel, FromPpo, FromRf, FromRelease, PpoSourced, Ready, Ranked, RefsInside, HbComputed,
         MsgComputed;
    match lab.kind
    case Read(_) =>
      PpoComputedSourced(g, lab.pos, deps, lab.ppo);
      ReadSourced(g, o, lab);
    case Write(_) => WriteSourced(g, lab, deps);
    case ThreadStart(_) => StartSourced(g, lab);
    case _ => PlainSourced(g, lab, deps);
  }
}
