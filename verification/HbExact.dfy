/** hb clocks are exact: an hb view holds precisely the events that reach its event. */
module HbExact {
  import opened Events
  import opened Clocks
  import opened Graphs
  import opened ImmSpec
  import opened Causality

  // ----- the hb edges -----

  /** What the message of write w carries on its own account: w itself or the last release before it. */
  ghost predicate BaseSource(g: Graph, w: Event, p: Event) {
    IsWriteAt(g, w) &&
    var lab, rel := L(g, w), LastReleaseAtLoc(g, w, L(g, w).addr);
    if lab.IsRmwStore() then p == if In(g, w.Prev()) && L(g, w.Prev()).AtLeastRelease() then w else rel
    else if lab.AtLeastRelease() then p == w
    else lab.AtMostAcquire() && p == rel
  }

  /** Along at most n read-modify-writes, the message of w also carries those of the writes they read. */
  ghost predicate SourceWithin(g: Graph, w: Event, p: Event, n: nat)
    decreases n
  {
    || BaseSource(g, w, p)
    || (n > 0 && IsWriteAt(g, w) && L(g, w).IsRmwStore() && IsReadAt(g, w.Prev()) &&
        SourceWithin(g, L(g, w.Prev()).rf, p, n - 1))
  }

  ghost predicate MsgSource(g: Graph, w: Event, p: Event) {
    exists n: nat :: SourceWithin(g, w, p, n)
  }

  /** An hb edge from p into (the position of) lab: po, create/start, finish/join, or a message. */
  ghost predicate EdgeInto(g: Graph, p: Event, lab: Label) {
    In(g, p) &&
    (|| (p == lab.pos.Prev())
     || (lab.kind.ThreadStart? && p == lab.kind.parentCreate)
     || (lab.kind.ThreadJoin? && p == lab.kind.childLast && L(g, p).kind.ThreadFinish?)
     || (lab.IsRead() && lab.AtLeastAcquire() && MsgSource(g, lab.rf, p))
     || (lab.kind.Fence? && lab.AtLeastAcquire() &&
         exists r :: FenceableRead(g, lab.pos, r) && MsgSource(g, L(g, r).rf, p)))
  }

  ghost predicate HbEdge(g: Graph, p: Event, x: Event) {
    In(g, x) && p != x && EdgeInto(g, p, L(g, x))
  }

  /** A chain of hb edges. */
  ghost predicate HbPath(g: Graph, ps: seq<Event>) {
    |ps| >= 2 && forall i :: 0 < i < |ps| ==> HbEdge(g, ps[i - 1], ps[i])
  }

  ghost predicate Reaches(g: Graph, a: Event, b: Event) {
    exists ps :: HbPath(g, ps) && ps[0] == a && ps[|ps| - 1] == b
  }

  // ----- the invariant -----

  ghost predicate ViaEdge(g: Graph, x: Event, a: Event) {
    exists p :: HbEdge(g, p, x) && HbHas(g, p, a)
  }

  /** An hb view is its event together with the views of its immediate predecessors. */
  ghost predicate LocallyExact(g: Graph) {
    forall x, a :: HbHas(g, x, a) <==> (a == x && In(g, x) && x.index >= 1) || ViaEdge(g, x, a)
  }

  ghost predicate ViaSource(g: Graph, w: Event, a: Event) {
    exists p :: MsgSource(g, w, p) && HbHas(g, p, a)
  }

  ghost predicate MessagesExact(g: Graph) {
    forall w, a :: MsgHas(g, w, a) <==> ViaSource(g, w, a)
  }

  ghost predicate PoOrdered(g: Graph, o: Order) {
    forall x, y :: In(g, x) && In(g, y) && x.thread == y.thread && x.index < y.index ==> o.HbBefore(x, y)
  }

  ghost predicate EdgesOrdered(g: Graph, o: Order) {
    forall p, x :: HbEdge(g, p, x) ==> o.HbBefore(p, x)
  }

  ghost predicate SourcesOrdered(g: Graph, o: Order) {
    forall w, p :: MsgSource(g, w, p) ==> In(g, p) && !IsRecomputable(L(g, p)) && (p == w || o.HbBefore(p, w))
  }

  ghost predicate HbInv(g: Graph, o: Order) {
    LocallyExact(g) && MessagesExact(g) && PoOrdered(g, o) && EdgesOrdered(g, o) && SourcesOrdered(g, o)
  }

  // ----- exactness -----

  lemma {:induction false} ReachedByView(g: Graph, o: Order, a: Event, b: Event)
    requires LocallyExact(g) && EdgesOrdered(g, o) && Ranked(g, o) && HbHas(g, b, a) && a != b
    ensures Reaches(g, a, b)
    decreases o.hb[b]
  {
    assert ViaEdge(g, b, a);
    var p :| HbEdge(g, p, b) && HbHas(g, p, a);
    assert o.HbBefore(p, b);
    if a == p {
      assert HbPath(g, [a, b]);
    } else {
      ReachedByView(g, o, a, p);
      var ps :| HbPath(g, ps) && ps[0] == a && ps[|ps| - 1] == p;
      assert HbPath(g, ps + [b]);
    }
  }

  lemma {:induction false} PathInView(g: Graph, ps: seq<Event>)
    requires LocallyExact(g) && HbPath(g, ps) && ps[0].index >= 1
    ensures HbHas(g, ps[|ps| - 1], ps[0])
    decreases |ps|
  {
    var n := |ps|;
    assert HbEdge(g, ps[n - 2], ps[n - 1]);
    if n == 2 {
      assert HbHas(g, ps[0], ps[0]);
    } else {
      var qs := ps[..n - 1];
      PathInView(g, qs);
      assert HbHas(g, ps[n - 2], ps[0]);
    }
    assert ViaEdge(g, ps[n - 1], ps[0]);
  }

  /** a is in hbView(b) exactly when a is b or reaches b along hb edges. */
  lemma HbViewsExact(g: Graph, o: Order, a: Event, b: Event)
    requires HbInv(g, o) && Ranked(g, o) && In(g, b) && a.index >= 1
    ensures HbHas(g, b, a) <==> a == b || Reaches(g, a, b)
  {
    if HbHas(g, b, a) && a != b {
      ReachedByView(g, o, a, b);
    }
    if Reaches(g, a, b) {
      var ps :| HbPath(g, ps) && ps[0] == a && ps[|ps| - 1] == b;
      PathInView(g, ps);
    }
  }

  /** hb is acyclic. */
  lemma {:induction false} PathOrdered(g: Graph, o: Order, ps: seq<Event>)
    requires EdgesOrdered(g, o) && HbPath(g, ps)
    ensures o.HbBefore(ps[0], ps[|ps| - 1])
    decreases |ps|
  {
    var n := |ps|;
    assert HbEdge(g, ps[n - 2], ps[n - 1]);
    if n > 2 {
      var qs := ps[..n - 1];
      PathOrdered(g, o, qs);
    }
  }

  // ----- the acquire-fence scan -----

  lemma {:induction false} HbGrowsInThread(g: Graph, x: Event, y: Event, a: Event)
    requires LocallyExact(g) && Positioned(g) && In(g, y) && x.thread == y.thread && x.index <= y.index
    requires HbHas(g, x, a)
    ensures HbHas(g, y, a)
    decreases y.index - x.index
  {
    if x.index < y.index {
      var p := y.Prev();
      HbGrowsInThread(g, x, p, a);
      assert HbEdge(g, p, y);
      assert ViaEdge(g, y, a);
    }
  }

  /** The reads the scan does not reach have been synchronised with at the previous acquire fence. */
  lemma FenceScanComplete(g: Graph, e: Event, r: Event, p: Event, a: Event)
    requires LocallyExact(g) && Positioned(g) && Limit(g, e) && e.index >= 1
    requires FenceableRead(g, e, r) && MsgSource(g, L(g, r).rf, p) && In(g, p) && HbHas(g, p, a)
    ensures ScannedRead(g, e, r) || HbHas(g, e.Prev(), a)
  {
    if q: Event :| q.thread == e.thread && r.index < q.index < e.index && IsAcquireFence(g, q) {
      assert FenceableRead(g, q, r);
      assert EdgeInto(g, p, L(g, q));
      if p == q {
        HbGrowsInThread(g, q, e.Prev(), a);
      } else {
        assert HbEdge(g, p, q);
        assert ViaEdge(g, q, a);
        HbGrowsInThread(g, q, e.Prev(), a);
      }
    }
  }

  // ----- a new label that fits -----

  ghost predicate HbFits(g: Graph, lab: Label) {
    forall a :: lab.hb.Has(a) <==>
                (a == lab.pos && a.index >= 1) || exists p :: EdgeInto(g, p, lab) && HbHas(g, p, a)
  }

  /** The message sources of a write about to be added. */
  ghost predicate NewSource(g: Graph, lab: Label, p: Event)
    requires Limit(g, lab.pos)
  {
    lab.IsWrite() &&
    var w, rel := lab.pos, LastReleaseAtLoc(g, lab.pos, lab.addr);
    if lab.IsRmwStore() then
      || p == (if In(g, w.Prev()) && L(g, w.Prev()).AtLeastRelease() then w else rel)
      || (IsReadAt(g, w.Prev()) && MsgSource(g, L(g, w.Prev()).rf, p))
    else if lab.AtLeastRelease() then p == w
    else lab.AtMostAcquire() && p == rel
  }

  ghost predicate MsgFits(g: Graph, lab: Label)
    requires Limit(g, lab.pos)
  {
    lab.IsWrite() ==>
      forall a :: lab.msg.Has(a) <==>
                  exists p :: NewSource(g, lab, p) && if p == lab.pos then lab.hb.Has(a) else HbHas(g, p, a)
  }

  // ----- frames: what an added label does not change -----

  lemma {:induction false} LastIndexKept(g: Graph, h: Graph, t: nat, n: nat, addr: int)
    requires Within(g, h) && t < |g| && t < |h| && n <= |g[t]| && n <= |h[t]|
    ensures LastIndex(h, t, n, (l: Label) => IsListedReleaseAt(l, addr)) == LastIndex(g, t, n,
                (l: Label) => IsListedReleaseAt(l, addr))
  {
    var p := (l: Label) => IsListedReleaseAt(l, addr);
    var i, j := LastIndex(g, t, n, p), LastIndex(h, t, n, p);
    forall k | 0 <= k < n ensures p(h[t][k]) == p(g[t][k]) {
      assert In(g, Event(t, k)) && L(h, Event(t, k)) == h[t][k] && L(g, Event(t, k)) == g[t][k];
      CoreFields(h[t][k], g[t][k]);
    }
    if i < j { assert false; }
    if j < i { assert false; }
  }

  lemma BaseSourceKept(g: Graph, h: Graph, w: Event, p: Event)
    requires Within(g, h) && In(g, w)
    ensures BaseSource(h, w, p) <==> BaseSource(g, w, p)
  {
    CoreFields(L(h, w), L(g, w));
    assert In(h, Event(w.thread, |g[w.thread]| - 1));
    LastIndexKept(g, h, w.thread, w.index, L(g, w).addr);
    if w.index > 0 { CoreFields(L(h, w.Prev()), L(g, w.Prev())); }
  }

  lemma {:induction false} SourceKept(g: Graph, h: Graph, w: Event, p: Event, n: nat)
    requires Within(g, h) && RefsInside(g) && (In(g, w) || w == Bottom)
    ensures SourceWithin(h, w, p, n) <==> SourceWithin(g, w, p, n)
    decreases n
  {
    if w != Bottom {
      BaseSourceKept(g, h, w, p);
      CoreFields(L(h, w), L(g, w));
      if w.index > 0 {
        CoreFields(L(h, w.Prev()), L(g, w.Prev()));
        if n > 0 && IsReadAt(g, w.Prev()) { SourceKept(g, h, L(g, w.Prev()).rf, p, n - 1); }
      }
    }
  }

  lemma MsgSourceKept(g: Graph, h: Graph, w: Event)
    requires Within(g, h) && RefsInside(g) && (In(g, w) || w == Bottom)
    ensures forall p :: MsgSource(h, w, p) <==> MsgSource(g, w, p)
  {
    forall p, n: nat ensures SourceWithin(h, w, p, n) <==> SourceWithin(g, w, p, n) {
      SourceKept(g, h, w, p, n);
    }
  }

  /** Edges into an old label stay the same: the new label has no outgoing edge. */
  lemma OldEdgeKept(g: Graph, o: Order, lab: Label, h: Graph, p: Event, x: Event)
    requires Extends(g, lab, h) && RefsInside(g) && Positioned(g) && SourcesOrdered(g, o) && In(g, x)
    ensures HbEdge(h, p, x) <==> HbEdge(g, p, x)
  {
    hide SourcesOrdered, MsgSource;
    CoreFields(L(h, x), L(g, x));
    EdgeIntoCore(h, p, L(h, x), L(g, x));
    if p == lab.pos {
      NoEdgeFromNew(g, o, lab, h, x);
    } else {
      EdgeIntoKept(g, h, p, L(g, x));
    }
  }

  lemma EdgeIntoCore(h: Graph, p: Event, l: Label, m: Label)
    requires Core(l) == Core(m)
    ensures EdgeInto(h, p, l) <==> EdgeInto(h, p, m)
  {
    CoreFields(l, m);
  }

  /** Edges into a label whose references lie in g are the same over g and over h. */
  lemma EdgeIntoKept(g: Graph, h: Graph, p: Event, m: Label)
    requires Within(g, h) && RefsInside(g) && (In(g, p) || !In(h, p))
    requires m.IsRead() ==> m.rf == Bottom || In(g, m.rf)
    requires Limit(g, m.pos)
    ensures EdgeInto(h, p, m) <==> EdgeInto(g, p, m)
  {
    hide MsgSource;
    if In(g, p) {
      CoreFields(L(h, p), L(g, p));
      if m.IsRead() { MsgSourceKept(g, h, m.rf); }
      forall r | FenceableRead(h, m.pos, r) || FenceableRead(g, m.pos, r)
        ensures FenceableRead(g, m.pos, r) && FenceableRead(h, m.pos, r)
        ensures forall q :: MsgSource(h, L(h, r).rf, q) <==> MsgSource(g, L(g, r).rf, q)
      {
        CoreFields(L(h, r), L(g, r));
        MsgSourceKept(g, h, L(g, r).rf);
      }
    }
  }

  lemma NoEdgeFromNew(g: Graph, o: Order, lab: Label, h: Graph, x: Event)
    requires Extends(g, lab, h) && RefsInside(g) && Positioned(g) && SourcesOrdered(g, o) && In(g, x)
    ensures !EdgeInto(h, lab.pos, L(g, x))
  {
    var m := L(g, x);
    assert m.pos == x;
    if m.IsRead() { MsgSourceKept(g, h, m.rf); }
    if m.kind.Fence? {
      forall r | FenceableRead(h, x, r) ensures !MsgSource(h, L(h, r).rf, lab.pos) {
        CoreFields(L(h, r), L(g, r));
        MsgSourceKept(g, h, L(g, r).rf);
      }
    }
  }

  // ----- extending -----

  lemma HbKept(g: Graph, lab: Label, h: Graph)
    requires Extends(g, lab, h)
    ensures forall x, a :: HbHas(h, x, a) <==> if x == lab.pos then lab.hb.Has(a) else HbHas(g, x, a)
    ensures forall x, a :: MsgHas(h, x, a) <==>
                if x == lab.pos then lab.IsWrite() && lab.msg.Has(a) else MsgHas(g, x, a)
    ensures forall x :: In(g, x) ==>
                IsRecomputable(L(h, x)) == IsRecomputable(L(g, x)) && L(h, x).IsWrite() == L(g, x).IsWrite()
    ensures L(h, lab.pos).IsWrite() == lab.IsWrite()
  {
    forall x | In(h, x)
      ensures L(h, x).hb == (if x == lab.pos then lab else L(g, x)).hb
      ensures L(h, x).msg == (if x == lab.pos then lab else L(g, x)).msg
      ensures L(h, x).IsWrite() == (if x == lab.pos then lab else L(g, x)).IsWrite()
      ensures IsRecomputable(L(h, x)) == IsRecomputable(if x == lab.pos then lab else L(g, x))
    {
      CoreFields(L(h, x), if x == lab.pos then lab else L(g, x));
    }
  }

  lemma NewEdgeKept(g: Graph, o: Order, lab: Label, h: Graph, p: Event)
    requires Extends(g, lab, h) && RefsInside(g) && FitsRefs(g, lab)
    ensures HbEdge(h, p, lab.pos) <==> EdgeInto(g, p, lab)
  {
    EdgeIntoCore(h, p, L(h, lab.pos), lab);
    if p != lab.pos { EdgeIntoKept(g, h, p, lab); }
  }

  lemma ExtendLocal(g: Graph, o: Order, lab: Label, h: Graph)
    requires LocallyExact(g) && SourcesOrdered(g, o) && RefsInside(g) && Positioned(g)
    requires Extends(g, lab, h) && HbFits(g, lab) && FitsRefs(g, lab)
    ensures LocallyExact(h)
  {
    hide Positioned, RefsInside, FitsRefs, EdgeInto, SourcesOrdered, HbEdge;
    HbKept(g, lab, h);
    forall x, a | In(h, x)
      ensures HbHas(h, x, a) <==> (a == x && x.index >= 1) || ViaEdge(h, x, a)
    {
      if x == lab.pos {
        forall p ensures HbEdge(h, p, x) <==> EdgeInto(g, p, lab) { NewEdgeKept(g, o, lab, h, p); }
        NotFromNew(g, lab);
      } else {
        forall p ensures HbEdge(h, p, x) <==> HbEdge(g, p, x) { OldEdgeKept(g, o, lab, h, p, x); }
        NoEdgeOut(g, lab, x);
        assert ViaEdge(h, x, a) <==> ViaEdge(g, x, a);
      }
    }
    forall x, a | !In(h, x) ensures !ViaEdge(h, x, a) { NotTarget(h, x, a); }
  }

  lemma NotTarget(h: Graph, x: Event, a: Event)
    requires !In(h, x)
    ensures !ViaEdge(h, x, a)
  {}

  lemma NotFromNew(g: Graph, lab: Label)
    requires !In(g, lab.pos)
    ensures !EdgeInto(g, lab.pos, lab)
  {}

  lemma NoEdgeOut(g: Graph, lab: Label, x: Event)
    requires !In(g, lab.pos)
    ensures !HbEdge(g, lab.pos, x)
  {}

  lemma NewSourceKept(g: Graph, lab: Label, h: Graph, p: Event)
    requires Extends(g, lab, h) && RefsInside(g)
    ensures MsgSource(h, lab.pos, p) <==> NewSource(g, lab, p)
  {
    var w := lab.pos;
    CoreFields(L(h, w), lab);
    assert In(h, w) && |h[w.thread]| > w.index;
    LastIndexKept(g, h, w.thread, w.index, lab.addr);
    if w.index > 0 {
      assert In(g, w.Prev());
      CoreFields(L(h, w.Prev()), L(g, w.Prev()));
      if IsReadAt(g, w.Prev()) { MsgSourceKept(g, h, L(g, w.Prev()).rf); }
    }
    if MsgSource(h, w, p) {
      var n: nat :| SourceWithin(h, w, p, n);
      if !BaseSource(h, w, p) { assert SourceWithin(h, L(h, w.Prev()).rf, p, n - 1); }
    }
    if NewSource(g, lab, p) {
      if BaseSource(h, w, p) {
        assert SourceWithin(h, w, p, 0);
      } else {
        var n: nat :| SourceWithin(h, L(h, w.Prev()).rf, p, n);
        assert SourceWithin(h, w, p, n + 1);
      }
    }
  }

  lemma ExtendMessages(g: Graph, o: Order, lab: Label, h: Graph)
    requires MessagesExact(g) && SourcesOrdered(g, o) && RefsInside(g)
    requires Extends(g, lab, h) && MsgFits(g, lab)
    ensures MessagesExact(h)
  {
    hide RefsInside, MsgSource, NewSource;
    HbKept(g, lab, h);
    forall w, a ensures MsgHas(h, w, a) <==> ViaSource(h, w, a) {
      if w == lab.pos {
        forall p ensures MsgSource(h, w, p) <==> NewSource(g, lab, p) { NewSourceKept(g, lab, h, p); }
        NoSourceUnlessWrite(g, lab);
      } else if In(g, w) {
        MsgSourceKept(g, h, w);
        assert ViaSource(h, w, a) <==> ViaSource(g, w, a);
      } else {
        SourceIsWrite(h, w);
      }
    }
  }

  lemma NoSourceUnlessWrite(g: Graph, lab: Label)
    requires Limit(g, lab.pos)
    ensures !lab.IsWrite() ==> forall p :: !NewSource(g, lab, p)
  {}

  lemma SourceIsWrite(g: Graph, w: Event)
    ensures !IsWriteAt(g, w) ==> forall p :: !MsgSource(g, w, p)
  {}

  lemma ExtendSources(g: Graph, o: Order, lab: Label, h: Graph)
    requires SourcesOrdered(g, o) && RefsInside(g) && Ranked(g, o) && Started(g)
    requires Extends(g, lab, h) && FitsRefs(g, lab)
    ensures SourcesOrdered(h, o.Then(lab.pos))
  {
    HbKept(g, lab, h);
    var o' := o.Then(lab.pos);
    forall w, p | MsgSource(h, w, p)
      ensures In(h, p) && !IsRecomputable(L(h, p)) && (p == w || o'.HbBefore(p, w))
    {
      SourceIsWrite(h, w);
      if w == lab.pos {
        NewSourceKept(g, lab, h, p);
        assert p != w ==> In(g, p) && !IsRecomputable(L(g, p));
      } else {
        MsgSourceKept(g, h, w);
      }
    }
  }

  lemma ExtendEdges(g: Graph, o: Order, lab: Label, h: Graph)
    requires EdgesOrdered(g, o) && PoOrdered(g, o) && SourcesOrdered(g, o) && RefsInside(g) && Positioned(g)
    requires Ranked(g, o)
    requires Extends(g, lab, h) && FitsRefs(g, lab)
    ensures EdgesOrdered(h, o.Then(lab.pos)) && PoOrdered(h, o.Then(lab.pos))
  {
    hide RefsInside, Positioned, FitsRefs, SourcesOrdered;
    forall p, x | HbEdge(h, p, x) ensures o.Then(lab.pos).HbBefore(p, x) {
      if x == lab.pos {
        NewEdgeKept(g, o, lab, h, p);
      } else {
        OldEdgeKept(g, o, lab, h, p, x);
      }
    }
  }

  /** Appending a label whose views fit keeps the hb invariant. */
  lemma ExtendHb(g: Graph, o: Order, lab: Label, h: Graph)
    requires HbInv(g, o) && RefsInside(g) && Positioned(g) && Ranked(g, o) && Started(g)
    requires Extends(g, lab, h) && FitsRefs(g, lab) && HbFits(g, lab) && MsgFits(g, lab)
    ensures HbInv(h, o.Then(lab.pos))
  {
    ExtendLocal(g, o, lab, h);
    ExtendMessages(g, o, lab, h);
    ExtendSources(g, o, lab, h);
    ExtendEdges(g, o, lab, h);
  }
}
