/** Backward revisits: which events the revisit view keeps, and what copying up to it leaves intact. */
module RevisitSpec {
  import opened Events
  import opened Clocks
  import opened Graphs
  import opened ImmSpec
  import opened Causality
  import opened HbExact

  datatype BackwardRevisit =
    | Backward(pos: Event, rev: Event)
    | BackwardHelper(pos: Event, rev: Event, mid: Event)

  // ----- the view -----

  /** The events, begins aside, added no later than a stamp. */
  predicate InPrefix(g: Graph, stamp: nat, e: Event) {
    In(g, e) && e.index >= 1 && L(g, e).stamp <= stamp
  }

  /** e is read within its own thread by a read of c that p reaches. */
  ghost predicate ReadInternally(g: Graph, c: Clock, p: Clock, e: Event) {
    exists x :: IsReadAt(g, x) && 1 <= x.index <= p.At(x.thread) && c.Has(x) &&
                L(g, x).rf == e && e.thread == x.thread && 1 <= e.index <= c.At(e.thread)
  }

  /** The clock c joined with a prefix view p, rfi writes included. */
  ghost predicate PrefixAdded(g: Graph, c: Clock, p: Clock, r: Clock) {
    r.Wf() && r.Tight() &&
    (forall t :: r.At(t) == if c.At(t) < p.At(t) then p.At(t) else c.At(t)) &&
    forall e :: r.Has(e) <==> c.Has(e) || p.Has(e) || ReadInternally(g, c.Joined(p), p, e)
  }

  ghost predicate IsPrefixView(g: Graph, stamp: nat, c: Clock) {
    c.Wf() && c.Tight() && forall e :: c.Has(e) <==> InPrefix(g, stamp, e)
  }

  /** v is the revisit view of r. */
  ghost predicate IsRevisitView(g: Graph, r: BackwardRevisit, v: Clock) {
    && IsReadAt(g, r.pos) && IsWriteAt(g, r.rev) && (r.BackwardHelper? ==> IsWriteAt(g, r.mid))
    && exists preds, once ::
         && IsPrefixView(g, L(g, r.pos).stamp, preds) && PrefixAdded(g, preds, L(g, r.rev).pporf, once)
         && if r.BackwardHelper? then PrefixAdded(g, once, L(g, r.mid).pporf, v) else v == once
  }

  // ----- what it keeps together -----

  /** Within its thread a read reads from an earlier event. */
  ghost predicate InternalRfEarlier(g: Graph) {
    forall x :: IsReadAt(g, x) && L(g, x).rf.thread == x.thread ==> L(g, x).rf.index < x.index
  }

  /** Every read of the prefix but r reads from the prefix, or from no write at all. */
  ghost predicate RfClosedPrefix(g: Graph, stamp: nat, r: Event) {
    forall x :: IsReadAt(g, x) && x != r && InPrefix(g, stamp, x) ==>
                  L(g, x).rf == Bottom || L(g, x).rf == Initializer || InPrefix(g, stamp, L(g, x).rf)
  }

  /** The part of the run invariant the revisit relies on: what is known of writes and their clocks. */
  ghost predicate Revisitable(g: Graph) {
    WriteClocks(g) && WritesClosed(g) && WritesKnown(g) && RfKnown(g) && RfInverse(g) && InternalRfEarlier(g)
  }

  /** The clocks of writes are well formed and mention events of the graph only. */
  ghost predicate WriteClocks(g: Graph) {
    forall w :: IsWriteAt(g, w) ==>
                  L(g, w).pporf.Wf() && L(g, w).pporf.Tight() && forall a :: L(g, w).pporf.Has(a) ==> In(g, a)
  }

  ghost predicate WritesClosed(g: Graph) {
    forall w, a, b :: IsWriteAt(g, w) && CHas(g, w, a) && CHas(g, a, b) ==> CHas(g, w, b)
  }

  ghost predicate WritesKnown(g: Graph) {
    forall w :: IsWriteAt(g, w) ==> CHas(g, w, w)
  }

  /** The write of x, if it has one, is in the view. */
  ghost predicate RfKept(g: Graph, v: Clock, x: Event)
    requires In(g, x)
  {
    L(g, x).rf == Bottom || L(g, x).rf == Initializer || v.Has(L(g, x).rf)
  }

  ghost predicate RfClosed(g: Graph, v: Clock, r: Event) {
    forall x :: IsReadAt(g, x) && x != r && v.Has(x) ==> RfKept(g, v, x)
  }

  /** A read of the prefix view of a write keeps its write: by causal closure if external, by the rfi repair if
      internal. */
  lemma PrefixReadKeepsRf(g: Graph, c: Clock, w: Event, v: Clock, x: Event)
    requires Revisitable(g) && IsWriteAt(g, w) && c.Wf() && PrefixAdded(g, c, L(g, w).pporf, v)
    requires IsReadAt(g, x) && CHas(g, w, x)
    ensures RfKept(g, v, x)
  {
    hide WritesKnown, ReadsListed, ReadersRead, WritesClosed, Positioned, NoAbsent;
    var rf, p := L(g, x).rf, L(g, w).pporf;
    if rf != Bottom && rf != Initializer {
      if rf.thread == x.thread {
        JoinedHas(c, p);
        InternalRfIndex(g, x);
        assert p.Has(x) && rf.index < x.index <= p.At(x.thread);
        assert ReadInternally(g, c.Joined(p), p, rf);
      } else {
        assert ReadsExternally(g, x) && CHas(g, x, rf);
        WriteClosedAt(g, w, x, rf);
        assert p.Has(rf);
      }
    }
  }

  lemma WriteClosedAt(g: Graph, w: Event, a: Event, b: Event)
    requires WritesClosed(g) && IsWriteAt(g, w) && CHas(g, w, a) && CHas(g, a, b)
    ensures CHas(g, w, b)
  {}

  /** Writes have positive indices. */
  lemma InternalRfIndex(g: Graph, x: Event)
    requires RfInverse(g) && IsReadAt(g, x) && L(g, x).rf != Bottom && L(g, x).rf != Initializer
    ensures IsWriteAt(g, L(g, x).rf) && L(g, x).rf.index >= 1
  {
    assert x != Bottom;
    assert RfTarget(g, L(g, x).rf);
  }

  /** Adding a prefix view keeps what was closed, and the reads it brings. */
  lemma PrefixAddedCloses(g: Graph, c: Clock, w: Event, v: Clock, r: Event)
    requires Revisitable(g) && IsWriteAt(g, w) && c.Wf() && PrefixAdded(g, c, L(g, w).pporf, v) && RfClosed(g, c, r)
    ensures RfClosed(g, v, r)
  {
    hide WriteClocks, WritesClosed, WritesKnown, RfKnown, InternalRfEarlier;
    forall x | IsReadAt(g, x) && x != r && v.Has(x) ensures RfKept(g, v, x) {
      if c.Has(x) {
        assert RfKept(g, c, x);
      } else if L(g, w).pporf.Has(x) {
        PrefixReadKeepsRf(g, c, w, v, x);
      } else {
        var y :| IsReadAt(g, y) && L(g, y).rf == x && x.index >= 1;
        InternalRfIndex(g, y);
        assert false;
      }
    }
  }

  /** The revisit view holds the write of every read in it, except perhaps the revisited one. */
  lemma RevisitViewClosed(g: Graph, r: BackwardRevisit, v: Clock)
    requires Revisitable(g) && IsRevisitView(g, r, v) && RfClosedPrefix(g, L(g, r.pos).stamp, r.pos)
    ensures RfClosed(g, v, r.pos)
  {
    hide Revisitable, PrefixAdded;
    var preds, once :| && IsPrefixView(g, L(g, r.pos).stamp, preds) && PrefixAdded(g, preds, L(g, r.rev).pporf, once)
                       && if r.BackwardHelper? then PrefixAdded(g, once, L(g, r.mid).pporf, v) else v == once;
    PrefixAddedCloses(g, preds, r.rev, once, r.pos);
    if r.BackwardHelper? {
      PrefixAddedWf(g, preds, L(g, r.rev).pporf, once);
      PrefixAddedCloses(g, once, r.mid, v, r.pos);
    }
  }

  lemma PrefixAddedWf(g: Graph, c: Clock, p: Clock, v: Clock)
    requires PrefixAdded(g, c, p, v)
    ensures v.Wf() && v.Tight() && forall e :: c.Has(e) || p.Has(e) ==> v.Has(e)
  {}

  /** It lies in the graph, and holds the read and the write of the revisit. */
  lemma RevisitViewInside(g: Graph, r: BackwardRevisit, v: Clock)
    requires Revisitable(g) && IsRevisitView(g, r, v)
    ensures v.Wf() && v.Tight() && (forall e :: v.Has(e) ==> In(g, e)) && v.Has(r.pos) && v.Has(r.rev)
  {
    hide Revisitable, PrefixAdded;
    var preds, once :| && IsPrefixView(g, L(g, r.pos).stamp, preds) && PrefixAdded(g, preds, L(g, r.rev).pporf, once)
                       && if r.BackwardHelper? then PrefixAdded(g, once, L(g, r.mid).pporf, v) else v == once;
    AccessIndex(g, r.pos);
    AccessIndex(g, r.rev);
    assert CHas(g, r.rev, r.rev) by { WriteKnown(g, r.rev); }
    PrefixAddedWf(g, preds, L(g, r.rev).pporf, once);
    PrefixAddedInside(g, preds, r.rev, once);
    if r.BackwardHelper? {
      PrefixAddedWf(g, once, L(g, r.mid).pporf, v);
      PrefixAddedInside(g, once, r.mid, v);
    }
  }

  lemma AccessIndex(g: Graph, x: Event)
    requires Revisitable(g) && (IsReadAt(g, x) || IsWriteAt(g, x))
    ensures x.index >= 1
  {}

  lemma WriteKnown(g: Graph, w: Event)
    requires Revisitable(g) && IsWriteAt(g, w)
    ensures CHas(g, w, w)
  {}

  lemma PrefixAddedInside(g: Graph, c: Clock, w: Event, v: Clock)
    requires Revisitable(g) && IsWriteAt(g, w) && PrefixAdded(g, c, L(g, w).pporf, v) && forall e :: c.Has(e) ==>
                 In(g, e)
    ensures forall e :: v.Has(e) ==> In(g, e)
  {
    forall e | v.Has(e) ensures In(g, e) {
      if !c.Has(e) && !L(g, w).pporf.Has(e) {
        var x :| IsReadAt(g, x) && L(g, x).rf == e && e.index >= 1;
        InternalRfIndex(g, x);
      }
    }
  }

  // ----- the copy -----

  /** The copy of a label: a write keeps only the readers that are copied too. */
  function Copied(lab: Label, v: Clock): Label {
    if lab.IsWrite() then lab.(readers := Keep(lab.readers, r => v.Contains(r))) else lab
  }

  /** h is g restricted to v: begins stay, gaps below the last kept event of a thread become Empty labels. */
  ghost predicate IsCopy(g: Graph, v: Clock, h: Graph) {
    && |h| == |g|
    && (forall t :: 0 <= t < |g| ==> |h[t]| == v.At(t) + 1)
    && (forall e :: In(h, e) ==>
                      && In(g, e)
                      && if e.index == 0 then L(h, e) == L(g, e)
                         else if v.Contains(e) then L(h, e) == Copied(L(g, e), v)
                         else L(h, e) == EmptyLabel(e, L(h, e).stamp))
  }

  /** The view is well formed and reaches no further than the graph; its last entries may be holes. */
  ghost predicate Spans(g: Graph, v: Clock) {
    v.Wf() && (forall t :: v.At(t) >= 0) && forall t :: 0 <= t < |g| ==> v.At(t) < |g[t]|
  }

  lemma ViewSpans(g: Graph, v: Clock)
    requires v.Wf() && v.Tight() && (forall e :: v.Has(e) ==> In(g, e)) && forall t :: 0 <= t < |g| ==> |g[t]| > 0
    ensures Spans(g, v)
  {
    forall t | 0 <= t < |g| ensures v.At(t) < |g[t]| {
      if v.At(t) >= 1 { assert v.Has(Event(t, v.At(t))); }
    }
  }

  lemma KeptInCopy(g: Graph, v: Clock, h: Graph, e: Event)
    requires IsCopy(g, v, h) && Spans(g, v) && In(g, e) && (v.Has(e) || (e.index == 0 && v.At(e.thread) >= 0))
    ensures In(h, e) && L(h, e) == if e.index == 0 then L(g, e) else Copied(L(g, e), v)
  {
    HasAt(v, e);
  }

  /** Accesses of the copy are the accesses kept. */
  lemma CopiedAccess(g: Graph, v: Clock, h: Graph, e: Event)
    requires IsCopy(g, v, h) && Positioned(g) && NoAbsent(g) && In(h, e) && L(h, e).IsMemAccess()
    ensures In(g, e) && v.Has(e) && e.index >= 1 && L(h, e) == Copied(L(g, e), v)
  {}

  /** A copy up to a view closed under reads-from keeps reads-from and reader lists mutually inverse. */
  lemma CopyKeepsInverse(g: Graph, v: Clock, h: Graph, r: Event)
    requires RfInverse(g) && RfClosed(g, v, r) && IsCopy(g, v, h) && Spans(g, v) && In(g, Initializer)
    ensures RfInverseExcept(h, r)
  {
    forall e | In(h, e)
      ensures L(h, e).pos == e && !L(h, e).kind.Absent? && (e.index == 0 ==> !L(h, e).IsMemAccess())
    {}
    hide IsCopy, Positioned, NoAbsent;
    forall e | IsReadAt(h, e) && e != r && L(h, e).rf != Bottom
      ensures RfTarget(h, L(h, e).rf) && (IsWriteAt(h, L(h, e).rf) ==> e in L(h, L(h, e).rf).readers)
    {
      CopiedRf(g, v, h, e);
    }
    forall w, x | IsWriteAt(h, w) && x in L(h, w).readers
      ensures IsReadAt(h, x) && L(h, x).rf == w
    {
      CopiedAccess(g, v, h, w);
      assert IsWriteAt(g, w) && IsReadAt(g, x) && L(g, x).rf == w;
      ReadIndex(g, x);
      KeptInCopy(g, v, h, x);
    }
  }

  lemma ReadIndex(g: Graph, x: Event)
    requires NoAbsent(g) && IsReadAt(g, x)
    ensures x.index >= 1
  {}

  lemma CopiedRf(g: Graph, v: Clock, h: Graph, e: Event)
    requires RfInverse(g) && IsCopy(g, v, h) && Spans(g, v) && In(g, Initializer)
    requires IsReadAt(h, e) && L(h, e).rf != Bottom
    requires IsReadAt(g, e) && v.Has(e) ==> RfKept(g, v, e)
    ensures RfTarget(h, L(h, e).rf) && (IsWriteAt(h, L(h, e).rf) ==> e in L(h, L(h, e).rf).readers)
  {
    CopiedAccess(g, v, h, e);
    var rf := L(h, e).rf;
    assert IsReadAt(g, e) && rf == L(g, e).rf && e != Bottom;
    KeptInCopy(g, v, h, rf);
  }

  // ----- the whole revisit -----

  /** Labels younger than p get new stamps below next, in an order that respects their threads. */
  ghost predicate Restamped(g: Graph, p: nat, h: Graph, next: nat) {
    && |h| == |g| && (forall t :: 0 <= t < |g| ==> |h[t]| == |g[t]|)
    && (forall x :: In(g, x) ==>
                      && L(h, x) == L(g, x).(stamp := L(h, x).stamp)
                      && if L(g, x).stamp <= p then L(h, x).stamp == L(g, x).stamp else p < L(h, x).stamp < next)
    && (forall x, y :: In(g, x) && In(g, y) && L(g, x).stamp > p && L(g, y).stamp > p &&
                       L(h, x).stamp == L(h, y).stamp ==>
                         x == y)
    && (forall x, y :: In(g, x) && In(g, y) && L(g, x).stamp > p && L(g, y).stamp > p && x.thread == y.thread &&
                       x.index < y.index ==>
                         L(h, x).stamp < L(h, y).stamp)
  }

  /** x comes before position (n, m). */
  predicate Passed(x: Event, n: int, m: int) { x.thread < n || (x.thread == n && x.index < m) }

  /** Of the labels younger than p those before (n, m) have got new stamps. */
  ghost predicate RestampedUpTo(g: Graph, p: nat, h: Graph, next: nat, n: int, m: int) {
    && |h| == |g| && (forall t :: 0 <= t < |g| ==> |h[t]| == |g[t]|) && next > p
    && (forall x :: In(g, x) ==>
                      && L(h, x) == L(g, x).(stamp := L(h, x).stamp)
                      && if L(g, x).stamp > p && Passed(x, n, m) then p < L(h, x).stamp < next
                         else L(h, x).stamp == L(g, x).stamp)
    && (forall x, y :: In(g, x) && In(g, y) && L(g, x).stamp > p && L(g, y).stamp > p && Passed(x, n, m) &&
                       Passed(y, n, m) ==>
                         && (L(h, x).stamp == L(h, y).stamp ==> x == y)
                         && (x.thread == y.thread && x.index < y.index ==> L(h, x).stamp < L(h, y).stamp))
  }

  lemma RestampStarts(g: Graph, p: nat)
    ensures RestampedUpTo(g, p, g, p + 1, 0, 0)
  {}

  lemma RestampEnds(g: Graph, p: nat, h: Graph, next: nat)
    requires RestampedUpTo(g, p, h, next, |g|, 0)
    ensures Restamped(g, p, h, next) && next > p
  {}

  lemma RestampThread(g: Graph, p: nat, h: Graph, next: nat, n: nat)
    requires n < |g| && RestampedUpTo(g, p, h, next, n, |g[n]|)
    ensures RestampedUpTo(g, p, h, next, n + 1, 0) && |h| == |g| && (n + 1 < |g| ==> |h[n + 1]| == |g[n + 1]|)
  {
    forall x | In(g, x) ensures Passed(x, n, |g[n]|) <==> Passed(x, n + 1, 0) {}
  }

  lemma RestampStep(g: Graph, p: nat, h: Graph, next: nat, n: nat, m: nat)
    requires RestampedUpTo(g, p, h, next, n, m) && In(g, Event(n, m))
    ensures var e := Event(n, m);
            && In(h, e) && L(h, e) == L(g, e)
            && if L(g, e).stamp > p then RestampedUpTo(g, p, Set(h, e, L(h, e).(stamp := next)), next + 1, n, m + 1)
               else RestampedUpTo(g, p, h, next, n, m + 1)
  {
    var e := Event(n, m);
    forall x ensures Passed(x, n, m + 1) <==> Passed(x, n, m) || x == e {}
    assert !Passed(e, n, m) && forall x: Event :: x.thread == n && x.index > m ==> !Passed(x, n, m + 1);
    hide Passed;
    assert In(h, e) && L(h, e) == L(g, e);
    if L(g, e).stamp > p {
      SetAt(h, e, L(h, e).(stamp := next));
      NewStamp(g, p, h, next, n, m, Set(h, e, L(h, e).(stamp := next)));
    }
  }

  lemma NewStamp(g: Graph, p: nat, h: Graph, next: nat, n: nat, m: nat, h': Graph)
    requires RestampedUpTo(g, p, h, next, n, m) && In(g, Event(n, m)) && L(g, Event(n, m)).stamp > p
    requires |h'| == |h| && forall t :: 0 <= t < |h| ==> |h'[t]| == |h[t]|
    requires forall x :: In(h, x) ==> L(h', x) == if x == Event(n, m) then L(h, x).(stamp := next) else L(h, x)
    requires forall x :: Passed(x, n, m + 1) <==> Passed(x, n, m) || x == Event(n, m)
    ensures RestampedUpTo(g, p, h', next + 1, n, m + 1)
  {
    var e := Event(n, m);
    assert forall x: Event :: x.thread == n && x.index > m ==> !Passed(x, n, m + 1);
    assert !Passed(e, n, m);
    hide Passed;
    forall x | In(g, x)
      ensures L(h', x) == L(g, x).(stamp := L(h', x).stamp)
      ensures if L(g, x).stamp > p &&
                  Passed(x, n, m + 1) then p < L(h', x).stamp < next + 1 else L(h', x).stamp == L(g, x).stamp
      ensures x != e ==> L(h', x).stamp == L(h, x).stamp
      ensures L(g, x).stamp > p && Passed(x, n, m) ==> L(h, x).stamp < next
    {
      assert L(h, x) == L(g, x).(stamp := L(h, x).stamp);
    }
  }

  /** copyGraph punches two holes for a helper: the write that blocks others, and its read half. */
  function Punched(r: BackwardRevisit, v: Clock): Clock
    requires r.BackwardHelper? ==> r.mid.thread >= 0
  {
    if r.BackwardHelper? then v.WithHole(r.mid).WithHole(r.mid.Prev()) else v
  }

  /** What constructBackwardRevisit checks of a helper, as far as it matters here: mid is a write of its own with a
      read half. */
  ghost predicate HelperOk(g: Graph, r: BackwardRevisit) {
    r.BackwardHelper? ==> IsWriteAt(g, r.mid) && IsReadAt(g, r.mid.Prev()) && r.pos != r.mid.Prev() && r.rev != r.mid
  }

  lemma PunchedHas(r: BackwardRevisit, v: Clock)
    requires v.Wf() && (r.BackwardHelper? ==> r.mid.thread >= 0)
    ensures var p := Punched(r, v);
            && p.Wf() && (forall t :: p.At(t) == v.At(t))
            && forall e :: p.Has(e) <==> v.Has(e) && (r.BackwardHelper? ==> e != r.mid && e != r.mid.Prev())
  {
    var p := Punched(r, v);
    if r.BackwardHelper? {
      HoleHas(v, r.mid);
      HoleHas(v.WithHole(r.mid), r.mid.Prev());
    }
  }

  lemma HoleHas(v: Clock, e: Event)
    requires v.Wf() && e.thread >= 0
    ensures v.WithHole(e).Wf() && (forall t :: v.WithHole(e).At(t) == v.At(t))
    ensures forall a :: v.WithHole(e).Has(a) <==> v.Has(a) && a != e
  {
    var w := v.WithHole(e);
    forall t ensures w.HolesAt(t) == v.HolesAt(t) + if t == e.thread then {e.index} else {} {}
    forall a ensures w.Has(a) <==> v.Has(a) && a != e { HasAt(v, a); HasAt(w, a); }
  }

  /** No read is kept that reads from the write left out for a helper. */
  ghost predicate NobodyReadsMid(g: Graph, r: BackwardRevisit, v: Clock) {
    r.BackwardHelper? ==> forall x :: IsReadAt(g, x) && x != r.pos && v.Has(x) ==> L(g, x).rf != r.mid
  }

  lemma PunchedClosed(g: Graph, r: BackwardRevisit, v: Clock)
    requires Revisitable(g) && HelperOk(g, r) && v.Wf() && RfClosed(g, v, r.pos) && NobodyReadsMid(g, r, Punched(r, v))
    ensures RfClosed(g, Punched(r, v), r.pos)
  {
    PunchedHas(r, v);
    forall x | IsReadAt(g, x) && x != r.pos && Punched(r, v).Has(x) ensures RfKept(g, Punched(r, v), x) {
      assert RfKept(g, v, x);
      if L(g, x).rf != Bottom && L(g, x).rf != Initializer { InternalRfIndex(g, x); }
    }
  }

  /** What the copy holds of the revisit itself. */
  lemma RevisitCopied(g: Graph, r: BackwardRevisit, v: Clock, h: Graph)
    requires Revisitable(g) && In(g, Initializer) && (forall t :: 0 <= t < |g| ==> |g[t]| > 0)
    requires HelperOk(g, r) && IsRevisitView(g, r, v) && IsCopy(g, Punched(r, v), h)
    ensures Spans(g, Punched(r, v)) && IsReadAt(h, r.pos) && IsWriteAt(h, r.rev) && L(h, r.pos).pos == r.pos
  {
    hide Revisitable, IsRevisitView;
    RevisitViewInside(g, r, v);
    ViewSpans(g, v);
    PunchedHas(r, v);
    RevisitEnds(g, r, v);
    AccessIndex(g, r.pos);
    AccessIndex(g, r.rev);
    assert Positioned(g) by { RevisitParts(g); }
    KeptInCopy(g, Punched(r, v), h, r.pos);
    KeptInCopy(g, Punched(r, v), h, r.rev);
  }

  lemma RevisitParts(g: Graph)
    requires Revisitable(g)
    ensures WriteClocks(g) && RfInverse(g) && Positioned(g)
  {}

  /** Copying up to the revisit view, punched for a helper, and re-targeting the read leaves a graph that validate()
      accepts exactly if no read is kept that reads from the write left out. */
  lemma RevisitKeepsInverseIff(g: Graph, r: BackwardRevisit, v: Clock, h: Graph)
    requires Revisitable(g) && In(g, Initializer) && (forall t :: 0 <= t < |g| ==> |g[t]| > 0)
    requires HelperOk(g, r) && IsRevisitView(g, r, v) && RfClosedPrefix(g, L(g, r.pos).stamp, r.pos)
    requires IsCopy(g, Punched(r, v), h)
    ensures IsReadAt(h, r.pos) && IsWriteAt(h, r.rev)
    ensures RfInverse(RfChanged(h, r.pos, r.rev)) <==> NobodyReadsMid(g, r, Punched(r, v))
  {
    hide Revisitable, IsRevisitView, RfClosedPrefix, RfClosed, IsCopy, RfInverse, RfInverseExcept, RfChanged,
         NobodyReadsMid;
    RevisitCopied(g, r, v, h);
    if NobodyReadsMid(g, r, Punched(r, v)) {
      RevisitViewClosed(g, r, v);
      RevisitViewInside(g, r, v);
      PunchedClosed(g, r, v);
      RevisitParts(g);
      CopyKeepsInverse(g, Punched(r, v), h, r.pos);
      ChangeRfKeepsInverse(h, r.pos, r.rev);
    } else {
      RevisitViewInside(g, r, v);
      ReaderOfMidDangles(g, r, v, h);
    }
  }

  /** A kept read of the write left out reads from an Empty label. */
  lemma ReaderOfMidDangles(g: Graph, r: BackwardRevisit, v: Clock, h: Graph)
    requires Revisitable(g) && HelperOk(g, r) && IsCopy(g, Punched(r, v), h) && v.Wf() && Spans(g, Punched(r, v))
    requires IsReadAt(h, r.pos) && L(h, r.pos).pos == r.pos && !NobodyReadsMid(g, r, Punched(r, v))
    ensures !RfInverse(RfChanged(h, r.pos, r.rev))
  {
    PunchedHas(r, v);
    var p := Punched(r, v);
    var x :| IsReadAt(g, x) && x != r.pos && p.Has(x) && L(g, x).rf == r.mid;
    RfChangedAt(h, r.pos, r.rev);
    RetargetedKinds(h, RfChanged(h, r.pos, r.rev), r.pos, r.rev);
    hide RfChanged, Retargeted;
    KeptInCopy(g, p, h, x);
    AccessIndex(g, x);
    AccessIndex(g, r.mid);
    MidIsEmpty(g, r, p, h);
    assert x != Bottom && r.mid != Bottom && r.mid != Initializer;
    assert !RfTarget(RfChanged(h, r.pos, r.rev), r.mid);
  }

  lemma MidIsEmpty(g: Graph, r: BackwardRevisit, p: Clock, h: Graph)
    requires r.BackwardHelper? && IsCopy(g, p, h) && p.Wf() && r.mid.index >= 1 && !p.Has(r.mid)
    ensures !IsWriteAt(h, r.mid)
  {}

  lemma RevisitEnds(g: Graph, r: BackwardRevisit, v: Clock)
    requires IsRevisitView(g, r, v)
    ensures IsReadAt(g, r.pos) && IsWriteAt(g, r.rev)
  {}
}
