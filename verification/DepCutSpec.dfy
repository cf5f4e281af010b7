/** Cutting a graph whose stamps do not follow program order: gaps are filled with Empty labels. */
module DepCutSpec {
  import opened Events
  import opened Clocks
  import opened Graphs
  import opened RevisitSpec
  import opened CutSpec

  predicate Deleted(g: Graph, stamp: nat, e: Event) {
    In(g, e) && e.index >= 1 && L(g, e).stamp > stamp
  }

  /** e is deleted, and the cut, which has got to (n, m), has come by it. */
  predicate Gone(g: Graph, stamp: nat, n: int, m: int, e: Event) {
    Deleted(g, stamp, e) && (e.thread < n || (e.thread == n && e.index < m))
  }

  predicate GoneReader(g: Graph, stamp: nat, n: int, m: int, w: Event, r: Event) {
    Gone(g, stamp, n, m, r) && IsReadAt(g, r) && L(g, r).rf == w
  }

  predicate GoneFinish(g: Graph, stamp: nat, n: int, m: int, join: Event, f: Event) {
    Gone(g, stamp, n, m, f) && L(g, f).kind == ThreadFinish(join)
  }

  /** The label of a surviving event once the events before (n, m) are gone. */
  ghost function LabelAt(g: Graph, stamp: nat, n: int, m: int, e: Event): Label
    requires In(g, e)
  {
    var lab := L(g, e);
    match lab.kind
    case Write(_) => lab.(readers := Keep(lab.readers, r => !GoneReader(g, stamp, n, m, e, r)))
    case ThreadJoin(c, _) =>
      if exists f :: GoneFinish(g, stamp, n, m, e, f) then lab.(kind := ThreadJoin(c, Initializer)) else lab
    case _ => lab
  }

  /** The cut has got to (n, m): threads below n are resized, deleted slots reset. */
  ghost predicate CutTo(g: Graph, stamp: nat, h: Graph, n: int, m: int) {
    && |h| == |g|
    && (forall t :: 0 <= t < |g| ==> |h[t]| == if t < n then Top(g, stamp, t) + 1 else |g[t]|)
    && (forall e :: In(h, e) ==>
                      && In(g, e)
                      && if Gone(g, stamp, n, m, e) then L(h, e).kind.Absent?
                             else L(h, e) == LabelAt(g, stamp, n, m, e))
  }

  /** The result: deleted events below the last kept one of their thread are Empty labels. */
  ghost predicate IsDepCut(g: Graph, stamp: nat, h: Graph) {
    && |h| == |g|
    && (forall t :: 0 <= t < |g| ==> |h[t]| == Top(g, stamp, t) + 1)
    && (forall e :: In(h, e) ==>
                      && In(g, e)
                      && if Deleted(g, stamp, e) then L(h, e) == EmptyLabel(e, L(h, e).stamp)
                         else L(h, e) == LabelAt(g, stamp, |g|, 0, e))
  }

  // ----- one event -----

  lemma GoneNext(g: Graph, stamp: nat, n: nat, m: nat)
    requires In(g, Event(n, m)) && m >= 1
    ensures forall e :: Gone(g, stamp, n, m + 1, e) <==>
                        Gone(g, stamp, n, m, e) || (e == Event(n, m) && Deleted(g, stamp, e))
  {}

  /** Passing a surviving event changes nothing. */
  lemma PassKept(g: Graph, stamp: nat, h: Graph, n: nat, m: nat)
    requires CutTo(g, stamp, h, n, m) && In(g, Event(n, m)) && m >= 1 && !Deleted(g, stamp, Event(n, m))
    ensures CutTo(g, stamp, h, n, m + 1)
  {
    GoneNext(g, stamp, n, m);
    hide Gone;
    forall e | In(h, e) ensures LabelAt(g, stamp, n, m + 1, e) == LabelAt(g, stamp, n, m, e) {
      SameGone(g, stamp, n, m, n, m + 1, e);
    }
  }

  lemma SameGone(g: Graph, stamp: nat, n: nat, m: nat, n': nat, m': nat, e: Event)
    requires In(g, e) && forall x :: Gone(g, stamp, n, m, x) <==> Gone(g, stamp, n', m', x)
    ensures LabelAt(g, stamp, n, m, e) == LabelAt(g, stamp, n', m', e)
  {
    hide Gone;
    KeepAgrees(L(g, e).readers, r => !GoneReader(g, stamp, n, m, e, r), r => !GoneReader(g, stamp, n', m', e, r));
    assert forall f :: GoneFinish(g, stamp, n, m, e, f) <==> GoneFinish(g, stamp, n', m', e, f);
  }

  /** What the deletion of x does to the label of another event e. */
  function Unlinked(lab: Label, e: Event, gone: Label, x: Event): Label {
    if gone.IsRead() && gone.rf == e && lab.IsWrite() then lab.WithoutReader(x)
    else if gone.kind == ThreadFinish(e) &&
        lab.kind.ThreadJoin? then lab.(kind := ThreadJoin(lab.kind.childId, Initializer))
    else lab
  }

  lemma LabelAtNext(g: Graph, stamp: nat, n: nat, m: nat, e: Event)
    requires In(g, e) && In(g, Event(n, m)) && m >= 1 && Deleted(g, stamp, Event(n, m)) && e != Event(n, m)
    ensures LabelAt(g, stamp, n, m + 1, e) ==
            Unlinked(LabelAt(g, stamp, n, m, e), e, L(g, Event(n, m)), Event(n, m))
  {
    hide Gone;
    match L(g, e).kind
    case Write(_) => ReadersNext(g, stamp, n, m, e);
    case ThreadJoin(_, _) => GoneFinishNext(g, stamp, n, m, m + 1, e);
    case _ =>
  }

  lemma ReadersNext(g: Graph, stamp: nat, n: nat, m: nat, w: Event)
    requires In(g, w) && In(g, Event(n, m)) && m >= 1 && Deleted(g, stamp, Event(n, m))
    ensures var x, s := Event(n, m), L(g, w).readers;
            var was := Keep(s, r => !GoneReader(g, stamp, n, m, w, r));
            Keep(s, r => !GoneReader(g, stamp, n, m + 1, w, r)) ==
            if L(g, x).IsRead() && L(g, x).rf == w then Keep(was, r => r != x) else was
  {
    var x := Event(n, m);
    GoneNext(g, stamp, n, m);
    hide Gone;
    var p, q := (r: Event) => !GoneReader(g, stamp, n, m, w, r), (r: Event) => !GoneReader(g, stamp, n, m + 1, w, r);
    if L(g, x).IsRead() && L(g, x).rf == w {
      KeepTwice(L(g, w).readers, p, (r: Event) => r != x, q);
    } else {
      KeepAgrees(L(g, w).readers, p, q);
    }
  }

  lemma GoneFinishNext(g: Graph, stamp: nat, n: nat, m: nat, m': nat, join: Event)
    requires In(g, Event(n, m)) && m >= 1 && Deleted(g, stamp, Event(n, m)) && m' == m + 1
    ensures (exists f :: GoneFinish(g, stamp, n, m', join, f)) <==>
            (exists f :: GoneFinish(g, stamp, n, m, join, f)) || L(g, Event(n, m)).kind == ThreadFinish(join)
  {
    var x := Event(n, m);
    GoneNext(g, stamp, n, m);
    if L(g, x).kind == ThreadFinish(join) { assert GoneFinish(g, stamp, n, m', join, x); }
    if f :| GoneFinish(g, stamp, n, m, join, f) { assert GoneFinish(g, stamp, n, m', join, f); }
    if f :| GoneFinish(g, stamp, n, m', join, f) {
      assert f == x || GoneFinish(g, stamp, n, m, join, f);
    }
  }

  /** h' is h with x reset and unlinked. */
  lemma PassDeleted(g: Graph, stamp: nat, h: Graph, n: nat, m: nat, h': Graph)
    requires CutTo(g, stamp, h, n, m) && In(g, Event(n, m)) && m >= 1 && Deleted(g, stamp, Event(n, m))
    requires |h'| == |h| && forall t :: 0 <= t < |h| ==> |h'[t]| == |h[t]|
    requires forall e :: In(h, e) ==>
                           L(h', e).kind.Absent? == (e == Event(n, m) || L(h, e).kind.Absent?)
    requires forall e :: In(h, e) && e != Event(n, m) && !L(h, e).kind.Absent? ==>
                           L(h', e) == Unlinked(L(h, e), e, L(g, Event(n, m)), Event(n, m))
    requires NoAbsent(g)
    ensures CutTo(g, stamp, h', n, m + 1)
  {
    GoneNext(g, stamp, n, m);
    hide Gone, LabelAt, Unlinked, Top;
    forall e | In(h', e)
      ensures In(g, e)
      ensures if Gone(g, stamp, n, m + 1, e) then L(h', e).kind.Absent? else L(h', e) == LabelAt(g, stamp, n, m + 1, e)
    {
      assert In(h, e);
      if !Gone(g, stamp, n, m + 1, e) {
        LabelAtPresent(g, stamp, n, m, e);
        LabelAtNext(g, stamp, n, m, e);
      }
    }
  }

  lemma LabelAtPresent(g: Graph, stamp: nat, n: int, m: int, e: Event)
    requires In(g, e) && NoAbsent(g)
    ensures var l, k := LabelAt(g, stamp, n, m, e), L(g, e);
            && !l.kind.Absent? && l.pos == k.pos && l.rf == k.rf && l.stamp == k.stamp && l.IsRead() == k.IsRead()
            && l.IsWrite() == k.IsWrite() && (l.kind.ThreadFinish? <==> k.kind.ThreadFinish?)
            && (l.kind.ThreadFinish? ==> l == k)
  {}

  /** Only these fields of the deleted label matter. */
  lemma UnlinkedSame(k: Label, l: Label)
    requires k.IsRead() == l.IsRead() && k.rf == l.rf && (k.kind.ThreadFinish? <==> l.kind.ThreadFinish?)
    requires k.kind.ThreadFinish? ==> k == l
    ensures forall lab, e, x :: Unlinked(lab, e, k, x) == Unlinked(lab, e, l, x)
  {}

  /** The label at the cursor is untouched but for its links. */
  lemma CutToCursor(g: Graph, stamp: nat, h: Graph, n: nat, m: nat)
    requires CutTo(g, stamp, h, n, m) && In(h, Event(n, m)) && NoAbsent(g) && Positioned(g)
    ensures In(g, Event(n, m)) && L(h, Event(n, m)).stamp == L(g, Event(n, m)).stamp
    ensures L(h, Event(n, m)).pos == Event(n, m)
  {
    LabelAtPresent(g, stamp, n, m, Event(n, m));
  }

  lemma CutToThread(g: Graph, stamp: nat, h: Graph, n: nat, m: nat)
    requires CutTo(g, stamp, h, n, m) && n < |g|
    ensures |h| == |g| && |h[n]| == |g[n]|
  {}

  /** One past the last kept index of thread t below m. */
  function Reached(g: Graph, stamp: nat, t: nat, m: nat): nat
    requires t < |g| && m <= |g[t]|
  {
    LastIndex(g, t, m, (lab: Label) => lab.stamp <= stamp) + 1
  }

  lemma ReachedNext(g: Graph, stamp: nat, t: nat, m: nat)
    requires t < |g| && 1 <= m < |g[t]|
    ensures Reached(g, stamp, t, m + 1) == if g[t][m].stamp <= stamp then m + 1 else Reached(g, stamp, t, m)
    ensures Reached(g, stamp, t, m) <= m
  {}

  lemma ReachedAll(g: Graph, stamp: nat, t: nat)
    requires t < |g|
    ensures Reached(g, stamp, t, |g[t]|) == Top(g, stamp, t) + 1
  {}

  // ----- one thread, and the end -----

  /** No deleted event of thread n is left out once its last index is passed. */
  lemma PassThread(g: Graph, stamp: nat, h: Graph, n: nat)
    requires n < |g| && |g[n]| > 0 && CutTo(g, stamp, h, n, |g[n]|)
    ensures CutTo(g, stamp, h[n := h[n][..Top(g, stamp, n) + 1]], n + 1, 1)
  {
    var h' := h[n := h[n][..Top(g, stamp, n) + 1]];
    forall e ensures Gone(g, stamp, n, |g[n]|, e) <==> Gone(g, stamp, n + 1, 1, e) {}
    hide Gone, Top;
    forall e | In(h', e)
      ensures In(g, e)
      ensures if Gone(g, stamp, n + 1, 1, e) then L(h', e).kind.Absent? else L(h', e) == LabelAt(g, stamp, n + 1, 1, e)
    {
      assert In(h, e) && L(h', e) == L(h, e);
      SameGone(g, stamp, n, |g[n]|, n + 1, 1, e);
    }
  }

  lemma CutToEnds(g: Graph, stamp: nat, h: Graph, h': Graph)
    requires CutTo(g, stamp, h, |g|, 1) && NoAbsent(g)
    requires |h'| == |h| && forall t :: 0 <= t < |h| ==> |h'[t]| == |h[t]|
    requires forall e :: In(h, e) ==>
                           if L(h, e).kind.Absent? then L(h', e) == EmptyLabel(e, L(h', e).stamp)
                               else L(h', e) == L(h, e)
    ensures IsDepCut(g, stamp, h')
  {
    forall e ensures Gone(g, stamp, |g|, 1, e) <==> Deleted(g, stamp, e) {}
    forall e ensures Gone(g, stamp, |g|, 0, e) <==> Deleted(g, stamp, e) {}
    hide Gone, Top;
    forall e | In(h', e)
      ensures In(g, e) && if Deleted(g, stamp, e) then L(h', e) == EmptyLabel(e, L(h', e).stamp)
                          else L(h', e) == LabelAt(g, stamp, |g|, 0, e)
    {
      assert In(h, e);
      LabelAtPresent(g, stamp, |g|, 1, e);
      SameGone(g, stamp, |g|, 1, |g|, 0, e);
    }
  }

  lemma CutToStarts(g: Graph, stamp: nat)
    ensures CutTo(g, stamp, g, 0, 1)
  {
    forall e ensures !Gone(g, stamp, 0, 1, e) {}
    forall e | In(g, e) ensures LabelAt(g, stamp, 0, 1, e) == L(g, e) {
      KeepAll(L(g, e).readers, r => !GoneReader(g, stamp, 0, 1, e, r));
    }
  }

  lemma {:induction false} KeepAll<T(!new)>(s: seq<T>, p: T -> bool)
    requires forall x :: x in s ==> p(x)
    ensures Keep(s, p) == s
  {
    if s != [] { KeepAll(s[1..], p); }
  }

  // ----- what the cut means -----

  /** The cut keeps exactly the begins and the events stamped in time, and agrees with the prefix view. */
  lemma DepCutAgrees(g: Graph, stamp: nat, h: Graph, c: Clock, e: Event)
    requires IsDepCut(g, stamp, h) && IsPrefixView(g, stamp, c) && NoAbsent(g)
    ensures In(h, e) && !Deleted(g, stamp, e) <==> In(g, e) && (e.index == 0 || L(g, e).stamp <= stamp)
    ensures e.index >= 1 ==> (In(h, e) && !Deleted(g, stamp, e) <==> c.Has(e))
    ensures ContainsNonEmpty(h, e) <==> ContainsNonEmpty(g, e) && (e.index == 0 || L(g, e).stamp <= stamp)
  {
    if In(h, e) { LabelAtEmpty(g, stamp, e); }
  }

  lemma LabelAtEmpty(g: Graph, stamp: nat, e: Event)
    requires In(g, e)
    ensures LabelAt(g, stamp, |g|, 0, e).kind.Empty? <==> L(g, e).kind.Empty?
  {}

  /** Each thread is as long as the prefix view says. */
  lemma DepCutLength(g: Graph, stamp: nat, h: Graph, c: Clock, t: nat)
    requires IsDepCut(g, stamp, h) && IsPrefixView(g, stamp, c) && t < |g| && |g[t]| > 0
    ensures |h[t]| == c.At(t) + 1
  {
    var top := Event(t, Top(g, stamp, t));
    if top.index >= 1 {
      assert InPrefix(g, stamp, top) && c.Has(top);
      HasAt(c, top);
    }
    if c.At(t) >= 1 {
      HasAt(c, Event(t, c.At(t)));
      assert InPrefix(g, stamp, Event(t, c.At(t)));
    }
  }

  lemma DepCutFields(g: Graph, stamp: nat, h: Graph, e: Event)
    requires IsDepCut(g, stamp, h) && In(h, e) && NoAbsent(g) && L(h, e).IsMemAccess()
    ensures In(g, e) && !Deleted(g, stamp, e) && L(h, e).rf == L(g, e).rf
    ensures L(h, e).IsRead() == L(g, e).IsRead() && L(h, e).IsWrite() == L(g, e).IsWrite()
    ensures L(h, e).IsWrite() ==>
              forall r :: r in L(h, e).readers <==>
                          r in L(g, e).readers && !(Deleted(g, stamp, r) && IsReadAt(g, r) && L(g, r).rf == e)
  {
    forall r
      ensures GoneReader(g, stamp, |g|, 0, e, r) <==> Deleted(g, stamp, r) && IsReadAt(g, r) && L(g, r).rf == e
    {}
  }

  lemma DepCutKeeps(g: Graph, stamp: nat, h: Graph, e: Event)
    requires IsDepCut(g, stamp, h) && In(g, e) && !Deleted(g, stamp, e)
    ensures In(h, e)
    ensures L(h, e).IsRead() == L(g, e).IsRead() && L(h, e).IsWrite() == L(g, e).IsWrite() && L(h, e).rf == L(g, e).rf
  {}

  lemma DepCutReaders(g: Graph, stamp: nat, h: Graph, w: Event, r: Event)
    requires IsDepCut(g, stamp, h) && ReadersRead(g) && NoAbsent(g) && IsWriteAt(h, w) && r in L(h, w).readers
    ensures IsReadAt(h, r) && L(h, r).rf == w && !Deleted(g, stamp, r)
  {
    DepCutFields(g, stamp, h, w);
    assert IsWriteAt(g, w) && r in L(g, w).readers;
    assert IsReadAt(g, r) && L(g, r).rf == w;
    hide IsDepCut, ReadersRead;
    DepCutKeeps(g, stamp, h, r);
  }

  lemma DepCutReads(g: Graph, stamp: nat, h: Graph, e: Event)
    requires IsDepCut(g, stamp, h) && RfInverse(g) && RfClosedPrefix(g, stamp, Bottom)
    requires IsReadAt(h, e) && L(h, e).rf != Bottom && In(g, Initializer)
    ensures RfTarget(h, L(h, e).rf) && (IsWriteAt(h, L(h, e).rf) ==> e in L(h, L(h, e).rf).readers)
  {
    DepCutFields(g, stamp, h, e);
    var rf := L(h, e).rf;
    assert IsReadAt(g, e) && e != Bottom && e.index >= 1;
    assert RfTarget(g, rf) && (IsWriteAt(g, rf) ==> e in L(g, rf).readers);
    assert InPrefix(g, stamp, e);
    hide RfInverse, IsDepCut, RfClosedPrefix;
    assert !Deleted(g, stamp, rf) by { PrefixKeepsRf(g, stamp, e); }
    DepCutKeeps(g, stamp, h, rf);
    if IsWriteAt(h, rf) { DepCutWrite(g, stamp, h, rf, e); }
  }

  lemma PrefixKeepsRf(g: Graph, stamp: nat, e: Event)
    requires RfClosedPrefix(g, stamp, Bottom) && IsReadAt(g, e) && InPrefix(g, stamp, e) && L(g, e).rf != Bottom
    ensures !Deleted(g, stamp, L(g, e).rf)
  {
    assert e != Bottom;
  }

  lemma DepCutWrite(g: Graph, stamp: nat, h: Graph, w: Event, r: Event)
    requires IsDepCut(g, stamp, h) && NoAbsent(g) && IsWriteAt(h, w) && IsWriteAt(g, w)
    requires r in L(g, w).readers && !Deleted(g, stamp, r)
    ensures r in L(h, w).readers
  {
    DepCutFields(g, stamp, h, w);
  }

  /** At stamps closed under reads-from the cut keeps reads-from and reader lists mutually inverse. */
  lemma DepCutKeepsInverse(g: Graph, stamp: nat, h: Graph)
    requires IsDepCut(g, stamp, h) && RfInverse(g) && RfClosedPrefix(g, stamp, Bottom) && In(g, Initializer)
    ensures RfInverse(h)
  {
    forall e | In(h, e) ensures L(h, e).pos == e && !L(h, e).kind.Absent? && (e.index == 0 ==> !L(h, e).IsMemAccess()) {
      LabelAtPresent(g, stamp, |g|, 0, e);
    }
    hide IsDepCut, RfClosedPrefix, Positioned, NoAbsent, ReadsListed, ReadersRead;
    forall e | IsReadAt(h, e) && L(h, e).rf != Bottom
      ensures RfTarget(h, L(h, e).rf) && (IsWriteAt(h, L(h, e).rf) ==> e in L(h, L(h, e).rf).readers)
    {
      DepCutReads(g, stamp, h, e);
    }
    forall w, r | IsWriteAt(h, w) && r in L(h, w).readers ensures IsReadAt(h, r) && L(h, r).rf == w {
      DepCutReaders(g, stamp, h, w, r);
    }
  }

  // ----- the two cuts agree when stamps follow program order -----

  /** The joins reset are those whose finish is gone, whichever way the links are followed. */
  ghost predicate JoinsAgree(g: Graph, stamp: nat) {
    forall e :: In(g, e) && KeptBy(g, stamp, e) && L(g, e).kind.ThreadJoin? ==>
                  (KeptBy(g, stamp, L(g, e).kind.childLast) <==> !exists f :: GoneFinish(g, stamp, |g|, 0, e, f))
  }

  lemma DeletedIffNotKept(g: Graph, stamp: nat, e: Event)
    requires Begun(g) && ThreadsIncrease(g) && In(g, e)
    ensures Deleted(g, stamp, e) <==> !KeptBy(g, stamp, e)
  {
    CutKeepsPrefix(g, stamp, e);
    CutAt(g, stamp);
  }

  lemma CutLabelsAgree(g: Graph, stamp: nat, e: Event)
    requires Begun(g) && ThreadsIncrease(g) && RfInverse(g) && JoinsAgree(g, stamp) && In(g, e) && KeptBy(g, stamp, e)
    ensures LabelAt(g, stamp, |g|, 0, e) == CutLabel(g, stamp, L(g, e))
  {
    if L(g, e).IsWrite() {
      forall r | r in L(g, e).readers
        ensures !GoneReader(g, stamp, |g|, 0, e, r) <==> KeptBy(g, stamp, r)
      {
        assert IsWriteAt(g, e) && IsReadAt(g, r) && L(g, r).rf == e;
        DeletedIffNotKept(g, stamp, r);
      }
      KeepAgrees(L(g, e).readers, r => !GoneReader(g, stamp, |g|, 0, e, r), r => KeptBy(g, stamp, r));
    }
  }

  /** With stamps increasing along threads the cut for dependency graphs is the plain cut. */
  lemma CutsAgree(g: Graph, stamp: nat, h: Graph)
    requires Begun(g) && ThreadsIncrease(g) && RfInverse(g) && JoinsAgree(g, stamp) && IsDepCut(g, stamp, h)
    ensures h == Cut(g, stamp)
  {
    CutAt(g, stamp);
    var c := Cut(g, stamp);
    forall t | 0 <= t < |g| ensures h[t] == c[t] {
      assert |c[t]| == |h[t]|;
      forall j | 0 <= j < |h[t]| ensures h[t][j] == c[t][j] {
        var e := Event(t, j);
        assert In(h, e) && In(c, e) && L(h, e) == h[t][j] && L(c, e) == c[t][j];
        DeletedIffNotKept(g, stamp, e);
        CutLabelsAgree(g, stamp, e);
      }
    }
  }
}
