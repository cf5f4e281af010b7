/** Cutting a graph back to a stamp, when stamps follow the order of addition. */
module CutSpec {
  import opened Events
  import opened Clocks
  import opened Graphs
  import opened RevisitSpec

  /** The last index of thread t stamped no later than `stamp`, or 0: begins are always kept. */
  function Top(g: Graph, stamp: nat, t: nat): (i: nat)
    requires t < |g|
    ensures i < |g[t]| || i == 0
  {
    LastIndex(g, t, |g[t]|, (lab: Label) => lab.stamp <= stamp)
  }

  /** e survives the cut. */
  predicate KeptBy(g: Graph, stamp: nat, e: Event) {
    0 <= e.thread < |g| && e.index <= Top(g, stamp, e.thread)
  }

  /** A surviving label: readers that are gone are dropped, a join whose finish is gone is reset. */
  function CutLabel(g: Graph, stamp: nat, lab: Label): Label {
    match lab.kind
    case ThreadJoin(c, f) => if KeptBy(g, stamp, f) then lab else lab.(kind := ThreadJoin(c, Initializer))
    case Write(_) => lab.(readers := Keep(lab.readers, r => KeptBy(g, stamp, r)))
    case _ => lab
  }

  function CutThread(g: Graph, stamp: nat, t: nat): seq<Label>
    requires t < |g| && |g[t]| > 0
  {
    seq(Top(g, stamp, t) + 1, j requires 0 <= j < Top(g, stamp, t) + 1 => CutLabel(g, stamp, g[t][j]))
  }

  function Cut(g: Graph, stamp: nat): Graph
    requires Begun(g)
  {
    seq(|g|, t requires 0 <= t < |g| => CutThread(g, stamp, t))
  }

  lemma CutAt(g: Graph, stamp: nat)
    requires Begun(g)
    ensures |Cut(g, stamp)| == |g| && Begun(Cut(g, stamp))
    ensures forall e :: In(Cut(g, stamp), e) <==> In(g, e) && KeptBy(g, stamp, e)
    ensures forall e :: In(Cut(g, stamp), e) ==> L(Cut(g, stamp), e) == CutLabel(g, stamp, L(g, e))
  {}

  // ----- what is kept -----

  /** With stamps increasing along threads a cut keeps exactly the begins and the events of the prefix. */
  lemma CutKeepsPrefix(g: Graph, stamp: nat, e: Event)
    requires Begun(g) && ThreadsIncrease(g)
    ensures In(Cut(g, stamp), e) <==> In(g, e) && (e.index == 0 || InPrefix(g, stamp, e))
  {
    CutAt(g, stamp);
    if In(g, e) && e.index >= 1 {
      var top := Event(e.thread, Top(g, stamp, e.thread));
      if KeptBy(g, stamp, e) && e != top { assert L(g, e).stamp < L(g, top).stamp; }
    }
  }

  // ----- composition -----

  function Earlier(s1: nat, s2: nat): nat { if s1 <= s2 then s1 else s2 }

  lemma {:induction false} TopOfCut(g: Graph, s1: nat, s2: nat, t: nat)
    requires Begun(g) && t < |g|
    ensures t < |Cut(g, s1)| && Top(Cut(g, s1), s2, t) == Top(g, Earlier(s1, s2), t)
  {
    CutAt(g, s1);
    var h, s := Cut(g, s1), Earlier(s1, s2);
    var a, b := Top(h, s2, t), Top(g, s, t);
    forall j | 0 <= j < |h[t]| ensures h[t][j].stamp == g[t][j].stamp {
      assert In(h, Event(t, j));
      assert L(h, Event(t, j)) == h[t][j];
    }
    if a < b {
      assert false;
    } else if b < a {
      assert false;
    }
  }

  lemma KeptTwice(g: Graph, s1: nat, s2: nat, e: Event)
    requires Begun(g)
    ensures KeptBy(Cut(g, s1), s2, e) && KeptBy(g, s1, e) <==> KeptBy(g, Earlier(s1, s2), e)
  {
    CutAt(g, s1);
    if 0 <= e.thread < |g| {
      TopOfCut(g, s1, s2, e.thread);
      TopMonotone(g, Earlier(s1, s2), s1, e.thread);
    }
  }

  lemma TopMonotone(g: Graph, s1: nat, s2: nat, t: nat)
    requires s1 <= s2 && t < |g|
    ensures Top(g, s1, t) <= Top(g, s2, t)
  {
    var a, b := Top(g, s1, t), Top(g, s2, t);
    if b < a { assert false; }
  }

  lemma {:induction false} KeepTwice<T(!new)>(s: seq<T>, p: T -> bool, q: T -> bool, r: T -> bool)
    requires forall x :: x in s ==> (p(x) && q(x) <==> r(x))
    ensures Keep(Keep(s, p), q) == Keep(s, r)
  {
    if s != [] {
      KeepTwice(s[1..], p, q, r);
      if p(s[0]) { assert ([s[0]] + Keep(s[1..], p))[1..] == Keep(s[1..], p); }
    }
  }

  lemma CutLabelTwice(g: Graph, s1: nat, s2: nat, lab: Label)
    requires Begun(g) && |g| > 0
    ensures CutLabel(Cut(g, s1), s2, CutLabel(g, s1, lab)) == CutLabel(g, Earlier(s1, s2), lab)
  {
    CutAt(g, s1);
    match lab.kind
    case ThreadJoin(c, f) =>
      KeptTwice(g, s1, s2, f);
    case Write(_) =>
      forall r ensures KeptBy(g, s1, r) && KeptBy(Cut(g, s1), s2, r) <==> KeptBy(g, Earlier(s1, s2), r) {
        KeptTwice(g, s1, s2, r);
      }
      KeepTwice(lab.readers, r => KeptBy(g, s1, r), r => KeptBy(Cut(g, s1), s2, r), r => KeptBy(g, Earlier(s1, s2), r));
    case _ =>
  }

  /** Cutting twice is cutting once to the smaller stamp: events, reader lists and joins alike. */
  lemma CutComposes(g: Graph, s1: nat, s2: nat)
    requires Begun(g)
    ensures Begun(Cut(g, s1)) && Cut(Cut(g, s1), s2) == Cut(g, Earlier(s1, s2))
  {
    CutAt(g, s1);
    var h, one := Cut(g, s1), Cut(g, Earlier(s1, s2));
    var two := Cut(h, s2);
    CutAt(h, s2);
    CutAt(g, Earlier(s1, s2));
    forall t | 0 <= t < |g| ensures two[t] == one[t] {
      TopOfCut(g, s1, s2, t);
      forall j | 0 <= j < |one[t]| ensures two[t][j] == one[t][j] {
        var e := Event(t, j);
        KeptTwice(g, s1, s2, e);
        CutLabelTwice(g, s1, s2, L(g, e));
        assert L(two, e) == L(one, e);
      }
    }
  }

  // ----- the invariant -----

  /** The read's write survives if the read does. */
  ghost predicate CutClosed(g: Graph, stamp: nat) {
    forall x :: IsReadAt(g, x) && KeptBy(g, stamp, x) && L(g, x).rf != Bottom ==> KeptBy(g, stamp, L(g, x).rf)
  }

  lemma CutFields(g: Graph, stamp: nat, e: Event)
    requires Begun(g) && In(Cut(g, stamp), e)
    ensures In(g, e) && KeptBy(g, stamp, e)
    ensures var l, m := L(g, e), L(Cut(g, stamp), e);
            && m.pos == l.pos && m.rf == l.rf && m.kind.Absent? == l.kind.Absent?
            && m.IsRead() == l.IsRead() && m.IsWrite() == l.IsWrite()
            && (m.IsWrite() ==> forall r :: r in m.readers <==> r in l.readers && KeptBy(g, stamp, r))
  {
    CutAt(g, stamp);
  }

  lemma CutReads(g: Graph, stamp: nat)
    requires RfInverse(g) && Begun(g) && CutClosed(g, stamp)
    ensures ReadsListed(Cut(g, stamp), Bottom)
  {
    CutAt(g, stamp);
    var h := Cut(g, stamp);
    hide Cut, CutLabel, KeptBy, Positioned, NoAbsent;
    forall e | IsReadAt(h, e) && L(h, e).rf != Bottom
      ensures RfTarget(h, L(h, e).rf) && (IsWriteAt(h, L(h, e).rf) ==> e in L(h, L(h, e).rf).readers)
    {
      CutFields(g, stamp, e);
      var rf := L(h, e).rf;
      assert IsReadAt(g, e) && RfTarget(g, rf) && In(h, rf);
      CutFields(g, stamp, rf);
    }
  }

  lemma CutShape(g: Graph, stamp: nat)
    requires Positioned(g) && NoAbsent(g) && Begun(g)
    ensures Positioned(Cut(g, stamp)) && NoAbsent(Cut(g, stamp))
  {
    forall e | In(Cut(g, stamp), e)
      ensures L(Cut(g, stamp), e).pos == e && !L(Cut(g, stamp), e).kind.Absent? &&
              (e.index == 0 ==> !L(Cut(g, stamp), e).IsMemAccess())
    {
      CutFields(g, stamp, e);
    }
  }

  lemma CutReaderKept(g: Graph, stamp: nat, w: Event, r: Event)
    requires ReadersRead(g) && Begun(g)
    requires IsWriteAt(Cut(g, stamp), w) && r in L(Cut(g, stamp), w).readers
    ensures IsReadAt(Cut(g, stamp), r) && L(Cut(g, stamp), r).rf == w
  {
    CutFields(g, stamp, w);
    assert IsWriteAt(g, w) && r in L(g, w).readers;
    assert IsReadAt(g, r) && L(g, r).rf == w;
    CutAt(g, stamp);
    hide ReadersRead, Cut, CutLabel, KeptBy;
    CutFields(g, stamp, r);
  }

  lemma CutReaders(g: Graph, stamp: nat)
    requires ReadersRead(g) && Begun(g)
    ensures ReadersRead(Cut(g, stamp))
  {
    hide Cut;
    forall w, r | IsWriteAt(Cut(g, stamp), w) && r in L(Cut(g, stamp), w).readers
      ensures IsReadAt(Cut(g, stamp), r) && L(Cut(g, stamp), r).rf == w
    {
      CutReaderKept(g, stamp, w, r);
    }
  }

  /** At stamps closed under reads-from the cut keeps reads-from and reader lists mutually inverse. */
  lemma CutKeepsInverse(g: Graph, stamp: nat)
    requires RfInverse(g) && Begun(g) && CutClosed(g, stamp)
    ensures RfInverse(Cut(g, stamp))
  {
    CutReads(g, stamp);
    CutShape(g, stamp);
    CutReaders(g, stamp);
  }

  // ----- the cut under way -----

  /** Threads below n are shortened. */
  ghost predicate Shortened(g: Graph, stamp: nat, h: Graph, n: int)
    requires Begun(g)
  {
    |h| == |g| && forall t :: 0 <= t < |g| ==> h[t] == if t < n then g[t][..Top(g, stamp, t) + 1] else g[t]
  }

  /** All threads are shortened, and the labels before (n, m) brought up to date. */
  ghost predicate CutUpTo(g: Graph, stamp: nat, h: Graph, n: int, m: int)
    requires Begun(g)
  {
    && |h| == |g|
    && (forall t :: 0 <= t < |g| ==> |h[t]| == Top(g, stamp, t) + 1)
    && (forall e :: In(h, e) ==>
                      L(h, e) == if e.thread < n ||
                          (e.thread == n && e.index < m) then CutLabel(g, stamp, L(g, e)) else L(g, e))
  }

  lemma ShortenedIsCutUpTo(g: Graph, stamp: nat, h: Graph)
    requires Begun(g) && Shortened(g, stamp, h, |h|)
    ensures CutUpTo(g, stamp, h, 0, 0)
  {}

  lemma CutUpToStep(g: Graph, stamp: nat, h: Graph, n: nat, m: nat, lab: Label)
    requires Begun(g) && CutUpTo(g, stamp, h, n, m) && In(h, Event(n, m))
    requires In(g, Event(n, m)) && lab == CutLabel(g, stamp, L(g, Event(n, m)))
    ensures CutUpTo(g, stamp, Set(h, Event(n, m), lab), n, m + 1)
  {
    hide CutLabel;
    SetAt(h, Event(n, m), lab);
  }

  lemma CutUpToThread(g: Graph, stamp: nat, h: Graph, n: nat, m: nat)
    requires Begun(g) && CutUpTo(g, stamp, h, n, m) && n < |g|
    ensures |h| == |g| && |h[n]| == Top(g, stamp, n) + 1
    ensures m < |h[n]| ==> In(g, Event(n, m)) && L(h, Event(n, m)) == L(g, Event(n, m))
  {}

  /** Lengths do not depend on how far the update has got. */
  lemma CutUpToLength(g: Graph, stamp: nat, h: Graph, n: nat, m: nat, t: nat)
    requires Begun(g) && CutUpTo(g, stamp, h, n, m) && t < |g|
    ensures |h| == |g| && |h[t]| == Top(g, stamp, t) + 1
  {}

  lemma CutUpToNext(g: Graph, stamp: nat, h: Graph, n: nat)
    requires Begun(g) && n < |g| && CutUpTo(g, stamp, h, n, Top(g, stamp, n) + 1)
    ensures CutUpTo(g, stamp, h, n + 1, 0)
  {}

  lemma CutUpToIsCut(g: Graph, stamp: nat, h: Graph)
    requires Begun(g) && CutUpTo(g, stamp, h, |h|, 0)
    ensures h == Cut(g, stamp)
  {
    CutAt(g, stamp);
    forall t | 0 <= t < |g| ensures h[t] == Cut(g, stamp)[t] {
      forall j | 0 <= j < |h[t]| ensures h[t][j] == Cut(g, stamp)[t][j] {
        assert In(h, Event(t, j)) && L(h, Event(t, j)) == h[t][j];
      }
    }
  }
}
