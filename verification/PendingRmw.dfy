/** The read-modify-write competing with a new one for the same write: reader list or full scan. */
module PendingRmw {
  import opened Events
  import opened Graphs

  /** isRMWLoad: the read half of a read-modify-write whose write half is there. */
  predicate IsRmwLoad(g: Graph, e: Event) {
    In(g, e) && L(g, e).IsRmwReadKind() && In(g, e.Next()) && L(g, e.Next()).IsRmwStore() &&
        L(g, e.Next()).addr == L(g, e).addr
  }

  /** Another read-modify-write that reads the same write, at the same address. */
  predicate Competes(g: Graph, p: Event, r: Event)
    requires In(g, p)
  {
    IsReadAt(g, r) && L(g, r).rf == L(g, p).rf && L(g, r).addr == L(g, p).addr && r != p && IsRmwLoad(g, r)
  }

  /** e is the competing read with the smallest stamp in the whole graph, or the initialiser. */
  ghost predicate IsEarliestCompetitor(g: Graph, p: Event, e: Event)
    requires In(g, p)
  {
    if exists r :: Competes(g, p, r) then Competes(g, p, e) && forall r :: Competes(g, p, r) ==>
        L(g, e).stamp <= L(g, r).stamp
    else e == Initializer
  }

  /** Reads read writes of their own address. */
  ghost predicate SameAddress(g: Graph) {
    forall r :: IsReadAt(g, r) && L(g, r).rf != Bottom && IsWriteAt(g, L(g, r).rf) ==>
        L(g, L(g, r).rf).addr == L(g, r).addr
  }

  lemma EarliestUnique(g: Graph, p: Event, e1: Event, e2: Event)
    requires In(g, p) && StampsDistinct(g) && NoAbsent(g) && IsEarliestCompetitor(g, p, e1)
    requires IsEarliestCompetitor(g, p, e2)
    ensures e1 == e2
  {}

  /** The readers of the write read are all there is to look at. */
  lemma ReaderListComplete(g: Graph, p: Event, r: Event)
    requires RfInverse(g) && SameAddress(g) && IsReadAt(g, p) && L(g, p).rf != Bottom && IsWriteAt(g, L(g, p).rf)
    ensures r in L(g, L(g, p).rf).readers && IsRmwLoad(g, r) && r != p <==> Competes(g, p, r)
  {
    hide Positioned, NoAbsent;
    var w := L(g, p).rf;
    if r in L(g, w).readers { assert IsReadAt(g, r) && L(g, r).rf == w; }
  }

  method GetMinimumStampEvent(g: Graph, es: seq<Event>) returns (e: Event)
    requires forall x :: x in es ==> In(g, x)
    ensures if es == [] then e == Initializer else e in es && forall x :: x in es ==> L(g, e).stamp <= L(g, x).stamp
  {
    if es == [] { return Initializer; }
    e := es[0];
    var i := 1;
    while i < |es|
      invariant 1 <= i <= |es| && e in es
      invariant forall k :: 0 <= k < i ==> L(g, e).stamp <= L(g, es[k]).stamp
    {
      if L(g, es[i]).stamp < L(g, e).stamp { e := es[i]; }
      i := i + 1;
    }
  }

  /** The competing read-modify-writes found among the readers of a write. */
  method AmongReaders(g: Graph, p: Event) returns (pending: seq<Event>)
    requires RfInverse(g) && SameAddress(g) && IsReadAt(g, p) && L(g, p).rf != Bottom && IsWriteAt(g, L(g, p).rf)
    ensures forall r :: r in pending <==> Competes(g, p, r)
  {
    pending := [];
    var readers := L(g, L(g, p).rf).readers;
    forall r ensures r in readers && IsRmwLoad(g, r) && r != p <==> Competes(g, p, r) { ReaderListComplete(g, p, r); }
    hide RfInverse, SameAddress, Competes;
    var i := 0;
    while i < |readers|
      invariant 0 <= i <= |readers|
      invariant forall r :: r in pending <==> r in readers[..i] && IsRmwLoad(g, r) && r != p
    {
      if IsRmwLoad(g, readers[i]) && readers[i] != p {
        pending := pending + [readers[i]];
      }
      i := i + 1;
    }
    assert readers[..i] == readers;
  }

  /** The competing read-modify-writes found by scanning the graph. */
  method AmongAll(g: Graph, p: Event) returns (pending: seq<Event>)
    requires In(g, p) && Positioned(g)
    ensures forall r :: r in pending <==> Competes(g, p, r)
  {
    pending := [];
    var t := 0;
    while t < |g|
      invariant 0 <= t <= |g|
      invariant forall r :: r in pending <==> Competes(g, p, r) && r.thread < t
    {
      var j := 0;
      while j < |g[t]|
        invariant 0 <= j <= |g[t]|
        invariant forall r :: r in pending <==> Competes(g, p, r) && (r.thread < t || (r.thread == t && r.index < j))
      {
        var e := Event(t, j);
        assert forall r: Event :: r.thread == t && r.index < j + 1 ==> r == e || r.index < j;
        if Competes(g, p, e) {
          pending := pending + [e];
        }
        j := j + 1;
      }
      t := t + 1;
    }
  }

  /** The reader list, where there is one, gives the same answer as the full scan. */
  method GetPendingRMW(g: Graph, s: Event) returns (e: Event)
    requires RfInverse(g) && SameAddress(g) && In(g, s)
    requires L(g, s).IsRmwStore() ==> IsReadAt(g, s.Prev()) && L(g, s.Prev()).rf != Bottom
    ensures if L(g, s).IsRmwStore() then IsEarliestCompetitor(g, s.Prev(), e) else e == Initializer
  {
    // not a read-modify-write
    if !L(g, s).IsRmwStore() { return Initializer; }
    var p := s.Prev();
    var pending;
    if !L(g, p).rf.IsInitializer() {
      assert IsWriteAt(g, L(g, p).rf) by { NotInitial(g, p); }
      pending := AmongReaders(g, p);
    } else {
      pending := AmongAll(g, p);
    }
    e := GetMinimumStampEvent(g, pending);
    if pending != [] { assert pending[0] in pending; }
  }

  lemma NotInitial(g: Graph, p: Event)
    requires RfInverse(g) && IsReadAt(g, p) && L(g, p).rf != Bottom && L(g, p).rf != Initializer
    ensures IsWriteAt(g, L(g, p).rf)
  {
    assert RfTarget(g, L(g, p).rf);
  }
}
