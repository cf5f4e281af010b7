/** The graph's own sanity check, and the invariant it stands for. */
module Validation {
  import opened Events
  import opened Graphs
  import opened PendingRmw

  ghost predicate ReadOk(g: Graph, e: Event) {
    IsReadAt(g, e) && L(g, e).rf != Bottom ==>
      && ContainsNonEmpty(g, L(g, e).rf)
      && (IsWriteAt(g, L(g, e).rf) ==> e in L(g, L(g, e).rf).readers)
  }

  ghost predicate AtomicAt(g: Graph, w: Event) {
    IsWriteAt(g, w) && L(g, w).IsRmwStore() ==> |Keep(L(g, w).readers, r => IsRmwLoad(g, r))| <= 1
  }

  ghost predicate ReadersOk(g: Graph, w: Event) {
    IsWriteAt(g, w) ==> forall r :: r in L(g, w).readers ==> ContainsNonEmpty(g, r) && IsReadAt(g, r) && L(g, r).rf == w
  }

  ghost predicate LabelOk(g: Graph, e: Event) { ReadOk(g, e) && AtomicAt(g, e) && ReadersOk(g, e) }

  /** No write of a read-modify-write is read by two others. */
  ghost predicate Atomic(g: Graph) { forall w :: In(g, w) ==> AtomicAt(g, w) }

  /** The only label that is not a write and still read from is the initialiser. */
  ghost predicate OnlyWritesRead(g: Graph) {
    forall e :: IsReadAt(g, e) && L(g, e).rf != Bottom && In(g, L(g, e).rf) && !IsWriteAt(g, L(g, e).rf) ==>
                  L(g, e).rf == Initializer
  }

  lemma InverseReadersOk(g: Graph, w: Event)
    requires ReadersRead(g)
    ensures ReadersOk(g, w)
  {
    if IsWriteAt(g, w) {
      forall r | r in L(g, w).readers ensures IsReadAt(g, r) && L(g, r).rf == w && ContainsNonEmpty(g, r) {}
    }
  }

  /** validate() accepts a graph exactly if reads-from and reader lists are inverse and read-modify-writes atomic. */
  lemma ValidIffInverse(g: Graph)
    requires Positioned(g) && NoAbsent(g) && OnlyWritesRead(g) && In(g, Initializer) && !L(g, Initializer).kind.Empty?
    ensures (forall e :: In(g, e) ==> LabelOk(g, e)) <==> RfInverse(g) && Atomic(g)
  {
    hide AtomicAt;
    if RfInverse(g) && Atomic(g) {
      forall e | In(g, e) ensures LabelOk(g, e) {
        if IsReadAt(g, e) && L(g, e).rf != Bottom {
          assert e != Bottom && RfTarget(g, L(g, e).rf);
        }
        assert ReadOk(g, e);
        InverseReadersOk(g, e);
      }
    }
    if forall e :: In(g, e) ==> LabelOk(g, e) {
      forall e | IsReadAt(g, e) && L(g, e).rf != Bottom
        ensures RfTarget(g, L(g, e).rf) && (IsWriteAt(g, L(g, e).rf) ==> e in L(g, L(g, e).rf).readers)
      {
        assert LabelOk(g, e);
      }
      forall w, r | IsWriteAt(g, w) && r in L(g, w).readers ensures IsReadAt(g, r) && L(g, r).rf == w {
        assert LabelOk(g, w);
      }
    }
  }

  method ValidateLabel(g: Graph, e: Event) returns (ok: bool)
    requires In(g, e)
    ensures ok <==> LabelOk(g, e)
  {
    var lab := L(g, e);
    if lab.IsRead() {
      if lab.rf.IsBottom() { return true; }
      if !ContainsNonEmpty(g, lab.rf) { return false; }
      return !IsWriteAt(g, lab.rf) || e in L(g, lab.rf).readers;
    }
    if lab.IsWrite() {
      if lab.IsRmwStore() && |Keep(lab.readers, r => IsRmwLoad(g, r))| > 1 { return false; }
      var i := 0;
      while i < |lab.readers|
        invariant 0 <= i <= |lab.readers|
        invariant forall k :: 0 <= k < i ==>
                                ContainsNonEmpty(g, lab.readers[k]) && IsReadAt(g, lab.readers[k]) &&
                                    L(g, lab.readers[k]).rf == e
      {
        var r := lab.readers[i];
        if !ContainsNonEmpty(g, r) || !IsReadAt(g, r) || L(g, r).rf != e { return false; }
        i := i + 1;
      }
    }
    return true;
  }

  /** validate(): every label of the graph is checked. */
  method Validate(g: Graph) returns (ok: bool)
    ensures ok <==> forall e :: In(g, e) ==> LabelOk(g, e)
  {
    hide LabelOk;
    var t := 0;
    while t < |g|
      invariant 0 <= t <= |g|
      invariant forall e :: In(g, e) && e.thread < t ==> LabelOk(g, e)
    {
      var j := 0;
      while j < |g[t]|
        invariant 0 <= j <= |g[t]|
        invariant forall e :: In(g, e) && (e.thread < t || (e.thread == t && e.index < j)) ==> LabelOk(g, e)
      {
        assert In(g, Event(t, j));
        ok := ValidateLabel(g, Event(t, j));
        if !ok { return false; }
        j := j + 1;
      }
      t := t + 1;
    }
    return true;
  }
}
