/** At which stamps a graph comes apart cleanly: what is stamped below the bound holds together. */
module StampBounds {
  import opened Events
  import opened Graphs

  /** x is a begin, or stamped below n. */
  predicate Below(g: Graph, n: nat, x: Event) { In(g, x) && (x.index == 0 || L(g, x).stamp < n) }

  /** No label of x's thread after it is stamped up to n. */
  ghost predicate LastUpTo(g: Graph, n: nat, x: Event) {
    forall y :: In(g, y) && y.thread == x.thread && y.index > x.index ==> L(g, y).stamp > n
  }

  /** x refers, by reads-from, creation or join, to something that does not lie below n. */
  predicate Dangles(g: Graph, n: nat, x: Event)
    requires In(g, x)
  {
    match L(g, x).kind
    case ThreadStart(c) => x != Initializer && !Below(g, n, c)
    case ThreadJoin(_, f) => f != Initializer && !Below(g, n, f)
    case _ => false
  }

  /** The join at j is one that the finish at f points back to. */
  predicate JoinedBy(g: Graph, f: Event, j: Event) {
    In(g, f) && L(g, f).kind == ThreadFinish(j) && In(g, j) && L(g, j).kind.ThreadJoin?
  }

  /** Below n reads keep their writes, and a join or begin that loses its finish or creation ends its thread. */
  ghost predicate Whole(g: Graph, n: nat) {
    && (forall x :: IsReadAt(g, x) && Below(g, n, x) ==> L(g, x).rf == Bottom || Below(g, n, L(g, x).rf))
    && (forall x :: Below(g, n, x) && Dangles(g, n, x) ==> LastUpTo(g, n, x))
    && (forall f, j :: JoinedBy(g, f, j) && Below(g, n, j) && !Below(g, n, f) ==>
                         LastUpTo(g, n, j) && L(g, j).kind.childLast == f)
  }

  /** What x refers to is in the graph. */
  predicate Firm(g: Graph, x: Event)
    requires In(g, x)
  {
    match L(g, x).kind
    case ThreadStart(c) => x == Initializer || In(g, c)
    case ThreadJoin(_, f) => f == Initializer || In(g, f)
    case _ => true
  }

  /** The whole graph holds together. */
  ghost predicate Intact(g: Graph) {
    && (forall x :: IsReadAt(g, x) ==> L(g, x).rf == Bottom || In(g, L(g, x).rf))
    && (forall x :: In(g, x) && L(g, x).kind.ThreadStart? && x != Initializer && !In(g, L(g, x).kind.parentCreate) ==>
                      |g[x.thread]| == x.index + 1)
    && (forall x :: In(g, x) && L(g, x).kind.ThreadJoin? && L(g, x).kind.childLast != Initializer &&
                    !In(g, L(g, x).kind.childLast) ==>
                      |g[x.thread]| == x.index + 1)
  }

  lemma NewestWhole(g: Graph, n: nat)
    requires Intact(g) && Newest(g, n)
    ensures Whole(g, n)
  {
    assert forall x :: Below(g, n, x) <==> In(g, x);
  }

  /** Below n the two graphs are the same, as far as references go. */
  ghost predicate SameBelow(g: Graph, n: nat, h: Graph) {
    && (forall x :: Below(h, n, x) <==> Below(g, n, x))
    && (forall x :: Below(g, n, x) ==>
           L(h, x).kind == L(g, x).kind || (L(h, x).kind.ThreadFinish? && L(g, x).kind.ThreadFinish?))
    && (forall x :: Below(g, n, x) ==> L(h, x).rf == L(g, x).rf)
    && (forall f, j :: JoinedBy(h, f, j) && Below(h, n, j) && !Below(h, n, f) ==> JoinedBy(g, f, j) && !Below(g, n, f))
    && (forall x :: In(h, x) && x.index >= 1 && L(h, x).stamp <= n ==> In(g, x) && L(g, x).stamp <= n)
  }

  lemma SameBelowWhole(g: Graph, n: nat, h: Graph)
    requires Whole(g, n) && SameBelow(g, n, h)
    ensures Whole(h, n)
  {
    forall x | Below(h, n, x) ensures Dangles(h, n, x) <==> Dangles(g, n, x) {}
    forall x: Event | x.index >= 0 ensures LastUpTo(g, n, x) ==> LastUpTo(h, n, x) {}
    forall x | IsReadAt(h, x) && Below(h, n, x) ensures L(h, x).rf == Bottom || Below(h, n, L(h, x).rf) {
      assert IsReadAt(g, x);
    }
    forall f, j | JoinedBy(h, f, j) && Below(h, n, j) && !Below(h, n, f)
      ensures LastUpTo(h, n, j) && L(h, j).kind.childLast == f
    {
      assert JoinedBy(g, f, j);
    }
  }

  // ----- additions -----

  /** Nothing that does not end its thread dangles below the newest bound, and what the thread goes on from does not
      either. */
  lemma DanglesAtEnd(g: Graph, e: Event, n: nat, x: Event)
    requires Newest(g, n) && Below(g, n, x) && LastUpTo(g, n, x) && x.thread == e.thread && x.index < e.index
    requires In(g, e.Prev()) && Firm(g, e.Prev())
    ensures !Dangles(g, n, x)
  {
    assert L(g, e.Prev()).stamp > n || e.Prev().index <= x.index;
  }

  /** A label stamped after all others leaves what lies below the earlier bounds as it is, a begin apart. */
  lemma AppendedWhole(g: Graph, lab: Label, h: Graph, n: nat)
    requires Whole(g, n) && n <= lab.stamp && !In(g, lab.pos) && Newest(g, lab.stamp)
    requires forall x :: In(g, x) && x.thread == lab.pos.thread ==> x.index < lab.pos.index
    requires lab.pos.index > 0 ==> In(g, lab.pos.Prev()) && Firm(g, lab.pos.Prev())
    requires forall x :: In(h, x) <==> In(g, x) || x == lab.pos
    requires forall x :: In(h, x) ==> var l := if x == lab.pos then lab else L(g, x);
                                      L(h, x).kind == l.kind && L(h, x).stamp == l.stamp && L(h, x).rf == l.rf
    requires forall j :: !JoinedBy(h, lab.pos, j)
    requires lab.pos.index == 0 ==> lab.kind.ThreadStart? && forall x :: In(g, x) ==> x.thread != lab.pos.thread
    ensures Whole(h, n)
  {
    var e := lab.pos;
    forall x ensures Below(h, n, x) <==> Below(g, n, x) || (x == e && e.index == 0) {}
    forall x | Below(g, n, x) && LastUpTo(g, n, x) && (n < lab.stamp || x.thread != e.thread)
      ensures LastUpTo(h, n, x)
    {}
    forall x | IsReadAt(h, x) && Below(h, n, x) ensures L(h, x).rf == Bottom || Below(h, n, L(h, x).rf) {
      assert IsReadAt(g, x) && Below(g, n, x);
    }
    forall x | Below(h, n, x) && Dangles(h, n, x) ensures LastUpTo(h, n, x) {
      if x != e {
        assert Below(g, n, x) && Dangles(g, n, x);
        if n == lab.stamp && x.thread == e.thread { DanglesAtEnd(g, e, n, x); }
      }
    }
    forall f, j | JoinedBy(h, f, j) && Below(h, n, j) && !Below(h, n, f)
      ensures LastUpTo(h, n, j) && L(h, j).kind.childLast == f
    {
      assert j != e;
      if f != e { assert JoinedBy(g, f, j); }
    }
  }
}
