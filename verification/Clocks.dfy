/** Vector clocks as values: a plain view (downward closed) and a view with holes. */
module Clocks {
  import opened Events

  function Max(a: int, b: int): int { if a < b then b else a }

  function AtOr<T>(s: seq<T>, i: int, default: T): T {
    if 0 <= i < |s| then s[i] else default
  }

  /** The sequence grown so that index i exists, new cells holding the default value. */
  function GrownTo<T>(s: seq<T>, i: nat, default: T): (r: seq<T>)
    ensures |r| == if i < |s| then |s| else i + 1
    ensures forall j :: AtOr(r, j, default) == AtOr(s, j, default)
  {
    if i < |s| then s else s + seq(i + 1 - |s|, _ => default)
  }

  /** A plain view: the highest index seen in each thread, 0 when the thread is unknown. */
  datatype View = View(entries: seq<int>) {
    function At(t: int): int { AtOr(entries, t, 0) }

    predicate Contains(e: Event) { e.index <= At(e.thread) }

    predicate Has(e: Event) { 0 <= e.thread && 1 <= e.index <= At(e.thread) }

    function WithIndex(t: nat, i: int): View { View(GrownTo(entries, t, 0)[t := i]) }

    /** Pointwise maximum; an empty argument leaves the view as it is. */
    function Joined(v: View): View {
      View(seq(if |entries| < |v.entries| then |v.entries| else |entries|,
               t requires t >= 0 => Max(At(t), v.At(t))))
    }
  }

  const EmptyView: View := View([])

  lemma JoinedViewHas(a: View, b: View)
    ensures forall t :: a.Joined(b).At(t) == Max(a.At(t), b.At(t))
    ensures forall e :: a.Joined(b).Has(e) <==> a.Has(e) || b.Has(e)
  {}

  lemma WithIndexHas(v: View, t: nat, i: int)
    ensures forall u :: v.WithIndex(t, i).At(u) == if u == t then i else v.At(u)
  {}

  /** A view with holes: the highest index seen in each thread and the indices not seen below it. */
  datatype Clock = Clock(view: seq<int>, holes: seq<set<int>>) {
    predicate Wf() { |view| <= |holes| }

    function At(t: int): int { AtOr(view, t, 0) }

    function HolesAt(t: int): set<int> { AtOr(holes, t, {}) }

    predicate Contains(e: Event) {
      && 0 <= e.thread < |view| && e.index <= view[e.thread]
      && e.thread < |holes| && e.index !in holes[e.thread]
    }

    /** Membership as the rest of the model uses it: begin events (index 0) are left implicit. */
    predicate Has(e: Event) { e.index >= 1 && Contains(e) }

    /** Entries are never negative, and the highest index recorded for a thread is itself a member. */
    ghost predicate Tight() {
      forall t :: At(t) >= 0 && (At(t) >= 1 ==> At(t) !in HolesAt(t))
    }

    function Grown(t: nat): Clock { Clock(GrownTo(view, t, 0), GrownTo(holes, t, {})) }

    function WithIndex(t: nat, i: int): Clock {
      var g := Grown(t); Clock(g.view[t := i], g.holes)
    }

    function WithHole(e: Event): Clock
      requires 0 <= e.thread
    {
      var g := Grown(e.thread);
      Clock(g.view, g.holes[e.thread := g.holes[e.thread] + {e.index}])
    }

    /** Removing holes grows the hole view only. */
    function WithHoles(t: nat, hs: set<int>): Clock {
      Clock(view, GrownTo(holes, t, {})[t := hs])
    }

    function WithoutHole(e: Event): Clock
      requires 0 <= e.thread
    {
      WithHoles(e.thread, HolesAt(e.thread) - {e.index})
    }

    function Cleared(t: nat): Clock { WithHoles(t, {}) }

    /** The hole set of one thread after a join. */
    function JoinedHoles(v: Clock, t: int): set<int> {
      HolesAt(t) * v.HolesAt(t) +
      if At(t) < v.At(t) then set h | h in v.HolesAt(t) && h > At(t)
      else set h | h in HolesAt(t) && h > v.At(t)
    }

    /** The first n threads joined, the others grown but untouched. */
    function JoinedUpTo(v: Clock, n: nat): Clock {
      var nv := if |view| < n then n else |view|;
      var nh := if |holes| < n then n else |holes|;
      Clock(seq(nv, t requires t >= 0 => if t < n then Max(At(t), v.At(t)) else At(t)),
            seq(nh, t requires t >= 0 => if t < n then JoinedHoles(v, t) else HolesAt(t)))
    }

    function Joined(v: Clock): Clock {
      JoinedUpTo(v, |v.view|)
    }
  }

  const EmptyClock: Clock := Clock([], [])

  /** In a well-formed clock membership depends on the thread's entry and holes alone. */
  lemma HasAt(c: Clock, e: Event)
    requires c.Wf()
    ensures c.Has(e) <==> 0 <= e.thread && 1 <= e.index <= c.At(e.thread) && e.index !in c.HolesAt(e.thread)
  {}

  /** update() denotes set union, although equal sets may have different representations. */
  lemma JoinedHas(a: Clock, b: Clock)
    requires a.Wf() && b.Wf()
    ensures a.Joined(b).Wf()
    ensures forall e :: a.Joined(b).Has(e) <==> a.Has(e) || b.Has(e)
    ensures forall t :: a.Joined(b).At(t) == if 0 <= t < |b.view| then Max(a.At(t), b.At(t)) else a.At(t)
    ensures a.Tight() && b.Tight() ==> a.Joined(b).Tight()
  {
    var r := a.Joined(b);
    forall t
      ensures r.At(t) == if 0 <= t < |b.view| then Max(a.At(t), b.At(t)) else a.At(t)
      ensures r.HolesAt(t) == if 0 <= t < |b.view| then a.JoinedHoles(b, t) else a.HolesAt(t)
    {}
    forall e ensures r.Has(e) <==> a.Has(e) || b.Has(e) {
      HasAt(r, e); HasAt(a, e); HasAt(b, e);
    }
  }

  /** The set a clock denotes, as a relation: the same members. */
  ghost predicate Same(a: Clock, b: Clock) {
    forall e :: a.Has(e) <==> b.Has(e)
  }

  /** As set union, update is associative, commutative, idempotent and monotone on what clocks denote. */
  lemma JoinLaws(a: Clock, b: Clock, c: Clock)
    requires a.Wf() && b.Wf() && c.Wf()
    ensures Same(a.Joined(b.Joined(c)), a.Joined(b).Joined(c))
    ensures Same(a.Joined(b), b.Joined(a)) && Same(a.Joined(a), a)
    ensures (forall e :: b.Has(e) ==> c.Has(e)) ==> forall e :: a.Joined(b).Has(e) ==> a.Joined(c).Has(e)
  {
    JoinedHas(b, c);
    JoinedHas(a, b.Joined(c));
    JoinedHas(a, b);
    JoinedHas(a.Joined(b), c);
    JoinedHas(b, a);
    JoinedHas(a, a);
    JoinedHas(a, c);
  }

  /** Equal sets may be represented differently: a hole at the top, or an index of its own. */
  lemma NotCanonical()
    ensures exists a: Clock, b: Clock :: a.Wf() && b.Wf() && a != b && Same(a, b)
  {
    var a, b := Clock([1], [{1}]), Clock([0], [{}]);
    forall e ensures !a.Has(e) && !b.Has(e) {}
    assert a.Wf() && b.Wf() && a != b && Same(a, b);
  }
}
