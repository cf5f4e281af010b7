/** The vector clock with holes, updated in place. */
module DepViews {
  import opened Events
  import opened Clocks

  class DepView {
    var view: seq<int>
    var holes: seq<set<int>>

    /** The hole view never lags behind the index view: both grow on access. */
    ghost predicate Valid()
      reads this
    {
      |view| <= |holes|
    }

    function Snapshot(): Clock
      reads this
    {
      Clock(view, holes)
    }

    predicate Contains(e: Event)
      reads this
    {
      && 0 <= e.thread < |view| && e.index <= view[e.thread]
      && e.thread < |holes| && e.index !in holes[e.thread]
    }

    constructor ()
      ensures Valid() && Snapshot() == EmptyClock
    {
      view, holes := [], [];
    }

    constructor Copy(c: Clock)
      requires c.Wf()
      ensures Valid() && Snapshot() == c
    {
      view, holes := c.view, c.holes;
    }

    /** Writing access: both maps are grown first. */
    method SetIndex(t: nat, i: int)
      requires Valid()
      modifies this
      ensures Valid() && Snapshot() == old(Snapshot()).WithIndex(t, i)
    {
      holes := GrownTo(holes, t, {});
      view := GrownTo(view, t, 0)[t := i];
    }

    method AddHole(e: Event)
      requires Valid() && 0 <= e.thread && e.index <= Snapshot().At(e.thread)
      modifies this
      ensures Valid() && Snapshot() == old(Snapshot()).WithHole(e)
      ensures forall t :: Snapshot().At(t) == old(Snapshot()).At(t)
      ensures forall t, h :: h in Snapshot().HolesAt(t) <==>
                             h in old(Snapshot()).HolesAt(t) || (t == e.thread && h == e.index)
      ensures forall x :: Snapshot().Has(x) <==> old(Snapshot()).Has(x) && x != e
    {
      view := GrownTo(view, e.thread, 0);
      holes := GrownTo(holes, e.thread, {});
      holes := holes[e.thread := holes[e.thread] + {e.index}];
      ghost var was, now := old(Snapshot()), Snapshot();
      forall x ensures now.Has(x) <==> was.Has(x) && x != e {
        HasAt(was, x); HasAt(now, x);
      }
    }

    method AddHolesInRange(start: Event, endIdx: int)
      requires Valid() && 0 <= start.thread && (start.index < endIdx ==> endIdx - 1 <= Snapshot().At(start.thread))
      modifies this
      ensures Valid() && forall t :: Snapshot().At(t) == old(Snapshot()).At(t)
      ensures forall t, h :: h in Snapshot().HolesAt(t) <==>
                             h in old(Snapshot()).HolesAt(t) || (t == start.thread && start.index <= h < endIdx)
      ensures forall x :: Snapshot().Has(x) <==>
                          old(Snapshot()).Has(x) && !(x.thread == start.thread && start.index <= x.index < endIdx)
    {
      var i := start.index;
      while i < endIdx
        invariant start.index <= i && (i <= endIdx || i == start.index)
        invariant Valid() && forall t :: Snapshot().At(t) == old(Snapshot()).At(t)
        invariant forall t, h :: h in Snapshot().HolesAt(t) <==>
                                 h in old(Snapshot()).HolesAt(t) || (t == start.thread && start.index <= h < i)
      {
        AddHole(Event(start.thread, i));
        i := i + 1;
      }
      ghost var was, now := old(Snapshot()), Snapshot();
      forall x ensures now.Has(x) <==> was.Has(x) && !(x.thread == start.thread && start.index <= x.index < endIdx) {
        HasAt(was, x); HasAt(now, x);
      }
    }

    method RemoveHole(e: Event)
      requires Valid() && 0 <= e.thread
      modifies this
      ensures Valid() && Snapshot() == old(Snapshot()).WithoutHole(e)
      ensures forall t :: Snapshot().At(t) == old(Snapshot()).At(t)
      ensures old(Snapshot().Tight()) ==> Snapshot().Tight()
      ensures forall x :: Snapshot().Has(x) <==>
                          old(Snapshot()).Has(x) || (x == e && 1 <= x.index <= Snapshot().At(x.thread))
    {
      holes := GrownTo(holes, e.thread, {});
      holes := holes[e.thread := holes[e.thread] - {e.index}];
      ghost var was, now := old(Snapshot()), Snapshot();
      forall x ensures now.Has(x) <==> was.Has(x) || (x == e && 1 <= x.index <= now.At(x.thread)) {
        HasAt(was, x); HasAt(now, x);
      }
    }

    method RemoveAllHoles(thread: nat)
      requires Valid()
      modifies this
      ensures Valid() && Snapshot() == old(Snapshot()).Cleared(thread)
      ensures forall t :: Snapshot().At(t) == old(Snapshot()).At(t)
      ensures old(Snapshot().Tight()) ==> Snapshot().Tight()
      ensures forall x :: Snapshot().Has(x) <==>
                          old(Snapshot()).Has(x) || (x.thread == thread && 1 <= x.index <= Snapshot().At(thread))
    {
      holes := GrownTo(holes, thread, {})[thread := {}];
      ghost var was, now := old(Snapshot()), Snapshot();
      forall x ensures now.Has(x) <==> was.Has(x) || (x.thread == thread && 1 <= x.index <= now.At(thread)) {
        HasAt(was, x); HasAt(now, x);
      }
    }

    /** Joins another clock into this one. */
    method Update(v: Clock)
      requires Valid() && v.Wf()
      modifies this
      ensures Valid() && Snapshot() == old(Snapshot()).Joined(v)
      ensures forall e :: Snapshot().Has(e) <==> old(Snapshot()).Has(e) || v.Has(e)
    {
      ghost var was := Snapshot();
      JoinedHas(was, v);
      if |v.view| == 0 {
        assert was.Joined(v) == was;
        return;
      }
      var i := 0;
      assert was.JoinedUpTo(v, 0) == was;
      while i < |v.view|
        invariant 0 <= i <= |v.view| && Valid()
        invariant Snapshot() == was.JoinedUpTo(v, i)
      {
        holes := GrownTo(holes, i, {});
        view := GrownTo(view, i, 0);
        var isec := holes[i] * v.holes[i];
        if view[i] < v.view[i] {
          isec := isec + set h | h in v.holes[i] && h > view[i];
          view := view[i := v.view[i]];
        } else {
          isec := isec + set h | h in holes[i] && h > v.view[i];
        }
        holes := holes[i := isec];
        JoinStep(was, v, i);
        i := i + 1;
      }
    }
  }

  /** One round of the update loop, on values. */
  lemma JoinStep(a: Clock, b: Clock, i: nat)
    requires a.Wf() && b.Wf() && i < |b.view|
    ensures var c := a.JoinedUpTo(b, i).Grown(i);
            a.JoinedUpTo(b, i + 1) ==
            Clock(c.view[i := Max(c.view[i], b.view[i])],
                  c.holes[i := c.holes[i] * b.holes[i] +
                               if c.view[i] < b.view[i] then set h | h in b.holes[i] && h > c.view[i]
                               else set h | h in c.holes[i] && h > b.view[i]])
  {
    var c := a.JoinedUpTo(b, i).Grown(i);
    assert c.view[i] == a.At(i) && c.holes[i] == a.HolesAt(i);
    assert b.At(i) == b.view[i] && b.HolesAt(i) == b.holes[i];
    assert a.JoinedUpTo(b, i + 1).view == c.view[i := Max(c.view[i], b.view[i])];
    assert a.JoinedUpTo(b, i + 1).holes == c.holes[i := a.JoinedHoles(b, i)];
  }
}
