/** The execution graph as a mutable object. */
module ExecutionGraphs {
  import opened Events
  import opened Clocks
  import opened DepViews
  import opened Graphs
  import opened RevisitSpec
  import opened CutSpec

  class ExecutionGraph {
    var events: Graph
    var timestamp: nat

    /** A new graph has an entry for main, begun. */
    constructor ()
      ensures events == [[MainStart()]] && timestamp == 1
    {
      events, timestamp := [[MainStart()]], 1;
    }

    // ----- getters that scan one thread -----

    method GetLastThreadReleaseAtLoc(upperLimit: Event, addr: int) returns (e: Event)
      requires Limit(events, upperLimit)
      ensures e == LastReleaseAtLoc(events, upperLimit, addr)
    {
      var i := upperLimit.index - 1;
      while i > 0
        invariant i < upperLimit.index
        invariant i > 0 ==>
                      LastReleaseAtLoc(events, upperLimit, addr) == LastReleaseAtLoc(events,
                      Event(upperLimit.thread, i + 1), addr)
        invariant i <= 0 ==> LastReleaseAtLoc(events, upperLimit, addr) == Event(upperLimit.thread, 0)
      {
        var lab := events[upperLimit.thread][i];
        if lab.kind.ThreadCreate? || lab.kind.ThreadFinish? || lab.kind.UnlockLapor? {
          return Event(upperLimit.thread, i);
        }
        if lab.kind.Fence? && lab.AtLeastRelease() {
          return Event(upperLimit.thread, i);
        }
        if lab.IsWrite() && lab.AtLeastRelease() && lab.addr == addr {
          return Event(upperLimit.thread, i);
        }
        i := i - 1;
      }
      return Event(upperLimit.thread, 0);
    }

    method GetLastThreadRelease(upperLimit: Event) returns (e: Event)
      requires Limit(events, upperLimit)
      ensures e == LastRelease(events, upperLimit)
    {
      var i := upperLimit.index - 1;
      while i > 0
        invariant i < upperLimit.index
        invariant i > 0 ==> LastRelease(events, upperLimit) == LastRelease(events, Event(upperLimit.thread, i + 1))
        invariant i <= 0 ==> LastRelease(events, upperLimit) == Event(upperLimit.thread, 0)
      {
        var lab := events[upperLimit.thread][i];
        if lab.kind.ThreadCreate? || lab.kind.ThreadFinish? || lab.kind.UnlockLapor? {
          return Event(upperLimit.thread, i);
        }
        if lab.kind.Fence? && lab.AtLeastRelease() {
          return Event(upperLimit.thread, i);
        }
        if lab.IsWrite() && lab.AtLeastRelease() {
          return Event(upperLimit.thread, i);
        }
        i := i - 1;
      }
      return Event(upperLimit.thread, 0);
    }

    method GetThreadAcquiresAndFences(upperLimit: Event) returns (result: seq<Event>)
      requires Limit(events, upperLimit) && upperLimit.index > 0
      ensures forall q :: q in result <==>
                          q.thread == upperLimit.thread && q.index < upperLimit.index && IsAcquireOrFence(events, q)
    {
      result := [Event(upperLimit.thread, 0)];
      var i := 1;
      while i < upperLimit.index
        invariant 1 <= i <= upperLimit.index
        invariant forall q :: q in result <==>
                              q.thread == upperLimit.thread && q.index < i && IsAcquireOrFence(events, q)
      {
        var lab := events[upperLimit.thread][i];
        if lab.kind.Fence? || lab.AtLeastAcquire() {
          result := result + [Event(upperLimit.thread, i)];
        }
        i := i + 1;
      }
    }

    /** Scans from upperLimit itself down to the begin event. */
    method GetLastThreadUnlockAtLocLapor(upperLimit: Event, loc: int) returns (e: Event)
      requires In(events, upperLimit) && !L(events, Event(upperLimit.thread, 0)).kind.UnlockLapor?
      ensures e == LastUnlockLapor(events, upperLimit.Next(), loc)
    {
      var j := upperLimit.index;
      while j >= 0
        invariant -1 <= j <= upperLimit.index
        invariant LastUnlockLapor(events, upperLimit.Next(), loc) ==
                  LastUnlockLapor(events, Event(upperLimit.thread, j + 1), loc)
      {
        var lab := events[upperLimit.thread][j];
        if lab.kind.UnlockLapor? && lab.addr == loc {
          return Event(upperLimit.thread, j);
        }
        j := j - 1;
      }
      return Initializer;
    }

    // ----- additions and changes -----

    method AddNewThread()
      modifies this`events
      ensures events == old(events) + [[]]
    {
      events := events + [[]];
    }

    method SetEventLabel(e: Event, lab: Label)
      requires In(events, e)
      modifies this`events
      ensures events == Set(old(events), e, lab)
    {
      events := events[e.thread := events[e.thread][e.index := lab]];
    }

    method AddOtherLabelToGraph(lab: Label)
      requires Addable(events, lab.pos)
      modifies this
      ensures var stamped := lab.stamp == 0 && lab.pos != Initializer;
              && timestamp == old(timestamp) + (if stamped then 1 else 0)
              && events == AddLabel(old(events), if stamped then lab.(stamp := old(timestamp)) else lab)
    {
      var l := lab;
      if lab.stamp == 0 && !lab.pos.IsInitializer() {
        l := lab.(stamp := timestamp);
        timestamp := timestamp + 1;
      }
      if l.pos.index < |events[l.pos.thread]| {
        SetEventLabel(l.pos, l);
      } else {
        events := events[l.pos.thread := events[l.pos.thread] + [l]];
      }
    }

    method AddReadLabelToGraph(lab: Label)
      requires Addable(events, lab.pos) && lab.IsRead() && (lab.rf == Bottom || In(events, lab.rf))
      modifies this
      ensures var stamped := lab.stamp == 0 && lab.pos != Initializer;
              && timestamp == old(timestamp) + (if stamped then 1 else 0)
              && events == AddRead(old(events), if stamped then lab.(stamp := old(timestamp)) else lab)
    {
      if lab.rf != Bottom {
        var wLab := L(events, lab.rf);
        if wLab.IsWrite() {
          SetEventLabel(lab.rf, wLab.WithReader(lab.pos));
        }
      }
      AddOtherLabelToGraph(lab);
    }

    method ChangeRf(read: Event, store: Event)
      requires IsReadAt(events, read) && L(events, read).pos == read && (store == Bottom || In(events, store))
      modifies this`events
      ensures events == RfChanged(old(events), read, store)
    {
      var oldRf := L(events, read).rf;
      SetEventLabel(read, L(events, read).(rf := store));
      // the old write may be gone, or another event may stand in its place
      if oldRf.index > 0 && 0 <= oldRf.thread < |events| && oldRf.index < |events[oldRf.thread]| {
        var oldLab := L(events, oldRf);
        if oldLab.IsWrite() {
          SetEventLabel(oldRf, oldLab.WithoutReader(read));
        }
      }
      if store.IsBottom() { return; }
      var wLab := L(events, store);
      if wLab.IsWrite() {
        SetEventLabel(store, wLab.WithReader(read));
      }
    }

    method UpdateJoin(join: Event, childLast: Event) returns (ok: bool)
      requires In(events, join) && L(events, join).kind.ThreadJoin? && In(events, childLast)
      modifies this`events
      ensures ok <==> old(L(events, childLast).kind.ThreadFinish?)
      ensures events == if ok then JoinUpdated(old(events), join, childLast) else old(events)
    {
      var fLab := L(events, childLast);
      if !fLab.kind.ThreadFinish? { return false; }
      var jLab := L(events, join);
      SetEventLabel(join, jLab.(kind := ThreadJoin(jLab.kind.childId, childLast)));
      SetEventLabel(childLast, fLab.(kind := ThreadFinish(join)));
      return true;
    }

    /** If the join is still there, it forgets the finish of its child. */
    method ResetJoin(join: Event)
      requires In(events, join)
      modifies this`events
      ensures events == JoinReset(old(events), join)
    {
      var jLab := L(events, join);
      if !jLab.kind.ThreadJoin? { return; }
      SetEventLabel(join, jLab.(kind := ThreadJoin(jLab.kind.childId, Initializer)));
    }

    // ----- views from stamps, and copies -----

    /** The events of stamp at most `stamp`, in threads below n and, in thread n, below index m. */
    ghost predicate ScannedPrefix(stamp: nat, n: int, m: int, e: Event)
      reads this
    {
      InPrefix(events, stamp, e) && (e.thread < n || (e.thread == n && e.index < m))
    }

    method GetDepViewFromStamp(stamp: nat) returns (preds: DepView)
      ensures fresh(preds) && preds.Valid() && IsPrefixView(events, stamp, preds.Snapshot())
    {
      preds := new DepView();
      var i := 0;
      while i < |events|
        invariant 0 <= i <= |events| && preds.Valid() && preds.Snapshot().Tight()
        invariant forall t :: t >= i ==> preds.Snapshot().At(t) == 0 && preds.Snapshot().HolesAt(t) == {}
        invariant forall e :: preds.Snapshot().Has(e) <==> ScannedPrefix(stamp, i, 0, e)
      {
        var prevPos, j := 0, 1;
        while j < |events[i]|
          invariant 0 <= prevPos < j && j <= Max(1, |events[i]|) && preds.Valid() && preds.Snapshot().Tight()
          invariant preds.Snapshot().At(i) == prevPos
          invariant forall t :: t > i ==> preds.Snapshot().At(t) == 0 && preds.Snapshot().HolesAt(t) == {}
          invariant forall h :: h in preds.Snapshot().HolesAt(i) ==> h <= prevPos
          invariant forall e :: preds.Snapshot().Has(e) <==> ScannedPrefix(stamp, i, j, e)
        {
          if events[i][j].stamp <= stamp {
            ghost var was := preds.Snapshot();
            preds.SetIndex(i, j);
            ghost var set1 := preds.Snapshot();
            preds.AddHolesInRange(Event(i, prevPos + 1), j);
            PrefixGrown(was, set1, preds.Snapshot(), i, prevPos, j);
            prevPos := j;
          }
          j := j + 1;
        }
        i := i + 1;
      }
    }

    /** One more event of thread i, the indices skipped entered as holes. */
    lemma PrefixGrown(was: Clock, mid: Clock, now: Clock, i: nat, prev: nat, j: nat)
      requires was.Wf() && was.Tight() && was.At(i) == prev < j && (forall h :: h in was.HolesAt(i) ==> h <= prev)
      requires mid == was.WithIndex(i, j) && now.Wf()
      requires forall t :: now.At(t) == mid.At(t)
      requires forall t, h :: h in now.HolesAt(t) <==> h in mid.HolesAt(t) || (t == i && prev + 1 <= h < j)
      ensures now.Tight() && now.At(i) == j && (forall h :: h in now.HolesAt(i) ==> h <= j)
      ensures forall e :: now.Has(e) <==> was.Has(e) || e == Event(i, j)
      ensures forall t :: t != i ==> now.At(t) == was.At(t) && now.HolesAt(t) == was.HolesAt(t)
    {
      assert forall t :: mid.At(t) == (if t == i then j else was.At(t)) && mid.HolesAt(t) == was.HolesAt(t);
      forall t | t != i ensures now.HolesAt(t) == was.HolesAt(t) {
        assert forall h :: h in now.HolesAt(t) <==> h in was.HolesAt(t);
      }
      forall e ensures now.Has(e) <==> was.Has(e) || e == Event(i, j) {
        HasAt(was, e); HasAt(now, e);
      }
    }

    method ResetStamp(val: nat)
      modifies this`timestamp
      ensures timestamp == val
    {
      timestamp := val;
    }

    method NextStamp() returns (stamp: nat)
      modifies this`timestamp
      ensures stamp == old(timestamp) && timestamp == stamp + 1
    {
      stamp := timestamp;
      timestamp := timestamp + 1;
    }

    /** What the copy of e is to look like. */
    predicate CopyOk(v: Clock, e: Event, lab: Label)
      requires In(events, e)
      reads this
    {
      if e.index == 0 then lab == L(events, e)
      else if v.Contains(e) then lab == Copied(L(events, e), v)
      else lab == EmptyLabel(e, lab.stamp)
    }

    /** The first n threads of h are copied, thread n up to index m, the rest are still empty.
        At the outset there is a begin event for main, to be replaced. */
    ghost predicate CopiedUpTo(v: Clock, h: Graph, n: nat, m: nat)
      reads this
    {
      && |h| == |events| > 0
      && if n == 0 && m == 0 then forall t :: 0 <= t < |h| ==> |h[t]| == if t == 0 then 1 else 0
         else
           && (forall t :: 0 <= t < |h| ==> |h[t]| == if t < n then v.At(t) + 1 else if t == n then m else 0)
           && (forall e :: In(h, e) ==> In(events, e) && CopyOk(v, e, L(h, e)))
    }

    lemma CopyAppended(v: Clock, h: Graph, n: nat, m: nat, lab: Label)
      requires CopiedUpTo(v, h, n, m) && n < |events| && lab.pos == Event(n, m)
      requires In(events, lab.pos) && CopyOk(v, lab.pos, lab)
      ensures CopiedUpTo(v, AddLabel(h, lab), n, m + 1)
    {
      hide CopyOk;
      AddLabelAt(h, lab);
    }

    /** Copies the events of v into a new graph. */
    method CopyGraphUpTo(other: ExecutionGraph, v: Clock)
      requires other != this && |other.events| == 1 && |other.events[0]| == 1 && |events| > 0
      requires Begun(events) && Positioned(events) && Spans(events, v)
      requires forall e :: In(events, e) && e != Initializer ==> L(events, e).stamp > 0
      modifies other
      ensures IsCopy(events, v, other.events)
      ensures other.timestamp >= timestamp && (Newest(events, timestamp) ==> Newest(other.events, other.timestamp))
    {
      other.timestamp := timestamp;
      other.events := other.events + seq(|events| - 1, _ => []);
      var i := 0;
      while i < |events|
        invariant 0 <= i <= |events| && CopiedUpTo(v, other.events, i, 0) && other.timestamp >= timestamp
        invariant Newest(events, timestamp) && i > 0 ==> Newest(other.events, other.timestamp)
      {
        CopyEvent(other, v, i, 0);
        var j := 1;
        while j <= v.At(i)
          invariant 1 <= j <= v.At(i) + 1 && CopiedUpTo(v, other.events, i, j) && other.timestamp >= timestamp
          invariant Newest(events, timestamp) ==> Newest(other.events, other.timestamp)
        {
          CopyEvent(other, v, i, j);
          j := j + 1;
        }
        i := i + 1;
      }
    }

    /** Copies one event: the begin as it is, another one cloned or replaced by an Empty label. */
    method CopyEvent(other: ExecutionGraph, v: Clock, i: nat, j: nat)
      requires other != this && i < |events| && j < |events[i]| && Positioned(events)
      requires forall e :: In(events, e) && e != Initializer ==> L(events, e).stamp > 0
      requires CopiedUpTo(v, other.events, i, j) && other.timestamp >= timestamp
      requires Newest(events, timestamp) && i + j > 0 ==> Newest(other.events, other.timestamp)
      modifies other
      ensures CopiedUpTo(v, other.events, i, j + 1) && other.timestamp >= timestamp
      ensures Newest(events, timestamp) ==> Newest(other.events, other.timestamp)
    {
      hide CopiedUpTo;
      ghost var h := other.events;
      var e := Event(i, j);
      CopyAddable(v, h, i, j);
      if j > 0 && !v.Contains(e) {
        var stamp := other.NextStamp();
        var empty := EmptyLabel(e, stamp);
        other.AddOtherLabelToGraph(empty);
        ghost var added := if stamp == 0 && e != Initializer then empty.(stamp := stamp + 1) else empty;
        CopyAppended(v, h, i, j, added);
        if Newest(events, timestamp) { AddedNewest(h, added, other.timestamp); }
      } else {
        var lab := L(events, e);
        other.AddOtherLabelToGraph(lab);
        if j > 0 && lab.IsWrite() {
          other.SetEventLabel(e, Copied(lab, v));
          assert (h[i] + [lab])[j := Copied(lab, v)] == h[i] + [Copied(lab, v)];
          assert other.events == AddLabel(h, Copied(lab, v));
        }
        ghost var added := if j > 0 then Copied(lab, v) else lab;
        CopyAppended(v, h, i, j, added);
        if Newest(events, timestamp) { AddedNewest(h, added, other.timestamp); }
      }
    }

    lemma CopyAddable(v: Clock, h: Graph, n: nat, m: nat)
      requires CopiedUpTo(v, h, n, m) && n < |events|
      ensures Addable(h, Event(n, m)) && (n + m > 0 ==> |h[n]| == m)
      ensures n + m == 0 ==> forall x :: In(h, x) ==> x == Event(0, 0)
    {}

    /** The labels later than p get new stamps, thread by thread. */
    method RestampAfter(p: nat)
      requires timestamp == p + 1
      modifies this
      ensures Restamped(old(events), p, events, timestamp) && timestamp > p
    {
      hide RestampedUpTo;
      ghost var g := events;
      RestampStarts(g, p);
      var i := 0;
      while i < |events|
        invariant 0 <= i <= |events| == |g| && (forall t :: 0 <= t < |g| ==> |events[t]| == |g[t]|)
        invariant RestampedUpTo(g, p, events, timestamp, i, 0)
      {
        var j := 0;
        while j < |events[i]|
          invariant 0 <= i < |events| == |g| && (forall t :: 0 <= t < |g| ==> |events[t]| == |g[t]|)
          invariant 0 <= j <= |events[i]| && RestampedUpTo(g, p, events, timestamp, i, j)
        {
          RestampStep(g, p, events, timestamp, i, j);
          if events[i][j].stamp > p {
            var stamp := NextStamp();
            SetEventLabel(Event(i, j), events[i][j].(stamp := stamp));
          }
          j := j + 1;
        }
        RestampThread(g, p, events, timestamp, i);
        i := i + 1;
      }
      RestampEnds(g, p, events, timestamp);
    }

    // ----- cuts -----

    method GetViewFromStamp(stamp: nat) returns (preds: View)
      ensures forall t :: preds.At(t) == if 0 <= t < |events| then Top(events, stamp, t) else 0
    {
      preds := EmptyView;
      var i := 0;
      while i < |events|
        invariant 0 <= i <= |events|
        invariant forall t :: preds.At(t) == if 0 <= t < i then Top(events, stamp, t) else 0
      {
        var j := |events[i]| - 1;
        while j >= 0
          invariant -1 <= j < |events[i]| || j == -1
          invariant forall t :: preds.At(t) == if 0 <= t < i then Top(events, stamp, t) else 0
          invariant forall k :: j < k < |events[i]| ==> events[i][k].stamp > stamp
        {
          if events[i][j].stamp <= stamp {
            WithIndexHas(preds, i, j);
            preds := preds.WithIndex(i, j);
            break;
          }
          j := j - 1;
        }
        i := i + 1;
      }
    }

    /** Removes every event after `stamp`, and what refers to them. */
    method CutToStamp(stamp: nat)
      requires Begun(events) && Positioned(events)
      requires forall e :: In(events, e) && L(events, e).kind.ThreadJoin? ==>
                             0 <= L(events, e).kind.childLast.thread < |events|
      requires forall e, r :: IsWriteAt(events, e) && r in L(events, e).readers ==> 0 <= r.thread < |events|
      modifies this`events
      ensures events == Cut(old(events), stamp)
    {
      hide CutUpTo, Top, Cut;
      ghost var g := events;
      var preds := GetViewFromStamp(stamp);
      var i := 0;
      while i < |events|
        invariant 0 <= i <= |events| && Shortened(g, stamp, events, i)
      {
        events := events[i := events[i][..preds.At(i) + 1]];
        i := i + 1;
      }
      i := 0;
      ShortenedIsCutUpTo(g, stamp, events);
      while i < |events|
        invariant 0 <= i <= |events| == |g| && CutUpTo(g, stamp, events, i, 0)
      {
        var j := 0;
        CutUpToLength(g, stamp, events, i, 0, i);
        while j < |events[i]|
          invariant 0 <= i < |events| == |g| && 0 <= j <= |events[i]| == Top(g, stamp, i) + 1
          invariant CutUpTo(g, stamp, events, i, j)
        {
          CutEvent(g, stamp, preds, i, j);
          CutUpToLength(g, stamp, events, i, j + 1, i);
          j := j + 1;
        }
        CutUpToNext(g, stamp, events, i);
        i := i + 1;
      }
      CutUpToIsCut(g, stamp, events);
    }

    /** Brings one surviving label up to date. */
    method CutEvent(ghost g: Graph, ghost stamp: nat, preds: View, i: nat, j: nat)
      requires Begun(g) && Positioned(g) && CutUpTo(g, stamp, events, i, j) && i < |events| && j < |events[i]|
      requires forall t :: preds.At(t) == if 0 <= t < |g| then Top(g, stamp, t) else 0
      requires forall e :: In(g, e) && L(g, e).kind.ThreadJoin? ==> 0 <= L(g, e).kind.childLast.thread < |g|
      requires forall e, r :: IsWriteAt(g, e) && r in L(g, e).readers ==> 0 <= r.thread < |g|
      modifies this`events
      ensures CutUpTo(g, stamp, events, i, j + 1)
    {
      hide Top;
      var e := Event(i, j);
      ghost var h := events;
      CutUpToThread(g, stamp, h, i, j);
      var lab := L(events, e);
      ghost var lab' := CutLabel(g, stamp, lab);
      if lab.kind.ThreadJoin? {
        var cl := lab.kind.childLast;
        CutUpToLength(g, stamp, h, i, j, cl.thread);
        if cl.index >= |events[cl.thread]| {
          ResetJoin(e);
        }
      } else if lab.IsWrite() {
        KeepAgrees(lab.readers, r => preds.Contains(r), r => KeptBy(g, stamp, r));
        SetEventLabel(e, lab.(readers := Keep(lab.readers, r => preds.Contains(r))));
      }
      SetSame(h, e);
      assert events == Set(h, e, lab');
      CutUpToStep(g, stamp, h, i, j, lab');
    }
  }
}
