/** The execution graph of dependency-tracking models: events may be added and cut out of stamp order. */
module DepExecutionGraphs {
  import opened Events
  import opened Clocks
  import opened DepViews
  import opened Graphs
  import opened RevisitSpec
  import opened CutSpec
  import opened DepCutSpec
  import opened ExecutionGraphs

  /** A read of c at a position before (n, m) reads e within its own thread. */
  ghost predicate RepairedBefore(g: Graph, c: Clock, p: Clock, n: int, m: int, e: Event) {
    exists x :: IsReadAt(g, x) && 1 <= x.index <= p.At(x.thread) && c.Has(x) &&
                L(g, x).rf == e && e.thread == x.thread && 1 <= e.index <= c.At(e.thread) &&
                (x.thread < n || (x.thread == n && x.index < m))
  }

  /** Joins a prefix view in, and repairs the holes that internal reads left in it. */
  method UpdatePredsWithPrefixView(graph: ExecutionGraph, preds: DepView, pporf: Clock)
    requires preds.Valid() && preds.Snapshot().Tight() && pporf.Wf() && pporf.Tight()
    requires forall e :: pporf.Has(e) ==> In(graph.events, e)
    requires RfInverse(graph.events)
    modifies preds
    ensures preds.Valid() && PrefixAdded(graph.events, old(preds.Snapshot()), pporf, preds.Snapshot())
  {
    hide RfInverse, PrefixAdded, RepairedBefore;
    ghost var g, was := graph.events, preds.Snapshot();
    JoinedHas(was, pporf);
    preds.Update(pporf);
    ghost var c := preds.Snapshot();
    NoneRepaired(g, c, pporf);
    var i := 0;
    while i < |pporf.view|
      invariant 0 <= i <= |pporf.view| && preds.Valid() && preds.Snapshot().Tight()
      invariant forall t :: preds.Snapshot().At(t) == c.At(t)
      invariant forall e :: preds.Snapshot().Has(e) <==> c.Has(e) || RepairedBefore(g, c, pporf, i, 1, e)
    {
      var j := 1;
      if pporf.At(i) >= 1 { assert pporf.Has(Event(i, pporf.At(i))); }
      while j <= pporf.view[i]
        invariant 1 <= j && (j <= pporf.view[i] + 1 || j == 1) && preds.Valid() && preds.Snapshot().Tight()
        invariant forall t :: preds.Snapshot().At(t) == c.At(t)
        invariant forall e :: preds.Snapshot().Has(e) <==> c.Has(e) || RepairedBefore(g, c, pporf, i, j, e)
      {
        RepairEvent(graph, preds, c, pporf, i, j);
        j := j + 1;
      }
      ThreadRepaired(g, c, pporf, i, j);
      i := i + 1;
    }
    AllRepaired(g, was, pporf, preds.Snapshot());
  }

  lemma NoneRepaired(g: Graph, c: Clock, p: Clock)
    ensures forall e :: !RepairedBefore(g, c, p, 0, 1, e)
  {}

  lemma ThreadRepaired(g: Graph, c: Clock, p: Clock, i: nat, j: nat)
    requires j >= 1 && j > p.At(i)
    ensures forall e :: RepairedBefore(g, c, p, i, j, e) <==> RepairedBefore(g, c, p, i + 1, 1, e)
  {
    forall e ensures RepairedBefore(g, c, p, i, j, e) <==> RepairedBefore(g, c, p, i + 1, 1, e) {}
  }

  lemma AllRepaired(g: Graph, was: Clock, p: Clock, v: Clock)
    requires was.Wf() && p.Wf() && v.Wf() && v.Tight() && was.Tight() && p.Tight()
    requires var c := was.Joined(p);
             && (forall t :: v.At(t) == c.At(t))
             && (forall e :: v.Has(e) <==> c.Has(e) || RepairedBefore(g, c, p, |p.view|, 1, e))
    ensures PrefixAdded(g, was, p, v)
  {
    var c := was.Joined(p);
    JoinedHas(was, p);
    forall e ensures RepairedBefore(g, c, p, |p.view|, 1, e) <==> ReadInternally(g, c, p, e) {}
  }

  /** The hole of the write that the read at (i, j) reads internally is removed. */
  method RepairEvent(graph: ExecutionGraph, preds: DepView, ghost c: Clock, ghost p: Clock, i: nat, j: nat)
    requires RfInverse(graph.events) && preds.Valid() && preds.Snapshot().Tight()
    requires In(graph.events, Event(i, j)) && 1 <= j <= p.At(i)
    requires forall t :: preds.Snapshot().At(t) == c.At(t)
    requires forall e :: preds.Snapshot().Has(e) <==> c.Has(e) || RepairedBefore(graph.events, c, p, i, j, e)
    modifies preds
    ensures preds.Valid() && preds.Snapshot().Tight()
    ensures forall t :: preds.Snapshot().At(t) == c.At(t)
    ensures forall e :: preds.Snapshot().Has(e) <==> c.Has(e) || RepairedBefore(graph.events, c, p, i, j + 1, e)
  {
    hide RfInverse;
    ghost var g := graph.events;
    var x := Event(i, j);
    var lab := L(graph.events, x);
    RepairedStep(g, c, p, i, j);
    if lab.IsRead() {
      NotAWrite(g, c, p, i, j, x);
      if preds.Contains(x) && !preds.Contains(lab.rf) {
        if lab.rf.thread == i {
          preds.RemoveHole(lab.rf);
        }
      }
    }
  }

  /** What the read at (i, j) adds to the writes repaired. */
  lemma RepairedStep(g: Graph, c: Clock, p: Clock, i: nat, j: nat)
    requires In(g, Event(i, j)) && 1 <= j <= p.At(i)
    ensures var x := Event(i, j);
            forall e :: RepairedBefore(g, c, p, i, j + 1, e) <==>
                        RepairedBefore(g, c, p, i, j, e) ||
                        (IsReadAt(g, x) && c.Has(x) && L(g, x).rf == e && e.thread == i && 1 <= e.index <= c.At(i))
  {
    var x := Event(i, j);
    forall e ensures RepairedBefore(g, c, p, i, j + 1, e) <==>
                     RepairedBefore(g, c, p, i, j, e) ||
                     (IsReadAt(g, x) && c.Has(x) && L(g, x).rf == e && e.thread == i && 1 <= e.index <= c.At(i))
    {
      if RepairedBefore(g, c, p, i, j + 1, e) {
        var y :| IsReadAt(g, y) && 1 <= y.index <= p.At(y.thread) && c.Has(y) &&
                 L(g, y).rf == e && e.thread == y.thread && 1 <= e.index <= c.At(e.thread) &&
                 (y.thread < i || (y.thread == i && y.index < j + 1));
        assert y == x || y.thread < i || y.index < j;
      }
    }
  }

  /** Repairs add writes only, so whether a read is contained does not change. */
  lemma NotAWrite(g: Graph, c: Clock, p: Clock, n: int, m: int, x: Event)
    requires RfInverse(g) && IsReadAt(g, x)
    ensures !RepairedBefore(g, c, p, n, m, x)
  {
    if y :| IsReadAt(g, y) && L(g, y).rf == x && x.index >= 1 {
      InternalRfIndex(g, y);
      assert false;
    }
  }

  lemma ClockOf(g: Graph, w: Event)
    requires WriteClocks(g) && IsWriteAt(g, w)
    ensures L(g, w).pporf.Wf() && L(g, w).pporf.Tight() && forall e :: L(g, w).pporf.Has(e) ==> In(g, e)
  {}

  class DepExecutionGraph {
    const graph: ExecutionGraph

    constructor (g: ExecutionGraph)
      ensures graph == g
    {
      graph := g;
    }

    /** The events kept when r.rev revisits r.pos. */
    method GetRevisitView(r: BackwardRevisit) returns (preds: DepView)
      requires IsReadAt(graph.events, r.pos) && IsWriteAt(graph.events, r.rev)
      requires r.BackwardHelper? ==> IsWriteAt(graph.events, r.mid)
      requires WriteClocks(graph.events) && RfInverse(graph.events)
      ensures fresh(preds) && preds.Valid() && IsRevisitView(graph.events, r, preds.Snapshot())
    {
      hide WriteClocks, RfInverse, PrefixAdded;
      preds := graph.GetDepViewFromStamp(L(graph.events, r.pos).stamp);
      ghost var p0 := preds.Snapshot();
      ClockOf(graph.events, r.rev);
      UpdatePredsWithPrefixView(graph, preds, L(graph.events, r.rev).pporf);
      ghost var p1 := preds.Snapshot();
      PrefixAddedWf(graph.events, p0, L(graph.events, r.rev).pporf, p1);
      if r.BackwardHelper? {
        ClockOf(graph.events, r.mid);
        UpdatePredsWithPrefixView(graph, preds, L(graph.events, r.mid).pporf);
      }
    }

    /** Copies the graph up to a revisit view: holes are punched for a helper, and labels younger than the read get
        new stamps. */
    method CopyGraph(r: BackwardRevisit, v: DepView) returns (copy: ExecutionGraph)
      requires v.Valid() && Spans(graph.events, v.Snapshot()) && Begun(graph.events) && Positioned(graph.events)
      requires |graph.events| > 0
      requires forall e :: In(graph.events, e) && e != Initializer ==> L(graph.events, e).stamp > 0
      requires IsReadAt(graph.events, r.pos)
      requires r.BackwardHelper? ==> In(graph.events, r.mid) && r.mid.index <= v.Snapshot().At(r.mid.thread)
      requires Punched(r, v.Snapshot()).Contains(r.pos) && r.pos.index >= 1
      modifies v
      ensures fresh(copy) && copy.timestamp > L(graph.events, r.pos).stamp
      ensures exists c :: IsCopy(graph.events, Punched(r, old(v.Snapshot())), c) &&
                          Restamped(c, L(graph.events, r.pos).stamp, copy.events, copy.timestamp)
    {
      hide IsCopy, Restamped;
      ghost var g, was := graph.events, v.Snapshot();
      if r.BackwardHelper? {
        v.AddHole(r.mid);
        v.AddHole(r.mid.Prev());
      }
      PunchedSpans(g, r, was);
      copy := new ExecutionGraph();
      graph.CopyGraphUpTo(copy, v.Snapshot());
      ghost var c := copy.events;
      CopiedStamp(g, v.Snapshot(), c, r.pos);
      var p := L(copy.events, r.pos).stamp;
      copy.ResetStamp(p + 1);
      copy.RestampAfter(p);
    }

    /** A backward revisit: the graph is copied up to the revisit view and the read re-targeted in the copy. */
    method Revisit(r: BackwardRevisit) returns (copy: ExecutionGraph, ghost v: Clock)
      requires Revisitable(graph.events) && Begun(graph.events) && In(graph.events, Initializer)
      requires HelperOk(graph.events, r)
      requires forall e :: In(graph.events, e) && e != Initializer ==> L(graph.events, e).stamp > 0
      requires IsReadAt(graph.events, r.pos) && IsWriteAt(graph.events, r.rev)
      requires RfClosedPrefix(graph.events, L(graph.events, r.pos).stamp, r.pos)
      ensures fresh(copy) && IsRevisitView(graph.events, r, v)
      ensures exists c, h :: IsCopy(graph.events, Punched(r, v), c) && IsReadAt(h, r.pos) &&
                             Restamped(c, L(graph.events, r.pos).stamp, h, copy.timestamp) &&
                                 copy.events == RfChanged(h, r.pos, r.rev)
      ensures RfInverse(copy.events) <==> NobodyReadsMid(graph.events, r, Punched(r, v))
    {
      hide Revisitable, RfInverse, IsRevisitView, IsCopy, RfChanged, RfClosedPrefix, Restamped, NobodyReadsMid, Spans,
           HelperOk;
      ghost var g := graph.events;
      RevisitParts(g);
      HelperWrites(g, r);
      var preds := GetRevisitView(r);
      v := preds.Snapshot();
      ViewForCopy(g, r, v);
      copy := CopyGraph(r, preds);
      ghost var h := copy.events;
      ghost var c :| IsCopy(g, Punched(r, v), c) && Restamped(c, L(g, r.pos).stamp, h, copy.timestamp);
      RevisitKeepsInverseIff(g, r, v, c);
      CopyPositioned(g, Punched(r, v), c);
      RestampedTargets(c, L(g, r.pos).stamp, h, copy.timestamp, r.pos, r.rev);
      copy.ChangeRf(r.pos, r.rev);
      RestampedInverseIff(c, L(g, r.pos).stamp, h, copy.timestamp, r.pos, r.rev);
    }

    /** The label at e, or an absent one if there is none. */
    function Lookup(e: Event): Label
      reads graph
    {
      if In(graph.events, e) then L(graph.events, e) else NullLabel(e)
    }

    /** Removes what points to a label about to be deleted. */
    method Unlink(lab: Label, e: Event)
      requires In(graph.events, e) && !L(graph.events, e).kind.Absent?
      modifies graph`events
      ensures |graph.events| == |old(graph.events)|
      ensures forall t :: 0 <= t < |graph.events| ==> |graph.events[t]| == |old(graph.events)[t]|
      ensures forall x :: In(graph.events, x) ==>
                            L(graph.events, x) == if L(old(graph.events), x).kind.Absent? then L(old(graph.events), x)
                                                  else Unlinked(L(old(graph.events), x), x, lab, e)
    {
      if lab.IsRead() {
        var rfLab := Lookup(lab.rf); // make sure the write still exists
        if !rfLab.kind.Absent? && rfLab.IsWrite() {
          SetAt(graph.events, lab.rf, rfLab.WithoutReader(e));
          graph.SetEventLabel(lab.rf, rfLab.WithoutReader(e));
        }
      } else if lab.kind.ThreadFinish? {
        var pj := lab.kind.parentJoin;
        if !Lookup(pj).kind.Absent? { // make sure the parent exists
          graph.ResetJoin(pj);
        }
      }
    }

    /** Removes a label and what points to it. */
    method DeleteEvent(ghost g: Graph, ghost stamp: nat, e: Event)
      requires CutTo(g, stamp, graph.events, e.thread, e.index) && In(graph.events, e) && e.index >= 1
      requires In(g, e) && Deleted(g, stamp, e) && NoAbsent(g)
      modifies graph`events
      ensures CutTo(g, stamp, graph.events, e.thread, e.index + 1)
    {
      hide LabelAt, Top, NoAbsent;
      ghost var h := graph.events;
      var lab := L(graph.events, e);
      LabelAtPresent(g, stamp, e.thread, e.index, e);
      assert lab == LabelAt(g, stamp, e.thread, e.index, e);
      hide CutTo;
      UnlinkedSame(lab, L(g, e));
      Unlink(lab, e);
      SetAt(graph.events, e, NullLabel(e));
      graph.SetEventLabel(e, NullLabel(e));
      PassDeleted(g, stamp, h, e.thread, e.index, graph.events);
    }

    /** Every reset slot becomes an Empty label. */
    method FillGaps(ghost g: Graph, ghost stamp: nat)
      requires CutTo(g, stamp, graph.events, |g|, 1) && NoAbsent(g)
      modifies graph
      ensures IsDepCut(g, stamp, graph.events) && graph.timestamp >= old(graph.timestamp)
      ensures NewestPresent(old(graph.events), old(graph.timestamp)) ==> Newest(graph.events, graph.timestamp)
    {
      hide CutTo, NoAbsent, IsDepCut;
      ghost var h := graph.events;
      var i := 0;
      while i < |graph.events|
        invariant 0 <= i <= |graph.events| && Filled(h, graph.events, i, 0) && graph.timestamp >= old(graph.timestamp)
        invariant NewestPresent(h, old(graph.timestamp)) ==> NewestPresent(graph.events, graph.timestamp)
      {
        var j := 0;
        while j < |graph.events[i]|
          invariant 0 <= i < |graph.events| && 0 <= j <= |graph.events[i]| && Filled(h, graph.events, i, j)
          invariant graph.timestamp >= old(graph.timestamp)
          invariant NewestPresent(h, old(graph.timestamp)) ==> NewestPresent(graph.events, graph.timestamp)
        {
          if graph.events[i][j].kind.Absent? {
            var empty := graph.NextStamp();
            var e := Event(i, j);
            SetAt(graph.events, e, EmptyLabel(e, empty));
            graph.SetEventLabel(e, EmptyLabel(e, empty));
          }
          j := j + 1;
        }
        i := i + 1;
      }
      FilledPresent(h, graph.events);
      CutToEnds(g, stamp, h, graph.events);
    }

    /** Cuts a graph whose events were added out of stamp order. */
    method CutToStamp(stamp: nat)
      requires Begun(graph.events) && NoAbsent(graph.events) && Positioned(graph.events)
      requires forall e :: IsReadAt(graph.events, e) && Deleted(graph.events, stamp, e) ==>
                   L(graph.events, e).rf != Bottom
      modifies graph
      ensures IsDepCut(old(graph.events), stamp, graph.events)
      ensures Newest(old(graph.events), old(graph.timestamp)) ==> Newest(graph.events, graph.timestamp)
    {
      hide CutTo, LabelAt, Top, NoAbsent, IsDepCut, Newest;
      ghost var g := graph.events;
      CutToStarts(g, stamp);
      var i := 0;
      while i < |graph.events|
        invariant 0 <= i <= |graph.events| == |g| && CutTo(g, stamp, graph.events, i, 1)
        invariant graph.timestamp == old(graph.timestamp)
      {
        CutToThread(g, stamp, graph.events, i, 1);
        var newMax := 1;
        var j := 1;
        while j < |graph.events[i]|
          invariant |graph.events| == |g| && 1 <= j <= |graph.events[i]| == |g[i]|
          invariant graph.timestamp == old(graph.timestamp)
          invariant CutTo(g, stamp, graph.events, i, j)
          invariant newMax == Reached(g, stamp, i, j)
        {
          CutToCursor(g, stamp, graph.events, i, j);
          ReachedNext(g, stamp, i, j);
          var lab := graph.events[i][j];
          if lab.stamp <= stamp {
            if lab.pos.index >= newMax {
              newMax := lab.pos.index + 1;
            }
            PassKept(g, stamp, graph.events, i, j);
          } else {
            DeleteEvent(g, stamp, Event(i, j));
          }
          CutToThread(g, stamp, graph.events, i, j + 1);
          j := j + 1;
        }
        ReachedAll(g, stamp, i);
        PassThread(g, stamp, graph.events, i);
        graph.events := graph.events[i := graph.events[i][..newMax]];
        i := i + 1;
      }
      if Newest(g, graph.timestamp) { CutToPresent(g, stamp, graph.events, graph.timestamp); }
      FillGaps(g, stamp);
    }
  }

  lemma HelperWrites(g: Graph, r: BackwardRevisit)
    requires HelperOk(g, r)
    ensures r.BackwardHelper? ==> IsWriteAt(g, r.mid)
  {}

  lemma PunchedSpans(g: Graph, r: BackwardRevisit, v: Clock)
    requires Spans(g, v) && (r.BackwardHelper? ==> r.mid.thread >= 0)
    ensures Spans(g, Punched(r, v))
  {
    PunchedHas(r, v);
  }

  lemma CopiedStamp(g: Graph, v: Clock, c: Graph, x: Event)
    requires IsCopy(g, v, c) && In(g, x) && v.Contains(x) && x.index >= 1
    ensures In(c, x) && L(c, x).stamp == L(g, x).stamp
  {}

  /** The revisit view is fit to be copied up to. */
  lemma ViewForCopy(g: Graph, r: BackwardRevisit, v: Clock)
    requires Revisitable(g) && Begun(g) && HelperOk(g, r) && IsRevisitView(g, r, v) && IsReadAt(g, r.pos)
    ensures Spans(g, v) && r.pos.index >= 1 && Punched(r, v).Contains(r.pos)
    ensures r.BackwardHelper? ==> In(g, r.mid) && r.mid.index <= v.At(r.mid.thread)
  {
    hide Revisitable, IsRevisitView;
    RevisitViewInside(g, r, v);
    ViewSpans(g, v);
    AccessIndex(g, r.pos);
    PunchedHas(r, v);
    assert Punched(r, v).Has(r.pos) by { if r.BackwardHelper? { AccessIndex(g, r.mid); } }
    if r.BackwardHelper? {
      MidInView(g, r, v);
      HasAt(v, r.mid);
    }
  }

  lemma MidInView(g: Graph, r: BackwardRevisit, v: Clock)
    requires Revisitable(g) && r.BackwardHelper? && IsRevisitView(g, r, v)
    ensures v.Has(r.mid)
  {
    WriteKnown(g, r.mid);
  }

  lemma CopyPositioned(g: Graph, v: Clock, h: Graph)
    requires Positioned(g) && IsCopy(g, v, h)
    ensures Positioned(h)
  {}

  lemma RestampedTargets(c: Graph, p: nat, h: Graph, next: nat, read: Event, write: Event)
    requires Restamped(c, p, h, next) && IsReadAt(c, read) && IsWriteAt(c, write) && Positioned(c)
    ensures IsReadAt(h, read) && L(h, read).pos == read && IsWriteAt(h, write)
  {
    assert L(h, read) == L(c, read).(stamp := L(h, read).stamp) &&
        L(h, write) == L(c, write).(stamp := L(h, write).stamp);
  }

  /** Two graphs that differ in stamps only. */
  ghost predicate SameButStamps(g: Graph, h: Graph) {
    && (forall x :: In(h, x) <==> In(g, x))
    && forall x :: In(g, x) ==> L(h, x) == L(g, x).(stamp := L(h, x).stamp)
  }

  lemma StampsDontMatter(g: Graph, h: Graph)
    requires SameButStamps(g, h) && RfInverse(g)
    ensures RfInverse(h)
  {
    forall x | In(g, x)
      ensures L(h, x).rf == L(g, x).rf && L(h, x).kind == L(g, x).kind && L(h, x).readers == L(g, x).readers
      ensures L(h, x).pos == L(g, x).pos
    {
      assert L(h, x) == L(g, x).(stamp := L(h, x).stamp);
    }
    forall x | IsReadAt(h, x) && L(h, x).rf != Bottom
      ensures RfTarget(h, L(h, x).rf) && (IsWriteAt(h, L(h, x).rf) ==> x in L(h, L(h, x).rf).readers)
    {
      assert IsReadAt(g, x) && RfTarget(g, L(g, x).rf);
    }
    forall w, r | IsWriteAt(h, w) && r in L(h, w).readers ensures IsReadAt(h, r) && L(h, r).rf == w {
      assert IsWriteAt(g, w) && IsReadAt(g, r);
    }
  }

  /** New stamps do not matter to reads-from. */
  lemma RestampedInverseIff(c: Graph, p: nat, h: Graph, next: nat, read: Event, write: Event)
    requires Restamped(c, p, h, next) && IsReadAt(c, read) && IsReadAt(h, read)
    ensures RfInverse(RfChanged(h, read, write)) <==> RfInverse(RfChanged(c, read, write))
  {
    var c1, h1 := RfChanged(c, read, write), RfChanged(h, read, write);
    RfChangedAt(c, read, write);
    RfChangedAt(h, read, write);
    RestampedSame(c, p, h, next);
    hide RfChanged, RfInverse, Restamped;
    assert SameButStamps(c1, h1) && SameButStamps(h1, c1) by { RetargetedSame(c, c1, h, h1, read, write); }
    hide SameButStamps;
    if RfInverse(c1) { StampsDontMatter(c1, h1); }
    if RfInverse(h1) { StampsDontMatter(h1, c1); }
  }

  lemma RestampedSame(c: Graph, p: nat, h: Graph, next: nat)
    requires Restamped(c, p, h, next)
    ensures SameButStamps(c, h)
  {}

  lemma RetargetedSame(c: Graph, c1: Graph, h: Graph, h1: Graph, read: Event, write: Event)
    requires SameButStamps(c, h) && IsReadAt(c, read) && IsReadAt(h, read)
    requires Retargeted(c, read, write, c1) && Retargeted(h, read, write, h1)
    ensures SameButStamps(c1, h1) && SameButStamps(h1, c1)
  {
    forall x | In(c, x)
      ensures L(h1, x) == L(c1, x).(stamp := L(h1, x).stamp) && L(c1, x) == L(h1, x).(stamp := L(c1, x).stamp)
    {
      assert L(h, x) == L(c, x).(stamp := L(h, x).stamp) && L(h, read) == L(c, read).(stamp := L(h, read).stamp);
    }
  }

  /** The slots of h before (n, m) are filled. */
  ghost predicate Filled(h: Graph, h': Graph, n: int, m: int) {
    && |h'| == |h|
    && (forall t :: 0 <= t < |h| ==> |h'[t]| == |h[t]|)
    && (forall e :: In(h, e) ==>
                      if L(h, e).kind.Absent? && (e.thread < n || (e.thread == n && e.index < m))
                      then L(h', e) == EmptyLabel(e, L(h', e).stamp) else L(h', e) == L(h, e))
  }

  /** Slots that are not reset, begins aside, carry earlier stamps. */
  ghost predicate NewestPresent(g: Graph, stamp: nat) {
    forall x :: In(g, x) && x.index >= 1 && !L(g, x).kind.Absent? ==> L(g, x).stamp < stamp
  }

  lemma FilledPresent(h: Graph, h': Graph)
    requires Filled(h, h', |h|, 0)
    ensures forall x :: In(h', x) ==> !L(h', x).kind.Absent?
  {
    forall x | In(h', x) ensures !L(h', x).kind.Absent? { assert In(h, x); }
  }

  lemma CutToPresent(g: Graph, stamp: nat, h: Graph, ts: nat)
    requires CutTo(g, stamp, h, |g|, 1) && NoAbsent(g) && Newest(g, ts)
    ensures NewestPresent(h, ts)
  {
    forall x | In(h, x) && x.index >= 1 && !L(h, x).kind.Absent? ensures L(h, x).stamp < ts {
      LabelAtPresent(g, stamp, |g|, 1, x);
    }
  }

  /** A reset slot. */
  function NullLabel(e: Event): Label { NewLabel(e, Absent, NotAtomic, 0, Bottom) }
}
