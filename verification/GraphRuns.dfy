/** Any sequence of graph operations keeps reads-from and reader lists mutually inverse. */
module GraphRuns {
  import opened Events
  import opened Clocks
  import opened Graphs
  import opened CutSpec
  import opened DepCutSpec
  import opened RevisitSpec
  import opened Causality
  import opened StampBounds
  import opened Settling
  import opened States
  import opened Additions
  import opened Cutbacks
  import opened Runs

  datatype Move =
    | AddOther(lab: Label)
    | AddRf(lab: Label)
    | ChangeRf(read: Event, store: Event)
    | CutBack(stamp: nat)
    | DepCutBack(stamp: nat)
    | CopyAndRevisit(view: Clock, copied: Graph, read: Event, store: Event)

  /** h is a result of the operation on g, called as its callers call it. */
  ghost predicate Moved(g: Graph, m: Move, h: Graph) {
    match m
    case AddOther(lab) =>
      && Fresh(g, lab.pos) && !lab.IsRead() && !lab.kind.Absent? && lab.pos != Initializer
      && (lab.IsWrite() ==> lab.readers == [] && lab.pos.index > 0)
      && h == AddLabel(g, lab)
    case AddRf(lab) =>
      && Fresh(g, lab.pos) && lab.IsRead() && lab.pos.index > 0
      && (lab.rf == Bottom || (RfTarget(g, lab.rf) && lab.rf != lab.pos))
      && h == AddRead(g, lab)
    case ChangeRf(read, store) =>
      IsReadAt(g, read) && (store == Bottom || RfTarget(g, store)) && h == RfChanged(g, read, store)
    case CutBack(stamp) => Begun(g) && CutClosed(g, stamp) && h == Cut(g, stamp)
    case DepCutBack(stamp) =>
      && Begun(g) && RfClosedPrefix(g, stamp, Bottom) && IsDepCut(g, stamp, h)
      && forall e :: IsReadAt(g, e) && Deleted(g, stamp, e) ==> L(g, e).rf != Bottom
    case CopyAndRevisit(v, c, read, store) =>
      && Spans(g, v) && IsCopy(g, v, c) && RfClosed(g, v, read)
      && IsReadAt(g, read) && v.Has(read) && RfTarget(g, store) && (store == Initializer || v.Has(store))
      && IsReadAt(c, read) && h == RfChanged(c, read, store)
  }

  ghost predicate Sound(g: Graph) {
    RfInverse(g) && In(g, Initializer)
  }

  ghost predicate IsHistory(gs: seq<Graph>, ms: seq<Move>) {
    |gs| == |ms| + 1 && forall i :: 0 <= i < |ms| ==> Moved(gs[i], ms[i], gs[i + 1])
  }

  lemma CopiedTarget(g: Graph, v: Clock, h: Graph, store: Event)
    requires IsCopy(g, v, h) && Spans(g, v) && RfTarget(g, store) && (store == Initializer || v.Has(store))
    ensures RfTarget(h, store)
  {
    KeptInCopy(g, v, h, store);
  }

  lemma MoveKeeps(g: Graph, m: Move, h: Graph)
    requires Sound(g) && Moved(g, m, h)
    ensures Sound(h)
  {
    hide RfInverse, RfInverseExcept, Cut, CutClosed, RfClosedPrefix, IsCopy, RfClosed, IsDepCut, RfChanged, AddLabel,
         AddRead;
    match m
    case AddOther(lab) =>
      AddOtherKeepsInverse(g, lab);
      AddLabelAt(g, lab);
    case AddRf(lab) =>
      AddReadKeepsInverse(g, lab);
      AddReadAt(g, lab);
    case ChangeRf(read, store) =>
      WeakenInverse(g, read);
      ChangeRfKeepsInverse(g, read, store);
      RfChangedAt(g, read, store);
    case CutBack(stamp) =>
      CutKeepsInverse(g, stamp);
      CutAt(g, stamp);
    case DepCutBack(stamp) =>
      DepCutKeepsInverse(g, stamp, h);
      DepCutKeeps(g, stamp, h, Initializer);
    case CopyAndRevisit(v, c, read, store) =>
      CopyKeepsInverse(g, v, c, read);
      CopiedTarget(g, v, c, store);
      ChangeRfKeepsInverse(c, read, store);
      RfChangedAt(c, read, store);
      KeptInCopy(g, v, c, Initializer);
  }

  /** validate() finds nothing to complain about in any graph of any history that starts from a sound one. */
  lemma {:induction false} HistoriesStaySound(gs: seq<Graph>, ms: seq<Move>, i: nat)
    requires IsHistory(gs, ms) && Sound(gs[0]) && i < |gs|
    ensures Sound(gs[i])
    decreases i
  {
    hide Sound, Moved;
    if i > 0 {
      HistoriesStaySound(gs, ms, i - 1);
      assert Moved(gs[i - 1], ms[i - 1], gs[i - 1 + 1]);
      MoveKeeps(gs[i - 1], ms[i - 1], gs[i]);
    }
  }

  /** Below an open bound the graph is closed under reads-from, so that it may be cut there. */
  lemma OpenCutClosed(g: Graph, stamp: nat)
    requires Begun(g) && ThreadsIncrease(g) && RfInverse(g) && Whole(g, stamp + 1)
    ensures CutClosed(g, stamp) && RfClosedPrefix(g, stamp, Bottom)
  {
    CutClosedPrefix(g, stamp);
    forall x | IsReadAt(g, x) && KeptBy(g, stamp, x) && L(g, x).rf != Bottom ensures KeptBy(g, stamp, L(g, x).rf) {
      DeletedIffNotKept(g, stamp, x);
      assert Below(g, stamp + 1, x);
      DeletedIffNotKept(g, stamp, L(g, x).rf);
    }
  }

  /** A graph a run has built may be cut, in either way, at any stamp but those shut, and any history may follow. */
  lemma RunsMayBeCut(ss: seq<State>, acts: seq<Action>, i: nat, stamp: nat, h: Graph)
    requires IsRun(ss, acts) && i < |ss| && stamp + 1 !in ss[i].shut
    ensures Begun(ss[i].graph) && Sound(ss[i].graph)
    ensures Moved(ss[i].graph, Move.CutBack(stamp), Cut(ss[i].graph, stamp)) && Sound(Cut(ss[i].graph, stamp))
    ensures IsDepCut(ss[i].graph, stamp, h) ==> Sound(h)
  {
    var g := ss[i].graph;
    RunGraph(ss, acts, i);
    hide RfInverse, Cut, CutClosed, ThreadsIncrease, IsRun, IsDepCut, RfClosedPrefix, Whole;
    OpenCutClosed(g, stamp);
    MoveKeeps(g, Move.CutBack(stamp), Cut(g, stamp));
    if IsDepCut(g, stamp, h) {
      DepCutKeepsInverse(g, stamp, h);
      DepCutKeeps(g, stamp, h, Initializer);
    }
  }

  lemma RunGraph(ss: seq<State>, acts: seq<Action>, i: nat)
    requires IsRun(ss, acts) && i < |ss|
    ensures var g := ss[i].graph;
            GraphOk(g) && Begun(g) && In(g, Initializer) && RfInverse(g) && ThreadsIncrease(g) && Revisitable(g)
    ensures forall n: nat :: n !in ss[i].shut ==> Whole(ss[i].graph, n)
  {
    hide Inv, GraphOk, InvAt, HeldAllOk, Settled, Whole;
    RunKeeps(ss, acts, i);
    var o := InvOrder(ss[i]);
    GraphStamps(ss[i].graph);
    InvRevisitable(ss[i].graph, ss[i].blocked, o);
  }

  /** A read of any graph a run builds, those shut away by earlier revisits aside, can be revisited backward: what
      validate() demands holds of the result exactly if no read is kept that reads from the write left out for a
      helper. */
  lemma RunsRevisitable(ss: seq<State>, acts: seq<Action>, i: nat, r: BackwardRevisit, v: Clock, h: Graph)
    requires IsRun(ss, acts) && i < |ss|
    requires IsRevisitView(ss[i].graph, r, v) && HelperOk(ss[i].graph, r) && IsCopy(ss[i].graph, Punched(r, v), h)
    requires IsReadAt(ss[i].graph, r.pos) && L(ss[i].graph, r.pos).stamp !in ss[i].shut
    ensures IsReadAt(h, r.pos) && IsWriteAt(h, r.rev)
    ensures RfInverse(RfChanged(h, r.pos, r.rev)) <==> NobodyReadsMid(ss[i].graph, r, Punched(r, v))
  {
    var g := ss[i].graph;
    hide Revisitable, IsRevisitView, IsCopy, RfClosedPrefix, RfInverse, RfChanged, NobodyReadsMid, IsRun, GraphOk,
         Whole;
    RunGraph(ss, acts, i);
    OpenPrefix(g, r.pos);
    RevisitKeepsInverseIff(g, r, v, h);
  }
}
