/** Cuts and backward revisits keep the invariant: what they leave is a trimmed graph that holds together. */
module Cutbacks {
  import opened Events
  import opened Clocks
  import opened Graphs
  import opened ImmSpec
  import opened Causality
  import opened HbExact
  import opened Fitting
  import opened Restriction
  import opened Sources
  import opened Settling
  import opened StampBounds
  import opened Trimming
  import opened RevisitSpec
  import opened CutSpec
  import opened DepCutSpec
  import opened States
  import opened Additions
  import opened Recompute
  import opened Exchanges
  import opened Orders

  // ----- what a cut leaves -----

  /** With stamps increasing along threads the cut leaves no gaps. */
  lemma CutKeepsBelow(g: Graph, stamp: nat, h: Graph, x: Event)
    requires Begun(g) && ThreadsIncrease(g) && IsDepCut(g, stamp, h)
    ensures In(h, x) <==> Below(g, stamp + 1, x)
    ensures In(h, x) ==> !Deleted(g, stamp, x)
  {
    if In(g, x) && x.index >= 1 {
      var top := Event(x.thread, Top(g, stamp, x.thread));
      if x.index <= top.index && x != top { assert L(g, x).stamp < L(g, top).stamp; }
    }
  }

  lemma SurvivorLabel(g: Graph, stamp: nat, h: Graph, x: Event)
    requires Begun(g) && ThreadsIncrease(g) && IsDepCut(g, stamp, h) && In(h, x)
    ensures In(g, x) && L(h, x) == LabelAt(g, stamp, |g|, 0, x)
    ensures L(h, x).stamp == L(g, x).stamp && L(h, x).rf == L(g, x).rf
    ensures !L(g, x).kind.ThreadJoin? ==> L(h, x).kind == L(g, x).kind && Core(L(h, x)) == Core(L(g, x))
    ensures L(g, x).kind.ThreadJoin? ==>
              L(h, x) == L(g, x) || (L(h, x) == L(g, x).(kind := ThreadJoin(L(g, x).kind.childId, Initializer)) &&
                                     exists f :: GoneFinish(g, stamp, |g|, 0, x, f))
  {
    CutKeepsBelow(g, stamp, h, x);
  }

  /** A join is reset only if its finish is gone, and then it ends its thread. */
  lemma ResetJoinEnds(g: Graph, stamp: nat, x: Event, f: Event)
    requires Whole(g, stamp + 1) && In(g, x) && L(g, x).kind.ThreadJoin? && Below(g, stamp + 1, x)
    requires GoneFinish(g, stamp, |g|, 0, x, f)
    ensures L(g, x).kind.childLast == f && !Below(g, stamp + 1, f) && LastUpTo(g, stamp + 1, x)
  {
    assert JoinedBy(g, f, x);
  }

  /** A surviving label is what it was, but for a join that has lost its finish. */
  lemma SurvivorCore(g: Graph, stamp: nat, h: Graph, x: Event)
    requires Begun(g) && ThreadsIncrease(g) && Whole(g, stamp + 1) && IsDepCut(g, stamp, h) && BeginsFirst(g)
    requires In(h, x) && forall y :: In(h, y) <==> Below(g, stamp + 1, y)
    ensures In(g, x)
    ensures if EndsThread(h, x) && L(g, x).kind.ThreadJoin? && !In(h, L(g, x).kind.childLast)
            then L(h, x).kind.ThreadJoin? && Core(L(h, x)) == Core(L(g, x).(kind := L(h, x).kind))
            else Core(L(h, x)) == Core(L(g, x))
  {
    hide IsDepCut, LabelAt, Whole, ThreadsIncrease, BeginsFirst, GoneFinish, EndsThread;
    SurvivorLabel(g, stamp, h, x);
    if L(g, x).kind.ThreadJoin? && L(h, x) != L(g, x) {
      var f :| GoneFinish(g, stamp, |g|, 0, x, f);
      ResetJoinEnds(g, stamp, x, f);
      LastEnds(g, stamp, h, x);
    }
  }

  lemma CutLengths(g: Graph, stamp: nat, h: Graph)
    requires Begun(g) && IsDepCut(g, stamp, h)
    ensures |h| == |g| && forall t :: 0 <= t < |g| ==> 0 < |h[t]| <= |g[t]|
  {}

  lemma CutTrimmed(g: Graph, stamp: nat, h: Graph)
    requires Begun(g) && ThreadsIncrease(g) && Whole(g, stamp + 1) && IsDepCut(g, stamp, h) && BeginsFirst(g)
    ensures Trimmed(g, h) && Cohesive(g, h, Bottom)
  {
    forall x ensures In(h, x) <==> Below(g, stamp + 1, x) { CutKeepsBelow(g, stamp, h, x); }
    CutLengths(g, stamp, h);
    hide IsDepCut, LabelAt, EndsThread;
    forall x | In(h, x)
      ensures In(g, x) && if EndsThread(h, x) && L(g, x).kind.ThreadJoin? && !In(h, L(g, x).kind.childLast)
                          then L(h, x).kind.ThreadJoin? && Core(L(h, x)) == Core(L(g, x).(kind := L(h, x).kind))
                          else Core(L(h, x)) == Core(L(g, x))
    {
      SurvivorCore(g, stamp, h, x);
    }
    forall x | In(g, x) && In(h, x) && Dangles(g, stamp + 1, x) ensures EndsThread(h, x) { LastEnds(g, stamp, h, x); }
  }

  /** Joins and begins are not reads; a thread begins at index 0. */
  ghost predicate BeginsFirst(g: Graph) { Started(g) && In(g, Initializer) }

  lemma LastEnds(g: Graph, stamp: nat, h: Graph, x: Event)
    requires In(h, x) && LastUpTo(g, stamp + 1, x) && (forall y :: In(h, y) <==> Below(g, stamp + 1, y))
    requires BeginsFirst(g)
    ensures EndsThread(h, x)
  {
    var y := Event(x.thread, |h[x.thread]| - 1);
    assert In(h, y);
  }

  // ----- a cut keeps the invariant -----

  lemma CutInv(g: Graph, blocked: set<nat>, o: Order, stamp: nat, h: Graph)
    requires GraphOk(g) && HeldAllOk(g, blocked, Settled(g, blocked)) && InvAt(Settled(g, blocked), o)
    requires Whole(g, stamp + 1) && IsDepCut(g, stamp, h)
    ensures var b := Stuck(g, blocked, h); InvAt(Settled(h, b), o) && HeldAllOk(h, b, Settled(h, b))
    ensures Trimmed(g, h) && Cohesive(g, h, Bottom) && Started(g) && In(g, Initializer)
  {
    SettledParts(g, blocked, o);
    MainStillBegun(g, blocked, o);
    assert ThreadsIncrease(g);
    hide InvAt, HeldAllOk, Settled, GraphOk, Whole, IsDepCut, Trimmed, Cohesive, Stuck, Started;
    assert Begun(g) && BeginsFirst(g) by { GraphBegun(g); BeginsAre(g); }
    CutTrimmed(g, stamp, h);
    assert Ends(g, h, Bottom);
    RestInv(g, blocked, o, h, Bottom);
    RestHeld(g, blocked, o, h, Bottom);
    assert Losing(g, blocked, h, Bottom) == Stuck(g, blocked, h);
  }

  lemma GraphBegun(g: Graph)
    requires GraphOk(g)
    ensures Begun(g)
  {}

  lemma BeginsAre(g: Graph)
    requires Started(g) && In(g, Initializer)
    ensures BeginsFirst(g)
  {}

  lemma CutClosedPrefix(g: Graph, stamp: nat)
    requires Whole(g, stamp + 1) && RfInverse(g)
    ensures RfClosedPrefix(g, stamp, Bottom)
  {
    forall x | IsReadAt(g, x) && x != Bottom && InPrefix(g, stamp, x)
      ensures L(g, x).rf == Bottom || L(g, x).rf == Initializer || InPrefix(g, stamp, L(g, x).rf)
    {
      assert Below(g, stamp + 1, x);
      if L(g, x).rf != Bottom && L(g, x).rf != Initializer { InternalRfIndex(g, x); }
    }
  }

  lemma CutGraph(g: Graph, stamp: nat, h: Graph)
    requires GraphOk(g) && Whole(g, stamp + 1) && IsDepCut(g, stamp, h) && In(g, Initializer) && Trimmed(g, h)
    requires Started(g)
    ensures GraphOk(h)
  {
    CutClosedPrefix(g, stamp);
    assert RfInverse(h) by {
      hide Whole, Trimmed, RfInverse, RfClosedPrefix, IsDepCut;
      DepCutKeepsInverse(g, stamp, h);
    }
    forall x | In(h, x)
      ensures In(g, x) && L(h, x).stamp == L(g, x).stamp && (L(h, x).kind.ThreadFinish? ==> L(g, x).kind.ThreadFinish?)
      ensures L(h, x).kind.ThreadJoin? ==> L(g, x).kind.ThreadJoin? && L(h, x).kind.childId == L(g, x).kind.childId &&
                                           (L(h, x).kind == L(g, x).kind || L(h, x).kind.childLast == Initializer)
      ensures !L(g, x).kind.ThreadJoin? ==> L(h, x).kind == L(g, x).kind
    {
      SurvivorLabel(g, stamp, h, x);
    }
    hide RfInverse, RfClosedPrefix, IsDepCut, Whole;
    CutBegins(g, h);
  }

  lemma CutBegins(g: Graph, h: Graph)
    requires BeginsDistinct(g) && Trimmed(g, h) && Begun(g) && Started(g)
    requires forall x :: In(h, x) ==> In(g, x) && (!L(g, x).kind.ThreadJoin? ==> L(h, x).kind == L(g, x).kind)
    ensures BeginsDistinct(h)
  {
    forall t | 0 <= t < |h| ensures h[t][0].kind == g[t][0].kind {
      assert In(h, Event(t, 0)) && L(h, Event(t, 0)) == h[t][0] && L(g, Event(t, 0)) == g[t][0];
    }
  }

  // ----- bounds after a cut -----

  lemma CutIntact(g: Graph, stamp: nat, h: Graph)
    requires Whole(g, stamp + 1) && Trimmed(g, h) && Cohesive(g, h, Bottom) && IsDepCut(g, stamp, h) && Begun(g)
    requires ThreadsIncrease(g)
    requires In(g, Initializer) && Started(g) && NoAbsent(g)
    ensures Intact(h) && Newest(h, stamp + 1)
  {
    assert In(h, Initializer);
    forall x | In(h, x)
      ensures L(h, x).kind.ThreadStart? && x != Initializer && !In(h, L(h, x).kind.parentCreate) ==> EndsThread(h, x)
      ensures L(h, x).kind.ThreadJoin? && L(h, x).kind.childLast != Initializer && !In(h, L(h, x).kind.childLast) ==>
                  EndsThread(h, x)
      ensures L(h, x).IsRead() ==> L(h, x).rf == Bottom || In(h, L(h, x).rf)
      ensures x.index >= 1 ==> L(h, x).stamp <= stamp
    {
      SurvivorLabel(g, stamp, h, x);
      CutKeepsBelow(g, stamp, h, x);
      assert !L(g, x).kind.ThreadJoin? ==> L(h, x).kind == L(g, x).kind;
      assert L(h, x).IsRead() ==> x != Bottom;
    }
  }

  lemma CutWhole(g: Graph, stamp: nat, h: Graph, n: nat)
    requires Whole(g, stamp + 1) && Whole(g, n) && n <= stamp && IsDepCut(g, stamp, h) && Begun(g) && ThreadsIncrease(g)
    ensures Whole(h, n)
  {
    forall x ensures Below(h, n, x) <==> Below(g, n, x) {
      CutKeepsBelow(g, stamp, h, x);
      if In(h, x) { SurvivorLabel(g, stamp, h, x); }
    }
    forall x | Below(h, n, x) && LastUpTo(g, n, x) ensures LastUpTo(h, n, x) {
      forall y | In(h, y) && y.thread == x.thread && y.index > x.index
        ensures L(h, y).stamp > n
      {
        SurvivorLabel(g, stamp, h, y);
      }
    }
    hide LastUpTo;
    forall x | Below(h, n, x)
      ensures L(h, x).IsRead() ==> L(h, x).rf == Bottom || Below(h, n, L(h, x).rf)
      ensures Dangles(h, n, x) ==> LastUpTo(h, n, x)
    {
      SurvivorLabel(g, stamp, h, x);
      if L(h, x).kind.ThreadJoin? { assert L(h, x) == L(g, x) || L(h, x).kind.childLast == Initializer; }
      assert L(h, x).IsRead() ==> IsReadAt(g, x);
      assert Dangles(h, n, x) ==> Dangles(g, n, x);
    }
    forall f, j | JoinedBy(h, f, j) && Below(h, n, j) && !Below(h, n, f)
      ensures LastUpTo(h, n, j) && L(h, j).kind.childLast == f
    {
      CutLinked(g, stamp, h, f, j);
    }
  }

  /** A link between a finish and a join both of which survive is the old one. */
  lemma CutLinked(g: Graph, stamp: nat, h: Graph, f: Event, j: Event)
    requires Whole(g, stamp + 1) && IsDepCut(g, stamp, h) && Begun(g) && ThreadsIncrease(g) && JoinedBy(h, f, j)
    ensures JoinedBy(g, f, j) && Below(g, stamp + 1, f) && (L(g, j).kind.childLast == f ==> L(h, j).kind.childLast == f)
  {
    SurvivorLabel(g, stamp, h, f);
    SurvivorLabel(g, stamp, h, j);
    CutKeepsBelow(g, stamp, h, f);
    CutKeepsBelow(g, stamp, h, j);
    if L(h, j) != L(g, j) {
      var f' :| GoneFinish(g, stamp, |g|, 0, j, f');
      ResetJoinEnds(g, stamp, j, f');
    }
  }

  lemma CutKeeps(s: State, stamp: nat, s': State)
    requires Inv(s) && CutStep(s, stamp, s')
    ensures Inv(s')
  {
    var g, h := s.graph, s'.graph;
    hide Inv, InvAt, HeldAllOk, Settled, Whole, GraphOk, IsDepCut, Trimmed, Cohesive, Stuck, Started;
    var o := InvOrder(s);
    CutInv(g, s.blocked, o, stamp, h);
    CutGraph(g, stamp, h);
    GraphStamps(g);
    CutIntact(g, stamp, h);
    forall n: nat | n !in s'.shut ensures Whole(h, n) {
      if n <= stamp { CutWhole(g, stamp, h, n); } else { NewestGrows(h, stamp + 1, n); NewestWhole(h, n); }
    }
    InvHolds(s', o);
  }

  lemma NewestGrows(g: Graph, m: nat, n: nat)
    requires Newest(g, m) && m <= n
    ensures Newest(g, n)
  {}

  lemma GraphStamps(g: Graph)
    requires GraphOk(g)
    ensures Begun(g) && ThreadsIncrease(g) && StampsDistinct(g) && NoAbsent(g) && RfInverse(g)
  {}

  // ----- every graph of the invariant can be revisited -----

  lemma InvRevisitable(g: Graph, blocked: set<nat>, o: Order)
    requires GraphOk(g) && HeldAllOk(g, blocked, Settled(g, blocked)) && InvAt(Settled(g, blocked), o)
    ensures Revisitable(g) && In(g, Initializer)
  {
    var w := Settled(g, blocked);
    MainStillBegun(g, blocked, o);
    GraphStamps(g);
    AccessesSettled(g, blocked);
    SettledAt(g, blocked);
    InvParts(w, o);
    hide InvAt, HeldAllOk, Settled, GraphOk, RfInverse;
    RevisitClocks(g, w, o);
    RevisitRfs(g, w, o);
  }

  lemma AccessesSettled(g: Graph, blocked: set<nat>)
    requires HeldAllOk(g, blocked, Settled(g, blocked))
    ensures forall x :: In(g, x) && L(g, x).IsMemAccess() ==>
                In(Settled(g, blocked), x) && L(Settled(g, blocked), x) == L(g, x)
  {
    forall x | In(g, x) && L(g, x).IsMemAccess()
      ensures In(Settled(g, blocked), x) && L(Settled(g, blocked), x) == L(g, x)
    {
      if IsHeld(g, blocked, x) { HeldKind(g, blocked, Settled(g, blocked), x); }
      SettledLabel(g, blocked, x);
    }
  }

  lemma RevisitClocks(g: Graph, w: Graph, o: Order)
    requires Causal(w, o) && NoAbsent(g)
    requires forall x :: In(w, x) ==> In(g, x) && L(w, x) == L(g, x)
    requires forall x :: In(g, x) && L(g, x).IsMemAccess() ==> In(w, x)
    ensures WriteClocks(g) && WritesClosed(g) && WritesKnown(g)
  {
    hide Ranked, Ordered, PpoClosed, ReleasesCover, Anchored, ReadsInside, RefsInside, StartsBare, ViewsInGraph,
         Started, Positioned;
    forall x, a, b | IsWriteAt(g, x) && CHas(g, x, a) && CHas(g, a, b) ensures CHas(g, x, b) {
      assert CHas(w, x, a) && In(w, a) && CHas(w, a, b);
    }
    forall x | IsWriteAt(g, x) ensures CHas(g, x, x) { assert CHas(w, x, x); }
  }

  lemma RevisitRfs(g: Graph, w: Graph, o: Order)
    requires RfKnown(w) && RfOrdered(w, o) && HbInv(w, o) && RfInverse(g)
    requires forall x :: In(w, x) ==> In(g, x) && L(w, x) == L(g, x)
    requires forall x :: In(g, x) && L(g, x).IsMemAccess() ==> In(w, x) && L(w, x) == L(g, x)
    requires In(w, Initializer)
    ensures RfKnown(g) && InternalRfEarlier(g)
  {
    hide LocallyExact, MessagesExact, EdgesOrdered, SourcesOrdered, Positioned, NoAbsent, ReadersRead;
    forall x | ReadsExternally(g, x) ensures CHas(g, x, L(g, x).rf) { assert ReadsExternally(w, x); }
    forall x | IsReadAt(g, x) && L(g, x).rf.thread == x.thread ensures L(g, x).rf.index < x.index {
      assert IsReadAt(w, x) && L(w, x).rf == L(g, x).rf != Bottom;
    }
  }

  lemma OpenPrefix(g: Graph, read: Event)
    requires GraphOk(g) && IsReadAt(g, read) && Whole(g, L(g, read).stamp) && RfInverse(g)
    ensures RfClosedPrefix(g, L(g, read).stamp, read)
  {
    var p := L(g, read).stamp;
    GraphStamps(g);
    hide GraphOk, RfInverse;
    forall x | IsReadAt(g, x) && x != read && InPrefix(g, p, x)
      ensures L(g, x).rf == Bottom || L(g, x).rf == Initializer || InPrefix(g, p, L(g, x).rf)
    {
      AccessIndexed(g, read);
      assert Below(g, p, x);
      if L(g, x).rf != Bottom && L(g, x).rf != Initializer { InternalRfIndex(g, x); }
    }
  }

  lemma AccessIndexed(g: Graph, x: Event)
    requires NoAbsent(g) && In(g, x) && L(g, x).IsMemAccess()
    ensures x.index >= 1
  {}

  // ----- what a copy leaves -----

  lemma CopyKeeps(g: Graph, v: Clock, c: Graph, x: Event)
    requires IsCopy(g, v, c) && Spans(g, v) && v.Tight() && NoGaps(v) && Begun(g)
    ensures In(c, x) <==> In(g, x) && (x.index == 0 || v.Has(x))
    ensures In(c, x) ==> L(c, x) == if x.index == 0 then L(g, x) else Copied(L(g, x), v)
  {
    HasAt(v, x);
    if In(c, x) && x.index >= 1 {
      var top := Event(x.thread, v.At(x.thread));
      assert v.Has(top) by { HasAt(v, top); }
      assert v.Has(Event(top.thread, x.index)) && Event(top.thread, x.index) == x;
    }
  }

  lemma CopyTrimmed(g: Graph, v: Clock, c: Graph)
    requires IsCopy(g, v, c) && Spans(g, v) && v.Tight() && NoGaps(v) && Begun(g)
    ensures Trimmed(g, c)
  {
    forall x | In(c, x) ensures In(g, x) && Core(L(c, x)) == Core(L(g, x)) { CopyKeeps(g, v, c, x); }
    hide IsCopy;
    forall x | In(c, x) && L(g, x).kind.ThreadJoin?
      ensures L(c, x).kind == L(g, x).kind
    {
      CoreFields(L(c, x), L(g, x));
    }
    forall t | 0 <= t < |g| ensures 0 < |c[t]| <= |g[t]| { CopyLength(g, v, c, t); }
  }

  lemma CopyLength(g: Graph, v: Clock, c: Graph, t: nat)
    requires IsCopy(g, v, c) && Spans(g, v) && t < |g|
    ensures 0 < |c[t]| <= |g[t]|
  {}

  /** An event of a revisit view either lies in the prefix of the read, or a later one or itself is known to the
      write. */
  lemma WhyKept(g: Graph, r: BackwardRevisit, v: Clock, y: Event) returns (z: Event)
    requires Revisitable(g) && IsRevisitView(g, r, v) && r.Backward? && v.Has(y)
    ensures z.thread == y.thread && z.index >= y.index && In(g, z)
    ensures InPrefix(g, L(g, r.pos).stamp, z) || CHas(g, r.rev, z)
  {
    var preds :| IsPrefixView(g, L(g, r.pos).stamp, preds) && PrefixAdded(g, preds, L(g, r.rev).pporf, v);
    assert WriteClocks(g) && InternalRfEarlier(g);
    hide Revisitable;
    if preds.Has(y) || L(g, r.rev).pporf.Has(y) {
      z := y;
    } else {
      var p := L(g, r.rev).pporf;
      JoinedHas(preds, p);
      var x :| IsReadAt(g, x) && 1 <= x.index <= p.At(x.thread) && preds.Joined(p).Has(x) && L(g, x).rf == y &&
          y.thread == x.thread;
      z := x;
    }
  }

  /** What follows x in its thread knows, and keeps, what x refers to. */
  lemma RefIndexed(g: Graph, blocked: set<nat>, o: Order, x: Event, z: Event, ref: Event)
    requires InvAt(Settled(g, blocked), o) && Before(x, z) && In(g, x) && In(g, z) && ref != Initializer
    requires || (L(g, x).kind.ThreadStart? && x != Initializer && ref == L(g, x).kind.parentCreate)
             || (L(g, x).kind.ThreadJoin? && ref == L(g, x).kind.childLast)
    ensures var w := Settled(g, blocked); In(w, x) && L(w, x) == L(g, x) && In(w, ref) && In(g, ref) && ref.index >= 1
  {
    var w := Settled(g, blocked);
    hide InvAt, Settled, Positioned;
    SettledLabel(g, blocked, x);
    SettledAt(g, blocked);
    InvRefs(w, o);
  }

  lemma KnownIn(g: Graph, blocked: set<nat>, o: Order, w: Event, z: Event)
    requires HeldAllOk(g, blocked, Settled(g, blocked)) && InvAt(Settled(g, blocked), o) && IsWriteAt(g, w)
    requires CHas(g, w, z)
    ensures In(g, z) && CHas(Settled(g, blocked), w, z)
  {
    AccessesSettled(g, blocked);
    InvParts(Settled(g, blocked), o);
    CHasInGraph(Settled(g, blocked), o);
    SettledAt(g, blocked);
  }

  lemma PrefixRefs(g: Graph, blocked: set<nat>, o: Order, n: nat, x: Event, z: Event, ref: Event)
    requires InvAt(Settled(g, blocked), o) && ThreadsIncrease(g) && Whole(g, n)
    requires Before(x, z) && In(g, x) && InPrefix(g, n, z) && ref != Initializer
    requires || (L(g, x).kind.ThreadStart? && x != Initializer && ref == L(g, x).kind.parentCreate)
             || (L(g, x).kind.ThreadJoin? && ref == L(g, x).kind.childLast)
    ensures InPrefix(g, n, ref)
  {
    hide InvAt, Settled, ThreadsIncrease, Whole;
    RefIndexed(g, blocked, o, x, z, ref);
    PrefixRef(g, n, x, z, ref);
  }

  lemma PrefixRef(g: Graph, n: nat, x: Event, z: Event, ref: Event)
    requires ThreadsIncrease(g) && Whole(g, n) && Before(x, z) && In(g, x) && InPrefix(g, n, z) && x.index >= 0
    requires In(g, ref) && ref.index >= 1
    requires || (L(g, x).kind.ThreadStart? && x != Initializer && ref == L(g, x).kind.parentCreate)
             || (L(g, x).kind.ThreadJoin? && ref == L(g, x).kind.childLast)
    ensures InPrefix(g, n, ref)
  {
    assert Below(g, n, x);
    assert !LastUpTo(g, n, x);
  }

  lemma WriteRefs(g: Graph, blocked: set<nat>, o: Order, w: Event, x: Event, z: Event, ref: Event)
    requires InvAt(Settled(g, blocked), o) && CHas(Settled(g, blocked), w, z)
    requires Before(x, z) && In(g, x) && In(g, z) && ref != Initializer
    requires || (L(g, x).kind.ThreadStart? && x != Initializer && ref == L(g, x).kind.parentCreate)
             || (L(g, x).kind.ThreadJoin? && ref == L(g, x).kind.childLast)
    ensures CHas(Settled(g, blocked), w, ref)
  {
    var h := Settled(g, blocked);
    RefIndexed(g, blocked, o, x, z, ref);
    InvParts(h, o);
    LabelParts(h, o, x);
    assert In(h, z) by { CHasInGraph(h, o); }
    LabelParts(h, o, z);
    hide InvAt, HbInv, RfKnown, RfOrdered, OrderingsFixed, Causal, Settled;
    KnownLater(h, x, z, ref);
    ClosureAt(h, o, w, z, ref);
  }

  lemma KnownLater(h: Graph, x: Event, z: Event, ref: Event)
    requires Sourced(h) && In(h, x) && In(h, z) && Before(x, z) && L(h, z).pos == z && WfOrdering(L(h, x))
    requires L(h, x).kind.ThreadStart? <==> x.index == 0
    requires ref != Initializer
    requires || (L(h, x).kind.ThreadStart? && ref == L(h, x).kind.parentCreate)
             || (L(h, x).kind.ThreadJoin? && ref == L(h, x).kind.childLast)
    ensures CHas(h, z, ref)
  {
    SourcedAt(h, x);
    SourcedAt(h, z);
    hide Sourced, ThroughSource, PpoSourced;
    assert CHas(h, x, ref) && IsAcquireOrFence(h, x);
  }

  lemma ClosureAt(g: Graph, o: Order, x: Event, a: Event, b: Event)
    requires Causal(g, o) && CHas(g, x, a) && CHas(g, a, b)
    ensures CHas(g, x, b)
  {}

  /** What an earlier label of the thread refers to is kept with the later one. */
  lemma RefsFollow(g: Graph, blocked: set<nat>, o: Order, r: BackwardRevisit, v: Clock, x: Event, z: Event, ref: Event)
    requires GraphOk(g) && HeldAllOk(g, blocked, Settled(g, blocked)) && InvAt(Settled(g, blocked), o)
    requires IsReadAt(g, r.pos) && IsWriteAt(g, r.rev) && Whole(g, L(g, r.pos).stamp)
    requires Before(x, z) && In(g, x) && (InPrefix(g, L(g, r.pos).stamp, z) || CHas(g, r.rev, z))
    requires ref != Initializer
    requires || (L(g, x).kind.ThreadStart? && x != Initializer && ref == L(g, x).kind.parentCreate)
             || (L(g, x).kind.ThreadJoin? && ref == L(g, x).kind.childLast)
    ensures In(g, ref) && ref.index >= 1
    ensures InPrefix(g, L(g, r.pos).stamp, ref) || CHas(g, r.rev, ref)
  {
    var n, w := L(g, r.pos).stamp, Settled(g, blocked);
    AccessesSettled(g, blocked);
    assert In(g, z) by { if CHas(g, r.rev, z) { KnownIn(g, blocked, o, r.rev, z); } }
    RefIndexed(g, blocked, o, x, z, ref);
    GraphStamps(g);
    hide InvAt, GraphOk, HeldAllOk, Settled, Whole;
    if InPrefix(g, n, z) {
      PrefixRefs(g, blocked, o, n, x, z, ref);
    } else {
      KnownIn(g, blocked, o, r.rev, z);
      WriteRefs(g, blocked, o, r.rev, x, z, ref);
      assert L(w, r.rev) == L(g, r.rev);
    }
  }

  /** A copy without gaps, in which the read ends its thread, holds together but for the read. */
  lemma CopyCohesive(g: Graph, blocked: set<nat>, o: Order, r: BackwardRevisit, v: Clock, c: Graph)
    requires GraphOk(g) && HeldAllOk(g, blocked, Settled(g, blocked)) && InvAt(Settled(g, blocked), o) && Revisitable(g)
    requires r.Backward? && IsRevisitView(g, r, v) && Whole(g, L(g, r.pos).stamp) && In(g, Initializer)
    requires NoGaps(v) && IsCopy(g, v, c)
    ensures Spans(g, v) && v.Tight() && Trimmed(g, c) && Cohesive(g, c, r.pos)
    ensures forall x :: In(c, x) <==> In(g, x) && (x.index == 0 || v.Has(x))
  {
    hide InvAt, HeldAllOk, Settled, Whole, GraphOk, RfClosedPrefix, Revisitable, IsRevisitView, IsCopy, Trimmed,
         RfInverse, NoGaps, RfClosed, Spans, ThreadsIncrease, StampsDistinct, NoAbsent, EndsThread;
    RevisitEnds(g, r, v);
    GraphStamps(g);
    RevisitViewInside(g, r, v);
    OpenPrefix(g, r.pos);
    RevisitViewClosed(g, r, v);
    ViewSpans(g, v);
    CopyTrimmed(g, v, c);
    forall x ensures In(c, x) <==> In(g, x) && (x.index == 0 || v.Has(x)) { CopyKeeps(g, v, c, x); }
    forall x | In(g, x) && In(c, x)
      ensures L(g, x).IsRead() && x != r.pos ==> L(g, x).rf == Bottom || In(c, L(g, x).rf)
      ensures L(g, x).kind.ThreadStart? && x != Initializer && !In(c, L(g, x).kind.parentCreate) ==> EndsThread(c, x)
      ensures L(g, x).kind.ThreadJoin? && L(g, x).kind.childLast != Initializer && !In(c, L(g, x).kind.childLast) ==>
                  EndsThread(c, x)
    {
      if IsReadAt(g, x) && x != r.pos { ReadKept(g, v, r.pos, x, c); }
      if L(g, x).kind.ThreadStart? && x != Initializer && L(g, x).kind.parentCreate != Initializer {
        CopiedRef(g, blocked, o, r, v, c, x, L(g, x).kind.parentCreate);
      }
      if L(g, x).kind.ThreadJoin? && L(g, x).kind.childLast != Initializer {
        CopiedRef(g, blocked, o, r, v, c, x, L(g, x).kind.childLast);
      }
    }
    assert In(c, Initializer);
  }

  lemma ReadKept(g: Graph, v: Clock, r: Event, x: Event, c: Graph)
    requires RfClosed(g, v, r) && NoAbsent(g) && RfInverse(g) && IsReadAt(g, x) && x != r && In(c, x)
    requires In(g, Initializer)
    requires forall y :: In(c, y) <==> In(g, y) && (y.index == 0 || v.Has(y))
    ensures L(g, x).rf == Bottom || In(c, L(g, x).rf)
  {
    AccessIndexed(g, x);
    assert RfKept(g, v, x);
    if L(g, x).rf != Bottom && L(g, x).rf != Initializer { InternalRfIndex(g, x); }
  }

  lemma CopiedRef(g: Graph, blocked: set<nat>, o: Order, r: BackwardRevisit, v: Clock, c: Graph, x: Event, ref: Event)
    requires GraphOk(g) && HeldAllOk(g, blocked, Settled(g, blocked)) && InvAt(Settled(g, blocked), o) && Revisitable(g)
    requires r.Backward? && IsRevisitView(g, r, v) && IsReadAt(g, r.pos) && IsWriteAt(g, r.rev)
    requires Whole(g, L(g, r.pos).stamp)
    requires forall y :: In(c, y) <==> In(g, y) && (y.index == 0 || v.Has(y))
    requires In(c, x) && In(g, x) && ref != Initializer
    requires || (L(g, x).kind.ThreadStart? && x != Initializer && ref == L(g, x).kind.parentCreate)
             || (L(g, x).kind.ThreadJoin? && ref == L(g, x).kind.childLast)
    ensures In(c, ref) || EndsThread(c, x)
  {
    hide InvAt, HeldAllOk, Settled, Whole, GraphOk, Revisitable, IsRevisitView;
    var y := Event(x.thread, |c[x.thread]| - 1);
    if !EndsThread(c, x) {
      assert In(c, y) && v.Has(y);
      var z := WhyKept(g, r, v, y);
      RefsFollow(g, blocked, o, r, v, x, z, ref);
      PrefixAndWriteKept(g, r, v, ref);
    }
  }

  lemma PrefixAndWriteKept(g: Graph, r: BackwardRevisit, v: Clock, e: Event)
    requires IsRevisitView(g, r, v) && r.Backward? && (InPrefix(g, L(g, r.pos).stamp, e) || CHas(g, r.rev, e))
    ensures v.Has(e)
  {}

  // ----- a backward revisit keeps the invariant -----

  /** Labels of the revisited graph, compared with those of the copy. */
  ghost predicate Revisited(c: Graph, p: nat, read: Event, write: Event, r: Graph, next: nat, lab: Label, h: Graph) {
    && Restamped(c, p, r, next) && IsReadAt(c, read) && L(c, read).stamp == p
    && |h| == |c| && (forall t :: 0 <= t < |c| ==> |h[t]| == |c[t]|)
    && L(h, read) == lab && lab == L(c, read).(rf := write, hb := lab.hb, pporf := lab.pporf)
    && (forall x :: In(c, x) && x != read ==>
                      var l, m := L(c, x), L(h, x);
                      && m == l.(stamp := m.stamp, readers := m.readers) && m.stamp == L(r, x).stamp
                      && (!l.IsWrite() ==> m.readers == l.readers))
  }

  lemma RevisitShape(c: Graph, p: nat, read: Event, write: Event, r: Graph, next: nat, lab: Label)
    requires Restamped(c, p, r, next) && IsReadAt(c, read) && L(c, read).stamp == p && IsReadAt(r, read)
    requires var h1 := RfChanged(r, read, write); In(h1, read) && lab == L(h1, read).(hb := lab.hb, pporf := lab.pporf)
    ensures Revisited(c, p, read, write, r, next, lab, Set(RfChanged(r, read, write), read, lab))
    ensures forall x :: In(c, x) && x != read ==> Core(L(RfChanged(r, read, write), x)) == Core(L(c, x))
    ensures forall x :: In(RfChanged(r, read, write), x) <==> In(c, x)
    ensures L(RfChanged(r, read, write), read) == L(c, read).(rf := write)
  {
    var h1 := RfChanged(r, read, write);
    RfChangedAt(r, read, write);
    SetAt(h1, read, lab);
    assert |h1| == |r| && forall t :: 0 <= t < |r| ==> |h1[t]| == |r[t]|;
    assert forall x :: In(r, x) <==> In(c, x);
    hide RfChanged, Set;
  }

  /** Of the revisited graph only this matters to its clocks: the labels are those of the copy, the read aside. */
  ghost predicate Retaken(c: Graph, read: Event, write: Event, h: Graph) {
    && IsReadAt(c, read) && |h| == |c| && (forall t :: 0 <= t < |c| ==> |h[t]| == |c[t]|)
    && L(h, read) == L(c, read).(rf := write, hb := L(h, read).hb, pporf := L(h, read).pporf)
    && (forall x :: In(c, x) && x != read ==>
          && Core(L(h, x)) == Core(L(c, x)) && L(h, x).kind == L(c, x).kind
          && (!L(c, x).IsWrite() ==> L(h, x) == L(c, x).(stamp := L(h, x).stamp)))
  }

  lemma RevisitedRetaken(c: Graph, p: nat, read: Event, write: Event, r: Graph, next: nat, lab: Label, h: Graph)
    requires Revisited(c, p, read, write, r, next, lab, h)
    ensures Retaken(c, read, write, h)
  {}

  lemma RetakenRead(c: Graph, read: Event, write: Event, h: Graph)
    requires Retaken(c, read, write, h)
    ensures In(h, read) && IsReadAt(c, read) && L(h, read).rf == write
  {}

  lemma RetakenIn(c: Graph, b: set<nat>, read: Event, write: Event, h: Graph)
    requires Retaken(c, read, write, h)
    ensures forall x :: In(h, x) <==> In(c, x)
    ensures forall x :: IsHeld(h, b, x) <==> IsHeld(c, b, x)
    ensures forall x :: In(Settled(h, b), x) <==> In(Settled(c, b), x)
    ensures forall x :: In(Settled(h, b), x) ==> In(h, x) && In(c, x) && L(Settled(h, b), x) == L(h, x)
    ensures forall x :: In(Settled(h, b), x) <==> In(c, x) && !IsHeld(c, b, x)
    ensures |Settled(h, b)| == |c|
  {
    SettledAt(h, b);
    SettledAt(c, b);
  }

  /** Reads and writes of a copy are not what threads are blocked at. */
  lemma AccessNotHeld(g: Graph, blocked: set<nat>, c: Graph, x: Event)
    requires HeldAllOk(g, blocked, Settled(g, blocked)) && Trimmed(g, c) && In(g, x) && In(c, x)
    requires L(g, x).IsMemAccess()
    ensures !IsHeld(c, Stuck(g, blocked, c), x)
  {
    if x.thread in blocked && |c[x.thread]| == |g[x.thread]| && x.index == |c[x.thread]| - 1 {
      HeldKind(g, blocked, Settled(g, blocked), x);
    }
    assert x.index == |c[x.thread]| - 1 ==> g[x.thread][|c[x.thread]| - 1] == L(g, x);
  }

  lemma LosingNone(g: Graph, blocked: set<nat>, c: Graph)
    ensures Losing(g, blocked, c, Bottom) == Stuck(g, blocked, c) && Ends(g, c, Bottom)
  {}

  /** The settled part of the revisited graph is that of the graph, the read aside. */
  lemma RevisitSwaps(g: Graph, blocked: set<nat>, o: Order, c: Graph, read: Event, write: Event, h: Graph)
    requires HeldAllOk(g, blocked, Settled(g, blocked)) && InvAt(Settled(g, blocked), o)
    requires Trimmed(g, c) && Cohesive(g, c, read) && Retaken(c, read, write, h) && IsReadAt(g, read) && read.index >= 1
    requires L(c, read) == L(g, read).(readers := L(c, read).readers)
    requires IsWriteAt(g, write) && In(c, write) && write.thread != read.thread
    ensures Swapped(Settled(h, Stuck(g, blocked, c)), Settled(g, blocked), read)
    ensures In(Settled(h, Stuck(g, blocked, c)), Initializer)
  {
    var b, w := Stuck(g, blocked, c), Settled(g, blocked);
    var q := Settled(h, b);
    hide InvAt, HeldAllOk, Settled, Trimmed, Cohesive, Stuck, Retaken, RefersInside, Core, Swapped;
    LosingNone(g, blocked, c);
    RetakenRead(c, read, write, h);
    RetakenIn(c, b, read, write, h);
    AccessNotHeld(g, blocked, c, read);
    AccessNotHeld(g, blocked, c, write);
    AccessesSettled(g, blocked);
    forall x | In(q, x)
      ensures In(w, x) && RefersInside(q, L(q, x)) && (x != read ==> Core(L(q, x)) == Core(L(w, x)))
    {
      if x != read { SwappedLabel(g, blocked, o, c, read, write, h, x); } else { SwappedRead(c, read, write, h, q); }
    }
    MainKept(g, blocked, o, c);
    SwappedWhole(g, c, read, write, h, q, w);
  }

  lemma MainKept(g: Graph, blocked: set<nat>, o: Order, c: Graph)
    requires HeldAllOk(g, blocked, Settled(g, blocked)) && InvAt(Settled(g, blocked), o) && Trimmed(g, c)
    ensures In(Settled(c, Stuck(g, blocked, c)), Initializer)
  {
    LosingNone(g, blocked, c);
    InvParts(Settled(g, blocked), o);
    hide InvAt, Settled, Trimmed, Stuck, HeldAllOk, Losing, Ends;
    MainStays(g, blocked, c, Bottom);
  }

  lemma SwappedRead(c: Graph, read: Event, write: Event, h: Graph, q: Graph)
    requires Retaken(c, read, write, h) && In(q, read) && L(q, read) == L(h, read) && In(q, write)
    ensures RefersInside(q, L(q, read)) && L(q, read).IsRead() && L(q, read).rf == write
  {}

  lemma SwappedLabel(g: Graph, blocked: set<nat>, o: Order, c: Graph, read: Event, write: Event, h: Graph, x: Event)
    requires HeldAllOk(g, blocked, Settled(g, blocked)) && InvAt(Settled(g, blocked), o)
    requires Trimmed(g, c) && Cohesive(g, c, read) && Retaken(c, read, write, h) && x != read
    requires In(Settled(h, Stuck(g, blocked, c)), x)
    ensures var q, w := Settled(h, Stuck(g, blocked, c)), Settled(g, blocked);
            In(w, x) && RefersInside(q, L(q, x)) && Core(L(q, x)) == Core(L(w, x))
  {
    var b, w := Stuck(g, blocked, c), Settled(g, blocked);
    var q, p := Settled(h, b), Settled(c, Stuck(g, blocked, c));
    hide InvAt, HeldAllOk, Settled, Trimmed, Cohesive, Stuck, Core, RefersInside, RefsInside, Started, MainBegun,
         Positioned, Within;
    LosingNone(g, blocked, c);
    RetakenIn(c, b, read, write, h);
    SettledAt(g, blocked);
    SettledAt(c, b);
    SettledParts(g, blocked, o);
    InvRefs(w, o);
    assert MainBegun(w) by { InvParts(w, o); }
    hide Losing, Ends;
    RestWithin(g, blocked, c, Bottom);
    assert In(w, x) && Core(L(w, x)) == Core(L(p, x)) by { WithinAt(p, w, x); }
    RestRefers(g, blocked, c, Bottom, read, x);
    assert L(w, x) == L(g, x) && Core(L(q, x)) == Core(L(p, x));
    RefersSame(p, q, L(g, x), L(q, x));
  }

  lemma WithinAt(p: Graph, w: Graph, x: Event)
    requires Within(p, w) && In(p, x)
    ensures In(w, x) && Core(L(w, x)) == Core(L(p, x))
  {}

  lemma RefersSame(p: Graph, q: Graph, l: Label, m: Label)
    requires RefersInside(p, l) && Core(l) == Core(m) && forall x :: In(q, x) <==> In(p, x)
    ensures RefersInside(q, m)
  {
    CoreFields(l, m);
  }

  lemma SwappedWhole(g: Graph, c: Graph, read: Event, write: Event, h: Graph, q: Graph, w: Graph)
    requires Retaken(c, read, write, h) && In(q, read) && L(q, read) == L(h, read) && read.index >= 1
    requires IsReadAt(g, read) && IsReadAt(w, read) && L(w, read) == L(g, read)
    requires L(c, read) == L(g, read).(readers := L(c, read).readers)
    requires In(q, write) && In(c, write) && L(q, write) == L(h, write) && write != read && write.thread != read.thread
    requires IsWriteAt(w, write) && forall x :: In(q, x) ==> In(w, x) && RefersInside(q, L(q, x)) &&
                                                             (x != read ==> Core(L(q, x)) == Core(L(w, x)))
    ensures Swapped(q, w, read)
  {
    CoreFields(L(q, write), L(w, write));
    hide RefersInside;
  }

  // ----- the views the read is given -----

  /** h has the labels of q, but for the views of the read. */
  ghost predicate Precedes(h: Graph, q: Graph, read: Event) {
    && In(h, read) && In(q, read) && L(q, read) == L(h, read).(hb := L(q, read).hb, pporf := L(q, read).pporf)
    && forall x :: In(q, x) && x != read ==> In(h, x) && Core(L(h, x)) == Core(L(q, x))
  }

  lemma PrecedesAt(h: Graph, q: Graph, read: Event, x: Event)
    requires Precedes(h, q, read) && In(q, x) && x != read
    ensures In(h, x)
    ensures var l, m := L(h, x), L(q, x);
            l.pporf == m.pporf && l.hb == m.hb && l.msg == m.msg && l.addr == m.addr && l.IsWrite() == m.IsWrite()
  {
    CoreFields(L(h, x), L(q, x));
  }

  lemma ReadComputed(h: Graph, q: Graph, w: Graph, read: Event)
    requires Precedes(h, q, read) && Swapped(q, w, read) && RfContents(h, L(h, read), L(q, read))
    requires L(h, read).pos == read
    ensures ReadExact(q, read)
  {
    var rf := L(q, read).rf;
    assert In(q, read.Prev());
    PrecedesAt(h, q, read, read.Prev());
    PrecedesAt(h, q, read, rf);
    hide Precedes, Swapped, FromRf;
    assert forall a :: HbHas(q, read.Prev(), a) <==> HbHas(h, read.Prev(), a);
    assert forall a :: MsgHas(q, rf, a) <==> MsgHas(h, rf, a);
  }

  lemma RfComputed(h: Graph, q: Graph, w: Graph, read: Event, a: Event)
    requires Precedes(h, q, read) && Swapped(q, w, read) && RfContents(h, L(h, read), L(q, read))
    requires L(h, read).pos == read
    requires L(q, read).rf != Initializer
    ensures var lab := L(q, read); lab.pporf.Has(a) <==> FromRf(w, read, lab.addr, lab.rf, lab.ppo, a)
  {
    var lab, rf := L(q, read), L(q, read).rf;
    PrecedesAt(h, q, read, rf);
    SwapFields(q, w, read, rf);
    OwnWritesComputed(h, q, w, read, a);
    assert RfTarget(h, rf) && RfTarget(w, rf) && rf.thread != read.thread && rf != Bottom;
    hide Precedes, Swapped, HbNew, FromOwnWrites;
    assert lab.pporf.Has(a) <==> FromRf(h, read, lab.addr, rf, lab.ppo, a);
  }

  lemma OwnWritesComputed(h: Graph, q: Graph, w: Graph, read: Event, a: Event)
    requires Precedes(h, q, read) && Swapped(q, w, read)
    ensures FromOwnWrites(h, read, L(q, read).addr, a) <==> FromOwnWrites(w, read, L(q, read).addr, a)
  {
    forall v: Event | v.thread == read.thread && v.index < read.index && (In(h, v) || In(w, v))
      ensures In(h, v) && In(w, v) && L(h, v).pporf == L(w, v).pporf && L(h, v).addr == L(w, v).addr
      ensures L(h, v).IsWrite() == L(w, v).IsWrite()
    {
      PrecedesAt(h, q, read, v);
      SwapFields(q, w, read, v);
    }
  }

  /** Fences of the settled part have what they had in the whole graph. */
  lemma FencesSettled(h: Graph, q: Graph, read: Event)
    requires LateFencesExact(h, read) && (forall x :: In(q, x) ==> In(h, x) && L(q, x) == L(h, x))
    requires forall x :: IsWriteAt(h, x) ==> In(q, x)
    ensures LateFencesExact(q, read)
  {
    forall x | LateFence(q, read, x) ensures FenceExact(q, x) {
      assert LateFence(h, read, x) && FenceExact(h, x);
      forall a ensures HbHas(q, x, a) <==> a == x || HbHas(q, x.Prev(), a) || ViaFence(q, x, a) {
        FenceSettled(h, q, x, a);
      }
    }
  }

  lemma FenceSettled(h: Graph, q: Graph, x: Event, a: Event)
    requires (forall y :: In(q, y) ==> In(h, y) && L(q, y) == L(h, y)) && (forall y :: IsWriteAt(h, y) ==> In(q, y))
    requires In(q, x)
    ensures HbHas(q, x, a) <==> HbHas(h, x, a)
    ensures HbHas(q, x.Prev(), a) <==> HbHas(h, x.Prev(), a)
    ensures ViaFence(q, x, a) <==> ViaFence(h, x, a)
  {
    forall r | FenceableRead(q, x, r) || FenceableRead(h, x, r)
      ensures FenceableRead(q, x, r) && FenceableRead(h, x, r) && L(q, r).rf == L(h, r).rf
    {
      assert In(q, r) && In(h, r);
    }
    forall y ensures MsgHas(q, y, a) <==> MsgHas(h, y, a) {}
  }

  // ----- what threads are blocked at after it -----

  lemma RevisitHeld(g: Graph, blocked: set<nat>, o: Order, c: Graph, read: Event, write: Event, h: Graph, q: Graph)
    requires HeldAllOk(g, blocked, Settled(g, blocked)) && InvAt(Settled(g, blocked), o) && Trimmed(g, c)
    requires Retaken(c, read, write, h) && q == Settled(h, Stuck(g, blocked, c))
    requires CausalSwap(q, Settled(g, blocked), o, read) && Unbuilt(c, Stuck(g, blocked, c), read)
    requires forall x :: IsHeld(c, Stuck(g, blocked, c), x) ==> x != read && In(g, x) && !L(c, x).IsWrite()
    ensures HeldAllOk(h, Stuck(g, blocked, c), q)
  {
    var b := Stuck(g, blocked, c);
    hide HeldAllOk, InvAt, Settled, Trimmed, CausalSwap, Retaken, BaseOk, PpoSourced, WfOrdering, Unbuilt, Stuck;
    forall t | t in b ensures HeldOk(h, q, t) {
      StuckHeld(g, blocked, c, t);
      var x := Event(t, |c[t]| - 1);
      RetakenHeld(c, b, read, write, h, x);
      if x.index == 0 {
        HeldBeginAfter(g, blocked, o, c, read, write, h, t);
      } else {
        HeldJoinAfter(g, blocked, o, c, read, write, h, q, x);
      }
    }
    AllHeld(h, b, q);
  }

  lemma AllHeld(h: Graph, b: set<nat>, q: Graph)
    requires forall t :: t in b ==> HeldOk(h, q, t)
    ensures HeldAllOk(h, b, q)
  {}

  lemma StuckHeld(g: Graph, blocked: set<nat>, c: Graph, t: nat)
    requires t in Stuck(g, blocked, c)
    ensures t < |c| && |c[t]| > 0 && IsHeld(c, Stuck(g, blocked, c), Event(t, |c[t]| - 1))
  {}

  lemma RetakenHeld(c: Graph, b: set<nat>, read: Event, write: Event, h: Graph, x: Event)
    requires Retaken(c, read, write, h) && IsHeld(c, b, x) && x != read && !L(c, x).IsWrite()
    ensures In(h, x) && |h| == |c| && |h[x.thread]| == |c[x.thread]| && L(h, x) == L(c, x).(stamp := L(h, x).stamp)
    ensures Limit(Settled(h, b), x)
  {
    SettledAt(h, b);
  }

  lemma HeldBeginAfter(g: Graph, blocked: set<nat>, o: Order, c: Graph, read: Event, write: Event, h: Graph, t: nat)
    requires HeldAllOk(g, blocked, Settled(g, blocked)) && InvAt(Settled(g, blocked), o) && Trimmed(g, c)
    requires Retaken(c, read, write, h) && t in Stuck(g, blocked, c) && t < |c| && |c[t]| == 1
    requires var x := Event(t, 0); In(h, x) && L(h, x) == L(c, x).(stamp := L(h, x).stamp)
    ensures var x := Event(t, 0);
            && L(h, x).pos == x && WfOrdering(L(h, x)) && L(h, x).kind.ThreadStart? && t != 0
            && !CreatorRef(h, L(h, x).kind.parentCreate) && L(h, x).ppo == EmptyClock
  {
    hide HeldAllOk, InvAt, Settled, Trimmed, Stuck, WfOrdering;
    HeldBegin(g, blocked, o, c, t);
    var x := Event(t, 0);
    OrderingSame(L(c, x), L(h, x));
    CreatorsSame(c, read, write, h, L(h, x).kind.parentCreate);
  }

  lemma CreatorsSame(c: Graph, read: Event, write: Event, h: Graph, e: Event)
    requires Retaken(c, read, write, h)
    ensures CreatorRef(h, e) ==> CreatorRef(c, e)
  {}

  lemma HeldJoinAfter(g: Graph, blocked: set<nat>, o: Order, c: Graph, read: Event, write: Event, h: Graph, q: Graph,
                      x: Event)
    requires HeldAllOk(g, blocked, Settled(g, blocked)) && InvAt(Settled(g, blocked), o) && Trimmed(g, c)
    requires CausalSwap(q, Settled(g, blocked), o, read) && Unbuilt(c, Stuck(g, blocked, c), read)
    requires IsHeld(c, Stuck(g, blocked, c), x) && x.index >= 1 && In(h, x)
    requires L(h, x) == L(c, x).(stamp := L(h, x).stamp)
    requires Limit(q, x) && x != read
    ensures var l := L(h, x);
            && l.pos == x && WfOrdering(l) && l.kind.ThreadJoin? && l.ppo.Wf() && l.ppo.Tight()
            && BaseOk(q, x, l.ppo) && PpoSourced(q, x, l.ppo)
  {
    hide HeldAllOk, InvAt, Settled, Trimmed, CausalSwap, BaseOk, PpoSourced, WfOrdering, Stuck, Losing, Ends;
    LosingNone(g, blocked, c);
    LosingBase(g, blocked, o, c, Bottom, x);
    HeldIsJoin(g, blocked, o, c, Bottom, x);
    OrderingSame(L(c, x), L(h, x));
    assert !L(c, x).ppo.Has(read);
    SwapBase(q, Settled(g, blocked), o, read, x, L(c, x).ppo);
  }

  // ----- all clocks after it -----

  /** What is revisited, and what it needs of the graph and the copy. */
  ghost predicate Revisiting(g: Graph, blocked: set<nat>, o: Order, c: Graph, read: Event, write: Event) {
    && HeldAllOk(g, blocked, Settled(g, blocked)) && InvAt(Settled(g, blocked), o)
    && Trimmed(g, c) && Cohesive(g, c, read) && PartOf(g, c)
    && IsReadAt(g, read) && read.index >= 1 && In(c, read) && IsWriteAt(g, write) && In(c, write)
    && write.thread != read.thread
    && Unknown(c, Stuck(g, blocked, c), read) && Unbuilt(c, Stuck(g, blocked, c), read)
  }

  lemma RevisitingSwaps(g: Graph, blocked: set<nat>, o: Order, c: Graph, read: Event, write: Event, h: Graph)
    requires Revisiting(g, blocked, o, c, read, write) && Retaken(c, read, write, h)
    ensures var q, w := Settled(h, Stuck(g, blocked, c)), Settled(g, blocked);
            && Swapped(q, w, read) && In(q, Initializer) && In(q, read) && L(q, read) == L(h, read) && InvAt(w, o)
            && Unseen(q, read) && L(q, read).rf != Initializer
  {
    var b, w := Stuck(g, blocked, c), Settled(g, blocked);
    var q := Settled(h, b);
    hide InvAt, HeldAllOk, Settled, Trimmed, Cohesive, Stuck, Retaken, Swapped, PartOf, Unknown, Unbuilt, Unseen;
    PartRead(g, c, read);
    RevisitSwaps(g, blocked, o, c, read, write, h);
    RetakenIn(c, b, read, write, h);
    SwapReadIn(q, w, read);
    RereadWrite(q, w, o, read);
    UnknownUnseen(c, b, read, write, h, q);
  }

  lemma PartRead(g: Graph, c: Graph, read: Event)
    requires PartOf(g, c) && In(c, read)
    ensures In(g, read) && L(c, read) == L(g, read).(readers := L(c, read).readers)
  {}

  lemma RevisitedSwap(g: Graph, blocked: set<nat>, o: Order, c: Graph, read: Event, write: Event, h1: Graph, h: Graph)
    requires Revisiting(g, blocked, o, c, read, write) && Retaken(c, read, write, h) && IsReadAt(h1, read)
    requires In(h, read)
    requires IsReadAt(c, read)
    requires (forall x :: In(c, x) && x != read ==> In(h1, x) && Core(L(h1, x)) == Core(L(c, x)))
    requires L(h1, read) == L(c, read).(rf := write) && RfContents(h1, L(h1, read), L(h, read))
    ensures var q := Settled(h, Stuck(g, blocked, c));
            CausalSwap(q, Settled(g, blocked), o, read) && ReadExact(q, read) && In(q, Initializer) &&
                L(q, read) == L(h, read)
  {
    var b, w := Stuck(g, blocked, c), Settled(g, blocked);
    var q := Settled(h, b);
    hide InvAt, HeldAllOk, Settled, Trimmed, Cohesive, Stuck, Retaken, Swapped, RfContents, PartOf, Precedes, Unknown,
         Unbuilt, Unseen, Revisiting, Core, FromRf;
    RevisitingSwaps(g, blocked, o, c, read, write, h);
    RetakenPrecedes(c, b, read, write, h1, h, q);
    ReadPlace(w, o, c, h, h1, q, read, write);
    ReadComputed(h1, q, w, read);
    forall a ensures var lab := L(q, read); lab.pporf.Has(a) <==> FromRf(w, read, lab.addr, lab.rf, lab.ppo, a) {
      RfComputed(h1, q, w, read, a);
    }
    ContentsClock(h1, L(h1, read), L(h, read));
  }

  lemma ContentsClock(h: Graph, l: Label, lab: Label)
    requires RfContents(h, l, lab)
    ensures lab.pporf.Wf() && lab.pporf.Tight()
  {}

  lemma RetakenPrecedes(c: Graph, b: set<nat>, read: Event, write: Event, h1: Graph, h: Graph, q: Graph)
    requires Retaken(c, read, write, h) && q == Settled(h, b) && In(q, read) && In(h1, read)
    requires forall x :: In(c, x) && x != read ==> In(h1, x) && Core(L(h1, x)) == Core(L(c, x))
    requires L(h1, read) == L(c, read).(rf := write)
    ensures Precedes(h1, q, read)
  {
    RetakenIn(c, b, read, write, h);
  }

  lemma ReadPlace(w: Graph, o: Order, c: Graph, h: Graph, h1: Graph, q: Graph, read: Event, write: Event)
    requires Swapped(q, w, read) && InvAt(w, o) && In(h1, read) && In(h, read) && L(q, read) == L(h, read)
    requires Retaken(c, read, write, h) && L(h1, read) == L(c, read).(rf := write)
    ensures L(h1, read).pos == read
  {
    hide InvAt;
    SwapFields(q, w, read, read);
    LabelParts(w, o, read);
  }

  lemma UnknownUnseen(c: Graph, b: set<nat>, read: Event, write: Event, h: Graph, q: Graph)
    requires Unknown(c, b, read) && Retaken(c, read, write, h) && q == Settled(h, b)
    ensures Unseen(q, read)
  {
    RetakenIn(c, b, read, write, h);
    forall x | In(q, x) && x != read ensures CHas(q, x, read) <==> CHas(c, x, read) { CoreFields(L(h, x), L(c, x)); }
  }

  lemma RevisitInv(g: Graph, blocked: set<nat>, o: Order, c: Graph, stamp: nat, read: Event, write: Event, r: Graph,
                   next: nat, lab: Label)
    requires Revisiting(g, blocked, o, c, read, write) && L(c, read).stamp == stamp
    requires Restamped(c, stamp, r, next) && IsReadAt(r, read)
    requires var h1 := RfChanged(r, read, write); In(h1, read) && RfContents(h1, L(h1, read), lab)
    requires LateFencesExact(Set(RfChanged(r, read, write), read, lab), read)
    ensures var h, b := Set(RfChanged(r, read, write), read, lab), Stuck(g, blocked, c);
            && InvAt(Settled(h, b), After(Lowered(Settled(g, blocked), o), lab, read))
            && HeldAllOk(h, b, Settled(h, b))
  {
    var h1 := RfChanged(r, read, write);
    var h, b, w := Set(h1, read, lab), Stuck(g, blocked, c), Settled(g, blocked);
    var q := Settled(h, b);
    assert IsReadAt(c, read) by { PartLabels(g, c, read, write); }
    hide InvAt, HeldAllOk, Settled, Stuck, RfChanged, RfContents, Set, Retaken, Revisited, Restamped, Revisiting, Core,
         CausalSwap, ReadExact, LateFencesExact, Lowered;
    ContentsFields(h1, L(h1, read), lab);
    RevisitShape(c, stamp, read, write, r, next, lab);
    RevisitedRetaken(c, stamp, read, write, r, next, lab, h);
    RetakenRead(c, read, write, h);
    RevisitedSwap(g, blocked, o, c, read, write, h1, h);
    RetakenFences(g, blocked, o, c, read, write, h);
    SwapInv(q, w, o, read);
    RevisitedHeld(g, blocked, o, c, read, write, h);
  }

  lemma RetakenFences(g: Graph, blocked: set<nat>, o: Order, c: Graph, read: Event, write: Event, h: Graph)
    requires Revisiting(g, blocked, o, c, read, write) && Retaken(c, read, write, h) && LateFencesExact(h, read)
    ensures LateFencesExact(Settled(h, Stuck(g, blocked, c)), read)
  {
    var b := Stuck(g, blocked, c);
    hide InvAt, HeldAllOk, Settled, Trimmed, Cohesive, Stuck, LateFencesExact, Unknown, Unbuilt;
    RetakenIn(c, b, read, write, h);
    forall x | IsWriteAt(h, x) ensures In(Settled(h, b), x) {
      assert In(c, x) && L(c, x).IsWrite() && L(g, x).IsWrite();
      AccessNotHeld(g, blocked, c, x);
    }
    hide Retaken, PartOf;
    FencesSettled(h, Settled(h, b), read);
  }

  lemma RevisitedHeld(g: Graph, blocked: set<nat>, o: Order, c: Graph, read: Event, write: Event, h: Graph)
    requires Revisiting(g, blocked, o, c, read, write) && Retaken(c, read, write, h)
    requires CausalSwap(Settled(h, Stuck(g, blocked, c)), Settled(g, blocked), o, read)
    ensures HeldAllOk(h, Stuck(g, blocked, c), Settled(h, Stuck(g, blocked, c)))
  {
    var b := Stuck(g, blocked, c);
    hide InvAt, HeldAllOk, Settled, Trimmed, Cohesive, Stuck, CausalSwap, Unknown, Unbuilt, Retaken;
    forall x | IsHeld(c, b, x) ensures x != read && In(g, x) && !L(c, x).IsWrite() {
      if L(g, x).IsMemAccess() { AccessNotHeld(g, blocked, c, x); }
    }
    RevisitHeld(g, blocked, o, c, read, write, h, Settled(h, b));
  }

  lemma RevisitInverse(g: Graph, rv: BackwardRevisit, v: Clock, c: Graph, stamp: nat, r: Graph, next: nat, lab: Label)
    requires Revisitable(g) && In(g, Initializer) && rv.Backward? && IsRevisitView(g, rv, v)
    requires RfClosedPrefix(g, L(g, rv.pos).stamp, rv.pos) && Spans(g, v) && IsCopy(g, v, c)
    requires Restamped(c, stamp, r, next) && IsReadAt(r, rv.pos) && IsWriteAt(c, rv.rev)
    requires var h1 := RfChanged(r, rv.pos, rv.rev);
                 In(h1, rv.pos) && lab == L(h1, rv.pos).(hb := lab.hb, pporf := lab.pporf)
    ensures RfInverse(Set(RfChanged(r, rv.pos, rv.rev), rv.pos, lab))
  {
    hide Revisitable, IsRevisitView, RfClosedPrefix, IsCopy, RfInverseExcept, Spans, Restamped;
    CopiedInverse(g, rv, v, c);
    RestampedInverse(c, stamp, r, next, rv.pos);
    RereadInverse(r, rv.pos, rv.rev, lab);
  }

  lemma CopiedInverse(g: Graph, rv: BackwardRevisit, v: Clock, c: Graph)
    requires Revisitable(g) && In(g, Initializer) && IsRevisitView(g, rv, v)
    requires RfClosedPrefix(g, L(g, rv.pos).stamp, rv.pos) && Spans(g, v) && IsCopy(g, v, c)
    ensures RfInverseExcept(c, rv.pos)
  {
    RevisitParts(g);
    hide Revisitable, IsRevisitView, RfClosedPrefix, RfClosed, IsCopy, RfInverse, RfInverseExcept, Spans;
    RevisitViewClosed(g, rv, v);
    CopyKeepsInverse(g, v, c, rv.pos);
  }

  lemma RereadInverse(r: Graph, read: Event, write: Event, lab: Label)
    requires RfInverseExcept(r, read) && IsReadAt(r, read) && RfTarget(r, write)
    requires var h1 := RfChanged(r, read, write); In(h1, read) && lab == L(h1, read).(hb := lab.hb, pporf := lab.pporf)
    ensures RfInverse(Set(RfChanged(r, read, write), read, lab))
  {
    hide RfInverse, RfInverseExcept, RfChanged, Set;
    var h1 := RfChanged(r, read, write);
    ChangeRfKeepsInverse(r, read, write);
    SetAt(h1, read, lab);
    SameListingInverse(h1, Set(h1, read, lab));
  }

  lemma RestampedInverse(c: Graph, stamp: nat, r: Graph, next: nat, x: Event)
    requires RfInverseExcept(c, x) && Restamped(c, stamp, r, next)
    ensures RfInverseExcept(r, x) && forall e :: RfTarget(c, e) ==> RfTarget(r, e)
  {
    assert forall y :: In(r, y) <==> In(c, y);
    forall e | IsReadAt(r, e) && e != x && L(r, e).rf != Bottom
      ensures RfTarget(r, L(r, e).rf) && (IsWriteAt(r, L(r, e).rf) ==> e in L(r, L(r, e).rf).readers)
    {
      assert IsReadAt(c, e) && RfTarget(c, L(c, e).rf);
    }
    forall w, y | IsWriteAt(r, w) && y in L(r, w).readers ensures IsReadAt(r, y) && L(r, y).rf == w {
      assert IsWriteAt(c, w) && IsReadAt(c, y);
    }
  }

  /** The copy, compared with the graph. */
  ghost predicate PartOf(g: Graph, c: Graph) {
    && |c| == |g| && (forall t :: 0 <= t < |g| ==> 0 < |c[t]| <= |g[t]|)
    && (forall x :: In(c, x) ==> In(g, x) && L(c, x) == L(g, x).(readers := L(c, x).readers))
  }

  lemma CopyPart(g: Graph, v: Clock, c: Graph)
    requires IsCopy(g, v, c) && Spans(g, v) && v.Tight() && NoGaps(v) && Begun(g)
    ensures PartOf(g, c)
  {
    forall x | In(c, x) ensures In(g, x) && L(c, x) == L(g, x).(readers := L(c, x).readers) { CopyKeeps(g, v, c, x); }
    forall t | 0 <= t < |g| ensures 0 < |c[t]| <= |g[t]| { CopyLength(g, v, c, t); }
  }

  lemma RevisitedStamps(g: Graph, c: Graph, p: nat, read: Event, write: Event, r: Graph, next: nat, lab: Label,
                        h: Graph)
    requires Stamped(g) && PartOf(g, c) && Revisited(c, p, read, write, r, next, lab, h)
    ensures Stamped(h)
  {
    assert forall x :: In(h, x) <==> In(c, x);
    forall x | In(c, x) ensures L(h, x).stamp == L(r, x).stamp && L(c, x).stamp == L(g, x).stamp {}
    hide Revisited;
    assert Restamped(c, p, r, next) by { RevisitedRestamped(c, p, read, write, r, next, lab, h); }
    hide PartOf;
    forall x, y | In(h, x) && In(h, y) && x.thread == y.thread && 1 <= x.index < y.index
      ensures L(h, x).stamp < L(h, y).stamp
    {
      assert L(c, x).stamp < L(c, y).stamp;
    }
    forall x, y | In(h, x) && In(h, y) && x.index >= 1 && y.index >= 1 && L(h, x).stamp == L(h, y).stamp
      ensures x == y
    {
      assert (L(c, x).stamp > p <==> L(h, x).stamp > p) && (L(c, y).stamp > p <==> L(h, y).stamp > p);
    }
  }

  lemma RevisitedRestamped(c: Graph, p: nat, read: Event, write: Event, r: Graph, next: nat, lab: Label, h: Graph)
    requires Revisited(c, p, read, write, r, next, lab, h)
    ensures Restamped(c, p, r, next)
  {}

  lemma RevisitedKinds(g: Graph, c: Graph, p: nat, read: Event, write: Event, r: Graph, next: nat, lab: Label, h: Graph)
    requires PartOf(g, c) && Revisited(c, p, read, write, r, next, lab, h) && IsReadAt(g, read) && Begun(g)
    ensures |h| == |g| && (forall t :: 0 <= t < |g| ==> 0 < |h[t]| <= |g[t]| && h[t][0].kind == g[t][0].kind)
    ensures forall x :: In(h, x) ==> In(g, x) && L(h, x).kind == L(g, x).kind
    ensures forall x :: In(h, x) && x != read ==> L(h, x).rf == L(g, x).rf
  {
    assert forall x :: In(h, x) <==> In(c, x);
    forall x | In(h, x) ensures In(g, x) && L(h, x).kind == L(g, x).kind && (x != read ==> L(h, x).rf == L(g, x).rf) {}
    forall t | 0 <= t < |g| ensures h[t][0].kind == g[t][0].kind {
      assert In(h, Event(t, 0)) && L(h, Event(t, 0)) == h[t][0] && L(g, Event(t, 0)) == g[t][0];
    }
  }

  lemma RevisitGraph(g: Graph, c: Graph, p: nat, read: Event, write: Event, r: Graph, next: nat, lab: Label, h: Graph)
    requires GraphOk(g) && PartOf(g, c) && Revisited(c, p, read, write, r, next, lab, h) && IsReadAt(g, read)
    requires RfInverse(h)
    ensures GraphOk(h)
  {
    RevisitedStamps(g, c, p, read, write, r, next, lab, h);
    RevisitedKinds(g, c, p, read, write, r, next, lab, h);
    hide Revisited, PartOf, RfInverse;
  }

  /** Below the read the revisit leaves everything as it was. */
  lemma RevisitSameBelow(g: Graph, c: Graph, p: nat, read: Event, write: Event, r: Graph, next: nat, lab: Label,
                         h: Graph, n: nat)
    requires PartOf(g, c) && Revisited(c, p, read, write, r, next, lab, h) && IsReadAt(g, read) && Begun(g) && n <= p
    requires forall x :: In(g, x) && (x.index == 0 || L(g, x).stamp <= p) ==> In(c, x)
    requires StampsDistinct(g) && read.index >= 1
    ensures SameBelow(g, n, h)
  {
    RevisitedKinds(g, c, p, read, write, r, next, lab, h);
    RevisitedRestamped(c, p, read, write, r, next, lab, h);
    assert forall x :: In(h, x) <==> In(c, x);
    forall x | In(h, x) ensures L(h, x).stamp == L(r, x).stamp && L(c, x).stamp == L(g, x).stamp {}
    hide Revisited, PartOf;
    forall x ensures Below(h, n, x) <==> Below(g, n, x) {}
    assert forall x :: Below(g, n, x) ==> x != read;
  }

  lemma RevisitKeeps(s: State, read: Event, write: Event, v: Clock, c: Graph, r: Graph, next: nat, lab: Label,
                     s': State)
    requires Inv(s) && RevisitStep(s, read, write, v, c, r, next, lab, s')
    ensures Inv(s')
  {
    var g, h, rv, p := s.graph, s'.graph, Backward(read, write), L(s.graph, read).stamp;
    RevisitEnds(g, rv, v);
    hide Inv, InvAt, HeldAllOk, Settled, Whole, GraphOk, IsRevisitView, IsCopy, Trimmed, Cohesive, Stuck, RfContents,
         RfChanged, Revisitable, NoGaps, Restamped, Revisited, PartOf, Unknown, Unbuilt, LateFencesExact;
    var o := InvOrder(s);
    var o' := RevisitOk(s, o, read, write, v, c, r, next, lab, s');
    GraphStamps(g);
    InvIntact(h, s'.blocked, o');
    forall n: nat | n !in s'.shut ensures Whole(h, n) {
      if n <= p {
        RevisitSameBelow(g, c, p, read, write, r, next, lab, h, n);
        SameBelowWhole(g, n, h);
      } else {
        RevisitNewest(c, p, read, write, r, next, lab, h, n);
        NewestWhole(h, n);
      }
    }
    InvHolds(s', o');
  }

  lemma RevisitNewest(c: Graph, p: nat, read: Event, write: Event, r: Graph, next: nat, lab: Label, h: Graph, n: nat)
    requires Revisited(c, p, read, write, r, next, lab, h) && n > p && n !in Strictly(p, next)
    ensures Newest(h, n)
  {
    forall x | In(h, x) && x.index >= 1 ensures L(h, x).stamp < n {
      assert In(c, x) && L(h, x).stamp == L(r, x).stamp;
    }
  }

  lemma RevisitOk(s: State, o: Order, read: Event, write: Event, v: Clock, c: Graph, r: Graph, next: nat, lab: Label,
                  s': State) returns (o': Order)
    requires RevisitStep(s, read, write, v, c, r, next, lab, s') && IsReadAt(s.graph, read) && IsWriteAt(s.graph, write)
    requires GraphOk(s.graph) && HeldAllOk(s.graph, s.blocked, Settled(s.graph, s.blocked))
    requires InvAt(Settled(s.graph, s.blocked), o)
    requires Whole(s.graph, L(s.graph, read).stamp)
    ensures InvAt(Settled(s'.graph, s'.blocked), o')
    ensures HeldAllOk(s'.graph, s'.blocked, Settled(s'.graph, s'.blocked))
    ensures GraphOk(s'.graph) && PartOf(s.graph, c)
    ensures Revisited(c, L(s.graph, read).stamp, read, write, r, next, lab, s'.graph)
    ensures forall x :: In(s.graph, x) && (x.index == 0 || L(s.graph, x).stamp <= L(s.graph, read).stamp) ==> In(c, x)
    ensures read.index >= 1
  {
    var g, h, rv, p, b := s.graph, s'.graph, Backward(read, write), L(s.graph, read).stamp,
        Stuck(s.graph, s.blocked, c);
    var h1 := RfChanged(r, read, write);
    ContentsFields(h1, L(h1, read), lab);
    hide InvAt, HeldAllOk, Settled, Whole, GraphOk, IsRevisitView, IsCopy, Trimmed, Cohesive, Stuck, RfContents,
         RfChanged, Revisitable, NoGaps, Restamped, Revisited, PartOf, RfClosedPrefix, RfInverse, Set, Spans, Unknown,
         Unbuilt, LateFencesExact;
    GraphStamps(g);
    InvRevisitable(g, s.blocked, o);
    AccessIndexed(g, read);
    CopyCohesive(g, s.blocked, o, rv, v, c);
    RevisitViewInside(g, rv, v);
    AccessIndexed(g, write);
    CopyPart(g, v, c);
    PartLabels(g, c, read, write);
    assert Revisiting(g, s.blocked, o, c, read, write);
    o' := After(Lowered(Settled(g, s.blocked), o), lab, read);
    RevisitInv(g, s.blocked, o, c, p, read, write, r, next, lab);
    RevisitShape(c, p, read, write, r, next, lab);
    OpenPrefix(g, read);
    RevisitInverse(g, rv, v, c, p, r, next, lab);
    RevisitGraph(g, c, p, read, write, r, next, lab, h);
    forall x | In(g, x) && (x.index == 0 || L(g, x).stamp <= p) ensures In(c, x) {
      if x.index >= 1 { PrefixAndWriteKept(g, rv, v, x); }
    }
  }

  lemma PartLabels(g: Graph, c: Graph, read: Event, write: Event)
    requires PartOf(g, c) && IsReadAt(g, read) && IsWriteAt(g, write) && In(c, read) && In(c, write)
    ensures IsReadAt(c, read) && IsWriteAt(c, write) && L(c, read).stamp == L(g, read).stamp
  {}
}
