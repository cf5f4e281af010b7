/** Labels and execution graphs as values: one sequence of labels per thread. */
module Graphs {
  import opened Events
  import opened Clocks

  datatype Ordering = NotAtomic | Unordered | Monotonic | Acquire | Release | AcquireRelease | SeqCst

  datatype ReadKind = PlainRead | FaiRead | CasRead | LockCasRead | TrylockCasRead

  datatype WriteKind = PlainWrite | UnlockWrite | FaiWrite | CasWrite | LockCasWrite | TrylockCasWrite

  /** Absent stands for a reset slot; it occurs only while a cut is under way. */
  datatype Kind =
    | Absent
    | Empty
    | Block
    | ThreadStart(parentCreate: Event)
    | ThreadCreate
    | ThreadFinish(parentJoin: Event)
    | ThreadJoin(childId: nat, childLast: Event)
    | Read(readKind: ReadKind)
    | Write(writeKind: WriteKind)
    | Fence
    | LockLapor
    | UnlockLapor
    | Other

  datatype Label = Label(pos: Event, stamp: nat, kind: Kind, ord: Ordering, addr: int, rf: Event,
                         readers: seq<Event>, hb: View, ppo: Clock, pporf: Clock, msg: View)
  {
    predicate AtLeastAcquire() { ord == Acquire || ord == AcquireRelease || ord == SeqCst }

    predicate AtMostAcquire() { ord == NotAtomic || ord == Monotonic || ord == Acquire }

    predicate AtLeastRelease() { ord == Release || ord == AcquireRelease || ord == SeqCst }

    predicate AtMostRelease() { ord == NotAtomic || ord == Monotonic || ord == Release }

    predicate IsRead() { kind.Read? }

    predicate IsWrite() { kind.Write? }

    predicate IsMemAccess() { kind.Read? || kind.Write? }

    predicate IsCasWrite() {
      kind == Write(CasWrite) || kind == Write(LockCasWrite) || kind == Write(TrylockCasWrite)
    }

    /** isRMWStore */
    predicate IsRmwStore() { kind == Write(FaiWrite) || IsCasWrite() }

    predicate IsRmwReadKind() { kind.Read? && kind.readKind != PlainRead }

    function WithReader(r: Event): Label {
      if r in readers then this else this.(readers := readers + [r])
    }

    function WithoutReader(r: Event): Label {
      this.(readers := Keep(readers, x => x != r))
    }
  }

  type Graph = seq<seq<Label>>

  /** A label fresh from its constructor: no stamp yet, and no views. */
  function NewLabel(e: Event, kind: Kind, ord: Ordering, addr: int, rf: Event): Label {
    Label(e, 0, kind, ord, addr, rf, [], EmptyView, EmptyClock, EmptyClock, EmptyView)
  }

  /** The begin of main, which stands for the initialisation of every location. */
  function MainStart(): Label { NewLabel(Initializer, ThreadStart(Initializer), Acquire, 0, Bottom) }

  /** What fills a gap: it keeps its place and knows nothing. */
  function EmptyLabel(e: Event, stamp: nat): Label { NewLabel(e, Empty, NotAtomic, 0, Bottom).(stamp := stamp) }

  function Keep<T(!new)>(s: seq<T>, p: T -> bool): (r: seq<T>)
    ensures forall x :: x in r <==> x in s && p(x)
  {
    if s == [] then []
    else if p(s[0]) then [s[0]] + Keep(s[1..], p)
    else Keep(s[1..], p)
  }

  lemma {:induction false} KeepAgrees<T(!new)>(s: seq<T>, p: T -> bool, q: T -> bool)
    requires forall x :: x in s ==> p(x) == q(x)
    ensures Keep(s, p) == Keep(s, q)
  {
    if s != [] { KeepAgrees(s[1..], p, q); }
  }

  predicate In(g: Graph, e: Event) {
    0 <= e.thread < |g| && 0 <= e.index < |g[e.thread]|
  }

  function L(g: Graph, e: Event): Label
    requires In(g, e)
  {
    g[e.thread][e.index]
  }

  predicate IsReadAt(g: Graph, e: Event) { In(g, e) && L(g, e).IsRead() }

  predicate IsWriteAt(g: Graph, e: Event) { In(g, e) && L(g, e).IsWrite() }

  predicate ContainsNonEmpty(g: Graph, e: Event) { In(g, e) && !L(g, e).kind.Empty? }

  function Set(g: Graph, e: Event, lab: Label): Graph
    requires In(g, e)
  {
    g[e.thread := g[e.thread][e.index := lab]]
  }

  lemma SetAt(g: Graph, e: Event, lab: Label)
    requires In(g, e)
    ensures |Set(g, e, lab)| == |g|
    ensures forall t :: 0 <= t < |g| ==> |Set(g, e, lab)[t]| == |g[t]|
    ensures forall x :: In(Set(g, e, lab), x) <==> In(g, x)
    ensures forall x :: In(g, x) ==> L(Set(g, e, lab), x) == if x == e then lab else L(g, x)
  {}

  /** The graph without e and what follows it in its thread. */
  function Without(g: Graph, e: Event): Graph
    requires In(g, e)
  {
    g[e.thread := g[e.thread][..e.index]]
  }

  lemma SetSame(g: Graph, e: Event)
    requires In(g, e)
    ensures Set(g, e, L(g, e)) == g
  {
    assert g[e.thread][e.index := L(g, e)] == g[e.thread];
  }

  /** Every label knows its own position. */
  ghost predicate Positioned(g: Graph) {
    forall e :: In(g, e) ==> L(g, e).pos == e
  }

  /** No slot is reset, and memory accesses come after the begin event of their thread. */
  ghost predicate NoAbsent(g: Graph) {
    forall e :: In(g, e) ==> !L(g, e).kind.Absent? && (e.index == 0 ==> !L(g, e).IsMemAccess())
  }

  /** The stamp is later than that of any label but begins, which keep theirs for good. */
  ghost predicate Newest(g: Graph, stamp: nat) {
    forall x :: In(g, x) && x.index >= 1 ==> L(g, x).stamp < stamp
  }

  /** Stamps grow along each thread. */
  ghost predicate ThreadsIncrease(g: Graph) {
    forall x, y :: In(g, x) && In(g, y) && x.thread == y.thread && 1 <= x.index < y.index ==>
        L(g, x).stamp < L(g, y).stamp
  }

  ghost predicate StampsDistinct(g: Graph) {
    forall x, y :: In(g, x) && In(g, y) && x.index >= 1 && y.index >= 1 && L(g, x).stamp == L(g, y).stamp ==> x == y
  }

  /** Every label but begins has a stamp of its own, later than those before it in its thread. */
  ghost predicate Stamped(g: Graph) { ThreadsIncrease(g) && StampsDistinct(g) }

  predicate Begun(g: Graph) {
    forall t :: 0 <= t < |g| ==> |g[t]| > 0
  }

  /** The position is the next one of its thread, or one already occupied. */
  predicate Addable(g: Graph, e: Event) {
    0 <= e.thread < |g| && 0 <= e.index <= |g[e.thread]|
  }

  function AddLabel(g: Graph, lab: Label): Graph
    requires Addable(g, lab.pos)
  {
    var t := lab.pos.thread;
    if lab.pos.index < |g[t]| then Set(g, lab.pos, lab) else g[t := g[t] + [lab]]
  }

  lemma AddLabelAt(g: Graph, lab: Label)
    requires Addable(g, lab.pos)
    ensures forall x :: In(AddLabel(g, lab), x) <==> In(g, x) || x == lab.pos
    ensures forall x :: In(AddLabel(g, lab), x) ==>
                          L(AddLabel(g, lab), x) == if x == lab.pos then lab else L(g, x)
  {}

  lemma AddedNewest(g: Graph, lab: Label, stamp: nat)
    requires Addable(g, lab.pos) && (lab.pos.index >= 1 ==> lab.stamp < stamp)
    requires forall x :: In(g, x) && x != lab.pos && x.index >= 1 ==> L(g, x).stamp < stamp
    ensures Newest(AddLabel(g, lab), stamp)
  {
    AddLabelAt(g, lab);
  }

  function WithReader(g: Graph, w: Event, r: Event): Graph {
    if IsWriteAt(g, w) then Set(g, w, L(g, w).WithReader(r)) else g
  }

  function WithoutReader(g: Graph, w: Event, r: Event): Graph {
    if IsWriteAt(g, w) then Set(g, w, L(g, w).WithoutReader(r)) else g
  }

  /** Adding a read first enters it in the reader list of the write it reads from. */
  function AddRead(g: Graph, lab: Label): Graph
    requires Addable(g, lab.pos)
  {
    var h := if lab.rf == Bottom then g else WithReader(g, lab.rf, lab.pos);
    AddLabel(h, lab)
  }

  /** Re-targets a read: the old write forgets it, the new one learns of it. */
  function RfChanged(g: Graph, read: Event, store: Event): Graph
    requires IsReadAt(g, read)
  {
    var oldRf := L(g, read).rf;
    var g1 := Set(g, read, L(g, read).(rf := store));
    var g2 := if oldRf.index > 0 && In(g1, oldRf) then WithoutReader(g1, oldRf, read) else g1;
    if store == Bottom then g2 else WithReader(g2, store, read)
  }

  function JoinUpdated(g: Graph, join: Event, childLast: Event): Graph
    requires In(g, join) && L(g, join).kind.ThreadJoin? && In(g, childLast) && L(g, childLast).kind.ThreadFinish?
  {
    var g1 := Set(g, join, L(g, join).(kind := ThreadJoin(L(g, join).kind.childId, childLast)));
    Set(g1, childLast, L(g, childLast).(kind := ThreadFinish(join)))
  }

  lemma JoinUpdatedAt(g: Graph, join: Event, f: Event)
    requires In(g, join) && L(g, join).kind.ThreadJoin? && In(g, f) && L(g, f).kind.ThreadFinish?
    ensures forall x :: In(JoinUpdated(g, join, f), x) <==> In(g, x)
    ensures forall x :: In(g, x) ==>
                          L(JoinUpdated(g, join, f), x) ==
                          if x == join then L(g, x).(kind := ThreadJoin(L(g, x).kind.childId, f))
                          else if x == f then L(g, x).(kind := ThreadFinish(join)) else L(g, x)
  {
    var g1 := Set(g, join, L(g, join).(kind := ThreadJoin(L(g, join).kind.childId, f)));
    SetAt(g, join, L(g, join).(kind := ThreadJoin(L(g, join).kind.childId, f)));
    SetAt(g1, f, L(g, f).(kind := ThreadFinish(join)));
  }

  function JoinReset(g: Graph, join: Event): Graph {
    if In(g, join) && L(g, join).kind.ThreadJoin?
    then Set(g, join, L(g, join).(kind := ThreadJoin(L(g, join).kind.childId, Initializer))) else g
  }

  lemma JoinResetAt(g: Graph, join: Event)
    ensures forall x :: In(JoinReset(g, join), x) <==> In(g, x)
    ensures forall x :: In(g, x) ==>
                          L(JoinReset(g, join), x) ==
                          if x == join && L(g, x).kind.ThreadJoin?
                          then L(g, x).(kind := ThreadJoin(L(g, x).kind.childId, Initializer)) else L(g, x)
  {
    if In(g, join) && L(g, join).kind.ThreadJoin? {
      SetAt(g, join, L(g, join).(kind := ThreadJoin(L(g, join).kind.childId, Initializer)));
    }
  }

  /** Index of the last label of thread t at a position in [1, n) satisfying p, or 0. */
  function LastIndex(g: Graph, t: nat, n: nat, p: Label -> bool): (i: nat)
    requires t < |g| && n <= |g[t]|
    ensures i < n || i == 0
    ensures i > 0 ==> p(g[t][i])
    ensures forall j :: i < j < n ==> !p(g[t][j])
  {
    if n <= 1 then 0
    else if p(g[t][n - 1]) then n - 1
    else LastIndex(g, t, n - 1, p)
  }

  // ----- queries within one thread -----

  predicate IsListedRelease(lab: Label) {
    lab.kind.ThreadCreate? || lab.kind.ThreadFinish? || lab.kind.UnlockLapor? ||
    (lab.kind.Fence? && lab.AtLeastRelease()) || (lab.IsWrite() && lab.AtLeastRelease())
  }

  predicate IsListedReleaseAt(lab: Label, addr: int) {
    lab.kind.ThreadCreate? || lab.kind.ThreadFinish? || lab.kind.UnlockLapor? ||
    (lab.kind.Fence? && lab.AtLeastRelease()) || (lab.IsWrite() && lab.AtLeastRelease() && lab.addr == addr)
  }

  /** e is the position right after, or inside, its thread. */
  predicate Limit(g: Graph, e: Event) {
    0 <= e.thread < |g| && 0 <= e.index <= |g[e.thread]|
  }

  function LastRelease(g: Graph, e: Event): Event
    requires Limit(g, e)
  {
    Event(e.thread, LastIndex(g, e.thread, e.index, IsListedRelease))
  }

  function LastReleaseAtLoc(g: Graph, e: Event, addr: int): Event
    requires Limit(g, e)
  {
    Event(e.thread, LastIndex(g, e.thread, e.index, (lab: Label) => IsListedReleaseAt(lab, addr)))
  }

  /** The last same-address LAPOR unlock before e, or the initialiser. */
  function LastUnlockLapor(g: Graph, e: Event, addr: int): Event
    requires Limit(g, e)
  {
    var i := LastIndex(g, e.thread, e.index, (lab: Label) => lab.kind.UnlockLapor? && lab.addr == addr);
    if i > 0 then Event(e.thread, i) else Initializer
  }

  /** Begin events, fences and acquires: the events whose views every later event of the thread includes. */
  predicate IsAcquireOrFence(g: Graph, e: Event) {
    In(g, e) && (e.index == 0 || L(g, e).kind.Fence? || L(g, e).AtLeastAcquire())
  }

  // ----- the reads-from / reader-list invariant -----

  /** A usable reads-from target: the initialiser or a write of the graph. */
  predicate RfTarget(g: Graph, e: Event) {
    In(g, e) && (e == Initializer || L(g, e).IsWrite())
  }

  /** Every read except x reads from bottom or from a write that lists it (or the initialiser). */
  ghost predicate ReadsListed(g: Graph, x: Event) {
    forall e :: IsReadAt(g, e) && e != x && L(g, e).rf != Bottom ==>
                  && RfTarget(g, L(g, e).rf)
                  && (IsWriteAt(g, L(g, e).rf) ==> e in L(g, L(g, e).rf).readers)
  }

  /** Every listed reader is a read of the graph that reads from the listing write. */
  ghost predicate ReadersRead(g: Graph) {
    forall w, r :: IsWriteAt(g, w) && r in L(g, w).readers ==> IsReadAt(g, r) && L(g, r).rf == w
  }

  /** What validate() demands of reads-from and reader lists, read x excepted. */
  ghost predicate RfInverseExcept(g: Graph, x: Event) {
    Positioned(g) && NoAbsent(g) && ReadsListed(g, x) && ReadersRead(g)
  }

  /** Reads-from and reader lists are mutually inverse. No read sits at Bottom. */
  ghost predicate RfInverse(g: Graph) {
    RfInverseExcept(g, Bottom)
  }

  lemma WeakenInverse(g: Graph, x: Event)
    requires RfInverse(g)
    ensures RfInverseExcept(g, x)
  {}

  lemma WithReaderAt(g: Graph, w: Event, r: Event)
    ensures forall x :: In(WithReader(g, w, r), x) <==> In(g, x)
    ensures forall x :: In(g, x) ==> L(WithReader(g, w, r), x) ==
                                     if x == w && L(g, x).IsWrite() then L(g, x).WithReader(r) else L(g, x)
  {
    if IsWriteAt(g, w) { SetAt(g, w, L(g, w).WithReader(r)); }
  }

  lemma WithoutReaderAt(g: Graph, w: Event, r: Event)
    ensures forall x :: In(WithoutReader(g, w, r), x) <==> In(g, x)
    ensures forall x :: In(g, x) ==> L(WithoutReader(g, w, r), x) ==
                                     if x == w && L(g, x).IsWrite() then L(g, x).WithoutReader(r) else L(g, x)
  {
    if IsWriteAt(g, w) { SetAt(g, w, L(g, w).WithoutReader(r)); }
  }

  /** h holds the labels of g, with lab added and entered in the reader list of its write. */
  ghost predicate ReadAdded(g: Graph, lab: Label, h: Graph) {
    && (forall x :: In(h, x) <==> In(g, x) || x == lab.pos)
    && (forall x :: In(h, x) ==>
                      L(h, x) == if x == lab.pos then lab
                                 else if lab.rf != Bottom && x == lab.rf && L(g, x).IsWrite()
                                 then L(g, x).WithReader(lab.pos)
                                 else L(g, x))
  }

  lemma AddReadAt(g: Graph, lab: Label)
    requires Addable(g, lab.pos) && lab.rf != lab.pos
    ensures ReadAdded(g, lab, AddRead(g, lab))
  {
    WithReaderAt(g, lab.rf, lab.pos);
    var h := if lab.rf == Bottom then g else WithReader(g, lab.rf, lab.pos);
    AddLabelAt(h, lab);
  }

  /** What a reads-from change leaves of the label at another position. */
  function Relisted(lab: Label, x: Event, oldRf: Event, read: Event, store: Event): Label {
    var dropped := if x == oldRf && x.index > 0 && lab.IsWrite() then lab.WithoutReader(read) else lab;
    if store != Bottom && x == store && lab.IsWrite() then dropped.WithReader(read) else dropped
  }

  ghost predicate Retargeted(g: Graph, read: Event, store: Event, h: Graph)
    requires IsReadAt(g, read)
  {
    && (forall x :: In(h, x) <==> In(g, x))
    && L(h, read) == L(g, read).(rf := store)
    && (forall x :: In(g, x) && x != read ==> L(h, x) == Relisted(L(g, x), x, L(g, read).rf, read, store))
  }

  lemma RfChangedAt(g: Graph, read: Event, store: Event)
    requires IsReadAt(g, read)
    ensures Retargeted(g, read, store, RfChanged(g, read, store))
  {
    var oldRf := L(g, read).rf;
    var g1 := Set(g, read, L(g, read).(rf := store));
    SetAt(g, read, L(g, read).(rf := store));
    WithoutReaderAt(g1, oldRf, read);
    var g2 := if oldRf.index > 0 && In(g1, oldRf) then WithoutReader(g1, oldRf, read) else g1;
    WithReaderAt(g2, store, read);
  }

  /** A position a label may be added at: the end of its thread, or an Empty or Block slot. */
  predicate Fresh(g: Graph, e: Event) {
    Addable(g, e) && (In(g, e) ==> L(g, e).kind.Empty? || L(g, e).kind.Block?)
  }

  lemma AddOtherKeepsInverse(g: Graph, lab: Label)
    requires RfInverse(g) && Fresh(g, lab.pos)
    requires !lab.IsRead() && !lab.kind.Absent?
    requires lab.IsWrite() ==> lab.readers == [] && lab.pos.index > 0
    ensures RfInverse(AddLabel(g, lab))
  {
    AddLabelAt(g, lab);
    OtherAddedInverse(g, AddLabel(g, lab), lab);
  }

  lemma OtherAddedInverse(g: Graph, h: Graph, lab: Label)
    requires RfInverse(g) && Fresh(g, lab.pos)
    requires !lab.IsRead() && !lab.kind.Absent?
    requires lab.IsWrite() ==> lab.readers == [] && lab.pos.index > 0
    requires forall x :: In(h, x) <==> In(g, x) || x == lab.pos
    requires forall x :: In(h, x) ==> L(h, x) == if x == lab.pos then lab else L(g, x)
    ensures RfInverse(h)
  {
    forall e | IsReadAt(h, e) && L(h, e).rf != Bottom
      ensures RfTarget(h, L(h, e).rf)
      ensures IsWriteAt(h, L(h, e).rf) ==> e in L(h, L(h, e).rf).readers
    {
      assert IsReadAt(g, e) && RfTarget(g, L(g, e).rf);
    }
    forall w, r | IsWriteAt(h, w) && r in L(h, w).readers
      ensures IsReadAt(h, r) && L(h, r).rf == w
    {
      assert IsWriteAt(g, w) && IsReadAt(g, r);
    }
  }

  lemma AddReadKeepsInverse(g: Graph, lab: Label)
    requires RfInverse(g) && Fresh(g, lab.pos) && lab.IsRead()
    requires lab.rf == Bottom || (RfTarget(g, lab.rf) && lab.rf != lab.pos)
    requires lab.pos.index > 0
    ensures RfInverse(AddRead(g, lab))
  {
    AddReadAt(g, lab);
    ReadAddedInverse(g, AddRead(g, lab), lab);
  }

  lemma ReadAddedInverse(g: Graph, h: Graph, lab: Label)
    requires RfInverse(g) && Fresh(g, lab.pos) && lab.IsRead()
    requires lab.rf == Bottom || (RfTarget(g, lab.rf) && lab.rf != lab.pos)
    requires lab.pos.index > 0 && ReadAdded(g, lab, h)
    ensures RfInverse(h)
  {
    ReadAddedKinds(g, h, lab);
    ReadAddedReaders(g, h, lab);
    forall e | IsReadAt(h, e) && L(h, e).rf != Bottom
      ensures RfTarget(h, L(h, e).rf)
      ensures IsWriteAt(h, L(h, e).rf) ==> e in L(h, L(h, e).rf).readers
    {
      if e != lab.pos { assert IsReadAt(g, e) && RfTarget(g, L(g, e).rf); }
    }
  }

  lemma ReadAddedKinds(g: Graph, h: Graph, lab: Label)
    requires ReadAdded(g, lab, h)
    ensures forall x :: In(g, x) && x != lab.pos ==>
                          L(h, x).kind == L(g, x).kind && L(h, x).pos == L(g, x).pos && L(h, x).rf == L(g, x).rf
  {}

  lemma ReadAddedReaders(g: Graph, h: Graph, lab: Label)
    requires RfInverse(g) && Fresh(g, lab.pos) && lab.IsRead() && ReadAdded(g, lab, h)
    ensures ReadersRead(h)
  {
    ReadAddedKinds(g, h, lab);
    forall w, r | IsWriteAt(h, w) && r in L(h, w).readers
      ensures IsReadAt(h, r) && L(h, r).rf == w
    {
      assert IsWriteAt(g, w);
      if r in L(g, w).readers { assert IsReadAt(g, r); }
    }
  }

  /** changeRf turns the invariant with the read excepted into the full one. */
  lemma ChangeRfKeepsInverse(g: Graph, read: Event, store: Event)
    requires RfInverseExcept(g, read) && IsReadAt(g, read)
    requires store == Bottom || RfTarget(g, store)
    ensures RfInverse(RfChanged(g, read, store))
  {
    RfChangedAt(g, read, store);
    RetargetedInverse(g, RfChanged(g, read, store), read, store);
  }

  lemma RetargetedInverse(g: Graph, h: Graph, read: Event, store: Event)
    requires RfInverseExcept(g, read) && IsReadAt(g, read) && Retargeted(g, read, store, h)
    requires store == Bottom || RfTarget(g, store)
    ensures RfInverse(h)
  {
    RetargetedKinds(g, h, read, store);
    RetargetedReaders(g, h, read, store);
    forall e | IsReadAt(h, e) && L(h, e).rf != Bottom
      ensures RfTarget(h, L(h, e).rf)
      ensures IsWriteAt(h, L(h, e).rf) ==> e in L(h, L(h, e).rf).readers
    {
      if e != read { assert IsReadAt(g, e) && RfTarget(g, L(g, e).rf); }
    }
  }

  lemma RetargetedKinds(g: Graph, h: Graph, read: Event, store: Event)
    requires IsReadAt(g, read) && Retargeted(g, read, store, h)
    ensures forall x :: In(g, x) ==> L(h, x).kind == L(g, x).kind && L(h, x).pos == L(g, x).pos
    ensures forall x :: In(g, x) ==> L(h, x).rf == if x == read then store else L(g, x).rf
  {}

  lemma RetargetedReaders(g: Graph, h: Graph, read: Event, store: Event)
    requires RfInverseExcept(g, read) && IsReadAt(g, read) && Retargeted(g, read, store, h)
    requires store == Bottom || RfTarget(g, store)
    ensures ReadersRead(h)
  {
    RetargetedKinds(g, h, read, store);
    forall w, r | IsWriteAt(h, w) && r in L(h, w).readers
      ensures IsReadAt(h, r) && L(h, r).rf == w
    {
      assert IsWriteAt(g, w);
      if r != read { assert r in L(g, w).readers && IsReadAt(g, r); }
      else if w != store { assert false; }
    }
  }
}
