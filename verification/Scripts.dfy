/** Runs given by a list of labels, and what such labels do not know. */
module Scripts {
  import opened Events
  import opened Clocks
  import opened Graphs
  import opened ImmSpec
  import opened Causality
  import opened HbExact
  import opened Sources
  import opened Settling
  import opened StampBounds
  import opened Trimming
  import opened RevisitSpec
  import DepCutSpec
  import opened States
  import opened Additions
  import opened Recompute
  import opened Cutbacks
  import opened Outcomes
  import opened Runs
  import opened ExecutionGraphs
  import opened ImmDrivers
  import opened Visits
  import opened RunCases

  // ----- what a new label does not know -----

  lemma PpoUnaware(g: Graph, e: Event, deps: EventDeps, bad: Event)
    requires bad != e && forall d :: deps.Has(d) ==> !CHas(g, d, bad)
    requires forall q: Event :: q.thread == e.thread && q.index < e.index && IsAcquireOrFence(g, q) ==> !CHas(g, q, bad)
    ensures !FromPpo(g, e, deps, bad)
  {}

  lemma ReadUnaware(g: Graph, lab: Label, deps: EventDeps, placed: Label, bad: Event)
    requires ViewsComputed(g, lab, deps, placed) && lab.IsRead() && !FromPpo(g, lab.pos, deps, bad)
    requires if lab.rf.thread == lab.pos.thread || lab.rf == Initializer then bad == lab.rf || !PHas(g, lab.rf, bad)
             else !CHas(g, lab.rf, bad) && !FromOwnWrites(g, lab.pos, lab.addr, bad)
    ensures !placed.pporf.Has(bad)
  {
    assert placed.pporf.Has(bad) <==> PporfNew(g, placed, deps, bad);
    assert placed.ppo.Has(bad) <==> PpoNew(g, placed, deps, bad);
  }

  lemma WriteUnaware(g: Graph, lab: Label, deps: EventDeps, placed: Label, bad: Event)
    requires ViewsComputed(g, lab, deps, placed) && lab.IsWrite() && Limit(g, lab.pos)
    requires !FromPpo(g, lab.pos, deps, bad)
    requires lab.IsRmwStore() ==> !CHas(g, lab.pos.Prev(), bad)
    ensures !placed.ppo.Has(bad)
    ensures !lab.AtLeastRelease() && !CHas(g, LastReleaseAtLoc(g, lab.pos, lab.addr), bad) ==> !placed.pporf.Has(bad)
  {
    assert placed.pporf.Has(bad) <==> PporfNew(g, placed, deps, bad);
    assert placed.ppo.Has(bad) <==> PpoNew(g, placed, deps, bad);
  }

  lemma ReleaseUnaware(g: Graph, lab: Label, deps: EventDeps, placed: Label, bad: Event)
    requires ViewsComputed(g, lab, deps, placed) && lab.IsWrite() && Limit(g, lab.pos)
    requires !FromPpo(g, lab.pos, deps, bad) && !FromRelease(g, lab.pos, bad)
    requires !CHas(g, LastReleaseAtLoc(g, lab.pos, lab.addr), bad)
    requires lab.IsRmwStore() ==> !CHas(g, lab.pos.Prev(), bad)
    ensures !placed.pporf.Has(bad) && !placed.ppo.Has(bad)
  {
    assert placed.pporf.Has(bad) <==> PporfNew(g, placed, deps, bad);
    assert placed.ppo.Has(bad) <==> PpoNew(g, placed, deps, bad);
  }

  lemma PlainUnaware(g: Graph, lab: Label, deps: EventDeps, placed: Label, bad: Event)
    requires ViewsComputed(g, lab, deps, placed) && (lab.kind.ThreadFinish? || lab.kind.Fence?) && Limit(g, lab.pos)
    requires !FromPpo(g, lab.pos, deps, bad) && (lab.AtLeastRelease() ==> !FromRelease(g, lab.pos, bad))
    ensures !placed.pporf.Has(bad)
  {
    assert placed.pporf.Has(bad) <==> PporfNew(g, placed, deps, bad);
  }

  /** A read or write knows what it depends on. */
  lemma KnowsDep(g: Graph, lab: Label, deps: EventDeps, placed: Label, d: Event)
    requires ViewsComputed(g, lab, deps, placed) && (lab.IsRead() || lab.IsWrite()) && deps.Has(d) && CHas(g, d, d)
    ensures placed.pporf.Has(d)
  {
    assert FromPpo(g, lab.pos, deps, d);
    assert placed.pporf.Has(d) <==> PporfNew(g, placed, deps, d);
    assert placed.ppo.Has(d) <==> PpoNew(g, placed, deps, d);
  }

  /** And the fences before it. */
  lemma KnowsFence(g: Graph, lab: Label, deps: EventDeps, placed: Label, q: Event)
    requires ViewsComputed(g, lab, deps, placed) && (lab.IsRead() || lab.IsWrite()) && CHas(g, q, q)
    requires q.thread == lab.pos.thread && q.index < lab.pos.index && IsAcquireOrFence(g, q)
    ensures placed.pporf.Has(q)
  {
    assert FromPpo(g, lab.pos, deps, q);
    assert placed.pporf.Has(q) <==> PporfNew(g, placed, deps, q);
    assert placed.ppo.Has(q) <==> PpoNew(g, placed, deps, q);
  }

  lemma KnowsReadHalf(g: Graph, lab: Label, deps: EventDeps, placed: Label)
    requires ViewsComputed(g, lab, deps, placed) && lab.IsRmwStore() && CHas(g, lab.pos.Prev(), lab.pos.Prev())
    ensures placed.pporf.Has(lab.pos.Prev())
  {
    assert placed.pporf.Has(lab.pos.Prev()) <==> PporfNew(g, placed, deps, lab.pos.Prev());
  }

  /** The last release of a thread at an address, where all labels after index i are something else. */
  lemma ReleaseBefore(g: Graph, e: Event, addr: int, i: nat)
    requires Limit(g, e) && forall j :: i < j < e.index && In(g, Event(e.thread, j)) ==>
                 !IsListedReleaseAt(L(g, Event(e.thread, j)), addr)
    ensures var r := LastReleaseAtLoc(g, e, addr); r.thread == e.thread && 0 <= r.index <= i
  {
    var r := LastReleaseAtLoc(g, e, addr);
    if r.index > i { assert In(g, Event(e.thread, r.index)); }
  }

  /** The same for releases at any address. */
  lemma AnyReleaseBefore(g: Graph, e: Event, i: nat)
    requires Limit(g, e) && forall j :: i < j < e.index && In(g, Event(e.thread, j)) ==>
                                          !IsListedRelease(L(g, Event(e.thread, j)))
    ensures var r := LastRelease(g, e); r.thread == e.thread && 0 <= r.index <= i
  {
    var r := LastRelease(g, e);
    if r.index > i { assert In(g, Event(e.thread, r.index)); }
  }

  // ----- what nobody but a few labels know -----

  /** Only labels in c know a, and only those in p preserve it in program order. */
  ghost predicate Hidden(g: Graph, a: Event, c: set<Event>, p: set<Event>) {
    forall x :: (CHas(g, x, a) ==> x in c) && (PHas(g, x, a) ==> x in p)
  }

  lemma Grown(g: Graph, placed: Label, h: Graph)
    requires OneMore(g, placed, h)
    ensures In(h, placed.pos) && L(h, placed.pos) == placed && |h| == |g|
    ensures forall x :: In(g, x) ==> L(h, x) == L(g, x).(readers := L(h, x).readers)
    ensures forall t :: 0 <= t < |g| ==> |h[t]| == |g[t]| + if t == placed.pos.thread then 1 else 0
    ensures forall x :: In(h, x) <==> In(g, x) || x == placed.pos
    ensures !In(g, placed.pos)
  {}

  lemma HiddenStep(g: Graph, placed: Label, h: Graph, a: Event, c: set<Event>, p: set<Event>)
    requires OneMore(g, placed, h) && Hidden(g, a, c, p)
    requires (placed.pos !in c ==> !placed.pporf.Has(a)) && (placed.pos !in p ==> !placed.ppo.Has(a))
    ensures Hidden(h, a, c, p)
  {
    Grown(g, placed, h);
    hide OneMore;
    forall x ensures (CHas(h, x, a) ==> x in c) && (PHas(h, x, a) ==> x in p) {
      if x != placed.pos { assert (CHas(g, x, a) ==> x in c) && (PHas(g, x, a) ==> x in p); }
    }
  }

  lemma KnowledgeStays(g: Graph, placed: Label, h: Graph, x: Event, a: Event)
    requires OneMore(g, placed, h) && CHas(g, x, a)
    ensures CHas(h, x, a)
  {}

  lemma NewKnows(g: Graph, placed: Label, h: Graph, a: Event)
    requires OneMore(g, placed, h) && placed.pporf.Has(a)
    ensures CHas(h, placed.pos, a)
  {}

  // ----- runs of up to three threads, one after the other -----

  datatype Item = Item(lab: Label, deps: EventDeps)

  /** After the creation of its children main adds the first labels of a list, then thread 1, then thread 2. */
  datatype Script = Script(kids: nat, main: nat, first: nat, item: nat -> Item) {
    function Pos(i: nat): Event {
      if i < main then Event(0, 1 + kids + i)
      else if i < main + first then Event(1, 1 + i - main)
      else Event(2, 1 + i - main - first)
    }

    function Lab(i: nat): Label { item(i).lab }

    function Stamp(i: nat): nat { 1 + 2 * kids + i }

    /** How many of the first n labels thread t adds. */
    function Count(t: int, n: nat): nat {
      if t == 0 then (if n <= main then n else main)
      else if t == 1 then (if n <= main then 0 else if n <= main + first then n - main else first)
      else if t == 2 then (if n <= main + first then 0 else n - main - first)
      else 0
    }

    /** Where in the list the label at a position of thread t is. */
    function Place(e: Event): int {
      if e.thread == 0 then e.index - 1 - kids
      else if e.thread == 1 then main + e.index - 1
      else main + first + e.index - 1
    }

    predicate Starts(e: Event) { e.index == 0 || (e.thread == 0 && e.index <= kids) }
  }

  /** The graph once n labels have been added. */
  ghost predicate Ran(s: State, p: Script, n: nat) {
    var g := s.graph;
    && SpawnedLabels(g, p.kids) && s.blocked == {} && s.shut == {}
    && |g| == 1 + p.kids && |g[0]| == 1 + p.kids + p.Count(0, n)
    && (forall t :: 1 <= t <= p.kids ==> |g[t]| == 1 + p.Count(t, n))
    && (forall i :: 0 <= i < n ==> Has(g, p.Pos(i), p.Lab(i).(stamp := p.Stamp(i))))
  }

  lemma RanStarts(s: State, p: Script)
    requires Spawned(s, p.kids)
    ensures Ran(s, p, 0)
  {}

  lemma RanStep(s: State, p: Script, n: nat, placed: Label, s': State)
    requires Ran(s, p, n) && OneMore(s.graph, placed, s'.graph) && placed.pos == p.Pos(n) && p.Pos(n).thread <= p.kids
    requires Has(s'.graph, p.Pos(n), p.Lab(n).(stamp := p.Stamp(n))) && s'.blocked == s.blocked && s'.shut == s.shut
    ensures Ran(s', p, n + 1)
  {
    var g, h := s.graph, s'.graph;
    forall x, lab | Has(g, x, lab) ensures Has(h, x, lab) { HasKept(g, placed, h, x, lab); }
    Grown(g, placed, h);
    hide OneMore, Has;
  }

  /** What an event of the graph is. */
  lemma RanAt(s: State, p: Script, n: nat, e: Event)
    requires Ran(s, p, n) && In(s.graph, e) && (p.kids <= 2 || n <= p.main + p.first) && !p.Starts(e)
    ensures var i := p.Place(e);
            && 0 <= i < n && p.Pos(i) == e && Has(s.graph, e, p.Lab(i).(stamp := p.Stamp(i)))
  {
    var i := p.Place(e);
    hide Has;
    assert 0 <= i < n && p.Pos(i) == e;
    assert Has(s.graph, p.Pos(i), p.Lab(i).(stamp := p.Stamp(i)));
  }

  lemma RanStart(s: State, p: Script, n: nat, e: Event)
    requires Ran(s, p, n) && In(s.graph, e) && p.Starts(e)
    ensures L(s.graph, e).stamp < p.Stamp(0) && (L(s.graph, e).kind.ThreadStart? || L(s.graph, e).kind.ThreadCreate?)
    ensures e.index >= 1 ==> L(s.graph, e).kind.ThreadCreate? && !L(s.graph, e).AtLeastAcquire()
  {
    if e.index >= 1 {
      assert Has(s.graph, Event(0, e.index), CreateOf(e.index).(stamp := 2 * e.index - 1));
    } else if e.thread >= 1 {
      var t: nat := e.thread;
      assert Has(s.graph, Event(t, 0), StartLabel(t, Event(0, t)).(stamp := 2 * t));
    }
  }

  lemma ItemAdded(s: State, p: Script, n: nat, i: nat)
    requires Ran(s, p, n) && i < n
    ensures Has(s.graph, p.Pos(i), p.Lab(i).(stamp := p.Stamp(i)))
  {}

  lemma StartsThere(s: State, p: Script, n: nat)
    requires Ran(s, p, n)
    ensures s.blocked == {} && s.shut == {} && |s.graph| == 1 + p.kids
    ensures forall e :: p.Starts(e) && 0 <= e.thread <= p.kids && e.index >= 0 ==> In(s.graph, e)
  {}

  // ----- what scripts are made of -----

  predicate Acquires(lab: Label) { lab.kind.Fence? || lab.AtLeastAcquire() }

  /** Of the acquires before label n in its thread none is in c. */
  ghost predicate Weak(p: Script, n: nat, c: set<Event>) {
    forall i :: 0 <= i < n && p.Pos(i).thread == p.Pos(n).thread && Acquires(p.Lab(i)) ==> p.Pos(i) !in c
  }

  /** Before label n its thread has not released anything that matters to it. */
  ghost predicate Unreleased(p: Script, n: nat) {
    forall i :: 0 <= i < n && p.Pos(i).thread == p.Pos(n).thread ==>
                  && (p.Lab(n).IsWrite() ==> !IsListedReleaseAt(p.Lab(i), p.Lab(n).addr))
                  && (p.Lab(n).AtLeastRelease() ==> !IsListedRelease(p.Lab(i)))
  }

  lemma AtWeak(s: State, p: Script, n: nat, c: set<Event>, q: Event)
    requires Ran(s, p, n) && Weak(p, n, c) && NotStarts(p, c) && p.kids <= 2 && q.thread == p.Pos(n).thread
    requires IsAcquireOrFence(s.graph, q)
    ensures q !in c
  {
    hide Ran;
    if !p.Starts(q) {
      RanAt(s, p, n, q);
      assert Acquires(p.Lab(p.Place(q)));
    }
  }

  /** The last release before a new label is among what the run started with. */
  lemma RanRelease(s: State, p: Script, n: nat)
    requires Ran(s, p, n) && Unreleased(p, n) && p.kids <= 2 && Limit(s.graph, p.Pos(n))
    ensures p.Lab(n).IsWrite() ==> p.Starts(LastReleaseAtLoc(s.graph, p.Pos(n), p.Lab(n).addr))
    ensures p.Lab(n).AtLeastRelease() ==> p.Starts(LastRelease(s.graph, p.Pos(n)))
  {
    var g, e, base := s.graph, p.Pos(n), if n < p.main then p.kids else 0;
    forall j | base < j < e.index && In(g, Event(e.thread, j))
      ensures p.Lab(n).IsWrite() ==> !IsListedReleaseAt(L(g, Event(e.thread, j)), p.Lab(n).addr)
      ensures p.Lab(n).AtLeastRelease() ==> !IsListedRelease(L(g, Event(e.thread, j)))
    {
      AtUnreleased(s, p, n, Event(e.thread, j));
    }
    hide Ran, LastReleaseAtLoc, LastRelease, IsListedReleaseAt, IsListedRelease;
    if p.Lab(n).IsWrite() { ReleaseBefore(g, e, p.Lab(n).addr, base); }
    if p.Lab(n).AtLeastRelease() { AnyReleaseBefore(g, e, base); }
  }

  lemma AtUnreleased(s: State, p: Script, n: nat, e: Event)
    requires Ran(s, p, n) && Unreleased(p, n) && p.kids <= 2 && In(s.graph, e) && !p.Starts(e)
    requires e.thread == p.Pos(n).thread
    ensures p.Lab(n).IsWrite() ==> !IsListedReleaseAt(L(s.graph, e), p.Lab(n).addr)
    ensures p.Lab(n).AtLeastRelease() ==> !IsListedRelease(L(s.graph, e))
  {
    hide Ran;
    RanAt(s, p, n, e);
    var i := p.Place(e);
    assert p.Pos(i).thread == p.Pos(n).thread;
  }

  // ----- when a new label does not know an event -----

  /** None of the labels that know is one that label n is computed from, and an own earlier one. */
  ghost predicate Apart(p: Script, n: nat, c: set<Event>) {
    forall x :: x in c && x.thread == p.Pos(n).thread ==> x.index >= p.Pos(n).index
  }

  ghost predicate NotStarts(p: Script, c: set<Event>) { forall x :: x in c ==> !p.Starts(x) }

  /** Neither what label n depends on nor its read half know a. */
  ghost predicate DepsApart(p: Script, n: nat, a: Event, c: set<Event>) {
    && a != p.Pos(n) && (forall d :: p.item(n).deps.Has(d) ==> d !in c)
    && (p.Lab(n).IsRmwStore() ==> p.Pos(n).Prev() !in c)
  }

  /** Nor does what it reads or releases. */
  ghost predicate SourceApart(p: Script, n: nat, a: Event, c: set<Event>, q: set<Event>) {
    var lab := p.Lab(n);
    && (lab.IsRead() ==>
          if lab.rf.thread == p.Pos(n).thread || lab.rf == Initializer then a == lab.rf || lab.rf !in q
          else lab.rf !in c && Apart(p, n, c))
    && (lab.AtLeastRelease() && !lab.IsRead() ==> a.thread != p.Pos(n).thread && Apart(p, n, c))
  }

  ghost predicate Shielded(p: Script, n: nat, a: Event, c: set<Event>, q: set<Event>) {
    && NotStarts(p, c) && NotStarts(p, q)
    && (p.Pos(n) !in q || p.Pos(n) !in c ==> DepsApart(p, n, a, c))
    && (p.Pos(n) !in c ==> SourceApart(p, n, a, c, q))
  }

  ghost predicate Ordinary(lab: Label) {
    lab.IsRead() || lab.IsWrite() || lab.kind == ThreadFinish(Initializer) || lab.kind.Fence?
  }

  lemma UnawarePpo(s: State, p: Script, n: nat, a: Event, c: set<Event>, q: set<Event>)
    requires Ran(s, p, n) && Weak(p, n, c) && p.kids <= 2 && Hidden(s.graph, a, c, q) && NotStarts(p, c)
    requires DepsApart(p, n, a, c)
    ensures !FromPpo(s.graph, p.Pos(n), p.item(n).deps, a)
  {
    hide Ran, Weak, FromPpo, NotStarts;
    forall x: Event | x.thread == p.Pos(n).thread && x.index < p.Pos(n).index && IsAcquireOrFence(s.graph, x)
      ensures !CHas(s.graph, x, a)
    {
      AtWeak(s, p, n, c, x);
    }
    PpoUnaware(s.graph, p.Pos(n), p.item(n).deps, a);
  }

  lemma UnawareRead(s: State, p: Script, n: nat, placed: Label, a: Event, c: set<Event>, q: set<Event>)
    requires Ran(s, p, n) && Weak(p, n, c) && p.kids <= 2 && Hidden(s.graph, a, c, q) && NotStarts(p, c)
    requires DepsApart(p, n, a, c) && SourceApart(p, n, a, c, q) && p.Lab(n).IsRead() && p.Lab(n).pos == p.Pos(n)
    requires ViewsComputed(s.graph, p.Lab(n).(stamp := p.Stamp(n)), p.item(n).deps, placed)
    ensures !placed.pporf.Has(a)
  {
    hide Ran, Weak, FromPpo, ViewsComputed, DepsApart;
    UnawarePpo(s, p, n, a, c, q);
    assert Apart(p, n, c) ==> !FromOwnWrites(s.graph, p.Pos(n), p.Lab(n).addr, a);
    ReadUnaware(s.graph, p.Lab(n).(stamp := p.Stamp(n)), p.item(n).deps, placed, a);
  }

  lemma UnawareRelease(s: State, p: Script, n: nat, a: Event, c: set<Event>, q: set<Event>)
    requires Ran(s, p, n) && Unreleased(p, n) && p.kids <= 2 && Hidden(s.graph, a, c, q) && NotStarts(p, c)
    requires Apart(p, n, c) && a.thread != p.Pos(n).thread && Limit(s.graph, p.Pos(n)) && p.Lab(n).AtLeastRelease()
    ensures !FromRelease(s.graph, p.Pos(n), a)
  {
    hide Unreleased;
    RanRelease(s, p, n);
    hide Ran, LastRelease;
  }

  lemma UnawareWrite(s: State, p: Script, n: nat, placed: Label, a: Event, c: set<Event>, q: set<Event>)
    requires Ran(s, p, n) && Weak(p, n, c) && Unreleased(p, n) && p.kids <= 2 && Hidden(s.graph, a, c, q)
    requires NotStarts(p, c) && DepsApart(p, n, a, c) && p.Lab(n).IsWrite() && p.Lab(n).pos == p.Pos(n)
    requires Limit(s.graph, p.Pos(n))
    requires ViewsComputed(s.graph, p.Lab(n).(stamp := p.Stamp(n)), p.item(n).deps, placed)
    ensures !placed.ppo.Has(a) && (SourceApart(p, n, a, c, q) ==> !placed.pporf.Has(a))
  {
    hide Ran, Weak, Unreleased, FromPpo, FromRelease, ViewsComputed, LastReleaseAtLoc, LastRelease;
    UnawarePpo(s, p, n, a, c, q);
    RanRelease(s, p, n);
    if p.Lab(n).AtLeastRelease() {
      PpoOnly(s.graph, p.Lab(n).(stamp := p.Stamp(n)), p.item(n).deps, placed, a);
      if SourceApart(p, n, a, c, q) {
        UnawareRelease(s, p, n, a, c, q);
        ReleaseUnaware(s.graph, p.Lab(n).(stamp := p.Stamp(n)), p.item(n).deps, placed, a);
      }
    } else {
      WriteUnaware(s.graph, p.Lab(n).(stamp := p.Stamp(n)), p.item(n).deps, placed, a);
    }
  }

  lemma PpoOnly(g: Graph, lab: Label, deps: EventDeps, placed: Label, a: Event)
    requires ViewsComputed(g, lab, deps, placed) && !FromPpo(g, lab.pos, deps, a) && (lab.IsRead() || lab.IsWrite())
    requires lab.IsRmwStore() ==> !CHas(g, lab.pos.Prev(), a)
    ensures !placed.ppo.Has(a)
  {
    assert placed.ppo.Has(a) <==> PpoNew(g, placed, deps, a);
  }

  lemma UnawarePlain(s: State, p: Script, n: nat, placed: Label, a: Event, c: set<Event>, q: set<Event>)
    requires Ran(s, p, n) && Weak(p, n, c) && Unreleased(p, n) && p.kids <= 2 && Hidden(s.graph, a, c, q)
    requires NotStarts(p, c) && DepsApart(p, n, a, c) && SourceApart(p, n, a, c, q)
    requires (p.Lab(n).kind.ThreadFinish? || p.Lab(n).kind.Fence?) && p.Lab(n).pos == p.Pos(n)
    requires Limit(s.graph, p.Pos(n))
    requires ViewsComputed(s.graph, p.Lab(n).(stamp := p.Stamp(n)), p.item(n).deps, placed)
    ensures !placed.pporf.Has(a)
  {
    hide Ran, Weak, Unreleased, FromPpo, FromRelease, ViewsComputed, LastReleaseAtLoc, LastRelease;
    UnawarePpo(s, p, n, a, c, q);
    if p.Lab(n).AtLeastRelease() { UnawareRelease(s, p, n, a, c, q); }
    PlainUnaware(s.graph, p.Lab(n).(stamp := p.Stamp(n)), p.item(n).deps, placed, a);
  }

  lemma PlainKeepsNoPpo(g: Graph, lab: Label, deps: EventDeps, placed: Label, a: Event)
    requires ViewsComputed(g, lab, deps, placed) && (lab.kind.ThreadFinish? || lab.kind.Fence?) && lab.ppo == EmptyClock
    ensures !placed.ppo.Has(a)
  {}

  /** What is hidden stays so. */
  lemma StaysHidden(s: State, p: Script, n: nat, placed: Label, s': State, a: Event, c: set<Event>, q: set<Event>)
    requires Ran(s, p, n) && Weak(p, n, c) && Unreleased(p, n) && p.kids <= 2 && Hidden(s.graph, a, c, q)
    requires Shielded(p, n, a, c, q) && Ordinary(p.Lab(n)) && p.Lab(n).pos == p.Pos(n)
    requires p.Lab(n).ppo == EmptyClock
    requires Limit(s.graph, p.Pos(n)) && OneMore(s.graph, placed, s'.graph)
    requires ViewsComputed(s.graph, p.Lab(n).(stamp := p.Stamp(n)), p.item(n).deps, placed)
    ensures Hidden(s'.graph, a, c, q)
  {
    hide Ran, Weak, Unreleased, Hidden, NotStarts, DepsApart, SourceApart, ViewsComputed, OneMore;
    var g, lab, deps := s.graph, p.Lab(n).(stamp := p.Stamp(n)), p.item(n).deps;
    PlacedPos(g, lab, deps, placed);
    if p.Pos(n) !in c || p.Pos(n) !in q {
      if lab.IsRead() {
        UnawarePpo(s, p, n, a, c, q);
        RmwStoreIsWrite(lab);
        PpoOnly(g, lab, deps, placed, a);
        if p.Pos(n) !in c { UnawareRead(s, p, n, placed, a, c, q); }
      } else if lab.IsWrite() {
        UnawareWrite(s, p, n, placed, a, c, q);
      } else {
        PlainKeepsNoPpo(g, lab, deps, placed, a);
        if p.Pos(n) !in c { UnawarePlain(s, p, n, placed, a, c, q); }
      }
    }
    HiddenStep(g, placed, s'.graph, a, c, q);
  }

  lemma PlacedPos(g: Graph, lab: Label, deps: EventDeps, placed: Label)
    requires ViewsComputed(g, lab, deps, placed)
    ensures placed.pos == lab.pos
  {}

  lemma RmwStoreIsWrite(lab: Label)
    ensures lab.IsRmwStore() ==> lab.IsWrite()
  {}

  // ----- adding the next label -----

  /** What there has to be for label n. */
  ghost predicate Grounded(s: State, p: Script, n: nat) {
    var g, it := s.graph, p.item(n);
    && it.lab.pos == p.Pos(n) && Unviewed(it.lab) && it.lab.stamp == 0 && Ordinary(it.lab) && WfOrdering(it.lab)
    && (forall d :: it.deps.Has(d) ==> In(g, d) && d.thread == p.Pos(n).thread && d.index < p.Pos(n).index)
    && (it.lab.IsRead() ==> RfTarget(g, it.lab.rf))
    && (it.lab.IsRmwStore() ==>
          var r := p.Pos(n).Prev();
          IsReadAt(g, r) && L(g, r).ord != NotAtomic && In(g, L(g, r).rf))
    && (it.lab.kind.Fence? ==> forall r :: ScannedRead(g, p.Pos(n), r) ==> In(g, L(g, r).rf))
  }

  /** The thread of label n goes on. */
  ghost predicate Unfinished(p: Script, n: nat) {
    forall i :: 0 <= i < n && p.Pos(i).thread == p.Pos(n).thread ==> !p.Lab(i).kind.ThreadFinish?
  }

  lemma ItemVisitable(s: State, p: Script, n: nat)
    requires Ran(s, p, n) && Grounded(s, p, n) && Unfinished(p, n) && p.kids <= 2 && p.Pos(n).thread <= p.kids
    ensures Visitable(s, p.Lab(n), p.item(n).deps)
  {
    var g, e := s.graph, p.Pos(n);
    PrevThere(s, p, n);
    NextPlace(s, p, n);
    hide Ran, Unfinished;
  }

  lemma NextPlace(s: State, p: Script, n: nat)
    requires Ran(s, p, n) && p.kids <= 2 && p.Pos(n).thread <= p.kids
    ensures var e := p.Pos(n); Limit(s.graph, e) && e.index == |s.graph[e.thread]| && e.index >= 1 && s.blocked == {}
  {}

  lemma PrevThere(s: State, p: Script, n: nat)
    requires Ran(s, p, n) && Unfinished(p, n) && p.kids <= 2 && p.Pos(n).thread <= p.kids
    ensures In(s.graph, p.Pos(n).Prev()) && !L(s.graph, p.Pos(n).Prev()).kind.ThreadFinish?
  {
    var e := p.Pos(n).Prev();
    NextPlace(s, p, n);
    hide Ran;
    if p.Starts(e) { RanStart(s, p, n, e); } else { RanAt(s, p, n, e); }
  }

  /** The next label of the script. */
  method RunNext(d: ImmDriver, ghost ss: seq<State>, ghost acts: seq<Action>, ghost s: State, ghost p: Script, n: nat,
                 item: Item)
    returns (ghost ss': seq<State>, ghost acts': seq<Action>, ghost s': State, ghost placed: Label)
    requires Reached(d, ss, acts, s) && Ran(s, p, n) && d.graph.timestamp == p.Stamp(n) && item == p.item(n)
    requires Grounded(s, p, n) && Unfinished(p, n) && p.kids <= 2 && p.Pos(n).thread <= p.kids
    modifies d.graph
    ensures Reached(d, ss', acts', s') && d.graph.timestamp == p.Stamp(n + 1)
    ensures Ran(s', p, n + 1) && OneMore(s.graph, placed, s'.graph) && placed.pos == p.Pos(n)
    ensures Limit(s.graph, p.Pos(n))
    ensures ViewsComputed(s.graph, p.Lab(n).(stamp := p.Stamp(n)), p.item(n).deps, placed)
    ensures acts' == acts + [Append(p.Lab(n).(stamp := p.Stamp(n)), p.item(n).deps)]
  {
    hide Inv, Timed, Step, Visitable, ViewsComputed, Has, OneMore, Ran, Unfinished;
    ItemVisitable(s, p, n);
    GroundedShape(s, p, n);
    hide Grounded;
    ss', acts', s', placed := AddNext(d, ss, acts, s, item.lab, item.deps);
    RanStep(s, p, n, placed, s');
    NextPlace(s, p, n);
  }

  lemma GroundedShape(s: State, p: Script, n: nat)
    requires Grounded(s, p, n)
    ensures p.Lab(n).pos == p.Pos(n) && !p.Lab(n).kind.ThreadStart? && !p.Lab(n).kind.ThreadJoin?
  {}

  // ----- what a run without blocked threads says of clocks -----

  /** If no thread is blocked clocks mention events of the graph only, none of them a begin. */
  lemma KnownInside(s: State, x: Event, a: Event)
    requires Inv(s) && s.blocked == {}
    ensures CHas(s.graph, x, a) || PHas(s.graph, x, a) ==> In(s.graph, a) && a.index >= 1
  {
    hide Inv, InvAt, HeldAllOk, GraphOk;
    var o := InvOrder(s);
    SettledNothing(s.graph);
    hide Settled;
    CausalOf(s.graph, o);
  }

  lemma CausalOf(g: Graph, o: Order)
    requires InvAt(g, o)
    ensures forall x, a :: CHas(g, x, a) || PHas(g, x, a) ==> In(g, a)
    ensures forall x :: In(g, x) && x.index >= 1 ==> CHas(g, x, x)
    ensures RfKnown(g) && ReleasesCover(g)
  {
    InvParts(g, o);
    hide InvAt;
    CausalReady(g, o);
  }

  lemma SelfAware(s: State, d: Event)
    requires Inv(s) && s.blocked == {} && In(s.graph, d) && d.index >= 1
    ensures CHas(s.graph, d, d)
  {
    hide Inv, InvAt, HeldAllOk, GraphOk;
    var o := InvOrder(s);
    SettledNothing(s.graph);
    hide Settled;
    CausalOf(s.graph, o);
  }

  /** Nobody but the event itself knows an event just added. */
  lemma JustAdded(s: State, placed: Label, s': State)
    requires Inv(s) && s.blocked == {} && OneMore(s.graph, placed, s'.graph)
    ensures forall x :: CHas(s'.graph, x, placed.pos) ==> x == placed.pos
  {
    hide Inv;
    Grown(s.graph, placed, s'.graph);
    hide OneMore;
    forall x | CHas(s'.graph, x, placed.pos) ensures x == placed.pos { KnownInside(s, x, placed.pos); }
  }

  /** If no thread is blocked releases know what precedes them, reads know their external sources, and knowledge is
      transitive. */
  lemma ReleaseKnows(s: State, x: Event, a: Event)
    requires Inv(s) && s.blocked == {} && In(s.graph, x) && IsListedRelease(L(s.graph, x))
    requires a.thread == x.thread && 1 <= a.index <= x.index
    ensures CHas(s.graph, x, a)
  {
    hide Inv, InvAt, HeldAllOk, GraphOk;
    var o := InvOrder(s);
    SettledNothing(s.graph);
    hide Settled;
    CausalOf(s.graph, o);
  }

  lemma KnowsSource(s: State, r: Event)
    requires Inv(s) && s.blocked == {} && ReadsExternally(s.graph, r)
    ensures CHas(s.graph, r, L(s.graph, r).rf)
  {
    hide Inv, InvAt, HeldAllOk, GraphOk;
    var o := InvOrder(s);
    SettledNothing(s.graph);
    hide Settled;
    CausalOf(s.graph, o);
  }

  lemma KnowsOnward(s: State, x: Event, a: Event, b: Event)
    requires Inv(s) && s.blocked == {} && CHas(s.graph, x, a) && CHas(s.graph, a, b)
    ensures CHas(s.graph, x, b)
  {
    hide Inv;
    ClosedUnlessHeld(s, x, a, b);
  }

  // ----- forward revisits of the label added last -----

  /** The same graph, but for reader lists. */
  ghost predicate Alike(g: Graph, h: Graph) {
    && |h| == |g| && (forall t :: 0 <= t < |g| ==> |h[t]| == |g[t]|)
    && forall x :: In(g, x) ==> In(h, x) && L(h, x) == L(g, x).(readers := L(h, x).readers)
  }

  ghost predicate AllOrdinary(p: Script, n: nat) { forall i :: 0 <= i < n ==> Ordinary(p.Lab(i)) }

  lemma RanKinds(s: State, p: Script, n: nat, x: Event)
    requires Ran(s, p, n) && AllOrdinary(p, n) && p.kids <= 2 && In(s.graph, x)
    ensures !L(s.graph, x).kind.ThreadJoin? && L(s.graph, x).stamp < p.Stamp(n)
    ensures x.index == 0 && x != Initializer ==>
              L(s.graph, x).kind == ThreadStart(Event(0, x.thread)) && In(s.graph, Event(0, x.thread)) &&
              L(s.graph, Event(0, x.thread)).stamp < p.Stamp(0)
    ensures x.index > 0 ==> !L(s.graph, x).kind.ThreadStart?
  {
    if p.Starts(x) {
      RanStart(s, p, n, x);
      if x.index == 0 && x.thread >= 1 {
        var t: nat := x.thread;
        assert Has(s.graph, Event(t, 0), StartLabel(t, Event(0, t)).(stamp := 2 * t));
        assert Has(s.graph, Event(0, t), CreateOf(t).(stamp := 2 * t - 1));
      }
    } else {
      hide Ran;
      RanAt(s, p, n, x);
    }
  }

  lemma CutParts(s: State, stamp: nat, s1: State)
    requires Inv(s) && CutStep(s, stamp, s1)
    ensures DepCutSpec.IsDepCut(s.graph, stamp, s1.graph) && Begun(s.graph) && ThreadsIncrease(s.graph)
    ensures s.shut == {} ==> s1.shut == {}
  {}

  lemma CutAlike(g: Graph, stamp: nat, h: Graph)
    requires Begun(g) && ThreadsIncrease(g) && DepCutSpec.IsDepCut(g, stamp, h)
    requires forall x :: In(g, x) ==> L(g, x).stamp <= stamp && !L(g, x).kind.ThreadJoin?
    ensures Alike(g, h)
  {
    CutLengths(g, stamp, h);
    forall x | In(g, x) ensures In(h, x) && L(h, x) == L(g, x).(readers := L(h, x).readers) {
      CutKeepsBelow(g, stamp, h, x);
      SurvivorLabel(g, stamp, h, x);
    }
    hide DepCutSpec.IsDepCut, Begun, ThreadsIncrease;
    forall t | 0 <= t < |g| ensures |h[t]| == |g[t]| {
      if |g[t]| > 0 { assert In(g, Event(t, |g[t]| - 1)); }
    }
  }

  /** Nothing is younger than the last label added: a cut back to it leaves all labels as they are. */
  lemma NothingCut(s: State, p: Script, n: nat, s1: State)
    requires Inv(s) && Ran(s, p, n + 1) && AllOrdinary(p, n + 1) && p.kids <= 2 && CutStep(s, p.Stamp(n), s1)
    ensures Alike(s.graph, s1.graph) && s1.blocked == {} && s1.shut == {}
  {
    hide Inv, AllOrdinary, Ran, CutStep, RefsKept, Alike;
    var g := s.graph;
    StartsThere(s, p, n + 1);
    forall x | In(g, x) ensures L(g, x).stamp <= p.Stamp(n) && !L(g, x).kind.ThreadJoin? { RanKinds(s, p, n + 1, x); }
    AllKept(s, p, n);
    CutKeepsClocksIff(s, p.Stamp(n), s1);
    CutParts(s, p.Stamp(n), s1);
    CutAlike(g, p.Stamp(n), s1.graph);
  }

  lemma AllKept(s: State, p: Script, n: nat)
    requires Ran(s, p, n + 1) && AllOrdinary(p, n + 1) && p.kids <= 2
    ensures RefsKept(s.graph, p.Stamp(n) + 1)
  {
    hide Ran, AllOrdinary;
    forall x | In(s.graph, x) && Below(s.graph, p.Stamp(n) + 1, x) ensures !Dangles(s.graph, p.Stamp(n) + 1, x) {
      RanKinds(s, p, n + 1, x);
    }
  }

  /** What a forward revisit to the initialiser does to labels. */
  ghost predicate Forwarded(g: Graph, read: Event, h: Graph) {
    && |h| == |g| && (forall t :: 0 <= t < |g| ==> |h[t]| == |g[t]|) && IsReadAt(g, read)
    && forall x :: In(g, x) ==>
         && In(h, x)
         && (x != read ==> L(h, x) == L(g, x).(readers := L(h, x).readers))
         && (x == read ==>
               && L(h, x) == L(g, x).(rf := Initializer, readers := L(h, x).readers, hb := L(h, x).hb,
                                      pporf := L(h, x).pporf)
               && forall a :: L(h, x).pporf.Has(a) ==> L(g, x).ppo.Has(a) || PHas(g, Initializer, a))
  }

  lemma AlikeForwarded(g: Graph, g1: Graph, read: Event, lab: Label, h: Graph)
    requires Alike(g, g1) && In(g, read) && IsReadAt(g1, read)
    requires var c := RfChanged(g1, read, Initializer);
             In(c, read) && RfRecomputed(c, L(c, read), lab) && h == Set(c, read, lab)
    ensures Forwarded(g, read, h)
  {
    var c := RfChanged(g1, read, Initializer);
    RfChangedAt(g1, read, Initializer);
    LengthsSame(g1, read, Initializer);
    RecomputedFields(c, L(c, read), lab);
    SetAt(c, read, lab);
    hide RfChanged, Set;
    forall a | lab.pporf.Has(a) ensures L(g, read).ppo.Has(a) || PHas(g, Initializer, a) {
      assert FromRf(c, L(c, read).pos, L(c, read).addr, Initializer, L(c, read).ppo, a);
    }
  }

  lemma ForwardMade(s: State, p: Script, n: nat, s1: State, s': State)
    requires Inv(s) && Ran(s, p, n + 1) && AllOrdinary(p, n + 1) && p.kids <= 2 && In(s.graph, p.Pos(n))
    requires CutStep(s, p.Stamp(n), s1) && Step(s1, Retarget(p.Pos(n), Initializer), s')
    ensures Forwarded(s.graph, p.Pos(n), s'.graph) && s'.blocked == {} && s'.shut == {}
  {
    hide Inv, Ran, CutStep, RetargetStep, AllOrdinary, Alike;
    NothingCut(s, p, n, s1);
    var lab :| RetargetStep(s1, p.Pos(n), Initializer, lab, s');
    RetargetShape(s1, p.Pos(n), lab, s');
    AlikeForwarded(s.graph, s1.graph, p.Pos(n), lab, s'.graph);
  }

  lemma RetargetShape(s: State, read: Event, lab: Label, s': State)
    requires RetargetStep(s, read, Initializer, lab, s')
    ensures IsReadAt(s.graph, read) && s'.blocked == s.blocked && s'.shut == s.shut
    ensures var c := RfChanged(s.graph, read, Initializer);
            In(c, read) && RfRecomputed(c, L(c, read), lab) && s'.graph == Set(c, read, lab)
  {}

  /** The script goes on with the read's source replaced. */
  ghost predicate Revised(p: Script, n: nat, q: Script) {
    && q.kids == p.kids && q.main == p.main && q.first == p.first
    && forall i :: 0 <= i <= n ==> q.Lab(i) == if i == n then p.Lab(i).(rf := Initializer) else p.Lab(i)
  }

  lemma RanForward(s: State, p: Script, n: nat, q: Script, s': State)
    requires Ran(s, p, n + 1) && Revised(p, n, q) && Forwarded(s.graph, p.Pos(n), s'.graph)
    requires s'.blocked == {} && s'.shut == {}
    ensures Ran(s', q, n + 1)
  {
    var g, h := s.graph, s'.graph;
    forall i | 0 <= i < n + 1 ensures Has(h, q.Pos(i), q.Lab(i).(stamp := q.Stamp(i))) {
      ItemForward(s, p, n, q, s', i);
    }
    SpawnedForward(s, p, n, s');
    hide Forwarded, Has, SpawnedLabels;
  }

  lemma HasForward(g: Graph, read: Event, h: Graph, x: Event, lab: Label)
    requires Forwarded(g, read, h) && Has(g, x, lab)
    ensures Has(h, x, if x == read then lab.(rf := Initializer) else lab)
  {}

  lemma ItemForward(s: State, p: Script, n: nat, q: Script, s': State, i: nat)
    requires Ran(s, p, n + 1) && Revised(p, n, q) && Forwarded(s.graph, p.Pos(n), s'.graph) && i <= n
    ensures Has(s'.graph, q.Pos(i), q.Lab(i).(stamp := q.Stamp(i)))
  {
    hide Ran, Forwarded, Has;
    ItemAdded(s, p, n + 1, i);
    HasForward(s.graph, p.Pos(n), s'.graph, p.Pos(i), p.Lab(i).(stamp := p.Stamp(i)));
  }

  lemma SpawnedForward(s: State, p: Script, n: nat, s': State)
    requires Ran(s, p, n + 1) && Forwarded(s.graph, p.Pos(n), s'.graph)
    ensures SpawnedLabels(s'.graph, p.kids)
  {
    var g, h := s.graph, s'.graph;
    forall x, lab | Has(g, x, lab) && x != p.Pos(n) ensures Has(h, x, lab) { HasForward(g, p.Pos(n), h, x, lab); }
    hide Forwarded, Has;
  }

  lemma HiddenForward(g: Graph, read: Event, h: Graph, a: Event, c: set<Event>, q: set<Event>)
    requires Forwarded(g, read, h) && Hidden(g, a, c, q) && read !in q && Initializer !in q
    ensures Hidden(h, a, c - {read}, q)
  {
    forall x ensures (CHas(h, x, a) ==> x in c - {read}) && (PHas(h, x, a) ==> x in q) {
      if In(h, x) {
        assert In(g, x);
        assert (CHas(g, x, a) ==> x in c) && (PHas(g, x, a) ==> x in q);
        assert !PHas(g, Initializer, a);
      }
    }
  }

  lemma KnowledgeForwarded(g: Graph, read: Event, h: Graph, x: Event, a: Event)
    requires Forwarded(g, read, h) && CHas(g, x, a) && x != read
    ensures CHas(h, x, a)
  {}

  /** The label added last, a read, is revisited by the initialiser. */
  method Forward(d: ImmDriver, ghost ss: seq<State>, ghost acts: seq<Action>, ghost s: State, ghost p: Script, n: nat,
                 read: Event, ghost q: Script)
    returns (ghost ss': seq<State>, ghost acts': seq<Action>, ghost s': State)
    requires Reached(d, ss, acts, s) && Ran(s, p, n + 1) && AllOrdinary(p, n + 1) && p.kids <= 2 && read == p.Pos(n)
    requires p.Lab(n).IsRead() && Revised(p, n, q)
    modifies d.graph
    ensures Reached(d, ss', acts', s') && Ran(s', q, n + 1) && d.graph.timestamp == q.Stamp(n + 1)
    ensures Forwarded(s.graph, read, s'.graph)
    ensures acts' == acts + [CutBack(p.Stamp(n)), Retarget(read, Initializer)]
  {
    hide Inv, Timed, Step, Ran, AllOrdinary, Revised, Forwarded, LastRecomputable;
    ReadReady(s, p, n);
    ghost var s1;
    s1, s' := ForwardRevisit(d, s, read, Initializer);
    StepOfCut(s, p.Stamp(n), s1);
    ForwardMade(s, p, n, s1, s');
    RanForward(s, p, n, q, s');
    SameStamps(p, n, q);
    ghost var cut, retarget := CutBack(p.Stamp(n)), Retarget(read, Initializer);
    RunGrows(ss, acts, cut, s1);
    RunGrows(ss + [s1], acts + [cut], retarget, s');
    ss', acts' := ss + [s1] + [s'], acts + [cut] + [retarget];
    assert acts' == acts + [cut, retarget];
  }

  lemma StepOfCut(s: State, stamp: nat, s1: State)
    requires Step(s, CutBack(stamp), s1)
    ensures CutStep(s, stamp, s1)
  {}

  lemma SameStamps(p: Script, n: nat, q: Script)
    requires Revised(p, n, q)
    ensures q.Stamp(n + 1) == p.Stamp(n) + 1
  {}

  lemma ReadReady(s: State, p: Script, n: nat)
    requires Ran(s, p, n + 1) && AllOrdinary(p, n + 1) && p.kids <= 2 && p.Lab(n).IsRead()
    ensures IsReadAt(s.graph, p.Pos(n)) && L(s.graph, p.Pos(n)).stamp == p.Stamp(n) && s.shut == {}
    ensures RfTarget(s.graph, Initializer) && Below(s.graph, p.Stamp(n) + 1, Initializer)
    ensures forall e :: In(s.graph, e) ==> L(s.graph, e).stamp <= p.Stamp(n)
  {
    ItemAdded(s, p, n + 1, n);
    StartsThere(s, p, n + 1);
    hide Ran;
    forall e | In(s.graph, e) ensures L(s.graph, e).stamp <= p.Stamp(n) { RanKinds(s, p, n + 1, e); }
  }

  lemma HbInside(s: State, x: Event, a: Event)
    requires Inv(s) && s.blocked == {} && HbHas(s.graph, x, a)
    ensures In(s.graph, a)
  {
    hide Inv, InvAt, HeldAllOk, GraphOk;
    var o := InvOrder(s);
    SettledNothing(s.graph);
    hide Settled;
    InvParts(s.graph, o);
    CausalReady(s.graph, o);
  }

  /** What has just been added comes before nothing yet. */
  lemma JustAddedHb(s: State, placed: Label, s': State)
    requires Inv(s) && s.blocked == {} && OneMore(s.graph, placed, s'.graph)
    ensures forall x :: HbHas(s'.graph, x, placed.pos) ==> x == placed.pos
  {
    hide Inv;
    Grown(s.graph, placed, s'.graph);
    hide OneMore;
    forall x | HbHas(s'.graph, x, placed.pos) ensures x == placed.pos {
      if x != placed.pos { HbInside(s, x, placed.pos); }
    }
  }

  /** An event to come is not known yet. */
  lemma UnheardOf(s: State, a: Event, c: set<Event>, q: set<Event>)
    requires Inv(s) && s.blocked == {} && !In(s.graph, a)
    ensures Hidden(s.graph, a, c, q)
  {
    hide Inv;
    forall x ensures !CHas(s.graph, x, a) && !PHas(s.graph, x, a) { KnownInside(s, x, a); }
  }

  // ----- what comes before labels of the children -----

  /** The children synchronise with nothing but their creation. */
  ghost predicate KidsRelaxed(p: Script, n: nat) {
    forall i :: 0 <= i < n && p.Pos(i).thread >= 1 ==> !Acquires(p.Lab(i))
  }

  /** A label of a child, or one main has before the list. */
  predicate Early(p: Script, x: Event) { x.thread >= 1 || x.index <= p.kids }

  lemma EarlyEdge(s: State, p: Script, n: nat, q: Event, x: Event)
    requires Inv(s) && Ran(s, p, n) && AllOrdinary(p, n) && KidsRelaxed(p, n) && p.kids <= 2 && HbEdge(s.graph, q, x)
    requires Early(p, x)
    ensures Early(p, q)
  {
    hide Inv, MsgSource, Ran, AllOrdinary, KidsRelaxed;
    PlacedAt(s, x);
    RanKinds(s, p, n, x);
    StartsThere(s, p, n);
    if p.Starts(x) {
      RanStart(s, p, n, x);
      MainStarts(s, p, n);
    } else {
      EarlyLabel(s, p, n, x);
    }
  }

  lemma PlacedAt(s: State, x: Event)
    requires Inv(s) && In(s.graph, x)
    ensures L(s.graph, x).pos == x
  {}

  lemma MainStarts(s: State, p: Script, n: nat)
    requires Ran(s, p, n)
    ensures In(s.graph, Initializer) && L(s.graph, Initializer).kind == ThreadStart(Initializer)
  {}

  lemma EarlyLabel(s: State, p: Script, n: nat, x: Event)
    requires Ran(s, p, n) && AllOrdinary(p, n) && KidsRelaxed(p, n) && p.kids <= 2 && In(s.graph, x)
    requires Early(p, x) && !p.Starts(x)
    ensures !Acquires(L(s.graph, x)) && x.thread >= 1
  {
    hide Ran;
    RanAt(s, p, n, x);
  }

  lemma {:induction false} EarlyPath(s: State, p: Script, n: nat, ps: seq<Event>)
    requires Inv(s) && Ran(s, p, n) && AllOrdinary(p, n) && KidsRelaxed(p, n) && p.kids <= 2 && HbPath(s.graph, ps)
    requires Early(p, ps[|ps| - 1])
    ensures Early(p, ps[0])
    decreases |ps|
  {
    hide Inv, Ran, AllOrdinary, KidsRelaxed;
    var k := |ps|;
    assert HbEdge(s.graph, ps[k - 2], ps[k - 1]);
    EarlyEdge(s, p, n, ps[k - 2], ps[k - 1]);
    if k > 2 { EarlyPath(s, p, n, ps[..k - 1]); }
  }

  /** hb views of such labels hold nothing else. */
  lemma EarlyKnows(s: State, p: Script, n: nat, a: Event, b: Event)
    requires Inv(s) && Ran(s, p, n) && AllOrdinary(p, n) && KidsRelaxed(p, n) && p.kids <= 2
    requires HbHas(s.graph, b, a) && Early(p, b)
    ensures Early(p, a)
  {
    hide Inv, AllOrdinary, KidsRelaxed;
    StartsThere(s, p, n);
    hide Ran;
    HbIndexed(s.graph, b, a);
    HbUnlessHeld(s, a, b);
    if a != b {
      var ps :| HbPath(s.graph, ps) && ps[0] == a && ps[|ps| - 1] == b;
      EarlyPath(s, p, n, ps);
    }
  }

  lemma HbIndexed(g: Graph, b: Event, a: Event)
    requires HbHas(g, b, a)
    ensures a.index >= 1
  {}
}
