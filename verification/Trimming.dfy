/** Cutting threads short: what has to hold together for the clocks of the rest to stay right. */
module Trimming {
  import opened Events
  import opened Clocks
  import opened Graphs
  import opened ImmSpec
  import opened Causality
  import opened HbExact
  import opened Restriction
  import opened Sources
  import opened Settling

  // ----- trimmed graphs -----

  predicate EndsThread(h: Graph, x: Event) { In(h, x) && x.index == |h[x.thread]| - 1 }

  /** Every thread of h is a beginning of that of g. A join whose finish is cut off may have forgotten it. */
  ghost predicate Trimmed(g: Graph, h: Graph) {
    && |h| == |g| && (forall t :: 0 <= t < |g| ==> 0 < |h[t]| <= |g[t]|)
    && (forall x :: In(h, x) ==>
                      if EndsThread(h, x) && L(g, x).kind.ThreadJoin? && !In(h, L(g, x).kind.childLast)
                      then L(h, x).kind.ThreadJoin? && Core(L(h, x)) == Core(L(g, x).(kind := L(h, x).kind))
                      else Core(L(h, x)) == Core(L(g, x)))
  }

  /** Reads but r keep their writes, and a join or begin that loses its finish or creation ends its thread. */
  ghost predicate Cohesive(g: Graph, h: Graph, r: Event) {
    forall x :: In(g, x) && In(h, x) ==>
                  && (L(g, x).IsRead() && x != r ==> L(g, x).rf == Bottom || In(h, L(g, x).rf))
                  && (L(g, x).kind.ThreadStart? && x != Initializer && !In(h, L(g, x).kind.parentCreate) ==>
                         EndsThread(h, x))
                  && (L(g, x).kind.ThreadJoin? && L(g, x).kind.childLast != Initializer &&
                         !In(h, L(g, x).kind.childLast) ==>
                        EndsThread(h, x))
  }

  /** The last label of thread t of h has lost what it refers to, or was blocked before. */
  predicate StuckAt(g: Graph, blocked: set<nat>, h: Graph, t: nat) {
    t < |h| && t < |g| && 0 < |h[t]| <= |g[t]| &&
    (|| (t in blocked && |h[t]| == |g[t]|)
     || match g[t][|h[t]| - 1].kind
        case ThreadJoin(_, f) => |h[t]| > 1 && f != Initializer && !In(h, f)
        case ThreadStart(c) => |h[t]| == 1 && t != 0 && !In(h, c)
        case _ => false)
  }

  /** The threads blocked after g is trimmed to h. */
  function Stuck(g: Graph, blocked: set<nat>, h: Graph): set<nat> {
    set t: nat | t < |h| && StuckAt(g, blocked, h, t)
  }

  /** The threads that lose their last label: those stuck, and that of r. */
  function Losing(g: Graph, blocked: set<nat>, h: Graph, r: Event): set<nat> {
    Add(Stuck(g, blocked, h), r.thread)
  }

  ghost predicate Ends(g: Graph, h: Graph, r: Event) {
    r == Bottom || (In(g, r) && IsRecomputable(L(g, r)) && EndsThread(h, r) && r.index >= 1)
  }

  // ----- the rest is part of the settled graph, and closed -----

  lemma SettledStarted(g: Graph, blocked: set<nat>)
    requires HeldAllOk(g, blocked, Settled(g, blocked)) && Started(Settled(g, blocked))
    requires Positioned(Settled(g, blocked))
    ensures Started(g) && Positioned(g)
  {
    var w := Settled(g, blocked);
    SettledAt(g, blocked);
    forall x | In(g, x) ensures L(g, x).pos == x && (L(g, x).kind.ThreadStart? <==> x.index == 0) {
      if IsHeld(g, blocked, x) { assert HeldOk(g, w, x.thread); } else { assert L(w, x) == L(g, x); }
    }
  }

  lemma LosingKind(g: Graph, blocked: set<nat>, h: Graph, r: Event, x: Event)
    requires HeldAllOk(g, blocked, Settled(g, blocked)) && Trimmed(g, h) && Ends(g, h, r)
    requires IsHeld(h, Losing(g, blocked, h, r), x)
    ensures x != Initializer && In(g, x) && (L(g, x).kind.ThreadStart? || L(g, x).kind.ThreadJoin? || x == r)
  {
    if x.thread == r.thread {
    } else if x.thread in blocked && |h[x.thread]| == |g[x.thread]| {
      HeldKind(g, blocked, Settled(g, blocked), x);
    }
  }

  lemma RestWithin(g: Graph, blocked: set<nat>, h: Graph, r: Event)
    requires Started(g) && Trimmed(g, h) && Ends(g, h, r)
    ensures Within(Settled(h, Losing(g, blocked, h, r)), Settled(g, blocked))
  {
    var d, w := Losing(g, blocked, h, r), Settled(g, blocked);
    var p := Settled(h, d);
    SettledAt(g, blocked);
    SettledAt(h, d);
    forall x | In(p, x) ensures In(w, x) && Core(L(w, x)) == Core(L(p, x)) {
      RestLabel(g, blocked, h, r, x);
    }
  }

  lemma RestLabel(g: Graph, blocked: set<nat>, h: Graph, r: Event, x: Event)
    requires Started(g) && Trimmed(g, h) && Ends(g, h, r) && In(h, x) && !IsHeld(h, Losing(g, blocked, h, r), x)
    ensures In(g, x) && !IsHeld(g, blocked, x) && Core(L(h, x)) == Core(L(g, x))
  {
    if EndsThread(h, x) {
      var t: nat := x.thread;
      assert !StuckAt(g, blocked, h, t);
      assert g[t][|h[t]| - 1] == L(g, x);
      assert In(h, Initializer);
    }
  }

  lemma RestClosed(g: Graph, blocked: set<nat>, o: Order, h: Graph, r: Event)
    requires InvAt(Settled(g, blocked), o) && HeldAllOk(g, blocked, Settled(g, blocked))
    requires Trimmed(g, h) && Ends(g, h, r) && Cohesive(g, h, r)
    ensures Closed(Settled(h, Losing(g, blocked, h, r)), Settled(g, blocked))
  {
    var d, w := Losing(g, blocked, h, r), Settled(g, blocked);
    var p := Settled(h, d);
    SettledAt(g, blocked);
    SettledAt(h, d);
    SettledStarted(g, blocked);
    RestWithin(g, blocked, h, r);
    assert RefsInside(w) && Started(w) && MainBegun(w);
    hide InvAt, Within, Trimmed, Losing, Cohesive, Ends, HeldAllOk, RefsInside, Started, MainBegun, RefersInside;
    forall x | In(p, x) ensures RefersInside(p, L(p, x)) {
      assert Within(p, w) && In(w, x);
      assert x != r by { LosesRead(g, blocked, h, r); }
      RestRefers(g, blocked, h, r, r, x);
      SameRefs(p, w, x);
    }
  }

  lemma LosesRead(g: Graph, blocked: set<nat>, h: Graph, r: Event)
    requires Ends(g, h, r)
    ensures !In(Settled(h, Losing(g, blocked, h, r)), r)
  {
    SettledAt(h, Losing(g, blocked, h, r));
  }

  lemma SameRefs(p: Graph, w: Graph, x: Event)
    requires Within(p, w) && In(p, x) && RefersInside(p, L(w, x))
    ensures RefersInside(p, L(p, x))
  {
    PartFields(p, w, x);
  }

  /** e is a read that may have lost its write. */
  lemma RestRefers(g: Graph, blocked: set<nat>, h: Graph, r: Event, e: Event, x: Event)
    requires var w := Settled(g, blocked); RefsInside(w) && HeldAllOk(g, blocked, w) && Started(w) && MainBegun(w)
    requires Trimmed(g, h) && Ends(g, h, r) && Cohesive(g, h, e) && x != e
    requires In(Settled(h, Losing(g, blocked, h, r)), x) && In(Settled(g, blocked), x) && In(g, x)
    ensures RefersInside(Settled(h, Losing(g, blocked, h, r)), L(g, x))
  {
    var d, w := Losing(g, blocked, h, r), Settled(g, blocked);
    SettledAt(g, blocked);
    SettledAt(h, d);
    var l := L(g, x);
    assert L(w, x) == l && In(h, x) && !IsHeld(h, d, x);
    RefsOfRest(g, blocked, h, r, e, x);
    hide Trimmed, Cohesive, Ends, Losing, Started;
    if l.IsRead() && l.rf != Bottom {
      assert RfTarget(w, l.rf);
      RefStays(g, blocked, h, r, l.rf);
    } else if l.kind.ThreadStart? {
      assert CreatorRef(w, l.kind.parentCreate);
      RefStays(g, blocked, h, r, l.kind.parentCreate);
    } else if l.kind.ThreadJoin? {
      assert FinishRef(w, l.kind.childLast);
      RefStays(g, blocked, h, r, l.kind.childLast);
    }
  }

  /** What does not lose its reference keeps it. */
  lemma RefsOfRest(g: Graph, blocked: set<nat>, h: Graph, r: Event, e: Event, x: Event)
    requires Started(Settled(g, blocked)) && MainBegun(Settled(g, blocked))
    requires Trimmed(g, h) && Ends(g, h, r) && Cohesive(g, h, e) && x != e
    requires In(Settled(h, Losing(g, blocked, h, r)), x) && In(Settled(g, blocked), x) && In(g, x)
    ensures L(g, x).IsRead() && L(g, x).rf != Bottom ==> In(h, L(g, x).rf)
    ensures L(g, x).kind.ThreadStart? ==> In(h, L(g, x).kind.parentCreate)
    ensures L(g, x).kind.ThreadJoin? ==> In(h, L(g, x).kind.childLast)
  {
    var d, w := Losing(g, blocked, h, r), Settled(g, blocked);
    SettledAt(g, blocked);
    SettledAt(h, d);
    var t: nat := x.thread;
    assert !IsHeld(h, d, x) && In(h, Initializer);
    assert L(w, Initializer) == L(g, Initializer);
    assert L(g, x).kind.ThreadStart? <==> x.index == 0;
    hide HeldAllOk, Started, Trimmed, Settled;
    if EndsThread(h, x) {
      assert t !in d && !StuckAt(g, blocked, h, t);
      assert g[t][|h[t]| - 1] == L(g, x);
    }
  }

  lemma RefStays(g: Graph, blocked: set<nat>, h: Graph, r: Event, ref: Event)
    requires HeldAllOk(g, blocked, Settled(g, blocked)) && Trimmed(g, h) && Ends(g, h, r)
    requires In(h, ref) && In(Settled(g, blocked), ref)
    requires var l := L(Settled(g, blocked), ref);
             ref == Initializer || l.IsWrite() || l.kind.ThreadCreate? || l.kind.ThreadFinish?
    ensures In(Settled(h, Losing(g, blocked, h, r)), ref)
  {
    var d := Losing(g, blocked, h, r);
    SettledAt(g, blocked);
    SettledAt(h, d);
    if IsHeld(h, d, ref) { LosingKind(g, blocked, h, r, ref); }
  }

  // ----- the rest keeps the invariants -----

  lemma RestInv(g: Graph, blocked: set<nat>, o: Order, h: Graph, r: Event)
    requires InvAt(Settled(g, blocked), o) && HeldAllOk(g, blocked, Settled(g, blocked))
    requires Trimmed(g, h) && Ends(g, h, r) && Cohesive(g, h, r)
    ensures var p, w := Settled(h, Losing(g, blocked, h, r)), Settled(g, blocked);
            InvAt(p, o) && Supported(p, w)
  {
    var p, w := Settled(h, Losing(g, blocked, h, r)), Settled(g, blocked);
    RestClosed(g, blocked, o, h, r);
    MainStays(g, blocked, h, r);
    hide Trimmed, Cohesive, Ends, Losing, Settled, HeldAllOk;
    PartInv(p, w, o);
  }

  /** A closed part with main in it keeps the invariants. */
  lemma PartInv(p: Graph, w: Graph, o: Order)
    requires InvAt(w, o) && Closed(p, w) && In(p, Initializer)
    ensures InvAt(p, o) && Supported(p, w)
  {
    InvParts(w, o);
    hide InvAt, Causal, HbInv, Sourced, RfKnown, RfOrdered, OrderingsFixed, Closed, Supported, Ready, RefsInside,
         Started, Within, StartsBare, SelfContained, Ranked;
    ClosedSupported(p, w, o);
    SupportedCausal(p, w, o);
    CausalReady(p, o);
    SupportedHb(p, w, o);
    PartSourced(p, w);
    assert Within(p, w) by { SupportedWithin(p, w); }
    PartRfOrdered(p, w, o);
    PartRest(p, w);
    InvWhole(p, o);
  }

  lemma InvParts(g: Graph, o: Order)
    requires InvAt(g, o)
    ensures Causal(g, o) && HbInv(g, o) && Sourced(g) && RfKnown(g) && RfOrdered(g, o) && OrderingsFixed(g)
    ensures MainBegun(g)
  {}

  lemma InvWhole(g: Graph, o: Order)
    requires Causal(g, o) && HbInv(g, o) && Sourced(g) && RfKnown(g) && RfOrdered(g, o) && OrderingsFixed(g)
    requires MainBegun(g)
    ensures InvAt(g, o)
  {}

  lemma PartRest(p: Graph, w: Graph)
    requires Within(p, w) && RfKnown(w) && OrderingsFixed(w) && MainBegun(w) && In(p, Initializer)
    ensures RfKnown(p) && OrderingsFixed(p) && MainBegun(p)
  {
    PartContents(p, w);
    forall x | In(p, x)
      ensures L(p, x).rf == L(w, x).rf && L(p, x).IsRead() == L(w, x).IsRead() && WfOrdering(L(p, x))
      ensures L(w, x).kind.ThreadStart? ==> L(p, x).kind == L(w, x).kind
    {
      PartFields(p, w, x);
    }
    hide Within, WfOrdering;
    forall x | ReadsExternally(p, x) ensures CHas(p, x, L(p, x).rf) { assert ReadsExternally(w, x); }
  }

  lemma MainStays(g: Graph, blocked: set<nat>, h: Graph, r: Event)
    requires HeldAllOk(g, blocked, Settled(g, blocked)) && MainBegun(Settled(g, blocked)) && Trimmed(g, h)
    requires Ends(g, h, r)
    ensures In(Settled(h, Losing(g, blocked, h, r)), Initializer)
  {
    assert In(h, Initializer) by { SettledAt(g, blocked); }
    RefStays(g, blocked, h, r, Initializer);
  }

  // ----- what threads are blocked at can be built on -----

  /** A label with a ppo view: it can be built on without the label itself. */
  lemma OwnBase(w: Graph, o: Order, x: Event)
    requires InvAt(w, o) && In(w, x) && KeepsPpo(L(w, x))
    ensures var l := L(w, x); l.ppo.Wf() && l.ppo.Tight() && BaseOk(w, x, l.ppo) && PpoSourced(w, x, l.ppo)
  {
    InvParts(w, o);
    hide InvAt, Causal, HbInv, RfKnown, RfOrdered, OrderingsFixed, BaseOk, PpoSourced;
    PpoBase(w, o, x);
    OwnSourced(w, o, x);
  }

  lemma OwnSourced(w: Graph, o: Order, x: Event)
    requires Causal(w, o) && Sourced(w) && In(w, x) && KeepsPpo(L(w, x))
    ensures PpoSourced(w, x, L(w, x).ppo)
  {
    CausalReady(w, o);
    assert L(w, x).pos == x;
    hide Causal, Ready, RefsInside, PpoSourced;
    SourcedAt(w, x);
  }

  lemma PpoBase(w: Graph, o: Order, x: Event)
    requires Causal(w, o) && In(w, x) && KeepsPpo(L(w, x))
    ensures L(w, x).ppo.Wf() && L(w, x).ppo.Tight() && BaseOk(w, x, L(w, x).ppo)
  {
    hide Ranked, Ordered, CausallyClosed, SelfContained, ReleasesCover, Anchored, RefsInside, StartsBare, ViewsInGraph,
         Started, Positioned, LaterIn;
    var c := L(w, x).ppo;
    assert PHas(w, x, x);
    forall a | c.Has(a) && a != x
      ensures Admissible(w, x, c, a)
      ensures forall b :: CHas(w, a, b) ==> c.Has(b)
    {
      assert PHas(w, x, a);
      forall b | CHas(w, a, b) ensures c.Has(b) { assert PHas(w, x, b); }
    }
  }

  /** A ppo view that comes through what stays can be built on in a part. */
  lemma BaseInPart(p: Graph, w: Graph, o: Order, x: Event, c: Clock)
    requires InvAt(w, o) && Supported(p, w) && Limit(p, x) && BaseOk(w, x, c) && PpoSourced(w, x, c)
    ensures BaseOk(p, x, c) && PpoSourced(p, x, c)
  {
    InvParts(w, o);
    CausalReady(w, o);
    hide InvAt, Causal, HbInv, RfOrdered, RfKnown, OrderingsFixed, Sourced, SelfContained, StartsBare, Ready,
         RefsInside, Started, Ranked, Closed, KnowsInside, Within, BaseOk, PpoSourced;
    assert Closed(p, w);
    SupportedWithin(p, w);
    ExceptNone(p, w);
    CausalOrdered(w, o);
    hide Ordered, ClosedExcept;
    forall a | c.Has(a) && a != x ensures In(p, a) {
      PpoKnownInPart(p, w, Bottom, o, x, c, a);
    }
    BaseStays(p, w, x, c);
    BaseSources(p, w, x, c);
  }

  lemma BaseStays(p: Graph, w: Graph, x: Event, c: Clock)
    requires Within(p, w) && BaseOk(w, x, c) && forall a :: c.Has(a) && a != x ==> In(p, a)
    ensures BaseOk(p, x, c)
  {
    PartContents(p, w);
    hide Within, LaterIn;
  }

  lemma BaseSources(p: Graph, w: Graph, x: Event, c: Clock)
    requires Within(p, w) && Limit(p, x) && PpoSourced(w, x, c)
    ensures PpoSourced(p, x, c)
  {
    PartContents(p, w);
    forall a | c.Has(a) && a != x ensures ThroughThread(p, x, c, a) {
      assert ThroughThread(w, x, c, a);
      var q :| In(w, q) && Before(q, x) && (q.index == 0 || c.Has(q)) && (a == q || CHas(w, q, a));
      assert In(p, q);
    }
    forall q, b | Before(q, x) && IsAcquireOrFence(p, q) && CHas(p, q, b) ensures c.Has(b) {
      PartFields(p, w, q);
      assert IsAcquireOrFence(w, q) && CHas(w, q, b);
    }
  }

  /** A label a thread of h ends with, and loses, has a ppo view that it can be built on. */
  lemma LosingBase(g: Graph, blocked: set<nat>, o: Order, h: Graph, r: Event, x: Event)
    requires InvAt(Settled(g, blocked), o) && HeldAllOk(g, blocked, Settled(g, blocked))
    requires Trimmed(g, h) && Ends(g, h, r) && IsHeld(h, Losing(g, blocked, h, r), x) && x.index >= 1
    ensures var w, l := Settled(g, blocked), L(h, x);
            && In(g, x) && l.pos == x && WfOrdering(l) && l.ppo == L(g, x).ppo && l.ppo.Wf() && l.ppo.Tight()
            && BaseOk(w, x, l.ppo) && PpoSourced(w, x, l.ppo)
  {
    var w := Settled(g, blocked);
    hide InvAt, Trimmed, Ends, HeldAllOk, BaseOk, PpoSourced, WfOrdering, Losing;
    SettledAt(g, blocked);
    TrimmedLabel(g, h, x);
    if IsHeld(g, blocked, x) {
      HeldJoin(g, blocked, w, x);
    } else {
      LabelParts(w, o, x);
      LosingKeepsPpo(g, blocked, o, h, r, x);
      OwnBase(w, o, x);
    }
  }

  lemma RestBase(g: Graph, blocked: set<nat>, o: Order, h: Graph, r: Event, x: Event)
    requires InvAt(Settled(g, blocked), o) && HeldAllOk(g, blocked, Settled(g, blocked))
    requires Trimmed(g, h) && Ends(g, h, r) && Cohesive(g, h, r)
    requires IsHeld(h, Losing(g, blocked, h, r), x) && x.index >= 1
    ensures var p, l := Settled(h, Losing(g, blocked, h, r)), L(h, x);
            && l.pos == x && WfOrdering(l) && l.ppo == L(g, x).ppo && l.ppo.Wf() && l.ppo.Tight()
            && BaseOk(p, x, l.ppo) && PpoSourced(p, x, l.ppo)
  {
    var p, w := Settled(h, Losing(g, blocked, h, r)), Settled(g, blocked);
    hide InvAt, Trimmed, Cohesive, Ends, HeldAllOk, Supported, BaseOk, PpoSourced, WfOrdering, Losing;
    SettledAt(h, Losing(g, blocked, h, r));
    RestInv(g, blocked, o, h, r);
    LosingBase(g, blocked, o, h, r, x);
    assert Limit(p, x);
    BaseInPart(p, w, o, x, L(g, x).ppo);
  }

  lemma HeldJoin(g: Graph, blocked: set<nat>, w: Graph, x: Event)
    requires HeldAllOk(g, blocked, w) && IsHeld(g, blocked, x) && x.index >= 1
    ensures var l := L(g, x);
            && l.pos == x && WfOrdering(l) && l.kind.ThreadJoin? && l.ppo.Wf() && l.ppo.Tight()
            && BaseOk(w, x, l.ppo) && PpoSourced(w, x, l.ppo)
  {
    assert HeldOk(g, w, x.thread);
  }

  lemma LosingKeepsPpo(g: Graph, blocked: set<nat>, o: Order, h: Graph, r: Event, x: Event)
    requires InvAt(Settled(g, blocked), o) && HeldAllOk(g, blocked, Settled(g, blocked)) && Trimmed(g, h)
    requires Ends(g, h, r)
    requires IsHeld(h, Losing(g, blocked, h, r), x) && x.index >= 1 && In(Settled(g, blocked), x) && In(g, x)
    ensures KeepsPpo(L(g, x))
  {
    LabelParts(Settled(g, blocked), o, x);
    SettledAt(g, blocked);
    hide InvAt, HeldOk;
    LosingKind(g, blocked, h, r, x);
  }

  lemma LabelParts(w: Graph, o: Order, x: Event)
    requires InvAt(w, o) && In(w, x)
    ensures L(w, x).pos == x && WfOrdering(L(w, x)) && (L(w, x).kind.ThreadStart? <==> x.index == 0)
  {}

  lemma TrimmedLabel(g: Graph, h: Graph, x: Event)
    requires Trimmed(g, h) && In(h, x)
    ensures In(g, x)
    ensures var l, m := L(g, x), L(h, x);
            && m.pos == l.pos && m.ppo == l.ppo && m.ord == l.ord && m.addr == l.addr && m.rf == l.rf
            && (WfOrdering(l) ==> WfOrdering(m)) && m.kind.ThreadJoin? == l.kind.ThreadJoin?
            && (!l.kind.ThreadJoin? && !l.kind.ThreadFinish? ==> m.kind == l.kind)
            && (l.kind.ThreadFinish? <==> m.kind.ThreadFinish?)
  {
    if EndsThread(h, x) && L(g, x).kind.ThreadJoin? && !In(h, L(g, x).kind.childLast) {
      CoreFields(L(h, x), L(g, x).(kind := L(h, x).kind));
    } else {
      CoreFields(L(h, x), L(g, x));
    }
  }

  lemma RestHeld(g: Graph, blocked: set<nat>, o: Order, h: Graph, r: Event)
    requires InvAt(Settled(g, blocked), o) && HeldAllOk(g, blocked, Settled(g, blocked))
    requires Trimmed(g, h) && Ends(g, h, r) && Cohesive(g, h, r)
    requires r == Bottom || r.thread !in Stuck(g, blocked, h)
    ensures HeldAllOk(h, Stuck(g, blocked, h), Settled(h, Losing(g, blocked, h, r)))
  {
    var p := Settled(h, Losing(g, blocked, h, r));
    forall t | t in Stuck(g, blocked, h) ensures HeldOk(h, p, t) {
      var x := Event(t, |h[t]| - 1);
      LosingKind(g, blocked, h, r, x);
      TrimmedLabel(g, h, x);
      if x.index == 0 {
        HeldBegin(g, blocked, o, h, t);
      } else {
        RestBase(g, blocked, o, h, r, x);
        HeldIsJoin(g, blocked, o, h, r, x);
      }
    }
  }

  lemma HeldIsJoin(g: Graph, blocked: set<nat>, o: Order, h: Graph, r: Event, x: Event)
    requires InvAt(Settled(g, blocked), o) && HeldAllOk(g, blocked, Settled(g, blocked)) && Trimmed(g, h)
    requires IsHeld(h, Stuck(g, blocked, h), x) && x.index >= 1
    ensures L(h, x).kind.ThreadJoin?
  {
    var w := Settled(g, blocked);
    TrimmedLabel(g, h, x);
    hide InvAt, HeldAllOk, Settled;
    if IsHeld(g, blocked, x) {
      HeldJoin(g, blocked, w, x);
    } else {
      SettledLabel(g, blocked, x);
      LabelParts(w, o, x);
      StuckKind(g, blocked, h, x);
    }
  }

  lemma StuckKind(g: Graph, blocked: set<nat>, h: Graph, x: Event)
    requires Trimmed(g, h) && IsHeld(h, Stuck(g, blocked, h), x) && !IsHeld(g, blocked, x)
    ensures In(g, x) && (L(g, x).kind.ThreadJoin? || L(g, x).kind.ThreadStart?)
  {
    assert StuckAt(g, blocked, h, x.thread);
    assert g[x.thread][|h[x.thread]| - 1] == L(g, x);
  }

  lemma HeldBegin(g: Graph, blocked: set<nat>, o: Order, h: Graph, t: nat)
    requires InvAt(Settled(g, blocked), o) && HeldAllOk(g, blocked, Settled(g, blocked)) && Trimmed(g, h)
    requires t in Stuck(g, blocked, h) && |h[t]| == 1
    ensures var x := Event(t, 0);
            && In(h, x) && L(h, x).pos == x && WfOrdering(L(h, x)) && L(h, x).kind.ThreadStart? && t != 0
            && !CreatorRef(h, L(h, x).kind.parentCreate) && L(h, x).ppo == EmptyClock
  {
    var x := Event(t, 0);
    SettledAt(g, blocked);
    TrimmedLabel(g, h, x);
    assert StuckAt(g, blocked, h, t) && g[t][0] == L(g, x);
    if IsHeld(g, blocked, x) {
      assert HeldOk(g, Settled(g, blocked), t);
      if CreatorRef(h, L(g, x).kind.parentCreate) { CreatorsStay(g, h, L(g, x).kind.parentCreate); }
    } else {
      LabelParts(Settled(g, blocked), o, x);
      BeginBare(Settled(g, blocked), o, x);
    }
  }

  lemma CreatorsStay(g: Graph, h: Graph, c: Event)
    requires Trimmed(g, h) && CreatorRef(h, c)
    ensures CreatorRef(g, c)
  {
    TrimmedLabel(g, h, c);
  }

  lemma BeginBare(w: Graph, o: Order, x: Event)
    requires InvAt(w, o) && In(w, x) && L(w, x).kind.ThreadStart?
    ensures L(w, x).ppo == EmptyClock
  {}
}
