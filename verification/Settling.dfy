/** The graph without what its blocked threads wait at: the part on which all clocks are right. */
module Settling {
  import opened Events
  import opened Clocks
  import opened Graphs
  import opened ImmSpec
  import opened Causality
  import opened HbExact
  import opened Restriction
  import opened Sources

  // ----- the invariants of a graph no thread is blocked in -----

  ghost predicate OrderingsFixed(g: Graph) {
    forall x :: In(g, x) ==> WfOrdering(L(g, x))
  }

  /** main is there, and nobody's child. */
  predicate MainBegun(g: Graph) { In(g, Initializer) && L(g, Initializer).kind == ThreadStart(Initializer) }

  ghost predicate InvAt(g: Graph, o: Order) {
    && Causal(g, o) && HbInv(g, o) && Sourced(g)
    && RfKnown(g) && RfOrdered(g, o) && OrderingsFixed(g) && MainBegun(g)
  }

  // ----- settled graphs -----

  function Add(blocked: set<nat>, t: int): (r: set<nat>)
    ensures forall u :: u in r <==> u in blocked || (u == t && t >= 0)
  {
    if t >= 0 then blocked + {t as nat} else blocked
  }

  function Drop(blocked: set<nat>, t: int): (r: set<nat>)
    ensures forall u :: u in r <==> u in blocked && u != t
  {
    if t >= 0 then blocked - {t as nat} else blocked
  }

  /** Threads that are blocked lose their last label: the join they wait at, or a begin without a creation. */
  function Settled(g: Graph, blocked: set<nat>): Graph {
    seq(|g|, t requires 0 <= t < |g| => if t in blocked && |g[t]| > 0 then g[t][..|g[t]| - 1] else g[t])
  }

  /** x is the label its thread is blocked at. */
  predicate IsHeld(g: Graph, blocked: set<nat>, x: Event) {
    In(g, x) && x.thread in blocked && x.index == |g[x.thread]| - 1
  }

  lemma SettledAt(g: Graph, blocked: set<nat>)
    ensures var w := Settled(g, blocked);
            && |w| == |g|
            && (forall t :: 0 <= t < |g| ==> |w[t]| == if t in blocked && |g[t]| > 0 then |g[t]| - 1 else |g[t]|)
            && (forall t :: 0 <= t < |g| && t !in blocked ==> w[t] == g[t])
            && (forall x :: In(w, x) <==> In(g, x) && !IsHeld(g, blocked, x))
            && (forall x :: In(w, x) ==> L(w, x) == L(g, x))
  {}

  lemma SettledLabel(g: Graph, blocked: set<nat>, x: Event)
    requires In(g, x) && !IsHeld(g, blocked, x)
    ensures In(Settled(g, blocked), x) && L(Settled(g, blocked), x) == L(g, x)
  {}

  /** What a blocked thread ends with: a begin whose creation is gone, or a join with a ppo view to build on. */
  ghost predicate HeldOk(g: Graph, w: Graph, t: nat) {
    && t < |g| && |g[t]| > 0
    && var x := Event(t, |g[t]| - 1);
       var lab := L(g, x);
       && lab.pos == x && WfOrdering(lab)
       && if x.index == 0
          then lab.kind.ThreadStart? && t != 0 && !CreatorRef(g, lab.kind.parentCreate) && lab.ppo == EmptyClock
          else lab.kind.ThreadJoin? && lab.ppo.Wf() && lab.ppo.Tight() && BaseOk(w, x, lab.ppo) &&
               PpoSourced(w, x, lab.ppo)
  }

  ghost predicate HeldAllOk(g: Graph, blocked: set<nat>, w: Graph) {
    forall t :: t in blocked ==> HeldOk(g, w, t)
  }

  lemma HeldKind(g: Graph, blocked: set<nat>, w: Graph, x: Event)
    requires HeldAllOk(g, blocked, w) && IsHeld(g, blocked, x)
    ensures L(g, x).kind.ThreadStart? || L(g, x).kind.ThreadJoin?
    ensures x != Initializer
  {
    assert HeldOk(g, w, x.thread);
  }

  // ----- views are computed over the settled graph as well -----

  /** A thread that finishes ends there. */
  ghost predicate FinishesLast(g: Graph) {
    forall x :: In(g, x) && L(g, x).kind.ThreadFinish? ==> x.index == |g[x.thread]| - 1
  }

  /** w shows of g all that views of thread t are computed from. */
  ghost predicate Shows(g: Graph, w: Graph, t: int) {
    && |w| == |g| && 0 <= t < |g| && w[t] == g[t]
    && (forall x :: In(w, x) ==> In(g, x) && L(w, x) == L(g, x))
    && (forall x :: Near(g, t, x) ==> In(w, x))
    && (forall c, f :: FinishOf(w, c, f) <==> FinishOf(g, c, f))
  }

  lemma SettledShows(g: Graph, blocked: set<nat>, t: int)
    requires HeldAllOk(g, blocked, Settled(g, blocked)) && FinishesLast(g) && 0 <= t < |g| && t !in blocked
    ensures Shows(g, Settled(g, blocked), t)
  {
    var w := Settled(g, blocked);
    SettledAt(g, blocked);
    forall x | Near(g, t, x) ensures In(w, x) {
      if IsHeld(g, blocked, x) { HeldKind(g, blocked, w, x); }
    }
    forall c, f ensures FinishOf(w, c, f) <==> FinishOf(g, c, f) {
      if FinishOf(g, c, f) && IsHeld(g, blocked, f) { HeldKind(g, blocked, w, f); }
      if FinishOf(w, c, f) { assert L(g, f).kind.ThreadFinish?; }
    }
  }

  lemma ShownContents(g: Graph, w: Graph, t: int)
    requires Shows(g, w, t)
    ensures forall x, a :: Near(g, t, x) ==> (CHas(w, x, a) <==> CHas(g, x, a)) && (PHas(w, x, a) <==> PHas(g, x, a))
    ensures forall x, a :: Near(g, t, x) ==>
                (HbHas(w, x, a) <==> HbHas(g, x, a)) && (MsgHas(w, x, a) <==> MsgHas(g, x, a))
    ensures forall x: Event :: x.thread == t ==> (In(w, x) <==> In(g, x)) && (In(g, x) ==> L(w, x) == L(g, x))
    ensures forall x :: IsWriteAt(w, x) <==> IsWriteAt(g, x)
    ensures forall x, a :: MsgHas(w, x, a) <==> MsgHas(g, x, a)
  {
    assert forall x: Event :: x.thread == t && In(g, x) ==> Near(g, t, x);
    assert forall x :: IsWriteAt(g, x) ==> Near(g, t, x);
  }

  lemma PpoShown(g: Graph, w: Graph, e: Event, deps: EventDeps)
    requires Shows(g, w, e.thread) && WfDeps(g, e, deps)
    ensures WfDeps(w, e, deps) && forall a :: FromPpo(w, e, deps, a) <==> FromPpo(g, e, deps, a)
  {
    ShownContents(g, w, e.thread);
    assert forall q: Event :: q.thread == e.thread ==> (IsAcquireOrFence(w, q) <==> IsAcquireOrFence(g, q));
    hide Shows;
    forall a ensures FromPpo(w, e, deps, a) <==> FromPpo(g, e, deps, a) {
      assert forall d :: deps.Has(d) ==> (CHas(w, d, a) <==> CHas(g, d, a));
    }
  }

  lemma LastIndexShown(g: Graph, w: Graph, t: nat, n: nat, p: Label -> bool)
    requires t < |g| && t < |w| && w[t] == g[t] && n <= |g[t]|
    ensures LastIndex(w, t, n, p) == LastIndex(g, t, n, p)
  {
    var i, j := LastIndex(g, t, n, p), LastIndex(w, t, n, p);
    if i < j { assert false; }
    if j < i { assert false; }
  }

  lemma ReleaseShown(g: Graph, w: Graph, e: Event)
    requires Shows(g, w, e.thread) && Limit(g, e)
    ensures Limit(w, e) && LastRelease(w, e) == LastRelease(g, e)
    ensures forall a :: FromRelease(w, e, a) <==> FromRelease(g, e, a)
  {
    ShownContents(g, w, e.thread);
    LastIndexShown(g, w, e.thread, e.index, IsListedRelease);
    hide Shows;
    assert ReleaseScanStart(w, e) == ReleaseScanStart(g, e);
    forall r: Event | r.thread == e.thread ensures IsReadAt(w, r) <==> IsReadAt(g, r) {}
    forall a ensures FromRelease(w, e, a) <==> FromRelease(g, e, a) {
      assert LastRelease(g, e).thread == e.thread;
      assert CHas(w, LastRelease(g, e), a) <==> CHas(g, LastRelease(g, e), a);
    }
  }

  lemma ReleaseAtLocShown(g: Graph, w: Graph, e: Event, addr: int)
    requires Shows(g, w, e.thread) && Limit(g, e)
    ensures Limit(w, e) && LastReleaseAtLoc(w, e, addr) == LastReleaseAtLoc(g, e, addr)
    ensures var rel := LastReleaseAtLoc(g, e, addr);
            forall a :: (CHas(w, rel, a) <==> CHas(g, rel, a)) && (HbHas(w, rel, a) <==> HbHas(g, rel, a))
  {
    ShownContents(g, w, e.thread);
    LastIndexShown(g, w, e.thread, e.index, (lab: Label) => IsListedReleaseAt(lab, addr));
  }

  lemma UnlockShown(g: Graph, w: Graph, e: Event, addr: int)
    requires Shows(g, w, e.thread) && Limit(g, e)
    ensures Limit(w, e) && LastUnlockLapor(w, e, addr) == LastUnlockLapor(g, e, addr)
    ensures var u := LastUnlockLapor(g, e, addr); u != Initializer ==> forall a :: CHas(w, u, a) <==> CHas(g, u, a)
  {
    ShownContents(g, w, e.thread);
    LastIndexShown(g, w, e.thread, e.index, (lab: Label) => lab.kind.UnlockLapor? && lab.addr == addr);
  }

  lemma RfShown(g: Graph, w: Graph, e: Event, addr: int, rf: Event, base: Clock)
    requires Shows(g, w, e.thread) && (rf == Bottom || RfTarget(g, rf))
    ensures rf == Bottom || RfTarget(w, rf)
    ensures forall a :: FromRf(w, e, addr, rf, base, a) <==> FromRf(g, e, addr, rf, base, a)
  {
    ShownContents(g, w, e.thread);
    assert rf != Bottom ==> Near(g, e.thread, rf);
    hide Shows;
    forall a ensures FromOwnWrites(w, e, addr, a) <==> FromOwnWrites(g, e, addr, a) {}
    hide FromOwnWrites;
  }

  lemma PporfShown(g: Graph, w: Graph, lab: Label, deps: EventDeps)
    requires Shows(g, w, lab.pos.thread) && Limit(g, lab.pos) && (!lab.kind.ThreadStart? ==> WfDeps(g, lab.pos, deps))
    requires lab.IsRead() ==> lab.rf == Bottom || RfTarget(g, lab.rf)
    requires lab.kind.ThreadStart? ==> In(g, lab.kind.parentCreate) && L(g, lab.kind.parentCreate).kind.ThreadCreate?
    ensures Limit(w, lab.pos) && forall a :: PporfNew(w, lab, deps, a) <==> PporfNew(g, lab, deps, a)
  {
    var e := lab.pos;
    ShownContents(g, w, e.thread);
    if !lab.kind.ThreadStart? { PpoShown(g, w, e, deps); } else { assert Near(g, e.thread, lab.kind.parentCreate); }
    ReleaseShown(g, w, e);
    ReleaseAtLocShown(g, w, e, lab.addr);
    UnlockShown(g, w, e, lab.addr);
    if lab.IsRead() { RfShown(g, w, e, lab.addr, lab.rf, lab.ppo); }
    FinishShown(g, w, e.thread);
    hide FromPpo, FromRelease, FromRf, LastReleaseAtLoc, LastUnlockLapor, Shows, WfDeps;
    assert forall a :: CHas(w, e.Prev(), a) <==> CHas(g, e.Prev(), a);
    if lab.kind.ThreadJoin? { JoinShown(g, w, lab, deps); }
  }

  lemma FinishShown(g: Graph, w: Graph, t: int)
    requires Shows(g, w, t)
    ensures forall c, f :: FinishOf(w, c, f) <==> FinishOf(g, c, f)
    ensures forall c, f, a :: FinishOf(g, c, f) ==>
                (CHas(w, f, a) <==> CHas(g, f, a)) && (HbHas(w, f, a) <==> HbHas(g, f, a))
  {
    ShownContents(g, w, t);
    assert forall c, f :: FinishOf(g, c, f) ==> Near(g, t, f);
  }

  lemma JoinShown(g: Graph, w: Graph, lab: Label, deps: EventDeps)
    requires lab.kind.ThreadJoin? && Limit(g, lab.pos) && Limit(w, lab.pos)
    requires forall a :: FromPpo(w, lab.pos, deps, a) <==> FromPpo(g, lab.pos, deps, a)
    requires forall c, f :: FinishOf(w, c, f) <==> FinishOf(g, c, f)
    requires forall c, f, a :: FinishOf(g, c, f) ==>
                 (CHas(w, f, a) <==> CHas(g, f, a)) && (HbHas(w, f, a) <==> HbHas(g, f, a))
    ensures forall a :: PporfNew(w, lab, deps, a) <==> PporfNew(g, lab, deps, a)
  {
    var c := lab.kind.childId;
    forall a ensures PporfNew(w, lab, deps, a) <==> PporfNew(g, lab, deps, a) {
      assert (exists f :: FinishOf(w, c, f) && CHas(w, f, a)) <==> (exists f :: FinishOf(g, c, f) && CHas(g, f, a));
    }
  }

  lemma PpoNewShown(g: Graph, w: Graph, lab: Label, deps: EventDeps)
    requires Shows(g, w, lab.pos.thread) && (!lab.kind.ThreadStart? ==> WfDeps(g, lab.pos, deps))
    ensures forall a :: PpoNew(w, lab, deps, a) <==> PpoNew(g, lab, deps, a)
  {
    if !lab.kind.ThreadStart? { PpoShown(g, w, lab.pos, deps); }
    ShownContents(g, w, lab.pos.thread);
    hide FromPpo, Shows, WfDeps;
    assert forall a :: CHas(w, lab.pos.Prev(), a) <==> CHas(g, lab.pos.Prev(), a);
  }

  lemma HbShown(g: Graph, w: Graph, lab: Label)
    requires Shows(g, w, lab.pos.thread)
    requires lab.kind.ThreadStart? ==> In(g, lab.kind.parentCreate) && L(g, lab.kind.parentCreate).kind.ThreadCreate?
    ensures forall a :: HbNew(w, lab, a) <==> HbNew(g, lab, a)
  {
    var e := lab.pos;
    ShownContents(g, w, e.thread);
    FinishShown(g, w, e.thread);
    if lab.kind.ThreadStart? { assert Near(g, e.thread, lab.kind.parentCreate); }
    hide Shows;
    forall r ensures ScannedRead(w, e, r) <==> ScannedRead(g, e, r) {
      forall q: Event | q.thread == e.thread ensures IsAcquireFence(w, q) <==> IsAcquireFence(g, q) {}
    }
    forall r | ScannedRead(g, e, r) ensures L(w, r).rf == L(g, r).rf {}
    assert forall a :: HbHas(w, e.Prev(), a) <==> HbHas(g, e.Prev(), a);
    hide ScannedRead;
    forall a ensures HbNew(w, lab, a) <==> HbNew(g, lab, a) {
      match lab.kind
      case ThreadJoin(c, _) =>
        assert (exists f :: FinishOf(w, c, f) && HbHas(w, f, a)) <==> (exists f :: FinishOf(g, c, f) && HbHas(g, f, a));
      case _ =>
    }
  }

  lemma MsgShown(g: Graph, w: Graph, lab: Label)
    requires Shows(g, w, lab.pos.thread) && Limit(g, lab.pos)
    ensures Limit(w, lab.pos) && forall a :: MsgNew(w, lab, a) <==> MsgNew(g, lab, a)
  {
    ShownContents(g, w, lab.pos.thread);
    ReleaseAtLocShown(g, w, lab.pos, lab.addr);
    hide Shows, LastReleaseAtLoc;
  }

  /** A label computed over g is one computed over w. */
  lemma ComputedShown(g: Graph, w: Graph, lab0: Label, deps: EventDeps, lab: Label)
    requires Shows(g, w, lab0.pos.thread) && RefsInside(w) && Viewable(g, lab0, deps)
    requires ViewsComputed(g, lab0, deps, lab)
    ensures Viewable(w, lab0, deps) && ViewsComputed(w, lab0, deps, lab)
  {
    hide PporfNew, PpoNew, HbNew, MsgNew, Shows, WfDeps, ScannedRead;
    PporfShown(g, w, lab, deps);
    PpoNewShown(g, w, lab, deps);
    HbShown(g, w, lab);
    MsgShown(g, w, lab);
    ViewableShown(g, w, lab0, deps);
  }

  lemma ViewableShown(g: Graph, w: Graph, lab: Label, deps: EventDeps)
    requires Shows(g, w, lab.pos.thread) && RefsInside(w) && Viewable(g, lab, deps)
    ensures Viewable(w, lab, deps)
  {
    var e := lab.pos;
    ShownContents(g, w, e.thread);
    RfsShown(g, w, e.thread);
    if !lab.kind.ThreadStart? { PpoShown(g, w, e, deps); } else { assert Near(g, e.thread, lab.kind.parentCreate); }
    if lab.IsRead() { RfShown(g, w, e, lab.addr, lab.rf, lab.ppo); }
    assert Limit(w, e) && |w| == |g| && |w[e.thread]| == |g[e.thread]|;
    hide FromPpo, WfDeps, Shows, RefsInside;
    if lab.kind.Fence? && lab.AtLeastAcquire() {
      forall r | ScannedRead(w, e, r) ensures In(w, L(w, r).rf) {
        assert FenceableRead(g, e, r);
        forall q: Event | q.thread == e.thread && r.index < q.index < e.index ensures !IsAcquireFence(g, q) {
          assert !IsAcquireFence(w, q);
        }
        assert ScannedRead(g, e, r);
      }
    }
    hide ScannedRead;
  }

  /** The writes that reads of the thread refer to are shown. */
  lemma RfsShown(g: Graph, w: Graph, t: int)
    requires Shows(g, w, t) && RefsInside(w)
    ensures forall r :: IsReadAt(g, r) && r.thread == t && In(g, L(g, r).rf) ==> In(w, L(g, r).rf)
  {
    forall r | IsReadAt(g, r) && r.thread == t && In(g, L(g, r).rf) ensures In(w, L(g, r).rf) {
      assert Near(g, t, r);
      assert L(g, r).rf != Bottom;
    }
  }
}
