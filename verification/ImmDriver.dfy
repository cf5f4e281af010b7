/** The IMM driver: computes the views of a label step by step on local clocks. */
module ImmDrivers {
  import opened Events
  import opened Clocks
  import opened DepViews
  import opened Graphs
  import opened ImmSpec
  import opened ExecutionGraphs

  class ImmDriver {
    const graph: ExecutionGraph

    constructor (g: ExecutionGraph)
      ensures graph == g
    {
      graph := g;
    }

    /** A clock under construction for position e: sound, and its thread's entry is e itself. */
    ghost predicate Building(v: DepView, e: Event)
      reads v
    {
      Sound(v) && v.Snapshot().At(e.thread) == e.index
    }

    ghost predicate Sound(v: DepView)
      reads v
    {
      v.Valid() && v.Snapshot().Tight()
    }

    lemma GraphClocksBelow(g: Graph, x: Event, e: Event)
      requires ClocksNear(g, e.thread) && Near(g, e.thread, x) && Limit(g, e) && AtEnd(g, e)
      ensures L(g, x).pporf.At(e.thread) <= e.index && L(g, x).ppo.At(e.thread) <= e.index
      ensures L(g, x).pporf.Wf() && L(g, x).pporf.Tight()
    {
      var c, p := L(g, x).pporf, L(g, x).ppo;
      if c.At(e.thread) >= 1 { assert c.Has(Event(e.thread, c.At(e.thread))); }
      if p.At(e.thread) >= 1 { assert p.Has(Event(e.thread, p.At(e.thread))); }
    }

    /** v.update(c) as the computations below use it: a union of sets, a maximum of entries. */
    method Merge(v: DepView, c: Clock)
      requires Sound(v) && c.Wf() && c.Tight()
      modifies v
      ensures Sound(v)
      ensures forall t :: v.Snapshot().At(t) == Max(old(v.Snapshot().At(t)), c.At(t))
      ensures forall a :: v.Snapshot().Has(a) <==> old(v.Snapshot().Has(a)) || c.Has(a)
    {
      JoinedHas(v.Snapshot(), c);
      v.Update(c);
    }

    /** Merges the pporf views of a list of earlier events. */
    method MergeAll(v: DepView, ds: seq<Event>, e: Event)
      requires Sound(v) && v.Snapshot().At(e.thread) <= e.index
      requires ClocksNear(graph.events, e.thread) && Limit(graph.events, e) && e.index == |graph.events[e.thread]|
      requires forall d :: d in ds ==> In(graph.events, d) && d.thread == e.thread
      modifies v
      ensures Sound(v) && old(v.Snapshot().At(e.thread)) <= v.Snapshot().At(e.thread) <= e.index
      ensures forall a :: v.Snapshot().Has(a) <==>
                          old(v.Snapshot().Has(a)) || exists d :: d in ds && CHas(graph.events, d, a)
    {
      var i := 0;
      while i < |ds|
        invariant 0 <= i <= |ds|
        invariant Sound(v) && old(v.Snapshot().At(e.thread)) <= v.Snapshot().At(e.thread) <= e.index
        invariant forall a :: v.Snapshot().Has(a) <==>
                              old(v.Snapshot().Has(a)) || exists d :: d in ds[..i] && CHas(graph.events, d, a)
      {
        assert ds[i] in ds;
        GraphClocksBelow(graph.events, ds[i], e);
        ghost var was := v.Snapshot();
        Merge(v, L(graph.events, ds[i]).pporf);
        assert forall d :: d in ds[..i + 1] <==> d in ds[..i] || d == ds[i];
        assert forall a :: L(graph.events, ds[i]).pporf.Has(a) <==> CHas(graph.events, ds[i], a);
        i := i + 1;
      }
      assert ds[..i] == ds;
    }

    method GetDepsAsView(deps: EventDeps, e: Event) returns (v: DepView)
      requires ClocksNear(graph.events, e.thread) && Limit(graph.events, e) && e.index == |graph.events[e.thread]|
      requires WfDeps(graph.events, e, deps)
      ensures fresh(v) && Sound(v) && v.Snapshot().At(e.thread) <= e.index
      ensures forall a :: v.Snapshot().Has(a) <==> exists d :: deps.Has(d) && CHas(graph.events, d, a)
    {
      v := new DepView();
      MergeAll(v, deps.addr, e);
      MergeAll(v, deps.data, e);
      MergeAll(v, deps.ctrl, e);
      MergeAll(v, deps.addrPo, e);
      MergeAll(v, deps.cas, e);
    }

    /** A clock holding one event: everything below it is a hole. */
    method OwnView(e: Event) returns (wv: DepView)
      requires e.thread >= 0 && e.index > 0
      ensures fresh(wv) && Building(wv, e)
      ensures forall a :: wv.Snapshot().Has(a) <==> a == e
    {
      wv := new DepView();
      wv.SetIndex(e.thread, e.index);
      assert forall t :: wv.Snapshot().At(t) == if t == e.thread then e.index else 0;
      assert forall t :: wv.Snapshot().HolesAt(t) == {};
      wv.AddHolesInRange(Event(e.thread, 0), e.index);
    }

    method CalcPPoView(e: Event, deps: EventDeps) returns (v: DepView)
      requires ClocksNear(graph.events, e.thread) && Limit(graph.events, e) && e.index == |graph.events[e.thread]| > 0
      requires WfDeps(graph.events, e, deps)
      ensures fresh(v) && Building(v, e)
      ensures forall a :: v.Snapshot().Has(a) <==> FromPpo(graph.events, e, deps, a)
    {
      v := GetDepsAsView(deps, e);
      // this event does not depend on anything else
      var wv := OwnView(e);
      Merge(v, wv.Snapshot());
      // the views of the acquires of the thread
      var acqs := graph.GetThreadAcquiresAndFences(e);
      MergeAll(v, acqs, e);
    }

    method UpdateRelView(pporf: DepView, lab: Label)
      requires ClocksNear(graph.events, lab.pos.thread)
      requires Limit(graph.events, lab.pos) && lab.pos.index == |graph.events[lab.pos.thread]| > 0
      requires Building(pporf, lab.pos) && !L(graph.events, Event(lab.pos.thread, 0)).IsRmwStore()
      modifies pporf
      ensures Building(pporf, lab.pos)
      ensures forall a :: pporf.Snapshot().Has(a) <==>
                          old(pporf.Snapshot()).Has(a) ||
                              (lab.AtLeastRelease() && FromRelease(graph.events, lab.pos, a))
    {
      hide ClocksNear;
      if !lab.AtLeastRelease() { return; }
      var e := lab.pos;
      pporf.RemoveAllHoles(e.thread);
      var rel := graph.GetLastThreadRelease(e);
      assert In(graph.events, Event(e.thread, 0));
      GraphClocksBelow(graph.events, rel, e);
      Merge(pporf, L(graph.events, rel).pporf);
      var from := if L(graph.events, rel).IsRmwStore() then rel.index - 1 else rel.index;
      MergeReads(pporf, e, from);
    }

    /** The loop over the reads of e's thread from index lo on. */
    method MergeReads(pporf: DepView, e: Event, lo: nat)
      requires ClocksNear(graph.events, e.thread) && Building(pporf, e)
      requires Limit(graph.events, e) && e.index == |graph.events[e.thread]| && lo <= e.index
      modifies pporf
      ensures Building(pporf, e)
      ensures forall a :: pporf.Snapshot().Has(a) <==>
                          old(pporf.Snapshot()).Has(a) ||
                          exists r: Event :: r.thread == e.thread && lo <= r.index < e.index &&
                                             IsReadAt(graph.events, r) && CHas(graph.events, r, a)
    {
      var i := lo;
      while i < e.index
        invariant lo <= i <= e.index && Building(pporf, e)
        invariant forall a :: pporf.Snapshot().Has(a) <==>
                              old(pporf.Snapshot()).Has(a) ||
                              exists r: Event :: r.thread == e.thread && lo <= r.index < i &&
                                                 IsReadAt(graph.events, r) && CHas(graph.events, r, a)
      {
        var x := Event(e.thread, i);
        if L(graph.events, x).IsRead() {
          GraphClocksBelow(graph.events, x, e);
          Merge(pporf, L(graph.events, x).pporf);
          assert IsReadAt(graph.events, x);
          assert forall a :: L(graph.events, x).pporf.Has(a) <==> CHas(graph.events, x, a);
        }
        assert forall r: Event :: r.thread == e.thread && r.index < i + 1 ==> r == x || r.index < i;
        i := i + 1;
      }
    }

    /** calcBasicHbView: po only. */
    method CalcBasicHbView(e: Event) returns (v: View)
      requires In(graph.events, e.Prev())
      ensures v == L(graph.events, e.Prev()).hb.WithIndex(e.thread, L(graph.events, e.Prev()).hb.At(e.thread) + 1)
    {
      v := L(graph.events, e.Prev()).hb;
      v := v.WithIndex(e.thread, v.At(e.thread) + 1);
    }

    /** The views of the earlier writes of the thread to the same location. */
    method MergeOwnWrites(pporf: DepView, e: Event, addr: int)
      requires WfSources(graph.events) && Limit(graph.events, e) && Sound(pporf)
      modifies pporf
      ensures Sound(pporf)
      ensures forall a :: pporf.Snapshot().Has(a) <==>
                          old(pporf.Snapshot()).Has(a) || FromOwnWrites(graph.events, e, addr, a)
    {
      var i := 0;
      while i < e.index
        invariant 0 <= i <= e.index && Sound(pporf)
        invariant forall a :: pporf.Snapshot().Has(a) <==>
                              old(pporf.Snapshot()).Has(a) || FromOwnWrites(graph.events, Event(e.thread, i), addr, a)
      {
        var x := Event(e.thread, i);
        var wLab := L(graph.events, x);
        if wLab.IsWrite() && wLab.addr == addr {
          Merge(pporf, wLab.pporf);
          assert IsWriteAt(graph.events, x);
          assert forall a :: wLab.pporf.Has(a) <==> CHas(graph.events, x, a);
        }
        assert forall w: Event :: w.thread == e.thread && w.index < i + 1 ==> w == x || w.index < i;
        i := i + 1;
      }
    }

    /** The reads-from contribution to the views of a read. */
    method UpdateReadViewsFromRf(pporf: DepView, hb: View, lab: Label) returns (hb': View)
      requires WfSources(graph.events) && Limit(graph.events, lab.pos)
      requires lab.rf == Bottom ||
                   (RfTarget(graph.events, lab.rf) &&
                   (lab.rf.thread == lab.pos.thread ==> lab.rf.index < lab.pos.index))
      requires Sound(pporf) && pporf.Snapshot().At(lab.pos.thread) >= lab.pos.index
      modifies pporf
      ensures Sound(pporf)
      ensures forall a :: pporf.Snapshot().Has(a) <==>
                  FromRf(graph.events, lab.pos, lab.addr, lab.rf, old(pporf.Snapshot()), a)
      ensures hb' == if lab.rf != Bottom && lab.AtLeastAcquire() && L(graph.events, lab.rf).IsWrite()
                     then hb.Joined(L(graph.events, lab.rf).msg) else hb
    {
      hb' := hb;
      if lab.rf == Bottom { return; }
      var rfLab := L(graph.events, lab.rf);
      ghost var base := pporf.Snapshot();
      if lab.rf.thread == lab.pos.thread || lab.rf == Initializer {
        var rfiDepend := pporf.Contains(lab.rf);
        Merge(pporf, rfLab.ppo); // account for dep; rfi dependencies
        if !rfiDepend {          // should we depend on rfi?
          pporf.AddHole(lab.rf);
        }
      } else {
        Merge(pporf, rfLab.pporf);
        MergeOwnWrites(pporf, lab.pos, lab.addr);
      }
      if lab.AtLeastAcquire() && rfLab.IsWrite() {
        hb' := hb'.Joined(rfLab.msg);
      }
    }

    lemma HbBelow(g: Graph, x: Event, e: Event)
      requires ViewsNear(g, e.thread) && Near(g, e.thread, x) && Limit(g, e) && AtEnd(g, e)
      ensures L(g, x).hb.At(e.thread) <= e.index && (L(g, x).IsWrite() ==> L(g, x).msg.At(e.thread) <= e.index)
    {
      var h, m := L(g, x).hb, L(g, x).msg;
      if h.At(e.thread) >= 1 { assert h.Has(Event(e.thread, h.At(e.thread))); }
      if L(g, x).IsWrite() && m.At(e.thread) >= 1 { assert m.Has(Event(e.thread, m.At(e.thread))); }
    }

    /** e is the next position of its thread, or the last occupied one. */
    predicate AtEnd(g: Graph, e: Event) { !In(g, e.Next()) }

    /** The po part of an hb view: the previous event's view and the event itself. */
    lemma BasicHb(g: Graph, e: Event)
      requires ReadyNear(g, e.thread) && Limit(g, e) && e.index > 0
      ensures var v := L(g, e.Prev()).hb.WithIndex(e.thread, L(g, e.Prev()).hb.At(e.thread) + 1);
              && v.At(e.thread) == e.index
              && forall a :: v.Has(a) <==> a == e || HbHas(g, e.Prev(), a)
    {
      var p := L(g, e.Prev()).hb;
      assert In(g, e.Prev());
      WithIndexHas(p, e.thread, p.At(e.thread) + 1);
    }

    /** The hb view before any synchronisation: po only. */
    function BasicView(g: Graph, e: Event): View
      requires In(g, e.Prev())
    {
      L(g, e.Prev()).hb.WithIndex(e.thread, L(g, e.Prev()).hb.At(e.thread) + 1)
    }

    lemma ReadHb(g: Graph, lab: Label, v: View)
      requires lab.IsRead() && Limit(g, lab.pos) && lab.pos.index > 0
      requires L(g, lab.pos.Prev()).hb.At(lab.pos.thread) == lab.pos.index - 1
      requires lab.rf == Bottom || RfTarget(g, lab.rf)
      requires v == if lab.rf != Bottom && lab.AtLeastAcquire() && L(g, lab.rf).IsWrite()
                    then BasicView(g, lab.pos).Joined(L(g, lab.rf).msg) else BasicView(g, lab.pos)
      ensures forall a :: v.Has(a) <==> HbNew(g, lab, a)
      ensures (lab.rf != Bottom && L(g, lab.rf).IsWrite() ==> L(g, lab.rf).msg.At(lab.pos.thread) <= lab.pos.index) ==>
                v.At(lab.pos.thread) == lab.pos.index
    {
      var p := L(g, lab.pos.Prev()).hb;
      WithIndexHas(p, lab.pos.thread, p.At(lab.pos.thread) + 1);
      assert forall a :: BasicView(g, lab.pos).Has(a) <==> a == lab.pos || HbHas(g, lab.pos.Prev(), a);
      if lab.rf != Bottom { JoinedViewHas(BasicView(g, lab.pos), L(g, lab.rf).msg); }
    }

    lemma PrevEnds(g: Graph, e: Event)
      requires ReadyNear(g, e.thread) && Limit(g, e) && e.index > 0
      ensures In(g, e.Prev()) && L(g, e.Prev()).hb.At(e.thread) == e.index - 1 && WfSources(g)
    {}

    method CalcReadViews(lab: Label, deps: EventDeps) returns (lab': Label)
      requires ReadyNear(graph.events, lab.pos.thread) && Viewable(graph.events, lab, deps) && lab.IsRead()
      ensures ViewsComputed(graph.events, lab, deps, lab')
    {
      hide ClocksNear, ViewsNear, Started, Positioned, FromPpo, FromRf, HbComputed, WfDeps;
      var hb := CalcBasicHbView(lab.pos);
      var ppo := CalcPPoView(lab.pos, deps);
      var pporf := new DepView.Copy(ppo.Snapshot());
      PrevEnds(graph.events, lab.pos);
      if lab.rf != Bottom { HbBelow(graph.events, lab.rf, lab.pos); }
      hb := UpdateReadViewsFromRf(pporf, hb, lab);
      lab' := lab.(hb := hb, ppo := ppo.Snapshot(), pporf := pporf.Snapshot());
      ReadHb(graph.events, lab', hb);
      HbWhole(graph.events, lab', hb);
    }

    lemma HbWhole(g: Graph, lab: Label, v: View)
      requires (forall a :: v.Has(a) <==> HbNew(g, lab, a)) && v.At(lab.pos.thread) == lab.pos.index
      ensures HbComputed(g, lab, v)
    {}

    lemma BasicHbComputed(g: Graph, lab: Label)
      requires ReadyNear(g, lab.pos.thread) && Limit(g, lab.pos) && lab.pos.index == |g[lab.pos.thread]| > 0
      requires !lab.kind.ThreadStart? && !lab.kind.Read? && !lab.kind.Fence? && !lab.kind.ThreadJoin?
      ensures HbComputed(g, lab, BasicView(g, lab.pos))
    {
      BasicHb(g, lab.pos);
    }

    /** The pporf view of every label that neither reads, writes nor joins. */
    method CalcPporfView(lab: Label, deps: EventDeps) returns (pporf: DepView)
      requires ClocksNear(graph.events, lab.pos.thread) && Limit(graph.events, lab.pos)
      requires WfDeps(graph.events, lab.pos, deps)
      requires lab.pos.index == |graph.events[lab.pos.thread]| > 0
      requires !L(graph.events, Event(lab.pos.thread, 0)).IsRmwStore()
      ensures fresh(pporf) && Building(pporf, lab.pos)
      ensures forall a :: pporf.Snapshot().Has(a) <==>
                          FromPpo(graph.events, lab.pos, deps, a) ||
                          (lab.AtLeastRelease() && FromRelease(graph.events, lab.pos, a))
    {
      pporf := CalcPPoView(lab.pos, deps);
      if lab.AtLeastRelease() {
        UpdateRelView(pporf, lab);
      }
    }

    lemma BeginIsStart(g: Graph, e: Event)
      requires Started(g) && Limit(g, e) && e.index > 0
      ensures In(g, Event(e.thread, 0)) && L(g, Event(e.thread, 0)).kind.ThreadStart?
    {}

    lemma PlainPporfComputed(g: Graph, lab: Label, deps: EventDeps, c: Clock)
      requires Limit(g, lab.pos) && c.Wf() && c.Tight()
      requires lab.kind.Other? || lab.kind.ThreadCreate? || lab.kind.ThreadFinish? || lab.kind.UnlockLapor? ||
                   lab.kind.Fence?
      requires forall a :: c.Has(a) <==>
                           FromPpo(g, lab.pos, deps, a) || (lab.AtLeastRelease() && FromRelease(g, lab.pos, a))
      ensures PporfComputed(g, lab, deps, c)
    {
      forall a ensures c.Has(a) <==> PporfNew(g, lab, deps, a) {}
    }

    method CalcBasicViews(lab: Label, deps: EventDeps) returns (lab': Label)
      requires ReadyNear(graph.events, lab.pos.thread) && Viewable(graph.events, lab, deps)
      requires lab.kind.Other? || lab.kind.ThreadCreate? || lab.kind.ThreadFinish? || lab.kind.UnlockLapor?
      ensures ViewsComputed(graph.events, lab, deps, lab')
    {
      hide ClocksNear, ViewsNear, Started, Positioned, FromPpo, FromRelease, HbComputed, PporfNew, WfDeps;
      BeginIsStart(graph.events, lab.pos);
      var hb := CalcBasicHbView(lab.pos);
      lab' := lab.(hb := hb);
      var pporf := CalcPporfView(lab', deps);
      lab' := lab'.(pporf := pporf.Snapshot());
      PlainPporfComputed(graph.events, lab', deps, lab'.pporf);
      BasicHbComputed(graph.events, lab');
    }

    /** The pporf view of a LAPOR lock: the last unlock of the same lock precedes it. */
    method CalcLockPporf(lab: Label, deps: EventDeps) returns (pporf: DepView)
      requires ClocksNear(graph.events, lab.pos.thread) && Limit(graph.events, lab.pos)
      requires WfDeps(graph.events, lab.pos, deps)
      requires lab.pos.index == |graph.events[lab.pos.thread]| > 0
      requires !L(graph.events, Event(lab.pos.thread, 0)).kind.UnlockLapor?
      ensures fresh(pporf) && Building(pporf, lab.pos)
      ensures forall a :: pporf.Snapshot().Has(a) <==>
                          FromPpo(graph.events, lab.pos, deps, a) ||
                          (LastUnlockLapor(graph.events, lab.pos, lab.addr) != Initializer &&
                           CHas(graph.events, LastUnlockLapor(graph.events, lab.pos, lab.addr), a))
    {
      pporf := CalcPPoView(lab.pos, deps);
      assert lab.pos.Prev().Next() == lab.pos;
      var prevUnlock := graph.GetLastThreadUnlockAtLocLapor(lab.pos.Prev(), lab.addr);
      if !prevUnlock.IsInitializer() {
        GraphClocksBelow(graph.events, prevUnlock, lab.pos);
        Merge(pporf, L(graph.events, prevUnlock).pporf);
      }
    }

    method CalcLockLaporViews(lab: Label, deps: EventDeps) returns (lab': Label)
      requires ReadyNear(graph.events, lab.pos.thread) && Viewable(graph.events, lab, deps) && lab.kind.LockLapor?
      ensures ViewsComputed(graph.events, lab, deps, lab')
    {
      hide ClocksNear, ViewsNear, Started, Positioned, FromPpo, HbComputed, WfDeps, LastUnlockLapor;
      BeginIsStart(graph.events, lab.pos);
      var hb := CalcBasicHbView(lab.pos);
      var pporf := CalcLockPporf(lab, deps);
      lab' := lab.(hb := hb, pporf := pporf.Snapshot());
      BasicHbComputed(graph.events, lab');
    }

    method CalcStartViews(lab: Label) returns (lab': Label)
      requires ReadyNear(graph.events, lab.pos.thread) && lab.kind.ThreadStart?
      requires Viewable(graph.events, lab, EventDeps([], [], [], [], []))
      ensures ViewsComputed(graph.events, lab, EventDeps([], [], [], [], []), lab')
    {
      // thread start has acquire semantics
      var c := L(graph.events, lab.kind.parentCreate);
      var hb := c.hb;
      var pporf := new DepView.Copy(c.pporf);
      var t := lab.pos.thread;
      hb := hb.WithIndex(t, lab.pos.index);
      pporf.SetIndex(t, lab.pos.index);
      lab' := lab.(hb := hb, pporf := pporf.Snapshot());
      StartDenotes(graph.events, lab.kind.parentCreate, t);
    }

    /** The creator's views mention no event of a thread that has not begun. */
    lemma StartDenotes(g: Graph, c: Event, t: nat)
      requires ReadyNear(g, t) && Near(g, t, c) && t < |g| && |g[t]| <= 1
      ensures var p := L(g, c).pporf.WithIndex(t, 0);
              p.Wf() && p.Tight() && forall a :: p.Has(a) <==> CHas(g, c, a)
      ensures var v := L(g, c).hb.WithIndex(t, 0);
              v.At(t) == 0 && forall a :: v.Has(a) <==> HbHas(g, c, a)
    {
      var p := L(g, c).pporf;
      var p' := p.WithIndex(t, 0);
      GraphClocksBelow(g, c, Event(t, 0));
      HbBelow(g, c, Event(t, 0));
      assert forall u :: p'.At(u) == (if u == t then 0 else p.At(u)) && p'.HolesAt(u) == p.HolesAt(u);
      forall a ensures p'.Has(a) <==> p.Has(a) {
        HasAt(p, a); HasAt(p', a);
      }
      WithIndexHas(L(g, c).hb, t, 0);
    }

    lemma JoinHb(g: Graph, lab: Label, f: Event, v: View)
      requires ReadyNear(g, lab.pos.thread) && lab.kind.ThreadJoin? && Limit(g, lab.pos) && AtEnd(g, lab.pos)
      requires lab.pos.index > 0
      requires In(g, f) && f.thread == lab.kind.childId && f.index == |g[f.thread]| - 1
      requires v == if L(g, f).kind.ThreadFinish?
                    then BasicView(g, lab.pos).Joined(L(g, f).hb) else BasicView(g, lab.pos)
      ensures HbComputed(g, lab, v)
    {
      BasicHb(g, lab.pos);
      if L(g, f).kind.ThreadFinish? { HbBelow(g, f, lab.pos); }
      JoinedViewHas(BasicView(g, lab.pos), L(g, f).hb);
      assert L(g, f).kind.ThreadFinish? ==> FinishOf(g, lab.kind.childId, f);
    }

    method CalcJoinPporf(ppo: Clock, f: Event, ghost t: int) returns (pporf: Clock)
      requires ClocksNear(graph.events, t) && In(graph.events, f) && ppo.Wf() && ppo.Tight()
      ensures pporf.Wf() && pporf.Tight()
      ensures forall a :: pporf.Has(a) <==>
                          ppo.Has(a) || (L(graph.events, f).kind.ThreadFinish? && CHas(graph.events, f, a))
    {
      var v := new DepView.Copy(ppo);
      if L(graph.events, f).kind.ThreadFinish? {
        Merge(v, L(graph.events, f).pporf);
      }
      pporf := v.Snapshot();
    }

    lemma JoinPporfComputed(g: Graph, lab: Label, deps: EventDeps, f: Event, ppo: Clock, c: Clock)
      requires lab.kind.ThreadJoin? && Limit(g, lab.pos) && c.Wf() && c.Tight()
      requires In(g, f) && f.thread == lab.kind.childId && f.index == |g[f.thread]| - 1
      requires forall a :: ppo.Has(a) <==> FromPpo(g, lab.pos, deps, a)
      requires forall a :: c.Has(a) <==> ppo.Has(a) || (L(g, f).kind.ThreadFinish? && CHas(g, f, a))
      ensures PporfComputed(g, lab, deps, c)
    {
      assert forall x :: FinishOf(g, lab.kind.childId, x) ==> x == f;
      assert L(g, f).kind.ThreadFinish? ==> FinishOf(g, lab.kind.childId, f);
      forall a ensures c.Has(a) <==> PporfNew(g, lab, deps, a) {}
    }

    method CalcJoinViews(lab: Label, deps: EventDeps) returns (lab': Label)
      requires ReadyNear(graph.events, lab.pos.thread) && Viewable(graph.events, lab, deps) && lab.kind.ThreadJoin?
      requires |graph.events[lab.kind.childId]| > 0
      ensures ViewsComputed(graph.events, lab, deps, lab')
    {
      hide ClocksNear, ViewsNear, Started, Positioned, FromPpo, HbComputed, PporfNew, HbNew, WfDeps;
      var c := lab.kind.childId;
      var f := Event(c, |graph.events[c]| - 1);
      var hb := CalcBasicHbView(lab.pos);
      if L(graph.events, f).kind.ThreadFinish? {
        hb := hb.Joined(L(graph.events, f).hb);
      }
      var ppo := CalcPPoView(lab.pos, deps);
      var pporf := CalcJoinPporf(ppo.Snapshot(), f, lab.pos.thread);
      lab' := lab.(hb := hb, ppo := ppo.Snapshot(), pporf := pporf);
      JoinHb(graph.events, lab', f, hb);
      JoinPporfComputed(graph.events, lab', deps, f, lab'.ppo, pporf);
    }

    /** The messages of the scanned reads above index i. */
    ghost predicate ScannedAbove(g: Graph, e: Event, i: int, a: Event) {
      exists r :: ScannedRead(g, e, r) && i < r.index && MsgHas(g, L(g, r).rf, a)
    }

    lemma ScanStep(g: Graph, e: Event, i: int)
      requires Limit(g, e) && 0 < i < e.index
      requires forall q: Event :: q.thread == e.thread && i <= q.index < e.index ==> !IsAcquireFence(g, q)
      ensures forall a :: ScannedAbove(g, e, i - 1, a) <==>
                          ScannedAbove(g, e, i, a) ||
                          (FenceableRead(g, e, Event(e.thread, i)) && MsgHas(g, L(g, Event(e.thread, i)).rf, a))
    {
      var x := Event(e.thread, i);
      assert FenceableRead(g, e, x) ==> ScannedRead(g, e, x);
    }

    /** Joins the messages of the reads from last down to the previous acquire fence. */
    method CalcFenceRelRfPoBefore(last: Event, v: View) returns (v': View)
      requires In(graph.events, last) && ViewsNear(graph.events, last.thread)
      requires forall r :: ScannedRead(graph.events, last.Next(), r) ==> In(graph.events, L(graph.events, r).rf)
      ensures forall a :: v'.Has(a) <==> v.Has(a) || ScannedAbove(graph.events, last.Next(), 0, a)
      ensures v.At(last.thread) <= v'.At(last.thread) <= Max(v.At(last.thread), |graph.events[last.thread]|)
    {
      v' := v;
      var i := last.index;
      while i > 0
        invariant 0 <= i <= last.index
        invariant forall q: Event :: q.thread == last.thread && i < q.index <= last.index ==>
                      !IsAcquireFence(graph.events, q)
        invariant forall a :: v'.Has(a) <==> v.Has(a) || ScannedAbove(graph.events, last.Next(), i, a)
        invariant v.At(last.thread) <= v'.At(last.thread) <= Max(v.At(last.thread), |graph.events[last.thread]|)
      {
        var x := Event(last.thread, i);
        var lab := L(graph.events, x);
        if lab.kind.Fence? && lab.AtLeastAcquire() {
          ScanEnds(graph.events, last.Next(), i);
          return;
        }
        ScanStep(graph.events, last.Next(), i);
        if lab.IsRead() && lab.AtMostRelease() {
          assert FenceableRead(graph.events, last.Next(), x) && ScannedRead(graph.events, last.Next(), x);
          var rfLab := L(graph.events, lab.rf);
          if rfLab.IsWrite() {
            HbBelow(graph.events, lab.rf, Event(last.thread, |graph.events[last.thread]|));
            JoinedViewHas(v', rfLab.msg);
            v' := v'.Joined(rfLab.msg);
          }
        }
        i := i - 1;
      }
    }

    /** Below an acquire fence nothing is scanned. */
    lemma ScanEnds(g: Graph, e: Event, i: int)
      requires Limit(g, e) && 0 < i < e.index && IsAcquireFence(g, Event(e.thread, i))
      ensures forall a :: ScannedAbove(g, e, 0, a) <==> ScannedAbove(g, e, i, a)
    {
      forall r | ScannedRead(g, e, r) ensures i < r.index {
        if r.index < i { assert false; }
      }
    }

    /** The hb view of a fence: po, and for an acquire fence the messages scanned. */
    method CalcFenceHb(lab: Label) returns (hb: View)
      requires ViewsNear(graph.events, lab.pos.thread) && lab.kind.Fence?
      requires Limit(graph.events, lab.pos) && lab.pos.index == |graph.events[lab.pos.thread]| > 0
      requires In(graph.events, lab.pos.Prev())
      requires HbComputed(graph.events, lab.(kind := Other), BasicView(graph.events, lab.pos))
      requires lab.AtLeastAcquire() ==>
                 forall r :: ScannedRead(graph.events, lab.pos, r) ==> In(graph.events, L(graph.events, r).rf)
      ensures HbComputed(graph.events, lab, hb)
    {
      hb := CalcBasicHbView(lab.pos);
      assert lab.pos.Prev().Next() == lab.pos;
      if lab.AtLeastAcquire() {
        hb := CalcFenceRelRfPoBefore(lab.pos.Prev(), hb);
        assert forall r :: ScannedRead(graph.events, lab.pos, r) ==> 0 < r.index;
      }
    }

    /** Whether a view is the one to compute does not depend on the view fields already set. */
    lemma ViewFieldsIrrelevant(g: Graph, lab: Label, lab': Label, deps: EventDeps)
      requires lab' == lab.(hb := lab'.hb, ppo := lab'.ppo, pporf := lab'.pporf, msg := lab'.msg)
      requires Limit(g, lab.pos) && !lab.IsRead()
      ensures forall v :: HbComputed(g, lab, v) ==> HbComputed(g, lab', v)
      ensures forall c :: PpoComputed(g, lab, deps, c) ==> PpoComputed(g, lab', deps, c)
      ensures forall c :: PporfComputed(g, lab, deps, c) ==> PporfComputed(g, lab', deps, c)
      ensures lab.hb == lab'.hb ==> forall v :: MsgComputed(g, lab, v) ==> MsgComputed(g, lab', v)
    {
      forall a ensures HbNew(g, lab, a) <==> HbNew(g, lab', a) {}
      forall a ensures PpoNew(g, lab, deps, a) <==> PpoNew(g, lab', deps, a) {}
      forall a ensures PporfNew(g, lab, deps, a) <==> PporfNew(g, lab', deps, a) {}
    }

    method CalcFenceViews(lab: Label, deps: EventDeps) returns (lab': Label)
      requires ReadyNear(graph.events, lab.pos.thread) && Viewable(graph.events, lab, deps) && lab.kind.Fence?
      ensures ViewsComputed(graph.events, lab, deps, lab')
    {
      hide ClocksNear, ViewsNear, Started, Positioned, FromPpo, FromRelease, HbComputed, PporfComputed, WfDeps;
      BeginIsStart(graph.events, lab.pos);
      BasicHbComputed(graph.events, lab.(kind := Other));
      var hb := CalcFenceHb(lab);
      var pporf := CalcPporfView(lab, deps);
      PlainPporfComputed(graph.events, lab, deps, pporf.Snapshot());
      lab' := lab.(hb := hb, pporf := pporf.Snapshot());
      ViewFieldsIrrelevant(graph.events, lab, lab', deps);
    }

    method CalcWriteMsgView(lab: Label) returns (msg: View)
      requires Limit(graph.events, lab.pos) && lab.pos.index > 0 && lab.IsWrite() && !lab.IsRmwStore()
      ensures MsgComputed(graph.events, lab, msg)
    {
      msg := EmptyView;
      if lab.AtLeastRelease() {
        msg := lab.hb;
      } else if lab.AtMostAcquire() {
        var rel := graph.GetLastThreadReleaseAtLoc(lab.pos, lab.addr);
        msg := L(graph.events, rel).hb;
      }
    }

    method CalcRmwWriteMsgView(lab: Label) returns (msg: View)
      requires Limit(graph.events, lab.pos) && lab.IsRmwStore()
      requires IsReadAt(graph.events, lab.pos.Prev()) && L(graph.events, lab.pos.Prev()).ord != NotAtomic
      requires In(graph.events, L(graph.events, lab.pos.Prev()).rf)
      ensures MsgComputed(graph.events, lab, msg)
    {
      msg := EmptyView;
      var rLab := L(graph.events, lab.pos.Prev());
      var wLab := L(graph.events, rLab.rf);
      if wLab.IsWrite() {
        JoinedViewHas(msg, wLab.msg);
        msg := msg.Joined(wLab.msg);
      }
      if rLab.AtLeastRelease() {
        JoinedViewHas(msg, lab.hb);
        msg := msg.Joined(lab.hb);
      } else {
        var rel := graph.GetLastThreadReleaseAtLoc(lab.pos, lab.addr);
        JoinedViewHas(msg, L(graph.events, rel).hb);
        msg := msg.Joined(L(graph.events, rel).hb);
      }
    }

    /** The ppo view of a write, to be built upon. */
    method StartWriteClock(lab: Label, deps: EventDeps) returns (v: DepView)
      requires ClocksNear(graph.events, lab.pos.thread) && Limit(graph.events, lab.pos)
      requires WfDeps(graph.events, lab.pos, deps)
      requires lab.pos.index == |graph.events[lab.pos.thread]| > 0 && lab.IsWrite()
      requires !L(graph.events, Event(lab.pos.thread, 0)).IsRmwStore()
      ensures fresh(v) && Building(v, lab.pos) && PpoComputed(graph.events, lab, deps, v.Snapshot())
    {
      hide FromPpo, ClocksNear;
      v := CalcPPoView(lab.pos, deps);
      if lab.IsRmwStore() {
        GraphClocksBelow(graph.events, lab.pos.Prev(), lab.pos);
        Merge(v, L(graph.events, lab.pos.Prev()).pporf);
      }
    }

    /** The ppo and pporf views of a write. */
    method CalcWriteClocks(lab: Label, deps: EventDeps) returns (ppo: Clock, pporf: Clock)
      requires ClocksNear(graph.events, lab.pos.thread) && Limit(graph.events, lab.pos)
      requires WfDeps(graph.events, lab.pos, deps)
      requires lab.pos.index == |graph.events[lab.pos.thread]| > 0 && lab.IsWrite()
      requires !L(graph.events, Event(lab.pos.thread, 0)).IsRmwStore()
      ensures PpoComputed(graph.events, lab, deps, ppo) && PporfComputed(graph.events, lab, deps, pporf)
    {
      hide FromPpo, FromRelease, ClocksNear;
      var v := StartWriteClock(lab, deps);
      ppo := v.Snapshot();
      if lab.AtLeastRelease() {
        UpdateRelView(v, lab);
      }
      var rel := graph.GetLastThreadReleaseAtLoc(lab.pos, lab.addr);
      GraphClocksBelow(graph.events, rel, lab.pos);
      Merge(v, L(graph.events, rel).pporf);
      pporf := v.Snapshot();
    }

    method CalcWriteViews(lab: Label, deps: EventDeps) returns (lab': Label)
      requires ReadyNear(graph.events, lab.pos.thread) && Viewable(graph.events, lab, deps) && lab.IsWrite()
      ensures ViewsComputed(graph.events, lab, deps, lab')
    {
      hide ClocksNear, ViewsNear, Started, Positioned, PpoComputed, PporfComputed, HbComputed, MsgComputed, WfDeps;
      BeginIsStart(graph.events, lab.pos);
      var hb := CalcBasicHbView(lab.pos);
      lab' := lab.(hb := hb);
      var ppo, pporf := CalcWriteClocks(lab', deps);
      lab' := lab'.(ppo := ppo, pporf := pporf);
      var msg;
      if lab.IsRmwStore() {
        msg := CalcRmwWriteMsgView(lab');
      } else {
        msg := CalcWriteMsgView(lab');
      }
      ViewFieldsIrrelevant(graph.events, lab', lab'.(msg := msg), deps);
      ViewFieldsIrrelevant(graph.events, lab.(hb := hb), lab'.(msg := msg), deps);
      lab' := lab'.(msg := msg);
      BasicHbComputed(graph.events, lab');
    }

    method UpdateLabelViews(lab: Label, deps: EventDeps) returns (lab': Label)
      requires ReadyNear(graph.events, lab.pos.thread) && Viewable(graph.events, lab, deps)
      requires lab.kind.ThreadStart? ==> deps == EventDeps([], [], [], [], [])
      requires lab.kind.ThreadJoin? ==> |graph.events[lab.kind.childId]| > 0
      ensures ViewsComputed(graph.events, lab, deps, lab')
    {
      match lab.kind
      case Read(_) => lab' := CalcReadViews(lab, deps);
      case Write(_) => lab' := CalcWriteViews(lab, deps);
      case Fence => lab' := CalcFenceViews(lab, deps);
      case ThreadStart(_) => lab' := CalcStartViews(lab);
      case ThreadJoin(_, _) => lab' := CalcJoinViews(lab, deps);
      case LockLapor => lab' := CalcLockLaporViews(lab, deps);
      case _ => lab' := CalcBasicViews(lab, deps);
    }

    lemma ReadyAt(g: Graph, t: int, x: Event)
      requires ReadyNear(g, t) && Near(g, t, x)
      ensures L(g, x).pos == x && L(g, x).ppo.Wf() && L(g, x).ppo.Tight() && L(g, x).pporf.Wf() && L(g, x).pporf.Tight()
    {}

    /** Re-targets a read, wherever it is in its thread, and recomputes its views from the preserved program order
        it keeps. */
    method ChangeRf(read: Event, store: Event)
      requires IsReadAt(graph.events, read) && read.index > 0 && L(graph.events, read).pos == read
      requires store == Bottom || RfTarget(graph.events, store)
      requires store.thread == read.thread ==> store.index < read.index
      requires WfSources(RfChanged(graph.events, read, store))
      requires L(graph.events, read.Prev()).hb.At(read.thread) == read.index - 1
      requires L(graph.events, read).ppo.Wf() && L(graph.events, read).ppo.Tight()
      requires L(graph.events, read).ppo.At(read.thread) >= read.index
      modifies graph
      ensures graph.timestamp == old(graph.timestamp)
      ensures var h := RfChanged(old(graph.events), read, store);
              In(graph.events, read) && graph.events == Set(h, read, L(graph.events, read)) &&
              RfContents(h, L(h, read), L(graph.events, read)) &&
              ((store != Bottom && L(h, store).IsWrite() ==> L(h, store).msg.At(read.thread) <= read.index) ==>
                 RfRecomputed(h, L(h, read), L(graph.events, read)))
    {
      hide WfSources, FromRf, RfChanged, HbNew;
      ghost var g := graph.events;
      RfChangedAt(g, read, store);
      RetargetedKinds(g, RfChanged(g, read, store), read, store);
      graph.ChangeRf(read, store);
      ghost var h := graph.events;
      assert L(h, read.Prev()).hb == L(g, read.Prev()).hb;
      var rLab := L(graph.events, read);
      var hb := CalcBasicHbView(read);
      var pporf := new DepView.Copy(rLab.ppo);
      hb := UpdateReadViewsFromRf(pporf, hb, rLab);
      var lab' := rLab.(hb := hb, pporf := pporf.Snapshot());
      ReadHb(h, rLab, hb);
      graph.SetEventLabel(read, lab');
      SetAt(h, read, lab');
    }

    /** Completes a join once its child has finished, and recomputes its views, whatever they were. */
    method UpdateJoin(join: Event, childLast: Event) returns (ok: bool)
      requires In(graph.events, join) && L(graph.events, join).kind.ThreadJoin? && join.index > 0
      requires AtEnd(graph.events, join)
      requires L(graph.events, join).pos == join && L(graph.events, join).ppo.Wf() && L(graph.events, join).ppo.Tight()
      requires In(graph.events, childLast) && ReadyNear(Without(graph.events, join), join.thread)
      modifies graph
      ensures graph.timestamp == old(graph.timestamp)
      ensures ok <==> old(L(graph.events, childLast).kind.ThreadFinish?)
      ensures !ok ==> graph.events == old(graph.events)
      ensures ok ==> var h := JoinUpdated(old(graph.events), join, childLast);
                     In(graph.events, join) && graph.events == Set(h, join, L(graph.events, join)) &&
                     JoinRecomputed(h, L(h, join), childLast, L(graph.events, join))
    {
      hide ClocksNear, ViewsNear, Started, Positioned, JoinUpdated;
      ghost var g := graph.events;
      ok := graph.UpdateJoin(join, childLast);
      if !ok { return false; }
      ghost var h := graph.events;
      JoinUpdatedAt(g, join, childLast);
      var jLab := L(graph.events, join);
      var fLab := L(graph.events, childLast);
      var pporf := new DepView.Copy(jLab.ppo);
      var hb := CalcBasicHbView(join);
      hb := hb.Joined(fLab.hb);
      ReadyAt(Without(g, join), join.thread, childLast);
      Merge(pporf, fLab.pporf);
      var lab' := jLab.(hb := hb, pporf := pporf.Snapshot());
      JoinedHb(g, join, childLast);
      assert In(h, join.Prev()) && L(h, join.Prev()).hb == L(g, join.Prev()).hb;
      graph.SetEventLabel(join, lab');
      SetAt(h, join, lab');
    }

    lemma JoinedHb(g: Graph, join: Event, f: Event)
      requires In(g, join) && join.index > 0 && AtEnd(g, join) && In(g, f) && L(g, f).kind.ThreadFinish? && f != join
      requires ReadyNear(Without(g, join), join.thread)
      ensures var v := BasicView(g, join).Joined(L(g, f).hb);
              && v.At(join.thread) == join.index
              && forall a :: v.Has(a) <==> a == join || HbHas(g, join.Prev(), a) || HbHas(g, f, a)
    {
      var g0 := Without(g, join);
      assert In(g0, f) && L(g0, f) == L(g, f);
      HbBelow(g0, f, join);
      BasicHb(g0, join);
      JoinedViewHas(BasicView(g, join), L(g, f).hb);
    }

    /** Brings the begin of a thread up to date whose creation is back in the graph. */
    method UpdateStart(create: Event, start: Event)
      requires In(graph.events, create) && L(graph.events, create).kind.ThreadCreate? && create.thread != start.thread
      requires start.index == 0 && 0 <= start.thread < |graph.events| && |graph.events[start.thread]| == 1
      requires L(graph.events, start).pos == start && ReadyNear(Without(graph.events, start), start.thread)
      modifies graph
      ensures graph.timestamp == old(graph.timestamp)
      ensures var g := old(graph.events);
              In(graph.events, start) && graph.events == Set(g, start, L(graph.events, start)) &&
              StartRecomputed(g, L(g, start), create, L(graph.events, start))
    {
      ghost var g := graph.events;
      var bLab := L(graph.events, start);
      var cLab := L(graph.events, create);
      var hb := cLab.hb.WithIndex(start.thread, 0);
      ghost var g0 := Without(g, start);
      assert In(g0, create) && L(g0, create) == cLab && |g0[start.thread]| == 0;
      ReadyAt(g0, start.thread, create);
      var pporf := new DepView.Copy(cLab.pporf);
      pporf.SetIndex(start.thread, 0);
      StartDenotes(g0, create, start.thread);
      graph.SetEventLabel(start, bLab.(hb := hb, pporf := pporf.Snapshot()));
      SetAt(g, start, bLab.(hb := hb, pporf := pporf.Snapshot()));
    }
  }
}
