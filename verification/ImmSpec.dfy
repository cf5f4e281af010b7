/** What the IMM views of a new label are to contain, stated over the graph it is added to. */
module ImmSpec {
  import opened Events
  import opened Clocks
  import opened Graphs

  /** The dependencies of an event, kind by kind; a null pointer is a record of empty lists. */
  datatype EventDeps = EventDeps(addr: seq<Event>, data: seq<Event>, ctrl: seq<Event>,
                                 addrPo: seq<Event>, cas: seq<Event>)
  {
    predicate Has(d: Event) { d in addr || d in data || d in ctrl || d in addrPo || d in cas }
  }

  /** (ppo U rf)*-predecessors of an event already in the graph. */
  predicate CHas(g: Graph, e: Event, a: Event) { In(g, e) && L(g, e).pporf.Has(a) }

  predicate PHas(g: Graph, e: Event, a: Event) { In(g, e) && L(g, e).ppo.Has(a) }

  predicate HbHas(g: Graph, e: Event, a: Event) { In(g, e) && L(g, e).hb.Has(a) }

  // ----- pporf -----

  /** Preserved program order into e: e itself, its dependencies, and the acquires before it. */
  ghost predicate FromPpo(g: Graph, e: Event, deps: EventDeps, a: Event) {
    || (a == e && e.index >= 1)
    || (exists d :: deps.Has(d) && CHas(g, d, a))
    || (exists q: Event :: q.thread == e.thread && q.index < e.index && IsAcquireOrFence(g, q) && CHas(g, q, a))
  }

  /** Where the scan for reads starts: at the previous release, or at the read half if that is an RMW. */
  function ReleaseScanStart(g: Graph, e: Event): int
    requires Limit(g, e)
  {
    var rel := LastRelease(g, e);
    if In(g, rel) && L(g, rel).IsRmwStore() then rel.index - 1 else rel.index
  }

  /** What a release adds: its whole thread, the previous release, and the reads since. */
  ghost predicate FromRelease(g: Graph, e: Event, a: Event)
    requires Limit(g, e)
  {
    || (a.thread == e.thread && 1 <= a.index <= e.index)
    || CHas(g, LastRelease(g, e), a)
    || (exists r: Event :: r.thread == e.thread && ReleaseScanStart(g, e) <= r.index < e.index &&
                           IsReadAt(g, r) && CHas(g, r, a))
  }

  /** A read at e of location addr, on top of its preserved program order: through rf, internal or external. */
  ghost predicate FromRf(g: Graph, e: Event, addr: int, rf: Event, base: Clock, a: Event) {
    if rf == Bottom || !In(g, rf) then base.Has(a)
    else if rf.thread == e.thread || rf == Initializer then
      (base.Has(a) || PHas(g, rf, a)) && (a == rf ==> base.Has(a))
    else
      base.Has(a) || CHas(g, rf, a) || FromOwnWrites(g, e, addr, a)
  }

  /** The views of the earlier writes of e's thread to the same location. */
  ghost predicate FromOwnWrites(g: Graph, e: Event, addr: int, a: Event) {
    exists w: Event :: w.thread == e.thread && w.index < e.index &&
                       IsWriteAt(g, w) && L(g, w).addr == addr && CHas(g, w, a)
  }

  ghost predicate PpoOfWrite(g: Graph, lab: Label, deps: EventDeps, a: Event) {
    FromPpo(g, lab.pos, deps, a) || (lab.IsRmwStore() && CHas(g, lab.pos.Prev(), a))
  }

  /** f is the finish label that ends thread c. */
  predicate FinishOf(g: Graph, c: nat, f: Event) {
    In(g, f) && f.thread == c && f.index == |g[f.thread]| - 1 && L(g, f).kind.ThreadFinish?
  }

  /** The pporf contents of a label whose ppo view is already fixed. */
  ghost predicate PporfNew(g: Graph, lab: Label, deps: EventDeps, a: Event)
    requires Limit(g, lab.pos)
  {
    var e := lab.pos;
    match lab.kind
    case Read(_) => FromRf(g, e, lab.addr, lab.rf, lab.ppo, a)
    case Write(_) =>
      || PpoOfWrite(g, lab, deps, a)
      || (lab.AtLeastRelease() && FromRelease(g, e, a))
      || CHas(g, LastReleaseAtLoc(g, e, lab.addr), a)
    case ThreadJoin(c, _) =>
      FromPpo(g, e, deps, a) || (exists f :: FinishOf(g, c, f) && CHas(g, f, a))
    case ThreadStart(c) => CHas(g, c, a)
    case LockLapor =>
      var u := LastUnlockLapor(g, e, lab.addr);
      FromPpo(g, e, deps, a) || (u != Initializer && CHas(g, u, a))
    case _ =>
      FromPpo(g, e, deps, a) || (lab.AtLeastRelease() && FromRelease(g, e, a))
  }

  /** The ppo contents: only reads, writes and joins keep one. */
  ghost predicate PpoNew(g: Graph, lab: Label, deps: EventDeps, a: Event) {
    match lab.kind
    case Read(_) => FromPpo(g, lab.pos, deps, a)
    case ThreadJoin(_, _) => FromPpo(g, lab.pos, deps, a)
    case Write(_) => PpoOfWrite(g, lab, deps, a)
    case _ => false
  }

  // ----- hb and message views -----

  predicate IsAcquireFence(g: Graph, q: Event) {
    In(g, q) && L(g, q).kind.Fence? && L(g, q).AtLeastAcquire()
  }

  /** A read before e, weaker than acquire, whose write an acquire fence at e may synchronise with. */
  predicate FenceableRead(g: Graph, e: Event, r: Event) {
    r.thread == e.thread && 1 <= r.index < e.index && IsReadAt(g, r) && L(g, r).AtMostRelease()
  }

  /** Such a read that no acquire fence separates from e: the ones the scan backwards meets. */
  ghost predicate ScannedRead(g: Graph, e: Event, r: Event) {
    FenceableRead(g, e, r) &&
    forall q: Event :: q.thread == e.thread && r.index < q.index < e.index ==> !IsAcquireFence(g, q)
  }

  ghost predicate MsgHas(g: Graph, w: Event, a: Event) { IsWriteAt(g, w) && L(g, w).msg.Has(a) }

  /** The hb contents of a new label. */
  ghost predicate HbNew(g: Graph, lab: Label, a: Event) {
    match lab.kind
    case ThreadStart(c) => HbHas(g, c, a)
    case Read(_) =>
      a == lab.pos || HbHas(g, lab.pos.Prev(), a) || (lab.AtLeastAcquire() && MsgHas(g, lab.rf, a))
    case Fence =>
      || a == lab.pos || HbHas(g, lab.pos.Prev(), a)
      || (lab.AtLeastAcquire() && exists r :: ScannedRead(g, lab.pos, r) && MsgHas(g, L(g, r).rf, a))
    case ThreadJoin(c, _) =>
      a == lab.pos || HbHas(g, lab.pos.Prev(), a) || exists f :: FinishOf(g, c, f) && HbHas(g, f, a)
    case _ => a == lab.pos || HbHas(g, lab.pos.Prev(), a)
  }

  /** The message of a new write: its own hb view or that of the last release, and for an RMW
      also the message of the write its read half reads from. */
  ghost predicate MsgNew(g: Graph, lab: Label, a: Event)
    requires Limit(g, lab.pos)
  {
    var rel := LastReleaseAtLoc(g, lab.pos, lab.addr);
    if lab.IsRmwStore() then
      var p := lab.pos.Prev();
      || (IsReadAt(g, p) && MsgHas(g, L(g, p).rf, a))
      || (if In(g, p) && L(g, p).AtLeastRelease() then lab.hb.Has(a) else HbHas(g, rel, a))
    else if lab.IsWrite() then
      if lab.AtLeastRelease() then lab.hb.Has(a)
      else lab.AtMostAcquire() && HbHas(g, rel, a)
    else false
  }

  // ----- what the computation relies on -----

  /** Every stored clock is well formed and mentions events of the graph only. */
  ghost predicate ClocksInGraph(g: Graph) {
    forall x :: In(g, x) ==>
                  && L(g, x).pporf.Wf() && L(g, x).pporf.Tight()
                  && L(g, x).ppo.Wf() && L(g, x).ppo.Tight()
                  && (forall a :: L(g, x).pporf.Has(a) ==> In(g, a))
                  && (forall a :: L(g, x).ppo.Has(a) ==> In(g, a))
  }

  /** Every hb view ends at its own event in its own thread; hb and message views stay in the graph. */
  ghost predicate ViewsInGraph(g: Graph) {
    forall x :: In(g, x) ==>
                  && L(g, x).hb.At(x.thread) == x.index
                  && (forall a :: L(g, x).hb.Has(a) ==> In(g, a))
                  && (L(g, x).IsWrite() ==> forall a :: L(g, x).msg.Has(a) ==> In(g, a))
  }

  /** Non-empty threads begin with a start label, and only there. */
  ghost predicate Started(g: Graph) {
    forall x :: In(g, x) ==> (L(g, x).kind.ThreadStart? <==> x.index == 0)
  }

  ghost predicate Ready(g: Graph) {
    ClocksInGraph(g) && ViewsInGraph(g) && Started(g) && Positioned(g)
  }

  /** The labels that views of thread t are computed from: its own, and the writes, creations and finishes of others. */
  predicate Near(g: Graph, t: int, x: Event) {
    In(g, x) &&
        (x.thread == t || x == Initializer || L(g, x).IsWrite() || L(g, x).kind.ThreadCreate? ||
        L(g, x).kind.ThreadFinish?)
  }

  /** ClocksInGraph, for those labels. */
  ghost predicate ClocksNear(g: Graph, t: int) {
    forall x :: Near(g, t, x) ==>
                  && L(g, x).pporf.Wf() && L(g, x).pporf.Tight()
                  && L(g, x).ppo.Wf() && L(g, x).ppo.Tight()
                  && (forall a :: L(g, x).pporf.Has(a) ==> In(g, a))
                  && (forall a :: L(g, x).ppo.Has(a) ==> In(g, a))
  }

  /** ViewsInGraph, for those labels. */
  ghost predicate ViewsNear(g: Graph, t: int) {
    forall x :: Near(g, t, x) ==>
                  && L(g, x).hb.At(x.thread) == x.index
                  && (forall a :: L(g, x).hb.Has(a) ==> In(g, a))
                  && (L(g, x).IsWrite() ==> forall a :: L(g, x).msg.Has(a) ==> In(g, a))
  }

  /** The views of thread t can be computed, whatever has become of labels they do not depend on. */
  ghost predicate ReadyNear(g: Graph, t: int) {
    ClocksNear(g, t) && ViewsNear(g, t) && Started(g) && Positioned(g)
  }

  /** What can be read from has well-formed clocks. */
  ghost predicate WfSources(g: Graph) {
    forall x :: RfTarget(g, x) ==>
        L(g, x).pporf.Wf() && L(g, x).pporf.Tight() && L(g, x).ppo.Wf() && L(g, x).ppo.Tight()
  }

  ghost predicate WfDeps(g: Graph, e: Event, deps: EventDeps) {
    forall d :: deps.Has(d) ==> In(g, d) && d.thread == e.thread && d.index < e.index
  }

  /** A label fresh from its constructor. */
  predicate Unviewed(lab: Label) {
    lab.hb == EmptyView && lab.ppo == EmptyClock && lab.pporf == EmptyClock && lab.msg == EmptyView && lab.readers == []
  }

  /** The orderings the label constructors fix. */
  predicate WfOrdering(lab: Label) {
    && (lab.kind.ThreadCreate? || lab.kind.ThreadFinish? || lab.kind.UnlockLapor? ==> lab.AtLeastRelease())
    && (lab.kind.ThreadStart? || lab.kind.ThreadJoin? || lab.kind.LockLapor? ==> lab.AtLeastAcquire())
  }

  /** What updateLabelViews demands before it computes the views of lab. */
  ghost predicate Viewable(g: Graph, lab: Label, deps: EventDeps) {
    var e := lab.pos;
    && Limit(g, e) && e.index == |g[e.thread]| && Unviewed(lab) && WfOrdering(lab)
    && !lab.kind.Absent? && !lab.kind.Empty? && !lab.kind.Block?
    && (lab.kind.ThreadStart? <==> e.index == 0)
    && match lab.kind
       case ThreadStart(c) => In(g, c) && L(g, c).kind.ThreadCreate?
       case Read(_) => WfDeps(g, e, deps) && (lab.rf == Bottom || RfTarget(g, lab.rf))
       case Write(_) =>
         && WfDeps(g, e, deps)
         && (lab.IsRmwStore() ==>
               && IsReadAt(g, e.Prev()) && L(g, e.Prev()).ord != NotAtomic && In(g, L(g, e.Prev()).rf))
       case ThreadJoin(c, _) => WfDeps(g, e, deps) && c < |g|
       case Fence =>
         && WfDeps(g, e, deps)
         && (lab.AtLeastAcquire() ==> forall r :: ScannedRead(g, e, r) ==> In(g, L(g, r).rf))
       case _ => WfDeps(g, e, deps)
  }

  ghost predicate PpoComputed(g: Graph, lab: Label, deps: EventDeps, c: Clock) {
    c.Wf() && c.Tight() && forall a :: c.Has(a) <==> PpoNew(g, lab, deps, a)
  }

  ghost predicate PporfComputed(g: Graph, lab: Label, deps: EventDeps, c: Clock)
    requires Limit(g, lab.pos)
  {
    c.Wf() && c.Tight() && forall a :: c.Has(a) <==> PporfNew(g, lab, deps, a)
  }

  ghost predicate HbComputed(g: Graph, lab: Label, v: View) {
    v.At(lab.pos.thread) == lab.pos.index && forall a :: v.Has(a) <==> HbNew(g, lab, a)
  }

  ghost predicate MsgComputed(g: Graph, lab: Label, v: View)
    requires Limit(g, lab.pos)
  {
    forall a :: v.Has(a) <==> MsgNew(g, lab, a)
  }

  predicate KeepsPpo(lab: Label) { lab.IsRead() || lab.IsWrite() || lab.kind.ThreadJoin? }

  /** lab' is lab with its views computed over g. */
  ghost predicate ViewsComputed(g: Graph, lab: Label, deps: EventDeps, lab': Label) {
    && lab' == lab.(hb := lab'.hb, ppo := lab'.ppo, pporf := lab'.pporf, msg := lab'.msg)
    && Limit(g, lab'.pos)
    && (!KeepsPpo(lab) ==> lab'.ppo == lab.ppo)
    && PpoComputed(g, lab', deps, lab'.ppo)
    && PporfComputed(g, lab', deps, lab'.pporf)
    && HbComputed(g, lab', lab'.hb)
    && MsgComputed(g, lab', lab'.msg)
  }

  // ----- recomputation of a label already in the graph -----

  /** changeRf: what the views of a read hold once rebuilt from the ppo view it keeps. */
  ghost predicate RfContents(g: Graph, lab: Label, lab': Label) {
    && lab' == lab.(hb := lab'.hb, pporf := lab'.pporf)
    && lab'.pporf.Wf() && lab'.pporf.Tight()
    && (forall a :: lab'.pporf.Has(a) <==> FromRf(g, lab.pos, lab.addr, lab.rf, lab.ppo, a))
    && (forall a :: lab'.hb.Has(a) <==> HbNew(g, lab, a))
  }

  /** The same, and the hb view ends at the read in its thread, as it does if the message is not ahead of it. */
  ghost predicate RfRecomputed(g: Graph, lab: Label, lab': Label) {
    && lab' == lab.(hb := lab'.hb, pporf := lab'.pporf)
    && lab'.pporf.Wf() && lab'.pporf.Tight()
    && (forall a :: lab'.pporf.Has(a) <==> FromRf(g, lab.pos, lab.addr, lab.rf, lab.ppo, a))
    && HbComputed(g, lab, lab'.hb)
  }

  /** updateJoin: views of a join rebuilt from the ppo view it keeps and the finish f. */
  ghost predicate JoinRecomputed(g: Graph, lab: Label, f: Event, lab': Label) {
    && lab' == lab.(hb := lab'.hb, pporf := lab'.pporf)
    && lab'.pporf.Wf() && lab'.pporf.Tight()
    && (forall a :: lab'.pporf.Has(a) <==> lab.ppo.Has(a) || CHas(g, f, a))
    && lab'.hb.At(lab.pos.thread) == lab.pos.index
    && (forall a :: lab'.hb.Has(a) <==> a == lab.pos || HbHas(g, lab.pos.Prev(), a) || HbHas(g, f, a))
  }

  /** updateStart: the views of a begin label taken anew from the create label. */
  ghost predicate StartRecomputed(g: Graph, lab: Label, create: Event, lab': Label) {
    && lab' == lab.(hb := lab'.hb, pporf := lab'.pporf)
    && lab'.pporf.Wf() && lab'.pporf.Tight()
    && (forall a :: lab'.pporf.Has(a) <==> CHas(g, create, a))
    && lab'.hb.At(lab.pos.thread) == 0
    && (forall a :: lab'.hb.Has(a) <==> HbHas(g, create, a))
  }
}
