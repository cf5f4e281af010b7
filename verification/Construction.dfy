/** When the driver makes a backward revisit: conditions on the graph and on what else it records of labels. */
module Construction {
  import opened Events
  import opened Clocks
  import opened Graphs
  import opened ImmSpec
  import opened RevisitSpec
  import opened PendingRmw

  /** Accesses that were not added maximally, reads that are not to be revisited, and the coherence order. */
  datatype Records = Records(demoted: set<Event>, fixed: set<Event>, co: map<int, seq<Event>>)

  predicate IsAccess(g: Graph, e: Event) { In(g, e) && L(g, e).IsMemAccess() }

  // ----- the helper's marks -----

  /** getPreviousVisibleAccessLabel: p is the last access before e in its thread. */
  ghost predicate PreviousAccess(g: Graph, e: Event, p: Event) {
    && p.thread == e.thread && 1 <= p.index < e.index && IsAccess(g, p)
    && forall q: Event :: q.thread == e.thread && p.index < q.index < e.index ==> !IsAccess(g, q)
  }

  /** annotateStoreHELPER: the access before the read half was not added maximally, or is a read fixed for good. */
  ghost predicate RevBlocker(g: Graph, rec: Records, w: Event) {
    && IsWriteAt(g, w) && L(g, w).IsRmwStore()
    && L(g, w).kind != Write(LockCasWrite) && L(g, w).kind != Write(TrylockCasWrite)
    && exists p :: PreviousAccess(g, w.Prev(), p) && (p in rec.demoted || (IsReadAt(g, p) && p in rec.fixed))
  }

  /** constructBackwardRevisit, for a helper: mid is the write half of the earliest read-modify-write that competes with
      the revisiting one, it is marked, and neither knows what the revisit is to take from it. */
  ghost predicate HelperBuilt(g: Graph, rec: Records, r: BackwardRevisit) {
    && r.BackwardHelper? && IsReadAt(g, r.pos) && IsWriteAt(g, r.rev) && L(g, r.rev).IsRmwStore()
    && In(g, r.rev.Prev()) && r.mid.Prev() != Initializer && IsEarliestCompetitor(g, r.rev.Prev(), r.mid.Prev())
    && RevBlocker(g, rec, r.mid)
    && !CHas(g, r.mid, r.pos) && L(g, r.pos).stamp < L(g, r.mid).stamp && !CHas(g, r.rev, r.mid)
  }

  // ----- what may be read and revisited -----

  /** isStoreReadBySettledRMW, asked by a read: another read-modify-write that is there to stay, or in the read's own
      prefix, reads the store. */
  ghost predicate ReadBySettled(g: Graph, rec: Records, read: Event, store: Event) {
    exists r ::
      && IsReadAt(g, r) && r != read && IsRmwLoad(g, r) && IsReadAt(g, read)
      && L(g, r).rf == store && L(g, r).addr == L(g, read).addr
      && ((r in rec.fixed && !RevBlocker(g, rec, r.Next())) || CHas(g, read, r))
  }

  /** getRevisitable, for dependency graphs. */
  ghost predicate Candidate(g: Graph, rec: Records, w: Event, r: Event) {
    && IsWriteAt(g, w) && IsReadAt(g, r) && r.thread != w.thread && L(g, r).addr == L(g, w).addr && !CHas(g, w, r)
    && r !in rec.fixed && r !in rec.demoted
    && (L(g, w).IsRmwStore() ==>
          In(g, w.Prev()) &&
          forall p :: IsEarliestCompetitor(g, w.Prev(), p) && p != Initializer ==> L(g, r).stamp <= L(g, p).stamp)
  }

  /** x comes after w in coherence order; the initialiser comes before all. */
  ghost predicate Succeeds(co: seq<Event>, w: Event, x: Event) {
    if w == Initializer then x in co else exists i, j :: 0 <= i < j < |co| && co[i] == w && co[j] == x
  }

  ghost predicate ItOrReader(g: Graph, w: Event, e: Event) { e == w || (IsWriteAt(g, w) && e in L(g, w).readers) }

  ghost predicate CoAfter(g: Graph, co: seq<Event>, w: Event, e: Event) {
    exists x :: Succeeds(co, w, x) && ItOrReader(g, x, e)
  }

  /** And before it, reads of the initialiser included. */
  ghost predicate CoBefore(g: Graph, co: seq<Event>, w: Event, e: Event) {
    || (exists x :: x != Initializer && Succeeds(co, x, w) && ItOrReader(g, x, e))
    || (IsReadAt(g, e) && IsWriteAt(g, w) && L(g, e).rf == Initializer && L(g, e).addr == L(g, w).addr)
  }

  /** getCoherentRevisits, for models that add events out of order: reading w, r would not contradict coherence. */
  ghost predicate CoherentRevisit(g: Graph, rec: Records, w: Event, r: Event) {
    && IsWriteAt(g, w) && IsReadAt(g, r) && L(g, w).addr in rec.co
    && var co := rec.co[L(g, w).addr];
    && (forall e :: CoAfter(g, co, w, e) ==> !HbHas(g, r.Prev(), e))
    && !HbHas(g, w, r)
    && (forall e :: CoBefore(g, co, w, e) && (InPrefix(g, L(g, r).stamp, e) || CHas(g, w, e)) ==>
                      !HbHas(g, e.Prev(), r))
  }

  // ----- maximality -----

  /** isFixedHoleInView: the clock holds a reader of the write x, or a read of what the read x reads. */
  ghost predicate FixedHole(g: Graph, x: Event, c: Clock) {
    || (IsWriteAt(g, x) && exists r :: r in L(g, x).readers && c.Has(r))
    || (IsReadAt(g, x) && exists y ::
          c.Has(y) && IsReadAt(g, y) && L(g, y).addr == L(g, x).addr && L(g, y).rf == L(g, x).rf)
    || (IsReadAt(g, x) && IsRmwLoad(g, x) && exists r :: r in L(g, x.Next()).readers && c.Has(r))
  }

  /** prefixContainsSameLoc */
  ghost predicate InPrefixHole(g: Graph, r: BackwardRevisit, x: Event) {
    || (In(g, r.rev) && x.index <= L(g, r.rev).pporf.At(x.thread) && FixedHole(g, x, L(g, r.rev).pporf))
    || (r.BackwardHelper? && In(g, r.mid) &&
        x.index <= L(g, r.mid).pporf.At(x.thread) && FixedHole(g, x, L(g, r.mid).pporf))
  }

  /** What keeps a label that is to be deleted from counting as added maximally: its mark, a write in coherence order
      after it that stays, or, for a read, a younger write it reads that goes (locks and barriers, for which there are
      exceptions, included). */
  ghost predicate NotMaximal(g: Graph, rec: Records, v: Clock, r: BackwardRevisit, x: Event)
    requires IsAccess(g, x)
  {
    var lab := L(g, x);
    || x in rec.demoted
    || (lab.addr in rec.co && exists w ::
          && Succeeds(rec.co[lab.addr], if lab.IsRead() then lab.rf else x, w) && v.Has(w) && w != r.rev
          && In(g, w) && x.index > L(g, w).pporf.At(x.thread))
    || (lab.IsRead() && In(g, lab.rf) && !v.Has(lab.rf) && L(g, lab.rf).stamp > lab.stamp)
  }

  /** coherenceSuccRemainInGraph: what comes right after the write in coherence order stays. */
  ghost predicate SuccessorStays(g: Graph, rec: Records, r: BackwardRevisit, v: Clock) {
    IsWriteAt(g, r.rev) && !L(g, r.rev).IsRmwStore() && L(g, r.rev).addr in rec.co ==>
      var co := rec.co[L(g, r.rev).addr];
      forall i :: 0 <= i < |co| - 1 && co[i] == r.rev ==> v.Has(co[i + 1])
  }

  /** inMaximalPath: labels to be deleted were added maximally, those aside that the prefix determines. */
  ghost predicate MaximalExtension(g: Graph, rec: Records, r: BackwardRevisit, v: Clock) {
    && SuccessorStays(g, rec, r, v)
    && forall x :: IsAccess(g, x) ==>
                     (x != r.pos && v.Has(x)) || InPrefixHole(g, r, x) || !NotMaximal(g, rec, v, r, x)
  }

  /** The driver makes this revisit by a plain write, v being its view. */
  ghost predicate MakesPlain(g: Graph, rec: Records, r: BackwardRevisit, v: Clock) {
    && r.Backward? && IsWriteAt(g, r.rev) && !L(g, r.rev).IsRmwStore() && Candidate(g, rec, r.rev, r.pos)
    && CoherentRevisit(g, rec, r.rev, r.pos) && MaximalExtension(g, rec, r, v)
  }

  /** All of it: the driver makes this helper revisit, v being its view. */
  ghost predicate MakesHelper(g: Graph, rec: Records, r: BackwardRevisit, v: Clock) {
    && HelperBuilt(g, rec, r) && Candidate(g, rec, r.rev, r.pos) && CoherentRevisit(g, rec, r.rev, r.pos)
    && In(g, r.rev.Prev()) && !ReadBySettled(g, rec, r.rev.Prev(), L(g, r.rev.Prev()).rf)
    && MaximalExtension(g, rec, r, v)
  }

  // ----- what is recorded in a run -----

  /** The read added read the newest write of its address, and so the last in coherence order. */
  ghost predicate ReadNewest(g: Graph, r: Event) {
    IsReadAt(g, r) &&
    forall w :: IsWriteAt(g, w) && L(g, w).addr == L(g, r).addr && L(g, w).stamp < L(g, r).stamp ==>
                  In(g, L(g, r).rf) && (w == L(g, r).rf || L(g, w).stamp < L(g, L(g, r).rf).stamp)
  }

  /** In a run of additions in which reads take the newest writes, and no address is written twice, nothing is demoted
      or fixed, and the coherence order lists the writes. */
  ghost predicate PlainRecords(g: Graph, rec: Records) {
    && rec.demoted == {} && rec.fixed == {} && (forall r :: IsReadAt(g, r) ==> ReadNewest(g, r))
    && (forall w :: IsWriteAt(g, w) ==> L(g, w).addr in rec.co && rec.co[L(g, w).addr] == [w])
    && (forall a, w :: a in rec.co && w in rec.co[a] ==> IsWriteAt(g, w) && L(g, w).addr == a)
  }
}
