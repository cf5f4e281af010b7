/** The order hb follows, with every begin right after its creation. */
module Orders {
  import opened Events
  import opened Clocks
  import opened Graphs
  import opened ImmSpec
  import opened Causality
  import opened HbExact
  import opened Restriction
  import opened Sources
  import opened Settling
  import opened Trimming

  /** When x comes: a begin right after its creation. */
  function Slot(w: Graph, o: Order, x: Event): nat
    requires x in o.hb
  {
    if In(w, x) && L(w, x).kind.ThreadStart? then
      var c := L(w, x).kind.parentCreate;
      if x == Initializer then 0 else if c != Initializer && c in o.hb then 2 * o.hb[c] + 3 else 1
    else 2 * o.hb[x] + 2
  }

  function Lowered(w: Graph, o: Order): Order {
    Order(o.rank, map x | x in o.hb :: Slot(w, o, x), 2 * o.next + 2)
  }

  lemma LoweredAt(w: Graph, o: Order)
    ensures forall x :: x in Lowered(w, o).hb <==> x in o.hb
    ensures forall x :: x in o.hb ==> Lowered(w, o).hb[x] == Slot(w, o, x)
    ensures forall x, y :: Lowered(w, o).Before(x, y) <==> o.Before(x, y)
  {}

  /** Begins have their creation before them, and nothing else but that leads to them. */
  ghost predicate BeginsFollow(w: Graph, o: Order) {
    && (forall x :: In(w, x) ==> x in o.hb)
    && (forall x :: In(w, x) && L(w, x).kind.ThreadStart? && x != Initializer ==> CreationBefore(w, o, x))
    && (forall p, x :: HbEdge(w, p, x) && L(w, x).kind.ThreadStart? ==>
                         x != Initializer && p == L(w, x).kind.parentCreate)
  }

  predicate CreationBefore(w: Graph, o: Order, x: Event)
    requires In(w, x) && L(w, x).kind.ThreadStart?
  {
    var c := L(w, x).kind.parentCreate;
    In(w, c) && (c == Initializer || L(w, c).kind.ThreadCreate?) && o.HbBefore(c, x)
  }

  lemma BeginsDo(w: Graph, o: Order)
    requires InvAt(w, o)
    ensures BeginsFollow(w, o)
  {
    hide InvAt, Causal, Sourced, RfKnown, RfOrdered, OrderingsFixed, LocallyExact, MessagesExact, SourcesOrdered,
         PoOrdered, EdgesOrdered, MsgSource, RefsInside, Positioned, Started, ClocksInGraph, ViewsInGraph, EdgeInto;
    InvParts(w, o);
    CausalReady(w, o);
    forall x | In(w, x) && L(w, x).kind.ThreadStart? && x != Initializer ensures CreationBefore(w, o, x) {
      BeginCreated(w, o, x);
    }
    forall p, x | HbEdge(w, p, x) && L(w, x).kind.ThreadStart?
      ensures x != Initializer && p == L(w, x).kind.parentCreate
    {
      BeginEdge(w, p, x);
    }
  }

  lemma BeginCreated(w: Graph, o: Order, x: Event)
    requires RefsInside(w) && Positioned(w) && EdgesOrdered(w, o)
    requires In(w, x) && L(w, x).kind.ThreadStart? && x != Initializer
    ensures CreationBefore(w, o, x)
  {
    hide MsgSource;
    var c := L(w, x).kind.parentCreate;
    assert CreatorRef(w, c);
    PosAt(w, x);
    assert EdgeInto(w, c, L(w, x)) && HbEdge(w, c, x);
  }

  lemma BeginEdge(w: Graph, p: Event, x: Event)
    requires MainBegun(w) && Positioned(w) && Started(w) && HbEdge(w, p, x) && L(w, x).kind.ThreadStart?
    ensures x != Initializer && p == L(w, x).kind.parentCreate
  {
    hide MsgSource;
    PosAt(w, x);
    assert x.index == 0;
  }

  lemma StillOrdered(w: Graph, o: Order, p: Event, x: Event)
    requires BeginsFollow(w, o) && In(w, p) && In(w, x) && o.HbBefore(p, x) && !L(w, x).kind.ThreadStart?
    ensures Lowered(w, o).HbBefore(p, x)
  {
    LoweredAt(w, o);
    if L(w, p).kind.ThreadStart? && p != Initializer { assert CreationBefore(w, o, p); }
  }

  lemma CreationStill(w: Graph, o: Order, x: Event)
    requires BeginsFollow(w, o) && Started(w) && In(w, x) && L(w, x).kind.ThreadStart? && x != Initializer
    ensures Lowered(w, o).HbBefore(L(w, x).kind.parentCreate, x)
  {
    LoweredAt(w, o);
    assert CreationBefore(w, o, x);
  }

  /** The invariant does not mind. */
  lemma LoweredInv(w: Graph, o: Order)
    requires InvAt(w, o)
    ensures InvAt(w, Lowered(w, o))
  {
    var o' := Lowered(w, o);
    BeginsDo(w, o);
    InvParts(w, o);
    CausalReady(w, o);
    hide InvAt, Sourced, RfKnown, OrderingsFixed, LocallyExact, MessagesExact, BeginsFollow, Lowered, MsgSource, HbEdge;
    LoweredCausal(w, o);
    LoweredEdges(w, o);
    LoweredSources(w, o);
    LoweredRfs(w, o);
    assert HbInv(w, o') by { LoweredPo(w, o); }
    InvWhole(w, o');
  }

  lemma LoweredCausal(w: Graph, o: Order)
    requires Causal(w, o) && BeginsFollow(w, o)
    ensures Causal(w, Lowered(w, o))
  {
    LoweredAt(w, o);
    hide Ready, CausallyClosed, SelfContained, PpoClosed, ReleasesCover, Anchored, ReadsInside, RefsInside, StartsBare,
         HbEdge;
    forall x | In(w, x) ensures Slot(w, o, x) < 2 * o.next + 2 {
      if L(w, x).kind.ThreadStart? && x != Initializer { assert CreationBefore(w, o, x); }
    }
  }

  lemma LoweredEdges(w: Graph, o: Order)
    requires EdgesOrdered(w, o) && BeginsFollow(w, o) && Started(w)
    ensures EdgesOrdered(w, Lowered(w, o))
  {
    hide EdgeInto;
    forall p, x | HbEdge(w, p, x) ensures Lowered(w, o).HbBefore(p, x) {
      EdgeEnds(w, p, x);
      if L(w, x).kind.ThreadStart? { CreationStill(w, o, x); } else { StillOrdered(w, o, p, x); }
    }
  }

  lemma LoweredSources(w: Graph, o: Order)
    requires SourcesOrdered(w, o) && BeginsFollow(w, o)
    ensures SourcesOrdered(w, Lowered(w, o))
  {
    hide MsgSource, BeginsFollow, Lowered;
    forall v, p | MsgSource(w, v, p)
      ensures In(w, p) && !IsRecomputable(L(w, p)) && (p == v || Lowered(w, o).HbBefore(p, v))
    {
      SourceIsWrite(w, v);
      if p != v { StillOrdered(w, o, p, v); }
    }
  }

  lemma LoweredPo(w: Graph, o: Order)
    requires PoOrdered(w, o) && BeginsFollow(w, o) && Started(w)
    ensures PoOrdered(w, Lowered(w, o))
  {
    hide BeginsFollow, Lowered;
    forall x, y | In(w, x) && In(w, y) && x.thread == y.thread && x.index < y.index
      ensures Lowered(w, o).HbBefore(x, y)
    {
      StillOrdered(w, o, x, y);
    }
  }

  lemma LoweredRfs(w: Graph, o: Order)
    requires RfOrdered(w, o)
    ensures RfOrdered(w, Lowered(w, o))
  {
    LoweredAt(w, o);
    hide Lowered;
  }

  /** Whatever comes after a begin's creation, or after main's, comes after the begin. */
  lemma BeginLowered(w: Graph, o: Order, p: Event, x: Event)
    requires BeginsFollow(w, o) && In(w, p) && L(w, p).kind.ThreadStart? && In(w, x) && !L(w, x).kind.ThreadStart?
    requires var c := L(w, p).kind.parentCreate; p == Initializer || c == Initializer || o.HbBefore(c, x)
    ensures Lowered(w, o).HbBefore(p, x)
  {
    LoweredAt(w, o);
  }
}
