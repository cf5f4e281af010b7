/** The axiom checker for queues: matched dequeues come in the order of their enqueues. */
module Fifo {

  datatype FunctionName = Enq | Deq | OtherName(n: nat)

  datatype FunctionEvent = FunctionEvent(name: FunctionName, invocation: nat)

  type Relation = map<FunctionEvent, seq<FunctionEvent>>

  /** An event without an entry is related to nothing. */
  function At(r: Relation, e: FunctionEvent): seq<FunctionEvent> { if e in r then r[e] else [] }

  predicate Related(r: Relation, a: FunctionEvent, b: FunctionEvent) { b in At(r, a) }

  /** COM and INVCOM are inverse, one-to-one, and relate enqueues to dequeues among the calls. */
  ghost predicate WellMatched(calls: seq<FunctionEvent>, com: Relation, invcom: Relation) {
    && (forall e, d :: Related(com, e, d) <==> Related(invcom, d, e))
    && (forall e :: |At(com, e)| <= 1 && |At(invcom, e)| <= 1)
    && (forall e, d :: Related(com, e, d) ==> e.name == Enq && d.name == Deq && e in calls && d in calls)
  }

  /** Two values come out in the order opposite to the one they went in. */
  ghost predicate Overtaken(lhb: Relation, com: Relation, e1: FunctionEvent, d1: FunctionEvent, e2: FunctionEvent,
                            d2: FunctionEvent) {
    Related(com, e1, d1) && Related(com, e2, d2) && Related(lhb, e1, e2) && Related(lhb, d2, d1)
  }

  ghost predicate Violated(lhb: Relation, com: Relation) {
    exists e1, d1, e2, d2 :: Overtaken(lhb, com, e1, d1, e2, d2)
  }

  // ----- the two tests -----

  /** a lhb b are dequeues whose enqueues are ordered the other way round. */
  predicate DeqTest(lhb: Relation, invcom: Relation, a: FunctionEvent, b: FunctionEvent) {
    && a.name == b.name == Deq && |At(invcom, a)| == 1 && |At(invcom, b)| == 1
    && Related(lhb, At(invcom, b)[0], At(invcom, a)[0])
  }

  /** a lhb b are enqueues whose dequeues are ordered the other way round. */
  predicate EnqTest(lhb: Relation, com: Relation, a: FunctionEvent, b: FunctionEvent) {
    && a.name == b.name == Enq && |At(com, a)| == 1 && |At(com, b)| == 1
    && Related(lhb, At(com, b)[0], At(com, a)[0])
  }

  ghost predicate SomeDeqTest(calls: seq<FunctionEvent>, lhb: Relation, invcom: Relation) {
    exists a, b :: a in calls && Related(lhb, a, b) && DeqTest(lhb, invcom, a, b)
  }

  ghost predicate SomeEnqTest(calls: seq<FunctionEvent>, lhb: Relation, com: Relation) {
    exists a, b :: a in calls && Related(lhb, a, b) && EnqTest(lhb, com, a, b)
  }

  lemma Only(s: seq<FunctionEvent>, x: FunctionEvent)
    requires x in s && |s| <= 1
    ensures |s| == 1 && s[0] == x
  {}

  /** Looking at dequeues alone finds every violation, and nothing else. */
  lemma DeqTestDecides(calls: seq<FunctionEvent>, lhb: Relation, com: Relation, invcom: Relation)
    requires WellMatched(calls, com, invcom)
    ensures SomeDeqTest(calls, lhb, invcom) <==> Violated(lhb, com)
  {
    if a, b :| a in calls && Related(lhb, a, b) && DeqTest(lhb, invcom, a, b) {
      var c, d := At(invcom, a)[0], At(invcom, b)[0];
      assert Related(invcom, a, c) && Related(invcom, b, d);
      assert Overtaken(lhb, com, d, b, c, a);
    }
    if e1, d1, e2, d2 :| Overtaken(lhb, com, e1, d1, e2, d2) {
      assert Related(invcom, d1, e1) && Related(invcom, d2, e2);
      Only(At(invcom, d1), e1);
      Only(At(invcom, d2), e2);
      assert DeqTest(lhb, invcom, d2, d1);
    }
  }

  /** So does looking at enqueues alone. */
  lemma EnqTestDecides(calls: seq<FunctionEvent>, lhb: Relation, com: Relation, invcom: Relation)
    requires WellMatched(calls, com, invcom)
    ensures SomeEnqTest(calls, lhb, com) <==> Violated(lhb, com)
  {
    if a, b :| a in calls && Related(lhb, a, b) && EnqTest(lhb, com, a, b) {
      var c, d := At(com, a)[0], At(com, b)[0];
      assert Related(com, a, c) && Related(com, b, d);
      assert Overtaken(lhb, com, a, c, b, d);
    }
    if e1, d1, e2, d2 :| Overtaken(lhb, com, e1, d1, e2, d2) {
      Only(At(com, e1), d1);
      Only(At(com, e2), d2);
      assert EnqTest(lhb, com, e1, e2);
    }
  }

  /** True, an error, iff some test succeeds; for well-matched calls, iff the queue is not FIFO. */
  method IsFiFo(calls: seq<FunctionEvent>, lhb: Relation, com: Relation, invcom: Relation) returns (error: bool)
    ensures error <==> SomeDeqTest(calls, lhb, invcom) || SomeEnqTest(calls, lhb, com)
    ensures WellMatched(calls, com, invcom) ==> (error <==> Violated(lhb, com))
  {
    if WellMatched(calls, com, invcom) {
      DeqTestDecides(calls, lhb, com, invcom);
      EnqTestDecides(calls, lhb, com, invcom);
    }
    hide WellMatched, Violated, DeqTest, EnqTest;
    var i := 0;
    while i < |calls|
      invariant 0 <= i <= |calls|
      invariant forall a, b :: a in calls[..i] && Related(lhb, a, b) ==>
                    !DeqTest(lhb, invcom, a, b) && !EnqTest(lhb, com, a, b)
    {
      var a := calls[i];
      var currLhb := At(lhb, a);
      var k := 0;
      while k < |currLhb|
        invariant 0 <= k <= |currLhb|
        invariant forall b :: b in currLhb[..k] ==> !DeqTest(lhb, invcom, a, b) && !EnqTest(lhb, com, a, b)
      {
        var b := currLhb[k];
        if DeqTest(lhb, invcom, a, b) { return true; }
        if EnqTest(lhb, com, a, b) { return true; }
        k := k + 1;
      }
      assert currLhb[..k] == currLhb;
      i := i + 1;
    }
    assert calls[..i] == calls;
    error := false;
  }
}
