/** Two programs and environments in which execution is past a load whose annotation is not what it might be taken for,
    because of what propagation does about phis. */
module PhiCases {
  import opened Annotations
  import opened InstAnnotators

  ghost predicate NoOther(prog: Program) { forall p :: prog.In(p) ==> !prog.At(p).Other? }

  /** Operators that return 0 whatever they are given. */
  function Zeroes(): Semantics { Semantics((_, _) => 0, (_, _, _) => 0, (_, _) => 0) }

  // ----- a phi that takes what a later phi of its block had -----

  const P: Value := Result(Pos(1, 0))

  const Q: Value := Result(Pos(1, 1))

  /** while (true) { p = phi(1, q); q = phi(1, 0); assume(p); load } */
  function Latch(): Program {
    Program([
              [Goto(1)],
              [Phi(map[0 := Const(1), 2 := Use(Q)]), Phi(map[0 := Const(1), 2 := Const(0)]), Assume(Use(P)), Goto(2)],
              [Load, Goto(1)]
            ])
  }

  lemma LatchIn(p: Pos)
    ensures Latch().In(p) <==>
                (p == Pos(0, 0) || p == Pos(1, 0) || p == Pos(1, 1) || p == Pos(1, 2) || p == Pos(1, 3) ||
                                p == Pos(2, 0) || p == Pos(2, 1))
  {}

  lemma LatchInsts()
    ensures var prog := Latch();
            && |prog.blocks| == 3 && |prog.blocks[0]| == 1 && |prog.blocks[1]| == 4 && |prog.blocks[2]| == 2
            && prog.At(Pos(0, 0)) == Goto(1)
            && prog.At(Pos(1, 0)) == Phi(map[0 := Const(1), 2 := Use(Q)])
            && prog.At(Pos(1, 1)) == Phi(map[0 := Const(1), 2 := Const(0)])
            && prog.At(Pos(1, 2)) == Assume(Use(P)) && prog.At(Pos(1, 3)) == Goto(2)
            && prog.At(Pos(2, 0)) == Load && prog.At(Pos(2, 1)) == Goto(1)
  {}

  lemma LatchInstWf(p: Pos)
    requires Latch().In(p)
    ensures var prog := Latch();
            && (prog.At(p).IsTerminator() <==> p.index == |prog.blocks[p.block]| - 1)
            && (prog.At(p).Goto? ==> prog.At(p).target < |prog.blocks|)
            && (prog.At(p).Branch? ==> prog.At(p).yes < |prog.blocks| && prog.At(p).no < |prog.blocks|)
            && (forall q: Pos :: Uses(prog.At(p), Result(q)) && q.block == p.block ==> q.index < p.index)
            && !prog.At(p).Other?
  {
    LatchIn(p);
    LatchInsts();
    hide Latch;
  }

  lemma LatchAt()
    ensures Latch().Wf() && NoOther(Latch()) && forall p :: p in LatchRegion() ==> Latch().In(p)
    ensures Latch().Leading(Pos(1, 0)) && Latch().Leading(Pos(1, 1)) && !Latch().IsPhi(Pos(1, 2))
  {
    LatchInsts();
    hide Uses;
    forall p | Latch().In(p)
      ensures (Latch().At(p).IsTerminator() <==> p.index == |Latch().blocks[p.block]| - 1) && !Latch().At(p).Other?
      ensures Latch().At(p).Goto? ==> Latch().At(p).target < |Latch().blocks|
      ensures Latch().At(p).Branch? ==> Latch().At(p).yes < |Latch().blocks| && Latch().At(p).no < |Latch().blocks|
      ensures forall q: Pos :: Uses(Latch().At(p), Result(q)) && q.block == p.block ==> q.index < p.index
    {
      LatchInstWf(p);
    }
    hide Latch;
  }

  lemma LatchOnward()
    ensures Latch().Wf() && forall p :: p in LatchRegion() ==> Latch().In(p)
    ensures Successors(Latch(), Pos(2, 1)) == [Pos(1, 0)] && Successors(Latch(), Pos(1, 0)) == [Pos(1, 1)]
    ensures Successors(Latch(), Pos(1, 1)) == [Pos(1, 2)] && Successors(Latch(), Pos(1, 2)) == []
  {
    LatchAt();
    LatchInsts();
    hide Latch;
  }

  function LatchRegion(): set<Pos> { {Pos(2, 1), Pos(1, 0), Pos(1, 1), Pos(1, 2)} }

  function LatchRank(): map<Pos, nat> { map[Pos(1, 2) := 0, Pos(1, 1) := 1, Pos(1, 0) := 2, Pos(2, 1) := 3] }

  function Ones(): Env { (_: Value) => 1 }

  lemma LatchTree()
    ensures Latch().In(Pos(2, 1)) && Tree(Latch(), LatchRank(), Pos(2, 1)) == Concrete(0)
  {
    var prog, rank := Latch(), LatchRank();
    LatchAt();
    LatchInsts();
    LatchOnward();
    hide Latch;
    assert Tree(prog, rank, Pos(1, 2)) == Register(P);
    assert Tree(prog, rank, Pos(1, 1)) == Register(P);
    assert Tree(prog, rank, Pos(1, 0)) == Register(P);
    assert SubstPhis(prog, Register(P), Pos(1, 0), 2) == SubstPhis(prog, Register(Q), Pos(1, 1), 2);
    assert SubstPhis(prog, Register(Q), Pos(1, 1), 2) == SubstPhis(prog, Concrete(0), Pos(1, 2), 2) == Concrete(0);
  }

  lemma LatchGoes(p: Pos, q: Pos)
    requires (p == Pos(0, 0) && q == Pos(1, 0)) || (p == Pos(1, 3) && q == Pos(2, 0)) ||
             (q == p.Next() && (p == Pos(1, 0) || p == Pos(1, 1) || p == Pos(1, 2) || p == Pos(2, 0)))
    ensures Latch().In(p) && Steps(Zeroes(), Latch(), p, Ones(), q, Ones())
  {
    LatchAt();
    LatchInsts();
    LatchIn(p);
    hide Latch;
  }

  /** In the first round p and q are 1. */
  lemma LatchReached()
    ensures Reachable(Zeroes(), Latch(), Pos(2, 1), Ones())
  {
    hide Latch, Steps, Ones, Zeroes;
    var s, prog, env := Zeroes(), Latch(), Ones();
    var ps := [Pos(0, 0), Pos(1, 0), Pos(1, 1), Pos(1, 2), Pos(1, 3), Pos(2, 0), Pos(2, 1)];
    var ms := seq(7, i requires 0 <= i < 7 => Moment(ps[i], env));
    LatchIn(Pos(2, 1));
    forall i | 0 <= i < 6
      ensures prog.In(ms[i].p) && Steps(s, prog, ms[i].p, ms[i].env, ms[i + 1].p, ms[i + 1].env)
    {
      LatchGoes(ps[i], ps[i + 1]);
    }
    assert Execution(s, prog, ms);
  }

  /** With q at 1 the assume after the load passes. */
  lemma LatchPasses()
    ensures Latch().Wf() && !Blocks(Zeroes(), Latch(), Pos(2, 1), Ones())
  {
    var prog, env := Latch(), Ones();
    LatchAt();
    LatchInsts();
    LatchOnward();
    hide Latch;
    var env' := AtEntry(prog, 1, 0, 2, env);
    BlocksNext(Zeroes(), prog, Pos(2, 1), env);
    BlocksNext(Zeroes(), prog, Pos(1, 0), env');
    BlocksNext(Zeroes(), prog, Pos(1, 1), env');
    BlocksStop(Zeroes(), prog, Pos(1, 2), env');
    assert env'(P) == env(Q);
  }

  lemma LatchRanked()
    ensures Latch().Wf() && Region(Latch(), LatchRegion()) && Ranked(Latch(), LatchRegion(), LatchRank())
    ensures Pos(2, 1) in LatchRegion()
  {
    LatchAt();
    LatchInsts();
    LatchOnward();
    hide Latch, Successors, Program.Wf;
  }

  /** The annotation of the load is FALSE, and wrong: execution that gets there goes on. */
  method AnnotateLatch() returns (e: Expr)
    ensures Latch().Wf() && NoOther(Latch()) && Latch().In(Pos(2, 0)) && Latch().At(Pos(2, 0)).Load?
    ensures e == Concrete(0) && Reachable(Zeroes(), Latch(), Pos(2, 1), Ones())
    ensures !Blocks(Zeroes(), Latch(), Pos(2, 1), Ones()) && !Safe(Latch(), Pos(2, 1), e)
  {
    hide Latch, LatchRegion, LatchRank, Region, Ranked, Tree, Safe, Sound, Exact, Supported, Steady, Blocks, Reachable;
    LatchAt();
    LatchInsts();
    LatchRanked();
    LatchTree();
    LatchPasses();
    LatchReached();
    var annotator := new InstAnnotator(Latch());
    e := annotator.Annotate(Pos(2, 0), LatchRegion(), LatchRank());
    FalseIsUnsafe(Latch(), Pos(2, 1), Zeroes(), Ones(), e);
  }

  lemma FalseIsUnsafe(prog: Program, p: Pos, s: Semantics, env: Env, e: Expr)
    requires prog.Wf() && Eval(s, e, env) == 0 && Reachable(s, prog, p, env) && !Blocks(s, prog, p, env)
    ensures !Safe(prog, p, e)
  {
    hide Reachable, Arrives, Blocks;
    ReachableArrives(s, prog, p, env);
  }

  // ----- a block that branches to itself -----

  const R: Value := Result(Pos(1, 0))

  const X: Value := Result(Pos(1, 2))

  const AGAIN: Value := Argument(0)

  /** do { r = phi(1, x); assume(r); x = load } while (again) */
  function Spin(): Program {
    Program([
              [Goto(1)],
              [Phi(map[0 := Const(1), 1 := Use(X)]), Assume(Use(R)), Load, Branch(AGAIN, 1, 2)],
              [End]
            ])
  }

  lemma SpinIn(p: Pos)
    ensures Spin().In(p) <==> (p == Pos(0, 0) || p == Pos(1, 0) || p == Pos(1, 1) || p == Pos(1, 2) || p == Pos(1, 3) ||
                               p == Pos(2, 0))
  {}

  lemma SpinInsts()
    ensures var prog := Spin();
            && |prog.blocks| == 3 && |prog.blocks[0]| == 1 && |prog.blocks[1]| == 4 && |prog.blocks[2]| == 1
            && prog.At(Pos(0, 0)) == Goto(1)
            && prog.At(Pos(1, 0)) == Phi(map[0 := Const(1), 1 := Use(X)]) && prog.At(Pos(1, 1)) == Assume(Use(R))
            && prog.At(Pos(1, 2)) == Load && prog.At(Pos(1, 3)) == Branch(AGAIN, 1, 2) && prog.At(Pos(2, 0)) == End
  {}

  lemma SpinInstWf(p: Pos)
    requires Spin().In(p)
    ensures var prog := Spin();
            && (prog.At(p).IsTerminator() <==> p.index == |prog.blocks[p.block]| - 1)
            && (prog.At(p).Goto? ==> prog.At(p).target < |prog.blocks|)
            && (prog.At(p).Branch? ==> prog.At(p).yes < |prog.blocks| && prog.At(p).no < |prog.blocks|)
            && (forall q: Pos :: Uses(prog.At(p), Result(q)) && q.block == p.block ==> q.index < p.index)
            && !prog.At(p).Other?
  {
    SpinIn(p);
    SpinInsts();
    hide Spin;
  }

  lemma SpinAt()
    ensures Spin().Wf() && NoOther(Spin()) && forall p :: p in SpinRegion() ==> Spin().In(p)
    ensures Spin().Leading(Pos(1, 0)) && !Spin().IsPhi(Pos(2, 0))
  {
    SpinInsts();
    hide Uses;
    forall p | Spin().In(p)
      ensures (Spin().At(p).IsTerminator() <==> p.index == |Spin().blocks[p.block]| - 1) && !Spin().At(p).Other?
      ensures Spin().At(p).Goto? ==> Spin().At(p).target < |Spin().blocks|
      ensures Spin().At(p).Branch? ==> Spin().At(p).yes < |Spin().blocks| && Spin().At(p).no < |Spin().blocks|
      ensures forall q: Pos :: Uses(Spin().At(p), Result(q)) && q.block == p.block ==> q.index < p.index
    {
      SpinInstWf(p);
    }
    hide Spin;
  }

  lemma SpinOnward()
    ensures Spin().Wf() && forall p :: p in SpinRegion() ==> Spin().In(p)
    ensures Successors(Spin(), Pos(1, 3)) == [Pos(1, 0), Pos(2, 0)] && Successors(Spin(), Pos(1, 0)) == [Pos(1, 1)]
    ensures Successors(Spin(), Pos(1, 1)) == [] && Successors(Spin(), Pos(2, 0)) == []
  {
    SpinAt();
    SpinInsts();
    hide Spin;
  }

  function SpinRegion(): set<Pos> { {Pos(1, 3), Pos(1, 0), Pos(1, 1), Pos(2, 0)} }

  function SpinRank(): map<Pos, nat> { map[Pos(1, 1) := 0, Pos(2, 0) := 0, Pos(1, 0) := 1, Pos(1, 3) := 2] }

  lemma SpinTree()
    ensures Spin().In(Pos(1, 3))
    ensures Tree(Spin(), SpinRank(), Pos(1, 3)) == SelectExpr(Register(AGAIN), Register(R), True)
  {
    var prog, rank := Spin(), SpinRank();
    SpinAt();
    SpinInsts();
    SpinOnward();
    hide Spin;
    assert Tree(prog, rank, Pos(1, 1)) == Register(R);
    assert Tree(prog, rank, Pos(1, 0)) == Register(R);
    assert Tree(prog, rank, Pos(2, 0)) == True;
    assert SubstPhis(prog, True, Pos(2, 0), 1) == True;
  }

  /** The load has returned 0, all else is 1. */
  function SpinEnv(): Env { (v: Value) => if v == X then 0 else 1 }

  lemma SpinGoes(p: Pos, q: Pos)
    requires (p == Pos(0, 0) && q == Pos(1, 0)) || (q == p.Next() && p.block == 1 && p.index < 3)
    ensures Spin().In(p) && Steps(Zeroes(), Spin(), p, SpinEnv(), q, SpinEnv())
  {
    SpinAt();
    SpinInsts();
    SpinIn(p);
    hide Spin;
  }

  lemma SpinReached()
    ensures Reachable(Zeroes(), Spin(), Pos(1, 3), SpinEnv())
  {
    hide Spin, Steps, SpinEnv, Zeroes;
    var s, prog, env := Zeroes(), Spin(), SpinEnv();
    var ps := [Pos(0, 0), Pos(1, 0), Pos(1, 1), Pos(1, 2), Pos(1, 3)];
    var ms := seq(5, i requires 0 <= i < 5 => Moment(ps[i], env));
    SpinIn(Pos(1, 3));
    forall i | 0 <= i < 4
      ensures prog.In(ms[i].p) && Steps(s, prog, ms[i].p, ms[i].env, ms[i + 1].p, ms[i + 1].env)
    {
      SpinGoes(ps[i], ps[i + 1]);
    }
    assert Execution(s, prog, ms);
  }

  /** The next round assumes what has been loaded. */
  lemma SpinBlocks()
    ensures Spin().Wf() && Blocks(Zeroes(), Spin(), Pos(1, 3), SpinEnv())
  {
    var prog, env := Spin(), SpinEnv();
    SpinAt();
    SpinInsts();
    SpinOnward();
    hide Spin;
    var env' := AtEntry(prog, 1, 0, 1, env);
    BlocksNext(Zeroes(), prog, Pos(1, 3), env);
    BlocksNext(Zeroes(), prog, Pos(1, 0), env');
    BlocksStop(Zeroes(), prog, Pos(1, 1), env');
    assert env'(R) == 0;
  }

  lemma SpinRanked()
    ensures Spin().Wf() && Region(Spin(), SpinRegion()) && Ranked(Spin(), SpinRegion(), SpinRank())
    ensures Pos(1, 3) in SpinRegion()
  {
    SpinAt();
    SpinOnward();
    hide Spin, Successors, Program.Wf;
  }

  lemma SpinEdge()
    ensures EdgeOk(Spin(), 1, 2)
  {
    hide Spin;
    SpinAt();
    NoneFrom(Spin(), Pos(2, 0));
  }

  /** The only edge of the region to another block. */
  lemma SpinLeaves(p: Pos, q: Pos)
    requires Spin().Wf() && p in SpinRegion() && q in Successors(Spin(), p) && p.block != q.block
    ensures p.block == 1 && q.block == 2
  {
    hide Spin, Successors;
    SpinOnward();
  }

  lemma SpinSupported()
    ensures Spin().Wf() && Supported(Spin(), SpinRegion())
  {
    hide Spin, Successors, Region, Ranked, EdgeOk, SpinRegion;
    SpinRanked();
    SpinAt();
    SpinEdge();
    forall p, q | p in SpinRegion() && q in Successors(Spin(), p) && p.block != q.block
      ensures p.block == 1 && q.block == 2
    {
      SpinLeaves(p, q);
    }
  }

  /** The annotation of the load is safe, but speaks of the r that is on its way out: it holds where execution gets to,
      and blocks. */
  method AnnotateSpin() returns (e: Expr)
    ensures Spin().Wf() && NoOther(Spin()) && Spin().In(Pos(1, 2)) && Spin().At(Pos(1, 2)).Load?
    ensures Region(Spin(), SpinRegion()) && Ranked(Spin(), SpinRegion(), SpinRank()) && Safe(Spin(), Pos(1, 3), e)
    ensures Reachable(Zeroes(), Spin(), Pos(1, 3), SpinEnv()) && Eval(Zeroes(), e, SpinEnv()) != 0
    ensures Blocks(Zeroes(), Spin(), Pos(1, 3), SpinEnv()) && !Exact(Spin(), Pos(1, 3), e)
  {
    hide Spin, SpinRegion, SpinRank, Region, Ranked, Tree, Safe, Sound, Supported, Steady, Blocks, Reachable;
    SpinAt();
    SpinInsts();
    SpinRanked();
    SpinSupported();
    SpinTree();
    SpinBlocks();
    SpinReached();
    var annotator := new InstAnnotator(Spin());
    e := annotator.Annotate(Pos(1, 2), SpinRegion(), SpinRank());
  }
}
