/** The load annotator: a memoised depth-first search that computes when the code after a load must block. */
module InstAnnotators {
  import opened Annotations

  /** Nothing beyond loads, side effects, assumes and errors, although the CFG goes on. */
  function Successors(prog: Program, p: Pos): (succs: seq<Pos>)
    requires prog.In(p)
    ensures |succs| <= 2
  {
    var i := prog.At(p);
    if i.Load? || i.Effect? || i.Assume? || i.Fail? then []
    else if prog.In(p.Next()) then [p.Next()]
    else if i.Goto? then [First(i.target)]
    else if i.Branch? then [First(i.yes), First(i.no)]
    else []
  }

  function Positions(prog: Program): set<Pos> {
    set b, i | 0 <= b < |prog.blocks| && 0 <= i < |prog.blocks[b]| :: Pos(b, i)
  }

  lemma PositionsIn(prog: Program, p: Pos)
    ensures p in Positions(prog) <==> prog.In(p)
  {}

  // ----- what an annotation means -----

  /** Whenever execution has come to p and e evaluates to false, it blocks. */
  ghost predicate Safe(prog: Program, p: Pos, e: Expr)
    requires prog.Wf()
  {
    forall s, env :: Arrives(s, prog, p, env) && Eval(s, e, env) == 0 ==> Blocks(s, prog, p, env)
  }

  /** If e evaluates to false, execution from p blocks, even from where it cannot have come to p. */
  ghost predicate Sound(prog: Program, p: Pos, e: Expr)
    requires prog.Wf()
  {
    forall s, env :: Eval(s, e, env) == 0 ==> Blocks(s, prog, p, env)
  }

  ghost predicate Exact(prog: Program, p: Pos, e: Expr)
    requires prog.Wf()
  {
    forall s, env :: Eval(s, e, env) == 0 <==> Blocks(s, prog, p, env)
  }

  /** The region is closed under successors. */
  ghost predicate Region(prog: Program, region: set<Pos>) {
    && (forall p :: p in region ==> prog.In(p))
    && (forall p, q :: p in region && q in Successors(prog, p) ==> q in region)
  }

  /** And has expressions for all its instructions, and no edge overtakes phis. */
  ghost predicate Supported(prog: Program, region: set<Pos>)
    requires prog.Wf()
  {
    && Region(prog, region)
    && (forall p :: p in region ==> !prog.At(p).Other?)
    && (forall p, q :: p in region && q in Successors(prog, p) && prog.At(p).IsBranch() && p.block != q.block ==>
           EdgeOk(prog, p.block, q.block))
  }

  /** Blocks of the region that branch to themselves keep their phis. */
  ghost predicate Steady(prog: Program, region: set<Pos>)
    requires Region(prog, region)
  {
    forall p, q :: p in region && q in Successors(prog, p) && prog.At(p).IsBranch() && p.block == q.block ==>
                     EdgeOk(prog, p.block, q.block)
  }

  /** Ranks decrease along the region: it has no cycle. */
  ghost predicate Ranked(prog: Program, region: set<Pos>, rank: map<Pos, nat>) {
    && (forall p :: p in region ==> prog.In(p) && p in rank)
    && (forall p, q :: p in region && q in Successors(prog, p) && q in region ==> rank[q] < rank[p])
  }

  // ----- one instruction -----

  predicate Stops(i: Inst) { i.Load? || i.Effect? || i.Assume? || i.Fail? || i.End? }

  /** The successor execution takes. */
  function Taken(prog: Program, p: Pos, env: Env): Pos
    requires prog.In(p)
  {
    match prog.At(p)
    case Goto(b) => First(b)
    case Branch(c, yes, no) => First(if env(c) != 0 then yes else no)
    case _ => p.Next()
  }

  ghost function After(s: Semantics, prog: Program, p: Pos, succ: Pos, env: Env): Env
    requires prog.In(p)
  {
    if prog.At(p).IsBranch() then AtEntry(prog, succ.block, 0, p.block, env)
    else if prog.At(p).Phi? then env
    else Updated(env, Result(p), InstVal(s, p, prog.At(p), env))
  }

  /** Execution blocks from p exactly if it does from where it goes next. */
  lemma BlocksNext(s: Semantics, prog: Program, p: Pos, env: Env)
    requires prog.Wf() && prog.In(p) && !Stops(prog.At(p))
    ensures var q := Taken(prog, p, env); Blocks(s, prog, p, env) <==> Blocks(s, prog, q, After(s, prog, p, q, env))
  {
    var q := Taken(prog, p, env);
    var env' := After(s, prog, p, q, env);
    if n: nat :| Run(s, prog, p, env, n) == Blocked {
      assert Run(s, prog, q, env', n - 1) == Blocked;
    }
    if n: nat :| Run(s, prog, q, env', n) == Blocked {
      assert Run(s, prog, p, env, n + 1) == Blocked;
    }
  }

  lemma BlocksStop(s: Semantics, prog: Program, p: Pos, env: Env)
    requires prog.Wf() && prog.In(p) && Stops(prog.At(p))
    ensures Blocks(s, prog, p, env) <==> prog.At(p).Assume? && Val(prog.At(p).c, env) == 0
  {
    if prog.At(p).Assume? && Val(prog.At(p).c, env) == 0 {
      assert Run(s, prog, p, env, 1) == Blocked;
    }
  }

  /** Propagating an expression backwards is evaluating it after the instruction. */
  lemma PropagateExact(s: Semantics, prog: Program, e: Expr, p: Pos, q: Pos, env: Env)
    requires prog.Wf() && prog.In(p) && q in Successors(prog, p) && !prog.At(p).Other?
    requires prog.At(p).IsBranch() ==> EdgeOk(prog, p.block, q.block)
    ensures Eval(s, Propagate(prog, e, p, q), env) == Eval(s, e, After(s, prog, p, q, env))
  {
    var i := prog.At(p);
    if i.IsBranch() {
      OkEdgeExact(s, prog, e, p.block, q.block, env);
    } else if !i.Phi? {
      SubstEval(s, e, Result(p), InstExpr(i), env);
      EvalAgrees(s, e, Updated(env, Result(p), Eval(s, InstExpr(i), env)), After(s, prog, p, q, env));
    }
  }

  /** The annotation of p, given annotations of its successors. */
  function Annotation(prog: Program, p: Pos, annot: map<Pos, Expr>): Expr
    requires prog.In(p) && forall q :: q in Successors(prog, p) ==> q in annot
  {
    var succs := Successors(prog, p);
    if succs == [] then
      if prog.At(p).Assume? then OperandExpr(prog.At(p).c) else True
    else if |succs| == 2 then
      SelectExpr(Register(prog.At(p).cond),
                 Propagate(prog, annot[succs[0]], p, succs[0]), Propagate(prog, annot[succs[1]], p, succs[1]))
    else Propagate(prog, annot[succs[0]], p, succs[0])
  }

  /** Its value is what is propagated from the successor taken. */
  lemma AnnotationTaken(s: Semantics, prog: Program, p: Pos, annot: map<Pos, Expr>, env: Env)
    requires prog.Wf() && prog.In(p) && !Stops(prog.At(p)) && forall q :: q in Successors(prog, p) ==> q in annot
    ensures var q := Taken(prog, p, env);
            && q in Successors(prog, p)
            && Eval(s, Annotation(prog, p, annot), env) == Eval(s, Propagate(prog, annot[q], p, q), env)
  {
    assert Taken(prog, p, env) in Successors(prog, p);
    hide Propagate;
  }

  /** If the edge is ok, that is the value of its annotation. */
  lemma AnnotationEval(s: Semantics, prog: Program, p: Pos, annot: map<Pos, Expr>, env: Env)
    requires prog.Wf() && prog.In(p) && !Stops(prog.At(p)) && !prog.At(p).Other?
    requires forall q :: q in Successors(prog, p) ==> q in annot
    requires prog.At(p).IsBranch() ==> EdgeOk(prog, p.block, Taken(prog, p, env).block)
    ensures var q := Taken(prog, p, env);
            && q in Successors(prog, p)
            && Eval(s, Annotation(prog, p, annot), env) == Eval(s, annot[q], After(s, prog, p, q, env))
  {
    hide Annotation, Propagate, Successors, After, EdgeOk;
    AnnotationTaken(s, prog, p, annot, env);
    PropagateExact(s, prog, annot[Taken(prog, p, env)], p, Taken(prog, p, env), env);
  }

  /** Annotations of successors that are sound, or exact, make one that is. */
  lemma AnnotationRight(prog: Program, region: set<Pos>, p: Pos, annot: map<Pos, Expr>, exact: bool)
    requires prog.Wf() && Supported(prog, region) && Steady(prog, region) && p in region
    requires forall q :: q in Successors(prog, p) ==>
                           q in annot && if exact then Exact(prog, q, annot[q]) else Sound(prog, q, annot[q])
    ensures var e := Annotation(prog, p, annot); if exact then Exact(prog, p, e) else Sound(prog, p, e)
  {
    var e := Annotation(prog, p, annot);
    forall s, env ensures Eval(s, e, env) == 0 ==> Blocks(s, prog, p, env)
                  ensures exact && Blocks(s, prog, p, env) ==> Eval(s, e, env) == 0
    {
      if Stops(prog.At(p)) {
        BlocksStop(s, prog, p, env);
        assert Successors(prog, p) == [];
      } else {
        TakenNext(prog, p, env);
        AnnotationEval(s, prog, p, annot, env);
        BlocksNext(s, prog, p, env);
      }
    }
  }

  lemma TakenNext(prog: Program, p: Pos, env: Env)
    requires prog.Wf() && prog.In(p) && !Stops(prog.At(p))
    ensures Taken(prog, p, env) in Successors(prog, p) && (prog.At(p).IsBranch() || Taken(prog, p, env) == p.Next())
  {}

  // ----- blocks that branch to themselves -----

  function Last(prog: Program, block: nat): Pos
    requires block < |prog.blocks| && |prog.blocks[block]| > 0
  {
    Pos(block, |prog.blocks[block]| - 1)
  }

  /** The search cannot get from p to the end of its block. */
  ghost predicate StopsAhead(prog: Program, p: Pos) {
    p.block < |prog.blocks| &&
    exists i :: p.index <= i < |prog.blocks[p.block]| - 1 && Stops(prog.blocks[p.block][i])
  }

  ghost predicate StopsBefore(prog: Program, p: Pos) {
    p.block < |prog.blocks| &&
    exists i :: 0 <= i < p.index && i < |prog.blocks[p.block]| && Stops(prog.blocks[p.block][i])
  }

  /** Once execution is at the end of p's block e holds. */
  ghost predicate Passes(prog: Program, p: Pos, e: Expr)
    requires prog.Wf()
  {
    p.block < |prog.blocks| ==>
      forall s, env :: Arrives(s, prog, Last(prog, p.block), env) ==> Eval(s, e, env) != 0
  }

  /** What the block has assumed on the way to its end is what the search finds ahead of p. */
  lemma AnnotationPasses(prog: Program, p: Pos, annot: map<Pos, Expr>)
    requires prog.Wf() && prog.In(p) && StopsAhead(prog, p) && !prog.At(p).Other?
    requires forall q :: q in Successors(prog, p) ==> q in annot
    requires !Stops(prog.At(p)) ==> p.Next() in annot && Passes(prog, p.Next(), annot[p.Next()])
    ensures Passes(prog, p, Annotation(prog, p, annot))
  {
    NotLast(prog, p);
    var e, last := Annotation(prog, p, annot), Last(prog, p.block);
    forall s, env | Arrives(s, prog, last, env) ensures Eval(s, e, env) != 0 {
      hide Arrives, Passes;
      ArrivalAgrees(s, prog, p, last, env);
      if Stops(prog.At(p)) {
        StopHolds(s, prog, p, annot, env);
      } else {
        PassesAt(s, prog, p.Next(), annot[p.Next()], env);
        NextHolds(s, prog, p, annot, env);
      }
    }
  }

  lemma NotLast(prog: Program, p: Pos)
    requires prog.Wf() && prog.In(p) && StopsAhead(prog, p)
    ensures p.index < Last(prog, p.block).index && prog.In(p.Next()) && prog.In(Last(prog, p.block))
    ensures !prog.At(p).IsTerminator()
  {}

  lemma PassesAt(s: Semantics, prog: Program, p: Pos, e: Expr, env: Env)
    requires prog.Wf() && p.block < |prog.blocks| && Passes(prog, p, e) && Arrives(s, prog, Last(prog, p.block), env)
    ensures Eval(s, e, env) != 0
  {}

  lemma StopHolds(s: Semantics, prog: Program, p: Pos, annot: map<Pos, Expr>, env: Env)
    requires prog.Wf() && prog.In(p) && Stops(prog.At(p)) && Agrees(s, prog, p, env)
    requires forall q :: q in Successors(prog, p) ==> q in annot
    ensures prog.At(p).End? || Eval(s, Annotation(prog, p, annot), env) != 0
  {}

  lemma NextHolds(s: Semantics, prog: Program, p: Pos, annot: map<Pos, Expr>, env: Env)
    requires prog.Wf() && prog.In(p) && prog.In(p.Next()) && !Stops(prog.At(p)) && Agrees(s, prog, p, env)
    requires forall q :: q in Successors(prog, p) ==> q in annot
    requires !prog.At(p).Other? && p.Next() in annot && Eval(s, annot[p.Next()], env) != 0
    ensures Eval(s, Annotation(prog, p, annot), env) != 0
  {
    var i, e := prog.At(p), annot[p.Next()];
    assert Successors(prog, p) == [p.Next()];
    if !i.Phi? {
      SubstEval(s, e, Result(p), InstExpr(i), env);
      EvalAgrees(s, e, Updated(env, Result(p), Eval(s, InstExpr(i), env)), env);
    }
  }

  /** The search takes a block's edge to itself to be passed, or knows that what it finds has been assumed. */
  ghost predicate SelfEdges(prog: Program, p: Pos, annot: map<Pos, Expr>)
    requires prog.In(p)
  {
    forall q :: q in Successors(prog, p) && prog.At(p).IsBranch() && q.block == p.block ==>
                  q in annot && (annot[q] == True || StopsAhead(prog, q))
  }

  /** What is known of the annotation of a supported region's instruction. */
  ghost predicate Fits(prog: Program, region: set<Pos>, p: Pos, e: Expr)
    requires prog.Wf()
  {
    && Safe(prog, p, e) && (StopsAhead(prog, p) ==> Passes(prog, p, e))
    && (Region(prog, region) && Steady(prog, region) ==> Sound(prog, p, e))
  }

  /** Safe annotations of the successors make a safe one, whatever happens to the phis of blocks that branch to
      themselves. */
  lemma AnnotationSafe(prog: Program, region: set<Pos>, p: Pos, annot: map<Pos, Expr>)
    requires prog.Wf() && Supported(prog, region) && p in region
    requires forall q :: q in Successors(prog, p) ==>
                           q in annot && Safe(prog, q, annot[q]) && (StopsAhead(prog, q) ==> Passes(prog, q, annot[q]))
    requires SelfEdges(prog, p, annot)
    ensures Safe(prog, p, Annotation(prog, p, annot))
  {
    var e := Annotation(prog, p, annot);
    forall s, env | Arrives(s, prog, p, env) && Eval(s, e, env) == 0 ensures Blocks(s, prog, p, env) {
      hide Arrives, Safe, Passes;
      if Stops(prog.At(p)) {
        hide StopsAhead;
        BlocksStop(s, prog, p, env);
        assert Successors(prog, p) == [];
      } else {
        TakenNext(prog, p, env);
        var q := Taken(prog, p, env);
        if prog.At(p).IsBranch() && q.block == p.block {
          SelfEdgeHolds(s, prog, p, annot, env);
          assert false;
        } else {
          hide StopsAhead, SelfEdges, Annotation, Taken;
          AnnotationEval(s, prog, p, annot, env);
          ArrivesAfter(s, prog, p, env);
          SafeAt(s, prog, q, annot[q], After(s, prog, p, q, env));
          BlocksNext(s, prog, p, env);
        }
      }
    }
  }

  lemma SafeAt(s: Semantics, prog: Program, p: Pos, e: Expr, env: Env)
    requires prog.Wf() && Safe(prog, p, e) && Arrives(s, prog, p, env) && Eval(s, e, env) == 0
    ensures Blocks(s, prog, p, env)
  {}

  lemma ArrivesAfter(s: Semantics, prog: Program, p: Pos, env: Env)
    requires prog.Wf() && prog.In(p) && !Stops(prog.At(p)) && Arrives(s, prog, p, env)
    ensures var q := Taken(prog, p, env); Arrives(s, prog, q, After(s, prog, p, q, env))
  {
    var q := Taken(prog, p, env);
    assert Steps(s, prog, p, env, q, After(s, prog, p, q, env));
    hide Steps, After, Arrives;
    ArrivesNext(s, prog, p, env, q, After(s, prog, p, q, env));
  }

  lemma SelfEdgeHolds(s: Semantics, prog: Program, p: Pos, annot: map<Pos, Expr>, env: Env)
    requires prog.Wf() && prog.In(p) && prog.At(p).IsBranch() && Arrives(s, prog, p, env)
    requires Taken(prog, p, env).block == p.block
    requires forall q :: q in Successors(prog, p) ==> q in annot && (StopsAhead(prog, q) ==> Passes(prog, q, annot[q]))
    requires SelfEdges(prog, p, annot)
    ensures Eval(s, Annotation(prog, p, annot), env) != 0
  {
    var q := Taken(prog, p, env);
    assert p == Last(prog, p.block);
    TakenNext(prog, p, env);
    hide Arrives, Annotation, Successors, StopsAhead;
    AnnotationTaken(s, prog, p, annot, env);
    if annot[q] != True { PassesAt(s, prog, q, annot[q], env); }
  }

  lemma AnnotationFits(prog: Program, region: set<Pos>, p: Pos, annot: map<Pos, Expr>)
    requires prog.Wf() && Supported(prog, region) && p in region
    requires forall q :: q in Successors(prog, p) ==> q in annot && Fits(prog, region, q, annot[q])
    requires SelfEdges(prog, p, annot)
    ensures Fits(prog, region, p, Annotation(prog, p, annot))
  {
    hide Safe, Passes, Sound, Annotation, Steady;
    AnnotationSafe(prog, region, p, annot);
    if StopsAhead(prog, p) {
      if !Stops(prog.At(p)) { AheadNext(prog, p); }
      AnnotationPasses(prog, p, annot);
    }
    if Region(prog, region) && Steady(prog, region) { AnnotationRight(prog, region, p, annot, false); }
  }

  lemma AheadNext(prog: Program, p: Pos)
    requires prog.Wf() && prog.In(p) && StopsAhead(prog, p) && !Stops(prog.At(p))
    ensures StopsAhead(prog, p.Next()) && Successors(prog, p) == [p.Next()]
  {
    NotLast(prog, p);
  }

  // ----- the annotation of an acyclic region -----

  /** The annotations computed backwards along decreasing ranks. */
  ghost function Tree(prog: Program, rank: map<Pos, nat>, p: Pos): Expr
    requires prog.In(p)
    decreases if p in rank then rank[p] else 0
  {
    Annotation(prog, p, map q | q in Successors(prog, p) ::
                          if p in rank && q in rank && rank[q] < rank[p] &&
                              prog.In(q) then Tree(prog, rank, q) else True)
  }

  lemma AnnotationTree(prog: Program, region: set<Pos>, rank: map<Pos, nat>, p: Pos, annot: map<Pos, Expr>)
    requires Region(prog, region) && Ranked(prog, region, rank) && p in region
    requires forall q :: q in Successors(prog, p) ==> q in annot && prog.In(q) && annot[q] == Tree(prog, rank, q)
    ensures Annotation(prog, p, annot) == Tree(prog, rank, p)
  {
    var trees := map q | q in Successors(prog, p) ::
                   if p in rank && q in rank && rank[q] < rank[p] && prog.In(q) then Tree(prog, rank, q) else True;
    forall q | q in Successors(prog, p) ensures trees[q] == annot[q] { assert q in region && rank[q] < rank[p]; }
    var succs := Successors(prog, p);
    assert succs != [] ==> succs[0] in succs;
    assert |succs| == 2 ==> succs[1] in succs;
    hide Propagate, Successors;
    assert Annotation(prog, p, trees) == Annotation(prog, p, annot);
  }

  /** If the region is supported they are exact. */
  lemma {:induction false} TreeExact(prog: Program, region: set<Pos>, rank: map<Pos, nat>, p: Pos)
    requires prog.Wf() && Supported(prog, region) && Steady(prog, region) && Ranked(prog, region, rank) && p in region
    ensures Exact(prog, p, Tree(prog, rank, p))
    decreases rank[p]
  {
    var annot := map q | q in Successors(prog, p) && prog.In(q) :: Tree(prog, rank, q);
    SuccessorsIn(prog, p);
    forall q | q in Successors(prog, p) ensures q in annot && Exact(prog, q, annot[q]) {
      assert q in region && rank[q] < rank[p];
      TreeExact(prog, region, rank, q);
    }
    hide Exact;
    AnnotationTree(prog, region, rank, p, annot);
    AnnotationRight(prog, region, p, annot, true);
  }

  // ----- the search -----

  datatype Status = Unseen | Entered | Left

  /** What is known of the region searched: that it has no cycle, and that it is supported. */
  datatype Mode = Mode(ranked: bool, supported: bool)

  class InstAnnotator {
    const prog: Program
    var statusMap: map<Pos, Status>
    var annotMap: map<Pos, Expr>

    constructor (p: Program)
      ensures prog == p
    {
      prog, statusMap, annotMap := p, map[], map[];
    }

    /** Every instruction has a status; those left have an annotation, those entered none but TRUE, the others none. */
    ghost predicate Valid()
      reads this
    {
      && prog.Wf()
      && statusMap.Keys == Positions(prog)
      && (forall p :: p in statusMap && statusMap[p] == Left ==> p in annotMap)
      && (forall p :: p in annotMap ==> p in statusMap && (statusMap[p] == Left || EnteredTrue(p)))
    }

    ghost predicate EnteredTrue(p: Pos)
      requires p in statusMap && p in annotMap
      reads this
    {
      statusMap[p] == Entered && annotMap[p] == True
    }

    /** All annotations are right, be it that the region has ranks, or that it is supported. */
    ghost predicate RightIn(annots: map<Pos, Expr>, region: set<Pos>, rank: map<Pos, nat>, m: Mode)
      requires prog.Wf()
    {
      forall p :: p in annots ==>
                    p in region && prog.In(p) &&
                    (m.ranked ==> annots[p] == Tree(prog, rank, p)) &&
                        (m.supported ==> Fits(prog, region, p, annots[p]))
    }

    ghost predicate AllRight(region: set<Pos>, rank: map<Pos, nat>, m: Mode)
      requires prog.Wf()
      reads this`annotMap
    {
      RightIn(annotMap, region, rank, m)
    }

    /** The region is one the search is right on. */
    ghost predicate Good(region: set<Pos>, rank: map<Pos, nat>, m: Mode)
      requires prog.Wf()
    {
      && Region(prog, region)
      && (m.ranked ==> Ranked(prog, region, rank)) && (m.supported ==> Supported(prog, region))
    }

    /** The annotation of an instruction whose successors have theirs. */
    method SetAnnotation(curr: Pos, succs: seq<Pos>)
      requires prog.Wf() && prog.In(curr) && succs == Successors(prog, curr) && forall q :: q in succs ==> q in annotMap
      modifies this`annotMap
      ensures annotMap == old(annotMap)[curr := Annotation(prog, curr, old(annotMap))]
    {
      SuccessorsIn(prog, curr);
      var annot;
      if succs == [] {
        // nothing follows: what is assumed here, or no condition
        annot := if prog.At(curr).Assume? then OperandExpr(prog.At(curr).c) else True;
      } else if |succs| == 2 {
        annot := SelectExpr(Register(prog.At(curr).cond),
                            Propagate(prog, annotMap[succs[0]], curr, succs[0]),
                            Propagate(prog, annotMap[succs[1]], curr, succs[1]));
      } else {
        annot := Propagate(prog, annotMap[succs[0]], curr, succs[0]);
      }
      annotMap := annotMap[curr := annot];
    }

    /** The new annotation is as right as those of the successors. */
    lemma AnnotatedRight(curr: Pos, region: set<Pos>, rank: map<Pos, nat>, m: Mode)
      requires prog.Wf() && Good(region, rank, m) && curr in region && prog.In(curr) && AllRight(region, rank, m)
      requires forall q :: q in Successors(prog, curr) ==> q in annotMap
      requires m.supported ==> SelfEdges(prog, curr, annotMap)
      ensures var e := Annotation(prog, curr, annotMap);
              (m.ranked ==> e == Tree(prog, rank, curr)) && (m.supported ==> Fits(prog, region, curr, e))
    {
      hide Fits, Supported, Region, Ranked, Tree, Annotation, Successors, SelfEdges;
      if m.ranked { AnnotationTree(prog, region, rank, curr, annotMap); }
      if m.supported { AnnotationFits(prog, region, curr, annotMap); }
    }

    /** All successors of an instruction have been visited. */
    method Leave(curr: Pos, succs: seq<Pos>, ghost region: set<Pos>, ghost rank: map<Pos, nat>, ghost good: bool,
                 ghost m: Mode)
      requires Valid() && prog.In(curr) && curr in statusMap && statusMap[curr] == Entered
      requires succs == Successors(prog, curr) && forall q :: q in succs ==> q in annotMap
      requires good ==> Good(region, rank, m) && curr in region && AllRight(region, rank, m)
      requires FromStart(prog, statusMap, curr)
      modifies this
      ensures Valid() && statusMap == old(statusMap)[curr := Left]
      ensures annotMap == old(annotMap)[curr := Annotation(prog, curr, old(annotMap))]
      ensures good ==> AllRight(region, rank, m)
    {
      hide Good, Positions, Successors, FromStart, Annotation, Fits, Tree, RightIn;
      if good { VisitedRight(curr, region, rank, m); }
      ghost var annots := annotMap;
      statusMap := statusMap[curr := Left];
      SetAnnotation(curr, succs);
      if good { RightWith(curr, annots, region, rank, m); }
    }

    method AnnotateDFS(curr: Pos, ghost region: set<Pos>, ghost rank: map<Pos, nat>, ghost good: bool, ghost m: Mode)
      requires Valid() && curr in statusMap && statusMap[curr] == Unseen
      requires good ==> Good(region, rank, m) && curr in region && AllRight(region, rank, m)
      requires good && m.ranked ==> curr in rank && EnteredAbove(statusMap, rank, rank[curr])
      requires FromStart(prog, statusMap, curr)
      modifies this
      ensures Valid() && statusMap[curr] == Left && Progress(old(statusMap), statusMap)
      ensures old(annotMap).Keys <= annotMap.Keys
      ensures good ==> AllRight(region, rank, m)
      decreases UnseenIn(statusMap), 0
    {
      hide Good, RightIn, Progress, Positions, Successors, EnteredAbove, EnteredFrom, UnseenIn, FromStart, SelfEdges,
           Annotation, Fits;
      PositionsIn(prog, curr);
      ghost var s0 := statusMap;
      statusMap := statusMap[curr := Entered];
      ghost var s1 := statusMap;
      if good && m.ranked { EnteredAt(s0, rank, curr); }
      StillFromStart(prog, s0, s1, curr);
      EnterShrinks(s0, curr);
      ProgressRefl(s1);
      var succs := Successors(prog, curr);
      SuccessorsIn(prog, curr);
      var i := 0;
      while i < |succs|
        invariant 0 <= i <= |succs| && Valid() && Progress(s1, statusMap) && statusMap[curr] == Entered
        invariant UnseenIn(statusMap) < UnseenIn(s0)
        invariant old(annotMap).Keys <= annotMap.Keys
        invariant forall k :: 0 <= k < i ==> succs[k] in annotMap
        invariant good ==> AllRight(region, rank, m)
        invariant good && m.ranked ==> EnteredFrom(statusMap, rank, curr)
        invariant FromStart(prog, statusMap, curr)
      {
        ghost var s2 := statusMap;
        VisitSuccessor(curr, succs[i], region, rank, good, m);
        ProgressTrans(s1, s2, statusMap, curr);
        if good && m.ranked { EnteredStays(s2, statusMap, rank, curr); }
        FromStartStays(prog, s2, statusMap, curr);
        i := i + 1;
      }
      LeaveProgress(s0, curr, statusMap);
      Leave(curr, succs, region, rank, good, m);
    }

    /** Explores a successor not seen yet; one still being explored closes a cycle and counts as TRUE. */
    method VisitSuccessor(curr: Pos, succ: Pos, ghost region: set<Pos>, ghost rank: map<Pos, nat>, ghost good: bool,
                          ghost m: Mode)
      requires Valid() && prog.In(curr) && curr in statusMap && statusMap[curr] == Entered
      requires succ in Successors(prog, curr)
      requires good ==> Good(region, rank, m) && curr in region && AllRight(region, rank, m)
      requires good && m.ranked ==> EnteredFrom(statusMap, rank, curr)
      requires FromStart(prog, statusMap, curr)
      modifies this
      ensures Valid() && succ in annotMap && Progress(old(statusMap), statusMap)
      ensures old(annotMap).Keys <= annotMap.Keys
      ensures good ==> AllRight(region, rank, m)
      decreases UnseenIn(statusMap), 1
    {
      hide Positions, Successors, Fits, Good, Ranked, EnteredAbove, EnteredFrom, Progress, UnseenIn, FromStart, RightIn,
           Tree;
      PositionsIn(prog, curr);
      PositionsIn(prog, succ);
      SuccessorsIn(prog, curr);
      SuccessorFromStart(prog, statusMap, curr, succ);
      if good { GoodStep(curr, succ, region, rank, m); }
      ProgressRefl(statusMap);
      if statusMap[succ] == Unseen {
        AnnotateDFS(succ, region, rank, good, m);
      } else if statusMap[succ] == Entered {
        ghost var annots := annotMap;
        annotMap := annotMap[succ := True];
        if good { TrueRight(succ, annots, region, rank, m); }
      }
    }

    lemma GoodStep(curr: Pos, succ: Pos, region: set<Pos>, rank: map<Pos, nat>, m: Mode)
      requires prog.Wf() && prog.In(curr) && succ in Successors(prog, curr)
      requires Good(region, rank, m) && curr in region && (m.ranked ==> EnteredFrom(statusMap, rank, curr))
      ensures succ in region
      ensures m.ranked ==> succ in rank && EnteredAbove(statusMap, rank, rank[succ])
      ensures m.ranked && succ in statusMap ==> statusMap[succ] != Entered
    {
      hide Ranked, EnteredAbove, EnteredFrom, Successors, Supported;
      RegionStep(prog, region, curr, succ);
      if m.ranked {
        RankStep(prog, region, rank, curr, succ);
        EnteredBelow(statusMap, rank, curr, succ);
      }
    }

    lemma TrueRight(succ: Pos, annots: map<Pos, Expr>, region: set<Pos>, rank: map<Pos, nat>, m: Mode)
      requires prog.Wf() && prog.In(succ) && succ in region && !m.ranked
      requires RightIn(annots, region, rank, m) && annotMap == annots[succ := True]
      ensures AllRight(region, rank, m)
    {
      TrueFits(prog, region, succ);
      hide Fits, Tree;
    }

    /** The annotation of a load: where execution gets past the load and it evaluates to false, what follows blocks.
        Where blocks that branch to themselves keep their phis this holds in any environment. What the search returns
        on an acyclic region is determined, whether or not the region is supported. */
    method Annotate(curr: Pos, ghost region: set<Pos>, ghost rank: map<Pos, nat>) returns (e: Expr)
      requires prog.Wf() && prog.In(curr) && (prog.At(curr).Load? || prog.At(curr).Effect?) && prog.In(curr.Next())
      modifies this
      ensures Supported(prog, region) && curr.Next() in region ==> Safe(prog, curr.Next(), e)
      ensures Supported(prog, region) && Steady(prog, region) && curr.Next() in region ==>
                Sound(prog, curr.Next(), e) && (Ranked(prog, region, rank) ==> Exact(prog, curr.Next(), e))
      ensures Region(prog, region) && Ranked(prog, region, rank) && curr.Next() in region ==>
                e == Tree(prog, rank, curr.Next())
    {
      hide Safe, Passes, Sound, Exact, Tree, EnteredAbove, Successors, Ranked, Steady, FromStart, Positions;
      annotMap := map[];
      PositionsIn(prog, curr.Next());
      statusMap := map p | p in Positions(prog) :: Unseen;
      ghost var good := Region(prog, region) && curr.Next() in region;
      ghost var m := Mode(Ranked(prog, region, rank), good && Supported(prog, region));
      if good && m.ranked { RanksAll(prog, region, rank, curr.Next()); }
      NoneEntered(statusMap, rank);
      PastLoad(prog, statusMap, curr);
      hide Region, Supported;
      AnnotateDFS(curr.Next(), region, rank, good, m);
      e := annotMap[curr.Next()];
      if good && m.ranked && m.supported && Steady(prog, region) { TreeExact(prog, region, rank, curr.Next()); }
    }

    /** Whatever is ahead of an instruction all of whose successors have been visited, they are annotated right. */
    lemma VisitedRight(curr: Pos, region: set<Pos>, rank: map<Pos, nat>, m: Mode)
      requires Valid() && prog.In(curr) && curr in statusMap && statusMap[curr] == Entered
      requires Good(region, rank, m) && curr in region && AllRight(region, rank, m)
      requires forall q :: q in Successors(prog, curr) ==> q in annotMap
      requires FromStart(prog, statusMap, curr)
      ensures var e := Annotation(prog, curr, annotMap);
              (m.ranked ==> e == Tree(prog, rank, curr)) && (m.supported ==> Fits(prog, region, curr, e))
    {
      hide Good, AllRight, Fits, Tree, Annotation;
      forall q | q in Successors(prog, curr) && prog.At(curr).IsBranch() && q.block == curr.block
        ensures q in annotMap && (annotMap[q] == True || StopsAhead(prog, q))
      {
        SelfEdgeStart(prog, statusMap, curr, q);
      }
      AnnotatedRight(curr, region, rank, m);
    }

    lemma RightWith(curr: Pos, annots: map<Pos, Expr>, region: set<Pos>, rank: map<Pos, nat>, m: Mode)
      requires prog.Wf() && curr in region && prog.In(curr)
      requires forall q :: q in Successors(prog, curr) ==> q in annots
      requires annotMap == annots[curr := Annotation(prog, curr, annots)]
      requires RightIn(annots, region, rank, m)
      requires var e := Annotation(prog, curr, annots);
               (m.ranked ==> e == Tree(prog, rank, curr)) && (m.supported ==> Fits(prog, region, curr, e))
      ensures AllRight(region, rank, m)
    {
      hide Fits, Tree, Annotation;
    }
  }

  /** The blocks of the instructions being explored were entered at their starts, but for the one of the load. */
  ghost predicate FromStart(prog: Program, status: map<Pos, Status>, curr: Pos) {
    StopsBefore(prog, curr) ||
    forall i :: 0 <= i < curr.index ==> Pos(curr.block, i) in status && status[Pos(curr.block, i)] == Entered
  }

  lemma StillFromStart(prog: Program, s: map<Pos, Status>, s': map<Pos, Status>, curr: Pos)
    requires FromStart(prog, s, curr) && s' == s[curr := Entered]
    ensures FromStart(prog, s', curr)
  {}

  lemma FromStartStays(prog: Program, s: map<Pos, Status>, s': map<Pos, Status>, curr: Pos)
    requires FromStart(prog, s, curr) && Progress(s, s')
    ensures FromStart(prog, s', curr)
  {}

  lemma SuccessorFromStart(prog: Program, s: map<Pos, Status>, curr: Pos, succ: Pos)
    requires prog.In(curr) && FromStart(prog, s, curr) && curr in s && s[curr] == Entered
    requires succ in Successors(prog, curr)
    ensures FromStart(prog, s, succ)
  {
    if succ == curr.Next() && !StopsBefore(prog, curr) {
      forall i | 0 <= i < succ.index ensures Pos(succ.block, i) in s && s[Pos(succ.block, i)] == Entered {
        if i == curr.index { assert Pos(succ.block, i) == curr; }
      }
    }
  }

  lemma PastLoad(prog: Program, s: map<Pos, Status>, load: Pos)
    requires prog.In(load) && (prog.At(load).Load? || prog.At(load).Effect?)
    ensures FromStart(prog, s, load.Next())
  {
    assert Stops(prog.blocks[load.block][load.index]);
  }

  /** A block the search has come all the way through is still being explored when it branches to itself. */
  lemma SelfEdgeStart(prog: Program, s: map<Pos, Status>, curr: Pos, q: Pos)
    requires prog.Wf() && prog.In(curr) && FromStart(prog, s, curr) && curr in s && s[curr] == Entered
    requires q in Successors(prog, curr) && prog.At(curr).IsBranch() && q.block == curr.block
    ensures (q in s && s[q] == Entered) || StopsAhead(prog, q)
  {
    assert q == First(curr.block) && curr == Last(prog, curr.block);
    if StopsBefore(prog, curr) {
      assert StopsAhead(prog, q);
    } else if curr.index > 0 {
      assert Pos(curr.block, 0) == q;
    } else {
      assert curr == q;
    }
  }

  lemma TrueFits(prog: Program, region: set<Pos>, p: Pos)
    requires prog.Wf()
    ensures Fits(prog, region, p, True)
  {}

  lemma RanksAll(prog: Program, region: set<Pos>, rank: map<Pos, nat>, p: Pos)
    requires Ranked(prog, region, rank) && p in region
    ensures p in rank
  {}

  lemma NoneEntered(status: map<Pos, Status>, rank: map<Pos, nat>)
    requires forall p :: p in status ==> status[p] == Unseen
    ensures forall r :: EnteredAbove(status, rank, r)
  {}

  /** Instructions entered lie above rank r. */
  ghost predicate EnteredAbove(status: map<Pos, Status>, rank: map<Pos, nat>, r: nat) {
    forall p :: p in status && status[p] == Entered ==> p in rank && rank[p] > r
  }

  /** Instructions entered other than curr lie above it. */
  ghost predicate EnteredFrom(status: map<Pos, Status>, rank: map<Pos, nat>, curr: Pos) {
    curr in rank && forall p :: p in status && status[p] == Entered && p != curr ==> p in rank && rank[p] > rank[curr]
  }

  lemma EnteredAt(s: map<Pos, Status>, rank: map<Pos, nat>, curr: Pos)
    requires curr in rank && EnteredAbove(s, rank, rank[curr])
    ensures EnteredFrom(s[curr := Entered], rank, curr)
  {}

  lemma EnteredStays(s: map<Pos, Status>, s': map<Pos, Status>, rank: map<Pos, nat>, curr: Pos)
    requires Progress(s, s') && EnteredFrom(s, rank, curr)
    ensures EnteredFrom(s', rank, curr)
  {}

  lemma EnteredBelow(s: map<Pos, Status>, rank: map<Pos, nat>, curr: Pos, succ: Pos)
    requires EnteredFrom(s, rank, curr) && succ in rank && rank[succ] < rank[curr]
    ensures EnteredAbove(s, rank, rank[succ]) && (succ in s ==> s[succ] != Entered)
  {}

  ghost function UnseenIn(status: map<Pos, Status>): set<Pos> {
    set p | p in status && status[p] == Unseen
  }

  /** A visit leaves what it enters, and touches nothing entered or left before. */
  ghost predicate Progress(was: map<Pos, Status>, now: map<Pos, Status>) {
    && was.Keys == now.Keys
    && (forall p :: p in was && was[p] != Unseen ==> now[p] == was[p])
    && (forall p :: p in now && now[p] == Entered ==> was[p] == Entered)
  }

  lemma ProgressRefl(s: map<Pos, Status>)
    ensures Progress(s, s)
  {}

  lemma ProgressTrans(s1: map<Pos, Status>, s2: map<Pos, Status>, s3: map<Pos, Status>, curr: Pos)
    requires Progress(s1, s2) && Progress(s2, s3) && curr in s1 && s1[curr] != Unseen
    ensures Progress(s1, s3) && UnseenIn(s3) <= UnseenIn(s2) && s3[curr] == s1[curr]
  {}

  lemma EnterShrinks(s: map<Pos, Status>, curr: Pos)
    requires curr in s && s[curr] == Unseen
    ensures UnseenIn(s[curr := Entered]) < UnseenIn(s)
  {
    assert curr in UnseenIn(s) && curr !in UnseenIn(s[curr := Entered]);
  }

  lemma LeaveProgress(s: map<Pos, Status>, curr: Pos, s': map<Pos, Status>)
    requires curr in s && s[curr] == Unseen && Progress(s[curr := Entered], s')
    ensures Progress(s, s'[curr := Left])
  {}

  lemma SuccessorsIn(prog: Program, p: Pos)
    requires prog.Wf() && prog.In(p)
    ensures forall q :: q in Successors(prog, p) ==> prog.In(q)
    ensures |Successors(prog, p)| == 2 ==> prog.At(p).Branch?
  {}

  lemma RegionStep(prog: Program, region: set<Pos>, p: Pos, q: Pos)
    requires Region(prog, region) && p in region && prog.In(p) && q in Successors(prog, p)
    ensures q in region
  {}

  lemma RankStep(prog: Program, region: set<Pos>, rank: map<Pos, nat>, p: Pos, q: Pos)
    requires prog.In(p) && Ranked(prog, region, rank) && p in region && q in Successors(prog, p) && q in region
    ensures p in rank && q in rank && rank[q] < rank[p]
  {}
}
