/** Symbolic expressions over SSA values, and what propagating them backwards through an instruction means. */
module Annotations {

  // ----- programs -----

  /** An instruction's position, which also names its result. */
  datatype Pos = Pos(block: nat, index: nat) {
    function Next(): Pos { Pos(block, index + 1) }
  }

  datatype Value = Result(pos: Pos) | Argument(n: nat)

  datatype Operand = Const(v: int) | Use(value: Value)

  datatype UnaryOp = ZExt(width: nat) | SExt(width: nat) | Trunc(width: nat)

  datatype BinaryOp =
    | Add | Sub | Mul | UDiv | SDiv | URem | And | Or | Xor | Shl | LShr | AShr
    | Eq | Ne | Ugt | Uge | Ult | Ule | Sgt | Sge | Slt | Sle

  /** Other stands for every opcode no expression is generated for, End for terminators that are not branches. */
  datatype Inst =
    | Phi(incoming: map<nat, Operand>)
    | Unary(uop: UnaryOp, a: Operand)
    | Binary(bop: BinaryOp, a: Operand, b: Operand)
    | Choose(c: Operand, a: Operand, b: Operand)
    | Copy(a: Operand)
    | Other
    | Goto(target: nat)
    | Branch(cond: Value, yes: nat, no: nat)
    | Load
    | Effect
    | Assume(c: Operand)
    | Fail
    | End
  {
    predicate IsBranch() { Goto? || Branch? }

    predicate IsTerminator() { Goto? || Branch? || End? }

    /** The operand a phi takes from a predecessor; IR has one for each predecessor. */
    function From(block: nat): Operand
      requires Phi?
    {
      if block in incoming then incoming[block] else Const(0)
    }
  }

  /** What an instruction other than a phi computes with. */
  predicate Uses(i: Inst, v: Value) {
    match i
    case Unary(_, a) => a == Use(v)
    case Binary(_, a, b) => a == Use(v) || b == Use(v)
    case Choose(c, a, b) => c == Use(v) || a == Use(v) || b == Use(v)
    case Copy(a) => a == Use(v)
    case Assume(c) => c == Use(v)
    case Branch(c, _, _) => c == v
    case _ => false
  }

  datatype Program = Program(blocks: seq<seq<Inst>>) {
    predicate In(p: Pos) { p.block < |blocks| && p.index < |blocks[p.block]| }

    function At(p: Pos): Inst
      requires In(p)
    {
      blocks[p.block][p.index]
    }

    predicate IsPhi(p: Pos) { In(p) && At(p).Phi? }

    /** Blocks end in their only terminator, branches lead to blocks, and within a block definitions precede uses. */
    ghost predicate Wf() {
      && (forall b :: 0 <= b < |blocks| ==> |blocks[b]| > 0)
      && (forall p :: In(p) ==> (At(p).IsTerminator() <==> p.index == |blocks[p.block]| - 1))
      && (forall p :: In(p) && At(p).Goto? ==> At(p).target < |blocks|)
      && (forall p :: In(p) && At(p).Branch? ==> At(p).yes < |blocks| && At(p).no < |blocks|)
      && (forall p, q: Pos :: In(p) && Uses(At(p), Result(q)) && q.block == p.block ==> q.index < p.index)
    }

    /** p is one of the phis its block begins with. */
    ghost predicate Leading(p: Pos) {
      IsPhi(p) && forall i :: 0 <= i < p.index ==> IsPhi(Pos(p.block, i))
    }
  }

  function First(block: nat): Pos { Pos(block, 0) }

  // ----- expressions -----

  datatype Expr =
    | Concrete(v: int)
    | Register(value: Value)
    | UnaryExpr(uop: UnaryOp, a: Expr)
    | BinaryExpr(bop: BinaryOp, a: Expr, b: Expr)
    | SelectExpr(c: Expr, a: Expr, b: Expr)

  const True: Expr := Concrete(1)

  type Env = Value -> int

  /** What the operators compute; `other` is whatever instructions without an expression produce. */
  datatype Semantics = Semantics(unary: (UnaryOp, int) -> int, binary: (BinaryOp, int, int) -> int,
      other: (Pos, Env) -> int)

  function Eval(s: Semantics, e: Expr, env: Env): int {
    match e
    case Concrete(v) => v
    case Register(r) => env(r)
    case UnaryExpr(op, a) => s.unary(op, Eval(s, a, env))
    case BinaryExpr(op, a, b) => s.binary(op, Eval(s, a, env), Eval(s, b, env))
    case SelectExpr(c, a, b) => if Eval(s, c, env) != 0 then Eval(s, a, env) else Eval(s, b, env)
  }

  function Subst(e: Expr, reg: Value, repl: Expr): Expr {
    match e
    case Concrete(_) => e
    case Register(r) => if r == reg then repl else e
    case UnaryExpr(op, a) => UnaryExpr(op, Subst(a, reg, repl))
    case BinaryExpr(op, a, b) => BinaryExpr(op, Subst(a, reg, repl), Subst(b, reg, repl))
    case SelectExpr(c, a, b) => SelectExpr(Subst(c, reg, repl), Subst(a, reg, repl), Subst(b, reg, repl))
  }

  function Updated(env: Env, reg: Value, v: int): Env {
    (r: Value) => if r == reg then v else env(r)
  }

  /** Substituting is evaluating in an updated environment. */
  lemma {:induction false} SubstEval(s: Semantics, e: Expr, reg: Value, repl: Expr, env: Env)
    ensures Eval(s, Subst(e, reg, repl), env) == Eval(s, e, Updated(env, reg, Eval(s, repl, env)))
  {
    match e
    case Concrete(_) =>
    case Register(_) =>
    case UnaryExpr(_, a) => SubstEval(s, a, reg, repl, env);
    case BinaryExpr(_, a, b) => SubstEval(s, a, reg, repl, env); SubstEval(s, b, reg, repl, env);
    case SelectExpr(c, a, b) =>
      SubstEval(s, c, reg, repl, env); SubstEval(s, a, reg, repl, env); SubstEval(s, b, reg, repl, env);
  }

  lemma {:induction false} EvalAgrees(s: Semantics, e: Expr, env: Env, env': Env)
    requires forall r :: env(r) == env'(r)
    ensures Eval(s, e, env) == Eval(s, e, env')
  {
    match e
    case Concrete(_) =>
    case Register(_) =>
    case UnaryExpr(_, a) => EvalAgrees(s, a, env, env');
    case BinaryExpr(_, a, b) => EvalAgrees(s, a, env, env'); EvalAgrees(s, b, env, env');
    case SelectExpr(c, a, b) => EvalAgrees(s, c, env, env'); EvalAgrees(s, a, env, env'); EvalAgrees(s, b, env, env');
  }

  function OperandExpr(o: Operand): Expr {
    match o
    case Const(v) => Concrete(v)
    case Use(r) => Register(r)
  }

  function Val(o: Operand, env: Env): int {
    match o
    case Const(v) => v
    case Use(r) => env(r)
  }

  /** Opcodes it does not know become TRUE. */
  function InstExpr(i: Inst): Expr {
    match i
    case Unary(op, a) => UnaryExpr(op, OperandExpr(a))
    case Binary(op, a, b) => BinaryExpr(op, OperandExpr(a), OperandExpr(b))
    case Choose(c, a, b) => SelectExpr(OperandExpr(c), OperandExpr(a), OperandExpr(b))
    case Copy(a) => OperandExpr(a)
    case _ => True
  }

  // ----- execution -----

  function InstVal(s: Semantics, p: Pos, i: Inst, env: Env): int {
    match i
    case Unary(op, a) => s.unary(op, Val(a, env))
    case Binary(op, a, b) => s.binary(op, Val(a, env), Val(b, env))
    case Choose(c, a, b) => if Val(c, env) != 0 then Val(a, env) else Val(b, env)
    case Copy(a) => Val(a, env)
    case _ => s.other(p, env)
  }

  /** Entering a block: its phis from index i on take their values all at once. */
  ghost function AtEntry(prog: Program, to: nat, i: nat, from: nat, env: Env): Env {
    (r: Value) =>
      if r.Result? && r.pos.block == to && r.pos.index >= i && prog.Leading(r.pos)
      then Val(prog.At(r.pos).From(from), env) else env(r)
  }

  datatype Outcome = Blocked | Passed | Running

  /** At most n instructions from p on, up to the first load, side effect, assume, error or end. */
  ghost function Run(s: Semantics, prog: Program, p: Pos, env: Env, n: nat): Outcome
    requires prog.Wf()
    decreases n
  {
    if n == 0 || !prog.In(p) then Running
    else
      match prog.At(p)
      case Assume(c) => if Val(c, env) == 0 then Blocked else Passed
      case Load => Passed
      case Effect => Passed
      case Fail => Passed
      case End => Passed
      case Goto(b) => Run(s, prog, First(b), AtEntry(prog, b, 0, p.block, env), n - 1)
      case Branch(c, yes, no) =>
        var b := if env(c) != 0 then yes else no;
        Run(s, prog, First(b), AtEntry(prog, b, 0, p.block, env), n - 1)
      case Phi(_) => Run(s, prog, p.Next(), env, n - 1)
      case i => Run(s, prog, p.Next(), Updated(env, Result(p), InstVal(s, p, i, env)), n - 1)
  }

  /** Execution from p reaches an assume that fails, and no load, side effect, assume or error before it. */
  ghost predicate Blocks(s: Semantics, prog: Program, p: Pos, env: Env)
    requires prog.Wf()
  {
    exists n: nat :: Run(s, prog, p, env, n) == Blocked
  }

  // ----- the environments in which execution arrives somewhere -----

  /** One instruction. Loads and side effects return anything, and assumes that fail and errors go nowhere. */
  ghost predicate Steps(s: Semantics, prog: Program, p: Pos, env: Env, q: Pos, env': Env)
    requires prog.In(p)
  {
    match prog.At(p)
    case Goto(b) => q == First(b) && Same(env', AtEntry(prog, b, 0, p.block, env))
    case Branch(c, yes, no) =>
      var b := if env(c) != 0 then yes else no;
      q == First(b) && Same(env', AtEntry(prog, b, 0, p.block, env))
    case Phi(_) => q == p.Next() && Same(env', env)
    case Assume(c) => Val(c, env) != 0 && q == p.Next() && Same(env', env)
    case Load => q == p.Next() && forall r :: r != Result(p) ==> env'(r) == env(r)
    case Effect => q == p.Next() && forall r :: r != Result(p) ==> env'(r) == env(r)
    case Fail => false
    case End => false
    case i => q == p.Next() && Same(env', Updated(env, Result(p), InstVal(s, p, i, env)))
  }

  ghost predicate Same(env: Env, env': Env) { forall r :: env(r) == env'(r) }

  datatype Moment = Moment(p: Pos, env: Env)

  /** An execution of the program from its first instruction on. */
  ghost predicate Execution(s: Semantics, prog: Program, ms: seq<Moment>) {
    && |ms| > 0 && ms[0].p == First(0)
    && (forall i :: 0 <= i < |ms| ==> prog.In(ms[i].p))
    && (forall i :: 0 <= i < |ms| - 1 ==> Steps(s, prog, ms[i].p, ms[i].env, ms[i + 1].p, ms[i + 1].env))
  }

  /** Some execution gets to p with this environment. */
  ghost predicate Reachable(s: Semantics, prog: Program, p: Pos, env: Env) {
    exists ms :: Execution(s, prog, ms) && ms[|ms| - 1] == Moment(p, env)
  }

  /** Entered with some environment, the block of p gets to p with this one. */
  ghost predicate Arrives(s: Semantics, prog: Program, p: Pos, env: Env)
    decreases p.index
  {
    p.index == 0 ||
    (var q := Pos(p.block, p.index - 1);
     prog.In(q) && exists env0 :: Arrives(s, prog, q, env0) && Steps(s, prog, q, env0, p, env))
  }

  lemma ArrivesNext(s: Semantics, prog: Program, p: Pos, env: Env, q: Pos, env': Env)
    requires prog.In(p) && Arrives(s, prog, p, env) && Steps(s, prog, p, env, q, env')
    ensures Arrives(s, prog, q, env')
  {
    NextOrFirst(s, prog, p, env, q, env');
    hide Steps;
  }

  lemma NextOrFirst(s: Semantics, prog: Program, p: Pos, env: Env, q: Pos, env': Env)
    requires prog.In(p) && Steps(s, prog, p, env, q, env')
    ensures q == p.Next() || q.index == 0
  {}

  lemma {:induction false} ExecutionArrives(s: Semantics, prog: Program, ms: seq<Moment>, n: nat)
    requires Execution(s, prog, ms) && n < |ms|
    ensures Arrives(s, prog, ms[n].p, ms[n].env)
  {
    hide Steps, Arrives;
    if n > 0 {
      ExecutionArrives(s, prog, ms, n - 1);
      ArrivesNext(s, prog, ms[n - 1].p, ms[n - 1].env, ms[n].p, ms[n].env);
    } else {
      ArrivesFirst(s, prog, ms[0].env);
    }
  }

  lemma ArrivesFirst(s: Semantics, prog: Program, env: Env)
    ensures Arrives(s, prog, First(0), env)
  {}

  lemma ReachableArrives(s: Semantics, prog: Program, p: Pos, env: Env)
    requires Reachable(s, prog, p, env)
    ensures prog.In(p) && Arrives(s, prog, p, env)
  {
    var ms :| Execution(s, prog, ms) && ms[|ms| - 1] == Moment(p, env);
    ExecutionArrives(s, prog, ms, |ms| - 1);
  }

  /** The environment is one that the instruction at p may have left behind. */
  ghost predicate Agrees(s: Semantics, prog: Program, p: Pos, env: Env)
    requires prog.In(p)
  {
    match prog.At(p)
    case Assume(c) => Val(c, env) != 0
    case Unary(_, _) => env(Result(p)) == InstVal(s, p, prog.At(p), env)
    case Binary(_, _, _) => env(Result(p)) == InstVal(s, p, prog.At(p), env)
    case Choose(_, _, _) => env(Result(p)) == InstVal(s, p, prog.At(p), env)
    case Copy(_) => env(Result(p)) == InstVal(s, p, prog.At(p), env)
    case Fail => false
    case _ => true
  }

  /** What a block has computed and assumed stays so to its end: nothing is defined twice on the way. */
  lemma {:induction false} ArrivalAgrees(s: Semantics, prog: Program, p: Pos, q: Pos, env: Env)
    requires prog.Wf() && prog.In(p) && prog.In(q) && p.block == q.block && p.index < q.index
    requires Arrives(s, prog, q, env)
    ensures Agrees(s, prog, p, env)
    decreases q.index
  {
    var r := Pos(q.block, q.index - 1);
    var env0 :| Arrives(s, prog, r, env0) && Steps(s, prog, r, env0, q, env);
    if p != r { ArrivalAgrees(s, prog, p, r, env0); }
    AgreementStays(s, prog, p, r, env0, env);
  }

  /** A step within a block changes the result of its instruction only. */
  lemma StepDefines(s: Semantics, prog: Program, r: Pos, env0: Env, env: Env)
    requires prog.In(r) && Steps(s, prog, r, env0, r.Next(), env)
    ensures forall v :: v != Result(r) ==> env(v) == env0(v)
    ensures prog.At(r).Unary? || prog.At(r).Binary? || prog.At(r).Choose? || prog.At(r).Copy? ==>
              env(Result(r)) == InstVal(s, r, prog.At(r), env0)
    ensures !prog.At(r).Fail? && (prog.At(r).Assume? ==> Val(prog.At(r).c, env0) != 0 && Same(env, env0))
  {}

  lemma OperandsEarlier(prog: Program, p: Pos, r: Pos)
    requires prog.Wf() && prog.In(p) && p.block == r.block && p.index <= r.index
    ensures !Uses(prog.At(p), Result(r))
  {}

  lemma AgreesAlike(s: Semantics, prog: Program, p: Pos, env0: Env, env: Env)
    requires prog.In(p) && Agrees(s, prog, p, env0) && env(Result(p)) == env0(Result(p))
    requires forall v :: Uses(prog.At(p), v) ==> env(v) == env0(v)
    ensures Agrees(s, prog, p, env)
  {}

  lemma AgreementStays(s: Semantics, prog: Program, p: Pos, r: Pos, env0: Env, env: Env)
    requires prog.Wf() && prog.In(p) && prog.In(r) && p.block == r.block && p.index <= r.index
    requires Steps(s, prog, r, env0, r.Next(), env) && (p == r || Agrees(s, prog, p, env0))
    ensures Agrees(s, prog, p, env)
  {
    StepDefines(s, prog, r, env0, env);
    OperandsEarlier(prog, p, r);
    hide Steps, Program.Wf;
    if p != r { AgreesAlike(s, prog, p, env0, env); }
  }

  // ----- propagation -----

  /** The phis from p on are substituted one after another. */
  function SubstPhis(prog: Program, e: Expr, p: Pos, from: nat): Expr
    decreases if prog.In(p) then |prog.blocks[p.block]| - p.index else 0
  {
    if prog.IsPhi(p) then SubstPhis(prog, Subst(e, Result(p), OperandExpr(prog.At(p).From(from))), p.Next(), from)
    else e
  }

  /** The annotation of curr, given that of its successor. */
  function Propagate(prog: Program, e: Expr, curr: Pos, succ: Pos): Expr
    requires prog.In(curr)
  {
    var e' := if curr.block != succ.block then SubstPhis(prog, e, succ, curr.block) else e;
    if prog.At(curr).IsBranch() || (prog.At(curr).Phi? && curr.block == succ.block) then e'
    else Subst(e', Result(curr), InstExpr(prog.At(curr)))
  }

  /** Of the phis from index i on, p takes along the edge the value of the later phi q. */
  ghost predicate Overtaken(prog: Program, to: nat, i: nat, from: nat, p: Pos, q: Pos) {
    p.block == to && q.block == to && i <= p.index < q.index && prog.Leading(p) && prog.Leading(q) &&
    prog.At(p).From(from) == Use(Result(q))
  }

  /** No phi from index i on takes, along the edge, what a later phi is about to lose. */
  ghost predicate OrderedPhis(prog: Program, to: nat, i: nat, from: nat) {
    forall p: Pos, q: Pos :: Overtaken(prog, to, i, from, p, q) ==> prog.At(q).From(from) == Use(Result(q))
  }

  /** Every phi of the block keeps its value along the edge. */
  ghost predicate IdlePhis(prog: Program, to: nat, from: nat) {
    forall p: Pos :: p.block == to && prog.Leading(p) ==> prog.At(p).From(from) == Use(Result(p))
  }

  /** What an edge between blocks has to satisfy for propagation to be right. */
  ghost predicate EdgeOk(prog: Program, from: nat, to: nat) {
    if from == to then IdlePhis(prog, to, from) else OrderedPhis(prog, to, 0, from)
  }

  /** Sequential substitution agrees with parallel assignment. */
  lemma {:induction false} SubstPhisExact(s: Semantics, prog: Program, e: Expr, p: Pos, from: nat, env: Env)
    requires OrderedPhis(prog, p.block, p.index, from)
    requires prog.IsPhi(p) ==> prog.Leading(p)
    ensures Eval(s, SubstPhis(prog, e, p, from), env) == Eval(s, e, AtEntry(prog, p.block, p.index, from, env))
    decreases if prog.In(p) then |prog.blocks[p.block]| - p.index else 0
  {
    var all := AtEntry(prog, p.block, p.index, from, env);
    if prog.IsPhi(p) {
      var o := prog.At(p).From(from);
      var rest := AtEntry(prog, p.block, p.index + 1, from, env);
      OrderedLater(prog, p.block, p.index, p.index + 1, from);
      SubstPhisExact(s, prog, Subst(e, Result(p), OperandExpr(o)), p.Next(), from, env);
      SubstEval(s, e, Result(p), OperandExpr(o), rest);
      OperandSurvives(prog, p, from, env);
      EvalAgrees(s, e, Updated(rest, Result(p), Eval(s, OperandExpr(o), rest)), all);
    } else {
      NoneFrom(prog, p);
      EvalAgrees(s, e, all, env);
    }
  }

  /** The later phis, assigned first, do not change what p is to take. */
  lemma OperandSurvives(prog: Program, p: Pos, from: nat, env: Env)
    requires prog.Leading(p) && OrderedPhis(prog, p.block, p.index, from)
    ensures var o := prog.At(p).From(from); Val(o, AtEntry(prog, p.block, p.index + 1, from, env)) == Val(o, env)
  {
    var o := prog.At(p).From(from);
    if o.Use? && o.value.Result? {
      var q := o.value.pos;
      if q.block == p.block && q.index > p.index && prog.Leading(q) {
        assert Overtaken(prog, p.block, p.index, from, p, q);
      }
    }
  }

  /** Past the leading phis there are none. */
  lemma NoneFrom(prog: Program, p: Pos)
    requires !prog.IsPhi(p)
    ensures forall q: Pos :: q.block == p.block && q.index >= p.index ==> !prog.Leading(q)
  {
    forall q: Pos | q.block == p.block && q.index >= p.index ensures !prog.Leading(q) {
      if prog.Leading(q) {
        assert false;
      }
    }
  }

  lemma OrderedLater(prog: Program, to: nat, i: nat, j: nat, from: nat)
    requires OrderedPhis(prog, to, i, from) && i <= j
    ensures OrderedPhis(prog, to, j, from)
  {
    forall p, q | Overtaken(prog, to, j, from, p, q) ensures prog.At(q).From(from) == Use(Result(q)) {
      assert Overtaken(prog, to, i, from, p, q);
    }
  }

  // ----- exactly when propagation across an edge is right -----

  /** What propagation does about the phis of an edge. */
  function AcrossEdge(prog: Program, e: Expr, from: nat, to: nat): Expr {
    if from != to then SubstPhis(prog, e, First(to), from) else e
  }

  ghost predicate EdgeExact(s: Semantics, prog: Program, from: nat, to: nat) {
    forall e, env :: Eval(s, AcrossEdge(prog, e, from, to), env) == Eval(s, e, AtEntry(prog, to, 0, from, env))
  }

  /** Substituting for the phis of an edge is right for every expression and environment exactly if the edge is ok. */
  lemma EdgeExactIffOk(s: Semantics, prog: Program, from: nat, to: nat)
    ensures EdgeExact(s, prog, from, to) <==> EdgeOk(prog, from, to)
  {
    if EdgeOk(prog, from, to) {
      forall e, env ensures Eval(s, AcrossEdge(prog, e, from, to), env) == Eval(s, e, AtEntry(prog, to, 0, from, env)) {
        OkEdgeExact(s, prog, e, from, to, env);
      }
    } else if from == to {
      var p: Pos :| p.block == to && prog.Leading(p) && prog.At(p).From(from) != Use(Result(p));
      LostUpdate(s, prog, to, p);
    } else {
      assert !OrderedPhis(prog, to, 0, from);
      var p, q :| Overtaken(prog, to, 0, from, p, q) && prog.At(q).From(from) != Use(Result(q));
      OvertakenEdge(s, prog, from, to, p, q);
    }
  }

  lemma OkEdgeExact(s: Semantics, prog: Program, e: Expr, from: nat, to: nat, env: Env)
    requires EdgeOk(prog, from, to)
    ensures Eval(s, AcrossEdge(prog, e, from, to), env) == Eval(s, e, AtEntry(prog, to, 0, from, env))
  {
    if from == to {
      EvalAgrees(s, e, env, AtEntry(prog, to, 0, from, env));
    } else {
      SubstPhisExact(s, prog, e, First(to), from, env);
    }
  }

  /** An environment in which operand o and register r differ. */
  function Telling(o: Operand, r: Value): (env: Env)
    requires o != Use(r)
    ensures Val(o, env) != env(r)
  {
    if o.Const? then (_ => o.v + 1) else (v: Value) => if v == r then 1 else 0
  }

  /** A block that branches to itself loses what its phi takes from it. */
  lemma LostUpdate(s: Semantics, prog: Program, block: nat, p: Pos)
    requires p.block == block && prog.Leading(p) && prog.At(p).From(block) != Use(Result(p))
    ensures !EdgeExact(s, prog, block, block)
  {
    var env := Telling(prog.At(p).From(block), Result(p));
    var e := Register(Result(p));
    assert Eval(s, AcrossEdge(prog, e, block, block), env) != Eval(s, e, AtEntry(prog, block, 0, block, env));
  }

  /** A phi that takes the value of a later one gets that one's new value. */
  lemma {:induction false} OvertakenEdge(s: Semantics, prog: Program, from: nat, to: nat, p: Pos, q: Pos)
    requires from != to && Overtaken(prog, to, 0, from, p, q) && prog.At(q).From(from) != Use(Result(q))
    ensures !EdgeExact(s, prog, from, to)
    decreases |prog.blocks[to]| - p.index
  {
    if OrderedPhis(prog, to, p.index + 1, from) {
      var o := prog.At(q).From(from);
      var env := Telling(o, Result(q));
      var e := Register(Result(p));
      SkipEarlier(prog, p, First(to), from);
      assert AcrossEdge(prog, e, from, to) == SubstPhis(prog, Register(Result(q)), p.Next(), from);
      SubstPhisExact(s, prog, Register(Result(q)), p.Next(), from, env);
      assert Eval(s, AcrossEdge(prog, e, from, to), env) == Val(o, env);
      assert AtEntry(prog, to, 0, from, env)(Result(p)) == Val(prog.At(p).From(from), env);
    } else {
      var p', q' :| Overtaken(prog, to, p.index + 1, from, p', q') && prog.At(q').From(from) != Use(Result(q'));
      assert Overtaken(prog, to, 0, from, p', q');
      OvertakenEdge(s, prog, from, to, p', q');
    }
  }

  /** Phis before p leave a use of p alone. */
  lemma {:induction false} SkipEarlier(prog: Program, p: Pos, at: Pos, from: nat)
    requires prog.Leading(p) && at.block == p.block && at.index <= p.index
    ensures SubstPhis(prog, Register(Result(p)), at, from) == SubstPhis(prog, Register(Result(p)), p, from)
    decreases p.index - at.index
  {
    if at != p {
      assert prog.IsPhi(Pos(p.block, at.index));
      SkipEarlier(prog, p, at.Next(), from);
    }
  }
}
