/** Dead-code elimination: what stays, and why nothing observable changes. */
module DeadCode {

  datatype Operand = Const(v: int) | Argument(n: nat) | Use(inst: nat)

  /** Instructions are named; a phi reads its operands as they are when the block is entered. */
  datatype Inst = Inst(operands: seq<Operand>, isPhi: bool, memDependent: bool, isTerminator: bool) {
    predicate IsEliminable() { !memDependent && !isTerminator }
  }

  /** The instructions by name, and the names in each block. */
  datatype Code = Code(insts: map<nat, Inst>, blocks: seq<seq<nat>>) {
    ghost predicate Wf() {
      && (forall b, i :: 0 <= b < |blocks| && i in blocks[b] ==> i in insts)
      && (forall i, d :: i in insts && Use(d) in insts[i].operands ==> d in insts)
      && (forall i :: i in insts ==> exists b :: 0 <= b < |blocks| && i in blocks[b])
    }
  }

  // ----- what is alive -----

  ghost predicate Closed(code: Code, s: set<nat>) {
    forall i, d :: i in s && i in code.insts && Use(d) in code.insts[i].operands ==> d in s
  }

  ghost predicate HoldsRoots(code: Code, s: set<nat>) {
    forall i :: i in code.insts && !code.insts[i].IsEliminable() ==> i in s
  }

  /** The least operand-closed set with everything that cannot be eliminated. */
  ghost predicate IsLive(code: Code, s: set<nat>) {
    && HoldsRoots(code, s) && Closed(code, s)
    && forall s' :: HoldsRoots(code, s') && Closed(code, s') ==> s <= s'
  }

  function Kept(block: seq<nat>, s: set<nat>): (r: seq<nat>)
    ensures forall i :: i in r <==> i in block && i in s
  {
    if block == [] then [] else (if block[0] in s then [block[0]] else []) + Kept(block[1..], s)
  }

  function Reduced(code: Code, s: set<nat>): Code {
    Code(map i | i in code.insts && i in s :: code.insts[i],
         seq(|code.blocks|, b requires 0 <= b < |code.blocks| => Kept(code.blocks[b], s)))
  }

  // ----- execution -----

  type Env = nat -> int

  /** What instructions do: `run` gives the value and the new state, `next` where a terminator goes. */
  datatype Machine<!S> = Machine(argument: nat -> int, run: (nat, seq<int>, nat, S) -> (int, S),
      next: (nat, seq<int>, S) -> nat)

  /** Eliminable instructions leave the state alone, from whichever block they are reached. */
  ghost predicate Respects<S(!new)>(m: Machine<S>, code: Code) {
    forall i, vals, from, s :: i in code.insts && code.insts[i].IsEliminable() ==> m.run(i, vals, from, s).1 == s
  }

  function Value<S>(m: Machine<S>, o: Operand, env: Env): int {
    match o
    case Const(v) => v
    case Argument(n) => m.argument(n)
    case Use(i) => env(i)
  }

  function Values<S>(m: Machine<S>, os: seq<Operand>, env: Env): seq<int> {
    if os == [] then [] else [Value(m, os[0], env)] + Values(m, os[1..], env)
  }

  function Updated(env: Env, i: nat, v: int): Env { (j: nat) => if j == i then v else env(j) }

  datatype Config<S> = Config(block: nat, from: nat, env: Env, state: S)

  /** The rest of a block: its effects on the environment and the state, and the block it goes to, if it is
      terminated. */
  function RunBlock<S>(m: Machine<S>, code: Code, rest: seq<nat>, from: nat, entry: Env, env: Env, state: S,
                       goesTo: nat): (r: (Env, S, nat))
    requires forall i :: i in rest ==> i in code.insts
    decreases |rest|
  {
    if rest == [] then (env, state, goesTo)
    else
      var i := rest[0];
      var vals := Values(m, code.insts[i].operands, if code.insts[i].isPhi then entry else env);
      var res := m.run(i, vals, from, state);
      RunBlock(m, code, rest[1..], from, entry, Updated(env, i, res.0), res.1,
               if code.insts[i].isTerminator then m.next(i, vals, res.1) else goesTo)
  }

  /** n blocks, as long as control stays inside the function. */
  function Run<S>(m: Machine<S>, code: Code, c: Config<S>, n: nat): Config<S>
    requires forall b, i :: 0 <= b < |code.blocks| && i in code.blocks[b] ==> i in code.insts
    decreases n
  {
    if n == 0 || c.block >= |code.blocks| then c
    else
      var r := RunBlock(m, code, code.blocks[c.block], c.from, c.env, c.env, c.state, |code.blocks|);
      Run(m, code, Config(r.2, c.block, r.0, r.1), n - 1)
  }

  // ----- nothing observable changes -----

  ghost predicate Agree(s: set<nat>, env: Env, env': Env) {
    forall i :: i in s ==> env(i) == env'(i)
  }

  lemma {:induction false} ValuesAgree<S>(m: Machine<S>, os: seq<Operand>, s: set<nat>, env: Env, env': Env)
    requires Agree(s, env, env') && forall d :: Use(d) in os ==> d in s
    ensures Values(m, os, env) == Values(m, os, env')
  {
    if os != [] {
      assert os[0] in os;
      assert forall d :: Use(d) in os[1..] ==> Use(d) in os;
      ValuesAgree(m, os[1..], s, env, env');
    }
  }

  lemma {:induction false} BlockSame<S(!new)>(m: Machine<S>, code: Code, s: set<nat>, rest: seq<nat>, from: nat,
                                      entry: Env, env: Env, entry': Env, env': Env, state: S, goesTo: nat)
    requires Respects(m, code) && HoldsRoots(code, s) && Closed(code, s) && forall i :: i in rest ==> i in code.insts
    requires Agree(s, entry, entry') && Agree(s, env, env')
    ensures var a := RunBlock(m, code, rest, from, entry, env, state, goesTo);
            var b := RunBlock(m, Reduced(code, s), Kept(rest, s), from, entry', env', state, goesTo);
            Agree(s, a.0, b.0) && a.1 == b.1 && a.2 == b.2
    decreases |rest|
  {
    if rest != [] {
      var i := rest[0];
      var red := Reduced(code, s);
      var inst := code.insts[i];
      var vals := Values(m, inst.operands, if inst.isPhi then entry else env);
      var res := m.run(i, vals, from, state);
      var to := if inst.isTerminator then m.next(i, vals, res.1) else goesTo;
      if i in s {
        assert red.insts[i] == inst;
        if inst.isPhi {
          ValuesAgree(m, inst.operands, s, entry, entry');
        } else {
          ValuesAgree(m, inst.operands, s, env, env');
        }
        BlockSame(m, code, s, rest[1..], from, entry, Updated(env, i, res.0), entry', Updated(env', i, res.0), res.1,
            to);
        assert Kept(rest, s)[1..] == Kept(rest[1..], s);
      } else {
        BlockSame(m, code, s, rest[1..], from, entry, Updated(env, i, res.0), entry', env', res.1, to);
        assert Kept(rest, s) == Kept(rest[1..], s);
      }
    }
  }

  /** Any number of blocks: the same blocks in the same order, the same state, the same values of all that is alive. */
  lemma {:induction false} RunSame<S(!new)>(m: Machine<S>, code: Code, s: set<nat>, c: Config<S>, c': Config<S>, n: nat)
    requires code.Wf() && Respects(m, code) && HoldsRoots(code, s) && Closed(code, s)
    requires c.block == c'.block && c.from == c'.from && c.state == c'.state && Agree(s, c.env, c'.env)
    ensures forall b, i :: 0 <= b < |Reduced(code, s).blocks| && i in Reduced(code, s).blocks[b] ==>
                i in Reduced(code, s).insts
    ensures var a, b := Run(m, code, c, n), Run(m, Reduced(code, s), c', n);
            a.block == b.block && a.from == b.from && a.state == b.state && Agree(s, a.env, b.env)
    decreases n
  {
    var red := Reduced(code, s);
    assert forall b, i :: 0 <= b < |red.blocks| && i in red.blocks[b] ==> i in red.insts;
    assert forall b, i :: 0 <= b < |code.blocks| && i in code.blocks[b] ==> i in code.insts;
    if n > 0 && c.block < |code.blocks| {
      var block := code.blocks[c.block];
      assert red.blocks[c.block] == Kept(block, s);
      hide RunBlock, Respects, HoldsRoots, Closed, Agree, Kept, Reduced;
      BlockSame(m, code, s, block, c.from, c.env, c.env, c'.env, c'.env, c.state, |code.blocks|);
      var r := RunBlock(m, code, block, c.from, c.env, c.env, c.state, |code.blocks|);
      var r' := RunBlock(m, red, Kept(block, s), c'.from, c'.env, c'.env, c'.state, |code.blocks|);
      RunSame(m, code, s, Config(r.2, c.block, r.0, r.1), Config(r'.2, c'.block, r'.0, r'.1), n - 1);
    }
  }

  // ----- the pass -----

  class Function {
    var code: Code

    constructor (c: Code)
      ensures code == c
    {
      code := c;
    }

    /** Keeps the live instructions only; true if anything was deleted. */
    method EliminateUnusedCode() returns (changed: bool, ghost alive: set<nat>)
      requires code.Wf()
      modifies this
      ensures IsLive(old(code), alive) && code == Reduced(old(code), alive) && code.Wf()
      ensures changed <==> exists i :: i in old(code).insts && i !in code.insts
    {
      var roots, worklist := CollectRoots();
      var live := PropagateLiveness(roots, worklist);
      alive := live;
      var dead := set i | i in code.insts && i !in live;
      ReducedWf(code, live);
      code := Reduced(code, live);
      changed := dead != {};
      assert forall i :: i in dead <==> i in old(code).insts && i !in code.insts;
    }

    /** Propagates liveness from the roots to operands. */
    method PropagateLiveness(roots: set<nat>, pending: seq<nat>) returns (live: set<nat>)
      requires code.Wf()
      requires forall i :: i in roots <==> i in code.insts && !code.insts[i].IsEliminable()
      requires forall i :: i in roots <==> i in pending
      ensures IsLive(code, live)
    {
      var worklist := pending;
      live := roots;
      while worklist != []
        invariant HoldsRoots(code, live) && live <= code.insts.Keys
        invariant forall i :: i in worklist ==> i in live
        invariant forall i, d :: i in live && i !in worklist && Use(d) in code.insts[i].operands ==> d in live
        invariant forall s' :: HoldsRoots(code, s') && Closed(code, s') ==> live <= s'
        decreases code.insts.Keys - live, |worklist|
      {
        var i := worklist[|worklist| - 1];
        ghost var was := worklist;
        worklist := worklist[..|worklist| - 1];
        assert forall j :: j in was <==> j in worklist || j == i;
        live, worklist := AddOperands(i, live, worklist);
      }
    }

    /** The instructions that cannot be eliminated. */
    method CollectRoots() returns (live: set<nat>, worklist: seq<nat>)
      requires code.Wf()
      ensures forall i :: i in live <==> i in code.insts && !code.insts[i].IsEliminable()
      ensures forall i :: i in live <==> i in worklist
    {
      live, worklist := {}, [];
      var b := 0;
      while b < |code.blocks|
        invariant 0 <= b <= |code.blocks|
        invariant forall i :: i in live ==> i in code.insts && !code.insts[i].IsEliminable()
        invariant forall c, i :: 0 <= c < b && i in code.blocks[c] && !code.insts[i].IsEliminable() ==> i in live
        invariant forall i :: i in live <==> i in worklist
      {
        var k := 0;
        while k < |code.blocks[b]|
          invariant 0 <= k <= |code.blocks[b]|
          invariant forall i :: i in live ==> i in code.insts && !code.insts[i].IsEliminable()
          invariant forall c, i :: 0 <= c < b && i in code.blocks[c] && !code.insts[i].IsEliminable() ==> i in live
          invariant forall j :: 0 <= j < k && !code.insts[code.blocks[b][j]].IsEliminable() ==>
                        code.blocks[b][j] in live
          invariant forall i :: i in live <==> i in worklist
        {
          var i := code.blocks[b][k];
          assert i in code.blocks[b];
          if !code.insts[i].IsEliminable() {
            live, worklist := live + {i}, worklist + [i];
          }
          k := k + 1;
        }
        b := b + 1;
      }
    }

    /** The operands of i not alive yet join the live set and the worklist. */
    method AddOperands(i: nat, live: set<nat>, worklist: seq<nat>) returns (live': set<nat>, worklist': seq<nat>)
      requires code.Wf() && i in live && live <= code.insts.Keys && forall j :: j in worklist ==> j in live
      ensures live <= live' <= code.insts.Keys && forall j :: j in worklist' ==> j in live'
      ensures forall d :: d in live' <==> d in live || Use(d) in code.insts[i].operands
      ensures forall x :: x in live' && x !in worklist' <==> x in live && x !in worklist
      ensures live' == live ==> worklist' == worklist
    {
      live', worklist' := live, worklist;
      var ops := code.insts[i].operands;
      var k := 0;
      while k < |ops|
        invariant 0 <= k <= |ops|
        invariant live <= live' <= code.insts.Keys && forall j :: j in worklist' ==> j in live'
        invariant forall d :: d in live' <==> d in live || Use(d) in ops[..k]
        invariant forall x :: x in live' && x !in worklist' <==> x in live && x !in worklist
        invariant live' == live ==> worklist' == worklist
      {
        assert ops[..k + 1] == ops[..k] + [ops[k]];
        if ops[k].Use? && ops[k].inst !in live' {
          assert Use(ops[k].inst) in ops;
          live', worklist' := live' + {ops[k].inst}, worklist' + [ops[k].inst];
        }
        k := k + 1;
      }
      assert ops[..k] == ops;
    }
  }

  lemma ReducedWf(code: Code, s: set<nat>)
    requires code.Wf() && Closed(code, s)
    ensures Reduced(code, s).Wf()
  {
    var red := Reduced(code, s);
    forall i | i in red.insts ensures exists b :: 0 <= b < |red.blocks| && i in red.blocks[b] {
      var b :| 0 <= b < |code.blocks| && i in code.blocks[b];
      assert i in red.blocks[b];
    }
  }
}
