/** The memoised analysis of which functions have side effects. */
module CallInfo {
  import opened Chains

  datatype Callee = Indirect | Direct(fun: nat)

  /** Pure stands for every instruction that has no side effects, calls included. */
  datatype Inst = Pure | Effect | Call(callee: Callee)

  /** A function without instructions is declared only; some of those are internal and known to be clean. */
  datatype Function = Function(insts: seq<Inst>, cleanInternal: bool) {
    predicate IsEmpty() { insts == [] }
  }

  type Module = seq<Function>

  ghost predicate WfModule(m: Module) {
    forall f, i :: 0 <= f < |m| && i in m[f].insts && i.Call? && i.callee.Direct? ==> i.callee.fun < |m|
  }

  // ----- what the analysis decides -----

  /** A function that has effects on its own account, an indirect call among them. */
  ghost predicate EffectsOfItsOwn(m: Module, f: nat) {
    f < |m| &&
    if m[f].IsEmpty() then !m[f].cleanInternal else Effect in m[f].insts || Call(Indirect) in m[f].insts
  }

  predicate Calls(m: Module, f: nat, g: nat) {
    f < |m| && Call(Direct(g)) in m[f].insts
  }

  /** A chain of calls, none from or to a function to avoid, that ends in one with effects of its own. */
  ghost predicate EffectPath(m: Module, p: seq<nat>, avoid: set<nat>) {
    && |p| > 0
    && (forall i :: 0 <= i < |p| ==> p[i] !in avoid)
    && (forall i :: 0 < i < |p| ==> Calls(m, p[i - 1], p[i]))
    && EffectsOfItsOwn(m, p[|p| - 1])
  }

  ghost predicate Reaches(m: Module, f: nat, avoid: set<nat>) {
    exists p :: EffectPath(m, p, avoid) && p[0] == f
  }

  /** Executing f, or anything it may call, has an effect. */
  ghost predicate Dirty(m: Module, f: nat) { Reaches(m, f, {}) }

  // ----- why answering cycles optimistically is right -----

  lemma {:induction false} LastVisit(p: seq<nat>, f: nat) returns (k: nat)
    requires f in p
    ensures k < |p| && p[k] == f && f !in p[k + 1..]
  {
    if p[|p| - 1] == f {
      k := |p| - 1;
    } else {
      k := LastVisit(p[..|p| - 1], f);
      assert p[k + 1..] == p[..|p| - 1][k + 1..] + [p[|p| - 1]];
    }
  }

  /** If f reaches an effect, it has it on its own account, or a callee reaches it without coming back to f. */
  lemma ReachesOn(m: Module, f: nat, avoid: set<nat>)
    requires Reaches(m, f, avoid)
    ensures f !in avoid && (EffectsOfItsOwn(m, f) || exists g :: Calls(m, f, g) && Reaches(m, g, avoid + {f}))
  {
    var p :| EffectPath(m, p, avoid) && p[0] == f;
    var k := LastVisit(p, f);
    if k + 1 < |p| {
      var q := p[k + 1..];
      assert Calls(m, p[k], p[k + 1]);
      assert EffectPath(m, q, avoid + {f}) && q[0] == p[k + 1];
    }
  }

  lemma ReachesThrough(m: Module, f: nat, g: nat)
    requires Calls(m, f, g) && Dirty(m, g)
    ensures Dirty(m, f)
  {
    var p :| EffectPath(m, p, {}) && p[0] == g;
    assert EffectPath(m, [f] + p, {});
  }

  lemma OwnEffects(m: Module, f: nat)
    requires EffectsOfItsOwn(m, f)
    ensures Dirty(m, f)
  {
    assert EffectPath(m, [f], {});
  }

  lemma AvoidLess(m: Module, f: nat, avoid: set<nat>)
    requires Reaches(m, f, avoid)
    ensures Dirty(m, f)
  {
    var p :| EffectPath(m, p, avoid) && p[0] == f;
    assert EffectPath(m, p, {});
  }

  // ----- the pass -----

  class CallInfoCollectionPass {
    var clean: set<nat>

    constructor ()
      ensures clean == {}
    {
      clean := {};
    }

    /** Every answer remembered so far is right. */
    ghost predicate Exact(m: Module, dirty: set<nat>)
      reads this
    {
      (forall f :: f in clean ==> f < |m| && !Dirty(m, f)) && (forall f :: f in dirty ==> Dirty(m, f))
    }

    /** Whether a callee has effects; functions on the chain are taken not to. The chain is restored if not. */
    method CalleeHasSideEffects(m: Module, callee: Callee, chain: seq<nat>, dirty: set<nat>)
      returns (r: bool, chain': seq<nat>)
      requires WfModule(m) && Exact(m, dirty) && (callee.Direct? ==> callee.fun < |m|)
      modifies this
      ensures Exact(m, dirty)
      ensures callee.Indirect? ==> r
      ensures callee.Direct? && r ==> Dirty(m, callee.fun)
      ensures callee.Direct? && !r ==> !Reaches(m, callee.fun, Range(chain))
      ensures !r ==> chain' == chain
      ensures old(clean) <= clean && (chain != [] ==> clean == old(clean))
      decreases Range(seq(|m|, i requires i >= 0 => i)) - Range(chain), 1
    {
      chain' := chain;
      if callee.Indirect? || callee.fun in dirty { return true, chain; }
      var f := callee.fun;
      if f in clean || f in chain {
        if Reaches(m, f, Range(chain)) {
          ReachesOn(m, f, Range(chain));
          AvoidLess(m, f, Range(chain));
        }
        return false, chain;
      }
      if m[f].IsEmpty() {
        if !m[f].cleanInternal {
          OwnEffects(m, f);
          return true, chain;
        }
        if Reaches(m, f, Range(chain)) { ReachesOn(m, f, Range(chain)); }
        return false, chain;
      }
      r, chain' := BodyHasSideEffects(m, f, chain, dirty);
    }

    /** The instructions of a function not answered for yet. */
    method BodyHasSideEffects(m: Module, f: nat, chain: seq<nat>, dirty: set<nat>) returns (r: bool, chain': seq<nat>)
      requires WfModule(m) && Exact(m, dirty) && f < |m| && f !in chain && !m[f].IsEmpty()
      modifies this
      ensures Exact(m, dirty)
      ensures if r then Dirty(m, f) else !Reaches(m, f, Range(chain)) && chain' == chain
      ensures clean == old(clean) + if !r && chain == [] then {f} else {}
      decreases Range(seq(|m|, i requires i >= 0 => i)) - Range(chain), 0
    {
      chain' := chain;
      var k := 0;
      while k < |m[f].insts|
        invariant 0 <= k <= |m[f].insts| && chain' == chain && Exact(m, dirty) && clean == old(clean)
        invariant forall i :: 0 <= i < k ==> m[f].insts[i] != Effect && m[f].insts[i] != Call(Indirect)
        invariant forall i :: 0 <= i < k && m[f].insts[i].Call? ==>
                                !Reaches(m, m[f].insts[i].callee.fun, Range(chain) + {f})
      {
        var inst := m[f].insts[k];
        assert inst in m[f].insts;
        if inst == Effect {
          OwnEffects(m, f);
          return true, chain';
        }
        if inst.Call? {
          chain' := chain' + [f]; // push
          assert Range(chain') == Range(chain) + {f};
          assert f in Range(seq(|m|, i requires i >= 0 => i)) by { assert seq(|m|, i requires i >= 0 => i)[f] == f; }
          var effect;
          effect, chain' := CalleeHasSideEffects(m, inst.callee, chain', dirty);
          if effect {
            if inst.callee.Indirect? { OwnEffects(m, f); } else { ReachesThrough(m, f, inst.callee.fun); }
            return true, chain';
          }
          chain' := chain'[..|chain'| - 1]; // pop
        }
        k := k + 1;
      }
      if Reaches(m, f, Range(chain)) {
        ReachesOn(m, f, Range(chain));
        assert false;
      }
      if chain' == [] {
        assert Range(chain) == {};
        clean := clean + {f};
      }
      return false, chain';
    }

    /** After the pass the clean functions are exactly those that cannot cause an effect. */
    method RunOnModule(m: Module)
      requires WfModule(m)
      modifies this
      ensures forall f: nat :: f in clean <==> f < |m| && !Dirty(m, f)
    {
      var dirty: set<nat> := {};
      clean := {};
      var f := 0;
      while f < |m|
        invariant 0 <= f <= |m| && Exact(m, dirty)
        invariant forall g :: 0 <= g < f ==> g in clean || g in dirty
      {
        var r, _ := CalleeHasSideEffects(m, Direct(f), [], dirty);
        assert Range([]) == {};
        if r {
          dirty := dirty + {f};
        } else {
          clean := clean + {f};
        }
        f := f + 1;
      }
    }
  }
}
