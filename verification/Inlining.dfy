/** The check whether a function can be inlined into its callers. */
module Inlining {
  import opened Chains

  /** A node of the call graph: the one standing for unknown code, or a function with the nodes it calls. */
  datatype Node = External | Function(empty: bool, isInternal: bool, callees: seq<nat>)

  type CallGraph = seq<Node>

  ghost predicate WfGraph(cg: CallGraph) {
    forall n, c :: 0 <= n < |cg| && cg[n].Function? && c in cg[n].callees ==> c < |cg|
  }

  predicate HasBody(cg: CallGraph, n: nat) { n < |cg| && cg[n].Function? && !cg[n].empty }

  predicate Calls(cg: CallGraph, n: nat, c: nat) { HasBody(cg, n) && c in cg[n].callees }

  /** A chain of calls. */
  ghost predicate Walk(cg: CallGraph, p: seq<nat>) {
    |p| > 0 && forall i :: 0 < i < |p| ==> Calls(cg, p[i - 1], p[i])
  }

  // ----- what makes a function impossible to inline -----

  ghost predicate LeadsTo(cg: CallGraph, n: nat, c: nat) {
    exists p :: Walk(cg, p) && p[0] == n && p[|p| - 1] == c
  }

  /** Unknown code, or a declaration that the checker does not provide. */
  predicate Opaque(cg: CallGraph, c: nat) {
    c < |cg| && (cg[c].External? || (cg[c].empty && !cg[c].isInternal))
  }

  /** A chain of calls from n comes by c a second time. */
  ghost predicate LeadsIntoCycle(cg: CallGraph, n: nat, c: nat) {
    HasBody(cg, c) && exists p, i :: Walk(cg, p) && p[0] == n && 0 <= i < |p| - 1 && p[i] == c && p[|p| - 1] == c
  }

  ghost predicate Inlinable(cg: CallGraph, n: nat) {
    && (forall c :: LeadsTo(cg, n, c) ==> !Opaque(cg, c))
    && (forall c :: !LeadsIntoCycle(cg, n, c))
  }

  // ----- the search for a walk that shows it -----

  /** Continuing the chain, p ends in opaque code or comes back to a node already passed. */
  ghost predicate Offends(cg: CallGraph, chain: seq<nat>, p: seq<nat>) {
    Walk(cg, p) && (Opaque(cg, p[|p| - 1]) || (HasBody(cg, p[|p| - 1]) && p[|p| - 1] in chain + p[..|p| - 1]))
  }

  ghost predicate Offending(cg: CallGraph, chain: seq<nat>, n: nat) {
    exists p :: Offends(cg, chain, p) && p[0] == n
  }

  lemma OffendingNext(cg: CallGraph, chain: seq<nat>, n: nat)
    requires HasBody(cg, n) && n !in chain
    ensures Offending(cg, chain, n) <==> exists c :: Calls(cg, n, c) && Offending(cg, chain + [n], c)
  {
    if p :| Offends(cg, chain, p) && p[0] == n {
      assert |p| > 1;
      var q := p[1..];
      assert q[|q| - 1] == p[|p| - 1] && p[..|p| - 1] == [n] + q[..|q| - 1];
      assert chain + p[..|p| - 1] == chain + [n] + q[..|q| - 1];
      assert Calls(cg, p[0], p[1]);
      assert Walk(cg, q);
      assert Offends(cg, chain + [n], q) && q[0] == p[1];
    }
    if c :| Calls(cg, n, c) && Offending(cg, chain + [n], c) {
      var q :| Offends(cg, chain + [n], q) && q[0] == c;
      var p := [n] + q;
      assert p[..|p| - 1] == [n] + q[..|q| - 1];
      assert chain + p[..|p| - 1] == chain + [n] + q[..|q| - 1];
      assert Offends(cg, chain, p) && p[0] == n;
    }
  }

  lemma WalkOnNeedsBody(cg: CallGraph, p: seq<nat>)
    requires Walk(cg, p) && |p| > 1
    ensures HasBody(cg, p[0])
  {
    assert Calls(cg, p[0], p[1]);
  }

  lemma OffendingHere(cg: CallGraph, chain: seq<nat>, n: nat)
    requires n < |cg| && (!HasBody(cg, n) || n in chain)
    ensures Offending(cg, chain, n) <==> Opaque(cg, n) || HasBody(cg, n)
  {
    assert Walk(cg, [n]);
    if Opaque(cg, n) || HasBody(cg, n) { assert Offends(cg, chain, [n]); }
    if p :| Offends(cg, chain, p) && p[0] == n && !HasBody(cg, n) {
      if |p| > 1 { WalkOnNeedsBody(cg, p); }
    }
  }

  /** Without a chain to begin with, the search answers the question asked. */
  lemma OffendingIffNotInlinable(cg: CallGraph, n: nat)
    ensures Offending(cg, [], n) <==> !Inlinable(cg, n)
  {
    if p :| Offends(cg, [], p) && p[0] == n {
      var c := p[|p| - 1];
      assert LeadsTo(cg, n, c);
      if !Opaque(cg, c) {
        assert c in p[..|p| - 1];
        var i :| 0 <= i < |p| - 1 && p[i] == c;
        assert LeadsIntoCycle(cg, n, c);
      }
    }
    if c :| LeadsTo(cg, n, c) && Opaque(cg, c) {
      var p :| Walk(cg, p) && p[0] == n && p[|p| - 1] == c;
      assert Offends(cg, [], p);
    }
    if c :| LeadsIntoCycle(cg, n, c) {
      var p, i :| Walk(cg, p) && p[0] == n && 0 <= i < |p| - 1 && p[i] == c && p[|p| - 1] == c;
      assert p[..|p| - 1][i] == c;
      assert Offends(cg, [], p);
    }
  }

  function Nodes(cg: CallGraph): (r: set<nat>)
    ensures forall n: nat :: n < |cg| ==> n in r
  {
    var ns := seq(|cg|, i requires i >= 0 => i);
    assert forall n: nat :: n < |cg| ==> n in ns by {
      forall n: nat | n < |cg| ensures n in ns { assert ns[n] == n; }
    }
    Range(ns)
  }

  /** Indirect, empty and recursive calls end the search; otherwise all callees must be fine. */
  method IsInlinableFrom(cg: CallGraph, node: nat, chain: seq<nat>) returns (ok: bool, chain': seq<nat>)
    requires WfGraph(cg) && node < |cg|
    ensures ok <==> !Offending(cg, chain, node)
    ensures ok ==> chain' == chain
    decreases Nodes(cg) - Range(chain)
  {
    chain' := chain;
    if cg[node].External? || cg[node].empty || node in chain { OffendingHere(cg, chain, node); }
    if cg[node].External? { return false, chain'; }
    if cg[node].empty { return cg[node].isInternal, chain'; }
    if node in chain { return false, chain'; }
    OffendingNext(cg, chain, node);
    chain' := chain' + [node]; // push
    var i := 0;
    while i < |cg[node].callees|
      invariant 0 <= i <= |cg[node].callees| && chain' == chain + [node]
      invariant forall k :: 0 <= k < i ==> !Offending(cg, chain + [node], cg[node].callees[k])
    {
      var c := cg[node].callees[i];
      assert Calls(cg, node, c);
      assert node in Nodes(cg) - Range(chain) && node in Range(chain');
      ok, chain' := IsInlinableFrom(cg, c, chain');
      if !ok { return false, chain'; }
      i := i + 1;
    }
    chain' := chain'[..|chain'| - 1]; // pop
    ok := true;
  }

  /** isInlinable decides: no cycle, no unknown code, no foreign declaration can be reached. */
  method IsInlinable(cg: CallGraph, f: nat) returns (ok: bool)
    requires WfGraph(cg) && f < |cg|
    ensures ok <==> Inlinable(cg, f)
  {
    OffendingIffNotInlinable(cg, f);
    var r, _ := IsInlinableFrom(cg, f, []);
    return r;
  }
}
