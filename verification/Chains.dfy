/** Chains of calls, as sequences and as sets of functions. */
module Chains {
  function Range(s: seq<nat>): (r: set<nat>)
    ensures forall x :: x in r <==> x in s
  {
    set x | x in s
  }
}
