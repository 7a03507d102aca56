/** Small notions used throughout. */
module Basics {

  function B(b: bool): nat { if b then 1 else 0 }

  predicate Distinct<A(==)>(s: seq<A>) { forall i, j | 0 <= i < j < |s| :: s[i] != s[j] }

  lemma Regroup<A>(a: seq<A>, b: seq<A>, c: seq<A>)
    ensures a + (b + c) == a + b + c
  {
  }
}
