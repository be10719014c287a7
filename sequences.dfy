/** Sequence helpers for the partition and the reduction: sums, slots, multisets. */
module Sequences {

  /**
   * The sum of a sequence of counts, added from the front (the MPI_SUM
   * reduction). No single count exceeds the sum.
   */
  function Sum(s: seq<nat>): (total: nat)
    ensures forall i :: 0 <= i < |s| ==> s[i] <= total
  {
    if s == [] then 0
    else
      var front := s[..|s| - 1];
      assert forall i :: 0 <= i < |s| - 1 ==> s[i] == front[i];
      Sum(front) + s[|s| - 1]
  }

  /** A slot of `s` holding `x`. */
  function IndexOf<T(==)>(s: seq<T>, x: T): (k: nat)
    requires x in s
    ensures k < |s| && s[k] == x
  {
    if s[0] == x then 0 else 1 + IndexOf(s[1..], x)
  }

  /** A sequence is what comes before slot `k`, the element at `k`, and what comes after. */
  lemma SplitAround<T>(s: seq<T>, k: nat)
    requires k < |s|
    ensures s == s[..k] + [s[k]] + s[k + 1..]
  {
  }

  /** Taking out the element at slot `k` takes one copy of it out of the multiset. */
  lemma MultisetRemoveAt<T>(s: seq<T>, k: nat)
    requires k < |s|
    ensures multiset(s[..k] + s[k + 1..]) == multiset(s) - multiset{s[k]}
  {
    SplitAround(s, k);
  }
}
