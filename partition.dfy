/**
 * Work partition of the parallel program: process `rank` of `processCount`
 * gets `trialCount / processCount` trials, plus one when its rank is below
 * `trialCount % processCount`. For a non-negative trial count and a positive
 * process count C's truncating division and remainder agree with Dafny's.
 */
module Partition {
  import opened Sequences

  /** The number of trials process `rank` runs. */
  function TrialsToDo(trialCount: int, processCount: int, rank: int): (share: nat)
    requires trialCount >= 0 && processCount >= 1 && 0 <= rank < processCount
    ensures trialCount / processCount <= share <= trialCount / processCount + 1
    ensures share == trialCount / processCount + 1 <==> rank < trialCount % processCount
  {
    trialCount / processCount + if rank < trialCount % processCount then 1 else 0
  }

  /** The shares of processes 0 .. processCount-1, in rank order. */
  function Shares(trialCount: int, processCount: int): (shares: seq<nat>)
    requires trialCount >= 0 && processCount >= 1
    ensures |shares| == processCount
    ensures forall r :: 0 <= r < processCount ==> shares[r] == TrialsToDo(trialCount, processCount, r)
  {
    seq(processCount, r requires 0 <= r < processCount => TrialsToDo(trialCount, processCount, r))
  }

  /** n - 1 shares of q and one more make n shares of q. */
  lemma OneMoreShare(n: int, q: int)
    ensures (n - 1) * q + q == n * q
  {
  }

  /** The first `n` shares add up to n * (T / P) plus one for each of them below the remainder. */
  lemma {:induction false} SharesPrefixSum(trialCount: int, processCount: int, n: nat)
    requires trialCount >= 0 && processCount >= 1 && n <= processCount
    ensures Sum(Shares(trialCount, processCount)[..n])
      == n * (trialCount / processCount) + if n < trialCount % processCount then n else trialCount % processCount
  {
    var s := Shares(trialCount, processCount);
    if n > 0 {
      SharesPrefixSum(trialCount, processCount, n - 1);
      assert s[..n][..n - 1] == s[..n - 1];
      OneMoreShare(n, trialCount / processCount);
    }
  }

  /** Every trial is assigned: the shares of all processes add up to the trial count. */
  lemma SharesSumToTotal(trialCount: int, processCount: int)
    requires trialCount >= 0 && processCount >= 1
    ensures Sum(Shares(trialCount, processCount)) == trialCount
  {
    var s := Shares(trialCount, processCount);
    SharesPrefixSum(trialCount, processCount, processCount);
    assert s[..processCount] == s;
  }

  /** The work is balanced: any two shares differ by at most one. */
  lemma SharesBalanced(trialCount: int, processCount: int, a: int, b: int)
    requires trialCount >= 0 && processCount >= 1
    requires 0 <= a < processCount && 0 <= b < processCount
    ensures TrialsToDo(trialCount, processCount, a) <= TrialsToDo(trialCount, processCount, b) + 1
  {
  }

  /** A lower rank never gets fewer trials than a higher one. */
  lemma SharesNonIncreasing(trialCount: int, processCount: int, a: int, b: int)
    requires trialCount >= 0 && processCount >= 1
    requires 0 <= a <= b < processCount
    ensures TrialsToDo(trialCount, processCount, b) <= TrialsToDo(trialCount, processCount, a)
  {
  }

  /** A single process gets every trial. */
  lemma OneProcessDoesAll(trialCount: int)
    requires trialCount >= 0
    ensures TrialsToDo(trialCount, 1, 0) == trialCount
  {
  }
}
