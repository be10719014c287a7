/**
 * The parallel program: every process receives the same trial count (the
 * broadcast), computes its share, runs its own trial loop on its own random
 * draws, and the local counts are added up at process 0 (the reduction).
 * Processes are modelled by their rank; process `r` reads the draws
 * `streams[r]`, standing for its own independently seeded generator.
 */
module Reduction {
  import opened Partition
  import opened TrialLoop
  import opened Sequences

  /**
   * The body of the parallel `main` for one process: the share arithmetic
   * (`trials_to_do`, `leftover_trials`, `trials_to_do +=`) followed by the
   * trial loop. Returns the share, the trials run and `localStraightFlushes`.
   */
  method Worker(trialCount: int, processCount: int, currentRank: int, draws: seq<nat>)
    returns (trialsToDo: nat, done: nat, localStraightFlushes: nat)
    requires trialCount >= 0 && processCount >= 1 && 0 <= currentRank < processCount
    ensures trialsToDo == TrialsToDo(trialCount, processCount, currentRank)
    ensures Tally(done, localStraightFlushes) == Trials(draws, 0, trialsToDo)
    ensures localStraightFlushes <= done <= trialsToDo
  {
    var share := trialCount / processCount;
    var leftoverTrials := trialCount % processCount;
    share := share + if currentRank < leftoverTrials then 1 else 0;
    trialsToDo := share;
    done, localStraightFlushes := RunTrials(trialsToDo, draws);
  }

  /** What process `r` reports: its trial loop over its share of the broadcast trial count. */
  ghost function WorkerTally(trialCount: int, processCount: int, streams: seq<seq<nat>>, r: int): (t: Tally)
    requires trialCount >= 0 && processCount >= 1 && |streams| == processCount && 0 <= r < processCount
    ensures t.hits <= t.done <= TrialsToDo(trialCount, processCount, r)
  {
    Trials(streams[r], 0, TrialsToDo(trialCount, processCount, r))
  }

  /** The local straight-flush counts, in rank order: the input of MPI_Reduce. */
  ghost function LocalCounts(trialCount: int, processCount: int, streams: seq<seq<nat>>): (counts: seq<nat>)
    requires trialCount >= 0 && processCount >= 1 && |streams| == processCount
    ensures |counts| == processCount
    ensures forall r :: 0 <= r < processCount ==> counts[r] == WorkerTally(trialCount, processCount, streams, r).hits
  {
    seq(processCount, r requires 0 <= r < processCount => WorkerTally(trialCount, processCount, streams, r).hits)
  }

  /** The trials each process completed, in rank order. */
  ghost function LocalDone(trialCount: int, processCount: int, streams: seq<seq<nat>>): (counts: seq<nat>)
    requires trialCount >= 0 && processCount >= 1 && |streams| == processCount
    ensures |counts| == processCount
    ensures forall r :: 0 <= r < processCount ==> counts[r] == WorkerTally(trialCount, processCount, streams, r).done
  {
    seq(processCount, r requires 0 <= r < processCount => WorkerTally(trialCount, processCount, streams, r).done)
  }

  /** A sum of counts each bounded by its own limit is bounded by the sum of the limits. */
  lemma {:induction false} SumBoundedPointwise(a: seq<nat>, b: seq<nat>)
    requires |a| == |b| && forall i :: 0 <= i < |a| ==> a[i] <= b[i]
    ensures Sum(a) <= Sum(b)
    decreases |a|
  {
    if a != [] {
      SumBoundedPointwise(a[..|a| - 1], b[..|b| - 1]);
    }
  }

  /** Two sequences that agree elementwise have the same sum. */
  lemma SumEqualPointwise(a: seq<nat>, b: seq<nat>)
    requires |a| == |b| && forall i :: 0 <= i < |a| ==> a[i] == b[i]
    ensures Sum(a) == Sum(b)
  {
    assert a == b;
  }

  /** The local counts add up to no more than the trial count. */
  lemma LocalCountsBounded(trialCount: int, processCount: int, streams: seq<seq<nat>>)
    requires trialCount >= 0 && processCount >= 1 && |streams| == processCount
    ensures Sum(LocalCounts(trialCount, processCount, streams)) <= trialCount
  {
    SumBoundedPointwise(LocalCounts(trialCount, processCount, streams), Shares(trialCount, processCount));
    SharesSumToTotal(trialCount, processCount);
  }

  /**
   * `globalStraightFlushes` at process 0: the sum of the local counts. It
   * never exceeds the trial count.
   */
  ghost function GlobalStraightFlushes(trialCount: int, processCount: int, streams: seq<seq<nat>>): (global: nat)
    requires trialCount >= 0 && processCount >= 1 && |streams| == processCount
    ensures global <= trialCount
  {
    LocalCountsBounded(trialCount, processCount, streams);
    Sum(LocalCounts(trialCount, processCount, streams))
  }

  /**
   * Every trial is counted exactly once: when no process runs out of draws,
   * the trials completed across all processes add up to the trial count.
   */
  lemma EveryTrialRunOnce(trialCount: int, processCount: int, streams: seq<seq<nat>>)
    requires trialCount >= 0 && processCount >= 1 && |streams| == processCount
    requires forall r :: 0 <= r < processCount ==>
      WorkerTally(trialCount, processCount, streams, r).done == TrialsToDo(trialCount, processCount, r)
    ensures Sum(LocalDone(trialCount, processCount, streams)) == trialCount
  {
    SumEqualPointwise(LocalDone(trialCount, processCount, streams), Shares(trialCount, processCount));
    SharesSumToTotal(trialCount, processCount);
  }

  /** The sum of a concatenation. */
  lemma {:induction false} SumAppend(a: seq<nat>, b: seq<nat>)
    ensures Sum(a + b) == Sum(a) + Sum(b)
    decreases |b|
  {
    if b == [] {
      assert a + b == a;
    } else {
      assert (a + b)[..|a + b| - 1] == a + b[..|b| - 1];
      SumAppend(a, b[..|b| - 1]);
    }
  }

  /** The sum of one count is that count. */
  lemma SumSingleton(x: nat)
    ensures Sum([x]) == x
  {
    assert [x][..0] == [];
  }

  /** The sum of three consecutive pieces. */
  lemma SumOfThree(front: seq<nat>, mid: seq<nat>, back: seq<nat>)
    ensures Sum(front + mid + back) == Sum(front + back) + Sum(mid)
  {
    SumAppend(front + mid, back);
    SumAppend(front, mid);
    SumAppend(front, back);
  }

  /** Taking out the element at `k` takes its value out of the sum. */
  lemma SumRemoveAt(b: seq<nat>, k: nat)
    requires k < |b|
    ensures Sum(b) == Sum(b[..k] + b[k + 1..]) + b[k]
  {
    SplitAround(b, k);
    SumOfThree(b[..k], [b[k]], b[k + 1..]);
    SumSingleton(b[k]);
  }

  /**
   * The order in which the local counts arrive does not change the global
   * count: the sum depends only on the multiset of counts.
   */
  lemma {:induction false} ReductionOrderIrrelevant(a: seq<nat>, b: seq<nat>)
    requires multiset(a) == multiset(b)
    ensures Sum(a) == Sum(b)
    decreases |a|
  {
    if a == [] {
      assert |b| == |multiset(b)| == 0;
      assert b == [];
    } else {
      var last := a[|a| - 1];
      assert last in multiset(b);
      var k := IndexOf(b, last);
      MultisetRemoveAt(a, |a| - 1);
      MultisetRemoveAt(b, k);
      SumRemoveAt(b, k);
      var rest := b[..k] + b[k + 1..];
      assert a[..|a| - 1] + a[|a|..] == a[..|a| - 1];
      ReductionOrderIrrelevant(a[..|a| - 1], rest);
    }
  }

  /** With one process the parallel program counts exactly what the serial one does. */
  lemma OneProcessMatchesSerial(trialCount: int, draws: seq<nat>)
    requires trialCount >= 0
    ensures GlobalStraightFlushes(trialCount, 1, [draws]) == Trials(draws, 0, trialCount).hits
  {
    OneProcessDoesAll(trialCount);
    var counts := LocalCounts(trialCount, 1, [draws]);
    assert [draws][0] == draws;
    assert counts[0] == Trials(draws, 0, trialCount).hits;
    assert counts[..0] == [];
    assert Sum(counts) == Sum(counts[..0]) + counts[0];
  }
}
