/**
 * The trial loop: build a hand, classify it, count it. This is the whole of
 * the single-process `main` and the per-process loop of the parallel one.
 */
module TrialLoop {
  import opened Cards
  import opened HandBuilder
  import opened Classifier

  /** Trials completed and how many of them were straight flushes. */
  datatype Tally = Tally(done: nat, hits: nat)

  /**
   * What one hand adds to the count: one when the classifier's answer holds
   * for it, zero otherwise.
   */
  function Score(h: seq<Card>): (k: nat)
    ensures k <= 1
  {
    if |h| == HandSize && StraightFlushHand(h) then 1 else 0
  }

  /** A five-card hand scores one exactly when it is a straight flush (the order-free definition). */
  lemma ScoreCountsStraightFlushes(h: seq<Card>)
    requires |h| == HandSize
    ensures Score(h) == 1 <==> IsStraightFlushSet(multiset(h))
  {
    StraightFlushHandMatchesReference(h);
  }

  /**
   * What `n` trials read from the draws at `pos` amount to: each trial deals
   * a hand with the rejection loop and counts it when it is a straight flush.
   * When the draws run out the trials stop, and `done` says how many ran.
   */
  function Trials(draws: seq<nat>, pos: nat, n: nat): (t: Tally)
    requires pos <= |draws|
    ensures t.hits <= t.done <= n
    decreases n
  {
    if n == 0 then Tally(0, 0)
    else
      match Fill(draws, pos, [])
      case OutOfDraws => Tally(0, 0)
      case Dealt(h, next) =>
        var rest := Trials(draws, next, n - 1);
        Tally(rest.done + 1, rest.hits + Score(h))
  }

  /** One completed hand followed by the `left` remaining trials. */
  lemma TrialsStep(draws: seq<nat>, pos: nat, left: nat, h: seq<Card>, next: nat, k: nat)
    requires pos <= |draws|
    requires Fill(draws, pos, []) == Dealt(h, next) && k == Score(h)
    ensures next <= |draws|
    ensures Trials(draws, pos, left + 1).done == Trials(draws, next, left).done + 1
    ensures Trials(draws, pos, left + 1).hits == Trials(draws, next, left).hits + k
  {
  }

  /** When the draws run out before a hand is complete, no further trial runs. */
  lemma TrialsStop(draws: seq<nat>, pos: nat, n: nat)
    requires pos <= |draws| && Fill(draws, pos, []) == OutOfDraws
    ensures Trials(draws, pos, n) == Tally(0, 0)
  {
  }

  /**
   * One iteration of the trial loop: deal a hand into `hand` with the
   * rejection loop, then classify it. `hit` is what the iteration adds to
   * the straight-flush count.
   */
  method PlayHand(hand: array<Card>, draws: seq<nat>, pos: nat) returns (complete: bool, next: nat, hit: nat, ghost dealt: seq<Card>)
    requires hand.Length == HandSize && pos <= |draws|
    modifies hand
    ensures complete <==> Fill(draws, pos, []).Dealt?
    ensures complete ==> Fill(draws, pos, []) == Dealt(dealt, next) && hit == Score(dealt)
    ensures complete ==> (hit == 1 <==> IsStraightFlushSet(multiset(dealt)))
    ensures complete ==> multiset(hand[..]) == multiset(dealt)
    ensures complete && Flush(dealt) ==> RanksAscending(hand[..])
    ensures complete && !Flush(dealt) ==> hand[..] == dealt
  {
    complete, next := BuildHand(hand, draws, pos);
    hit := 0;
    dealt := hand[..];
    if complete {
      ScoreCountsStraightFlushes(dealt);
      var isFlush := IsStraightFlush(hand);
      if isFlush != 0 {
        hit := 1;
      }
    }
  }

  /**
   * One iteration seen from the loop: given the tally `rest` of the `n`
   * trials still to run, it plays one hand and returns the tally `after` of
   * the `left == n - 1` trials that follow, and `hit` is the difference in
   * count.
   */
  method AdvanceTrial(hand: array<Card>, draws: seq<nat>, pos: nat, ghost n: nat, ghost rest: Tally) returns (complete: bool, next: nat, hit: nat, ghost after: Tally, ghost left: nat)
    requires hand.Length == HandSize && pos <= |draws| && n > 0 && rest == Trials(draws, pos, n)
    modifies hand
    ensures !complete ==> rest == Tally(0, 0)
    ensures left == n - 1
    ensures complete ==> next <= |draws| && after == Trials(draws, next, left)
    ensures complete ==> rest.done == after.done + 1 && rest.hits == after.hits + hit
  {
    ghost var dealt;
    complete, next, hit, dealt := PlayHand(hand, draws, pos);
    after := rest;
    left := n - 1;
    if complete {
      TrialsStep(draws, pos, left, dealt, next, hit);
      after := Trials(draws, next, left);
    } else {
      TrialsStop(draws, pos, n);
    }
  }

  /**
   * The `for` loop over `cnt` trials. One hand array is reused from trial to
   * trial, as in the source; the slots a trial does not overwrite are never
   * read. Reports how many trials ran and how many hands were straight
   * flushes. The ghost `rest` is the tally of the trials still to run.
   */
  method RunTrials(cnt: nat, draws: seq<nat>) returns (done: nat, straightFlushes: nat)
    ensures Tally(done, straightFlushes) == Trials(draws, 0, cnt)
    ensures straightFlushes <= done <= cnt
  {
    var pokerHand := new Card[HandSize];
    ghost var total := Trials(draws, 0, cnt);
    straightFlushes := 0;
    var pos: nat := 0;
    var i := 0;
    ghost var left: nat := cnt;
    ghost var rest := total;
    while i < cnt
      invariant 0 <= i <= cnt && left == cnt - i && pos <= |draws|
      invariant pokerHand.Length == HandSize
      invariant rest == Trials(draws, pos, left)
      invariant total.done == i + rest.done && total.hits == straightFlushes + rest.hits
    {
      var complete, next, hit, after, remaining := AdvanceTrial(pokerHand, draws, pos, left, rest);
      if !complete {
        return i, straightFlushes;
      }
      straightFlushes := straightFlushes + hit;
      pos := next;
      i := i + 1;
      left := remaining;
      rest := after;
    }
    done := cnt;
  }
}
