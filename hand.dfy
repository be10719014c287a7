/**
 * The hand builder: the duplicate check `inHand` and the rejection loop of
 * `main` that fills a five-slot hand from the random source.
 *
 * The random source is a finite sequence of draws read from a cursor; each
 * card consumes two draws. The C loop runs until five distinct cards are
 * found, which happens with probability 1; here it also stops when the draws
 * run out, and says so.
 */
module HandBuilder {
  import opened Cards

  /** No two cards of `h` have the same rank and suit. */
  predicate Distinct(h: seq<Card>)
  {
    forall i, j :: 0 <= i < j < |h| ==> h[i] != h[j]
  }

  /** Every card of `h` is one the sampler can produce. */
  predicate AllInRange(h: seq<Card>)
  {
    forall i :: 0 <= i < |h| ==> InRange(h[i])
  }

  /**
   * inHand: scans the first `cardCount` slots for a card with the same rank
   * and suit; answers -1 when it finds one and 0 otherwise. Slots from
   * `cardCount` on (left over from an earlier hand) are never read.
   */
  method InHand(card: Card, hand: array<Card>, cardCount: int) returns (r: int)
    requires hand.Length == HandSize
    requires 0 <= cardCount <= HandSize
    ensures r == 0 || r == -1
    ensures r != 0 <==> exists i :: 0 <= i < cardCount && hand[i] == card
  {
    var i := 0;
    while i < cardCount
      invariant 0 <= i <= cardCount
      invariant forall k :: 0 <= k < i ==> hand[k] != card
    {
      if card.rank == hand[i].rank && card.suit == hand[i].suit {
        return -1;
      }
      i := i + 1;
    }
    return 0;
  }

  /** What one pass of the hand builder yields from the draws. */
  datatype Deal = Dealt(hand: seq<Card>, next: nat) | OutOfDraws

  /**
   * The hand the rejection loop completes from `acc`, reading draws from
   * `pos`: each pair of draws is a card, kept when it is new and skipped when
   * it duplicates a kept one. `next` is the cursor after the last draw used.
   */
  function Fill(draws: seq<nat>, pos: nat, acc: seq<Card>): (d: Deal)
    requires pos <= |draws| && |acc| <= HandSize
    requires Distinct(acc) && AllInRange(acc)
    ensures d.Dealt? ==> |d.hand| == HandSize && Distinct(d.hand) && AllInRange(d.hand)
    ensures d.Dealt? ==> d.hand[..|acc|] == acc && pos <= d.next <= |draws|
    ensures |acc| == HandSize ==> d == Dealt(acc, pos)
    decreases |draws| - pos
  {
    if |acc| == HandSize then Dealt(acc, pos)
    else if pos + 2 > |draws| then OutOfDraws
    else
      var card := RandomCard(draws[pos], draws[pos + 1]);
      if card in acc then Fill(draws, pos + 2, acc)
      else
        var d := Fill(draws, pos + 2, acc + [card]);
        assert d.Dealt? ==> d.hand[..|acc|] == (acc + [card])[..|acc|];
        d
  }

  /**
   * The `while (cardCount<5)` loop of `main`: draws cards, skips duplicates
   * and stores each new card at slot `cardCount`. When it completes, the hand
   * holds five pairwise-distinct cards in range, exactly those of `Fill`.
   */
  method BuildHand(hand: array<Card>, draws: seq<nat>, pos: nat) returns (complete: bool, next: nat)
    requires hand.Length == HandSize && pos <= |draws|
    modifies hand
    ensures complete <==> Fill(draws, pos, []).Dealt?
    ensures complete ==> Fill(draws, pos, []) == Dealt(hand[..], next)
    ensures complete ==> Distinct(hand[..]) && AllInRange(hand[..])
  {
    var cardCount := 0;
    next := pos;
    while cardCount < HandSize && next + 2 <= |draws|
      invariant 0 <= cardCount <= HandSize && pos <= next <= |draws|
      invariant Distinct(hand[..cardCount]) && AllInRange(hand[..cardCount])
      invariant Fill(draws, next, hand[..cardCount]) == Fill(draws, pos, [])
      decreases |draws| - next
    {
      var card := RandomCard(draws[next], draws[next + 1]);
      ghost var before := hand[..cardCount];
      var found := InHand(card, hand, cardCount);
      assert found != 0 <==> card in before;
      if found == 0 {
        hand[cardCount] := card;
        cardCount := cardCount + 1;
        assert hand[..cardCount] == before + [card];
      }
      next := next + 2;
    }
    complete := cardCount == HandSize;
    if complete {
      assert hand[..] == hand[..cardCount];
    }
  }
}
