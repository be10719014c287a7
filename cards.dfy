/**
 * Cards and the card sampler.
 *
 * A card is a rank and a suit. The rank is kept as a plain integer, as in the
 * C structure, so that the classifier can be stated for whatever values a
 * hand slot happens to hold; the sampler only ever produces ranks 1..13.
 */
module Cards {

  /** The four suits, in the order of the SUIT enumeration (CLUBS=0 .. DIAMONDS=3). */
  datatype Suit = Clubs | Spades | Hearts | Diamonds

  /** The enumeration value of a suit. */
  function SuitCode(s: Suit): (code: nat)
    ensures code < 4
  {
    match s
    case Clubs => 0
    case Spades => 1
    case Hearts => 2
    case Diamonds => 3
  }

  /** The suit with enumeration value `code` (the cast `(SUIT)` of a value in 0..3). */
  function SuitOf(code: nat): (s: Suit)
    requires code < 4
    ensures SuitCode(s) == code
  {
    if code == 0 then Clubs
    else if code == 1 then Spades
    else if code == 2 then Hearts
    else Diamonds
  }

  datatype Card = Card(rank: int, suit: Suit)

  /** Number of slots of a `Hand` (`typedef Card Hand[5]`). */
  const HandSize := 5

  /** A card the sampler can produce: rank 1 (ace) to 13 (king). */
  predicate InRange(c: Card)
  {
    1 <= c.rank <= 13
  }

  /**
   * randomCard: the first draw of the random source gives the rank
   * (`value % 13 + 1`), the second the suit (`draw % 4`). The draws are the
   * non-negative results of the C library's rand().
   */
  function RandomCard(value: nat, suitDraw: nat): (card: Card)
    ensures InRange(card)
  {
    Card(value % 13 + 1, SuitOf(suitDraw % 4))
  }

  /** The sampler reaches every card: each in-range card comes from some pair of draws. */
  lemma RandomCardReachesEveryCard(c: Card)
    requires InRange(c)
    ensures RandomCard(c.rank - 1, SuitCode(c.suit)) == c
  {
  }

  /**
   * Within one period of the draws (value < 13, suitDraw < 4) distinct pairs
   * of draws give distinct cards, so the 52 pairs and the 52 cards correspond
   * one to one.
   */
  lemma RandomCardInjectiveOnPeriod(v1: nat, w1: nat, v2: nat, w2: nat)
    requires v1 < 13 && v2 < 13 && w1 < 4 && w2 < 4
    requires RandomCard(v1, w1) == RandomCard(v2, w2)
    ensures v1 == v2 && w1 == w2
  {
    assert SuitCode(RandomCard(v1, w1).suit) == w1;
    assert SuitCode(RandomCard(v2, w2).suit) == w2;
  }

  /** The card depends on the draws only modulo 13 and modulo 4. */
  lemma RandomCardPeriodic(value: nat, suitDraw: nat, k: nat, m: nat)
    ensures RandomCard(value + 13 * k, suitDraw + 4 * m) == RandomCard(value, suitDraw)
  {
    assert (value + 13 * k) % 13 == value % 13;
    assert (suitDraw + 4 * m) % 4 == suitDraw % 4;
  }
}
