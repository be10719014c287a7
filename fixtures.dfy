/**
 * The debugging fixtures `makeStraightFlush1/2/3` and what the classifier
 * answers for them, together with two hands that must be answered 0.
 */
module Fixtures {
  import opened Cards
  import opened Classifier

  /** Ace to five of spades, already sorted. */
  function StraightFlush1(): seq<Card>
  {
    [Card(1, Spades), Card(2, Spades), Card(3, Spades), Card(4, Spades), Card(5, Spades)]
  }

  /** Four to eight of spades, out of order. */
  function StraightFlush2(): seq<Card>
  {
    [Card(4, Spades), Card(8, Spades), Card(7, Spades), Card(6, Spades), Card(5, Spades)]
  }

  /** Ten to king and the ace of spades, out of order (the ace-high run). */
  function StraightFlush3(): seq<Card>
  {
    [Card(11, Spades), Card(13, Spades), Card(12, Spades), Card(10, Spades), Card(1, Spades)]
  }

  /** makeStraightFlush1: fills the caller's hand slot by slot. */
  method MakeStraightFlush1(hand: array<Card>)
    requires hand.Length == HandSize
    modifies hand
    ensures hand[..] == StraightFlush1()
  {
    hand[0] := Card(1, Spades);
    hand[1] := Card(2, Spades);
    hand[2] := Card(3, Spades);
    hand[3] := Card(4, Spades);
    hand[4] := Card(5, Spades);
  }

  /** makeStraightFlush2: fills the caller's hand slot by slot. */
  method MakeStraightFlush2(hand: array<Card>)
    requires hand.Length == HandSize
    modifies hand
    ensures hand[..] == StraightFlush2()
  {
    hand[0] := Card(4, Spades);
    hand[1] := Card(8, Spades);
    hand[2] := Card(7, Spades);
    hand[3] := Card(6, Spades);
    hand[4] := Card(5, Spades);
  }

  /** makeStraightFlush3: fills the caller's hand slot by slot. */
  method MakeStraightFlush3(hand: array<Card>)
    requires hand.Length == HandSize
    modifies hand
    ensures hand[..] == StraightFlush3()
  {
    hand[0] := Card(11, Spades);
    hand[1] := Card(13, Spades);
    hand[2] := Card(12, Spades);
    hand[3] := Card(10, Spades);
    hand[4] := Card(1, Spades);
  }

  lemma StraightFlush1Qualifies()
    ensures IsStraightFlushSet(multiset(StraightFlush1()))
  {
    assert StraightFlush1() == Run(1, Spades);
  }

  lemma StraightFlush2Qualifies()
    ensures IsStraightFlushSet(multiset(StraightFlush2()))
  {
    assert multiset(StraightFlush2()) == multiset(Run(4, Spades));
  }

  lemma StraightFlush3Qualifies()
    ensures IsStraightFlushSet(multiset(StraightFlush3()))
  {
    assert multiset(StraightFlush3()) == multiset(AceHigh(Spades));
  }

  /** A fresh hand filled by makeStraightFlush1 is classified as a straight flush. */
  method ClassifyStraightFlush1() returns (r: int)
    ensures r == -1
  {
    var hand := new Card[HandSize];
    MakeStraightFlush1(hand);
    StraightFlush1Qualifies();
    r := IsStraightFlush(hand);
  }

  /** A fresh hand filled by makeStraightFlush2 is classified as a straight flush, though unsorted. */
  method ClassifyStraightFlush2() returns (r: int)
    ensures r == -1
  {
    var hand := new Card[HandSize];
    MakeStraightFlush2(hand);
    StraightFlush2Qualifies();
    r := IsStraightFlush(hand);
  }

  /** A fresh hand filled by makeStraightFlush3 is classified as a straight flush (the wrap case). */
  method ClassifyStraightFlush3() returns (r: int)
    ensures r == -1
  {
    var hand := new Card[HandSize];
    MakeStraightFlush3(hand);
    StraightFlush3Qualifies();
    r := IsStraightFlush(hand);
  }

  /** Consecutive ranks in mixed suits: no straight flush. */
  lemma MixedSuitsRunDoesNotQualify()
    ensures !IsStraightFlushSet(multiset([Card(2, Clubs), Card(3, Spades), Card(4, Hearts), Card(5, Diamonds), Card(6, Spades)]))
  {
    MixedSuitsNotStraightFlush([Card(2, Clubs), Card(3, Spades), Card(4, Hearts), Card(5, Diamonds), Card(6, Spades)], 1);
  }

  /** One suit with a gap in the ranks: no straight flush. */
  lemma GappedFlushDoesNotQualify()
    ensures !IsStraightFlushSet(multiset([Card(1, Spades), Card(2, Spades), Card(3, Spades), Card(4, Spades), Card(6, Spades)]))
  {
    var h := [Card(1, Spades), Card(2, Spades), Card(3, Spades), Card(4, Spades), Card(6, Spades)];
    assert AllOfSuit(h, Spades) && RanksAscending(h);
    SortedFlushClassification(h, Spades);
  }
}
