/**
 * The straight-flush classifier `isStraightFlush`.
 *
 * As in the C code the classifier works on the caller's hand: it first
 * checks that every suit equals the suit of slot 0, then bubble-sorts the
 * ranks in place, then tests the sorted ranks for a run of five or for the
 * ace-high run [1, 10, 11, 12, 13]. The result is tied to a reference
 * definition that depends only on the multiset of cards, not their order.
 */
module Classifier {
  import opened Cards

  /**
   * Every card has the suit of the first one (the check of the first loop):
   * exactly the hands whose cards are all of one suit.
   */
  predicate Flush(h: seq<Card>): (b: bool)
    requires |h| > 0
    ensures b <==> exists s :: AllOfSuit(h, s)
  {
    var same := forall i :: 1 <= i < |h| ==> h[i].suit == h[0].suit;
    assert same ==> AllOfSuit(h, h[0].suit);
    same
  }

  /** Every card of `h` has suit `s`. */
  predicate AllOfSuit(h: seq<Card>, s: Suit)
  {
    forall i :: 0 <= i < |h| ==> h[i].suit == s
  }

  /** The ranks of `h` are in ascending order. */
  predicate RanksAscending(h: seq<Card>)
  {
    forall i, j :: 0 <= i < j < |h| ==> h[i].rank <= h[j].rank
  }

  /** The multiset of the ranks of the cards of `h`. */
  function RankMultiset(h: seq<Card>): multiset<int>
  {
    if h == [] then multiset{} else multiset{h[0].rank} + RankMultiset(h[1..])
  }

  /** The five cards of suit `s` with ranks lo, lo+1, .., lo+4. */
  function Run(lo: int, s: Suit): (h: seq<Card>)
    ensures |h| == HandSize && AllOfSuit(h, s) && RanksAscending(h)
  {
    [Card(lo, s), Card(lo + 1, s), Card(lo + 2, s), Card(lo + 3, s), Card(lo + 4, s)]
  }

  /** The ace-high run of suit `s`: ranks 1, 10, 11, 12, 13. */
  function AceHigh(s: Suit): (h: seq<Card>)
    ensures |h| == HandSize && AllOfSuit(h, s) && RanksAscending(h)
  {
    [Card(1, s), Card(10, s), Card(11, s), Card(12, s), Card(13, s)]
  }

  /**
   * Reference definition: a collection of cards is a straight flush when it
   * is, as a multiset, a run of five of one suit or the ace-high run of one
   * suit. Card order plays no part.
   */
  ghost predicate IsStraightFlushSet(m: multiset<Card>)
  {
    (exists lo, s :: m == multiset(Run(lo, s))) || (exists s :: m == multiset(AceHigh(s)))
  }

  /**
   * The test of the sorted ranks, written as in the source. It accepts
   * exactly five consecutive ranks, and the ranks 1, 10, 11, 12, 13.
   */
  predicate StraightTest(h: seq<Card>): (b: bool)
    requires |h| == HandSize
    ensures b <==> (forall k :: 1 <= k < HandSize ==> h[k].rank == h[0].rank + k)
                   || (h[0].rank == 1 && forall k :: 1 <= k < HandSize ==> h[k].rank == 9 + k)
  {
    h[4].rank == h[3].rank + 1 && h[3].rank == h[2].rank + 1 && h[2].rank == h[1].rank + 1
    && (h[1].rank == h[0].rank + 1 || (h[0].rank == 1 && h[4].rank == 13))
  }

  /** Two one-suit hands sorted by rank with the same cards start with the same card. */
  lemma SortedHandsSameHead(a: seq<Card>, sa: Suit, b: seq<Card>, sb: Suit)
    requires |a| > 0 && |b| > 0
    requires AllOfSuit(a, sa) && AllOfSuit(b, sb)
    requires RanksAscending(a) && RanksAscending(b)
    requires multiset(a) == multiset(b)
    ensures a[0] == b[0]
  {
    assert a[0] in multiset(b);
    var k :| 0 <= k < |b| && b[k] == a[0];
    assert b[0] in multiset(a);
    var m :| 0 <= m < |a| && a[m] == b[0];
    assert a[0].rank == b[0].rank;
  }

  /** Dropping the first card of a hand drops one copy of it from the multiset. */
  lemma MultisetOfTail(a: seq<Card>)
    requires |a| > 0
    ensures multiset(a[1..]) == multiset(a) - multiset{a[0]}
  {
    assert a == [a[0]] + a[1..];
  }

  /** The rest of a one-suit sorted hand is a one-suit sorted hand. */
  lemma SortedTail(a: seq<Card>, s: Suit)
    requires |a| > 0 && AllOfSuit(a, s) && RanksAscending(a)
    ensures AllOfSuit(a[1..], s) && RanksAscending(a[1..])
  {
  }

  /** Two hands of one suit each, both sorted by rank, with the same cards, are the same sequence. */
  lemma {:induction false} SortedHandsEqual(a: seq<Card>, sa: Suit, b: seq<Card>, sb: Suit)
    requires AllOfSuit(a, sa) && AllOfSuit(b, sb)
    requires RanksAscending(a) && RanksAscending(b)
    requires multiset(a) == multiset(b)
    ensures a == b
    decreases |a|
  {
    assert |a| == |multiset(a)| == |multiset(b)| == |b|;
    if |a| > 0 {
      SortedHandsSameHead(a, sa, b, sb);
      MultisetOfTail(a);
      MultisetOfTail(b);
      SortedTail(a, sa);
      SortedTail(b, sb);
      SortedHandsEqual(a[1..], sa, b[1..], sb);
      assert a == [a[0]] + a[1..];
      assert b == [b[0]] + b[1..];
    }
  }

  /** Cards with the same multiset as a one-suit hand are all of that suit. */
  lemma SameCardsSameSuit(h: seq<Card>, g: seq<Card>, t: Suit)
    requires multiset(h) == multiset(g) && AllOfSuit(g, t)
    ensures AllOfSuit(h, t)
  {
    forall i | 0 <= i < |h|
      ensures h[i].suit == t
    {
      assert h[i] in multiset(g);
      var k :| 0 <= k < |g| && g[k] == h[i];
    }
  }

  /** A hand whose suits differ is not a run of one suit. */
  lemma MixedSuitsNotRun(h: seq<Card>, i: nat, lo: int, s: Suit)
    requires i < |h| && h[i].suit != h[0].suit
    ensures multiset(h) != multiset(Run(lo, s))
  {
    if multiset(h) == multiset(Run(lo, s)) {
      SameCardsSameSuit(h, Run(lo, s), s);
      assert false;
    }
  }

  /** A hand whose suits differ is not an ace-high run of one suit. */
  lemma MixedSuitsNotAceHigh(h: seq<Card>, i: nat, s: Suit)
    requires i < |h| && h[i].suit != h[0].suit
    ensures multiset(h) != multiset(AceHigh(s))
  {
    if multiset(h) == multiset(AceHigh(s)) {
      SameCardsSameSuit(h, AceHigh(s), s);
      assert false;
    }
  }

  /** A hand whose suits differ is no straight flush (the early `return 0`). */
  lemma MixedSuitsNotStraightFlush(h: seq<Card>, i: nat)
    requires i < |h| && h[i].suit != h[0].suit
    ensures !IsStraightFlushSet(multiset(h))
  {
    forall lo: int, s: Suit
      ensures multiset(h) != multiset(Run(lo, s))
    {
      MixedSuitsNotRun(h, i, lo, s);
    }
    forall s: Suit
      ensures multiset(h) != multiset(AceHigh(s))
    {
      MixedSuitsNotAceHigh(h, i, s);
    }
  }

  /** A sorted flush that passes the test of the source is a run or the ace-high run. */
  lemma StraightTestSound(h: seq<Card>, s: Suit)
    requires |h| == HandSize && AllOfSuit(h, s) && StraightTest(h)
    ensures IsStraightFlushSet(multiset(h))
  {
    if h[1].rank == h[0].rank + 1 {
      assert h == Run(h[0].rank, s);
    } else {
      assert h == AceHigh(s);
    }
  }

  /** A sorted flush with the cards of a run passes the test of the source. */
  lemma RunPassesTest(h: seq<Card>, s: Suit, lo: int, t: Suit)
    requires |h| == HandSize && AllOfSuit(h, s) && RanksAscending(h)
    requires multiset(h) == multiset(Run(lo, t))
    ensures StraightTest(h)
  {
    SortedHandsEqual(h, s, Run(lo, t), t);
  }

  /** A sorted flush with the cards of the ace-high run passes the test of the source. */
  lemma AceHighPassesTest(h: seq<Card>, s: Suit, t: Suit)
    requires |h| == HandSize && AllOfSuit(h, s) && RanksAscending(h)
    requires multiset(h) == multiset(AceHigh(t))
    ensures StraightTest(h)
  {
    SortedHandsEqual(h, s, AceHigh(t), t);
  }

  /** A sorted flush that is a straight flush by the reference definition passes the test of the source. */
  lemma StraightTestComplete(h: seq<Card>, s: Suit)
    requires |h| == HandSize && AllOfSuit(h, s) && RanksAscending(h)
    requires IsStraightFlushSet(multiset(h))
    ensures StraightTest(h)
  {
    if exists lo, t :: multiset(h) == multiset(Run(lo, t)) {
      var lo, t :| multiset(h) == multiset(Run(lo, t));
      RunPassesTest(h, s, lo, t);
    } else {
      var t :| multiset(h) == multiset(AceHigh(t));
      AceHighPassesTest(h, s, t);
    }
  }

  /**
   * For a flush sorted by rank, the test of the source holds exactly when the
   * hand is a straight flush by the reference definition.
   */
  lemma SortedFlushClassification(h: seq<Card>, s: Suit)
    requires |h| == HandSize && AllOfSuit(h, s) && RanksAscending(h)
    ensures StraightTest(h) <==> IsStraightFlushSet(multiset(h))
  {
    if StraightTest(h) {
      StraightTestSound(h, s);
    }
    if IsStraightFlushSet(multiset(h)) {
      StraightTestComplete(h, s);
    }
  }

  /** Inserts `c` into `h` before the first card of rank at least `c`'s. */
  function Insert(c: Card, h: seq<Card>): (r: seq<Card>)
    ensures |r| == |h| + 1
  {
    if h == [] || c.rank <= h[0].rank then [c] + h else [h[0]] + Insert(c, h[1..])
  }

  /**
   * The hand sorted by rank (insertion sort): the reference for what the
   * bubble sort of the classifier leaves in the hand.
   */
  function SortByRank(h: seq<Card>): (r: seq<Card>)
    ensures |r| == |h|
  {
    if h == [] then [] else Insert(h[0], SortByRank(h[1..]))
  }

  /** Insertion adds exactly the inserted card. */
  lemma {:induction false} InsertKeepsCards(c: Card, h: seq<Card>)
    ensures multiset(Insert(c, h)) == multiset(h) + multiset{c}
  {
    if h != [] && c.rank > h[0].rank {
      InsertKeepsCards(c, h[1..]);
      assert h == [h[0]] + h[1..];
    }
  }

  /** Every card of `Insert(c, t)` ranks at least `lo` when `c` and every card of `t` do. */
  lemma InsertAbove(c: Card, t: seq<Card>, lo: int)
    requires lo <= c.rank && forall k :: 0 <= k < |t| ==> lo <= t[k].rank
    ensures forall k :: 0 <= k < |t| + 1 ==> lo <= Insert(c, t)[k].rank
  {
    InsertKeepsCards(c, t);
    forall k | 0 <= k < |t| + 1
      ensures lo <= Insert(c, t)[k].rank
    {
      var x := Insert(c, t)[k];
      assert x in multiset(Insert(c, t));
      if x != c {
        assert x in multiset(t);
      }
    }
  }

  /** Insertion into an ascending hand keeps it ascending. */
  lemma {:induction false} InsertKeepsOrder(c: Card, h: seq<Card>)
    requires RanksAscending(h)
    ensures RanksAscending(Insert(c, h))
  {
    if h != [] && c.rank > h[0].rank {
      var t := h[1..];
      InsertKeepsOrder(c, t);
      InsertAbove(c, t, h[0].rank);
      assert Insert(c, h) == [h[0]] + Insert(c, t);
    }
  }

  /** SortByRank keeps the cards of the hand. */
  lemma {:induction false} SortByRankKeepsCards(h: seq<Card>)
    ensures multiset(SortByRank(h)) == multiset(h)
  {
    if h != [] {
      SortByRankKeepsCards(h[1..]);
      InsertKeepsCards(h[0], SortByRank(h[1..]));
      assert h == [h[0]] + h[1..];
    }
  }

  /** SortByRank leaves the ranks ascending. */
  lemma {:induction false} SortByRankSorts(h: seq<Card>)
    ensures RanksAscending(SortByRank(h))
  {
    if h != [] {
      SortByRankSorts(h[1..]);
      InsertKeepsOrder(h[0], SortByRank(h[1..]));
    }
  }

  /**
   * The classifier's answer as a computable predicate: a flush whose cards,
   * sorted by rank, pass the test of the source.
   */
  predicate StraightFlushHand(h: seq<Card>)
    requires |h| == HandSize
  {
    Flush(h) && StraightTest(SortByRank(h))
  }

  /** A one-suit hand sorted by rank with the cards of `h` is `SortByRank(h)`. */
  lemma SortedIsSortByRank(g: seq<Card>, h: seq<Card>, s: Suit)
    requires AllOfSuit(g, s) && AllOfSuit(h, s) && RanksAscending(g)
    requires multiset(g) == multiset(h)
    ensures g == SortByRank(h)
  {
    SortByRankKeepsCards(h);
    SortByRankSorts(h);
    SameCardsSameSuit(SortByRank(h), h, s);
    SortedHandsEqual(g, s, SortByRank(h), s);
  }

  /** A hand that is not a flush has a slot whose suit differs from slot 0's. */
  lemma NotFlushWitness(h: seq<Card>) returns (i: nat)
    requires |h| > 0 && !Flush(h)
    ensures i < |h| && h[i].suit != h[0].suit
  {
    assert !AllOfSuit(h, h[0].suit);
    i :| 0 <= i < |h| && h[i].suit != h[0].suit;
  }

  /** The computable answer agrees with the order-free reference on every five-card hand. */
  lemma StraightFlushHandMatchesReference(h: seq<Card>)
    requires |h| == HandSize
    ensures StraightFlushHand(h) <==> IsStraightFlushSet(multiset(h))
  {
    if Flush(h) {
      var s := h[0].suit;
      assert AllOfSuit(h, s);
      var g := SortByRank(h);
      SortByRankKeepsCards(h);
      SortByRankSorts(h);
      SameCardsSameSuit(g, h, s);
      SortedFlushClassification(g, s);
    } else {
      var i := NotFlushWitness(h);
      MixedSuitsNotStraightFlush(h, i);
    }
  }

  /** The rank multiset of a concatenation is the sum of the rank multisets. */
  lemma {:induction false} RankMultisetAppend(x: seq<Card>, y: seq<Card>)
    ensures RankMultiset(x + y) == RankMultiset(x) + RankMultiset(y)
    decreases |x|
  {
    if x != [] {
      assert (x + y)[1..] == x[1..] + y;
      RankMultisetAppend(x[1..], y);
    } else {
      assert x + y == y;
    }
  }

  /** The rank multiset of three concatenated pieces. */
  lemma RankMultisetOfThree(front: seq<Card>, mid: seq<Card>, back: seq<Card>)
    ensures RankMultiset(front + (mid + back)) == RankMultiset(front) + RankMultiset(mid) + RankMultiset(back)
  {
    RankMultisetAppend(front, mid + back);
    RankMultisetAppend(mid, back);
  }

  /** Two cards have the same rank multiset in either order. */
  lemma RankMultisetOfPair(x: Card, y: Card)
    ensures RankMultiset([x, y]) == RankMultiset([y, x])
  {
    assert [x, y][1..] == [y];
    assert [y, x][1..] == [x];
  }

  /** Exchanging two neighbouring cards keeps the cards and their ranks. */
  lemma SwapNeighbours(h: seq<Card>, j: nat)
    requires j + 1 < |h|
    ensures multiset(h[j := h[j + 1]][j + 1 := h[j]]) == multiset(h)
    ensures RankMultiset(h[j := h[j + 1]][j + 1 := h[j]]) == RankMultiset(h)
  {
    var front, back := h[..j], h[j + 2..];
    assert h == front + ([h[j], h[j + 1]] + back);
    assert h[j := h[j + 1]][j + 1 := h[j]] == front + ([h[j + 1], h[j]] + back);
    RankMultisetOfThree(front, [h[j], h[j + 1]], back);
    RankMultisetOfThree(front, [h[j + 1], h[j]], back);
    RankMultisetOfPair(h[j], h[j + 1]);
  }

  /**
   * One exchange of the bubble sort: swaps the ranks of slots `j` and `j+1`.
   * The suits stay in place; since the hand is one suit, this is the same as
   * swapping the two cards.
   */
  method SwapRanks(hand: array<Card>, j: int, ghost suit: Suit)
    requires 0 <= j && j + 1 < hand.Length && AllOfSuit(hand[..], suit)
    modifies hand
    ensures hand[..] == old(hand[..])[j := old(hand[j + 1])][j + 1 := old(hand[j])]
    ensures AllOfSuit(hand[..], suit)
    ensures multiset(hand[..]) == multiset(old(hand[..]))
    ensures RankMultiset(hand[..]) == RankMultiset(old(hand[..]))
  {
    SwapNeighbours(hand[..], j);
    var swap := hand[j].rank;
    hand[j] := hand[j].(rank := hand[j + 1].rank);
    hand[j + 1] := hand[j + 1].(rank := swap);
  }

  /** Slots from `m` on are in ascending rank order. */
  predicate SortedFrom(h: seq<Card>, m: int)
  {
    forall k, l :: m <= k < l < |h| && 0 <= k ==> h[k].rank <= h[l].rank
  }

  /** No rank before slot `m` exceeds a rank from slot `m` on. */
  predicate SplitAt(h: seq<Card>, m: int)
  {
    forall k, l :: 0 <= k < m <= l < |h| ==> h[k].rank <= h[l].rank
  }

  /** Slot `j` holds a largest rank of slots 0..j. */
  predicate MaxAt(h: seq<Card>, j: int)
    requires 0 <= j < |h|
  {
    forall k :: 0 <= k <= j ==> h[k].rank <= h[j].rank
  }

  /** One compare-and-exchange at `j` carries the largest rank of slots 0..j on to slot j+1. */
  lemma ExchangeStep(before: seq<Card>, after: seq<Card>, j: int, m: int)
    requires 0 <= j && j + 1 < m <= |before|
    requires MaxAt(before, j) && SortedFrom(before, m) && SplitAt(before, m)
    requires after == if before[j].rank > before[j + 1].rank
                      then before[j := before[j + 1]][j + 1 := before[j]] else before
    ensures MaxAt(after, j + 1) && SortedFrom(after, m) && SplitAt(after, m)
  {
  }

  /** At the end of a pass, slot m-1 joins the sorted part. */
  lemma PassEnd(h: seq<Card>, m: int)
    requires 0 < m <= |h| && MaxAt(h, m - 1) && SortedFrom(h, m) && SplitAt(h, m)
    ensures SortedFrom(h, m - 1) && SplitAt(h, m - 1)
  {
  }

  /**
   * Pass `i` of the bubble sort: moves the largest rank of slots 0..4-i to
   * slot 4-i, leaving slots from 5-i on (already sorted, and no smaller than
   * anything before them) as they are.
   */
  method BubblePass(hand: array<Card>, i: int, ghost suit: Suit)
    requires hand.Length == HandSize && 0 <= i < 4 && AllOfSuit(hand[..], suit)
    requires SortedFrom(hand[..], HandSize - i) && SplitAt(hand[..], HandSize - i)
    modifies hand
    ensures AllOfSuit(hand[..], suit)
    ensures SortedFrom(hand[..], 4 - i) && SplitAt(hand[..], 4 - i)
    ensures multiset(hand[..]) == multiset(old(hand[..]))
    ensures RankMultiset(hand[..]) == RankMultiset(old(hand[..]))
  {
    var j := 0;
    while j < 4 - i
      invariant 0 <= j <= 4 - i
      invariant AllOfSuit(hand[..], suit)
      invariant MaxAt(hand[..], j) && SortedFrom(hand[..], HandSize - i) && SplitAt(hand[..], HandSize - i)
      invariant multiset(hand[..]) == multiset(old(hand[..]))
      invariant RankMultiset(hand[..]) == RankMultiset(old(hand[..]))
    {
      ghost var before := hand[..];
      if hand[j].rank > hand[j + 1].rank {
        SwapRanks(hand, j, suit);
      }
      ExchangeStep(before, hand[..], j, HandSize - i);
      j := j + 1;
    }
    PassEnd(hand[..], HandSize - i);
  }

  /**
   * The two nested `for` loops of isStraightFlush: four bubble-sort passes
   * over the ranks of a one-suit hand. The ranks end ascending; the hand
   * keeps its suit, its cards and its ranks.
   */
  method SortRanks(hand: array<Card>, ghost suit: Suit)
    requires hand.Length == HandSize && AllOfSuit(hand[..], suit)
    modifies hand
    ensures AllOfSuit(hand[..], suit) && RanksAscending(hand[..])
    ensures multiset(hand[..]) == multiset(old(hand[..]))
    ensures RankMultiset(hand[..]) == RankMultiset(old(hand[..]))
  {
    var i := 0;
    while i < 4
      invariant 0 <= i <= 4
      invariant AllOfSuit(hand[..], suit)
      invariant SortedFrom(hand[..], HandSize - i) && SplitAt(hand[..], HandSize - i)
      invariant multiset(hand[..]) == multiset(old(hand[..]))
      invariant RankMultiset(hand[..]) == RankMultiset(old(hand[..]))
    {
      BubblePass(hand, i, suit);
      i := i + 1;
    }
    assert RanksAscending(hand[..]);
  }

  /** The suits of a hand, slot by slot. */
  function SuitsOf(h: seq<Card>): (suits: seq<Suit>)
    ensures |suits| == |h| && forall k :: 0 <= k < |h| ==> suits[k] == h[k].suit
  {
    seq(|h|, k requires 0 <= k < |h| => h[k].suit)
  }

  /**
   * What the classifier concludes once a one-suit hand `h` has been sorted
   * into `g`: the suits are where they were, `g` is `SortByRank(h)`, and the
   * final test on `g` holds exactly when `h` is a straight flush.
   */
  lemma SortedFlushOutcome(g: seq<Card>, h: seq<Card>, s: Suit)
    requires |g| == HandSize && |h| == HandSize
    requires AllOfSuit(g, s) && AllOfSuit(h, s) && RanksAscending(g) && multiset(g) == multiset(h)
    ensures SuitsOf(g) == SuitsOf(h)
    ensures g == SortByRank(h)
    ensures StraightTest(g) <==> IsStraightFlushSet(multiset(h))
    ensures StraightTest(g) <==> StraightFlushHand(h)
  {
    SortedFlushClassification(g, s);
    SortedIsSortByRank(g, h, s);
    assert Flush(h);
  }

  /**
   * isStraightFlush, on the caller's five-slot hand. Answers -1 for a
   * straight flush and 0 otherwise. A hand with mixed suits is answered 0
   * before anything moves. For a flush the ranks end ascending, the suits
   * stay where they were and only the ranks move, so the hand keeps the same
   * cards.
   */
  method IsStraightFlush(hand: array<Card>) returns (r: int)
    requires hand.Length == HandSize
    modifies hand
    ensures r == 0 || r == -1
    ensures r != 0 <==> IsStraightFlushSet(multiset(old(hand[..])))
    ensures r != 0 <==> StraightFlushHand(old(hand[..]))
    ensures !Flush(old(hand[..])) ==> r == 0 && hand[..] == old(hand[..])
    ensures Flush(old(hand[..])) ==> hand[..] == SortByRank(old(hand[..]))
    ensures Flush(old(hand[..])) ==>
      && RanksAscending(hand[..])
      && SuitsOf(hand[..]) == SuitsOf(old(hand[..]))
      && RankMultiset(hand[..]) == RankMultiset(old(hand[..]))
      && multiset(hand[..]) == multiset(old(hand[..]))
      && (r != 0 <==> StraightTest(hand[..]))
  {
    ghost var original := hand[..];
    var suit := hand[0].suit;
    var i := 1;
    while i < HandSize
      invariant 1 <= i <= HandSize
      invariant forall k :: 0 <= k < i ==> hand[k].suit == suit
    {
      if hand[i].suit != suit {
        MixedSuitsNotStraightFlush(hand[..], i);
        return 0;
      }
      i := i + 1;
    }
    assert AllOfSuit(original, suit);

    SortRanks(hand, suit);
    SortedFlushOutcome(hand[..], original, suit);
    if hand[4].rank == hand[3].rank + 1 && hand[3].rank == hand[2].rank + 1 && hand[2].rank == hand[1].rank + 1
       && (hand[1].rank == hand[0].rank + 1 || (hand[0].rank == 1 && hand[4].rank == 13))
    {
      return -1;
    }
    return 0;
  }
}
