# Straight-flush Monte Carlo estimator, modelled in Dafny

The program estimates how often a random five-card poker hand is a straight
flush. It deals many hands, classifies each one, counts the straight flushes
and reports the count. There are two versions:

- `poker_serial.c` runs all trials in one process.
- `poker_parallel.c` splits the trials over MPI processes. Process 0 reads
  the trial count and broadcasts it. Each process runs its share with its
  own random generator. The local counts are summed at process 0 with
  `MPI_Reduce`.

Both files contain the same `randomCard`, `inHand`, `isStraightFlush` and
`makeStraightFlush1/2/3`, and the same dealing-and-counting loop. The model
writes these once. The table cites the parallel file; the serial copies are:

- `randomCard`: poker_serial.c:20-25
- `inHand`: poker_serial.c:43-49
- `isStraightFlush`: poker_serial.c:56-79
- the fixtures: poker_serial.c:97-144
- the trial loop: poker_serial.c:153-169

Modules (one per file):

- `Cards` (cards.dfy): suits, cards and the card sampler `randomCard`.
- `HandBuilder` (hand.dfy): `inHand` and the rejection loop that deals five
  distinct cards.
- `Classifier` (classifier.dfy): `isStraightFlush`.
  - It is an in-place method on the caller's five-slot array.
  - It has the same early return for mixed suits and the same bubble sort
    of the ranks.
  - It uses the same final test on the sorted ranks.
  - Its answer is proved equal to a reference definition that ignores card
    order, and the hand it leaves is proved equal to an insertion sort of
    the hand by rank.
- `Fixtures` (fixtures.dfy): `makeStraightFlush1/2/3` and the classifier's
  known answers for them.
- `TrialLoop` (trials.dfy): the loop over the trials. One hand array is
  reused, as in the C code. The loop is tied to a specification function
  `Trials`.
- `Partition` (partition.dfy): the per-process share
  `trial_count / process_count + (rank < trial_count % process_count ? 1 : 0)`
  and the sum of all shares.
- `Reduction` (reduction.dfy):
  - one process's work, from its share to its local count;
  - the `MPI_SUM` reduction, modelled as the sum of the local counts in
    rank order.
- `Sequences` (sequences.dfy): the sum of a sequence of counts, which is the
  `MPI_SUM` of the reduction and the total of the shares, and generic facts
  about slots and multisets.

The random generator is a parameter. A process reads a sequence of
non-negative integers (`draws`) with a cursor. Each card reads two draws: the
rank first, then the suit, as `randomCard` calls `rand()`. In the parallel
program each process has its own seed, so process `r` reads its own
sequence `streams[r]`.

## Model

| member | source | states |
|---|---|---|
| Cards.SuitCode | poker_parallel.c:6 | the enumeration value of every suit is below 4 (CLUBS=0 .. DIAMONDS=3) |
| Cards.SuitOf | poker_parallel.c:24 | the cast of a value 0..3 to SUIT yields the suit whose enumeration value it is |
| Cards.RandomCard | poker_parallel.c:21-26 | a sampled card always has a rank from 1 to 13 (rank `value % 13 + 1`, suit `draw % 4`) |
| Cards.RandomCardReachesEveryCard | poker_parallel.c:21-26 | every one of the 52 cards is produced by some pair of draws |
| Cards.RandomCardInjectiveOnPeriod | poker_parallel.c:21-26 | within one period (value < 13, suit draw < 4) different draws give different cards, so the sampler is a bijection of 52 draw pairs onto 52 cards |
| Cards.RandomCardPeriodic | poker_parallel.c:23-24 | the card depends on the rank draw only modulo 13 and on the suit draw only modulo 4 |
| HandBuilder.InHand | poker_parallel.c:66-72 | answers 0 or -1, and is non-zero exactly when one of the first `cardCount` slots holds a card with the same rank and suit |
| HandBuilder.Fill | poker_parallel.c:210-219 | a completed deal has five pairwise-distinct cards in range, extends the cards already held, and moves the draw cursor forward |
| HandBuilder.BuildHand | poker_parallel.c:210-219 | the rejection loop completes exactly when the reference deal does; then the array holds exactly that hand, five distinct in-range cards, and the cursor ends where the reference deal says |
| Classifier.Flush | poker_parallel.c:82-85 | the suit loop lets the hand through exactly when one suit is shared by every card |
| Classifier.StraightTest | poker_parallel.c:94 | the final test on the sorted ranks holds exactly when the ranks run consecutively up from slot 0's, or slot 0 is the ace and the other four are 10, 11, 12, 13 |
| Classifier.SortedHandsSameHead | poker_parallel.c:86-94 | two one-suit hands sorted by rank with the same cards start with the same card |
| Classifier.SortedHandsEqual | poker_parallel.c:86-94 | two one-suit hands sorted by rank with the same cards are the same sequence |
| Classifier.SameCardsSameSuit | poker_parallel.c:82-85 | a hand with the same cards as a one-suit hand is of that suit |
| Classifier.MixedSuitsNotRun | poker_parallel.c:82-85 | a hand with two suits is not a five-card run of one suit |
| Classifier.MixedSuitsNotAceHigh | poker_parallel.c:82-85 | a hand with two suits is not the ace-high run of one suit |
| Classifier.MixedSuitsNotStraightFlush | poker_parallel.c:82-85 | the early `return 0` for a suit differing from slot 0's is correct: such a hand is no straight flush |
| Classifier.StraightTestSound | poker_parallel.c:94-98 | a one-suit hand passing the final rank test is a straight flush (a run lo..lo+4 or exactly 1,10,11,12,13) |
| Classifier.RunPassesTest | poker_parallel.c:94 | a sorted one-suit hand with the cards of a run passes the final test |
| Classifier.AceHighPassesTest | poker_parallel.c:94 | a sorted one-suit hand with the cards 1,10,11,12,13 passes the final test |
| Classifier.StraightTestComplete | poker_parallel.c:94-101 | every sorted one-suit straight flush passes the final test (no straight flush is answered 0) |
| Classifier.SortedFlushClassification | poker_parallel.c:94-101 | on a sorted flush the final test holds if and only if the hand is a straight flush by the order-free reference definition |
| Classifier.RankMultisetAppend | poker_parallel.c:86-93 | the ranks of a concatenation are the ranks of the two parts |
| Classifier.RankMultisetOfThree | poker_parallel.c:86-93 | the ranks of three concatenated pieces are the union of the pieces' ranks |
| Classifier.RankMultisetOfPair | poker_parallel.c:89-91 | two neighbouring ranks form the same multiset in either order |
| Classifier.SwapNeighbours | poker_parallel.c:89-91 | exchanging neighbouring slots keeps the multiset of cards and the multiset of ranks |
| Classifier.SwapRanks | poker_parallel.c:88-92 | exchanging the ranks of slots j and j+1 of a one-suit hand is exactly exchanging the two cards; suits stay, cards and ranks are preserved |
| Classifier.ExchangeStep | poker_parallel.c:87-92 | one compare-and-exchange at j carries the largest rank of slots 0..j to slot j+1, keeping the sorted tail |
| Classifier.PassEnd | poker_parallel.c:87-93 | after a pass, slot 4-i joins the sorted tail and no earlier rank exceeds it |
| Classifier.BubblePass | poker_parallel.c:87-93 | pass i of the bubble sort extends the sorted, dominating tail by one slot, keeping suits, cards and ranks |
| Classifier.SortByRank | poker_parallel.c:86-93 | definition: the hand sorted by rank by insertion, the reference for what the bubble sort leaves; it has as many cards as the hand |
| Classifier.InsertKeepsCards | poker_parallel.c:86-93 | inserting a card adds exactly that card to the multiset of cards |
| Classifier.InsertAbove | poker_parallel.c:86-93 | inserting a card into cards that all rank at least `lo`, the card included, gives cards that all rank at least `lo` |
| Classifier.InsertKeepsOrder | poker_parallel.c:86-93 | inserting into a hand ascending by rank keeps it ascending |
| Classifier.SortByRankKeepsCards | poker_parallel.c:86-93 | the sorted hand has exactly the cards of the hand |
| Classifier.SortByRankSorts | poker_parallel.c:86-93 | the sorted hand is ascending by rank |
| Classifier.SortedIsSortByRank | poker_parallel.c:86-93 | any one-suit hand ascending by rank with the cards of a one-suit hand `h` is `SortByRank(h)`: what the bubble sort leaves is determined by the cards |
| Classifier.NotFlushWitness | poker_parallel.c:82-85 | a hand that is not a flush has a slot whose suit differs from slot 0's, the one the suit loop returns at |
| Classifier.StraightFlushHandMatchesReference | poker_parallel.c:79-102 | "a flush whose cards sorted by rank pass the final test" holds exactly for the straight flushes of the order-free definition |
| Classifier.SortRanks | poker_parallel.c:86-93 | the four bubble-sort passes leave a one-suit hand ascending by rank, of the same suit, with the same cards and the same ranks |
| Classifier.SortedFlushOutcome | poker_parallel.c:86-101 | once a one-suit hand is sorted, its suits are slot for slot those of the original, it is `SortByRank` of the original, and the final test holds exactly when the original is a straight flush |
| Classifier.IsStraightFlush | poker_parallel.c:79-102 | answers 0 or -1; non-zero if and only if the original hand is a straight flush (order-free definition), equivalently a flush passing the final test once sorted; a hand of mixed suits is answered 0 and left unchanged; a flush ends as `SortByRank` of the original hand — ascending by rank, suits in place, the same cards — and the answer is exactly the source's final test on the sorted ranks |
| Fixtures.MakeStraightFlush1 | poker_parallel.c:120-131 | fills the hand with ace to five of spades, in order |
| Fixtures.MakeStraightFlush2 | poker_parallel.c:138-149 | fills the hand with 4,8,7,6,5 of spades |
| Fixtures.MakeStraightFlush3 | poker_parallel.c:156-167 | fills the hand with jack, king, queen, ten and ace of spades |
| Fixtures.StraightFlush1Qualifies | poker_parallel.c:115-131 | the first fixture is a straight flush (run from 1) |
| Fixtures.StraightFlush2Qualifies | poker_parallel.c:133-149 | the second fixture, though unsorted, is a straight flush (run from 4) |
| Fixtures.StraightFlush3Qualifies | poker_parallel.c:151-167 | the third fixture is the ace-high straight flush |
| Fixtures.ClassifyStraightFlush1 | poker_parallel.c:120-131 | the classifier answers -1 for a hand built by makeStraightFlush1 |
| Fixtures.ClassifyStraightFlush2 | poker_parallel.c:138-149 | the classifier answers -1 for a hand built by makeStraightFlush2 |
| Fixtures.ClassifyStraightFlush3 | poker_parallel.c:156-167 | the classifier answers -1 for a hand built by makeStraightFlush3 |
| Fixtures.MixedSuitsRunDoesNotQualify | poker_parallel.c:82-85 | consecutive ranks 2..6 in mixed suits are no straight flush |
| Fixtures.GappedFlushDoesNotQualify | poker_parallel.c:94 | a spade flush 1,2,3,4,6 is no straight flush |
| TrialLoop.Score | poker_parallel.c:220-221 | definition: what `localStraightFlushes++` adds for one hand, one for a five-card flush passing the final test once sorted and zero otherwise; never more than one |
| TrialLoop.ScoreCountsStraightFlushes | poker_parallel.c:220-221 | a five-card hand scores one exactly when it is a straight flush by the order-free definition |
| TrialLoop.Trials | poker_parallel.c:209-222 | n trials complete at most n hands and count at most as many straight flushes as hands |
| TrialLoop.TrialsStep | poker_parallel.c:209-222 | a completed hand adds one trial and its score to the `left` trials that follow it |
| TrialLoop.TrialsStop | poker_parallel.c:211-219 | once the draws cannot complete a hand, no further trial runs |
| TrialLoop.PlayHand | poker_parallel.c:210-221 | one iteration completes exactly when the reference deal does; it then deals that hand and adds its score, which is one exactly when the hand is a straight flush; the reused array then holds the dealt cards, sorted by rank when the hand is a flush and exactly as dealt otherwise |
| TrialLoop.AdvanceTrial | poker_parallel.c:209-222 | one iteration seen against the specification: when the hand completes, the tally of the n trials from here is one trial and `hit` more than the tally of the n - 1 that follow; when it does not, the tally from here is empty |
| TrialLoop.RunTrials | poker_serial.c:153-169 | the loop's trials and straight-flush count are exactly those of the specification `Trials`, with hits <= trials <= cnt |
| Sequences.Sum | poker_parallel.c:224-225 | the MPI_SUM of a sequence of counts, added from the front; no single count exceeds it |
| Partition.TrialsToDo | poker_parallel.c:191-193 | every share is T/P or T/P+1, and it is T/P+1 exactly for the ranks below T%P |
| Partition.Shares | poker_parallel.c:191-193 | definition: the list of the per-process shares, one per process in rank order |
| Partition.SharesPrefixSum | poker_parallel.c:191-193 | the first n shares add up to n*(T/P) plus the number of them below T%P |
| Partition.SharesSumToTotal | poker_parallel.c:191-193 | the shares of all processes add up to the trial count: no trial is lost or duplicated |
| Partition.SharesBalanced | poker_parallel.c:191-193 | any two shares differ by at most one |
| Partition.SharesNonIncreasing | poker_parallel.c:191-193 | a lower rank never gets fewer trials than a higher one |
| Partition.OneProcessDoesAll | poker_parallel.c:191-193 | a single process gets the whole trial count |
| Reduction.Worker | poker_parallel.c:191-222 | a process's share is TrialsToDo, and its trials and local count are those of the specification on its own draws, bounded by its share |
| Reduction.WorkerTally | poker_parallel.c:209-222 | what a process reports is bounded by its share |
| Reduction.LocalCounts | poker_parallel.c:225 | definition: the reduction's input, the local count of each process in rank order |
| Reduction.LocalDone | poker_parallel.c:209-222 | definition: the trials each process completed, in rank order |
| Reduction.SumBoundedPointwise | poker_parallel.c:225 | a sum of counts bounded one by one is bounded by the sum of the bounds |
| Reduction.SumEqualPointwise | poker_parallel.c:225 | counts that agree one by one have the same sum |
| Reduction.LocalCountsBounded | poker_parallel.c:225 | the local counts add up to no more than the trial count |
| Reduction.GlobalStraightFlushes | poker_parallel.c:224-225 | `globalStraightFlushes` at process 0, the MPI_SUM of the local counts, never exceeds the trial count |
| Reduction.EveryTrialRunOnce | poker_parallel.c:191-222 | when no process runs out of draws, the trials completed over all processes add up to the trial count |
| Reduction.SumAppend | poker_parallel.c:225 | the sum of a concatenation is the sum of the parts |
| Reduction.SumSingleton | poker_parallel.c:225 | the sum of one count is that count |
| Reduction.SumOfThree | poker_parallel.c:225 | moving a middle piece to the end does not change the sum |
| Reduction.SumRemoveAt | poker_parallel.c:225 | removing one count removes its value from the sum |
| Reduction.ReductionOrderIrrelevant | poker_parallel.c:225 | the order in which local counts arrive does not change MPI_SUM: equal multisets give equal sums |
| Reduction.OneProcessMatchesSerial | poker_parallel.c:191-225 | with one process the parallel global count equals the serial loop's count on the same draws |

## Left out

- MPI start-up and shutdown, `MPI_Comm_size`, `MPI_Comm_rank`, the broadcast in `getTotalTrials`, and timing with `MPI_Wtime`. The process count, the ranks and the broadcast value are parameters. Every process is assumed to receive the same trial count.
- Console input and output (`scanf`, `printf`, `printHand`, the `DEBUG` messages). Only the values they read or report are modelled.
- `srand`, `time` and the C library's `rand`. These are replaced by caller-supplied draw sequences. `RAND_MAX` is not modelled; draws are any non-negative integers.
- The floating-point percentage `straightFlushes / cnt * 100`. It is not modelled because the model has no floating point. With a trial count of 0 the source performs a float division by zero; the model leaves the percentage out.
- Termination of the rejection loop. It terminates only with probability 1, and only if the generator keeps producing new cards. The model reads a finite draw sequence. A deal that runs out of draws yields `OutOfDraws`, and the trial loop stops there.
- RunTrials: takes the trial count as a `nat`. A negative count, for which the C loop runs no trial, is outside the model.
- Reduction.Worker: requires a non-negative trial count and a positive process count. A negative count would make C's truncating `/` and `%` differ from Dafny's, and a zero process count cannot occur with MPI.
- HandBuilder.InHand: its contract speaks only of slots below `cardCount`. Stale slots of an earlier hand are never read, as in the source.
- Hand mutation: `isStraightFlush` sorts the caller's ranks in place; the model follows the code, and `Classifier.IsStraightFlush` states the new contents.
- 32-bit overflow of the straight-flush counters and of `trial_count`. Counts are unbounded integers; each count is at most the trial count, which is an `int`.
