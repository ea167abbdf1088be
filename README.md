# Poker hands sorter — a Dafny model of the classifier and the comparator

`poker_hands_sorter.py` reads rounds of two five-card poker hands and says which player wins each round. It has two parts, and this project models both:

- **`PokerHand`** maps each two-character token (`"TD"`, `"5H"`) to a numeric card. Picture letters T, J, Q, K and A become 10 to 14; digits are read as numbers. It sorts the cards by value with a stable sort. It then runs the pattern tests from the strongest category down. The first test that matches sets the category code (`"10"` Royal Flush … `"1"` High Card) and the key cards.
- **`Sorter`** compares two hands:
  - Different codes: the larger code wins, where `max` compares the codes as strings.
  - Equal codes: the hands are compared on their key cards. Each side's values are sorted from the highest down, and the first position where they differ decides.
  - Still equal: the same comparison is made on the cards left once the key cards are removed.

Modules, following the structure of the program:

| module | file | what it holds |
|---|---|---|
| `Cards` | `cards.dfy` | tokens, numeric cards, the token→card mapping, the stable sort by value |
| `Patterns` | `patterns.dfy` | the pattern tests, each as a function with a method that computes it the way the source does |
| `RankCodes` | `rank_codes.dfy` | the category codes as strings and Python's string order on them |
| `Classifier` | `classifier.dfy` | the rank calculation and the `PokerHand` class |
| `Counting` | `counting.dfy` | how often a value occurs, and which cards the sliding-window n-of-a-kind test collects |
| `Categories` | `categories.dfy` | the categories defined from value multiplicities, and the proof that the classifier agrees with them |
| `Comparator` | `sorter.dfy` | the card comparison, the decision, and the `Sorter` class |
| `Showdown` | `showdown.dfy` | what the comparator decides for two valid hands, in terms of their categories |

The state-changing parts of the source are imperative Dafny:
- the constructor of `PokerHand`;
- the loops of the pattern tests and of the card comparison;
- the removal of the key cards one at a time;
- `get_winner_hand`, which updates the sorter's `winner_hand`.

Each method is proved equal to a function, and the properties are proved about those functions.

The model follows the code where it differs from the program's intended design:
- **Code order.** The codes are compared as strings, so a Royal Flush (`"10"`) beats only a High Card (`"1"`). `RankCodes.RoyalFlushCodeOrder` and `Showdown.CategoryDecides` state this.
- **Full-house key cards.** A full house reports its pair as key cards, not its three of a kind. Full houses are therefore compared on the pair first (`Showdown.FullHouseByPair`).
- **n-of-a-kind test.** It collects every window of n cards that share a value, drops repeated cards, and keeps the result only when its length is a multiple of n. With a three of a kind it therefore finds no pair at all (`Categories.PairTestSkipsThree`).
- **Ace-low straight.** A-2-3-4-5 is not a straight (`Categories.LowAceIsNoStraight`).

## Model

| member | source | states |
|---|---|---|
| Cards.RankValue | poker_hands_sorter.py:10 | a rank character maps to a value from 2 to 14; the thirteen characters in order map to 2..14 in order |
| Cards.MapCard | poker_hands_sorter.py:28-29 | a token becomes a valid card with the token's suit; a digit keeps its numeric value |
| Cards.TokenRoundTrip | poker_hands_sorter.py:28-29 | writing the mapped card back gives the original token |
| Cards.CardRoundTrip | poker_hands_sorter.py:28-29 | the token written for a valid card is valid and maps back to that card |
| Cards.MapCardInjective | poker_hands_sorter.py:28-29 | two valid tokens that map to the same card are the same token |
| Cards.MapCards | poker_hands_sorter.py:29 | the mapped list has one card per token, each the mapping of its token |
| Cards.MapCardsDistinct | poker_hands_sorter.py:29 | different tokens give different cards, so a hand without repeated tokens has no repeated cards |
| Cards.Insert | poker_hands_sorter.py:25 | inserting into a sorted list gives a sorted list with one more card and the same cards plus the new one |
| Cards.SortCards | poker_hands_sorter.py:24-25 | the result is sorted ascending by value and is a permutation of the input |
| Cards.InsertOfValue | poker_hands_sorter.py:25 | insertion places the new card ahead of the cards of equal value and leaves the other values' cards in order |
| Cards.SortCardsStable | poker_hands_sorter.py:24-25 | the sort is stable: the cards of each value keep their input order |
| Cards.SortCardsValues | poker_hands_sorter.py:24-25 | sorting keeps the multiset of values |
| Patterns.SameValue | poker_hands_sorter.py:41-43 | true exactly when the list is non-empty and every card has the first card's value |
| Patterns.SameSuit | poker_hands_sorter.py:45-47 | true exactly when the list is non-empty and every card has the first card's suit |
| Patterns.CheckStraight | poker_hands_sorter.py:31-39 | the loop returns true exactly when each value is one more than the value before it |
| Patterns.ConsecutiveFromFirst | poker_hands_sorter.py:31-39 | in a consecutive run, the card at position i has the first value plus i |
| Patterns.Windows | poker_hands_sorter.py:52 | the windows are the slices of n consecutive cards, one per start position, in order, or none when n exceeds the length |
| Patterns.Dedup | poker_hands_sorter.py:59 | the result has no repeated card and holds exactly the cards of its input |
| Patterns.MatchedInWindows | poker_hands_sorter.py:52-59 | every collected card lies in some window of n cards that share one value |
| Patterns.NSameValCards | poker_hands_sorter.py:49-61 | the result has no repeated card, its length is a multiple of n, and it is drawn from the hand |
| Patterns.CheckNSameValCards | poker_hands_sorter.py:49-61 | the loop over the windows computes NSameValCards |
| Patterns.IndexOf | poker_hands_sorter.py:68 | the position of the first occurrence of a card |
| Patterns.RemoveFirst | poker_hands_sorter.py:68 | list.remove takes out one occurrence: one card fewer, the multiset minus that card, a sorted list stays sorted |
| Patterns.RemoveAll | poker_hands_sorter.py:67-68 | removing each key card in turn leaves the multiset difference |
| Patterns.RemoveEach | poker_hands_sorter.py:67-68 | the loop of removals computes RemoveAll |
| Patterns.RemoveWhileIterating | poker_hands_sorter.py:171 | what the removal leaves when the key cards are the hand's own list: the cards at the odd positions, half as many |
| Patterns.RemoveEachOwn | poker_hands_sorter.py:171 | the removal loop run over the very list it shrinks computes RemoveWhileIterating |
| Patterns.RemoveFirstAt | poker_hands_sorter.py:171 | list.remove of a card with no earlier copy drops it at its own position |
| Patterns.FullHouseCards | poker_hands_sorter.py:63-71 | the cards reported for a full house are drawn from the hand |
| Patterns.CheckFullHouse | poker_hands_sorter.py:63-71 | the test computes FullHouseCards: the cards left once the three of a kind is removed, when they form a pair |
| Patterns.CheckStraightFlush | poker_hands_sorter.py:73-77 | the test returns the hand when it has one suit and consecutive values, else nothing |
| Patterns.CheckRoyalFlush | poker_hands_sorter.py:79-87 | the loop returns the hand when it has one suit and every value is in 10..14, else nothing |
| RankCodes.RankCode | poker_hands_sorter.py:94-137 | codes 1 to 9 are one digit, code 10 is the two characters "10" |
| RankCodes.RankCodeInjective | poker_hands_sorter.py:94-137 | different categories have different codes |
| RankCodes.StrLessIrreflexive | poker_hands_sorter.py:179-180 | the string order behind max never puts a code before itself |
| RankCodes.StrLessTotal | poker_hands_sorter.py:179-180 | of two different codes, exactly one comes first, so max is well defined |
| RankCodes.StrLessTransitive | poker_hands_sorter.py:179-180 | the string order is transitive |
| RankCodes.CodeOrderIsNumeric | poker_hands_sorter.py:179-180 | among codes 1 to 9 the string order is the numeric order |
| RankCodes.RoyalFlushCodeOrder | poker_hands_sorter.py:179-180 | "10" comes after "1" and before "2" to "9" |
| Classifier.Classify | poker_hands_sorter.py:89-137 | the rank calculation gives a valid code and a non-empty set of key cards drawn from the hand |
| Classifier.CalculateRank | poker_hands_sorter.py:89-137 | running the tests one after the other computes Classify |
| Classifier.PokerHand.constructor | poker_hands_sorter.py:6-16 | the stored cards are the sorted mapped tokens, a permutation of them with no repeats, and the code and key cards are their classification |
| Classifier.PokerHand.NumCardsValid | poker_hands_sorter.py:14-15 | a constructed hand's numeric cards are five different valid cards in ascending order |
| Classifier.SortedHandValid | poker_hands_sorter.py:14-15 | mapping and sorting five different valid tokens gives a valid sorted hand |
| Counting.CollectedIffCounted | poker_hands_sorter.py:52-59 | in a sorted hand, the window test collects a card exactly when its value occurs at least n times |
| Categories.Category | poker_hands_sorter.py:89-137 | the category from the value multiplicities and suits, checked from Royal Flush down; a number from 1 to 10 |
| Categories.FourOfAKind | poker_hands_sorter.py:101-104 | the four-card test finds cards exactly when a value occurs four times, and then returns those four |
| Categories.ThreeOfAKind | poker_hands_sorter.py:121-124 | the three-card test finds cards exactly when a value occurs three times, and returns exactly the cards of that value |
| Categories.Pairs | poker_hands_sorter.py:126-134 | with no triple or quad, the pair test returns 4 cards for two pairs, 2 cards of one value for one pair, else none |
| Categories.FullHouse | poker_hands_sorter.py:63-71 | the full-house test succeeds exactly when one value occurs three times and another twice, and returns the two cards of the pair |
| Categories.PairTestSkipsThree | poker_hands_sorter.py:58-60 | with a three of a kind in the hand, the pair test returns nothing |
| Categories.TripleTestSkipsFour | poker_hands_sorter.py:58-60 | with a four of a kind in the hand, the three-card test returns nothing |
| Categories.ClassifyIsCategory | poker_hands_sorter.py:89-137 | every valid hand gets the code of its category; its key cards are the whole hand (10, 9, 6, 5), one value (8, 7, 4, 2), the pair of a full house, or the highest card (1), with the count each category calls for |
| Categories.StraightWithAce | poker_hands_sorter.py:31-39 | a consecutive hand holding an ace is 10, J, Q, K, A |
| Categories.LowAceIsNoStraight | poker_hands_sorter.py:31-39 | A-2-3-4-5 is classified neither straight nor straight flush |
| Categories.StraightCodesAreConsecutive | poker_hands_sorter.py:96-119 | the straight and straight-flush codes are given only to consecutive hands, the latter only to one suit |
| Comparator.Reverse | poker_hands_sorter.py:151-152 | the reversed list holds the element at the mirrored position |
| Comparator.DescendingValues | poker_hands_sorter.py:151-152 | the values sorted in reverse are non-increasing and are the hand's values |
| Comparator.NonIncreasingUnique | poker_hands_sorter.py:151-152 | two non-increasing lists with the same multiset are equal, so ties in the reverse sort do not matter |
| Comparator.SortedValuesUnique | poker_hands_sorter.py:151-152 | two hands sorted by value with the same multiset of values show the same values position by position |
| Comparator.CompareDescending | poker_hands_sorter.py:153-160 | the loop returns the side ahead at the first differing position, or None |
| Comparator.FirstDifferenceMeaning | poker_hands_sorter.py:153-160 | None exactly when equal; 0 exactly when the first list is ahead at the first difference; 1 likewise for the second |
| Comparator.FirstDifferenceSwap | poker_hands_sorter.py:153-160 | swapping the arguments swaps the answer |
| Comparator.FirstDifferenceTransitive | poker_hands_sorter.py:153-160 | the comparison is transitive |
| Comparator.MaxValCardsId | poker_hands_sorter.py:147-160 | the comparison answers None, 0 or 1 |
| Comparator.GetMaxValCardsId | poker_hands_sorter.py:147-160 | the method computes MaxValCardsId, None for different lengths |
| Comparator.MaxValCardsIdNone | poker_hands_sorter.py:147-160 | None exactly when the lengths differ or the two multisets of values are equal |
| Comparator.MaxValCardsIdSwap | poker_hands_sorter.py:147-160 | swapping the lists swaps the answer |
| Comparator.SameValueCompare | poker_hands_sorter.py:147-160 | for key cards that share one value, the larger value wins and equal values tie |
| Comparator.Winner | poker_hands_sorter.py:162-181 | the decision is None, 0 or 1 |
| Comparator.WinnerSwap | poker_hands_sorter.py:162-181 | swapping the hands swaps the winner and keeps a tie |
| Comparator.SameRankTie | poker_hands_sorter.py:164-177 | same code: a tie exactly when the key values and the remaining values agree as multisets |
| Comparator.Decide | poker_hands_sorter.py:162-180 | the codes, then the key cards, then the remaining cards, compute Winner |
| Comparator.Sorter.constructor | poker_hands_sorter.py:141-144 | stores the two hands, no winner yet |
| Comparator.Sorter.GetWinnerHand | poker_hands_sorter.py:162-181 | records and returns the winning hand; a tie leaves the recorded winner unchanged |
| Showdown.CategoryDecides | poker_hands_sorter.py:178-180 | different categories always decide; among 1..9 the higher wins; Royal Flush beats only High Card |
| Showdown.TieIffSameValues | poker_hands_sorter.py:164-177 | two valid hands tie exactly when they share a category, key values and remaining values |
| Showdown.KeyValueDecides | poker_hands_sorter.py:164-175 | for four of a kind, full house, three of a kind and pair, the larger key value wins; equal key values pass to the remaining cards |
| Showdown.FullHouseByPair | poker_hands_sorter.py:63-71 | between full houses, the higher pair wins whatever the triples |
| Showdown.OwnListRemovalTies | poker_hands_sorter.py:169-175 | for whole-hand key cards that tie, the leftovers of the removal as written tie just as the removed-from-a-copy leftovers do, and the hands tie |
| Showdown.HandCategory | poker_hands_sorter.py:6-16 | a constructed hand carries its category's code and as many key cards as it calls for |
| Showdown.HandsDecision | poker_hands_sorter.py:162-165 | constructed hands meet get_winner_hand's needs, and its decision is the decision on their sorted cards |

## Left out

- The `__main__` driver is not modelled: reading rounds from standard input, splitting tokens, counting wins and printing.
- The rank labels and `__get_rank_label` are not modelled: a display-name lookup that plays no part in any decision.
- `player_id` is stored but never interpreted.
- Comparator.Decide: for the remaining cards and the ranks, the source reads the driver's module-level `player_1_hand` and `player_2_hand`. The driver binds these to the same two hands the sorter holds, so the model uses the sorter's own hands. After the second comparison, the source tests the driver's `winner_hand` rather than the index just computed. That global holds the previous round's result and is unbound in the first round. The model tests the index just computed, and a tie leaves the recorded winner unchanged.
- Comparator.Decide: `num_cards.remove` in the source removes the key cards from the hands' own lists, so their sorted cards change afterwards. The model removes from a copy, and the hands stay as they were.
- Comparator.Decide: for a royal flush, a straight flush, a flush or a straight, the key cards are the hand's own list. The removal at line 171 then runs over the list it shrinks and leaves the cards at the second and fourth positions, not nothing. The decision uses `RemoveAll`, which leaves nothing. That removal as written is modelled by `Patterns.RemoveEachOwn`. `Showdown.OwnListRemovalTies` proves that when the key cards tie, its leftovers tie as well, so the decision is unaffected.
- Cards.MapCard: tokens must be a rank character from 2-9, T, J, Q, K, A followed by one of S, H, D, C. The precondition excludes tokens that make the source raise, where `int()` fails at lines 25 and 33. It also excludes tokens the source accepts and classifies: rank digits 0 and 1 (`"1H"`), a three-character ten (`"10H"`) and any other suit character (`"5X"`). The four suits are what bound a value to four cards in a hand.
- Classifier.PokerHand.constructor: the five tokens must be distinct, as in a real deck. Behaviour on repeated cards is not modelled.
- Patterns.NSameValCards: the order of the collected cards is modelled exactly. The category lemmas, however, characterise the result only by its members and its length.
- Comparator.Sorter.GetWinnerHand: it requires only that each hand's key cards are among its sorted cards. Every constructed hand meets this (`Showdown.HandsDecision`).
