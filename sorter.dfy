/** The comparator of two classified hands: the category codes first, then the
    values of the key cards, then the values of the remaining cards. */
module Comparator {
  import opened Cards
  import opened Patterns
  import opened RankCodes
  import opened Classifier

  function Reverse(s: seq<int>): (r: seq<int>)
    ensures |r| == |s|
    ensures forall i :: 0 <= i < |s| ==> r[i] == s[|s| - 1 - i]
  {
    if s == [] then [] else Reverse(s[1..]) + [s[0]]
  }

  lemma {:induction false} ReverseMultiset(s: seq<int>)
    ensures multiset(Reverse(s)) == multiset(s)
  {
    if s != [] {
      ReverseMultiset(s[1..]);
      assert s == [s[0]] + s[1..];
    }
  }

  predicate NonIncreasing(d: seq<int>) {
    forall i, j :: 0 <= i < j < |d| ==> d[i] >= d[j]
  }

  /** The card values from the highest down, as the comparator reads them after
      sorting a copy of the cards by value in reverse. Only the values are read,
      so the order among cards of equal value does not matter. */
  function DescendingValues(cards: seq<Card>): (d: seq<int>)
    ensures |d| == |cards|
    ensures NonIncreasing(d)
    ensures multiset(d) == multiset(Values(cards))
  {
    var ascending := Values(SortCards(cards));
    ReverseMultiset(ascending);
    SortCardsValues(cards);
    Reverse(ascending)
  }

  /** Which side shows the larger value at the first position where the two differ. */
  function FirstDifference(a: seq<int>, b: seq<int>): (r: Option<nat>)
    requires |a| == |b|
    ensures r == None || r == Some(0) || r == Some(1)
  {
    if a == [] then None
    else if a[0] == b[0] then FirstDifference(a[1..], b[1..])
    else if a[0] > b[0] then Some(0)
    else Some(1)
  }

  /** The comparison of two lists of cards: no answer for lists of different
      lengths, otherwise the side whose descending values are ahead at the first
      difference, or no answer when all values agree. */
  function MaxValCardsId(cards1: seq<Card>, cards2: seq<Card>): (r: Option<nat>)
    ensures r == None || r == Some(0) || r == Some(1)
  {
    if |cards1| != |cards2| then None
    else FirstDifference(DescendingValues(cards1), DescendingValues(cards2))
  }

  method GetMaxValCardsId(cards1: seq<Card>, cards2: seq<Card>) returns (id: Option<nat>)
    ensures id == MaxValCardsId(cards1, cards2)
  {
    if |cards1| != |cards2| {
      return None;
    }
    id := CompareDescending(DescendingValues(cards1), DescendingValues(cards2));
  }

  /** The loop of the comparison: the first position where the values differ decides. */
  method CompareDescending(values1: seq<int>, values2: seq<int>) returns (id: Option<nat>)
    requires |values1| == |values2|
    ensures id == FirstDifference(values1, values2)
  {
    for i := 0 to |values1|
      invariant FirstDifference(values1[i..], values2[i..]) == FirstDifference(values1, values2)
    {
      assert values1[i..][1..] == values1[i + 1..] && values2[i..][1..] == values2[i + 1..];
      if values1[i] == values2[i] {
        continue;
      } else if values1[i] > values2[i] {
        return Some(0);
      } else {
        return Some(1);
      }
    }
    return None;
  }

  /** a is ahead of b in the order of the comparator: at the first position where they differ a is larger. */
  predicate AheadAt(a: seq<int>, b: seq<int>, k: int) {
    0 <= k < |a| && k < |b| && a[..k] == b[..k] && a[k] > b[k]
  }

  lemma AheadAtHead(a: seq<int>, b: seq<int>, k: int)
    requires AheadAt(a, b, k)
    ensures k > 0 ==> a[0] == b[0]
  {
    if k > 0 {
      assert a[..k][0] == b[..k][0];
    }
  }

  lemma {:induction false} FirstDifferenceMeaning(a: seq<int>, b: seq<int>)
    requires |a| == |b|
    ensures FirstDifference(a, b) == None <==> a == b
    ensures FirstDifference(a, b) == Some(0) <==> exists k :: AheadAt(a, b, k)
    ensures FirstDifference(a, b) == Some(1) <==> exists k :: AheadAt(b, a, k)
  {
    if a != [] {
      FirstDifferenceMeaning(a[1..], b[1..]);
      assert a == [a[0]] + a[1..] && b == [b[0]] + b[1..];
      if a[0] == b[0] {
        forall k | AheadAt(a[1..], b[1..], k) ensures AheadAt(a, b, k + 1) {
          assert a[..k + 1] == [a[0]] + a[1..][..k];
          assert b[..k + 1] == [b[0]] + b[1..][..k];
        }
        forall k | AheadAt(b[1..], a[1..], k) ensures AheadAt(b, a, k + 1) {
          assert a[..k + 1] == [a[0]] + a[1..][..k];
          assert b[..k + 1] == [b[0]] + b[1..][..k];
        }
        forall k | AheadAt(a, b, k) ensures k > 0 && AheadAt(a[1..], b[1..], k - 1) {
          assert a[..k][1..] == a[1..][..k - 1];
          assert b[..k][1..] == b[1..][..k - 1];
        }
        forall k | AheadAt(b, a, k) ensures k > 0 && AheadAt(b[1..], a[1..], k - 1) {
          assert a[..k][1..] == a[1..][..k - 1];
          assert b[..k][1..] == b[1..][..k - 1];
        }
      } else {
        assert a[..0] == b[..0];
        forall k | AheadAt(a, b, k) ensures k == 0 {
          AheadAtHead(a, b, k);
        }
        forall k | AheadAt(b, a, k) ensures k == 0 {
          AheadAtHead(b, a, k);
        }
        if a[0] > b[0] {
          assert AheadAt(a, b, 0);
        } else {
          assert AheadAt(b, a, 0);
        }
      }
    }
  }

  function Swap(r: Option<nat>): Option<nat> {
    match r
    case None => None
    case Some(i) => Some(if i == 0 then 1 else 0)
  }

  lemma {:induction false} FirstDifferenceSwap(a: seq<int>, b: seq<int>)
    requires |a| == |b|
    ensures FirstDifference(b, a) == Swap(FirstDifference(a, b))
  {
    if a != [] && a[0] == b[0] {
      FirstDifferenceSwap(a[1..], b[1..]);
    }
  }

  lemma {:induction false} FirstDifferenceTransitive(a: seq<int>, b: seq<int>, c: seq<int>)
    requires |a| == |b| == |c|
    requires FirstDifference(a, b) == Some(0) && FirstDifference(b, c) == Some(0)
    ensures FirstDifference(a, c) == Some(0)
  {
    if a[0] == b[0] && b[0] == c[0] {
      FirstDifferenceTransitive(a[1..], b[1..], c[1..]);
    }
  }

  lemma HeadIsLargest(a: seq<int>, x: int)
    requires NonIncreasing(a) && x in multiset(a)
    ensures a[0] >= x
  {
    var i :| 0 <= i < |a| && a[i] == x;
    assert i == 0 || a[0] >= a[i];
  }

  /** Two non-increasing sequences with the same elements are the same sequence. */
  lemma {:induction false} NonIncreasingUnique(a: seq<int>, b: seq<int>)
    requires NonIncreasing(a) && NonIncreasing(b) && multiset(a) == multiset(b)
    ensures a == b
    decreases |a|
  {
    if a != [] {
      SameHead(a, b);
      SameTail(a, b);
      NonIncreasingUnique(a[1..], b[1..]);
      SameHeadSameTail(a, b);
    } else {
      assert |multiset(b)| == 0;
    }
  }

  lemma SameHead(a: seq<int>, b: seq<int>)
    requires NonIncreasing(a) && NonIncreasing(b) && multiset(a) == multiset(b) && a != []
    ensures |b| == |a| && a[0] == b[0]
  {
    assert |a| == |multiset(a)| == |multiset(b)| == |b|;
    assert b[0] in multiset(b) && a[0] in multiset(a);
    HeadIsLargest(a, b[0]);
    HeadIsLargest(b, a[0]);
  }

  lemma SameTail(a: seq<int>, b: seq<int>)
    requires NonIncreasing(a) && NonIncreasing(b) && multiset(a) == multiset(b)
    requires a != [] && b != [] && a[0] == b[0]
    ensures NonIncreasing(a[1..]) && NonIncreasing(b[1..]) && multiset(a[1..]) == multiset(b[1..])
  {
    MultisetTail(a);
    MultisetTail(b);
  }

  lemma SameHeadSameTail(a: seq<int>, b: seq<int>)
    requires a != [] && b != [] && a[0] == b[0] && a[1..] == b[1..]
    ensures a == b
  {
    assert a == [a[0]] + a[1..] && b == [b[0]] + b[1..];
  }

  lemma MultisetTail(a: seq<int>)
    requires a != []
    ensures multiset(a[1..]) == multiset(a) - multiset{a[0]}
    ensures NonIncreasing(a) ==> NonIncreasing(a[1..])
  {
    assert a == [a[0]] + a[1..];
  }

  /** The comparison of two card lists answers "no difference" exactly when the
      lists differ in length or carry the same values. */
  lemma MaxValCardsIdNone(cards1: seq<Card>, cards2: seq<Card>)
    ensures MaxValCardsId(cards1, cards2) == None <==>
              |cards1| != |cards2| || multiset(Values(cards1)) == multiset(Values(cards2))
  {
    if |cards1| == |cards2| {
      var d1, d2 := DescendingValues(cards1), DescendingValues(cards2);
      FirstDifferenceMeaning(d1, d2);
      if multiset(Values(cards1)) == multiset(Values(cards2)) {
        NonIncreasingUnique(d1, d2);
      }
    }
  }

  /** Two hands sorted by value with the same multiset of values show the same values position by position. */
  lemma SortedValuesUnique(cards1: seq<Card>, cards2: seq<Card>)
    requires Sorted(cards1) && Sorted(cards2)
    requires multiset(Values(cards1)) == multiset(Values(cards2))
    ensures Values(cards1) == Values(cards2)
  {
    ReversedSortedIsNonIncreasing(cards1);
    ReversedSortedIsNonIncreasing(cards2);
    ReversesEqual(Values(cards1), Values(cards2));
  }

  /** Two lists whose reversals are non-increasing and which hold the same values are equal. */
  lemma ReversesEqual(a: seq<int>, b: seq<int>)
    requires NonIncreasing(Reverse(a)) && NonIncreasing(Reverse(b)) && multiset(a) == multiset(b)
    ensures a == b
  {
    ReverseMultiset(a);
    ReverseMultiset(b);
    NonIncreasingUnique(Reverse(a), Reverse(b));
    assert |a| == |multiset(a)| == |multiset(b)| == |b|;
    forall i | 0 <= i < |a| ensures a[i] == b[i] {
      assert a[i] == Reverse(a)[|a| - 1 - i];
      assert b[i] == Reverse(b)[|b| - 1 - i];
    }
  }

  lemma ReversedSortedIsNonIncreasing(cards: seq<Card>)
    requires Sorted(cards)
    ensures NonIncreasing(Reverse(Values(cards)))
  {
    var r := Reverse(Values(cards));
    forall i, j | 0 <= i < j < |r| ensures r[i] >= r[j] {
      assert r[i] == cards[|cards| - 1 - i].value;
      assert r[j] == cards[|cards| - 1 - j].value;
    }
  }

  /** Hands with the same values position by position leave leftovers that tie when
      their key cards are removed from their own lists. */
  lemma LeftoversTie(cards1: seq<Card>, cards2: seq<Card>)
    requires Values(cards1) == Values(cards2)
    ensures MaxValCardsId(RemoveWhileIterating(cards1), RemoveWhileIterating(cards2)) == None
  {
    var r1, r2 := RemoveWhileIterating(cards1), RemoveWhileIterating(cards2);
    SameValuesAt(cards1, cards2);
    OddPositionsSameValues(cards1, cards2, r1, r2);
    MaxValCardsIdNone(r1, r2);
  }

  lemma SameValuesAt(cards1: seq<Card>, cards2: seq<Card>)
    requires Values(cards1) == Values(cards2)
    ensures |cards1| == |cards2| && forall i :: 0 <= i < |cards1| ==> cards1[i].value == cards2[i].value
  {
    assert |cards1| == |Values(cards1)|;
    forall i | 0 <= i < |cards1| ensures cards1[i].value == cards2[i].value {
      assert Values(cards1)[i] == Values(cards2)[i];
    }
  }

  lemma OddPositionsSameValues(cards1: seq<Card>, cards2: seq<Card>, r1: seq<Card>, r2: seq<Card>)
    requires |cards1| == |cards2| && forall i :: 0 <= i < |cards1| ==> cards1[i].value == cards2[i].value
    requires r1 == RemoveWhileIterating(cards1) && r2 == RemoveWhileIterating(cards2)
    ensures Values(r1) == Values(r2)
  {
    forall i | 0 <= i < |r1| ensures Values(r1)[i] == Values(r2)[i] {
      assert r1[i] == cards1[2 * i + 1] && r2[i] == cards2[2 * i + 1];
    }
  }

  /** Swapping the two lists swaps the answers 0 and 1 and keeps "no difference". */
  lemma MaxValCardsIdSwap(cards1: seq<Card>, cards2: seq<Card>)
    ensures MaxValCardsId(cards2, cards1) == Swap(MaxValCardsId(cards1, cards2))
  {
    if |cards1| == |cards2| {
      FirstDifferenceSwap(DescendingValues(cards1), DescendingValues(cards2));
    }
  }

  /** Two lists of one value each and of the same length compare by that value alone. */
  lemma SameValueCompare(cards1: seq<Card>, cards2: seq<Card>)
    requires SameValue(cards1) && SameValue(cards2) && |cards1| == |cards2|
    ensures cards1[0].value > cards2[0].value ==> MaxValCardsId(cards1, cards2) == Some(0)
    ensures cards1[0].value < cards2[0].value ==> MaxValCardsId(cards1, cards2) == Some(1)
    ensures cards1[0].value == cards2[0].value ==> MaxValCardsId(cards1, cards2) == None
  {
    ConstantDescending(cards1);
    ConstantDescending(cards2);
    ConstantsCompare(DescendingValues(cards1), DescendingValues(cards2), cards1[0].value, cards2[0].value);
  }

  lemma ConstantsCompare(a: seq<int>, b: seq<int>, x: int, y: int)
    requires |a| == |b| > 0
    requires forall i :: 0 <= i < |a| ==> a[i] == x
    requires forall i :: 0 <= i < |b| ==> b[i] == y
    ensures x > y ==> FirstDifference(a, b) == Some(0)
    ensures x < y ==> FirstDifference(a, b) == Some(1)
    ensures x == y ==> FirstDifference(a, b) == None
  {
    if x == y {
      assert a == b;
      FirstDifferenceSame(a);
    }
  }

  lemma {:induction false} FirstDifferenceSame(a: seq<int>)
    ensures FirstDifference(a, a) == None
  {
    if a != [] {
      FirstDifferenceSame(a[1..]);
    }
  }

  lemma ConstantDescending(cards: seq<Card>)
    requires SameValue(cards)
    ensures forall i :: 0 <= i < |cards| ==> DescendingValues(cards)[i] == cards[0].value
  {
    var d := DescendingValues(cards);
    forall i | 0 <= i < |cards| ensures d[i] == cards[0].value {
      assert d[i] in multiset(Values(cards));
      var j :| 0 <= j < |cards| && Values(cards)[j] == d[i];
    }
  }

  /** The position of the larger code in [rank1, rank2] (ranks.index(max(ranks))), for different codes. */
  function MaxRankIndex(rank1: string, rank2: string): nat {
    if StrLess(rank1, rank2) then 1 else 0
  }

  /** The decision of the comparator for two hands: 0 or 1 for the winner, None for a tie. */
  function Winner(numCards1: seq<Card>, hand1: Classified, numCards2: seq<Card>, hand2: Classified): (w: Option<nat>)
    requires multiset(hand1.keyCards) <= multiset(numCards1)
    requires multiset(hand2.keyCards) <= multiset(numCards2)
    ensures w == None || w == Some(0) || w == Some(1)
  {
    if hand1.rank == hand2.rank then
      var byKeyCards := MaxValCardsId(hand1.keyCards, hand2.keyCards);
      if byKeyCards != None then byKeyCards
      else MaxValCardsId(RemoveAll(numCards1, hand1.keyCards), RemoveAll(numCards2, hand2.keyCards))
    else Some(MaxRankIndex(hand1.rank, hand2.rank))
  }

  /** Swapping the two hands swaps the winner and keeps a tie a tie. */
  lemma WinnerSwap(numCards1: seq<Card>, hand1: Classified, numCards2: seq<Card>, hand2: Classified)
    requires multiset(hand1.keyCards) <= multiset(numCards1)
    requires multiset(hand2.keyCards) <= multiset(numCards2)
    ensures Winner(numCards2, hand2, numCards1, hand1) == Swap(Winner(numCards1, hand1, numCards2, hand2))
  {
    if hand1.rank == hand2.rank {
      MaxValCardsIdSwap(hand1.keyCards, hand2.keyCards);
      MaxValCardsIdSwap(RemoveAll(numCards1, hand1.keyCards), RemoveAll(numCards2, hand2.keyCards));
    } else {
      StrLessTotal(hand1.rank, hand2.rank);
    }
  }

  /** Two hands of one code with as many key cards and as many cards tie exactly
      when their key values agree and their remaining values agree. */
  lemma SameRankTie(numCards1: seq<Card>, hand1: Classified, numCards2: seq<Card>, hand2: Classified)
    requires multiset(hand1.keyCards) <= multiset(numCards1)
    requires multiset(hand2.keyCards) <= multiset(numCards2)
    requires hand1.rank == hand2.rank
    requires |hand1.keyCards| == |hand2.keyCards| && |numCards1| == |numCards2|
    ensures Winner(numCards1, hand1, numCards2, hand2) == None <==>
              && multiset(Values(hand1.keyCards)) == multiset(Values(hand2.keyCards))
              && multiset(Values(RemoveAll(numCards1, hand1.keyCards)))
                 == multiset(Values(RemoveAll(numCards2, hand2.keyCards)))
  {
    MaxValCardsIdNone(hand1.keyCards, hand2.keyCards);
    MaxValCardsIdNone(RemoveAll(numCards1, hand1.keyCards), RemoveAll(numCards2, hand2.keyCards));
  }

  /** The decision of get_winner_hand as the source computes it: the codes
      first, then the key cards, then the cards left once the key cards are removed.
      The source takes the remaining cards of the module-level hands of its driver
      and then tests the driver's last result; here they are the two hands under
      comparison and the index just computed. */
  method Decide(numCards1: seq<Card>, hand1: Classified, numCards2: seq<Card>, hand2: Classified)
    returns (winnerHandInd: Option<nat>)
    requires multiset(hand1.keyCards) <= multiset(numCards1)
    requires multiset(hand2.keyCards) <= multiset(numCards2)
    ensures winnerHandInd == Winner(numCards1, hand1, numCards2, hand2)
  {
    if hand1.rank == hand2.rank {
      winnerHandInd := GetMaxValCardsId(hand1.keyCards, hand2.keyCards);
      if winnerHandInd == None {
        var player1RemainingCards := RemoveEach(numCards1, hand1.keyCards);
        var player2RemainingCards := RemoveEach(numCards2, hand2.keyCards);
        winnerHandInd := GetMaxValCardsId(player1RemainingCards, player2RemainingCards);
      }
    } else {
      winnerHandInd := Some(MaxRankIndex(hand1.rank, hand2.rank));
    }
  }

  class Sorter {
    const hand1: PokerHand
    const hand2: PokerHand
    var winnerHand: PokerHand?

    constructor (hand1: PokerHand, hand2: PokerHand)
      ensures this.hand1 == hand1 && this.hand2 == hand2 && winnerHand == null
    {
      this.hand1 := hand1;
      this.hand2 := hand2;
      winnerHand := null;
    }

    /** Decides the winner and records it; a tie leaves the recorded winner as it was.
        All it needs of the two hands is that their key cards are among their cards,
        which every constructed hand meets. */
    method GetWinnerHand() returns (winner: PokerHand?)
      requires multiset(hand1.keyCards) <= multiset(hand1.numCards)
      requires multiset(hand2.keyCards) <= multiset(hand2.numCards)
      modifies this
      ensures winner == winnerHand
      ensures var w := Winner(hand1.numCards, Classified(hand1.rank, hand1.keyCards),
                              hand2.numCards, Classified(hand2.rank, hand2.keyCards));
              && (w == Some(0) ==> winnerHand == hand1)
              && (w == Some(1) ==> winnerHand == hand2)
              && (w == None ==> winnerHand == old(winnerHand))
    {
      var playerHands := [hand1, hand2];
      var winnerHandInd := Decide(hand1.numCards, Classified(hand1.rank, hand1.keyCards),
                                  hand2.numCards, Classified(hand2.rank, hand2.keyCards));
      if winnerHandInd != None {
        winnerHand := playerHands[winnerHandInd.value];
      }
      return winnerHand;
    }
  }
}
