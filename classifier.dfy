/** The hand classifier: a hand of five tokens becomes its sorted numeric cards,
    a category code and the key cards that justify the category. */
module Classifier {
  import opened Cards
  import opened Patterns
  import opened RankCodes

  /** What the rank calculation returns: the category code and the key cards. */
  datatype Classified = Classified(rank: string, keyCards: seq<Card>)

  /** The rank calculation: the patterns are tried from the strongest down and
      the first one found decides the code. */
  function Classify(cards: seq<Card>): (r: Classified)
    requires cards != []
    ensures IsRankCode(r.rank)
    ensures r.keyCards != [] && multiset(r.keyCards) <= multiset(cards)
  {
    CodesAreRankCodes();
    LastCardInHand(cards);
    if RoyalFlushCards(cards) != [] then Classified("10", RoyalFlushCards(cards))
    else if StraightFlushCards(cards) != [] then Classified("9", StraightFlushCards(cards))
    else if NSameValCards(cards, 4) != [] then Classified("8", NSameValCards(cards, 4))
    else if FullHouseCards(cards) != [] then Classified("7", FullHouseCards(cards))
    else if SameSuit(cards) then Classified("6", cards)
    else if Consecutive(cards) then Classified("5", cards)
    else if NSameValCards(cards, 3) != [] then Classified("4", NSameValCards(cards, 3))
    else if |NSameValCards(cards, 2)| > 2 then Classified("3", NSameValCards(cards, 2))
    else if NSameValCards(cards, 2) != [] then Classified("2", NSameValCards(cards, 2))
    else Classified("1", [cards[|cards| - 1]])
  }

  lemma CodesAreRankCodes()
    ensures IsRankCode("10") && IsRankCode("9") && IsRankCode("8") && IsRankCode("7") && IsRankCode("6")
    ensures IsRankCode("5") && IsRankCode("4") && IsRankCode("3") && IsRankCode("2") && IsRankCode("1")
  {
    assert "10" == RankCode(10) && "9" == RankCode(9) && "8" == RankCode(8) && "7" == RankCode(7);
    assert "6" == RankCode(6) && "5" == RankCode(5) && "4" == RankCode(4) && "3" == RankCode(3);
    assert "2" == RankCode(2) && "1" == RankCode(1);
  }

  lemma LastCardInHand(cards: seq<Card>)
    requires cards != []
    ensures multiset([cards[|cards| - 1]]) <= multiset(cards)
  {
    assert cards == cards[..|cards| - 1] + [cards[|cards| - 1]];
  }

  /** The rank calculation as the source runs it, calling the pattern tests one after the other. */
  method CalculateRank(numCards: seq<Card>) returns (rank: string, keyCards: seq<Card>)
    requires numCards != []
    ensures Classified(rank, keyCards) == Classify(numCards)
  {
    keyCards := CheckRoyalFlush(numCards);
    if keyCards != [] {
      return "10", keyCards;
    }
    keyCards := CheckStraightFlush(numCards);
    if keyCards != [] {
      return "9", keyCards;
    }
    keyCards := CheckNSameValCards(numCards, 4);
    if keyCards != [] {
      return "8", keyCards;
    }
    keyCards := CheckFullHouse(numCards);
    if keyCards != [] {
      return "7", keyCards;
    }
    if SameSuit(numCards) {
      return "6", numCards;
    }
    var straight := CheckStraight(numCards);
    if straight {
      return "5", numCards;
    }
    keyCards := CheckNSameValCards(numCards, 3);
    if keyCards != [] {
      return "4", keyCards;
    }
    keyCards := CheckNSameValCards(numCards, 2);
    if |keyCards| > 2 {
      return "3", keyCards;
    }
    keyCards := CheckNSameValCards(numCards, 2);
    if keyCards != [] {
      return "2", keyCards;
    }
    return "1", [numCards[|numCards| - 1]];
  }

  /** Five well-formed tokens, no card twice. */
  predicate ValidTokens(cards: seq<Token>) {
    |cards| == 5 && (forall i :: 0 <= i < |cards| ==> ValidToken(cards[i])) && Distinct(cards)
  }

  /** What the classifier works on: five different valid cards, sorted by value. */
  predicate ValidHand(cards: seq<Card>) {
    |cards| == 5 && (forall i :: 0 <= i < |cards| ==> ValidCard(cards[i])) && Distinct(cards) && Sorted(cards)
  }

  class PokerHand {
    const playerId: int
    const cards: seq<Token>
    const numCards: seq<Card>
    const rank: string
    const keyCards: seq<Card>

    ghost predicate Valid() {
      && ValidTokens(cards)
      && numCards == SortCards(MapCards(cards))
      && Classified(rank, keyCards) == Classify(numCards)
    }

    constructor (playerId: int, cards: seq<Token>)
      requires ValidTokens(cards)
      ensures Valid() && this.playerId == playerId && this.cards == cards
      ensures ValidHand(numCards) && multiset(numCards) == multiset(MapCards(cards))
    {
      this.playerId := playerId;
      this.cards := cards;
      var mapped := MapCards(cards);
      var sorted := SortCards(mapped);
      numCards := sorted;
      var r, k := CalculateRank(sorted);
      rank := r;
      keyCards := k;
      new;
      SortedHandValid(cards);
    }

    /** The sorted numeric cards of a hand are a valid hand. */
    lemma NumCardsValid()
      requires Valid()
      ensures ValidHand(numCards)
    {
      SortedHandValid(cards);
    }
  }

  /** A sequence is free of repetitions exactly when no element is counted twice. */
  lemma {:induction false} DistinctIffCountsAtMostOne(s: seq<Card>)
    ensures Distinct(s) <==> forall x :: multiset(s)[x] <= 1
  {
    if Distinct(s) {
      forall x ensures multiset(s)[x] <= 1 {
        DistinctCount(s, x);
      }
    }
    if forall x :: multiset(s)[x] <= 1 {
      forall i, j | 0 <= i < j < |s| ensures s[i] != s[j] {
        EqualPairCounted(s, i, j);
      }
    }
  }

  lemma EqualPairCounted(s: seq<Card>, i: int, j: int)
    requires 0 <= i < j < |s|
    ensures s[i] == s[j] ==> multiset(s)[s[i]] >= 2
  {
    assert s == s[..i] + [s[i]] + s[i + 1..j] + [s[j]] + s[j + 1..];
  }

  /** The numeric cards of valid tokens, once sorted, are a valid hand. */
  lemma SortedHandValid(cards: seq<Token>)
    requires ValidTokens(cards)
    ensures ValidHand(SortCards(MapCards(cards)))
  {
    var mapped := MapCards(cards);
    var sorted := SortCards(mapped);
    MapCardsDistinct(cards);
    DistinctIffCountsAtMostOne(mapped);
    DistinctIffCountsAtMostOne(sorted);
    forall i | 0 <= i < |sorted| ensures ValidCard(sorted[i]) {
      assert sorted[i] in multiset(mapped);
    }
  }
}
