/** What the comparator decides for two valid hands, stated through their categories:
    the code order decides between different categories, a tie needs the same key and
    remaining values, and within the categories whose key cards share one value the
    larger key value wins. */
module Showdown {
  import opened Cards
  import opened Patterns
  import opened RankCodes
  import opened Classifier
  import opened Counting
  import opened Categories
  import opened Comparator

  /** The decision for two hands as the sorter takes it once both have been classified. */
  function Decision(cards1: seq<Card>, cards2: seq<Card>): Option<nat>
    requires cards1 != [] && cards2 != []
  {
    Winner(cards1, Classify(cards1), cards2, Classify(cards2))
  }

  /** The cards of a hand once its key cards are removed. */
  function Rest(cards: seq<Card>): seq<Card>
    requires cards != []
  {
    RemoveAll(cards, Classify(cards).keyCards)
  }

  /** Different categories are decided by their codes alone. Between High Card and
      Straight Flush the higher category wins; a Royal Flush beats a High Card but
      loses to every other category, because "10" precedes "2" to "9" as a string. */
  lemma CategoryDecides(cards1: seq<Card>, cards2: seq<Card>)
    requires ValidHand(cards1) && ValidHand(cards2) && Category(cards1) != Category(cards2)
    ensures Decision(cards1, cards2) != None
    ensures Category(cards1) <= 9 && Category(cards2) <= 9 ==>
              (Decision(cards1, cards2) == Some(0) <==> Category(cards1) > Category(cards2))
    ensures Category(cards1) == 10 ==> (Decision(cards1, cards2) == Some(0) <==> Category(cards2) == 1)
    ensures Category(cards2) == 10 ==> (Decision(cards1, cards2) == Some(1) <==> Category(cards1) == 1)
  {
    var k1, k2 := Category(cards1), Category(cards2);
    ClassifyIsCategory(cards1);
    ClassifyIsCategory(cards2);
    if RankCode(k1) == RankCode(k2) {
      RankCodeInjective(k1, k2);
    }
    if k1 <= 9 && k2 <= 9 {
      CodeOrderIsNumeric(k1, k2);
      CodeOrderIsNumeric(k2, k1);
    } else if k1 == 10 {
      RoyalFlushCodeOrder(k2);
    } else {
      RoyalFlushCodeOrder(k1);
    }
  }

  /** Two hands tie exactly when they are of one category and carry the same key
      values and the same remaining values. */
  lemma TieIffSameValues(cards1: seq<Card>, cards2: seq<Card>)
    requires ValidHand(cards1) && ValidHand(cards2)
    ensures Decision(cards1, cards2) == None <==>
              && Category(cards1) == Category(cards2)
              && multiset(Values(Classify(cards1).keyCards)) == multiset(Values(Classify(cards2).keyCards))
              && multiset(Values(Rest(cards1))) == multiset(Values(Rest(cards2)))
  {
    if Category(cards1) == Category(cards2) {
      SameCategoryShape(cards1, cards2);
      SameRankTie(cards1, Classify(cards1), cards2, Classify(cards2));
    } else {
      CategoryDecides(cards1, cards2);
    }
  }

  /** Hands of one category have the same code and as many key cards. */
  lemma SameCategoryShape(cards1: seq<Card>, cards2: seq<Card>)
    requires ValidHand(cards1) && ValidHand(cards2) && Category(cards1) == Category(cards2)
    ensures Classify(cards1).rank == Classify(cards2).rank
    ensures |Classify(cards1).keyCards| == |Classify(cards2).keyCards|
  {
    ClassifyIsCategory(cards1);
    ClassifyIsCategory(cards2);
  }

  /** Four of a kind, full house, three of a kind and one pair: within one of these
      categories the larger value of the key cards wins, and equal key values pass the
      decision to the remaining cards. */
  lemma KeyValueDecides(cards1: seq<Card>, cards2: seq<Card>)
    requires ValidHand(cards1) && ValidHand(cards2)
    requires Category(cards1) == Category(cards2) && Category(cards1) in {8, 7, 4, 2}
    ensures var v1, v2 := Classify(cards1).keyCards[0].value, Classify(cards2).keyCards[0].value;
            && (v1 > v2 ==> Decision(cards1, cards2) == Some(0))
            && (v1 < v2 ==> Decision(cards1, cards2) == Some(1))
            && (v1 == v2 ==> Decision(cards1, cards2) == MaxValCardsId(Rest(cards1), Rest(cards2)))
  {
    ClassifyIsCategory(cards1);
    ClassifyIsCategory(cards2);
    SameValueCompare(Classify(cards1).keyCards, Classify(cards2).keyCards);
  }

  /** Full houses are compared on their pairs: the hand whose pair is higher wins,
      whatever the values of the two three of a kinds. */
  lemma FullHouseByPair(cards1: seq<Card>, cards2: seq<Card>, p1: int, p2: int)
    requires ValidHand(cards1) && ValidHand(cards2)
    requires Category(cards1) == 7 && Category(cards2) == 7
    requires Count(cards1, p1) == 2 && Count(cards2, p2) == 2 && p1 != p2
    ensures Decision(cards1, cards2) == Some(if p1 > p2 then 0 else 1)
  {
    ClassifyIsCategory(cards1);
    ClassifyIsCategory(cards2);
    OnlyPair(cards1, p1, Classify(cards1).keyCards[0].value);
    OnlyPair(cards2, p2, Classify(cards2).keyCards[0].value);
    KeyValueDecides(cards1, cards2);
  }

  /** For a royal flush, a straight flush, a flush or a straight the key cards are the
      hand's own list, and removing them from it while iterating over it leaves every
      second card rather than nothing. When the key cards tie, those leftovers tie as
      well, so the decision is the one the removal of the key cards gives. */
  lemma OwnListRemovalTies(cards1: seq<Card>, cards2: seq<Card>)
    requires ValidHand(cards1) && ValidHand(cards2)
    requires Category(cards1) == Category(cards2) && Category(cards1) in {10, 9, 6, 5}
    requires MaxValCardsId(Classify(cards1).keyCards, Classify(cards2).keyCards) == None
    ensures Decision(cards1, cards2) == None
    ensures MaxValCardsId(RemoveWhileIterating(cards1), RemoveWhileIterating(cards2))
            == MaxValCardsId(Rest(cards1), Rest(cards2))
  {
    ClassifyIsCategory(cards1);
    ClassifyIsCategory(cards2);
    MaxValCardsIdNone(cards1, cards2);
    SortedValuesUnique(cards1, cards2);
    LeftoversTie(cards1, cards2);
    RemovedAll(cards1);
    RemovedAll(cards2);
    MaxValCardsIdNone(Rest(cards1), Rest(cards2));
  }

  /** The key cards of a whole-hand category leave nothing once removed. */
  lemma RemovedAll(cards: seq<Card>)
    requires ValidHand(cards) && Classify(cards).keyCards == cards
    ensures Rest(cards) == []
  {
  }

  /** A full house has one value that occurs twice. */
  lemma OnlyPair(cards: seq<Card>, p: int, q: int)
    requires ValidHand(cards) && Category(cards) == 7
    requires Count(cards, p) == 2 && Count(cards, q) == 2
    ensures p == q
  {
    CategoryTests(cards);
    var i :| 0 <= i < |cards| && Count(cards, cards[i].value) == 3;
    if p != q {
      ThreeValuesFit(cards, cards[i].value, p, q);
    }
  }

  /** A constructed hand carries the code of its category and as many key cards as it calls for. */
  lemma HandCategory(hand: PokerHand)
    requires hand.Valid()
    ensures ValidHand(hand.numCards)
    ensures hand.rank == RankCode(Category(hand.numCards))
    ensures |hand.keyCards| == KeyCount(Category(hand.numCards))
  {
    hand.NumCardsValid();
    ClassifyIsCategory(hand.numCards);
  }

  /** Two constructed hands meet what get_winner_hand needs, and what it decides for
      them is the decision on their sorted cards. */
  lemma HandsDecision(hand1: PokerHand, hand2: PokerHand)
    requires hand1.Valid() && hand2.Valid()
    ensures ValidHand(hand1.numCards) && ValidHand(hand2.numCards)
    ensures multiset(hand1.keyCards) <= multiset(hand1.numCards)
    ensures multiset(hand2.keyCards) <= multiset(hand2.numCards)
    ensures Winner(hand1.numCards, Classified(hand1.rank, hand1.keyCards),
                   hand2.numCards, Classified(hand2.rank, hand2.keyCards))
            == Decision(hand1.numCards, hand2.numCards)
  {
    hand1.NumCardsValid();
    hand2.NumCardsValid();
  }
}
