/** The poker categories stated from the multiplicities of the values, as the rules
    of the game define them, and the proof that the pattern tests of the classifier
    assign every valid hand the code of its category and key cards of the expected
    size and shape. */
module Categories {
  import opened Cards
  import opened Patterns
  import opened RankCodes
  import opened Classifier
  import opened Counting

  /** Some value occurs exactly k times. */
  predicate HasKind(cards: seq<Card>, k: nat) {
    exists i :: 0 <= i < |cards| && Count(cards, cards[i].value) == k
  }

  /** Two different values occur exactly twice each. */
  predicate HasTwoPairs(cards: seq<Card>) {
    exists i, j :: 0 <= i < |cards| && 0 <= j < |cards| && cards[i].value != cards[j].value
      && Count(cards, cards[i].value) == 2 && Count(cards, cards[j].value) == 2
  }

  /** Every card is a ten or higher. */
  predicate AllTenOrHigher(cards: seq<Card>) {
    forall i :: 0 <= i < |cards| ==> 10 <= cards[i].value <= 14
  }

  /** The category of a hand, from Royal Flush (10) down to High Card (1). */
  function Category(cards: seq<Card>): (k: int)
    ensures 1 <= k <= 10
  {
    if SameSuit(cards) && AllTenOrHigher(cards) then 10
    else if SameSuit(cards) && Consecutive(cards) then 9
    else if HasKind(cards, 4) then 8
    else if HasKind(cards, 3) && HasKind(cards, 2) then 7
    else if SameSuit(cards) then 6
    else if Consecutive(cards) then 5
    else if HasKind(cards, 3) then 4
    else if HasTwoPairs(cards) then 3
    else if HasKind(cards, 2) then 2
    else 1
  }

  /** How many key cards each category reports. */
  function KeyCount(k: int): nat {
    if k == 10 || k == 9 || k == 6 || k == 5 then 5
    else if k == 8 || k == 3 then 4
    else if k == 4 then 3
    else if k == 7 || k == 2 then 2
    else 1
  }

  lemma RoyalsAreTenOrHigher(x: int)
    ensures x in Royals <==> 10 <= x <= 14
  {
    if 10 <= x <= 14 {
      assert Royals[x - 10] == x;
    }
  }

  lemma CountsAtMostFour(cards: seq<Card>)
    requires ValidHand(cards)
    ensures forall i :: 0 <= i < |cards| ==> Count(cards, cards[i].value) <= 4
  {
    forall i | 0 <= i < |cards| ensures Count(cards, cards[i].value) <= 4 {
      CountAtMostFour(cards, cards[i].value);
    }
  }

  /** The four-of-a-kind test finds the four cards of a value that occurs four times, and nothing otherwise. */
  lemma FourOfAKind(cards: seq<Card>)
    requires ValidHand(cards)
    ensures NSameValCards(cards, 4) != [] <==> HasKind(cards, 4)
    ensures HasKind(cards, 4) ==> |NSameValCards(cards, 4)| == 4 && SameValue(NSameValCards(cards, 4))
  {
    CountsAtMostFour(cards);
    if HasKind(cards, 4) {
      var i :| 0 <= i < |cards| && Count(cards, cards[i].value) == 4;
      var v := cards[i].value;
      forall k | 0 <= k < |cards| ensures Count(cards, cards[k].value) >= 4 <==> cards[k].value == v {
        if cards[k].value != v {
          TwoValuesFit(cards, v, cards[k].value);
        }
      }
      CollectedOneValue(cards, 4, v);
      var u := NSameValCards(cards, 4);
      forall k | 0 <= k < |u| ensures u[k].value == v {
        assert u[k] in u;
      }
    } else {
      CollectedNothing(cards, 4);
    }
  }

  /** The three-of-a-kind test finds the three cards of a value that occurs exactly three times,
      and nothing otherwise: four cards of one value are not a multiple of three. */
  lemma ThreeOfAKind(cards: seq<Card>)
    requires ValidHand(cards)
    ensures NSameValCards(cards, 3) != [] <==> HasKind(cards, 3)
    ensures HasKind(cards, 3) ==> |NSameValCards(cards, 3)| == 3
    ensures forall x :: x in NSameValCards(cards, 3) <==> x in cards && Count(cards, x.value) == 3
  {
    CountsAtMostFour(cards);
    var u := Dedup(Matched(Windows(cards, 3)));
    if HasKind(cards, 3) {
      var i :| 0 <= i < |cards| && Count(cards, cards[i].value) == 3;
      var v := cards[i].value;
      forall k | 0 <= k < |cards| ensures Count(cards, cards[k].value) >= 3 <==> cards[k].value == v {
        if cards[k].value != v {
          TwoValuesFit(cards, v, cards[k].value);
        }
      }
      CollectedOneValue(cards, 3, v);
    } else if HasKind(cards, 4) {
      var i :| 0 <= i < |cards| && Count(cards, cards[i].value) == 4;
      var v := cards[i].value;
      forall k | 0 <= k < |cards| ensures Count(cards, cards[k].value) >= 3 <==> cards[k].value == v {
        if cards[k].value != v {
          TwoValuesFit(cards, v, cards[k].value);
        }
      }
      CollectedOneValue(cards, 3, v);
    } else {
      CollectedNothing(cards, 3);
    }
  }

  /** Without three or four of a kind, the pair test finds the cards of the values occurring twice. */
  lemma Pairs(cards: seq<Card>)
    requires ValidHand(cards) && !HasKind(cards, 4) && !HasKind(cards, 3)
    ensures |NSameValCards(cards, 2)| == if HasTwoPairs(cards) then 4 else if HasKind(cards, 2) then 2 else 0
    ensures forall x :: x in NSameValCards(cards, 2) ==> Count(cards, x.value) == 2
    ensures HasKind(cards, 2) && !HasTwoPairs(cards) ==> SameValue(NSameValCards(cards, 2))
  {
    CountsAtMostFour(cards);
    assert forall k :: 0 <= k < |cards| ==> Count(cards, cards[k].value) <= 2;
    if HasTwoPairs(cards) {
      var i, j :| 0 <= i < |cards| && 0 <= j < |cards| && cards[i].value != cards[j].value
        && Count(cards, cards[i].value) == 2 && Count(cards, cards[j].value) == 2;
      TwoPairsCollected(cards, cards[i].value, cards[j].value);
    } else if HasKind(cards, 2) {
      OnePair(cards);
    } else {
      CollectedNothing(cards, 2);
    }
  }

  lemma OnePair(cards: seq<Card>)
    requires Sorted(cards) && Distinct(cards) && !HasTwoPairs(cards) && HasKind(cards, 2)
    requires forall k :: 0 <= k < |cards| ==> Count(cards, cards[k].value) <= 2
    ensures |NSameValCards(cards, 2)| == 2 && SameValue(NSameValCards(cards, 2))
    ensures forall x :: x in NSameValCards(cards, 2) ==> Count(cards, x.value) == 2
  {
    var i :| 0 <= i < |cards| && Count(cards, cards[i].value) == 2;
    forall k | 0 <= k < |cards| ensures Count(cards, cards[k].value) >= 2 ==> cards[k].value == cards[i].value {
      assert !(cards[i].value != cards[k].value
        && Count(cards, cards[i].value) == 2 && Count(cards, cards[k].value) == 2);
    }
    OnePairCollected(cards, cards[i].value);
    var pair := NSameValCards(cards, 2);
    assert forall k :: 0 <= k < |pair| ==> pair[k] in pair;
  }

  lemma TwoPairsCollected(cards: seq<Card>, v: int, w: int)
    requires Sorted(cards) && Distinct(cards) && |cards| == 5 && v != w
    requires forall k :: 0 <= k < |cards| ==> Count(cards, cards[k].value) <= 2
    requires Count(cards, v) == 2 && Count(cards, w) == 2
    ensures |NSameValCards(cards, 2)| == 4
    ensures forall x :: x in NSameValCards(cards, 2) ==> Count(cards, x.value) == 2
  {
    forall k | 0 <= k < |cards| ensures Count(cards, cards[k].value) >= 2 <==> cards[k].value in {v, w} {
      if cards[k].value != v && cards[k].value != w {
        ThreeValuesFit(cards, v, w, cards[k].value);
      }
    }
    CollectedTwoValues(cards, 2, v, w);
  }

  lemma OnePairCollected(cards: seq<Card>, v: int)
    requires Sorted(cards) && Distinct(cards)
    requires forall k :: 0 <= k < |cards| ==> (Count(cards, cards[k].value) >= 2 ==> cards[k].value == v)
    requires Count(cards, v) == 2
    ensures |NSameValCards(cards, 2)| == 2
    ensures forall x :: x in NSameValCards(cards, 2) ==> x.value == v && Count(cards, x.value) == 2
  {
    CollectedOneValue(cards, 2, v);
  }

  /** The pair test on two different cards: both cards when they share a value, otherwise nothing. */
  lemma TwoCardPair(s: seq<Card>)
    requires |s| == 2 && s[0] != s[1]
    ensures NSameValCards(s, 2) == if s[0].value == s[1].value then s else []
  {
    var ws := Windows(s, 2);
    assert s[0..2] == s;
    assert ws == [s];
    assert ws[..0] == [];
    assert Matched(ws) == if SameValue(s) then s else [];
    assert s[..1] == [s[0]] && [s[0]][..0] == [];
    assert Dedup([s[0]]) == [s[0]];
    assert Dedup(s) == s;
  }

  /** Removing the three cards of one value leaves exactly the other cards. */
  lemma RemoveThree(cards: seq<Card>, three: seq<Card>, v: int)
    requires ValidHand(cards) && Distinct(three) && multiset(three) <= multiset(cards)
    requires forall x :: x in three <==> x in cards && x.value == v
    ensures Distinct(RemoveAll(cards, three))
    ensures forall x :: x in RemoveAll(cards, three) <==> x in cards && x.value != v
  {
    var rest := RemoveAll(cards, three);
    forall x ensures multiset(rest)[x] == if x in cards && x.value != v then 1 else 0 {
      DistinctCount(cards, x);
      DistinctCount(three, x);
    }
    DistinctIffCountsAtMostOne(rest);
  }

  /** Two remaining cards of one value w are all the cards of value w. */
  lemma RestPairCounted(cards: seq<Card>, rest: seq<Card>, v: int)
    requires Distinct(cards) && |rest| == 2 && Distinct(rest)
    requires forall x :: x in rest <==> x in cards && x.value != v
    requires rest[0].value == rest[1].value
    ensures Count(cards, rest[0].value) == 2
  {
    var w := rest[0].value;
    var ws := WithValues(cards, {w});
    forall x ensures x in ws <==> x in rest {
      WithValuesMembers(cards, {w}, x);
    }
    WithValuesDistinct(cards, {w});
    SameElementsSameLength(ws, rest);
  }

  /** When a value w other than v occurs twice, its two cards are the two remaining ones. */
  lemma PairIsRest(cards: seq<Card>, rest: seq<Card>, v: int, w: int)
    requires Distinct(cards) && |rest| == 2
    requires forall x :: x in rest <==> x in cards && x.value != v
    requires w != v && Count(cards, w) == 2
    ensures rest[0].value == w && rest[1].value == w
  {
    var ws := WithValues(cards, {w});
    WithValuesDistinct(cards, {w});
    assert ws[0] in ws && ws[1] in ws;
    WithValuesMembers(cards, {w}, ws[0]);
    WithValuesMembers(cards, {w}, ws[1]);
    assert ws[0] != ws[1];
    assert ws[0] in rest && ws[1] in rest;
  }

  /** With a value v occurring three times, the full-house test removes its three
      cards and keeps the other two. */
  lemma ThreeRemoved(cards: seq<Card>, v: int) returns (rest: seq<Card>)
    requires ValidHand(cards) && Count(cards, v) == 3
    ensures NSameValCards(cards, 3) != []
    ensures rest == RemoveAll(cards, NSameValCards(cards, 3))
    ensures |rest| == 2 && Distinct(rest)
    ensures forall x :: x in rest <==> x in cards && x.value != v
  {
    var i :| 0 <= i < |cards| && cards[i].value == v by {
      var ws := WithValues(cards, {v});
      assert ws[0] in ws;
      WithValuesMembers(cards, {v}, ws[0]);
    }
    ThreeOfAKind(cards);
    var three := NSameValCards(cards, 3);
    forall x ensures x in three <==> x in cards && x.value == v {
      if x in cards && x.value != v && Count(cards, x.value) == 3 {
        TwoValuesFit(cards, v, x.value);
      }
    }
    RemoveThree(cards, three, v);
    rest := RemoveAll(cards, three);
  }

  /** Without four of a kind, the full-house test succeeds exactly for three of a kind
      together with a pair, and reports the pair. */
  lemma FullHouse(cards: seq<Card>)
    requires ValidHand(cards) && !HasKind(cards, 4)
    ensures FullHouseCards(cards) != [] <==> HasKind(cards, 3) && HasKind(cards, 2)
    ensures FullHouseCards(cards) != [] ==>
              |FullHouseCards(cards)| == 2 && SameValue(FullHouseCards(cards))
              && Count(cards, FullHouseCards(cards)[0].value) == 2
  {
    if HasKind(cards, 3) {
      var i :| 0 <= i < |cards| && Count(cards, cards[i].value) == 3;
      FullHouseOnThree(cards, cards[i].value);
    } else {
      ThreeOfAKind(cards);
      assert NSameValCards(cards, 3) == [];
    }
  }

  lemma FullHouseOnThree(cards: seq<Card>, v: int)
    requires ValidHand(cards) && Count(cards, v) == 3
    ensures FullHouseCards(cards) != [] <==> HasKind(cards, 2)
    ensures FullHouseCards(cards) != [] ==>
              |FullHouseCards(cards)| == 2 && SameValue(FullHouseCards(cards))
              && Count(cards, FullHouseCards(cards)[0].value) == 2
  {
    var rest := ThreeRemoved(cards, v);
    FullHouseUnfold(cards, rest);
    RestIsPair(cards, rest, v);
  }

  lemma FullHouseUnfold(cards: seq<Card>, rest: seq<Card>)
    requires NSameValCards(cards, 3) != [] && rest == RemoveAll(cards, NSameValCards(cards, 3))
    requires |rest| == 2 && rest[0] != rest[1]
    ensures FullHouseCards(cards) == if rest[0].value == rest[1].value then rest else []
  {
    TwoCardPair(rest);
  }

  /** The two cards left after removing three of a kind: they are kept when they share a
      value, which happens exactly when some value occurs twice, and then they are that pair. */
  lemma RestIsPair(cards: seq<Card>, rest: seq<Card>, v: int)
    requires Distinct(cards) && Count(cards, v) == 3
    requires |rest| == 2 && Distinct(rest)
    requires forall x :: x in rest <==> x in cards && x.value != v
    ensures var r := if rest[0].value == rest[1].value then rest else [];
            && (r != [] <==> HasKind(cards, 2))
            && (r != [] ==> |r| == 2 && SameValue(r) && Count(cards, r[0].value) == 2)
  {
    assert rest[0] in rest;
    if rest[0].value == rest[1].value {
      RestPairCounted(cards, rest, v);
      var j :| 0 <= j < |cards| && cards[j] == rest[0];
      assert Count(cards, cards[j].value) == 2;
      assert forall k :: 0 <= k < |rest| ==> rest[k].value == rest[0].value;
    } else if HasKind(cards, 2) {
      var j :| 0 <= j < |cards| && Count(cards, cards[j].value) == 2;
      PairIsRest(cards, rest, v, cards[j].value);
    }
  }

  /** The classifier gives every valid hand the code of its category, with as many key
      cards as the category calls for; the key cards of a full house are its pair, those
      of four or three of a kind and of a pair are cards of one value, and a high card
      hand is represented by its highest card. */
  lemma ClassifyIsCategory(cards: seq<Card>)
    requires ValidHand(cards)
    ensures Classify(cards).rank == RankCode(Category(cards))
    ensures |Classify(cards).keyCards| == KeyCount(Category(cards))
    ensures Category(cards) in {10, 9, 6, 5} ==> Classify(cards).keyCards == cards
    ensures Category(cards) in {8, 7, 4, 2} ==> SameValue(Classify(cards).keyCards)
    ensures Category(cards) == 7 ==> Count(cards, Classify(cards).keyCards[0].value) == 2
    ensures Category(cards) == 1 ==> Classify(cards).keyCards == [cards[4]]
  {
    var k := Category(cards);
    if k == 10 || k == 9 || k == 6 || k == 5 {
      WholeHandCategories(cards);
    } else if k == 8 {
      FourOfAKindCategory(cards);
    } else if k == 7 {
      FullHouseCategory(cards);
    } else if k == 4 {
      ThreeOfAKindCategory(cards);
    } else if k == 3 {
      TwoPairsCategory(cards);
    } else if k == 2 {
      OnePairCategory(cards);
    } else {
      HighCardCategory(cards);
    }
  }

  lemma WholeHandCategories(cards: seq<Card>)
    requires ValidHand(cards) && Category(cards) in {10, 9, 6, 5}
    ensures Classify(cards) == Classified(RankCode(Category(cards)), cards)
  {
    if Category(cards) == 10 || Category(cards) == 9 {
      FlushTests(cards);
    } else {
      CategoryTests(cards);
      IsFlushOrStraight(cards);
    }
  }

  lemma FourOfAKindCategory(cards: seq<Card>)
    requires ValidHand(cards) && Category(cards) == 8
    ensures Classify(cards).rank == RankCode(8)
    ensures |Classify(cards).keyCards| == 4 && SameValue(Classify(cards).keyCards)
  {
    CategoryTests(cards);
    IsFourOfAKind(cards);
  }

  lemma FullHouseCategory(cards: seq<Card>)
    requires ValidHand(cards) && Category(cards) == 7
    ensures Classify(cards).rank == RankCode(7)
    ensures |Classify(cards).keyCards| == 2 && SameValue(Classify(cards).keyCards)
    ensures Count(cards, Classify(cards).keyCards[0].value) == 2
  {
    CategoryTests(cards);
    IsFullHouse(cards);
  }

  lemma ThreeOfAKindCategory(cards: seq<Card>)
    requires ValidHand(cards) && Category(cards) == 4
    ensures Classify(cards).rank == RankCode(4)
    ensures |Classify(cards).keyCards| == 3 && SameValue(Classify(cards).keyCards)
  {
    CategoryTests(cards);
    IsThreeOfAKind(cards);
  }

  lemma TwoPairsCategory(cards: seq<Card>)
    requires ValidHand(cards) && Category(cards) == 3
    ensures Classify(cards).rank == RankCode(3)
    ensures |Classify(cards).keyCards| == 4
  {
    CategoryTests(cards);
    IsPairsOrHighCard(cards);
  }

  lemma OnePairCategory(cards: seq<Card>)
    requires ValidHand(cards) && Category(cards) == 2
    ensures Classify(cards).rank == RankCode(2)
    ensures |Classify(cards).keyCards| == 2 && SameValue(Classify(cards).keyCards)
  {
    CategoryTests(cards);
    IsPairsOrHighCard(cards);
  }

  lemma HighCardCategory(cards: seq<Card>)
    requires ValidHand(cards) && Category(cards) == 1
    ensures Classify(cards) == Classified(RankCode(1), [cards[4]])
  {
    CategoryTests(cards);
    IsPairsOrHighCard(cards);
  }

  /** What each category below the straight flush says about the tests. */
  lemma CategoryTests(cards: seq<Card>)
    ensures var k := Category(cards);
      && (k == 9 ==> SameSuit(cards) && Consecutive(cards))
      && (k == 6 <==> k <= 6 && SameSuit(cards))
      && (k == 5 <==> k <= 5 && !SameSuit(cards) && Consecutive(cards))
      && (k <= 8 ==> !(SameSuit(cards) && AllTenOrHigher(cards)) && !(SameSuit(cards) && Consecutive(cards)))
      && (k == 8 <==> k <= 8 && HasKind(cards, 4))
      && (k <= 7 ==> !HasKind(cards, 4))
      && (k == 7 <==> k <= 7 && HasKind(cards, 3) && HasKind(cards, 2))
      && (k <= 4 ==> !SameSuit(cards) && !Consecutive(cards) && !(HasKind(cards, 3) && HasKind(cards, 2)))
      && (k == 4 <==> k <= 4 && HasKind(cards, 3))
      && (k <= 3 ==> !HasKind(cards, 3))
      && (k == 3 <==> k <= 3 && HasTwoPairs(cards))
      && (k == 2 <==> k <= 2 && !HasTwoPairs(cards) && HasKind(cards, 2))
      && (k == 1 <==> k <= 1)
      && (k == 1 ==> !HasTwoPairs(cards) && !HasKind(cards, 2))
  {
  }

  /** The royal-flush and straight-flush tests in terms of suits and values. */
  lemma FlushTests(cards: seq<Card>)
    ensures RoyalFlushCards(cards) != [] <==> cards != [] && SameSuit(cards) && AllTenOrHigher(cards)
    ensures StraightFlushCards(cards) != [] <==> cards != [] && SameSuit(cards) && Consecutive(cards)
  {
    forall i | 0 <= i < |cards| ensures cards[i].value in Royals <==> 10 <= cards[i].value <= 14 {
      RoyalsAreTenOrHigher(cards[i].value);
    }
  }

  lemma IsFourOfAKind(cards: seq<Card>)
    requires ValidHand(cards) && !(SameSuit(cards) && AllTenOrHigher(cards)) && !(SameSuit(cards) && Consecutive(cards))
    requires HasKind(cards, 4)
    ensures Classify(cards) == Classified("8", NSameValCards(cards, 4))
    ensures |NSameValCards(cards, 4)| == 4 && SameValue(NSameValCards(cards, 4))
  {
    FlushTests(cards);
    FourOfAKind(cards);
  }

  lemma IsFullHouse(cards: seq<Card>)
    requires ValidHand(cards) && !(SameSuit(cards) && AllTenOrHigher(cards)) && !(SameSuit(cards) && Consecutive(cards))
    requires !HasKind(cards, 4) && HasKind(cards, 3) && HasKind(cards, 2)
    ensures Classify(cards) == Classified("7", FullHouseCards(cards))
    ensures |FullHouseCards(cards)| == 2 && SameValue(FullHouseCards(cards))
    ensures Count(cards, FullHouseCards(cards)[0].value) == 2
  {
    FlushTests(cards);
    FourOfAKind(cards);
    FullHouse(cards);
  }

  lemma IsFlushOrStraight(cards: seq<Card>)
    requires ValidHand(cards) && !(SameSuit(cards) && AllTenOrHigher(cards)) && !(SameSuit(cards) && Consecutive(cards))
    requires !HasKind(cards, 4) && !(HasKind(cards, 3) && HasKind(cards, 2))
    requires SameSuit(cards) || Consecutive(cards)
    ensures Classify(cards) == Classified(if SameSuit(cards) then "6" else "5", cards)
  {
    FlushTests(cards);
    FourOfAKind(cards);
    FullHouse(cards);
  }

  lemma IsThreeOfAKind(cards: seq<Card>)
    requires ValidHand(cards) && !SameSuit(cards) && !Consecutive(cards)
    requires !HasKind(cards, 4) && HasKind(cards, 3) && !HasKind(cards, 2)
    ensures Classify(cards) == Classified("4", NSameValCards(cards, 3))
    ensures |NSameValCards(cards, 3)| == 3 && SameValue(NSameValCards(cards, 3))
  {
    FlushTests(cards);
    FourOfAKind(cards);
    FullHouse(cards);
    ThreeOfAKind(cards);
    ThreeOfAKindKeys(cards);
  }

  lemma IsPairsOrHighCard(cards: seq<Card>)
    requires ValidHand(cards) && !SameSuit(cards) && !Consecutive(cards)
    requires !HasKind(cards, 4) && !HasKind(cards, 3)
    ensures HasTwoPairs(cards) ==> Classify(cards) == Classified("3", NSameValCards(cards, 2))
                                   && |NSameValCards(cards, 2)| == 4
    ensures !HasTwoPairs(cards) && HasKind(cards, 2) ==>
              Classify(cards) == Classified("2", NSameValCards(cards, 2))
              && |NSameValCards(cards, 2)| == 2 && SameValue(NSameValCards(cards, 2))
    ensures !HasTwoPairs(cards) && !HasKind(cards, 2) ==> Classify(cards) == Classified("1", [cards[4]])
  {
    FlushTests(cards);
    FourOfAKind(cards);
    FullHouse(cards);
    ThreeOfAKind(cards);
    Pairs(cards);
  }

  /** The three cards found for three of a kind share their value. */
  lemma ThreeOfAKindKeys(cards: seq<Card>)
    requires ValidHand(cards) && HasKind(cards, 3)
    ensures SameValue(NSameValCards(cards, 3))
  {
    ThreeOfAKind(cards);
    var three := NSameValCards(cards, 3);
    forall k | 0 <= k < |three| ensures three[k].value == three[0].value {
      assert three[k] in three && three[0] in three;
      if three[k].value != three[0].value {
        TwoValuesFit(cards, three[k].value, three[0].value);
      }
    }
  }

  /** Three cards of one value are never reported by the pair test: together with
      whatever pair is left they make an odd number of cards. */
  lemma PairTestSkipsThree(cards: seq<Card>, v: int)
    requires ValidHand(cards) && Count(cards, v) == 3
    ensures NSameValCards(cards, 2) == []
  {
    if j :| 0 <= j < |cards| && cards[j].value != v && Count(cards, cards[j].value) >= 2 {
      ThreeAndPairCollected(cards, v, cards[j].value);
    } else {
      ThreeAloneCollected(cards, v);
    }
  }

  lemma ThreeAndPairCollected(cards: seq<Card>, v: int, w: int)
    requires Sorted(cards) && Distinct(cards) && |cards| == 5 && v != w
    requires Count(cards, v) == 3 && Count(cards, w) >= 2
    ensures NSameValCards(cards, 2) == []
  {
    ThreeAndPairCounted(cards, v, w);
    CollectedTwoValues(cards, 2, v, w);
    assert |Dedup(Matched(Windows(cards, 2)))| == 5;
  }

  lemma ThreeAndPairCounted(cards: seq<Card>, v: int, w: int)
    requires |cards| == 5 && v != w && Count(cards, v) == 3 && Count(cards, w) >= 2
    ensures Count(cards, w) == 2
    ensures forall k :: 0 <= k < |cards| ==> (Count(cards, cards[k].value) >= 2 <==> cards[k].value in {v, w})
  {
    TwoValuesFit(cards, v, w);
    forall k | 0 <= k < |cards| ensures Count(cards, cards[k].value) >= 2 <==> cards[k].value in {v, w} {
      if cards[k].value !in {v, w} {
        ThreeValuesFit(cards, v, w, cards[k].value);
      }
    }
  }

  lemma ThreeAloneCollected(cards: seq<Card>, v: int)
    requires Sorted(cards) && Distinct(cards) && Count(cards, v) == 3
    requires forall k :: 0 <= k < |cards| && cards[k].value != v ==> Count(cards, cards[k].value) < 2
    ensures NSameValCards(cards, 2) == []
  {
    CollectedOneValue(cards, 2, v);
  }

  /** Four cards of one value are never reported by the three-of-a-kind test. */
  lemma TripleTestSkipsFour(cards: seq<Card>, v: int)
    requires ValidHand(cards) && Count(cards, v) == 4
    ensures NSameValCards(cards, 3) == []
  {
    ThreeOfAKind(cards);
    forall k | 0 <= k < |cards| ensures Count(cards, cards[k].value) != 3 {
      if cards[k].value != v {
        TwoValuesFit(cards, v, cards[k].value);
      }
    }
  }

  /** A straight that holds an ace is ten to ace: the ace never counts low. */
  lemma StraightWithAce(cards: seq<Card>)
    requires ValidHand(cards) && Consecutive(cards)
    requires exists i :: 0 <= i < |cards| && cards[i].value == 14
    ensures Values(cards) == Royals
  {
    ConsecutiveFromFirst(cards);
    assert ValidCard(cards[4]);
  }

  /** Ace, two, three, four, five is not classified as a straight or a straight flush. */
  lemma LowAceIsNoStraight(cards: seq<Card>)
    requires Values(cards) == [2, 3, 4, 5, 14]
    ensures Classify(cards).rank != RankCode(5) && Classify(cards).rank != RankCode(9)
  {
    assert Values(cards)[3] == 5 && Values(cards)[4] == 14;
    StraightCodesAreConsecutive(cards);
  }

  /** The classifier reports a straight or a straight flush only for consecutive values. */
  lemma StraightCodesAreConsecutive(cards: seq<Card>)
    requires cards != []
    ensures Classify(cards).rank == RankCode(5) ==> Consecutive(cards)
    ensures Classify(cards).rank == RankCode(9) ==> SameSuit(cards) && Consecutive(cards)
  {
    assert RankCode(5) == "5" && RankCode(9) == "9";
  }
}
