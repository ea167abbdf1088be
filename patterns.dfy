/** The pattern tests of the classifier. Each one looks at the sorted numeric cards
    of a hand and either says yes or no or hands back the cards that make up the
    pattern, an empty list meaning "no". The tests that loop in the source are
    methods here, each proved to compute the function that specifies it; the
    classifier's specification uses the functions. */
module Patterns {
  import opened Cards

  /** All cards carry one value: a set of values with exactly one element. */
  function SameValue(cards: seq<Card>): (b: bool)
    ensures b <==> cards != [] && forall i :: 0 <= i < |cards| ==> cards[i].value == cards[0].value
  {
    var values := set c | c in cards :: c.value;
    if cards == [] then |values| == 1
    else
      assert cards[0] in cards;
      SingletonSet(values, cards[0].value);
      assert values == {cards[0].value} <==> forall i :: 0 <= i < |cards| ==> cards[i].value == cards[0].value by {
        if forall i :: 0 <= i < |cards| ==> cards[i].value == cards[0].value {
          forall y | y in values ensures y == cards[0].value {
            var c :| c in cards && c.value == y;
            var i :| 0 <= i < |cards| && cards[i] == c;
          }
        }
        if values == {cards[0].value} {
          forall i | 0 <= i < |cards| ensures cards[i].value == cards[0].value {
            assert cards[i] in cards;
            assert cards[i].value in values;
          }
        }
      }
      |values| == 1
  }

  /** All cards carry one suit: a set of suits with exactly one element. */
  function SameSuit(cards: seq<Card>): (b: bool)
    ensures b <==> cards != [] && forall i :: 0 <= i < |cards| ==> cards[i].suit == cards[0].suit
  {
    var suits := set c | c in cards :: c.suit;
    if cards == [] then |suits| == 1
    else
      assert cards[0] in cards;
      SingletonSet(suits, cards[0].suit);
      assert suits == {cards[0].suit} <==> forall i :: 0 <= i < |cards| ==> cards[i].suit == cards[0].suit by {
        if forall i :: 0 <= i < |cards| ==> cards[i].suit == cards[0].suit {
          forall y | y in suits ensures y == cards[0].suit {
            var c :| c in cards && c.suit == y;
            var i :| 0 <= i < |cards| && cards[i] == c;
          }
        }
        if suits == {cards[0].suit} {
          forall i | 0 <= i < |cards| ensures cards[i].suit == cards[0].suit {
            assert cards[i] in cards;
            assert cards[i].suit in suits;
          }
        }
      }
      |suits| == 1
  }

  lemma SingletonSet<T>(s: set<T>, x: T)
    requires x in s
    ensures |s| == 1 <==> s == {x}
  {
    if |s| == 1 {
      assert |s - {x}| == 0;
      assert s - {x} == {};
    }
  }

  /** Each value is one more than the value before it. */
  predicate Consecutive(cards: seq<Card>) {
    forall i :: 0 < i < |cards| ==> cards[i].value == cards[i - 1].value + 1
  }

  /** In a run of consecutive values each card is its position above the first. */
  lemma {:induction false} ConsecutiveFromFirst(cards: seq<Card>)
    requires Consecutive(cards)
    ensures forall i :: 0 <= i < |cards| ==> cards[i].value == cards[0].value + i
  {
    if |cards| > 1 {
      var init := cards[..|cards| - 1];
      assert Consecutive(init);
      ConsecutiveFromFirst(init);
      assert forall i :: 0 <= i < |init| ==> cards[i] == init[i];
      assert cards[|cards| - 1].value == init[|init| - 1].value + 1;
    }
  }

  /** The straight test: walks the values keeping the value the next card must have. */
  method CheckStraight(cards: seq<Card>) returns (straight: bool)
    requires cards != []
    ensures straight <==> Consecutive(cards)
  {
    var prevVal := cards[0].value;
    for k := 1 to |cards|
      invariant prevVal == cards[k - 1].value
      invariant forall i :: 0 < i < k ==> cards[i].value == cards[i - 1].value + 1
    {
      if cards[k].value != prevVal + 1 {
        return false;
      }
      prevVal := prevVal + 1;
    }
    return true;
  }

  /** The windows of n adjacent cards, ordered by where they start. */
  function Windows(cards: seq<Card>, n: nat): (ws: seq<seq<Card>>)
    ensures |ws| == if n <= |cards| then |cards| - n + 1 else 0
    ensures forall k :: 0 <= k < |ws| ==> ws[k] == cards[k..k + n]
  {
    if n > |cards| then []
    else seq(|cards| - n + 1, k requires 0 <= k <= |cards| - n => cards[k..k + n])
  }

  /** The concatenation, in order, of the windows whose cards share one value. */
  function Matched(ws: seq<seq<Card>>): seq<Card> {
    if ws == [] then []
    else Matched(ws[..|ws| - 1]) + (if SameValue(ws[|ws| - 1]) then ws[|ws| - 1] else [])
  }

  /** The first occurrence of each element, in order of first occurrence. */
  function Dedup(s: seq<Card>): (d: seq<Card>)
    ensures Distinct(d)
    ensures forall x :: x in d <==> x in s
  {
    if s == [] then []
    else
      var d := Dedup(s[..|s| - 1]);
      assert forall x :: x in s <==> x in s[..|s| - 1] || x == s[|s| - 1] by {
        assert s == s[..|s| - 1] + [s[|s| - 1]];
      }
      if s[|s| - 1] in d then d else d + [s[|s| - 1]]
  }

  /** Card c lies in the window of n adjacent cards starting at j, and that window is of one value. */
  predicate InUniformWindow(cards: seq<Card>, n: nat, j: int, c: Card) {
    0 <= j <= |cards| - n && SameValue(cards[j..j + n]) && c in cards[j..j + n]
  }

  lemma {:induction false} MatchedMembers(ws: seq<seq<Card>>, x: Card)
    requires x in Matched(ws)
    ensures exists k :: 0 <= k < |ws| && SameValue(ws[k]) && x in ws[k]
  {
    var last := ws[|ws| - 1];
    if x in Matched(ws[..|ws| - 1]) {
      MatchedMembers(ws[..|ws| - 1], x);
      var k :| 0 <= k < |ws| - 1 && SameValue(ws[..|ws| - 1][k]) && x in ws[..|ws| - 1][k];
      assert ws[k] == ws[..|ws| - 1][k];
    } else {
      assert SameValue(last) && x in last;
    }
  }

  /** A sequence without repetitions holds each of its elements once. */
  lemma {:induction false} DistinctCount(d: seq<Card>, x: Card)
    requires Distinct(d)
    ensures multiset(d)[x] == if x in d then 1 else 0
  {
    if d != [] {
      assert d == [d[0]] + d[1..];
      assert Distinct(d[1..]);
      DistinctCount(d[1..], x);
    }
  }

  lemma DistinctSubMultiset(d: seq<Card>, s: seq<Card>)
    requires Distinct(d) && forall x :: x in d ==> x in s
    ensures multiset(d) <= multiset(s)
  {
    forall x ensures multiset(d)[x] <= multiset(s)[x] {
      DistinctCount(d, x);
    }
  }

  /** Every distinct matched card lies in a uniform window of the hand, hence in the hand. */
  lemma MatchedInWindows(cards: seq<Card>, n: nat, c: Card)
    requires c in Dedup(Matched(Windows(cards, n)))
    ensures exists j :: InUniformWindow(cards, n, j, c)
    ensures c in cards
  {
    var ws := Windows(cards, n);
    MatchedMembers(ws, c);
    var k :| 0 <= k < |ws| && SameValue(ws[k]) && c in ws[k];
    assert InUniformWindow(cards, n, k, c);
    var i :| 0 <= i < n && cards[k..k + n][i] == c;
    assert cards[k + i] == c;
  }

  /** The n-of-a-kind finder: the distinct cards of the uniform windows of size n,
      provided there are a multiple of n of them, and otherwise nothing. */
  function NSameValCards(cards: seq<Card>, n: nat): (r: seq<Card>)
    requires n > 0
    ensures |r| % n == 0 && Distinct(r)
    ensures multiset(r) <= multiset(cards)
  {
    var unique := Dedup(Matched(Windows(cards, n)));
    assert forall c :: c in unique ==> c in cards by {
      forall c | c in unique ensures c in cards {
        MatchedInWindows(cards, n, c);
      }
    }
    DistinctSubMultiset(unique, cards);
    if |unique| % n == 0 then unique else []
  }

  /** Every card the finder reports lies in a window of n adjacent cards of one value. */
  lemma NSameValCardsInWindows(cards: seq<Card>, n: nat, c: Card)
    requires n > 0 && c in NSameValCards(cards, n)
    ensures exists j :: InUniformWindow(cards, n, j, c)
  {
    MatchedInWindows(cards, n, c);
  }

  method CheckNSameValCards(cards: seq<Card>, n: nat) returns (sameValCards: seq<Card>)
    requires n > 0
    ensures sameValCards == NSameValCards(cards, n)
  {
    var possiblePairs := Windows(cards, n);
    var matched := [];
    for k := 0 to |possiblePairs|
      invariant matched == Matched(possiblePairs[..k])
    {
      var pair := possiblePairs[k];
      assert possiblePairs[..k + 1][..k] == possiblePairs[..k];
      if SameValue(pair) {
        matched := matched + pair;
      }
    }
    assert possiblePairs[..|possiblePairs|] == possiblePairs;
    var unique := Dedup(matched);
    sameValCards := if |unique| % n == 0 then unique else [];
  }

  /** The index list.remove uses: the first occurrence of x. */
  function IndexOf(s: seq<Card>, x: Card): (k: nat)
    requires x in s
    ensures k < |s| && s[k] == x && x !in s[..k]
  {
    if s[0] == x then 0
    else
      assert s == [s[0]] + s[1..];
      var k := IndexOf(s[1..], x);
      assert s[..k + 1] == [s[0]] + s[1..][..k];
      k + 1
  }

  /** list.remove(x): drops the first occurrence of x. */
  function RemoveFirst(s: seq<Card>, x: Card): (r: seq<Card>)
    requires x in s
    ensures |r| == |s| - 1
    ensures multiset(r) == multiset(s) - multiset{x}
    ensures Sorted(s) ==> Sorted(r)
  {
    var k := IndexOf(s, x);
    assert s == s[..k] + [x] + s[k + 1..];
    DropKeepsSorted(s, k);
    s[..k] + s[k + 1..]
  }

  lemma DropKeepsSorted(s: seq<Card>, k: int)
    requires 0 <= k < |s|
    ensures Sorted(s) ==> Sorted(s[..k] + s[k + 1..])
  {
    var r := s[..k] + s[k + 1..];
    assert forall i :: 0 <= i < |r| ==> r[i] == s[if i < k then i else i + 1];
  }

  /** Removes the elements of xs one after the other, as the loops of list.remove do. */
  function RemoveAll(s: seq<Card>, xs: seq<Card>): (r: seq<Card>)
    requires multiset(xs) <= multiset(s)
    ensures |r| == |s| - |xs|
    ensures multiset(r) == multiset(s) - multiset(xs)
  {
    if xs == [] then s
    else
      var init, last := xs[..|xs| - 1], xs[|xs| - 1];
      assert multiset(xs) == multiset(init) + multiset{last} by {
        assert xs == init + [last];
      }
      var rest := RemoveAll(s, init);
      assert multiset(rest)[last] == multiset(s)[last] - multiset(init)[last];
      RemoveFirst(rest, last)
  }

  /** The full-house test: the cards left once the three of a kind is removed,
      if those two are a pair. */
  function FullHouseCards(cards: seq<Card>): (r: seq<Card>)
    ensures multiset(r) <= multiset(cards)
  {
    var threeOfAKind := NSameValCards(cards, 3);
    if threeOfAKind != [] then
      var rest := RemoveAll(cards, threeOfAKind);
      if NSameValCards(rest, 2) != [] then rest else []
    else []
  }

  /** Removing one more element of xs is one more list.remove. */
  lemma RemoveAllStep(s: seq<Card>, xs: seq<Card>, k: nat)
    requires multiset(xs) <= multiset(s) && k < |xs|
    ensures multiset(xs[..k]) <= multiset(s) && multiset(xs[..k + 1]) <= multiset(s)
    ensures xs[k] in RemoveAll(s, xs[..k])
    ensures RemoveAll(s, xs[..k + 1]) == RemoveFirst(RemoveAll(s, xs[..k]), xs[k])
  {
    assert xs == xs[..k] + [xs[k]] + xs[k + 1..];
    assert xs[..k + 1] == xs[..k] + [xs[k]];
    assert xs[..k + 1][..k] == xs[..k];
    assert multiset(xs) == multiset(xs[..k]) + multiset{xs[k]} + multiset(xs[k + 1..]);
    assert xs[k] in multiset(RemoveAll(s, xs[..k]));
  }

  /** Copies the list and calls list.remove on it once per element of xs. */
  method RemoveEach(s: seq<Card>, xs: seq<Card>) returns (rest: seq<Card>)
    requires multiset(xs) <= multiset(s)
    ensures rest == RemoveAll(s, xs)
  {
    rest := s;
    for k := 0 to |xs|
      invariant multiset(xs[..k]) <= multiset(s)
      invariant rest == RemoveAll(s, xs[..k])
    {
      RemoveAllStep(s, xs, k);
      rest := RemoveFirst(rest, xs[k]);
    }
    assert xs[..|xs|] == xs;
  }

  /** What the removal loop leaves when the key cards are the hand's own list (a flush,
      a straight, a straight flush, a royal flush): every card at an odd position. */
  function RemoveWhileIterating(s: seq<Card>): (r: seq<Card>)
    ensures |r| == |s| / 2
    ensures forall i :: 0 <= i < |r| ==> r[i] == s[2 * i + 1]
  {
    if |s| <= 1 then [] else [s[1]] + RemoveWhileIterating(s[2..])
  }

  /** The removal loop run over the very list it removes from: the iteration walks the
      list by position while each list.remove shifts the cards after the removed one
      forward, so every second card is passed over and stays. */
  method RemoveEachOwn(s: seq<Card>) returns (rest: seq<Card>)
    requires Distinct(s)
    ensures rest == RemoveWhileIterating(s)
  {
    rest := s;
    var k := 0;
    while k < |rest|
      invariant RemovingOwn(s, rest, k)
      decreases |rest| - k
    {
      RemovingOwnStep(s, rest, k);
      RemovingOwnDrop(s, rest, k);
      rest := RemoveFirst(rest, rest[k]);
      k := k + 1;
    }
    RemovingOwnDone(s, rest, k);
  }

  /** After k passes of the loop: the cards at the first k odd positions, then the
      cards from position 2k on. */
  predicate RemovingOwn(s: seq<Card>, rest: seq<Card>, k: int) {
    && 0 <= k && 2 * k <= |s| + 1
    && |rest| == |s| - k
    && (forall i :: 0 <= i < k && i < |rest| ==> rest[i] == s[2 * i + 1])
    && (forall i :: k <= i < |rest| ==> rest[i] == s[i + k])
  }

  /** The card the loop reaches at pass k has no earlier copy, so list.remove drops it where it is. */
  lemma RemovingOwnStep(s: seq<Card>, rest: seq<Card>, k: int)
    requires Distinct(s) && RemovingOwn(s, rest, k) && k < |rest|
    ensures RemoveFirst(rest, rest[k]) == rest[..k] + rest[k + 1..]
  {
    forall i | 0 <= i < k ensures rest[i] != rest[k] {
      assert rest[i] == s[2 * i + 1] && rest[k] == s[2 * k];
    }
    RemoveFirstAt(rest, k);
  }

  lemma RemovingOwnDrop(s: seq<Card>, rest: seq<Card>, k: int)
    requires RemovingOwn(s, rest, k) && k < |rest|
    ensures RemovingOwn(s, rest[..k] + rest[k + 1..], k + 1)
  {
    var r := rest[..k] + rest[k + 1..];
    assert forall i :: 0 <= i < |r| ==> r[i] == rest[if i < k then i else i + 1];
  }

  lemma RemovingOwnDone(s: seq<Card>, rest: seq<Card>, k: int)
    requires RemovingOwn(s, rest, k) && k >= |rest|
    ensures rest == RemoveWhileIterating(s)
  {
    var r := RemoveWhileIterating(s);
    assert |rest| == |r|;
    forall i | 0 <= i < |rest| ensures rest[i] == r[i] {
    }
  }

  /** With no earlier copy of the card at position k, list.remove drops exactly that position. */
  lemma RemoveFirstAt(s: seq<Card>, k: int)
    requires 0 <= k < |s| && forall i :: 0 <= i < k ==> s[i] != s[k]
    ensures RemoveFirst(s, s[k]) == s[..k] + s[k + 1..]
  {
  }

  method CheckFullHouse(numCards: seq<Card>) returns (fullHouse: seq<Card>)
    ensures fullHouse == FullHouseCards(numCards)
  {
    var threeOfAKind := CheckNSameValCards(numCards, 3);
    if |threeOfAKind| > 0 {
      var cards := RemoveEach(numCards, threeOfAKind);
      var pair := CheckNSameValCards(cards, 2);
      if pair != [] {
        return cards;
      }
    }
    return [];
  }

  /** The straight-flush test: one suit and consecutive values. */
  function StraightFlushCards(cards: seq<Card>): seq<Card> {
    if SameSuit(cards) && Consecutive(cards) then cards else []
  }

  method CheckStraightFlush(numCards: seq<Card>) returns (straightFlush: seq<Card>)
    ensures straightFlush == StraightFlushCards(numCards)
  {
    if SameSuit(numCards) {
      var straight := CheckStraight(numCards);
      if straight {
        return numCards;
      }
    }
    return [];
  }

  const Royals: seq<int> := [10, 11, 12, 13, 14]

  /** The royal-flush test: one suit and every value among ten to ace. */
  function RoyalFlushCards(cards: seq<Card>): seq<Card> {
    if SameSuit(cards) && forall i :: 0 <= i < |cards| ==> cards[i].value in Royals then cards else []
  }

  method CheckRoyalFlush(numCards: seq<Card>) returns (royalFlush: seq<Card>)
    ensures royalFlush == RoyalFlushCards(numCards)
  {
    if !SameSuit(numCards) {
      return [];
    }
    for k := 0 to |numCards|
      invariant forall i :: 0 <= i < k ==> numCards[i].value in Royals
    {
      if numCards[k].value !in Royals {
        return [];
      }
    }
    return numCards;
  }
}
