/** Cards of a poker hand: the two-character input tokens, the numeric cards the
    classifier works on, and the stable sort by value that the classifier applies
    before any pattern test. */
module Cards {

  datatype Option<T> = None | Some(value: T)

  /** A card after its rank character has been mapped to a number:
      2..9 as written, T, J, Q, K, A as 10, 11, 12, 13, 14. */
  datatype Card = Card(value: int, suit: char)

  /** An input token such as "TD" or "5H": a rank character followed by a suit character. */
  type Token = string

  const RankChars: string := "23456789TJQKA"
  const SuitChars: string := "SHDC"

  predicate ValidToken(t: Token) {
    |t| == 2 && t[0] in RankChars && t[1] in SuitChars
  }

  predicate ValidCard(c: Card) {
    2 <= c.value <= 14 && c.suit in SuitChars
  }

  /** The numeric value of a rank character: the picture letters go through the
      table of the classifier, a digit is read as the number it spells. */
  function RankValue(ch: char): (v: int)
    requires ch in RankChars
    ensures 2 <= v <= 14
    ensures RankChars[v - 2] == ch
  {
    if ch == 'T' then 10
    else if ch == 'J' then 11
    else if ch == 'Q' then 12
    else if ch == 'K' then 13
    else if ch == 'A' then 14
    else ch as int - '0' as int
  }

  /** The rank character that spells a value: the inverse of RankValue. */
  function RankChar(v: int): char
    requires 2 <= v <= 14
  {
    RankChars[v - 2]
  }

  lemma RankValueOfRankChar(v: int)
    requires 2 <= v <= 14
    ensures RankChar(v) in RankChars && RankValue(RankChar(v)) == v
  {
    var ch := RankChar(v);
    assert ch in RankChars;
    var w := RankValue(ch);
    assert RankChars[w - 2] == RankChars[v - 2];
    // the thirteen rank characters are pairwise different
    assert forall i, j :: 0 <= i < j < |RankChars| ==> RankChars[i] != RankChars[j];
  }

  /** Reads one token as a card (the mapping of the picture letters followed by int()). */
  function MapCard(t: Token): (c: Card)
    requires ValidToken(t)
    ensures ValidCard(c) && c.suit == t[1]
    ensures t[0] !in "TJQKA" ==> c.value == t[0] as int - '0' as int
  {
    Card(RankValue(t[0]), t[1])
  }

  /** Writes a card back as a token. */
  function CardToken(c: Card): Token
    requires ValidCard(c)
  {
    [RankChar(c.value), c.suit]
  }

  lemma {:induction false} TokenRoundTrip(t: Token)
    requires ValidToken(t)
    ensures CardToken(MapCard(t)) == t
  {
    assert RankChar(RankValue(t[0])) == t[0];
  }

  lemma {:induction false} CardRoundTrip(c: Card)
    requires ValidCard(c)
    ensures ValidToken(CardToken(c)) && MapCard(CardToken(c)) == c
  {
    RankValueOfRankChar(c.value);
  }

  /** Different tokens give different cards, so distinct tokens stay distinct after mapping. */
  lemma MapCardInjective(t1: Token, t2: Token)
    requires ValidToken(t1) && ValidToken(t2) && MapCard(t1) == MapCard(t2)
    ensures t1 == t2
  {
    TokenRoundTrip(t1);
    TokenRoundTrip(t2);
  }

  lemma DifferentTokensDifferentCards(t1: Token, t2: Token)
    requires ValidToken(t1) && ValidToken(t2) && t1 != t2
    ensures MapCard(t1) != MapCard(t2)
  {
    if MapCard(t1) == MapCard(t2) {
      MapCardInjective(t1, t2);
    }
  }

  function MapCards(ts: seq<Token>): (cs: seq<Card>)
    requires forall i :: 0 <= i < |ts| ==> ValidToken(ts[i])
    ensures |cs| == |ts|
    ensures forall i :: 0 <= i < |ts| ==> cs[i] == MapCard(ts[i])
  {
    if ts == [] then [] else [MapCard(ts[0])] + MapCards(ts[1..])
  }

  predicate Distinct<T(==)>(s: seq<T>) {
    forall i, j :: 0 <= i < j < |s| ==> s[i] != s[j]
  }

  lemma MapCardsDistinct(ts: seq<Token>)
    requires forall i :: 0 <= i < |ts| ==> ValidToken(ts[i])
    requires Distinct(ts)
    ensures Distinct(MapCards(ts))
  {
    MappedDistinct(ts, MapCards(ts));
  }

  lemma MappedDistinct(ts: seq<Token>, cs: seq<Card>)
    requires forall i :: 0 <= i < |ts| ==> ValidToken(ts[i])
    requires Distinct(ts) && |cs| == |ts|
    requires forall i :: 0 <= i < |ts| ==> cs[i] == MapCard(ts[i])
    ensures Distinct(cs)
  {
    forall i, j | 0 <= i < j < |cs| ensures cs[i] != cs[j] {
      DifferentTokensDifferentCards(ts[i], ts[j]);
    }
  }

  /** The values of the cards, in order. */
  function Values(cards: seq<Card>): seq<int> {
    seq(|cards|, i requires 0 <= i < |cards| => cards[i].value)
  }

  predicate Sorted(cards: seq<Card>) {
    forall i, j :: 0 <= i < j < |cards| ==> cards[i].value <= cards[j].value
  }

  /** The cards of value v, in the order they occur. */
  function OfValue(cards: seq<Card>, v: int): seq<Card> {
    if cards == [] then []
    else (if cards[0].value == v then [cards[0]] else []) + OfValue(cards[1..], v)
  }

  /** Inserts c in front of the first card whose value is not smaller, so c stays
      ahead of the cards of equal value (which come after it in the input). */
  function Insert(c: Card, s: seq<Card>): (r: seq<Card>)
    requires Sorted(s)
    ensures |r| == |s| + 1
    ensures Sorted(r)
    ensures multiset(r) == multiset(s) + multiset{c}
  {
    if s == [] || c.value <= s[0].value then
      SortedCons(c, s);
      [c] + s
    else
      var t := Insert(c, s[1..]);
      assert s == [s[0]] + s[1..];
      BoundedByMultiset(s[0].value, s[1..] + [c], t);
      SortedCons(s[0], t);
      [s[0]] + t
  }

  /** A card no larger than the first of a sorted sequence extends it in front. */
  lemma SortedCons(x: Card, t: seq<Card>)
    requires Sorted(t) && forall i :: 0 <= i < |t| ==> x.value <= t[i].value
    ensures Sorted([x] + t)
  {
    var r := [x] + t;
    forall i, j | 0 <= i < j < |r| ensures r[i].value <= r[j].value {
      assert r[j] == t[j - 1];
      if i > 0 {
        assert r[i] == t[i - 1];
      }
    }
  }

  /** A lower bound of every value in one sequence bounds every value in a rearrangement of it. */
  lemma BoundedByMultiset(lo: int, a: seq<Card>, b: seq<Card>)
    requires forall i :: 0 <= i < |a| ==> lo <= a[i].value
    requires multiset(a) == multiset(b)
    ensures forall i :: 0 <= i < |b| ==> lo <= b[i].value
  {
    forall i | 0 <= i < |b| ensures lo <= b[i].value {
      assert b[i] in multiset(a);
      var j :| 0 <= j < |a| && a[j] == b[i];
    }
  }

  lemma {:induction false} InsertOfValue(c: Card, s: seq<Card>, v: int)
    requires Sorted(s)
    ensures OfValue(Insert(c, s), v) == (if c.value == v then [c] + OfValue(s, v) else OfValue(s, v))
    decreases |s|
  {
    InsertUnfold(c, s);
    if s == [] || c.value <= s[0].value {
      OfValueCons(c, s, v);
    } else {
      InsertOfValue(c, s[1..], v);
      OfValuePassed(c, s, Insert(c, s[1..]), Insert(c, s), v);
    }
  }

  /** Passing a smaller first card on the way in leaves that card ahead of the inserted c. */
  lemma OfValuePassed(c: Card, s: seq<Card>, t: seq<Card>, u: seq<Card>, v: int)
    requires s != [] && s[0].value < c.value && u == [s[0]] + t
    requires OfValue(t, v) == (if c.value == v then [c] else []) + OfValue(s[1..], v)
    ensures OfValue(u, v) == (if c.value == v then [c] + OfValue(s, v) else OfValue(s, v))
  {
    var own := if c.value == v then [c] else [];
    var head := if s[0].value == v then [s[0]] else [];
    calc {
      OfValue(u, v);
    == { OfValueCons(s[0], t, v); }
      head + OfValue(t, v);
      head + (own + OfValue(s[1..], v));
    == { if own != [] { assert head == []; } }
      own + (head + OfValue(s[1..], v));
    == { OfValueCons(s[0], s[1..], v); HeadTail(s); }
      own + OfValue(s, v);
    }
  }

  /** A non-empty sequence is its first element followed by the rest. */
  lemma HeadTail<T>(s: seq<T>)
    requires s != []
    ensures [s[0]] + s[1..] == s
  {
  }

  /** One step of the insertion, away from the facts about the cards' values. */
  lemma InsertUnfold(c: Card, s: seq<Card>)
    requires Sorted(s)
    ensures Insert(c, s) == if s == [] || c.value <= s[0].value then [c] + s else [s[0]] + Insert(c, s[1..])
  {
  }

  /** The cards of one value in a sequence with a given first card. */
  lemma OfValueCons(x: Card, t: seq<Card>, v: int)
    ensures OfValue([x] + t, v) == (if x.value == v then [x] else []) + OfValue(t, v)
  {
    assert ([x] + t)[1..] == t;
  }

  /** Python's sorted() with the card value as key: an ascending sort. */
  function SortCards(cards: seq<Card>): (r: seq<Card>)
    ensures |r| == |cards|
    ensures Sorted(r)
    ensures multiset(r) == multiset(cards)
  {
    if cards == [] then []
    else
      assert cards == [cards[0]] + cards[1..];
      Insert(cards[0], SortCards(cards[1..]))
  }

  /** Inserting a card adds its value to the values. */
  lemma {:induction false} InsertValues(c: Card, s: seq<Card>)
    requires Sorted(s)
    ensures multiset(Values(Insert(c, s))) == multiset(Values(s)) + multiset{c.value}
    decreases |s|
  {
    if s == [] || c.value <= s[0].value {
      ValuesCons(c, s);
    } else {
      var t := Insert(c, s[1..]);
      var m0, mc := multiset{s[0].value}, multiset{c.value};
      calc {
        multiset(Values(Insert(c, s)));
      == { assert Insert(c, s) == [s[0]] + t; }
        multiset(Values([s[0]] + t));
      == { ValuesCons(s[0], t); }
        m0 + multiset(Values(t));
      == { InsertValues(c, s[1..]); }
        m0 + (multiset(Values(s[1..])) + mc);
      ==
        (m0 + multiset(Values(s[1..]))) + mc;
      == { ValuesCons(s[0], s[1..]); assert [s[0]] + s[1..] == s; }
        multiset(Values(s)) + mc;
      }
    }
  }

  lemma ValuesCons(x: Card, t: seq<Card>)
    ensures multiset(Values([x] + t)) == multiset{x.value} + multiset(Values(t))
  {
    assert Values([x] + t) == [x.value] + Values(t);
  }

  /** Sorting keeps the values, in another order. */
  lemma {:induction false} SortCardsValues(cards: seq<Card>)
    ensures multiset(Values(SortCards(cards))) == multiset(Values(cards))
  {
    if cards != [] {
      var rest := cards[1..];
      calc {
        multiset(Values(SortCards(cards)));
      == { SortCardsUnfold(cards); InsertValues(cards[0], SortCards(rest)); }
        multiset(Values(SortCards(rest))) + multiset{cards[0].value};
      == { SortCardsValues(rest); }
        multiset(Values(rest)) + multiset{cards[0].value};
      == { ValuesCons(cards[0], rest); assert [cards[0]] + rest == cards; }
        multiset(Values(cards));
      }
    }
  }

  lemma SortCardsUnfold(cards: seq<Card>)
    requires cards != []
    ensures SortCards(cards) == Insert(cards[0], SortCards(cards[1..]))
  {
  }

  /** The sort is stable: the cards of each value keep their input order. */
  lemma {:induction false} SortCardsStable(cards: seq<Card>, v: int)
    ensures OfValue(SortCards(cards), v) == OfValue(cards, v)
  {
    if cards != [] {
      var c, tail := cards[0], cards[1..];
      var rest := SortCards(tail);
      var head := if c.value == v then [c] else [];
      calc {
        OfValue(SortCards(cards), v);
      == { SortCardsUnfold(cards); }
        OfValue(Insert(c, rest), v);
      == { InsertOfValue(c, rest, v); }
        head + OfValue(rest, v);
      == { SortCardsStable(tail, v); }
        head + OfValue(tail, v);
      == { OfValueCons(c, tail, v); assert [c] + tail == cards; }
        OfValue(cards, v);
      }
    }
  }
}
