/** How often each value occurs in a hand, and what the n-of-a-kind finder sees
    in terms of those multiplicities: on sorted cards, a card lies in a window of
    n adjacent cards of one value exactly when its value occurs at least n times. */
module Counting {
  import opened Cards
  import opened Patterns

  /** The cards whose value is in vs, in the order they occur. */
  function WithValues(cards: seq<Card>, vs: set<int>): (r: seq<Card>)
    ensures |r| <= |cards|
  {
    if cards == [] then []
    else (if cards[0].value in vs then [cards[0]] else []) + WithValues(cards[1..], vs)
  }

  /** The number of cards of value v. */
  function Count(cards: seq<Card>, v: int): nat {
    |WithValues(cards, {v})|
  }

  lemma {:induction false} WithValuesMembers(cards: seq<Card>, vs: set<int>, x: Card)
    ensures x in WithValues(cards, vs) <==> x in cards && x.value in vs
  {
    if cards != [] {
      WithValuesMembers(cards[1..], vs, x);
      assert cards == [cards[0]] + cards[1..];
    }
  }

  lemma DistinctCons(x: Card, s: seq<Card>)
    requires Distinct(s) && x !in s
    ensures Distinct([x] + s)
  {
    var t := [x] + s;
    forall i, j | 0 <= i < j < |t| ensures t[i] != t[j] {
      if i == 0 {
        assert t[j] == s[j - 1];
      } else {
        assert t[i] == s[i - 1] && t[j] == s[j - 1];
      }
    }
  }

  lemma {:induction false} WithValuesDistinct(cards: seq<Card>, vs: set<int>)
    requires Distinct(cards)
    ensures Distinct(WithValues(cards, vs))
  {
    if cards != [] {
      assert Distinct(cards[1..]);
      WithValuesDistinct(cards[1..], vs);
      WithValuesMembers(cards[1..], vs, cards[0]);
      assert cards[0] !in cards[1..] by {
        forall k | 0 <= k < |cards[1..]| ensures cards[1..][k] != cards[0] {
          assert cards[1..][k] == cards[k + 1];
        }
      }
      if cards[0].value in vs {
        DistinctCons(cards[0], WithValues(cards[1..], vs));
      }
    }
  }

  lemma {:induction false} WithValuesAppend(a: seq<Card>, b: seq<Card>, vs: set<int>)
    ensures WithValues(a + b, vs) == WithValues(a, vs) + WithValues(b, vs)
  {
    if a == [] {
      assert a + b == b;
    } else {
      var head := if a[0].value in vs then [a[0]] else [];
      assert (a + b)[0] == a[0] && (a + b)[1..] == a[1..] + b;
      WithValuesAppend(a[1..], b, vs);
      calc {
        WithValues(a + b, vs);
        head + WithValues(a[1..] + b, vs);
        head + (WithValues(a[1..], vs) + WithValues(b, vs));
        (head + WithValues(a[1..], vs)) + WithValues(b, vs);
      }
    }
  }

  /** Taking one more value in counts the cards of that value once more. */
  lemma {:induction false} WithValuesAdd(cards: seq<Card>, vs: set<int>, w: int)
    requires w !in vs
    ensures |WithValues(cards, vs + {w})| == |WithValues(cards, vs)| + Count(cards, w)
  {
    if cards != [] {
      WithValuesAdd(cards[1..], vs, w);
    }
  }

  /** Two different values together occur no more often than there are cards. */
  lemma TwoValuesFit(cards: seq<Card>, v: int, w: int)
    requires v != w
    ensures Count(cards, v) + Count(cards, w) <= |cards|
  {
    WithValuesAdd(cards, {v}, w);
    WithValuesAdd(cards, {}, v);
    assert {} + {v} == {v};
  }

  /** Three different values together occur no more often than there are cards. */
  lemma ThreeValuesFit(cards: seq<Card>, u: int, v: int, w: int)
    requires u != v && u != w && v != w
    ensures Count(cards, u) + Count(cards, v) + Count(cards, w) <= |cards|
  {
    WithValuesAdd(cards, {u}, v);
    assert {u} + {v} == {u, v};
    WithValuesAdd(cards, {u, v}, w);
    WithValuesAdd(cards, {}, u);
    assert {} + {u} == {u};
  }

  /** Distinct sequences with the same elements have the same length. */
  lemma SameElementsSameLength(d: seq<Card>, e: seq<Card>)
    requires Distinct(d) && Distinct(e)
    requires forall x :: x in d <==> x in e
    ensures |d| == |e|
  {
    forall x ensures multiset(d)[x] == multiset(e)[x] {
      DistinctCount(d, x);
      DistinctCount(e, x);
    }
    assert multiset(d) == multiset(e);
    assert |multiset(d)| == |d| && |multiset(e)| == |e|;
  }

  /** In sorted cards the cards of one value sit side by side, at positions lo up to hi. */
  lemma {:induction false} Block(cards: seq<Card>, v: int) returns (lo: nat, hi: nat)
    requires Sorted(cards)
    ensures lo <= hi <= |cards| && hi - lo == Count(cards, v)
    ensures forall k :: 0 <= k < |cards| ==> (cards[k].value == v <==> lo <= k < hi)
  {
    if cards == [] {
      return 0, 0;
    }
    var rest := cards[1..];
    var lo', hi' := Block(rest, v);
    assert forall k :: 0 <= k < |rest| ==> rest[k] == cards[k + 1];
    if cards[0].value == v {
      if lo' < hi' {
        assert rest[lo'].value == v;
        assert rest[0].value <= rest[lo'].value;
        assert rest[0].value == v;
      }
      lo, hi := 0, 1 + hi' - lo';
    } else {
      lo, hi := lo' + 1, hi' + 1;
    }
  }

  /** A card whose value occurs at least n times lies in a window of n adjacent cards of one value. */
  lemma CountedInWindow(cards: seq<Card>, n: nat, i: int) returns (j: int)
    requires Sorted(cards) && 0 <= i < |cards| && 0 < n <= Count(cards, cards[i].value)
    ensures InUniformWindow(cards, n, j, cards[i])
  {
    var lo, hi := Block(cards, cards[i].value);
    j := if i + n <= hi then i else hi - n;
    var w := cards[j..j + n];
    assert forall k :: 0 <= k < n ==> w[k] == cards[j + k];
    assert w[i - j] == cards[i];
  }

  /** A sequence all of whose values are in vs is kept whole. */
  lemma {:induction false} WithValuesAll(s: seq<Card>, vs: set<int>)
    requires forall k :: 0 <= k < |s| ==> s[k].value in vs
    ensures WithValues(s, vs) == s
  {
    if s != [] {
      WithValuesAll(s[1..], vs);
    }
  }

  /** The cards of a window of one value are all counted for that value. */
  lemma WindowCounted(cards: seq<Card>, n: nat, j: int)
    requires 0 < n && 0 <= j <= |cards| - n && SameValue(cards[j..j + n])
    ensures Count(cards, cards[j].value) >= n
  {
    var w := cards[j..j + n];
    var v := cards[j].value;
    assert cards == cards[..j] + w + cards[j + n..];
    WithValuesAll(w, {v});
    WithValuesAppend(cards[..j] + w, cards[j + n..], {v});
    WithValuesAppend(cards[..j], w, {v});
  }

  lemma {:induction false} MatchedContains(ws: seq<seq<Card>>, k: int, x: Card)
    requires 0 <= k < |ws| && SameValue(ws[k]) && x in ws[k]
    ensures x in Matched(ws)
  {
    if k < |ws| - 1 {
      MatchedContains(ws[..|ws| - 1], k, x);
    }
  }

  /** The distinct cards the finder collects are exactly the cards whose value occurs at least n times. */
  lemma CollectedIffCounted(cards: seq<Card>, n: nat, x: Card)
    requires Sorted(cards) && n > 0
    ensures x in Dedup(Matched(Windows(cards, n))) <==> x in cards && Count(cards, x.value) >= n
  {
    var ws := Windows(cards, n);
    if x in Dedup(Matched(ws)) {
      MatchedInWindows(cards, n, x);
      var j :| InUniformWindow(cards, n, j, x);
      var w := cards[j..j + n];
      var i :| 0 <= i < n && w[i] == x;
      assert w[0] == cards[j];
      WindowCounted(cards, n, j);
    }
    if x in cards && Count(cards, x.value) >= n {
      var i :| 0 <= i < |cards| && cards[i] == x;
      var j := CountedInWindow(cards, n, i);
      assert ws[j] == cards[j..j + n];
      MatchedContains(ws, j, x);
    }
  }

  /** When the values occurring at least n times are those of vs, the finder collects
      exactly the cards of those values. */
  lemma CollectedSize(cards: seq<Card>, n: nat, vs: set<int>)
    requires Sorted(cards) && Distinct(cards) && n > 0
    requires forall i :: 0 <= i < |cards| ==> (Count(cards, cards[i].value) >= n <==> cards[i].value in vs)
    ensures |Dedup(Matched(Windows(cards, n)))| == |WithValues(cards, vs)|
    ensures forall x :: x in Dedup(Matched(Windows(cards, n))) <==> x in cards && x.value in vs
  {
    var u := Dedup(Matched(Windows(cards, n)));
    forall x ensures x in u <==> x in cards && x.value in vs {
      CollectedIffCounted(cards, n, x);
    }
    forall x ensures x in u <==> x in WithValues(cards, vs) {
      WithValuesMembers(cards, vs, x);
    }
    WithValuesDistinct(cards, vs);
    SameElementsSameLength(u, WithValues(cards, vs));
  }

  /** When v is the only value occurring at least n times, the finder collects
      exactly the cards of value v. */
  lemma CollectedOneValue(cards: seq<Card>, n: nat, v: int)
    requires Sorted(cards) && Distinct(cards) && n > 0
    requires forall i :: 0 <= i < |cards| ==> (Count(cards, cards[i].value) >= n <==> cards[i].value == v)
    ensures |Dedup(Matched(Windows(cards, n)))| == Count(cards, v)
    ensures forall x :: x in Dedup(Matched(Windows(cards, n))) <==> x in cards && x.value == v
  {
    CollectedSize(cards, n, {v});
  }

  /** When two values v and w occur at least n times and no other does, the finder
      collects exactly the cards of those two values. */
  lemma CollectedTwoValues(cards: seq<Card>, n: nat, v: int, w: int)
    requires Sorted(cards) && Distinct(cards) && n > 0 && v != w
    requires forall i :: 0 <= i < |cards| ==> (Count(cards, cards[i].value) >= n <==> cards[i].value in {v, w})
    ensures |Dedup(Matched(Windows(cards, n)))| == Count(cards, v) + Count(cards, w)
    ensures forall x :: x in Dedup(Matched(Windows(cards, n))) <==> x in cards && x.value in {v, w}
  {
    CollectedSize(cards, n, {v, w});
    WithValuesAdd(cards, {v}, w);
    assert {v} + {w} == {v, w};
  }

  /** When no value occurs n times, the finder collects nothing. */
  lemma CollectedNothing(cards: seq<Card>, n: nat)
    requires Sorted(cards) && Distinct(cards) && n > 0
    requires forall i :: 0 <= i < |cards| ==> Count(cards, cards[i].value) < n
    ensures Dedup(Matched(Windows(cards, n))) == []
  {
    var u := Dedup(Matched(Windows(cards, n)));
    if u != [] {
      CollectedIffCounted(cards, n, u[0]);
    }
  }

  lemma {:induction false} DistinctCharsBound(cs: seq<char>, alphabet: set<char>)
    requires Distinct(cs) && forall i :: 0 <= i < |cs| ==> cs[i] in alphabet
    ensures |cs| <= |alphabet|
  {
    if cs != [] {
      assert forall i :: 0 < i < |cs| ==> cs[i] != cs[0];
      DistinctCharsBound(cs[1..], alphabet - {cs[0]});
    }
  }

  /** With four suits, no value occurs more than four times among different cards. */
  lemma CountAtMostFour(cards: seq<Card>, v: int)
    requires Distinct(cards) && forall i :: 0 <= i < |cards| ==> ValidCard(cards[i])
    ensures Count(cards, v) <= 4
  {
    var s := WithValues(cards, {v});
    WithValuesDistinct(cards, {v});
    forall k | 0 <= k < |s| ensures s[k] in cards && s[k].value == v {
      WithValuesMembers(cards, {v}, s[k]);
    }
    var suits := seq(|s|, k requires 0 <= k < |s| => s[k].suit);
    forall k | 0 <= k < |s| ensures suits[k] in {'S', 'H', 'D', 'C'} {
      var i :| 0 <= i < |cards| && cards[i] == s[k];
      assert ValidCard(cards[i]);
    }
    assert Distinct(suits) by {
      forall i, j | 0 <= i < j < |s| ensures suits[i] != suits[j] {
        assert s[i] != s[j];
      }
    }
    DistinctCharsBound(suits, {'S', 'H', 'D', 'C'});
  }
}
