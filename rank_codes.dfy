/** The category codes of the classifier. They are the strings "1" (High Card)
    to "10" (Royal Flush), and the comparator orders them as strings, that is
    lexicographically by character code with a proper prefix first. */
module RankCodes {

  /** The code of category k, written in decimal. */
  function RankCode(k: int): (code: string)
    requires 1 <= k <= 10
    ensures |code| == if k == 10 then 2 else 1
    ensures '1' <= code[0] <= '9'
  {
    if k == 10 then "10" else [('0' as int + k) as char]
  }

  /** Different categories have different codes. */
  lemma RankCodeInjective(i: int, j: int)
    requires 1 <= i <= 10 && 1 <= j <= 10 && RankCode(i) == RankCode(j)
    ensures i == j
  {
    assert RankCode(i)[0] == RankCode(j)[0];
  }

  predicate IsRankCode(code: string) {
    exists k :: 1 <= k <= 10 && code == RankCode(k)
  }

  /** Python's a < b on strings. */
  predicate StrLess(a: string, b: string) {
    if a == [] then b != []
    else if b == [] then false
    else if a[0] != b[0] then a[0] < b[0]
    else StrLess(a[1..], b[1..])
  }

  lemma {:induction false} StrLessIrreflexive(a: string)
    ensures !StrLess(a, a)
  {
    if a != [] {
      StrLessIrreflexive(a[1..]);
    }
  }

  /** Of two different strings exactly one is the smaller. */
  lemma {:induction false} StrLessTotal(a: string, b: string)
    requires a != b
    ensures StrLess(a, b) != StrLess(b, a)
  {
    if a != [] && b != [] && a[0] == b[0] {
      assert a == [a[0]] + a[1..] && b == [b[0]] + b[1..];
      StrLessTotal(a[1..], b[1..]);
    }
  }

  lemma {:induction false} StrLessTransitive(a: string, b: string, c: string)
    requires StrLess(a, b) && StrLess(b, c)
    ensures StrLess(a, c)
  {
    if a != [] && b != [] && c != [] && a[0] == b[0] && b[0] == c[0] {
      StrLessTransitive(a[1..], b[1..], c[1..]);
    }
  }

  /** On the codes of High Card up to Straight Flush the string order is the numeric order. */
  lemma CodeOrderIsNumeric(i: int, j: int)
    requires 1 <= i <= 9 && 1 <= j <= 9
    ensures StrLess(RankCode(i), RankCode(j)) <==> i < j
  {
    var a, b := RankCode(i), RankCode(j);
    assert a[1..] == [] && b[1..] == [];
  }

  /** The code of Royal Flush is above the code of High Card only and below every other code. */
  lemma RoyalFlushCodeOrder(j: int)
    requires 1 <= j <= 9
    ensures StrLess(RankCode(j), RankCode(10)) <==> j == 1
    ensures StrLess(RankCode(10), RankCode(j)) <==> j != 1
  {
    var a, b := RankCode(j), RankCode(10);
    assert a[1..] == [] && b[1..] == "0";
    if j == 1 {
      assert StrLess(a[1..], b[1..]);
    }
  }
}
