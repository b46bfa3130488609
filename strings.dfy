/**
 * The JavaScript string operations the crawler and the dashboard rely on:
 * ASCII case folding, `includes`, `endsWith`, `indexOf`, `lastIndexOf`,
 * `split` on one character, `join`, `substring(0, n)` and the decimal
 * rendering of integers in template strings.
 */
module Strings {

  /** ASCII lower-casing of one character; every other character is left alone. */
  function LowerChar(c: char): char {
    if 'A' <= c <= 'Z' then (c as int + 32) as char else c
  }

  /** ASCII lower-casing of a string, character by character. */
  function Lower(s: string): string {
    seq(|s|, i requires 0 <= i < |s| => LowerChar(s[i]))
  }

  /** `Lower(w) == lit`, decided one character at a time. */
  predicate LowerEq(w: string, lit: string)
    decreases |w|
  {
    |w| == |lit| && (|w| == 0 || (LowerChar(w[0]) == lit[0] && LowerEq(w[1..], lit[1..])))
  }

  lemma {:induction false} LowerEqMeaning(w: string, lit: string)
    ensures LowerEq(w, lit) <==> Lower(w) == lit
    decreases |w|
  {
    if |w| > 0 && |w| == |lit| {
      LowerEqMeaning(w[1..], lit[1..]);
      assert Lower(w) == [LowerChar(w[0])] + Lower(w[1..]);
      assert lit == [lit[0]] + lit[1..];
    }
  }

  /** `t` occurs in `s` at index `i`, compared one character at a time. */
  predicate StartsAt(s: string, t: string, i: nat)
    decreases |t|
  {
    i + |t| <= |s| && (|t| == 0 || (s[i] == t[0] && StartsAt(s, t[1..], i + 1)))
  }

  lemma {:induction false} StartsAtMeaning(s: string, t: string, i: nat)
    ensures StartsAt(s, t, i) <==> i + |t| <= |s| && s[i..i + |t|] == t
    decreases |t|
  {
    if |t| > 0 {
      StartsAtMeaning(s, t[1..], i + 1);
      if i + |t| <= |s| {
        var w := s[i..i + |t|];
        assert w[0] == s[i] && w[1..] == s[i + 1..i + |t|];
        if w == t {
          assert s[i] == t[0] && s[i + 1..i + |t|] == t[1..];
        }
        if s[i] == t[0] && s[i + 1..i + |t|] == t[1..] {
          assert w == [w[0]] + w[1..] == [t[0]] + t[1..] == t;
        }
      }
    }
  }

  /** `s.includes(t)`: a plain, case-sensitive substring test. */
  predicate Contains(s: string, t: string) {
    exists i :: 0 <= i <= |s| && StartsAt(s, t, i)
  }

  /** Every string includes the empty string, so an empty filter keeps everything. */
  lemma ContainsEmpty(s: string)
    ensures Contains(s, "")
  {
    assert StartsAt(s, "", 0);
  }

  /** `s.endsWith(suffix)`. */
  predicate EndsWith(s: string, suffix: string) {
    |suffix| <= |s| && s[|s| - |suffix|..] == suffix
  }

  /** `Array.prototype.indexOf` / `String.prototype.indexOf` for one element: -1 when absent. */
  function IndexOf<T(==)>(s: seq<T>, x: T): (r: int)
    ensures -1 <= r < |s|
    ensures r == -1 <==> x !in s
    ensures 0 <= r ==> s[r] == x && x !in s[..r]
  {
    if |s| == 0 then -1
    else if s[0] == x then 0
    else
      var k := IndexOf(s[1..], x);
      assert s[1..][..if k < 0 then 0 else k] == s[1..if k < 0 then 1 else k + 1];
      if k == -1 then -1 else k + 1
  }

  /** `s.lastIndexOf(c)`: -1 when absent. */
  function LastIndexOf(s: string, c: char): (r: int)
    ensures -1 <= r < |s|
    ensures r == -1 <==> c !in s
    ensures 0 <= r ==> s[r] == c && c !in s[r + 1..]
  {
    if |s| == 0 then -1
    else if s[|s| - 1] == c then |s| - 1
    else
      var init := s[..|s| - 1];
      var k := LastIndexOf(init, c);
      assert s == init + [s[|s| - 1]];
      assert 0 <= k ==> s[k + 1..] == init[k + 1..] + [s[|s| - 1]];
      k
  }

  /** `s.substring(0, n)` for a non-negative `n`. */
  function Prefix(s: string, n: nat): (r: string)
    ensures |r| <= n && |r| <= |s|
    ensures r == s[..|r|]
    ensures |s| <= n ==> r == s
  {
    if n <= |s| then s[..n] else s
  }

  /** `s.split(sep)` for a one-character separator: never empty, and no piece holds the separator. */
  function Split(s: string, sep: char): (r: seq<string>)
    ensures |r| >= 1
    ensures forall i :: 0 <= i < |r| ==> sep !in r[i]
    decreases |s|
  {
    var k := IndexOf(s, sep);
    if k == -1 then [s] else [s[..k]] + Split(s[k + 1..], sep)
  }

  /** `xs.join(sep)`. */
  function Join(xs: seq<string>, sep: string): string
    decreases |xs|
  {
    if |xs| == 0 then "" else if |xs| == 1 then xs[0] else xs[0] + sep + Join(xs[1..], sep)
  }

  lemma IndexOfAfterFreePrefix(a: string, b: string, c: char)
    requires c !in a && |b| > 0 && b[0] == c
    ensures IndexOf(a + b, c) == |a|
  {
    var s := a + b;
    assert s[|a|] == c;
    assert s[..|a|] == a;
  }

  /** Splitting at the first separator: the piece before it, then the split of the rest. */
  lemma SplitCons(a: string, rest: string, sep: char)
    requires sep !in a
    ensures Split(a + [sep] + rest, sep) == [a] + Split(rest, sep)
  {
    var s := a + [sep] + rest;
    IndexOfAfterFreePrefix(a, [sep] + rest, sep);
    assert s == a + ([sep] + rest);
    assert s[..|a|] == a;
    assert s[|a| + 1..] == rest;
  }

  /** Splitting what was joined gives the pieces back when no piece holds the separator. */
  lemma {:induction false} SplitJoin(xs: seq<string>, sep: char)
    requires |xs| >= 1
    requires forall i :: 0 <= i < |xs| ==> sep !in xs[i]
    ensures Split(Join(xs, [sep]), sep) == xs
    decreases |xs|
  {
    if |xs| > 1 {
      var tail := Join(xs[1..], [sep]);
      assert Join(xs, [sep]) == xs[0] + [sep] + tail;
      SplitCons(xs[0], tail, sep);
      SplitJoin(xs[1..], sep);
      assert xs == [xs[0]] + xs[1..];
    } else {
      assert Join(xs, [sep]) == xs[0];
      assert IndexOf(xs[0], sep) == -1;
    }
  }

  /** Joining what was split gives the string back. */
  lemma {:induction false} JoinSplit(s: string, sep: char)
    ensures Join(Split(s, sep), [sep]) == s
    decreases |s|
  {
    var k := IndexOf(s, sep);
    if k != -1 {
      var rest := Split(s[k + 1..], sep);
      JoinSplit(s[k + 1..], sep);
      var pieces := [s[..k]] + rest;
      assert Split(s, sep) == pieces;
      assert pieces[1..] == rest;
      assert Join(pieces, [sep]) == s[..k] + [sep] + Join(rest, [sep]);
      assert s == s[..k] + [sep] + s[k + 1..];
    }
  }

  predicate IsDigit(c: char) {
    '0' <= c <= '9'
  }

  predicate AllDigits(s: string) {
    forall i :: 0 <= i < |s| ==> IsDigit(s[i])
  }

  function DigitChar(d: nat): (c: char)
    requires d < 10
    ensures IsDigit(c)
  {
    ('0' as int + d) as char
  }

  /** The decimal rendering of a non-negative integer, as `${n}` produces it. */
  function NatToString(n: nat): (r: string)
    ensures |r| >= 1 && AllDigits(r)
    decreases n
  {
    if n < 10 then [DigitChar(n)] else NatToString(n / 10) + [DigitChar(n % 10)]
  }

  /** The value of a string of decimal digits. */
  function DigitsValue(s: string): nat
    requires AllDigits(s)
  {
    if s == [] then 0 else DigitsValue(s[..|s| - 1]) * 10 + (s[|s| - 1] as int - '0' as int)
  }

  /** Reading the digits back gives the number: the rendering loses nothing. */
  lemma {:induction false} NatToStringRoundTrip(n: nat)
    ensures DigitsValue(NatToString(n)) == n
    decreases n
  {
    if n >= 10 {
      NatToStringRoundTrip(n / 10);
      var s := NatToString(n);
      assert s[..|s| - 1] == NatToString(n / 10);
    }
  }

  lemma NatToStringInjective(m: nat, n: nat)
    requires NatToString(m) == NatToString(n)
    ensures m == n
  {
    NatToStringRoundTrip(m);
    NatToStringRoundTrip(n);
  }

  /** `${i}` for an integer of either sign. */
  function IntToString(i: int): string {
    if i < 0 then "-" + NatToString(-i) else NatToString(i)
  }
}
