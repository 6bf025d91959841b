/** Values and string helpers shared by every part of the crawler model. */
module Common {

  datatype Option<+T> = None | Some(value: T)

  /** Raw bytes as returned by an HTTP response. */
  type Bytes = seq<bv8>

  predicate StartsWith(s: string, prefix: string) {
    |prefix| <= |s| && s[..|prefix|] == prefix
  }

  predicate EndsWith(s: string, suffix: string) {
    |suffix| <= |s| && s[|s| - |suffix|..] == suffix
  }

  /** ASCII lower-casing of one character. */
  function LowerChar(c: char): char {
    if 'A' <= c <= 'Z' then (c as int + 32) as char else c
  }

  /** `s.lower()`, restricted to ASCII letters. */
  function Lower(s: string): string {
    seq(|s|, i requires 0 <= i < |s| => LowerChar(s[i]))
  }

  /** `s.split(sep)[-1]`: the text after the last `sep`, or `s` when it has none. */
  function LastSegment(s: string, sep: char): (r: string)
    ensures sep !in r
    ensures |r| <= |s| && r == s[|s| - |r|..]
    ensures |r| < |s| ==> s[|s| - |r| - 1] == sep
    decreases |s|
  {
    if |s| == 0 then ""
    else if s[|s| - 1] == sep then ""
    else
      var init := s[..|s| - 1];
      var r := LastSegment(init, sep);
      assert s[|s| - |r| - 1..] == init[|init| - |r|..] + [s[|s| - 1]];
      r + [s[|s| - 1]]
  }

  /** `s.split(sep)[0]`: the text before the first `sep`, or `s` when it has none. */
  function FirstSegment(s: string, sep: char): (r: string)
    ensures sep !in r
    ensures |r| <= |s| && r == s[..|r|]
    ensures |r| < |s| ==> s[|r|] == sep
    decreases |s|
  {
    if |s| == 0 then ""
    else if s[0] == sep then ""
    else [s[0]] + FirstSegment(s[1..], sep)
  }

  /** The last segment of `a + [sep] + b` is `b` when `b` holds no separator. */
  lemma {:induction false} LastSegmentAfter(a: string, sep: char, b: string)
    requires sep !in b
    ensures LastSegment(a + [sep] + b, sep) == b
    decreases |b|
  {
    var s := a + [sep] + b;
    if b == [] {
      assert s[|s| - 1] == sep;
    } else {
      var b' := b[..|b| - 1];
      assert s[..|s| - 1] == a + [sep] + b';
      assert s[|s| - 1] == b[|b| - 1];
      LastSegmentAfter(a, sep, b');
      assert b == b' + [b[|b| - 1]];
    }
  }

  /** A string without the separator is its own first segment. */
  lemma {:induction false} FirstSegmentWhole(s: string, sep: char)
    requires sep !in s
    ensures FirstSegment(s, sep) == s
    decreases |s|
  {
    if s != [] {
      FirstSegmentWhole(s[1..], sep);
      assert s == [s[0]] + s[1..];
    }
  }

  predicate IsDigit(c: char) {
    '0' <= c <= '9'
  }

  predicate AllDigits(s: string) {
    forall i :: 0 <= i < |s| ==> IsDigit(s[i])
  }

  function DigitChar(d: nat): char
    requires d < 10
  {
    ('0' as int + d) as char
  }

  /** The number a string of decimal digits denotes, most significant digit first. */
  function DigitsValue(s: string): nat
    requires AllDigits(s)
    decreases |s|
  {
    if s == [] then 0
    else DigitsValue(s[..|s| - 1]) * 10 + (s[|s| - 1] as int - '0' as int)
  }

  /** `str(n)` for a non-negative integer: its decimal digits, without leading zeros, which
      read back as `n`. */
  function NatToString(n: nat): (s: string)
    ensures |s| >= 1 && AllDigits(s)
    ensures n < 10 <==> |s| == 1
    ensures |s| > 1 ==> s[0] != '0'
    ensures DigitsValue(s) == n
    decreases n
  {
    if n < 10 then [DigitChar(n)]
    else
      var init := NatToString(n / 10);
      var s := init + [DigitChar(n % 10)];
      assert s[..|s| - 1] == init;
      s
  }

  /** Decimal rendering is injective: the string gives back the number. */
  lemma {:induction false} NatToStringInjective(m: nat, n: nat)
    requires NatToString(m) == NatToString(n)
    ensures m == n
    decreases m
  {
    var s := NatToString(m);
    if m < 10 || n < 10 {
      assert m < 10 && n < 10;
      assert s[0] == DigitChar(m) == DigitChar(n);
    } else {
      var sm, sn := NatToString(m / 10), NatToString(n / 10);
      assert s == sm + [DigitChar(m % 10)] == sn + [DigitChar(n % 10)];
      assert |sm| == |sn|;
      assert sm == s[..|s| - 1] == sn;
      assert DigitChar(m % 10) == s[|s| - 1] == DigitChar(n % 10);
      NatToStringInjective(m / 10, n / 10);
    }
  }

  /** A run of digits followed by a non-digit splits in one way only. */
  lemma DigitRunSplit(a: string, x: string, c: string, y: string)
    requires AllDigits(a) && AllDigits(c)
    requires |x| > 0 && |y| > 0 && !IsDigit(x[0]) && !IsDigit(y[0])
    requires a + x == c + y
    ensures a == c && x == y
  {
    var s := a + x;
    assert s == c + y;
    assert !IsDigit(s[|a|]) && !IsDigit(s[|c|]);
    assert |a| == |c|;
    assert a == s[..|a|] == c;
    assert x == s[|a|..] == y;
  }

  /** Two strings that differ somewhere inside an equal-length prefix stay different when extended. */
  lemma PrefixMismatch(a: string, b: string, c: string, d: string)
    requires |a| == |b| && a != b
    ensures a + c != b + d
  {
    var k :| 0 <= k < |a| && a[k] != b[k];
    assert (a + c)[k] == a[k] && (b + d)[k] == b[k];
  }
}
