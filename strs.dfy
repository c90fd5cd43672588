/**
 * String helpers with the semantics of Go's `strings` and `strconv` functions that the
 * core relies on. Strings are sequences of characters; Go compares and slices strings as
 * UTF-8 bytes, and the order of UTF-8 byte strings is the order of their code points, so
 * the character order used here agrees with Go's `<` on strings.
 */
module Strs {

  /** `strings.HasPrefix(s, p)`. */
  predicate IsPrefix(p: string, s: string) {
    |p| <= |s| && s[..|p|] == p
  }

  /** `strings.Contains(s, sub)`: `sub` occurs in `s` at some offset. */
  predicate Contains(s: string, sub: string) {
    exists k :: 0 <= k <= |s| - |sub| && OccursAt(s, sub, k)
  }

  predicate OccursAt(s: string, sub: string, k: int)
    requires 0 <= k <= |s| - |sub|
  {
    s[k..k + |sub|] == sub
  }

  lemma ContainsEmpty(s: string)
    ensures Contains(s, "")
  {
    assert OccursAt(s, "", 0);
  }

  /** Lexicographic order on strings, Go's `<=` on strings. */
  predicate LessEq(a: string, b: string)
    decreases |a|
  {
    a == [] || (b != [] && (a[0] < b[0] || (a[0] == b[0] && LessEq(a[1..], b[1..]))))
  }

  lemma {:induction false} LessEqTotal(a: string, b: string)
    ensures LessEq(a, b) || LessEq(b, a)
    decreases |a|
  {
    if a != [] && b != [] && a[0] == b[0] {
      LessEqTotal(a[1..], b[1..]);
    }
  }

  lemma {:induction false} LessEqAntisymmetric(a: string, b: string)
    requires LessEq(a, b) && LessEq(b, a)
    ensures a == b
    decreases |a|
  {
    if a != [] {
      LessEqAntisymmetric(a[1..], b[1..]);
      assert a == [a[0]] + a[1..] && b == [b[0]] + b[1..];
    }
  }

  lemma {:induction false} LessEqTransitive(a: string, b: string, c: string)
    requires LessEq(a, b) && LessEq(b, c)
    ensures LessEq(a, c)
    decreases |a|
  {
    if a != [] && a[0] == b[0] && b[0] == c[0] {
      LessEqTransitive(a[1..], b[1..], c[1..]);
    }
  }

  /** The text after the last `sep` in `s` (all of `s` when `sep` does not occur):
      the last element of Go's `strings.Split(s, sep)`. */
  function LastField(s: string, sep: char): (r: string)
    ensures |r| <= |s| && r == s[|s| - |r|..]
    ensures sep !in r
    ensures |r| < |s| ==> s[|s| - |r| - 1] == sep
  {
    if s == [] then []
    else if s[|s| - 1] == sep then []
    else LastField(s[..|s| - 1], sep) + [s[|s| - 1]]
  }

  /** The last field is the text after the last separator. */
  lemma LastFieldAfter(pre: string, t: string, sep: char)
    requires sep !in t
    ensures LastField(pre + [sep] + t, sep) == t
  {
    var s := pre + [sep] + t;
    var r := LastField(s, sep);
    assert s[|s| - |t| - 1] == sep;
    assert s[|s| - |t|..] == t;
  }

  /** Without a separator, the last field is the whole string. */
  lemma LastFieldWhole(t: string, sep: char)
    requires sep !in t
    ensures LastField(t, sep) == t
  {
  }

  /** Decimal digits of a natural number, most significant first. */
  function NatDigits(n: nat): (r: string)
    ensures r != [] && forall i :: 0 <= i < |r| ==> '0' <= r[i] <= '9'
    ensures |r| > 1 ==> r[0] != '0'
  {
    if n < 10 then [DigitChar(n)] else NatDigits(n / 10) + [DigitChar(n % 10)]
  }

  function DigitChar(d: nat): (c: char)
    requires d < 10
    ensures '0' <= c <= '9' && DigitValue(c) == d
  {
    ('0' as int + d) as char
  }

  function DigitValue(c: char): nat
    requires '0' <= c <= '9'
  {
    c as nat - '0' as nat
  }

  /** `strconv.Itoa(n)`: optional minus sign, then the decimal digits of |n|. */
  function Itoa(n: int): string {
    if n < 0 then "-" + NatDigits(-n) else NatDigits(n)
  }

  /** Value of a non-empty string of decimal digits: the inverse of `Itoa` on naturals. */
  function ParseDigits(s: string): nat
    requires forall i :: 0 <= i < |s| ==> '0' <= s[i] <= '9'
  {
    if s == [] then 0 else 10 * ParseDigits(s[..|s| - 1]) + DigitValue(s[|s| - 1])
  }

  /** `strconv.Atoi` on the strings `Itoa` produces. */
  function Atoi(s: string): int
    requires IsDecimal(s)
  {
    if s[0] == '-' then 0 - ParseDigits(s[1..]) else ParseDigits(s)
  }

  /** An optional minus sign followed by at least one decimal digit. */
  predicate IsDecimal(s: string) {
    s != [] && (s[0] == '-' ==> |s| > 1) && (s[0] == '-' || '0' <= s[0] <= '9') &&
    forall i :: 0 < i < |s| ==> '0' <= s[i] <= '9'
  }

  lemma {:induction false} ParseNatDigits(n: nat)
    ensures ParseDigits(NatDigits(n)) == n
  {
    if n >= 10 {
      var r := NatDigits(n);
      ParseNatDigits(n / 10);
      assert r[..|r| - 1] == NatDigits(n / 10);
    }
  }

  /** `Itoa` is injective: decoding its output gives back the number. */
  lemma ItoaRoundTrip(n: int)
    ensures IsDecimal(Itoa(n)) && Atoi(Itoa(n)) == n
  {
    var s := Itoa(n);
    if n < 0 {
      var digits := NatDigits(-n);
      assert s == ['-'] + digits;
      assert s[1..] == digits;
      assert forall i :: 0 < i < |s| ==> s[i] == digits[i - 1];
      ParseNatDigits(-n);
    } else {
      ParseNatDigits(n);
    }
  }
}
