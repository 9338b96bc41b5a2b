/**
 * The few Python string built-ins the pipeline relies on: `str.strip()` and
 * the whitespace `int()` skips, `str.lower()`, the `\d` character class,
 * reading a run of decimal digits as an integer, and the ordering `<` on `str`.
 */
module Text {

  /** An ASCII decimal digit. */
  predicate IsDigit(c: char) {
    '0' <= c <= '9'
  }

  function DigitValue(c: char): (d: nat)
    requires IsDigit(c)
    ensures d < 10
  {
    (c as int) - ('0' as int)
  }

  function DigitChar(d: nat): (c: char)
    requires d < 10
    ensures IsDigit(c) && DigitValue(c) == d
  {
    (('0' as int) + d) as char
  }

  /** The characters `str.isspace()` holds for, which `str.strip()` removes. */
  predicate IsSpace(c: char) {
    || c == ' ' || ('\t' <= c <= '\r') || ('\U{1C}' <= c <= '\U{1F}')
    || c == '\U{85}' || c == '\U{A0}' || c == '\U{1680}'
    || ('\U{2000}' <= c <= '\U{200A}') || c == '\U{2028}' || c == '\U{2029}'
    || c == '\U{202F}' || c == '\U{205F}' || c == '\U{3000}'
  }

  /**
   * The whitespace `int()` skips around a number: below 128 only the C
   * locale's `\t\n\v\f\r` and space, so the separators U+001C..U+001F
   * that `str.isspace()` accepts are not skipped; from 128 up, the same
   * characters as `str.isspace()`.
   */
  predicate IsIntSpace(c: char) {
    IsSpace(c) && !('\U{1C}' <= c <= '\U{1F}')
  }

  /** How many characters at the front of `s` satisfy `space`. */
  function LeadingCount(s: string, space: char -> bool): (n: nat)
    ensures n <= |s|
  {
    if s != [] && space(s[0]) then 1 + LeadingCount(s[1..], space) else 0
  }

  /** How many characters at the back of `s` satisfy `space`. */
  function TrailingCount(s: string, space: char -> bool): (n: nat)
    ensures n <= |s|
  {
    if s != [] && space(s[|s| - 1]) then 1 + TrailingCount(s[..|s| - 1], space) else 0
  }

  /** Drop the leading and the trailing characters that `space` holds for. */
  function StripBy(s: string, space: char -> bool): string {
    var k := LeadingCount(s, space);
    s[k..|s| - TrailingCount(s[k..], space)]
  }

  /** `str.strip()` with no argument: drop leading and trailing whitespace. */
  function Strip(s: string): string {
    StripBy(s, IsSpace)
  }

  lemma {:induction false} LeadingSpaces(s: string, space: char -> bool)
    ensures forall i :: 0 <= i < LeadingCount(s, space) ==> space(s[i])
    ensures LeadingCount(s, space) < |s| ==> !space(s[LeadingCount(s, space)])
  {
    if s != [] && space(s[0]) {
      LeadingSpaces(s[1..], space);
      forall i | 1 <= i < LeadingCount(s, space)
        ensures space(s[i])
      {
        assert s[i] == s[1..][i - 1];
      }
    }
  }

  lemma {:induction false} TrailingSpaces(s: string, space: char -> bool)
    ensures forall i :: |s| - TrailingCount(s, space) <= i < |s| ==> space(s[i])
    ensures TrailingCount(s, space) < |s| ==> !space(s[|s| - 1 - TrailingCount(s, space)])
  {
    if s != [] && space(s[|s| - 1]) {
      TrailingSpaces(s[..|s| - 1], space);
    }
  }

  /** Where `StripBy(s, space)` sits inside `s`: everything around it satisfies `space`. */
  lemma StripWindow(s: string, space: char -> bool) returns (k: nat)
    ensures k + |StripBy(s, space)| <= |s| && StripBy(s, space) == s[k..k + |StripBy(s, space)|]
    ensures forall i :: 0 <= i < k ==> space(s[i])
    ensures forall i :: k + |StripBy(s, space)| <= i < |s| ==> space(s[i])
  {
    k := LeadingCount(s, space);
    LeadingSpaces(s, space);
    var t := s[k..];
    TrailingSpaces(t, space);
    forall i | k + |StripBy(s, space)| <= i < |s|
      ensures space(s[i])
    {
      assert s[i] == t[i - k];
    }
  }

  /** The stripped text begins and ends with a character `space` does not hold for. */
  lemma StripByEnds(s: string, space: char -> bool)
    ensures |StripBy(s, space)| <= |s|
    ensures StripBy(s, space) == [] || (!space(StripBy(s, space)[0]) && !space(StripBy(s, space)[|StripBy(s, space)| - 1]))
  {
    var k := LeadingCount(s, space);
    LeadingSpaces(s, space);
    TrailingSpaces(s[k..], space);
  }

  /** Text with no character `space` holds for is not changed by stripping. */
  lemma StripByNone(s: string, space: char -> bool)
    requires forall i :: 0 <= i < |s| ==> !space(s[i])
    ensures StripBy(s, space) == s
  {
    assert s[0..] == s;
  }

  function LowerChar(c: char): char {
    if 'A' <= c <= 'Z' then ((c as int) + 32) as char else c
  }

  /** `str.lower()` on the ASCII letters. */
  function Lower(s: string): (r: string)
    ensures |r| == |s|
    ensures forall i :: 0 <= i < |s| ==> r[i] == LowerChar(s[i])
  {
    if s == [] then [] else [LowerChar(s[0])] + Lower(s[1..])
  }

  /** `re.sub(r'[^\d]', '', s)`: the digit characters of `s`, in order. */
  function Digits(s: string): (r: string)
    ensures |r| <= |s|
    ensures forall i :: 0 <= i < |r| ==> IsDigit(r[i])
  {
    if s == [] then []
    else if IsDigit(s[|s| - 1]) then Digits(s[..|s| - 1]) + [s[|s| - 1]]
    else Digits(s[..|s| - 1])
  }

  predicate AllDigits(s: string) {
    forall i :: 0 <= i < |s| ==> IsDigit(s[i])
  }

  function Pow10(n: nat): (p: nat)
    ensures p >= 1
  {
    if n == 0 then 1 else 10 * Pow10(n - 1)
  }

  /** The natural number a string of decimal digits denotes (0 for the empty string). */
  function Value(ds: string): (v: nat)
    requires AllDigits(ds)
    ensures v < Pow10(|ds|)
  {
    if ds == [] then 0 else Value(ds[..|ds| - 1]) * 10 + DigitValue(ds[|ds| - 1])
  }

  /** The shortest decimal spelling of `n`, as `str(n)` writes it. */
  function ToDecimal(n: nat): (r: string)
    ensures r != [] && AllDigits(r)
    ensures |r| > 1 ==> r[0] != '0'
  {
    if n < 10 then [DigitChar(n)] else ToDecimal(n / 10) + [DigitChar(n % 10)]
  }

  lemma {:induction false} ValueOfDecimal(n: nat)
    ensures Value(ToDecimal(n)) == n
  {
    if n >= 10 {
      ValueOfDecimal(n / 10);
      var r := ToDecimal(n);
      assert r[..|r| - 1] == ToDecimal(n / 10);
    }
  }

  lemma {:induction false} DigitsConcat(a: string, b: string)
    ensures Digits(a + b) == Digits(a) + Digits(b)
  {
    if b != [] {
      assert (a + b)[..|a + b| - 1] == a + b[..|b| - 1];
      DigitsConcat(a, b[..|b| - 1]);
    } else {
      assert a + b == a;
    }
  }

  /** A string of digits only is its own digits. */
  lemma {:induction false} DigitsOfAllDigits(s: string)
    requires AllDigits(s)
    ensures Digits(s) == s
  {
    if s != [] { DigitsOfAllDigits(s[..|s| - 1]); }
  }

  /** A string without a digit character contributes no digits. */
  lemma {:induction false} DigitsOfNonDigits(s: string)
    requires forall i :: 0 <= i < |s| ==> !IsDigit(s[i])
    ensures Digits(s) == []
  {
    if s != [] { DigitsOfNonDigits(s[..|s| - 1]); }
  }

  lemma {:induction false} ValueConcat(a: string, b: string)
    requires AllDigits(a) && AllDigits(b)
    ensures Value(a + b) == Value(a) * Pow10(|b|) + Value(b)
  {
    if b == [] {
      assert a + b == a;
    } else {
      var b' := b[..|b| - 1];
      var d := DigitValue(b[|b| - 1]);
      assert (a + b)[..|a + b| - 1] == a + b';
      ValueConcat(a, b');
      var va, vb', p := Value(a), Value(b'), Pow10(|b'|);
      assert Value(a + b) == Value(a + b') * 10 + d;
      assert Value(b) == vb' * 10 + d;
      assert Pow10(|b|) == p * 10;
      Regroup(va, p, vb', d);
    }
  }

  lemma Regroup(x: int, p: int, y: int, d: int)
    ensures (x * p + y) * 10 + d == x * (p * 10) + (y * 10 + d)
  {
  }

  /** Python's `<` on `str`: code-point by code-point, a proper prefix coming first. */
  predicate LexLess(a: string, b: string) {
    if a == [] then b != []
    else if b == [] then false
    else a[0] < b[0] || (a[0] == b[0] && LexLess(a[1..], b[1..]))
  }

  lemma {:induction false} LexLessIrreflexive(a: string)
    ensures !LexLess(a, a)
  {
    if a != [] { LexLessIrreflexive(a[1..]); }
  }

  lemma {:induction false} LexLessTransitive(a: string, b: string, c: string)
    requires LexLess(a, b) && LexLess(b, c)
    ensures LexLess(a, c)
  {
    if a != [] && b != [] && c != [] && a[0] == b[0] && b[0] == c[0] {
      LexLessTransitive(a[1..], b[1..], c[1..]);
    }
  }

  lemma {:induction false} LexLessTotal(a: string, b: string)
    requires a != b
    ensures LexLess(a, b) || LexLess(b, a)
  {
    if a != [] && b != [] && a[0] == b[0] {
      assert a == [a[0]] + a[1..] && b == [b[0]] + b[1..];
      LexLessTotal(a[1..], b[1..]);
    }
  }

  lemma {:induction false} LexLessAsymmetric(a: string, b: string)
    requires LexLess(a, b)
    ensures !LexLess(b, a)
  {
    if a != [] && b != [] && a[0] == b[0] {
      LexLessAsymmetric(a[1..], b[1..]);
    }
  }
}
