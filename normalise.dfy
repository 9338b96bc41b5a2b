/**
 * The field normalisers applied to every accepted row: `clean_price` for the
 * sale price and `parse_dom` (built on Python's `int()`) for days on market.
 */
module Normalise {
  import opened Wrappers
  import opened Text

  /**
   * `clean_price`: keep only the digit characters and read them as one
   * integer; an empty input, or one with no digit, gives 0. The decimal
   * point is dropped like any other separator, so cents become trailing digits.
   */
  function CleanPrice(s: string): (r: nat)
    ensures Digits(s) == [] ==> r == 0
    ensures r < Pow10(|Digits(s)|)
  {
    if s == [] then 0
    else
      var ds := Digits(s);
      if ds == [] then 0 else Value(ds)
  }

  /** A character that is not a digit can be taken out without changing the price. */
  lemma CleanPriceIgnoresNonDigit(a: string, c: char, b: string)
    requires !IsDigit(c)
    ensures CleanPrice(a + [c] + b) == CleanPrice(a + b)
  {
    DigitsConcat(a + [c], b);
    DigitsConcat(a, [c]);
    DigitsConcat(a, b);
    assert Digits([c]) == [] by {
      assert [c][..0] == [];
    }
    assert Digits(a + [c]) == Digits(a);
  }

  /** The price is the number whose decimal spelling is exactly the digits of the input. */
  lemma CleanPriceReadsDigits(s: string, n: nat)
    requires Digits(s) == ToDecimal(n)
    ensures CleanPrice(s) == n
  {
    ValueOfDecimal(n);
  }

  /** Round trip: printing a number and cleaning it gives the number back. */
  lemma CleanPriceOfDecimal(n: nat)
    ensures CleanPrice(ToDecimal(n)) == n
  {
    DigitsOfAllDigits(ToDecimal(n));
    CleanPriceReadsDigits(ToDecimal(n), n);
  }

  /** The price of a concatenation: the digits of `b` follow those of `a`. */
  lemma CleanPriceConcat(a: string, b: string)
    ensures CleanPrice(a + b) == CleanPrice(a) * Pow10(|Digits(b)|) + CleanPrice(b)
  {
    DigitsConcat(a, b);
    ValueConcat(Digits(a), Digits(b));
    if a == [] {
      assert a + b == b;
    }
    if b == [] {
      assert a + b == a;
    }
  }

  lemma CleanPriceOfZero()
    ensures CleanPrice("0") == 0
  {
    CleanPriceOfDecimal(0);
    assert ToDecimal(0) == "0";
  }

  /** A leading zero digit does not change the price. */
  lemma CleanPriceLeadingZero(s: string)
    ensures CleanPrice("0" + s) == CleanPrice(s)
  {
    CleanPriceConcat("0", s);
    CleanPriceOfZero();
  }

  /**
   * A price written with cents is not truncated to whole units: the cent
   * digits are appended, so two cent digits multiply the whole part by 100.
   */
  lemma CleanPriceKeepsCents(whole: string, cents: string)
    ensures CleanPrice(whole + "." + cents)
         == CleanPrice(whole) * Pow10(|Digits(cents)|) + CleanPrice(cents)
  {
    CleanPriceIgnoresNonDigit(whole, '.', cents);
    assert whole + "." + cents == whole + ['.'] + cents;
    CleanPriceConcat(whole, cents);
  }

  /**
   * The digit part Python's `int()` accepts: digits, where a single `_`
   * may stand between two of them.
   */
  predicate IsDigitGroup(u: string)
    decreases |u|
  {
    && |u| > 0 && IsDigit(u[0])
    && (|u| == 1 || if u[1] == '_' then IsDigitGroup(u[2..]) else IsDigitGroup(u[1..]))
  }

  lemma {:induction false} AllDigitsIsGroup(u: string)
    requires u != [] && AllDigits(u)
    ensures IsDigitGroup(u)
  {
    if |u| > 1 { AllDigitsIsGroup(u[1..]); }
  }

  lemma {:induction false} GroupChars(u: string, j: nat)
    requires IsDigitGroup(u) && j < |u|
    ensures IsDigit(u[j]) || u[j] == '_'
    decreases |u|
  {
    if j > 0 {
      if u[1] == '_' {
        if j > 1 { GroupChars(u[2..], j - 2); }
      } else {
        GroupChars(u[1..], j - 1);
      }
    }
  }

  /**
   * The default `sys.int_info.default_max_str_digits`: `int()` refuses a
   * decimal string with more digits than this.
   */
  const MaxStrDigits: nat := 4300

  /**
   * The unsigned part of `int()`: a digit group read as a number, or a
   * failure when it is malformed or has more than `MaxStrDigits` digits
   * (the underscores do not count).
   */
  function ParseDigits(u: string): (r: Option<nat>)
    ensures r.Some? <==> IsDigitGroup(u) && |Digits(u)| <= MaxStrDigits
  {
    if IsDigitGroup(u) && |Digits(u)| <= MaxStrDigits then Some(Value(Digits(u))) else None
  }

  /** A plain run of digits is read as the number it spells, unless it is too long. */
  lemma ParseDigitsOfDigits(u: string)
    requires u != [] && AllDigits(u)
    ensures ParseDigits(u) == if |u| <= MaxStrDigits then Some(Value(u)) else None
  {
    AllDigitsIsGroup(u);
    DigitsOfAllDigits(u);
  }

  /** Digits in front of a digit group still make a digit group. */
  lemma {:induction false} GroupPrepend(a: string, b: string)
    requires AllDigits(a) && IsDigitGroup(b)
    ensures IsDigitGroup(a + b)
    decreases |a|
  {
    if a == [] {
      assert a + b == b;
    } else {
      var u := a + b;
      assert u[1..] == a[1..] + b;
      GroupPrepend(a[1..], b);
    }
  }

  /** Digits, one underscore, then a digit group make a digit group. */
  lemma {:induction false} GroupJoin(a: string, b: string)
    requires a != [] && AllDigits(a) && IsDigitGroup(b)
    ensures IsDigitGroup(a + "_" + b)
    decreases |a|
  {
    var u := a + "_" + b;
    if |a| == 1 {
      assert u[2..] == b;
    } else {
      assert u[1..] == a[1..] + "_" + b;
      GroupJoin(a[1..], b);
    }
  }

  /**
   * An underscore between digits changes nothing `int()` reads: removing it
   * leaves the result, the value and the digit limit alike, unchanged.
   */
  lemma ParseDigitsDropsUnderscore(a: string, b: string)
    requires a != [] && AllDigits(a) && IsDigitGroup(b)
    ensures ParseDigits(a + "_" + b) == ParseDigits(a + b)
  {
    GroupJoin(a, b);
    GroupPrepend(a, b);
    DigitsConcat(a + "_", b);
    DigitsConcat(a, "_");
    DigitsConcat(a, b);
    DigitsOfNonDigits("_");
  }

  /** The whitespace `int()` removes around its argument. */
  function IntStrip(s: string): string {
    StripBy(s, IsIntSpace)
  }

  /** What `int()` makes of its stripped argument: one optional sign, then a digit group. */
  function ParseSigned(t: string): (r: Option<int>)
    ensures r.Some? ==> t != []
    ensures t == "+" || t == "-" ==> r.None?
  {
    if t != [] && (t[0] == '+' || t[0] == '-') then
      match ParseDigits(t[1..])
      case None => None
      case Some(v) => Some(if t[0] == '-' then -(v as int) else v as int)
    else
      match ParseDigits(t)
      case None => None
      case Some(v) => Some(v as int)
  }

  /**
   * Python's `int(s)` on a `str`: surrounding whitespace (`IsIntSpace`) is
   * ignored, one optional sign, then a digit group of at most `MaxStrDigits`
   * digits; anything else raises, modelled as None.
   */
  function ParseInt(s: string): (r: Option<int>)
    ensures r.Some? ==> IntStrip(s) != []
  {
    ParseSigned(IntStrip(s))
  }

  /** A digit group has no whitespace, so the strip `int()` applies leaves it alone. */
  lemma StripGroup(r: string)
    requires IsDigitGroup(r)
    ensures IntStrip(r) == r
  {
    forall i | 0 <= i < |r|
      ensures !IsIntSpace(r[i])
    {
      GroupChars(r, i);
    }
    StripByNone(r, IsIntSpace);
  }

  /** `int()` of an accepted digit group is what the group reads as. */
  lemma ParseIntOfDigits(r: string, v: nat)
    requires ParseDigits(r) == Some(v)
    ensures ParseInt(r) == Some(v as int)
  {
    StripGroup(r);
  }

  /** `int()` fails on a digit group with too many digits. */
  lemma ParseIntOfDigitsRefused(r: string)
    requires IsDigitGroup(r)
    requires ParseDigits(r) == None
    ensures ParseInt(r) == None
  {
    StripGroup(r);
  }

  /** Round trip: `int(str(n)) == n`, for every `n` short enough to be read back. */
  lemma ParseIntOfDecimal(n: nat)
    ensures ParseInt(ToDecimal(n)) == if |ToDecimal(n)| <= MaxStrDigits then Some(n) else None
  {
    var r := ToDecimal(n);
    ValueOfDecimal(n);
    ParseDigitsOfDigits(r);
    AllDigitsIsGroup(r);
    if |r| <= MaxStrDigits {
      ParseIntOfDigits(r, n);
    } else {
      ParseIntOfDigitsRefused(r);
    }
  }

  /** A sign followed by a digit group has no whitespace to strip. */
  lemma StripSigned(m: string)
    requires m != [] && (m[0] == '+' || m[0] == '-')
    requires IsDigitGroup(m[1..])
    ensures IntStrip(m) == m
  {
    forall i | 0 <= i < |m|
      ensures !IsIntSpace(m[i])
    {
      if i > 0 {
        assert m[i] == m[1..][i - 1];
        GroupChars(m[1..], i - 1);
      }
    }
    StripByNone(m, IsIntSpace);
  }

  /** `int()` of a minus sign and a digit group negates what the group reads as. */
  lemma ParseIntOfMinus(m: string, v: nat)
    requires m != [] && m[0] == '-'
    requires ParseDigits(m[1..]) == Some(v)
    ensures ParseInt(m) == Some(-(v as int))
  {
    StripSigned(m);
  }

  /** `int()` fails on a sign, either one, followed by a digit group with too many digits. */
  lemma ParseIntOfSignRefused(m: string)
    requires m != [] && (m[0] == '+' || m[0] == '-')
    requires IsDigitGroup(m[1..])
    requires ParseDigits(m[1..]) == None
    ensures ParseInt(m) == None
  {
    StripSigned(m);
  }

  /** `int()` of a plus sign and a digit group is what the group reads as. */
  lemma ParseIntOfPlus(m: string, v: nat)
    requires m != [] && m[0] == '+'
    requires ParseDigits(m[1..]) == Some(v)
    ensures ParseInt(m) == Some(v as int)
  {
    StripSigned(m);
  }

  /** A digit group with an underscore is read without it: `int("-1_000") == -1000`. */
  lemma ParseIntOfUnderscores()
    ensures ParseInt("-1_000") == Some(-1000)
  {
    var u := "1_000";
    assert u[2..] == "000" && "000"[1..] == "00" && "00"[1..] == "0";
    assert IsDigitGroup(u);
    assert Digits(u) == "1000" by {
      assert u[..4] == "1_00" && "1_00"[..3] == "1_0" && "1_0"[..2] == "1_" && "1_"[..1] == "1";
    }
    assert Value("1000") == 1000 by {
      assert "1000"[..3] == "100" && "100"[..2] == "10" && "10"[..1] == "1";
    }
    assert "-1_000"[1..] == u;
    ParseIntOfMinus("-1_000", 1000);
  }

  /** Dropping the first character of `[c] + r` leaves `r`. */
  lemma DropHead(c: char, r: string)
    ensures ([c] + r)[1..] == r
  {
  }

  /** Round trip for negatives: `int("-" + str(n)) == -n`, when short enough. */
  lemma ParseIntOfNegative(n: nat)
    ensures ParseInt("-" + ToDecimal(n)) == if |ToDecimal(n)| <= MaxStrDigits then Some(-(n as int)) else None
  {
    var r := ToDecimal(n);
    var m := "-" + r;
    DropHead('-', r);
    ValueOfDecimal(n);
    ParseDigitsOfDigits(r);
    AllDigitsIsGroup(r);
    if |r| <= MaxStrDigits {
      ParseIntOfMinus(m, n);
    } else {
      ParseIntOfSignRefused(m);
    }
  }

  /** Round trip with an explicit plus sign: `int("+" + str(n)) == n`, when short enough. */
  lemma ParseIntOfPositive(n: nat)
    ensures ParseInt("+" + ToDecimal(n)) == if |ToDecimal(n)| <= MaxStrDigits then Some(n) else None
  {
    var r := ToDecimal(n);
    var m := "+" + r;
    DropHead('+', r);
    ValueOfDecimal(n);
    ParseDigitsOfDigits(r);
    AllDigitsIsGroup(r);
    if |r| <= MaxStrDigits {
      ParseIntOfPlus(m, n);
    } else {
      ParseIntOfSignRefused(m);
    }
  }

  /** A character outside `int()`'s whitespace, digits, signs and `_` makes `int()` fail. */
  lemma ParseIntRejectsNonNumeric(s: string, i: nat)
    requires i < |s|
    requires !IsIntSpace(s[i]) && !IsDigit(s[i]) && s[i] !in "+-_"
    ensures ParseInt(s) == None
  {
    var k := StripWindow(s, IsIntSpace);
    var t := IntStrip(s);
    if ParseInt(s).Some? {
      var j := i - k;
      assert t[j] == s[i];
      if t[0] == '+' || t[0] == '-' {
        GroupChars(t[1..], j - 1);
      } else {
        GroupChars(t, j);
      }
    }
  }

  lemma SliceOfSuffix<T>(s: seq<T>, k: nat, m: nat)
    requires k + m <= |s|
    ensures s[k..][..m] == s[k..k + m]
  {
  }

  lemma SplitAt<T>(s: seq<T>, k: nat)
    requires k <= |s|
    ensures s == s[..k] + s[k..]
  {
  }

  /** Dropping a digit-free prefix keeps every digit. */
  lemma DigitsDropPrefix(s: string, k: nat)
    requires k <= |s|
    requires forall i :: 0 <= i < k ==> !IsDigit(s[i])
    ensures Digits(s[k..]) == Digits(s)
  {
    SplitAt(s, k);
    DigitsOfNonDigits(s[..k]);
    DigitsConcat(s[..k], s[k..]);
  }

  /** Dropping a digit-free suffix keeps every digit. */
  lemma DigitsTakePrefix(s: string, m: nat)
    requires m <= |s|
    requires forall i :: m <= i < |s| ==> !IsDigit(s[i])
    ensures Digits(s[..m]) == Digits(s)
  {
    SplitAt(s, m);
    DigitsOfNonDigits(s[m..]);
    DigitsConcat(s[..m], s[m..]);
  }

  /** Taking digit-free ends off `s` keeps all of its digits. */
  lemma DigitsOfWindow(s: string, k: nat, m: nat)
    requires k + m <= |s|
    requires forall i :: 0 <= i < k ==> !IsDigit(s[i])
    requires forall i :: k + m <= i < |s| ==> !IsDigit(s[i])
    ensures Digits(s[k..k + m]) == Digits(s)
  {
    SliceOfSuffix(s, k, m);
    DigitsTakePrefix(s[k..], m);
    DigitsDropPrefix(s, k);
  }

  /** The digits of `s` are those of the part `int()` keeps after stripping. */
  lemma IntStripKeepsDigits(s: string)
    ensures Digits(IntStrip(s)) == Digits(s)
  {
    var k := StripWindow(s, IsIntSpace);
    DigitsOfWindow(s, k, |IntStrip(s)|);
  }

  /** More than `MaxStrDigits` digits make `int()` fail, whatever surrounds them. */
  lemma ParseIntRejectsLong(s: string)
    requires |Digits(s)| > MaxStrDigits
    ensures ParseInt(s) == None
  {
    IntStripKeepsDigits(s);
    var t := IntStrip(s);
    if t != [] && (t[0] == '+' || t[0] == '-') {
      assert t == [t[0]] + t[1..];
      DigitsConcat([t[0]], t[1..]);
      DigitsOfNonDigits([t[0]]);
    }
  }

  /** The information separators U+001C..U+001F: whitespace to `str.strip()` but not to `int()`. */
  lemma SeparatorSpace(c: char)
    requires '\U{1C}' <= c <= '\U{1F}'
    ensures IsSpace(c) && !IsIntSpace(c)
  {
  }

  /** `str.strip()` removes a leading separator in front of digits. */
  lemma StripSeparated(c: char, r: string)
    requires '\U{1C}' <= c <= '\U{1F}'
    requires r != [] && AllDigits(r)
    ensures Strip([c] + r) == r
  {
    var m := [c] + r;
    DropHead(c, r);
    assert LeadingCount(m, IsSpace) == 1;
    assert m[1..] == r;
    assert TrailingCount(r, IsSpace) == 0;
  }

  /**
   * `str.strip()` and `int()` disagree on a leading separator: the field
   * strips to its digits, but `int()` refuses it.
   */
  lemma ParseIntKeepsSeparators(c: char, r: string)
    requires '\U{1C}' <= c <= '\U{1F}'
    requires r != [] && AllDigits(r)
    ensures Strip([c] + r) == r
    ensures ParseInt([c] + r) == None
  {
    SeparatorSpace(c);
    ParseIntRejectsNonNumeric([c] + r, 0);
    StripSeparated(c, r);
  }

  /** `parse_dom`: days on market is kept only when it is an integer above zero. */
  function ParseDom(s: string): (r: Option<nat>)
    ensures r.Some? ==> r.value > 0 && ParseInt(s) == Some(r.value)
    ensures r.None? ==> ParseInt(s).None? || ParseInt(s).value <= 0
  {
    if s == [] then None
    else
      match ParseInt(s)
      case Some(d) => if d > 0 then Some(d) else None
      case None => None
  }

  lemma ParseDomOfDecimal(n: nat)
    requires n > 0
    ensures ParseDom(ToDecimal(n)) == if |ToDecimal(n)| <= MaxStrDigits then Some(n) else None
  {
    ParseIntOfDecimal(n);
  }

  /** Zero and every negative number are excluded rather than kept as a value. */
  lemma ParseDomRejectsNonPositive(n: nat)
    ensures ParseDom(ToDecimal(n)) == (if n == 0 || |ToDecimal(n)| > MaxStrDigits then None else Some(n))
    ensures ParseDom("-" + ToDecimal(n)) == None
  {
    ParseIntOfDecimal(n);
    ParseIntOfNegative(n);
  }

  /** A plus sign is accepted: `parse_dom("+45") == 45`, and in general the sign changes nothing. */
  lemma ParseDomOfPlus(n: nat)
    ensures ParseDom("+" + ToDecimal(n)) == ParseDom(ToDecimal(n))
  {
    ParseIntOfDecimal(n);
    ParseIntOfPositive(n);
  }

  lemma ParseDomRejectsNonNumeric(s: string, i: nat)
    requires i < |s|
    requires !IsIntSpace(s[i]) && !IsDigit(s[i]) && s[i] !in "+-_"
    ensures ParseDom(s) == None
  {
    ParseIntRejectsNonNumeric(s, i);
  }
}
