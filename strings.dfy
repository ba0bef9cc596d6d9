/** The PHP string primitives the program relies on: `rtrim` with one
    character, `str_replace` of one character, `empty()` on a string, the
    decimal rendering of an integer (`sprintf('%s', $int)`, `(string) $int`)
    and the `(int)` cast of a string. */
module Strings {

  predicate EndsWith(s: string, c: char) {
    |s| > 0 && s[|s| - 1] == c
  }

  /** PHP `rtrim($s, $c)` for a single character `c`: the longest prefix of
      `s` that does not end in `c` and after which only `c`s follow. */
  function RTrim(s: string, c: char): (r: string)
    ensures |r| <= |s| && r == s[..|r|]
    ensures !EndsWith(r, c)
    ensures forall i :: |r| <= i < |s| ==> s[i] == c
  {
    if EndsWith(s, c) then RTrim(s[..|s| - 1], c) else s
  }

  /** Trimming a string that already does not end in `c` changes nothing, so
      `rtrim` is idempotent. */
  lemma RTrimIdempotent(s: string, c: char)
    ensures RTrim(RTrim(s, c), c) == RTrim(s, c)
  {
  }

  /** Adding trailing `c`s does not change what `rtrim` keeps. */
  lemma {:induction false} RTrimAppend(s: string, c: char, k: nat)
    ensures RTrim(s + seq(k, _ => c), c) == RTrim(s, c)
  {
    if k > 0 {
      var t := s + seq(k, _ => c);
      assert EndsWith(t, c);
      assert t[..|t| - 1] == s + seq(k - 1, _ => c);
      RTrimAppend(s, c, k - 1);
    } else {
      assert s + seq(k, _ => c) == s;
    }
  }

  /** PHP `str_replace($from, $to, $s)` for single characters. */
  function Replace(s: string, from: char, to: char): (r: string)
    ensures |r| == |s|
    ensures forall i :: 0 <= i < |s| ==> r[i] == (if s[i] == from then to else s[i])
  {
    if s == [] then [] else [if s[0] == from then to else s[0]] + Replace(s[1..], from, to)
  }

  /** PHP `empty()` on a string: the empty string and "0" are empty. */
  predicate PhpEmpty(s: string) {
    s == "" || s == "0"
  }

  predicate IsDigit(c: char) {
    '0' <= c <= '9'
  }

  predicate AllDigits(s: string) {
    forall i :: 0 <= i < |s| ==> IsDigit(s[i])
  }

  /** A decimal numeral as PHP prints a non-negative integer: at least one
      digit and no leading zero unless the numeral is "0". */
  predicate Canonical(s: string) {
    |s| >= 1 && AllDigits(s) && (|s| > 1 ==> s[0] != '0')
  }

  function Digit(d: nat): char
    requires d < 10
  {
    ('0' as int + d) as char
  }

  function DigitValue(c: char): nat
    requires IsDigit(c)
  {
    (c - '0') as nat
  }

  /** The value of a string of decimal digits (0 for the empty string). */
  function DigitsValue(s: string): nat
    requires AllDigits(s)
  {
    if s == [] then 0 else 10 * DigitsValue(s[..|s| - 1]) + DigitValue(s[|s| - 1])
  }

  /** The decimal rendering of a natural number. */
  function NatToString(n: nat): (r: string)
    ensures Canonical(r)
    ensures r == "0" <==> n == 0
  {
    if n < 10 then [Digit(n)] else NatToString(n / 10) + [Digit(n % 10)]
  }

  /** The decimal rendering of an integer, as `sprintf('%s', $i)` prints it. */
  function IntToString(i: int): (r: string)
    ensures |r| >= 1
    ensures '/' !in r && '*' !in r && '?' !in r
    ensures PhpEmpty(r) <==> i == 0
  {
    if i < 0 then "-" + NatToString(-i) else NatToString(i)
  }

  /** The longest prefix of `s` made of decimal digits. */
  function LeadingDigits(s: string): (r: string)
    ensures AllDigits(r) && r <= s
    ensures |r| < |s| ==> !IsDigit(s[|r|])
  {
    if s == [] || !IsDigit(s[0]) then [] else [s[0]] + LeadingDigits(s[1..])
  }

  /** The bounds of PHP's 64-bit `int`. */
  const PHP_INT_MAX: int := 0x7fff_ffff_ffff_ffff
  const PHP_INT_MIN: int := -0x8000_0000_0000_0000

  /** A value PHP's `int` can hold. */
  type PhpInt = i: int | PHP_INT_MIN <= i <= PHP_INT_MAX

  /** 2^1024 - 2^970, halfway between the largest finite double and 2^1024:
      the least magnitude that a decimal numeral rounds to infinity from. */
  const DOUBLE_OVERFLOW: nat := 0xfffffffffffffc00_0000000000000000_0000000000000000_0000000000000000_0000000000000000_0000000000000000_0000000000000000_0000000000000000_0000000000000000_0000000000000000_0000000000000000_0000000000000000_0000000000000000_0000000000000000_0000000000000000_0000000000000000

  /** The whitespace PHP skips in front of a numeric string: space, tab,
      line feed, carriage return, vertical tab and form feed. */
  predicate IsNumericSpace(c: char) {
    c == ' ' || c == '\t' || c == '\n' || c == '\r' || c as int == 11 || c as int == 12
  }

  /** `s` without its leading whitespace. */
  function SkipSpace(s: string): (r: string)
    ensures |r| <= |s| && r == s[|s| - |r|..]
    ensures forall i :: 0 <= i < |s| - |r| ==> IsNumericSpace(s[i])
    ensures r != [] ==> !IsNumericSpace(r[0])
  {
    if s != [] && IsNumericSpace(s[0]) then SkipSpace(s[1..]) else s
  }

  /** The numeric prefix of a string as the engine's number parser reads
      it: an optional sign, the digits before the decimal point, the digits
      after it, and the exponent (0 when there is none). A string starting
      with neither a digit nor a point followed by a digit is not numeric. */
  datatype Numeral = NotNumeric | Numeral(negative: bool, whole: string, fraction: string, exponent: int)

  /** The exponent after a mantissa: `e` or `E`, an optional sign and at
      least one digit; anything else is no exponent. */
  function ExponentOf(t: string): int {
    if |t| >= 2 && (t[0] == 'e' || t[0] == 'E') then
      if IsDigit(t[1]) then DigitsValue(LeadingDigits(t[1..]))
      else if |t| >= 3 && (t[1] == '+' || t[1] == '-') && IsDigit(t[2]) then
        (if t[1] == '-' then -1 else 1) * DigitsValue(LeadingDigits(t[2..]))
      else 0
    else 0
  }

  /** The numeral at the start of `s` (which has no leading whitespace). */
  function ReadNumeral(s: string): (r: Numeral)
    ensures r.Numeral? ==> AllDigits(r.whole) && AllDigits(r.fraction)
  {
    if |s| > 0 && (s[0] == '-' || s[0] == '+') then ReadUnsigned(s[0] == '-', s[1..])
    else ReadUnsigned(false, s)
  }

  /** The numeral at the start of `t`, after the sign: digits, then a
      decimal point and more digits (one of the two parts may be empty, not
      both), then the exponent. */
  function ReadUnsigned(negative: bool, t: string): (r: Numeral)
    ensures r.Numeral? ==> AllDigits(r.whole) && AllDigits(r.fraction)
  {
    var whole := LeadingDigits(t);
    var rest := t[|whole|..];
    if |rest| > 0 && rest[0] == '.' then
      var fraction := LeadingDigits(rest[1..]);
      if whole == [] && fraction == [] then NotNumeric
      else Numeral(negative, whole, fraction, ExponentOf(rest[1 + |fraction|..]))
    else if whole == [] then NotNumeric
    else Numeral(negative, whole, [], ExponentOf(rest))
  }

  /** A string that starts with a letter has no numeric prefix. */
  lemma LetterStartIsNotNumeric(s: string)
    requires |s| > 0 && 'a' <= s[0] <= 'z'
    ensures ReadNumeral(SkipSpace(s)).NotNumeric?
  {
    assert SkipSpace(s) == s;
    assert LeadingDigits(s) == [] && s[0] != '-' && s[0] != '+' && s[0] != '.';
  }

  function Pow10(k: nat): (r: nat)
    ensures r >= 1
  {
    if k == 0 then 1 else 10 * Pow10(k - 1)
  }

  /** The `(int)` conversion of an integer that may lie outside `int`'s
      range: it saturates at the bounds. */
  function Saturate(i: int): (r: PhpInt)
    ensures PHP_INT_MIN <= i <= PHP_INT_MAX ==> r == i
    ensures i > PHP_INT_MAX ==> r == PHP_INT_MAX
    ensures i < PHP_INT_MIN ==> r == PHP_INT_MIN
  {
    if i > PHP_INT_MAX then PHP_INT_MAX else if i < PHP_INT_MIN then PHP_INT_MIN else i
  }

  /** What `(int)` makes of a numeral: an integer numeral that fits is
      itself; otherwise the engine reads a double, which is infinite (and
      becomes 0) from `DOUBLE_OVERFLOW` on, and is otherwise truncated
      toward zero and saturated at the bounds of `int`. */
  function NumeralToInt(n: Numeral): (r: PhpInt)
    requires n.Numeral? ==> AllDigits(n.whole) && AllDigits(n.fraction)
  {
    match n
    case NotNumeric => 0
    case Numeral(negative, whole, fraction, exponent) =>
      assert AllDigits(whole + fraction) by {
        assert forall i :: 0 <= i < |whole + fraction| ==>
          (whole + fraction)[i] == if i < |whole| then whole[i] else fraction[i - |whole|];
      }
      var num := DigitsValue(whole + fraction) * Pow10(if exponent > 0 then exponent else 0);
      var den := Pow10(|fraction|) * Pow10(if exponent < 0 then -exponent else 0);
      if num >= DOUBLE_OVERFLOW * den then 0
      else Saturate(if negative then -(num / den) else num / den)
  }

  /** PHP's `(int)` cast of a string: leading whitespace is skipped, the
      numeric prefix (sign, digits, decimal point, exponent) is read and
      converted as `NumeralToInt` says; a string with no numeric prefix
      is 0. The result always lies within `int`'s range. */
  function PhpIntCast(s: string): (r: PhpInt) {
    NumeralToInt(ReadNumeral(SkipSpace(s)))
  }

  /** Reading back a rendered natural number gives the number. */
  lemma {:induction false} NatToStringValue(n: nat)
    ensures DigitsValue(NatToString(n)) == n
  {
    if n >= 10 {
      var s := NatToString(n);
      assert s[..|s| - 1] == NatToString(n / 10);
      NatToStringValue(n / 10);
    }
  }

  /** A numeral with a non-zero first digit has a non-zero value. */
  lemma {:induction false} LeadingNonZero(s: string)
    requires AllDigits(s) && |s| >= 1 && s[0] != '0'
    ensures DigitsValue(s) >= 1
  {
    if |s| > 1 {
      LeadingNonZero(s[..|s| - 1]);
    }
  }

  lemma DivMod10(a: nat, d: nat)
    requires d < 10
    ensures (10 * a + d) / 10 == a && (10 * a + d) % 10 == d
  {
  }

  /** Rendering the value of a canonical numeral gives the numeral back. */
  lemma {:induction false} CanonicalValue(s: string)
    requires Canonical(s)
    ensures NatToString(DigitsValue(s)) == s
  {
    var last := s[|s| - 1];
    if |s| > 1 {
      var p := s[..|s| - 1];
      LeadingNonZero(p);
      CanonicalValue(p);
      DivMod10(DigitsValue(p), DigitValue(last));
      assert NatToString(DigitsValue(s)) == NatToString(DigitsValue(p)) + [Digit(DigitValue(last))];
      assert s == p + [last];
    } else {
      assert s == [Digit(DigitValue(last))];
    }
  }

  /** The leading digits of a string that is all digits are the whole string. */
  lemma {:induction false} LeadingDigitsOfDigits(s: string)
    requires AllDigits(s)
    ensures LeadingDigits(s) == s
  {
    if s != [] {
      LeadingDigitsOfDigits(s[1..]);
    }
  }

  /** The leading digits of a rendered natural number read back as it. */
  lemma RenderingDigitsValue(n: nat)
    ensures DigitsValue(LeadingDigits(NatToString(n))) == n
  {
    LeadingDigitsOfDigits(NatToString(n));
    NatToStringValue(n);
  }

  /** A whole numeral with no fraction and no exponent converts to its
      value, saturated, or to 0 once it overflows a double. */
  lemma WholeNumeralToInt(negative: bool, whole: string)
    requires AllDigits(whole)
    ensures NumeralToInt(Numeral(negative, whole, [], 0))
            == if DigitsValue(whole) >= DOUBLE_OVERFLOW then 0
               else Saturate(if negative then -(DigitsValue(whole) as int) else DigitsValue(whole))
  {
    assert whole + [] == whole;
  }

  /** A sign (or none) followed by digits reads as a whole numeral. */
  lemma ReadWholeNumeral(s: string, negative: bool, whole: string)
    requires AllDigits(whole) && whole != []
    requires s == (if negative then "-" else "") + whole
    ensures SkipSpace(s) == s
    ensures ReadNumeral(s) == Numeral(negative, whole, [], 0)
  {
    assert !IsNumericSpace(s[0]);
    LeadingDigitsOfDigits(whole);
    var unsigned := if |s| > 0 && (s[0] == '-' || s[0] == '+') then s[1..] else s;
    assert unsigned == whole;
    assert unsigned[|whole|..] == [];
  }

  /** A string of decimal digits casts to its value, saturated at
      `PHP_INT_MAX`, and to 0 once its value overflows a double. */
  lemma IntCastOfDigits(s: string)
    requires AllDigits(s) && s != []
    ensures DigitsValue(s) < DOUBLE_OVERFLOW ==> PhpIntCast(s) == Saturate(DigitsValue(s))
    ensures DigitsValue(s) >= DOUBLE_OVERFLOW ==> PhpIntCast(s) == 0
  {
    ReadWholeNumeral(s, false, s);
    WholeNumeralToInt(false, s);
  }

  /** The `(int)` cast inverts the decimal rendering of every `int`. */
  lemma IntCastOfRendering(i: PhpInt)
    ensures PhpIntCast(IntToString(i)) == i
  {
    var m: nat := if i < 0 then -(i as int) else i;
    var digits := NatToString(m);
    NatToStringValue(m);
    ReadWholeNumeral(IntToString(i), i < 0, digits);
    WholeNumeralToInt(i < 0, digits);
  }

  /** The `(int)` cast of a canonical numeral within `int`'s range renders
      back to the numeral. */
  lemma RenderingOfIntCast(s: string)
    requires Canonical(s) && DigitsValue(s) <= PHP_INT_MAX
    ensures IntToString(PhpIntCast(s)) == s
  {
    IntCastOfDigits(s);
    CanonicalValue(s);
  }

  /** A numeral beyond `int`'s range casts to `PHP_INT_MAX` (until it
      overflows a double). */
  lemma IntCastSaturates(s: string)
    requires AllDigits(s) && s != [] && PHP_INT_MAX < DigitsValue(s) < DOUBLE_OVERFLOW
    ensures PhpIntCast(s) == PHP_INT_MAX
  {
    IntCastOfDigits(s);
  }

  /** Leading whitespace does not change the cast. */
  lemma IntCastSkipsSpace(s: string)
    requires |s| > 0 && IsNumericSpace(s[0])
    ensures PhpIntCast(s) == PhpIntCast(s[1..])
  {
  }

  lemma ValueOfTwelve()
    ensures AllDigits("12") && DigitsValue("12") == 12
  {
    assert "12"[..1] == "1";
  }

  /** Leading whitespace is skipped: `(int) " 12"` is 12. */
  lemma IntCastExampleSpace()
    ensures PhpIntCast(" 12") == 12
  {
    IntCastSkipsSpace(" 12");
    assert " 12"[1..] == "12";
    ValueOfTwelve();
    IntCastOfDigits("12");
  }

  lemma ReadExponentExample()
    ensures ReadNumeral("1e3") == Numeral(false, "1", [], 3)
  {
    var s := "1e3";
    assert LeadingDigits(s) == "1" by {
      assert s[1..] == "e3";
    }
    assert s[1..] == "e3" && "e3"[1..] == "3";
    assert LeadingDigits("3") == "3";
    assert ExponentOf("e3") == 3 by {
      assert DigitsValue("3") == 3;
    }
  }

  lemma ExponentValueExample()
    ensures NumeralToInt(Numeral(false, "1", [], 3)) == 1000
  {
    assert "1" + [] == "1" && DigitsValue("1") == 1;
    assert Pow10(3) == 1000;
  }

  /** The exponent form is read as a whole: `(int) "1e3"` is 1000. */
  lemma IntCastExampleExponent()
    ensures PhpIntCast("1e3") == 1000
  {
    assert SkipSpace("1e3") == "1e3";
    ReadExponentExample();
    ExponentValueExample();
  }

  lemma ReadFractionExample()
    ensures ReadNumeral("-1.9") == Numeral(true, "1", "9", 0)
  {
    var s := "-1.9";
    assert s[1..] == "1.9" && "1.9"[1..] == ".9" && ".9"[1..] == "9";
    assert LeadingDigits("1.9") == "1";
    assert LeadingDigits("9") == "9";
    assert "9"[1..] == [];
  }

  lemma FractionValueExample()
    ensures NumeralToInt(Numeral(true, "1", "9", 0)) == -1
  {
    assert "1" + "9" == "19" && DigitsValue("19") == 19 by {
      assert "19"[..1] == "1";
    }
  }

  /** A fraction is truncated toward zero: `(int) "-1.9"` is -1. */
  lemma IntCastExampleFraction()
    ensures PhpIntCast("-1.9") == -1
  {
    assert SkipSpace("-1.9") == "-1.9";
    ReadFractionExample();
    FractionValueExample();
  }

  /** A numeral beyond `int`'s range saturates: the cast of the rendering
      of 2^63 is `PHP_INT_MAX`. */
  lemma IntCastExampleSaturation()
    ensures PhpIntCast(NatToString(PHP_INT_MAX + 1)) == PHP_INT_MAX
  {
    NatToStringValue(PHP_INT_MAX + 1);
    IntCastSaturates(NatToString(PHP_INT_MAX + 1));
  }

  /** Where the first `c` of `s` is, or `|s|` when there is none. */
  function IndexOf(s: string, c: char): (k: nat)
    ensures k <= |s|
    ensures c !in s[..k]
    ensures k < |s| ==> s[k] == c
  {
    if s == [] then 0 else if s[0] == c then 0 else 1 + IndexOf(s[1..], c)
  }

  lemma {:induction false} IndexOfAfter(x: string, c: char, s: string)
    requires c !in x
    ensures IndexOf(x + [c] + s, c) == |x|
  {
    if x != [] {
      assert (x + [c] + s)[1..] == x[1..] + [c] + s;
      IndexOfAfter(x[1..], c, s);
    }
  }

  lemma {:induction false} IndexOfExtension(a: string, b: string, c: char)
    requires a <= b && IndexOf(a, c) < |a|
    ensures IndexOf(b, c) == IndexOf(a, c)
  {
    if a[0] != c {
      IndexOfExtension(a[1..], b[1..], c);
    }
  }

  /** `x/s` can only be a prefix of `y/t` when the first segments agree:
      a segment terminated by '/' cannot be extended into a longer one. */
  lemma SlashPrefix(x: string, s: string, y: string, t: string)
    requires '/' !in x && '/' !in y
    requires x + "/" + s <= y + "/" + t
    ensures x == y && s <= t
  {
    var a, b := x + "/" + s, y + "/" + t;
    IndexOfAfter(x, '/', s);
    IndexOfAfter(y, '/', t);
    IndexOfExtension(a, b, '/');
    assert x == a[..|x|] && y == b[..|y|];
    assert s == a[|x| + 1..] && t == b[|y| + 1..];
  }
}
