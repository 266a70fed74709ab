/**
 * Decimal digit strings and PHP's reading of numbers in strings: the `(int)`
 * cast used by the NID checks and the integer filter used by the request
 * rules.
 */
module Digits {

  import opened Wrappers

  /** PHP's integers are 64 bits wide. */
  const LongMax: int := 0x7FFF_FFFF_FFFF_FFFF
  const LongMin: int := -0x8000_0000_0000_0000

  predicate IsDigit(c: char)
  {
    '0' <= c <= '9'
  }

  predicate AllDigits(s: string)
  {
    forall i :: 0 <= i < |s| ==> IsDigit(s[i])
  }

  /** The value of a string of decimal digits. */
  function DigitsValue(s: string): (n: nat)
    requires AllDigits(s)
    ensures s == "0" ==> n == 0
  {
    if s == [] then 0
    else DigitsValue(s[..|s| - 1]) * 10 + (s[|s| - 1] as int - '0' as int)
  }

  function Pow10(k: nat): (p: nat)
    ensures p >= 1
  {
    if k == 0 then 1 else 10 * Pow10(k - 1)
  }

  /** A value of k digits is below 10^k. */
  lemma {:induction false} DigitsValueBound(s: string)
    requires AllDigits(s)
    ensures DigitsValue(s) < Pow10(|s|)
  {
    if s != [] {
      DigitsValueBound(s[..|s| - 1]);
    }
  }

  /** The longest prefix of digits. */
  function LeadingDigits(s: string): (d: string)
    ensures AllDigits(d) && d <= s
    ensures |d| < |s| ==> !IsDigit(s[|d|])
  {
    if s == [] || !IsDigit(s[0]) then [] else [s[0]] + LeadingDigits(s[1..])
  }

  /** All of a string is its digit prefix exactly when it is all digits. */
  lemma {:induction false} LeadingDigitsAll(s: string)
    ensures LeadingDigits(s) == s <==> AllDigits(s)
  {
    if s != [] && IsDigit(s[0]) {
      LeadingDigitsAll(s[1..]);
      assert s == [s[0]] + s[1..];
      assert AllDigits(s) <==> AllDigits(s[1..]) by {
        assert forall i :: 0 < i < |s| ==> s[i] == s[1..][i - 1];
      }
    }
  }

  /** The digit prefix of digits followed by a non-digit is those digits. */
  lemma {:induction false} LeadingDigitsStop(d: string, rest: string)
    requires AllDigits(d) && (rest == [] || !IsDigit(rest[0]))
    ensures LeadingDigits(d + rest) == d
  {
    if d != [] {
      assert (d + rest)[1..] == d[1..] + rest;
      LeadingDigitsStop(d[1..], rest);
      assert d == [d[0]] + d[1..];
    }
  }

  /** The blanks PHP skips before a number: space, tab, newline, return, vertical tab, form feed. */
  predicate NumericSpace(c: char)
  {
    c == ' ' || c == '\t' || c == '\n' || c == '\r' || c == '\U{B}' || c == '\U{C}'
  }

  /** The string after its leading blanks. */
  function SkipSpace(s: string): (r: string)
    ensures |r| <= |s| && r == s[|s| - |r|..]
    ensures forall i :: 0 <= i < |s| - |r| ==> NumericSpace(s[i])
    ensures r == [] || !NumericSpace(r[0])
  {
    if 0 < |s| && NumericSpace(s[0]) then SkipSpace(s[1..]) else s
  }

  /** Skipping blanks in front of text that does not start with one leaves that text. */
  lemma {:induction false} SkipSpaceLead(lead: string, x: string)
    requires forall i :: 0 <= i < |lead| ==> NumericSpace(lead[i])
    requires x == [] || !NumericSpace(x[0])
    ensures SkipSpace(lead + x) == x
  {
    if lead != [] {
      assert (lead + x)[1..] == lead[1..] + x;
      SkipSpaceLead(lead[1..], x);
    }
  }

  /** 1 when the string starts with a sign, otherwise 0. */
  function SignLength(s: string): (n: nat)
    ensures n <= |s|
  {
    if 0 < |s| && (s[0] == '-' || s[0] == '+') then 1 else 0
  }

  predicate Negative(s: string)
  {
    0 < |s| && s[0] == '-'
  }

  /**
   * The leading number of a string as PHP reads it: a sign, digits with an
   * optional point and fraction (at least one digit in all) and an exponent.
   */
  datatype Numeral = Numeral(negative: bool, whole: string, fraction: string, exponent: int)

  /** The exponent an `e` or `E` with an optional sign and at least one digit gives; 0 without one. */
  function ExponentOf(s: string): int
  {
    if 0 < |s| && (s[0] == 'e' || s[0] == 'E') then
      var t := s[1..];
      var digits := LeadingDigits(t[SignLength(t)..]);
      if Negative(t) then -(DigitsValue(digits) as int) else DigitsValue(digits)
    else 0
  }

  /**
   * The number at the start of a string after its blanks, if there is one:
   * after the sign there must be a digit, or a point and then a digit.
   */
  function ReadNumeral(s: string): (r: Option<Numeral>)
    ensures r.Some? ==> AllDigits(r.value.whole) && AllDigits(r.value.fraction)
    ensures var t := SkipSpace(s); var u := t[SignLength(t)..];
      r.Some? <==> (0 < |u| && IsDigit(u[0])) || (1 < |u| && u[0] == '.' && IsDigit(u[1]))
    ensures r.Some? ==> r.value.negative == Negative(SkipSpace(s))
  {
    var t := SkipSpace(s);
    var u := t[SignLength(t)..];
    var whole := LeadingDigits(u);
    var rest := u[|whole|..];
    var point := 0 < |rest| && rest[0] == '.';
    var fraction := if point then LeadingDigits(rest[1..]) else [];
    if whole == [] && fraction == [] then None
    else
      var after := if point then rest[1 + |fraction|..] else rest;
      Some(Numeral(Negative(t), whole, fraction, ExponentOf(after)))
  }

  lemma AllDigitsAppend(a: string, b: string)
    requires AllDigits(a) && AllDigits(b)
    ensures AllDigits(a + b)
  {
    assert forall i :: |a| <= i < |a + b| ==> (a + b)[i] == b[i - |a|];
  }

  /** The size of a numeral's value with the fraction cut off. */
  function Magnitude(n: Numeral): int
    requires AllDigits(n.whole) && AllDigits(n.fraction)
  {
    AllDigitsAppend(n.whole, n.fraction);
    var m := DigitsValue(n.whole + n.fraction);
    var shift := n.exponent - |n.fraction|;
    if shift >= 0 then m * Pow10(shift) else m / Pow10(-shift)
  }

  /** Out-of-range values saturate at the 64-bit bounds. */
  function Cap(v: int): (r: int)
    ensures LongMin <= r <= LongMax
    ensures LongMin <= v <= LongMax ==> r == v
    ensures v > LongMax ==> r == LongMax
    ensures v < LongMin ==> r == LongMin
  {
    if v > LongMax then LongMax else if v < LongMin then LongMin else v
  }

  /**
   * PHP's `(int)` of a string: the leading number after blanks, its fraction
   * cut off and saturated at the 64-bit bounds; 0 when the string does not
   * start with a number.
   */
  function IntCast(s: string): (n: int)
    ensures LongMin <= n <= LongMax
    ensures ReadNumeral(s).None? ==> n == 0
  {
    match ReadNumeral(s)
    case None => 0
    case Some(num) => Cap(if num.negative then -(Magnitude(num) as int) else Magnitude(num))
  }

  /** Without an `e` or `E` in front there is no exponent. */
  lemma NoExponent(s: string)
    requires s == [] || (s[0] != 'e' && s[0] != 'E')
    ensures ExponentOf(s) == 0
  {
  }

  /** A number whose digits are followed by neither a digit nor a point has no fraction. */
  lemma ReadWhole(s: string, d: string, rest: string)
    requires SkipSpace(s)[SignLength(SkipSpace(s))..] == d + rest
    requires AllDigits(d) && d != []
    requires rest == [] || (!IsDigit(rest[0]) && rest[0] != '.')
    ensures ReadNumeral(s) == Some(Numeral(Negative(SkipSpace(s)), d, [], ExponentOf(rest)))
  {
    LeadingDigitsStop(d, rest);
    assert (d + rest)[|d|..] == rest;
  }

  /**
   * Blanks, an optional sign, digits, then the end or a blank read as a
   * numeral of those digits with no fraction and no exponent.
   */
  lemma ReadSigned(lead: string, sign: string, d: string, trail: string)
    requires forall i :: 0 <= i < |lead| ==> NumericSpace(lead[i])
    requires sign == "" || sign == "-" || sign == "+"
    requires AllDigits(d) && d != []
    requires trail == [] || NumericSpace(trail[0])
    ensures ReadNumeral(lead + sign + d + trail) == Some(Numeral(sign == "-", d, [], 0))
  {
    var t := sign + d + trail;
    assert lead + sign + d + trail == lead + t;
    assert t[SignLength(t)..] == d + trail && Negative(t) == (sign == "-") && !NumericSpace(t[0]) by {
      if sign == "" {
        assert t == d + trail;
      } else {
        assert t[1..] == d + trail;
      }
    }
    assert SkipSpace(lead + t) == t by {
      SkipSpaceLead(lead, t);
    }
    ReadWhole(lead + t, d, trail);
    NoExponent(trail);
  }

  /** Digits alone, with no fraction and no exponent, have their own value. */
  lemma MagnitudeWhole(negative: bool, d: string)
    requires AllDigits(d)
    ensures Magnitude(Numeral(negative, d, [], 0)) == DigitsValue(d)
  {
    assert d + [] == d;
    assert Pow10(0) == 1;
  }

  /**
   * The cast of a signed integer written between blanks is its value: blanks,
   * an optional sign, digits, then the end or a blank.
   */
  lemma IntCastOfSigned(lead: string, sign: string, d: string, trail: string)
    requires forall i :: 0 <= i < |lead| ==> NumericSpace(lead[i])
    requires sign == "" || sign == "-" || sign == "+"
    requires AllDigits(d) && d != []
    requires trail == [] || NumericSpace(trail[0])
    ensures IntCast(lead + sign + d + trail) == Cap(if sign == "-" then -(DigitsValue(d) as int) else DigitsValue(d))
  {
    ReadSigned(lead, sign, d, trail);
    MagnitudeWhole(sign == "-", d);
  }

  /** The cast of a string of digits within range is its value. */
  lemma IntCastDigits(s: string)
    requires AllDigits(s) && DigitsValue(s) <= LongMax
    ensures IntCast(s) == DigitsValue(s)
  {
    if s != [] {
      assert SkipSpace(s) == s by { assert !NumericSpace(s[0]); }
      assert s[SignLength(s)..] == s + [] by { assert SignLength(s) == 0; }
      ReadWhole(s, s, []);
      NoExponent([]);
      MagnitudeWhole(false, s);
    }
  }

  /** The cast of four digits is their value. */
  lemma IntCastFourDigits(s: string)
    requires |s| == 4 && AllDigits(s)
    ensures IntCast(s) == DigitsValue(s)
  {
    DigitsValueBound(s);
    assert Pow10(4) == 10000;
    IntCastDigits(s);
  }

  /** `"19e2"` reads as 19 with exponent 2. */
  lemma ReadExponentExample(s: string)
    requires s == "19e2"
    ensures ReadNumeral(s) == Some(Numeral(false, "19", [], 2))
  {
    assert SkipSpace(s) == s by { assert !NumericSpace(s[0]); }
    assert s[SignLength(s)..] == "19" + "e2" by { assert SignLength(s) == 0; }
    var e := "e2";
    assert ExponentOf(e) == 2 by {
      var t := e[1..];
      assert t == "2" && SignLength(t) == 0 && t[0..] == "2" + "";
      LeadingDigitsStop("2", "");
      assert DigitsValue("2") == 2 by { assert "2"[..0] == ""; }
    }
    assert AllDigits("19") && e[0] == 'e';
    ReadWhole(s, "19", e);
  }

  /** A year written with an exponent: `(int) "19e2"` is 1900. */
  lemma IntCastExponent(s: string)
    requires s == "19e2"
    ensures IntCast(s) == 1900
  {
    ReadExponentExample(s);
    var n := Numeral(false, "19", [], 2);
    assert Magnitude(n) == 1900 by {
      assert n.whole + n.fraction == "19";
      assert DigitsValue("19") == 19 by { assert "19"[..1] == "1" && "1"[..0] == ""; }
      assert Pow10(2) == 100;
    }
  }

  /** Text that starts with a letter has no leading number, so it casts to 0. */
  lemma LetterCastsToZero(s: string)
    requires s != [] && ('a' <= s[0] <= 'z' || 'A' <= s[0] <= 'Z')
    ensures IntCast(s) == 0
  {
    assert SkipSpace(s) == s by {
      assert !NumericSpace(s[0]);
    }
    assert SignLength(s) == 0 && s[0..] == s;
    assert ReadNumeral(s).None? by {
      assert !IsDigit(s[0]) && s[0] != '.';
    }
  }

  /** The blanks the validation filters trim: space, tab, return, vertical tab, newline. */
  predicate FilterSpace(c: char)
  {
    c == ' ' || c == '\t' || c == '\r' || c == '\U{B}' || c == '\n'
  }

  /** The number of filter blanks a string starts with. */
  function LeadBlanks(s: string): (k: nat)
    ensures k <= |s| && (forall i :: 0 <= i < k ==> FilterSpace(s[i]))
    ensures k == |s| || !FilterSpace(s[k])
  {
    if 0 < |s| && FilterSpace(s[0]) then 1 + LeadBlanks(s[1..]) else 0
  }

  /** The number of filter blanks a string ends with. */
  function TrailBlanks(s: string): (k: nat)
    ensures k <= |s| && (forall i :: |s| - k <= i < |s| ==> FilterSpace(s[i]))
    ensures k == |s| || !FilterSpace(s[|s| - k - 1])
  {
    if 0 < |s| && FilterSpace(s[|s| - 1]) then 1 + TrailBlanks(s[..|s| - 1]) else 0
  }

  /** The string without its leading and then its trailing filter blanks. */
  function FilterTrim(s: string): (r: string)
    ensures r == [] || (!FilterSpace(r[0]) && !FilterSpace(r[|r| - 1]))
  {
    var a := s[LeadBlanks(s)..];
    a[..|a| - TrailBlanks(a)]
  }

  /**
   * Text `FILTER_VALIDATE_INT` accepts, once trimmed: an optional sign and
   * then `0` (so `+0` and `-0` too), or digits without a leading zero within
   * the 64-bit range.
   */
  predicate IntegerText(s: string)
  {
    var t := FilterTrim(s);
    var d := t[SignLength(t)..];
    d == "0" || (d != [] && AllDigits(d) && d[0] != '0' && LongMin <= SignedDigits(t) <= LongMax)
  }

  /** The value of a sign and digits. */
  function SignedDigits(t: string): int
    requires AllDigits(t[SignLength(t)..])
  {
    var d := t[SignLength(t)..];
    if Negative(t) then -(DigitsValue(d) as int) else DigitsValue(d)
  }

  /** The integer the filter gives for accepted text. */
  function FilterInt(s: string): (n: int)
    requires IntegerText(s)
    ensures LongMin <= n <= LongMax
  {
    var t := FilterTrim(s);
    if t[SignLength(t)..] == "0" then 0 else SignedDigits(t)
  }

  /** Text without filter blanks is its own trim. */
  lemma BlanklessTrim(s: string)
    requires forall i :: 0 <= i < |s| ==> !FilterSpace(s[i])
    ensures FilterTrim(s) == s
  {
    assert LeadBlanks(s) == 0;
    assert s[0..] == s;
    assert TrailBlanks(s) == 0;
  }

  /** Digits without a leading zero, within range, pass the filter as their value. */
  lemma IntegerTextDigits(s: string)
    requires s != [] && AllDigits(s) && s[0] != '0' && DigitsValue(s) <= LongMax
    ensures IntegerText(s) && FilterInt(s) == DigitsValue(s)
  {
    BlanklessTrim(s);
    assert SignLength(s) == 0 && s[0..] == s;
  }

  /** Blank-free text with a character that is neither a digit nor a leading sign fails the filter. */
  lemma NotIntegerText(s: string, k: nat)
    requires forall i :: 0 <= i < |s| ==> !FilterSpace(s[i])
    requires k < |s| && !IsDigit(s[k]) && (k == 0 ==> s[0] != '-' && s[0] != '+')
    ensures !IntegerText(s)
  {
    BlanklessTrim(s);
    var d := s[SignLength(s)..];
    if k >= SignLength(s) {
      assert d[k - SignLength(s)] == s[k];
    }
  }

  /** A string is its leading blanks, its trimmed text and its trailing blanks. */
  lemma TrimmedParts(s: string) returns (lead: string, trail: string)
    ensures s == lead + FilterTrim(s) + trail
    ensures forall i :: 0 <= i < |lead| ==> NumericSpace(lead[i])
    ensures trail == [] || NumericSpace(trail[0])
  {
    var k := LeadBlanks(s);
    var a := s[k..];
    var j := TrailBlanks(a);
    lead, trail := s[..k], a[|a| - j..];
    assert s == lead + a;
    assert a == FilterTrim(s) + trail by {
      assert FilterTrim(s) == a[..|a| - j];
    }
    AppendAssoc(lead, FilterTrim(s), trail);
    assert forall i :: 0 <= i < |lead| ==> lead[i] == s[i];
    if trail != [] {
      assert trail[0] == a[|a| - j];
    }
  }

  /** Accepted text, trimmed, is a sign and digits whose signed value is the filter's. */
  lemma FilterIntParts(s: string) returns (sign: string, d: string)
    requires IntegerText(s)
    ensures FilterTrim(s) == sign + d
    ensures (sign == "" || sign == "-" || sign == "+") && AllDigits(d) && d != []
    ensures FilterInt(s) == if sign == "-" then -(DigitsValue(d) as int) else DigitsValue(d)
  {
    var t := FilterTrim(s);
    sign, d := t[..SignLength(t)], t[SignLength(t)..];
    assert t == sign + d;
    if SignLength(t) == 1 {
      assert sign == [t[0]];
    }
    if d == "0" {
      assert DigitsValue(d) == 0;
    }
  }

  /** The signed zeros pass the filter, as 0. */
  lemma SignedZeroIsInteger(plus: string, minus: string)
    requires plus == "+0" && minus == "-0"
    ensures IntegerText(plus) && FilterInt(plus) == 0
    ensures IntegerText(minus) && FilterInt(minus) == 0
  {
    BlanklessTrim(plus);
    assert plus[SignLength(plus)..] == "0";
    BlanklessTrim(minus);
    assert minus[SignLength(minus)..] == "0";
  }

  /** For text the integer filter accepts, the filter's value is PHP's `(int)` of the text. */
  lemma FilterIntIsCast(s: string)
    requires IntegerText(s)
    ensures FilterInt(s) == IntCast(s)
  {
    var lead, trail := TrimmedParts(s);
    var sign, d := FilterIntParts(s);
    IntCastOfParts(s, lead, sign, d, trail);
    var v := if sign == "-" then -(DigitsValue(d) as int) else DigitsValue(d);
    assert FilterInt(s) == v;
    assert Cap(v) == v;
  }

  /** `IntCastOfSigned` for a string given as its parts. */
  lemma IntCastOfParts(s: string, lead: string, sign: string, d: string, trail: string)
    requires s == lead + (sign + d) + trail
    requires forall i :: 0 <= i < |lead| ==> NumericSpace(lead[i])
    requires sign == "" || sign == "-" || sign == "+"
    requires AllDigits(d) && d != []
    requires trail == [] || NumericSpace(trail[0])
    ensures IntCast(s) == Cap(if sign == "-" then -(DigitsValue(d) as int) else DigitsValue(d))
  {
    AppendAssoc(lead, sign, d);
    IntCastOfSigned(lead, sign, d, trail);
  }

  lemma AppendAssoc(a: string, b: string, c: string)
    ensures a + (b + c) == a + b + c
  {
  }
}
