/**
 * The number <-> text conversions of JavaScript that the application uses:
 * `parseInt`, `parseFloat` and `Number.prototype.toString` on non-negative
 * integers.  A parse that finds no digits is JavaScript's `NaN`, here `None`.
 */
module Numbers {
  import opened Wrappers
  import Strings

  predicate IsDigit(c: char)
  {
    '0' <= c <= '9'
  }

  predicate AllDigits(s: string)
  {
    forall i :: 0 <= i < |s| ==> IsDigit(s[i])
  }

  function DigitValue(c: char): (d: nat)
    requires IsDigit(c)
    ensures d < 10
  {
    (c as int - '0' as int) as nat
  }

  function DigitChar(d: nat): (c: char)
    requires d < 10
    ensures IsDigit(c) && DigitValue(c) == d
  {
    ('0' as int + d) as char
  }

  function Pow10(k: nat): (p: nat)
    ensures p >= 1
  {
    if k == 0 then 1 else 10 * Pow10(k - 1)
  }

  /** The value of a string of decimal digits, most significant first. */
  function DigitsValue(ds: string): (v: nat)
    requires AllDigits(ds)
    ensures v < Pow10(|ds|)
  {
    if ds == [] then 0
    else DigitsValue(ds[..|ds| - 1]) * 10 + DigitValue(ds[|ds| - 1])
  }

  /** The longest prefix of `s` made of digits. */
  function DigitPrefix(s: string): (ds: string)
    ensures |ds| <= |s| && ds == s[..|ds|]
    ensures AllDigits(ds)
    ensures |ds| < |s| ==> !IsDigit(s[|ds|])
  {
    if s != [] && IsDigit(s[0]) then [s[0]] + DigitPrefix(s[1..]) else ""
  }

  /** Decimal text of a natural number, without leading zeros. */
  function NatToString(n: nat): (s: string)
    ensures |s| >= 1 && AllDigits(s)
    ensures |s| > 1 ==> s[0] != '0'
  {
    if n < 10 then [DigitChar(n)] else NatToString(n / 10) + [DigitChar(n % 10)]
  }

  /** `parseInt` in base 10: leading whitespace, an optional sign, then the
      longest run of digits; whatever follows is ignored. */
  function ParseInt(s: string): (r: Option<int>)
  {
    var t := Strings.TrimStart(s);
    var rest := Unsigned(t);
    var ds := DigitPrefix(rest);
    if ds == [] then None
    else if Negative(t) then Some(-(DigitsValue(ds) as int))
    else Some(DigitsValue(ds))
  }

  /** An exact decimal number `mantissa / 10^scale`. */
  datatype Decimal = Decimal(mantissa: int, scale: nat)

  /** `parseFloat` without exponent notation: an optional sign, digits, and
      optionally '.' followed by digits; at least one digit overall. */
  function ParseFloat(s: string): (r: Option<Decimal>)
  {
    var t := Strings.TrimStart(s);
    match UnsignedDecimal(Unsigned(t))
    case None => None
    case Some(d) => Some(if Negative(t) then Decimal(-d.mantissa, d.scale) else d)
  }

  /** The digits, and optionally '.' and more digits, at the start of `rest`. */
  function UnsignedDecimal(rest: string): (r: Option<Decimal>)
    ensures r.Some? ==> r.value.mantissa >= 0
  {
    var whole := DigitPrefix(rest);
    var after := rest[|whole|..];
    var fraction := if after != [] && after[0] == '.' then DigitPrefix(after[1..]) else "";
    if whole == [] && fraction == [] then None
    else Some(Decimal(DigitsValue(whole + fraction), |fraction|))
  }

  predicate Negative(t: string)
  {
    t != [] && t[0] == '-'
  }

  /** `t` without a leading sign character. */
  function Unsigned(t: string): string
  {
    if t != [] && (t[0] == '-' || t[0] == '+') then t[1..] else t
  }

  lemma {:induction false} DigitPrefixOfDigits(ds: string)
    requires AllDigits(ds)
    ensures DigitPrefix(ds) == ds
    decreases |ds|
  {
    if ds != [] {
      DigitPrefixOfDigits(ds[1..]);
    }
  }

  /** Reading back the decimal text of a number gives the number. */
  lemma {:induction false} NatToStringValue(n: nat)
    ensures DigitsValue(NatToString(n)) == n
  {
    if n >= 10 {
      NatToStringValue(n / 10);
      var s := NatToString(n);
      assert s[..|s| - 1] == NatToString(n / 10);
    }
  }

  /** `parseInt(String(n)) === n` for every non-negative integer. */
  lemma ParseIntOfNatToString(n: nat)
    ensures ParseInt(NatToString(n)) == Some(n)
  {
    var s := NatToString(n);
    assert !Strings.IsSpace(s[0]) && s[0] != '-' && s[0] != '+';
    assert Strings.TrimStart(s) == s;
    DigitPrefixOfDigits(s);
    NatToStringValue(n);
  }

  /** `parseInt('-' + String(n)) === -n`. */
  lemma ParseIntOfNegative(n: nat)
    ensures ParseInt("-" + NatToString(n)) == Some(-(n as int))
  {
    var s := "-" + NatToString(n);
    assert Strings.TrimStart(s) == s;
    assert Unsigned(s) == NatToString(n);
    DigitPrefixOfDigits(NatToString(n));
    NatToStringValue(n);
  }

  /** Digits after the digit prefix are ignored: `parseInt("12abc") === 12`. */
  lemma ParseIntIgnoresTrailer(n: nat, trailer: string)
    requires trailer == [] || !IsDigit(trailer[0])
    ensures ParseInt(NatToString(n) + trailer) == Some(n)
  {
    ParseIntOfDigitsThen(NatToString(n), trailer);
    NatToStringValue(n);
  }

  /** A run of digits reads as its value. */
  lemma ParseIntOfDigits(ds: string)
    requires ds != [] && AllDigits(ds)
    ensures ParseInt(ds) == Some(DigitsValue(ds))
  {
    ParseIntOfDigitsThen(ds, []);
    assert ds + [] == ds;
  }

  /** Digits followed by a non-digit read as the digits' value. */
  lemma ParseIntOfDigitsThen(ds: string, trailer: string)
    requires ds != [] && AllDigits(ds)
    requires trailer == [] || !IsDigit(trailer[0])
    ensures ParseInt(ds + trailer) == Some(DigitsValue(ds))
  {
    var s := ds + trailer;
    assert s[0] == ds[0] && IsDigit(ds[0]);
    assert Strings.TrimStart(s) == s;
    assert Unsigned(s) == s;
    DigitPrefixSplit(ds, trailer);
  }

  lemma {:induction false} DigitPrefixSplit(ds: string, trailer: string)
    requires AllDigits(ds)
    requires trailer == [] || !IsDigit(trailer[0])
    ensures DigitPrefix(ds + trailer) == ds
    decreases |ds|
  {
    if ds == [] {
      assert ds + trailer == trailer;
    } else {
      assert (ds + trailer)[1..] == ds[1..] + trailer;
      DigitPrefixSplit(ds[1..], trailer);
    }
  }

  /** The value of concatenated digit strings. */
  lemma {:induction false} DigitsValueAppend(a: string, b: string)
    requires AllDigits(a) && AllDigits(b)
    ensures DigitsValue(a + b) == DigitsValue(a) * Pow10(|b|) + DigitsValue(b)
    decreases |b|
  {
    if b == [] {
      assert a + b == a;
    } else {
      var ab, b' := a + b, b[..|b| - 1];
      assert AllDigits(ab) && AllDigits(b');
      assert ab[..|ab| - 1] == a + b';
      assert ab[|ab| - 1] == b[|b| - 1];
      DigitsValueAppend(a, b');
      ShiftDigit(DigitsValue(a), Pow10(|b'|), DigitsValue(b'), DigitValue(b[|b| - 1]));
    }
  }

  lemma ShiftDigit(x: nat, p: nat, y: nat, d: nat)
    ensures (x * p + y) * 10 + d == x * (10 * p) + (y * 10 + d)
  {
  }

  /** `parseFloat` of "w.d" with one fraction digit is w + d/10, i.e. 10*w + d tenths. */
  lemma ParseFloatTenths(ws: string, c: char, text: string)
    requires ws != [] && AllDigits(ws) && IsDigit(c) && text == ws + "." + [c]
    ensures ParseFloat(text) == Some(Decimal(10 * DigitsValue(ws) + DigitValue(c), 1))
  {
    OneDecimal(ws, c, text);
    assert text[0] == ws[0];
    PlainStart(text);
  }

  /** Digits, a point and one digit read as tenths. */
  lemma OneDecimal(ws: string, c: char, text: string)
    requires AllDigits(ws) && IsDigit(c) && text == ws + "." + [c]
    ensures UnsignedDecimal(text) == Some(Decimal(10 * DigitsValue(ws) + DigitValue(c), 1))
  {
    WholeBeforePoint(ws, c);
    DigitPrefixOfDigits([c]);
    DigitsValueSnoc(ws, c);
  }

  /** The whole part of "w.d" is w, and the point and d follow it. */
  lemma WholeBeforePoint(ws: string, c: char)
    requires AllDigits(ws)
    ensures DigitPrefix(ws + "." + [c]) == ws
    ensures (ws + "." + [c])[|ws|..] == ['.', c] && ['.', c][1..] == [c]
  {
    assert ws + "." + [c] == ws + ['.', c];
    DigitPrefixSplit(ws, ['.', c]);
  }

  /** One more digit at the end multiplies by ten and adds it. */
  lemma DigitsValueSnoc(ws: string, c: char)
    requires AllDigits(ws) && IsDigit(c)
    ensures DigitsValue(ws + [c]) == 10 * DigitsValue(ws) + DigitValue(c)
  {
    assert (ws + [c])[..|ws|] == ws;
  }

  /** Text that starts with a digit is read without sign or whitespace. */
  lemma PlainStart(s: string)
    requires s != [] && IsDigit(s[0])
    ensures ParseFloat(s) == UnsignedDecimal(s)
  {
    assert !Strings.IsSpace(s[0]);
    assert Strings.TrimStart(s) == s;
    assert Unsigned(s) == s;
  }

  /** `parseFloat` of an integer's text is that integer, with no fraction digits. */
  lemma ParseFloatOfNatToString(n: nat)
    ensures ParseFloat(NatToString(n)) == Some(Decimal(n, 0))
  {
    var s := NatToString(n);
    PlainStart(s);
    DigitPrefixOfDigits(s);
    assert s[|s|..] == [] && s + "" == s;
    NatToStringValue(n);
  }

  /** Text that starts with something other than whitespace, a sign or a
      digit is `NaN`. */
  lemma ParseIntNoDigits(s: string)
    requires s != [] && !Strings.IsSpace(s[0]) && s[0] != '-' && s[0] != '+' && !IsDigit(s[0])
    ensures ParseInt(s).None?
  {
  }
}
