/** JavaScript's global `parseInt(string)` with no radix argument, as the
    verifier applies it to `auth_date`: skip leading white space, read an
    optional sign, read a `0x`/`0X` prefix as radix 16 (otherwise radix 10),
    then take the longest run of digits. No digits at all gives NaN, modelled
    as `None`. */
module JsParseInt {

  import opened Values

  /** The ASCII and Unicode line/space characters that `parseInt` skips
      (the remaining Unicode space separators are not modelled). */
  predicate IsWhiteSpace(c: char)
  {
    c == ' ' || c == '\t' || c == '\n' || c == '\r' || c == '\U{B}' || c == '\U{C}'
    || c == '\U{A0}' || c == '\U{FEFF}' || c == '\U{2028}' || c == '\U{2029}'
  }

  function TrimStart(s: string): (r: string)
    ensures |r| <= |s| && r == s[|s| - |r|..]
    ensures r == [] || !IsWhiteSpace(r[0])
  {
    if s != [] && IsWhiteSpace(s[0]) then TrimStart(s[1..]) else s
  }

  /** The value of a digit in radix up to 36, or -1. */
  function DigitValue(c: char): (d: int)
    ensures -1 <= d < 36
  {
    if '0' <= c <= '9' then c as int - '0' as int
    else if 'a' <= c <= 'z' then c as int - 'a' as int + 10
    else if 'A' <= c <= 'Z' then c as int - 'A' as int + 10
    else -1
  }

  predicate IsDigit(c: char, radix: int)
  {
    0 <= DigitValue(c) < radix
  }

  /** Length of the longest prefix of `s` made of digits of `radix`. */
  function DigitRun(s: string, radix: int): (n: nat)
    ensures n <= |s|
    ensures forall i :: 0 <= i < n ==> IsDigit(s[i], radix)
    ensures n < |s| ==> !IsDigit(s[n], radix)
  {
    if s == [] || !IsDigit(s[0], radix) then 0 else 1 + DigitRun(s[1..], radix)
  }

  /** The number written by a run of digits, most significant first. */
  function Magnitude(digits: string, radix: nat): (m: int)
    requires forall i :: 0 <= i < |digits| ==> IsDigit(digits[i], radix)
    ensures m >= 0
  {
    if digits == [] then 0
    else
      var high := Magnitude(digits[..|digits| - 1], radix);
      var low := DigitValue(digits[|digits| - 1]);
      assert IsDigit(digits[|digits| - 1], radix);
      ScaledDigitNonNegative(high, radix, low);
      high * radix + low
  }

  lemma ScaledDigitNonNegative(high: int, radix: nat, low: int)
    requires high >= 0 && low >= 0
    ensures high * radix + low >= 0
  {
  }

  /** Drops one leading `-` or `+`. */
  function StripSign(t: string): string
  {
    if t != [] && (t[0] == '-' || t[0] == '+') then t[1..] else t
  }

  predicate HasHexPrefix(u: string)
  {
    |u| >= 2 && u[0] == '0' && (u[1] == 'x' || u[1] == 'X')
  }

  /** The value of the leading digit run of `v`, or NaN when there is none. */
  function LeadingNumber(v: string, radix: nat, negative: bool): Option<int>
  {
    var n := DigitRun(v, radix);
    if n == 0 then None
    else
      var m := Magnitude(v[..n], radix);
      Some(if negative then -m else m)
  }

  /** `parseInt(s)`: NaN exactly when no digit follows the white space, the
      sign and the radix prefix; a negative result needs a leading `-`. */
  function ParseInt(s: string): (r: Option<int>)
    ensures var u := StripSign(TrimStart(s));
      r.None? <==> (if HasHexPrefix(u) then DigitRun(u[2..], 16) else DigitRun(u, 10)) == 0
    ensures r.Some? && r.value < 0 ==> TrimStart(s) != [] && TrimStart(s)[0] == '-'
  {
    var t := TrimStart(s);
    var u := StripSign(t);
    var negative := t != [] && t[0] == '-';
    if HasHexPrefix(u) then LeadingNumber(u[2..], 16, negative)
    else LeadingNumber(u, 10, negative)
  }

  // ---------------------------------------------------------------- decimal rendering

  function DecimalDigit(d: int): (c: char)
    requires 0 <= d < 10
    ensures DigitValue(c) == d
  {
    "0123456789"[d]
  }

  /** The decimal numeral of a natural number, without leading zeros. */
  function Decimal(n: nat): (s: string)
    ensures s != []
    ensures forall i :: 0 <= i < |s| ==> IsDigit(s[i], 10)
  {
    if n < 10 then [DecimalDigit(n)] else Decimal(n / 10) + [DecimalDigit(n % 10)]
  }

  /** `String(n)` for an integer `n`. */
  function DecimalString(n: int): string
  {
    if n < 0 then "-" + Decimal(-n) else Decimal(n)
  }

  lemma {:induction false} MagnitudeDecimal(n: nat)
    ensures Magnitude(Decimal(n), 10) == n
  {
    if n >= 10 {
      var s := Decimal(n);
      assert s[..|s| - 1] == Decimal(n / 10);
      MagnitudeDecimal(n / 10);
    }
  }

  lemma LeadingNumberDecimal(n: int, negative: bool)
    requires n >= 0
    ensures LeadingNumber(Decimal(n), 10, negative) == Some(if negative then -n else n)
  {
    var d := Decimal(n);
    assert DigitRun(d, 10) == |d|;
    assert d[..|d|] == d;
    MagnitudeDecimal(n);
  }

  lemma ParseIntDecimalDigits(n: nat, sign: string)
    requires sign == "" || sign == "-"
    ensures ParseInt(sign + Decimal(n)) == LeadingNumber(Decimal(n), 10, sign == "-")
  {
    var s := sign + Decimal(n);
    var d := Decimal(n);
    assert IsDigit(d[0], 10);
    assert !IsWhiteSpace(s[0]) by {
      assert s[0] == '-' || s[0] == d[0];
    }
    assert TrimStart(s) == s;
    assert StripSign(s) == d by {
      if sign == "" { assert s == d; } else { assert s[1..] == d; }
    }
    assert !HasHexPrefix(d) by {
      if |d| >= 2 { assert IsDigit(d[1], 10); }
    }
  }

  /** `parseInt` reads back what `String` writes, for every integer. */
  lemma ParseIntDecimalString(n: int)
    ensures ParseInt(DecimalString(n)) == Some(n)
  {
    var m: nat := if n < 0 then -n else n;
    var sign := if n < 0 then "-" else "";
    assert DecimalString(n) == sign + Decimal(m);
    ParseIntDecimalDigits(m, sign);
    LeadingNumberDecimal(m, n < 0);
  }
}
