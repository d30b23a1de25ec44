/**
 * The string primitives the app relies on: JavaScript's `String.prototype.trim`,
 * `Number.prototype.toString()` on integers and `parseInt(text, 10)`.
 */
module Text {
  import opened Wrappers

  /** JavaScript's WhiteSpace and LineTerminator code points: what `trim` and `parseInt` skip. */
  predicate IsWhitespace(c: char) {
    c == '\t' || c == '\n' || c == '\U{000B}' || c == '\U{000C}' || c == '\r' || c == ' '
    || c == '\U{00A0}' || c == '\U{1680}' || ('\U{2000}' <= c <= '\U{200A}')
    || c == '\U{2028}' || c == '\U{2029}' || c == '\U{202F}' || c == '\U{205F}'
    || c == '\U{3000}' || c == '\U{FEFF}'
  }

  predicate AllWhitespace(s: string) {
    forall i :: 0 <= i < |s| ==> IsWhitespace(s[i])
  }

  /** Drops leading whitespace. */
  function TrimStart(s: string): string
  {
    if s != [] && IsWhitespace(s[0]) then TrimStart(s[1..]) else s
  }

  /** Drops trailing whitespace. */
  function TrimEnd(s: string): string
  {
    if s != [] && IsWhitespace(s[|s| - 1]) then TrimEnd(s[..|s| - 1]) else s
  }

  /** `TrimStart` leaves a suffix of `s` that does not start with whitespace, and drops only whitespace. */
  lemma {:induction false} TrimStartDropsWhitespace(s: string)
    ensures var r := TrimStart(s);
      |r| <= |s| && r == s[|s| - |r|..] && AllWhitespace(s[..|s| - |r|])
      && (r == [] || !IsWhitespace(r[0]))
  {
    if s != [] && IsWhitespace(s[0]) {
      TrimStartDropsWhitespace(s[1..]);
      var r := TrimStart(s);
      assert s[1..][..|s| - 1 - |r|] == s[1..|s| - |r|];
      assert s[1..][|s| - 1 - |r|..] == s[|s| - |r|..];
    }
  }

  /** `TrimEnd` leaves a prefix of `s` that does not end with whitespace, and drops only whitespace. */
  lemma {:induction false} TrimEndDropsWhitespace(s: string)
    ensures var r := TrimEnd(s);
      |r| <= |s| && r == s[..|r|] && AllWhitespace(s[|r|..])
      && (r == [] || !IsWhitespace(r[|r| - 1]))
  {
    if s != [] && IsWhitespace(s[|s| - 1]) {
      TrimEndDropsWhitespace(s[..|s| - 1]);
      var r := TrimEnd(s);
      assert s[..|s| - 1][..|r|] == s[..|r|];
      forall i | |r| <= i < |s| ensures IsWhitespace(s[i]) {
        if i < |s| - 1 {
          assert s[i] == s[..|s| - 1][|r|..][i - |r|];
        }
      }
    }
  }

  /** `s.trim()`: the slice of `s` left after removing whitespace at both ends. */
  function Trim(s: string): (r: string)
    ensures |r| <= |s|
    ensures r == [] || (!IsWhitespace(r[0]) && !IsWhitespace(r[|r| - 1]))
  {
    TrimStartDropsWhitespace(s);
    TrimEndDropsWhitespace(TrimStart(s));
    TrimEnd(TrimStart(s))
  }

  /** `s.trim()` is empty exactly when `s` holds only whitespace; otherwise it starts and ends with a non-space. */
  lemma TrimEmptyIff(s: string)
    ensures Trim(s) == [] <==> AllWhitespace(s)
    ensures Trim(s) != [] ==> !IsWhitespace(Trim(s)[0]) && !IsWhitespace(Trim(s)[|Trim(s)| - 1])
  {
    TrimStartDropsWhitespace(s);
    var t := TrimStart(s);
    TrimEndDropsWhitespace(t);
    var k := |s| - |t|;
    if Trim(s) == [] {
      assert AllWhitespace(t[0..]);
      assert s[..k] == s;
    }
    if t != [] {
      assert t[0] == s[k] && !IsWhitespace(s[k]);
    }
  }

  predicate IsDigit(c: char) {
    '0' <= c <= '9'
  }

  predicate AllDigits(s: string) {
    forall i :: 0 <= i < |s| ==> IsDigit(s[i])
  }

  function DigitChar(d: nat): (c: char)
    requires d < 10
    ensures IsDigit(c)
  {
    (d + '0' as int) as char
  }

  function DigitValue(c: char): (d: nat)
    requires IsDigit(c)
    ensures d < 10 && DigitChar(d) == c
  {
    c as int - '0' as int
  }

  /** The decimal numeral of `n`, without leading zeros: what `String(n)` gives for a non-negative integer. */
  function NatToDecimal(n: nat): (r: string)
    ensures r != [] && AllDigits(r)
    ensures r[0] == '0' ==> n == 0 && r == "0"
  {
    if n < 10 then [DigitChar(n)] else NatToDecimal(n / 10) + [DigitChar(n % 10)]
  }

  /** `String(n)` for any integer `n`. */
  function IntToDecimal(n: int): (r: string)
    ensures r != []
    ensures n < 0 <==> r[0] == '-'
  {
    if n < 0 then "-" + NatToDecimal(-n) else NatToDecimal(n)
  }

  /** The value of a string of decimal digits (most significant first). */
  function DigitsValue(d: string): nat
    requires AllDigits(d)
  {
    if d == [] then 0 else DigitsValue(d[..|d| - 1]) * 10 + DigitValue(d[|d| - 1])
  }

  /** The longest prefix of `s` made of decimal digits. */
  function DigitPrefix(s: string): (r: string)
    ensures |r| <= |s| && r == s[..|r|] && AllDigits(r)
    ensures |r| == |s| || !IsDigit(s[|r|])
  {
    if s != [] && IsDigit(s[0]) then [s[0]] + DigitPrefix(s[1..]) else []
  }

  /**
   * `parseInt(s, 10)`: skip leading whitespace, read an optional sign and the
   * longest run of digits after it; no digit at all is NaN, modelled as None.
   */
  function ParseInt(s: string): (r: Option<int>)
    ensures r.Some? ==> var t := TrimStart(s); t != [] && (IsDigit(t[0]) || t[0] == '-' || t[0] == '+')
    ensures var t := TrimStart(s); t != [] && IsDigit(t[0]) ==> r.Some? && r.value >= 0
  {
    ParseSigned(TrimStart(s))
  }

  /** The part of `parseInt` after the leading whitespace: an optional sign, then digits. */
  function ParseSigned(t: string): Option<int>
  {
    var negative := t != [] && t[0] == '-';
    var unsigned := if t != [] && (t[0] == '-' || t[0] == '+') then t[1..] else t;
    var digits := DigitPrefix(unsigned);
    if digits == [] then None
    else Some(if negative then -(DigitsValue(digits) as int) else DigitsValue(digits))
  }

  lemma {:induction false} DigitsValueOfDecimal(n: nat)
    ensures DigitsValue(NatToDecimal(n)) == n
  {
    if n >= 10 {
      DigitsValueOfDecimal(n / 10);
      var d := NatToDecimal(n);
      assert d[..|d| - 1] == NatToDecimal(n / 10);
    }
  }

  /** The digit run read from `digits + rest` is exactly `digits` when `rest` does not continue it. */
  lemma {:induction false} DigitPrefixOfNumeral(digits: string, rest: string)
    requires AllDigits(digits)
    requires rest == [] || !IsDigit(rest[0])
    ensures DigitPrefix(digits + rest) == digits
  {
    if digits != [] {
      assert (digits + rest)[1..] == digits[1..] + rest;
      DigitPrefixOfNumeral(digits[1..], rest);
    } else {
      assert digits + rest == rest;
    }
  }

  /** Text that does not start with whitespace has nothing to skip. */
  lemma TrimStartOfUnpadded(s: string)
    requires s != [] && !IsWhitespace(s[0])
    ensures TrimStart(s) == s
  {
  }

  /** An unsigned run of digits, followed by something that does not continue it, reads as its value. */
  lemma ParseSignedOfDigits(d: string, rest: string)
    requires d != [] && AllDigits(d)
    requires rest == [] || !IsDigit(rest[0])
    ensures ParseSigned(d + rest) == Some(DigitsValue(d))
  {
    var s := d + rest;
    assert s[0] == d[0];
    DigitPrefixOfNumeral(d, rest);
  }

  /** A minus sign followed by a run of digits reads as the negated value. */
  lemma ParseSignedOfNegated(d: string)
    requires d != [] && AllDigits(d)
    ensures ParseSigned("-" + d) == Some(-(DigitsValue(d) as int))
  {
    var s := "-" + d;
    assert s[0] == '-' && s[1..] == d;
    DigitPrefixOfNumeral(d, []);
    assert d + [] == d;
  }

  /**
   * Reading a numeral that starts with its first digit: no whitespace or sign to
   * skip, and whatever follows the digits is ignored.
   */
  lemma ParseIntStopsAtNonDigit(d: string, rest: string)
    requires d != [] && AllDigits(d)
    requires rest == [] || !IsDigit(rest[0])
    ensures ParseInt(d + rest) == Some(DigitsValue(d))
  {
    assert (d + rest)[0] == d[0];
    TrimStartOfUnpadded(d + rest);
    ParseSignedOfDigits(d, rest);
  }

  lemma ParseIntOfDigits(d: string)
    requires d != [] && AllDigits(d)
    ensures ParseInt(d) == Some(DigitsValue(d))
  {
    ParseIntStopsAtNonDigit(d, []);
    assert d + [] == d;
  }

  /** Reading a numeral after a minus sign. */
  lemma ParseIntOfNegated(d: string)
    requires d != [] && AllDigits(d)
    ensures ParseInt("-" + d) == Some(-(DigitsValue(d) as int))
  {
    assert ("-" + d)[0] == '-';
    TrimStartOfUnpadded("-" + d);
    ParseSignedOfNegated(d);
  }

  /** Reading back a printed integer gives the integer: `parseInt(String(n), 10) == n`. */
  lemma ParseIntOfDecimal(n: int)
    ensures ParseInt(IntToDecimal(n)) == Some(n)
  {
    var m: nat := if n < 0 then -n else n;
    DigitsValueOfDecimal(m);
    if n < 0 {
      ParseIntOfNegated(NatToDecimal(m));
    } else {
      ParseIntOfDigits(NatToDecimal(m));
    }
  }
}
