/**
 * Decimal integer text, as Go's strconv.Atoi reads it on a 64-bit platform:
 * an optional '+' or '-' followed by one or more ASCII digits (leading zeros
 * allowed, no spaces, no underscores), whose value must fit the 64-bit `int`.
 * FormatInt is the reference rendering that the round-trip lemma pairs with it.
 */
module Decimal {
  import opened Wrappers

  /** Bounds of Go's `int` on a 64-bit platform. */
  const IntMin: int := -0x8000_0000_0000_0000
  const IntMax: int := 0x7FFF_FFFF_FFFF_FFFF

  predicate IsDigit(c: char) {
    '0' <= c <= '9'
  }

  predicate AllDigits(s: string) {
    forall i :: 0 <= i < |s| ==> IsDigit(s[i])
  }

  function DigitValue(c: char): (d: nat)
    requires IsDigit(c)
    ensures d < 10
  {
    c as int - '0' as int
  }

  function DigitChar(d: nat): (c: char)
    requires d < 10
    ensures IsDigit(c) && DigitValue(c) == d
  {
    ('0' as int + d) as char
  }

  /** The value of a run of decimal digits, read most significant first. */
  function DigitsValue(s: string): (n: nat)
    requires AllDigits(s)
    decreases |s|
  {
    if |s| == 0 then 0 else 10 * DigitsValue(s[..|s| - 1]) + DigitValue(s[|s| - 1])
  }

  /** The shortest decimal rendering of a natural number. */
  function FormatNat(n: nat): (s: string)
    ensures |s| > 0 && AllDigits(s)
    decreases n
  {
    if n < 10 then [DigitChar(n)] else FormatNat(n / 10) + [DigitChar(n % 10)]
  }

  /** The decimal rendering of an integer, with a '-' sign when negative. */
  function FormatInt(v: int): (s: string)
    ensures |s| > 0
    ensures v < 0 <==> s[0] == '-'
  {
    if v < 0 then "-" + FormatNat(-v) else FormatNat(v)
  }

  /**
   * strconv.Atoi: None when the text is not a decimal integer or its value
   * does not fit the 64-bit `int` (Go reports a syntax or a range error; the
   * callers here treat both alike).
   */
  function Atoi(s: string): (r: Option<int>)
    ensures r.Some? ==> IntMin <= r.value <= IntMax
    ensures r.Some? ==> |s| > 0
  {
    if |s| == 0 then None
    else
      var digits := if s[0] == '-' || s[0] == '+' then s[1..] else s;
      if |digits| == 0 || !AllDigits(digits) then None
      else
        var n: int := if s[0] == '-' then 0 - DigitsValue(digits) as int else DigitsValue(digits);
        if n < IntMin || n > IntMax then None else Some(n)
  }

  /** The digits after an optional leading sign. */
  function Unsigned(s: string): (u: string)
    ensures |u| <= |s|
  {
    if |s| > 0 && (s[0] == '-' || s[0] == '+') then s[1..] else s
  }

  /** A run of digits without its leading zeros. */
  function StripZeros(d: string): (t: string)
    ensures |t| <= |d|
    ensures |t| > 0 ==> t[0] != '0'
    ensures AllDigits(d) ==> AllDigits(t)
    decreases |d|
  {
    if |d| > 0 && d[0] == '0' then StripZeros(d[1..]) else d
  }

  /**
   * s spells v in decimal: an optional sign, then at least one digit, the
   * digits being the shortest rendering of |v| after any leading zeros; a
   * negative v carries a '-' and a positive one does not; v fits Go's `int`.
   */
  predicate SpellsDecimal(s: string, v: int) {
    var u := Unsigned(s);
    && IntMin <= v <= IntMax
    && |u| > 0 && AllDigits(u)
    && StripZeros(u) == (if v == 0 then "" else FormatNat(if v < 0 then -v else v))
    && (v < 0 ==> s[0] == '-')
    && (v > 0 ==> s[0] != '-')
  }

  lemma {:induction false} DigitsValueOfFormat(n: nat)
    ensures DigitsValue(FormatNat(n)) == n
    decreases n
  {
    if n >= 10 {
      var s := FormatNat(n);
      assert s[..|s| - 1] == FormatNat(n / 10);
      DigitsValueOfFormat(n / 10);
    }
  }

  /**
   * Atoi reads back every rendered integer: exactly the integers of Go's
   * 64-bit `int` come back unchanged, and every other integer is refused.
   */
  lemma AtoiFormatInt(v: int)
    ensures Atoi(FormatInt(v)) == if IntMin <= v <= IntMax then Some(v) else None
  {
    var s := FormatInt(v);
    if v < 0 {
      DigitsValueOfFormat(-v);
      assert s[1..] == FormatNat(-v);
    } else {
      DigitsValueOfFormat(v);
      assert IsDigit(s[0]);
    }
  }

  /** Leading zeros and an explicit '+' are accepted, as strconv.Atoi does. */
  lemma AtoiLeadingZerosAndPlus()
    ensures Atoi("007") == Some(7)
    ensures Atoi("+50") == Some(50)
    ensures Atoi("-0") == Some(0)
  {
    assert "007"[..2] == "00" && "00"[..1] == "0" && "0"[..0] == "";
    assert DigitsValue("00") == 0;
    assert "+50"[1..] == "50" && "50"[..1] == "5";
    assert "-0"[1..] == "0";
  }

  /** Text that is not a signed run of digits is refused. */
  lemma AtoiRefusesNonDecimal()
    ensures Atoi("") == None
    ensures Atoi("+") == None
    ensures Atoi("-") == None
    ensures Atoi(" 5") == None
    ensures Atoi("1.5") == None
    ensures Atoi("abc") == None
  {
  }

  /** A leading zero does not change the value of a run of digits. */
  lemma {:induction false} DigitsValueLeadingZero(d: string)
    requires AllDigits(d)
    ensures AllDigits(['0'] + d) && DigitsValue(['0'] + d) == DigitsValue(d)
    decreases |d|
  {
    var z := ['0'] + d;
    if |d| > 0 {
      assert z[..|z| - 1] == ['0'] + d[..|d| - 1];
      DigitsValueLeadingZero(d[..|d| - 1]);
    }
  }

  lemma {:induction false} DigitsValueStripZeros(d: string)
    requires AllDigits(d)
    ensures DigitsValue(StripZeros(d)) == DigitsValue(d)
    decreases |d|
  {
    if |d| > 0 && d[0] == '0' {
      DigitsValueStripZeros(d[1..]);
      assert ['0'] + d[1..] == d;
      DigitsValueLeadingZero(d[1..]);
    }
  }

  /** A run of digits is worth at least its first digit. */
  lemma {:induction false} DigitsValueAtLeastFirst(d: string)
    requires |d| > 0 && AllDigits(d)
    ensures DigitsValue(d) >= DigitValue(d[0])
    decreases |d|
  {
    if |d| > 1 {
      DigitsValueAtLeastFirst(d[..|d| - 1]);
    }
  }

  /** Digits without a leading zero are the shortest rendering of their value. */
  lemma {:induction false} CanonicalDigits(d: string)
    requires |d| > 0 && AllDigits(d) && d[0] != '0'
    ensures DigitsValue(d) > 0 && d == FormatNat(DigitsValue(d))
    decreases |d|
  {
    var n := DigitsValue(d);
    var c := d[|d| - 1];
    assert DigitChar(DigitValue(c)) == c;
    if |d| == 1 {
      assert d[..0] == "";
    } else {
      var p := d[..|d| - 1];
      CanonicalDigits(p);
      assert n == 10 * DigitsValue(p) + DigitValue(c);
      assert n / 10 == DigitsValue(p) && n % 10 == DigitValue(c);
      assert d == p + [c];
    }
  }

  /**
   * Atoi accepts exactly the texts that spell a 64-bit integer in decimal,
   * with optional sign and leading zeros, and returns that integer.
   */
  lemma AtoiSpellsDecimal(s: string, v: int)
    ensures Atoi(s) == Some(v) <==> SpellsDecimal(s, v)
  {
    var u := Unsigned(s);
    if |u| > 0 && AllDigits(u) {
      var t := StripZeros(u);
      DigitsValueStripZeros(u);
      if |t| > 0 {
        CanonicalDigits(t);
      }
      var m := if v < 0 then -v else v;
      if v != 0 {
        DigitsValueOfFormat(m);
        if t == FormatNat(m) {
          assert DigitsValue(u) == m;
        }
      }
    }
  }
}
