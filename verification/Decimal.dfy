/**
 * Decimal text of numbers: the template literal `${n}` for a whole number,
 * and `toFixed(2)` for an amount held in cents.
 */
module Decimal {

  predicate IsDigit(c: char)
  {
    '0' <= c <= '9'
  }

  predicate AllDigits(s: string)
  {
    forall i :: 0 <= i < |s| ==> IsDigit(s[i])
  }

  function Digit(d: nat): (c: char)
    requires d < 10
    ensures IsDigit(c)
  {
    ('0' as int + d) as char
  }

  function DigitValue(c: char): (d: nat)
    requires IsDigit(c)
    ensures d < 10 && Digit(d) == c
  {
    c as int - '0' as int
  }

  /** `${n}` for a whole number `n >= 0`: its decimal digits without leading zeros. */
  function NatToString(n: nat): (r: string)
    ensures |r| >= 1 && AllDigits(r)
    ensures r[0] == '0' <==> n == 0
    ensures n == 0 ==> r == "0"
  {
    if n < 10 then [Digit(n)] else NatToString(n / 10) + [Digit(n % 10)]
  }

  /** The value of a string of decimal digits. */
  function ParseNat(s: string): nat
    requires AllDigits(s)
  {
    if |s| == 0 then 0 else ParseNat(s[..|s| - 1]) * 10 + DigitValue(s[|s| - 1])
  }

  /** Reading the digits back gives the number: `${n}` loses nothing. */
  lemma {:induction false} ParseNatToString(n: nat)
    ensures ParseNat(NatToString(n)) == n
  {
    var r := NatToString(n);
    if n >= 10 {
      ParseNatToString(n / 10);
      assert r[..|r| - 1] == NatToString(n / 10);
    }
  }

  /** The unsigned text of `a` cents: whole part, a point, two digits. */
  function FixedBody(a: nat): string
  {
    NatToString(a / 100) + "." + [Digit(a % 100 / 10), Digit(a % 100 % 10)]
  }

  lemma {:induction false} FixedBodyParts(a: nat)
    ensures var b := FixedBody(a);
      && |b| >= 4 && b[0] != '-' && b[|b| - 3] == '.'
      && b[..|b| - 3] == NatToString(a / 100)
      && b[|b| - 2] == Digit(a % 100 / 10) && b[|b| - 1] == Digit(a % 100 % 10)
      && forall i :: 0 <= i < |b| ==> b[i] != '\n' && b[i] != '-'
  {
    var b := FixedBody(a);
    var whole := NatToString(a / 100);
    assert b[..|b| - 3] == whole;
    forall i | 0 <= i < |b|
      ensures b[i] != '\n' && b[i] != '-'
    {
      if i < |whole| {
        assert b[i] == whole[i];
      }
    }
  }

  /** `(c / 100).toFixed(2)` for `c` cents: optional minus sign, whole part, a point, two digits. */
  function CentsToFixed(c: int): string
  {
    var a := if c < 0 then -c else c;
    (if c < 0 then "-" else "") + FixedBody(a)
  }

  /** The text of an amount is a single line, carries a minus sign only for a negative amount, and has the shape `toFixed(2)` gives. */
  lemma {:induction false} FixedShape(c: int)
    ensures forall i :: 0 <= i < |CentsToFixed(c)| ==> CentsToFixed(c)[i] != '\n'
    ensures c >= 0 ==> forall i :: 0 <= i < |CentsToFixed(c)| ==> CentsToFixed(c)[i] != '-'
    ensures IsFixed(CentsToFixed(c))
  {
    var a := if c < 0 then -c else c;
    FixedBodyParts(a);
    if c < 0 {
      assert CentsToFixed(c) == "-" + FixedBody(a);
      assert Unsigned("-" + FixedBody(a)) == FixedBody(a) by {
        assert ("-" + FixedBody(a))[1..] == FixedBody(a);
      }
    } else {
      assert CentsToFixed(c) == FixedBody(a);
    }
  }

  /** Strips a leading minus sign. */
  function Unsigned(s: string): string
  {
    if |s| > 0 && s[0] == '-' then s[1..] else s
  }

  /** The shape `toFixed(2)` produces: `-`? digits `.` digit digit. */
  predicate IsFixed(s: string)
  {
    var u := Unsigned(s);
    && |u| >= 4
    && u[|u| - 3] == '.'
    && AllDigits(u[..|u| - 3])
    && IsDigit(u[|u| - 2]) && IsDigit(u[|u| - 1])
  }

  /** The number of cents a fixed-point text stands for. */
  function FixedToCents(s: string): int
    requires IsFixed(s)
  {
    var u := Unsigned(s);
    var a := ParseNat(u[..|u| - 3]) * 100 + DigitValue(u[|u| - 2]) * 10 + DigitValue(u[|u| - 1]);
    if |s| > 0 && s[0] == '-' then -a else a
  }

  /** Whole part, tenths and hundredths put back together. */
  lemma {:induction false} CentsDigits(a: nat)
    ensures a == (a / 100) * 100 + (a % 100 / 10) * 10 + a % 100 % 10
  {
    var q, r := a / 100, a % 100;
    assert a == q * 100 + r;
    assert r == (r / 10) * 10 + r % 10;
  }

  /** The unsigned text reads back as its number of cents. */
  lemma {:induction false} FixedBodyRoundTrip(a: nat)
    ensures IsFixed(FixedBody(a)) && FixedToCents(FixedBody(a)) == a
  {
    var b := FixedBody(a);
    FixedBodyParts(a);
    assert Unsigned(b) == b;
    ParseNatToString(a / 100);
    assert DigitValue(b[|b| - 2]) == a % 100 / 10;
    assert DigitValue(b[|b| - 1]) == a % 100 % 10;
    CentsDigits(a);
  }

  /** The amount printed with two decimals reads back as the same number of cents. */
  lemma {:induction false} FixedRoundTrip(c: int)
    ensures IsFixed(CentsToFixed(c)) && FixedToCents(CentsToFixed(c)) == c
  {
    FixedShape(c);
    var a := if c < 0 then -c else c;
    var body := FixedBody(a);
    FixedBodyParts(a);
    FixedBodyRoundTrip(a);
    if c < 0 {
      assert CentsToFixed(c) == "-" + body;
      assert ("-" + body)[1..] == body;
    } else {
      assert CentsToFixed(c) == body;
    }
  }
}
