/** Cents as decimal text (bigint.extension.ts), and the text read back. */
module Money {
  import opened Common

  function Digit(d: nat): char
    requires d < 10
  {
    "0123456789"[d]
  }

  function Decimal(n: nat): string {
    if n < 10 then [Digit(n)] else Decimal(n / 10) + [Digit(n % 10)]
  }

  /** padStart(2, '0') */
  function Padded(n: nat): string {
    var s := Decimal(n);
    if |s| < 2 then "0" + s else s
  }

  function ToDollarsStr(value: int): string {
    var abs := if value < 0 then -value else value;
    var result := Unsigned(abs);
    if value < 0 then "-" + result else result
  }

  function Unsigned(abs: nat): string {
    var whole, remainder := abs / 100, abs % 100;
    if remainder == 0 then Decimal(whole) else Decimal(whole) + "." + Padded(remainder)
  }

  // ---- Reading it back ----

  function DigitValue(c: char): Option<nat> {
    if '0' <= c <= '9' then Some(c as int - '0' as int) else None
  }

  /** A non-empty string of digits. */
  function ParseDecimal(s: string): Option<nat> {
    if s == [] then None
    else
      var last := DigitValue(s[|s| - 1]);
      if last.None? then None
      else if |s| == 1 then last
      else
        var rest := ParseDecimal(s[..|s| - 1]);
        if rest.None? then None else Some(10 * rest.value + last.value)
  }

  /** Where the decimal point is, or the length of the text. */
  function Point(s: string): (i: nat)
    ensures i <= |s|
  {
    if s == [] || s[0] == '.' then 0 else 1 + Point(s[1..])
  }

  /** Dollars, or dollars and exactly two digits of cents. */
  function ParseCents(s: string): Option<nat> {
    var i := Point(s);
    if i == |s| then
      var whole := ParseDecimal(s);
      if whole.None? then None else Some(100 * whole.value)
    else if |s| - i != 3 then None
    else
      var whole, cents := ParseDecimal(s[..i]), ParseDecimal(s[i + 1..]);
      if whole.None? || cents.None? then None else Some(100 * whole.value + cents.value)
  }

  function Parse(s: string): Option<int> {
    if s != [] && s[0] == '-' then
      match ParseCents(s[1..])
      case None => None
      case Some(n) => var v: int := 0 - n; Some(v)
    else
      ParseCents(s)
  }

  lemma DigitRoundTrip(d: nat)
    requires d < 10
    ensures DigitValue(Digit(d)) == Some(d) && Digit(d) != '.' && Digit(d) != '-'
  {
  }

  lemma {:induction false} DecimalDigits(n: nat)
    ensures Decimal(n) != [] && forall i | 0 <= i < |Decimal(n)| :: Decimal(n)[i] != '.' && Decimal(n)[i] != '-'
  {
    DigitRoundTrip(n % 10);
    if n >= 10 {
      DecimalDigits(n / 10);
    }
  }

  lemma {:induction false} DecimalRoundTrip(n: nat)
    ensures ParseDecimal(Decimal(n)) == Some(n)
  {
    if n < 10 {
      OneDigit(n);
    } else {
      DecimalRoundTrip(n / 10);
      MoreDigits(n);
    }
  }

  lemma OneDigit(n: nat)
    requires n < 10
    ensures ParseDecimal(Decimal(n)) == Some(n)
  {
    DigitRoundTrip(n);
  }

  lemma MoreDigits(n: nat)
    requires n >= 10 && ParseDecimal(Decimal(n / 10)) == Some(n / 10)
    ensures ParseDecimal(Decimal(n)) == Some(n)
  {
    DecimalDigits(n / 10);
    AppendDigit(Decimal(n / 10), n / 10, n % 10);
  }

  lemma AppendDigit(s: string, n: nat, d: nat)
    requires d < 10 && s != [] && ParseDecimal(s) == Some(n)
    ensures ParseDecimal(s + [Digit(d)]) == Some(10 * n + d)
  {
    DigitRoundTrip(d);
    assert (s + [Digit(d)])[..|s|] == s;
  }

  lemma PaddedRoundTrip(n: nat)
    requires n < 100
    ensures |Padded(n)| == 2 && ParseDecimal(Padded(n)) == Some(n)
  {
    DecimalRoundTrip(n);
    if n < 10 {
      var s := Padded(n);
      assert s == ['0', Digit(n)] && s[..1] == ['0'];
      assert ParseDecimal(['0']) == Some(0);
    } else {
      assert Decimal(n) == [Digit(n / 10)] + [Digit(n % 10)];
    }
  }

  lemma {:induction false} PointAfter(s: string, t: string)
    requires forall i | 0 <= i < |s| :: s[i] != '.'
    requires t == [] || t[0] == '.'
    ensures Point(s + t) == |s|
  {
    if s == [] {
      assert s + t == t;
    } else {
      assert (s + t)[1..] == s[1..] + t;
      PointAfter(s[1..], t);
    }
  }

  lemma WholeRoundTrip(whole: nat)
    ensures ParseCents(Decimal(whole)) == Some(100 * whole)
  {
    var s := Decimal(whole);
    DecimalDigits(whole);
    DecimalRoundTrip(whole);
    assert s + [] == s;
    PointAfter(s, []);
  }

  lemma FractionRoundTrip(whole: nat, cents: nat)
    requires cents < 100
    ensures ParseCents(Decimal(whole) + "." + Padded(cents)) == Some(100 * whole + cents)
  {
    var a, t := Decimal(whole), "." + Padded(cents);
    DecimalDigits(whole);
    DecimalRoundTrip(whole);
    PaddedRoundTrip(cents);
    var s := a + "." + Padded(cents);
    assert s == a + t;
    PointAfter(a, t);
    assert s[..|a|] == a && s[|a| + 1..] == Padded(cents);
    ParseAt(s, |a|, whole, cents);
  }

  lemma ParseAt(s: string, i: nat, whole: nat, cents: nat)
    requires i + 3 == |s| && Point(s) == i
    requires ParseDecimal(s[..i]) == Some(whole) && ParseDecimal(s[i + 1..]) == Some(cents)
    ensures ParseCents(s) == Some(100 * whole + cents)
  {
  }

  lemma CentsRoundTrip(n: nat)
    ensures ParseCents(Unsigned(n)) == Some(n) && Unsigned(n) != [] && Unsigned(n)[0] != '-'
  {
    DecimalDigits(n / 100);
    if n % 100 == 0 {
      WholeRoundTrip(n / 100);
    } else {
      FractionRoundTrip(n / 100, n % 100);
    }
  }

  /** Every amount, of either sign, can be read back from its text. */
  lemma RoundTrip(value: int)
    ensures Parse(ToDollarsStr(value)) == Some(value)
  {
    var abs := if value < 0 then -value else value;
    CentsRoundTrip(abs);
    if value < 0 {
      assert ToDollarsStr(value) == "-" + Unsigned(abs);
      assert ToDollarsStr(value)[1..] == Unsigned(abs);
    } else {
      assert ToDollarsStr(value) == Unsigned(abs);
    }
  }

  // ---- How the text looks ----

  lemma {:induction false} NoLeadingZero(n: nat)
    ensures Decimal(n)[0] == '0' <==> n == 0
    ensures |Decimal(n)| == 1 <==> n < 10
  {
    DecimalDigits(n / 10);
    if n >= 10 {
      NoLeadingZero(n / 10);
    }
  }

  /** Where the digits of the amount begin, and where they end or the cents begin. */
  lemma UnsignedLook(n: nat)
    ensures var s := Unsigned(n);
            var whole := Decimal(n / 100);
            && (if n % 100 == 0 then s == whole && '.' !in s
                else |s| == |whole| + 3 && s[..|whole|] == whole && s[|whole|] == '.'
                     && ParseDecimal(s[|whole| + 1..]) == Some(n % 100))
            && whole != [] && s[0] != '-' && (s[0] == '0' <==> n < 100) && (n < 1000 ==> |whole| == 1)
  {
    DecimalDigits(n / 100);
    NoLeadingZero(n / 100);
    if n % 100 != 0 {
      PaddedRoundTrip(n % 100);
      assert Unsigned(n)[|Decimal(n / 100)| + 1..] == Padded(n % 100);
    }
  }

  /**
   The text begins with a minus sign just if the amount is negative; it has a point just if there are cents, and
   then two digits after it; and it begins with a zero only if there is less than one dollar.
   */
  lemma TextLooks(value: int)
    ensures var s := ToDollarsStr(value);
            var digits := if value < 0 then s[1..] else s;
            var abs := if value < 0 then -value else value;
            && s != [] && (s[0] == '-' <==> value < 0)
            && ('.' in s <==> abs % 100 != 0)
            && ('.' in s ==> |s| >= 4 && s[|s| - 3] == '.')
            && digits != [] && (digits[0] == '0' <==> abs < 100)
            && (digits[0] == '0' && |digits| > 1 ==> digits[1] == '.')
  {
    var abs := if value < 0 then -value else value;
    UnsignedLook(abs);
    var s, u := ToDollarsStr(value), Unsigned(abs);
    var whole := Decimal(abs / 100);
    assert if value < 0 then s == "-" + u && s[1..] == u else s == u;
    if abs % 100 != 0 {
      assert u[|whole|] == '.' && s[|s| - 3] == '.';
    }
  }
}
