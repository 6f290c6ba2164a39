/** Decimal text for the integer fields the record copies (`age` and
    `available_slots`), as JavaScript's `Number.prototype.toString()` writes
    an integer, and the reader that undoes it. */
module NumberFormat {
  import opened Wrappers

  predicate IsDigit(c: char) {
    '0' <= c <= '9'
  }

  predicate AllDigits(s: string) {
    forall i | 0 <= i < |s| :: IsDigit(s[i])
  }

  function DigitChar(d: nat): (c: char)
    requires d < 10
    ensures IsDigit(c)
  {
    "0123456789"[d]
  }

  function DigitValue(c: char): (d: nat)
    requires IsDigit(c)
    ensures d < 10
  {
    (c as int - '0' as int) as nat
  }

  /** The shortest base-10 spelling of `n`: no sign, no leading zero. */
  function Digits(n: nat): (s: string)
    ensures |s| > 0 && AllDigits(s)
    ensures |s| > 1 ==> s[0] != '0'
  {
    if n < 10 then [DigitChar(n)] else Digits(n / 10) + [DigitChar(n % 10)]
  }

  /** The integer a string of digits spells out. */
  function DigitsValue(s: string): (v: nat)
    requires AllDigits(s)
  {
    if s == [] then 0 else DigitsValue(s[..|s| - 1]) * 10 + DigitValue(s[|s| - 1])
  }

  /** Integer `n` as `n.toString()` writes it while its magnitude is below
      10^21: a `-` for negatives, then the digits. */
  function NumberToString(n: int): (s: string)
    ensures |s| > 0
    ensures n >= 0 <==> s[0] != '-'
  {
    if n < 0 then "-" + Digits(-n) else Digits(n)
  }

  /** A one-digit number is written as that digit. */
  lemma OneDigitText(n: int)
    requires 0 <= n < 10
    ensures NumberToString(n) == [DigitChar(n)]
  {
  }

  /** A two-digit number is written as its tens digit and its units digit. */
  lemma TwoDigitText(n: int)
    requires 10 <= n < 100
    ensures NumberToString(n) == [DigitChar(n / 10), DigitChar(n % 10)]
  {
    assert Digits(n / 10) == [DigitChar(n / 10)];
  }

  /** Reads back an optional `-` followed by one or more digits; None for anything else. */
  function ParseDecimal(s: string): (r: Option<int>)
    ensures r.Some? ==> |s| > 0
    ensures r.Some? && s[0] != '-' ==> r.value >= 0
  {
    if |s| > 1 && s[0] == '-' && AllDigits(s[1..]) then Some(-(DigitsValue(s[1..]) as int))
    else if |s| > 0 && AllDigits(s) then Some(DigitsValue(s))
    else None
  }

  lemma {:induction false} DigitsRoundTrip(n: nat)
    ensures DigitsValue(Digits(n)) == n
  {
    var s := Digits(n);
    if n >= 10 {
      DigitsRoundTrip(n / 10);
      assert s[..|s| - 1] == Digits(n / 10);
      assert DigitValue(DigitChar(n % 10)) == n % 10;
    } else {
      assert DigitValue(DigitChar(n)) == n;
    }
  }

  /** A non-empty run of digits reads back as the number it spells. */
  lemma ParseDigits(d: string)
    requires |d| > 0 && AllDigits(d)
    ensures ParseDecimal(d) == Some(DigitsValue(d) as int)
  {
    assert IsDigit(d[0]);
  }

  /** A minus sign before a non-empty run of digits reads back as the negation. */
  lemma ParseNegative(d: string)
    requires |d| > 0 && AllDigits(d)
    ensures ParseDecimal("-" + d) == Some(-(DigitsValue(d) as int))
  {
    var s := "-" + d;
    assert s[0] == '-' && |s| > 1;
    assert s[1..] == d;
  }

  lemma NonNegativeRoundTrip(n: nat)
    ensures ParseDecimal(NumberToString(n)) == Some(n as int)
  {
    var d := Digits(n);
    assert NumberToString(n) == d;
    DigitsRoundTrip(n);
    ParseDigits(d);
  }

  lemma NegativeRoundTrip(n: int)
    requires n < 0
    ensures ParseDecimal(NumberToString(n)) == Some(n)
  {
    var m: nat := -n;
    DigitsRoundTrip(m);
    NegativeText(m);
  }

  /** The text of a negative number reads back as the negated value of the
      digits that spell its magnitude. */
  lemma NegativeText(m: nat)
    requires m > 0
    ensures ParseDecimal(NumberToString(-(m as int))) == Some(-(DigitsValue(Digits(m)) as int))
  {
    ParseNegative(Digits(m));
  }

  /** Reading back the text of any integer gives that integer. */
  lemma NumberRoundTrip(n: int)
    ensures ParseDecimal(NumberToString(n)) == Some(n)
  {
    if n < 0 {
      NegativeRoundTrip(n);
    } else {
      NonNegativeRoundTrip(n);
    }
  }

  /** The record's fallback literal is not the text of any integer. */
  lemma UnknownIsNotANumber()
    ensures ParseDecimal("Unknown") == None
  {
    assert !IsDigit("Unknown"[0]);
  }
}
