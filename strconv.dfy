/**
 * strconv.Itoa, which renders the port of the endpoint, and a reference
 * reader of decimal numerals that undoes it.
 */
module Strconv {
  import opened Wrappers

  predicate IsDigit(c: char) {
    '0' <= c <= '9'
  }

  predicate AllDigits(s: string) {
    forall i :: 0 <= i < |s| ==> IsDigit(s[i])
  }

  function DigitChar(d: nat): (c: char)
    requires d < 10
    ensures IsDigit(c) && c as int - '0' as int == d
  {
    ('0' as int + d) as char
  }

  /** The decimal numeral of n: most significant digit first, no leading zero. */
  function DecimalDigits(n: nat): (s: string)
    ensures |s| > 0 && AllDigits(s)
    ensures s[0] == '0' ==> n == 0
    decreases n
  {
    if n < 10 then [DigitChar(n)] else DecimalDigits(n / 10) + [DigitChar(n % 10)]
  }

  /** strconv.Itoa: a minus sign for a negative number, then the digits of its magnitude. */
  function Itoa(n: int): (s: string)
    ensures |s| > 0
    ensures s[0] == '-' <==> n < 0
    ensures AllDigits(if n < 0 then s[1..] else s)
    ensures ':' !in s
  {
    if n < 0 then "-" + DecimalDigits(-n) else DecimalDigits(n)
  }

  /** The value of a non-empty string of digits, read from its last digit backwards. */
  function DecimalValue(s: string): nat
    requires |s| > 0 && AllDigits(s)
  {
    var last := s[|s| - 1] as int - '0' as int;
    if |s| == 1 then last else DecimalValue(s[..|s| - 1]) * 10 + last
  }

  /** Reads an optional minus sign followed by one or more digits; anything else is None. */
  function ParseInt(s: string): Option<int> {
    if |s| > 0 && s[0] == '-' then
      if |s| > 1 && AllDigits(s[1..]) then Some(0 - DecimalValue(s[1..]) as int) else None
    else if |s| > 0 && AllDigits(s) then Some(DecimalValue(s))
    else None
  }

  lemma {:induction false} DecimalRoundTrip(n: nat)
    ensures DecimalValue(DecimalDigits(n)) == n
    decreases n
  {
    if n >= 10 {
      var prefix := DecimalDigits(n / 10);
      var s := prefix + [DigitChar(n % 10)];
      assert s[..|s| - 1] == prefix;
      DecimalRoundTrip(n / 10);
    }
  }

  /** Itoa loses nothing: the reference reader recovers every integer from its numeral. */
  lemma ItoaRoundTrip(n: int)
    ensures ParseInt(Itoa(n)) == Some(n)
  {
    if n < 0 {
      assert Itoa(n)[1..] == DecimalDigits(-n);
      DecimalRoundTrip(-n);
    } else {
      DecimalRoundTrip(n);
    }
  }

  /** Distinct ports give distinct numerals. */
  lemma ItoaInjective(m: int, n: int)
    requires Itoa(m) == Itoa(n)
    ensures m == n
  {
    ItoaRoundTrip(m);
    ItoaRoundTrip(n);
  }
}
