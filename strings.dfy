/** The few java.lang.String operations the core relies on, over seq<char>. */
module Strings {

  /** String.startsWith(prefix). */
  predicate StartsWith(s: string, prefix: string) {
    |prefix| <= |s| && s[..|prefix|] == prefix
  }

  /** String.endsWith(suffix). */
  predicate EndsWith(s: string, suffix: string) {
    |suffix| <= |s| && s[|s| - |suffix|..] == suffix
  }

  /** String.indexOf(c, from): the first index at or after `from` holding `c`, or -1. */
  function IndexOf(s: string, c: char, from: nat): (r: int)
    ensures r == -1 || (from <= r < |s| && s[r] == c)
    ensures forall k :: from <= k < |s| && (r == -1 || k < r) ==> s[k] != c
    decreases |s| - from
  {
    if from >= |s| then -1
    else if s[from] == c then from
    else IndexOf(s, c, from + 1)
  }

  /** The decimal digit for 0 <= d < 10. */
  function DigitChar(d: nat): char
    requires d < 10
  {
    "0123456789"[d]
  }

  /** The value of a decimal digit character, or -1. */
  function DigitValue(c: char): int {
    if '0' <= c <= '9' then (c as int) - ('0' as int) else -1
  }

  /** The shortest decimal representation of a natural number. */
  function Digits(n: nat): (s: string)
    decreases n
  {
    if n < 10 then [DigitChar(n)] else Digits(n / 10) + [DigitChar(n % 10)]
  }

  /** String.valueOf(int): decimal digits, with a leading '-' for negative values. */
  function DecimalString(n: int): (s: string) {
    if n < 0 then "-" + Digits(-n) else Digits(n)
  }

  /** Reads back a run of decimal digits. */
  function ParseDigits(s: string): int
    decreases |s|
  {
    if s == [] then 0 else ParseDigits(s[..|s| - 1]) * 10 + DigitValue(s[|s| - 1])
  }

  /** Reads back a decimal integer with an optional leading '-'. */
  function ParseDecimal(s: string): int {
    if |s| > 0 && s[0] == '-' then -ParseDigits(s[1..]) else ParseDigits(s)
  }

  lemma {:induction false} DigitsRoundTrip(n: nat)
    ensures |Digits(n)| > 0 && Digits(n)[0] != '-'
    ensures ParseDigits(Digits(n)) == n
    decreases n
  {
    if n < 10 {
      assert Digits(n) == [DigitChar(n)];
      assert Digits(n)[..0] == [];
    } else {
      DigitsRoundTrip(n / 10);
      var s := Digits(n);
      assert s[..|s| - 1] == Digits(n / 10);
      assert s[|s| - 1] == DigitChar(n % 10);
    }
  }

  /** String.valueOf is injective on int: the decimal text determines the number. */
  lemma DecimalRoundTrip(n: int)
    ensures ParseDecimal(DecimalString(n)) == n
  {
    var s := DecimalString(n);
    if n < 0 {
      DigitsRoundTrip(-n);
      assert s == "-" + Digits(-n);
      assert |s| > 0 && s[0] == '-';
      assert s[1..] == Digits(-n);
    } else {
      DigitsRoundTrip(n);
      assert s == Digits(n);
    }
  }
}
