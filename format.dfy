/**
 * Decimal text of integers, as Go's `%v` verb prints an `int`, and the
 * parser that reads it back. The status-code error of the retry engine is
 * built with this formatting.
 */
module Format {
  import opened Wrappers

  predicate IsDigit(c: char) {
    '0' <= c <= '9'
  }

  predicate AllDigits(s: string) {
    forall i :: 0 <= i < |s| ==> IsDigit(s[i])
  }

  function DigitChar(d: nat): (c: char)
    requires d < 10
    ensures IsDigit(c) && DigitValue(c) == d
  {
    "0123456789"[d]
  }

  function DigitValue(c: char): nat
    requires IsDigit(c)
  {
    (c as int - '0' as int) as nat
  }

  /** The decimal digits of `n`, most significant first, without leading zeros. */
  function NatDigits(n: nat): (s: string)
    ensures |s| > 0 && AllDigits(s)
    ensures |s| > 1 ==> s[0] != '0'
  {
    if n < 10 then [DigitChar(n)] else NatDigits(n / 10) + [DigitChar(n % 10)]
  }

  /** The number a run of decimal digits denotes; 0 for the empty run. */
  function NatValue(s: string): nat
    requires AllDigits(s)
  {
    if s == [] then 0 else NatValue(s[..|s| - 1]) * 10 + DigitValue(s[|s| - 1])
  }

  /** `fmt.Sprintf("%v", n)` for a Go `int`. */
  function Decimal(n: int): string {
    if n < 0 then "-" + NatDigits(-n) else NatDigits(n)
  }

  /** Reads back an optionally signed run of decimal digits. */
  function ParseDecimal(s: string): Option<int> {
    if s == [] then None
    else if s[0] == '-' then
      if |s| > 1 && AllDigits(s[1..]) then Some(0 - NatValue(s[1..])) else None
    else if AllDigits(s) then Some(NatValue(s))
    else None
  }

  /** The index of the first occurrence of `c` in `s`, or `|s|` if there is none. */
  function IndexOf(s: string, c: char): (k: nat)
    ensures k <= |s|
    ensures k < |s| ==> s[k] == c
    ensures forall i :: 0 <= i < k ==> s[i] != c
  {
    if s == [] then 0 else if s[0] == c then 0 else 1 + IndexOf(s[1..], c)
  }

  lemma {:induction false} NatValueOfDigits(n: nat)
    ensures NatValue(NatDigits(n)) == n
  {
    if n >= 10 {
      var s := NatDigits(n);
      assert s[..|s| - 1] == NatDigits(n / 10);
      NatValueOfDigits(n / 10);
    }
  }

  lemma ParseNegative(d: string, m: nat)
    requires |d| > 0 && AllDigits(d) && NatValue(d) == m
    ensures ParseDecimal("-" + d) == Some(0 - m)
  {
  }

  lemma NegativeRoundTrip(n: int)
    requires n < 0
    ensures ParseDecimal(Decimal(n)) == Some(n)
  {
    NatValueOfDigits(-n);
    ParseNegative(NatDigits(-n), -n);
  }

  lemma NonNegativeRoundTrip(n: int)
    requires n >= 0
    ensures ParseDecimal(Decimal(n)) == Some(n)
  {
    var d := NatDigits(n);
    assert Decimal(n) == d;
    assert IsDigit(d[0]);
    NatValueOfDigits(n);
    assert ParseDecimal(d) == Some(NatValue(d));
  }

  /** Every `int` survives printing with `%v` and parsing back. */
  lemma DecimalRoundTrip(n: int)
    ensures ParseDecimal(Decimal(n)) == Some(n)
  {
    if n < 0 {
      NegativeRoundTrip(n);
    } else {
      NonNegativeRoundTrip(n);
    }
  }

  /** The decimal text of an integer holds no comma. */
  lemma DecimalHasNoComma(n: int)
    ensures ',' !in Decimal(n)
  {
  }

  lemma {:induction false} IndexOfAfter(a: string, b: string, c: char)
    requires c !in a && |b| > 0 && b[0] == c
    ensures IndexOf(a + b, c) == |a|
  {
    if a != [] {
      assert (a + b)[1..] == a[1..] + b;
      IndexOfAfter(a[1..], b, c);
    }
  }
}
