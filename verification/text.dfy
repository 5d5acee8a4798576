/** Decimal rendering of natural numbers, as JavaScript template literals
    (`${n}`) render a non-negative integer, with its inverse. */
module Text {

  predicate IsDigit(c: char) {
    '0' <= c <= '9'
  }

  function DigitChar(d: nat): (c: char)
    requires d < 10
    ensures IsDigit(c)
  {
    ['0', '1', '2', '3', '4', '5', '6', '7', '8', '9'][d]
  }

  function DigitValue(c: char): (d: nat)
    requires IsDigit(c)
    ensures d < 10
  {
    (c as int - '0' as int) as nat
  }

  lemma DigitRoundTrip(d: nat)
    requires d < 10
    ensures DigitValue(DigitChar(d)) == d
  {
  }

  /** The shortest decimal text of `n`: digits only, no leading zero. */
  function DecimalText(n: nat): (s: string)
    ensures |s| >= 1
    ensures forall i :: 0 <= i < |s| ==> IsDigit(s[i])
    ensures |s| > 1 ==> s[0] != '0'
  {
    if n < 10 then [DigitChar(n)] else DecimalText(n / 10) + [DigitChar(n % 10)]
  }

  /** Reads a string of digits back as a natural number. */
  function ParseDecimal(s: string): (n: nat)
    requires forall i :: 0 <= i < |s| ==> IsDigit(s[i])
  {
    if |s| == 0 then 0 else ParseDecimal(s[..|s| - 1]) * 10 + DigitValue(s[|s| - 1])
  }

  /** Rendering loses nothing: the text reads back as the number. */
  lemma {:induction false} ParseDecimalOfText(n: nat)
    ensures ParseDecimal(DecimalText(n)) == n
  {
    var s := DecimalText(n);
    if n < 10 {
      DigitRoundTrip(n);
      assert s[..0] == [];
    } else {
      DigitRoundTrip(n % 10);
      assert s[..|s| - 1] == DecimalText(n / 10);
      ParseDecimalOfText(n / 10);
    }
  }

  /** `prefix` is an initial segment of `s` (JavaScript `s.startsWith(prefix)`). */
  predicate IsPrefix(prefix: string, s: string) {
    |prefix| <= |s| && s[..|prefix|] == prefix
  }

  /** Two prefixes of one string are prefixes of each other, shorter first. */
  lemma PrefixesAreComparable(a: string, b: string, s: string)
    requires IsPrefix(a, s) && IsPrefix(b, s)
    requires |a| <= |b|
    ensures IsPrefix(a, b)
  {
    assert forall i :: 0 <= i < |a| ==> a[i] == s[i] == b[i];
  }

  /** Strings that differ at a common index are not prefixes of each other. */
  lemma DifferAt(a: string, b: string, k: nat)
    requires k < |a| && k < |b| && a[k] != b[k]
    ensures !IsPrefix(a, b) && !IsPrefix(b, a)
  {
  }
}
