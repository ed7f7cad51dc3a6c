/** Decimal rendering of integers, as string interpolation of a C# int does
    (leading '-' for negatives, no leading zeros), and its inverse. */
module Text {
  import opened World

  predicate IsDigit(c: char) { '0' <= c <= '9' }

  predicate AllDigits(s: string) { forall i :: 0 <= i < |s| ==> IsDigit(s[i]) }

  function DigitChar(d: nat): (c: char)
    requires d < 10
    ensures IsDigit(c) && c as int - '0' as int == d
  {
    ('0' as int + d) as char
  }

  /** The decimal digits of n, most significant first. */
  function NatToString(n: nat): (s: string)
    ensures |s| >= 1 && AllDigits(s)
    ensures s[0] == '0' ==> n == 0
    decreases n
  {
    if n < 10 then [DigitChar(n)] else NatToString(n / 10) + [DigitChar(n % 10)]
  }

  function IntToString(i: int): (s: string)
    ensures |s| >= 1
    ensures (s[0] == '-') <==> i < 0
  {
    if i < 0 then "-" + NatToString(-i) else NatToString(i)
  }

  /** The value of a string of decimal digits. */
  function DigitsValue(s: string): nat
    requires AllDigits(s)
  {
    if s == [] then 0 else DigitsValue(s[..|s| - 1]) * 10 + (s[|s| - 1] as int - '0' as int)
  }

  /** Reads back what IntToString writes; anything else is None. */
  function ParseInt(s: string): Option<int>
  {
    if |s| >= 2 && s[0] == '-' && AllDigits(s[1..]) then Some(0 - DigitsValue(s[1..]) as int)
    else if |s| >= 1 && AllDigits(s) then Some(DigitsValue(s))
    else None
  }

  lemma {:induction false} NatToStringRoundTrip(n: nat)
    ensures DigitsValue(NatToString(n)) == n
    decreases n
  {
    if n >= 10 {
      NatToStringRoundTrip(n / 10);
      var s := NatToString(n);
      assert s[..|s| - 1] == NatToString(n / 10);
    }
  }

  /** Every rendered integer parses back to itself, so distinct integers
      render as distinct strings. */
  lemma IntToStringRoundTrip(i: int)
    ensures ParseInt(IntToString(i)) == Some(i)
  {
    if i < 0 {
      var digits := NatToString(-i);
      TagSplits("-", digits);
      assert IntToString(i) == "-" + digits && |"-"| == 1;
      NatToStringRoundTrip(-i);
    } else {
      NatToStringRoundTrip(i);
    }
  }

  /** A tagged text splits back into its tag and the rest. */
  lemma TagSplits(tag: string, rest: string)
    ensures (tag + rest)[..|tag|] == tag
    ensures (tag + rest)[|tag|..] == rest
  {
  }

  /** A tagged number reads back from the text after its tag. */
  lemma LabelledNumberReadsBack(tag: string, n: int)
    ensures (tag + IntToString(n))[..|tag|] == tag
    ensures ParseInt((tag + IntToString(n))[|tag|..]) == Some(n)
  {
    TagSplits(tag, IntToString(n));
    IntToStringRoundTrip(n);
  }
}
