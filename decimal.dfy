/** Python's `'{}'.format(n)` for an integer `n`: optional minus sign, then
    decimal digits without leading zeros; and the inverse parse, which is
    what makes the formatted text a faithful name for the number. */
module Decimal {
  import opened Wrappers

  predicate IsDigit(c: char) {
    '0' <= c <= '9'
  }

  predicate AllDigits(s: string) {
    forall i :: 0 <= i < |s| ==> IsDigit(s[i])
  }

  function DigitChar(d: nat): (c: char)
    requires d < 10
    ensures IsDigit(c) && DigitValue(c) == d
  {
    ('0' as int + d) as char
  }

  function DigitValue(c: char): nat
    requires IsDigit(c)
  {
    c as int - '0' as int
  }

  /** Decimal digits of `n`, most significant first. */
  function NatToString(n: nat): (s: string)
    ensures |s| > 0 && AllDigits(s)
    ensures |s| > 1 ==> s[0] != '0'
    decreases n
  {
    if n < 10 then [DigitChar(n)] else NatToString(n / 10) + [DigitChar(n % 10)]
  }

  /** `'{}'.format(i)` for an int. */
  function IntToString(i: int): (s: string)
    ensures |s| > 0
    ensures forall k :: 0 <= k < |s| ==> s[k] != ','
    ensures (s[0] == '-') <==> i < 0
  {
    if i < 0 then "-" + NatToString(-i) else NatToString(i)
  }

  /** The number a string of decimal digits denotes. */
  function DigitsToNat(s: string): nat
    requires AllDigits(s)
  {
    if s == [] then 0 else DigitsToNat(s[..|s| - 1]) * 10 + DigitValue(s[|s| - 1])
  }

  /** Reads back what `IntToString` writes; anything else is `None`. */
  function ParseInt(s: string): Option<int> {
    if |s| > 1 && s[0] == '-' && AllDigits(s[1..]) then Some(-(DigitsToNat(s[1..]) as int))
    else if |s| > 0 && AllDigits(s) then Some(DigitsToNat(s))
    else None
  }

  lemma {:induction false} NatToStringRoundTrip(n: nat)
    ensures DigitsToNat(NatToString(n)) == n
    decreases n
  {
    if n >= 10 {
      var s := NatToString(n);
      assert s[..|s| - 1] == NatToString(n / 10);
      NatToStringRoundTrip(n / 10);
    }
  }

  /** Formatting an integer and parsing it back gives the integer again. */
  lemma IntToStringRoundTrip(i: int)
    ensures ParseInt(IntToString(i)) == Some(i)
  {
    if i < 0 {
      assert IntToString(i)[1..] == NatToString(-i);
      NatToStringRoundTrip(-i);
    } else {
      NatToStringRoundTrip(i);
    }
  }

  /** Distinct integers have distinct decimal texts. */
  lemma IntToStringInjective(i: int, j: int)
    requires IntToString(i) == IntToString(j)
    ensures i == j
  {
    IntToStringRoundTrip(i);
    IntToStringRoundTrip(j);
  }

  /** Index of the first comma in `s`, or `|s|` when there is none. */
  function FirstComma(s: string): (i: nat)
    ensures i <= |s|
    ensures i < |s| ==> s[i] == ','
    ensures forall j :: 0 <= j < i ==> s[j] != ','
  {
    if s == [] || s[0] == ',' then 0 else 1 + FirstComma(s[1..])
  }

  /** The text before the first comma of a + "," + b, when a has none. */
  lemma SplitAtFirstComma(a: string, b: string)
    requires forall k :: 0 <= k < |a| ==> a[k] != ','
    ensures FirstComma(a + "," + b) == |a|
    ensures (a + "," + b)[..|a|] == a && (a + "," + b)[|a| + 1..] == b
  {
    assert (a + "," + b)[|a|] == ',';
  }

  /** Splits a key at its first comma and reads both halves as integers. */
  function ParseKey(k: string): Option<(int, int)> {
    var i := FirstComma(k);
    if i == |k| then None
    else match (ParseInt(k[..i]), ParseInt(k[i + 1..]))
      case (Some(t), Some(h)) => Some((t, h))
      case _ => None
  }

  /** The WBGT table key: `'{},{}'.format(t, h)`; reading it back
      gives the pair it was made from. */
  function FormatKey(t: int, h: int): (k: string)
    ensures ParseKey(k) == Some((t, h))
  {
    var a, b := IntToString(t), IntToString(h);
    SplitAtFirstComma(a, b);
    IntToStringRoundTrip(t);
    IntToStringRoundTrip(h);
    a + "," + b
  }

  /** Distinct quantised pairs give distinct keys. */
  lemma KeyInjective(t1: int, h1: int, t2: int, h2: int)
    requires FormatKey(t1, h1) == FormatKey(t2, h2)
    ensures t1 == t2 && h1 == h2
  {
  }
}
