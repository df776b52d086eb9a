/** Decimal text of whole numbers: template-literal rendering of a natural
    number and `parseInt` of a string's leading digits. */
module Decimal {
  import opened Base

  predicate IsDigit(c: char)
  {
    '0' <= c <= '9'
  }

  predicate AllDigits(s: string)
  {
    forall i :: 0 <= i < |s| ==> IsDigit(s[i])
  }

  function DigitChar(d: nat): (c: char)
    requires d < 10
    ensures IsDigit(c)
  {
    ('0' as int + d) as char
  }

  function DigitValue(c: char): (d: nat)
    requires IsDigit(c)
    ensures d < 10
  {
    c as int - '0' as int
  }

  /** How `${n}` renders a natural number: no sign, no leading zeros. */
  function NatToString(n: nat): (s: string)
    ensures |s| > 0 && AllDigits(s)
    ensures |s| > 1 ==> s[0] != '0'
  {
    if n < 10 then [DigitChar(n)] else NatToString(n / 10) + [DigitChar(n % 10)]
  }

  /** The number a string of digits denotes. */
  function DigitsValue(s: string): (v: nat)
    requires AllDigits(s)
  {
    if s == [] then 0 else DigitsValue(s[..|s| - 1]) * 10 + DigitValue(s[|s| - 1])
  }

  /** The number of leading digits. */
  function DigitPrefixLength(s: string): (k: nat)
    ensures k <= |s| && AllDigits(s[..k])
    ensures k < |s| ==> !IsDigit(s[k])
  {
    if s == [] || !IsDigit(s[0]) then 0
    else
      var k := 1 + DigitPrefixLength(s[1..]);
      assert s[..k] == [s[0]] + s[1..][..k - 1];
      k
  }

  /** `parseInt(s)` for unsigned text: the value of the leading digits, or
      `None` (NaN) when the string does not start with a digit. */
  function ParseLeadingInt(s: string): (r: Option<nat>)
    ensures r.Some? <==> |s| > 0 && IsDigit(s[0])
  {
    var k := DigitPrefixLength(s);
    if k == 0 then None else Some(DigitsValue(s[..k]))
  }

  /** Reading back a rendered number gives the number. */
  lemma {:induction false} DigitsValueOfNatToString(n: nat)
    ensures DigitsValue(NatToString(n)) == n
  {
    if n >= 10 {
      var s := NatToString(n);
      assert s[..|s| - 1] == NatToString(n / 10);
      DigitsValueOfNatToString(n / 10);
    }
  }

  /** The digit run of `ds + t` is exactly `ds` when `t` does not continue it. */
  lemma {:induction false} DigitPrefixOfConcat(ds: string, t: string)
    requires AllDigits(ds)
    requires t == [] || !IsDigit(t[0])
    ensures DigitPrefixLength(ds + t) == |ds|
  {
    if ds != [] {
      assert (ds + t)[1..] == ds[1..] + t;
      DigitPrefixOfConcat(ds[1..], t);
    }
  }

  /** Round trip: `parseInt` of a rendered number followed by anything that
      is not a digit gives the number back. */
  lemma {:induction false} ParseAfterRender(n: nat, t: string)
    requires t == [] || !IsDigit(t[0])
    ensures ParseLeadingInt(NatToString(n) + t) == Some(n)
  {
    var s := NatToString(n);
    DigitPrefixOfConcat(s, t);
    assert (s + t)[..|s|] == s;
    DigitsValueOfNatToString(n);
  }
}
