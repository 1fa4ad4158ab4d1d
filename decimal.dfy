/** Decimal rendering of integers, in the form Java's Integer.toString(int)
    produces: an optional '-' followed by decimal digits without leading zeros.
    ParseInt is the inverse used to state that a rendered list index can be
    read back unchanged. */
module Decimal {
  import opened Wrappers

  predicate IsDigit(c: char) {
    '0' <= c <= '9'
  }

  predicate AllDigits(s: string) {
    forall k :: 0 <= k < |s| ==> IsDigit(s[k])
  }

  function DigitValue(c: char): nat
    requires IsDigit(c)
  {
    c as int - '0' as int
  }

  function DigitChar(d: nat): (c: char)
    requires d < 10
    ensures IsDigit(c) && DigitValue(c) == d
  {
    ('0' as int + d) as char
  }

  /** The number denoted by a string of digits, most significant digit first. */
  function ParseDigits(s: string): nat
    requires AllDigits(s)
  {
    if s == [] then 0 else 10 * ParseDigits(s[..|s| - 1]) + DigitValue(s[|s| - 1])
  }

  /** The digits of n, most significant first, with no leading zero. */
  function NatToString(n: nat): (s: string)
    ensures s != [] && AllDigits(s)
    ensures n == 0 ==> s == "0"
    ensures n > 0 ==> s[0] != '0'
    ensures ParseDigits(s) == n
  {
    if n < 10 then
      [DigitChar(n)]
    else
      var prefix := NatToString(n / 10);
      var s := prefix + [DigitChar(n % 10)];
      assert s[..|s| - 1] == prefix;
      s
  }

  /** Integer.toString(int). */
  function IntToString(i: int): (s: string)
    ensures s != []
    ensures s[0] == '-' <==> i < 0
    ensures i < 0 ==> |s| > 1 && s[1] != '0'
    ensures i == 0 ==> s == "0"
    ensures i > 0 ==> s[0] != '0'
    ensures ParseInt(s) == Some(i)
  {
    if i < 0 then
      var digits := NatToString(-i);
      var s := "-" + digits;
      assert s[1..] == digits;
      s
    else
      NatToString(i)
  }

  /** Reads back a string of the form IntToString produces. */
  function ParseInt(s: string): Option<int> {
    if |s| > 1 && s[0] == '-' && AllDigits(s[1..]) then
      var magnitude: int := ParseDigits(s[1..]);
      Some(-magnitude)
    else if s != [] && AllDigits(s) then
      var magnitude: int := ParseDigits(s);
      Some(magnitude)
    else
      None
  }
}
