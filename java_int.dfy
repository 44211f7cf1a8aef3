/**
 * Java's 32-bit `int` and the two conversions the message model relies on:
 * `String.valueOf(int)` (decimal formatting) and `Integer.valueOf(String)`
 * (decimal parsing, which raises NumberFormatException on bad input).
 */
module JavaInt {
  import opened Wrappers

  /** Java's `int`: 32-bit two's complement. */
  newtype int32 = x: int | -0x8000_0000 <= x < 0x8000_0000

  predicate IsDigit(c: char) {
    '0' <= c <= '9'
  }

  predicate AllDigits(s: string) {
    forall i | 0 <= i < |s| :: IsDigit(s[i])
  }

  function DigitChar(d: nat): (c: char)
    requires d < 10
    ensures IsDigit(c) && c as int - '0' as int == d
  {
    ('0' as int + d) as char
  }

  /** The decimal digits of `n`, most significant first, with no leading zero. */
  function NatToString(n: nat): (s: string)
    ensures |s| > 0 && AllDigits(s)
    ensures s[0] == '0' ==> n == 0
    decreases n
  {
    if n < 10 then [DigitChar(n)] else NatToString(n / 10) + [DigitChar(n % 10)]
  }

  /** The number a string of decimal digits denotes. */
  function DigitsValue(s: string): nat
    requires AllDigits(s)
  {
    if s == [] then 0 else DigitsValue(s[..|s| - 1]) * 10 + (s[|s| - 1] as int - '0' as int)
  }

  /** `String.valueOf(int)`: a minus sign for negative numbers, then the digits of the magnitude. */
  function ValueOf(n: int32): (s: string)
    ensures |s| > 0 && IsDigit(s[|s| - 1])
    ensures s[0] == '-' <==> n < 0
  {
    if n < 0 then "-" + NatToString(-(n as int)) else NatToString(n as int)
  }

  /**
   * `Integer.valueOf(String)`, that is `Integer.parseInt(s, 10)`: an optional `-` or `+`
   * followed by at least one decimal digit, denoting a value in the range of `int`.
   * Everything else raises NumberFormatException, modelled as None.
   */
  function ParseInt(s: string): (r: Option<int32>)
    ensures r.Some? ==> |s| > 0 && IsDigit(s[|s| - 1])
    ensures r.Some? && r.value < 0 ==> s[0] == '-'
  {
    if s == [] then None
    else
      var digits := if s[0] == '-' || s[0] == '+' then s[1..] else s;
      if digits == [] || !AllDigits(digits) then None
      else
        var v := if s[0] == '-' then -(DigitsValue(digits) as int) else DigitsValue(digits) as int;
        if -0x8000_0000 <= v < 0x8000_0000 then Some(v as int32) else None
  }

  lemma {:induction false} DigitsOfNat(n: nat)
    ensures DigitsValue(NatToString(n)) == n
    decreases n
  {
    if n >= 10 {
      var s := NatToString(n);
      assert s[..|s| - 1] == NatToString(n / 10);
      DigitsOfNat(n / 10);
    }
  }

  /** Parsing what `String.valueOf` printed gives back the same `int`. */
  lemma ParseValueOf(n: int32)
    ensures ParseInt(ValueOf(n)) == Some(n)
  {
    var s := ValueOf(n);
    if n < 0 {
      assert s[1..] == NatToString(-(n as int));
      DigitsOfNat(-(n as int));
    } else {
      DigitsOfNat(n as int);
    }
  }
}
