/** Python's `str(n)` and `int(s)` for integers written in ASCII decimal. */
module Decimal {
  import opened Wrappers

  predicate IsDigit(c: char)
  {
    '0' <= c <= '9'
  }

  predicate AllDigits(s: string)
  {
    forall i :: 0 <= i < |s| ==> IsDigit(s[i])
  }

  function DigitChar(d: nat): (c: char)
    requires d < 10
    ensures IsDigit(c)
  {
    ('0' as int + d) as char
  }

  function DigitValue(c: char): nat
    requires IsDigit(c)
  {
    c as int - '0' as int
  }

  /** The decimal digits of n, without leading zeros. */
  function NatToDigits(n: nat): (s: string)
    ensures |s| >= 1 && AllDigits(s)
    ensures (s[0] == '0') <==> (n == 0)
    decreases n
  {
    if n < 10 then [DigitChar(n)] else NatToDigits(n / 10) + [DigitChar(n % 10)]
  }

  /** The number a string of decimal digits denotes. */
  function DigitsValue(s: string): nat
    requires AllDigits(s)
  {
    if s == [] then 0 else DigitsValue(s[..|s| - 1]) * 10 + DigitValue(s[|s| - 1])
  }

  lemma {:induction false} DigitsValueOfNatToDigits(n: nat)
    ensures DigitsValue(NatToDigits(n)) == n
    decreases n
  {
    if n >= 10 {
      var s := NatToDigits(n);
      var prefix := NatToDigits(n / 10);
      assert s[..|s| - 1] == prefix;
      DigitsValueOfNatToDigits(n / 10);
    }
  }

  /** `str(n)`: a minus sign for negative numbers, no sign otherwise. */
  function IntToString(n: int): (s: string)
    ensures |s| >= 1
    ensures s[0] == '-' <==> n < 0
    ensures s == "0" <==> n == 0
  {
    if n < 0 then "-" + NatToDigits(-n) else NatToDigits(n)
  }

  /** The whitespace stripped by `int()` as modelled here: space and the ASCII
      controls TAB to CR. */
  predicate IsSpace(c: char)
  {
    c == ' ' || 9 <= c as int <= 13
  }

  function TrimLeft(s: string): string
  {
    if |s| > 0 && IsSpace(s[0]) then TrimLeft(s[1..]) else s
  }

  function TrimRight(s: string): string
  {
    if |s| > 0 && IsSpace(s[|s| - 1]) then TrimRight(s[..|s| - 1]) else s
  }

  /** `int(s)` for a str: surrounding whitespace, an optional sign, then at
      least one decimal digit; None where Python raises ValueError. */
  function ParseInt(s: string): (r: Option<int>)
    ensures |s| > 0 && AllDigits(s) ==> r == Some(DigitsValue(s))
  {
    var t := TrimRight(TrimLeft(s));
    if |t| > 0 && (t[0] == '+' || t[0] == '-') then
      var body := t[1..];
      if |body| > 0 && AllDigits(body) then
        var magnitude: int := DigitsValue(body);
        Some(if t[0] == '-' then -magnitude else magnitude)
      else None
    else if |t| > 0 && AllDigits(t) then Some(DigitsValue(t))
    else None
  }

  /** A string that neither starts nor ends with whitespace is unchanged by
      stripping. */
  lemma TrimUnchanged(s: string)
    requires |s| > 0 && !IsSpace(s[0]) && !IsSpace(s[|s| - 1])
    ensures TrimRight(TrimLeft(s)) == s
  {
  }

  /** `int(str(n)) == n` */
  lemma ParseIntToString(n: int)
    ensures ParseInt(IntToString(n)) == Some(n)
  {
    var digits := NatToDigits(if n < 0 then -n else n);
    var s := IntToString(n);
    assert IsDigit(digits[|digits| - 1]);
    DigitsValueOfNatToDigits(if n < 0 then -n else n);
    if n < 0 {
      assert s == "-" + digits;
      assert s[|s| - 1] == digits[|digits| - 1];
      TrimUnchanged(s);
      assert s[1..] == digits;
    } else {
      assert s == digits;
    }
  }

  /** `int('+' + str(n)) == n` for a positive n. */
  lemma ParseIntSigned(n: nat)
    ensures ParseInt("+" + NatToDigits(n)) == Some(n)
  {
    var digits := NatToDigits(n);
    var s := "+" + digits;
    assert IsDigit(digits[|digits| - 1]);
    assert s[|s| - 1] == digits[|digits| - 1];
    TrimUnchanged(s);
    assert s[1..] == digits;
    DigitsValueOfNatToDigits(n);
  }
}
