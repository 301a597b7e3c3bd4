/**
  Java `int` values and their decimal text: `Integer.toString` as the codec
  writes ids and y coordinates, `Integer.parseInt` as it reads them back.
*/
module Numbers {
  import opened Wrappers

  const MinInt: int := -0x8000_0000
  const MaxInt: int := 0x7fff_ffff

  /** A Java `int`. */
  type Int32 = x: int | -0x8000_0000 <= x <= 0x7fff_ffff

  /** Two's-complement wrap-around of Java `int` arithmetic. */
  function Wrap32(x: int): (r: Int32)
    ensures MinInt <= x <= MaxInt ==> r == x
    ensures x == MaxInt + 1 ==> r == MinInt
  {
    (x - MinInt) % 0x1_0000_0000 + MinInt
  }

  predicate IsDigit(c: char) {
    '0' <= c <= '9'
  }

  predicate AllDigits(s: string) {
    forall k :: 0 <= k < |s| ==> IsDigit(s[k])
  }

  function DigitValue(c: char): nat
    requires IsDigit(c)
  {
    c as int - '0' as int
  }

  function DigitChar(d: nat): (c: char)
    requires d < 10
    ensures IsDigit(c) && DigitValue(c) == d
  {
    ('0' as int + d) as char
  }

  /** The value of a run of decimal digits, most significant first. */
  function DigitsValue(ds: string): nat
    requires AllDigits(ds)
  {
    if ds == [] then 0 else DigitsValue(ds[..|ds| - 1]) * 10 + DigitValue(ds[|ds| - 1])
  }

  /** The shortest decimal text of `n`: no sign, no leading zero. */
  function NatToString(n: nat): (r: string)
    ensures r != [] && AllDigits(r)
    ensures DigitsValue(r) == n
    ensures |r| > 1 ==> r[0] != '0'
  {
    if n < 10 then [DigitChar(n)]
    else
      var r := NatToString(n / 10) + [DigitChar(n % 10)];
      assert r[..|r| - 1] == NatToString(n / 10);
      r
  }

  /** `Integer.toString(n)`. */
  function IntToString(n: int): string {
    if n < 0 then "-" + NatToString(-n) else NatToString(n)
  }

  /**
    `Integer.parseInt(s)`: an optional sign, then at least one ASCII digit, and
    the value must fit in an `int`; anything else is a NumberFormatException
    (None). The other Unicode decimal digits Java also accepts are refused here.
  */
  function ParseInt(s: string): Option<Int32> {
    if s == [] then None
    else
      var digits := if s[0] == '-' || s[0] == '+' then s[1..] else s;
      if digits == [] || !AllDigits(digits) then None
      else
        var n: int := if s[0] == '-' then 0 - DigitsValue(digits) as int else DigitsValue(digits);
        if MinInt <= n <= MaxInt then Some(n) else None
  }

  /** What `Integer.toString` writes, `Integer.parseInt` reads back unchanged. */
  lemma {:induction false} ParseIntRoundTrip(n: Int32)
    ensures ParseInt(IntToString(n)) == Some(n)
  {
    var s := IntToString(n);
    if n < 0 {
      assert s[1..] == NatToString(-(n as int));
    } else {
      var r := NatToString(n);
      assert IsDigit(r[0]);
    }
  }

  /** The text of an `int` is a sign and digits: no markup, no surrounding spaces. */
  lemma {:induction false} IntToStringShape(n: int)
    ensures var s := IntToString(n);
      s != [] && (forall k :: 0 <= k < |s| ==> s[k] == '-' || IsDigit(s[k]))
      && s[0] != ' ' && IsDigit(s[|s| - 1])
  {
    if n < 0 {
      var d := NatToString(-n);
      assert IntToString(n) == "-" + d;
      assert IntToString(n)[|IntToString(n)| - 1] == d[|d| - 1];
    }
  }
}
