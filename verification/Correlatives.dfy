/** The printed form of a number: a prefix, a dash, and decimal digits padded with zeros on the left. */
module Correlatives {
  import opened Wrappers

  predicate IsDigit(c: char)
  {
    '0' <= c <= '9'
  }

  predicate AllDigits(s: string)
  {
    forall k :: 0 <= k < |s| ==> IsDigit(s[k])
  }

  function Digit(d: nat): char
    requires d < 10
  {
    ('0' as int + d) as char
  }

  function Digits(n: nat): string
  {
    if n < 10 then [Digit(n)] else Digits(n / 10) + [Digit(n % 10)]
  }

  function Zeros(n: nat): string
  {
    seq(n, _ => '0')
  }

  /** Fills up with zeros on the left; what is wide enough already stays as it is. */
  function PadStart(s: string, width: nat): string
  {
    if |s| >= width then s else Zeros(width - |s|) + s
  }

  function Value(s: string): nat
    requires AllDigits(s)
  {
    if s == [] then 0 else 10 * Value(s[..|s| - 1]) + (s[|s| - 1] as int - '0' as int)
  }

  function Print(prefix: string, n: nat, width: nat): string
  {
    prefix + "-" + PadStart(Digits(n), width)
  }

  datatype Printed = Printed(prefix: string, number: nat)

  /** Reads a number back: what follows the last dash, if it is all digits. */
  function Parse(text: string): Option<Printed>
  {
    if text == [] then None
    else
      var n := |text| - 1;
      if text[n] == '-' then Some(Printed(text[..n], 0))
      else if !IsDigit(text[n]) then None
      else
        var before := Parse(text[..n]);
        if before.None? then None
        else Some(before.value.(number := 10 * before.value.number + (text[n] as int - '0' as int)))
  }

  lemma {:induction false} DigitsRoundTrip(n: nat)
    ensures AllDigits(Digits(n)) && Value(Digits(n)) == n && Digits(n) != []
  {
    if n >= 10 {
      DigitsRoundTrip(n / 10);
      assert Digits(n)[..|Digits(n)| - 1] == Digits(n / 10);
    }
  }

  lemma {:induction false} ZerosHaveNoValue(k: nat, s: string)
    requires AllDigits(s)
    ensures AllDigits(Zeros(k) + s) && Value(Zeros(k) + s) == Value(s)
  {
    if s != [] {
      assert (Zeros(k) + s)[..k + |s| - 1] == Zeros(k) + s[..|s| - 1];
      ZerosHaveNoValue(k, s[..|s| - 1]);
    } else if k > 0 {
      assert Zeros(k) + s == Zeros(k) && Zeros(k)[..k - 1] == Zeros(k - 1) + s;
      ZerosHaveNoValue(k - 1, s);
    }
  }

  lemma {:induction false} ParseAfterDash(prefix: string, digits: string)
    requires AllDigits(digits)
    ensures Parse(prefix + "-" + digits) == Some(Printed(prefix, Value(digits)))
  {
    var text := prefix + "-" + digits;
    var n := |text| - 1;
    if digits == [] {
      assert text[..n] == prefix;
    } else {
      assert text[..n] == prefix + "-" + digits[..|digits| - 1];
      ParseAfterDash(prefix, digits[..|digits| - 1]);
    }
  }

  /** Whatever the prefix and the padding, and however wide the number, reading it back gives both. */
  lemma PrintRoundTrip(prefix: string, n: nat, width: nat)
    ensures Parse(Print(prefix, n, width)) == Some(Printed(prefix, n))
  {
    DigitsRoundTrip(n);
    if |Digits(n)| < width {
      ZerosHaveNoValue(width - |Digits(n)|, Digits(n));
    }
    ParseAfterDash(prefix, PadStart(Digits(n), width));
  }

  /** Numbers that print alike are the same number of the same prefix. */
  lemma PrintsApart(prefix: string, n: nat, other: string, m: nat, width: nat, otherWidth: nat)
    requires Print(prefix, n, width) == Print(other, m, otherWidth)
    ensures prefix == other && n == m
  {
    PrintRoundTrip(prefix, n, width);
    PrintRoundTrip(other, m, otherWidth);
  }
}
