/** Go's `fmt` integer verbs: `%d` and the zero-padded `%0Nd`, together
    with the reading back that shows the formatted text determines the number. */
module Decimal {

  predicate IsDigit(c: char) { '0' <= c <= '9' }

  function DigitChar(d: nat): (c: char)
    requires d < 10
    ensures IsDigit(c)
  {
    (48 + d) as char
  }

  function DigitValue(c: char): nat
  {
    if IsDigit(c) then c as int - 48 else 0
  }

  /** Decimal digits of `n`, most significant first, without leading zeros. */
  function Digits(n: nat): (s: string)
    ensures |s| >= 1
    ensures forall i :: 0 <= i < |s| ==> IsDigit(s[i])
    decreases n
  {
    if n < 10 then [DigitChar(n)] else Digits(n / 10) + [DigitChar(n % 10)]
  }

  function Zeros(k: nat): (s: string)
    ensures |s| == k && forall i :: 0 <= i < k ==> s[i] == '0'
  {
    if k == 0 then [] else ['0'] + Zeros(k - 1)
  }

  /** `s` left-padded with '0' to at least `width` characters. */
  function ZeroPad(s: string, width: int): string
  {
    if |s| < width then Zeros(width - |s|) + s else s
  }

  /** What Go's `fmt.Sprintf("%0<width>d", n)` produces (`width == 0` is
      plain `%d`): the sign counts towards the width and the zeros go
      between the sign and the digits. */
  function PadInt(n: int, width: nat): (r: string)
    ensures |r| >= width && |r| >= 1
    ensures r[0] == '-' <==> n < 0
    ensures forall i :: 0 <= i < |r| ==> IsDigit(r[i]) || (i == 0 && r[i] == '-')
  {
    if n >= 0 then ZeroPad(Digits(n), width)
    else "-" + ZeroPad(Digits(-n), if width > 0 then width - 1 else 0)
  }

  function ParseNatFrom(s: string, acc: nat): nat
    decreases |s|
  {
    if s == [] then acc else ParseNatFrom(s[1..], acc * 10 + DigitValue(s[0]))
  }

  /** Reads a decimal number, optionally preceded by '-'. */
  function ParseInt(s: string): int
  {
    if |s| > 0 && s[0] == '-' then -(ParseNatFrom(s[1..], 0) as int) else ParseNatFrom(s, 0)
  }

  lemma {:induction false} ParseSnoc(s: string, c: char, acc: nat)
    ensures ParseNatFrom(s + [c], acc) == ParseNatFrom(s, acc) * 10 + DigitValue(c)
    decreases |s|
  {
    if s == [] {
      assert ([] + [c])[1..] == [];
    } else {
      assert (s + [c])[1..] == s[1..] + [c];
      ParseSnoc(s[1..], c, acc * 10 + DigitValue(s[0]));
    }
  }

  lemma {:induction false} ParseDigits(n: nat)
    ensures ParseNatFrom(Digits(n), 0) == n
    decreases n
  {
    if n < 10 {
      assert [DigitChar(n)][1..] == [];
    } else {
      ParseDigits(n / 10);
      ParseSnoc(Digits(n / 10), DigitChar(n % 10), 0);
    }
  }

  lemma {:induction false} ParseLeadingZeros(k: nat, s: string)
    ensures ParseNatFrom(Zeros(k) + s, 0) == ParseNatFrom(s, 0)
  {
    if k > 0 {
      assert (Zeros(k) + s)[0] == '0' && DigitValue('0') == 0;
      var t := Zeros(k) + s;
      assert t[1..] == Zeros(k - 1) + s;
      assert ParseNatFrom(t, 0) == ParseNatFrom(t[1..], 0);
      ParseLeadingZeros(k - 1, s);
    } else {
      assert Zeros(k) + s == s;
    }
  }

  lemma ParseZeroPad(n: nat, width: int)
    ensures ParseNatFrom(ZeroPad(Digits(n), width), 0) == n
  {
    ParseDigits(n);
    if |Digits(n)| < width { ParseLeadingZeros(width - |Digits(n)|, Digits(n)); }
  }

  /** Round trip: the padded text reads back as the number it was made from. */
  lemma ParsePadInt(n: int, width: nat)
    ensures ParseInt(PadInt(n, width)) == n
  {
    if n >= 0 {
      ParseZeroPad(n, width);
    } else {
      var w := if width > 0 then width - 1 else 0;
      assert PadInt(n, width)[1..] == ZeroPad(Digits(-n), w);
      ParseZeroPad(-n, w);
    }
  }

  /** Different numbers never format alike at the same width. */
  lemma PadIntInjective(a: int, b: int, width: nat)
    requires PadInt(a, width) == PadInt(b, width)
    ensures a == b
  {
    ParsePadInt(a, width);
    ParsePadInt(b, width);
  }
}
