/** Text as the source's runtime sees it: a sequence of UTF-16 code units. */
module Utf16 {
  type Unit = u: int | 0 <= u < 0x1_0000

  type Text = seq<Unit>

  /** A source-code literal as text. Every literal used here is plain ASCII. */
  function Ascii(s: string): (t: Text)
    ensures |t| == |s|
    ensures forall i | 0 <= i < |s| :: s[i] as int < 0x80 ==> t[i] == s[i] as int
  {
    seq(|s|, i requires 0 <= i < |s| => if s[i] as int < 0x80 then s[i] as int else 0xFFFD)
  }

  predicate IsDigit(u: Unit) {
    0x30 <= u <= 0x39
  }

  predicate IsHex(u: Unit) {
    IsDigit(u) || 0x41 <= u <= 0x46 || 0x61 <= u <= 0x66
  }

  function HexDigitValue(u: Unit): (n: nat)
    requires IsHex(u)
    ensures n < 16
  {
    if u <= 0x39 then u - 0x30 else if u <= 0x46 then u - 0x41 + 10 else u - 0x61 + 10
  }

  /** The lower-case hexadecimal digit for a value below 16. */
  function HexDigit(n: nat): (u: Unit)
    requires n < 16
    ensures IsHex(u) && HexDigitValue(u) == n
  {
    if n < 10 then 0x30 + n else 0x61 + n - 10
  }

  /** Decimal rendering of a non-negative integer, without leading zeros. */
  function Decimal(n: nat): (t: Text)
    ensures t != [] && forall i | 0 <= i < |t| :: IsDigit(t[i])
    ensures t[0] == 0x30 ==> n == 0 && |t| == 1
  {
    if n < 10 then [0x30 + n] else Decimal(n / 10) + [0x30 + n % 10]
  }

  /** Decimal rendering loses nothing. */
  lemma {:induction false} DecimalInjective(m: nat, n: nat)
    requires Decimal(m) == Decimal(n)
    ensures m == n
  {
    var s, t := Decimal(m), Decimal(n);
    assert s[|s| - 1] == 0x30 + m % 10 && t[|t| - 1] == 0x30 + n % 10;
    if m >= 10 && n >= 10 {
      assert Decimal(m / 10) == s[..|s| - 1] && Decimal(n / 10) == t[..|t| - 1];
      DecimalInjective(m / 10, n / 10);
    }
  }
}
