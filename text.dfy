/**
 Byte strings and the decimal rendering of counts.

 Go strings are byte sequences: `len` and slicing count bytes, not characters.
 The messages of the thought log are built from ASCII literals and from `%d`
 renderings of non-negative integers; both are defined here.
 */
module Text {

  newtype Byte = b: int | 0 <= b < 256

  type Bytes = seq<Byte>

  /** The bytes of an ASCII literal (every literal used by the model is ASCII). */
  function Ascii(s: string): Bytes
  {
    seq(|s|, i requires 0 <= i < |s| => (s[i] as int % 256) as Byte)
  }

  /** Converting a concatenation converts the two parts. */
  lemma AsciiConcat(x: string, y: string)
    ensures Ascii(x + y) == Ascii(x) + Ascii(y)
  {
  }

  /** Concatenation of byte strings regroups freely. */
  lemma ConcatAssociative(x: Bytes, y: Bytes, z: Bytes)
    ensures (x + y) + z == x + (y + z)
  {
  }

  const ZeroDigit: Byte := 48

  predicate IsDigit(b: Byte)
  {
    ZeroDigit <= b <= ZeroDigit + 9
  }

  predicate AllDigits(s: Bytes)
  {
    forall i :: 0 <= i < |s| ==> IsDigit(s[i])
  }

  function Digit(d: nat): (b: Byte)
    requires d < 10
    ensures IsDigit(b)
  {
    ZeroDigit + d as Byte
  }

  /**
   What Go's `%d` verb prints for a non-negative integer: its base-10 digits,
   most significant first, with no sign and no leading zero.
   */
  function Decimal(n: nat): (r: Bytes)
    ensures |r| > 0 && AllDigits(r)
    ensures r[0] == ZeroDigit <==> n == 0
    decreases n
  {
    if n < 10 then [Digit(n)] else Decimal(n / 10) + [Digit(n % 10)]
  }

  /** The value of a string of decimal digits, the inverse of Decimal. */
  function DigitsValue(s: Bytes): nat
    requires AllDigits(s)
    decreases |s|
  {
    if s == [] then 0
    else DigitsValue(s[..|s| - 1]) * 10 + (s[|s| - 1] - ZeroDigit) as int
  }

  /** Reading back a rendered number gives the number. */
  lemma {:induction false} DecimalRoundTrip(n: nat)
    ensures DigitsValue(Decimal(n)) == n
    decreases n
  {
    if n >= 10 {
      var r := Decimal(n);
      assert r[..|r| - 1] == Decimal(n / 10);
      DecimalRoundTrip(n / 10);
    }
  }

  /** Distinct numbers have distinct renderings. */
  lemma DecimalInjective(m: nat, n: nat)
    requires Decimal(m) == Decimal(n)
    ensures m == n
  {
    DecimalRoundTrip(m);
    DecimalRoundTrip(n);
  }
}
