// Fixed-width lower-case hexadecimal, as `format!("{:08x}")` writes it and as the scanner's
// escape loop reads it back.
module Hex {
  import opened CharTraits

  function Pow16(w: nat): (p: nat)
    ensures p >= 1
  {
    if w == 0 then 1 else 16 * Pow16(w - 1)
  }

  function Digits(n: nat, w: nat): (s: string)
    requires n < Pow16(w)
    ensures |s| == w
    ensures forall k :: 0 <= k < w ==> IsHex(s[k])
  {
    if w == 0 then [] else Digits(n / 16, w - 1) + [HexDigit(n % 16)]
  }

  // The value accumulated by the scanner's loop `value = (value << 4) + as_hex(c)`.
  function Value(s: string): (n: nat)
    requires forall k :: 0 <= k < |s| ==> IsHex(s[k])
    ensures n < Pow16(|s|)
  {
    if s == [] then 0 else 16 * Value(s[..|s| - 1]) + AsHex(s[|s| - 1])
  }

  lemma {:induction false} ValueOfDigits(n: nat, w: nat)
    requires n < Pow16(w)
    ensures Value(Digits(n, w)) == n
  {
    if w > 0 {
      ValueOfDigits(n / 16, w - 1);
      assert Digits(n, w)[..w - 1] == Digits(n / 16, w - 1);
    }
  }
}
