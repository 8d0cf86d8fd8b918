/** Fixed-width unsigned integers, least significant byte first. */
module LittleEndian {
  import opened Common

  function Pow256(n: nat): (p: nat)
    ensures p > 0
  {
    if n == 0 then 1 else 256 * Pow256(n - 1)
  }

  /** The lowest `width` bytes of `n`. */
  function ToBytes(n: nat, width: nat): (r: seq<Byte>)
    ensures |r| == width
  {
    if width == 0 then [] else [n % 256] + ToBytes(n / 256, width - 1)
  }

  function FromBytes(b: seq<Byte>): (n: nat)
  {
    if b == [] then 0 else b[0] + 256 * FromBytes(b[1..])
  }

  lemma Fits(n: nat, width: nat)
    requires width > 0 && n < Pow256(width)
    ensures n / 256 < Pow256(width - 1)
  {
  }

  /** A number that fits is read back unchanged. */
  lemma {:induction false} NumberRoundTrip(n: nat, width: nat)
    requires n < Pow256(width)
    ensures FromBytes(ToBytes(n, width)) == n
  {
    if width > 0 {
      Fits(n, width);
      NumberRoundTrip(n / 256, width - 1);
      var b := ToBytes(n, width);
      assert b[1..] == ToBytes(n / 256, width - 1);
    }
  }

  /** Every byte string is the encoding of the number read from it, which fits. */
  lemma {:induction false} BytesRoundTrip(b: seq<Byte>)
    ensures ToBytes(FromBytes(b), |b|) == b && FromBytes(b) < Pow256(|b|)
  {
    if b != [] {
      BytesRoundTrip(b[1..]);
      assert FromBytes(b) / 256 == FromBytes(b[1..]) && FromBytes(b) % 256 == b[0];
    }
  }
}
