/** Bytes of a natural number, least significant first. */
module Bits {

  function Pow256(i: nat): (r: nat)
    ensures r >= 1
  {
    if i == 0 then 1 else 256 * Pow256(i - 1)
  }

  /** Byte `i` of `n` (byte 0 is the least significant). */
  function ByteOf(n: nat, i: nat): (b: nat)
    ensures b < 256
  {
    (n / Pow256(i)) % 256
  }

  /** The low bit of byte `i` is bit `8 * i` of the number. */
  lemma LowBitOfByte(n: nat, i: nat)
    ensures ByteOf(n, i) % 2 == (n / Pow256(i)) % 2
  {
    var x := n / Pow256(i);
    assert x == 256 * (x / 256) + x % 256;
  }

  lemma BytePowers()
    ensures Pow256(2) == 0x10000 && Pow256(3) == 0x1000000
  {
  }
}
