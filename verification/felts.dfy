/** Starknet field elements and the two integer conversions the indexer performs on them. */
module Felts {
  import opened Wrappers

  /** The Starknet field prime, 2^251 + 17 * 2^192 + 1. */
  const FELT_PRIME: nat := 0x800000000000011000000000000000000000000000000000000000000000001

  /** A field element, seen through its canonical representative. */
  type Felt = x: nat | x < FELT_PRIME

  /** 2^64 and 2^128: the first values that no longer fit in `u64` and `u128`. */
  const U64_LIMIT: nat := 0x1_0000_0000_0000_0000
  const U128_LIMIT: nat := 0x1_0000_0000_0000_0000_0000_0000_0000_0000

  /** `u64::try_from(felt)`: fails when the value needs more than 64 bits. */
  function ToU64(f: Felt): Option<nat>
  {
    if f < U64_LIMIT then Some(f) else None
  }

  /** `u128::try_from(felt)`: fails when the value needs more than 128 bits. */
  function ToU128(f: Felt): Option<bv128>
  {
    if f < U128_LIMIT then Some(f as bv128) else None
  }
}
