/**
 * Machine integer ranges and account keys of the on-chain program.
 * Integers are unbounded in Dafny; each width the program uses is a subset type,
 * so every value stored in a record is provably in range.
 */
module Primitives {

  const U8_MAX: int := 0xff
  const U16_MAX: int := 0xffff
  const U64_MAX: int := 0xffff_ffff_ffff_ffff
  const I64_MIN: int := -0x8000_0000_0000_0000
  const I64_MAX: int := 0x7fff_ffff_ffff_ffff

  type U8 = n: int | 0 <= n <= U8_MAX
  type U16 = n: int | 0 <= n <= U16_MAX
  type U64 = n: int | 0 <= n <= U64_MAX
  type I64 = n: int | I64_MIN <= n <= I64_MAX

  function ZeroBytes(n: nat): (s: seq<bv8>)
    ensures |s| == n && forall i :: 0 <= i < n ==> s[i] == 0
  {
    if n == 0 then [] else [0] + ZeroBytes(n - 1)
  }

  /** A 32-byte account key. */
  type Pubkey = s: seq<bv8> | |s| == 32 witness ZeroBytes(32)

  /** The all-zero key, `Pubkey::default()`. */
  const DEFAULT_KEY: Pubkey := ZeroBytes(32)

  datatype Option<+T> = None | Some(value: T)
}
