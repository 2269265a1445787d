/** Machine integers and public keys as the program stores them. */
module Primitives {

  type uint8 = x: int | 0 <= x < 0x100

  type uint64 = x: int | 0 <= x < 0x1_0000_0000_0000_0000

  const MAX_UINT64: uint64 := 0xFFFF_FFFF_FFFF_FFFF

  /** A 32-byte public key (`Pubkey`). */
  type Pubkey = s: seq<uint8> | |s| == 32 witness seq(32, _ => 0)

  /** `Pubkey::default()`, all zero bytes. */
  const ZERO_KEY: Pubkey :=
    [0, 0, 0, 0, 0, 0, 0, 0, 0, 0, 0, 0, 0, 0, 0, 0,
     0, 0, 0, 0, 0, 0, 0, 0, 0, 0, 0, 0, 0, 0, 0, 0]
}
