/** Machine integers, fixed-size byte strings and the narrowing casts on them. */
module Bytes {
  import opened Wrappers

  type Byte = n: int | 0 <= n < 0x100
  type Bytes = seq<Byte>
  type U32 = n: int | 0 <= n < 0x1_0000_0000
  type I32 = n: int | -0x8000_0000 <= n <= 0x7FFF_FFFF

  type Pubkey = b: Bytes | |b| == 32 witness seq(32, _ => 0)
  type Hash = b: Bytes | |b| == 32 witness seq(32, _ => 0)
  type Signature = b: Bytes | |b| == 64 witness seq(64, _ => 0)

  /** `as u8`. */
  function AsByte(n: U32): Byte { n % 0x100 }

  function PubkeyFrom(b: Bytes): Option<Pubkey> {
    if |b| == 32 then Some(b) else None
  }

  function HashFrom(b: Bytes): Option<Hash> {
    if |b| == 32 then Some(b) else None
  }

  function SignatureFrom(b: Bytes): Option<Signature> {
    if |b| == 64 then Some(b) else None
  }
}
