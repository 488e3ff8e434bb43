/** Bytes and the machine integers that messages are made of. */
module Octets {

  type byte = b: int | 0 <= b < 0x100
  type u16 = n: int | 0 <= n < 0x1_0000
  type u32 = n: int | 0 <= n < 0x1_0000_0000
  type u64 = n: int | 0 <= n < 0x1_0000_0000_0000_0000
  type i64 = n: int | -0x8000_0000_0000_0000 <= n < 0x8000_0000_0000_0000

  const TWO_16: nat := 0x1_0000
  const TWO_32: nat := 0x1_0000_0000
  const TWO_64: nat := 0x1_0000_0000_0000_0000

  type Bytes = seq<byte>

  /** The most a message can carry. */
  const MAX_PAYLOAD: nat := 1024 * 1024

  /** Conversions between signed and unsigned wrap around. */
  function Unsigned(n: i64): u64 {
    if n < 0 then n + TWO_64 else n
  }

  function Signed(n: u64): i64 {
    if n < 0x8000_0000_0000_0000 then n else n - TWO_64
  }

  lemma Glue(file: Bytes, pos: nat, next: nat)
    requires pos <= next <= |file|
    ensures file[..pos] + file[pos..next] == file[..next]
  {
  }
}
