/** Machine integers, addresses and the two result types used throughout. */
module Machine {

  const TWO_8: nat := 0x100
  const TWO_32: nat := 0x1_0000_0000
  const TWO_64: nat := 0x1_0000_0000_0000_0000

  type u8 = n: int | 0 <= n < 0x100
  type u32 = n: int | 0 <= n < 0x1_0000_0000

  /** A Solana address: 32 bytes. */
  type Pubkey = k: seq<u8> | |k| == 32 witness seq(32, _ => 0)

  const PUBKEY_BYTES: nat := 32

  /** The system program's address, 32 zero bytes. */
  const ZERO_KEY: Pubkey := seq(32, _ => 0)

  /** Only zero bytes: the data of an account that was given to a program and not yet written. */
  predicate Zeroed(b: seq<u8>) {
    forall i | 0 <= i < |b| :: b[i] == 0
  }

  datatype Option<+T> = None | Some(value: T)

  datatype Result<+T, +E> = Ok(value: T) | Err(error: E)

  /** The `as u8` cast. */
  function AsU8(n: nat): (r: u8) {
    n % TWO_8
  }

  /** usize arithmetic as the release build performs it: modulo 2^64. */
  function WrapAdd(a: nat, b: nat): nat {
    (a + b) % TWO_64
  }

  function WrapSub(a: nat, b: nat): nat {
    (a - b) % TWO_64
  }

  function WrapMul(a: nat, b: nat): nat {
    (a * b) % TWO_64
  }

  /** u32 increment as the release build performs it. */
  function WrapInc32(n: u32): u32 {
    (n + 1) % TWO_32
  }
}
