/** Machine integers, identifiers and checked arithmetic shared by every module. */
module Common {
  datatype Option<+T> = None | Some(value: T)

  type byte = n: nat | n < 256

  const MAX_UINT64: nat := 0xFFFF_FFFF_FFFF_FFFF
  type uint64 = n: nat | n <= 0xFFFF_FFFF_FFFF_FFFF
  type int64 = n: int | -0x8000_0000_0000_0000 <= n < 0x8000_0000_0000_0000

  /** The value a uint64 operator without overflow check produces. */
  function Wrap64(n: int): (r: uint64)
    ensures 0 <= n <= MAX_UINT64 ==> r == n
  {
    n % 0x1_0000_0000_0000_0000
  }

  /** A 32-byte identifier, read as a big-endian number. */
  type Id = n: nat
    | n < 0x1_0000_0000_0000_0000_0000_0000_0000_0000_0000_0000_0000_0000_0000_0000_0000_0000
  const EMPTY_ID: Id := 0
  const ID_LEN: nat := 32

  /** A 32-byte ed25519 public key, read as a big-endian number. */
  type PublicKey = Id
  const EMPTY_PUBLIC_KEY: PublicKey := 0

  type bytes = seq<byte>
}
