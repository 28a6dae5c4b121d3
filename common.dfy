/** Scalar types and small wrappers shared by every component of the model. */
module Common {

  /** An unsigned byte, as `u8`. */
  type byte = x: int | 0 <= x < 0x100

  /** Fixed-width integers of the host interface. */
  type u32 = x: int | 0 <= x < 0x1_0000_0000
  type u64 = x: int | 0 <= x < 0x1_0000_0000_0000_0000
  type i32 = x: int | -0x8000_0000 <= x < 0x8000_0000

  type Bytes = seq<byte>

  /** A token identifier is the byte string that names the token. */
  type TokenIdentifier = Bytes

  /** An account address (32 bytes on chain; the length is not constrained here). */
  type Address = Bytes

  /** The identifier of the native currency, serialized as the four bytes `MOAX`. */
  const MoaxIdentifier: TokenIdentifier := [0x4D, 0x4F, 0x41, 0x58]

  /** The all-zero 32-byte address (`ManagedAddress::zero()`). */
  const ZeroAddress: Address :=
    [0, 0, 0, 0, 0, 0, 0, 0, 0, 0, 0, 0, 0, 0, 0, 0,
     0, 0, 0, 0, 0, 0, 0, 0, 0, 0, 0, 0, 0, 0, 0, 0]

  datatype Option<T> = None | Some(value: T)

  /** The outcome of an operation that can abort: the value, or what it aborted with. */
  datatype Result<T, E> = Ok(value: T) | Err(error: E)

  /** A Rust `panic!` / failed `assert!`, with its message. */
  datatype Panic = Panic(message: string)
}
