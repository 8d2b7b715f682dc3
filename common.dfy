/** Shared value types: bytes, integer widths, and the error-carrying
    results that stand for Rust's `Option`, `anyhow::Result` and panics. */
module Common {

  /** A `u8`. */
  type byte = b: int | 0 <= b < 256

  /** 2^32 and 2^64: the ranges of `u32` and of `u64`/`usize` on a 64-bit host. */
  const U32_MODULUS: int := 0x1_0000_0000
  const U64_MODULUS: int := 0x1_0000_0000_0000_0000

  /** A 20-byte digest: the RIPEMD-160 of a SHA-256. Namespace ids (nsids)
      are such digests. */
  type Hash160 = s: seq<byte> | |s| == 20
    witness [0, 0, 0, 0, 0, 0, 0, 0, 0, 0, 0, 0, 0, 0, 0, 0, 0, 0, 0, 0]
  type Nsid = Hash160

  /** An x-only public key, as bytes. */
  type Pubkey = seq<byte>

  datatype Option<+T> = None | Some(value: T)

  /** An `anyhow::Error` (`Message`) or a panic (`expect`, `unwrap`, an
      arithmetic overflow) that ends the program (`Panic`). */
  datatype Error =
    | Message(text: string)
    | Panic(text: string)

  datatype Result<+T> = Ok(value: T) | Err(error: Error)
}
