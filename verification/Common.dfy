/** Values shared by every component: bytes, optional values, results and digests. */
module Common {

  newtype byte = b: int | 0 <= b < 256

  type Bytes = seq<byte>

  const QUOTE: byte := 34
  const BACKSLASH: byte := 92

  /** The largest envelope any component takes. */
  const MAX_ENVELOPE_BYTES := 65536

  datatype Option<+T> = None | Some(value: T)

  datatype Result<+T, +E> = Ok(value: T) | Err(error: E)

  /** SHA-256 as an injective function: a digest is equal to another exactly when
      the bytes it was taken over are equal. */
  datatype Digest = Sha256(preimage: Bytes)
}
