/** Small shared vocabulary: optional values, results, bytes and the protocol constants. */
module Prelude {

  datatype Option<+T> = None | Some(value: T)

  datatype Result<+T, +E> = Ok(value: T) | Err(error: E)

  newtype byte = n: int | 0 <= n < 0x100

  type bytes = seq<byte>

  /** Stream identifiers are unsigned 32-bit integers; 0 is reserved for frames without a stream. */
  type StreamId = n: nat | n < ID_SPACE

  const ID_SPACE: nat := 0x1_0000_0000

  /** Offsets and windows are unsigned 64-bit integers on the wire. */
  const U64_SPACE: nat := 0x1_0000_0000_0000_0000

  /** Target size of one Data frame. */
  const DATA_CHUNK: nat := 32 * 1024

  function Min(a: nat, b: nat): nat { if a <= b then a else b }

  function Max(a: nat, b: nat): nat { if a <= b then b else a }

  lemma NothingAdded<T>(s: seq<T>)
    ensures s + [] == s
  {
  }

  /** The bytes of an ASCII text. */
  function Ascii(s: string): (r: bytes)
    ensures |r| == |s|
  {
    seq(|s|, i requires 0 <= i < |s| => (s[i] as int % 0x100) as byte)
  }
}
