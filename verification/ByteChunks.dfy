/** A byte stream that arrives in chunks. */
module ByteChunks {
  type Byte = n: int | 0 <= n < 0x100

  function Joined(chunks: seq<seq<Byte>>): seq<Byte> {
    if chunks == [] then [] else Joined(chunks[..|chunks| - 1]) + chunks[|chunks| - 1]
  }
}
