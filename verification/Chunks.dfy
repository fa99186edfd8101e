/** A file cut into chunks of 65536 bytes, the last one possibly shorter. */
module Chunks {
  import opened Bytes

  const CHUNK_SIZE: int := 65536

  function Min(a: int, b: int): int {
    if a < b then a else b
  }

  /** The number of chunks of an n-byte file: n / 65536 rounded up. */
  function ChunkCount(n: nat): nat {
    (n + CHUNK_SIZE - 1) / CHUNK_SIZE
  }

  /** Bytes [s*65536, min((s+1)*65536, size)) of the file; empty when there is no chunk s. */
  function ChunkAt(data: seq<Byte>, s: int): (c: seq<Byte>)
    ensures |c| <= CHUNK_SIZE
  {
    if 0 <= s && s * CHUNK_SIZE < |data|
    then data[s * CHUNK_SIZE..Min((s + 1) * CHUNK_SIZE, |data|)]
    else []
  }

  /** The first min(n*65536, size) bytes of the file. */
  function Prefix(data: seq<Byte>, n: nat): seq<Byte> {
    data[..Min(n * CHUNK_SIZE, |data|)]
  }

  lemma PrefixGrows(data: seq<Byte>, n: nat)
    ensures Prefix(data, n + 1) == Prefix(data, n) + ChunkAt(data, n)
  {}

  lemma PrefixFull(data: seq<Byte>, n: nat)
    ensures Prefix(data, n) == data <==> n >= ChunkCount(|data|)
  {
    if n < ChunkCount(|data|) {
      assert |Prefix(data, n)| < |data|;
    }
  }

  lemma ChunkExistsIff(data: seq<Byte>, s: int)
    ensures (0 <= s && s * CHUNK_SIZE < |data|) <==> 0 <= s < ChunkCount(|data|)
    ensures ChunkAt(data, s) != [] <==> 0 <= s < ChunkCount(|data|)
  {}
}
