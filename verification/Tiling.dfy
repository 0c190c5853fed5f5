/** How a file is cut into chunks, and the three places that compute a chunk's length. */
module Tiling {

  /** The number of chunks: one when the size is unknown (zero or negative). */
  function TotalChunks(totalSize: int, chunkSize: int): (n: int)
    requires chunkSize > 0
    ensures n >= 1
    ensures totalSize > 0 ==> (n - 1) * chunkSize < totalSize <= n * chunkSize
  {
    if totalSize <= 0 then 1
    else
      DivisionBounds(totalSize + chunkSize - 1, chunkSize);
      (totalSize + chunkSize - 1) / chunkSize
  }

  function Start(chunk: nat, chunkSize: nat): nat {
    chunk * chunkSize
  }

  /** The last byte of a chunk, inclusive, as it goes into the Range header. */
  function RangeEnd(chunk: nat, totalSize: nat, chunkSize: nat): int {
    var last := Start(chunk, chunkSize) + chunkSize - 1;
    if last < totalSize - 1 then last else totalSize - 1
  }

  /** The number of bytes the fetcher expects for a chunk of a file of known size. */
  function FetchLength(chunk: nat, totalSize: nat, chunkSize: nat): int {
    RangeEnd(chunk, totalSize, chunkSize) - Start(chunk, chunkSize) + 1
  }

  /** The length formula that the hasher and the progress counter use. */
  function Length(chunk: nat, totalSize: nat, chunkSize: nat): int {
    var rest := totalSize - Start(chunk, chunkSize);
    if chunkSize < rest then chunkSize else rest
  }

  /** Byte b lies in the chunk's inclusive range. */
  predicate InChunk(b: int, chunk: nat, totalSize: nat, chunkSize: nat) {
    Start(chunk, chunkSize) <= b <= RangeEnd(chunk, totalSize, chunkSize)
  }

  lemma DivisionBounds(a: int, d: int)
    requires d > 0
    ensures (a / d) * d <= a < (a / d + 1) * d
  {
    assert a == d * (a / d) + a % d;
  }

  lemma MulMonotone(a: int, b: int, d: int)
    requires a <= b && d >= 0
    ensures a * d <= b * d
  {
    assert b * d - a * d == (b - a) * d;
  }

  /** Every chunk is non-empty, lies inside the file, and all three length formulas agree on it. */
  lemma LengthsAgree(chunk: nat, totalSize: nat, chunkSize: nat)
    requires totalSize > 0 && chunkSize > 0 && chunk < TotalChunks(totalSize, chunkSize)
    ensures FetchLength(chunk, totalSize, chunkSize) == Length(chunk, totalSize, chunkSize)
    ensures 0 < Length(chunk, totalSize, chunkSize) <= chunkSize
    ensures Start(chunk, chunkSize) + Length(chunk, totalSize, chunkSize) <= totalSize
    ensures chunk + 1 < TotalChunks(totalSize, chunkSize) ==> Length(chunk, totalSize, chunkSize) == chunkSize
  {
    MulMonotone(chunk, TotalChunks(totalSize, chunkSize) - 1, chunkSize);
    if chunk + 1 < TotalChunks(totalSize, chunkSize) {
      MulMonotone(chunk + 1, TotalChunks(totalSize, chunkSize) - 1, chunkSize);
      assert (chunk + 1) * chunkSize == chunk * chunkSize + chunkSize;
    }
  }

  /** The chunk after this one starts past this one's bytes. */
  lemma ChunksOrdered(a: nat, b: nat, totalSize: nat, chunkSize: nat)
    requires chunkSize > 0 && a < b
    ensures Start(a, chunkSize) + Length(a, totalSize, chunkSize) <= Start(b, chunkSize)
  {
    MulMonotone(a + 1, b, chunkSize);
    assert (a + 1) * chunkSize == a * chunkSize + chunkSize;
  }

  /** The ranges tile the file: each byte lies in exactly one chunk. */
  lemma TilesExactly(b: nat, totalSize: nat, chunkSize: nat)
    requires chunkSize > 0 && b < totalSize
    ensures b / chunkSize < TotalChunks(totalSize, chunkSize)
    ensures forall c: nat :: InChunk(b, c, totalSize, chunkSize) <==> c == b / chunkSize
  {
    var home := b / chunkSize;
    var n := TotalChunks(totalSize, chunkSize);
    DivisionBounds(b, chunkSize);
    if home >= n {
      MulMonotone(n, home, chunkSize);
      assert false;
    }
    assert (home + 1) * chunkSize == home * chunkSize + chunkSize;
    forall c: nat ensures InChunk(b, c, totalSize, chunkSize) <==> c == home {
      if c < home {
        ChunksOrdered(c, home, totalSize, chunkSize);
      } else if c > home {
        MulMonotone(home + 1, c, chunkSize);
      }
    }
  }

  /** The lengths of the first k chunks, summed. */
  ghost function SumLengths(k: nat, totalSize: nat, chunkSize: nat): int {
    if k == 0 then 0 else SumLengths(k - 1, totalSize, chunkSize) + Length(k - 1, totalSize, chunkSize)
  }

  /** Summing chunk by chunk reaches the start of the next chunk, and in the end the file's size. */
  lemma {:induction false} LengthsSum(k: nat, totalSize: nat, chunkSize: nat)
    requires totalSize > 0 && chunkSize > 0 && k <= TotalChunks(totalSize, chunkSize)
    ensures SumLengths(k, totalSize, chunkSize)
         == if k < TotalChunks(totalSize, chunkSize) then Start(k, chunkSize) else totalSize
  {
    if k > 0 {
      LengthsSum(k - 1, totalSize, chunkSize);
      LengthsAgree(k - 1, totalSize, chunkSize);
      assert Start(k, chunkSize) == Start(k - 1, chunkSize) + chunkSize;
    }
  }
}
