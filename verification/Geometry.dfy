/** Chunk geometry: how a chunk size cuts a file, and when sender and receiver cut alike. */
module Geometry {
  import opened Types

  /** The chunk count is the least number of chunks that covers the file. */
  lemma CountCovers(size: nat, cs: nat)
    requires cs > 0
    ensures ChunkCount(size, cs) >= 1
    ensures size <= ChunkCount(size, cs) * cs
    ensures size > 0 ==> (ChunkCount(size, cs) - 1) * cs < size
  {
    if size > 0 {
      var q, r := (size + cs - 1) / cs, (size + cs - 1) % cs;
      assert size + cs - 1 == q * cs + r;
      assert (q - 1) * cs == q * cs - cs;
    }
  }

  lemma MulMono(a: nat, b: nat, cs: nat)
    requires a <= b
    ensures a * cs <= b * cs
  {
    assert (b - a) * cs == b * cs - a * cs;
    assert (b - a) * cs >= 0;
  }

  /** Converse of `CountCovers`: those bounds determine the count. */
  lemma CountIs(size: nat, cs: nat, n: nat)
    requires cs > 0 && size > 0
    requires n >= 1 && (n - 1) * cs < size <= n * cs
    ensures ChunkCount(size, cs) == n
  {
    CountCovers(size, cs);
    var m := ChunkCount(size, cs);
    if m < n {
      MulMono(m, n - 1, cs);
    } else if n < m {
      MulMono(n, m - 1, cs);
    }
  }

  /** Every chunk below the count starts inside the file (or at 0 for an empty one), ends inside it,
      is full except possibly the last, and is nonempty unless the file is. */
  lemma ChunkShape(src: Bytes, cs: nat, c: nat)
    requires cs > 0 && c < ChunkCount(|src|, cs)
    ensures c * cs <= |src|
    ensures |ChunkOf(src, cs, c)| == Min(cs, |src| - c * cs)
    ensures c * cs + |ChunkOf(src, cs, c)| == Min(|src|, (c + 1) * cs)
    ensures ChunkOf(src, cs, c) == src[c * cs..c * cs + |ChunkOf(src, cs, c)|]
    ensures src != [] ==> ChunkOf(src, cs, c) != []
    ensures c + 1 < ChunkCount(|src|, cs) ==> |ChunkOf(src, cs, c)| == cs
  {
    CountCovers(|src|, cs);
    var n := ChunkCount(|src|, cs);
    assert (c + 1) * cs == c * cs + cs;
    if src == [] {
      assert c == 0;
    } else {
      MulMono(c, n - 1, cs);
      if c + 1 < n {
        MulMono(c + 1, n - 1, cs);
      }
    }
  }

  /** Byte offsets below the count never leave the 64-bit range, nor does the end of any chunk. */
  lemma OffsetsInRange(src: Bytes, cs: nat, c: nat)
    requires cs > 0 && |src| < U64_LIMIT && c < ChunkCount(|src|, cs)
    ensures c * cs < U64_LIMIT
    ensures c * cs + |ChunkOf(src, cs, c)| <= |src|
  {
    ChunkShape(src, cs, c);
  }

  /** The first `n` chunks of a file, joined. */
  function JoinChunks(src: Bytes, cs: nat, n: nat): Bytes {
    if n == 0 then [] else JoinChunks(src, cs, n - 1) + ChunkOf(src, cs, n - 1)
  }

  lemma {:induction false} JoinIsPrefix(src: Bytes, cs: nat, n: nat)
    requires cs > 0 && n <= ChunkCount(|src|, cs)
    ensures JoinChunks(src, cs, n) == src[..Min(|src|, n * cs)]
  {
    if n > 0 {
      JoinIsPrefix(src, cs, n - 1);
      ChunkShape(src, cs, n - 1);
      var a, b := (n - 1) * cs, Min(|src|, n * cs);
      assert src[..b] == src[..a] + src[a..b];
    }
  }

  /** Reading all chunks in order and joining them gives the file back. */
  lemma JoinChunksIsFile(src: Bytes, cs: nat)
    requires cs > 0
    ensures JoinChunks(src, cs, ChunkCount(|src|, cs)) == src
  {
    JoinIsPrefix(src, cs, ChunkCount(|src|, cs));
    CountCovers(|src|, cs);
    assert src[..|src|] == src;
  }

  /** The chunk sizes of the two sides coincide exactly for small files and for a base of 4 MiB. */
  lemma ChunkSizesCoincide(size: nat, base: ChunkSize)
    ensures EffectiveChunkSize(size, base) == base
       <==> size <= LARGE_FILE_THRESHOLD || base == SCALED_CHUNK_CAP
  {
  }

  /** The sender's chunk size: the base up to 1 GiB; above, twice the base but no more than 4 MiB. */
  lemma EffectiveSizeIs(size: nat, base: ChunkSize)
    ensures size <= GIB ==> EffectiveChunkSize(size, base) == base
    ensures size > GIB && base <= 2 * MIB ==> EffectiveChunkSize(size, base) == 2 * base
    ensures size > GIB && base > 2 * MIB ==> EffectiveChunkSize(size, base) == 4 * MIB
  {
  }

  /** Cutting larger gives no more chunks. */
  lemma LargerChunksAreFewer(size: nat, a: nat, b: nat)
    requires 0 < a <= b
    ensures ChunkCount(size, b) <= ChunkCount(size, a)
  {
    var n, m := ChunkCount(size, a), ChunkCount(size, b);
    CountCovers(size, a);
    CountCovers(size, b);
    assert n * b - n * a == n * (b - a) >= 0;
    if size > 0 && n < m {
      MulMono(n, m - 1, b);
    }
  }

  /** For a large file and a base up to 2 MiB the sender cuts strictly fewer chunks than the
      receiver's writer waits for. */
  lemma LargeFileSendsTooFew(size: nat, base: ChunkSize)
    requires size > LARGE_FILE_THRESHOLD && base <= 2 * MIB
    ensures EffectiveChunkSize(size, base) == 2 * base
    ensures ChunkCount(size, EffectiveChunkSize(size, base)) < ChunkCount(size, base)
  {
    var eff := EffectiveChunkSize(size, base);
    var n, m := ChunkCount(size, base), ChunkCount(size, eff);
    CountCovers(size, base);
    CountCovers(size, eff);
    assert (m - 1) * eff == (2 * (m - 1)) * base;
    assert n > 2 * (m - 1) by {
      if n <= 2 * (m - 1) { MulMono(n, 2 * (m - 1), base); }
    }
    assert m != 1;
  }
}
