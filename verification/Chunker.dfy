/** Reading a file in chunks from storage that may return less than asked for. */
module Chunker {
  import opened Types
  import Geometry

  /** One read call: some bytes, at least one unless nothing is asked for or the end is reached. */
  method ReadSome(content: Bytes, pos: nat, limit: nat) returns (n: nat)
    ensures n <= limit && (n > 0 ==> pos + n <= |content|)
    ensures n == 0 <==> limit == 0 || pos >= |content|
  {
    if limit == 0 || pos >= |content| {
      return 0;
    }
    var most := Min(limit, |content| - pos);
    n :| 1 <= n <= most;
  }

  /** Chunks `from` to `to` of a file. */
  function ChunkRange(src: Bytes, cs: nat, from: nat, to: nat): (chunks: seq<Bytes>)
    requires from <= to
    ensures |chunks| == to - from
  {
    seq(to - from, i requires 0 <= i => ChunkOf(src, cs, from + i))
  }

  function Join(chunks: seq<Bytes>): Bytes {
    if chunks == [] then [] else Join(chunks[..|chunks| - 1]) + chunks[|chunks| - 1]
  }

  /** The read loop: goes on until the buffer is full or the end of the contents is reached. */
  method ReadFully(content: Bytes, offset: nat, readSize: nat) returns (data: Bytes)
    ensures |data| <= readSize && (offset + |data| <= |content| || data == [])
    ensures forall i | 0 <= i < |data| :: data[i] == content[offset + i]
    ensures |data| == readSize || offset + |data| >= |content|
  {
    var buf := new Byte[readSize];
    var total := 0;
    while total < readSize
      invariant 0 <= total <= readSize
      invariant total > 0 ==> offset + total <= |content|
      invariant forall i | 0 <= i < total :: buf[i] == content[offset + i]
    {
      var n := ReadSome(content, offset + total, readSize - total);
      if n == 0 {
        break;
      }
      forall i | 0 <= i < n {
        buf[total + i] := content[offset + total + i];
      }
      total := total + n;
    }
    data := buf[..total];
  }

  /** Bytes read from a chunk's offset up to its size or the end of the contents are the chunk of what was
      visible of the file. */
  lemma WholeChunk(content: Bytes, fileSize: nat, cs: nat, c: nat, data: Bytes)
    requires c * cs + |data| <= |content| || data == []
    requires forall i | 0 <= i < |data| :: data[i] == content[c * cs + i]
    requires |data| <= (if c * cs <= fileSize then Min(fileSize - c * cs, cs) else 0)
    requires |data| == (if c * cs <= fileSize then Min(fileSize - c * cs, cs) else 0) || c * cs + |data| >= |content|
    ensures data == ChunkOf(content[..Min(fileSize, |content|)], cs, c)
    ensures fileSize == |content| ==> data == ChunkOf(content, cs, c)
  {
    var visible := content[..Min(fileSize, |content|)];
    assert fileSize == |content| ==> visible == content;
    var chunk := ChunkOf(visible, cs, c);
    assert |data| == |chunk|;
    forall i | 0 <= i < |data| ensures data[i] == chunk[i] {
    }
  }

  class FileChunker {
    const content: Bytes
    const chunkSize: ChunkSize
    const fileSize: nat

    /** The size is taken when the file is opened; the contents may be read later. */
    constructor (content: Bytes, chunkSize: ChunkSize, fileSize: nat)
      ensures this.content == content && this.chunkSize == chunkSize && this.fileSize == fileSize
    {
      this.content, this.chunkSize, this.fileSize := content, chunkSize, fileSize;
    }

    function Count(): (n: nat)
      ensures n >= 1
    {
      Geometry.CountCovers(fileSize, chunkSize);
      ChunkCount(fileSize, chunkSize)
    }

    /** What there is to be read: nothing behind the size found when the file was opened. */
    function Visible(): Bytes {
      content[..Min(fileSize, |content|)]
    }

    /** Reads one chunk with as many short reads as it takes; for a file that did not change its size
        that is the whole chunk, else what is there of it. */
    method ReadChunk(c: nat) returns (data: Bytes)
      ensures fileSize == |content| ==> data == ChunkOf(content, chunkSize, c)
      ensures data == ChunkOf(Visible(), chunkSize, c)
    {
      var offset := c * chunkSize;
      var remaining := if offset <= fileSize then fileSize - offset else 0;
      var readSize := Min(remaining, chunkSize);
      data := ReadFully(content, offset, readSize);
      WholeChunk(content, fileSize, chunkSize, c, data);
    }

    /** Streams chunks from `start` on into a channel whose receiver accepts the first `accepts` of them
        and then goes away; also of a file that was cut or grew in the meantime. */
    method StreamChunks(start: nat, accepts: nat) returns (sent: seq<Bytes>)
      ensures start <= Count() ==>
                sent == ChunkRange(Visible(), chunkSize, start, Min(Count(), start + accepts))
      ensures start > Count() ==> sent == []
      ensures fileSize == |content| ==> Visible() == content
    {
      sent := [];
      var total := Count();
      if start > total {
        return;
      }
      for offset := start to total
        invariant offset - start <= accepts
        invariant sent == ChunkRange(Visible(), chunkSize, start, offset)
      {
        var chunk := ReadChunk(offset);
        if |sent| == accepts {
          return;
        }
        sent := sent + [chunk];
      }
    }
  }

  lemma {:induction false} JoinOfRange(src: Bytes, cs: nat, n: nat)
    ensures Join(ChunkRange(src, cs, 0, n)) == Geometry.JoinChunks(src, cs, n)
  {
    if n > 0 {
      JoinOfRange(src, cs, n - 1);
      var chunks := ChunkRange(src, cs, 0, n);
      assert chunks[..n - 1] == ChunkRange(src, cs, 0, n - 1);
    }
  }

  /** A stream that starts at the first chunk and is taken to its end carries the file. */
  lemma FullStreamIsFile(src: Bytes, cs: ChunkSize)
    ensures Join(ChunkRange(src, cs, 0, ChunkCount(|src|, cs))) == src
  {
    JoinOfRange(src, cs, ChunkCount(|src|, cs));
    Geometry.JoinChunksIsFile(src, cs);
  }
}
