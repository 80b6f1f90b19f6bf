/** One file sent fresh when the two sides may cut differently: the sender cuts at `a`, the writer
    places chunk `i` at `i * b` and waits for its own count. */
module Mismatch {
  import opened Types
  import opened Storage
  import opened Reassembly
  import Geometry

  function UpTo(n: nat): (u: seq<nat>)
    ensures |u| == n && forall c | 0 <= c < n :: u[c] == c
  {
    if n == 0 then [] else UpTo(n - 1) + [n - 1]
  }

  lemma UpToIsBelow(n: nat)
    ensures DeliveredSet(UpTo(n)) == Below(n)
  {
    forall c: nat ensures c in DeliveredSet(UpTo(n)) <==> c in Below(n) {
      if c < n { assert UpTo(n)[c] == c; }
    }
  }

  /** The temporary file after the sender's chunks, in its order. */
  function Rebuilt(file: Bytes, src: Bytes, a: nat, b: nat): Bytes
    requires a > 0
  {
    Deliver(file, src, a, b, UpTo(ChunkCount(|src|, a)))
  }

  predicate CountsAgree(size: nat, a: nat, b: nat)
    requires a > 0 && b > 0
  {
    ChunkCount(size, a) == ChunkCount(size, b)
  }

  /** On a new writer: equal counts are what it takes for all chunks to be accepted and the writer to count
      as complete, and the rebuilt file is what its temporary file holds then. */
  lemma RebuiltOnWriter(w: Writer, disk: Disk, src: Bytes, a: nat)
    requires a > 0 && w.Temp() in disk && w.completed == {} && w.fileSize == |src|
    ensures var o := WriteAll(w, disk, src, a, UpTo(ChunkCount(|src|, a)));
            && (o.ok && o.writer.IsComplete() <==> CountsAgree(|src|, a, w.chunkSize))
            && (o.ok ==> w.Temp() in o.disk && o.disk[w.Temp()] == Rebuilt(disk[w.Temp()], src, a, w.chunkSize))
  {
    hide ChunkCount, Deliver;
    var n := ChunkCount(|src|, a);
    WritesDeliver(w, disk, src, a, UpTo(n));
    UpToIsBelow(n);
    var o := WriteAll(w, disk, src, a, UpTo(n));
    if o.ok {
      assert o.writer.completed == Below(n);
    }
    if n > w.Total() {
      assert UpTo(n)[n - 1] == n - 1;
    }
  }

  predicate Delivered(file: Bytes, src: Bytes, a: nat, b: nat)
    requires a > 0 && b > 0
  {
    CountsAgree(|src|, a, b) && Rebuilt(file, src, a, b) == src
  }

  /** Equal cuts deliver every file. */
  lemma EqualCutsDeliver(file: Bytes, src: Bytes, a: nat)
    requires a > 0 && |file| == |src|
    ensures Delivered(file, src, a, a)
  {
    var n := ChunkCount(|src|, a);
    UpToIsBelow(n);
    AllDeliveredIsSource(file, src, a, UpTo(n));
  }

  /** A sender that cuts smaller than the writer leaves the byte behind its first chunk unwritten,
      in whatever order it sends. */
  predicate GapStays(file: Bytes, src: Bytes, a: nat, b: nat, order: seq<nat>)
    requires |file| == |src| && a < |src|
  {
    var r := Deliver(file, src, a, b, order);
    |r| >= |src| && r[a] == file[a]
  }

  lemma {:induction false} SmallerCutLeavesGap(file: Bytes, src: Bytes, a: nat, b: nat, order: seq<nat>)
    requires 0 < a < b && |file| == |src| && a < |src|
    ensures GapStays(file, src, a, b, order)
  {
    if order != [] {
      var init, c := order[..|order| - 1], order[|order| - 1];
      SmallerCutLeavesGap(file, src, a, b, init);
      WriteMissesByte(Deliver(file, src, a, b, init), src, a, b, c);
    }
  }

  lemma WriteMissesByte(before: Bytes, src: Bytes, a: nat, b: nat, c: nat)
    requires 0 < a < b && a < |src| <= |before|
    ensures var r := WriteAt(before, c * b, ChunkOf(src, a, c));
            |r| >= |src| && r[a] == before[a]
  {
    if c > 0 { Geometry.MulMono(1, c, b); }
    assert |ChunkOf(src, a, c)| <= a;
    WrittenByte(before, c * b, ChunkOf(src, a, c), a);
  }

  /** A sender that cuts larger overwrites the byte where the writer's second chunk starts. */
  lemma {:induction false} LargerCutOverwrites(file: Bytes, src: Bytes, a: nat, b: nat, n: nat)
    requires 0 < b < a < |src| && |file| == |src| && n >= 2
    ensures |Deliver(file, src, a, b, UpTo(n))| >= |src|
    ensures Deliver(file, src, a, b, UpTo(n))[b] == src[a]
  {
    var before := Deliver(file, src, a, b, UpTo(n - 1));
    DeliverAppend(file, src, a, b, UpTo(n - 1), n - 1);
    if n == 2 {
      DeliverAppend(file, src, a, b, UpTo(0), 0);
      SecondChunkAt(before, src, a, b);
    } else {
      LargerCutOverwrites(file, src, a, b, n - 1);
      Geometry.MulMono(2, n - 1, b);
      WrittenByte(before, (n - 1) * b, ChunkOf(src, a, n - 1), b);
    }
  }

  lemma SecondChunkAt(before: Bytes, src: Bytes, a: nat, b: nat)
    requires 0 < b < a < |src| <= |before|
    ensures var r := WriteAt(before, 1 * b, ChunkOf(src, a, 1));
            |r| >= |src| && r[b] == src[a]
  {
    assert 1 * a == a && 1 * b == b;
    assert ChunkOf(src, a, 1)[0] == src[a];
    WrittenByte(before, b, ChunkOf(src, a, 1), b);
  }

  function Filled(size: nat, at: nat): (s: Bytes)
    requires at < size
    ensures |s| == size && s[at] == 1
    ensures forall p | 0 <= p < size && p != at :: s[p] == 0
  {
    seq(size, p => if p == at then 1 else 0)
  }

  /** Different cuts of a file of more than one sender chunk corrupt some content: a concrete one. */
  lemma DifferentCutsCorrupt(size: nat, a: nat, b: nat) returns (src: Bytes)
    requires a > 0 && b > 0 && a != b && a < size
    ensures |src| == size && !Delivered(Zeros(size), src, a, b)
  {
    src := Filled(size, a);
    var n := ChunkCount(size, a);
    Geometry.CountCovers(size, a);
    assert 1 * a == a;
    if a < b {
      SmallerCutLeavesGap(Zeros(size), src, a, b, UpTo(n));
    } else {
      LargerCutOverwrites(Zeros(size), src, a, b, n);
    }
  }

  /** Exactly when every content of a given size is delivered: when the two sides cut alike. */
  lemma DeliveredIff(size: nat, cs: ChunkSize)
    ensures (forall src: Bytes | |src| == size :: Delivered(Zeros(size), src, EffectiveChunkSize(size, cs), cs))
       <==> EffectiveChunkSize(size, cs) == cs
  {
    var eff := EffectiveChunkSize(size, cs);
    if eff == cs {
      forall src: Bytes | |src| == size ensures Delivered(Zeros(size), src, eff, cs) {
        EqualCutsDeliver(Zeros(size), src, cs);
      }
    } else {
      var src := DifferentCutsCorrupt(size, eff, cs);
    }
  }

  /** Different cuts can come to equal counts: a file of one byte over 1 GiB and a chunk size of one byte under
      4 MiB give both sides 257 chunks. */
  lemma CountsCanAgree() returns (size: nat, cs: ChunkSize)
    ensures size == GIB + 1 && cs == 4 * MIB - 1
    ensures EffectiveChunkSize(size, cs) != cs && CountsAgree(size, EffectiveChunkSize(size, cs), cs)
  {
    size, cs := GIB + 1, 4 * MIB - 1;
    Geometry.CountIs(size, EffectiveChunkSize(size, cs), 257);
    Geometry.CountIs(size, cs, 257);
  }
}
