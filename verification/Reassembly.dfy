/** Reassembling a file from its chunks: what positioned writes of right-sized source chunks leave in
    the temporary file, in any order and with any repetition, and what a mismatch of chunk sizes does. */
module Reassembly {
  import opened Types
  import opened Storage
  import Geometry

  /** Same length, and every byte is either unchanged or already the source's. */
  predicate Closer(old_: Bytes, new_: Bytes, src: Bytes) {
    && |old_| == |new_| == |src|
    && forall p | 0 <= p < |src| :: new_[p] == old_[p] || new_[p] == src[p]
  }

  /** The file agrees with the source on the range of chunk `c`. */
  predicate HoldsChunk(file: Bytes, src: Bytes, cs: nat, c: nat) {
    && |file| == |src|
    && forall p | 0 <= p < |src| && c * cs <= p < c * cs + cs :: file[p] == src[p]
  }

  /** Writing any leading part of a source chunk at its place brings the file closer to the source and
      touches no byte outside the chunk; writing all of it makes the file hold the chunk. */
  lemma WriteSourceChunk(file: Bytes, src: Bytes, cs: nat, c: nat, n: nat)
    requires cs > 0 && |file| == |src| && n <= |ChunkOf(src, cs, c)|
    ensures var r := WriteAt(file, c * cs, ChunkOf(src, cs, c)[..n]);
            && Closer(file, r, src)
            && (forall p | 0 <= p < |src| && !(c * cs <= p < c * cs + cs) :: r[p] == file[p])
            && (n == |ChunkOf(src, cs, c)| ==> HoldsChunk(r, src, cs, c))
  {
    var data := ChunkOf(src, cs, c)[..n];
    forall p: nat | p < |src|
      ensures WriteAt(file, c * cs, data)[p] == if c * cs <= p < c * cs + n then src[p] else file[p]
    {
      WrittenByte(file, c * cs, data, p);
    }
  }

  /** Every byte of a nonempty file lies in exactly the chunk `p / cs`. */
  lemma ByteInChunk(size: nat, cs: nat, p: nat)
    requires cs > 0 && p < size
    ensures p / cs < ChunkCount(size, cs)
    ensures (p / cs) * cs <= p < (p / cs) * cs + cs
  {
    Geometry.CountCovers(size, cs);
    var q, n := p / cs, ChunkCount(size, cs);
    assert p == q * cs + p % cs;
    if n <= q {
      Geometry.MulMono(n, q, cs);
    }
  }

  /** A file that holds every chunk is the source. */
  lemma HoldsAllIsSource(file: Bytes, src: Bytes, cs: nat)
    requires cs > 0 && |file| == |src|
    requires forall c | 0 <= c < ChunkCount(|src|, cs) :: HoldsChunk(file, src, cs, c)
    ensures file == src
  {
    forall p | 0 <= p < |src| ensures file[p] == src[p] {
      ByteInChunk(|src|, cs, p);
      assert HoldsChunk(file, src, cs, p / cs);
    }
  }

  function Below(n: nat): (r: set<nat>)
    ensures forall c: nat :: c in r <==> c < n
    ensures |r| == n
  {
    if n == 0 then {} else Below(n - 1) + {n - 1}
  }

  lemma SubsetSize(a: set<nat>, b: set<nat>)
    requires a <= b
    ensures |a| <= |b|
    ensures |a| == |b| ==> a == b
  {
    assert b == a + (b - a);
    assert |b| == |a| + |b - a|;
  }

  /** The count decides: a set of chunk numbers below the total is everything exactly when it has as
      many members as the total. */
  lemma CountDecides(completed: set<nat>, total: nat)
    requires forall c | c in completed :: c < total
    ensures |completed| <= total
    ensures |completed| == total <==> completed == Below(total)
  {
    assert completed <= Below(total);
    SubsetSize(completed, Below(total));
  }

  lemma SameChunk(cs: nat, c: nat, p: nat)
    requires cs > 0 && p >= 0
    ensures c * cs <= p < c * cs + cs <==> p / cs == c
  {
    var q := p / cs;
    assert p == q * cs + p % cs;
    assert (q + 1) * cs == q * cs + cs && (c + 1) * cs == c * cs + cs;
    if q < c { Geometry.MulMono(q + 1, c, cs); }
    if c < q { Geometry.MulMono(c + 1, q, cs); }
  }

  // ----- Any order, any repetition -----

  /** Writes source chunks in the given order: cut at `cut`, placed at multiples of `place`. */
  function Deliver(file: Bytes, src: Bytes, cut: nat, place: nat, order: seq<nat>): Bytes {
    if order == [] then file
    else
      var c := order[|order| - 1];
      WriteAt(Deliver(file, src, cut, place, order[..|order| - 1]), c * place, ChunkOf(src, cut, c))
  }

  lemma DeliverAppend(file: Bytes, src: Bytes, cut: nat, place: nat, order: seq<nat>, c: nat)
    ensures Deliver(file, src, cut, place, order + [c])
         == WriteAt(Deliver(file, src, cut, place, order), c * place, ChunkOf(src, cut, c))
  {
    assert (order + [c])[..|order|] == order;
  }

  /** Byte by byte: a byte is the source's if its chunk was delivered, and unchanged otherwise. */
  predicate DeliveredByte(file: Bytes, r: Bytes, src: Bytes, cs: nat, order: seq<nat>, p: nat)
    requires cs > 0 && |file| == |r| == |src| && p < |src|
  {
    r[p] == if p / cs in order then src[p] else file[p]
  }

  /** With equal sizes, reassembly depends neither on the order of the chunks nor on repetition. */
  lemma {:induction false} DeliveryIsOrderInsensitive(file: Bytes, src: Bytes, cs: nat, order: seq<nat>)
    requires cs > 0 && |file| == |src|
    ensures |Deliver(file, src, cs, cs, order)| == |src|
    ensures forall p: nat | p < |src| :: DeliveredByte(file, Deliver(file, src, cs, cs, order), src, cs, order, p)
  {
    if order != [] {
      var init, c := order[..|order| - 1], order[|order| - 1];
      assert order == init + [c];
      DeliveryIsOrderInsensitive(file, src, cs, init);
      var before, r := Deliver(file, src, cs, cs, init), Deliver(file, src, cs, cs, order);
      var data := ChunkOf(src, cs, c);
      assert data[..|data|] == data;
      WriteSourceChunk(before, src, cs, c, |data|);
      forall p: nat | p < |src| ensures DeliveredByte(file, r, src, cs, order, p) {
        SameChunk(cs, c, p);
        assert DeliveredByte(file, before, src, cs, init, p);
      }
    }
  }

  function DeliveredSet(order: seq<nat>): set<nat> {
    set c | c in order
  }

  lemma ByteIsSource(file: Bytes, r: Bytes, src: Bytes, cs: nat, order: seq<nat>, p: nat)
    requires cs > 0 && |file| == |r| == |src| && p < |src|
    requires DeliveredSet(order) == Below(ChunkCount(|src|, cs))
    requires DeliveredByte(file, r, src, cs, order, p)
    ensures r[p] == src[p]
  {
    ByteInChunk(|src|, cs, p);
    var c := p / cs;
    assert c in Below(ChunkCount(|src|, cs));
    assert c in DeliveredSet(order);
  }

  lemma AllDeliveredIsSource(file: Bytes, src: Bytes, cs: nat, order: seq<nat>)
    requires cs > 0 && |file| == |src|
    requires DeliveredSet(order) == Below(ChunkCount(|src|, cs))
    ensures Deliver(file, src, cs, cs, order) == src
  {
    DeliveryIsOrderInsensitive(file, src, cs, order);
    var r := Deliver(file, src, cs, cs, order);
    forall p | 0 <= p < |src| ensures r[p] == src[p] {
      ByteIsSource(file, r, src, cs, order, p);
    }
  }

  /** For chunk numbers below the total, the counting test on the set of delivered chunks succeeds
      exactly when every chunk was delivered, and then the file is the source. */
  lemma CompleteIsSource(file: Bytes, src: Bytes, cs: nat, order: seq<nat>)
    requires cs > 0 && |file| == |src|
    requires forall c | c in order :: c < ChunkCount(|src|, cs)
    ensures |DeliveredSet(order)| == ChunkCount(|src|, cs) <==> DeliveredSet(order) == Below(ChunkCount(|src|, cs))
    ensures |DeliveredSet(order)| == ChunkCount(|src|, cs) ==> Deliver(file, src, cs, cs, order) == src
  {
    CountDecides(DeliveredSet(order), ChunkCount(|src|, cs));
    if |DeliveredSet(order)| == ChunkCount(|src|, cs) {
      AllDeliveredIsSource(file, src, cs, order);
    }
  }

  // ----- Through a writer -----

  /** State after a series of writes, and whether all of them were accepted. */
  datatype Written = Written(ok: bool, writer: Writer, disk: Disk)

  /** A writer given source chunks cut at `cut`, in this order, up to the first it refuses. */
  function WriteAll(w: Writer, disk: Disk, src: Bytes, cut: nat, order: seq<nat>): Written {
    if order == [] then Written(true, w, disk)
    else
      var o, c := WriteAll(w, disk, src, cut, order[..|order| - 1]), order[|order| - 1];
      if !o.ok then o
      else
        var x := WriteChunk(o.writer, o.disk, c, ChunkOf(src, cut, c));
        Written(x.result.Ok?, x.writer, x.disk)
  }

  predicate AllBelow(order: seq<nat>, n: nat) {
    forall c | c in order :: c < n
  }

  lemma AllBelowAppend(init: seq<nat>, c: nat, n: nat)
    ensures AllBelow(init + [c], n) <==> AllBelow(init, n) && c < n
  {
    assert c in init + [c];
    assert forall d | d in init :: d in init + [c];
  }

  predicate WrittenAll(w: Writer, disk: Disk, src: Bytes, cut: nat, order: seq<nat>, o: Written)
    requires w.Temp() in disk
  {
    && o.writer == w.(completed := w.completed + DeliveredSet(order))
    && o.disk == disk[w.Temp() := Deliver(disk[w.Temp()], src, cut, w.chunkSize, order)]
  }

  lemma OneMoreWritten(w: Writer, disk: Disk, src: Bytes, cut: nat, init: seq<nat>, c: nat, o: Written)
    requires w.Temp() in disk && o.ok && WrittenAll(w, disk, src, cut, init, o)
    ensures var x := WriteChunk(o.writer, o.disk, c, ChunkOf(src, cut, c));
            && (x.result.Ok? <==> c < w.Total())
            && (x.result.Ok? ==> WrittenAll(w, disk, src, cut, init + [c], Written(true, x.writer, x.disk)))
  {
    hide WriteAt, ChunkOf, ChunkCount;
    DeliverAppend(disk[w.Temp()], src, cut, w.chunkSize, init, c);
    assert DeliveredSet(init + [c]) == DeliveredSet(init) + {c};
    assert o.writer.Total() == w.Total() && o.writer.Temp() == w.Temp();
  }

  /** What a series of writes leaves: every chunk below the total is accepted; the completed set grows by the
      chunks of the series, and the temporary file takes their bytes in the order they came. */
  lemma {:induction false} WritesDeliver(w: Writer, disk: Disk, src: Bytes, cut: nat, order: seq<nat>)
    requires w.Temp() in disk
    ensures var o := WriteAll(w, disk, src, cut, order);
            && (o.ok <==> AllBelow(order, w.Total()))
            && (o.ok ==> WrittenAll(w, disk, src, cut, order, o))
  {
    if order == [] {
      assert DeliveredSet([]) == {};
      assert disk == disk[w.Temp() := disk[w.Temp()]];
    } else {
      hide WriteChunk, WrittenAll, ChunkOf, Deliver, AllBelow, ChunkCount;
      var init, c := order[..|order| - 1], order[|order| - 1];
      assert order == init + [c];
      AllBelowAppend(init, c, w.Total());
      WritesDeliver(w, disk, src, cut, init);
      var o := WriteAll(w, disk, src, cut, init);
      if o.ok { OneMoreWritten(w, disk, src, cut, init, c, o); }
    }
  }

  /** A writer that cuts like the sender, given chunks in any order and with any repetition: whenever it accepts
      them all, each byte is the source's if its chunk came and unchanged otherwise. */
  lemma WritesInAnyOrder(w: Writer, disk: Disk, src: Bytes, order: seq<nat>)
    requires w.Temp() in disk && |disk[w.Temp()]| == |src| == w.fileSize
    ensures var o, temp := WriteAll(w, disk, src, w.chunkSize, order), w.Temp();
            && (o.ok <==> AllBelow(order, w.Total()))
            && (o.ok ==>
                  && temp in o.disk && |o.disk[temp]| == |src|
                  && (forall p: nat | p < |src| ::
                        DeliveredByte(disk[temp], o.disk[temp], src, w.chunkSize, order, p))
                  && (forall q | q != temp :: (q in o.disk <==> q in disk) && (q in disk ==> o.disk[q] == disk[q])))
  {
    WritesDeliver(w, disk, src, w.chunkSize, order);
    DeliveryIsOrderInsensitive(disk[w.Temp()], src, w.chunkSize, order);
  }

  /** For a new writer the counting test succeeds exactly when every chunk came, and then its temporary file
      is the source. */
  lemma CompleteWriterHasSource(w: Writer, disk: Disk, src: Bytes, order: seq<nat>)
    requires w.Temp() in disk && |disk[w.Temp()]| == |src| == w.fileSize && w.completed == {}
    requires AllBelow(order, w.Total())
    ensures var o := WriteAll(w, disk, src, w.chunkSize, order);
            && o.ok && w.Temp() in o.disk
            && (o.writer.IsComplete() <==> forall c: nat | c < w.Total() :: c in order)
            && (o.writer.IsComplete() ==> o.disk[w.Temp()] == src)
  {
    hide DeliveredByte, ChunkCount, Deliver, WriteAll, AllBelow, DeliveredSet;
    WritesDeliver(w, disk, src, w.chunkSize, order);
    var o := WriteAll(w, disk, src, w.chunkSize, order);
    assert o.writer.completed == DeliveredSet(order);
    AllDelivered(order, w.Total());
    CompletedDeliver(disk[w.Temp()], src, w.chunkSize, order);
  }

  lemma AllDelivered(order: seq<nat>, n: nat)
    requires AllBelow(order, n)
    ensures |DeliveredSet(order)| == n <==> forall c: nat | c < n :: c in order
  {
    CountDecides(DeliveredSet(order), n);
    if forall c: nat | c < n :: c in order {
      assert DeliveredSet(order) == Below(n);
    } else {
      var c: nat :| c < n && c !in order;
      assert c in Below(n) && c !in DeliveredSet(order);
    }
  }

  lemma CompletedDeliver(file: Bytes, src: Bytes, cs: nat, order: seq<nat>)
    requires cs > 0 && |file| == |src| && AllBelow(order, ChunkCount(|src|, cs))
    ensures |DeliveredSet(order)| == ChunkCount(|src|, cs) ==> Deliver(file, src, cs, cs, order) == src
  {
    hide Deliver;
    CompleteIsSource(file, src, cs, order);
  }
}
