/** Global chunk numbering: the map between (file, chunk) pairs and positions in the flat send order. */
module ChunkIndex {
  import opened Types
  import Geometry

  /** Sum of the first `n` counts. */
  function Prefix(counts: seq<nat>, n: nat): nat
    requires n <= |counts|
  {
    if n == 0 then 0 else Prefix(counts, n - 1) + counts[n - 1]
  }

  lemma {:induction false} PrefixMono(counts: seq<nat>, a: nat, b: nat)
    requires a <= b <= |counts|
    ensures Prefix(counts, a) <= Prefix(counts, b)
    decreases b
  {
    if a < b {
      PrefixMono(counts, a, b - 1);
    }
  }

  /** All chunk identifiers of the first `n` files, file by file: the order in which they are sent. */
  function FlatIds(counts: seq<nat>, n: nat): (ids: seq<ChunkId>)
    requires n <= |counts|
    ensures |ids| == Prefix(counts, n)
  {
    if n == 0 then [] else FlatIds(counts, n - 1) + seq(counts[n - 1], c requires c >= 0 => ChunkId(n - 1, c))
  }

  function Ids(counts: seq<nat>): seq<ChunkId> {
    FlatIds(counts, |counts|)
  }

  predicate InRange(counts: seq<nat>, id: ChunkId) {
    id.file < |counts| && id.chunk < counts[id.file]
  }

  /** Position of an identifier in the flat order. */
  function Position(counts: seq<nat>, id: ChunkId): nat
    requires id.file <= |counts|
  {
    Prefix(counts, id.file) + id.chunk
  }

  lemma {:induction false} FlatAt(counts: seq<nat>, n: nat, id: ChunkId)
    requires n <= |counts| && id.file < n && InRange(counts, id)
    ensures Position(counts, id) < |FlatIds(counts, n)|
    ensures FlatIds(counts, n)[Position(counts, id)] == id
  {
    PrefixMono(counts, id.file + 1, n);
    if id.file < n - 1 {
      FlatAt(counts, n - 1, id);
    }
  }

  /** Every position holds an identifier in range whose position it is. */
  lemma {:induction false} FlatInRange(counts: seq<nat>, n: nat, k: nat)
    requires n <= |counts| && k < Prefix(counts, n)
    ensures InRange(counts, FlatIds(counts, n)[k]) && FlatIds(counts, n)[k].file < n
    ensures Position(counts, FlatIds(counts, n)[k]) == k
  {
    if k < Prefix(counts, n - 1) {
      FlatInRange(counts, n - 1, k);
    }
  }

  lemma IdAt(counts: seq<nat>, id: ChunkId)
    requires InRange(counts, id)
    ensures Position(counts, id) < |Ids(counts)| && Ids(counts)[Position(counts, id)] == id
  {
    FlatAt(counts, |counts|, id);
  }

  lemma IdInRange(counts: seq<nat>, k: nat)
    requires k < |Ids(counts)|
    ensures InRange(counts, Ids(counts)[k]) && Position(counts, Ids(counts)[k]) == k
  {
    FlatInRange(counts, |counts|, k);
  }

  /** Chunk counts of the files of a manifest at the manifest's own chunk size. */
  function ManifestCounts(m: Manifest): (counts: seq<nat>)
    ensures |counts| == |m.files|
  {
    seq(|m.files|, i requires 0 <= i < |m.files| => ChunkCount(m.files[i].size, m.chunkSize))
  }

  function TotalChunks(m: Manifest): nat
  {
    Prefix(ManifestCounts(m), |m.files|)
  }

  predicate IndexIsPosition(m: Manifest) {
    forall i | 0 <= i < |m.files| :: m.files[i].index == i
  }

  /** Position of the first entry that carries `index`; the number of files if none does. */
  function FirstWithIndex(m: Manifest, index: nat, from: nat): (p: nat)
    requires from <= |m.files|
    ensures from <= p <= |m.files|
    ensures forall i | from <= i < p :: m.files[i].index != index
    ensures p < |m.files| ==> m.files[p].index == index
    decreases |m.files| - from
  {
    if from == |m.files| || m.files[from].index == index then from
    else FirstWithIndex(m, index, from + 1)
  }

  /** The global number of a chunk: the chunks of all entries before the first one that carries the
      file index, plus the offset. */
  function GlobalOffset(m: Manifest, file: nat, chunk: nat): nat
  {
    Prefix(ManifestCounts(m), FirstWithIndex(m, file, 0)) + chunk
  }

  /** The accumulating loop over the entries computes `GlobalOffset`. */
  method GlobalChunkOffset(m: Manifest, file: nat, chunk: nat) returns (r: nat)
    ensures r == GlobalOffset(m, file, chunk)
  {
    var global := 0;
    for i := 0 to |m.files|
      invariant global == Prefix(ManifestCounts(m), i)
      invariant FirstWithIndex(m, file, 0) == FirstWithIndex(m, file, i)
    {
      if m.files[i].index == file {
        return global + chunk;
      }
      global := global + ChunkCount(m.files[i].size, m.chunkSize);
    }
    return global + chunk;
  }

  /** With index = position, the global number is the position in the flat order. */
  lemma GlobalIsPosition(m: Manifest, id: ChunkId)
    requires IndexIsPosition(m) && id.file <= |m.files|
    ensures GlobalOffset(m, id.file, id.chunk) == Position(ManifestCounts(m), id)
  {
    if id.file < |m.files| {
      assert m.files[id.file].index == id.file;
    }
  }

  /** An index that no entry carries counts as one behind all entries; of several entries with an index the first one
      counts. */
  lemma GlobalByFirstEntry(m: Manifest, file: nat, chunk: nat)
    ensures (forall i | 0 <= i < |m.files| :: m.files[i].index != file) ==>
              GlobalOffset(m, file, chunk) == TotalChunks(m) + chunk
    ensures forall i | 0 <= i < |m.files| && m.files[i].index == file
                       && (forall k | 0 <= k < i :: m.files[k].index != file) ::
              GlobalOffset(m, file, chunk) == Prefix(ManifestCounts(m), i) + chunk
  {
    hide Prefix, ManifestCounts;
    var first := FirstWithIndex(m, file, 0);
    forall i | 0 <= i < |m.files| && m.files[i].index == file && (forall k | 0 <= k < i :: m.files[k].index != file)
      ensures first == i
    {
    }
  }

  /** Sender's lexicographic order on identifiers. */
  predicate Before(a: ChunkId, b: ChunkId) {
    a.file < b.file || (a.file == b.file && a.chunk < b.chunk)
  }

  /** Global numbering is strictly monotone in the send order, hence one-to-one, and lands below the
      total chunk count. */
  lemma GlobalMonotone(m: Manifest, a: ChunkId, b: ChunkId)
    requires IndexIsPosition(m)
    requires InRange(ManifestCounts(m), a) && InRange(ManifestCounts(m), b)
    ensures GlobalOffset(m, a.file, a.chunk) < TotalChunks(m)
    ensures Before(a, b) <==> GlobalOffset(m, a.file, a.chunk) < GlobalOffset(m, b.file, b.chunk)
    ensures GlobalOffset(m, a.file, a.chunk) == GlobalOffset(m, b.file, b.chunk) <==> a == b
  {
    var counts := ManifestCounts(m);
    GlobalIsPosition(m, a);
    GlobalIsPosition(m, b);
    IdAt(counts, a);
    IdAt(counts, b);
    if a.file < b.file {
      PrefixMono(counts, a.file + 1, b.file);
    } else if b.file < a.file {
      PrefixMono(counts, b.file + 1, a.file);
    }
  }

  /** ... and onto: every number below the total is the global number of exactly one chunk. */
  lemma GlobalBijective(m: Manifest, k: nat) returns (id: ChunkId)
    requires IndexIsPosition(m) && k < TotalChunks(m)
    ensures InRange(ManifestCounts(m), id) && GlobalOffset(m, id.file, id.chunk) == k
    ensures forall other | InRange(ManifestCounts(m), other) && GlobalOffset(m, other.file, other.chunk) == k ::
              other == id
  {
    var counts := ManifestCounts(m);
    id := Ids(counts)[k];
    IdInRange(counts, k);
    GlobalIsPosition(m, id);
    forall other | InRange(counts, other) && GlobalOffset(m, other.file, other.chunk) == k
      ensures other == id
    {
      GlobalMonotone(m, id, other);
    }
  }

  /** Sizes of the first `n` files, summed. */
  function SizeSum(m: Manifest, n: nat): nat
    requires n <= |m.files|
  {
    if n == 0 then 0 else SizeSum(m, n - 1) + m.files[n - 1].size
  }

  /** The total chunk count is bounded by bytes plus files, so all 64-bit sums over chunks stay in
      range whenever that bound does. */
  lemma {:induction false} ChunkTotalsBounded(m: Manifest, n: nat)
    requires n <= |m.files|
    ensures Prefix(ManifestCounts(m), n) <= SizeSum(m, n) + n
  {
    if n > 0 {
      ChunkTotalsBounded(m, n - 1);
      var size := m.files[n - 1].size;
      var count := ChunkCount(size, m.chunkSize);
      Geometry.CountCovers(size, m.chunkSize);
      if size > 0 {
        Geometry.MulMono(1, m.chunkSize, count - 1);
        assert (count - 1) * m.chunkSize == m.chunkSize * (count - 1);
      }
    }
  }
}
