/** What is in the files when a session finalizes them: each finalized file is its old temporary file, set to
    the expected length, with the chunks sent for it written in their order. */
module Contents {
  import opened Types
  import opened ChunkIndex
  import opened Storage
  import opened Protocol
  import opened Reassembly
  import opened Session
  import opened SessionPlan
  import opened Verdict
  import opened Mismatch

  /** The numbers of the chunks of file `f` sent among the first `k` of the order. */
  function OrderOf(items: seq<Item>, k: nat, f: nat): seq<nat>
    requires k <= |items|
  {
    if k == 0 then []
    else if items[k - 1].skipped || items[k - 1].id.file != f then OrderOf(items, k - 1, f)
    else OrderOf(items, k - 1, f) + [items[k - 1].id.chunk]
  }

  /** The temporary file of `f` when its writer has been opened. */
  function Opened(p: Plan, f: nat): Bytes
    requires f < |p.cfg.manifest.files|
  {
    var temp := Temp(p.cfg, f);
    SetLen(if temp in p.disk then p.disk[temp] else [], p.cfg.manifest.files[f].size)
  }

  lemma OpenOwn(disk: Disk, dest: Path, size: nat)
    ensures TempPath(dest) in OpenTemp(disk, dest, size)
    ensures OpenTemp(disk, dest, size)[TempPath(dest)]
         == SetLen(if TempPath(dest) in disk then disk[TempPath(dest)] else [], size)
  {
  }

  lemma {:induction false} OpenedExactly(p: Plan, n: nat, f: nat)
    requires TempsDistinct(p.cfg.manifest) && f < n <= |p.cfg.manifest.files|
    ensures Temp(p.cfg, f) in OpenAll(p.disk, p.cfg.manifest, n)
    ensures OpenAll(p.disk, p.cfg.manifest, n)[Temp(p.cfg, f)] == Opened(p, f)
  {
    var m, temp, e := p.cfg.manifest, Temp(p.cfg, f), p.cfg.manifest.files[n - 1];
    var before := OpenAll(p.disk, m, n - 1);
    hide SetLen, TempPath, OpenTemp;
    if f == n - 1 {
      OpenAllFrame(m, p.disk, n - 1, temp);
      OpenOwn(before, e.path, e.size);
    } else {
      OpenedExactly(p, n - 1, f);
      OpenOne(before, e.path, e.size, temp);
    }
  }

  function DeliveredFile(p: Plan, k: nat, f: nat): Bytes
    requires PlanOk(p) && k <= |p.items| && f < |p.cfg.sources|
  {
    Deliver(Opened(p, f), p.cfg.sources[f], SendSize(p.cfg, f), p.cfg.manifest.chunkSize, OrderOf(p.items, k, f))
  }

  lemma ItemDelivers(p: Plan, k: nat, f: nat)
    requires PlanOk(p) && TempsDistinct(p.cfg.manifest) && k < |p.items| && f < |p.cfg.sources|
    requires Temp(p.cfg, f) in DiskAt(p, k) && DiskAt(p, k)[Temp(p.cfg, f)] == DeliveredFile(p, k, f)
    ensures Temp(p.cfg, f) in DiskAt(p, k + 1)
    ensures DiskAt(p, k + 1)[Temp(p.cfg, f)] == DeliveredFile(p, k + 1, f)
  {
    var item := p.items[k];
    assert ItemOk(p, k);
    hide FlatIds, Prefix, ItemsOk, ValidConfig, WriteAt, Deliver, ChunkOf, ChunkCount, Opened, TempPath, ItemOk,
         EffectiveChunkSize;
    if !item.skipped {
      if item.id.file == f {
        DeliverAppend(Opened(p, f), p.cfg.sources[f], SendSize(p.cfg, f), p.cfg.manifest.chunkSize,
                      OrderOf(p.items, k, f), item.id.chunk);
      } else {
        assert Temp(p.cfg, item.id.file) != Temp(p.cfg, f);
      }
    }
  }

  /** The receiver's temporary files along the send order. */
  lemma {:induction false} DiskHasDelivered(p: Plan, k: nat, f: nat)
    requires PlanOk(p) && TempsDistinct(p.cfg.manifest) && k <= |p.items| && f < |p.cfg.sources|
    ensures Temp(p.cfg, f) in DiskAt(p, k) && DiskAt(p, k)[Temp(p.cfg, f)] == DeliveredFile(p, k, f)
  {
    if k == 0 {
      OpenedExactly(p, |p.cfg.sources|, f);
    } else {
      hide DiskAt, DeliveredFile, FlatIds, Prefix, ItemsOk, ValidConfig;
      DiskHasDelivered(p, k - 1, f);
      ItemDelivers(p, k - 1, f);
    }
  }

  /** Where file `f` is in the end, if it was finalized, and with which bytes. */
  predicate FinalFile(p: Plan, s: FinState, f: nat)
    requires PlanOk(p) && f < |p.cfg.sources| == |s.paths|
  {
    && (s.paths[f].Some? <==> CompleteAtEnd(p, f))
    && (s.paths[f].Some? ==>
          s.paths[f].value in s.disk && s.disk[s.paths[f].value] == DeliveredFile(p, |p.items|, f))
  }

  /** With distinct temporary files exactly the files that count as complete are finalized, to paths of their
      own, each with the bytes written for it. */
  lemma FinalFiles(p: Plan, uuids: nat -> string)
    requires PlanOk(p) && TempsDistinct(p.cfg.manifest) && FallbacksUnused(p, uuids)
    ensures var s := FinalState(p, uuids);
            && !s.failed && |s.paths| == |p.cfg.sources|
            && (forall f | 0 <= f < |p.cfg.sources| :: FinalFile(p, s, f))
            && (forall f, g | 0 <= f < g < |s.paths| && s.paths[f].Some? && s.paths[g].Some? ::
                  s.paths[f] != s.paths[g])
  {
    hide FlatIds, Prefix, ItemsOk, ValidConfig, DiskAt, FreshFallbacks, DistinctTemps, TempsOnDisk, FinalizeUpTo,
         OthersUntouched, CompleteAtEnd, DeliveredFile, TempPath;
    FinalTemps(p);
    FinalizeNeverClobbers(DiskAt(p, |p.items|), FinalDones(p), uuids, |p.initial|);
    var s := FinalState(p, uuids);
    forall f | 0 <= f < |p.cfg.sources| ensures FinalFile(p, s, f) {
      DiskHasDelivered(p, |p.items|, f);
      if s.paths[f].Some? {
        assert MovedSafely(DiskAt(p, |p.items|), FinalDones(p), s, f);
      }
    }
  }

  // ----- Which chunks were sent -----

  lemma {:induction false} OrderMembers(p: Plan, k: nat, f: nat, c: nat)
    requires k <= |p.items|
    ensures c in OrderOf(p.items, k, f) <==> c in ChunksOf(DoneIds(p.items, k), f)
  {
    if k > 0 {
      OrderMembers(p, k - 1, f, c);
      if !p.items[k - 1].skipped {
        ChunksOfAdd(DoneIds(p.items, k - 1), p.items[k - 1].id, f);
      }
    }
  }

  /** How many chunks of file `f` are among the first `k` of the order. */
  function Share(counts: seq<nat>, k: nat, f: nat): nat
    requires f < |counts|
  {
    if k <= Prefix(counts, f) then 0 else Min(k - Prefix(counts, f), counts[f])
  }

  lemma PositionInFile(counts: seq<nat>, id: ChunkId, f: nat)
    requires InRange(counts, id) && f < |counts|
    ensures id.file == f <==> Prefix(counts, f) <= Position(counts, id) < Prefix(counts, f) + counts[f]
  {
    if id.file < f {
      PrefixMono(counts, id.file + 1, f);
    } else if f < id.file {
      PrefixMono(counts, f + 1, id.file);
    }
  }

  lemma {:induction false} OrderUpTo(p: Plan, k: nat, f: nat)
    requires PlanOk(p) && NoneSkipped(p) && k <= |p.items| && f < |p.cfg.sources|
    ensures OrderOf(p.items, k, f) == UpTo(Share(SendCounts(p.cfg), k, f))
  {
    if k > 0 {
      OrderUpTo(p, k - 1, f);
      assert ItemOk(p, k - 1);
      hide FlatIds, ItemsOk, ValidConfig, SendCounts, Prefix, ItemOk;
      PositionInFile(SendCounts(p.cfg), p.items[k - 1].id, f);
    }
  }

  /** Nothing skipped: each file's chunks are sent once, in ascending order. */
  lemma WholeOrder(p: Plan, f: nat)
    requires PlanOk(p) && NoneSkipped(p) && f < |p.cfg.sources|
    ensures OrderOf(p.items, |p.items|, f) == UpTo(SendCounts(p.cfg)[f])
  {
    OrderUpTo(p, |p.items|, f);
    PrefixMono(SendCounts(p.cfg), f + 1, |p.cfg.sources|);
  }

  /** A session that skips nothing leaves what a fresh writer would. */
  lemma FreshContents(p: Plan, f: nat)
    requires PlanOk(p) && NoneSkipped(p) && f < |p.cfg.sources|
    ensures DeliveredFile(p, |p.items|, f)
         == Rebuilt(Opened(p, f), p.cfg.sources[f], SendSize(p.cfg, f), p.cfg.manifest.chunkSize)
  {
    hide FlatIds, Prefix, ItemsOk, ValidConfig, Deliver, EffectiveChunkSize, ChunkCount, UpTo, OrderOf;
    WholeOrder(p, f);
  }

  /** A file cut alike on both sides that counts as complete at the end is its source, whatever was on disk and on
      record before. */
  lemma CompleteIsDelivered(p: Plan, f: nat)
    requires PlanOk(p) && HasRoom(p) && f < |p.cfg.sources| && p.initial[f] == {}
    requires SendSize(p.cfg, f) == p.cfg.manifest.chunkSize && CompleteAtEnd(p, f)
    ensures DeliveredFile(p, |p.items|, f) == p.cfg.sources[f]
  {
    var src, cs, order := p.cfg.sources[f], p.cfg.manifest.chunkSize, OrderOf(p.items, |p.items|, f);
    var sent, total := ChunksOf(DoneIds(p.items, |p.items|), f), ManifestCounts(p.cfg.manifest)[f];
    assert |Opened(p, f)| == |src| && total == ChunkCount(|src|, cs);
    hide FlatIds, Prefix, ItemsOk, ValidConfig, EffectiveChunkSize, ChunkCount, OrderOf, ChunksOf, DoneIds, Opened,
         Deliver, HasRoom, SendSize, ManifestCounts;
    forall c | c in sent ensures c < total { SentHasRoom(p, f, c); }
    assert p.initial[f] + sent == sent;
    CountDecides(sent, total);
    forall c: nat ensures c in DeliveredSet(order) <==> c in sent { OrderMembers(p, |p.items|, f, c); }
    assert DeliveredSet(order) == sent;
    AllDeliveredIsSource(Opened(p, f), src, cs, order);
  }

  // ----- Chunks on record and chunks sent together -----

  lemma NotSentIsSaved(p: Plan, f: nat, c: nat)
    requires PlanOk(p) && SameCuts(p.cfg) && WellSaved(p.cfg.manifest, p.store) && f < |p.cfg.sources|
    requires c < ManifestCounts(p.cfg.manifest)[f] && c !in OrderOf(p.items, |p.items|, f)
    ensures c in SavedSet(p.store, p.cfg.manifest.id, f)
  {
    hide FlatIds, Prefix, ItemsOk, ValidConfig, EffectiveChunkSize, ChunkCount, OrderOf, SkipSet, ChunksOf, SavedSet,
         SameCuts, WellSaved;
    OrderMembers(p, |p.items|, f, c);
    SentIsComplement(p, f, c);
  }

  lemma SavedStaysOpen(p: Plan, f: nat, c: nat)
    requires PlanOk(p) && SavedSound(p.cfg, p.disk, p.store) && f < |p.cfg.sources|
    requires c in SavedSet(p.store, p.cfg.manifest.id, f)
    ensures HoldsChunk(Opened(p, f), p.cfg.sources[f], p.cfg.manifest.chunkSize, c)
  {
    assert OnDisk(p.cfg, p.disk, f, c);
    assert |p.cfg.sources[f]| == p.cfg.manifest.files[f].size;
    assert Opened(p, f) == p.disk[Temp(p.cfg, f)];
  }

  lemma RecordedOrSentChunk(p: Plan, f: nat, c: nat)
    requires PlanOk(p) && SameCuts(p.cfg) && SavedSound(p.cfg, p.disk, p.store) && f < |p.cfg.sources|
    requires c < ChunkCount(|p.cfg.sources[f]|, p.cfg.manifest.chunkSize) && c !in OrderOf(p.items, |p.items|, f)
    ensures HoldsChunk(Opened(p, f), p.cfg.sources[f], p.cfg.manifest.chunkSize, c)
  {
    assert |p.cfg.sources[f]| == p.cfg.manifest.files[f].size && WellSaved(p.cfg.manifest, p.store);
    hide FlatIds, Prefix, ItemsOk, ValidConfig, EffectiveChunkSize, ChunkCount, OrderOf, SkipSet, SavedSet, SameCuts,
         WellSaved, SavedSound, Opened;
    NotSentIsSaved(p, f, c);
    SavedStaysOpen(p, f, c);
  }

  lemma ByteOf(file: Bytes, r: Bytes, src: Bytes, cs: nat, order: seq<nat>, q: nat)
    requires cs > 0 && |file| == |r| == |src| && q < |src| && DeliveredByte(file, r, src, cs, order, q)
    requires forall c: nat | c < ChunkCount(|src|, cs) && c !in order :: HoldsChunk(file, src, cs, c)
    ensures r[q] == src[q]
  {
    ByteInChunk(|src|, cs, q);
    if q / cs !in order {
      assert HoldsChunk(file, src, cs, q / cs);
    }
  }

  /** With a sound record and equal cuts, the chunks on record and those sent make up the whole file. */
  lemma RecordedAndSentIsSource(p: Plan, f: nat)
    requires PlanOk(p) && SameCuts(p.cfg) && SavedSound(p.cfg, p.disk, p.store) && f < |p.cfg.sources|
    ensures DeliveredFile(p, |p.items|, f) == p.cfg.sources[f]
  {
    var src, cs, order := p.cfg.sources[f], p.cfg.manifest.chunkSize, OrderOf(p.items, |p.items|, f);
    assert |Opened(p, f)| == |src| && SendSize(p.cfg, f) == cs;
    DeliveryIsOrderInsensitive(Opened(p, f), src, cs, order);
    var r := DeliveredFile(p, |p.items|, f);
    hide FlatIds, Prefix, ItemsOk, ValidConfig, EffectiveChunkSize, ChunkCount, OrderOf, SkipSet, ChunksOf, SavedSet,
         SameCuts, SavedSound, Opened, HoldsChunk, DeliveredByte;
    forall c: nat | c < ChunkCount(|src|, cs) && c !in order ensures HoldsChunk(Opened(p, f), src, cs, c) {
      RecordedOrSentChunk(p, f, c);
    }
    forall q | 0 <= q < |src| ensures r[q] == src[q] {
      assert DeliveredByte(Opened(p, f), r, src, cs, order, q);
      ByteOf(Opened(p, f), r, src, cs, order, q);
    }
  }
}
