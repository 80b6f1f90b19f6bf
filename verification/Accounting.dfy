/** Byte accounting on both sides. */
module Accounting {
  import opened Types
  import opened ChunkIndex
  import opened Resume
  import opened Protocol
  import opened Session
  import opened SessionPlan
  import opened Verdict
  import opened Flow
  import Geometry

  /** Data bytes of the first `k` items, sent or not. */
  function DataBytes(items: seq<Item>, k: nat): nat
    requires k <= |items|
  {
    if k == 0 then 0 else DataBytes(items, k - 1) + |items[k - 1].data|
  }

  /** Effective chunk sizes of the first `n` files, summed. */
  function SizesUpTo(cfg: Config, n: nat): nat
    requires n <= |cfg.manifest.files|
  {
    if n == 0 then 0 else SizesUpTo(cfg, n - 1) + SendSize(cfg, n - 1)
  }

  lemma ItemAt(p: Plan, f: nat, c: nat)
    requires PlanOk(p) && f < |p.cfg.sources| && c < SendCounts(p.cfg)[f]
    ensures var k := Prefix(SendCounts(p.cfg), f) + c;
            && k < |p.items|
            && p.items[k].data == ChunkOf(p.cfg.sources[f], SendSize(p.cfg, f), c)
            && p.items[k].size == SendSize(p.cfg, f)
  {
    hide FlatIds, Prefix, SkipSet, GlobalOffset, ChunkCount, EffectiveChunkSize, ChunkOf;
    var id := ChunkId(f, c);
    IdAt(SendCounts(p.cfg), id);
    assert ItemOk(p, Position(SendCounts(p.cfg), id));
  }

  lemma {:induction false} PrefixBound(p: Plan, f: nat)
    requires PlanOk(p) && f <= |p.cfg.sources|
    ensures Prefix(SendCounts(p.cfg), f) <= |p.items|
  {
    hide FlatIds;
    PrefixMono(SendCounts(p.cfg), f, |p.cfg.sources|);
  }

  /** Within a file, the data bytes up to a chunk are the bytes in front of it. */
  lemma {:induction false} DataUpToChunk(p: Plan, f: nat, c: nat)
    requires PlanOk(p) && f < |p.cfg.sources| && c <= SendCounts(p.cfg)[f]
    ensures Prefix(SendCounts(p.cfg), f) + c <= |p.items|
    ensures DataBytes(p.items, Prefix(SendCounts(p.cfg), f) + c)
         == DataBytes(p.items, Prefix(SendCounts(p.cfg), f)) + Min(|p.cfg.sources[f]|, c * SendSize(p.cfg, f))
    decreases c
  {
    hide FlatIds, Prefix, SkipSet, EffectiveChunkSize, ItemsOk, ChunkOf;
    PrefixBound(p, f);
    if c > 0 {
      DataUpToChunk(p, f, c - 1);
      ItemAt(p, f, c - 1);
      Geometry.ChunkShape(p.cfg.sources[f], SendSize(p.cfg, f), c - 1);
    }
  }

  /** All data together is all bytes of all files. */
  lemma {:induction false} DataIsAllBytes(p: Plan, n: nat)
    requires PlanOk(p) && n <= |p.cfg.sources|
    ensures Prefix(SendCounts(p.cfg), n) <= |p.items|
    ensures DataBytes(p.items, Prefix(SendCounts(p.cfg), n)) == SizeSum(p.cfg.manifest, n)
  {
    hide FlatIds, SkipSet, EffectiveChunkSize, ItemsOk, ChunkOf;
    PrefixBound(p, n);
    if n > 0 {
      DataIsAllBytes(p, n - 1);
      DataUpToChunk(p, n - 1, SendCounts(p.cfg)[n - 1]);
      Geometry.CountCovers(|p.cfg.sources[n - 1]|, SendSize(p.cfg, n - 1));
    }
  }

  lemma {:induction false} CountedAtLeastData(p: Plan, k: nat)
    requires PlanOk(p) && k <= |p.items|
    ensures DataBytes(p.items, k) <= CountedBytes(p.items, k)
    ensures (forall j | 0 <= j < k :: !p.items[j].skipped) ==>
              CountedBytes(p.items, k) == DataBytes(p.items, k) == SentBytes(p.items, k)
  {
    hide FlatIds, SkipSet, EffectiveChunkSize, GlobalOffset, Prefix;
    if k > 0 {
      CountedAtLeastData(p, k - 1);
      assert ItemOk(p, k - 1);
    }
  }

  lemma {:induction false} CountedUpToChunk(p: Plan, f: nat, c: nat)
    requires PlanOk(p) && f < |p.cfg.sources| && c <= SendCounts(p.cfg)[f]
    ensures Prefix(SendCounts(p.cfg), f) + c <= |p.items|
    ensures CountedBytes(p.items, Prefix(SendCounts(p.cfg), f) + c)
         <= CountedBytes(p.items, Prefix(SendCounts(p.cfg), f)) + c * SendSize(p.cfg, f)
    decreases c
  {
    hide FlatIds, Prefix, SkipSet, EffectiveChunkSize, ItemsOk;
    PrefixBound(p, f);
    if c > 0 {
      CountedUpToChunk(p, f, c - 1);
      ItemAt(p, f, c - 1);
      assert c * SendSize(p.cfg, f) == (c - 1) * SendSize(p.cfg, f) + SendSize(p.cfg, f);
    }
  }

  lemma OneChunkSizeOver(size: nat, cs: nat, count: nat)
    requires cs > 0 && count == ChunkCount(size, cs)
    ensures count * cs <= size + cs
  {
    Geometry.CountCovers(size, cs);
    assert count * cs == (count - 1) * cs + cs;
  }

  lemma {:induction false} CountedAtMost(p: Plan, n: nat)
    requires PlanOk(p) && n <= |p.cfg.sources|
    ensures Prefix(SendCounts(p.cfg), n) <= |p.items|
    ensures CountedBytes(p.items, Prefix(SendCounts(p.cfg), n)) <= SizeSum(p.cfg.manifest, n) + SizesUpTo(p.cfg, n)
  {
    hide FlatIds, SkipSet, EffectiveChunkSize, ItemsOk, ChunkCount;
    PrefixBound(p, n);
    if n > 0 {
      CountedAtMost(p, n - 1);
      var size, cs := |p.cfg.sources[n - 1]|, SendSize(p.cfg, n - 1);
      var count := SendCounts(p.cfg)[n - 1];
      CountedUpToChunk(p, n - 1, count);
      OneChunkSizeOver(size, cs, count);
    }
  }

  /** What the sender has counted when it is done: the total size if nothing was skipped; in any case at
      least the total size, and at most one chunk size per file more. */
  lemma SenderCountsTotal(p: Plan)
    requires PlanOk(p)
    ensures var counted, m := CountedBytes(p.items, |p.items|), p.cfg.manifest;
            && ((forall j | 0 <= j < |p.items| :: !p.items[j].skipped) ==> counted == m.totalSize)
            && m.totalSize <= counted <= m.totalSize + SizesUpTo(p.cfg, |m.files|)
  {
    hide FlatIds, SkipSet, EffectiveChunkSize;
    var n := |p.cfg.sources|;
    assert Prefix(SendCounts(p.cfg), n) == |p.items|;
    DataIsAllBytes(p, n);
    CountedAtLeastData(p, |p.items|);
    CountedAtMost(p, n);
  }

  // ----- The receiver's counter -----

  /** Data bytes of those among the first `n` chunks of the send order that per-file sets list. */
  function ListedBytes(cfg: Config, sets: seq<set<nat>>, n: nat): nat
    requires |cfg.sources| == |cfg.manifest.files| == |sets| && n <= |SendIds(cfg)|
  {
    if n == 0 then 0
    else
      IdInRange(SendCounts(cfg), n - 1);
      var id := SendIds(cfg)[n - 1];
      ListedBytes(cfg, sets, n - 1) + (if id.chunk in sets[id.file] then |SendData(cfg, id)| else 0)
  }

  predicate ListsDone(p: Plan, sets: seq<set<nat>>, k: nat)
    requires k <= |p.items|
  {
    && |sets| == |p.cfg.sources|
    && forall f | 0 <= f < |sets| :: sets[f] == ChunksOf(DoneIds(p.items, k), f)
  }

  lemma ListedIff(p: Plan, sets: seq<set<nat>>, k: nat, j: nat)
    requires PlanOk(p) && k <= |p.items| && j < |p.items| && ListsDone(p, sets, k)
    ensures p.items[j].id.file < |sets|
    ensures p.items[j].id.chunk in sets[p.items[j].id.file] <==> j < k && !p.items[j].skipped
  {
    hide FlatIds, SkipSet, EffectiveChunkSize, GlobalOffset, Prefix, ChunkCount, DoneIds;
    assert ItemOk(p, j);
    var id := p.items[j].id;
    DoneIdsMembers(p, k, id);
    assert id.chunk in ChunksOf(DoneIds(p.items, k), id.file) <==> id in DoneIds(p.items, k);
    forall i | 0 <= i < k && p.items[i].id == id ensures i == j {
      assert ItemOk(p, i);
    }
  }

  lemma {:induction false} ListedIsSent(p: Plan, sets: seq<set<nat>>, k: nat, n: nat)
    requires PlanOk(p) && k <= |p.items| && n <= |p.items| && ListsDone(p, sets, k)
    ensures ListedBytes(p.cfg, sets, n) == SentBytes(p.items, Min(n, k))
  {
    hide FlatIds, SkipSet, EffectiveChunkSize, GlobalOffset, Prefix, ChunkCount, DoneIds, ListsDone, ChunkOf;
    assert |sets| == |p.cfg.sources| by { SetPerFile(p, sets, k); }
    if n > 0 {
      ListedIsSent(p, sets, k, n - 1);
      ListedIff(p, sets, k, n - 1);
      assert ItemOk(p, n - 1);
    }
  }

  lemma SetPerFile(p: Plan, sets: seq<set<nat>>, k: nat)
    requires k <= |p.items| && ListsDone(p, sets, k)
    ensures |sets| == |p.cfg.sources|
  {
  }

  function CompletedSets(r: Receiver): (sets: seq<set<nat>>)
    requires r.phase.Receiving?
    ensures |sets| == |r.phase.writers|
  {
    seq(|r.phase.writers|, f requires 0 <= f < |r.phase.writers| => r.phase.writers[f].completed)
  }

  lemma CompletedAreDone(p: Plan, r: Receiver, k: nat)
    requires PlanOk(p) && StartsEmpty(p) && k <= |p.items| && TakenIn(p, r, k)
    ensures ListsDone(p, CompletedSets(r), k)
  {
    hide FlatIds, SkipSet, EffectiveChunkSize, GlobalOffset, Prefix, ChunkCount, DoneIds, ChunksOf, ItemsOk, DiskAt;
    var sets := CompletedSets(r);
    forall f | 0 <= f < |sets| ensures sets[f] == ChunksOf(DoneIds(p.items, k), f) {
      assert WriterAt(p, r.phase.writers[f], f, DoneIds(p.items, k));
      assert p.initial[f] == {};
    }
  }

  lemma CompletedAreSendable(p: Plan, r: Receiver, k: nat, f: nat, c: nat)
    requires PlanOk(p) && StartsEmpty(p) && k <= |p.items| && TakenIn(p, r, k)
    requires f < |CompletedSets(r)| && c in CompletedSets(r)[f]
    ensures InRange(SendCounts(p.cfg), ChunkId(f, c))
  {
    hide FlatIds, SkipSet, EffectiveChunkSize, GlobalOffset, Prefix, ChunkCount, DoneIds;
    CompletedAreDone(p, r, k);
    var id :| id in DoneIds(p.items, k) && id.file == f && id.chunk == c;
    DoneIdsMembers(p, k, id);
    var j :| 0 <= j < k && p.items[j].id == id;
    assert ItemOk(p, j);
  }

  /** No chunk under way to the receiver is one it has already. */
  predicate NoneTwice(w: World)
    requires w.receiver.phase.Receiving?
  {
    forall i | 0 <= i < |w.toReceiver| && w.toReceiver[i].Msg? && w.toReceiver[i].msg.ChunkData? ::
      var id := w.toReceiver[i].msg.id;
      id.file < |w.receiver.phase.writers| && id.chunk !in w.receiver.phase.writers[id.file].completed
  }

  lemma UnderwayIsNew(p: Plan, w: World, k: nat)
    requires Begins(p) && k <= |p.items| && StandsAt(p, w, k)
    ensures w.receiver.phase.Receiving? && NoneTwice(w)
  {
    hide FlatIds, SkipSet, EffectiveChunkSize, GlobalOffset, Prefix, ChunkCount, DoneIds, ChunksOf, ValidConfig,
         DiskAt, SenderAt, ResponseHeard, RequestHeard, AllTaken, OfferedResponse;
    var sets := CompletedSets(w.receiver);
    CompletedAreDone(p, w.receiver, k);
    if !Drained(w.toReceiver) && k < |p.items| {
      ListedIff(p, sets, k, k);
      assert ItemOk(p, k);
    }
    if !Drained(w.toReceiver) {
      assert w.toReceiver == [w.toReceiver[0]] + w.toReceiver[1..];
    }
  }

  /** The receiver's counter is the recorded number plus the lengths of all completed chunks, each counted
      once, and all of these are chunks that the sender has. */
  predicate BytesAddUp(cfg: Config, r: Receiver)
    requires |cfg.sources| == |cfg.manifest.files| && r.phase.Receiving?
  {
    && |CompletedSets(r)| == |cfg.sources|
    && r.phase.bytesReceived
       == RecordedBytes(r.store, cfg.manifest.id) + ListedBytes(cfg, CompletedSets(r), |SendIds(cfg)|)
    && forall f, c | 0 <= f < |cfg.sources| && c in CompletedSets(r)[f] :: InRange(SendCounts(cfg), ChunkId(f, c))
  }

  lemma TakenInAddsUp(p: Plan, r: Receiver, k: nat)
    requires Begins(p) && k <= |p.items| && TakenIn(p, r, k)
    ensures BytesAddUp(p.cfg, r)
  {
    hide FlatIds, SkipSet, EffectiveChunkSize, GlobalOffset, Prefix, ChunkCount, DoneIds, ValidConfig, WritersAt,
         DiskAt, ListedBytes, CompletedSets, ItemOk;
    CompletedAreDone(p, r, k);
    SetPerFile(p, CompletedSets(r), k);
    ListedIsSent(p, CompletedSets(r), k, |p.items|);
    forall f, c | 0 <= f < |p.cfg.sources| && c in CompletedSets(r)[f]
      ensures InRange(SendCounts(p.cfg), ChunkId(f, c))
    {
      CompletedAreSendable(p, r, k, f, c);
    }
  }

  /** Byte conservation at the receiver, in every world of every run, whatever the chunk sizes, file names and
      disturbances: the counter is what was on record plus what was completed, and nothing under way would be
      counted twice. */
  lemma ReceivedIsCompleted(cfg: Config, ws: seq<World>, ls: seq<Label>, i: nat)
    requires ValidConfig(cfg) && Trace(cfg, ws, ls) && i < |ws| && ws[i].receiver.phase.Receiving?
    ensures ws[i].receiver.phase.manifest == cfg.manifest
    ensures BytesAddUp(cfg, ws[i].receiver) && NoneTwice(ws[i])
  {
    hide FlatIds, Prefix, ItemsOk, ValidConfig, Trace, SenderAt, Pending, WritersAt, DiskAt, AllTaken, SessionFrom,
         PlanOf, BytesAddUp, NoneTwice;
    var start, p := RunFlows(cfg, Env(true, None, _ => ""), ws, ls, i);
    var k :| 0 <= k <= |p.items| && StandsAt(p, ws[i], k);
    TakenInAddsUp(p, ws[i].receiver, k);
    UnderwayIsNew(p, ws[i], k);
  }

  /** So what an interruption saves is consistent: the number of bytes is that of the record found plus the
      lengths of the chunks listed next to it. */
  lemma SavedIsConsistent(cfg: Config, ws: seq<World>, ls: seq<Label>, i: nat, why: string)
    requires ValidConfig(cfg) && Trace(cfg, ws, ls) && i < |ws| && ws[i].receiver.phase.Receiving?
    requires ReceiverOk(ws[i].receiver)
    ensures var saved := Lookup(OnInterrupt(ws[i].receiver, why).receiver.store, cfg.manifest.id);
            && saved.Some? && |saved.value.files| == |cfg.sources|
            && saved.value.bytesTransferred
               == RecordedBytes(ws[i].receiver.store, cfg.manifest.id)
                  + ListedBytes(cfg, SavedSets(saved.value), |SendIds(cfg)|)
  {
    ReceivedIsCompleted(cfg, ws, ls, i);
    hide FlatIds, SkipSet, EffectiveChunkSize, GlobalOffset, Prefix, ChunkCount, Trace, ListedBytes, ValidConfig;
    var r := ws[i].receiver;
    var saved := Lookup(OnInterrupt(r, why).receiver.store, cfg.manifest.id);
    assert SavedSets(saved.value) == CompletedSets(r);
  }

  function SavedSets(state: ResumeState): (sets: seq<set<nat>>)
    ensures |sets| == |state.files|
  {
    seq(|state.files|, f requires 0 <= f < |state.files| => state.files[f].completed)
  }
}
