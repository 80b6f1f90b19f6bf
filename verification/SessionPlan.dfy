/** What a session consists of once its request is on the wire: the send order with what is skipped, what
    the receiver has after each position of it, and how its count and its finalize loop end. */
module SessionPlan {
  import opened Types
  import opened ChunkIndex
  import opened Storage
  import opened Resume
  import opened Protocol
  import opened Session
  import Bitmap

  /** One chunk of the send order: whether it is skipped, its data, and the chunk size it is cut at. */
  datatype Item = Item(id: ChunkId, skipped: bool, data: Bytes, size: nat)

  /** Fixed facts of a session: the configuration, the receiver's surroundings, the disk and the resume
      records found, the chunks each writer starts with, the bytes counted before, and the send order. */
  datatype Plan = Plan(cfg: Config, env: Env, disk: Disk, store: Store, initial: seq<set<nat>>, bytesBefore: nat,
                       items: seq<Item>)

  function Skip(p: Plan): set<nat> {
    SkipSet(p.cfg.manifest, p.store)
  }

  predicate ItemOk(p: Plan, k: nat)
    requires |p.cfg.sources| == |p.cfg.manifest.files| && k < |p.items| == |SendIds(p.cfg)|
  {
    var item := p.items[k];
    && item.id == SendIds(p.cfg)[k]
    && InRange(SendCounts(p.cfg), item.id)
    && Position(SendCounts(p.cfg), item.id) == k
    && item.skipped == Skips(p.cfg.manifest, Skip(p), item.id)
    && item.data == SendData(p.cfg, item.id)
    && item.size == SendSize(p.cfg, item.id.file)
  }

  predicate ItemsOk(p: Plan)
    requires |p.cfg.sources| == |p.cfg.manifest.files|
  {
    |p.items| == |SendIds(p.cfg)| && forall k | 0 <= k < |p.items| :: ItemOk(p, k)
  }

  predicate PlanOk(p: Plan) {
    ValidConfig(p.cfg) && |p.initial| == |p.cfg.sources| == |p.cfg.manifest.files| && ItemsOk(p)
  }

  function RecordedBytes(store: Store, id: TransferId): nat {
    var resume := Lookup(store, id);
    if resume.Some? then resume.value.bytesTransferred else 0
  }

  function PlannedItem(cfg: Config, skip: set<nat>, k: nat): Item
    requires |cfg.sources| == |cfg.manifest.files| && k < |SendIds(cfg)|
  {
    IdInRange(SendCounts(cfg), k);
    var id := SendIds(cfg)[k];
    Item(id, Skips(cfg.manifest, skip, id), SendData(cfg, id), SendSize(cfg, id.file))
  }

  /** The plan of a session as the code starts it: writers empty, the byte counter taken from the record. */
  function PlanOf(cfg: Config, env: Env, disk: Disk, store: Store): Plan
    requires |cfg.sources| == |cfg.manifest.files|
  {
    Plan(cfg, env, disk, store, seq(|cfg.sources|, _ => {}), RecordedBytes(store, cfg.manifest.id),
         seq(|SendIds(cfg)|, k requires 0 <= k < |SendIds(cfg)| => PlannedItem(cfg, SkipSet(cfg.manifest, store), k)))
  }

  predicate StartsEmpty(p: Plan) {
    forall f | 0 <= f < |p.initial| :: p.initial[f] == {}
  }

  lemma PlanOfOk(cfg: Config, env: Env, disk: Disk, store: Store)
    requires ValidConfig(cfg)
    ensures PlanOk(PlanOf(cfg, env, disk, store)) && StartsEmpty(PlanOf(cfg, env, disk, store))
  {
    hide FlatIds, Prefix, SkipSet, GlobalOffset, EffectiveChunkSize, ChunkCount, ChunkOf;
    var p := PlanOf(cfg, env, disk, store);
    forall k | 0 <= k < |p.items| ensures ItemOk(p, k) {
      IdInRange(SendCounts(cfg), k);
    }
  }

  // ----- Counting along the send order -----

  /** Chunks sent among the first `k` of the order. */
  function DoneIds(items: seq<Item>, k: nat): set<ChunkId>
    requires k <= |items|
  {
    if k == 0 then {} else DoneIds(items, k - 1) + (if items[k - 1].skipped then {} else {items[k - 1].id})
  }

  /** Data bytes sent among the first `k`. */
  function SentBytes(items: seq<Item>, k: nat): nat
    requires k <= |items|
  {
    if k == 0 then 0 else SentBytes(items, k - 1) + (if items[k - 1].skipped then 0 else |items[k - 1].data|)
  }

  /** What the sender counts: data bytes for a sent chunk, a whole chunk size for a skipped one. */
  function CountedBytes(items: seq<Item>, k: nat): nat
    requires k <= |items|
  {
    if k == 0 then 0
    else CountedBytes(items, k - 1) + (if items[k - 1].skipped then items[k - 1].size else |items[k - 1].data|)
  }

  /** Chunks still to be sent from position `k` on. */
  function Remaining(items: seq<Item>, k: nat): nat
    requires k <= |items|
    decreases |items| - k
  {
    if k == |items| then 0 else Remaining(items, k + 1) + (if items[k].skipped then 0 else 1)
  }

  function AfterItem(disk: Disk, m: Manifest, item: Item): Disk {
    if item.skipped || item.id.file >= |m.files| then disk
    else
      var temp := TempPath(m.files[item.id.file].path);
      if temp in disk then disk[temp := WriteAt(disk[temp], item.id.chunk * m.chunkSize, item.data)] else disk
  }

  /** The receiver's disk when it has the chunks sent among the first `k`. */
  function DiskAt(p: Plan, k: nat): Disk
    requires k <= |p.items|
  {
    if k == 0 then OpenAll(p.disk, p.cfg.manifest, |p.cfg.manifest.files|)
    else AfterItem(DiskAt(p, k - 1), p.cfg.manifest, p.items[k - 1])
  }

  function ChunksOf(ids: set<ChunkId>, f: nat): set<nat> {
    set id | id in ids && id.file == f :: id.chunk
  }

  // ----- Messages that get through -----

  /** The receiver's answer to a request it accepts. */
  function ResponseTo(m: Manifest, store: Store): Response {
    if Lookup(store, m.id).Some? then ResumeAt(Bitmap.Encode(AnnouncedSet(m, store), TotalChunks(m))) else Accept
  }

  function OfferedResponse(p: Plan): Response {
    ResponseTo(p.cfg.manifest, p.store)
  }

  predicate RequestHeard(p: Plan) {
    Carried(p.cfg, TransferRequest(p.cfg.manifest))
  }

  predicate ResponseHeard(p: Plan) {
    Carried(p.cfg, TransferResponse(OfferedResponse(p)))
  }

  /** The receiver hears the chunk and has room for it. */
  predicate Taken(p: Plan, item: Item) {
    && Carried(p.cfg, ChunkData(item.id, item.data))
    && item.id.file < |p.cfg.manifest.files| && item.id.chunk < ManifestCounts(p.cfg.manifest)[item.id.file]
  }

  predicate AllTaken(p: Plan, k: nat)
    requires k <= |p.items|
  {
    forall j | 0 <= j < k && !p.items[j].skipped :: Taken(p, p.items[j])
  }

  predicate Through(p: Plan) {
    RequestHeard(p) && ResponseHeard(p) && AllTaken(p, |p.items|)
  }

  // ----- The receiver along the send order -----

  predicate WriterAt(p: Plan, w: Writer, f: nat, done: set<ChunkId>)
    requires f < |p.cfg.manifest.files| && f < |p.initial|
  {
    var e := p.cfg.manifest.files[f];
    w == Writer(e.path, p.cfg.manifest.chunkSize, e.size, p.initial[f] + ChunksOf(done, f))
  }

  predicate WritersAt(p: Plan, ws: seq<Writer>, done: set<ChunkId>)
    requires |p.cfg.manifest.files| == |p.initial|
  {
    |ws| == |p.initial| && forall f | 0 <= f < |p.initial| :: WriterAt(p, ws[f], f, done)
  }

  /** The receiver has taken in exactly what was sent among the first `k`. */
  predicate TakenIn(p: Plan, r: Receiver, k: nat)
    requires |p.cfg.manifest.files| == |p.initial| && k <= |p.items|
  {
    && r.phase.Receiving?
    && r.phase.manifest == p.cfg.manifest
    && r.store == p.store
    && WritersAt(p, r.phase.writers, DoneIds(p.items, k))
    && r.disk == DiskAt(p, k)
    && r.phase.bytesReceived == p.bytesBefore + SentBytes(p.items, k)
  }

  predicate CompleteAtEnd(p: Plan, f: nat)
    requires |p.cfg.manifest.files| == |p.initial| && f < |p.initial|
  {
    |p.initial[f] + ChunksOf(DoneIds(p.items, |p.items|), f)| == ManifestCounts(p.cfg.manifest)[f]
  }

  /** Counting the writers gives this verdict at the end. */
  predicate EndsOk(p: Plan)
    requires |p.cfg.manifest.files| == |p.initial|
  {
    forall f | 0 <= f < |p.initial| :: CompleteAtEnd(p, f)
  }

  function FinalDones(p: Plan): (ds: seq<Done>)
    requires |p.cfg.manifest.files| == |p.initial|
    ensures |ds| == |p.initial|
  {
    seq(|p.initial|, f requires 0 <= f < |p.initial| => Done(p.cfg.manifest.files[f].path, CompleteAtEnd(p, f)))
  }

  function FinalState(p: Plan, uuids: nat -> string): FinState
    requires |p.cfg.manifest.files| == |p.initial|
  {
    FinalizeUpTo(DiskAt(p, |p.items|), FinalDones(p), uuids, |p.initial|)
  }

  ghost predicate FallbacksUnused(p: Plan, uuids: nat -> string)
    requires |p.cfg.manifest.files| == |p.initial|
  {
    FreshFallbacks(DiskAt(p, |p.items|), FinalDones(p), uuids)
  }

  /** The receiver has finalized what it had after the whole order. */
  ghost predicate Ended(p: Plan, r: Receiver, uuids: nat -> string)
    requires |p.cfg.manifest.files| == |p.initial|
  {
    var s := FinalState(p, uuids);
    && !s.failed
    && r.phase == ReceiverDone(Finished(s.allOk, s.paths))
    && r.disk == s.disk
    && r.store == (if s.allOk then p.store - {p.cfg.manifest.id} else p.store)
    && FallbacksUnused(p, uuids)
  }

  lemma ChunksOfAdd(ids: set<ChunkId>, id: ChunkId, f: nat)
    ensures ChunksOf(ids + {id}, f) == ChunksOf(ids, f) + (if id.file == f then {id.chunk} else {})
  {
    forall c ensures c in ChunksOf(ids + {id}, f) <==> c in ChunksOf(ids, f) || (id.file == f && c == id.chunk) {
      if c in ChunksOf(ids, f) {
        assert ChunkId(f, c) in ids + {id};
      } else if id.file == f && c == id.chunk {
        assert id in ids + {id};
      }
    }
  }

  lemma {:induction false} AllTempsOpen(m: Manifest, disk: Disk, n: nat)
    requires n <= |m.files|
    ensures forall f | 0 <= f < n :: TempPath(m.files[f].path) in OpenAll(disk, m, n)
  {
    if n > 0 {
      AllTempsOpen(m, disk, n - 1);
    }
  }

  /** Temporary files stay. */
  lemma {:induction false} TempsStay(p: Plan, k: nat, f: nat)
    requires k <= |p.items| && f < |p.cfg.manifest.files|
    ensures TempPath(p.cfg.manifest.files[f].path) in DiskAt(p, k)
  {
    if k == 0 {
      AllTempsOpen(p.cfg.manifest, p.disk, |p.cfg.manifest.files|);
    } else {
      TempsStay(p, k - 1, f);
    }
  }

  /** Accepting opens the writers, empty. */
  lemma Opens(p: Plan, env: Env, r: Receiver)
    requires PlanOk(p) && StartsEmpty(p) && Decide(env).AcceptTransfer?
    requires r == Receiver(AwaitRequest, p.disk, p.store) && p.bytesBefore == RecordedBytes(p.store, p.cfg.manifest.id)
    ensures var x := OnRequest(env, r, p.cfg.manifest);
            TakenIn(p, x.receiver, 0) && x.out == [TransferResponse(OfferedResponse(p))]
  {
    hide FlatIds, Prefix, ItemsOk, Announced, SetLen, ValidConfig;
    var x := OnRequest(env, r, p.cfg.manifest).receiver;
    forall f | 0 <= f < |p.initial| ensures WriterAt(p, x.phase.writers[f], f, {}) {
      assert p.initial[f] == {};
    }
  }

  lemma WritersGrow(p: Plan, ws: seq<Writer>, done: set<ChunkId>, id: ChunkId, w: Writer)
    requires |p.cfg.manifest.files| == |p.initial| && WritersAt(p, ws, done) && id.file < |ws|
    requires w == ws[id.file].(completed := ws[id.file].completed + {id.chunk})
    ensures WritersAt(p, ws[id.file := w], done + {id})
  {
    var now := ws[id.file := w];
    forall f | 0 <= f < |p.initial| ensures WriterAt(p, now[f], f, done + {id}) {
      assert WriterAt(p, ws[f], f, done);
      ChunksOfAdd(done, id, f);
    }
  }

  /** The receiver takes in a chunk it has room for: the writer it names completes exactly that chunk, its
      bytes go to that writer's temporary file, and the counter grows by their number. */
  lemma TakesChunk(p: Plan, r: Receiver, k: nat)
    requires PlanOk(p) && k < |p.items| && TakenIn(p, r, k)
    requires !p.items[k].skipped && Taken(p, p.items[k])
    ensures var x := OnChunk(r, p.items[k].id, p.items[k].data);
            && TakenIn(p, x.receiver, k + 1)
            && x.out == [ChunkAck(p.items[k].id, Sha256(p.items[k].data))]
  {
    hide FlatIds, Prefix, ItemsOk, ValidConfig, ChunkCount, WriteAt, OpenAll, ChunksOf, Carried;
    var item := p.items[k];
    var w := r.phase.writers[item.id.file];
    assert WriterAt(p, w, item.id.file, DoneIds(p.items, k));
    TempsStay(p, k, item.id.file);
    WritersGrow(p, r.phase.writers, DoneIds(p.items, k), item.id, w.(completed := w.completed + {item.id.chunk}));
  }

  /** A chunk the receiver has no room for ends its session. */
  lemma RefusesChunk(p: Plan, r: Receiver, k: nat)
    requires PlanOk(p) && k < |p.items| && TakenIn(p, r, k)
    requires p.items[k].id.file < |p.cfg.manifest.files|
    requires p.items[k].id.chunk >= ManifestCounts(p.cfg.manifest)[p.items[k].id.file]
    ensures OnChunk(r, p.items[k].id, p.items[k].data) == StopReceiving(r, Failed)
  {
    hide FlatIds, Prefix, ItemsOk, ValidConfig, ChunkCount, WriteAt, OpenAll, ChunksOf;
    var id := p.items[k].id;
    assert WriterAt(p, r.phase.writers[id.file], id.file, DoneIds(p.items, k));
  }

  lemma SummariesAtEnd(p: Plan, r: Receiver)
    requires PlanOk(p) && TakenIn(p, r, |p.items|)
    ensures Summaries(r.phase.writers) == FinalDones(p)
  {
    hide FlatIds, Prefix, ItemsOk, ValidConfig, ChunkCount, ChunksOf, DoneIds, DiskAt;
    forall f | 0 <= f < |p.initial| ensures Summaries(r.phase.writers)[f] == FinalDones(p)[f] {
      assert WriterAt(p, r.phase.writers[f], f, DoneIds(p.items, |p.items|));
    }
  }

  /** The completion message makes the receiver finalize, or fail in doing so. */
  lemma FinishesOrFails(p: Plan, env: Env, r: Receiver)
    requires PlanOk(p) && TakenIn(p, r, |p.items|)
    ensures var x, s := OnComplete(env, r), FinalState(p, env.uuids);
            && (s.failed ==> x.receiver.phase == ReceiverDone(Failed) && x.out == [])
            && (!s.failed ==> x.out == [TransferVerified(s.allOk)]
                              && (FallbacksFresh(env, r) ==> Ended(p, x.receiver, env.uuids)))
  {
    SummariesAtEnd(p, r);
    hide FlatIds, Prefix, ItemsOk, ValidConfig, ChunkCount, ChunksOf, DoneIds, DiskAt, FinalizeUpTo, FreshFallbacks,
         WritersAt;
  }

  lemma VerdictOfNext(disk: Disk, ws: seq<Done>, uuids: nat -> string, n: nat)
    requires n < |ws|
    ensures var s, t := FinalizeUpTo(disk, ws, uuids, n), FinalizeUpTo(disk, ws, uuids, n + 1);
            !t.failed ==> !s.failed && t.allOk == (s.allOk && ws[n].complete)
  {
    hide UniquePath, TempPath, Rename;
  }

  predicate AllComplete(ws: seq<Done>, n: nat)
    requires n <= |ws|
  {
    forall i | 0 <= i < n :: ws[i].complete
  }

  lemma OneMoreComplete(ws: seq<Done>, n: nat)
    requires n < |ws|
    ensures AllComplete(ws, n + 1) <==> AllComplete(ws, n) && ws[n].complete
  {
  }

  lemma {:induction false} VerdictIsCount(disk: Disk, ws: seq<Done>, uuids: nat -> string, n: nat)
    requires n <= |ws|
    ensures !FinalizeUpTo(disk, ws, uuids, n).failed ==> FinalizeUpTo(disk, ws, uuids, n).allOk == AllComplete(ws, n)
  {
    if n > 0 {
      hide FinalizeUpTo, AllComplete;
      VerdictIsCount(disk, ws, uuids, n - 1);
      VerdictOfNext(disk, ws, uuids, n - 1);
      OneMoreComplete(ws, n - 1);
    }
  }

  /** If finalizing does not fail, its verdict is that of the count. */
  lemma VerdictIsEndsOk(p: Plan, uuids: nat -> string)
    requires PlanOk(p)
    ensures !FinalState(p, uuids).failed ==> FinalState(p, uuids).allOk == EndsOk(p)
  {
    hide FlatIds, Prefix, ItemsOk, ValidConfig, ChunkCount, ChunksOf, DoneIds, DiskAt, FinalizeUpTo, CompleteAtEnd;
    VerdictIsCount(DiskAt(p, |p.items|), FinalDones(p), uuids, |p.initial|);
    assert forall f | 0 <= f < |p.initial| :: FinalDones(p)[f].complete == CompleteAtEnd(p, f);
  }

  lemma FinalTemps(p: Plan)
    requires PlanOk(p) && TempsDistinct(p.cfg.manifest)
    ensures DistinctTemps(FinalDones(p)) && TempsOnDisk(FinalDones(p), DiskAt(p, |p.items|))
  {
    hide FlatIds, Prefix, ItemsOk, ValidConfig, ChunkCount, ChunksOf, DoneIds, DiskAt, CompleteAtEnd, TempPath;
    var ds := FinalDones(p);
    forall f | 0 <= f < |ds| ensures ds[f].Temp() in DiskAt(p, |p.items|) {
      TempsStay(p, |p.items|, f);
    }
  }

  /** With distinct temporary files finalizing does not fail. */
  lemma FinalizingSucceeds(p: Plan, uuids: nat -> string)
    requires PlanOk(p) && TempsDistinct(p.cfg.manifest) && FallbacksUnused(p, uuids)
    ensures !FinalState(p, uuids).failed && FinalState(p, uuids).allOk == EndsOk(p)
  {
    hide FlatIds, Prefix, ItemsOk, ValidConfig, ChunkCount, ChunksOf, DoneIds, DiskAt, FinalizeUpTo, EndsOk,
         FinalDones, DistinctTemps, TempsOnDisk, FreshFallbacks;
    FinalTemps(p);
    FinalizeVerdict(DiskAt(p, |p.items|), FinalDones(p), uuids);
    VerdictIsEndsOk(p, uuids);
  }

  // ----- The sender along its order -----

  /** What the sender does at one position of its order. */
  lemma AdvanceOne(p: Plan, k: nat, bytes: nat)
    requires PlanOk(p) && k <= |p.items|
    ensures Advance(p.cfg, Skip(p), k, bytes)
         == if k == |p.items| then
              SenderReaction(Sender(AwaitVerified, Skip(p), bytes), [TransferComplete(Sha256(p.cfg.manifest))])
            else if p.items[k].skipped then
              Advance(p.cfg, Skip(p), k + 1, bytes + p.items[k].size)
            else
              SenderReaction(Sender(AwaitAck(k), Skip(p), bytes), [ChunkData(p.items[k].id, p.items[k].data)])
  {
    hide FlatIds, Prefix, SkipSet, GlobalOffset, EffectiveChunkSize, ChunkOf, ChunkCount;
    if k < |p.items| {
      assert ItemOk(p, k);
    }
  }

  /** Nothing but skipped chunks lies between the two positions. */
  predicate SameCounts(p: Plan, k: nat, j: nat)
    requires k <= j <= |p.items|
  {
    && DoneIds(p.items, j) == DoneIds(p.items, k)
    && SentBytes(p.items, j) == SentBytes(p.items, k)
    && Remaining(p.items, j) == Remaining(p.items, k)
    && DiskAt(p, j) == DiskAt(p, k)
    && (AllTaken(p, k) ==> AllTaken(p, j))
  }

  function NextOut(p: Plan, j: nat): Message
    requires j <= |p.items|
  {
    if j == |p.items| then TransferComplete(Sha256(p.cfg.manifest)) else ChunkData(p.items[j].id, p.items[j].data)
  }

  function Emission(p: Plan, j: nat): SenderReaction
    requires j <= |p.items|
  {
    SenderReaction(Sender(if j == |p.items| then AwaitVerified else AwaitAck(j), Skip(p), CountedBytes(p.items, j)),
                   [NextOut(p, j)])
  }

  /** Where the sender gets to from position `k`: everything passed over is skipped. */
  lemma {:induction false} AdvanceExactly(p: Plan, k: nat) returns (j: nat)
    requires PlanOk(p) && k <= |p.items|
    ensures k <= j <= |p.items| && SameCounts(p, k, j)
    ensures j < |p.items| ==> !p.items[j].skipped
    ensures Advance(p.cfg, Skip(p), k, CountedBytes(p.items, k)) == Emission(p, j)
    decreases |p.items| - k
  {
    hide Advance, FlatIds, ItemsOk, ValidConfig, SkipSet, OpenAll, Taken;
    AdvanceOne(p, k, CountedBytes(p.items, k));
    if k < |p.items| && p.items[k].skipped {
      j := AdvanceExactly(p, k + 1);
    } else {
      j := k;
    }
  }

  /** The sender waits for the acknowledgement of the `k`-th chunk. */
  predicate Waiting(p: Plan, s: Sender, k: nat)
    requires k < |p.items|
  {
    !p.items[k].skipped && s == Sender(AwaitAck(k), Skip(p), CountedBytes(p.items, k))
  }

  /** The response sets the sender going with the receiver's skip set. */
  lemma OnOffer(p: Plan)
    requires PlanOk(p)
    ensures SenderReact(p.cfg, INITIAL_SENDER, Msg(TransferResponse(OfferedResponse(p))))
         == Advance(p.cfg, Skip(p), 0, 0)
  {
    hide FlatIds, Prefix, ItemsOk, ValidConfig, Advance, AnnouncedSet;
  }

  lemma OnAck(p: Plan, s: Sender, k: nat, x: Incoming)
    requires PlanOk(p) && k < |p.items| && Waiting(p, s, k) && x.Msg? && x.msg.ChunkAck?
    ensures SenderOk(p.cfg, s)
    ensures SenderReact(p.cfg, s, x) == Advance(p.cfg, Skip(p), k + 1, CountedBytes(p.items, k + 1))
  {
    hide FlatIds, Prefix, ValidConfig, Advance, SkipSet, SendCounts, SendSize, ChunkOf;
    assert ItemOk(p, k);
  }
}
