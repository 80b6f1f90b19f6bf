/** The sender's blocking loops, shown to do exactly what the reactive sender does. */
module SendTransfer {
  import opened Types
  import opened ChunkIndex
  import opened Protocol
  import Bitmap
  import Chunker

  /** The reactive sender fed with events from the `j`-th on until it is done. */
  function RunSender(cfg: Config, s: Sender, events: seq<Incoming>, j: nat, sent: seq<Message>)
    : (r: (Sender, seq<Message>))
    requires |cfg.sources| == |cfg.manifest.files| && SenderOk(cfg, s)
    ensures r.0.phase.SenderDone?
    decreases if j < |events| then |events| - j else 0
  {
    if s.phase.SenderDone? then (s, sent)
    else
      var x := SenderReact(cfg, s, EventAt(events, j));
      if j < |events| then RunSender(cfg, x.sender, events, j + 1, sent + x.out) else (x.sender, sent + x.out)
  }

  /** The run from the moment the sender goes on at position `k` of its order. */
  function RunAdvance(cfg: Config, skip: set<nat>, k: nat, bytes: nat,
                      events: seq<Incoming>, j: nat, sent: seq<Message>)
    : (Sender, seq<Message>)
    requires |cfg.sources| == |cfg.manifest.files| && k <= |SendIds(cfg)|
  {
    var x := Advance(cfg, skip, k, bytes);
    RunSender(cfg, x.sender, events, j, sent + x.out)
  }

  /** The manifest announces files by position, with their sizes and the sum of them. */
  method BuildManifest(id: TransferId, paths: seq<Path>, sources: seq<Bytes>, chunkSize: ChunkSize)
    returns (m: Manifest)
    requires |paths| == |sources| < U32_LIMIT
    ensures m.id == id && m.chunkSize == chunkSize && |m.files| == |paths|
    ensures forall i | 0 <= i < |paths| :: m.files[i] == FileEntry(i, paths[i], |sources[i]|)
    ensures IndexIsPosition(m) && m.totalSize == SizeSum(m, |m.files|)
    ensures m.totalSize + |m.files| < U64_LIMIT ==> forall size: nat :: ValidConfig(Config(m, sources, size))
  {
    var entries: seq<FileEntry> := [];
    var total := 0;
    for i := 0 to |paths|
      invariant |entries| == i
      invariant forall k | 0 <= k < i :: entries[k] == FileEntry(k, paths[k], |sources[k]|)
    {
      entries := entries + [FileEntry(i, paths[i], |sources[i]|)];
    }
    for i := 0 to |entries|
      invariant total == SizeSum(Manifest(id, entries, 0, chunkSize), i)
    {
      total := total + entries[i].size;
    }
    m := Manifest(id, entries, total, chunkSize);
    SumIgnoresTotal(m, Manifest(id, entries, 0, chunkSize), |entries|);
  }

  lemma {:induction false} SumIgnoresTotal(a: Manifest, b: Manifest, n: nat)
    requires a.files == b.files && n <= |a.files|
    ensures SizeSum(a, n) == SizeSum(b, n)
  {
    if n > 0 {
      SumIgnoresTotal(a, b, n - 1);
    }
  }

  lemma SkippedOne(cfg: Config, skip: set<nat>, id: ChunkId, bytes: nat,
                   events: seq<Incoming>, j: nat, sent: seq<Message>)
    requires |cfg.sources| == |cfg.manifest.files| && InRange(SendCounts(cfg), id)
    requires Skips(cfg.manifest, skip, id)
    ensures var k := Position(SendCounts(cfg), id);
            && k < |SendIds(cfg)|
            && RunAdvance(cfg, skip, k, bytes, events, j, sent)
               == RunAdvance(cfg, skip, k + 1, bytes + SendSize(cfg, id.file), events, j, sent)
  {
    hide FlatIds, Prefix, Position, GlobalOffset, RunSender, EffectiveChunkSize;
    IdAt(SendCounts(cfg), id);
  }

  lemma SentOne(cfg: Config, skip: set<nat>, id: ChunkId, bytes: nat, events: seq<Incoming>, j: nat, sent: seq<Message>)
    requires |cfg.sources| == |cfg.manifest.files| && InRange(SendCounts(cfg), id)
    requires !Skips(cfg.manifest, skip, id)
    ensures var k := Position(SendCounts(cfg), id);
            && k < |SendIds(cfg)|
            && SendIds(cfg)[k] == id
            && RunAdvance(cfg, skip, k, bytes, events, j, sent)
               == RunSender(cfg, Sender(AwaitAck(k), skip, bytes), events, j, sent + [ChunkData(id, SendData(cfg, id))])
  {
    hide FlatIds, Prefix, Position, GlobalOffset, RunSender, EffectiveChunkSize;
    IdAt(SendCounts(cfg), id);
  }

  function Ended(skip: set<nat>, bytes: nat, result: SenderResult, sent: seq<Message>): (Sender, seq<Message>) {
    (Sender(SenderDone(result), skip, bytes), sent)
  }

  /** Waiting for an acknowledgement: what each event leads to. */
  function AfterAck(cfg: Config, skip: set<nat>, id: ChunkId, bytes: nat,
                    events: seq<Incoming>, j: nat, sent: seq<Message>)
    : (Sender, seq<Message>)
    requires |cfg.sources| == |cfg.manifest.files| && InRange(SendCounts(cfg), id)
  {
    IdAt(SendCounts(cfg), id);
    match EventAt(events, j)
    case Msg(ChunkAck(_, _)) =>
      RunAdvance(cfg, skip, Position(SendCounts(cfg), id) + 1, bytes + |SendData(cfg, id)|, events, j + 1, sent)
    case Msg(Cancel(reason)) => Ended(skip, bytes, Cancelled(reason), sent)
    case Reset => Ended(skip, bytes, TransportFailed, sent)
    case _ => Ended(skip, bytes, Unexpected, sent)
  }

  lemma AckLeadsTo(cfg: Config, skip: set<nat>, id: ChunkId, bytes: nat,
                   events: seq<Incoming>, j: nat, sent: seq<Message>)
    requires |cfg.sources| == |cfg.manifest.files| && InRange(SendCounts(cfg), id)
    ensures var k := Position(SendCounts(cfg), id);
            && k < |SendIds(cfg)|
            && RunSender(cfg, Sender(AwaitAck(k), skip, bytes), events, j, sent)
               == AfterAck(cfg, skip, id, bytes, events, j, sent)
  {
    hide FlatIds, Prefix, Position, GlobalOffset, EffectiveChunkSize, Advance, ChunkOf, ChunkCount;
    IdAt(SendCounts(cfg), id);
    assert sent + [] == sent;
  }

  /** The chunk loop of one file: it hands over to the next file, or ends the transfer. */
  method SendFile(cfg: Config, f: nat, skip: set<nat>, bytesBefore: nat,
                  events: seq<Incoming>, next: nat, sentBefore: seq<Message>)
    returns (stop: Option<SenderResult>, bytesSent: nat, j: nat, sent: seq<Message>)
    requires ValidConfig(cfg) && f < |cfg.sources|
    requires Prefix(SendCounts(cfg), f) <= |SendIds(cfg)|
    ensures Prefix(SendCounts(cfg), f + 1) <= |SendIds(cfg)|
    ensures RunAdvance(cfg, skip, Prefix(SendCounts(cfg), f), bytesBefore, events, next, sentBefore)
         == if stop.Some? then Ended(skip, bytesSent, stop.value, sent)
            else RunAdvance(cfg, skip, Prefix(SendCounts(cfg), f + 1), bytesSent, events, j, sent)
  {
    hide FlatIds, GlobalOffset, EffectiveChunkSize, RunSender, RunAdvance, ChunkOf, ChunkCount, SizeSum;
    var m := cfg.manifest;
    ghost var start := Prefix(SendCounts(cfg), f);
    ghost var goal := RunAdvance(cfg, skip, start, bytesBefore, events, next, sentBefore);
    PrefixMono(SendCounts(cfg), f + 1, |cfg.sources|);
    bytesSent, j, sent := bytesBefore, next, sentBefore;
    var size := EffectiveChunkSize(m.files[f].size, m.chunkSize);
    var chunker := new Chunker.FileChunker(cfg.sources[f], size, |cfg.sources[f]|);
    for c := 0 to chunker.Count()
      invariant start + c <= |SendIds(cfg)|
      invariant goal == RunAdvance(cfg, skip, start + c, bytesSent, events, j, sent)
    {
      var id := ChunkId(f, c);
      assert InRange(SendCounts(cfg), id) && Position(SendCounts(cfg), id) == start + c;
      var global := GlobalChunkOffset(m, f, c);
      if global in skip {
        SkippedOne(cfg, skip, id, bytesSent, events, j, sent);
        bytesSent := bytesSent + chunker.chunkSize;
        continue;
      }
      var data := chunker.ReadChunk(c);
      SentOne(cfg, skip, id, bytesSent, events, j, sent);
      sent := sent + [ChunkData(id, data)];
      AckLeadsTo(cfg, skip, id, bytesSent, events, j, sent);
      match EventAt(events, j) {
        case Msg(ChunkAck(_, _)) =>
          bytesSent := bytesSent + |data|;
          j := j + 1;
        case Msg(Cancel(reason)) => return Some(Cancelled(reason)), bytesSent, j, sent;
        case Reset => return Some(TransportFailed), bytesSent, j, sent;
        case _ => return Some(Unexpected), bytesSent, j, sent;
      }
    }
    stop := None;
  }

  /** What the answer to the request leads to. */
  function AfterResponse(cfg: Config, events: seq<Incoming>, sent: seq<Message>): (Sender, seq<Message>)
    requires |cfg.sources| == |cfg.manifest.files|
  {
    match EventAt(events, 0)
    case Msg(TransferResponse(Accept)) => RunAdvance(cfg, {}, 0, 0, events, 1, sent)
    case Msg(TransferResponse(ResumeAt(bitmap))) =>
      RunAdvance(cfg, Bitmap.Decode(bitmap, TotalChunks(cfg.manifest)), 0, 0, events, 1, sent)
    case Msg(TransferResponse(Reject(reason))) => Ended({}, 0, Rejected(reason), sent)
    case Reset => Ended({}, 0, TransportFailed, sent)
    case _ => Ended({}, 0, Unexpected, sent)
  }

  lemma ResponseLeadsTo(cfg: Config, events: seq<Incoming>, sent: seq<Message>)
    requires |cfg.sources| == |cfg.manifest.files|
    ensures RunSender(cfg, INITIAL_SENDER, events, 0, sent) == AfterResponse(cfg, events, sent)
  {
    hide FlatIds, Prefix, Advance, Bitmap.Decode;
    assert sent + [] == sent;
  }

  /** What the verification message leads to, once everything is sent. */
  function AfterAll(cfg: Config, skip: set<nat>, bytes: nat, events: seq<Incoming>, j: nat, sent: seq<Message>)
    : (Sender, seq<Message>)
  {
    match EventAt(events, j)
    case Msg(TransferVerified(ok)) =>
      Ended(skip, bytes, if ok then Completed else Cancelled(INCOMPLETE), sent)
    case Reset => Ended(skip, bytes, TransportFailed, sent)
    case _ => Ended(skip, bytes, Unexpected, sent)
  }

  lemma VerdictLeadsTo(cfg: Config, skip: set<nat>, bytes: nat, events: seq<Incoming>, j: nat, sent: seq<Message>)
    requires |cfg.sources| == |cfg.manifest.files|
    ensures RunAdvance(cfg, skip, |SendIds(cfg)|, bytes, events, j, sent)
         == AfterAll(cfg, skip, bytes, events, j, sent + [TransferComplete(Sha256(cfg.manifest))])
  {
    hide FlatIds, Prefix;
    var s, all := Sender(AwaitVerified, skip, bytes), sent + [TransferComplete(Sha256(cfg.manifest))];
    assert Advance(cfg, skip, |SendIds(cfg)|, bytes).sender == s;
    assert all + [] == all;
    var x := SenderReact(cfg, s, EventAt(events, j));
    assert x.out == [] && x.sender.phase.SenderDone?;
    assert RunSender(cfg, s, events, j, all) == (x.sender, all);
  }

  /** The whole of `send_files` behind the handshake, on the events its receive calls return. */
  method SendFiles(cfg: Config, events: seq<Incoming>)
    returns (result: SenderResult, bytesSent: nat, sent: seq<Message>)
    requires ValidConfig(cfg)
    ensures var (s, out) := RunSender(cfg, INITIAL_SENDER, events, 0, [TransferRequest(cfg.manifest)]);
            s.phase == SenderDone(result) && s.bytesSent == bytesSent && out == sent
  {
    hide FlatIds, RunSender, RunAdvance, Bitmap.Decode;
    ghost var goal := RunSender(cfg, INITIAL_SENDER, events, 0, [TransferRequest(cfg.manifest)]);
    var m := cfg.manifest;
    sent := [TransferRequest(m)];
    bytesSent := 0;

    ResponseLeadsTo(cfg, events, sent);
    var skip: set<nat>;
    match EventAt(events, 0) {
      case Msg(TransferResponse(Accept)) => skip := {};
      case Msg(TransferResponse(ResumeAt(bitmap))) =>
        skip := Bitmap.DecodeReceivedBitmap(bitmap, TotalChunks(m));
      case Msg(TransferResponse(Reject(reason))) => return Rejected(reason), 0, sent;
      case Reset => return TransportFailed, 0, sent;
      case _ => return Unexpected, 0, sent;
    }

    var j := 1;
    for f := 0 to |m.files|
      invariant Prefix(SendCounts(cfg), f) <= |SendIds(cfg)|
      invariant goal == RunAdvance(cfg, skip, Prefix(SendCounts(cfg), f), bytesSent, events, j, sent)
    {
      var stop;
      stop, bytesSent, j, sent := SendFile(cfg, f, skip, bytesSent, events, j, sent);
      if stop.Some? {
        return stop.value, bytesSent, sent;
      }
    }

    VerdictLeadsTo(cfg, skip, bytesSent, events, j, sent);
    sent := sent + [TransferComplete(Sha256(m))];
    match EventAt(events, j) {
      case Msg(TransferVerified(ok)) => result := if ok then Completed else Cancelled(INCOMPLETE);
      case Reset => result := TransportFailed;
      case _ => result := Unexpected;
    }
  }
}
