/** The two parties of a transfer as reactive machines: each consumes one incoming event and answers
    with at most one message. The blocking loops of the source refine these (see SendTransfer and
    RecvTransfer); the two-party system is built from them (see Session). */
module Protocol {
  import opened Types
  import opened ChunkIndex
  import opened Storage
  import opened Resume
  import Bitmap
  import Geometry

  /** The `j`-th event the peer's side produces; behind the last one the connection is closed. */
  function EventAt(events: seq<Incoming>, j: nat): Incoming {
    if j < |events| then events[j] else Closed
  }

  // ----- Sender -----

  /** The manifest a sender announces, the contents of its files, and the encoded size of its request (the
      encoding of the manifest is the serializer's). */
  datatype Config = Config(manifest: Manifest, sources: seq<Bytes>, requestSize: nat)

  /** A manifest as the sender builds it: index = position, sizes taken from the files, file indices
      and all sums over bytes and chunks within their machine integers. */
  predicate ValidConfig(cfg: Config) {
    var m := cfg.manifest;
    && |cfg.sources| == |m.files| < U32_LIMIT
    && IndexIsPosition(m)
    && (forall i | 0 <= i < |m.files| :: m.files[i].size == |cfg.sources[i]|)
    && m.totalSize == SizeSum(m, |m.files|)
    && m.totalSize + |m.files| < U64_LIMIT
  }

  function SendSize(cfg: Config, file: nat): ChunkSize
    requires file < |cfg.manifest.files|
  {
    EffectiveChunkSize(cfg.manifest.files[file].size, cfg.manifest.chunkSize)
  }

  /** Chunk counts as the sender cuts its files. */
  function SendCounts(cfg: Config): (counts: seq<nat>)
    requires |cfg.sources| == |cfg.manifest.files|
    ensures |counts| == |cfg.sources|
  {
    seq(|cfg.sources|, i requires 0 <= i < |cfg.sources| => ChunkCount(|cfg.sources[i]|, SendSize(cfg, i)))
  }

  /** Everything the sender goes through, in its order. */
  function SendIds(cfg: Config): seq<ChunkId>
    requires |cfg.sources| == |cfg.manifest.files|
  {
    Ids(SendCounts(cfg))
  }

  function SendData(cfg: Config, id: ChunkId): Bytes
    requires |cfg.sources| == |cfg.manifest.files| && id.file < |cfg.sources|
  {
    ChunkOf(cfg.sources[id.file], SendSize(cfg, id.file), id.chunk)
  }

  predicate Skips(m: Manifest, skip: set<nat>, id: ChunkId) {
    GlobalOffset(m, id.file, id.chunk) in skip
  }

  // ----- What gets through the transport -----

  /** Encoded size of a message: fixed-width tags, numbers and lengths, and the bytes themselves. */
  function PlainSize(cfg: Config, m: Message): nat {
    match m
    case TransferRequest(_) => cfg.requestSize
    case TransferResponse(Accept) => 8
    case TransferResponse(Reject(reason)) => 16 + Utf8Length(reason)
    case TransferResponse(ResumeAt(bitmap)) => 16 + |bitmap|
    case ChunkData(_, data) => CHUNK_OVERHEAD + |data|
    case ChunkAck(_, _) => 48
    case TransferComplete(_) => 36
    case TransferVerified(ok) => if ok then 6 else 14 + Utf8Length(INCOMPLETE)
    case Progress => 20
    case Cancel(reason) => 12 + Utf8Length(reason)
    case Ping => 4
    case Pong => 4
  }

  const INCOMPLETE: string := "some files incomplete"

  /** Tag, file index, chunk offset and length in front of a chunk's data. */
  const CHUNK_OVERHEAD: nat := 24

  /** The largest chunk whose frame is accepted. */
  const MAX_CHUNK_DATA: nat := MAX_MESSAGE_SIZE - TAG_LENGTH - CHUNK_OVERHEAD

  /** The peer accepts the frame of this message. */
  predicate Carried(cfg: Config, m: Message) {
    FitsFrame(PlainSize(cfg, m))
  }

  /** What a receive call makes of what the peer put on the wire: an oversize frame is an error that ends the
      connection, like a reset. */
  function Heard(cfg: Config, x: Incoming): Incoming {
    if x.Msg? && !Carried(cfg, x.msg) then Reset else x
  }

  /** No chunk of any file is too large for a frame, in terms of sizes only. */
  predicate ChunksFit(cfg: Config)
    requires |cfg.sources| == |cfg.manifest.files|
  {
    forall f | 0 <= f < |cfg.sources| :: Min(|cfg.sources[f]|, SendSize(cfg, f)) <= MAX_CHUNK_DATA
  }

  predicate ChunkCarried(cfg: Config, id: ChunkId)
    requires |cfg.sources| == |cfg.manifest.files| && id.file < |cfg.sources|
  {
    Carried(cfg, ChunkData(id, SendData(cfg, id)))
  }

  /** The first chunk of a file is its largest ... */
  lemma FirstIsLargest(cfg: Config, id: ChunkId)
    requires |cfg.sources| == |cfg.manifest.files| && InRange(SendCounts(cfg), id)
    ensures |SendData(cfg, id)| <= Min(|cfg.sources[id.file]|, SendSize(cfg, id.file))
    ensures id.chunk == 0 ==> |SendData(cfg, id)| == Min(|cfg.sources[id.file]|, SendSize(cfg, id.file))
  {
    Geometry.ChunkShape(cfg.sources[id.file], SendSize(cfg, id.file), id.chunk);
  }

  lemma FileHasChunk(cfg: Config, f: nat)
    requires |cfg.sources| == |cfg.manifest.files| && f < |cfg.sources|
    ensures InRange(SendCounts(cfg), ChunkId(f, 0))
  {
    Geometry.CountCovers(|cfg.sources[f]|, SendSize(cfg, f));
  }

  /** ... so the sizes decide whether all chunks get through. */
  lemma ChunksFitIff(cfg: Config)
    requires |cfg.sources| == |cfg.manifest.files|
    ensures ChunksFit(cfg) <==> forall id | InRange(SendCounts(cfg), id) :: ChunkCarried(cfg, id)
  {
    hide SendData, SendSize, SendCounts;
    if ChunksFit(cfg) {
      forall id | InRange(SendCounts(cfg), id) ensures ChunkCarried(cfg, id) {
        FirstIsLargest(cfg, id);
      }
    } else {
      var f :| 0 <= f < |cfg.sources| && Min(|cfg.sources[f]|, SendSize(cfg, f)) > MAX_CHUNK_DATA;
      FileHasChunk(cfg, f);
      FirstIsLargest(cfg, ChunkId(f, 0));
      assert !ChunkCarried(cfg, ChunkId(f, 0));
    }
  }

  // ----- The sending machine -----

  datatype SenderResult =
    | Completed
    | Rejected(reason: string)
    | Cancelled(why: string)
    | Unexpected
    | TransportFailed

  /** What the sender waits for; `AwaitAck(k)` has sent the `k`-th chunk of its order. */
  datatype SenderPhase =
    | AwaitResponse
    | AwaitAck(k: nat)
    | AwaitVerified
    | SenderDone(result: SenderResult)

  datatype Sender = Sender(phase: SenderPhase, skip: set<nat>, bytesSent: nat)

  datatype SenderReaction = SenderReaction(sender: Sender, out: seq<Message>)

  const INITIAL_SENDER := Sender(AwaitResponse, {}, 0)

  predicate SenderOk(cfg: Config, s: Sender)
    requires |cfg.sources| == |cfg.manifest.files|
  {
    s.phase.AwaitAck? ==> s.phase.k < |SendIds(cfg)|
  }

  /** Goes on from position `k`: passes over skipped chunks, then sends the next chunk or, at the end,
      the completion message. */
  function Advance(cfg: Config, skip: set<nat>, k: nat, bytes: nat): (r: SenderReaction)
    requires |cfg.sources| == |cfg.manifest.files| && k <= |SendIds(cfg)|
    ensures SenderOk(cfg, r.sender)
    decreases |SendIds(cfg)| - k
  {
    if k == |SendIds(cfg)| then
      SenderReaction(Sender(AwaitVerified, skip, bytes), [TransferComplete(Sha256(cfg.manifest))])
    else
      IdInRange(SendCounts(cfg), k);
      var id := SendIds(cfg)[k];
      if Skips(cfg.manifest, skip, id) then
        Advance(cfg, skip, k + 1, bytes + SendSize(cfg, id.file))
      else
        SenderReaction(Sender(AwaitAck(k), skip, bytes), [ChunkData(id, SendData(cfg, id))])
  }

  function Stop(s: Sender, result: SenderResult): SenderReaction {
    SenderReaction(s.(phase := SenderDone(result)), [])
  }

  function SenderReact(cfg: Config, s: Sender, event: Incoming): (r: SenderReaction)
    requires |cfg.sources| == |cfg.manifest.files| && SenderOk(cfg, s)
    ensures SenderOk(cfg, r.sender)
  {
    match s.phase
    case SenderDone(_) => SenderReaction(s, [])
    case AwaitResponse =>
      (match event
       case Msg(TransferResponse(Accept)) => Advance(cfg, {}, 0, 0)
       case Msg(TransferResponse(ResumeAt(bitmap))) =>
         Advance(cfg, Bitmap.Decode(bitmap, TotalChunks(cfg.manifest)), 0, 0)
       case Msg(TransferResponse(Reject(reason))) => Stop(s, Rejected(reason))
       case Reset => Stop(s, TransportFailed)
       case _ => Stop(s, Unexpected))
    case AwaitAck(k) =>
      (match event
       case Msg(ChunkAck(_, _)) =>
         IdInRange(SendCounts(cfg), k);
         Advance(cfg, s.skip, k + 1, s.bytesSent + |SendData(cfg, SendIds(cfg)[k])|)
       case Msg(Cancel(reason)) => Stop(s, Cancelled(reason))
       case Reset => Stop(s, TransportFailed)
       case _ => Stop(s, Unexpected))
    case AwaitVerified =>
      (match event
       case Msg(TransferVerified(ok)) => Stop(s, if ok then Completed else Cancelled(INCOMPLETE))
       case Reset => Stop(s, TransportFailed)
       case _ => Stop(s, Unexpected))
  }

  // ----- Receiver -----

  datatype Decision = AcceptTransfer | RejectTransfer(reason: string)

  /** The receiver's surroundings: the auto-accept setting, the user's answer (none if the prompt went
      away), and the random names it would draw on fallback, per file. */
  datatype Env = Env(autoAccept: bool, answer: Option<Decision>, uuids: nat -> string)

  function Decide(env: Env): Decision {
    if env.autoAccept then AcceptTransfer
    else if env.answer.Some? then env.answer.value
    else RejectTransfer("no response")
  }

  datatype ReceiverResult =
    | Finished(allOk: bool, paths: seq<Option<Path>>)
    | Refused(reason: string)
    | Interrupted(why: string)
    | Failed
    | UnexpectedMessage
    | Crashed

  datatype ReceiverPhase =
    | AwaitRequest
    | Receiving(manifest: Manifest, writers: seq<Writer>, bytesReceived: nat)
    | ReceiverDone(result: ReceiverResult)

  /** The receiver with what outlives it: its disk and its resume records. */
  datatype Receiver = Receiver(phase: ReceiverPhase, disk: Disk, store: Store)

  datatype ReceiverReaction = ReceiverReaction(receiver: Receiver, out: seq<Message>)

  predicate ReceiverOk(r: Receiver) {
    r.phase.Receiving? ==> |r.phase.writers| == |r.phase.manifest.files|
  }

  function FileAnnounced(m: Manifest, f: FileResume): set<nat> {
    set c | c in f.completed :: GlobalOffset(m, f.fileIndex, c)
  }

  /** Global numbers of all chunks listed in the first `n` file records. */
  function Announced(m: Manifest, files: seq<FileResume>, n: nat): set<nat>
    requires n <= |files|
  {
    if n == 0 then {}
    else Announced(m, files, n - 1) + FileAnnounced(m, files[n - 1])
  }

  function OpenAll(disk: Disk, m: Manifest, n: nat): Disk
    requires n <= |m.files|
  {
    if n == 0 then disk else OpenTemp(OpenAll(disk, m, n - 1), m.files[n - 1].path, m.files[n - 1].size)
  }

  function NewWriters(m: Manifest): (ws: seq<Writer>)
    ensures |ws| == |m.files|
  {
    seq(|m.files|, i requires 0 <= i < |m.files| => Writer(m.files[i].path, m.chunkSize, m.files[i].size, {}))
  }

  /** The record saved on interruption. */
  function SavedState(m: Manifest, ws: seq<Writer>, bytes: nat): ResumeState
    requires |ws| == |m.files|
  {
    ResumeState(m.id,
                seq(|ws|, i requires 0 <= i < |ws| =>
                  FileResume(i, m.files[i].path, m.files[i].size, m.chunkSize, ws[i].completed)),
                bytes, m.totalSize)
  }

  function StopReceiving(r: Receiver, result: ReceiverResult): ReceiverReaction {
    ReceiverReaction(r.(phase := ReceiverDone(result)), [])
  }

  function OnRequest(env: Env, r: Receiver, m: Manifest): (x: ReceiverReaction)
    ensures ReceiverOk(x.receiver)
  {
    match Decide(env)
    case RejectTransfer(reason) =>
      ReceiverReaction(r.(phase := ReceiverDone(Refused(reason))), [TransferResponse(Reject(reason))])
    case AcceptTransfer =>
      var resume := Lookup(r.store, m.id);
      var response, bytes :=
        if resume.Some? then
          ResumeAt(Bitmap.Encode(Announced(m, resume.value.files, |resume.value.files|), TotalChunks(m)))
        else Accept,
        if resume.Some? then resume.value.bytesTransferred else 0;
      ReceiverReaction(Receiver(Receiving(m, NewWriters(m), bytes), OpenAll(r.disk, m, |m.files|), r.store),
                       [TransferResponse(response)])
  }

  function OnChunk(r: Receiver, id: ChunkId, data: Bytes): (x: ReceiverReaction)
    requires r.phase.Receiving? && ReceiverOk(r)
    ensures ReceiverOk(x.receiver)
  {
    var p := r.phase;
    if id.file >= |p.writers| then StopReceiving(r, Failed)
    else
      var o := WriteChunk(p.writers[id.file], r.disk, id.chunk, data);
      if o.result.Err? then StopReceiving(r, Failed)
      else
        ReceiverReaction(
          r.(disk := o.disk,
             phase := p.(writers := p.writers[id.file := o.writer], bytesReceived := p.bytesReceived + |data|)),
          [ChunkAck(id, o.result.value)])
  }

  function OnComplete(env: Env, r: Receiver): (x: ReceiverReaction)
    requires r.phase.Receiving? && ReceiverOk(r)
    ensures ReceiverOk(x.receiver)
  {
    var p := r.phase;
    var s := FinalizeUpTo(r.disk, Summaries(p.writers), env.uuids, |p.writers|);
    if s.failed then
      ReceiverReaction(r.(disk := s.disk, phase := ReceiverDone(Failed)), [])
    else
      ReceiverReaction(
        Receiver(ReceiverDone(Finished(s.allOk, s.paths)), s.disk,
                 if s.allOk then r.store - {p.manifest.id} else r.store),
        [TransferVerified(s.allOk)])
  }

  /** Cancellation and clean close both save what was received. */
  function OnInterrupt(r: Receiver, why: string): (x: ReceiverReaction)
    requires r.phase.Receiving? && ReceiverOk(r)
    ensures ReceiverOk(x.receiver)
  {
    var p := r.phase;
    ReceiverReaction(
      r.(phase := ReceiverDone(Interrupted(why)),
         store := r.store[p.manifest.id := Valid(SavedState(p.manifest, p.writers, p.bytesReceived))]),
      [])
  }

  function ReceiverReact(env: Env, r: Receiver, event: Incoming): (x: ReceiverReaction)
    requires ReceiverOk(r)
    ensures ReceiverOk(x.receiver)
  {
    match r.phase
    case ReceiverDone(_) => ReceiverReaction(r, [])
    case AwaitRequest =>
      (match event
       case Msg(TransferRequest(m)) => OnRequest(env, r, m)
       case Reset => StopReceiving(r, Failed)
       case _ => StopReceiving(r, UnexpectedMessage))
    case Receiving(_, _, _) =>
      (match event
       case Msg(ChunkData(id, data)) => OnChunk(r, id, data)
       case Msg(TransferComplete(_)) => OnComplete(env, r)
       case Msg(Cancel(reason)) => OnInterrupt(r, reason)
       case Closed => OnInterrupt(r, "connection closed")
       case Reset => StopReceiving(r, Failed)
       case _ => StopReceiving(r, UnexpectedMessage))
  }
}
