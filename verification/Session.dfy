/** The two parties joined by two FIFO channels, with everything that can interrupt them, over any
    number of sessions for one manifest. Main results: `CompletedMeansDelivered` and
    `SavedChunksAreSound`, both for every reachable world. */
module Session {
  import opened Types
  import opened ChunkIndex
  import opened Storage
  import opened Resume
  import opened Protocol
  import opened Reassembly
  import Bitmap

  datatype World = World(sender: Sender, toReceiver: seq<Incoming>, toSender: seq<Incoming>, receiver: Receiver)

  /** How far a crashing receiver got with what it was doing. */
  datatype Tear =
    | Idle
    | MidWrite(written: nat)
    | MidSave
    | MidFinalize(env: Env, moved: nat)

  datatype Label =
    | SenderReceives
    | ReceiverReceives(env: Env)
    | SenderCancels(why: string)
    | SenderLeaves
    | LinkBreaks
    | ReceiverCrashes(tear: Tear)
    | Reconnect(disk: Disk, store: Store)

  function Sent(out: seq<Message>, leaves: bool): seq<Incoming> {
    seq(|out|, i requires 0 <= i < |out| => Msg(out[i])) + (if leaves then [Closed] else [])
  }

  function Start(cfg: Config, disk: Disk, store: Store): World {
    World(INITIAL_SENDER, [Msg(TransferRequest(cfg.manifest))], [], Receiver(AwaitRequest, disk, store))
  }

  predicate WorldOk(cfg: Config, w: World)
    requires |cfg.sources| == |cfg.manifest.files|
  {
    SenderOk(cfg, w.sender) && ReceiverOk(w.receiver)
  }

  /** The random fallback names are fresh whenever a finalize loop starts. */
  predicate FallbacksFresh(env: Env, r: Receiver) {
    r.phase.Receiving? ==> FreshFallbacks(r.disk, Summaries(r.phase.writers), env.uuids)
  }

  predicate Finishes(x: Incoming) {
    x.Msg? && x.msg.TransferComplete?
  }

  predicate Enabled(cfg: Config, w: World, l: Label)
    requires |cfg.sources| == |cfg.manifest.files| && WorldOk(cfg, w)
  {
    match l
    case SenderReceives => w.toSender != [] && !w.sender.phase.SenderDone?
    case ReceiverReceives(env) =>
      && w.toReceiver != [] && !w.receiver.phase.ReceiverDone?
      && (Finishes(w.toReceiver[0]) ==> FallbacksFresh(env, w.receiver))
    case SenderCancels(_) => !w.sender.phase.SenderDone?
    case SenderLeaves => !w.sender.phase.SenderDone?
    case LinkBreaks => true
    case ReceiverCrashes(Idle) => !w.receiver.phase.ReceiverDone?
    case ReceiverCrashes(MidWrite(n)) =>
      && w.receiver.phase.Receiving?
      && w.toReceiver != [] && w.toReceiver[0].Msg? && w.toReceiver[0].msg.ChunkData?
      && Carried(cfg, w.toReceiver[0].msg)
      && n <= |w.toReceiver[0].msg.data|
      && w.toReceiver[0].msg.id.file < |w.receiver.phase.writers|
    case ReceiverCrashes(MidSave) => w.receiver.phase.Receiving?
    case ReceiverCrashes(MidFinalize(env, n)) =>
      && w.receiver.phase.Receiving? && FallbacksFresh(env, w.receiver)
      && n <= |w.receiver.phase.writers|
    case Reconnect(disk, store) =>
      // Between sessions anything may happen to other files and other records.
      && (forall e | e in cfg.manifest.files :: SameAt(w.receiver.disk, disk, TempPath(e.path)))
      && SameAt(w.receiver.store, store, cfg.manifest.id)
  }

  predicate SameAt<K, V(==)>(a: map<K, V>, b: map<K, V>, k: K) {
    (k in a <==> k in b) && (k in a ==> a[k] == b[k])
  }

  function Crash(r: Receiver): Receiver {
    r.(phase := ReceiverDone(Crashed))
  }

  function Next(cfg: Config, w: World, l: Label): (w2: World)
    requires |cfg.sources| == |cfg.manifest.files| && WorldOk(cfg, w) && Enabled(cfg, w, l)
    ensures WorldOk(cfg, w2)
  {
    match l
    case SenderReceives =>
      var x := SenderReact(cfg, w.sender, Heard(cfg, w.toSender[0]));
      w.(sender := x.sender, toSender := w.toSender[1..],
         toReceiver := w.toReceiver + Sent(x.out, x.sender.phase.SenderDone?))
    case ReceiverReceives(env) =>
      var x := ReceiverReact(env, w.receiver, Heard(cfg, w.toReceiver[0]));
      w.(receiver := x.receiver, toReceiver := w.toReceiver[1..],
         toSender := w.toSender + Sent(x.out, x.receiver.phase.ReceiverDone?))
    case SenderCancels(why) =>
      w.(sender := w.sender.(phase := SenderDone(Cancelled(why))),
         toReceiver := w.toReceiver + [Msg(Cancel(why)), Closed])
    case SenderLeaves =>
      w.(sender := w.sender.(phase := SenderDone(TransportFailed)), toReceiver := w.toReceiver + [Closed])
    case LinkBreaks => w.(toReceiver := [Reset], toSender := [Reset])
    case ReceiverCrashes(tear) =>
      var r := w.receiver;
      var torn :=
        match tear
        case Idle => r
        case MidWrite(n) =>
          var m := w.toReceiver[0].msg;
          r.(disk := WriteChunk(r.phase.writers[m.id.file], r.disk, m.id.chunk, m.data[..n]).disk)
        case MidSave => r.(store := r.store[r.phase.manifest.id := Corrupt])
        case MidFinalize(env, n) =>
          r.(disk := FinalizeUpTo(r.disk, Summaries(r.phase.writers), env.uuids, n).disk);
      w.(receiver := Crash(torn), toSender := w.toSender + [Reset])
    case Reconnect(disk, store) => Start(cfg, disk, store)
  }

  // ----- What the persisted record says -----

  function SavedSet(store: Store, id: TransferId, file: nat): set<nat> {
    var state := Lookup(store, id);
    if state.Some? && file < |state.value.files| then state.value.files[file].completed else {}
  }

  /** The record has the shape of one saved for this manifest. */
  predicate WellSaved(m: Manifest, store: Store) {
    var state := Lookup(store, m.id);
    state.Some? ==>
      && |state.value.files| == |m.files|
      && (forall i | 0 <= i < |m.files| :: state.value.files[i].fileIndex == i)
      && (forall i, c | 0 <= i < |m.files| && c in state.value.files[i].completed ::
            c < ChunkCount(m.files[i].size, m.chunkSize))
  }

  function AnnouncedSet(m: Manifest, store: Store): set<nat> {
    var state := Lookup(store, m.id);
    if state.Some? then Announced(m, state.value.files, |state.value.files|) else {}
  }

  /** What the sender ends up skipping. */
  function SkipSet(m: Manifest, store: Store): set<nat> {
    if Lookup(store, m.id).Some? then
      Bitmap.Decode(Bitmap.Encode(AnnouncedSet(m, store), TotalChunks(m)), TotalChunks(m))
    else {}
  }

  lemma {:induction false} AnnouncedMembers(m: Manifest, files: seq<FileResume>, n: nat, g: nat)
    requires n <= |files|
    ensures g in Announced(m, files, n)
       <==> exists i, c :: 0 <= i < n && c in files[i].completed && g == GlobalOffset(m, files[i].fileIndex, c)
  {
    if n > 0 {
      AnnouncedMembers(m, files, n - 1, g);
      var last := files[n - 1];
      assert g in FileAnnounced(m, last) <==>
             exists c :: c in last.completed && g == GlobalOffset(m, last.fileIndex, c);
    }
  }

  /** Resume negotiation is exact: going from per-file sets to global numbers, through the bitmap and
      back, the sender skips a chunk if and only if the receiver's record lists it for that very file. */
  lemma NegotiationIsExact(m: Manifest, store: Store, id: ChunkId)
    requires IndexIsPosition(m) && WellSaved(m, store) && InRange(ManifestCounts(m), id)
    ensures Skips(m, SkipSet(m, store), id) <==> id.chunk in SavedSet(store, m.id, id.file)
  {
    var state := Lookup(store, m.id);
    if state.Some? {
      var files, g := state.value.files, GlobalOffset(m, id.file, id.chunk);
      GlobalMonotone(m, id, id);
      Bitmap.DecodeEncode(AnnouncedSet(m, store), TotalChunks(m));
      AnnouncedMembers(m, files, |files|, g);
      assert Skips(m, SkipSet(m, store), id) <==> g in Announced(m, files, |files|);
      if g in Announced(m, files, |files|) {
        var i, c :| 0 <= i < |files| && c in files[i].completed && g == GlobalOffset(m, files[i].fileIndex, c);
        GlobalMonotone(m, id, ChunkId(i, c));
      } else {
        assert id.chunk !in files[id.file].completed;
      }
    }
  }

  /** Sender and receiver cut every file at the same size. */
  predicate SameCuts(cfg: Config) {
    forall i | 0 <= i < |cfg.manifest.files| :: SendSize(cfg, i) == cfg.manifest.chunkSize
  }

  predicate TempsDistinct(m: Manifest) {
    forall i, j | 0 <= i < j < |m.files| :: TempPath(m.files[i].path) != TempPath(m.files[j].path)
  }

  predicate Setting(cfg: Config) {
    ValidConfig(cfg) && SameCuts(cfg) && TempsDistinct(cfg.manifest)
  }

  lemma CountsCoincide(cfg: Config)
    requires ValidConfig(cfg) && SameCuts(cfg)
    ensures SendCounts(cfg) == ManifestCounts(cfg.manifest)
  {
  }

  // ----- The invariant -----

  /** The temporary file of `file` agrees with the source on chunk `c`. */
  predicate OnDisk(cfg: Config, disk: Disk, file: nat, c: nat)
    requires |cfg.sources| == |cfg.manifest.files| && file < |cfg.sources|
  {
    var temp := TempPath(cfg.manifest.files[file].path);
    temp in disk && HoldsChunk(disk[temp], cfg.sources[file], cfg.manifest.chunkSize, c)
  }

  predicate SavedSound(cfg: Config, disk: Disk, store: Store)
    requires |cfg.sources| == |cfg.manifest.files|
  {
    && WellSaved(cfg.manifest, store)
    && forall f, c | 0 <= f < |cfg.sources| && c in SavedSet(store, cfg.manifest.id, f) :: OnDisk(cfg, disk, f, c)
  }

  predicate WriterSound(cfg: Config, r: Receiver, f: nat)
    requires |cfg.sources| == |cfg.manifest.files| && f < |cfg.sources|
    requires r.phase.Receiving? && f < |r.phase.writers|
  {
    var m, w := cfg.manifest, r.phase.writers[f];
    && w == Writer(m.files[f].path, m.chunkSize, m.files[f].size, w.completed)
    && w.Temp() in r.disk && |r.disk[w.Temp()]| == |cfg.sources[f]|
    && forall c | c in w.completed ::
         c < ChunkCount(m.files[f].size, m.chunkSize) && OnDisk(cfg, r.disk, f, c) && c !in SavedSet(r.store, m.id, f)
  }

  predicate WritersSound(cfg: Config, r: Receiver)
    requires |cfg.sources| == |cfg.manifest.files|
  {
    r.phase.Receiving? ==>
      && r.phase.manifest == cfg.manifest
      && |r.phase.writers| == |cfg.manifest.files|
      && forall f | 0 <= f < |cfg.sources| :: WriterSound(cfg, r, f)
  }

  /** Every finalized file has arrived as its source, at its own path; with `allOk` that is every file. */
  predicate Arrived(cfg: Config, disk: Disk, allOk: bool, paths: seq<Option<Path>>) {
    && |paths| == |cfg.sources|
    && (allOk ==> forall f | 0 <= f < |paths| :: paths[f].Some?)
    && (forall f | 0 <= f < |paths| && paths[f].Some? ::
          paths[f].value in disk && disk[paths[f].value] == cfg.sources[f])
    && (forall f, g | 0 <= f < g < |paths| && paths[f].Some? && paths[g].Some? :: paths[f] != paths[g])
  }

  predicate FinishedOk(r: Receiver) {
    r.phase.ReceiverDone? && r.phase.result.Finished? && r.phase.result.allOk
  }

  predicate ReceiverInv(cfg: Config, r: Receiver)
    requires |cfg.sources| == |cfg.manifest.files|
  {
    && SavedSound(cfg, r.disk, r.store)
    && WritersSound(cfg, r)
    && (r.phase.ReceiverDone? && r.phase.result.Finished? ==>
          Arrived(cfg, r.disk, r.phase.result.allOk, r.phase.result.paths))
  }

  predicate SenderInv(cfg: Config, s: Sender, r: Receiver) {
    match s.phase
    case AwaitResponse => true
    case AwaitAck(_) =>
      !r.phase.AwaitRequest? && (r.phase.Receiving? ==> s.skip == SkipSet(cfg.manifest, r.store))
    case AwaitVerified => !r.phase.AwaitRequest?
    case SenderDone(result) => result == Completed ==> FinishedOk(r)
  }

  predicate SourceChunk(cfg: Config, id: ChunkId, data: Bytes)
    requires |cfg.sources| == |cfg.manifest.files|
  {
    && InRange(ManifestCounts(cfg.manifest), id)
    && data == ChunkOf(cfg.sources[id.file], cfg.manifest.chunkSize, id.chunk)
  }

  predicate ToReceiverOk(cfg: Config, r: Receiver, x: Incoming)
    requires |cfg.sources| == |cfg.manifest.files|
  {
    match x
    case Msg(TransferRequest(m)) => m == cfg.manifest
    case Msg(ChunkData(id, data)) =>
      && !r.phase.AwaitRequest?
      && (r.phase.Receiving? ==>
            SourceChunk(cfg, id, data) && id.chunk !in SavedSet(r.store, cfg.manifest.id, id.file))
    case _ => true
  }

  predicate ToSenderOk(cfg: Config, r: Receiver, x: Incoming) {
    match x
    case Msg(TransferResponse(response)) =>
      && !r.phase.AwaitRequest?
      && (r.phase.Receiving? ==>
            && !response.Reject?
            && (response.Accept? ==> Lookup(r.store, cfg.manifest.id).None?)
            && (response.ResumeAt? ==>
                  && Lookup(r.store, cfg.manifest.id).Some?
                  && response.received
                     == Bitmap.Encode(AnnouncedSet(cfg.manifest, r.store), TotalChunks(cfg.manifest))))
    case Msg(TransferVerified(ok)) => !r.phase.AwaitRequest? && (ok ==> FinishedOk(r))
    case Msg(_) => !r.phase.AwaitRequest?
    case _ => true
  }

  predicate ToReceiverAllOk(cfg: Config, r: Receiver, channel: seq<Incoming>)
    requires |cfg.sources| == |cfg.manifest.files|
  {
    forall i | 0 <= i < |channel| :: ToReceiverOk(cfg, r, channel[i])
  }

  predicate ToSenderAllOk(cfg: Config, r: Receiver, channel: seq<Incoming>) {
    forall i | 0 <= i < |channel| :: ToSenderOk(cfg, r, channel[i])
  }

  predicate Inv(cfg: Config, w: World)
    requires |cfg.sources| == |cfg.manifest.files|
  {
    && WorldOk(cfg, w)
    && ReceiverInv(cfg, w.receiver)
    && SenderInv(cfg, w.sender, w.receiver)
    && ToReceiverAllOk(cfg, w.receiver, w.toReceiver)
    && ToSenderAllOk(cfg, w.receiver, w.toSender)
  }

  // ----- Sender steps -----

  /** The sender emits the completion message, or a chunk at or behind `k` that it does not skip. */
  predicate AdvanceEmits(cfg: Config, skip: set<nat>, k: nat, x: SenderReaction)
    requires |cfg.sources| == |cfg.manifest.files|
  {
    && |x.out| == 1
    && x.sender.skip == skip
    && match x.sender.phase
       case AwaitVerified => x.out[0].TransferComplete?
       case AwaitAck(j) =>
         && k <= j < |SendIds(cfg)|
         && InRange(SendCounts(cfg), SendIds(cfg)[j])
         && !Skips(cfg.manifest, skip, SendIds(cfg)[j])
         && x.out[0] == ChunkData(SendIds(cfg)[j], SendData(cfg, SendIds(cfg)[j]))
       case _ => false
  }

  lemma {:induction false} AdvanceSends(cfg: Config, skip: set<nat>, k: nat, bytes: nat)
    requires |cfg.sources| == |cfg.manifest.files| && k <= |SendIds(cfg)|
    ensures AdvanceEmits(cfg, skip, k, Advance(cfg, skip, k, bytes))
    decreases |SendIds(cfg)| - k
  {
    if k < |SendIds(cfg)| {
      var id := SendIds(cfg)[k];
      IdInRange(SendCounts(cfg), k);
      if Skips(cfg.manifest, skip, id) {
        AdvanceSends(cfg, skip, k + 1, bytes + SendSize(cfg, id.file));
      }
    }
  }

  lemma AdvanceOk(cfg: Config, r: Receiver, skip: set<nat>, k: nat, bytes: nat)
    requires Setting(cfg) && k <= |SendIds(cfg)|
    requires ReceiverInv(cfg, r) && !r.phase.AwaitRequest?
    requires r.phase.Receiving? ==> skip == SkipSet(cfg.manifest, r.store)
    ensures var x := Advance(cfg, skip, k, bytes);
            && SenderInv(cfg, x.sender, r)
            && !x.sender.phase.SenderDone?
            && |x.out| == 1 && ToReceiverOk(cfg, r, Msg(x.out[0]))
  {
    AdvanceSends(cfg, skip, k, bytes);
    CountsCoincide(cfg);
    var x := Advance(cfg, skip, k, bytes);
    if x.sender.phase.AwaitAck? && r.phase.Receiving? {
      NegotiationIsExact(cfg.manifest, r.store, SendIds(cfg)[x.sender.phase.k]);
    }
  }

  predicate SenderStepGood(cfg: Config, r: Receiver, x: SenderReaction)
    requires |cfg.sources| == |cfg.manifest.files|
  {
    && SenderInv(cfg, x.sender, r)
    && |x.out| <= 1
    && (x.sender.phase.SenderDone? ==> x.out == [])
    && (x.out != [] ==> ToReceiverOk(cfg, r, Msg(x.out[0])))
  }

  lemma OnResponseOk(cfg: Config, s: Sender, r: Receiver, response: Response)
    requires Setting(cfg) && ReceiverInv(cfg, r) && s.phase.AwaitResponse?
    requires ToSenderOk(cfg, r, Msg(TransferResponse(response)))
    ensures SenderStepGood(cfg, r, SenderReact(cfg, s, Msg(TransferResponse(response))))
  {
    match response
    case Accept => AdvanceOk(cfg, r, {}, 0, 0);
    case ResumeAt(bitmap) => AdvanceOk(cfg, r, Bitmap.Decode(bitmap, TotalChunks(cfg.manifest)), 0, 0);
    case Reject(_) =>
  }

  lemma OnAckOk(cfg: Config, s: Sender, r: Receiver, event: Incoming)
    requires Setting(cfg) && ReceiverInv(cfg, r) && s.phase.AwaitAck? && SenderOk(cfg, s)
    requires SenderInv(cfg, s, r) && event.Msg? && event.msg.ChunkAck?
    ensures SenderStepGood(cfg, r, SenderReact(cfg, s, event))
  {
    hide FlatIds, Prefix, Advance, SavedSound, WritersSound;
    var x := SenderReact(cfg, s, event);
    IdInRange(SendCounts(cfg), s.phase.k);
    var bytes := s.bytesSent + |SendData(cfg, SendIds(cfg)[s.phase.k])|;
    assert x == Advance(cfg, s.skip, s.phase.k + 1, bytes);
    AdvanceOk(cfg, r, s.skip, s.phase.k + 1, bytes);
  }

  lemma SenderStepOk(cfg: Config, s: Sender, r: Receiver, event: Incoming)
    requires Setting(cfg) && SenderOk(cfg, s) && ReceiverInv(cfg, r)
    requires SenderInv(cfg, s, r) && ToSenderOk(cfg, r, event) && !s.phase.SenderDone?
    ensures SenderStepGood(cfg, r, SenderReact(cfg, s, event))
  {
    if s.phase.AwaitResponse? && event.Msg? && event.msg.TransferResponse? {
      OnResponseOk(cfg, s, r, event.msg.response);
    } else if s.phase.AwaitAck? && event.Msg? && event.msg.ChunkAck? {
      OnAckOk(cfg, s, r, event);
    } else if s.phase.AwaitVerified? && event.Msg? && event.msg.TransferVerified? {
    } else {
      assert SenderReact(cfg, s, event).out == [];
    }
  }

  // ----- Receiver steps -----

  /** A receiver step that neither opens the transfer nor touches a record still in use keeps all
      messages and the sender consistent. */
  predicate Settles(cfg: Config, r: Receiver, r2: Receiver) {
    && !r.phase.ReceiverDone?
    && !r2.phase.AwaitRequest?
    && (r2.phase.Receiving? ==> r.phase.Receiving? && r2.store == r.store)
  }

  lemma SettlesKeeps(cfg: Config, s: Sender, r: Receiver, r2: Receiver,
                     toReceiver: seq<Incoming>, toSender: seq<Incoming>)
    requires |cfg.sources| == |cfg.manifest.files| && Settles(cfg, r, r2)
    requires SenderInv(cfg, s, r) && ToReceiverAllOk(cfg, r, toReceiver) && ToSenderAllOk(cfg, r, toSender)
    ensures SenderInv(cfg, s, r2) && ToReceiverAllOk(cfg, r2, toReceiver) && ToSenderAllOk(cfg, r2, toSender)
  {
    forall i | 0 <= i < |toReceiver| ensures ToReceiverOk(cfg, r2, toReceiver[i]) {
      assert ToReceiverOk(cfg, r, toReceiver[i]);
    }
    forall i | 0 <= i < |toSender| ensures ToSenderOk(cfg, r2, toSender[i]) {
      assert ToSenderOk(cfg, r, toSender[i]);
    }
  }

  function Temp(cfg: Config, f: nat): Path
    requires f < |cfg.manifest.files|
  {
    TempPath(cfg.manifest.files[f].path)
  }

  lemma {:induction false} OpenAllFrame(m: Manifest, disk: Disk, n: nat, p: Path)
    requires n <= |m.files|
    requires forall f | 0 <= f < n :: p != TempPath(m.files[f].path)
    ensures SameAt(disk, OpenAll(disk, m, n), p)
  {
    if n > 0 {
      OpenAllFrame(m, disk, n - 1, p);
      assert p != TempPath(m.files[n - 1].path);
    }
  }

  lemma OpenOne(disk: Disk, dest: Path, size: nat, p: Path)
    ensures var d := OpenTemp(disk, dest, size);
            && (p != TempPath(dest) ==> SameAt(disk, d, p))
            && (p == TempPath(dest) ==>
                  p in d && |d[p]| == size && (p in disk && |disk[p]| == size ==> d[p] == disk[p]))
  {
  }

  /** Opening all writers: every temporary file exists at its size, and one that already had that size
      keeps its bytes. */
  lemma {:induction false} OpenAllEffect(m: Manifest, disk: Disk, n: nat, f: nat)
    requires TempsDistinct(m) && f < n <= |m.files|
    ensures var d, temp := OpenAll(disk, m, n), TempPath(m.files[f].path);
            && temp in d && |d[temp]| == m.files[f].size
            && (temp in disk && |disk[temp]| == m.files[f].size ==> d[temp] == disk[temp])
  {
    var before, temp := OpenAll(disk, m, n - 1), TempPath(m.files[f].path);
    OpenOne(before, m.files[n - 1].path, m.files[n - 1].size, temp);
    if f == n - 1 {
      OpenAllFrame(m, disk, n - 1, temp);
    } else {
      OpenAllEffect(m, disk, n - 1, f);
      assert temp != TempPath(m.files[n - 1].path);
    }
  }

  lemma OpenKeepsSaved(cfg: Config, disk: Disk, store: Store)
    requires Setting(cfg) && SavedSound(cfg, disk, store)
    ensures SavedSound(cfg, OpenAll(disk, cfg.manifest, |cfg.sources|), store)
  {
    var d := OpenAll(disk, cfg.manifest, |cfg.sources|);
    forall f, c | 0 <= f < |cfg.sources| && c in SavedSet(store, cfg.manifest.id, f) ensures OnDisk(cfg, d, f, c) {
      assert OnDisk(cfg, disk, f, c);
      OpenAllEffect(cfg.manifest, disk, |cfg.sources|, f);
    }
  }

  lemma OnRequestOk(cfg: Config, env: Env, r: Receiver)
    requires Setting(cfg) && ReceiverInv(cfg, r) && r.phase.AwaitRequest?
    ensures var x := OnRequest(env, r, cfg.manifest);
            && ReceiverInv(cfg, x.receiver)
            && !x.receiver.phase.AwaitRequest?
            && |x.out| == 1 && ToSenderOk(cfg, x.receiver, Msg(x.out[0]))
  {
    if Decide(env).AcceptTransfer? {
      OpenKeepsSaved(cfg, r.disk, r.store);
      var r2 := OnRequest(env, r, cfg.manifest).receiver;
      forall f | 0 <= f < |cfg.sources| ensures WriterSound(cfg, r2, f) {
        OpenAllEffect(cfg.manifest, r.disk, |cfg.sources|, f);
      }
    }
  }

  /** Replacing one temporary file by one closer to its source keeps everything recorded about chunks. */
  lemma CloserDiskKeeps(cfg: Config, disk: Disk, f: nat, bytes: Bytes)
    requires Setting(cfg) && f < |cfg.sources| && Temp(cfg, f) in disk
    requires Closer(disk[Temp(cfg, f)], bytes, cfg.sources[f])
    ensures forall g, c | 0 <= g < |cfg.sources| && OnDisk(cfg, disk, g, c) ::
              OnDisk(cfg, disk[Temp(cfg, f) := bytes], g, c)
  {
    forall g, c | 0 <= g < |cfg.sources| && OnDisk(cfg, disk, g, c)
      ensures OnDisk(cfg, disk[Temp(cfg, f) := bytes], g, c)
    {
      assert g != f ==> Temp(cfg, g) != Temp(cfg, f);
    }
  }

  lemma CloserDiskKeepsReceiver(cfg: Config, r: Receiver, f: nat, bytes: Bytes)
    requires Setting(cfg) && ReceiverInv(cfg, r) && r.phase.Receiving?
    requires f < |cfg.sources| && Temp(cfg, f) in r.disk
    requires Closer(r.disk[Temp(cfg, f)], bytes, cfg.sources[f])
    ensures ReceiverInv(cfg, r.(disk := r.disk[Temp(cfg, f) := bytes]))
  {
    CloserDiskKeeps(cfg, r.disk, f, bytes);
    var r2 := r.(disk := r.disk[Temp(cfg, f) := bytes]);
    forall g | 0 <= g < |cfg.sources| ensures WriterSound(cfg, r2, g) {
      assert WriterSound(cfg, r, g);
    }
  }

  /** Any leading part of a source chunk may be written, wherever the receiver is. */
  lemma PartialWriteOk(cfg: Config, r: Receiver, id: ChunkId, data: Bytes, n: nat)
    requires Setting(cfg) && ReceiverInv(cfg, r) && r.phase.Receiving?
    requires SourceChunk(cfg, id, data) && n <= |data|
    ensures var o := WriteChunk(r.phase.writers[id.file], r.disk, id.chunk, data[..n]);
            && o.result.Ok?
            && o.writer == r.phase.writers[id.file].(completed := r.phase.writers[id.file].completed + {id.chunk})
            && ReceiverInv(cfg, r.(disk := o.disk))
            && (n == |data| ==> OnDisk(cfg, o.disk, id.file, id.chunk))
  {
    var f, c, cs := id.file, id.chunk, cfg.manifest.chunkSize;
    assert WriterSound(cfg, r, f);
    var file := r.disk[Temp(cfg, f)];
    WriteSourceChunk(file, cfg.sources[f], cs, c, n);
    CloserDiskKeepsReceiver(cfg, r, f, WriteAt(file, c * cs, data[..n]));
  }

  lemma OnChunkOk(cfg: Config, r: Receiver, id: ChunkId, data: Bytes)
    requires Setting(cfg) && ReceiverInv(cfg, r) && r.phase.Receiving?
    requires SourceChunk(cfg, id, data) && id.chunk !in SavedSet(r.store, cfg.manifest.id, id.file)
    ensures var x := OnChunk(r, id, data);
            && ReceiverInv(cfg, x.receiver)
            && x.receiver.phase.Receiving?
            && x.receiver.store == r.store
            && x.out == [ChunkAck(id, Sha256(data))]
  {
    PartialWriteOk(cfg, r, id, data, |data|);
    assert data[..|data|] == data;
    var o := WriteChunk(r.phase.writers[id.file], r.disk, id.chunk, data);
    var mid, r2 := r.(disk := o.disk), OnChunk(r, id, data).receiver;
    forall g | 0 <= g < |cfg.sources| ensures WriterSound(cfg, r2, g) {
      assert WriterSound(cfg, mid, g);
    }
  }

  lemma CompleteHasAll(cfg: Config, r: Receiver, f: nat)
    requires Setting(cfg) && ReceiverInv(cfg, r) && r.phase.Receiving?
    requires f < |cfg.sources| && r.phase.writers[f].IsComplete()
    ensures forall c: nat :: c in r.phase.writers[f].completed <==> c in Below(r.phase.writers[f].Total())
  {
    assert WriterSound(cfg, r, f);
    CountDecides(r.phase.writers[f].completed, r.phase.writers[f].Total());
  }

  /** A complete writer has every chunk, so its file is the source ... */
  lemma CompleteWriter(cfg: Config, r: Receiver, f: nat)
    requires Setting(cfg) && ReceiverInv(cfg, r) && r.phase.Receiving?
    requires f < |cfg.sources| && r.phase.writers[f].IsComplete()
    ensures Temp(cfg, f) in r.disk && r.disk[Temp(cfg, f)] == cfg.sources[f]
  {
    CompleteHasAll(cfg, r, f);
    assert WriterSound(cfg, r, f);
    var file, cs := r.disk[Temp(cfg, f)], cfg.manifest.chunkSize;
    forall c | 0 <= c < ChunkCount(|cfg.sources[f]|, cs) ensures HoldsChunk(file, cfg.sources[f], cs, c) {
      assert c in Below(r.phase.writers[f].Total());
      assert OnDisk(cfg, r.disk, f, c);
    }
    HoldsAllIsSource(file, cfg.sources[f], cs);
  }

  /** ... and none of its chunks was on record. */
  lemma CompleteWasNotSaved(cfg: Config, r: Receiver, f: nat, c: nat)
    requires Setting(cfg) && ReceiverInv(cfg, r) && r.phase.Receiving?
    requires f < |cfg.sources| && r.phase.writers[f].IsComplete()
    ensures c !in SavedSet(r.store, cfg.manifest.id, f)
  {
    CompleteHasAll(cfg, r, f);
    assert WriterSound(cfg, r, f);
  }

  lemma WritersDistinct(cfg: Config, r: Receiver)
    requires Setting(cfg) && ReceiverInv(cfg, r) && r.phase.Receiving?
    ensures var ds := Summaries(r.phase.writers);
            && (forall f | 0 <= f < |ds| :: ds[f].Temp() == Temp(cfg, f))
            && (forall i, j | 0 <= i < j < |ds| :: ds[i].Temp() != ds[j].Temp())
            && DistinctTemps(ds) && TempsOnDisk(ds, r.disk)
  {
    var ds := Summaries(r.phase.writers);
    forall i | 0 <= i < |ds| ensures ds[i].Temp() == Temp(cfg, i) && ds[i].Temp() in r.disk {
      assert WriterSound(cfg, r, i);
    }
  }

  lemma {:induction false} MovedAreComplete(ds: seq<Done>, n: nat, f: nat)
    requires forall i, j | 0 <= i < j < |ds| :: ds[i].Temp() != ds[j].Temp()
    requires n <= |ds| && f < |ds| && ds[f].Temp() in MovedTemps(ds, n)
    ensures ds[f].complete
  {
    if ds[f].Temp() in MovedTemps(ds, n - 1) {
      MovedAreComplete(ds, n - 1, f);
    }
  }

  /** After any number of iterations of the finalize loop the record is still sound, and what was moved
      is the source. */
  lemma FinalizeOk(cfg: Config, env: Env, r: Receiver, n: nat)
    requires Setting(cfg) && ReceiverInv(cfg, r) && r.phase.Receiving?
    requires FallbacksFresh(env, r) && n <= |cfg.sources|
    ensures var s := FinalizeUpTo(r.disk, Summaries(r.phase.writers), env.uuids, n);
            && !s.failed
            && SavedSound(cfg, s.disk, r.store)
            && (n == |cfg.sources| ==> Arrived(cfg, s.disk, s.allOk, s.paths))
  {
    var ds := Summaries(r.phase.writers);
    WritersDistinct(cfg, r);
    FinalizeNeverClobbers(r.disk, ds, env.uuids, n);
    var s := FinalizeUpTo(r.disk, ds, env.uuids, n);
    forall f, c | 0 <= f < |cfg.sources| && c in SavedSet(r.store, cfg.manifest.id, f)
      ensures OnDisk(cfg, s.disk, f, c)
    {
      assert OnDisk(cfg, r.disk, f, c);
      if Temp(cfg, f) in MovedTemps(ds, n) {
        MovedAreComplete(ds, n, f);
        CompleteWasNotSaved(cfg, r, f, c);
      }
    }
    forall f | 0 <= f < n && s.paths[f].Some?
      ensures s.paths[f].value in s.disk && s.disk[s.paths[f].value] == cfg.sources[f]
    {
      assert WriterSound(cfg, r, f);
      assert MovedSafely(r.disk, ds, s, f);
      CompleteWriter(cfg, r, f);
    }
  }

  lemma OnCompleteOk(cfg: Config, env: Env, r: Receiver)
    requires Setting(cfg) && ReceiverInv(cfg, r) && r.phase.Receiving? && FallbacksFresh(env, r)
    ensures var x := OnComplete(env, r);
            && ReceiverInv(cfg, x.receiver)
            && x.receiver.phase.ReceiverDone?
            && |x.out| == 1 && ToSenderOk(cfg, x.receiver, Msg(x.out[0]))
  {
    FinalizeOk(cfg, env, r, |cfg.sources|);
  }

  /** Saving on interruption records exactly the chunks written, all of which are on disk. */
  lemma OnInterruptOk(cfg: Config, r: Receiver, why: string)
    requires Setting(cfg) && ReceiverInv(cfg, r) && r.phase.Receiving?
    ensures ReceiverInv(cfg, OnInterrupt(r, why).receiver)
  {
    var r2 := OnInterrupt(r, why).receiver;
    var m := cfg.manifest;
    forall f, c | 0 <= f < |cfg.sources| && c in SavedSet(r2.store, m.id, f)
      ensures c < ChunkCount(m.files[f].size, m.chunkSize) && OnDisk(cfg, r.disk, f, c)
    {
      assert WriterSound(cfg, r, f);
      assert c in r.phase.writers[f].completed;
    }
    forall f, c | 0 <= f < |m.files| && c in Lookup(r2.store, m.id).value.files[f].completed
      ensures c < ChunkCount(m.files[f].size, m.chunkSize)
    {
      assert c in SavedSet(r2.store, m.id, f);
    }
  }

  // ----- All steps -----

  lemma ToReceiverAppend(cfg: Config, r: Receiver, channel: seq<Incoming>, out: seq<Message>, leaves: bool)
    requires |cfg.sources| == |cfg.manifest.files|
    requires ToReceiverAllOk(cfg, r, channel) && forall m | m in out :: ToReceiverOk(cfg, r, Msg(m))
    ensures ToReceiverAllOk(cfg, r, channel + Sent(out, leaves))
  {
  }

  lemma ToSenderAppend(cfg: Config, r: Receiver, channel: seq<Incoming>, out: seq<Message>, leaves: bool)
    requires ToSenderAllOk(cfg, r, channel) && forall m | m in out :: ToSenderOk(cfg, r, Msg(m))
    ensures ToSenderAllOk(cfg, r, channel + Sent(out, leaves))
  {
  }

  lemma ReceiverStepOk(cfg: Config, env: Env, w: World)
    requires Setting(cfg) && Inv(cfg, w) && Enabled(cfg, w, ReceiverReceives(env))
    ensures Inv(cfg, Next(cfg, w, ReceiverReceives(env)))
  {
    hide FlatIds, Prefix, SkipSet, SavedSound;
    var r, event := w.receiver, Heard(cfg, w.toReceiver[0]);
    var x := ReceiverReact(env, r, event);
    assert ToReceiverOk(cfg, r, w.toReceiver[0]);
    if r.phase.AwaitRequest? && event.Msg? && event.msg.TransferRequest? {
      OnRequestOk(cfg, env, r);
      RequestOpens(cfg, env, w);
    } else {
      if r.phase.Receiving? {
        if event.Msg? && event.msg.ChunkData? {
          OnChunkOk(cfg, r, event.msg.id, event.msg.data);
        } else if event.Msg? && event.msg.TransferComplete? {
          OnCompleteOk(cfg, env, r);
        } else if event.Msg? && event.msg.Cancel? {
          OnInterruptOk(cfg, r, event.msg.cancelReason);
        } else if event.Closed? {
          OnInterruptOk(cfg, r, "connection closed");
        }
      }
      SettlesKeeps(cfg, w.sender, r, x.receiver, w.toReceiver[1..], w.toSender);
    }
    ToSenderAppend(cfg, x.receiver, w.toSender, x.out, x.receiver.phase.ReceiverDone?);
  }

  /** Opening the transfer: nothing but the request can have been under way. */
  lemma RequestOpens(cfg: Config, env: Env, w: World)
    requires Setting(cfg) && Inv(cfg, w) && w.receiver.phase.AwaitRequest?
    ensures var x := OnRequest(env, w.receiver, cfg.manifest);
            && SenderInv(cfg, w.sender, x.receiver)
            && ToReceiverAllOk(cfg, x.receiver, w.toReceiver)
            && ToSenderAllOk(cfg, x.receiver, w.toSender)
  {
    var r2 := OnRequest(env, w.receiver, cfg.manifest).receiver;
    forall i | 0 <= i < |w.toReceiver| ensures ToReceiverOk(cfg, r2, w.toReceiver[i]) {
      assert ToReceiverOk(cfg, w.receiver, w.toReceiver[i]);
    }
    forall i | 0 <= i < |w.toSender| ensures ToSenderOk(cfg, r2, w.toSender[i]) {
      assert ToSenderOk(cfg, w.receiver, w.toSender[i]);
    }
  }

  lemma CrashOk(cfg: Config, w: World, tear: Tear)
    requires Setting(cfg) && Inv(cfg, w) && Enabled(cfg, w, ReceiverCrashes(tear))
    ensures Inv(cfg, Next(cfg, w, ReceiverCrashes(tear)))
  {
    var r, r2 := w.receiver, Next(cfg, w, ReceiverCrashes(tear)).receiver;
    match tear {
      case Idle =>
      case MidWrite(n) =>
        var m := w.toReceiver[0].msg;
        assert ToReceiverOk(cfg, r, w.toReceiver[0]);
        PartialWriteOk(cfg, r, m.id, m.data, n);
      case MidSave =>
      case MidFinalize(env, n) => FinalizeOk(cfg, env, r, n);
    }
    SettlesKeeps(cfg, w.sender, r, r2, w.toReceiver, w.toSender);
  }

  lemma ReconnectOk(cfg: Config, w: World, disk: Disk, store: Store)
    requires Setting(cfg) && Inv(cfg, w) && Enabled(cfg, w, Reconnect(disk, store))
    ensures Inv(cfg, Start(cfg, disk, store))
  {
    var m := cfg.manifest;
    assert Lookup(store, m.id) == Lookup(w.receiver.store, m.id);
    forall f, c | 0 <= f < |cfg.sources| && c in SavedSet(store, m.id, f) ensures OnDisk(cfg, disk, f, c) {
      assert OnDisk(cfg, w.receiver.disk, f, c);
      assert m.files[f] in m.files;
    }
  }

  lemma SenderReceivesOk(cfg: Config, w: World)
    requires Setting(cfg) && Inv(cfg, w) && Enabled(cfg, w, SenderReceives)
    ensures Inv(cfg, Next(cfg, w, SenderReceives))
  {
    hide FlatIds, Prefix, Advance, SkipSet, SavedSound, WritersSound;
    assert ToSenderOk(cfg, w.receiver, w.toSender[0]);
    var event := Heard(cfg, w.toSender[0]);
    SenderStepOk(cfg, w.sender, w.receiver, event);
    var x := SenderReact(cfg, w.sender, event);
    ToReceiverAppend(cfg, w.receiver, w.toReceiver, x.out, x.sender.phase.SenderDone?);
    assert ToSenderAllOk(cfg, w.receiver, w.toSender[1..]);
  }

  /** Every step, failure or not, keeps the invariant. */
  lemma StepKeepsInv(cfg: Config, w: World, l: Label)
    requires Setting(cfg) && Inv(cfg, w) && Enabled(cfg, w, l)
    ensures Inv(cfg, Next(cfg, w, l))
  {
    match l
    case SenderReceives => SenderReceivesOk(cfg, w);
    case ReceiverReceives(env) => ReceiverStepOk(cfg, env, w);
    case SenderCancels(_) =>
    case SenderLeaves =>
    case LinkBreaks =>
    case ReceiverCrashes(tear) => CrashOk(cfg, w, tear);
    case Reconnect(disk, store) => ReconnectOk(cfg, w, disk, store);
  }

  // ----- All runs -----

  predicate StepOf(cfg: Config, w: World, l: Label, w2: World)
    requires |cfg.sources| == |cfg.manifest.files|
  {
    WorldOk(cfg, w) && Enabled(cfg, w, l) && w2 == Next(cfg, w, l)
  }

  /** A run over any number of sessions, whatever is on disk and on record when the first one starts. */
  predicate Trace(cfg: Config, ws: seq<World>, ls: seq<Label>)
    requires |cfg.sources| == |cfg.manifest.files|
  {
    && |ws| == |ls| + 1
    && ws[0] == Start(cfg, ws[0].receiver.disk, ws[0].receiver.store)
    && (forall w | w in ws :: WorldOk(cfg, w))
    && (forall i | 0 <= i < |ls| :: StepOf(cfg, ws[i], ls[i], ws[i + 1]))
  }

  /** The same, from a sound record: every chunk it lists is on the disk. */
  predicate Run(cfg: Config, ws: seq<World>, ls: seq<Label>)
    requires |cfg.sources| == |cfg.manifest.files|
  {
    Trace(cfg, ws, ls) && SavedSound(cfg, ws[0].receiver.disk, ws[0].receiver.store)
  }

  /** Having no record of the transfer is one. */
  lemma NoRecordIsSound(cfg: Config, disk: Disk, store: Store)
    requires |cfg.sources| == |cfg.manifest.files| && Lookup(store, cfg.manifest.id).None?
    ensures SavedSound(cfg, disk, store)
  {
  }

  lemma {:induction false} RunKeepsInv(cfg: Config, ws: seq<World>, ls: seq<Label>, i: nat)
    requires Setting(cfg) && Run(cfg, ws, ls) && i < |ws|
    ensures Inv(cfg, ws[i])
  {
    if i > 0 {
      RunKeepsInv(cfg, ws, ls, i - 1);
      assert StepOf(cfg, ws[i - 1], ls[i - 1], ws[i]);
      StepKeepsInv(cfg, ws[i - 1], ls[i - 1]);
    }
  }

  /** End-to-end safety: at every moment of every run, if the sender reports completion then every file
      has arrived at a path of its own with the source's bytes. */
  lemma CompletedMeansDelivered(cfg: Config, ws: seq<World>, ls: seq<Label>, i: nat)
    requires Setting(cfg) && Run(cfg, ws, ls) && i < |ws|
    requires ws[i].sender.phase == SenderDone(Completed)
    ensures var r := ws[i].receiver;
            && r.phase.ReceiverDone? && r.phase.result.Finished? && |r.phase.result.paths| == |cfg.sources|
            && forall f | 0 <= f < |cfg.sources| ::
                 var to := r.phase.result.paths[f];
                 to.Some? && to.value in r.disk && r.disk[to.value] == cfg.sources[f]
    ensures forall f, g | 0 <= f < g < |cfg.sources| ::
              ws[i].receiver.phase.result.paths[f] != ws[i].receiver.phase.result.paths[g]
  {
    RunKeepsInv(cfg, ws, ls, i);
  }

  /** Even a transfer that did not complete finalizes no file with other bytes than its source's. */
  lemma FinalizedMeansSource(cfg: Config, ws: seq<World>, ls: seq<Label>, i: nat)
    requires Setting(cfg) && Run(cfg, ws, ls) && i < |ws|
    requires ws[i].receiver.phase.ReceiverDone? && ws[i].receiver.phase.result.Finished?
    ensures var r := ws[i].receiver;
            && |r.phase.result.paths| == |cfg.sources|
            && (forall f | 0 <= f < |cfg.sources| && r.phase.result.paths[f].Some? ::
                  var to := r.phase.result.paths[f].value;
                  to in r.disk && r.disk[to] == cfg.sources[f])
            && (forall f, g | 0 <= f < g < |cfg.sources| && r.phase.result.paths[f].Some? ::
                  r.phase.result.paths[f] != r.phase.result.paths[g])
  {
    RunKeepsInv(cfg, ws, ls, i);
  }

  /** Resume soundness: at every moment of every run, after any number of cancellations, closed or
      broken links and crashes in the middle of a write, a save or the finalize loop, every chunk the
      record lists holds the source's bytes in the temporary file. */
  lemma SavedChunksAreSound(cfg: Config, ws: seq<World>, ls: seq<Label>, i: nat, f: nat, c: nat)
    requires Setting(cfg) && Run(cfg, ws, ls) && i < |ws|
    requires f < |cfg.sources| && c in SavedSet(ws[i].receiver.store, cfg.manifest.id, f)
    ensures c < ChunkCount(|cfg.sources[f]|, cfg.manifest.chunkSize)
    ensures var disk, temp, cs := ws[i].receiver.disk, TempPath(cfg.manifest.files[f].path), cfg.manifest.chunkSize;
            && temp in disk && |disk[temp]| == |cfg.sources[f]|
            && forall p | 0 <= p < |cfg.sources[f]| && c * cs <= p < c * cs + cs :: disk[temp][p] == cfg.sources[f][p]
  {
    RunKeepsInv(cfg, ws, ls, i);
    assert OnDisk(cfg, ws[i].receiver.disk, f, c);
  }

  /** Saving forgets: while a session runs, what it has received is disjoint from what was on record, so
      the record of a resumed and again interrupted session lists nothing of its predecessor. */
  lemma InterruptForgetsPredecessor(cfg: Config, ws: seq<World>, ls: seq<Label>, i: nat, why: string, f: nat)
    requires Setting(cfg) && Run(cfg, ws, ls) && i < |ws|
    requires ws[i] in ws && ws[i].receiver.phase.Receiving? && f < |cfg.sources|
    ensures SavedSet(OnInterrupt(ws[i].receiver, why).receiver.store, cfg.manifest.id, f)
         !! SavedSet(ws[i].receiver.store, cfg.manifest.id, f)
  {
    RunKeepsInv(cfg, ws, ls, i);
    assert WriterSound(cfg, ws[i].receiver, f);
  }
}
