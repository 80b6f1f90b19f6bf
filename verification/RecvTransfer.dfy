/** The receiver's blocking loop over mutable writers, shown to do exactly what the reactive receiver does. */
module RecvTransfer {
  import opened Types
  import opened ChunkIndex
  import opened Storage
  import opened Resume
  import opened Protocol
  import opened ChunkWriter
  import Bitmap

  /** The reactive receiver fed with events from the `j`-th on until it is done. */
  function RunReceiver(env: Env, r: Receiver, events: seq<Incoming>, j: nat, sent: seq<Message>)
    : (x: (Receiver, seq<Message>))
    requires ReceiverOk(r)
    ensures x.0.phase.ReceiverDone?
    decreases if j < |events| then |events| - j else 0
  {
    if r.phase.ReceiverDone? then (r, sent)
    else
      var x := ReceiverReact(env, r, EventAt(events, j));
      if j < |events| then RunReceiver(env, x.receiver, events, j + 1, sent + x.out) else (x.receiver, sent + x.out)
  }

  // ----- Writers on the heap -----

  ghost predicate Distinct(ws: seq<ChunkWriter>, fs: FileSystem) {
    && (forall i, j | 0 <= i < j < |ws| :: ws[i] != ws[j])
    && (forall i | 0 <= i < |ws| :: ws[i].fs == fs && ws[i].Valid())
  }

  ghost function Models(ws: seq<ChunkWriter>): (ms: seq<Writer>)
    reads ws
    ensures |ms| == |ws|
  {
    seq(|ws|, i requires 0 <= i < |ws| reads ws => ws[i].Model())
  }

  /** Collects the global numbers of everything on record. */
  method CollectAnnounced(m: Manifest, files: seq<FileResume>) returns (all: set<nat>)
    ensures all == Announced(m, files, |files|)
  {
    all := {};
    for i := 0 to |files|
      invariant all == Announced(m, files, i)
    {
      var todo, done := files[i].completed, {};
      while todo != {}
        invariant todo + done == files[i].completed && todo !! done
        invariant all == Announced(m, files, i) + set c | c in done :: GlobalOffset(m, files[i].fileIndex, c)
        decreases |todo|
      {
        var chunk :| chunk in todo;
        var global := GlobalChunkOffset(m, files[i].fileIndex, chunk);
        all := all + {global};
        todo, done := todo - {chunk}, done + {chunk};
      }
      assert done == files[i].completed;
    }
  }

  /** One writer per entry, opened in order. */
  method OpenWriters(fs: FileSystem, m: Manifest) returns (ws: seq<ChunkWriter>)
    modifies fs
    ensures Distinct(ws, fs) && fresh(ws)
    ensures Models(ws) == NewWriters(m) && fs.files == OpenAll(old(fs.files), m, |m.files|)
  {
    hide ChunkCount, OpenTemp;
    ws := [];
    for i := 0 to |m.files|
      invariant |ws| == i && Distinct(ws, fs) && fresh(ws)
      invariant forall k | 0 <= k < i :: ws[k].Model() == Writer(m.files[k].path, m.chunkSize, m.files[k].size, {})
      invariant fs.files == OpenAll(old(fs.files), m, i)
    {
      var w := new ChunkWriter(fs, m.files[i].path, m.chunkSize, m.files[i].size);
      ws := ws + [w];
    }
  }

  method SaveResumeState(resume: ResumeManager, m: Manifest, ws: seq<ChunkWriter>, bytes: nat)
    requires |ws| == |m.files|
    modifies resume
    ensures resume.records == old(resume.records)[m.id := Valid(SavedState(m, Models(ws), bytes))]
  {
    var files: seq<FileResume> := [];
    for i := 0 to |ws|
      invariant |files| == i
      invariant forall k | 0 <= k < i ::
                  files[k] == FileResume(k, m.files[k].path, m.files[k].size, m.chunkSize, ws[k].completed)
    {
      files := files + [FileResume(i, m.files[i].path, m.files[i].size, m.chunkSize, ws[i].completed)];
    }
    assert ResumeState(m.id, files, bytes, m.totalSize) == SavedState(m, Models(ws), bytes);
    resume.Save(ResumeState(m.id, files, bytes, m.totalSize));
  }

  /** Finalizes every complete file; the first failing rename stops the loop. */
  method FinalizeAll(fs: FileSystem, ws: seq<ChunkWriter>, uuids: nat -> string)
    returns (allOk: bool, failed: bool, paths: seq<Option<Path>>)
    requires Distinct(ws, fs)
    modifies fs
    ensures FinState(fs.files, allOk, failed, paths)
         == FinalizeUpTo(old(fs.files), Summaries(Models(ws)), uuids, |ws|)
  {
    hide ChunkCount, UniquePath, Rename;
    allOk, failed, paths := true, false, [];
    ghost var ds := Summaries(Models(ws));
    for i := 0 to |ws|
      invariant ds == Summaries(Models(ws)) && !failed
      invariant FinState(fs.files, allOk, failed, paths) == FinalizeUpTo(old(fs.files), ds, uuids, i)
    {
      assert ds[i] == Done(ws[i].dest, ws[i].Model().IsComplete());
      var complete := ws[i].IsComplete();
      if !complete {
        allOk, paths := false, paths + [None];
        continue;
      }
      var r := ws[i].Finalize(uuids(i));
      if r.Err? {
        failed := true;
        FailedStays(old(fs.files), ds, uuids, i + 1, |ws|);
        return;
      }
      paths := paths + [Some(r.value)];
    }
  }

  lemma {:induction false} FailedStays(disk: Disk, ds: seq<Done>, uuids: nat -> string, i: nat, n: nat)
    requires i <= n <= |ds| && FinalizeUpTo(disk, ds, uuids, i).failed
    ensures FinalizeUpTo(disk, ds, uuids, n) == FinalizeUpTo(disk, ds, uuids, i)
    decreases n
  {
    if i < n {
      FailedStays(disk, ds, uuids, i, n - 1);
    }
  }

  // ----- The receive loop -----

  /** The heap holds what the reactive receiver is in. */
  ghost predicate Holds(r: Receiver, m: Manifest, ws: seq<ChunkWriter>, bytes: nat, fs: FileSystem,
                        resume: ResumeManager)
    reads ws, fs, resume
  {
    r == Receiver(Receiving(m, Models(ws), bytes), fs.files, resume.records)
  }

  /** How `handle_incoming` ends, seen from its caller. */
  ghost predicate EndsAs(run: (Receiver, seq<Message>), result: ReceiverResult, sent: seq<Message>,
                         fs: FileSystem, resume: ResumeManager)
    reads fs, resume
  {
    run == (Receiver(ReceiverDone(result), fs.files, resume.records), sent)
  }

  lemma Finishes(env: Env, r: Receiver, events: seq<Incoming>, j: nat, sent: seq<Message>)
    requires ReceiverOk(r) && !r.phase.ReceiverDone?
    ensures var x := ReceiverReact(env, r, EventAt(events, j));
            x.receiver.phase.ReceiverDone? ==>
              RunReceiver(env, r, events, j, sent) == (x.receiver, if x.out == [] then sent else sent + x.out)
    ensures var x := ReceiverReact(env, r, EventAt(events, j));
            !x.receiver.phase.ReceiverDone? ==>
              && j < |events|
              && RunReceiver(env, r, events, j, sent) == RunReceiver(env, x.receiver, events, j + 1, sent + x.out)
  {
    hide OnRequest, OnChunk, OnComplete;
    assert sent + [] == sent;
    assert j >= |events| ==> ReceiverReact(env, r, EventAt(events, j)).receiver.phase.ReceiverDone?;
  }

  /** Receiving one chunk. */
  method TakeChunk(fs: FileSystem, ws: seq<ChunkWriter>, ghost resume: ResumeManager, m: Manifest, id: ChunkId,
                   data: Bytes, bytes: nat)
    returns (ack: Option<Message>)
    requires Distinct(ws, fs) && |ws| == |m.files|
    modifies fs, ws
    ensures var x := OnChunk(Receiver(Receiving(m, old(Models(ws)), bytes), old(fs.files), resume.records), id, data);
            if ack.Some? then
              x == ReceiverReaction(Receiver(Receiving(m, Models(ws), bytes + |data|), fs.files, resume.records),
                                    [ack.value])
            else
              x == ReceiverReaction(Receiver(ReceiverDone(Failed), fs.files, resume.records), [])
  {
    hide ChunkCount;
    if id.file >= |ws| {
      return None;
    }
    ghost var before := Models(ws);
    var w := ws[id.file];
    assert before[id.file] == w.Model();
    var r := w.WriteChunk(id.chunk, data);
    if r.Err? {
      return None;
    }
    assert Models(ws) == before[id.file := w.Model()];
    ack := Some(ChunkAck(id, r.value));
  }

  /** Verifying and finalizing once the sender says it is done. */
  method CompleteTransfer(env: Env, fs: FileSystem, resume: ResumeManager, m: Manifest, ws: seq<ChunkWriter>,
                          ghost bytes: nat)
    returns (result: ReceiverResult, verdict: Option<Message>)
    requires Distinct(ws, fs) && |ws| == |m.files|
    modifies fs, resume
    ensures OnComplete(env, Receiver(Receiving(m, Models(ws), bytes), old(fs.files), old(resume.records)))
         == ReceiverReaction(Receiver(ReceiverDone(result), fs.files, resume.records),
                             if verdict.Some? then [verdict.value] else [])
  {
    hide FinalizeUpTo, ChunkCount;
    var allOk, failed, paths := FinalizeAll(fs, ws, env.uuids);
    if failed {
      return Failed, None;
    }
    if allOk {
      resume.Remove(m.id);
    }
    return Finished(allOk, paths), Some(TransferVerified(allOk));
  }

  /** The receive loop: one event per iteration, until one of them ends it. */
  method ReceiveLoop(env: Env, fs: FileSystem, resume: ResumeManager, m: Manifest, ws: seq<ChunkWriter>, before: nat,
                     events: seq<Incoming>, answered: seq<Message>)
    returns (result: ReceiverResult, sent: seq<Message>)
    requires Distinct(ws, fs) && |ws| == |m.files|
    modifies fs, resume, ws
    ensures EndsAs(RunReceiver(env, Receiver(Receiving(m, old(Models(ws)), before), old(fs.files), old(resume.records)),
                               events, 1, answered),
                   result, sent, fs, resume)
  {
    hide OnChunk, OnComplete, OnRequest, SavedState, RunReceiver;
    ghost var r := Receiver(Receiving(m, Models(ws), before), fs.files, resume.records);
    ghost var goal := RunReceiver(env, r, events, 1, answered);
    var j, bytes: nat := 1, before;
    sent := answered;
    while true
      invariant Holds(r, m, ws, bytes, fs, resume)
      invariant goal == RunReceiver(env, r, events, j, sent)
      decreases if j < |events| then |events| - j else 0
    {
      Finishes(env, r, events, j, sent);
      match EventAt(events, j) {
        case Msg(ChunkData(id, data)) =>
          var ack := TakeChunk(fs, ws, resume, m, id, data, bytes);
          if ack.None? {
            return Failed, sent;
          }
          r := OnChunk(r, id, data).receiver;
          sent := sent + [ack.value];
          bytes := bytes + |data|;
          j := j + 1;
        case Msg(TransferComplete(_)) =>
          var verdict;
          result, verdict := CompleteTransfer(env, fs, resume, m, ws, bytes);
          if verdict.Some? {
            sent := sent + [verdict.value];
          }
          return;
        case Msg(Cancel(reason)) =>
          SaveResumeState(resume, m, ws, bytes);
          return Interrupted(reason), sent;
        case Closed =>
          SaveResumeState(resume, m, ws, bytes);
          return Interrupted("connection closed"), sent;
        case Reset => return Failed, sent;
        case _ => return UnexpectedMessage, sent;
      }
    }
  }

  /** The whole of `handle_incoming` behind the handshake, on the events its receive calls return. */
  method HandleIncoming(env: Env, fs: FileSystem, resume: ResumeManager, events: seq<Incoming>)
    returns (result: ReceiverResult, sent: seq<Message>)
    modifies fs, resume
    ensures EndsAs(RunReceiver(env, Receiver(AwaitRequest, old(fs.files), old(resume.records)), events, 0, []),
                   result, sent, fs, resume)
  {
    hide Announced, OpenAll, NewWriters, RunReceiver, Bitmap.Encode;
    ghost var r := Receiver(AwaitRequest, fs.files, resume.records);
    sent := [];
    Finishes(env, r, events, 0, []);

    var m: Manifest;
    match EventAt(events, 0) {
      case Msg(TransferRequest(request)) => m := request;
      case Reset => return Failed, sent;
      case _ => return UnexpectedMessage, sent;
    }

    var loaded := resume.Load(m.id);
    var state := if loaded.Ok? then loaded.value else None;
    assert state == Lookup(resume.records, m.id);

    match Decide(env) {
      case RejectTransfer(reason) =>
        sent := sent + [TransferResponse(Reject(reason))];
        return Refused(reason), sent;
      case AcceptTransfer =>
    }

    if state.Some? {
      var announced := CollectAnnounced(m, state.value.files);
      var bitmap := Bitmap.EncodeReceivedBitmap(announced, TotalChunks(m));
      sent := sent + [TransferResponse(ResumeAt(bitmap))];
    } else {
      sent := sent + [TransferResponse(Accept)];
    }

    var ws := OpenWriters(fs, m);
    var bytes: nat := if state.Some? then state.value.bytesTransferred else 0;
    assert Holds(OnRequest(env, r, m).receiver, m, ws, bytes, fs, resume);
    result, sent := ReceiveLoop(env, fs, resume, m, ws, bytes, events, sent);
  }
}
