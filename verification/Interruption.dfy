/** What an interrupted receiver leaves for the next session: a record of exactly what its writers completed, and
    after reconnecting the sender skips exactly that. */
module Interruption {
  import opened Types
  import opened ChunkIndex
  import opened Storage
  import opened Resume
  import opened Protocol
  import opened Session
  import opened SessionPlan
  import opened QuietRun
  import opened Flow
  import opened Accounting
  import opened Retry

  /** A cancellation or a clean close. */
  predicate Interrupts(x: Incoming) {
    x.Closed? || (x.Msg? && x.msg.Cancel?)
  }

  function Reason(x: Incoming): string
    requires Interrupts(x)
  {
    if x.Closed? then "connection closed" else x.msg.cancelReason
  }

  // ----- One step -----

  /** The record that `after` holds for the manifest lists, file by file, the given sets and the number of bytes;
      no other record has changed. */
  ghost predicate RecordSaved(before: Store, after: Store, m: Manifest, sets: seq<set<nat>>, bytes: nat) {
    var saved := Lookup(after, m.id);
    && saved.Some? && saved.value.id == m.id && |saved.value.files| == |m.files| == |sets|
    && saved.value.bytesTransferred == bytes && saved.value.totalBytes == m.totalSize
    && (forall f | 0 <= f < |sets| :: FileSaved(m, f, sets[f], saved.value.files[f]))
    && (forall id | id != m.id :: SameAt(before, after, id))
  }

  predicate FileSaved(m: Manifest, f: nat, completed: set<nat>, file: FileResume)
    requires f < |m.files|
  {
    && file.fileIndex == f && file.completed == completed
    && file.destPath == m.files[f].path && file.fileSize == m.files[f].size && file.chunkSize == m.chunkSize
  }

  function SetsOf(ws: seq<Writer>): (sets: seq<set<nat>>)
    ensures |sets| == |ws|
  {
    seq(|ws|, f requires 0 <= f < |ws| => ws[f].completed)
  }

  /** A receiver that hears a cancellation or a clean close while receiving saves what its writers completed and how
      many bytes it has counted, says nothing, and leaves the files alone. */
  lemma InterruptionIsSaved(env: Env, r: Receiver, x: Incoming)
    requires ReceiverOk(r) && r.phase.Receiving? && Interrupts(x)
    ensures var y := ReceiverReact(env, r, x);
            && y.out == [] && y.receiver.disk == r.disk
            && y.receiver.phase == ReceiverDone(Interrupted(Reason(x)))
            && RecordSaved(r.store, y.receiver.store, r.phase.manifest, SetsOf(r.phase.writers), r.phase.bytesReceived)
  {
  }

  /** Nothing else writes a record: while receiving, only a completion message touches the records, to remove the one
      of this transfer after a good verdict. */
  lemma OtherwiseNothingSaved(env: Env, r: Receiver, x: Incoming)
    requires ReceiverOk(r) && r.phase.Receiving? && !Interrupts(x)
    ensures var y := ReceiverReact(env, r, x).receiver;
            && (!Finishes(x) ==> y.store == r.store)
            && (Finishes(x) && y.store != r.store ==>
                  FinishedOk(y) && y.store == r.store - {r.phase.manifest.id})
            && (FinishedOk(y) ==> r.phase.manifest.id !in y.store)
  {
    hide FinalizeUpTo, WriteChunk;
  }

  /** What ends the receiving, and how: a chunk goes on if the writer it names takes it and ends it otherwise; a
      broken connection is a failure; any other message was not expected. */
  lemma HowReceivingEnds(env: Env, r: Receiver, x: Incoming)
    requires ReceiverOk(r) && r.phase.Receiving?
    ensures var phase, m := ReceiverReact(env, r, x).receiver.phase, if x.Msg? then Some(x.msg) else None;
            && (phase.Receiving? <==>
                  m.Some? && m.value.ChunkData? && m.value.id.file < |r.phase.writers|
                  && m.value.id.chunk < r.phase.writers[m.value.id.file].Total()
                  && r.phase.writers[m.value.id.file].Temp() in r.disk)
            && (phase.ReceiverDone? && phase.result.Finished? ==> Finishes(x))
            && (phase.ReceiverDone? && phase.result.Interrupted? <==> Interrupts(x))
            && (phase.ReceiverDone? && phase.result.UnexpectedMessage? <==>
                  m.Some? && !m.value.ChunkData? && !m.value.TransferComplete? && !m.value.Cancel?)
            && (x.Reset? ==> phase == ReceiverDone(Failed))
  {
    hide FinalizeUpTo, WriteAt, ChunkCount;
  }

  /** What happens to the files: a completion message leaves the disk as the finalize loop does, up to the file that
      could not be moved if there is one, and tells which; a chunk touches the temporary file of the writer it names
      at most; nothing else touches any file. */
  lemma WhatHappensToFiles(env: Env, r: Receiver, x: Incoming)
    requires ReceiverOk(r) && r.phase.Receiving?
    ensures var y := ReceiverReact(env, r, x).receiver;
            var s := FinalizeUpTo(r.disk, Summaries(r.phase.writers), env.uuids, |r.phase.writers|);
            && (Finishes(x) ==>
                  && y.disk == s.disk
                  && y.phase == ReceiverDone(if s.failed then Failed else Finished(s.allOk, s.paths)))
            && (x.Msg? && x.msg.ChunkData? && x.msg.id.file < |r.phase.writers| ==>
                  forall p | p != r.phase.writers[x.msg.id.file].Temp() :: SameAt(r.disk, y.disk, p))
            && (!Finishes(x) && !y.phase.Receiving? ==> y.disk == r.disk)
  {
    hide FinalizeUpTo, WriteAt, ChunkCount, TempPath;
  }

  // ----- In the two-party system -----

  ghost predicate InterruptedAt(cfg: Config, w: World, l: Label)
    requires |cfg.sources| == |cfg.manifest.files| && WorldOk(cfg, w) && Enabled(cfg, w, l)
  {
    l.ReceiverReceives? && w.receiver.phase.Receiving? && Interrupts(Heard(cfg, w.toReceiver[0]))
  }

  /** Every step in which a receiving receiver hears that it is cancelled or that the connection was closed leaves
      the record of what it has. */
  lemma StepSaves(cfg: Config, w: World, l: Label)
    requires |cfg.sources| == |cfg.manifest.files| && WorldOk(cfg, w) && Enabled(cfg, w, l) && InterruptedAt(cfg, w, l)
    ensures var r, r2 := w.receiver, Next(cfg, w, l).receiver;
            && r2.disk == r.disk && r2.phase == ReceiverDone(Interrupted(Reason(Heard(cfg, w.toReceiver[0]))))
            && RecordSaved(r.store, r2.store, r.phase.manifest, SetsOf(r.phase.writers), r.phase.bytesReceived)
  {
    InterruptionIsSaved(l.env, w.receiver, Heard(cfg, w.toReceiver[0]));
    hide RecordSaved, Heard, ReceiverReact;
    ReceiverMoves(cfg, l.env, w, ReceiverReact(l.env, w.receiver, Heard(cfg, w.toReceiver[0])));
  }

  /** Every other step keeps the records or removes the one of this transfer, unless the receiver crashes while it
      saves or a new session begins. */
  lemma StepSavesNothing(cfg: Config, w: World, l: Label)
    requires |cfg.sources| == |cfg.manifest.files| && WorldOk(cfg, w) && Enabled(cfg, w, l) && !InterruptedAt(cfg, w, l)
    requires !l.Reconnect? && !(l.ReceiverCrashes? && l.tear.MidSave?)
    ensures var r, r2 := w.receiver, Next(cfg, w, l).receiver;
            || r2.store == r.store
            || (r.phase.Receiving? && FinishedOk(r2) && r2.store == r.store - {r.phase.manifest.id})
  {
    hide FinalizeUpTo, WriteChunk, SenderReact, PlainSize, OpenAll, Announced;
    if l.ReceiverReceives? && w.receiver.phase.Receiving? {
      OtherwiseNothingSaved(l.env, w.receiver, Heard(cfg, w.toReceiver[0]));
      hide ReceiverReact, Heard;
      ReceiverMoves(cfg, l.env, w, ReceiverReact(l.env, w.receiver, Heard(cfg, w.toReceiver[0])));
    }
  }

  // ----- Over sessions -----

  lemma DoneStays(cfg: Config, w: World, l: Label)
    requires |cfg.sources| == |cfg.manifest.files| && WorldOk(cfg, w) && Enabled(cfg, w, l)
    requires w.receiver.phase.ReceiverDone? && !l.Reconnect?
    ensures Next(cfg, w, l).receiver == w.receiver
  {
    hide SenderReact, PlainSize;
  }

  lemma {:induction false} DoneUntilReconnect(cfg: Config, ws: seq<World>, ls: seq<Label>, i: nat, j: nat)
    requires |cfg.sources| == |cfg.manifest.files| && Trace(cfg, ws, ls) && i <= j < |ws|
    requires ws[i].receiver.phase.ReceiverDone? && forall k | i <= k < j :: !ls[k].Reconnect?
    ensures ws[j].receiver == ws[i].receiver
    decreases j
  {
    hide Next, Enabled;
    if i < j {
      DoneUntilReconnect(cfg, ws, ls, i, j - 1);
      assert StepOf(cfg, ws[j - 1], ls[j - 1], ws[j]);
      DoneStays(cfg, ws[j - 1], ls[j - 1]);
    }
  }

  /** The saved record, carried over to the next session. */
  lemma CarriedOver(cfg: Config, ws: seq<World>, ls: seq<Label>, i: nat, j: nat)
    requires ValidConfig(cfg) && Trace(cfg, ws, ls) && i < j < |ls| && ls[j].Reconnect?
    requires (forall k | i < k < j :: !ls[k].Reconnect?) && InterruptedIn(cfg, ws, ls, i)
    ensures ws[j + 1] == Start(cfg, ls[j].disk, ls[j].store)
    ensures var sets := SetsOf(ws[i].receiver.phase.writers);
            && WellSaved(cfg.manifest, ls[j].store) && |sets| == |cfg.manifest.files|
            && Lookup(ls[j].store, cfg.manifest.id).Some?
            && forall f | 0 <= f < |sets| :: SavedSet(ls[j].store, cfg.manifest.id, f) == sets[f]
  {
    assert StepOf(cfg, ws[i], ls[i], ws[i + 1]);
    assert StepOf(cfg, ws[j], ls[j], ws[j + 1]);
    hide Trace, ValidConfig, FlatIds, Prefix, Next;
    StepSaves(cfg, ws[i], ls[i]);
    DoneUntilReconnect(cfg, ws, ls, i + 1, j);
    ReconnectStarts(cfg, ws[j], ls[j]);
    SavedInShape(cfg, ws, ls, i);
    assert SameAt(ws[j].receiver.store, ls[j].store, cfg.manifest.id);
    assert Lookup(ls[j].store, cfg.manifest.id) == Lookup(ws[i + 1].receiver.store, cfg.manifest.id);
    FromRecord(cfg.manifest, ws[i].receiver.store, ws[i + 1].receiver.store, ls[j].store,
               SetsOf(ws[i].receiver.phase.writers), ws[i].receiver.phase.bytesReceived);
  }

  ghost predicate InterruptedIn(cfg: Config, ws: seq<World>, ls: seq<Label>, i: nat)
    requires |cfg.sources| == |cfg.manifest.files| && Trace(cfg, ws, ls) && i < |ls|
  {
    StepOf(cfg, ws[i], ls[i], ws[i + 1]) && InterruptedAt(cfg, ws[i], ls[i])
  }

  lemma FromRecord(m: Manifest, before: Store, after: Store, later: Store, sets: seq<set<nat>>, bytes: nat)
    requires RecordSaved(before, after, m, sets, bytes) && Lookup(later, m.id) == Lookup(after, m.id)
    requires forall f, c | 0 <= f < |sets| && c in sets[f] :: c < ChunkCount(m.files[f].size, m.chunkSize)
    ensures WellSaved(m, later) && Lookup(later, m.id).Some?
    ensures forall f | 0 <= f < |sets| :: SavedSet(later, m.id, f) == sets[f]
  {
    hide ChunkCount;
    var files := Lookup(later, m.id).value.files;
    forall f | 0 <= f < |sets| ensures files[f].completed == sets[f] && files[f].fileIndex == f {
      assert FileSaved(m, f, sets[f], files[f]);
    }
  }

  /** The receiver's writers are those of the manifest and have only chunks below their totals. */
  lemma SavedInShape(cfg: Config, ws: seq<World>, ls: seq<Label>, i: nat)
    requires ValidConfig(cfg) && Trace(cfg, ws, ls) && i < |ws| && ws[i].receiver.phase.Receiving?
    ensures var r := ws[i].receiver;
            && r.phase.manifest == cfg.manifest && |r.phase.writers| == |cfg.manifest.files|
            && forall f, c | 0 <= f < |r.phase.writers| && c in r.phase.writers[f].completed ::
                 c < ChunkCount(cfg.manifest.files[f].size, cfg.manifest.chunkSize)
  {
    hide FlatIds, Prefix, ItemsOk, ValidConfig, Trace, SenderAt, Pending, DiskAt, AllTaken, SessionFrom, PlanOf,
         ChunkCount, WritersAt;
    var start, p := RunFlows(cfg, Env(true, None, _ => ""), ws, ls, i);
    var k :| 0 <= k <= |p.items| && StandsAt(p, ws[i], k);
    var r := ws[i].receiver;
    AsManyWriters(p, r, k);
    forall f, c | 0 <= f < |r.phase.writers| && c in r.phase.writers[f].completed
      ensures c < ChunkCount(cfg.manifest.files[f].size, cfg.manifest.chunkSize)
    {
      CompletedHaveRoom(p, r, k, f, c);
    }
  }

  /** Resuming works from one session to the next: after an interruption and reconnecting, whatever else happened in
      between, a sender that is sending skips exactly the chunks that the interrupted session completed. */
  lemma ResumesExactly(cfg: Config, ws: seq<World>, ls: seq<Label>, i: nat, j: nat, k: nat, id: ChunkId)
    requires ValidConfig(cfg) && Trace(cfg, ws, ls) && i < j < |ls| && ls[j].Reconnect?
    requires (forall n | i < n < j :: !ls[n].Reconnect?) && InterruptedIn(cfg, ws, ls, i)
    requires SessionFrom(cfg, ws, ls, j + 1, k) && ws[k].receiver.phase.Receiving?
    requires ws[k].sender.phase.AwaitAck? || ws[k].sender.phase.AwaitVerified?
    requires InRange(ManifestCounts(cfg.manifest), id)
    ensures |ws[i].receiver.phase.writers| == |cfg.manifest.files|
    ensures Skips(cfg.manifest, ws[k].sender.skip, id) <==> id.chunk in ws[i].receiver.phase.writers[id.file].completed
  {
    CarriedOver(cfg, ws, ls, i, j);
    var sets := SetsOf(ws[i].receiver.phase.writers);
    assert IndexIsPosition(cfg.manifest) && |ws[i].receiver.phase.writers| == |sets|;
    SkipsBySession(cfg, ws, ls, j + 1, k);
    hide FlatIds, Prefix, ValidConfig, Trace, SkipSet, ChunkCount, WellSaved, SavedSet, SessionFrom;
    NegotiationIsExact(cfg.manifest, ls[j].store, id);
    assert SavedSet(ls[j].store, cfg.manifest.id, id.file) == sets[id.file];
  }

  /** A sender that is sending goes by the record its session began with. */
  lemma SkipsBySession(cfg: Config, ws: seq<World>, ls: seq<Label>, start: nat, k: nat)
    requires ValidConfig(cfg) && Trace(cfg, ws, ls) && SessionFrom(cfg, ws, ls, start, k)
    requires ws[k].receiver.phase.Receiving? && (ws[k].sender.phase.AwaitAck? || ws[k].sender.phase.AwaitVerified?)
    ensures ws[k].sender.skip == SkipSet(cfg.manifest, ws[start].receiver.store)
  {
    var p := PlanOf(cfg, Env(true, None, _ => ""), ws[start].receiver.disk, ws[start].receiver.store);
    assert p.cfg == cfg && p.store == ws[start].receiver.store && p.disk == ws[start].receiver.disk;
    PlanOfOk(cfg, p.env, ws[start].receiver.disk, ws[start].receiver.store);
    assert Begins(p);
    hide FlatIds, Prefix, ItemsOk, ValidConfig, Trace, Pending, DiskAt, AllTaken, SessionFrom, PlanOf, TakenIn,
         SkipSet, CountedBytes, OfferedResponse;
    SessionFlows(p, ws, ls, start, k);
    var n :| 0 <= n <= |p.items| && StandsAt(p, ws[k], n);
  }

  /** What an interruption in a run saves: the sets add up to the bytes, and none of them was on record before, so the
      record of a resumed and again interrupted session lists nothing of its predecessor. */
  lemma InterruptedRunSaves(cfg: Config, ws: seq<World>, ls: seq<Label>, i: nat)
    requires ValidConfig(cfg) && Trace(cfg, ws, ls) && i < |ls| && InterruptedIn(cfg, ws, ls, i)
    ensures var r, after := ws[i].receiver, ws[i + 1].receiver.store;
            && RecordSaved(r.store, after, cfg.manifest, SetsOf(r.phase.writers), r.phase.bytesReceived)
            && |SetsOf(r.phase.writers)| == |cfg.sources| == |cfg.manifest.files|
            && RecordedBytes(after, cfg.manifest.id)
               == RecordedBytes(r.store, cfg.manifest.id)
                  + ListedBytes(cfg, SetsOf(r.phase.writers), |SendIds(cfg)|)
    ensures Setting(cfg) && Run(cfg, ws, ls) ==>
              forall f | 0 <= f < |cfg.sources| ::
                SavedSet(ws[i + 1].receiver.store, cfg.manifest.id, f)
                !! SavedSet(ws[i].receiver.store, cfg.manifest.id, f)
  {
    assert StepOf(cfg, ws[i], ls[i], ws[i + 1]);
    hide Trace, ValidConfig, FlatIds, Prefix, Next, ListedBytes, ChunkCount;
    StepSaves(cfg, ws[i], ls[i]);
    ReceivedIsCompleted(cfg, ws, ls, i);
    SavedInShape(cfg, ws, ls, i);
    var r, after := ws[i].receiver, ws[i + 1].receiver.store;
    var sets := SetsOf(r.phase.writers);
    assert CompletedSets(r) == sets;
    FromRecord(cfg.manifest, r.store, after, after, sets, r.phase.bytesReceived);
    if Setting(cfg) && Run(cfg, ws, ls) {
      forall f | 0 <= f < |cfg.sources|
        ensures SavedSet(after, cfg.manifest.id, f) !! SavedSet(r.store, cfg.manifest.id, f)
      {
        SavedAreNew(cfg, ws, ls, i, f);
        assert SavedSet(after, cfg.manifest.id, f) == sets[f];
      }
    }
  }

  lemma SavedAreNew(cfg: Config, ws: seq<World>, ls: seq<Label>, i: nat, f: nat)
    requires Setting(cfg) && Run(cfg, ws, ls) && i < |ws| && ws[i].receiver.phase.Receiving? && f < |cfg.sources|
    ensures |ws[i].receiver.phase.writers| == |cfg.sources|
    ensures ws[i].receiver.phase.writers[f].completed !! SavedSet(ws[i].receiver.store, cfg.manifest.id, f)
  {
    RunKeepsInv(cfg, ws, ls, i);
    assert WriterSound(cfg, ws[i].receiver, f);
  }
}
