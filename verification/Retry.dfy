/** One full session after another: a retry ends like the session before. */
module Retry {
  import opened Types
  import opened ChunkIndex
  import opened Storage
  import opened Resume
  import opened Protocol
  import opened Session
  import opened SessionPlan
  import opened QuietRun
  import opened Flow
  import opened Liveness
  import opened Verdict
  import opened EndToEnd

  /** The record is in shape, and one that was found is still there unless the receiver has finished well. */
  predicate RecordKept(p: Plan, r: Receiver) {
    && WellSaved(p.cfg.manifest, r.store)
    && (Lookup(p.store, p.cfg.manifest.id).Some? ==>
          Lookup(r.store, p.cfg.manifest.id).Some? || FinishedOk(r))
  }

  lemma CompletedHaveRoom(p: Plan, r: Receiver, k: nat, f: nat, c: nat)
    requires PlanOk(p) && StartsEmpty(p) && k <= |p.items| && TakenIn(p, r, k) && AllTaken(p, k)
    requires f < |p.initial| && c in r.phase.writers[f].completed
    ensures c < ManifestCounts(p.cfg.manifest)[f]
  {
    hide FlatIds, Prefix, ItemsOk, ValidConfig, ChunkCount, DoneIds, Carried;
    assert WriterAt(p, r.phase.writers[f], f, DoneIds(p.items, k));
    var id :| id in DoneIds(p.items, k) && id.file == f && id.chunk == c;
    DoneIdsMembers(p, k, id);
    var j :| 0 <= j < k && p.items[j].id == id && !p.items[j].skipped;
    assert Taken(p, p.items[j]);
  }

  /** What an interruption saves is in shape. */
  lemma InterruptIsWell(p: Plan, r: Receiver, k: nat, why: string)
    requires PlanOk(p) && StartsEmpty(p) && k <= |p.items| && TakenIn(p, r, k) && AllTaken(p, k)
    ensures RecordKept(p, OnInterrupt(r, why).receiver)
  {
    hide FlatIds, Prefix, ItemsOk, ValidConfig, DoneIds, AllTaken, WritersAt, DiskAt, SentBytes;
    assert |r.phase.writers| == |p.initial| by { AsManyWriters(p, r, k); }
    var m, r2 := p.cfg.manifest, OnInterrupt(r, why).receiver;
    forall i, c | 0 <= i < |m.files| && c in r.phase.writers[i].completed
      ensures c < ChunkCount(m.files[i].size, m.chunkSize)
    {
      CompletedHaveRoom(p, r, k, i, c);
    }
  }

  lemma AsManyWriters(p: Plan, r: Receiver, k: nat)
    requires PlanOk(p) && k <= |p.items| && TakenIn(p, r, k)
    ensures |r.phase.writers| == |p.initial|
  {
  }

  lemma FinishKeepsRecord(p: Plan, env: Env, r: Receiver)
    requires RecordKept(p, r) && r.phase.Receiving? && ReceiverOk(r) && r.phase.manifest == p.cfg.manifest
    ensures RecordKept(p, OnComplete(env, r).receiver)
  {
    hide FinalizeUpTo, Summaries;
  }

  lemma ReceivingKeepsRecord(p: Plan, env: Env, w: World, k: nat)
    requires Begins(p) && k <= |p.items| && StandsAt(p, w, k) && RecordKept(p, w.receiver) && ReceiverOk(w.receiver)
    requires Enabled(p.cfg, w, ReceiverReceives(env)) && WorldOk(p.cfg, w)
    ensures RecordKept(p, Next(p.cfg, w, ReceiverReceives(env)).receiver)
  {
    var r, x := w.receiver, Heard(p.cfg, w.toReceiver[0]);
    assert TakenIn(p, r, k) && AllTaken(p, k) && r.phase.Receiving? && r.phase.manifest == p.cfg.manifest;
    hide FlatIds, Prefix, ItemsOk, ValidConfig, RecordKept, Heard, Next, ReceiverReact, StandsAt, TakenIn, AllTaken;
    ReceiverMoves(p.cfg, env, w, ReceiverReact(env, r, x));
    HearingKeepsRecord(p, env, r, k, x);
  }

  lemma HearingKeepsRecord(p: Plan, env: Env, r: Receiver, k: nat, x: Incoming)
    requires PlanOk(p) && StartsEmpty(p) && k <= |p.items| && TakenIn(p, r, k) && AllTaken(p, k)
    requires RecordKept(p, r) && ReceiverOk(r) && r.phase.Receiving? && r.phase.manifest == p.cfg.manifest
    ensures RecordKept(p, ReceiverReact(env, r, x).receiver)
  {
    hide FlatIds, Prefix, ItemsOk, ValidConfig, TakenIn, AllTaken, WellSaved, OnComplete, OnInterrupt;
    if x.Msg? && x.msg.TransferComplete? {
      FinishKeepsRecord(p, env, r);
    } else if x.Closed? {
      InterruptIsWell(p, r, k, "connection closed");
    } else if x.Msg? && x.msg.Cancel? {
      InterruptIsWell(p, r, k, x.msg.cancelReason);
    } else {
      assert ReceiverReact(env, r, x).receiver.store == r.store && !FinishedOk(r);
    }
  }

  lemma OpeningKeepsRecord(p: Plan, env: Env, w: World)
    requires Begins(p) && NotOpen(p, w) && WellSaved(p.cfg.manifest, p.store)
    requires Enabled(p.cfg, w, ReceiverReceives(env)) && WorldOk(p.cfg, w)
    ensures RecordKept(p, Next(p.cfg, w, ReceiverReceives(env)).receiver)
  {
    var y := ReceiverReact(env, w.receiver, Heard(p.cfg, w.toReceiver[0]));
    ReceiverMoves(p.cfg, env, w, y);
    hide FlatIds, Prefix, ItemsOk, ValidConfig, WellSaved, Next, Heard, Enabled, WorldOk, OpenAll;
    assert y.receiver.store == p.store;
  }

  lemma {:induction false} SessionKeepsRecord(p: Plan, ws: seq<World>, ls: seq<Label>, i: nat)
    requires Begins(p) && WellSaved(p.cfg.manifest, p.store) && |ws| == |ls| + 1 && i < |ws|
    requires Undisturbed(p, ws, ls, Requested) && Trace(p.cfg, ws, ls) && SessionFrom(p.cfg, ws, ls, 0, |ls|)
    requires p.disk == ws[0].receiver.disk && p.store == ws[0].receiver.store
    ensures RecordKept(p, ws[i].receiver)
  {
    assert i > 0 ==> SessionFrom(p.cfg, ws, ls, 0, i - 1);
    hide FlatIds, Prefix, ItemsOk, ValidConfig, WellSaved, Next, Enabled, Trace, StandsAt, NotOpen, Closing, At;
    if i > 0 {
      SessionKeepsRecord(p, ws, ls, i - 1);
      SessionFlows(p, ws, ls, 0, i - 1);
      assert Moves(p, ws[i - 1], ls[i - 1], ws[i]);
      MoveKeepsRecord(p, ws[i - 1], ls[i - 1]);
    }
  }

  lemma MoveKeepsRecord(p: Plan, w: World, l: Label)
    requires Begins(p) && WellSaved(p.cfg.manifest, p.store) && RecordKept(p, w.receiver)
    requires Flows(p, w) && CanMove(p, w, l)
    ensures RecordKept(p, Next(p.cfg, w, l).receiver)
  {
    hide FlatIds, Prefix, ItemsOk, ValidConfig, WellSaved, StandsAt, NotOpen, Closing, FallbacksFresh, Lookup;
    if l == SenderReceives {
      hide SenderReact, Heard;
    } else if w.receiver.phase.AwaitRequest? {
      OpeningKeepsRecord(p, p.env, w);
    } else if w.receiver.phase.Receiving? {
      var k :| 0 <= k <= |p.items| && StandsAt(p, w, k);
      ReceivingKeepsRecord(p, p.env, w, k);
    }
  }

  /** A response that lists a record does not fit whatever the record lists: its length is that of the bitmap. */
  lemma BitmapLengthStays(cfg: Config, a: Store, b: Store)
    requires Lookup(a, cfg.manifest.id).Some? && Lookup(b, cfg.manifest.id).Some?
    ensures Carried(cfg, TransferResponse(ResponseTo(cfg.manifest, a)))
       <==> Carried(cfg, TransferResponse(ResponseTo(cfg.manifest, b)))
  {
  }

  /** What a full session leaves on record cannot complete if what it found could not. */
  lemma FailureStays(cfg: Config, env: Env, ws: seq<World>, ls: seq<Label>)
    requires ValidConfig(cfg) && TempsDistinct(cfg.manifest) && Decide(env).AcceptTransfer?
    requires FullSession(cfg, env, ws, ls) && WellSaved(cfg.manifest, ws[0].receiver.store)
    ensures WellSaved(cfg.manifest, ws[|ls|].receiver.store)
    ensures CanComplete(cfg, ws[|ls|].receiver.store) <==> CanComplete(cfg, ws[0].receiver.store)
  {
    var p, last := PlanFor(cfg, env, ws[0]), ws[|ls|];
    assert p.cfg == cfg && p.env == env && p.disk == ws[0].receiver.disk && p.store == ws[0].receiver.store;
    PlanIsValid(cfg, env, ws[0].receiver.disk, ws[0].receiver.store);
    assert Begins(p) && Undisturbed(p, ws, ls, Requested);
    FullIsTrace(cfg, env, ws, ls);
    hide FlatIds, Prefix, ItemsOk, ValidConfig, Trace, PlanOf, WellSaved, Undisturbed, FullSession, Decide,
         TempsDistinct, SessionFrom, Flows, CanComplete, Through, At, Remaining, EndsOk;
    SessionKeepsRecord(p, ws, ls, |ls|);
    CanCompleteIff(p);
    CompletedIff(cfg, env, ws, ls);
    if Through(p) {
      OverRecord(p, last);
      if EndsOk(p) { RemovedCanComplete(cfg, p.store, last.receiver.store); }
    } else {
      SessionFlows(p, ws, ls, 0, |ls|);
      NotThroughStays(p, last);
    }
  }

  lemma RemovedCanComplete(cfg: Config, store: Store, after: Store)
    requires |cfg.sources| == |cfg.manifest.files| && CanComplete(cfg, store) && after == store - {cfg.manifest.id}
    ensures CanComplete(cfg, after)
  {
    hide ChunksFit, SendCounts, ManifestCounts;
    NothingFound(cfg, after);
  }

  lemma NotThroughStays(p: Plan, w: World)
    requires Begins(p) && Flows(p, w) && !Through(p) && RecordKept(p, w.receiver)
    ensures !CanComplete(p.cfg, w.receiver.store)
  {
    hide FlatIds, Prefix, ItemsOk, ValidConfig, WellSaved, ChunksFit, SendCounts, ManifestCounts, AllTaken, PlainSize,
         NotOpen, StandsAt, Carried, ResponseTo, RoomForAll, SavedSet;
    if CanComplete(p.cfg, w.receiver.store) {
      assert RoomForAll(p.cfg) by { EqualCountsFit(p.cfg); }
      FittingIsTaken(p);
      assert !ResponseHeard(p);
      assert Lookup(p.store, p.cfg.manifest.id).Some? by {
        if Lookup(p.store, p.cfg.manifest.id).None? { NothingFound(p.cfg, p.store); }
      }
      assert !FinishedOk(w.receiver);
      BitmapLengthStays(p.cfg, p.store, w.receiver.store);
    }
  }

  lemma EqualCountsFit(cfg: Config)
    requires |cfg.sources| == |cfg.manifest.files| && SendCounts(cfg) == ManifestCounts(cfg.manifest)
    ensures RoomForAll(cfg)
  {
  }

  /** Trying again does not help, and does not hurt: whatever the chunk sizes, a full session that finds the record
      of another one is reported complete if and only if that one was, whatever happens to the disk in between. */
  lemma RetryEndsAlike(cfg: Config, env: Env, ws: seq<World>, ls: seq<Label>,
                       env2: Env, ws2: seq<World>, ls2: seq<Label>)
    requires ValidConfig(cfg) && TempsDistinct(cfg.manifest) && Decide(env).AcceptTransfer?
    requires FullSession(cfg, env, ws, ls) && WellSaved(cfg.manifest, ws[0].receiver.store)
    requires Decide(env2).AcceptTransfer? && FullSession(cfg, env2, ws2, ls2)
    requires ws2[0].receiver.store == ws[|ls|].receiver.store
    ensures ws2[|ls2|].sender.phase == SenderDone(Completed) <==> ws[|ls|].sender.phase == SenderDone(Completed)
  {
    assert |cfg.sources| == |cfg.manifest.files| && |ws| == |ls| + 1 && |ws2| == |ls2| + 1;
    hide ValidConfig, TempsDistinct, Decide, FullSession, WellSaved, CanComplete, Through, Remaining;
    FailureStays(cfg, env, ws, ls);
    SessionEnd(cfg, env, ws, ls);
    SessionEnd(cfg, env2, ws2, ls2);
  }
}
