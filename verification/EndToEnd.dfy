/** Sessions as a whole: when they complete, how long they take, what they leave in the files and on record. */
module EndToEnd {
  import opened Types
  import opened ChunkIndex
  import opened Storage
  import opened Resume
  import opened Protocol
  import opened Session
  import opened SessionPlan
  import opened QuietRun
  import opened Flow
  import opened Liveness
  import opened Verdict
  import opened Finalization
  import opened Accounting
  import opened Contents
  import opened Mismatch
  import Geometry

  /** The standing assumptions in terms a sender can check: every file is at most 1 GiB or the chunk size
      is 4 MiB, and no two file names share a stem. */
  lemma SettingIff(cfg: Config)
    requires ValidConfig(cfg)
    ensures Setting(cfg)
       <==> (forall i | 0 <= i < |cfg.sources| ::
               |cfg.sources[i]| <= LARGE_FILE_THRESHOLD || cfg.manifest.chunkSize == SCALED_CHUNK_CAP)
            && (forall i, j | 0 <= i < j < |cfg.sources| ::
                  cfg.manifest.files[i].path.stem != cfg.manifest.files[j].path.stem)
  {
    var m := cfg.manifest;
    forall i | 0 <= i < |cfg.sources|
      ensures SendSize(cfg, i) == m.chunkSize
         <==> |cfg.sources[i]| <= LARGE_FILE_THRESHOLD || m.chunkSize == SCALED_CHUNK_CAP
    {
      Geometry.ChunkSizesCoincide(|cfg.sources[i]|, m.chunkSize);
    }
    forall i, j | 0 <= i < j < |cfg.sources|
      ensures TempPath(m.files[i].path) != TempPath(m.files[j].path)
         <==> m.files[i].path.stem != m.files[j].path.stem
    {
    }
  }

  // ----- Which messages get through -----

  lemma ItemOf(p: Plan, id: ChunkId) returns (j: nat)
    requires PlanOk(p) && InRange(SendCounts(p.cfg), id)
    ensures j < |p.items| && p.items[j].id == id && p.items[j].data == SendData(p.cfg, id)
  {
    hide FlatIds, Prefix, SkipSet, GlobalOffset, ChunkCount, EffectiveChunkSize, ChunkOf;
    IdAt(SendCounts(p.cfg), id);
    j := Position(SendCounts(p.cfg), id);
    assert ItemOk(p, j);
  }

  /** If nothing is skipped, the sizes decide whether all chunks are taken. */
  lemma AllTakenIff(p: Plan)
    requires PlanOk(p) && NoneSkipped(p)
    ensures AllTaken(p, |p.items|) <==> ChunksFit(p.cfg) && RoomForAll(p.cfg)
  {
    hide FlatIds, Prefix, SkipSet, GlobalOffset, ChunkCount, EffectiveChunkSize, ChunkOf, PlainSize, ChunksFit,
         SendData, SendCounts, ManifestCounts, ValidConfig;
    ChunksFitIff(p.cfg);
    if AllTaken(p, |p.items|) {
      forall id | InRange(SendCounts(p.cfg), id)
        ensures ChunkCarried(p.cfg, id) && id.chunk < ManifestCounts(p.cfg.manifest)[id.file]
      {
        var j := ItemOf(p, id);
        assert Taken(p, p.items[j]);
      }
      forall f | 0 <= f < |p.cfg.sources| ensures SendCounts(p.cfg)[f] <= ManifestCounts(p.cfg.manifest)[f] {
        assert !InRange(SendCounts(p.cfg), ChunkId(f, ManifestCounts(p.cfg.manifest)[f]));
      }
    } else {
      var j :| 0 <= j < |p.items| && !p.items[j].skipped && !Taken(p, p.items[j]);
      assert ItemOk(p, j);
      assert ChunksFit(p.cfg) ==> ChunkCarried(p.cfg, p.items[j].id);
    }
  }

  /** Whatever is skipped, all chunks are taken if they fit and the writers have room. */
  lemma FittingIsTaken(p: Plan)
    requires PlanOk(p) && ChunksFit(p.cfg) && RoomForAll(p.cfg)
    ensures AllTaken(p, |p.items|)
  {
    hide FlatIds, Prefix, SkipSet, GlobalOffset, ChunkCount, EffectiveChunkSize, ChunkOf, PlainSize, ChunksFit,
         SendData, SendCounts, ManifestCounts, ValidConfig;
    ChunksFitIff(p.cfg);
    forall j | 0 <= j < |p.items| ensures Taken(p, p.items[j]) {
      assert ItemOk(p, j);
      assert ChunkCarried(p.cfg, p.items[j].id);
    }
  }

  lemma ThroughHasRoom(p: Plan)
    requires PlanOk(p) && Through(p)
    ensures HasRoom(p)
  {
    hide FlatIds, Prefix, ItemsOk, ValidConfig, Carried, ManifestCounts;
    forall j | 0 <= j < |p.items| && !p.items[j].skipped ensures Expected(p, p.items[j].id) {
      assert Taken(p, p.items[j]);
    }
  }

  // ----- Completion in any run -----

  /** The receiver has finalized every file, to paths of their own. */
  predicate AllFinalized(cfg: Config, r: Receiver)
    requires |cfg.sources| == |cfg.manifest.files|
  {
    && r.phase.ReceiverDone? && r.phase.result.Finished? && |r.phase.result.paths| == |cfg.sources|
    && (forall f | 0 <= f < |cfg.sources| :: r.phase.result.paths[f].Some? && r.phase.result.paths[f].value in r.disk)
    && (forall f, g | 0 <= f < g < |cfg.sources| :: r.phase.result.paths[f] != r.phase.result.paths[g])
  }

  function FileBytes(cfg: Config, r: Receiver, f: nat): Bytes
    requires |cfg.sources| == |cfg.manifest.files| && AllFinalized(cfg, r) && f < |cfg.sources|
  {
    r.disk[r.phase.result.paths[f].value]
  }

  lemma EndedOkIsFinalized(p: Plan, r: Receiver, uuids: nat -> string)
    requires PlanOk(p) && TempsDistinct(p.cfg.manifest) && Ended(p, r, uuids) && EndsOk(p)
    ensures AllFinalized(p.cfg, r)
    ensures forall f | 0 <= f < |p.cfg.sources| :: FileBytes(p.cfg, r, f) == DeliveredFile(p, |p.items|, f)
  {
    hide FlatIds, Prefix, ItemsOk, ValidConfig, CompleteAtEnd, DeliveredFile, FinalState, FallbacksUnused;
    FinalFiles(p, uuids);
    var s := FinalState(p, uuids);
    forall f | 0 <= f < |p.cfg.sources|
      ensures s.paths[f].Some? && s.paths[f].value in s.disk
      ensures s.disk[s.paths[f].value] == DeliveredFile(p, |p.items|, f)
    {
      assert FinalFile(p, s, f) && CompleteAtEnd(p, f);
    }
  }

  lemma CompletedEnded(p: Plan, w: World) returns (uuids: nat -> string)
    requires PlanOk(p) && Flows(p, w) && w.sender.phase == SenderDone(Completed)
    ensures Through(p) && EndsOk(p) && Ended(p, w.receiver, uuids)
  {
    hide FlatIds, Prefix, ItemsOk, ValidConfig, Through, FinalState, FallbacksUnused, EndsOk, TakenIn, AllTaken;
    assert Closing(p, w);
    uuids :| Ended(p, w.receiver, uuids);
    VerdictIsEndsOk(p, uuids);
  }

  function PlanFor(cfg: Config, env: Env, w: World): Plan
    requires |cfg.sources| == |cfg.manifest.files|
  {
    PlanOf(cfg, env, w.receiver.disk, w.receiver.store)
  }

  /** What completion means in any run, with any chunk sizes and file names: every message of the session got through
      and was taken, every file was counted complete, and the receiver has finalized what it had. */
  lemma CompletedThrough(cfg: Config, env: Env, ws: seq<World>, ls: seq<Label>, start: nat, i: nat)
    returns (uuids: nat -> string)
    requires ValidConfig(cfg) && Trace(cfg, ws, ls) && SessionFrom(cfg, ws, ls, start, i)
    requires ws[i].sender.phase == SenderDone(Completed)
    ensures var p := PlanFor(cfg, env, ws[start]);
            PlanOk(p) && Through(p) && EndsOk(p) && Ended(p, ws[i].receiver, uuids)
  {
    hide FlatIds, Prefix, ItemsOk, Through, EndsOk, Trace, Flows, Ended;
    var p := PlanFor(cfg, env, ws[start]);
    PlanOfOk(cfg, env, ws[start].receiver.disk, ws[start].receiver.store);
    SessionFlows(p, ws, ls, start, i);
    uuids := CompletedEnded(p, ws[i]);
  }

  /** Nothing was on record, request, response and chunks fit a frame, and both sides come to the same counts. */
  predicate CanComplete(cfg: Config, store: Store)
    requires |cfg.sources| == |cfg.manifest.files|
  {
    && (forall f | 0 <= f < |cfg.sources| :: SavedSet(store, cfg.manifest.id, f) == {})
    && Carried(cfg, TransferRequest(cfg.manifest)) && Carried(cfg, TransferResponse(ResponseTo(cfg.manifest, store)))
    && ChunksFit(cfg)
    && SendCounts(cfg) == ManifestCounts(cfg.manifest)
  }

  /** The condition of completion in terms of the record, the sizes and the chunk counts, for any plan as the code
      starts it: the session gets through and the count comes out right exactly then. */
  lemma CanCompleteIff(p: Plan)
    requires PlanOk(p) && StartsEmpty(p) && WellSaved(p.cfg.manifest, p.store)
    ensures Through(p) && EndsOk(p) <==> CanComplete(p.cfg, p.store)
  {
    hide FlatIds, Prefix, ItemsOk, ValidConfig, ChunkCount, EffectiveChunkSize, PlainSize, AllTaken, ChunksFit,
         SkipSet, NoneSkipped, SendCounts, ManifestCounts, EndsOk, WellSaved, HasRoom, SavedSet, Carried;
    VerifiedIffNothingSkipped(p);
    assert NothingRecorded(p) <==> forall f | 0 <= f < |p.cfg.sources| :: SavedSet(p.store, p.cfg.manifest.id, f) == {};
    if Through(p) && EndsOk(p) {
      ThroughHasRoom(p);
      NothingSkipped(p);
      AllTakenIff(p);
    }
    if CanComplete(p.cfg, p.store) {
      SameCountsHaveRoom(p);
      FittingIsTaken(p);
    }
  }

  /** In any run, with any chunk sizes and file names: a session completes only if nothing was on record, its messages
      fit their frames, and both sides come to the same number of chunks for every file. */
  lemma CompletedOnlyIf(cfg: Config, ws: seq<World>, ls: seq<Label>, start: nat, i: nat)
    requires ValidConfig(cfg) && Trace(cfg, ws, ls) && SessionFrom(cfg, ws, ls, start, i)
    requires WellSaved(cfg.manifest, ws[start].receiver.store)
    requires ws[i].sender.phase == SenderDone(Completed)
    ensures CanComplete(cfg, ws[start].receiver.store)
  {
    var env := Env(true, None, _ => "");
    var p := PlanFor(cfg, env, ws[start]);
    assert p.cfg == cfg && p.store == ws[start].receiver.store;
    PlanOfOk(cfg, env, ws[start].receiver.disk, ws[start].receiver.store);
    hide FlatIds, Prefix, ItemsOk, Through, EndsOk, Trace, PlanOf, Ended, WellSaved, CanComplete, SessionFrom;
    var uuids := CompletedThrough(cfg, env, ws, ls, start, i);
    CanCompleteIff(p);
  }

  /** A chunk too large for a frame is refused by the receiver, so a session that has to send one is never
      reported complete, whatever else happens. */
  lemma OversizeNeverCompletes(cfg: Config, ws: seq<World>, ls: seq<Label>, start: nat, i: nat, id: ChunkId)
    requires ValidConfig(cfg) && Trace(cfg, ws, ls) && SessionFrom(cfg, ws, ls, start, i)
    requires InRange(SendCounts(cfg), id) && |SendData(cfg, id)| > MAX_CHUNK_DATA
    requires !Skips(cfg.manifest, SkipSet(cfg.manifest, ws[start].receiver.store), id)
    ensures ws[i].sender.phase != SenderDone(Completed)
  {
    var env := Env(true, None, _ => "");
    var p := PlanFor(cfg, env, ws[start]);
    PlanOfOk(cfg, env, ws[start].receiver.disk, ws[start].receiver.store);
    OversizeIsNotThrough(p, id);
    hide FlatIds, Prefix, Through, Trace, SkipSet, Ended, EndsOk;
    if ws[i].sender.phase == SenderDone(Completed) {
      var uuids := CompletedThrough(cfg, env, ws, ls, start, i);
    }
  }

  lemma OversizeIsNotThrough(p: Plan, id: ChunkId)
    requires PlanOk(p) && InRange(SendCounts(p.cfg), id) && |SendData(p.cfg, id)| > MAX_CHUNK_DATA
    requires !Skips(p.cfg.manifest, Skip(p), id)
    ensures !Through(p)
  {
    var j := ItemOf(p, id);
    hide FlatIds, Prefix, SkipSet, GlobalOffset, ChunkCount, EffectiveChunkSize, ChunkOf;
    assert ItemOk(p, j);
    assert !Taken(p, p.items[j]);
  }

  /** With distinct temporary files a completed session has finalized every file, to paths of their own, each with
      exactly the chunks sent for it written over what its temporary file held. */
  lemma CompletedExactly(cfg: Config, env: Env, ws: seq<World>, ls: seq<Label>, start: nat, i: nat)
    requires ValidConfig(cfg) && TempsDistinct(cfg.manifest) && Trace(cfg, ws, ls) && SessionFrom(cfg, ws, ls, start, i)
    requires ws[i].sender.phase == SenderDone(Completed)
    ensures var p := PlanFor(cfg, env, ws[start]);
            && PlanOk(p) && Through(p) && EndsOk(p) && AllFinalized(cfg, ws[i].receiver)
            && forall f | 0 <= f < |cfg.sources| ::
                 FileBytes(cfg, ws[i].receiver, f) == DeliveredFile(p, |p.items|, f)
  {
    hide FlatIds, Prefix, ItemsOk, Through, EndsOk, AllFinalized, DeliveredFile, Trace, Ended;
    var uuids := CompletedThrough(cfg, env, ws, ls, start, i);
    EndedOkIsFinalized(PlanFor(cfg, env, ws[start]), ws[i].receiver, uuids);
  }

  /** So, whatever was on disk and on record when the session started, every file that both sides cut alike has
      arrived as its source. */
  lemma CompletedDelivers(cfg: Config, ws: seq<World>, ls: seq<Label>, start: nat, i: nat)
    requires ValidConfig(cfg) && TempsDistinct(cfg.manifest) && Trace(cfg, ws, ls) && SessionFrom(cfg, ws, ls, start, i)
    requires ws[i].sender.phase == SenderDone(Completed)
    ensures AllFinalized(cfg, ws[i].receiver)
    ensures forall f | 0 <= f < |cfg.sources| && SendSize(cfg, f) == cfg.manifest.chunkSize ::
              FileBytes(cfg, ws[i].receiver, f) == cfg.sources[f]
  {
    var env := Env(true, None, _ => "");
    var p := PlanFor(cfg, env, ws[start]);
    assert p.cfg == cfg;
    PlanOfOk(cfg, env, ws[start].receiver.disk, ws[start].receiver.store);
    hide FlatIds, Prefix, ItemsOk, Through, AllFinalized, DeliveredFile, Trace, PlanOf, ValidConfig, SendSize,
         HasRoom, CompleteAtEnd, SessionFrom, TempsDistinct;
    CompletedExactly(cfg, env, ws, ls, start, i);
    ThroughHasRoom(p);
    forall f | 0 <= f < |cfg.sources| && SendSize(cfg, f) == cfg.manifest.chunkSize
      ensures DeliveredFile(p, |p.items|, f) == cfg.sources[f]
    {
      CompleteIsDelivered(p, f);
    }
  }

  /** What the temporary file of `f` holds once it has been set to its length. */
  function Resized(cfg: Config, disk: Disk, f: nat): Bytes
    requires f < |cfg.manifest.files|
  {
    var temp := TempPath(cfg.manifest.files[f].path);
    SetLen(if temp in disk then disk[temp] else [], cfg.manifest.files[f].size)
  }

  /** ... and any other file is what writing the sender's chunks at the writer's offsets makes of it. */
  lemma CompletedContents(cfg: Config, ws: seq<World>, ls: seq<Label>, start: nat, i: nat)
    requires ValidConfig(cfg) && TempsDistinct(cfg.manifest) && Trace(cfg, ws, ls) && SessionFrom(cfg, ws, ls, start, i)
    requires WellSaved(cfg.manifest, ws[start].receiver.store)
    requires ws[i].sender.phase == SenderDone(Completed)
    ensures AllFinalized(cfg, ws[i].receiver)
    ensures forall f | 0 <= f < |cfg.sources| ::
              FileBytes(cfg, ws[i].receiver, f)
              == Rebuilt(Resized(cfg, ws[start].receiver.disk, f), cfg.sources[f], SendSize(cfg, f),
                         cfg.manifest.chunkSize)
  {
    var env := Env(true, None, _ => "");
    CompletedExactly(cfg, env, ws, ls, start, i);
    var p := PlanFor(cfg, env, ws[start]);
    ThroughHasRoom(p);
    VerifiedIffNothingSkipped(p);
    NothingSkipped(p);
    hide FlatIds, Prefix, ItemsOk, AllFinalized, DeliveredFile, Trace, Rebuilt, ChunkCount, EffectiveChunkSize,
         PlainSize, CompleteAtEnd, Through, ValidConfig, SendSize, NoneSkipped, HasRoom, WellSaved;
    forall f | 0 <= f < |cfg.sources|
      ensures DeliveredFile(p, |p.items|, f)
           == Rebuilt(Resized(cfg, ws[start].receiver.disk, f), cfg.sources[f], SendSize(cfg, f),
                      cfg.manifest.chunkSize)
    {
      FreshContents(p, f);
      assert Opened(p, f) == Resized(cfg, ws[start].receiver.disk, f);
    }
  }

  // ----- Stems -----

  /** Whatever the chunk sizes, the disk and the record: a completed session can only have all its files at paths of
      their own if no two of them share a temporary file. */
  lemma FinalizedNeedsDistinct(cfg: Config, ws: seq<World>, ls: seq<Label>, i: nat)
    requires ValidConfig(cfg) && Trace(cfg, ws, ls) && i < |ws|
    requires ws[i].sender.phase == SenderDone(Completed) && AllFinalized(cfg, ws[i].receiver)
    ensures TempsDistinct(cfg.manifest)
  {
    var env := Env(true, None, _ => "");
    var start := SessionStart(cfg, ws, ls, i);
    hide FlatIds, Prefix, ItemsOk, Through, AllFinalized, Trace, PlanOf, ValidConfig, EndsOk, Ended, SessionFrom,
         TempsDistinct;
    var uuids := CompletedThrough(cfg, env, ws, ls, start, i);
    EndedNeedsDistinct(PlanFor(cfg, env, ws[start]), ws[i].receiver, uuids);
    assert PlanFor(cfg, env, ws[start]).cfg == cfg by { PlanOfCfg(cfg, env, ws[start]); }
  }

  lemma PlanOfCfg(cfg: Config, env: Env, w: World)
    requires |cfg.sources| == |cfg.manifest.files|
    ensures PlanFor(cfg, env, w).cfg == cfg && PlanFor(cfg, env, w).store == w.receiver.store
  {
  }

  lemma FinalDone(p: Plan, f: nat)
    requires PlanOk(p) && EndsOk(p) && f < |p.initial|
    ensures FinalDones(p)[f] == Done(p.cfg.manifest.files[f].path, true)
  {
    hide FlatIds, Prefix, ItemsOk, ValidConfig, CompleteAtEnd;
    assert CompleteAtEnd(p, f);
  }

  lemma FinalizedHasLanded(p: Plan, r: Receiver, uuids: nat -> string)
    requires PlanOk(p) && Ended(p, r, uuids) && AllFinalized(p.cfg, r)
    ensures Landed(FinalDones(p), FinalState(p, uuids))
  {
    hide FlatIds, Prefix, ItemsOk, ValidConfig, FinalState, FallbacksUnused, CompleteAtEnd;
  }

  lemma EndedNeedsDistinct(p: Plan, r: Receiver, uuids: nat -> string)
    requires PlanOk(p) && EndsOk(p) && Ended(p, r, uuids) && AllFinalized(p.cfg, r)
    ensures TempsDistinct(p.cfg.manifest)
  {
    FinalizedHasLanded(p, r, uuids);
    assert FallbacksUnused(p, uuids);
    hide FlatIds, Prefix, ItemsOk, ValidConfig, FinalizeUpTo, FreshFallbacks, DiskAt, TempPath, EndsOk, Ended,
         AllFinalized, Landed, FinalDones;
    var disk, ds := DiskAt(p, |p.items|), FinalDones(p);
    forall f | 0 <= f < |ds| ensures ds[f] == Done(p.cfg.manifest.files[f].path, true) && ds[f].Temp() in disk {
      FinalDone(p, f);
      TempsStay(p, |p.items|, f);
    }
    LandedNeedsDistinct(disk, ds, uuids);
    AllDistinct(p.cfg.manifest, ds);
  }

  lemma AllDistinct(m: Manifest, ds: seq<Done>)
    requires |ds| == |m.files| && DistinctTemps(ds)
    requires forall f | 0 <= f < |ds| :: ds[f] == Done(m.files[f].path, true)
    ensures TempsDistinct(m)
  {
    hide TempPath;
    forall i, j | 0 <= i < j < |ds| ensures TempPath(m.files[i].path) != TempPath(m.files[j].path) {
      assert ds[i].Temp() != ds[j].Temp();
    }
  }

  predicate AllDelivered(cfg: Config, r: Receiver)
    requires |cfg.sources| == |cfg.manifest.files|
  {
    AllFinalized(cfg, r) && forall f | 0 <= f < |cfg.sources| :: FileBytes(cfg, r, f) == cfg.sources[f]
  }

  /** Under equal cuts a session that was reported complete has delivered, every file at a path of its own with its
      source's bytes, if and only if no two file names share a stem; in every run, from any disk and record. */
  lemma DeliveredIffStemsDistinct(cfg: Config, ws: seq<World>, ls: seq<Label>, i: nat)
    requires ValidConfig(cfg) && SameCuts(cfg) && Trace(cfg, ws, ls) && i < |ws|
    requires ws[i].sender.phase == SenderDone(Completed)
    ensures AllDelivered(cfg, ws[i].receiver)
       <==> forall a, b | 0 <= a < b < |cfg.sources| ::
              cfg.manifest.files[a].path.stem != cfg.manifest.files[b].path.stem
  {
    StemsDistinctIff(cfg);
    assert |cfg.sources| == |cfg.manifest.files|;
    hide FlatIds, Prefix, AllFinalized, Trace, ValidConfig, TempsDistinct, SendSize;
    if AllDelivered(cfg, ws[i].receiver) {
      FinalizedNeedsDistinct(cfg, ws, ls, i);
    }
    if TempsDistinct(cfg.manifest) {
      var start := SessionStart(cfg, ws, ls, i);
      CompletedDelivers(cfg, ws, ls, start, i);
    }
  }

  lemma StemsDistinctIff(cfg: Config)
    requires |cfg.sources| == |cfg.manifest.files|
    ensures TempsDistinct(cfg.manifest)
       <==> forall a, b | 0 <= a < b < |cfg.sources| ::
              cfg.manifest.files[a].path.stem != cfg.manifest.files[b].path.stem
  {
    forall i, j | 0 <= i < j < |cfg.sources|
      ensures TempPath(cfg.manifest.files[i].path) != TempPath(cfg.manifest.files[j].path)
         <==> cfg.manifest.files[i].path.stem != cfg.manifest.files[j].path.stem
    {
    }
  }

  // ----- Undisturbed sessions -----

  lemma PlanIsValid(cfg: Config, env: Env, disk: Disk, store: Store)
    requires ValidConfig(cfg) && TempsDistinct(cfg.manifest) && Decide(env).AcceptTransfer?
    ensures var p := PlanOf(cfg, env, disk, store);
            && PlanOk(p) && StartsEmpty(p) && At(p, Start(cfg, disk, store), Requested)
            && (ValidPlan(p) <==> Through(p))
  {
    hide FlatIds, Prefix, Through;
    PlanOfOk(cfg, env, disk, store);
  }

  /** A session whose environment only delivers messages, run until nothing can move. */
  ghost predicate FullSession(cfg: Config, env: Env, ws: seq<World>, ls: seq<Label>)
    requires |cfg.sources| == |cfg.manifest.files|
  {
    && |ws| == |ls| + 1
    && Undisturbed(PlanFor(cfg, env, ws[0]), ws, ls, Requested)
    && !exists l :: CanMove(PlanFor(cfg, env, ws[0]), ws[|ls|], l)
  }

  /** Such a session is a run, whether or not its messages get through. */
  lemma UndisturbedIsTrace(cfg: Config, env: Env, ws: seq<World>, ls: seq<Label>)
    requires ValidConfig(cfg) && |ws| == |ls| + 1 && Undisturbed(PlanFor(cfg, env, ws[0]), ws, ls, Requested)
    ensures Trace(cfg, ws, ls) && SessionFrom(cfg, ws, ls, 0, |ls|)
  {
    var p := PlanFor(cfg, env, ws[0]);
    hide FlatIds, Prefix, ValidConfig, Next, Enabled, SkipSet, PlannedItem;
    forall i | 0 <= i < |ls| ensures StepOf(cfg, ws[i], ls[i], ws[i + 1]) && !ls[i].Reconnect? {
      assert Moves(p, ws[i], ls[i], ws[i + 1]);
    }
    forall w | w in ws ensures WorldOk(cfg, w) {
      var i :| 0 <= i < |ws| && ws[i] == w;
      if i < |ls| {
        assert StepOf(cfg, ws[i], ls[i], ws[i + 1]);
      } else if i > 0 {
        assert StepOf(cfg, ws[i - 1], ls[i - 1], ws[i]);
      }
    }
  }

  /** At every moment of an undisturbed session the receiver's bytes add up; nothing is counted twice. */
  lemma UndisturbedReceived(cfg: Config, env: Env, ws: seq<World>, ls: seq<Label>, i: nat)
    requires ValidConfig(cfg) && |ws| == |ls| + 1 && Undisturbed(PlanFor(cfg, env, ws[0]), ws, ls, Requested)
    requires i < |ws| && ws[i].receiver.phase.Receiving?
    ensures BytesAddUp(cfg, ws[i].receiver) && NoneTwice(ws[i])
  {
    hide Undisturbed, Trace, BytesAddUp, NoneTwice, ValidConfig, PlanFor, SessionFrom;
    UndisturbedIsTrace(cfg, env, ws, ls);
    ReceivedIsCompleted(cfg, ws, ls, i);
  }

  /** When a full session is reported complete: if and only if every message gets through and is taken, and the
      count comes out right. Otherwise, if all got through, the sender learns that files are incomplete. */
  lemma CompletedIff(cfg: Config, env: Env, ws: seq<World>, ls: seq<Label>)
    requires ValidConfig(cfg) && TempsDistinct(cfg.manifest) && Decide(env).AcceptTransfer?
    requires FullSession(cfg, env, ws, ls)
    ensures var p, last := PlanFor(cfg, env, ws[0]), ws[|ls|];
            && (last.sender.phase == SenderDone(Completed) <==> Through(p) && EndsOk(p))
            && (Through(p) ==> At(p, last, Over) && |ls| == 2 * Remaining(p.items, 0) + 4)
            && (Through(p) && !EndsOk(p) ==> last.sender.phase == SenderDone(Cancelled(INCOMPLETE)))
  {
    var p, last := PlanFor(cfg, env, ws[0]), ws[|ls|];
    assert |cfg.sources| == |cfg.manifest.files| && p.cfg == cfg && p.env == env && |p.initial| == |cfg.sources|;
    StartOf(p, ws, ls);
    hide FlatIds, Prefix, ValidConfig, Through, EndsOk, Ended, Remaining, TempsDistinct, Decide, AllFinalized, Trace,
         SessionFrom, Undisturbed, DeliveredFile, CanMove, PlanOf, Skip, CountedBytes;
    PlanIsValid(cfg, env, ws[0].receiver.disk, ws[0].receiver.store);
    if Through(p) {
      SessionLength(p, ws, ls, Requested);
    }
    if last.sender.phase == SenderDone(Completed) {
      UndisturbedIsTrace(cfg, env, ws, ls);
      CompletedExactly(cfg, env, ws, ls, 0, |ls|);
    }
  }

  lemma StartOf(p: Plan, ws: seq<World>, ls: seq<Label>)
    requires |p.cfg.sources| == |p.cfg.manifest.files| == |p.initial| && Undisturbed(p, ws, ls, Requested)
    ensures ws[0] == Start(p.cfg, ws[0].receiver.disk, ws[0].receiver.store)
  {
  }

  /** The end of every full session, whatever the chunk sizes and whatever is on the disk and on record at its start:
      the sender reports completion if and only if nothing was on record, the messages fit their frames, and both
      sides come to the same counts. If all messages get through, it takes two messages per unskipped chunk plus four,
      a record found is removed after completion and else left as it was, and the sender has counted at least the
      total size, exactly that if nothing was skipped, and at most one chunk size per file more. */
  lemma SessionEnd(cfg: Config, env: Env, ws: seq<World>, ls: seq<Label>)
    requires ValidConfig(cfg) && TempsDistinct(cfg.manifest) && Decide(env).AcceptTransfer?
    requires FullSession(cfg, env, ws, ls) && WellSaved(cfg.manifest, ws[0].receiver.store)
    ensures var p, m, last := PlanFor(cfg, env, ws[0]), cfg.manifest, ws[|ls|];
            && (last.sender.phase == SenderDone(Completed) <==> CanComplete(cfg, p.store))
            && (Through(p) ==>
                  && |ls| == 2 * Remaining(p.items, 0) + 4
                  && last.sender.phase
                     == SenderDone(if CanComplete(cfg, p.store) then Completed else Cancelled(INCOMPLETE))
                  && last.receiver.store == (if CanComplete(cfg, p.store) then p.store - {m.id} else p.store)
                  && m.totalSize <= last.sender.bytesSent <= m.totalSize + SizesUpTo(cfg, |m.files|)
                  && (NothingRecorded(p) ==> last.sender.bytesSent == m.totalSize))
  {
    var p, last := PlanFor(cfg, env, ws[0]), ws[|ls|];
    assert p.cfg == cfg && p.store == ws[0].receiver.store;
    PlanIsValid(cfg, env, ws[0].receiver.disk, ws[0].receiver.store);
    hide FlatIds, Prefix, SkipSet, GlobalOffset, EffectiveChunkSize, ChunkCount, ChunkOf, EndsOk, ItemsOk, Ended,
         ValidConfig, CanComplete, WellSaved, Decide, FullSession, SizesUpTo, CountedBytes, Skip, NothingRecorded,
         Remaining, TempsDistinct, Through, PlanOf;
    CompletedIff(cfg, env, ws, ls);
    CanCompleteIff(p);
    if Through(p) {
      OverRecord(p, last);
      SenderCountsTotal(p);
      if NothingRecorded(p) { NothingSkipped(p); }
    }
  }

  lemma OverRecord(p: Plan, w: World)
    requires PlanOk(p) && At(p, w, Over)
    ensures w.receiver.store == if EndsOk(p) then p.store - {p.cfg.manifest.id} else p.store
    ensures w.sender == Sender(SenderDone(if EndsOk(p) then Completed else Cancelled(INCOMPLETE)), Skip(p),
                               CountedBytes(p.items, |p.items|))
  {
    hide FlatIds, Prefix, ItemsOk, ValidConfig, EndsOk, Ended;
    RecordAfter(p, w.receiver, p.env.uuids);
  }

  /** The end of every full session without a record, with any chunk sizes: it is reported complete if and only
      if the request and every chunk fit a frame and both sides come to the same counts; if only the counts are
      short, the sender learns that files are incomplete. */
  lemma FreshSessionEnd(cfg: Config, env: Env, ws: seq<World>, ls: seq<Label>)
    requires ValidConfig(cfg) && TempsDistinct(cfg.manifest) && Decide(env).AcceptTransfer?
    requires FullSession(cfg, env, ws, ls) && Lookup(ws[0].receiver.store, cfg.manifest.id).None?
    ensures ws[|ls|].sender.phase == SenderDone(Completed)
       <==> Carried(cfg, TransferRequest(cfg.manifest)) && ChunksFit(cfg)
            && SendCounts(cfg) == ManifestCounts(cfg.manifest)
    ensures Carried(cfg, TransferRequest(cfg.manifest)) && ChunksFit(cfg) && RoomForAll(cfg)
            && SendCounts(cfg) != ManifestCounts(cfg.manifest)
            ==> ws[|ls|].sender.phase == SenderDone(Cancelled(INCOMPLETE))
  {
    var p := PlanFor(cfg, env, ws[0]);
    assert p.cfg == cfg && p.store == ws[0].receiver.store;
    PlanIsValid(cfg, env, ws[0].receiver.disk, ws[0].receiver.store);
    NothingFound(cfg, p.store);
    hide FlatIds, Prefix, EffectiveChunkSize, ChunkCount, EndsOk, ItemsOk, ValidConfig, ChunksFit, AllTaken,
         PlainSize, Decide, FullSession, SendCounts, ManifestCounts, TempsDistinct, Lookup, PlanOf, WellSaved,
         Remaining, SizesUpTo, NothingRecorded, SavedSet, RoomForAll;
    SessionEnd(cfg, env, ws, ls);
    if ChunksFit(cfg) && RoomForAll(cfg) { FittingIsTaken(p); }
  }

  /** Without a record nothing is skipped and the response is a plain acceptance, which always fits. */
  lemma NothingFound(cfg: Config, store: Store)
    requires |cfg.sources| == |cfg.manifest.files| && Lookup(store, cfg.manifest.id).None?
    ensures WellSaved(cfg.manifest, store)
    ensures forall f | 0 <= f < |cfg.sources| :: SavedSet(store, cfg.manifest.id, f) == {}
    ensures Carried(cfg, TransferResponse(ResponseTo(cfg.manifest, store)))
  {
  }

  /** A first session between parties that cut alike delivers, if its messages fit their frames: run to its end
      it is reported complete, and every file has arrived byte for byte. */
  lemma FreshSessionDelivers(cfg: Config, env: Env, ws: seq<World>, ls: seq<Label>)
    requires Setting(cfg) && Decide(env).AcceptTransfer? && FullSession(cfg, env, ws, ls)
    requires Lookup(ws[0].receiver.store, cfg.manifest.id).None?
    requires Carried(cfg, TransferRequest(cfg.manifest)) && ChunksFit(cfg)
    ensures ws[|ls|].sender.phase == SenderDone(Completed)
    ensures ws[|ls|].sender.bytesSent == cfg.manifest.totalSize
    ensures AllDelivered(cfg, ws[|ls|].receiver)
  {
    var p := PlanFor(cfg, env, ws[0]);
    assert p.cfg == cfg && p.store == ws[0].receiver.store && SameCuts(cfg);
    CountsCoincide(cfg);
    NothingFound(cfg, p.store);
    PlanIsValid(cfg, env, ws[0].receiver.disk, ws[0].receiver.store);
    CanCompleteIff(p);
    hide FlatIds, Prefix, EffectiveChunkSize, ChunkCount, ChunkOf, EndsOk, ItemsOk, Ended, ValidConfig, ChunksFit,
         PlainSize, Decide, FullSession, SendCounts, ManifestCounts, Through, TempsDistinct, At, Lookup, AllFinalized,
         Trace, Undisturbed, WellSaved, PlanOf, Remaining, SizesUpTo, SendSize, SavedSet, Carried;
    SessionEnd(cfg, env, ws, ls);
    FullIsTrace(cfg, env, ws, ls);
    CompletedDelivers(cfg, ws, ls, 0, |ls|);
  }

  lemma FullIsTrace(cfg: Config, env: Env, ws: seq<World>, ls: seq<Label>)
    requires ValidConfig(cfg) && FullSession(cfg, env, ws, ls)
    ensures Trace(cfg, ws, ls) && SessionFrom(cfg, ws, ls, 0, |ls|)
  {
    hide Undisturbed, Trace, ValidConfig, SessionFrom, CanMove;
    UndisturbedIsTrace(cfg, env, ws, ls);
  }

  /** A file above 1 GiB with a chunk size up to 2 MiB is cut into fewer chunks than the writer waits for: run to
      its end, such a session always tells the sender that files are incomplete. */
  lemma TooFewNeverVerifies(cfg: Config, env: Env, ws: seq<World>, ls: seq<Label>, f: nat)
    requires ValidConfig(cfg) && TempsDistinct(cfg.manifest) && Decide(env).AcceptTransfer?
    requires FullSession(cfg, env, ws, ls) && Lookup(ws[0].receiver.store, cfg.manifest.id).None?
    requires Carried(cfg, TransferRequest(cfg.manifest))
    requires f < |cfg.sources| && |cfg.sources[f]| > LARGE_FILE_THRESHOLD && cfg.manifest.chunkSize <= 2 * MIB
    ensures ws[|ls|].sender.phase == SenderDone(Cancelled(INCOMPLETE))
  {
    hide FlatIds, Prefix, ChunkCount, FullSession, Lookup, Decide, PlainSize;
    Geometry.LargeFileSendsTooFew(|cfg.sources[f]|, cfg.manifest.chunkSize);
    forall g | 0 <= g < |cfg.sources| ensures SendCounts(cfg)[g] <= ManifestCounts(cfg.manifest)[g] {
      Geometry.LargerChunksAreFewer(|cfg.sources[g]|, cfg.manifest.chunkSize, SendSize(cfg, g));
    }
    assert RoomForAll(cfg) && ChunksFit(cfg);
    assert SendCounts(cfg)[f] != ManifestCounts(cfg.manifest)[f];
    FreshSessionEnd(cfg, env, ws, ls);
  }

  /** The session as it would run with writers restored to the record, from the moment they are open: if the
      record is sound, it is reported complete, every file is its source, and the record is gone. */
  lemma RestoredSessionCompletes(p: Plan, ws: seq<World>, ls: seq<Label>)
    requires ValidPlan(p) && SameCuts(p.cfg) && SavedSound(p.cfg, p.disk, p.store)
    requires forall f | 0 <= f < |p.initial| :: p.initial[f] == SavedSet(p.store, p.cfg.manifest.id, f)
    requires Undisturbed(p, ws, ls, Responded) && !exists l :: CanMove(p, ws[|ls|], l)
    ensures ws[|ls|].sender.phase == SenderDone(Completed)
    ensures ws[|ls|].receiver.store == p.store - {p.cfg.manifest.id}
    ensures AllDelivered(p.cfg, ws[|ls|].receiver)
  {
    RestoringAlwaysVerifies(p);
    SessionLength(p, ws, ls, Responded);
    hide FlatIds, Prefix, ItemsOk, EndsOk, Ended, ValidConfig, Through, Undisturbed, CanMove, SavedSound, SameCuts,
         DeliveredFile, AllFinalized;
    var last := ws[|ls|];
    OverRecord(p, last);
    EndedOkIsFinalized(p, last.receiver, p.env.uuids);
    forall f | 0 <= f < |p.cfg.sources| ensures DeliveredFile(p, |p.items|, f) == p.cfg.sources[f] {
      RecordedAndSentIsSource(p, f);
    }
  }
}
