/** Sessions that exist: any plan whose messages get through can be run to its end. With it, exactly which
    files arrive on their own, and which are reported complete although they did not. */
module SingleFile {
  import opened Types
  import opened ChunkIndex
  import opened Storage
  import opened Resume
  import opened Protocol
  import opened Session
  import opened SessionPlan
  import opened QuietRun
  import opened Flow
  import opened Liveness
  import opened Mismatch
  import opened EndToEnd
  import Geometry

  // ----- Running a plan -----

  /** Only the completion message starts the finalize loop, and then nothing is missing. */
  lemma AtNamesFree(p: Plan, w: World, stage: Stage)
    requires ValidPlan(p) && At(p, w, stage) && FallbacksUnused(p, p.env.uuids)
    ensures NamesFree(p.env, w)
  {
    hide FlatIds, Prefix, ItemsOk, ValidConfig, Through, FreshFallbacks, FinalDones, Summaries;
    if stage == CompleteOut {
      SummariesAtEnd(p, w.receiver);
    }
  }

  /** Every stage of a valid plan leads to the end. */
  lemma {:induction false} RunQuietly(p: Plan, w: World, stage: Stage) returns (ws: seq<World>, ls: seq<Label>)
    requires ValidPlan(p) && At(p, w, stage) && FallbacksUnused(p, p.env.uuids)
    ensures |ws| == |ls| + 1 && ws[0] == w
    ensures Undisturbed(p, ws, ls, stage) && At(p, ws[|ls|], Over)
    decreases Left(p.items, stage)
  {
    hide FlatIds, Prefix, ItemsOk, ValidConfig, Through, At, Next, FallbacksUnused, NamesFree, Enabled, Left;
    AtNamesFree(p, w, stage);
    if stage == Over {
      ws, ls := [w], [];
    } else {
      var next := QuietStep(p, w, stage);
      var w2 := Next(p.cfg, w, Due(p, w));
      var rest, tail := RunQuietly(p, w2, next);
      ws, ls := [w] + rest, [Due(p, w)] + tail;
      Prepended(p, w, stage, rest, tail, next);
    }
  }

  lemma Prepended(p: Plan, w: World, stage: Stage, rest: seq<World>, tail: seq<Label>, next: Stage)
    requires |p.cfg.sources| == |p.cfg.manifest.files| == |p.initial|
    requires At(p, w, stage) && NamesFree(p.env, w) && Undisturbed(p, rest, tail, next)
    requires Moves(p, w, Due(p, w), rest[0])
    ensures Undisturbed(p, [w] + rest, [Due(p, w)] + tail, stage)
  {
    hide At, NamesFree, Moves, Due;
    var ws, ls := [w] + rest, [Due(p, w)] + tail;
    forall i | 0 <= i < |ls| ensures Moves(p, ws[i], ls[i], ws[i + 1]) {
      if i > 0 {
        assert Moves(p, rest[i - 1], tail[i - 1], rest[i]);
      }
    }
  }

  /** A session in which every message gets through can be run from any disk and record. */
  lemma FullSessionExists(cfg: Config, env: Env, disk: Disk, store: Store) returns (ws: seq<World>, ls: seq<Label>)
    requires ValidConfig(cfg) && TempsDistinct(cfg.manifest) && Decide(env).AcceptTransfer?
    requires Through(PlanOf(cfg, env, disk, store))
    requires PlanOk(PlanOf(cfg, env, disk, store)) && FallbacksUnused(PlanOf(cfg, env, disk, store), env.uuids)
    ensures FullSession(cfg, env, ws, ls) && ws[0] == Start(cfg, disk, store)
  {
    var p := PlanOf(cfg, env, disk, store);
    PlanIsValid(cfg, env, disk, store);
    hide FlatIds, Prefix, ItemsOk, ValidConfig, Through, At, FallbacksUnused, TempsDistinct, PlanOf, Undisturbed,
         CanMove;
    ws, ls := RunQuietly(p, Start(cfg, disk, store), Requested);
    forall l ensures !CanMove(p, ws[|ls|], l) { OverIsFinal(p, ws[|ls|], l); }
  }

  // ----- One file -----

  function OneFile(to: Path, src: Bytes, cs: ChunkSize, requestSize: nat): Config {
    Config(Manifest(1, [FileEntry(0, to, |src|)], |src|, cs), [src], requestSize)
  }

  predicate SizesFit(size: nat, requestSize: nat) {
    size + 1 < U64_LIMIT && requestSize + TAG_LENGTH <= MAX_MESSAGE_SIZE
  }

  lemma OneFileOk(to: Path, src: Bytes, cs: ChunkSize, requestSize: nat)
    requires SizesFit(|src|, requestSize)
    ensures var cfg := OneFile(to, src, cs, requestSize);
            && ValidConfig(cfg) && TempsDistinct(cfg.manifest) && Carried(cfg, TransferRequest(cfg.manifest))
            && SendSize(cfg, 0) == EffectiveChunkSize(|src|, cs)
            && (ChunksFit(cfg) <==> Min(|src|, EffectiveChunkSize(|src|, cs)) <= MAX_CHUNK_DATA)
            && (SendCounts(cfg) == ManifestCounts(cfg.manifest)
                <==> CountsAgree(|src|, EffectiveChunkSize(|src|, cs), cs))
            && Resized(cfg, map[], 0) == Zeros(|src|)
  {
    var cfg := OneFile(to, src, cs, requestSize);
    assert SizeSum(cfg.manifest, 0) == 0;
    assert SizeSum(cfg.manifest, 1) == |src|;
    hide EffectiveChunkSize, ChunkCount;
    assert SendCounts(cfg)[0] == ChunkCount(|src|, EffectiveChunkSize(|src|, cs));
    assert ManifestCounts(cfg.manifest)[0] == ChunkCount(|src|, cs);
    assert [] + Zeros(|src|) == Zeros(|src|);
    assert Zeros(|src|)[..|src|] == Zeros(|src|);
  }

  lemma {:induction false} DiskKeys(p: Plan, k: nat)
    requires k <= |p.items|
    ensures DiskAt(p, k).Keys == DiskAt(p, 0).Keys
  {
    if k > 0 {
      DiskKeys(p, k - 1);
    }
  }

  /** On an empty disk the only name in use is that of the temporary file. */
  lemma OneFileFallback(to: Path, src: Bytes, cs: ChunkSize, requestSize: nat, env: Env)
    ensures var p := PlanOf(OneFile(to, src, cs, requestSize), env, map[], map[]);
            FallbacksUnused(p, env.uuids)
  {
    var p := PlanOf(OneFile(to, src, cs, requestSize), env, map[], map[]);
    DiskKeys(p, |p.items|);
    var m := p.cfg.manifest;
    assert OpenAll(map[], m, 0) == map[];
    assert DiskAt(p, 0) == OpenTemp(map[], to, |src|);
    assert DiskAt(p, 0).Keys == {TempPath(to)};
    forall i | 0 <= i < 1 ensures Fallback(to, env.uuids(i)) !in DiskAt(p, |p.items|) {
      assert |Fallback(to, env.uuids(i)).stem| > |to.stem|;
    }
  }

  /** A full session with this one file, from an empty disk without a record, completes and leaves these
      bytes. */
  ghost predicate LeavesBytes(cfg: Config, env: Env, bytes: Bytes)
    requires |cfg.sources| == |cfg.manifest.files| == 1
  {
    exists ws: seq<World>, ls: seq<Label> :: FullSession(cfg, env, ws, ls) && CompletesWith(cfg, ws, ls, bytes)
  }

  ghost predicate CompletesWith(cfg: Config, ws: seq<World>, ls: seq<Label>, bytes: Bytes)
    requires |cfg.sources| == |cfg.manifest.files| == 1 && |ws| == |ls| + 1
  {
    && ws[0] == Start(cfg, map[], map[])
    && ws[|ls|].sender.phase == SenderDone(Completed)
    && AllFinalized(cfg, ws[|ls|].receiver) && FileBytes(cfg, ws[|ls|].receiver, 0) == bytes
  }

  /** A single file can be reported complete exactly when its chunks fit and the counts agree, and then holds what
      writing the sender's chunks at the writer's offsets gives. */
  lemma OneFileLeaves(to: Path, src: Bytes, cs: ChunkSize, requestSize: nat, env: Env, bytes: Bytes)
    requires SizesFit(|src|, requestSize) && Decide(env).AcceptTransfer?
    ensures var eff := EffectiveChunkSize(|src|, cs);
            LeavesBytes(OneFile(to, src, cs, requestSize), env, bytes)
            <==> Min(|src|, eff) <= MAX_CHUNK_DATA && CountsAgree(|src|, eff, cs)
                 && bytes == Rebuilt(Zeros(|src|), src, eff, cs)
  {
    var cfg, eff := OneFile(to, src, cs, requestSize), EffectiveChunkSize(|src|, cs);
    assert cfg.sources[0] == src && cfg.manifest.chunkSize == cs && |cfg.sources| == |cfg.manifest.files| == 1;
    OneFileOk(to, src, cs, requestSize);
    if Min(|src|, eff) <= MAX_CHUNK_DATA && CountsAgree(|src|, eff, cs) {
      var ws, ls := OneFileRuns(to, src, cs, requestSize, env);
      hide OneFile, FullSession, ChunkCount, EffectiveChunkSize, Rebuilt, ValidConfig, Trace, SessionFrom,
           AllFinalized, FileBytes, ChunksFit, Carried, SendSize, Resized, WellSaved;
      FullIsTrace(cfg, env, ws, ls);
      NothingFound(cfg, map[]);
      CompletedOnlyIf(cfg, ws, ls, 0, |ls|);
      CompletedContents(cfg, ws, ls, 0, |ls|);
      assert CompletesWith(cfg, ws, ls, Rebuilt(Zeros(|src|), src, eff, cs));
    }
    if LeavesBytes(cfg, env, bytes) {
      var ws, ls :| FullSession(cfg, env, ws, ls) && CompletesWith(cfg, ws, ls, bytes);
      hide OneFile, FullSession, ChunkCount, EffectiveChunkSize, Rebuilt, ValidConfig, Trace, SessionFrom,
           AllFinalized, FileBytes, ChunksFit, Carried, SendSize, Resized, WellSaved;
      FullIsTrace(cfg, env, ws, ls);
      NothingFound(cfg, map[]);
      CompletedOnlyIf(cfg, ws, ls, 0, |ls|);
      CompletedContents(cfg, ws, ls, 0, |ls|);
    }
  }

  lemma OneFileRuns(to: Path, src: Bytes, cs: ChunkSize, requestSize: nat, env: Env)
    returns (ws: seq<World>, ls: seq<Label>)
    requires SizesFit(|src|, requestSize) && Decide(env).AcceptTransfer?
    requires Min(|src|, EffectiveChunkSize(|src|, cs)) <= MAX_CHUNK_DATA
    requires CountsAgree(|src|, EffectiveChunkSize(|src|, cs), cs)
    ensures var cfg := OneFile(to, src, cs, requestSize);
            && FullSession(cfg, env, ws, ls) && ws[0] == Start(cfg, map[], map[])
            && ws[|ls|].sender.phase == SenderDone(Completed)
  {
    var cfg := OneFile(to, src, cs, requestSize);
    var p := PlanOf(cfg, env, map[], map[]);
    assert p.cfg == cfg && p.store == map[];
    OneFileOk(to, src, cs, requestSize);
    OneFileFallback(to, src, cs, requestSize, env);
    PlanIsValid(cfg, env, map[], map[]);
    NothingFound(cfg, map[]);
    hide FlatIds, Prefix, ItemsOk, ValidConfig, FallbacksUnused, OneFile, ChunkCount, EffectiveChunkSize, SendCounts,
         ManifestCounts, ChunksFit, At, PlanOf, FullSession, Through, EndsOk, WellSaved;
    CanCompleteIff(p);
    ws, ls := FullSessionExists(cfg, env, map[], map[]);
    FreshSessionEnd(cfg, env, ws, ls);
  }

  /** Exactly when a fresh file of a given size arrives for every content: when it is at most 1 GiB or the chunk
      size is 4 MiB, so that both sides cut alike, and its chunks fit a frame. */
  lemma FreshFileArrivesIff(to: Path, size: nat, cs: ChunkSize, requestSize: nat, env: Env)
    requires SizesFit(size, requestSize) && Decide(env).AcceptTransfer?
    ensures (forall src: Bytes | |src| == size :: LeavesBytes(OneFile(to, src, cs, requestSize), env, src))
       <==> (size <= LARGE_FILE_THRESHOLD || cs == SCALED_CHUNK_CAP)
            && Min(size, EffectiveChunkSize(size, cs)) <= MAX_CHUNK_DATA
  {
    var eff := EffectiveChunkSize(size, cs);
    Geometry.ChunkSizesCoincide(size, cs);
    DeliveredIff(size, cs);
    forall src: Bytes | |src| == size
      ensures LeavesBytes(OneFile(to, src, cs, requestSize), env, src)
         <==> Min(size, eff) <= MAX_CHUNK_DATA && Delivered(Zeros(size), src, eff, cs)
    {
      OneFileLeaves(to, src, cs, requestSize, env, src);
    }
    hide LeavesBytes, Delivered, EffectiveChunkSize, OneFile;
    assert |Zeros(size)| == size;
  }

  /** Wherever the cuts differ and the counts agree, some content is reported complete although the file that
      was finalized is another. */
  lemma MismatchIsReportedComplete(to: Path, size: nat, cs: ChunkSize, requestSize: nat, env: Env)
    returns (src: Bytes, bytes: Bytes)
    requires SizesFit(size, requestSize) && Decide(env).AcceptTransfer?
    requires EffectiveChunkSize(size, cs) != cs && CountsAgree(size, EffectiveChunkSize(size, cs), cs)
    ensures |src| == size && bytes != src && LeavesBytes(OneFile(to, src, cs, requestSize), env, bytes)
  {
    var eff := EffectiveChunkSize(size, cs);
    src := DifferentCutsCorrupt(size, eff, cs);
    bytes := Rebuilt(Zeros(size), src, eff, cs);
    OneFileLeaves(to, src, cs, requestSize, env, bytes);
  }

  /** Such files exist: one byte over 1 GiB, with a chunk size of one byte under 4 MiB. */
  lemma UnnoticedCorruption(to: Path, requestSize: nat, env: Env) returns (src: Bytes, bytes: Bytes)
    requires SizesFit(0, requestSize) && Decide(env).AcceptTransfer?
    ensures |src| == GIB + 1 && bytes != src
    ensures LeavesBytes(OneFile(to, src, 4 * MIB - 1, requestSize), env, bytes)
  {
    var size, cs := CountsCanAgree();
    src, bytes := MismatchIsReportedComplete(to, size, cs, requestSize, env);
  }

  /** Settings with more than one file, several chunks and an empty file among them exist. */
  lemma SettingsExist() returns (cfg: Config, env: Env)
    ensures Setting(cfg) && Decide(env).AcceptTransfer? && SendCounts(cfg) == [3, 1]
    ensures ValidPlan(PlanOf(cfg, env, map[], map[]))
  {
    var m := Manifest(1, [FileEntry(0, Path("a", "bin"), 5), FileEntry(1, Path("b", ""), 0)], 5, 2);
    cfg := Config(m, [[1, 2, 3, 4, 5], []], 100);
    env := Env(true, None, _ => "uuid");
    assert SizeSum(m, 0) == 0 && SizeSum(m, 1) == 5 && SizeSum(m, 2) == 5;
    assert ValidConfig(cfg);
    SettingIff(cfg);
    PlanIsValid(cfg, env, map[], map[]);
    NothingFound(cfg, map[]);
    CountsCoincide(cfg);
    CanCompleteIff(PlanOf(cfg, env, map[], map[]));
  }
}
