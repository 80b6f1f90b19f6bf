/** The uninterrupted session, exactly: which message is under way at each moment, how many there are,
    what the receiver has completed and written, how many bytes each side has counted, and how it ends. */
module QuietRun {
  import opened Types
  import opened ChunkIndex
  import opened Storage
  import opened Protocol
  import opened Session
  import opened SessionPlan

  /** Both parties are willing, every message gets through, and no two files share a temporary file. */
  predicate ValidPlan(p: Plan) {
    PlanOk(p) && TempsDistinct(p.cfg.manifest) && Decide(p.env).AcceptTransfer? && Through(p)
  }

  // ----- Where a session stands -----

  datatype Stage =
    | Requested
    | Responded
    | ChunkOut(k: nat)
    | AckOut(k: nat)
    | CompleteOut
    | VerifiedOut
    | Over

  /** Messages still to be delivered. */
  function Left(items: seq<Item>, stage: Stage): nat {
    match stage
    case Requested => 2 * Remaining(items, 0) + 4
    case Responded => 2 * Remaining(items, 0) + 3
    case ChunkOut(k) => if k < |items| then 2 * Remaining(items, k) + 2 else 0
    case AckOut(k) => if k < |items| then 2 * Remaining(items, k + 1) + 3 else 0
    case CompleteOut => 2
    case VerifiedOut => 1
    case Over => 0
  }

  ghost predicate At(p: Plan, w: World, stage: Stage)
    requires |p.cfg.manifest.files| == |p.initial|
  {
    var items, n := p.items, |p.items|;
    match stage
    case Requested =>
      && w == Start(p.cfg, p.disk, p.store)
      && StartsEmpty(p) && p.bytesBefore == RecordedBytes(p.store, p.cfg.manifest.id)
    case Responded =>
      && w.sender == INITIAL_SENDER && w.toReceiver == []
      && w.toSender == [Msg(TransferResponse(OfferedResponse(p)))]
      && TakenIn(p, w.receiver, 0)
    case ChunkOut(k) =>
      && k < n && Waiting(p, w.sender, k)
      && w.toReceiver == [Msg(ChunkData(items[k].id, items[k].data))] && w.toSender == []
      && TakenIn(p, w.receiver, k)
    case AckOut(k) =>
      && k < n && Waiting(p, w.sender, k)
      && w.toReceiver == [] && w.toSender == [Msg(ChunkAck(items[k].id, Sha256(items[k].data)))]
      && TakenIn(p, w.receiver, k + 1)
    case CompleteOut =>
      && w.sender == Sender(AwaitVerified, Skip(p), CountedBytes(items, n))
      && w.toReceiver == [Msg(TransferComplete(Sha256(p.cfg.manifest)))] && w.toSender == []
      && TakenIn(p, w.receiver, n)
    case VerifiedOut =>
      && w.sender == Sender(AwaitVerified, Skip(p), CountedBytes(items, n))
      && w.toReceiver == [] && w.toSender == [Msg(TransferVerified(EndsOk(p))), Closed]
      && Ended(p, w.receiver, p.env.uuids)
    case Over =>
      && w.sender == Sender(SenderDone(if EndsOk(p) then Completed else Cancelled(INCOMPLETE)),
                            Skip(p), CountedBytes(items, n))
      && w.toReceiver == [Closed] && w.toSender == [Closed]
      && Ended(p, w.receiver, p.env.uuids)
  }

  // ----- One step -----

  lemma PassesSkipped(p: Plan, r: Receiver, k: nat, j: nat)
    requires PlanOk(p) && k <= j <= |p.items| && SameCounts(p, k, j) && TakenIn(p, r, k)
    ensures TakenIn(p, r, j) && Remaining(p.items, j) == Remaining(p.items, k)
  {
    hide FlatIds, Prefix, ItemsOk, ValidConfig, SkipSet, WritersAt, DoneIds, DiskAt, SentBytes, AllTaken;
  }

  lemma SenderMoves(cfg: Config, w: World, x: SenderReaction)
    requires |cfg.sources| == |cfg.manifest.files| && WorldOk(cfg, w) && Enabled(cfg, w, SenderReceives)
    requires SenderReact(cfg, w.sender, Heard(cfg, w.toSender[0])) == x
    ensures Next(cfg, w, SenderReceives)
         == World(x.sender, w.toReceiver + Sent(x.out, x.sender.phase.SenderDone?), w.toSender[1..], w.receiver)
  {
    hide SenderReact, Heard;
  }

  lemma ReceiverMoves(cfg: Config, env: Env, w: World, x: ReceiverReaction)
    requires |cfg.sources| == |cfg.manifest.files| && WorldOk(cfg, w) && Enabled(cfg, w, ReceiverReceives(env))
    requires ReceiverReact(env, w.receiver, Heard(cfg, w.toReceiver[0])) == x
    ensures Next(cfg, w, ReceiverReceives(env))
         == World(w.sender, w.toReceiver[1..], w.toSender + Sent(x.out, x.receiver.phase.ReceiverDone?), x.receiver)
  {
    hide ReceiverReact, Heard;
  }

  /** The sender goes on from `k`; the receiver has taken in all before. */
  lemma SenderGoesOn(p: Plan, w: World, k: nat) returns (next: Stage)
    requires ValidPlan(p) && WorldOk(p.cfg, w) && k <= |p.items|
    requires w.toReceiver == [] && |w.toSender| == 1 && !w.sender.phase.SenderDone?
    requires TakenIn(p, w.receiver, k)
    requires SenderReact(p.cfg, w.sender, Heard(p.cfg, w.toSender[0]))
          == Advance(p.cfg, Skip(p), k, CountedBytes(p.items, k))
    ensures At(p, Next(p.cfg, w, SenderReceives), next)
    ensures Left(p.items, next) == 2 * Remaining(p.items, k) + 2
  {
    hide FlatIds, Prefix, ItemsOk, ValidConfig, Through, Advance, SkipSet, SenderReact, TakenIn, SameCounts, Heard,
         CountedBytes, Decide, TempsDistinct, ReceiverOk, Skip, Next, At, Left;
    var j := AdvanceExactly(p, k);
    PassesSkipped(p, w.receiver, k, j);
    SenderMoves(p.cfg, w, Emission(p, j));
    next := SentNext(p, w, Next(p.cfg, w, SenderReceives), j);
  }

  lemma SentNext(p: Plan, w: World, w2: World, j: nat) returns (next: Stage)
    requires ValidPlan(p) && j <= |p.items| && (j < |p.items| ==> !p.items[j].skipped)
    requires w.toReceiver == [] && |w.toSender| == 1 && TakenIn(p, w.receiver, j)
    requires w2 == World(Emission(p, j).sender, w.toReceiver + Sent(Emission(p, j).out, false), w.toSender[1..],
                         w.receiver)
    ensures At(p, w2, next) && Left(p.items, next) == 2 * Remaining(p.items, j) + 2
  {
    hide FlatIds, Prefix, ItemsOk, ValidPlan, Advance, SkipSet, TakenIn, CountedBytes, Skip;
    assert w2.toReceiver == [Msg(NextOut(p, j))] && w2.toSender == [];
    next := if j < |p.items| then ChunkOut(j) else CompleteOut;
  }

  lemma FromResponded(p: Plan, w: World) returns (next: Stage)
    requires ValidPlan(p) && At(p, w, Responded) && WorldOk(p.cfg, w)
    ensures At(p, Next(p.cfg, w, SenderReceives), next) && Left(p.items, next) == Left(p.items, Responded) - 1
  {
    hide FlatIds, Prefix, ItemsOk, ValidConfig, Advance, AnnouncedSet, PlainSize, TakenIn, AllTaken, OfferedResponse;
    OnOffer(p);
    next := SenderGoesOn(p, w, 0);
  }

  lemma AckIsHeard(cfg: Config, id: ChunkId, digest: Digest<Bytes>)
    ensures Heard(cfg, Msg(ChunkAck(id, digest))) == Msg(ChunkAck(id, digest))
  {
    hide Utf8Length;
  }

  lemma FromAckOut(p: Plan, w: World, k: nat) returns (next: Stage)
    requires ValidPlan(p) && At(p, w, AckOut(k)) && WorldOk(p.cfg, w)
    ensures At(p, Next(p.cfg, w, SenderReceives), next) && Left(p.items, next) == Left(p.items, AckOut(k)) - 1
  {
    hide FlatIds, Prefix, ItemsOk, ValidConfig, Advance, SkipSet, TakenIn, Through, SenderReact, Heard, PlainSize,
         Next, Decide, TempsDistinct, CountedBytes, Skip, ReceiverOk;
    var digest := Sha256(p.items[k].data);
    AckIsHeard(p.cfg, p.items[k].id, digest);
    OnAck(p, w.sender, k, Msg(ChunkAck(p.items[k].id, digest)));
    assert !w.sender.phase.SenderDone?;
    hide Waiting, ValidPlan;
    next := SenderGoesOn(p, w, k + 1);
  }

  lemma AtIsOk(p: Plan, w: World, stage: Stage)
    requires ValidPlan(p) && At(p, w, stage)
    ensures WorldOk(p.cfg, w)
  {
  }

  lemma FromRequested(p: Plan, w: World)
    requires ValidPlan(p) && At(p, w, Requested) && WorldOk(p.cfg, w)
    requires Enabled(p.cfg, w, ReceiverReceives(p.env))
    ensures At(p, Next(p.cfg, w, ReceiverReceives(p.env)), Responded)
  {
    hide FlatIds, Prefix, ItemsOk, ValidConfig, TakenIn, AllTaken, OnRequest, PlainSize, OfferedResponse, Decide;
    Opens(p, p.env, w.receiver);
    var x := ReceiverReact(p.env, w.receiver, w.toReceiver[0]);
    assert Heard(p.cfg, w.toReceiver[0]) == w.toReceiver[0];
    assert Sent(x.out, false) == [Msg(TransferResponse(OfferedResponse(p)))];
    assert TakenIn(p, x.receiver, 0) ==> x.receiver.phase.Receiving? by { StillReceiving(p, x.receiver, 0); }
  }

  lemma StillReceiving(p: Plan, r: Receiver, k: nat)
    requires |p.cfg.manifest.files| == |p.initial| && k <= |p.items|
    ensures TakenIn(p, r, k) ==> r.phase.Receiving? && r.phase.manifest == p.cfg.manifest && ReceiverOk(r)
  {
  }

  lemma FromChunkOut(p: Plan, w: World, k: nat)
    requires ValidPlan(p) && At(p, w, ChunkOut(k)) && WorldOk(p.cfg, w)
    requires Enabled(p.cfg, w, ReceiverReceives(p.env))
    ensures At(p, Next(p.cfg, w, ReceiverReceives(p.env)), AckOut(k))
    ensures Left(p.items, AckOut(k)) == Left(p.items, ChunkOut(k)) - 1
  {
    var item, r := p.items[k], w.receiver;
    assert Taken(p, item) && r.phase.Receiving? && ReceiverOk(r);
    assert Heard(p.cfg, w.toReceiver[0]) == Msg(ChunkData(item.id, item.data));
    hide ReceiverReact, Heard, ReceiverOk, FlatIds, Prefix, ItemsOk, ValidConfig, Through, TempsDistinct, TakenIn,
         OnChunk, Taken, Skip, CountedBytes, Decide, Next, SenderOk, WorldOk;
    TakesChunk(p, r, k);
    ReactsToChunk(p.env, r, item.id, item.data);
    var x := OnChunk(r, item.id, item.data);
    StillReceiving(p, x.receiver, k + 1);
    ReceiverMoves(p.cfg, p.env, w, x);
    hide Enabled, ValidPlan;
    AckSent(p, w, Next(p.cfg, w, ReceiverReceives(p.env)), k, x.receiver);
  }

  lemma AckSent(p: Plan, w: World, w2: World, k: nat, r: Receiver)
    requires PlanOk(p) && At(p, w, ChunkOut(k)) && TakenIn(p, r, k + 1)
    requires w2 == World(w.sender, w.toReceiver[1..],
                         w.toSender + Sent([ChunkAck(p.items[k].id, Sha256(p.items[k].data))], false), r)
    ensures At(p, w2, AckOut(k))
    ensures Left(p.items, AckOut(k)) == Left(p.items, ChunkOut(k)) - 1
  {
    hide FlatIds, Prefix, ItemsOk, ValidConfig, TakenIn, Skip, CountedBytes;
    assert w2.toSender == [Msg(ChunkAck(p.items[k].id, Sha256(p.items[k].data)))];
  }

  lemma ReactsToComplete(env: Env, r: Receiver, h: Digest<Manifest>)
    requires r.phase.Receiving? && ReceiverOk(r)
    ensures ReceiverReact(env, r, Msg(TransferComplete(h))) == OnComplete(env, r)
  {
    hide OnComplete;
  }

  lemma ReactsToChunk(env: Env, r: Receiver, id: ChunkId, data: Bytes)
    requires r.phase.Receiving? && ReceiverOk(r)
    ensures ReceiverReact(env, r, Msg(ChunkData(id, data))) == OnChunk(r, id, data)
  {
    hide OnChunk;
  }

  lemma QuietEnd(p: Plan, r: Receiver)
    requires ValidPlan(p) && TakenIn(p, r, |p.items|) && FallbacksFresh(p.env, r)
    ensures var x := OnComplete(p.env, r);
            Ended(p, x.receiver, p.env.uuids) && x.out == [TransferVerified(EndsOk(p))]
  {
    SummariesAtEnd(p, r);
    assert FallbacksUnused(p, p.env.uuids);
    hide FlatIds, Prefix, ItemsOk, ValidConfig, Through, OnComplete, EndsOk, FallbacksUnused, FinalState,
         TempsDistinct, Summaries, FinalDones, WritersAt, DiskAt, FreshFallbacks;
    FinishesOrFails(p, p.env, r);
    FinalizingSucceeds(p, p.env.uuids);
  }

  lemma FromCompleteOut(p: Plan, w: World)
    requires ValidPlan(p) && At(p, w, CompleteOut) && WorldOk(p.cfg, w)
    requires Enabled(p.cfg, w, ReceiverReceives(p.env))
    ensures At(p, Next(p.cfg, w, ReceiverReceives(p.env)), VerifiedOut)
  {
    var r, digest := w.receiver, Sha256(p.cfg.manifest);
    assert FallbacksFresh(p.env, r) && r.phase.Receiving? && ReceiverOk(r);
    assert Heard(p.cfg, w.toReceiver[0]) == Msg(TransferComplete(digest));
    hide ReceiverReact, Heard, ReceiverOk, FlatIds, Prefix, ItemsOk, ValidConfig, Through, TempsDistinct, TakenIn,
         OnComplete, EndsOk, Ended, Skip, CountedBytes, Decide, FallbacksFresh, Next, SenderOk;
    QuietEnd(p, r);
    ReactsToComplete(p.env, r, digest);
    var x := OnComplete(p.env, r);
    ReceiverMoves(p.cfg, p.env, w, x);
    EndedIsDone(p, x.receiver, p.env.uuids);
    hide Enabled, WorldOk, ValidPlan;
    VerdictSent(p, w, Next(p.cfg, w, ReceiverReceives(p.env)), x.receiver);
  }

  lemma VerdictSent(p: Plan, w: World, w2: World, r: Receiver)
    requires PlanOk(p) && Ended(p, r, p.env.uuids) && At(p, w, CompleteOut)
    requires w2 == World(w.sender, w.toReceiver[1..], w.toSender + Sent([TransferVerified(EndsOk(p))], true), r)
    ensures At(p, w2, VerifiedOut)
  {
    hide TakenIn, EndsOk, Ended, Skip, CountedBytes;
    assert Sent([TransferVerified(EndsOk(p))], true) == [Msg(TransferVerified(EndsOk(p))), Closed];
  }

  lemma EndedIsDone(p: Plan, r: Receiver, uuids: nat -> string)
    requires PlanOk(p) && Ended(p, r, uuids)
    ensures r.phase.ReceiverDone? && r.phase.result.Finished?
  {
  }

  lemma FromVerifiedOut(p: Plan, w: World)
    requires ValidPlan(p) && At(p, w, VerifiedOut) && WorldOk(p.cfg, w)
    requires Enabled(p.cfg, w, SenderReceives)
    ensures At(p, Next(p.cfg, w, SenderReceives), Over)
  {
    hide FlatIds, Prefix, SkipSet, ItemsOk, ValidConfig, EndsOk, Through, Ended, Utf8Length, PlainSize, Carried,
         Heard, Skip, CountedBytes, Decide, TempsDistinct, ReceiverOk, Next, SenderReact;
    VerdictIsHeard(p.cfg, EndsOk(p));
    var x := ReactsToVerdict(p.cfg, w.sender, EndsOk(p));
    SenderMoves(p.cfg, w, x);
    hide Enabled, WorldOk, SenderOk;
    SessionCloses(p, w, Next(p.cfg, w, SenderReceives));
  }

  lemma SessionCloses(p: Plan, w: World, w2: World)
    requires PlanOk(p) && At(p, w, VerifiedOut)
    requires w2 == World(w.sender.(phase := SenderDone(if EndsOk(p) then Completed else Cancelled(INCOMPLETE))),
                         w.toReceiver + Sent([], true), w.toSender[1..], w.receiver)
    ensures At(p, w2, Over)
  {
    hide FlatIds, Prefix, ItemsOk, ValidConfig, EndsOk, Ended, Skip, CountedBytes, Utf8Length;
    assert Sent([], true) == [Closed];
  }

  lemma ReactsToVerdict(cfg: Config, s: Sender, ok: bool) returns (x: SenderReaction)
    requires |cfg.sources| == |cfg.manifest.files| && SenderOk(cfg, s) && s.phase.AwaitVerified?
    ensures x == Stop(s, if ok then Completed else Cancelled(INCOMPLETE))
    ensures SenderReact(cfg, s, Msg(TransferVerified(ok))) == x
  {
    hide FlatIds, Prefix, Advance;
    x := SenderReact(cfg, s, Msg(TransferVerified(ok)));
  }

  lemma VerdictIsHeard(cfg: Config, ok: bool)
    ensures Heard(cfg, Msg(TransferVerified(ok))) == Msg(TransferVerified(ok))
  {
    hide Utf8Length;
    assert |INCOMPLETE| == 21;
  }

  function Flight(channel: seq<Incoming>): nat {
    if channel == [] then 0
    else (if channel[0].Msg? then 1 else 0) + Flight(channel[1..])
  }

  /** Random names for fallback are unused at the moment the finalize loop starts. */
  ghost predicate NamesFree(env: Env, w: World) {
    w.toReceiver != [] && Finishes(w.toReceiver[0]) ==> FallbacksFresh(env, w.receiver)
  }

  /** Both channels and who can move, by stage. */
  lemma Traffic(p: Plan, w: World, stage: Stage)
    requires ValidPlan(p) && At(p, w, stage) && stage != Over && NamesFree(p.env, w)
    ensures WorldOk(p.cfg, w)
    ensures Flight(w.toReceiver) + Flight(w.toSender) == 1
    ensures Enabled(p.cfg, w, SenderReceives) <==> stage.Responded? || stage.AckOut? || stage.VerifiedOut?
    ensures Enabled(p.cfg, w, ReceiverReceives(p.env)) <==> !Enabled(p.cfg, w, SenderReceives)
  {
    hide FlatIds, Prefix, SkipSet, ItemsOk, ValidConfig, EndsOk, FreshFallbacks, Next, Through;
    AtIsOk(p, w, stage);
    assert stage.VerifiedOut? ==> w.toSender[1..] == [Closed] && Flight([Closed]) == 0;
    assert |w.toReceiver| == 1 ==> w.toReceiver[1..] == [];
    assert |w.toSender| == 1 ==> w.toSender[1..] == [];
  }

  /** The only step of an uninterrupted session that is enabled: the sender if a message waits for it,
      else the receiver. */
  function Due(p: Plan, w: World): Label {
    if w.toSender != [] && !w.sender.phase.SenderDone? then SenderReceives else ReceiverReceives(p.env)
  }

  /** In every stage but the last exactly one message is under way, exactly one of the two parties can
      move, and its move leads to a stage with one message less to go. */
  lemma QuietStep(p: Plan, w: World, stage: Stage) returns (next: Stage)
    requires ValidPlan(p) && At(p, w, stage) && stage != Over && NamesFree(p.env, w)
    ensures WorldOk(p.cfg, w)
    ensures Flight(w.toReceiver) + Flight(w.toSender) == 1
    ensures Enabled(p.cfg, w, SenderReceives) <==> !Enabled(p.cfg, w, ReceiverReceives(p.env))
    ensures Enabled(p.cfg, w, Due(p, w)) && At(p, Next(p.cfg, w, Due(p, w)), next)
    ensures Left(p.items, next) == Left(p.items, stage) - 1
  {
    hide FlatIds, Prefix, SkipSet, ItemsOk, ValidConfig, Through, TakenIn, Next, At, FreshFallbacks;
    Traffic(p, w, stage);
    match stage
    case Requested =>
      FromRequested(p, w);
      next := Responded;
    case Responded =>
      next := FromResponded(p, w);
    case ChunkOut(k) =>
      FromChunkOut(p, w, k);
      next := AckOut(k);
    case AckOut(k) =>
      next := FromAckOut(p, w, k);
    case CompleteOut =>
      FromCompleteOut(p, w);
      next := VerifiedOut;
    case VerifiedOut =>
      FromVerifiedOut(p, w);
      next := Over;
  }
}
