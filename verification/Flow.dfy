/** Where every session stands, disturbed or not: at each moment of each run the receiver has taken in exactly
    the chunks sent among the first `k` of the send order, and what is under way is the next message of that
    order or nothing that would be taken in. Equal chunk sizes, distinct temporary files and messages that
    get through are not assumed. */
module Flow {
  import opened Types
  import opened ChunkIndex
  import opened Storage
  import opened Protocol
  import opened Session
  import opened SessionPlan
  import opened QuietRun
  import Bitmap

  // ----- The invariant -----

  /** Nothing in the channel but what ends the receiving. */
  predicate Drained(channel: seq<Incoming>) {
    forall i | 0 <= i < |channel| && channel[i].Msg? :: channel[i].msg.Cancel?
  }

  predicate Silent(channel: seq<Incoming>) {
    forall i | 0 <= i < |channel| :: !channel[i].Msg?
  }

  predicate NoVerdict(channel: seq<Incoming>) {
    forall i | 0 <= i < |channel| && channel[i].Msg? :: !channel[i].msg.TransferVerified?
  }

  /** `x` is on its way to the receiver; before anything was cut off, it is the only thing under way. */
  predicate Underway(w: World, x: Message) {
    && w.toReceiver != [] && w.toReceiver[0] == Msg(x) && Drained(w.toReceiver[1..])
    && (w.sender.phase.SenderDone? || (|w.toReceiver| == 1 && w.toSender == []))
  }

  /** The only thing under way is a message to the sender, or nothing is any more. */
  predicate Answered(w: World) {
    Silent(w.toSender) || (w.toReceiver == [] && |w.toSender| == 1)
  }

  predicate Pending(p: Plan, w: World, k: nat)
    requires k <= |p.items|
  {
    Drained(w.toReceiver)
    || (ResponseHeard(p) && (k < |p.items| ==> !p.items[k].skipped) && Underway(w, NextOut(p, k)))
  }

  predicate SenderAt(p: Plan, w: World, k: nat)
    requires k <= |p.items|
  {
    match w.sender.phase
    case AwaitResponse =>
      && w.sender == INITIAL_SENDER && k == 0 && Drained(w.toReceiver) && Answered(w)
      && (!Silent(w.toSender) ==> w.toSender[0] == Msg(TransferResponse(OfferedResponse(p))))
    case AwaitAck(j) =>
      && j < |p.items| && Waiting(p, w.sender, j) && ResponseHeard(p)
      && if k == j then Silent(w.toSender)
         else
           && k == j + 1 && Drained(w.toReceiver) && Answered(w)
           && (!Silent(w.toSender) ==> w.toSender[0].Msg? && w.toSender[0].msg.ChunkAck?)
    case AwaitVerified =>
      && w.sender == Sender(AwaitVerified, Skip(p), CountedBytes(p.items, |p.items|)) && ResponseHeard(p)
      && k == |p.items| && Silent(w.toSender)
    case SenderDone(result) => result != Completed
  }

  /** The receiver has everything before position `k` and nothing behind it. */
  predicate StandsAt(p: Plan, w: World, k: nat)
    requires |p.cfg.manifest.files| == |p.initial| && k <= |p.items|
  {
    && RequestHeard(p) && AllTaken(p, k)
    && TakenIn(p, w.receiver, k)
    && Pending(p, w, k) && SenderAt(p, w, k) && NoVerdict(w.toSender)
  }

  predicate NotOpen(p: Plan, w: World)
  {
    && w.receiver == Receiver(AwaitRequest, p.disk, p.store)
    && (w.sender == INITIAL_SENDER || (w.sender.phase.SenderDone? && w.sender.phase.result != Completed))
    && (Drained(w.toReceiver) || Underway(w, TransferRequest(p.cfg.manifest)))
    && Silent(w.toSender)
  }

  /** A receiver that finished had everything, and only its good verdict completes the sender. */
  ghost predicate Closing(p: Plan, w: World)
    requires |p.cfg.manifest.files| == |p.initial|
  {
    && w.receiver.phase.ReceiverDone?
    && (w.receiver.phase.result.Finished? ==> Through(p) && exists uuids :: Ended(p, w.receiver, uuids))
    && (w.sender.phase == SenderDone(Completed) ==> FinishedOk(w.receiver))
    && (Msg(TransferVerified(true)) in w.toSender ==> FinishedOk(w.receiver))
  }

  ghost predicate Flows(p: Plan, w: World)
    requires |p.cfg.manifest.files| == |p.initial|
  {
    match w.receiver.phase
    case AwaitRequest => NotOpen(p, w)
    case Receiving(_, _, _) => exists k :: 0 <= k <= |p.items| && StandsAt(p, w, k)
    case ReceiverDone(_) => Closing(p, w)
  }

  predicate Begins(p: Plan) {
    PlanOk(p) && StartsEmpty(p) && p.bytesBefore == RecordedBytes(p.store, p.cfg.manifest.id)
  }

  // ----- Sender steps -----

  /** A sender that stops leaves what is under way to the receiver. */
  lemma StopKeeps(p: Plan, w: World, w2: World, result: SenderResult, tail: seq<Incoming>)
    requires PlanOk(p) && Flows(p, w) && !w.receiver.phase.ReceiverDone? && result != Completed
    requires Drained(tail) && w2.sender == w.sender.(phase := SenderDone(result))
    requires w2.receiver == w.receiver && w2.toReceiver == w.toReceiver + tail
    requires w2.toSender == w.toSender || (w.toSender != [] && w2.toSender == w.toSender[1..])
    ensures Flows(p, w2)
  {
    hide FlatIds, Prefix, ItemsOk, ValidConfig, TakenIn, AllTaken, Waiting, RequestHeard, ResponseHeard, NextOut,
         Skip, CountedBytes, OfferedResponse;
    if w.receiver.phase.Receiving? {
      var k :| 0 <= k <= |p.items| && StandsAt(p, w, k);
      assert StandsAt(p, w2, k);
    }
  }

  lemma AdvanceKeeps(p: Plan, w: World, k: nat)
    requires PlanOk(p) && WorldOk(p.cfg, w) && k <= |p.items| && Enabled(p.cfg, w, SenderReceives)
    requires w.toReceiver == [] && |w.toSender| == 1
    requires RequestHeard(p) && ResponseHeard(p) && AllTaken(p, k) && TakenIn(p, w.receiver, k)
    requires SenderReact(p.cfg, w.sender, Heard(p.cfg, w.toSender[0]))
          == Advance(p.cfg, Skip(p), k, CountedBytes(p.items, k))
    ensures Flows(p, Next(p.cfg, w, SenderReceives))
  {
    hide FlatIds, Prefix, ItemsOk, ValidConfig, TakenIn, AllTaken, RequestHeard, ResponseHeard, Advance, Skip,
         CountedBytes, OfferedResponse, Next, SenderReact, Heard, StandsAt;
    var j := AdvanceExactly(p, k);
    PassesSkipped(p, w.receiver, k, j);
    SenderMoves(p.cfg, w, Emission(p, j));
    assert AllTaken(p, j) by { assert SameCounts(p, k, j); }
    EmissionStands(p, w, Next(p.cfg, w, SenderReceives), j);
    StillReceiving(p, w.receiver, j);
  }

  lemma EmissionStands(p: Plan, w: World, w2: World, j: nat)
    requires PlanOk(p) && j <= |p.items| && (j < |p.items| ==> !p.items[j].skipped)
    requires w.toReceiver == [] && |w.toSender| == 1
    requires RequestHeard(p) && ResponseHeard(p) && AllTaken(p, j) && TakenIn(p, w.receiver, j)
    requires w2 == World(Emission(p, j).sender, w.toReceiver + Sent(Emission(p, j).out, false), w.toSender[1..],
                         w.receiver)
    ensures StandsAt(p, w2, j)
  {
    hide FlatIds, Prefix, ItemsOk, ValidConfig, TakenIn, AllTaken, RequestHeard, ResponseHeard, Skip, CountedBytes,
         OfferedResponse;
    assert w2.toReceiver == [Msg(NextOut(p, j))] && w2.toSender == [];
  }

  lemma SilenceStops(cfg: Config, s: Sender, x: Incoming) returns (result: SenderResult)
    requires |cfg.sources| == |cfg.manifest.files| && SenderOk(cfg, s) && !s.phase.SenderDone? && !x.Msg?
    ensures SenderReact(cfg, s, x) == Stop(s, result) && result != Completed
  {
    hide Advance, FlatIds, Prefix;
    result := if x.Reset? then TransportFailed else Unexpected;
  }

  lemma OnlyVerdictCompletes(cfg: Config, s: Sender, x: Incoming)
    requires |cfg.sources| == |cfg.manifest.files| && SenderOk(cfg, s) && !s.phase.SenderDone?
    requires SenderReact(cfg, s, x).sender.phase == SenderDone(Completed)
    ensures x == Msg(TransferVerified(true))
  {
    hide FlatIds, Prefix;
    match s.phase {
      case AwaitResponse =>
        if x == Msg(TransferResponse(Accept)) {
          AdvanceSends(cfg, {}, 0, 0);
        } else if x.Msg? && x.msg.TransferResponse? && x.msg.response.ResumeAt? {
          AdvanceSends(cfg, Bitmap.Decode(x.msg.response.received, TotalChunks(cfg.manifest)), 0, 0);
        }
      case AwaitAck(k) =>
        if x.Msg? && x.msg.ChunkAck? {
          IdInRange(SendCounts(cfg), k);
          AdvanceSends(cfg, s.skip, k + 1, s.bytesSent + |SendData(cfg, SendIds(cfg)[k])|);
        }
      case AwaitVerified =>
    }
  }

  lemma SenderStops(p: Plan, w: World)
    requires PlanOk(p) && WorldOk(p.cfg, w) && Flows(p, w) && !w.receiver.phase.ReceiverDone?
    requires Enabled(p.cfg, w, SenderReceives) && !Heard(p.cfg, w.toSender[0]).Msg?
    ensures Flows(p, Next(p.cfg, w, SenderReceives))
  {
    hide Flows, FlatIds, Prefix, ItemsOk, ValidConfig, Next, SenderReact, Heard, ReceiverOk;
    var result := SilenceStops(p.cfg, w.sender, Heard(p.cfg, w.toSender[0]));
    SenderMoves(p.cfg, w, Stop(w.sender, result));
    assert Sent([], true) == [Closed];
    StopKeeps(p, w, Next(p.cfg, w, SenderReceives), result, [Closed]);
  }

  lemma SenderReceivesFlows(p: Plan, w: World)
    requires Begins(p) && WorldOk(p.cfg, w) && Flows(p, w) && Enabled(p.cfg, w, SenderReceives)
    ensures Flows(p, Next(p.cfg, w, SenderReceives))
  {
    if w.receiver.phase.ReceiverDone? {
      VerdictReaches(p, w);
    } else if !Heard(p.cfg, w.toSender[0]).Msg? {
      SenderStops(p, w);
    } else {
      AnswerReaches(p, w);
    }
  }

  lemma VerdictReaches(p: Plan, w: World)
    requires PlanOk(p) && WorldOk(p.cfg, w) && Closing(p, w) && Enabled(p.cfg, w, SenderReceives)
    ensures Closing(p, Next(p.cfg, w, SenderReceives))
  {
    hide FlatIds, Prefix, ItemsOk, ValidConfig, SenderReact, Through, Ended;
    var x := SenderReact(p.cfg, w.sender, Heard(p.cfg, w.toSender[0]));
    if x.sender.phase == SenderDone(Completed) {
      OnlyVerdictCompletes(p.cfg, w.sender, Heard(p.cfg, w.toSender[0]));
      assert Msg(TransferVerified(true)) in w.toSender;
    }
  }

  lemma AnswerReaches(p: Plan, w: World)
    requires PlanOk(p) && WorldOk(p.cfg, w) && Flows(p, w) && !w.receiver.phase.ReceiverDone?
    requires Enabled(p.cfg, w, SenderReceives) && Heard(p.cfg, w.toSender[0]).Msg?
    ensures Flows(p, Next(p.cfg, w, SenderReceives))
  {
    hide FlatIds, Prefix, ItemsOk, ValidConfig, TakenIn, AllTaken, RequestHeard, Advance, Skip, CountedBytes,
         OfferedResponse, SenderReact, Next, PlainSize;
    assert w.toSender[0].Msg? && !Silent(w.toSender);
    var k :| 0 <= k <= |p.items| && StandsAt(p, w, k);
    var x := w.toSender[0];
    assert Heard(p.cfg, x) == x;
    match w.sender.phase {
      case AwaitResponse =>
        OnOffer(p);
        assert CountedBytes(p.items, 0) == 0 by { NothingCounted(p); }
        AdvanceKeeps(p, w, 0);
      case AwaitAck(j) =>
        OnAck(p, w.sender, j, x);
        AdvanceKeeps(p, w, k);
    }
  }

  lemma NothingCounted(p: Plan)
    ensures CountedBytes(p.items, 0) == 0
  {
  }

  // ----- Receiver steps -----

  lemma CancelLike(x: Incoming)
    requires Drained([x])
    ensures x.Closed? || x.Reset? || (x.Msg? && x.msg.Cancel?)
  {
    assert [x][0] == x;
  }

  /** What ends the receiving ends it without a result. */
  lemma DrainedEnds(cfg: Config, env: Env, r: Receiver, x: Incoming)
    requires ReceiverOk(r) && !r.phase.ReceiverDone? && Drained([x])
    ensures var y := ReceiverReact(env, r, Heard(cfg, x));
            y.receiver.phase.ReceiverDone? && !y.receiver.phase.result.Finished? && y.out == []
  {
    hide PlainSize;
    CancelLike(x);
  }

  /** A receiver that ended without finishing promises nothing. */
  lemma EndsWithout(p: Plan, w: World, w2: World)
    requires PlanOk(p) && Flows(p, w) && !w.receiver.phase.ReceiverDone?
    requires w2.receiver.phase.ReceiverDone? && !w2.receiver.phase.result.Finished?
    requires w2.sender == w.sender
    requires forall i | 0 <= i < |w2.toSender| && w2.toSender[i] == Msg(TransferVerified(true)) ::
               w2.toSender[i] in w.toSender
    ensures Closing(p, w2)
  {
    hide FlatIds, Prefix, ItemsOk, ValidConfig, TakenIn, AllTaken, Waiting, RequestHeard, ResponseHeard, NextOut,
         Skip, CountedBytes, OfferedResponse, Pending, Drained;
    if w.receiver.phase.Receiving? {
      var k :| 0 <= k <= |p.items| && StandsAt(p, w, k);
    }
  }

  lemma ReceiverEnds(p: Plan, env: Env, w: World)
    requires PlanOk(p) && WorldOk(p.cfg, w) && Flows(p, w) && Enabled(p.cfg, w, ReceiverReceives(env))
    requires var y := ReceiverReact(env, w.receiver, Heard(p.cfg, w.toReceiver[0]));
             y.receiver.phase.ReceiverDone? && !y.receiver.phase.result.Finished?
             && TransferVerified(true) !in y.out
    ensures Flows(p, Next(p.cfg, w, ReceiverReceives(env)))
  {
    hide FlatIds, Prefix, ItemsOk, ValidConfig, ReceiverReact, Heard, StandsAt, NotOpen, Closing, Next;
    var y := ReceiverReact(env, w.receiver, Heard(p.cfg, w.toReceiver[0]));
    ReceiverMoves(p.cfg, env, w, y);
    EndsWithout(p, w, Next(p.cfg, w, ReceiverReceives(env)));
  }

  /** The request opens the session, or ends it. */
  lemma RequestReaches(p: Plan, env: Env, w: World)
    requires Begins(p) && WorldOk(p.cfg, w) && NotOpen(p, w) && Enabled(p.cfg, w, ReceiverReceives(env))
    requires w.toReceiver[0] == Msg(TransferRequest(p.cfg.manifest)) && RequestHeard(p)
    ensures Flows(p, Next(p.cfg, w, ReceiverReceives(env)))
  {
    hide FlatIds, Prefix, ItemsOk, ValidConfig, Next, PlainSize, TakenIn, Through, Ended, OfferedResponse, AllTaken,
         CountedBytes, Skip, Underway;
    assert Underway(w, TransferRequest(p.cfg.manifest)) by { CancelLikeIsNot(w.toReceiver, p.cfg.manifest); }
    assert Heard(p.cfg, w.toReceiver[0]) == w.toReceiver[0];
    var y := OnRequest(env, w.receiver, p.cfg.manifest);
    if Decide(env).AcceptTransfer? {
      Opens(p, env, w.receiver);
      StillReceiving(p, y.receiver, 0);
      ReceiverMoves(p.cfg, env, w, y);
      hide OnRequest, StartsEmpty;
      OpenedStands(p, w, Next(p.cfg, w, ReceiverReceives(env)), y.receiver);
    } else {
      ReceiverEnds(p, env, w);
    }
  }

  lemma CancelLikeIsNot(channel: seq<Incoming>, m: Manifest)
    requires channel != [] && channel[0] == Msg(TransferRequest(m))
    ensures !Drained(channel)
  {
  }

  lemma OpenedStands(p: Plan, w: World, w2: World, r: Receiver)
    requires Begins(p) && NotOpen(p, w) && Underway(w, TransferRequest(p.cfg.manifest)) && RequestHeard(p)
    requires TakenIn(p, r, 0)
    requires w2 == World(w.sender, w.toReceiver[1..],
                         w.toSender + Sent([TransferResponse(OfferedResponse(p))], false), r)
    ensures StandsAt(p, w2, 0)
  {
    hide FlatIds, Prefix, ItemsOk, ValidConfig, TakenIn, OfferedResponse, CountedBytes, Skip, PlainSize;
    assert w2.toSender == w.toSender + [Msg(TransferResponse(OfferedResponse(p)))];
  }

  lemma ChunkGoesIn(p: Plan, env: Env, w: World, k: nat)
    requires Begins(p) && WorldOk(p.cfg, w) && k < |p.items| && StandsAt(p, w, k)
    requires Enabled(p.cfg, w, ReceiverReceives(env)) && !Drained(w.toReceiver) && Taken(p, p.items[k])
    ensures Flows(p, Next(p.cfg, w, ReceiverReceives(env)))
  {
    var item, r := p.items[k], w.receiver;
    assert r.phase.Receiving? && !item.skipped && w.toReceiver[0] == Msg(ChunkData(item.id, item.data));
    assert AllTaken(p, k + 1) by { OneMoreTaken(p, k); }
    assert Heard(p.cfg, w.toReceiver[0]) == w.toReceiver[0];
    hide FlatIds, Prefix, ItemsOk, ValidConfig, Next, TakenIn, AllTaken, Taken, ReceiverReact, OnChunk, Flows, Heard,
         SenderAt, Pending, StandsAt, Drained;
    ReactsToChunk(env, r, item.id, item.data);
    assert TakenIn(p, r, k) by { StandsFlows(p, w, k); }
    TakesChunk(p, r, k);
    var y := OnChunk(r, item.id, item.data);
    StillReceiving(p, y.receiver, k + 1);
    ReceiverMoves(p.cfg, env, w, y);
    TakenStands(p, w, Next(p.cfg, w, ReceiverReceives(env)), k, y.receiver);
    StandsFlows(p, Next(p.cfg, w, ReceiverReceives(env)), k + 1);
  }

  /** The chunk under way is taken in, or ends the session: too large to be heard, or not expected. */
  lemma ChunkReaches(p: Plan, env: Env, w: World, k: nat)
    requires Begins(p) && WorldOk(p.cfg, w) && k < |p.items| && StandsAt(p, w, k)
    requires Enabled(p.cfg, w, ReceiverReceives(env)) && !Drained(w.toReceiver)
    ensures Flows(p, Next(p.cfg, w, ReceiverReceives(env)))
  {
    var item, r := p.items[k], w.receiver;
    assert ItemOk(p, k) && r.phase.Receiving?;
    hide FlatIds, Prefix, ItemsOk, ValidConfig, Next, PlainSize, TakenIn, Through, Ended, OfferedResponse, AllTaken,
         CountedBytes, Skip, ReceiverReact, OnChunk, Flows, SenderAt, ChunkCount;
    assert w.toReceiver[0] == Msg(ChunkData(item.id, item.data));
    ReactsToChunk(env, r, item.id, item.data);
    if !Carried(p.cfg, w.toReceiver[0].msg) {
      StreamBreaks(p, env, w);
    } else if Taken(p, item) {
      ChunkGoesIn(p, env, w, k);
    } else {
      RefusesChunk(p, r, k);
      StandsFlows(p, w, k);
      ReceiverEnds(p, env, w);
    }
  }

  lemma OneMoreTaken(p: Plan, k: nat)
    requires k < |p.items| && AllTaken(p, k) && Taken(p, p.items[k])
    ensures AllTaken(p, k + 1)
  {
  }

  lemma StandsFlows(p: Plan, w: World, k: nat)
    requires |p.cfg.manifest.files| == |p.initial| && k <= |p.items| && StandsAt(p, w, k)
    ensures w.receiver.phase.Receiving? && TakenIn(p, w.receiver, k) && Flows(p, w)
  {
  }

  lemma StreamBreaks(p: Plan, env: Env, w: World)
    requires PlanOk(p) && WorldOk(p.cfg, w) && Flows(p, w) && Enabled(p.cfg, w, ReceiverReceives(env))
    requires Heard(p.cfg, w.toReceiver[0]).Reset?
    ensures Flows(p, Next(p.cfg, w, ReceiverReceives(env)))
  {
    hide Flows, FlatIds, Prefix, ItemsOk, ValidConfig, Next;
    ReceiverEnds(p, env, w);
  }

  lemma TakenStands(p: Plan, w: World, w2: World, k: nat, r: Receiver)
    requires PlanOk(p) && k < |p.items| && StandsAt(p, w, k) && !Drained(w.toReceiver)
    requires AllTaken(p, k + 1) && TakenIn(p, r, k + 1)
    requires w2 == World(w.sender, w.toReceiver[1..],
                         w.toSender + Sent([ChunkAck(p.items[k].id, Sha256(p.items[k].data))], false), r)
    ensures StandsAt(p, w2, k + 1)
  {
    hide FlatIds, Prefix, ItemsOk, ValidConfig, TakenIn, OfferedResponse, CountedBytes, Skip, RequestHeard,
         ResponseHeard, AllTaken, NextOut;
    assert w2.toSender == w.toSender + [Msg(ChunkAck(p.items[k].id, Sha256(p.items[k].data)))];
  }

  /** The completion message makes the receiver finalize what it has, which is everything. */
  lemma CompletionReaches(p: Plan, env: Env, w: World)
    requires Begins(p) && WorldOk(p.cfg, w) && StandsAt(p, w, |p.items|)
    requires Enabled(p.cfg, w, ReceiverReceives(env)) && !Drained(w.toReceiver)
    ensures Flows(p, Next(p.cfg, w, ReceiverReceives(env)))
  {
    var r, digest := w.receiver, Sha256(p.cfg.manifest);
    assert w.toReceiver[0] == Msg(TransferComplete(digest)) && Finishes(w.toReceiver[0]);
    assert FallbacksFresh(env, r) && r.phase.Receiving?;
    assert Heard(p.cfg, w.toReceiver[0]) == w.toReceiver[0];
    assert Through(p);
    hide FlatIds, Prefix, ItemsOk, ValidConfig, Next, PlainSize, TakenIn, Through, Ended, OfferedResponse, AllTaken,
         CountedBytes, Skip, ReceiverReact, OnComplete, Flows, SenderAt, ChunkCount, FallbacksFresh, FinalState;
    ReactsToComplete(env, r, digest);
    FinishesOrFails(p, env, r);
    StandsFlows(p, w, |p.items|);
    var y := OnComplete(env, r);
    if FinalState(p, env.uuids).failed {
      ReceiverEnds(p, env, w);
    } else {
      EndedIsDone(p, y.receiver, env.uuids);
      ReceiverMoves(p.cfg, env, w, y);
      NotYetVerified(p, w);
      FinishedCloses(p, w, Next(p.cfg, w, ReceiverReceives(env)), env, y.receiver);
    }
  }

  lemma NotYetVerified(p: Plan, w: World)
    requires PlanOk(p) && StandsAt(p, w, |p.items|)
    ensures NoVerdict(w.toSender) && w.sender.phase != SenderDone(Completed)
  {
  }

  lemma FinishedCloses(p: Plan, w: World, w2: World, env: Env, r: Receiver)
    requires PlanOk(p) && Through(p) && Ended(p, r, env.uuids) && w.toReceiver != []
    requires NoVerdict(w.toSender) && w.sender.phase != SenderDone(Completed)
    requires w2 == World(w.sender, w.toReceiver[1..],
                         w.toSender + Sent([TransferVerified(FinalState(p, env.uuids).allOk)], true), r)
    ensures Flows(p, w2)
  {
    EndedIsDone(p, r, env.uuids);
    assert r.phase.result.allOk == FinalState(p, env.uuids).allOk;
    hide FlatIds, Prefix, ItemsOk, ValidConfig, TakenIn, OfferedResponse, CountedBytes, Skip, RequestHeard,
         ResponseHeard, AllTaken, NextOut, Through, Ended, FinalState;
  }

  lemma ReceiverReceivesFlows(p: Plan, env: Env, w: World)
    requires Begins(p) && WorldOk(p.cfg, w) && Flows(p, w) && Enabled(p.cfg, w, ReceiverReceives(env))
    ensures Flows(p, Next(p.cfg, w, ReceiverReceives(env)))
  {
    hide FlatIds, Prefix, ItemsOk, ValidConfig, Next, PlainSize, TakenIn, Through, Ended, OfferedResponse, AllTaken,
         CountedBytes, Skip, ReceiverReact, SenderAt, FallbacksFresh;
    if Drained(w.toReceiver) {
      assert Drained([w.toReceiver[0]]);
      DrainedEnds(p.cfg, env, w.receiver, w.toReceiver[0]);
      ReceiverEnds(p, env, w);
    } else if w.receiver.phase.AwaitRequest? {
      if RequestHeard(p) {
        RequestReaches(p, env, w);
      } else {
        StreamBreaks(p, env, w);
      }
    } else {
      var k :| 0 <= k <= |p.items| && StandsAt(p, w, k);
      if k < |p.items| {
        ChunkReaches(p, env, w, k);
      } else {
        CompletionReaches(p, env, w);
      }
    }
  }

  // ----- All steps -----

  lemma BreakFlows(p: Plan, w: World)
    requires Begins(p) && Flows(p, w)
    ensures Flows(p, w.(toReceiver := [Reset], toSender := [Reset]))
  {
    hide FlatIds, Prefix, ItemsOk, ValidConfig, TakenIn, Through, Ended, OfferedResponse, AllTaken, CountedBytes,
         Skip, RequestHeard, ResponseHeard, NextOut;
    var w2 := w.(toReceiver := [Reset], toSender := [Reset]);
    if w.receiver.phase.Receiving? {
      var k :| 0 <= k <= |p.items| && StandsAt(p, w, k);
      assert StandsAt(p, w2, k);
    }
  }

  lemma LeaveFlows(p: Plan, w: World, result: SenderResult, tail: seq<Incoming>)
    requires Begins(p) && Flows(p, w) && result != Completed && Drained(tail)
    ensures Flows(p, w.(sender := w.sender.(phase := SenderDone(result)), toReceiver := w.toReceiver + tail))
  {
    hide FlatIds, Prefix, ItemsOk, ValidConfig, TakenIn, Through, Ended, StandsAt, NotOpen;
    if !w.receiver.phase.ReceiverDone? {
      var w2 := w.(sender := w.sender.(phase := SenderDone(result)), toReceiver := w.toReceiver + tail);
      StopKeeps(p, w, w2, result, tail);
    }
  }

  lemma CrashFlows(p: Plan, w: World, tear: Tear)
    requires Begins(p) && WorldOk(p.cfg, w) && Flows(p, w) && Enabled(p.cfg, w, ReceiverCrashes(tear))
    ensures Flows(p, Next(p.cfg, w, ReceiverCrashes(tear)))
  {
    hide FlatIds, Prefix, ItemsOk, ValidConfig, FinalizeUpTo, WriteChunk, StandsAt, NotOpen, Closing, PlainSize;
    EndsWithout(p, w, Next(p.cfg, w, ReceiverCrashes(tear)));
  }

  /** Every step within a session keeps it in the flow. */
  lemma StepFlows(p: Plan, w: World, l: Label)
    requires Begins(p) && WorldOk(p.cfg, w) && Flows(p, w) && Enabled(p.cfg, w, l) && !l.Reconnect?
    ensures Flows(p, Next(p.cfg, w, l))
  {
    hide FlatIds, Prefix, ItemsOk, ValidConfig, Flows, FinalizeUpTo, WriteChunk;
    match l {
      case SenderReceives => SenderReceivesFlows(p, w);
      case ReceiverReceives(env) => ReceiverReceivesFlows(p, env, w);
      case SenderCancels(why) => LeaveFlows(p, w, Cancelled(why), [Msg(Cancel(why)), Closed]);
      case SenderLeaves => LeaveFlows(p, w, TransportFailed, [Closed]);
      case LinkBreaks => BreakFlows(p, w);
      case ReceiverCrashes(tear) => CrashFlows(p, w, tear);
    }
  }

  lemma StartFlows(p: Plan)
    requires Begins(p)
    ensures Flows(p, Start(p.cfg, p.disk, p.store))
  {
  }

  /** The session that is under way at the `i`-th world began at the `start`-th. */
  predicate SessionFrom(cfg: Config, ws: seq<World>, ls: seq<Label>, start: nat, i: nat)
    requires |cfg.sources| == |cfg.manifest.files| && |ws| == |ls| + 1
  {
    && start <= i < |ws|
    && ws[start] == Start(cfg, ws[start].receiver.disk, ws[start].receiver.store)
    && forall j | start <= j < i :: !ls[j].Reconnect?
  }

  /** Where the session under way began. */
  lemma {:induction false} SessionStart(cfg: Config, ws: seq<World>, ls: seq<Label>, i: nat) returns (start: nat)
    requires |cfg.sources| == |cfg.manifest.files| && Trace(cfg, ws, ls) && i < |ws|
    ensures SessionFrom(cfg, ws, ls, start, i)
  {
    if i == 0 || ls[i - 1].Reconnect? {
      start := i;
      SessionStarts(cfg, ws, ls, i);
    } else {
      start := SessionStart(cfg, ws, ls, i - 1);
    }
  }

  lemma {:induction false} SessionFlows(p: Plan, ws: seq<World>, ls: seq<Label>, start: nat, i: nat)
    requires Begins(p) && Trace(p.cfg, ws, ls) && SessionFrom(p.cfg, ws, ls, start, i)
    requires p.disk == ws[start].receiver.disk && p.store == ws[start].receiver.store
    ensures Flows(p, ws[i])
  {
    hide FlatIds, Prefix, ItemsOk, ValidConfig, Flows, Next, Enabled;
    if i == start {
      StartFlows(p);
    } else {
      SessionFlows(p, ws, ls, start, i - 1);
      assert StepOf(p.cfg, ws[i - 1], ls[i - 1], ws[i]);
      StepFlows(p, ws[i - 1], ls[i - 1]);
    }
  }

  /** Every world of every run is in the flow of the session it belongs to. */
  lemma RunFlows(cfg: Config, env: Env, ws: seq<World>, ls: seq<Label>, i: nat) returns (start: nat, p: Plan)
    requires ValidConfig(cfg) && Trace(cfg, ws, ls) && i < |ws|
    ensures SessionFrom(cfg, ws, ls, start, i)
    ensures p == PlanOf(cfg, env, ws[start].receiver.disk, ws[start].receiver.store) && p.cfg == cfg
    ensures Begins(p) && Flows(p, ws[i])
  {
    start := SessionStart(cfg, ws, ls, i);
    p := PlanOf(cfg, env, ws[start].receiver.disk, ws[start].receiver.store);
    PlanOfOk(cfg, env, ws[start].receiver.disk, ws[start].receiver.store);
    SessionFlows(p, ws, ls, start, i);
  }

  lemma SessionStarts(cfg: Config, ws: seq<World>, ls: seq<Label>, i: nat)
    requires |cfg.sources| == |cfg.manifest.files| && Trace(cfg, ws, ls) && i < |ws|
    requires i == 0 || ls[i - 1].Reconnect?
    ensures ws[i] == Start(cfg, ws[i].receiver.disk, ws[i].receiver.store)
  {
    hide Next, Enabled;
    if i > 0 {
      assert StepOf(cfg, ws[i - 1], ls[i - 1], ws[i]);
      ReconnectStarts(cfg, ws[i - 1], ls[i - 1]);
    }
  }

  lemma ReconnectStarts(cfg: Config, w: World, l: Label)
    requires |cfg.sources| == |cfg.manifest.files| && WorldOk(cfg, w) && Enabled(cfg, w, l) && l.Reconnect?
    ensures Next(cfg, w, l) == Start(cfg, l.disk, l.store)
  {
  }
}
