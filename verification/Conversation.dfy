/** The two blocking loops seen from outside, on every sequence of events: what each side says, which answers let it
    go on, and how the answer that does not let it go on decides its result. */
module Conversation {
  import opened Types
  import opened ChunkIndex
  import opened Storage
  import opened Resume
  import opened Protocol
  import opened Session
  import opened SessionPlan
  import opened Interruption
  import opened Refusal
  import Bitmap
  import SendTransfer
  import RecvTransfer

  // ----- The sender -----

  /** Everything the sender has to say from position `k` of its order on: the chunks that are not skipped, then that
      it is done. */
  function Script(cfg: Config, skip: set<nat>, k: nat): (script: seq<Message>)
    requires |cfg.sources| == |cfg.manifest.files| && k <= |SendIds(cfg)|
    ensures script != []
    decreases |SendIds(cfg)| - k
  {
    if k == |SendIds(cfg)| then [TransferComplete(Sha256(cfg.manifest))]
    else
      IdInRange(SendCounts(cfg), k);
      var id := SendIds(cfg)[k];
      (if Skips(cfg.manifest, skip, id) then [] else [ChunkData(id, SendData(cfg, id))]) + Script(cfg, skip, k + 1)
  }

  /** What the sender leaves out of its script. */
  function SkippedBy(m: Manifest, answer: Incoming): set<nat> {
    if answer.Msg? && answer.msg.TransferResponse? && answer.msg.response.ResumeAt? then
      Bitmap.Decode(answer.msg.response.received, TotalChunks(m))
    else {}
  }

  /** The answer lets the sender say the next thing. */
  predicate GoesAhead(said: Message, heard: Incoming) {
    heard.Msg?
    && ((said.TransferRequest? && heard.msg.TransferResponse? && !heard.msg.response.Reject?)
        || (said.ChunkData? && heard.msg.ChunkAck?))
  }

  /** What any other answer makes of the transfer. */
  function ResultOf(said: Message, heard: Incoming): SenderResult {
    if heard.Reset? then TransportFailed
    else if heard.Closed? then Unexpected
    else if said.TransferRequest? && heard.msg.TransferResponse? && heard.msg.response.Reject? then
      Rejected(heard.msg.response.reason)
    else if said.ChunkData? && heard.msg.Cancel? then Cancelled(heard.msg.cancelReason)
    else if said.TransferComplete? && heard.msg.TransferVerified? then
      if heard.msg.ok then Completed else Cancelled(INCOMPLETE)
    else Unexpected
  }

  /** Events from the `j`-th on let the sender go through the first `q` entries of the script, and the next one, in
      answer to entry `q`, ends it with this result. */
  ghost predicate Spoken(script: seq<Message>, events: seq<Incoming>, j: nat, q: nat, result: SenderResult) {
    && q < |script|
    && (forall i | 0 <= i < q :: GoesAhead(script[i], EventAt(events, j + i)))
    && !GoesAhead(script[q], EventAt(events, j + q))
    && result == ResultOf(script[q], EventAt(events, j + q))
  }

  /** The byte counter in front of position `k`: data of chunks sent, a whole chunk size for each skipped one. */
  function BytesBefore(cfg: Config, skip: set<nat>, k: nat): nat
    requires |cfg.sources| == |cfg.manifest.files| && k <= |SendIds(cfg)|
  {
    if k == 0 then 0
    else
      IdInRange(SendCounts(cfg), k - 1);
      var id := SendIds(cfg)[k - 1];
      BytesBefore(cfg, skip, k - 1)
      + (if Skips(cfg.manifest, skip, id) then SendSize(cfg, id.file) else |SendData(cfg, id)|)
  }

  /** Going on from `k` the sender says the next entry of the script, at position `next`. */
  lemma {:induction false} AdvanceSpeaks(cfg: Config, skip: set<nat>, k: nat) returns (next: nat)
    requires |cfg.sources| == |cfg.manifest.files| && k <= |SendIds(cfg)|
    ensures k <= next <= |SendIds(cfg)|
    ensures Script(cfg, skip, k) == Script(cfg, skip, next)
    ensures var x, bytes := Advance(cfg, skip, k, BytesBefore(cfg, skip, k)), BytesBefore(cfg, skip, next);
            if next == |SendIds(cfg)| then
              x == SenderReaction(Sender(AwaitVerified, skip, bytes), Script(cfg, skip, next))
            else
              && !Skips(cfg.manifest, skip, SendIds(cfg)[next])
              && x == SenderReaction(Sender(AwaitAck(next), skip, bytes), [Script(cfg, skip, next)[0]])
              && Script(cfg, skip, next) == x.out + Script(cfg, skip, next + 1)
              && Script(cfg, skip, next)[0].ChunkData?
              && BytesBefore(cfg, skip, next + 1) == bytes + |Script(cfg, skip, next)[0].data|
    decreases |SendIds(cfg)| - k
  {
    hide FlatIds, Prefix, GlobalOffset, EffectiveChunkSize, ChunkOf, ChunkCount;
    if k < |SendIds(cfg)| {
      IdInRange(SendCounts(cfg), k);
      if Skips(cfg.manifest, skip, SendIds(cfg)[k]) {
        next := AdvanceSpeaks(cfg, skip, k + 1);
        assert [] + Script(cfg, skip, k + 1) == Script(cfg, skip, k + 1);
      } else {
        next := k;
      }
    } else {
      next := k;
    }
  }

  lemma ReactsAsScript(cfg: Config, s: Sender, said: Message, x: Incoming)
    requires |cfg.sources| == |cfg.manifest.files| && SenderOk(cfg, s) && !s.phase.SenderDone?
    requires s.phase.AwaitResponse? ==> said.TransferRequest?
    requires s.phase.AwaitAck? ==> said.ChunkData?
    requires s.phase.AwaitVerified? ==> said.TransferComplete?
    requires !GoesAhead(said, x)
    ensures SenderReact(cfg, s, x) == Stop(s, ResultOf(said, x))
  {
    hide Advance, FlatIds, Prefix;
  }

  lemma AckGoesOn(cfg: Config, skip: set<nat>, k: nat, bytes: nat, x: Incoming)
    requires |cfg.sources| == |cfg.manifest.files| && k < |SendIds(cfg)| && x.Msg? && x.msg.ChunkAck?
    ensures InRange(SendCounts(cfg), SendIds(cfg)[k])
    ensures SenderReact(cfg, Sender(AwaitAck(k), skip, bytes), x)
         == Advance(cfg, skip, k + 1, bytes + |SendData(cfg, SendIds(cfg)[k])|)
  {
    IdInRange(SendCounts(cfg), k);
    hide Advance, FlatIds, Prefix;
  }

  lemma RunStops(cfg: Config, s: Sender, events: seq<Incoming>, j: nat, sent: seq<Message>, result: SenderResult)
    requires |cfg.sources| == |cfg.manifest.files| && SenderOk(cfg, s) && !s.phase.SenderDone?
    requires SenderReact(cfg, s, EventAt(events, j)) == Stop(s, result)
    ensures SendTransfer.RunSender(cfg, s, events, j, sent) == (s.(phase := SenderDone(result)), sent)
  {
    hide SenderReact;
    assert sent + [] == sent;
  }

  /** From position `k` on the sender says what its script says, as far as the answers let it. */
  lemma {:induction false} FollowsScript(cfg: Config, skip: set<nat>, k: nat, events: seq<Incoming>, j: nat,
                                         sent: seq<Message>)
    returns (q: nat, at: nat)
    requires |cfg.sources| == |cfg.manifest.files| && k <= |SendIds(cfg)|
    ensures q < |Script(cfg, skip, k)| && k <= at <= |SendIds(cfg)|
    ensures Script(cfg, skip, k)[q..] == Script(cfg, skip, at)
    ensures var (s, out) := SendTransfer.RunAdvance(cfg, skip, k, BytesBefore(cfg, skip, k), events, j, sent);
            && out == sent + Script(cfg, skip, k)[..q + 1]
            && s.phase.SenderDone? && Spoken(Script(cfg, skip, k), events, j, q, s.phase.result)
            && s.bytesSent == BytesBefore(cfg, skip, at)
    decreases if j < |events| then |events| - j else 0
  {
    hide FlatIds, Prefix, GlobalOffset, EffectiveChunkSize, ChunkOf, ChunkCount, Advance, SenderReact, Script,
         BytesBefore, ResultOf, SendTransfer.RunSender;
    var next := AdvanceSpeaks(cfg, skip, k);
    var script, x, e := Script(cfg, skip, k), Advance(cfg, skip, k, BytesBefore(cfg, skip, k)), EventAt(events, j);
    if !GoesAhead(script[0], e) {
      q, at := 0, next;
      assert script[0].ChunkData? || script[0].TransferComplete? by { ScriptEnds(cfg, skip, next); }
      ScriptEnds(cfg, skip, next);
      ReactsAsScript(cfg, x.sender, script[0], e);
      RunStops(cfg, x.sender, events, j, sent + x.out, ResultOf(script[0], e));
      assert script[..1] == x.out && script[0..] == script;
    } else {
      ScriptEnds(cfg, skip, next);
      assert j < |events|;
      AckGoesOn(cfg, skip, next, x.sender.bytesSent, e);
      ScriptHead(cfg, skip, next);
      var q1;
      q1, at := FollowsScript(cfg, skip, next + 1, events, j + 1, sent + x.out);
      q := q1 + 1;
      AckRuns(cfg, x.sender, events, j, sent + x.out,
              SenderReact(cfg, x.sender, e));
      var rest := Script(cfg, skip, next + 1);
      assert script == x.out + rest;
      assert script[..q + 1] == x.out + rest[..q1 + 1] && script[q..] == rest[q1..];
      SpokenMore(x.out[0], rest, events, j, q1,
        SendTransfer.RunAdvance(cfg, skip, next + 1, BytesBefore(cfg, skip, next + 1), events, j + 1,
                                sent + x.out).0.phase.result);
      assert script == [x.out[0]] + rest;
      assert (sent + x.out) + rest[..q1 + 1] == sent + script[..q + 1];
    }
  }

  lemma ScriptEnds(cfg: Config, skip: set<nat>, next: nat)
    requires |cfg.sources| == |cfg.manifest.files| && next <= |SendIds(cfg)|
    ensures next == |SendIds(cfg)| ==> Script(cfg, skip, next) == [TransferComplete(Sha256(cfg.manifest))]
  {
  }

  lemma ScriptHead(cfg: Config, skip: set<nat>, k: nat)
    requires |cfg.sources| == |cfg.manifest.files| && k < |SendIds(cfg)| && !Skips(cfg.manifest, skip, SendIds(cfg)[k])
    ensures InRange(SendCounts(cfg), SendIds(cfg)[k])
    ensures Script(cfg, skip, k)[0] == ChunkData(SendIds(cfg)[k], SendData(cfg, SendIds(cfg)[k]))
  {
    IdInRange(SendCounts(cfg), k);
  }

  lemma AckRuns(cfg: Config, s: Sender, events: seq<Incoming>, j: nat, sent: seq<Message>, x: SenderReaction)
    requires |cfg.sources| == |cfg.manifest.files| && SenderOk(cfg, s) && !s.phase.SenderDone? && j < |events|
    requires x == SenderReact(cfg, s, EventAt(events, j))
    ensures SenderOk(cfg, x.sender)
    ensures SendTransfer.RunSender(cfg, s, events, j, sent)
         == SendTransfer.RunSender(cfg, x.sender, events, j + 1, sent + x.out)
  {
    hide SenderReact;
  }

  lemma SpokenMore(first: Message, rest: seq<Message>, events: seq<Incoming>, j: nat, q: nat, result: SenderResult)
    requires Spoken(rest, events, j + 1, q, result) && GoesAhead(first, EventAt(events, j))
    ensures Spoken([first] + rest, events, j, q + 1, result)
  {
    hide GoesAhead, ResultOf;
    var script := [first] + rest;
    assert script[q + 1] == rest[q] && j + (q + 1) == (j + 1) + q;
    forall i | 0 <= i < q + 1 ensures GoesAhead(script[i], EventAt(events, j + i)) {
      if i > 0 { assert script[i] == rest[i - 1] && j + i == (j + 1) + (i - 1); }
    }
  }

  /** What the sender says and counts on these events: the script up to the entry whose answer ended it, and the
      bytes in front of that entry's position. */
  ghost predicate Said(cfg: Config, events: seq<Incoming>, run: (Sender, seq<Message>), q: nat, at: nat)
    requires |cfg.sources| == |cfg.manifest.files|
  {
    var skip := SkippedBy(cfg.manifest, EventAt(events, 0));
    var script := [TransferRequest(cfg.manifest)] + Script(cfg, skip, 0);
    && q < |script| && run.1 == script[..q + 1]
    && run.0.phase.SenderDone? && Spoken(script, events, 0, q, run.0.phase.result)
    && at <= |SendIds(cfg)| && run.0.bytesSent == BytesBefore(cfg, skip, at)
    && if q == 0 then at == 0 else script[q..] == Script(cfg, skip, at)
  }

  lemma AcceptedStarts(cfg: Config, events: seq<Incoming>)
    requires |cfg.sources| == |cfg.manifest.files| && GoesAhead(TransferRequest(cfg.manifest), EventAt(events, 0))
    ensures var skip, sent := SkippedBy(cfg.manifest, EventAt(events, 0)), [TransferRequest(cfg.manifest)];
            SendTransfer.RunSender(cfg, INITIAL_SENDER, events, 0, sent)
            == SendTransfer.RunAdvance(cfg, skip, 0, BytesBefore(cfg, skip, 0), events, 1, sent)
  {
    hide FlatIds, Prefix, SendTransfer.RunSender, Bitmap.Decode, SendTransfer.RunAdvance;
    SendTransfer.ResponseLeadsTo(cfg, events, [TransferRequest(cfg.manifest)]);
  }

  lemma SaidOn(cfg: Config, events: seq<Incoming>, run: (Sender, seq<Message>), q: nat, at: nat)
    requires |cfg.sources| == |cfg.manifest.files| && at <= |SendIds(cfg)|
    requires GoesAhead(TransferRequest(cfg.manifest), EventAt(events, 0))
    requires var skip := SkippedBy(cfg.manifest, EventAt(events, 0));
             && q < |Script(cfg, skip, 0)| && Script(cfg, skip, 0)[q..] == Script(cfg, skip, at)
             && run.1 == [TransferRequest(cfg.manifest)] + Script(cfg, skip, 0)[..q + 1]
             && run.0.phase.SenderDone? && Spoken(Script(cfg, skip, 0), events, 1, q, run.0.phase.result)
             && run.0.bytesSent == BytesBefore(cfg, skip, at)
    ensures Said(cfg, events, run, q + 1, at)
  {
    hide FlatIds, Prefix, Script, BytesBefore, Spoken, GoesAhead, SkippedBy;
    var request, rest := TransferRequest(cfg.manifest), Script(cfg, SkippedBy(cfg.manifest, EventAt(events, 0)), 0);
    SpokenMore(request, rest, events, 0, q, run.0.phase.result);
    var script := [request] + rest;
    assert script[..q + 2] == [request] + rest[..q + 1] && script[q + 1..] == rest[q..];
  }

  /** The whole of `send_files` from outside, on every sequence of events: after the request the sender says the
      chunks that the answer does not make it skip, in order, then that it is done; each time it goes on only after
      the right answer, and the first other answer ends it. It has counted what lies before the entry it stopped at. */
  lemma SenderConversation(cfg: Config, events: seq<Incoming>) returns (q: nat, at: nat)
    requires |cfg.sources| == |cfg.manifest.files|
    ensures Said(cfg, events,
                 SendTransfer.RunSender(cfg, INITIAL_SENDER, events, 0, [TransferRequest(cfg.manifest)]), q, at)
  {
    var request, e := TransferRequest(cfg.manifest), EventAt(events, 0);
    var skip := SkippedBy(cfg.manifest, e);
    hide FlatIds, Prefix, Script, BytesBefore, SendTransfer.RunSender, SendTransfer.RunAdvance, SkippedBy, Spoken,
         Said;
    if GoesAhead(request, e) {
      AcceptedStarts(cfg, events);
      var q1;
      q1, at := FollowsScript(cfg, skip, 0, events, 1, [request]);
      var run := SendTransfer.RunAdvance(cfg, skip, 0, BytesBefore(cfg, skip, 0), events, 1, [request]);
      SaidOn(cfg, events, run, q1, at);
      q := q1 + 1;
    } else {
      q, at := 0, 0;
      ReactsAsScript(cfg, INITIAL_SENDER, request, e);
      RunStops(cfg, INITIAL_SENDER, events, 0, [request], ResultOf(request, e));
      SaidNothing(cfg, events);
    }
  }

  lemma SaidNothing(cfg: Config, events: seq<Incoming>)
    requires |cfg.sources| == |cfg.manifest.files| && !GoesAhead(TransferRequest(cfg.manifest), EventAt(events, 0))
    ensures var request := TransferRequest(cfg.manifest);
            Said(cfg, events,
                 (INITIAL_SENDER.(phase := SenderDone(ResultOf(request, EventAt(events, 0)))), [request]), 0, 0)
  {
    hide FlatIds, Prefix, Script;
    var script := [TransferRequest(cfg.manifest)]
                  + Script(cfg, SkippedBy(cfg.manifest, EventAt(events, 0)), 0);
    assert script[..1] == [TransferRequest(cfg.manifest)];
  }

  /** In particular a rejection ends it at once: nothing follows the request and nothing is counted. */
  lemma RejectionEndsSending(cfg: Config, events: seq<Incoming>, reason: string)
    requires |cfg.sources| == |cfg.manifest.files| && EventAt(events, 0) == Msg(TransferResponse(Reject(reason)))
    ensures SendTransfer.RunSender(cfg, INITIAL_SENDER, events, 0, [TransferRequest(cfg.manifest)])
         == (Sender(SenderDone(Rejected(reason)), {}, 0), [TransferRequest(cfg.manifest)])
  {
    var request := TransferRequest(cfg.manifest);
    ReactsAsScript(cfg, INITIAL_SENDER, request, EventAt(events, 0));
    RunStops(cfg, INITIAL_SENDER, events, 0, [request], Rejected(reason));
  }

  /** ... and a chunk is only ever sent after an acceptance, and if the answer does not list it. */
  lemma {:induction false} ScriptChunks(cfg: Config, skip: set<nat>, k: nat, id: ChunkId, data: Bytes)
    requires |cfg.sources| == |cfg.manifest.files| && k <= |SendIds(cfg)|
    ensures ChunkData(id, data) in Script(cfg, skip, k)
       <==> InRange(SendCounts(cfg), id) && Position(SendCounts(cfg), id) >= k && !Skips(cfg.manifest, skip, id)
            && data == SendData(cfg, id)
    decreases |SendIds(cfg)| - k
  {
    hide FlatIds, Prefix, GlobalOffset, EffectiveChunkSize, ChunkOf, ChunkCount, Position;
    if InRange(SendCounts(cfg), id) { IdAt(SendCounts(cfg), id); }
    if k < |SendIds(cfg)| {
      IdInRange(SendCounts(cfg), k);
      ScriptChunks(cfg, skip, k + 1, id, data);
    }
  }

  lemma ChunksOnlyIfAccepted(cfg: Config, events: seq<Incoming>, id: ChunkId, data: Bytes)
    requires |cfg.sources| == |cfg.manifest.files|
    requires ChunkData(id, data)
             in SendTransfer.RunSender(cfg, INITIAL_SENDER, events, 0, [TransferRequest(cfg.manifest)]).1
    ensures GoesAhead(TransferRequest(cfg.manifest), EventAt(events, 0))
    ensures InRange(SendCounts(cfg), id) && data == SendData(cfg, id)
    ensures !Skips(cfg.manifest, SkippedBy(cfg.manifest, EventAt(events, 0)), id)
  {
    hide FlatIds, Prefix, Script, SendTransfer.RunSender, SkippedBy, SendData;
    var q, at := SenderConversation(cfg, events);
    var skip := SkippedBy(cfg.manifest, EventAt(events, 0));
    var script := [TransferRequest(cfg.manifest)] + Script(cfg, skip, 0);
    var i :| 0 <= i < |script[..q + 1]| && script[..q + 1][i] == ChunkData(id, data);
    assert i > 0 && script[i] == Script(cfg, skip, 0)[i - 1];
    assert GoesAhead(script[0], EventAt(events, 0 + 0));
    ScriptChunks(cfg, skip, 0, id, data);
  }

  // ----- The receiver -----

  predicate IsChunk(x: Incoming) {
    x.Msg? && x.msg.ChunkData?
  }

  predicate AllChunks(events: seq<Incoming>, j: nat, q: nat) {
    forall i | j <= i < q :: IsChunk(EventAt(events, i))
  }

  /** Chunk numbers of file `f` among the events 1 to `q`. */
  function NumbersHeard(events: seq<Incoming>, q: nat, f: nat): set<nat> {
    if q <= 1 then {}
    else
      var x := EventAt(events, q - 1);
      NumbersHeard(events, q - 1, f) + (if IsChunk(x) && x.msg.id.file == f then {x.msg.id.chunk} else {})
  }

  function BytesHeard(events: seq<Incoming>, q: nat): nat {
    if q <= 1 then 0
    else
      var x := EventAt(events, q - 1);
      BytesHeard(events, q - 1) + (if IsChunk(x) then |x.msg.data| else 0)
  }

  /** One acknowledgement per chunk, with the digest of its data. */
  function AcksFor(events: seq<Incoming>, q: nat): seq<Message> {
    if q <= 1 then []
    else
      var x := EventAt(events, q - 1);
      AcksFor(events, q - 1) + (if IsChunk(x) then [ChunkAck(x.msg.id, Sha256(x.msg.data))] else [])
  }

  function SetsHeard(m: Manifest, events: seq<Incoming>, q: nat): (sets: seq<set<nat>>)
    ensures |sets| == |m.files|
  {
    seq(|m.files|, f requires 0 <= f < |m.files| => NumbersHeard(events, q, f))
  }

  /** The receiver as it stands after the chunks up to event `q`. */
  predicate HasHeard(r: Receiver, m: Manifest, store: Store, events: seq<Incoming>, q: nat) {
    && r.phase.Receiving? && r.phase.manifest == m && r.store == store && |r.phase.writers| == |m.files|
    && (forall f | 0 <= f < |m.files| ::
          r.phase.writers[f] == Writer(m.files[f].path, m.chunkSize, m.files[f].size, NumbersHeard(events, q, f)))
    && r.phase.bytesReceived == RecordedBytes(store, m.id) + BytesHeard(events, q)
  }

  /** How event `q` ends it. */
  ghost predicate EndedBy(r: Receiver, m: Manifest, store: Store, events: seq<Incoming>, q: nat)
  {
    var x := EventAt(events, q);
    && r.phase.ReceiverDone?
    && if Interrupts(x) then
         && r.phase.result == Interrupted(Reason(x))
         && RecordSaved(store, r.store, m, SetsHeard(m, events, q), RecordedBytes(store, m.id) + BytesHeard(events, q))
       else if Finishes(x) then
         if FinishedOk(r) then r.store == store - {m.id}
         else r.store == store && (r.phase.result.Finished? || r.phase.result.Failed?)
       else r.store == store && r.phase.result == if x.Reset? || IsChunk(x) then Failed else UnexpectedMessage
  }

  function VerdictOf(r: Receiver): seq<Message> {
    if r.phase.ReceiverDone? && r.phase.result.Finished? then [TransferVerified(r.phase.result.allOk)] else []
  }

  lemma ChunkHeard(r: Receiver, m: Manifest, store: Store, events: seq<Incoming>, j: nat)
    requires HasHeard(r, m, store, events, j) && ReceiverOk(r) && j >= 1 && IsChunk(EventAt(events, j))
    ensures var msg := EventAt(events, j).msg;
            var x := OnChunk(r, msg.id, msg.data);
            if x.receiver.phase.Receiving? then
              && HasHeard(x.receiver, m, store, events, j + 1)
              && x.out == [ChunkAck(msg.id, Sha256(msg.data))]
            else x == StopReceiving(r, Failed)
  {
    hide WriteAt, ChunkCount;
  }

  lemma EndHeard(env: Env, r: Receiver, m: Manifest, store: Store, events: seq<Incoming>, q: nat)
    requires HasHeard(r, m, store, events, q) && ReceiverOk(r) && !IsChunk(EventAt(events, q))
    ensures var x := ReceiverReact(env, r, EventAt(events, q));
            EndedBy(x.receiver, m, store, events, q) && x.out == VerdictOf(x.receiver)
  {
    var x := EventAt(events, q);
    if Interrupts(x) {
      InterruptionIsSaved(env, r, x);
      assert SetsOf(r.phase.writers) == SetsHeard(m, events, q);
    } else {
      hide FinalizeUpTo, NumbersHeard, BytesHeard;
    }
  }

  lemma {:induction false} ListensOn(env: Env, r: Receiver, m: Manifest, store: Store, events: seq<Incoming>, j: nat,
                                     sent: seq<Message>)
    returns (q: nat)
    requires HasHeard(r, m, store, events, j) && ReceiverOk(r) && j >= 1
    ensures q >= j && AllChunks(events, j, q)
    ensures var (last, out) := RecvTransfer.RunReceiver(env, r, events, j, sent + AcksFor(events, j));
            EndedBy(last, m, store, events, q) && out == sent + AcksFor(events, q) + VerdictOf(last)
    decreases if j < |events| then |events| - j else 0
  {
    hide ReceiverReact, OnChunk, EndedBy, HasHeard, RecvTransfer.RunReceiver;
    var x := EventAt(events, j);
    var y := ReceiverReact(env, r, x);
    assert r.phase.Receiving? by { StillHearing(r, m, store, events, j); }
    RecvTransfer.Finishes(env, r, events, j, sent + AcksFor(events, j));
    q := j;
    if IsChunk(x) {
      ReactsToOneChunk(env, r, x);
      ChunkHeard(r, m, store, events, j);
      if y.receiver.phase.Receiving? {
        assert (sent + AcksFor(events, j)) + y.out == sent + AcksFor(events, j + 1);
        q := ListensOn(env, y.receiver, m, store, events, j + 1, sent);
      } else {
        ChunkRefused(r, m, store, events, j);
        assert sent + AcksFor(events, j) + [] == sent + AcksFor(events, j);
      }
    } else {
      EndHeard(env, r, m, store, events, j);
      assert y.receiver.phase.ReceiverDone? by { EndedIsOver(y.receiver, m, store, events, j); }
      assert sent + AcksFor(events, j) + [] == sent + AcksFor(events, j);
    }
  }

  lemma StillHearing(r: Receiver, m: Manifest, store: Store, events: seq<Incoming>, j: nat)
    requires HasHeard(r, m, store, events, j)
    ensures r.phase.Receiving? && ReceiverOk(r)
  {
  }

  lemma EndedIsOver(r: Receiver, m: Manifest, store: Store, events: seq<Incoming>, q: nat)
    requires EndedBy(r, m, store, events, q)
    ensures r.phase.ReceiverDone?
  {
  }

  lemma ReactsToOneChunk(env: Env, r: Receiver, x: Incoming)
    requires r.phase.Receiving? && ReceiverOk(r) && IsChunk(x)
    ensures ReceiverReact(env, r, x) == OnChunk(r, x.msg.id, x.msg.data)
  {
    hide OnChunk;
  }

  lemma ChunkRefused(r: Receiver, m: Manifest, store: Store, events: seq<Incoming>, j: nat)
    requires HasHeard(r, m, store, events, j) && IsChunk(EventAt(events, j))
    ensures var last := StopReceiving(r, Failed).receiver;
            EndedBy(last, m, store, events, j) && VerdictOf(last) == []
  {
  }

  /** The whole of `handle_incoming` from outside, on every sequence of events that begins with a request the user
      permits: after its response it acknowledges chunk after chunk, and the first other event, or a chunk that cannot
      be written, ends it. Cancelled or closed, it leaves a record of exactly the chunks it has heard. */
  lemma ReceiverConversation(env: Env, disk: Disk, store: Store, m: Manifest, events: seq<Incoming>) returns (q: nat)
    requires EventAt(events, 0) == Msg(TransferRequest(m)) && Permits(env)
    ensures q >= 1 && AllChunks(events, 1, q)
    ensures var (last, sent) := RecvTransfer.RunReceiver(env, Receiver(AwaitRequest, disk, store), events, 0, []);
            && EndedBy(last, m, store, events, q)
            && sent == [TransferResponse(ResponseTo(m, store))] + AcksFor(events, q) + VerdictOf(last)
  {
    var r := Receiver(AwaitRequest, disk, store);
    PermittedOpens(env, r, m);
    var x := ReceiverReact(env, r, EventAt(events, 0));
    RecvTransfer.Finishes(env, r, events, 0, []);
    assert HasHeard(x.receiver, m, store, events, 1);
    hide ReceiverReact, EndedBy, RecvTransfer.RunReceiver, ResponseTo;
    var response := [TransferResponse(ResponseTo(m, store))];
    assert [] + x.out == response + AcksFor(events, 1);
    q := ListensOn(env, x.receiver, m, store, events, 1, response);
  }

  /** Every other beginning: a request that is not permitted is refused with its reason, and anything but a request is
      an error; disk and records stay. */
  lemma RefusalConversation(env: Env, disk: Disk, store: Store, events: seq<Incoming>)
    requires EventAt(events, 0).Msg? && EventAt(events, 0).msg.TransferRequest? ==> !Permits(env)
    ensures var x := EventAt(events, 0);
            var requested := x.Msg? && x.msg.TransferRequest?;
            RecvTransfer.RunReceiver(env, Receiver(AwaitRequest, disk, store), events, 0, [])
            == (Receiver(ReceiverDone(if requested then Refused(RefusalReason(env))
                                      else if x.Reset? then Failed else UnexpectedMessage), disk, store),
                if requested then [TransferResponse(Reject(RefusalReason(env)))] else [])
  {
    var r, x := Receiver(AwaitRequest, disk, store), EventAt(events, 0);
    if x.Msg? && x.msg.TransferRequest? {
      NotPermittedRefuses(env, r, x.msg.manifest);
    } else {
      OnlyRequestsOpen(env, r, x);
    }
    assert [] + ReceiverReact(env, r, x).out == ReceiverReact(env, r, x).out;
    hide ReceiverReact;
    RecvTransfer.Finishes(env, r, events, 0, []);
  }
}
