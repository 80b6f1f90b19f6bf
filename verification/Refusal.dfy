/** What the user decides is what happens: files are opened only for a transfer that was accepted, and a sender that
    was refused sends nothing. */
module Refusal {
  import opened Types
  import opened Storage
  import opened ChunkIndex
  import opened Protocol
  import opened Session
  import opened SessionPlan
  import opened QuietRun
  import opened Flow
  import Bitmap

  /** The transfer is accepted: everything is, or the user said so. */
  predicate Permits(env: Env) {
    env.autoAccept || env.answer == Some(AcceptTransfer)
  }

  /** The reason given to the sender otherwise: the user's, or that there was no answer. */
  function RefusalReason(env: Env): string {
    if env.answer.Some? && env.answer.value.RejectTransfer? then env.answer.value.reason else "no response"
  }

  // ----- The receiver -----

  /** A request that may be accepted is: the receiver answers, with what is on record if anything is, and opens one
      empty writer per file. */
  lemma PermittedOpens(env: Env, r: Receiver, m: Manifest)
    requires ReceiverOk(r) && r.phase.AwaitRequest? && Permits(env)
    ensures var y := ReceiverReact(env, r, Msg(TransferRequest(m)));
            && y.receiver.phase.Receiving? && y.receiver.phase.manifest == m && y.receiver.store == r.store
            && y.receiver.disk == OpenAll(r.disk, m, |m.files|)
            && y.out == [TransferResponse(ResponseTo(m, r.store))]
            && |y.receiver.phase.writers| == |m.files|
            && y.receiver.phase.bytesReceived == RecordedBytes(r.store, m.id)
            && forall f | 0 <= f < |m.files| ::
                 y.receiver.phase.writers[f] == Writer(m.files[f].path, m.chunkSize, m.files[f].size, {})
  {
    hide OpenAll, Announced, Bitmap.Encode;
  }

  /** Any other request is refused with its reason, and nothing is touched. */
  lemma NotPermittedRefuses(env: Env, r: Receiver, m: Manifest)
    requires ReceiverOk(r) && r.phase.AwaitRequest? && !Permits(env)
    ensures var y := ReceiverReact(env, r, Msg(TransferRequest(m)));
            && y.receiver == Receiver(ReceiverDone(Refused(RefusalReason(env))), r.disk, r.store)
            && y.out == [TransferResponse(Reject(RefusalReason(env)))]
  {
  }

  /** Anything but a request ends the receiver without an answer, and nothing is touched. */
  lemma OnlyRequestsOpen(env: Env, r: Receiver, x: Incoming)
    requires ReceiverOk(r) && r.phase.AwaitRequest? && !(x.Msg? && x.msg.TransferRequest?)
    ensures var y := ReceiverReact(env, r, x);
            && y.receiver == Receiver(ReceiverDone(if x.Reset? then Failed else UnexpectedMessage), r.disk, r.store)
            && y.out == []
  {
  }

  /** A step opens the transfer, or changes the disk of a receiver that waits for a request, only if the user or the
      settings permit it. */
  lemma StepOpensOnlyIfPermitted(cfg: Config, w: World, l: Label)
    requires |cfg.sources| == |cfg.manifest.files| && WorldOk(cfg, w) && Enabled(cfg, w, l)
    requires w.receiver.phase.AwaitRequest? && !l.Reconnect?
    ensures var r, r2 := w.receiver, Next(cfg, w, l).receiver;
            && (r2.phase.Receiving? || r2.disk != r.disk ==> l.ReceiverReceives? && Permits(l.env))
            && r2.store == r.store
  {
    hide SenderReact, PlainSize, OpenAll, Announced;
    if l.ReceiverReceives? {
      var x := Heard(cfg, w.toReceiver[0]);
      if x.Msg? && x.msg.TransferRequest? {
        if Permits(l.env) {
          PermittedOpens(l.env, w.receiver, x.msg.manifest);
        } else {
          NotPermittedRefuses(l.env, w.receiver, x.msg.manifest);
        }
      } else {
        OnlyRequestsOpen(l.env, w.receiver, x);
      }
      hide ReceiverReact, Heard;
      ReceiverMoves(cfg, l.env, w, ReceiverReact(l.env, w.receiver, x));
    }
  }

  lemma StaysOpenOnly(cfg: Config, w: World, l: Label)
    requires |cfg.sources| == |cfg.manifest.files| && WorldOk(cfg, w) && Enabled(cfg, w, l) && !l.Reconnect?
    requires Next(cfg, w, l).receiver.phase.Receiving?
    ensures !w.receiver.phase.ReceiverDone?
  {
    hide SenderReact, PlainSize;
  }

  /** In every run a receiver that is receiving was permitted to, in this very session. */
  lemma {:induction false} ReceivingWasPermitted(cfg: Config, ws: seq<World>, ls: seq<Label>, start: nat, i: nat)
    returns (k: nat)
    requires |cfg.sources| == |cfg.manifest.files| && Trace(cfg, ws, ls) && SessionFrom(cfg, ws, ls, start, i)
    requires ws[i].receiver.phase.Receiving?
    ensures start <= k < i && ls[k].ReceiverReceives? && Permits(ls[k].env)
  {
    hide Next, Enabled;
    assert StepOf(cfg, ws[i - 1], ls[i - 1], ws[i]);
    if ws[i - 1].receiver.phase.AwaitRequest? {
      StepOpensOnlyIfPermitted(cfg, ws[i - 1], ls[i - 1]);
      k := i - 1;
    } else {
      StaysOpenOnly(cfg, ws[i - 1], ls[i - 1]);
      k := ReceivingWasPermitted(cfg, ws, ls, start, i - 1);
    }
  }

  // ----- A refused sender -----

  predicate NoChunks(channel: seq<Incoming>) {
    forall i | 0 <= i < |channel| && channel[i].Msg? :: !channel[i].msg.ChunkData?
  }

  predicate OnlyRejects(channel: seq<Incoming>) {
    forall i | 0 <= i < |channel| && channel[i].Msg? ::
      channel[i].msg.TransferResponse? && channel[i].msg.response.Reject?
  }

  /** Behind a refusal: no chunk is under way, and nothing that would make the sender send one. */
  predicate Refusing(w: World) {
    w.receiver.phase.ReceiverDone? && w.receiver.phase.result.Refused? ==>
      && NoChunks(w.toReceiver) && OnlyRejects(w.toSender)
      && (w.sender.phase.AwaitResponse? || w.sender.phase.SenderDone?)
  }

  /** Only a receiver that refused says so, and only then the sender ends as rejected, with the same reason. */
  predicate RejectsAreTrue(w: World) {
    && (forall i | 0 <= i < |w.toSender| ::
          RejectIsTrue(w.toSender[i], w.receiver))
    && (w.sender.phase.SenderDone? && w.sender.phase.result.Rejected? ==>
          w.receiver.phase == ReceiverDone(Refused(w.sender.phase.result.reason)))
  }

  predicate RejectIsTrue(x: Incoming, r: Receiver) {
    x.Msg? && x.msg.TransferResponse? && x.msg.response.Reject? ==>
      r.phase == ReceiverDone(Refused(x.msg.response.reason))
  }

  lemma RejectedSenderStops(cfg: Config, s: Sender, x: Incoming)
    requires |cfg.sources| == |cfg.manifest.files| && SenderOk(cfg, s) && s.phase.AwaitResponse?
    requires x.Msg? ==> x.msg.TransferResponse? && x.msg.response.Reject?
    ensures var y := SenderReact(cfg, s, x);
            && y.out == [] && y.sender.phase.SenderDone?
            && (x.Msg? ==> y.sender == s.(phase := SenderDone(Rejected(x.msg.response.reason))))
  {
    hide Advance, FlatIds, Prefix;
  }

  lemma OnlyRejectRejects(cfg: Config, s: Sender, x: Incoming)
    requires |cfg.sources| == |cfg.manifest.files| && SenderOk(cfg, s) && !s.phase.SenderDone?
    requires var y := SenderReact(cfg, s, x).sender; y.phase.SenderDone? && y.phase.result.Rejected?
    ensures x == Msg(TransferResponse(Reject(SenderReact(cfg, s, x).sender.phase.result.reason)))
  {
    hide FlatIds, Prefix, Advance;
    match s.phase {
      case AwaitResponse =>
        if x == Msg(TransferResponse(Accept)) {
          AdvanceSends(cfg, {}, 0, 0);
        } else if x.Msg? && x.msg.TransferResponse? && x.msg.response.ResumeAt? {
          AdvanceSends(cfg, Bitmap.Decode(x.msg.response.received, TotalChunks(cfg.manifest)), 0, 0);
        }
      case AwaitAck(k) =>
        if x.Msg? && x.msg.ChunkAck? {
          IdInRange(SendCounts(cfg), k);
          AdvanceSends(cfg, s.skip, k + 1, s.bytesSent + |SendData(cfg, SendIds(cfg)[k])|);
        }
      case AwaitVerified =>
    }
  }

  lemma SenderStepRefusing(cfg: Config, w: World)
    requires |cfg.sources| == |cfg.manifest.files| && WorldOk(cfg, w) && Enabled(cfg, w, SenderReceives)
    requires Refusing(w) && RejectsAreTrue(w)
    ensures Refusing(Next(cfg, w, SenderReceives)) && RejectsAreTrue(Next(cfg, w, SenderReceives))
  {
    hide FlatIds, Prefix, PlainSize, Advance;
    var x := Heard(cfg, w.toSender[0]);
    var y := SenderReact(cfg, w.sender, x);
    SenderMoves(cfg, w, y);
    assert RejectIsTrue(w.toSender[0], w.receiver);
    hide SenderReact, Next;
    if y.sender.phase.SenderDone? && y.sender.phase.result.Rejected? { OnlyRejectRejects(cfg, w.sender, x); }
    if w.receiver.phase.ReceiverDone? && w.receiver.phase.result.Refused? {
      RejectedSenderStops(cfg, w.sender, x);
    }
    assert forall i | 0 <= i < |w.toSender[1..]| :: w.toSender[1..][i] == w.toSender[i + 1];
  }

  lemma RefusalFollows(env: Env, r: Receiver, x: Incoming)
    requires ReceiverOk(r) && !r.phase.ReceiverDone?
    ensures var y := ReceiverReact(env, r, x);
            && (y.receiver.phase.ReceiverDone? && y.receiver.phase.result.Refused? ==>
                  r.phase.AwaitRequest? && y.out == [TransferResponse(Reject(y.receiver.phase.result.reason))])
            && forall i | 0 <= i < |y.out| :: RejectIsTrue(Msg(y.out[i]), y.receiver)
  {
    hide FinalizeUpTo, WriteChunk, OpenAll, Announced;
  }

  lemma ReceiverStepRefusing(p: Plan, env: Env, w: World)
    requires PlanOk(p) && WorldOk(p.cfg, w) && Enabled(p.cfg, w, ReceiverReceives(env)) && Flows(p, w)
    requires RejectsAreTrue(w)
    ensures Refusing(Next(p.cfg, w, ReceiverReceives(env))) && RejectsAreTrue(Next(p.cfg, w, ReceiverReceives(env)))
  {
    assert w.receiver.phase.AwaitRequest? ==> NotOpen(p, w);
    hide FlatIds, Prefix, ItemsOk, ValidConfig, PlainSize, Flows, ReceiverReact, Next;
    var x := Heard(p.cfg, w.toReceiver[0]);
    var y := ReceiverReact(env, w.receiver, x);
    ReceiverMoves(p.cfg, env, w, y);
    RefusalFollows(env, w.receiver, x);
    var w2 := Next(p.cfg, w, ReceiverReceives(env));
    forall i | 0 <= i < |w2.toSender| ensures RejectIsTrue(w2.toSender[i], w2.receiver) {
      if i < |w.toSender| { assert RejectIsTrue(w.toSender[i], w.receiver); }
    }
    assert forall i | 0 <= i < |w2.toReceiver| :: w2.toReceiver[i] == w.toReceiver[i + 1];
  }

  lemma OtherStepRefusing(cfg: Config, w: World, l: Label)
    requires |cfg.sources| == |cfg.manifest.files| && WorldOk(cfg, w) && Enabled(cfg, w, l)
    requires !l.SenderReceives? && !l.ReceiverReceives? && Refusing(w) && RejectsAreTrue(w)
    ensures Refusing(Next(cfg, w, l)) && RejectsAreTrue(Next(cfg, w, l))
  {
    hide FlatIds, Prefix, PlainSize, FinalizeUpTo, WriteChunk;
    var w2 := Next(cfg, w, l);
    forall i | 0 <= i < |w2.toSender| ensures RejectIsTrue(w2.toSender[i], w2.receiver) {
      if i < |w.toSender| { assert RejectIsTrue(w.toSender[i], w.receiver); }
    }
  }

  /** In every run: once the receiver has refused, no chunk is ever under way to it; and a sender ends as rejected
      only if the receiver of its session refused, for the reason it gives. */
  lemma {:induction false} RefusalStands(cfg: Config, ws: seq<World>, ls: seq<Label>, i: nat)
    requires ValidConfig(cfg) && Trace(cfg, ws, ls) && i < |ws|
    ensures Refusing(ws[i]) && RejectsAreTrue(ws[i])
  {
    assert |cfg.sources| == |cfg.manifest.files|;
    hide ValidConfig, FlatIds, Prefix, Next, Enabled, Flows, PlanOf, SessionFrom;
    if i > 0 {
      RefusalStands(cfg, ws, ls, i - 1);
      assert StepOf(cfg, ws[i - 1], ls[i - 1], ws[i]);
      var l := ls[i - 1];
      if l.SenderReceives? {
        SenderStepRefusing(cfg, ws[i - 1]);
      } else if l.ReceiverReceives? {
        var start, p := RunFlows(cfg, l.env, ws, ls, i - 1);
        ReceiverStepRefusing(p, l.env, ws[i - 1]);
      } else {
        OtherStepRefusing(cfg, ws[i - 1], l);
      }
    }
  }
}
