/** The transfer state machine: what its traces look like, and that both parties' runs are such traces. */
module StateMachine {
  import opened Types
  import opened ChunkIndex
  import opened Protocol
  import Bitmap
  import SendTransfer
  import Storage
  import RecvTransfer

  datatype TransferState =
    | Handshaking
    | Negotiating
    | Transferring
    | Verifying
    | Completed
    | Failed
    | Cancelled
    | Paused

  predicate IsTerminal(s: TransferState) {
    s.Completed? || s.Failed? || s.Cancelled?
  }

  predicate IsValidTransition(from: TransferState, to: TransferState) {
    match (from, to)
    case (Handshaking, Negotiating) => true
    case (Negotiating, Transferring) => true
    case (Transferring, Verifying) => true
    case (Verifying, Completed) => true
    case (Negotiating, Cancelled) => true
    case (Handshaking, Cancelled) => true
    case (Transferring, Cancelled) => true
    case (Verifying, Cancelled) => true
    case (Handshaking, Failed) => true
    case (Negotiating, Failed) => true
    case (Transferring, Failed) => true
    case (Verifying, Failed) => true
    case (Transferring, Paused) => true
    case (Paused, Transferring) => true
    case (Paused, Cancelled) => true
    case (Paused, Failed) => true
    case (Negotiating, Negotiating) => true
    case _ => false
  }

  class TransferStateMachine {
    var state: TransferState

    constructor ()
      ensures state == Handshaking
    {
      state := Handshaking;
    }

    constructor FromState(state: TransferState)
      ensures this.state == state
    {
      this.state := state;
    }

    /** A refused transition reports the state it was refused in and leaves it. */
    method Transition(to: TransferState) returns (r: Result<(), TransferState>)
      modifies this
      ensures if IsValidTransition(old(state), to) then r == Ok(()) && state == to
              else r == Err(old(state)) && state == old(state)
    {
      if IsValidTransition(state, to) {
        state := to;
        r := Ok(());
      } else {
        r := Err(state);
      }
    }

    /** Follows a whole trace; the machine accepts it up to the first refused transition. */
    method Follow(trace: seq<TransferState>) returns (accepted: bool)
      modifies this
      ensures accepted <==> Accepts(old(state), trace)
      ensures accepted ==> state == Last(old(state), trace)
    {
      ghost var start := state;
      for i := 0 to |trace|
        invariant Accepts(start, trace) <==> Accepts(state, trace[i..])
        invariant Last(start, trace) == Last(state, trace[i..])
      {
        var r := Transition(trace[i]);
        if r.Err? {
          return false;
        }
      }
      accepted := true;
    }
  }

  // ----- Traces -----

  predicate Accepts(from: TransferState, trace: seq<TransferState>)
    decreases |trace|
  {
    trace == [] || (IsValidTransition(from, trace[0]) && Accepts(trace[0], trace[1..]))
  }

  function Last(from: TransferState, trace: seq<TransferState>): TransferState
    decreases |trace|
  {
    if trace == [] then from else Last(trace[0], trace[1..])
  }

  function StateAt(from: TransferState, trace: seq<TransferState>, i: nat): TransferState
    requires i <= |trace|
  {
    if i == 0 then from else trace[i - 1]
  }

  lemma {:induction false} AcceptsStep(from: TransferState, trace: seq<TransferState>, i: nat)
    requires Accepts(from, trace) && i < |trace|
    ensures IsValidTransition(StateAt(from, trace, i), trace[i])
    decreases i
  {
    if i > 0 {
      AcceptsStep(trace[0], trace[1..], i - 1);
    }
  }

  function Rank(s: TransferState): nat {
    match s
    case Handshaking => 0
    case Negotiating => 1
    case Transferring => 2
    case Paused => 2
    case Verifying => 3
    case _ => 4
  }

  predicate Stalls(from: TransferState, to: TransferState) {
    || (from.Negotiating? && to.Negotiating?)
    || (from.Transferring? && to.Paused?)
    || (from.Paused? && to.Transferring?)
  }

  /** The diagram in one sentence: from a state that is not terminal one may abort, take one of the three
      stalling transitions, or go up by exactly one rank without involving the paused state. */
  lemma ValidTransitionsByRank(from: TransferState, to: TransferState)
    ensures IsValidTransition(from, to)
       <==> !IsTerminal(from)
            && (to.Failed? || to.Cancelled? || Stalls(from, to)
                || (!from.Paused? && !to.Paused? && Rank(to) == Rank(from) + 1))
  {
  }

  /** Along every accepted trace the rank never decreases, and it stays equal over a stretch only by
      stalling transitions. */
  lemma {:induction false} RankGrows(from: TransferState, trace: seq<TransferState>, i: nat, j: nat)
    requires Accepts(from, trace) && i <= j <= |trace|
    ensures Rank(StateAt(from, trace, i)) <= Rank(StateAt(from, trace, j))
    ensures Rank(StateAt(from, trace, i)) == Rank(StateAt(from, trace, j)) ==>
              forall k | i <= k < j :: Stalls(StateAt(from, trace, k), trace[k])
    decreases j
  {
    if i < j {
      RankGrows(from, trace, i, j - 1);
      AcceptsStep(from, trace, j - 1);
    }
  }

  /** Terminal states are absorbing: only as the last state of a trace. */
  lemma TerminalIsLast(from: TransferState, trace: seq<TransferState>, i: nat)
    requires Accepts(from, trace) && i <= |trace| && IsTerminal(StateAt(from, trace, i))
    ensures i == |trace|
  {
    if i < |trace| {
      AcceptsStep(from, trace, i);
    }
  }

  /** Before anything is transferred, paused or verified, it has been negotiated and transferred. */
  lemma {:induction false} TransferAfterNegotiation(trace: seq<TransferState>, i: nat) returns (n: nat, t: nat)
    requires Accepts(Handshaking, trace) && i < |trace|
    requires trace[i].Transferring? || trace[i].Paused?
    ensures n < t <= i && trace[n].Negotiating? && trace[t].Transferring?
    decreases i
  {
    AcceptsStep(Handshaking, trace, i);
    if trace[i].Transferring? && trace[i - 1].Negotiating? {
      n, t := i - 1, i;
    } else {
      n, t := TransferAfterNegotiation(trace, i - 1);
    }
  }

  /** Every accepted trace from the handshake to completion passes negotiation, transfer and verification
      in this order. */
  lemma CompletionPassesAllPhases(trace: seq<TransferState>, i: nat) returns (n: nat, t: nat, v: nat)
    requires Accepts(Handshaking, trace) && i < |trace| && trace[i].Completed?
    ensures n < t < v < i
    ensures trace[n].Negotiating? && trace[t].Transferring? && trace[v].Verifying?
  {
    AcceptsStep(Handshaking, trace, i);
    v := i - 1;
    AcceptsStep(Handshaking, trace, v);
    n, t := TransferAfterNegotiation(trace, v - 1);
  }

  lemma {:induction false} AcceptsConcat(from: TransferState, a: seq<TransferState>, b: seq<TransferState>)
    requires Accepts(from, a) && Accepts(Last(from, a), b)
    ensures Accepts(from, a + b) && Last(from, a + b) == Last(Last(from, a), b)
    decreases |a|
  {
    if a == [] {
      assert a + b == b;
    } else {
      AcceptsConcat(a[0], a[1..], b);
      assert (a + b)[1..] == a[1..] + b;
    }
  }

  lemma OneStep(from: TransferState, x: TransferState)
    ensures Accepts(from, [x]) == IsValidTransition(from, x) && Last(from, [x]) == x
  {
    var rest := [x][1..];
    assert rest == [];
    assert Last(x, rest) == x;
  }

  lemma ShortTraces(from: TransferState, x: TransferState, y: TransferState)
    ensures Accepts(from, []) && Last(from, []) == from
    ensures Accepts(from, [x]) == IsValidTransition(from, x) && Last(from, [x]) == x
    ensures Accepts(from, [x, y]) == (IsValidTransition(from, x) && IsValidTransition(x, y)) && Last(from, [x, y]) == y
  {
    OneStep(from, x);
    OneStep(x, y);
    var rest := [x, y][1..];
    assert rest == [y];
    assert Last(from, [x, y]) == Last(x, rest);
  }

  // ----- The sender's run -----

  function SenderState(phase: SenderPhase): TransferState {
    match phase
    case AwaitResponse => Negotiating
    case AwaitAck(_) => Transferring
    case AwaitVerified => Verifying
    case SenderDone(result) =>
      if result.Completed? then TransferState.Completed
      else if result.Rejected? || result.Cancelled? then TransferState.Cancelled
      else TransferState.Failed
  }

  /** States entered by one reaction of the sender: the chunk phase is entered even when every chunk is
      skipped and the completion message follows at once. */
  function SenderPath(from: SenderPhase, to: SenderPhase): seq<TransferState> {
    match (from, to)
    case (AwaitAck(_), AwaitAck(_)) => []
    case (AwaitResponse, AwaitVerified) => [Transferring, Verifying]
    case (_, _) => [SenderState(to)]
  }

  function SenderTrace(cfg: Config, s: Sender, events: seq<Incoming>, j: nat): seq<TransferState>
    requires |cfg.sources| == |cfg.manifest.files| && SenderOk(cfg, s)
    decreases if j < |events| then |events| - j else 0
  {
    if s.phase.SenderDone? then []
    else
      var x := SenderReact(cfg, s, EventAt(events, j));
      SenderPath(s.phase, x.sender.phase)
      + (if j < |events| then SenderTrace(cfg, x.sender, events, j + 1) else [])
  }

  lemma {:induction false} AdvanceMovesOn(cfg: Config, skip: set<nat>, k: nat, bytes: nat)
    requires |cfg.sources| == |cfg.manifest.files| && k <= |SendIds(cfg)|
    ensures var phase := Advance(cfg, skip, k, bytes).sender.phase;
            phase.AwaitAck? || phase.AwaitVerified?
    decreases |SendIds(cfg)| - k
  {
    hide FlatIds, Prefix, GlobalOffset;
    if k < |SendIds(cfg)| {
      IdInRange(SendCounts(cfg), k);
      AdvanceMovesOn(cfg, skip, k + 1, bytes + SendSize(cfg, SendIds(cfg)[k].file));
    }
  }

  lemma SenderReactionAccepted(cfg: Config, s: Sender, event: Incoming)
    requires |cfg.sources| == |cfg.manifest.files| && SenderOk(cfg, s) && !s.phase.SenderDone?
    ensures var to := SenderReact(cfg, s, event).sender.phase;
            && Accepts(SenderState(s.phase), SenderPath(s.phase, to))
            && Last(SenderState(s.phase), SenderPath(s.phase, to)) == SenderState(to)
  {
    hide FlatIds, Prefix, GlobalOffset, Advance;
    var to := SenderReact(cfg, s, event).sender.phase;
    if s.phase.AwaitResponse? && event.Msg? && event.msg.TransferResponse? {
      if event.msg.response.Accept? {
        AdvanceMovesOn(cfg, {}, 0, 0);
      } else if event.msg.response.ResumeAt? {
        AdvanceMovesOn(cfg, Bitmap.Decode(event.msg.response.received, TotalChunks(cfg.manifest)), 0, 0);
      }
    } else if s.phase.AwaitAck? && event.Msg? && event.msg.ChunkAck? {
      IdInRange(SendCounts(cfg), s.phase.k);
      AdvanceMovesOn(cfg, s.skip, s.phase.k + 1, s.bytesSent + |SendData(cfg, SendIds(cfg)[s.phase.k])|);
    }
    var path := SenderPath(s.phase, to);
    ShortTraces(SenderState(s.phase), SenderState(to), Verifying);
    ShortTraces(SenderState(s.phase), Transferring, Verifying);
    assert path == [] || path == [SenderState(to)] || path == [Transferring, Verifying];
  }

  lemma {:induction false} SenderTraceAccepted(cfg: Config, s: Sender, events: seq<Incoming>, j: nat)
    requires |cfg.sources| == |cfg.manifest.files| && SenderOk(cfg, s)
    ensures Accepts(SenderState(s.phase), SenderTrace(cfg, s, events, j))
    ensures Last(SenderState(s.phase), SenderTrace(cfg, s, events, j))
         == SenderState(SendTransfer.RunSender(cfg, s, events, j, []).0.phase)
    decreases if j < |events| then |events| - j else 0
  {
    hide FlatIds, Prefix, SenderReact, SenderPath, Accepts, Last, SenderState;
    ShortTraces(SenderState(s.phase), TransferState.Failed, TransferState.Failed);
    if !s.phase.SenderDone? {
      var event := EventAt(events, j);
      var x := SenderReact(cfg, s, event);
      var path := SenderPath(s.phase, x.sender.phase);
      SenderReactionAccepted(cfg, s, event);
      if j < |events| {
        SenderTraceAccepted(cfg, x.sender, events, j + 1);
        SentPlaysNoPart(cfg, x.sender, events, j + 1, [] + x.out, []);
        AcceptsConcat(SenderState(s.phase), path, SenderTrace(cfg, x.sender, events, j + 1));
      } else {
        assert path + [] == path;
      }
    }
  }

  lemma {:induction false} SentPlaysNoPart(cfg: Config, s: Sender, events: seq<Incoming>, j: nat,
                                           a: seq<Message>, b: seq<Message>)
    requires |cfg.sources| == |cfg.manifest.files| && SenderOk(cfg, s)
    ensures SendTransfer.RunSender(cfg, s, events, j, a).0 == SendTransfer.RunSender(cfg, s, events, j, b).0
    decreases if j < |events| then |events| - j else 0
  {
    hide FlatIds, Prefix, SenderReact;
    if !s.phase.SenderDone? && j < |events| {
      var x := SenderReact(cfg, s, EventAt(events, j));
      SentPlaysNoPart(cfg, x.sender, events, j + 1, a + x.out, b + x.out);
    }
  }

  /** Whatever the sender receives, its whole run, from the handshake to its end, is a trace the state
      machine accepts, ending in the state of its result; so a completed run has passed all phases. */
  lemma SenderRunRefinesMachine(cfg: Config, events: seq<Incoming>)
    requires |cfg.sources| == |cfg.manifest.files|
    ensures var trace := [Negotiating] + SenderTrace(cfg, INITIAL_SENDER, events, 0);
            && Accepts(Handshaking, trace)
            && Last(Handshaking, trace)
               == SenderState(SendTransfer.RunSender(cfg, INITIAL_SENDER, events, 0, []).0.phase)
  {
    SenderTraceAccepted(cfg, INITIAL_SENDER, events, 0);
    assert [Negotiating][1..] == [];
    AcceptsConcat(Handshaking, [Negotiating], SenderTrace(cfg, INITIAL_SENDER, events, 0));
  }

  // ----- The receiver's run -----

  function ReceiverState(phase: ReceiverPhase): TransferState {
    match phase
    case AwaitRequest => Negotiating
    case Receiving(_, _, _) => Transferring
    case ReceiverDone(Finished(allOk, _)) => if allOk then TransferState.Completed else TransferState.Failed
    case ReceiverDone(Refused(_)) => TransferState.Cancelled
    case ReceiverDone(Interrupted(_)) => TransferState.Cancelled
    case ReceiverDone(_) => TransferState.Failed
  }

  function ReceiverPath(from: ReceiverPhase, to: ReceiverPhase): seq<TransferState> {
    match (from, to)
    case (Receiving(_, _, _), Receiving(_, _, _)) => []
    case (Receiving(_, _, _), ReceiverDone(Finished(_, _))) => [Verifying, ReceiverState(to)]
    case (_, _) => [ReceiverState(to)]
  }

  function ReceiverTrace(env: Env, r: Receiver, events: seq<Incoming>, j: nat): seq<TransferState>
    requires ReceiverOk(r)
    decreases if j < |events| then |events| - j else 0
  {
    if r.phase.ReceiverDone? then []
    else
      var x := ReceiverReact(env, r, EventAt(events, j));
      ReceiverPath(r.phase, x.receiver.phase)
      + (if j < |events| then ReceiverTrace(env, x.receiver, events, j + 1) else [])
  }

  lemma ReceiverReactionAccepted(env: Env, r: Receiver, event: Incoming)
    requires ReceiverOk(r) && !r.phase.ReceiverDone?
    ensures var to := ReceiverReact(env, r, event).receiver.phase;
            && Accepts(ReceiverState(r.phase), ReceiverPath(r.phase, to))
            && Last(ReceiverState(r.phase), ReceiverPath(r.phase, to)) == ReceiverState(to)
  {
    hide Announced, OpenAll, NewWriters, SavedState, Storage.FinalizeUpTo, Storage.WriteChunk;
    var to := ReceiverReact(env, r, event).receiver.phase;
    var path := ReceiverPath(r.phase, to);
    ShortTraces(ReceiverState(r.phase), ReceiverState(to), Verifying);
    ShortTraces(ReceiverState(r.phase), Verifying, ReceiverState(to));
    assert path == [] || path == [ReceiverState(to)] || path == [Verifying, ReceiverState(to)];
  }

  lemma {:induction false} ReceiverTraceAccepted(env: Env, r: Receiver, events: seq<Incoming>, j: nat,
                                                 sent: seq<Message>)
    requires ReceiverOk(r)
    ensures Accepts(ReceiverState(r.phase), ReceiverTrace(env, r, events, j))
    ensures Last(ReceiverState(r.phase), ReceiverTrace(env, r, events, j))
         == ReceiverState(RecvTransfer.RunReceiver(env, r, events, j, sent).0.phase)
    decreases if j < |events| then |events| - j else 0
  {
    hide ReceiverReact, ReceiverPath, Accepts, Last, ReceiverState;
    ShortTraces(ReceiverState(r.phase), TransferState.Failed, TransferState.Failed);
    if !r.phase.ReceiverDone? {
      var event := EventAt(events, j);
      var x := ReceiverReact(env, r, event);
      var path := ReceiverPath(r.phase, x.receiver.phase);
      ReceiverReactionAccepted(env, r, event);
      if j < |events| {
        ReceiverTraceAccepted(env, x.receiver, events, j + 1, sent + x.out);
        AcceptsConcat(ReceiverState(r.phase), path, ReceiverTrace(env, x.receiver, events, j + 1));
      } else {
        assert path + [] == path;
      }
    }
  }

  /** The same for the receiver, whatever it receives and whatever is on its disk. */
  lemma ReceiverRunRefinesMachine(env: Env, r: Receiver, events: seq<Incoming>)
    requires r.phase.AwaitRequest?
    ensures var trace := [Negotiating] + ReceiverTrace(env, r, events, 0);
            && Accepts(Handshaking, trace)
            && Last(Handshaking, trace) == ReceiverState(RecvTransfer.RunReceiver(env, r, events, 0, []).0.phase)
  {
    ReceiverTraceAccepted(env, r, events, 0, []);
    assert [Negotiating][1..] == [];
    AcceptsConcat(Handshaking, [Negotiating], ReceiverTrace(env, r, events, 0));
  }
}
