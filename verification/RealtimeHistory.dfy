/** Where the dispatches and barriers of a run come from: the moments their recipients were read off the sockets. */
module RealtimeHistory {
  import opened Options
  import opened RealtimeLog
  import opened RealtimeModel
  import opened RealtimeSafety
  import opened RealtimeFrames

  type Rooms = map<SocketId, set<string>>

  /** The rooms of every connected socket. */
  function RoomsOf(sockets: map<SocketId, Socket>): Rooms {
    map id | id in sockets && sockets[id].connected :: sockets[id].rooms
  }

  // ---------------------------------------------------------------- moments of a run

  /** At moment `k` the record is stored, the runtime is ready, and these are the rooms of the connected sockets. */
  ghost predicate CapturedAt(s: State, actions: seq<Action>, k: nat, r: Record, audience: Rooms) {
    k <= |actions| && var t := Run(s, actions[..k]);
    r in t.log.records && t.health.Ready() && audience == RoomsOf(t.sockets)
  }

  /** At moment `k` the log ends at `barrier`. */
  ghost predicate LatestAt(s: State, actions: seq<Action>, k: nat, barrier: nat) {
    k <= |actions| && barrier == Run(s, actions[..k]).log.latest
  }

  /** At moment `k1` the log ends at `barrier`, and at the moment `k2`, not before it, these are the connected sockets. */
  ghost predicate BarrierReadAt(s: State, actions: seq<Action>, k1: nat, k2: nat, barrier: nat, addressed: set<SocketId>) {
    k1 <= k2 <= |actions| && LatestAt(s, actions, k1, barrier) && addressed == Connected(Run(s, actions[..k2]).sockets)
  }

  /** Action `k` is the answer that denies the socket this room, while the record is being dispatched. */
  ghost predicate DeniedAt(s: State, actions: seq<Action>, k: nat, r: Record, id: SocketId, room: string) {
    k < |actions| && actions[k] == TargetChecked(r.streamId, id, Denied) && Asks(Run(s, actions[..k]), r, id, room)
  }

  /** The running dispatch of the record waits to hear whether the socket may have the room. */
  ghost predicate Asks(t: State, r: Record, id: SocketId, room: string) {
    Evaluating(t, r.streamId, id) && var op := t.queues[r.streamId][0];
    op.record == r && op.phase.recipients[id].Authorizing?
    && op.phase.recipients[id].remaining != [] && op.phase.recipients[id].remaining[0] == room
  }

  ghost predicate WasCaptured(s: State, actions: seq<Action>, r: Record, audience: Rooms) {
    exists k :: CapturedAt(s, actions, k, r, audience)
  }

  ghost predicate BarrierWasRead(s: State, actions: seq<Action>, barrier: nat, addressed: set<SocketId>) {
    exists k1, k2 :: BarrierReadAt(s, actions, k1, k2, barrier, addressed)
  }

  ghost predicate WasDenied(s: State, actions: seq<Action>, r: Record, id: SocketId, room: string) {
    exists k :: DeniedAt(s, actions, k, r, id, room)
  }

  // ---------------------------------------------------------------- what a state remembers of such moments

  type Captures = (Record, Rooms) -> bool
  type Barriers = (nat, set<SocketId>) -> bool
  type Denials = (Record, SocketId, string) -> bool

  function DeniedOf(recipient: Recipient): seq<string> {
    match recipient
    case Authorizing(_, denied, _, _) => denied
    case Settled(Refused(denied)) => denied
    case _ => []
  }

  ghost predicate HeadRecorded(op: Dispatch, captured: Captures, denied: Denials) {
    op.phase.Fanout? ==>
      && (op.only.None? ==> captured(op.record, op.phase.audience))
      && forall id, room :: id in op.phase.recipients && room in DeniedOf(op.phase.recipients[id]) ==> denied(op.record, id, room)
  }

  ghost predicate HeadsRecorded(queues: map<string, seq<Dispatch>>, captured: Captures, denied: Denials) {
    forall stream :: Running(queues, stream) ==> HeadRecorded(queues[stream][0], captured, denied)
  }

  /** What a finished dispatch says of its audience and of its refusals. */
  ghost predicate CompletionRecorded(r: Record, c: Completion, captured: Captures, denied: Denials) {
    && captured(r, c.audience)
    && forall id, room :: id in c.outcomes && c.outcomes[id].Refused? && room in c.outcomes[id].denied ==> denied(r, id, room)
  }

  ghost predicate CompletedRecorded(log: Log, completed: map<nat, Completion>, captured: Captures, denied: Denials) {
    forall r :: r in log.records && r.sequence in completed ==> CompletionRecorded(r, completed[r.sequence], captured, denied)
  }

  ghost predicate BarrierRecorded(start: nat, resync: Resync, barrier: nat, notices: map<SocketId, Notice>, read: Barriers) {
    && (resync.Notifying? ==> read(resync.barrier, resync.notices.Keys))
    && (barrier == start || read(barrier, notices.Keys))
  }

  ghost predicate Recorded(t: State, captured: Captures, read: Barriers, denied: Denials) {
    && HeadsRecorded(t.queues, captured, denied)
    && CompletedRecorded(t.log, t.completed, captured, denied)
    && BarrierRecorded(t.start, t.resync, t.barrier, t.barrierNotices, read)
  }

  // ---------------------------------------------------------------- queues

  lemma {:induction false} EnqueueRecorded(queues: map<string, seq<Dispatch>>, op: Dispatch, captured: Captures, denied: Denials)
    requires HeadsRecorded(queues, captured, denied) && op.phase.Queued?
    ensures HeadsRecorded(Enqueue(queues, op), captured, denied)
  {
    var after := Enqueue(queues, op);
    forall stream | Running(after, stream) ensures HeadRecorded(after[stream][0], captured, denied) {
      if Running(queues, stream) { assert HeadRecorded(queues[stream][0], captured, denied); }
    }
  }

  lemma {:induction false} SetHeadRecorded(
      queues: map<string, seq<Dispatch>>, stream: string, phase: Phase, captured: Captures, denied: Denials)
    requires HeadsRecorded(queues, captured, denied) && Running(queues, stream)
    requires HeadRecorded(queues[stream][0].(phase := phase), captured, denied)
    ensures HeadsRecorded(SetHead(queues, stream, phase), captured, denied)
  {
    var after := SetHead(queues, stream, phase);
    forall other | Running(after, other) ensures HeadRecorded(after[other][0], captured, denied) {
      if other != stream { assert HeadRecorded(queues[other][0], captured, denied); }
    }
  }

  /** Behind the running operation of a stream, every other one still waits. */
  lemma {:induction false} PopRecorded(t: State, stream: string, captured: Captures, denied: Denials)
    requires QueuesOk(t.log, t.sockets, t.queues) && HeadsRecorded(t.queues, captured, denied) && Running(t.queues, stream)
    ensures HeadsRecorded(PopHead(t.queues, stream), captured, denied)
  {
    var after := PopHead(t.queues, stream);
    forall other | Running(after, other) ensures HeadRecorded(after[other][0], captured, denied) {
      if other == stream {
        assert QueueOk(t.log, t.sockets, stream, t.queues[stream]);
        assert OpOk(t.log, t.sockets, stream, 1, t.queues[stream][1]);
      } else {
        assert HeadRecorded(t.queues[other][0], captured, denied);
      }
    }
  }

  lemma {:induction false} SetRecipientRecorded(
      t: State, stream: string, id: SocketId, recipient: Recipient, captured: Captures, denied: Denials)
    requires HeadsRecorded(t.queues, captured, denied) && Evaluating(t, stream, id)
    requires forall room :: room in DeniedOf(recipient) ==> denied(t.queues[stream][0].record, id, room)
    ensures HeadsRecorded(SetRecipient(t, stream, id, recipient).queues, captured, denied)
  {
    var phase := t.queues[stream][0].phase;
    assert HeadRecorded(t.queues[stream][0], captured, denied);
    SetHeadRecorded(t.queues, stream, phase.(recipients := phase.recipients[id := recipient]), captured, denied);
  }

  // ---------------------------------------------------------------- what each step records

  lemma {:induction false} SameBooksRecorded(t: State, u: State, captured: Captures, read: Barriers, denied: Denials)
    requires Recorded(t, captured, read, denied) && SameBooks(t, u)
    ensures Recorded(u, captured, read, denied)
  {
  }

  lemma {:induction false} AdvanceRecorded(
      t: State, from: nat, rows: seq<Record>, index: nat, captured: Captures, read: Barriers, denied: Denials)
    requires Recorded(t, captured, read, denied) && index <= |rows|
    ensures Recorded(Advance(t, from, rows, index), captured, read, denied)
    decreases |rows| - index
  {
    if index < |rows| {
      if rows[index].sequence <= t.cursor {
        AdvanceRecorded(t, from, rows, index + 1, captured, read, denied);
      } else {
        EnqueueRecorded(t.queues, Dispatch(rows[index], None, Queued), captured, denied);
      }
    }
  }

  lemma {:induction false} BatchRecorded(
      t: State, from: nat, rows: seq<Record>, captured: Captures, read: Barriers, denied: Denials)
    requires Recorded(t, captured, read, denied)
    ensures Recorded(BeginBatch(t, from, rows), captured, read, denied)
  {
    AdvanceRecorded(t, from, rows, 0, captured, read, denied);
  }

  lemma {:induction false} ReadRecorded(t: State, captured: Captures, read: Barriers, denied: Denials)
    requires Recorded(t, captured, read, denied)
    ensures Recorded(ReadResumedStep(t), captured, read, denied)
  {
    if t.drain.Reading? && t.drain.answer.Some? {
      match t.drain.answer.value
      case Unavailable =>
        EndIsBeside(t, false);
        SameBooksRecorded(t, FailDrain(t), captured, read, denied);
      case TooOld => SignalRecorded(t, captured, read, denied);
      case Rows(records) => BatchRecorded(SetControlPlane(t, true), t.drain.from, records, captured, read, denied);
    }
  }

  lemma {:induction false} DispatchedRecorded(t: State, captured: Captures, read: Barriers, denied: Denials)
    requires Recorded(t, captured, read, denied)
    ensures Recorded(DispatchResumedStep(t), captured, read, denied)
  {
    if t.drain.Dispatching? && t.drain.result == Some(true) && t.drain.index < |t.drain.records| {
      AdvanceRecorded(t.(cursor := t.drain.records[t.drain.index].sequence), t.drain.from, t.drain.records,
                      t.drain.index + 1, captured, read, denied);
    }
  }

  lemma {:induction false} LogRecorded(t: State, a: Action, captured: Captures, read: Barriers, denied: Denials)
    requires Recorded(t, captured, read, denied) && CompletedOk(t.log, t.completed, t.sockets)
    requires a.Publish? || a.PoisonRemediated? || a.Prune?
    ensures Recorded(Apply(t, a), captured, read, denied)
  {
    var u := Apply(t, a);
    forall r | r in u.log.records && r.sequence in u.completed
      ensures CompletionRecorded(r, u.completed[r.sequence], captured, denied)
    {
      assert r in t.log.records;
    }
  }

  lemma {:induction false} BarrierReadRecorded(t: State, ok: bool, captured: Captures, read: Barriers, denied: Denials)
    requires Recorded(t, captured, read, denied)
    ensures Recorded(BarrierReadStep(t, ok), captured, read, denied)
  {
  }

  /** The return from reading the barrier is the one moment that fixes its recipients. */
  lemma {:induction false} BarrierResumedRecorded(t: State, captured: Captures, read: Barriers, denied: Denials)
    requires Recorded(t, captured, read, denied)
    requires forall b :: Answered(t.resync, b) ==> read(b, Connected(t.sockets))
    ensures Recorded(BarrierResumedStep(t), captured, read, denied)
  {
    if t.resync.AwaitBarrier? && t.resync.answer.Some? && t.resync.answer.value.Latest? {
      assert Answered(t.resync, t.resync.answer.value.sequence);
      assert BarrierResumedStep(t).resync.notices.Keys == Connected(t.sockets);
    }
  }

  /** Their answers keep them. */
  lemma {:induction false} BarrierAnswerRecorded(
      t: State, id: SocketId, account: AccountAnswer, captured: Captures, read: Barriers, denied: Denials)
    requires Recorded(t, captured, read, denied)
    ensures Recorded(BarrierRecipientStep(t, id, account), captured, read, denied)
  {
    if t.resync.Notifying? && id in t.resync.notices {
      assert BarrierRecipientStep(t, id, account).resync.notices.Keys == t.resync.notices.Keys;
    }
  }

  lemma {:induction false} BarrierDoneRecorded(t: State, captured: Captures, read: Barriers, denied: Denials)
    requires Recorded(t, captured, read, denied)
    ensures Recorded(BarrierDoneStep(t), captured, read, denied)
  {
  }

  lemma {:induction false} SignalRecorded(t: State, captured: Captures, read: Barriers, denied: Denials)
    requires Recorded(t, captured, read, denied)
    ensures Recorded(RequireResync(t), captured, read, denied)
  {
  }

  lemma {:induction false} ResyncRecorded(t: State, a: Action, captured: Captures, read: Barriers, denied: Denials)
    requires Recorded(t, captured, read, denied)
    requires forall b :: Answered(t.resync, b) ==> read(b, Connected(t.sockets))
    requires a.ResyncSignal? || a.BarrierRead? || a.BarrierResumed? || a.BarrierRecipient? || a.BarrierDone?
    ensures Recorded(Apply(t, a), captured, read, denied)
  {
    match a
    case ResyncSignal => SignalRecorded(t, captured, read, denied);
    case BarrierRead(ok) => BarrierReadRecorded(t, ok, captured, read, denied);
    case BarrierResumed => BarrierResumedRecorded(t, captured, read, denied);
    case BarrierRecipient(id, account) => BarrierAnswerRecorded(t, id, account, captured, read, denied);
    case BarrierDone => BarrierDoneRecorded(t, captured, read, denied);
  }

  lemma {:induction false} QueueingRecorded(t: State, a: Action, captured: Captures, read: Barriers, denied: Denials)
    requires Recorded(t, captured, read, denied) && (a.ReplayQueued? || a.DispatchStarted?)
    ensures Recorded(Apply(t, a), captured, read, denied)
  {
    if a.ReplayQueued? {
      EnqueueRecorded(t.queues, Dispatch(a.record, Some(a.id), Queued), captured, denied);
    } else if Running(t.queues, a.stream) {
      SetHeadRecorded(t.queues, a.stream, AwaitBackstop(t.health.settledChecks), captured, denied);
    }
  }

  /** The capture is the one moment that fixes the audience of a dispatch. */
  lemma {:induction false} FanoutRecorded(t: State, stream: string, captured: Captures, denied: Denials)
    requires HeadsRecorded(t.queues, captured, denied) && Running(t.queues, stream)
    requires captured(t.queues[stream][0].record, RoomsOf(t.sockets))
    ensures var op := t.queues[stream][0];
            var audience := map id | id in Recipients(t, op) && id in t.sockets :: t.sockets[id].rooms;
            var recipients := map id | id in Recipients(t, op) && id in t.sockets :: InitialRecipient(op.record, t.sockets[id]);
            HeadsRecorded(SetHead(t.queues, stream, Fanout(t.health.generation, t.health.outages, audience, recipients)),
                          captured, denied)
  {
    var op := t.queues[stream][0];
    var audience := map id | id in Recipients(t, op) && id in t.sockets :: t.sockets[id].rooms;
    var recipients := map id | id in Recipients(t, op) && id in t.sockets :: InitialRecipient(op.record, t.sockets[id]);
    assert op.only.None? ==> audience == RoomsOf(t.sockets);
    SetHeadRecorded(t.queues, stream, Fanout(t.health.generation, t.health.outages, audience, recipients), captured, denied);
  }

  lemma {:induction false} CaptureRecorded(t: State, stream: string, captured: Captures, read: Barriers, denied: Denials)
    requires QueuesOk(t.log, t.sockets, t.queues) && Recorded(t, captured, read, denied)
    requires forall r :: r in t.log.records && t.health.Ready() ==> captured(r, RoomsOf(t.sockets))
    ensures Recorded(CapturedStep(t, stream), captured, read, denied)
  {
    if Running(t.queues, stream) && t.queues[stream][0].phase.AwaitBackstop? {
      assert QueueOk(t.log, t.sockets, stream, t.queues[stream]);
      assert OpOk(t.log, t.sockets, stream, 0, t.queues[stream][0]);
      PopRecorded(t, stream, captured, denied);
      if t.health.Ready() { FanoutRecorded(t, stream, captured, denied); }
    }
  }

  lemma {:induction false} AccountRecorded(
      t: State, stream: string, id: SocketId, account: AccountAnswer, captured: Captures, read: Barriers, denied: Denials)
    requires Recorded(t, captured, read, denied)
    ensures Recorded(AccountStep(t, stream, id, account), captured, read, denied)
  {
    if Evaluating(t, stream, id) && t.queues[stream][0].phase.recipients[id].AwaitAccount? {
      var matching := t.queues[stream][0].phase.recipients[id].matching;
      SetRecipientRecorded(t, stream, id, Failed, captured, denied);
      SetRecipientRecorded(t, stream, id, Settled(CutOff), captured, denied);
      SetRecipientRecorded(t, stream, id, Authorizing(matching, [], false, t.health.outages), captured, denied);
    }
  }

  lemma {:induction false} RecipientDoneRecorded(
      t: State, stream: string, id: SocketId, captured: Captures, read: Barriers, denied: Denials)
    requires Recorded(t, captured, read, denied)
    ensures Recorded(RecipientDoneStep(t, stream, id), captured, read, denied)
  {
    if Evaluating(t, stream, id) && t.queues[stream][0].phase.recipients[id].Authorizing? {
      var r := t.queues[stream][0].phase.recipients[id];
      assert HeadRecorded(t.queues[stream][0], captured, denied);
      SetRecipientRecorded(t, stream, id, Failed, captured, denied);
      SetRecipientRecorded(t, stream, id, Settled(Delivered), captured, denied);
      SetRecipientRecorded(t, stream, id, Settled(Refused(r.denied)), captured, denied);
    }
  }

  lemma {:induction false} TargetRecorded(t: State, a: Action, captured: Captures, read: Barriers, denied: Denials)
    requires Recorded(t, captured, read, denied) && QueuesOk(t.log, t.sockets, t.queues) && a.TargetChecked?
    requires forall r: Record, room :: a.target.Denied? && a.stream == r.streamId && Asks(t, r, a.id, room) ==> denied(r, a.id, room)
    ensures Recorded(Apply(t, a), captured, read, denied)
  {
    if Evaluating(t, a.stream, a.id) && t.queues[a.stream][0].phase.recipients[a.id].Authorizing?
       && t.queues[a.stream][0].phase.recipients[a.id].remaining != []
    {
      var op := t.queues[a.stream][0];
      var r := op.phase.recipients[a.id];
      assert HeadRecorded(op, captured, denied);
      assert QueueOk(t.log, t.sockets, a.stream, t.queues[a.stream]);
      assert OpOk(t.log, t.sockets, a.stream, 0, op);
      assert Asks(t, op.record, a.id, r.remaining[0]);
      SetRecipientRecorded(t, a.stream, a.id, Failed, captured, denied);
      SetRecipientRecorded(t, a.stream, a.id, Authorizing(r.remaining[1..], r.denied, true, t.health.outages), captured, denied);
      if a.target.Denied? {
        SetRecipientRecorded(t, a.stream, a.id,
                             Authorizing(r.remaining[1..], r.denied + [r.remaining[0]], r.allowed, r.authorizedAt), captured, denied);
      }
    }
  }

  /** A dispatch that ends well hands its audience and its refusals on to the completion. */
  lemma {:induction false} CompletionIsRecorded(
      log: Log, completed: map<nat, Completion>, op: Dispatch, captured: Captures, denied: Denials)
    requires Valid(log) && op.record in log.records && CompletedRecorded(log, completed, captured, denied)
    requires op.phase.Fanout? && op.only.None? && HeadRecorded(op, captured, denied)
    ensures CompletedRecorded(log, completed[op.record.sequence := Completion(op.phase.audience, Outcomes(op.phase.recipients))],
                              captured, denied)
  {
    var after := completed[op.record.sequence := Completion(op.phase.audience, Outcomes(op.phase.recipients))];
    forall r | r in log.records && r.sequence in after ensures CompletionRecorded(r, after[r.sequence], captured, denied) {
      if r.sequence == op.record.sequence { SequenceIdentifies(log, r, op.record); }
    }
  }

  lemma {:induction false} SettledRecorded(t: State, stream: string, captured: Captures, read: Barriers, denied: Denials)
    requires Inv(t) && Recorded(t, captured, read, denied)
    ensures Recorded(DispatchSettledStep(t, stream), captured, read, denied)
  {
    if Exhausted(t, stream) {
      HeadOk(t, stream);
      PopRecorded(t, stream, captured, denied);
      var op := t.queues[stream][0];
      assert HeadRecorded(op, captured, denied);
      if op.only.None? { CompletionIsRecorded(t.log, t.completed, op, captured, denied); }
    }
  }

  lemma {:induction false} StepRecorded(t: State, a: Action, captured: Captures, read: Barriers, denied: Denials)
    requires Inv(t) && Recorded(t, captured, read, denied)
    requires forall b :: Answered(t.resync, b) ==> read(b, Connected(t.sockets))
    requires forall r :: r in t.log.records && t.health.Ready() ==> captured(r, RoomsOf(t.sockets))
    requires a.TargetChecked? ==>
               forall r: Record, room :: a.target.Denied? && a.stream == r.streamId && Asks(t, r, a.id, room) ==> denied(r, a.id, room)
    ensures Recorded(Apply(t, a), captured, read, denied)
  {
    if a.Connect? || a.Disconnect? || a.JoinRoom? || a.LeaveRoom? {
      SocketActionIsBeside(t, a);
    } else if a.CheckTimer? || a.StatusReturned? || a.Reconciled? {
      HealthActionIsBeside(t, a);
    } else if a.DrainRequested? || a.ResyncAwaited? || a.OutboxFlushed? || a.RowsRead? || a.RequiredResyncResumed? {
      DrainStepKeepsBooks(t, a);
    } else if a.Publish? || a.PoisonRemediated? || a.Prune? {
      LogRecorded(t, a, captured, read, denied);
    } else if a.ReadResumed? {
      ReadRecorded(t, captured, read, denied);
    } else if a.DispatchResumed? {
      DispatchedRecorded(t, captured, read, denied);
    } else if a.ResyncSignal? || a.BarrierRead? || a.BarrierResumed? || a.BarrierRecipient? || a.BarrierDone? {
      ResyncRecorded(t, a, captured, read, denied);
    } else if a.ReplayQueued? || a.DispatchStarted? {
      QueueingRecorded(t, a, captured, read, denied);
    } else if a.HealthCaptured? {
      CaptureRecorded(t, a.stream, captured, read, denied);
    } else if a.TargetChecked? {
      TargetRecorded(t, a, captured, read, denied);
    } else if a.DispatchSettled? {
      SettledRecorded(t, a.stream, captured, read, denied);
    } else if a.AccountLoaded? {
      AccountRecorded(t, a.stream, a.id, a.account, captured, read, denied);
    } else {
      RecipientDoneRecorded(t, a.stream, a.id, captured, read, denied);
    }
  }

  // ---------------------------------------------------------------- every run

  lemma {:induction false} RunOneMore(s: State, actions: seq<Action>, k: nat)
    requires k < |actions|
    ensures Run(s, actions[..k + 1]) == Apply(Run(s, actions[..k]), actions[k])
    decreases |actions|
  {
    if k == 0 {
      assert actions[..1][1..] == [];
    } else {
      assert actions[..k + 1][1..] == actions[1..][..k] && actions[..k][1..] == actions[1..][..k - 1];
      RunOneMore(Apply(s, actions[0]), actions[1..], k - 1);
    }
  }

  /** A barrier that was read ended the log at an earlier moment of the run. */
  lemma {:induction false} AnswerIsDated(s: State, actions: seq<Action>, n: nat, b: nat)
    requires Init(s) && n <= |actions| && Answered(Run(s, actions[..n]).resync, b)
    ensures exists k1: nat :: k1 <= n && LatestAt(s, actions, k1, b)
  {
    if 0 < n {
      RunOneMore(s, actions, n - 1);
      AnswerIsRead(Run(s, actions[..n - 1]), actions[n - 1], b);
      if Answered(Run(s, actions[..n - 1]).resync, b) {
        AnswerIsDated(s, actions, n - 1, b);
      } else {
        assert LatestAt(s, actions, n - 1, b);
      }
    }
  }

  /** Every audience, barrier and refusal a state remembers was read off the sockets at a moment of the run. */
  ghost predicate Remembers(s: State, actions: seq<Action>, t: State) {
    Recorded(t, (r: Record, audience) => WasCaptured(s, actions, r, audience),
             (barrier: nat, addressed) => BarrierWasRead(s, actions, barrier, addressed),
             (r, id: SocketId, room) => WasDenied(s, actions, r, id, room))
  }

  /** Each moment of the run is one that later states may remember. */
  lemma {:induction false} MomentCounts(s: State, actions: seq<Action>, n: nat, t: State, a: Action)
    requires Init(s) && n < |actions| && t == Run(s, actions[..n]) && a == actions[n]
    ensures forall b :: Answered(t.resync, b) ==> BarrierWasRead(s, actions, b, Connected(t.sockets))
    ensures forall r :: r in t.log.records && t.health.Ready() ==> WasCaptured(s, actions, r, RoomsOf(t.sockets))
    ensures a.TargetChecked? ==>
              forall r: Record, room :: a.target.Denied? && a.stream == r.streamId && Asks(t, r, a.id, room) ==>
                WasDenied(s, actions, r, a.id, room)
  {
    forall b | Answered(t.resync, b) ensures BarrierWasRead(s, actions, b, Connected(t.sockets)) {
      AnswerIsDated(s, actions, n, b);
      var k1: nat :| k1 <= n && LatestAt(s, actions, k1, b);
      assert BarrierReadAt(s, actions, k1, n, b, Connected(t.sockets));
    }
    forall r | r in t.log.records && t.health.Ready() ensures WasCaptured(s, actions, r, RoomsOf(t.sockets)) {
      assert CapturedAt(s, actions, n, r, RoomsOf(t.sockets));
    }
    forall r: Record, room | a.TargetChecked? && a.target.Denied? && a.stream == r.streamId && Asks(t, r, a.id, room)
      ensures WasDenied(s, actions, r, a.id, room)
    {
      assert DeniedAt(s, actions, n, r, a.id, room);
    }
  }

  lemma {:induction false} StepRemembers(s: State, actions: seq<Action>, n: nat, t: State)
    requires Init(s) && n < |actions| && t == Run(s, actions[..n]) && Inv(t) && Remembers(s, actions, t)
    ensures Remembers(s, actions, Apply(t, actions[n]))
  {
    MomentCounts(s, actions, n, t, actions[n]);
    StepRecorded(t, actions[n], (r: Record, audience) => WasCaptured(s, actions, r, audience),
                 (barrier: nat, addressed) => BarrierWasRead(s, actions, barrier, addressed),
                 (r, id: SocketId, room) => WasDenied(s, actions, r, id, room));
  }

  lemma {:induction false} InitRemembers(s: State, actions: seq<Action>)
    requires Init(s)
    ensures Remembers(s, actions, s)
  {
  }

  lemma {:induction false} PrefixRemembers(s: State, actions: seq<Action>, n: nat)
    requires Init(s) && n <= |actions|
    ensures Remembers(s, actions, Run(s, actions[..n]))
  {
    if n == 0 {
      InitRemembers(s, actions);
    } else {
      PrefixRemembers(s, actions, n - 1);
      InitHasInv(s);
      RunKeepsInv(s, actions[..n - 1]);
      RunOneMore(s, actions, n - 1);
      StepRemembers(s, actions, n - 1, Run(s, actions[..n - 1]));
    }
  }

  lemma {:induction false} PrefixStays(s: State, actions: seq<Action>, k: nat, n: nat)
    requires k <= n <= |actions|
    ensures Stay(Run(s, actions[..k]).sockets, Run(s, actions[..n]).sockets)
  {
    if k < n {
      PrefixStays(s, actions, k, n - 1);
      RunOneMore(s, actions, n - 1);
      StepStays(Run(s, actions[..n - 1]), actions[n - 1]);
    }
  }

  // ---------------------------------------------------------------- the theorem

  /** What became of a socket that was in these rooms when the dispatch of the record was captured. */
  ghost predicate Served(s: State, actions: seq<Action>, r: Record, rooms: set<string>, id: SocketId, outcome: Outcome) {
    var t := Run(s, actions);
    id in t.sockets
    && match outcome
       case NotInRoom => Matching(r.targets, rooms) == []
       case Delivered => r.eventId in t.sockets[id].deliveries
       case AlreadyDelivered => r.eventId in t.sockets[id].deliveries
       case CutOff => !t.sockets[id].connected
       case Refused(_) => forall room :: room in Matching(r.targets, rooms) ==> WasDenied(s, actions, r, id, room)
  }

  /**
   The dispatch of the record completed: at some moment `k` of the run the record was stored and the runtime ready, and
   every socket connected then was in no target room, or got the event, had it already, was denied every target room it
   was in, or is cut off.
   */
  ghost predicate DispatchedToAll(s: State, actions: seq<Action>, r: Record) {
    var t := Run(s, actions);
    r.sequence in t.completed && var outcomes := t.completed[r.sequence].outcomes;
    exists k, audience ::
      && CapturedAt(s, actions, k, r, audience) && outcomes.Keys == audience.Keys
      && forall id :: id in audience ==>
           && (outcomes[id].NotInRoom? <==> Matching(r.targets, audience[id]) == [])
           && Served(s, actions, r, audience[id], id, outcomes[id])
  }

  /** Every socket connected at moment `k` got the last barrier or is cut off. */
  ghost predicate HeardBarrier(s: State, actions: seq<Action>, k: nat) {
    var t := Run(s, actions);
    k <= |actions| && forall id :: id in Connected(Run(s, actions[..k]).sockets) ==>
      && id in t.sockets
      && ((id in t.barrierNotices && t.barrierNotices[id].Notified?) || !t.sockets[id].connected)
  }

  /**
   A barrier at or above the record finished. It ended the log at moment `k1`, was sent to the sockets connected at
   `k2`, and every socket connected at either moment was notified or is cut off.
   */
  ghost predicate BelowBarrier(s: State, actions: seq<Action>, r: Record) {
    var t := Run(s, actions);
    && r.sequence <= t.barrier
    && exists k1, k2 :: BarrierReadAt(s, actions, k1, k2, t.barrier, t.barrierNotices.Keys)
                        && HeardBarrier(s, actions, k1) && HeardBarrier(s, actions, k2)
  }

  /** Whoever was connected when the barrier was read is among its recipients, or was cut off before they were listed. */
  lemma {:induction false} BarrierWasHeard(s: State, actions: seq<Action>, k1: nat, k2: nat)
    requires var t := Run(s, actions);
             && BarrierReadAt(s, actions, k1, k2, t.barrier, t.barrierNotices.Keys) && BarrierHeard(t.barrierNotices, t.sockets)
    ensures HeardBarrier(s, actions, k1) && HeardBarrier(s, actions, k2)
  {
    assert actions[..|actions|] == actions;
    PrefixStays(s, actions, k1, k2);
    PrefixStays(s, actions, k2, |actions|);
  }

  lemma {:induction false} OutcomeIsServed(
      s: State, actions: seq<Action>, r: Record, rooms: set<string>, id: SocketId, outcome: Outcome)
    requires id in Run(s, actions).sockets && OutcomeOk(r, outcome, Run(s, actions).sockets[id])
    requires ProgressOk(Matching(r.targets, rooms), Settled(outcome))
    requires outcome.Refused? ==> forall room :: room in outcome.denied ==> WasDenied(s, actions, r, id, room)
    ensures outcome.NotInRoom? <==> Matching(r.targets, rooms) == []
    ensures Served(s, actions, r, rooms, id, outcome)
  {
  }

  lemma {:induction false} CompletedIsDispatched(s: State, actions: seq<Action>, r: Record, t: State, c: Completion, k: nat)
    requires t == Run(s, actions) && r.sequence in t.completed && c == t.completed[r.sequence]
    requires CompletionOk(r, c, t.sockets) && CapturedAt(s, actions, k, r, c.audience)
    requires forall id, room :: id in c.outcomes && c.outcomes[id].Refused? && room in c.outcomes[id].denied ==>
               WasDenied(s, actions, r, id, room)
    ensures DispatchedToAll(s, actions, r)
  {
    forall id | id in c.audience
      ensures (c.outcomes[id].NotInRoom? <==> Matching(r.targets, c.audience[id]) == [])
              && Served(s, actions, r, c.audience[id], id, c.outcomes[id])
    {
      OutcomeIsServed(s, actions, r, c.audience[id], id, c.outcomes[id]);
    }
  }

  /**
   No gap. However drain, dispatch, replay, resync, outage and publication interleave, each record stored between the
   starting point and the cursor lies below a finished full-resync barrier or had a dispatch that completed.
   */
  lemma {:induction false} NoGap(s: State, actions: seq<Action>, r: Record)
    requires Init(s)
    requires var t := Run(s, actions); r in t.log.records && t.start < r.sequence <= t.cursor
    ensures BelowBarrier(s, actions, r) || DispatchedToAll(s, actions, r)
  {
    var t := Run(s, actions);
    InitHasInv(s);
    RunKeepsInv(s, actions);
    PrefixRemembers(s, actions, |actions|);
    assert actions[..|actions|] == actions;
    if r.sequence in t.completed {
      var c := t.completed[r.sequence];
      assert CompletionOk(r, c, t.sockets) && WasCaptured(s, actions, r, c.audience);
      var k :| CapturedAt(s, actions, k, r, c.audience);
      CompletedIsDispatched(s, actions, r, t, c, k);
    } else {
      assert BarrierWasRead(s, actions, t.barrier, t.barrierNotices.Keys);
      var k1, k2 :| BarrierReadAt(s, actions, k1, k2, t.barrier, t.barrierNotices.Keys);
      BarrierWasHeard(s, actions, k1, k2);
    }
  }
}
