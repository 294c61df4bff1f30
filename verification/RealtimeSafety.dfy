/** What every reachable state of the realtime runtime satisfies. */
module RealtimeSafety {
  import opened Options
  import opened RealtimeLog
  import opened RealtimeModel

  // ---------------------------------------------------------------- the invariant

  /** Two emissions of one event to one socket are more than a window apart. */
  ghost predicate Spaced(deliveries: seq<string>) {
    forall i, j :: 0 <= i < j < |deliveries| && deliveries[i] == deliveries[j] ==> MAX_DELIVERED_EVENT_IDS < j - i
  }

  /** The remembered ids are the last ones delivered, as many as fit. */
  ghost predicate WindowOk(socket: Socket) {
    && |socket.window| <= |socket.deliveries|
    && (|socket.window| == |socket.deliveries| || |socket.window| == MAX_DELIVERED_EVENT_IDS)
    && |socket.window| <= MAX_DELIVERED_EVENT_IDS
    && socket.window == socket.deliveries[|socket.deliveries| - |socket.window|..]
    && Spaced(socket.deliveries)
  }

  ghost predicate SocketsOk(sockets: map<SocketId, Socket>) {
    forall id :: id in sockets ==> WindowOk(sockets[id])
  }

  /** What an outcome claims about the socket it is about. */
  ghost predicate OutcomeOk(record: Record, outcome: Outcome, socket: Socket) {
    && (outcome.Delivered? || outcome.AlreadyDelivered? ==> record.eventId in socket.deliveries)
    && (outcome.CutOff? ==> !socket.connected)
  }

  ghost predicate RecipientOk(record: Record, recipient: Recipient, socket: Socket) {
    && (recipient.AwaitAccount? || recipient.Authorizing? ==> record.eventId !in socket.window)
    && (recipient.Settled? ==> OutcomeOk(record, recipient.outcome, socket))
  }

  ghost predicate RecipientsOk(record: Record, recipients: map<SocketId, Recipient>, sockets: map<SocketId, Socket>) {
    forall id :: id in recipients ==> id in sockets && RecipientOk(record, recipients[id], sockets[id])
  }

  /** A recipient is passed over exactly when no target matches, and refused only after every matching target was denied. */
  ghost predicate ProgressOk(matching: seq<string>, recipient: Recipient) {
    && (recipient == Settled(NotInRoom) <==> matching == [])
    && (recipient.AwaitAccount? ==> recipient.matching == matching)
    && (recipient.Authorizing? && !recipient.allowed ==> recipient.denied + recipient.remaining == matching)
    && (recipient.Settled? && recipient.outcome.Refused? ==> recipient.outcome.denied == matching)
  }

  /** Exactly the addressed sockets are evaluated, each for the rooms it was in at the capture. */
  ghost predicate AudienceOk(record: Record, audience: map<SocketId, set<string>>, recipients: map<SocketId, Recipient>) {
    && recipients.Keys == audience.Keys
    && forall id :: id in audience ==> ProgressOk(Matching(record.targets, audience[id]), recipients[id])
  }

  ghost predicate OnCourse(op: Dispatch, id: SocketId, recipient: Recipient) {
    op.phase.Fanout? && id in op.phase.audience && ProgressOk(Matching(op.record.targets, op.phase.audience[id]), recipient)
  }

  ghost predicate OpOk(log: Log, sockets: map<SocketId, Socket>, stream: string, index: nat, op: Dispatch) {
    && op.record in log.records
    && op.record.streamId == stream
    && (0 < index ==> op.phase.Queued?)
    && (op.phase.Fanout? ==> && RecipientsOk(op.record, op.phase.recipients, sockets)
                             && AudienceOk(op.record, op.phase.audience, op.phase.recipients))
  }

  ghost predicate QueueOk(log: Log, sockets: map<SocketId, Socket>, stream: string, ops: seq<Dispatch>) {
    ops != [] && forall i :: 0 <= i < |ops| ==> OpOk(log, sockets, stream, i, ops[i])
  }

  ghost predicate QueuesOk(log: Log, sockets: map<SocketId, Socket>, queues: map<string, seq<Dispatch>>) {
    forall stream :: stream in queues ==> QueueOk(log, sockets, stream, queues[stream])
  }

  /** A captured generation that is still current has seen no outage begin. */
  ghost predicate PhaseFenced(h: Health, phase: Phase) {
    phase.Fanout? ==>
      && phase.generation <= h.generation
      && phase.capturedAt <= h.outages
      && (phase.generation == h.generation ==> phase.capturedAt == h.outages)
      && forall id :: id in phase.recipients && phase.recipients[id].Authorizing? ==>
           phase.capturedAt <= phase.recipients[id].authorizedAt <= h.outages
  }

  ghost predicate QueuesFenced(h: Health, queues: map<string, seq<Dispatch>>) {
    forall stream :: Running(queues, stream) ==> PhaseFenced(h, queues[stream][0].phase)
  }

  ghost predicate EmissionOk(e: Emission) {
    e.ready && e.capturedAt == e.authorizedAt == e.emittedAt
  }

  ghost predicate EmissionsOk(emissions: seq<Emission>) {
    forall i :: 0 <= i < |emissions| ==> EmissionOk(emissions[i])
  }

  ghost predicate CompletionOk(record: Record, completion: Completion, sockets: map<SocketId, Socket>) {
    && completion.outcomes.Keys == completion.audience.Keys
    && forall id :: id in completion.audience ==>
         && id in sockets
         && OutcomeOk(record, completion.outcomes[id], sockets[id])
         && ProgressOk(Matching(record.targets, completion.audience[id]), Settled(completion.outcomes[id]))
  }

  ghost predicate CompletedOk(log: Log, completed: map<nat, Completion>, sockets: map<SocketId, Socket>) {
    && (forall q :: q in completed ==> q <= log.latest)
    && forall r :: r in log.records && r.sequence in completed ==> CompletionOk(r, completed[r.sequence], sockets)
  }

  /** Every stored record above the starting point and up to `upTo` was dispatched or lies below a barrier. */
  ghost predicate CoveredUpTo(log: Log, start: nat, barrier: nat, completed: map<nat, Completion>, upTo: nat) {
    forall r :: r in log.records && start < r.sequence <= upTo ==> r.sequence in completed || r.sequence <= barrier
  }

  /** `rows` are all that was stored above `from`, up to the last of them. */
  ghost predicate Contiguous(log: Log, from: nat, rows: seq<Record>) {
    && Ascending(rows)
    && (forall i :: 0 <= i < |rows| ==> rows[i] in log.records && from < rows[i].sequence)
    && forall r :: rows != [] && r in log.records && from < r.sequence <= rows[|rows| - 1].sequence ==> r in rows
  }

  function Passed(from: nat, rows: seq<Record>, index: nat): nat
    requires index <= |rows|
  {
    if index == 0 then from else rows[index - 1].sequence
  }

  ghost predicate DrainCovered(s: State) {
    match s.drain
    case Reading(from, answer) =>
      && from <= s.log.latest
      && CoveredUpTo(s.log, s.start, s.barrier, s.completed, from)
      && (answer.Some? && answer.value.Rows? ==> Contiguous(s.log, from, answer.value.records))
    case Dispatching(from, records, index, result) =>
      && from <= s.log.latest
      && Contiguous(s.log, from, records) && index < |records|
      && CoveredUpTo(s.log, s.start, s.barrier, s.completed, Passed(from, records, index))
      && (result == Some(true) ==> records[index].sequence in s.completed)
    case _ => true
  }

  /** The sequence a full resync has read, if it has. */
  function BarrierOf(resync: Resync): nat {
    match resync
    case Notifying(barrier, _) => barrier
    case AwaitBarrier(Some(Latest(barrier))) => barrier
    case _ => 0
  }

  ghost predicate Coverage(s: State) {
    && s.cursor <= s.log.latest
    && s.barrier <= s.log.latest
    && CoveredUpTo(s.log, s.start, s.barrier, s.completed, s.cursor)
    && BarrierOf(s.resync) <= s.log.latest
    && DrainCovered(s)
  }

  ghost predicate NoticesOk(resync: Resync, sockets: map<SocketId, Socket>) {
    resync.Notifying? ==>
      forall id :: id in resync.notices ==>
        id in sockets && (resync.notices[id].Dropped? ==> !sockets[id].connected)
  }

  /** Every socket that was connected when a barrier was taken was told to resynchronise or is cut off. */
  ghost predicate BarrierHeard(notices: map<SocketId, Notice>, sockets: map<SocketId, Socket>) {
    forall id :: id in notices ==> id in sockets && (notices[id].Notified? || !sockets[id].connected)
  }

  /** The part about sockets, stream queues and what was delivered. */
  ghost predicate DeliveryInv(log: Log, h: Health, sockets: map<SocketId, Socket>, queues: map<string, seq<Dispatch>>,
                              completed: map<nat, Completion>, emissions: seq<Emission>)
  {
    && Valid(log)
    && SocketsOk(sockets)
    && QueuesOk(log, sockets, queues)
    && QueuesFenced(h, queues)
    && EmissionsOk(emissions)
    && CompletedOk(log, completed, sockets)
  }

  ghost predicate Inv(s: State) {
    && DeliveryInv(s.log, s.health, s.sockets, s.queues, s.completed, s.emissions)
    && NoticesOk(s.resync, s.sockets)
    && BarrierHeard(s.barrierNotices, s.sockets)
    && Coverage(s)
  }

  // ---------------------------------------------------------------- what leaves histories alone

  /** Sockets may appear, disconnect and change rooms; what was delivered to them stays as it was. */
  ghost predicate SameHistory(before: map<SocketId, Socket>, after: map<SocketId, Socket>) {
    && before.Keys <= after.Keys
    && (forall id :: id in before ==>
          && after[id].window == before[id].window && after[id].deliveries == before[id].deliveries
          && (after[id].connected ==> before[id].connected))
    && forall id :: id in after && id !in before ==> after[id].window == [] && after[id].deliveries == []
  }

  lemma {:induction false} WindowOkSame(a: Socket, b: Socket)
    requires b.window == a.window && b.deliveries == a.deliveries
    ensures WindowOk(b) == WindowOk(a)
  {
  }

  lemma {:induction false} NewWindowOk(socket: Socket)
    requires socket.window == [] && socket.deliveries == []
    ensures WindowOk(socket)
  {
  }

  lemma {:induction false} SameHistoryKeepsSockets(before: map<SocketId, Socket>, after: map<SocketId, Socket>)
    requires SameHistory(before, after) && SocketsOk(before)
    ensures SocketsOk(after)
  {
    forall id | id in after ensures WindowOk(after[id]) {
      if id in before { WindowOkSame(before[id], after[id]); } else { NewWindowOk(after[id]); }
    }
  }

  lemma {:induction false} SameHistoryKeepsQueues(log: Log, queues: map<string, seq<Dispatch>>,
                               before: map<SocketId, Socket>, after: map<SocketId, Socket>)
    requires SameHistory(before, after) && QueuesOk(log, before, queues)
    ensures QueuesOk(log, after, queues)
  {
    forall stream | stream in queues ensures QueueOk(log, after, stream, queues[stream]) {
      var ops := queues[stream];
      assert QueueOk(log, before, stream, ops);
      forall i | 0 <= i < |ops| ensures OpOk(log, after, stream, i, ops[i]) {
        assert OpOk(log, before, stream, i, ops[i]);
      }
    }
  }

  lemma {:induction false} SameHistoryKeepsCompleted(log: Log, completed: map<nat, Completion>,
                                  before: map<SocketId, Socket>, after: map<SocketId, Socket>)
    requires SameHistory(before, after) && CompletedOk(log, completed, before)
    ensures CompletedOk(log, completed, after)
  {
    forall r | r in log.records && r.sequence in completed ensures CompletionOk(r, completed[r.sequence], after) {
      assert CompletionOk(r, completed[r.sequence], before);
    }
  }

  /** A step that only moves sockets in and out of rooms and connections keeps the invariant. */
  lemma {:induction false} SocketStep(s: State, after: map<SocketId, Socket>)
    requires Inv(s) && SameHistory(s.sockets, after)
    ensures Inv(s.(sockets := after))
  {
    SameHistoryKeepsSockets(s.sockets, after);
    SameHistoryKeepsQueues(s.log, s.queues, s.sockets, after);
    SameHistoryKeepsCompleted(s.log, s.completed, s.sockets, after);
  }

  // ---------------------------------------------------------------- the log grows

  /** Nothing new appears at or below a sequence that is already visible. */
  ghost predicate LogGrows(before: Log, after: Log) {
    && before.latest <= after.latest
    && (forall r :: r in before.records ==> r in after.records)
    && forall r :: r in after.records && r !in before.records ==> before.latest < r.sequence
  }

  lemma {:induction false} LogStep(s: State, after: Log)
    requires Inv(s) && Valid(after) && LogGrows(s.log, after)
    ensures Inv(s.(log := after))
  {
    var t := s.(log := after);
    forall stream | stream in t.queues ensures QueueOk(after, t.sockets, stream, t.queues[stream]) {
      var ops := t.queues[stream];
      assert QueueOk(s.log, s.sockets, stream, ops);
      forall i | 0 <= i < |ops| ensures OpOk(after, t.sockets, stream, i, ops[i]) {
        assert OpOk(s.log, s.sockets, stream, i, ops[i]);
      }
    }
    forall r | r in after.records && r.sequence in t.completed ensures CompletionOk(r, t.completed[r.sequence], t.sockets) {
      assert r in s.log.records;
    }
    assert DrainCovered(t) by {
      match s.drain
      case Reading(from, answer) =>
        CoverageSurvives(s, after, from);
        if answer.Some? && answer.value.Rows? { ContiguousSurvives(s.log, after, from, answer.value.records); }
      case Dispatching(from, records, index, result) =>
        if 0 < index { assert records[index - 1] in s.log.records; }
        CoverageSurvives(s, after, Passed(from, records, index));
        ContiguousSurvives(s.log, after, from, records);
      case _ =>
    }
  }

  lemma {:induction false} CoverageSurvives(s: State, after: Log, upTo: nat)
    requires Valid(s.log) && LogGrows(s.log, after)
    requires CoveredUpTo(s.log, s.start, s.barrier, s.completed, upTo) && upTo <= s.log.latest
    ensures CoveredUpTo(after, s.start, s.barrier, s.completed, upTo)
  {
  }

  lemma {:induction false} ContiguousSurvives(before: Log, after: Log, from: nat, rows: seq<Record>)
    requires Valid(before) && LogGrows(before, after) && Contiguous(before, from, rows)
    ensures Contiguous(after, from, rows)
  {
    if rows != [] { assert rows[|rows| - 1] in before.records; }
  }

  // ---------------------------------------------------------------- authorization health

  /** The generation moves at least once for every outage that begins. */
  ghost predicate HealthMoves(before: Health, after: Health) {
    && before.generation <= after.generation
    && before.outages <= after.outages
    && (before.outages < after.outages ==> before.generation < after.generation)
  }

  /** Nothing but health, sockets, and the state of the drain loop differs. */
  ghost predicate SameBooks(before: State, after: State) {
    && after.log == before.log && after.queues == before.queues && after.cursor == before.cursor
    && after.resync == before.resync && after.resyncs == before.resyncs && after.start == before.start
    && after.barrier == before.barrier && after.barrierNotices == before.barrierNotices
    && after.completed == before.completed && after.emissions == before.emissions
  }

  /** A step beside the delivery: sockets come, go and move, health changes, the drain loop waits, ends or begins again. */
  ghost predicate Beside(before: State, after: State) {
    && SameBooks(before, after)
    && HealthMoves(before.health, after.health)
    && SameHistory(before.sockets, after.sockets)
    && (after.drain == before.drain || !(after.drain.Reading? || after.drain.Dispatching?))
  }

  lemma {:induction false} FenceSurvives(before: Health, after: Health, queues: map<string, seq<Dispatch>>)
    requires QueuesFenced(before, queues) && HealthMoves(before, after)
    ensures QueuesFenced(after, queues)
  {
    forall stream | Running(queues, stream) ensures PhaseFenced(after, queues[stream][0].phase) {
      assert PhaseFenced(before, queues[stream][0].phase);
    }
  }

  lemma {:induction false} BesideKeepsInv(s: State, u: State)
    requires Inv(s) && Beside(s, u)
    ensures Inv(u)
  {
    SocketStep(s, u.sockets);
    FenceSurvives(s.health, u.health, s.queues);
  }

  lemma {:induction false} NobodyMoves(s: State, u: State)
    requires SameBooks(s, u) && u.sockets == s.sockets && HealthMoves(s.health, u.health)
    requires u.drain == s.drain || !(u.drain.Reading? || u.drain.Dispatching?)
    ensures Beside(s, u)
  {
  }

  lemma {:induction false} SocketsMove(s: State, after: map<SocketId, Socket>)
    requires SameHistory(s.sockets, after)
    ensures Beside(s, s.(sockets := after))
  {
  }

  lemma {:induction false} MovesKeepHistory(sockets: map<SocketId, Socket>, id: SocketId, room: string)
    ensures SameHistory(sockets, Drop(sockets, id)) && SameHistory(sockets, Leave(sockets, id, room))
    ensures id in sockets && sockets[id].connected ==>
              SameHistory(sockets, sockets[id := sockets[id].(rooms := sockets[id].rooms + {room})])
    ensures id !in sockets ==> SameHistory(sockets, sockets[id := Socket(true, {}, [], [])])
  {
  }

  lemma {:induction false} SocketActionIsBeside(s: State, a: Action)
    requires a.Connect? || a.Disconnect? || a.JoinRoom? || a.LeaveRoom?
    ensures Beside(s, Apply(s, a))
  {
    NobodyMoves(s, s);
    MovesKeepHistory(s.sockets, a.id, if a.JoinRoom? || a.LeaveRoom? then a.room else "");
    match a
    case Connect(id) => if id !in s.sockets { SocketsMove(s, s.sockets[id := Socket(true, {}, [], [])]); }
    case Disconnect(id) => SocketsMove(s, Drop(s.sockets, id));
    case JoinRoom(id, room) =>
      if id in s.sockets && s.sockets[id].connected {
        SocketsMove(s, s.sockets[id := s.sockets[id].(rooms := s.sockets[id].rooms + {room})]);
      }
    case LeaveRoom(id, room) => SocketsMove(s, Leave(s.sockets, id, room));
  }

  lemma {:induction false} SuspendIsBeside(s: State)
    ensures Beside(s, Suspend(s)) && Beside(s, SettleCheck(Suspend(s)))
  {
    assert SameHistory(s.sockets, Suspend(s).sockets);
  }

  lemma {:induction false} RecoverIsBeside(s: State)
    ensures Beside(s, RequestDrain(s)) && Beside(s, Recover(s)) && Beside(s, SettleCheck(Recover(s)))
  {
    NobodyMoves(s, RequestDrain(s));
    NobodyMoves(s, Recover(s));
    NobodyMoves(s, SettleCheck(Recover(s)));
  }

  lemma {:induction false} CheckIsBeside(s: State)
    ensures Beside(s, BeginCheck(s))
  {
    NobodyMoves(s, BeginCheck(s));
  }

  lemma {:induction false} InstalledIsBeside(s: State)
    ensures Beside(s, SettleCheck(s.(health := s.health.(backstops := true))))
  {
    NobodyMoves(s, SettleCheck(s.(health := s.health.(backstops := true))));
  }

  lemma {:induction false} AwaitingIsBeside(s: State)
    ensures Beside(s, s.(health := s.health.(check := AwaitReconcile)))
  {
    NobodyMoves(s, s.(health := s.health.(check := AwaitReconcile)));
  }

  lemma {:induction false} StatusIsBeside(s: State, status: StatusAnswer)
    ensures Beside(s, StatusStep(s, status))
  {
    NobodyMoves(s, s);
    if s.health.check.AwaitStatus? {
      if !status.Installed? {
        SuspendIsBeside(s);
      } else if s.health.check.wasInstalled {
        InstalledIsBeside(s);
      } else if s.health.recoveryRequired {
        AwaitingIsBeside(s);
      } else {
        RecoverIsBeside(s);
      }
    }
  }

  lemma {:induction false} ReconcileIsBeside(s: State, ok: bool)
    ensures Beside(s, ReconcileStep(s, ok))
  {
    SuspendIsBeside(s);
    RecoverIsBeside(s);
  }

  lemma {:induction false} HealthActionIsBeside(s: State, a: Action)
    requires a.CheckTimer? || a.StatusReturned? || a.Reconciled?
    ensures Beside(s, Apply(s, a))
  {
    match a
    case CheckTimer => CheckIsBeside(s);
    case StatusReturned(status) => StatusIsBeside(s, status);
    case Reconciled(ok) => ReconcileIsBeside(s, ok);
  }

  lemma {:induction false} EndIsBeside(s: State, healthy: bool)
    ensures Beside(s, SetControlPlane(s, healthy)) && Beside(s, EndDrain(s))
    ensures Beside(s, EndDrain(SetControlPlane(s, healthy))) && Beside(s, FailDrain(s))
  {
    NobodyMoves(s, SetControlPlane(s, healthy));
    NobodyMoves(s, EndDrain(s));
    NobodyMoves(s, EndDrain(SetControlPlane(s, healthy)));
    NobodyMoves(s, FailDrain(s));
  }

  lemma {:induction false} ResyncAwaitedIsBeside(s: State)
    ensures Beside(s, ResyncAwaitedStep(s))
  {
    NobodyMoves(s, s);
    NobodyMoves(s, s.(drain := Flushing));
    EndIsBeside(s, false);
  }

  // ---------------------------------------------------------------- stream queues

  lemma {:induction false} QueuesStep(s: State, after: map<string, seq<Dispatch>>)
    requires Inv(s) && QueuesOk(s.log, s.sockets, after) && QueuesFenced(s.health, after)
    ensures Inv(s.(queues := after))
  {
  }

  lemma {:induction false} EnqueueKeepsInv(s: State, op: Dispatch)
    requires Inv(s) && op.record in s.log.records && op.phase.Queued?
    ensures Inv(s.(queues := Enqueue(s.queues, op)))
  {
    var after := Enqueue(s.queues, op);
    forall stream | stream in after ensures QueueOk(s.log, s.sockets, stream, after[stream]) {
      if stream in s.queues { assert QueueOk(s.log, s.sockets, stream, s.queues[stream]); }
      var ops := after[stream];
      forall i | 0 <= i < |ops| ensures OpOk(s.log, s.sockets, stream, i, ops[i]) {
        if stream in s.queues && i < |s.queues[stream]| { assert OpOk(s.log, s.sockets, stream, i, s.queues[stream][i]); }
      }
    }
    forall stream | Running(after, stream) ensures PhaseFenced(s.health, after[stream][0].phase) {
      if Running(s.queues, stream) { assert PhaseFenced(s.health, s.queues[stream][0].phase); }
    }
    QueuesStep(s, after);
  }

  lemma {:induction false} PopKeepsInv(s: State, stream: string)
    requires Inv(s) && Running(s.queues, stream)
    ensures Inv(s.(queues := PopHead(s.queues, stream)))
  {
    var after := PopHead(s.queues, stream);
    forall other | other in after ensures QueueOk(s.log, s.sockets, other, after[other]) {
      var before := s.queues[other];
      assert QueueOk(s.log, s.sockets, other, before);
      if other == stream {
        forall i | 0 <= i < |after[other]| ensures OpOk(s.log, s.sockets, other, i, after[other][i]) {
          assert OpOk(s.log, s.sockets, other, i + 1, before[i + 1]);
        }
      }
    }
    forall other | Running(after, other) ensures PhaseFenced(s.health, after[other][0].phase) {
      if other == stream {
        assert OpOk(s.log, s.sockets, other, 1, s.queues[other][1]) by {
          assert QueueOk(s.log, s.sockets, other, s.queues[other]);
        }
      } else {
        assert PhaseFenced(s.health, s.queues[other][0].phase);
      }
    }
    QueuesStep(s, after);
  }

  lemma {:induction false} SetHeadKeepsInv(s: State, stream: string, phase: Phase)
    requires Inv(s) && Running(s.queues, stream)
    requires OpOk(s.log, s.sockets, stream, 0, s.queues[stream][0].(phase := phase))
    requires PhaseFenced(s.health, phase)
    ensures Inv(s.(queues := SetHead(s.queues, stream, phase)))
  {
    var after := SetHead(s.queues, stream, phase);
    forall other | other in after ensures QueueOk(s.log, s.sockets, other, after[other]) {
      assert QueueOk(s.log, s.sockets, other, s.queues[other]);
      if other == stream {
        forall i | 0 <= i < |after[other]| ensures OpOk(s.log, s.sockets, other, i, after[other][i]) {
          assert OpOk(s.log, s.sockets, other, i, s.queues[other][i]);
        }
      }
    }
    forall other | Running(after, other) ensures PhaseFenced(s.health, after[other][0].phase) {
      if other != stream { assert PhaseFenced(s.health, s.queues[other][0].phase); }
    }
    QueuesStep(s, after);
  }

  lemma {:induction false} HeadOk(s: State, stream: string)
    requires Inv(s) && Running(s.queues, stream)
    ensures OpOk(s.log, s.sockets, stream, 0, s.queues[stream][0])
    ensures PhaseFenced(s.health, s.queues[stream][0].phase)
  {
    assert QueueOk(s.log, s.sockets, stream, s.queues[stream]);
  }

  // ---------------------------------------------------------------- drain loop

  lemma {:induction false} FailDrainKeepsInv(s: State)
    requires Inv(s)
    ensures Inv(FailDrain(s))
  {
    EndIsBeside(s, false);
    BesideKeepsInv(s, FailDrain(s));
  }

  lemma {:induction false} LowestIsEarliest(rows: seq<Record>, index: nat)
    requires Ascending(rows) && index < |rows|
    ensures rows[index].sequence <= rows[|rows| - 1].sequence
  {
  }

  lemma {:induction false} NoRowBetween(rows: seq<Record>, index: nat, k: nat)
    requires Ascending(rows) && k <= index < |rows|
    requires 0 < index ==> rows[index - 1].sequence < rows[k].sequence
    ensures k == index
  {
    if 0 < index { LowerIsEarlier(rows, index - 1, k); }
  }

  /** Only the row itself lies between the row before it and it. */
  lemma {:induction false} OneRowAtATime(log: Log, from: nat, rows: seq<Record>, index: nat, r: Record)
    requires index < |rows| && Contiguous(log, from, rows)
    requires r in log.records && from < r.sequence && Passed(from, rows, index) < r.sequence <= rows[index].sequence
    ensures r == rows[index]
  {
    LowestIsEarliest(rows, index);
    var k :| 0 <= k < |rows| && rows[k] == r;
    LowerIsEarlier(rows, k, index);
    NoRowBetween(rows, index, k);
  }

  /** Passing a row the cursor has already reached, or one whose dispatch completed, leaves no hole behind. */
  lemma {:induction false} CoveragePasses(s: State, from: nat, rows: seq<Record>, index: nat)
    requires index < |rows| && Contiguous(s.log, from, rows)
    requires CoveredUpTo(s.log, s.start, s.barrier, s.completed, Passed(from, rows, index))
    requires rows[index].sequence in s.completed
    ensures CoveredUpTo(s.log, s.start, s.barrier, s.completed, rows[index].sequence)
  {
    forall r | r in s.log.records && s.start < r.sequence <= rows[index].sequence
      ensures r.sequence in s.completed || r.sequence <= s.barrier
    {
      if Passed(from, rows, index) < r.sequence {
        assert 0 < index ==> from < rows[index - 1].sequence;
        OneRowAtATime(s.log, from, rows, index, r);
      }
    }
  }

  lemma {:induction false} AdvanceKeepsInv(s: State, from: nat, rows: seq<Record>, index: nat)
    requires Inv(s) && index <= |rows| && Contiguous(s.log, from, rows)
    requires from <= s.log.latest && CoveredUpTo(s.log, s.start, s.barrier, s.completed, Passed(from, rows, index))
    ensures Inv(Advance(s, from, rows, index))
    decreases |rows| - index
  {
    if index == |rows| {
      EndIsBeside(s, true);
      if |rows| < EVENT_READ_BATCH { BesideKeepsInv(s, EndDrain(SetControlPlane(s, true))); }
    } else if rows[index].sequence <= s.cursor {
      AdvanceKeepsInv(s, from, rows, index + 1);
    } else {
      EnqueueKeepsInv(s, Dispatch(rows[index], None, Queued));
    }
  }

  lemma {:induction false} FlushedKeepsInv(s: State, ok: bool)
    requires Inv(s)
    ensures Inv(FlushedStep(s, ok))
  {
    FailDrainKeepsInv(s);
  }

  lemma {:induction false} RowsAreContiguous(log: Log, from: nat)
    requires Valid(log) && ReadAfter(log, from, EVENT_READ_BATCH).Rows?
    ensures Contiguous(log, from, ReadAfter(log, from, EVENT_READ_BATCH).records)
  {
    var rows := ReadAfter(log, from, EVENT_READ_BATCH).records;
    ReadRows(log, from, EVENT_READ_BATCH);
    forall r | rows != [] && r in log.records && from < r.sequence <= rows[|rows| - 1].sequence ensures r in rows {
      ReadIsContiguous(log, from, EVENT_READ_BATCH, r, |rows| - 1);
    }
  }

  lemma {:induction false} RowsReadKeepsInv(s: State, ok: bool)
    requires Inv(s)
    ensures Inv(RowsReadStep(s, ok))
  {
    if s.drain.Reading? && s.drain.answer.None? && ok && ReadAfter(s.log, s.drain.from, EVENT_READ_BATCH).Rows? {
      RowsAreContiguous(s.log, s.drain.from);
    }
  }

  lemma {:induction false} BatchKeepsInv(s: State, from: nat, rows: seq<Record>)
    requires Inv(s) && Contiguous(s.log, from, rows)
    requires from <= s.log.latest && CoveredUpTo(s.log, s.start, s.barrier, s.completed, from)
    ensures Inv(BeginBatch(s, from, rows))
  {
    EndIsBeside(s, true);
    if rows == [] { BesideKeepsInv(s, EndDrain(s)); } else { AdvanceKeepsInv(s, from, rows, 0); }
  }

  lemma {:induction false} TooOldKeepsInv(s: State)
    requires Inv(s)
    ensures Inv(RequireResync(s).(drain := RequiringResync(|s.resyncs|)))
  {
  }

  lemma {:induction false} ReadResumedKeepsInv(s: State)
    requires Inv(s)
    ensures Inv(ReadResumedStep(s))
  {
    if s.drain.Reading? && s.drain.answer.Some? {
      match s.drain.answer.value
      case Unavailable => FailDrainKeepsInv(s);
      case TooOld => TooOldKeepsInv(s);
      case Rows(records) =>
        EndIsBeside(s, true);
        BesideKeepsInv(s, SetControlPlane(s, true));
        BatchKeepsInv(SetControlPlane(s, true), s.drain.from, records);
    }
  }

  /** The unconditional store: even when it moves the cursor back, no hole opens below it. */
  lemma {:induction false} CursorStored(s: State)
    requires Inv(s) && s.drain.Dispatching? && s.drain.result == Some(true)
    ensures CoveredUpTo(s.log, s.start, s.barrier, s.completed, s.drain.records[s.drain.index].sequence)
    ensures Inv(s.(cursor := s.drain.records[s.drain.index].sequence))
  {
    CoveragePasses(s, s.drain.from, s.drain.records, s.drain.index);
    assert s.drain.records[s.drain.index] in s.log.records;
  }

  /** After the store the batch goes on; `u` is the state it comes to. */
  lemma {:induction false} StoredAdvances(s: State, from: nat, rows: seq<Record>, index: nat, u: State)
    requires index < |rows| && Inv(s.(cursor := rows[index].sequence)) && Contiguous(s.log, from, rows) && from <= s.log.latest
    requires CoveredUpTo(s.log, s.start, s.barrier, s.completed, rows[index].sequence)
    requires u == Advance(s.(cursor := rows[index].sequence), from, rows, index + 1)
    ensures Inv(u)
  {
    AdvanceKeepsInv(s.(cursor := rows[index].sequence), from, rows, index + 1);
  }

  lemma {:induction false} DispatchCompletedKeepsInv(s: State)
    requires Inv(s) && s.drain.Dispatching? && s.drain.result == Some(true)
    ensures Inv(DispatchResumedStep(s))
  {
    CursorStored(s);
    StoredAdvances(s, s.drain.from, s.drain.records, s.drain.index, DispatchResumedStep(s));
  }

  lemma {:induction false} DispatchResumedKeepsInv(s: State)
    requires Inv(s)
    ensures Inv(DispatchResumedStep(s))
  {
    if s.drain.Dispatching? && s.drain.result.Some? {
      if s.drain.result.value {
        DispatchCompletedKeepsInv(s);
      } else {
        FailDrainKeepsInv(s);
      }
    }
  }

  lemma {:induction false} RequiredResyncResumedKeepsInv(s: State)
    requires Inv(s)
    ensures Inv(RequiredResyncResumedStep(s))
  {
    FailDrainKeepsInv(s);
  }

  // ---------------------------------------------------------------- full resync

  lemma {:induction false} BarrierReadKeepsInv(s: State, ok: bool)
    requires Inv(s)
    ensures Inv(BarrierReadStep(s, ok))
  {
  }

  lemma {:induction false} BarrierListsKeepsInv(s: State, barrier: nat)
    requires Inv(s) && barrier <= s.log.latest
    ensures Inv(s.(resync := Notifying(barrier, map id | id in Connected(s.sockets) :: Pending)))
  {
  }

  lemma {:induction false} BarrierFailsKeepsInv(s: State)
    requires Inv(s)
    ensures Inv(s.(resync := NoResync, resyncs := s.resyncs + [false], health := s.health.(fullResync := false)))
  {
    BesideKeepsInv(s, s.(health := s.health.(fullResync := false)));
  }

  lemma {:induction false} BarrierResumedKeepsInv(s: State)
    requires Inv(s)
    ensures Inv(BarrierResumedStep(s))
  {
    if s.resync.AwaitBarrier? && s.resync.answer.Some? {
      match s.resync.answer.value
      case Latest(barrier) => BarrierListsKeepsInv(s, barrier);
      case Unreadable => BarrierFailsKeepsInv(s);
    }
  }

  lemma {:induction false} NoticeKeepsInv(s: State, id: SocketId, notice: Notice)
    requires Inv(s) && s.resync.Notifying? && id in s.resync.notices
    requires notice.Dropped? ==> !s.sockets[id].connected
    ensures Inv(s.(resync := s.resync.(notices := s.resync.notices[id := notice])))
  {
  }

  lemma {:induction false} BarrierRecipientKeepsInv(s: State, id: SocketId, account: AccountAnswer)
    requires Inv(s)
    ensures Inv(BarrierRecipientStep(s, id, account))
  {
    if s.resync.Notifying? && id in s.resync.notices && s.resync.notices[id].Pending? {
      if account.Inactive? { SocketStep(s, Drop(s.sockets, id)); }
      NoticeKeepsInv(if account.Inactive? then s.(sockets := Drop(s.sockets, id)) else s, id,
                     if account.Active? then Notified else if account.Inactive? then Dropped else Unreachable);
    }
  }

  lemma {:induction false} BarrierDoneKeepsInv(s: State)
    requires Inv(s)
    ensures Inv(BarrierDoneStep(s))
  {
    if BarrierDoneStep(s) != s {
      var after := DropAll(s.sockets, UnreachableOf(s.resync.notices));
      BesideKeepsInv(s, s.(sockets := after, health := s.health.(fullResync := true)));
    }
  }

  // ---------------------------------------------------------------- dispatch

  lemma {:induction false} DrainResultKeepsInv(s: State, ok: bool)
    requires Inv(s) && s.drain.Dispatching?
    requires ok ==> s.drain.records[s.drain.index].sequence in s.completed
    ensures Inv(s.(drain := s.drain.(result := Some(ok))))
  {
  }

  lemma {:induction false} FinishKeepsInv(s: State, stream: string, ok: bool)
    requires Inv(s) && Running(s.queues, stream)
    requires ok && s.queues[stream][0].only.None? ==> s.queues[stream][0].record.sequence in s.completed
    ensures Inv(Finish(s, stream, ok))
  {
    var t := s.(queues := PopHead(s.queues, stream));
    PopKeepsInv(s, stream);
    if Finish(s, stream, ok).drain != s.drain { DrainResultKeepsInv(t, ok); }
  }

  lemma {:induction false} StartedKeepsInv(s: State, stream: string)
    requires Inv(s)
    ensures Inv(StartedStep(s, stream))
  {
    if StartedStep(s, stream) != s {
      HeadOk(s, stream);
      var phase := AwaitBackstop(s.health.settledChecks);
      SetHeadKeepsInv(s, stream, phase);
      var t := s.(queues := SetHead(s.queues, stream, phase));
      CheckIsBeside(t);
      BesideKeepsInv(t, BeginCheck(t));
    }
  }

  lemma {:induction false} InWindowWasDelivered(socket: Socket, eventId: string)
    requires WindowOk(socket) && eventId in socket.window
    ensures eventId in socket.deliveries
  {
  }

  lemma {:induction false} CapturedRecipients(s: State, record: Record, ids: set<SocketId>)
    requires SocketsOk(s.sockets)
    ensures var recipients := map id | id in ids && id in s.sockets :: InitialRecipient(record, s.sockets[id]);
            var audience := map id | id in ids && id in s.sockets :: s.sockets[id].rooms;
            RecipientsOk(record, recipients, s.sockets) && AudienceOk(record, audience, recipients)
  {
    forall id | id in ids && id in s.sockets ensures RecipientOk(record, InitialRecipient(record, s.sockets[id]), s.sockets[id]) {
      if record.eventId in s.sockets[id].window { InWindowWasDelivered(s.sockets[id], record.eventId); }
    }
  }

  lemma {:induction false} CapturedKeepsInv(s: State, stream: string)
    requires Inv(s)
    ensures Inv(CapturedStep(s, stream))
  {
    if Running(s.queues, stream) && s.queues[stream][0].phase.AwaitBackstop? {
      HeadOk(s, stream);
      var op := s.queues[stream][0];
      FinishKeepsInv(s, stream, false);
      CapturedRecipients(s, op.record, Recipients(s, op));
      var phase := Fanout(s.health.generation, s.health.outages,
                          map id | id in Recipients(s, op) && id in s.sockets :: s.sockets[id].rooms,
                          map id | id in Recipients(s, op) && id in s.sockets :: InitialRecipient(op.record, s.sockets[id]));
      SetHeadKeepsInv(s, stream, phase);
    }
  }

  /** One recipient of a running dispatch moves on; who is passed over was settled at the capture. */
  lemma {:induction false} RecipientMoves(record: Record, phase: Phase, sockets: map<SocketId, Socket>, id: SocketId, recipient: Recipient)
    requires phase.Fanout? && id in phase.recipients && id in sockets
    requires RecipientsOk(record, phase.recipients, sockets) && AudienceOk(record, phase.audience, phase.recipients)
    requires RecipientOk(record, recipient, sockets[id])
    requires OnCourse(Dispatch(record, None, phase), id, recipient)
    ensures RecipientsOk(record, phase.recipients[id := recipient], sockets)
    ensures AudienceOk(record, phase.audience, phase.recipients[id := recipient])
  {
    assert phase.recipients[id := recipient].Keys == phase.recipients.Keys;
  }

  lemma {:induction false} HeadMoves(log: Log, sockets: map<SocketId, Socket>, h: Health, stream: string, op: Dispatch,
                  id: SocketId, recipient: Recipient)
    requires op.phase.Fanout? && id in op.phase.recipients && id in sockets
    requires OpOk(log, sockets, stream, 0, op) && PhaseFenced(h, op.phase)
    requires RecipientOk(op.record, recipient, sockets[id]) && OnCourse(op, id, recipient)
    requires recipient.Authorizing? ==> op.phase.capturedAt <= recipient.authorizedAt <= h.outages
    ensures var phase := op.phase.(recipients := op.phase.recipients[id := recipient]);
            OpOk(log, sockets, stream, 0, op.(phase := phase)) && PhaseFenced(h, phase)
  {
    RecipientMoves(op.record, op.phase, sockets, id, recipient);
  }

  /** What a recipient of a dispatch may be after `outages` outages. */
  ghost predicate MayBe(op: Dispatch, id: SocketId, socket: Socket, outages: nat, recipient: Recipient) {
    && RecipientOk(op.record, recipient, socket) && OnCourse(op, id, recipient)
    && (recipient.Authorizing? ==> op.phase.capturedAt <= recipient.authorizedAt <= outages)
  }

  lemma {:induction false} SetRecipientKeepsInv(s: State, stream: string, id: SocketId, recipient: Recipient)
    requires Inv(s) && Evaluating(s, stream, id) && MayBe(s.queues[stream][0], id, s.sockets[id], s.health.outages, recipient)
    ensures Inv(SetRecipient(s, stream, id, recipient))
  {
    HeadOk(s, stream);
    var op := s.queues[stream][0];
    HeadMoves(s.log, s.sockets, s.health, stream, op, id, recipient);
    SetHeadKeepsInv(s, stream, op.phase.(recipients := op.phase.recipients[id := recipient]));
  }

  lemma {:induction false} PendingIsUnseen(s: State, stream: string, id: SocketId)
    requires Inv(s) && Evaluating(s, stream, id)
    ensures var op := s.queues[stream][0];
            MayBe(op, id, s.sockets[id], s.health.outages, op.phase.recipients[id]) && op.phase.capturedAt <= s.health.outages
    ensures RecipientOk(s.queues[stream][0].record, s.queues[stream][0].phase.recipients[id], s.sockets[id])
    ensures OnCourse(s.queues[stream][0], id, s.queues[stream][0].phase.recipients[id])
    ensures PhaseFenced(s.health, s.queues[stream][0].phase)
  {
    HeadOk(s, stream);
  }

  /** What the next answer makes of a recipient on course: the account is active, a target is allowed, or it is denied. */
  lemma {:induction false} AnswersStayOnCourse(op: Dispatch, id: SocketId, r: Recipient, at: nat)
    requires OnCourse(op, id, r)
    ensures r.AwaitAccount? ==> OnCourse(op, id, Authorizing(r.matching, [], false, at))
    ensures r.Authorizing? && r.remaining != [] ==>
              && OnCourse(op, id, Authorizing(r.remaining[1..], r.denied, true, at))
              && OnCourse(op, id, Authorizing(r.remaining[1..], r.denied + [r.remaining[0]], r.allowed, at))
    ensures r.Authorizing? && r.remaining == [] && !r.allowed ==> OnCourse(op, id, Settled(Refused(r.denied)))
  {
    if r.AwaitAccount? { assert [] + r.matching == r.matching; }
    if r.Authorizing? && r.remaining != [] {
      assert r.denied + r.remaining == (r.denied + [r.remaining[0]]) + r.remaining[1..];
    }
    if r.Authorizing? && r.remaining == [] { assert r.denied + r.remaining == r.denied; }
  }

  /** Every answer leads somewhere a recipient may be. */
  lemma {:induction false} AnswersMayBe(op: Dispatch, id: SocketId, socket: Socket, now: nat, r: Recipient)
    requires MayBe(op, id, socket, now, r) && op.phase.capturedAt <= now
    ensures !r.Settled? ==> MayBe(op, id, socket, now, Failed)
    ensures r.AwaitAccount? ==> MayBe(op, id, socket, now, Authorizing(r.matching, [], false, now))
    ensures r.Authorizing? && r.remaining != [] ==>
              && MayBe(op, id, socket, now, Authorizing(r.remaining[1..], r.denied, true, now))
              && MayBe(op, id, socket, now,
                       Authorizing(r.remaining[1..], r.denied + [r.remaining[0]], r.allowed, r.authorizedAt))
    ensures r.Authorizing? && r.remaining == [] && !r.allowed ==> MayBe(op, id, socket, now, Settled(Refused(r.denied)))
  {
    AnswersStayOnCourse(op, id, r, now);
    if r.Authorizing? { AnswersStayOnCourse(op, id, r, r.authorizedAt); }
  }

  lemma {:induction false} CutOffIsOk(record: Record, sockets: map<SocketId, Socket>, id: SocketId)
    requires id in sockets
    ensures id in Drop(sockets, id) && RecipientOk(record, Settled(CutOff), Drop(sockets, id)[id])
  {
  }

  lemma {:induction false} AccountCutOffKeepsInv(s: State, stream: string, id: SocketId)
    requires Inv(s) && Evaluating(s, stream, id) && s.queues[stream][0].phase.recipients[id].AwaitAccount?
    ensures Inv(SetRecipient(s, stream, id, Settled(CutOff)).(sockets := Drop(s.sockets, id)))
  {
    var t := s.(sockets := Drop(s.sockets, id));
    PendingIsUnseen(s, stream, id);
    CutOffIsOk(s.queues[stream][0].record, s.sockets, id);
    MovesKeepHistory(s.sockets, id, "");
    SocketStep(s, t.sockets);
    SetRecipientKeepsInv(t, stream, id, Settled(CutOff));
  }

  lemma {:induction false} AccountKeepsInv(s: State, stream: string, id: SocketId, account: AccountAnswer)
    requires Inv(s)
    ensures Inv(AccountStep(s, stream, id, account))
  {
    if Evaluating(s, stream, id) && s.queues[stream][0].phase.recipients[id].AwaitAccount? {
      PendingIsUnseen(s, stream, id);
      AnswersMayBe(s.queues[stream][0], id, s.sockets[id], s.health.outages, s.queues[stream][0].phase.recipients[id]);
      var phase := s.queues[stream][0].phase;
      if account.AccountError? || !Fenced(s, phase.generation) {
        SetRecipientKeepsInv(s, stream, id, Failed);
      } else if account.Inactive? {
        AccountCutOffKeepsInv(s, stream, id);
      } else {
        SetRecipientKeepsInv(s, stream, id, Authorizing(phase.recipients[id].matching, [], false, s.health.outages));
      }
    }
  }

  lemma {:induction false} DeniedKeepsInv(s: State, stream: string, id: SocketId, recipient: Recipient, room: string)
    requires Inv(s) && Evaluating(s, stream, id) && MayBe(s.queues[stream][0], id, s.sockets[id], s.health.outages, recipient)
    ensures Inv(SetRecipient(s, stream, id, recipient).(sockets := Leave(s.sockets, id, room)))
  {
    SetRecipientKeepsInv(s, stream, id, recipient);
    MovesKeepHistory(s.sockets, id, room);
    SocketStep(SetRecipient(s, stream, id, recipient), Leave(s.sockets, id, room));
  }

  lemma {:induction false} TargetKeepsInv(s: State, stream: string, id: SocketId, target: TargetAnswer)
    requires Inv(s)
    ensures Inv(TargetStep(s, stream, id, target))
  {
    if Evaluating(s, stream, id) && s.queues[stream][0].phase.recipients[id].Authorizing?
       && s.queues[stream][0].phase.recipients[id].remaining != []
    {
      PendingIsUnseen(s, stream, id);
      AnswersMayBe(s.queues[stream][0], id, s.sockets[id], s.health.outages, s.queues[stream][0].phase.recipients[id]);
      var r := s.queues[stream][0].phase.recipients[id];
      if target.TargetError? || !Fenced(s, s.queues[stream][0].phase.generation) {
        SetRecipientKeepsInv(s, stream, id, Failed);
      } else if target.Allowed? {
        SetRecipientKeepsInv(s, stream, id, Authorizing(r.remaining[1..], r.denied, true, s.health.outages));
      } else {
        DeniedKeepsInv(s, stream, id, Authorizing(r.remaining[1..], r.denied + [r.remaining[0]], r.allowed, r.authorizedAt),
                       r.remaining[0]);
      }
    }
  }

  // ---------------------------------------------------------------- one emission

  lemma {:induction false} RememberedIds(window: seq<string>, eventId: string, other: string)
    requires other in Remember(window, eventId)
    ensures other == eventId || other in window
  {
  }

  lemma {:induction false} SuffixHas(deliveries: seq<string>, from: nat, i: nat)
    requires from <= |deliveries| && i < |deliveries|
    ensures from <= i ==> deliveries[i] in deliveries[from..]
  {
    if from <= i { assert deliveries[from..][i - from] == deliveries[i]; }
  }

  lemma {:induction false} UnseenIsFarBack(socket: Socket, eventId: string, i: nat)
    requires WindowOk(socket) && eventId !in socket.window
    requires i < |socket.deliveries| && socket.deliveries[i] == eventId
    ensures i < |socket.deliveries| - |socket.window|
  {
    SuffixHas(socket.deliveries, |socket.deliveries| - |socket.window|, i);
  }

  /** Delivering an id that is not remembered keeps the deliveries of one id a window apart. */
  lemma {:induction false} RememberKeepsWindow(socket: Socket, eventId: string)
    requires WindowOk(socket) && eventId !in socket.window
    ensures WindowOk(socket.(window := Remember(socket.window, eventId), deliveries := socket.deliveries + [eventId]))
  {
    var n, w := |socket.deliveries|, |socket.window|;
    var after := socket.deliveries + [eventId];
    forall i, j | 0 <= i < j < |after| && after[i] == after[j] ensures MAX_DELIVERED_EVENT_IDS < j - i {
      if j == n { UnseenIsFarBack(socket, eventId, i); }
    }
    assert socket.window + [eventId] == after[n - w..];
  }

  lemma {:induction false} DeliverKeepsOtherRecipients(record: Record, recipients: map<SocketId, Recipient>,
                                    sockets: map<SocketId, Socket>, id: SocketId, eventId: string)
    requires RecipientsOk(record, recipients, sockets) && id in sockets && record.eventId != eventId
    ensures RecipientsOk(record, recipients, Deliver(sockets, id, eventId))
  {
    forall k | k in recipients ensures RecipientOk(record, recipients[k], Deliver(sockets, id, eventId)[k]) {
      if k == id && record.eventId in Remember(sockets[id].window, eventId) {
        RememberedIds(sockets[id].window, eventId, record.eventId);
      }
    }
  }

  lemma {:induction false} DeliverKeepsOwnRecipients(record: Record, phase: Phase, sockets: map<SocketId, Socket>, id: SocketId)
    requires phase.Fanout? && id in phase.recipients && id in sockets && !phase.recipients[id].Settled?
    requires RecipientsOk(record, phase.recipients, sockets) && AudienceOk(record, phase.audience, phase.recipients)
    ensures var after := phase.recipients[id := Settled(Delivered)];
            RecipientsOk(record, after, Deliver(sockets, id, record.eventId)) && AudienceOk(record, phase.audience, after)
  {
    var after := phase.recipients[id := Settled(Delivered)];
    assert after.Keys == phase.recipients.Keys;
    forall k | k in after ensures RecipientOk(record, after[k], Deliver(sockets, id, record.eventId)[k]) {
      assert k != id ==> RecipientOk(record, phase.recipients[k], sockets[k]);
    }
  }

  lemma {:induction false} DeliverKeepsOp(log: Log, sockets: map<SocketId, Socket>, stream: string, index: nat, op: Dispatch,
                       id: SocketId, record: Record)
    requires Valid(log) && record in log.records && id in sockets
    requires OpOk(log, sockets, stream, index, op)
    requires op.phase.Fanout? ==> stream != record.streamId
    ensures OpOk(log, Deliver(sockets, id, record.eventId), stream, index, op)
  {
    if op.phase.Fanout? {
      DeliverKeepsOtherRecipients(op.record, op.phase.recipients, sockets, id, record.eventId);
    }
  }

  lemma {:induction false} DeliverKeepsQueue(log: Log, sockets: map<SocketId, Socket>, stream: string, ops: seq<Dispatch>,
                          id: SocketId, record: Record)
    requires Valid(log) && record in log.records && id in sockets
    requires QueueOk(log, sockets, stream, ops) && stream != record.streamId
    ensures QueueOk(log, Deliver(sockets, id, record.eventId), stream, ops)
  {
    forall i | 0 <= i < |ops| ensures OpOk(log, Deliver(sockets, id, record.eventId), stream, i, ops[i]) {
      DeliverKeepsOp(log, sockets, stream, i, ops[i], id, record);
    }
  }

  lemma {:induction false} DeliverKeepsOwnQueue(log: Log, sockets: map<SocketId, Socket>, stream: string, ops: seq<Dispatch>, id: SocketId)
    requires Valid(log) && id in sockets && QueueOk(log, sockets, stream, ops)
    requires ops[0].phase.Fanout? && id in ops[0].phase.recipients && !ops[0].phase.recipients[id].Settled?
    ensures var phase := ops[0].phase.(recipients := ops[0].phase.recipients[id := Settled(Delivered)]);
            QueueOk(log, Deliver(sockets, id, ops[0].record.eventId), stream, [ops[0].(phase := phase)] + ops[1..])
  {
    var phase := ops[0].phase.(recipients := ops[0].phase.recipients[id := Settled(Delivered)]);
    var after := [ops[0].(phase := phase)] + ops[1..];
    assert OpOk(log, sockets, stream, 0, ops[0]);
    DeliverKeepsOwnRecipients(ops[0].record, ops[0].phase, sockets, id);
    forall i | 0 <= i < |after| ensures OpOk(log, Deliver(sockets, id, ops[0].record.eventId), stream, i, after[i]) {
      if 0 < i { DeliverKeepsOp(log, sockets, stream, i, ops[i], id, ops[0].record); }
    }
  }

  lemma {:induction false} DeliverKeepsQueues(log: Log, sockets: map<SocketId, Socket>, queues: map<string, seq<Dispatch>>,
                           stream: string, id: SocketId)
    requires Valid(log) && QueuesOk(log, sockets, queues) && Running(queues, stream) && id in sockets
    requires var phase := queues[stream][0].phase; phase.Fanout? && id in phase.recipients && !phase.recipients[id].Settled?
    ensures var op := queues[stream][0];
            QueuesOk(log, Deliver(sockets, id, op.record.eventId),
                     SetHead(queues, stream, op.phase.(recipients := op.phase.recipients[id := Settled(Delivered)])))
  {
    var op := queues[stream][0];
    var after := SetHead(queues, stream, op.phase.(recipients := op.phase.recipients[id := Settled(Delivered)]));
    assert QueueOk(log, sockets, stream, queues[stream]);
    assert OpOk(log, sockets, stream, 0, op);
    DeliverKeepsOwnQueue(log, sockets, stream, queues[stream], id);
    forall other | other in after ensures QueueOk(log, Deliver(sockets, id, op.record.eventId), other, after[other]) {
      if other != stream { DeliverKeepsQueue(log, sockets, other, queues[other], id, op.record); }
    }
  }

  lemma {:induction false} DeliverKeepsCompleted(log: Log, completed: map<nat, Completion>, sockets: map<SocketId, Socket>,
                              id: SocketId, eventId: string)
    requires CompletedOk(log, completed, sockets) && id in sockets
    ensures CompletedOk(log, completed, Deliver(sockets, id, eventId))
  {
    var after := Deliver(sockets, id, eventId);
    forall r | r in log.records && r.sequence in completed ensures CompletionOk(r, completed[r.sequence], after) {
      var c := completed[r.sequence];
      assert CompletionOk(r, c, sockets);
      forall k | k in c.audience ensures OutcomeOk(r, c.outcomes[k], after[k]) {
        assert OutcomeOk(r, c.outcomes[k], sockets[k]);
      }
    }
  }

  lemma {:induction false} DeliverKeepsSockets(sockets: map<SocketId, Socket>, id: SocketId, eventId: string)
    requires SocketsOk(sockets) && id in sockets && eventId !in sockets[id].window
    ensures SocketsOk(Deliver(sockets, id, eventId))
  {
    RememberKeepsWindow(sockets[id], eventId);
  }

  lemma {:induction false} SetHeadKeepsFence(h: Health, queues: map<string, seq<Dispatch>>, stream: string, phase: Phase)
    requires QueuesFenced(h, queues) && Running(queues, stream) && PhaseFenced(h, phase)
    ensures QueuesFenced(h, SetHead(queues, stream, phase))
  {
    var after := SetHead(queues, stream, phase);
    forall other | Running(after, other) ensures PhaseFenced(h, after[other][0].phase) {
      if other != stream { assert PhaseFenced(h, queues[other][0].phase); }
    }
  }

  lemma {:induction false} DeliverKeepsFence(h: Health, queues: map<string, seq<Dispatch>>, stream: string, id: SocketId)
    requires QueuesFenced(h, queues) && Running(queues, stream) && queues[stream][0].phase.Fanout?
    ensures var phase := queues[stream][0].phase;
            QueuesFenced(h, SetHead(queues, stream, phase.(recipients := phase.recipients[id := Settled(Delivered)])))
  {
    var phase := queues[stream][0].phase;
    assert PhaseFenced(h, phase);
    SetHeadKeepsFence(h, queues, stream, phase.(recipients := phase.recipients[id := Settled(Delivered)]));
  }

  lemma {:induction false} DeliverKeepsNotices(resync: Resync, notices: map<SocketId, Notice>, sockets: map<SocketId, Socket>,
                            id: SocketId, eventId: string)
    requires NoticesOk(resync, sockets) && BarrierHeard(notices, sockets) && id in sockets
    ensures NoticesOk(resync, Deliver(sockets, id, eventId)) && BarrierHeard(notices, Deliver(sockets, id, eventId))
  {
  }

  lemma {:induction false} EmissionStep(s: State, sockets: map<SocketId, Socket>, queues: map<string, seq<Dispatch>>, e: Emission)
    requires Inv(s)
    requires SocketsOk(sockets) && QueuesOk(s.log, sockets, queues) && CompletedOk(s.log, s.completed, sockets)
    requires QueuesFenced(s.health, queues) && EmissionOk(e)
    requires NoticesOk(s.resync, sockets) && BarrierHeard(s.barrierNotices, sockets)
    ensures Inv(s.(queues := queues, sockets := sockets, emissions := s.emissions + [e]))
  {
  }

  lemma {:induction false} DeliverKeepsDeliveryInv(log: Log, h: Health, sockets: map<SocketId, Socket>, queues: map<string, seq<Dispatch>>,
                                completed: map<nat, Completion>, emissions: seq<Emission>, stream: string, id: SocketId)
    requires DeliveryInv(log, h, sockets, queues, completed, emissions) && Running(queues, stream) && id in sockets
    requires var phase := queues[stream][0].phase; phase.Fanout? && id in phase.recipients && phase.recipients[id].Authorizing?
    requires queues[stream][0].record.eventId !in sockets[id].window
    ensures var op := queues[stream][0];
            var phase := op.phase.(recipients := op.phase.recipients[id := Settled(Delivered)]);
            var after := Deliver(sockets, id, op.record.eventId);
            && SocketsOk(after) && QueuesOk(log, after, SetHead(queues, stream, phase)) && CompletedOk(log, completed, after)
            && QueuesFenced(h, SetHead(queues, stream, phase))
  {
    var op := queues[stream][0];
    DeliverKeepsSockets(sockets, id, op.record.eventId);
    DeliverKeepsQueues(log, sockets, queues, stream, id);
    DeliverKeepsCompleted(log, completed, sockets, id, op.record.eventId);
    DeliverKeepsFence(h, queues, stream, id);
  }

  /** The queues after an emission: the recipient is settled in the running dispatch. */
  function QueuesAfterEmission(queues: map<string, seq<Dispatch>>, stream: string, id: SocketId): map<string, seq<Dispatch>>
    requires Running(queues, stream) && queues[stream][0].phase.Fanout?
  {
    var phase := queues[stream][0].phase;
    SetHead(queues, stream, phase.(recipients := phase.recipients[id := Settled(Delivered)]))
  }

  /** The emission of a recipient's last segment, with the counts it is stamped with. */
  function EmissionOf(s: State, stream: string, id: SocketId): Emission
    requires Evaluating(s, stream, id) && s.queues[stream][0].phase.recipients[id].Authorizing?
  {
    var op := s.queues[stream][0];
    Emission(id, op.record, s.health.Ready(), op.phase.capturedAt, op.phase.recipients[id].authorizedAt, s.health.outages)
  }

  lemma {:induction false} EmissionIsStep(s: State, stream: string, id: SocketId)
    requires Evaluating(s, stream, id)
    requires var r := s.queues[stream][0].phase.recipients[id]; r.Authorizing? && r.remaining == [] && r.allowed
    requires Fenced(s, s.queues[stream][0].phase.generation)
    ensures RecipientDoneStep(s, stream, id)
            == s.(queues := QueuesAfterEmission(s.queues, stream, id),
                  sockets := Deliver(s.sockets, id, s.queues[stream][0].record.eventId),
                  emissions := s.emissions + [EmissionOf(s, stream, id)])
  {
  }

  /** The fence makes the stamps of an emission agree. */
  lemma {:induction false} FencedEmissionOk(s: State, stream: string, id: SocketId)
    requires QueuesFenced(s.health, s.queues) && Evaluating(s, stream, id)
    requires s.queues[stream][0].phase.recipients[id].Authorizing? && s.queues[stream][0].phase.recipients[id].allowed
    requires Fenced(s, s.queues[stream][0].phase.generation)
    ensures EmissionOk(EmissionOf(s, stream, id))
  {
    assert PhaseFenced(s.health, s.queues[stream][0].phase);
  }

  lemma {:induction false} EmittedKeepsInv(s: State, stream: string, id: SocketId)
    requires Inv(s) && Evaluating(s, stream, id)
    requires var r := s.queues[stream][0].phase.recipients[id]; r.Authorizing? && r.remaining == [] && r.allowed
    requires Fenced(s, s.queues[stream][0].phase.generation)
    ensures Inv(RecipientDoneStep(s, stream, id))
  {
    var eventId := s.queues[stream][0].record.eventId;
    PendingIsUnseen(s, stream, id);
    FencedEmissionOk(s, stream, id);
    EmissionIsStep(s, stream, id);
    DeliverKeepsDeliveryInv(s.log, s.health, s.sockets, s.queues, s.completed, s.emissions, stream, id);
    DeliverKeepsNotices(s.resync, s.barrierNotices, s.sockets, id, eventId);
    EmissionStep(s, Deliver(s.sockets, id, eventId), QueuesAfterEmission(s.queues, stream, id), EmissionOf(s, stream, id));
  }

  lemma {:induction false} RecipientDoneKeepsInv(s: State, stream: string, id: SocketId)
    requires Inv(s)
    ensures Inv(RecipientDoneStep(s, stream, id))
  {
    if Evaluating(s, stream, id) && s.queues[stream][0].phase.recipients[id].Authorizing?
       && s.queues[stream][0].phase.recipients[id].remaining == []
    {
      var op := s.queues[stream][0];
      if !op.phase.recipients[id].allowed {
        PendingIsUnseen(s, stream, id);
        AnswersMayBe(s.queues[stream][0], id, s.sockets[id], s.health.outages, s.queues[stream][0].phase.recipients[id]);
        SetRecipientKeepsInv(s, stream, id, Settled(Refused(op.phase.recipients[id].denied)));
      } else if !Fenced(s, op.phase.generation) {
        PendingIsUnseen(s, stream, id);
        AnswersMayBe(s.queues[stream][0], id, s.sockets[id], s.health.outages, s.queues[stream][0].phase.recipients[id]);
        SetRecipientKeepsInv(s, stream, id, Failed);
      } else {
        EmittedKeepsInv(s, stream, id);
      }
    }
  }

  lemma {:induction false} CompletionRecorded(s: State, stream: string)
    requires Inv(s) && Running(s.queues, stream) && s.queues[stream][0].phase.Fanout?
    requires forall id :: id in s.queues[stream][0].phase.recipients ==> s.queues[stream][0].phase.recipients[id].Settled?
    ensures Inv(Complete(s, s.queues[stream][0]))
  {
    if s.queues[stream][0].only.Some? { return; }
    HeadOk(s, stream);
    var op := s.queues[stream][0];
    var completion := Completion(op.phase.audience, Outcomes(op.phase.recipients));
    assert completion.outcomes.Keys == op.phase.recipients.Keys;
    assert CompletionOk(op.record, completion, s.sockets) by {
      forall id | id in completion.audience ensures OutcomeOk(op.record, completion.outcomes[id], s.sockets[id]) {
        assert RecipientOk(op.record, op.phase.recipients[id], s.sockets[id]);
      }
    }
    var after := s.completed[op.record.sequence := completion];
    assert CompletedOk(s.log, after, s.sockets) by {
      forall r | r in s.log.records && r.sequence in after ensures CompletionOk(r, after[r.sequence], s.sockets) {
        if r.sequence == op.record.sequence { SequenceIdentifies(s.log, r, op.record); }
      }
    }
    assert DrainCovered(s.(completed := after));
  }

  lemma {:induction false} SettledKeepsInv(s: State, stream: string)
    requires Inv(s) && Running(s.queues, stream) && s.queues[stream][0].phase.Fanout?
    requires forall id :: id in s.queues[stream][0].phase.recipients ==> s.queues[stream][0].phase.recipients[id].Settled?
    ensures Inv(Finish(Complete(s, s.queues[stream][0]), stream, true))
  {
    CompletionRecorded(s, stream);
    FinishKeepsInv(Complete(s, s.queues[stream][0]), stream, true);
  }

  lemma {:induction false} DispatchSettledKeepsInv(s: State, stream: string)
    requires Inv(s)
    ensures Inv(DispatchSettledStep(s, stream))
  {
    if Exhausted(s, stream) {
      var op := s.queues[stream][0];
      if Fenced(s, op.phase.generation) && forall id | id in op.phase.recipients :: op.phase.recipients[id].Settled? {
        SettledKeepsInv(s, stream);
      } else {
        FinishKeepsInv(s, stream, false);
      }
    }
  }

  lemma {:induction false} SequenceIdentifies(log: Log, r: Record, q: Record)
    requires Valid(log) && r in log.records && q in log.records && r.sequence == q.sequence
    ensures r == q
  {
    var i :| 0 <= i < |log.records| && log.records[i] == r;
    var j :| 0 <= j < |log.records| && log.records[j] == q;
    LowerIsEarlier(log.records, i, j);
    LowerIsEarlier(log.records, j, i);
  }

  // ---------------------------------------------------------------- every run

  lemma {:induction false} LogActionKeepsInv(s: State, a: Action)
    requires Inv(s) && (a.Publish? || a.PoisonRemediated? || a.Prune?)
    ensures Inv(Apply(s, a))
  {
    match a
    case Publish(eventId, streamId, targets) =>
      if !(exists r :: r in s.log.records && r.eventId == eventId) {
        AppendKeepsValid(s.log, eventId, streamId, targets);
        LogStep(s, Append(s.log, eventId, streamId, targets));
      }
    case PoisonRemediated => LogStep(s, ForceBarrier(s.log));
    case Prune(through) =>
      if s.log.pruned <= through <= s.log.latest { LogStep(s, s.log.(pruned := through)); }
  }

  lemma {:induction false} FlushActionKeepsInv(s: State, a: Action)
    requires Inv(s) && (a.OutboxFlushed? || a.RequiredResyncResumed?)
    ensures Inv(Apply(s, a))
  {
    match a
    case OutboxFlushed(ok) => FlushedKeepsInv(s, ok);
    case RequiredResyncResumed => RequiredResyncResumedKeepsInv(s);
  }

  lemma {:induction false} ReadActionKeepsInv(s: State, a: Action)
    requires Inv(s) && (a.RowsRead? || a.ReadResumed? || a.DispatchResumed?)
    ensures Inv(Apply(s, a))
  {
    match a
    case RowsRead(ok) => RowsReadKeepsInv(s, ok);
    case ReadResumed => ReadResumedKeepsInv(s);
    case DispatchResumed => DispatchResumedKeepsInv(s);
  }

  lemma {:induction false} ResyncSignalKeepsInv(s: State)
    requires Inv(s)
    ensures Inv(RequireResync(s))
  {
  }

  lemma {:induction false} ResyncActionKeepsInv(s: State, a: Action, u: State)
    requires Inv(s) && (a.ResyncSignal? || a.BarrierRead? || a.BarrierResumed? || a.BarrierRecipient? || a.BarrierDone?)
    requires u == Apply(s, a)
    ensures Inv(u)
  {
    match a
    case ResyncSignal => ResyncSignalKeepsInv(s);
    case BarrierRead(ok) => BarrierReadKeepsInv(s, ok);
    case BarrierResumed => BarrierResumedKeepsInv(s);
    case BarrierRecipient(id, account) => BarrierRecipientKeepsInv(s, id, account);
    case BarrierDone => BarrierDoneKeepsInv(s);
  }

  lemma {:induction false} QueueActionKeepsInv(s: State, a: Action)
    requires Inv(s) && (a.ReplayQueued? || a.DispatchStarted?)
    ensures Inv(Apply(s, a))
  {
    match a
    case ReplayQueued(id, record) =>
      if record in s.log.records { EnqueueKeepsInv(s, Dispatch(record, Some(id), Queued)); }
    case DispatchStarted(stream) => StartedKeepsInv(s, stream);
  }

  lemma {:induction false} StreamActionKeepsInv(s: State, a: Action)
    requires Inv(s) && (a.HealthCaptured? || a.DispatchSettled?)
    ensures Inv(Apply(s, a))
  {
    match a
    case HealthCaptured(stream) => CapturedKeepsInv(s, stream);
    case DispatchSettled(stream) => DispatchSettledKeepsInv(s, stream);
  }

  lemma {:induction false} RecipientActionKeepsInv(s: State, a: Action)
    requires Inv(s) && (a.AccountLoaded? || a.TargetChecked? || a.RecipientDone?)
    ensures Inv(Apply(s, a))
  {
    match a
    case AccountLoaded(stream, id, account) => AccountKeepsInv(s, stream, id, account);
    case TargetChecked(stream, id, target) => TargetKeepsInv(s, stream, id, target);
    case RecipientDone(stream, id) => RecipientDoneKeepsInv(s, stream, id);
  }

  lemma {:induction false} StepKeepsInv(s: State, a: Action)
    requires Inv(s)
    ensures Inv(Apply(s, a))
  {
    if a.Publish? || a.PoisonRemediated? || a.Prune? {
      LogActionKeepsInv(s, a);
    } else if a.Connect? || a.Disconnect? || a.JoinRoom? || a.LeaveRoom? {
      SocketActionIsBeside(s, a);
      BesideKeepsInv(s, Apply(s, a));
    } else if a.CheckTimer? || a.StatusReturned? || a.Reconciled? {
      HealthActionIsBeside(s, a);
      BesideKeepsInv(s, Apply(s, a));
    } else if a.ResyncSignal? || a.BarrierRead? || a.BarrierResumed? || a.BarrierRecipient? || a.BarrierDone? {
      ResyncActionKeepsInv(s, a, Apply(s, a));
    } else if a.ReplayQueued? || a.DispatchStarted? {
      QueueActionKeepsInv(s, a);
    } else if a.HealthCaptured? || a.DispatchSettled? {
      StreamActionKeepsInv(s, a);
    } else if a.AccountLoaded? || a.TargetChecked? || a.RecipientDone? {
      RecipientActionKeepsInv(s, a);
    } else if a.RowsRead? || a.ReadResumed? || a.DispatchResumed? {
      ReadActionKeepsInv(s, a);
    } else if a.DrainRequested? {
      RecoverIsBeside(s);
      BesideKeepsInv(s, RequestDrain(s));
    } else if a.ResyncAwaited? {
      ResyncAwaitedIsBeside(s);
      BesideKeepsInv(s, ResyncAwaitedStep(s));
    } else {
      FlushActionKeepsInv(s, a);
    }
  }

  /** Every state reachable from a finished startup, in every interleaving, satisfies the invariant. */
  lemma {:induction false} RunKeepsInv(s: State, actions: seq<Action>)
    requires Inv(s)
    ensures Inv(Run(s, actions))
    decreases |actions|
  {
    if actions != [] {
      StepKeepsInv(s, actions[0]);
      RunKeepsInv(Apply(s, actions[0]), actions[1..]);
    }
  }

  // ---------------------------------------------------------------- the theorems

  lemma {:induction false} InitHasInv(s: State)
    requires Init(s)
    ensures Inv(s)
  {
  }

  /** Every event was emitted while the runtime was ready, with no outage begun since the capture or the authorization. */
  lemma {:induction false} HealthFence(s: State, actions: seq<Action>, e: Emission)
    requires Init(s) && e in Run(s, actions).emissions
    ensures e.ready && e.capturedAt == e.authorizedAt == e.emittedAt
  {
    InitHasInv(s);
    RunKeepsInv(s, actions);
    assert EmissionsOk(Run(s, actions).emissions);
  }

  /** If a socket gets an event again, at least a full window of emissions, all of other and pairwise different events, came in between. */
  lemma {:induction false} AtMostOnceInAWindow(s: State, actions: seq<Action>, id: SocketId, i: nat, j: nat)
    requires Init(s) && id in Run(s, actions).sockets
    requires var d := Run(s, actions).sockets[id].deliveries; i < j < |d| && d[i] == d[j]
    ensures var d := Run(s, actions).sockets[id].deliveries;
            && i + MAX_DELIVERED_EVENT_IDS < j
            && forall p, q :: i <= p < q <= i + MAX_DELIVERED_EVENT_IDS ==> d[p] != d[q]
  {
    InitHasInv(s);
    RunKeepsInv(s, actions);
    assert WindowOk(Run(s, actions).sockets[id]);
  }
}
