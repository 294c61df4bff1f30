/**
 The realtime delivery runtime as a transition system. One action is one stretch of code between two
 awaits, or one thing the outside world does meanwhile; an action that is not enabled changes nothing.
 */
module RealtimeModel {
  import opened Options
  import opened RealtimeLog

  const MAX_DELIVERED_EVENT_IDS: nat := 2048

  type SocketId = nat

  /** `window` is the insertion-ordered map of remembered event ids; `deliveries` is every emission ever made. */
  datatype Socket = Socket(connected: bool, rooms: set<string>, window: seq<string>, deliveries: seq<string>)

  /** A refused recipient was denied each of the rooms listed, one answer after the other. */
  datatype Outcome = NotInRoom | AlreadyDelivered | Delivered | Refused(denied: seq<string>) | CutOff

  /** Where one recipient's asynchronous evaluation stands inside a dispatch; no decision reads `denied`. */
  datatype Recipient =
    | AwaitAccount(matching: seq<string>)
    | Authorizing(remaining: seq<string>, denied: seq<string>, allowed: bool, authorizedAt: nat)
    | Settled(outcome: Outcome)
    | Failed

  datatype Phase =
    | Queued
    | AwaitBackstop(ticket: nat)
    | Fanout(generation: nat, capturedAt: nat, audience: map<SocketId, set<string>>, recipients: map<SocketId, Recipient>)

  /** A live dispatch that ended well: the rooms of every addressed socket when it began, and what became of each. */
  datatype Completion = Completion(audience: map<SocketId, set<string>>, outcomes: map<SocketId, Outcome>)

  /** `only` names the socket of a replay; a live dispatch addresses every connected socket. */
  datatype Dispatch = Dispatch(record: Record, only: Option<SocketId>, phase: Phase)

  datatype Check = NoCheck | AwaitStatus(wasInstalled: bool) | AwaitReconcile

  /** `outages` counts the backstop outages that ever began; `settledChecks` the checks that ever ended. */
  datatype Health = Health(
    controlPlane: bool, backstops: bool, recoveryRequired: bool, fullResync: bool,
    generation: nat, check: Check, settledChecks: nat, outages: nat)
  {
    predicate Ready() { controlPlane && backstops && fullResync }
  }

  datatype Drain =
    | Idle
    | AwaitResync(awaited: Option<nat>)
    | Flushing
    | Reading(from: nat, answer: Option<Read>)
    | Dispatching(from: nat, records: seq<Record>, index: nat, result: Option<bool>)
    | RequiringResync(resyncIndex: nat)

  datatype Notice = Pending | Notified | Dropped | Unreachable

  /** What the read of the barrier answers: an error, or the validated latest sequence. */
  datatype BarrierAnswer = Unreadable | Latest(sequence: nat)

  datatype Resync =
    | NoResync
    | AwaitBarrier(answer: Option<BarrierAnswer>)
    | Notifying(barrier: nat, notices: map<SocketId, Notice>)

  /** One socket emission, stamped with the outage counts at capture, at the last authorization and at emission. */
  datatype Emission = Emission(
    socket: SocketId, record: Record, ready: bool, capturedAt: nat, authorizedAt: nat, emittedAt: nat)

  datatype State = State(
    log: Log,
    health: Health,
    sockets: map<SocketId, Socket>,
    queues: map<string, seq<Dispatch>>,
    cursor: nat,
    drain: Drain,
    drainAgain: bool,
    resync: Resync,
    resyncs: seq<bool>,
    start: nat,
    barrier: nat,
    barrierNotices: map<SocketId, Notice>,
    completed: map<nat, Completion>,
    emissions: seq<Emission>)

  datatype AccountAnswer = Active | Inactive | AccountError
  datatype TargetAnswer = Allowed | Denied | TargetError
  datatype StatusAnswer = Installed | Missing | StatusError

  datatype Action =
    | Publish(eventId: string, streamId: string, targets: seq<Target>)
    | PoisonRemediated
    | Prune(through: nat)
    | Connect(id: SocketId)
    | Disconnect(id: SocketId)
    | JoinRoom(id: SocketId, room: string)
    | LeaveRoom(id: SocketId, room: string)
    | CheckTimer
    | StatusReturned(status: StatusAnswer)
    | Reconciled(ok: bool)
    | DrainRequested
    | ResyncAwaited
    | OutboxFlushed(ok: bool)
    | RowsRead(ok: bool)
    | ReadResumed
    | DispatchResumed
    | RequiredResyncResumed
    | ResyncSignal
    | BarrierRead(ok: bool)
    | BarrierResumed
    | BarrierRecipient(id: SocketId, account: AccountAnswer)
    | BarrierDone
    | ReplayQueued(id: SocketId, record: Record)
    | DispatchStarted(stream: string)
    | HealthCaptured(stream: string)
    | AccountLoaded(stream: string, id: SocketId, account: AccountAnswer)
    | TargetChecked(stream: string, id: SocketId, target: TargetAnswer)
    | RecipientDone(stream: string, id: SocketId)
    | DispatchSettled(stream: string)

  // ---------------------------------------------------------------- sockets

  function Drop(sockets: map<SocketId, Socket>, id: SocketId): map<SocketId, Socket> {
    if id in sockets then sockets[id := sockets[id].(connected := false, rooms := {})] else sockets
  }

  function Leave(sockets: map<SocketId, Socket>, id: SocketId, room: string): map<SocketId, Socket> {
    if id in sockets then sockets[id := sockets[id].(rooms := sockets[id].rooms - {room})] else sockets
  }

  function DropAll(sockets: map<SocketId, Socket>, ids: set<SocketId>): map<SocketId, Socket> {
    map id | id in sockets ::
      if id in ids then sockets[id].(connected := false, rooms := {}) else sockets[id]
  }

  function Connected(sockets: map<SocketId, Socket>): set<SocketId> {
    set id | id in sockets && sockets[id].connected
  }

  /** Map.set followed by eviction of the oldest keys: the last MAX_DELIVERED_EVENT_IDS remain. */
  function Remember(window: seq<string>, eventId: string): seq<string> {
    var grown := if eventId in window then window else window + [eventId];
    if |grown| <= MAX_DELIVERED_EVENT_IDS then grown else grown[|grown| - MAX_DELIVERED_EVENT_IDS..]
  }

  /** The emission of an event to a socket, and the entry that remembers it. */
  function Deliver(sockets: map<SocketId, Socket>, id: SocketId, eventId: string): map<SocketId, Socket>
    requires id in sockets
  {
    sockets[id := sockets[id].(window := Remember(sockets[id].window, eventId),
                               deliveries := sockets[id].deliveries + [eventId])]
  }

  /** The targets whose room the socket is in, in stored order. */
  function Matching(targets: seq<Target>, rooms: set<string>): seq<string> {
    if targets == [] then []
    else (if targets[0].Room? && targets[0].name in rooms then [targets[0].name] else []) + Matching(targets[1..], rooms)
  }

  // ---------------------------------------------------------------- authorization health

  function SuspendHealth(h: Health): Health {
    if h.backstops
    then h.(backstops := false, recoveryRequired := true, generation := h.generation + 1, outages := h.outages + 1)
    else h.(recoveryRequired := true)
  }

  /** Suspension: the fence closes first, then, on a real transition, every connected socket is disconnected. */
  function Suspend(s: State): State {
    s.(health := SuspendHealth(s.health),
       sockets := if s.health.backstops then DropAll(s.sockets, Connected(s.sockets)) else s.sockets)
  }

  function SettleCheck(s: State): State {
    s.(health := s.health.(check := NoCheck, settledChecks := s.health.settledChecks + 1))
  }

  function Recover(s: State): State {
    RequestDrain(s.(health := s.health.(
                      generation := s.health.generation + 1, recoveryRequired := false, backstops := true)))
  }

  function BeginCheck(s: State): State {
    if s.health.check.NoCheck? then s.(health := s.health.(check := AwaitStatus(s.health.backstops))) else s
  }

  function StatusStep(s: State, status: StatusAnswer): State {
    if !s.health.check.AwaitStatus? then s
    else if !status.Installed? then SettleCheck(Suspend(s))
    else if s.health.check.wasInstalled then SettleCheck(s.(health := s.health.(backstops := true)))
    else if s.health.recoveryRequired then s.(health := s.health.(check := AwaitReconcile))
    else SettleCheck(Recover(s))
  }

  function ReconcileStep(s: State, ok: bool): State {
    if !s.health.check.AwaitReconcile? then s
    else if ok then SettleCheck(Recover(s))
    else SettleCheck(Suspend(s))
  }

  // ---------------------------------------------------------------- stream queues

  function Queue(queues: map<string, seq<Dispatch>>, stream: string): seq<Dispatch> {
    if stream in queues then queues[stream] else []
  }

  function Enqueue(queues: map<string, seq<Dispatch>>, op: Dispatch): map<string, seq<Dispatch>> {
    queues[op.record.streamId := Queue(queues, op.record.streamId) + [op]]
  }

  /** The only operation of a stream that may be running is the oldest one. */
  predicate Running(queues: map<string, seq<Dispatch>>, stream: string) {
    stream in queues && queues[stream] != []
  }

  function SetHead(queues: map<string, seq<Dispatch>>, stream: string, phase: Phase): map<string, seq<Dispatch>>
    requires Running(queues, stream)
  {
    queues[stream := [queues[stream][0].(phase := phase)] + queues[stream][1..]]
  }

  function PopHead(queues: map<string, seq<Dispatch>>, stream: string): map<string, seq<Dispatch>>
    requires Running(queues, stream)
  {
    if |queues[stream]| == 1 then queues - {stream} else queues[stream := queues[stream][1..]]
  }

  // ---------------------------------------------------------------- drain loop

  function RequestDrain(s: State): State {
    if s.drain.Idle? then s.(drain := BeginDrain(s.resync, s.resyncs), drainAgain := false) else s.(drainAgain := true)
  }

  /** The first await of a drain pass: the resync in flight, if there is one. */
  function BeginDrain(resync: Resync, resyncs: seq<bool>): Drain {
    AwaitResync(if resync.NoResync? then None else Some(|resyncs|))
  }

  function EndDrain(s: State): State {
    if s.drainAgain then s.(drain := BeginDrain(s.resync, s.resyncs), drainAgain := false) else s.(drain := Idle)
  }

  function SetControlPlane(s: State, healthy: bool): State {
    s.(health := s.health.(controlPlane := healthy))
  }

  function FailDrain(s: State): State {
    EndDrain(SetControlPlane(s, false))
  }

  /** Up to the next await: skip records the cursor has passed, then queue one dispatch or finish the batch. */
  function Advance(s: State, from: nat, records: seq<Record>, index: nat): State
    requires index <= |records|
    decreases |records| - index
  {
    if index == |records| then
      if |records| < EVENT_READ_BATCH then EndDrain(SetControlPlane(s, true))
      else s.(drain := Reading(s.cursor, None))
    else if records[index].sequence <= s.cursor then Advance(s, from, records, index + 1)
    else s.(queues := Enqueue(s.queues, Dispatch(records[index], None, Queued)),
            drain := Dispatching(from, records, index, None))
  }

  function ResyncAwaitedStep(s: State): State {
    match s.drain
    case AwaitResync(None) => s.(drain := Flushing)
    case AwaitResync(Some(k)) =>
      if k < |s.resyncs| then (if s.resyncs[k] then s.(drain := Flushing) else FailDrain(s)) else s
    case _ => s
  }

  function FlushedStep(s: State, ok: bool): State {
    if !s.drain.Flushing? then s
    else if ok then s.(drain := Reading(s.cursor, None))
    else FailDrain(s)
  }

  function RowsReadStep(s: State, ok: bool): State {
    if s.drain.Reading? && s.drain.answer.None?
    then s.(drain := s.drain.(answer := Some(if ok then ReadAfter(s.log, s.drain.from, EVENT_READ_BATCH) else Unavailable)))
    else s
  }

  function ReadResumedStep(s: State): State {
    if !(s.drain.Reading? && s.drain.answer.Some?) then s
    else match s.drain.answer.value
         case Unavailable => FailDrain(s)
         case TooOld => var t := RequireResync(s); t.(drain := RequiringResync(|s.resyncs|))
         case Rows(records) => BeginBatch(SetControlPlane(s, true), s.drain.from, records)
  }

  function BeginBatch(s: State, from: nat, records: seq<Record>): State {
    if records == [] then EndDrain(s) else Advance(s, from, records, 0)
  }

  /** The store after a dispatch is unconditional: a barrier that finished meanwhile may have moved the cursor further. */
  function DispatchResumedStep(s: State): State {
    if !(s.drain.Dispatching? && s.drain.result.Some? && s.drain.index < |s.drain.records|) then s
    else if s.drain.result.value then
      Advance(s.(cursor := s.drain.records[s.drain.index].sequence), s.drain.from, s.drain.records, s.drain.index + 1)
    else FailDrain(s)
  }

  function RequiredResyncResumedStep(s: State): State {
    if !(s.drain.RequiringResync? && s.drain.resyncIndex < |s.resyncs|) then s
    else if s.resyncs[s.drain.resyncIndex] then s.(drain := Reading(s.cursor, None))
    else FailDrain(s)
  }

  // ---------------------------------------------------------------- full resync

  function RequireResync(s: State): State {
    if s.resync.NoResync? then s.(resync := AwaitBarrier(None)) else s
  }

  function BarrierReadStep(s: State, ok: bool): State {
    if s.resync.AwaitBarrier? && s.resync.answer.None?
    then s.(resync := AwaitBarrier(Some(if ok then Latest(s.log.latest) else Unreadable)))
    else s
  }

  /** The sockets to notify are those connected when the read has come back. */
  function BarrierResumedStep(s: State): State {
    if !(s.resync.AwaitBarrier? && s.resync.answer.Some?) then s
    else match s.resync.answer.value
         case Latest(barrier) => s.(resync := Notifying(barrier, map id | id in Connected(s.sockets) :: Pending))
         case Unreadable => s.(resync := NoResync, resyncs := s.resyncs + [false], health := s.health.(fullResync := false))
  }

  function BarrierRecipientStep(s: State, id: SocketId, account: AccountAnswer): State {
    if !(s.resync.Notifying? && id in s.resync.notices && s.resync.notices[id].Pending?) then s
    else match account
         case Active => s.(resync := s.resync.(notices := s.resync.notices[id := Notified]))
         case Inactive => s.(resync := s.resync.(notices := s.resync.notices[id := Dropped]), sockets := Drop(s.sockets, id))
         case AccountError => s.(resync := s.resync.(notices := s.resync.notices[id := Unreachable]))
  }

  function UnreachableOf(notices: map<SocketId, Notice>): set<SocketId> {
    set id | id in notices && notices[id].Unreachable?
  }

  /** Every recipient has answered: cut off the unreachable ones, then jump the cursor, never backwards. */
  function BarrierDoneStep(s: State): State {
    if !(s.resync.Notifying? && forall id | id in s.resync.notices :: !s.resync.notices[id].Pending?) then s
    else s.(sockets := DropAll(s.sockets, UnreachableOf(s.resync.notices)),
            cursor := if s.resync.barrier > s.cursor then s.resync.barrier else s.cursor,
            barrier := if s.resync.barrier > s.barrier then s.resync.barrier else s.barrier,
            barrierNotices := if s.resync.barrier > s.barrier then s.resync.notices else s.barrierNotices,
            resync := NoResync,
            resyncs := s.resyncs + [true],
            health := s.health.(fullResync := true))
  }

  // ---------------------------------------------------------------- dispatch

  /** A dispatch that ended: popped from its stream, and its result handed to the drain that waits for it. */
  function Finish(s: State, stream: string, ok: bool): State
    requires Running(s.queues, stream)
  {
    var op := s.queues[stream][0];
    var awaited := op.only.None? && s.drain.Dispatching? && s.drain.result.None?
                   && s.drain.index < |s.drain.records| && s.drain.records[s.drain.index] == op.record;
    s.(queues := PopHead(s.queues, stream),
       drain := if awaited then s.drain.(result := Some(ok)) else s.drain)
  }

  function StartedStep(s: State, stream: string): State {
    if !(Running(s.queues, stream) && s.queues[stream][0].phase.Queued?) then s
    else BeginCheck(s.(queues := SetHead(s.queues, stream, AwaitBackstop(s.health.settledChecks))))
  }

  function InitialRecipient(record: Record, socket: Socket): Recipient {
    var matching := Matching(record.targets, socket.rooms);
    if matching == [] then Settled(NotInRoom)
    else if record.eventId in socket.window then Settled(AlreadyDelivered)
    else AwaitAccount(matching)
  }

  function Recipients(s: State, op: Dispatch): set<SocketId> {
    if op.only.Some? then {op.only.value} * s.sockets.Keys else Connected(s.sockets)
  }

  function CapturedStep(s: State, stream: string): State {
    if !(Running(s.queues, stream) && s.queues[stream][0].phase.AwaitBackstop?
         && s.queues[stream][0].phase.ticket < s.health.settledChecks) then s
    else
      var op := s.queues[stream][0];
      if !s.health.Ready() || op.record.targets == [] || (exists t :: t in op.record.targets && t.Malformed?) then
        Finish(s, stream, false)
      else
        var audience := map id | id in Recipients(s, op) && id in s.sockets :: s.sockets[id].rooms;
        var recipients := map id | id in Recipients(s, op) && id in s.sockets :: InitialRecipient(op.record, s.sockets[id]);
        s.(queues := SetHead(s.queues, stream, Fanout(s.health.generation, s.health.outages, audience, recipients)))
  }

  /** The recipient evaluations a stream's running dispatch is waiting for. */
  predicate Evaluating(s: State, stream: string, id: SocketId) {
    && Running(s.queues, stream)
    && s.queues[stream][0].phase.Fanout?
    && id in s.queues[stream][0].phase.recipients
    && id in s.sockets
  }

  /** The assertion repeated after every await: still ready, and no suspension or recovery since the capture. */
  predicate Fenced(s: State, generation: nat) {
    s.health.Ready() && generation == s.health.generation
  }

  function SetRecipient(s: State, stream: string, id: SocketId, recipient: Recipient): State
    requires Evaluating(s, stream, id)
  {
    var phase := s.queues[stream][0].phase;
    s.(queues := SetHead(s.queues, stream, phase.(recipients := phase.recipients[id := recipient])))
  }

  function AccountStep(s: State, stream: string, id: SocketId, account: AccountAnswer): State {
    if !(Evaluating(s, stream, id) && s.queues[stream][0].phase.recipients[id].AwaitAccount?) then s
    else
      var phase := s.queues[stream][0].phase;
      if account.AccountError? || !Fenced(s, phase.generation) then SetRecipient(s, stream, id, Failed)
      else if account.Inactive? then
        SetRecipient(s, stream, id, Settled(CutOff)).(sockets := Drop(s.sockets, id))
      else
        SetRecipient(s, stream, id, Authorizing(phase.recipients[id].matching, [], false, s.health.outages))
  }

  function TargetStep(s: State, stream: string, id: SocketId, target: TargetAnswer): State {
    if !(Evaluating(s, stream, id) && s.queues[stream][0].phase.recipients[id].Authorizing?
         && s.queues[stream][0].phase.recipients[id].remaining != []) then s
    else
      var phase := s.queues[stream][0].phase;
      var r := phase.recipients[id];
      if target.TargetError? || !Fenced(s, phase.generation) then SetRecipient(s, stream, id, Failed)
      else if target.Allowed? then
        SetRecipient(s, stream, id, Authorizing(r.remaining[1..], r.denied, true, s.health.outages))
      else
        SetRecipient(s, stream, id, Authorizing(r.remaining[1..], r.denied + [r.remaining[0]], r.allowed, r.authorizedAt))
          .(sockets := Leave(s.sockets, id, r.remaining[0]))
  }

  /** The last segment of one recipient: refuse, fail on the fence, or emit and remember. */
  function RecipientDoneStep(s: State, stream: string, id: SocketId): State {
    if !(Evaluating(s, stream, id) && s.queues[stream][0].phase.recipients[id].Authorizing?
         && s.queues[stream][0].phase.recipients[id].remaining == []) then s
    else
      var op := s.queues[stream][0];
      var r := op.phase.recipients[id];
      if !r.allowed then SetRecipient(s, stream, id, Settled(Refused(r.denied)))
      else if !Fenced(s, op.phase.generation) then SetRecipient(s, stream, id, Failed)
      else
        SetRecipient(s, stream, id, Settled(Delivered)).(
          sockets := Deliver(s.sockets, id, op.record.eventId),
          emissions := s.emissions + [Emission(id, op.record, s.health.Ready(), op.phase.capturedAt,
                                               r.authorizedAt, s.health.outages)])
  }

  function Outcomes(recipients: map<SocketId, Recipient>): map<SocketId, Outcome> {
    map id | id in recipients && recipients[id].Settled? :: recipients[id].outcome
  }

  /** Every recipient's evaluation has ended, one way or the other. */
  predicate Exhausted(s: State, stream: string) {
    && Running(s.queues, stream)
    && s.queues[stream][0].phase.Fanout?
    && forall id | id in s.queues[stream][0].phase.recipients ::
         var r := s.queues[stream][0].phase.recipients[id]; r.Settled? || r.Failed?
  }

  function Complete(s: State, op: Dispatch): State
    requires op.phase.Fanout?
  {
    if op.only.None?
    then s.(completed := s.completed[op.record.sequence := Completion(op.phase.audience, Outcomes(op.phase.recipients))])
    else s
  }

  function DispatchSettledStep(s: State, stream: string): State {
    if !Exhausted(s, stream) then s
    else
      var op := s.queues[stream][0];
      if Fenced(s, op.phase.generation) && forall id | id in op.phase.recipients :: op.phase.recipients[id].Settled?
      then Finish(Complete(s, op), stream, true)
      else Finish(s, stream, false)
  }

  // ---------------------------------------------------------------- the whole system

  function Apply(s: State, a: Action): State {
    match a
    case Publish(eventId, streamId, targets) =>
      if exists r :: r in s.log.records && r.eventId == eventId then s
      else s.(log := Append(s.log, eventId, streamId, targets))
    case PoisonRemediated => s.(log := ForceBarrier(s.log))
    case Prune(through) =>
      if s.log.pruned <= through <= s.log.latest then s.(log := s.log.(pruned := through)) else s
    case Connect(id) =>
      if id in s.sockets || !s.health.Ready() then s else s.(sockets := s.sockets[id := Socket(true, {}, [], [])])
    case Disconnect(id) => s.(sockets := Drop(s.sockets, id))
    case JoinRoom(id, room) =>
      if id in s.sockets && s.sockets[id].connected
      then s.(sockets := s.sockets[id := s.sockets[id].(rooms := s.sockets[id].rooms + {room})]) else s
    case LeaveRoom(id, room) =>
      s.(sockets := Leave(s.sockets, id, room))
    case CheckTimer => BeginCheck(s)
    case StatusReturned(status) => StatusStep(s, status)
    case Reconciled(ok) => ReconcileStep(s, ok)
    case DrainRequested => RequestDrain(s)
    case ResyncAwaited => ResyncAwaitedStep(s)
    case OutboxFlushed(ok) => FlushedStep(s, ok)
    case RowsRead(ok) => RowsReadStep(s, ok)
    case ReadResumed => ReadResumedStep(s)
    case DispatchResumed => DispatchResumedStep(s)
    case RequiredResyncResumed => RequiredResyncResumedStep(s)
    case ResyncSignal => RequireResync(s)
    case BarrierRead(ok) => BarrierReadStep(s, ok)
    case BarrierResumed => BarrierResumedStep(s)
    case BarrierRecipient(id, account) => BarrierRecipientStep(s, id, account)
    case BarrierDone => BarrierDoneStep(s)
    case ReplayQueued(id, record) =>
      if id in s.sockets && record in s.log.records
      then s.(queues := Enqueue(s.queues, Dispatch(record, Some(id), Queued))) else s
    case DispatchStarted(stream) => StartedStep(s, stream)
    case HealthCaptured(stream) => CapturedStep(s, stream)
    case AccountLoaded(stream, id, account) => AccountStep(s, stream, id, account)
    case TargetChecked(stream, id, target) => TargetStep(s, stream, id, target)
    case RecipientDone(stream, id) => RecipientDoneStep(s, stream, id)
    case DispatchSettled(stream) => DispatchSettledStep(s, stream)
  }

  function Run(s: State, actions: seq<Action>): State
    decreases |actions|
  {
    if actions == [] then s else Run(Apply(s, actions[0]), actions[1..])
  }

  /** A runtime whose startup has just finished: the cursor is the validated latest sequence. */
  ghost predicate Init(s: State) {
    && Valid(s.log) && Anchored(s.log)
    && s.health == Health(true, true, s.health.recoveryRequired, true, s.health.generation, NoCheck, s.health.settledChecks, s.health.outages)
    && s.sockets == map[] && s.queues == map[]
    && s.cursor == s.start == s.barrier <= s.log.latest
    && s.drain == Idle && s.resync == NoResync && s.resyncs == []
    && s.barrierNotices == map[] && s.completed == map[] && s.emissions == []
  }
}
