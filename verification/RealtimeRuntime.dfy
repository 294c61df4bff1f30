/**
 The runtime object itself. A method that keeps `Valid()` is the code between two awaits of the method it is named
 after: it moves the object exactly as the step of the transition system says, and keeps the delivery invariant. The
 other methods are parts of such a segment.
 */
module RealtimeRuntime {
  import opened Options
  import opened RealtimeLog
  import opened RealtimeModel
  import opened RealtimeSafety

  class RealtimeSocketRuntime {
    var controlPlane: Log
    var sockets: map<SocketId, Socket>
    var streamQueues: map<string, seq<Dispatch>>
    var cursor: nat
    var drainPromise: Drain
    var drainAgain: bool
    var fullResyncPromise: Resync
    var revalidationPromise: Check
    var controlPlaneHealthy: bool
    var fullResyncHealthy: bool
    var privilegedBackstopsInstalled: bool
    var privilegedBackstopRecoveryRequired: bool
    var authorizationHealthGeneration: nat

    /** Promises that have settled: how many backstop checks, and how each full resync ended. */
    var settledChecks: nat
    var resyncs: seq<bool>

    /** History: how many backstop outages ever began. No decision reads it. */
    var outages: nat
    ghost var start: nat
    ghost var barrier: nat
    ghost var barrierNotices: map<SocketId, Notice>
    ghost var completed: map<nat, Completion>
    ghost var emissions: seq<Emission>

    /** The state of the transition system this object is in. */
    ghost function View(): State
      reads this
    {
      State(controlPlane,
            Health(controlPlaneHealthy, privilegedBackstopsInstalled, privilegedBackstopRecoveryRequired, fullResyncHealthy,
                   authorizationHealthGeneration, revalidationPromise, settledChecks, outages),
            sockets, streamQueues, cursor, drainPromise, drainAgain, fullResyncPromise, resyncs,
            start, barrier, barrierNotices, completed, emissions)
    }

    /** The delivery invariant of `RealtimeSafety`. */
    ghost predicate Valid()
      reads this
    {
      Inv(View())
    }

    constructor (controlPlane: Log)
      requires RealtimeLog.Valid(controlPlane) && Anchored(controlPlane)
      ensures Valid() && Init(View()) && View().log == controlPlane && cursor == controlPlane.latest
    {
      this.controlPlane := controlPlane;
      sockets, streamQueues := map[], map[];
      cursor, start, barrier := controlPlane.latest, controlPlane.latest, controlPlane.latest;
      drainPromise, drainAgain := Idle, false;
      fullResyncPromise, revalidationPromise := NoResync, NoCheck;
      controlPlaneHealthy, fullResyncHealthy := true, true;
      privilegedBackstopsInstalled, privilegedBackstopRecoveryRequired := true, false;
      authorizationHealthGeneration := 0;
      settledChecks, outages, resyncs := 0, 0, [];
      barrierNotices, completed, emissions := map[], map[], [];
      new;
      InitHasInv(View());
    }

    predicate IsReady()
      reads this
    {
      controlPlaneHealthy && privilegedBackstopsInstalled && fullResyncHealthy
    }

    // -------------------------------------------------------------- authorization health

    /** Disconnecting every socket of a set, one at a time. */
    method DisconnectAll(ids: set<SocketId>)
      modifies this`sockets
      ensures sockets == DropAll(old(sockets), ids)
    {
      var remaining := ids;
      while remaining != {}
        invariant remaining <= ids
        invariant sockets == DropAll(old(sockets), ids - remaining)
        decreases remaining
      {
        var id :| id in remaining;
        sockets := Drop(sockets, id);
        remaining := remaining - {id};
      }
      assert ids - remaining == ids;
    }

    /** The fence closes before anything else happens; only a real transition opens a new generation. */
    method CloseFence() returns (transitioned: bool)
      modifies this`privilegedBackstopsInstalled, this`privilegedBackstopRecoveryRequired
      modifies this`authorizationHealthGeneration, this`outages
      ensures transitioned == old(privilegedBackstopsInstalled)
      ensures View() == old(View()).(health := SuspendHealth(old(View()).health))
    {
      transitioned := privilegedBackstopsInstalled;
      privilegedBackstopsInstalled := false;
      privilegedBackstopRecoveryRequired := true;
      if transitioned {
        authorizationHealthGeneration := authorizationHealthGeneration + 1;
        outages := outages + 1;
      }
    }

    method CloseAndDisconnect()
      modifies this`sockets, this`privilegedBackstopsInstalled, this`privilegedBackstopRecoveryRequired
      modifies this`authorizationHealthGeneration, this`outages
      ensures View() == Suspend(old(View()))
    {
      var transitioned := CloseFence();
      if transitioned { DisconnectAll(Connected(sockets)); }
    }

    method SuspendAuthorizationForBackstopOutage()
      requires Valid()
      modifies this`sockets, this`privilegedBackstopsInstalled, this`privilegedBackstopRecoveryRequired
      modifies this`authorizationHealthGeneration, this`outages
      ensures Valid()
      ensures View() == Suspend(old(View()))
    {
      ghost var before := View();
      CloseAndDisconnect();
      SuspendIsBeside(before);
      BesideKeepsInv(before, View());
    }

    method RequestPrivilegedBackstopRevalidation()
      requires Valid()
      modifies this`revalidationPromise
      ensures Valid()
      ensures View() == BeginCheck(old(View()))
    {
      ghost var before := View();
      if revalidationPromise.NoCheck? { revalidationPromise := AwaitStatus(privilegedBackstopsInstalled); }
      CheckIsBeside(before);
      BesideKeepsInv(before, View());
    }

    method SettleRevalidation()
      modifies this`revalidationPromise, this`settledChecks
      ensures View() == SettleCheck(old(View()))
    {
      revalidationPromise := NoCheck;
      settledChecks := settledChecks + 1;
    }

    /** Credentials older than the outage are void by now: open the fence under a new generation and catch up. */
    method RecoverAuthorization()
      modifies this`privilegedBackstopsInstalled, this`privilegedBackstopRecoveryRequired
      modifies this`authorizationHealthGeneration, this`drainPromise, this`drainAgain
      ensures View() == Recover(old(View()))
    {
      authorizationHealthGeneration := authorizationHealthGeneration + 1;
      privilegedBackstopRecoveryRequired := false;
      privilegedBackstopsInstalled := true;
      ghost var reopened := View();
      StartDrain();
      assert View() == RealtimeModel.RequestDrain(reopened);
    }

    method ActOnStatus(status: StatusAnswer)
      requires revalidationPromise.AwaitStatus?
      modifies this
      ensures View() == StatusStep(old(View()), status)
    {
      if !status.Installed? {
        CloseAndDisconnect();
        SettleRevalidation();
      } else if !revalidationPromise.wasInstalled {
        if privilegedBackstopRecoveryRequired {
          revalidationPromise := AwaitReconcile;
        } else {
          RecoverAuthorization();
          SettleRevalidation();
        }
      } else {
        privilegedBackstopsInstalled := true;
        SettleRevalidation();
      }
    }

    method BackstopStatusReturned(status: StatusAnswer)
      requires Valid()
      requires revalidationPromise.AwaitStatus?
      modifies this
      ensures Valid()
      ensures View() == StatusStep(old(View()), status)
    {
      ghost var before := View();
      ActOnStatus(status);
      StatusIsBeside(before, status);
      BesideKeepsInv(before, View());
    }

    method AuthorizationReconciled(ok: bool)
      requires Valid()
      requires revalidationPromise.AwaitReconcile?
      modifies this
      ensures Valid()
      ensures View() == ReconcileStep(old(View()), ok)
    {
      ghost var before := View();
      if ok { RecoverAuthorization(); } else { CloseAndDisconnect(); }
      SettleRevalidation();
      ReconcileIsBeside(before, ok);
      BesideKeepsInv(before, View());
    }

    // -------------------------------------------------------------- drain

    /** Single flight: a drain that runs is only asked to go again. */
    method StartDrain()
      modifies this`drainPromise, this`drainAgain
      ensures View() == RealtimeModel.RequestDrain(old(View()))
    {
      if !drainPromise.Idle? {
        drainAgain := true;
      } else {
        BeginDrainPass();
      }
    }

    method RequestDrain()
      requires Valid()
      modifies this`drainPromise, this`drainAgain
      ensures Valid()
      ensures View() == RealtimeModel.RequestDrain(old(View()))
    {
      ghost var before := View();
      StartDrain();
      RecoverIsBeside(before);
      BesideKeepsInv(before, View());
    }

    method BeginDrainPass()
      modifies this`drainPromise, this`drainAgain
      ensures !drainAgain && drainPromise == BeginDrain(fullResyncPromise, resyncs)
    {
      drainAgain := false;
      drainPromise := AwaitResync(if fullResyncPromise.NoResync? then None else Some(|resyncs|));
    }

    /** The end of one pass of the do-while loop. */
    method EndDrainPass()
      modifies this`drainPromise, this`drainAgain
      ensures View() == EndDrain(old(View()))
    {
      if drainAgain { BeginDrainPass(); } else { drainPromise := Idle; }
    }

    method DrainFailed()
      modifies this`drainPromise, this`drainAgain, this`controlPlaneHealthy
      ensures View() == FailDrain(old(View()))
    {
      controlPlaneHealthy := false;
      EndDrainPass();
    }

    method DrainAfterResync()
      requires Valid()
      requires drainPromise.AwaitResync? && (drainPromise.awaited.Some? ==> drainPromise.awaited.value < |resyncs|)
      modifies this`drainPromise, this`drainAgain, this`controlPlaneHealthy
      ensures Valid()
      ensures View() == ResyncAwaitedStep(old(View()))
    {
      ghost var before := View();
      if drainPromise.awaited.None? || resyncs[drainPromise.awaited.value] {
        drainPromise := Flushing;
      } else {
        DrainFailed();
      }
      ResyncAwaitedIsBeside(before);
      BesideKeepsInv(before, View());
    }

    method DrainAfterFlush(ok: bool)
      requires Valid()
      requires drainPromise.Flushing?
      modifies this`drainPromise, this`drainAgain, this`controlPlaneHealthy
      ensures Valid()
      ensures View() == FlushedStep(old(View()), ok)
    {
      FlushedKeepsInv(View(), ok);
      if ok { drainPromise := Reading(cursor, None); } else { DrainFailed(); }
    }

    method ProcessRead()
      requires drainPromise.Reading? && drainPromise.answer.Some?
      modifies this
      ensures View() == ReadResumedStep(old(View()))
    {
      match drainPromise.answer.value {
        case Unavailable => DrainFailed();
        case TooOld =>
          StartFullResync();
          drainPromise := RequiringResync(|resyncs|);
        case Rows(records) =>
          controlPlaneHealthy := true;
          if records == [] { EndDrainPass(); } else { ContinueBatch(drainPromise.from, records, 0); }
      }
    }

    method DrainAfterRead()
      requires Valid()
      requires drainPromise.Reading? && drainPromise.answer.Some?
      modifies this
      ensures Valid()
      ensures View() == ReadResumedStep(old(View()))
    {
      ghost var before := View();
      ProcessRead();
      ReadResumedKeepsInv(before);
    }

    method StoreCursor()
      requires drainPromise.Dispatching? && drainPromise.result.Some? && drainPromise.index < |drainPromise.records|
      modifies this
      ensures View() == DispatchResumedStep(old(View()))
    {
      if drainPromise.result.value {
        cursor := drainPromise.records[drainPromise.index].sequence;
        ContinueBatch(drainPromise.from, drainPromise.records, drainPromise.index + 1);
      } else {
        DrainFailed();
      }
    }

    method DrainAfterDispatch()
      requires Valid()
      requires drainPromise.Dispatching? && drainPromise.result.Some? && drainPromise.index < |drainPromise.records|
      modifies this
      ensures Valid()
      ensures View() == DispatchResumedStep(old(View()))
    {
      ghost var before := View();
      StoreCursor();
      DispatchResumedKeepsInv(before);
    }

    method DrainAfterRequiredResync()
      requires Valid()
      requires drainPromise.RequiringResync? && drainPromise.resyncIndex < |resyncs|
      modifies this`drainPromise, this`drainAgain, this`controlPlaneHealthy
      ensures Valid()
      ensures View() == RequiredResyncResumedStep(old(View()))
    {
      RequiredResyncResumedKeepsInv(View());
      if resyncs[drainPromise.resyncIndex] { drainPromise := Reading(cursor, None); } else { DrainFailed(); }
    }

    /** The record loop up to its next await. */
    method ContinueBatch(from: nat, records: seq<Record>, index: nat)
      requires index <= |records|
      modifies this`drainPromise, this`drainAgain, this`controlPlaneHealthy, this`streamQueues
      ensures View() == Advance(old(View()), from, records, index)
    {
      var i := index;
      while i < |records| && records[i].sequence <= cursor
        invariant index <= i <= |records|
        invariant View() == old(View())
        invariant Advance(old(View()), from, records, index) == Advance(old(View()), from, records, i)
      {
        i := i + 1;
      }
      if i < |records| {
        EnqueueStream(Dispatch(records[i], None, Queued));
        drainPromise := Dispatching(from, records, i, None);
      } else if |records| < EVENT_READ_BATCH {
        controlPlaneHealthy := true;
        EndDrainPass();
      } else {
        drainPromise := Reading(cursor, None);
      }
    }

    // -------------------------------------------------------------- full resync

    method StartFullResync()
      modifies this`fullResyncPromise
      ensures View() == RequireResync(old(View()))
    {
      if fullResyncPromise.NoResync? { fullResyncPromise := AwaitBarrier(None); }
    }

    method RequireFullResync()
      requires Valid()
      modifies this`fullResyncPromise
      ensures Valid()
      ensures View() == RequireResync(old(View()))
    {
      ResyncSignalKeepsInv(View());
      StartFullResync();
    }

    /** The read of the barrier has come back, with a sequence or with an error. */
    method BarrierReturned()
      requires Valid()
      requires fullResyncPromise.AwaitBarrier? && fullResyncPromise.answer.Some?
      modifies this
      ensures Valid()
      ensures View() == BarrierResumedStep(old(View()))
    {
      BarrierResumedKeepsInv(View());
      match fullResyncPromise.answer.value {
        case Latest(barrier) => fullResyncPromise := Notifying(barrier, map id | id in Connected(sockets) :: Pending);
        case Unreadable =>
          fullResyncPromise := NoResync;
          resyncs := resyncs + [false];
          fullResyncHealthy := false;
      }
    }

    method NotifyRecipient(id: SocketId, account: AccountAnswer)
      requires fullResyncPromise.Notifying? && id in fullResyncPromise.notices && fullResyncPromise.notices[id].Pending?
      modifies this`fullResyncPromise, this`sockets
      ensures View() == BarrierRecipientStep(old(View()), id, account)
    {
      var notice := Notified;
      match account {
        case Active =>
        case Inactive =>
          sockets := Drop(sockets, id);
          notice := Dropped;
        case AccountError => notice := Unreachable;
      }
      fullResyncPromise := Notifying(fullResyncPromise.barrier, fullResyncPromise.notices[id := notice]);
    }

    method BarrierRecipientLoaded(id: SocketId, account: AccountAnswer)
      requires Valid()
      requires fullResyncPromise.Notifying? && id in fullResyncPromise.notices && fullResyncPromise.notices[id].Pending?
      modifies this`fullResyncPromise, this`sockets
      ensures Valid()
      ensures View() == BarrierRecipientStep(old(View()), id, account)
    {
      ghost var before := View();
      NotifyRecipient(id, account);
      BarrierRecipientKeepsInv(before, id, account);
    }

    method BarrierFinished()
      requires Valid()
      requires fullResyncPromise.Notifying?
      requires forall id :: id in fullResyncPromise.notices ==> !fullResyncPromise.notices[id].Pending?
      modifies this`sockets, this`cursor, this`barrier, this`barrierNotices
      modifies this`fullResyncPromise, this`resyncs, this`fullResyncHealthy
      ensures Valid()
      ensures View() == BarrierDoneStep(old(View()))
    {
      ghost var before := View();
      DisconnectAll(UnreachableOf(fullResyncPromise.notices));
      JumpCursor();
      fullResyncPromise := NoResync;
      resyncs := resyncs + [true];
      fullResyncHealthy := true;
      assert View().sockets == BarrierDoneStep(before).sockets;
      assert View() == BarrierDoneStep(before);
      BarrierDoneKeepsInv(before);
    }

    method JumpCursor()
      requires fullResyncPromise.Notifying?
      modifies this`cursor, this`barrier, this`barrierNotices
      ensures cursor == if fullResyncPromise.barrier > old(cursor) then fullResyncPromise.barrier else old(cursor)
      ensures barrier == if fullResyncPromise.barrier > old(barrier) then fullResyncPromise.barrier else old(barrier)
      ensures barrierNotices == if fullResyncPromise.barrier > old(barrier) then fullResyncPromise.notices else old(barrierNotices)
    {
      if fullResyncPromise.barrier > cursor { cursor := fullResyncPromise.barrier; }
      if fullResyncPromise.barrier > barrier {
        barrier := fullResyncPromise.barrier;
        barrierNotices := fullResyncPromise.notices;
      }
    }

    // -------------------------------------------------------------- dispatch

    method EnqueueStream(op: Dispatch)
      modifies this`streamQueues
      ensures View() == old(View()).(queues := Enqueue(old(streamQueues), op))
    {
      var previous := [];
      if op.record.streamId in streamQueues { previous := streamQueues[op.record.streamId]; }
      streamQueues := streamQueues[op.record.streamId := previous + [op]];
    }

    method SetPhase(stream: string, phase: Phase)
      requires Running(streamQueues, stream)
      modifies this`streamQueues
      ensures streamQueues == SetHead(old(streamQueues), stream, phase)
    {
      var op := streamQueues[stream][0].(phase := phase);
      streamQueues := streamQueues[stream := [op] + streamQueues[stream][1..]];
    }

    /** The running operation of a stream ends: the next one may start, and a waiting drain learns the result. */
    method FinishDispatch(stream: string, ok: bool)
      requires Running(streamQueues, stream)
      modifies this`streamQueues, this`drainPromise
      ensures View() == Finish(old(View()), stream, ok)
    {
      var op := streamQueues[stream][0];
      if |streamQueues[stream]| == 1 {
        streamQueues := streamQueues - {stream};
      } else {
        streamQueues := streamQueues[stream := streamQueues[stream][1..]];
      }
      if op.only.None? && drainPromise.Dispatching? && drainPromise.result.None?
         && drainPromise.index < |drainPromise.records| && drainPromise.records[drainPromise.index] == op.record
      {
        drainPromise := drainPromise.(result := Some(ok));
      }
    }

    method DispatchStarted(stream: string)
      requires Valid()
      requires Running(streamQueues, stream) && streamQueues[stream][0].phase.Queued?
      modifies this`streamQueues, this`revalidationPromise
      ensures Valid()
      ensures View() == StartedStep(old(View()), stream)
    {
      StartedKeepsInv(View(), stream);
      RequestPrivilegedBackstopRevalidation();
      SetPhase(stream, AwaitBackstop(settledChecks));
    }

    /** Whether every stored target survives canonicalisation. */
    method TargetsAreCanonical(targets: seq<Target>) returns (canonical: bool)
      ensures canonical <==> targets != [] && forall t :: t in targets ==> !t.Malformed?
    {
      canonical := targets != [];
      for i := 0 to |targets|
        invariant canonical <==> targets != [] && forall k :: 0 <= k < i ==> !targets[k].Malformed?
      {
        if targets[i].Malformed? { canonical := false; }
      }
    }

    method HealthCaptured(stream: string)
      requires Valid()
      requires Running(streamQueues, stream) && streamQueues[stream][0].phase.AwaitBackstop?
      requires streamQueues[stream][0].phase.ticket < settledChecks
      modifies this`streamQueues, this`drainPromise
      ensures Valid()
      ensures View() == CapturedStep(old(View()), stream)
    {
      CapturedKeepsInv(View(), stream);
      var op := streamQueues[stream][0];
      var canonical := TargetsAreCanonical(op.record.targets);
      if !IsReady() || !canonical {
        FinishDispatch(stream, false);
        return;
      }
      var addressed := Connected(sockets);
      if op.only.Some? { addressed := {op.only.value} * sockets.Keys; }
      SetPhase(stream, Fanout(authorizationHealthGeneration, outages,
                              map id | id in addressed && id in sockets :: sockets[id].rooms,
                              map id | id in addressed && id in sockets :: InitialRecipient(op.record, sockets[id])));
    }

    method SettleRecipient(stream: string, id: SocketId, recipient: Recipient)
      requires Evaluating(View(), stream, id)
      modifies this`streamQueues
      ensures View() == SetRecipient(old(View()), stream, id, recipient)
    {
      var phase := streamQueues[stream][0].phase;
      SetPhase(stream, phase.(recipients := phase.recipients[id := recipient]));
    }

    method AssertAuthorizationHealth(generation: nat) returns (holds: bool)
      ensures holds == Fenced(View(), generation)
    {
      holds := IsReady() && generation == authorizationHealthGeneration;
    }

    method ApplyAccount(stream: string, id: SocketId, account: AccountAnswer)
      requires Evaluating(View(), stream, id) && streamQueues[stream][0].phase.recipients[id].AwaitAccount?
      modifies this`streamQueues, this`sockets
      ensures View() == AccountStep(old(View()), stream, id, account)
    {
      var phase := streamQueues[stream][0].phase;
      var holds := AssertAuthorizationHealth(phase.generation);
      if account.AccountError? || !holds {
        SettleRecipient(stream, id, Failed);
      } else if account.Inactive? {
        SettleRecipient(stream, id, Settled(CutOff));
        sockets := Drop(sockets, id);
      } else {
        SettleRecipient(stream, id, Authorizing(phase.recipients[id].matching, [], false, outages));
      }
    }

    method AccountLoaded(stream: string, id: SocketId, account: AccountAnswer)
      requires Valid()
      requires Evaluating(View(), stream, id) && streamQueues[stream][0].phase.recipients[id].AwaitAccount?
      modifies this`streamQueues, this`sockets
      ensures Valid()
      ensures View() == AccountStep(old(View()), stream, id, account)
    {
      ghost var before := View();
      ApplyAccount(stream, id, account);
      AccountKeepsInv(before, stream, id, account);
    }

    method ApplyTarget(stream: string, id: SocketId, target: TargetAnswer)
      requires Evaluating(View(), stream, id) && streamQueues[stream][0].phase.recipients[id].Authorizing?
      requires streamQueues[stream][0].phase.recipients[id].remaining != []
      modifies this`streamQueues, this`sockets
      ensures View() == TargetStep(old(View()), stream, id, target)
    {
      var phase := streamQueues[stream][0].phase;
      var r := phase.recipients[id];
      var holds := AssertAuthorizationHealth(phase.generation);
      if target.TargetError? || !holds {
        SettleRecipient(stream, id, Failed);
      } else if target.Allowed? {
        SettleRecipient(stream, id, Authorizing(r.remaining[1..], r.denied, true, outages));
      } else {
        SettleRecipient(stream, id, Authorizing(r.remaining[1..], r.denied + [r.remaining[0]], r.allowed, r.authorizedAt));
        sockets := Leave(sockets, id, r.remaining[0]);
      }
    }

    method TargetChecked(stream: string, id: SocketId, target: TargetAnswer)
      requires Valid()
      requires Evaluating(View(), stream, id) && streamQueues[stream][0].phase.recipients[id].Authorizing?
      requires streamQueues[stream][0].phase.recipients[id].remaining != []
      modifies this`streamQueues, this`sockets
      ensures Valid()
      ensures View() == TargetStep(old(View()), stream, id, target)
    {
      ghost var before := View();
      ApplyTarget(stream, id, target);
      TargetKeepsInv(before, stream, id, target);
    }

    /** Map.set, then deleting the oldest key while there are too many. */
    method RememberDelivered(window: seq<string>, eventId: string) returns (kept: seq<string>)
      ensures kept == Remember(window, eventId)
    {
      kept := if eventId in window then window else window + [eventId];
      ghost var grown := kept;
      while |kept| > MAX_DELIVERED_EVENT_IDS
        invariant |kept| <= |grown|
        invariant |grown| <= MAX_DELIVERED_EVENT_IDS ==> kept == grown
        invariant |grown| > MAX_DELIVERED_EVENT_IDS ==> |kept| >= MAX_DELIVERED_EVENT_IDS
        invariant kept == grown[|grown| - |kept|..]
      {
        kept := kept[1..];
      }
    }

    method FinishRecipient(stream: string, id: SocketId)
      requires Evaluating(View(), stream, id) && streamQueues[stream][0].phase.recipients[id].Authorizing?
      requires streamQueues[stream][0].phase.recipients[id].remaining == []
      modifies this
      ensures View() == RecipientDoneStep(old(View()), stream, id)
    {
      var op := streamQueues[stream][0];
      var r := op.phase.recipients[id];
      var holds := AssertAuthorizationHealth(op.phase.generation);
      if !r.allowed {
        SettleRecipient(stream, id, Settled(Refused(r.denied)));
      } else if !holds {
        SettleRecipient(stream, id, Failed);
      } else {
        emissions := emissions + [Emission(id, op.record, IsReady(), op.phase.capturedAt, r.authorizedAt, outages)];
        var window := RememberDelivered(sockets[id].window, op.record.eventId);
        sockets := sockets[id := sockets[id].(window := window, deliveries := sockets[id].deliveries + [op.record.eventId])];
        SettleRecipient(stream, id, Settled(Delivered));
      }
    }

    method RecipientAuthorized(stream: string, id: SocketId)
      requires Valid()
      requires Evaluating(View(), stream, id) && streamQueues[stream][0].phase.recipients[id].Authorizing?
      requires streamQueues[stream][0].phase.recipients[id].remaining == []
      modifies this
      ensures Valid()
      ensures View() == RecipientDoneStep(old(View()), stream, id)
    {
      ghost var before := View();
      FinishRecipient(stream, id);
      RecipientDoneKeepsInv(before, stream, id);
    }

    method SettleDispatch(stream: string)
      requires Exhausted(View(), stream)
      modifies this
      ensures View() == DispatchSettledStep(old(View()), stream)
    {
      var op := streamQueues[stream][0];
      var holds := AssertAuthorizationHealth(op.phase.generation);
      if holds && forall id | id in op.phase.recipients :: op.phase.recipients[id].Settled? {
        completed := Complete(View(), op).completed;
        FinishDispatch(stream, true);
      } else {
        FinishDispatch(stream, false);
      }
    }

    method DispatchSettled(stream: string)
      requires Valid()
      requires Exhausted(View(), stream)
      modifies this
      ensures Valid()
      ensures View() == DispatchSettledStep(old(View()), stream)
    {
      ghost var before := View();
      SettleDispatch(stream);
      DispatchSettledKeepsInv(before, stream);
    }
  }
}
