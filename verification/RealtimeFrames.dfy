/** What one step of the realtime runtime leaves alone. */
module RealtimeFrames {
  import opened Options
  import opened RealtimeLog
  import opened RealtimeModel
  import opened RealtimeSafety

  lemma {:induction false} FlushedKeepsBooks(t: State, ok: bool)
    ensures SameBooks(t, FlushedStep(t, ok))
  {
    EndIsBeside(t, false);
  }

  lemma {:induction false} RowsReadKeepsBooks(t: State, ok: bool)
    ensures SameBooks(t, RowsReadStep(t, ok))
  {
  }

  lemma {:induction false} ResyncResumedKeepsBooks(t: State)
    ensures SameBooks(t, RequiredResyncResumedStep(t))
  {
    EndIsBeside(t, false);
  }

  lemma {:induction false} DrainStepKeepsBooks(t: State, a: Action)
    requires a.DrainRequested? || a.ResyncAwaited? || a.OutboxFlushed? || a.RowsRead? || a.RequiredResyncResumed?
    ensures SameBooks(t, Apply(t, a))
  {
    match a
    case DrainRequested => RecoverIsBeside(t);
    case ResyncAwaited => ResyncAwaitedIsBeside(t);
    case OutboxFlushed(ok) => FlushedKeepsBooks(t, ok);
    case RowsRead(ok) => RowsReadKeepsBooks(t, ok);
    case RequiredResyncResumed => ResyncResumedKeepsBooks(t);
  }

  // ---------------------------------------------------------------- cursor, barriers and the dispatch in flight

  /** The record whose dispatch the drain waits for. */
  function Flight(drain: Drain): Option<Record> {
    if drain.Dispatching? && drain.index < |drain.records| then Some(drain.records[drain.index]) else None
  }

  /** Sockets are never forgotten, and one that was cut off stays cut off. */
  ghost predicate Stay(before: map<SocketId, Socket>, after: map<SocketId, Socket>) {
    before.Keys <= after.Keys && forall id :: id in before && after[id].connected ==> before[id].connected
  }

  /** A full resync has read this barrier and has not gone on yet. */
  ghost predicate Answered(resync: Resync, barrier: nat) {
    resync == AwaitBarrier(Some(Latest(barrier)))
  }

  /** Cursor, barrier and resync are the same, no dispatch took off, and no socket came back. */
  ghost predicate Quiet(before: State, after: State) {
    && after.cursor == before.cursor && after.barrier == before.barrier && after.resync == before.resync
    && (Flight(after.drain) == Flight(before.drain) || Flight(after.drain) == None)
    && Stay(before.sockets, after.sockets)
  }

  lemma {:induction false} BesideIsQuiet(before: State, after: State)
    requires Beside(before, after)
    ensures Quiet(before, after)
  {
  }

  lemma {:induction false} DrainActionIsQuiet(t: State, a: Action)
    requires a.DrainRequested? || a.ResyncAwaited? || a.OutboxFlushed? || a.RowsRead? || a.RequiredResyncResumed?
    ensures Quiet(t, Apply(t, a))
  {
    EndIsBeside(t, false);
    DrainStepKeepsBooks(t, a);
    if a.DrainRequested? { RecoverIsBeside(t); }
    if a.ResyncAwaited? { ResyncAwaitedIsBeside(t); }
  }

  lemma {:induction false} LogActionIsQuiet(t: State, a: Action)
    requires a.Publish? || a.PoisonRemediated? || a.Prune?
    ensures Quiet(t, Apply(t, a))
  {
  }

  lemma {:induction false} StartedIsQuiet(t: State, stream: string)
    ensures Quiet(t, StartedStep(t, stream))
  {
  }

  lemma {:induction false} CapturedIsQuiet(t: State, stream: string)
    ensures Quiet(t, CapturedStep(t, stream))
  {
  }

  lemma {:induction false} SettledIsQuiet(t: State, stream: string)
    ensures Quiet(t, DispatchSettledStep(t, stream))
  {
  }

  lemma {:induction false} AccountIsQuiet(t: State, stream: string, id: SocketId, account: AccountAnswer)
    ensures Quiet(t, AccountStep(t, stream, id, account))
  {
  }

  lemma {:induction false} TargetIsQuiet(t: State, stream: string, id: SocketId, target: TargetAnswer)
    ensures Quiet(t, TargetStep(t, stream, id, target))
  {
  }

  lemma {:induction false} RecipientDoneIsQuiet(t: State, stream: string, id: SocketId)
    ensures Quiet(t, RecipientDoneStep(t, stream, id))
  {
  }

  lemma {:induction false} StreamActionIsQuiet(t: State, a: Action, u: State)
    requires (a.ReplayQueued? || a.DispatchStarted? || a.HealthCaptured? || a.DispatchSettled?) && u == Apply(t, a)
    ensures Quiet(t, u)
  {
    if a.DispatchStarted? { StartedIsQuiet(t, a.stream); }
    if a.HealthCaptured? { CapturedIsQuiet(t, a.stream); }
    if a.DispatchSettled? { SettledIsQuiet(t, a.stream); }
  }

  lemma {:induction false} RecipientActionIsQuiet(t: State, a: Action, u: State)
    requires (a.AccountLoaded? || a.TargetChecked? || a.RecipientDone?) && u == Apply(t, a)
    ensures Quiet(t, u)
  {
    if a.AccountLoaded? { AccountIsQuiet(t, a.stream, a.id, a.account); }
    if a.TargetChecked? { TargetIsQuiet(t, a.stream, a.id, a.target); }
    if a.RecipientDone? { RecipientDoneIsQuiet(t, a.stream, a.id); }
  }

  /** The actions that may move the cursor, answer or end a resync, or put a dispatch in flight. */
  predicate Moves(a: Action) {
    || a.ReadResumed? || a.DispatchResumed? || a.ResyncSignal? || a.BarrierRead? || a.BarrierResumed?
    || a.BarrierRecipient? || a.BarrierDone?
  }

  lemma {:induction false} OthersAreQuiet(t: State, a: Action)
    requires !Moves(a)
    ensures Quiet(t, Apply(t, a))
  {
    if a.Connect? || a.Disconnect? || a.JoinRoom? || a.LeaveRoom? {
      SocketActionIsBeside(t, a);
      BesideIsQuiet(t, Apply(t, a));
    } else if a.CheckTimer? || a.StatusReturned? || a.Reconciled? {
      HealthActionIsBeside(t, a);
      BesideIsQuiet(t, Apply(t, a));
    } else if a.DrainRequested? || a.ResyncAwaited? || a.OutboxFlushed? || a.RowsRead? || a.RequiredResyncResumed? {
      DrainActionIsQuiet(t, a);
    } else if a.Publish? || a.PoisonRemediated? || a.Prune? {
      LogActionIsQuiet(t, a);
    } else if a.AccountLoaded? || a.TargetChecked? || a.RecipientDone? {
      RecipientActionIsQuiet(t, a, Apply(t, a));
    } else {
      StreamActionIsQuiet(t, a, Apply(t, a));
    }
  }

  /** Going on with a batch leaves everything but the drain alone; a record it dispatches lies above the cursor. */
  lemma {:induction false} AdvanceTakesOff(t: State, from: nat, rows: seq<Record>, index: nat)
    requires index <= |rows|
    ensures var u := Advance(t, from, rows, index);
            && u.cursor == t.cursor && u.barrier == t.barrier && u.resync == t.resync && u.sockets == t.sockets
            && (Flight(u.drain).Some? ==> t.cursor < Flight(u.drain).value.sequence)
    decreases |rows| - index
  {
    if index < |rows| && rows[index].sequence <= t.cursor { AdvanceTakesOff(t, from, rows, index + 1); }
  }

  lemma {:induction false} ReadTakesOff(t: State)
    ensures var u := ReadResumedStep(t);
            && u.cursor == t.cursor && u.barrier == t.barrier && u.sockets == t.sockets
            && (u.resync == t.resync || u.resync == RequireResync(t).resync)
            && (Flight(u.drain).Some? ==> Flight(u.drain) == Flight(t.drain) || t.cursor < Flight(u.drain).value.sequence)
  {
    if t.drain.Reading? && t.drain.answer.Some? && t.drain.answer.value.Rows? {
      AdvanceTakesOff(SetControlPlane(t, true), t.drain.from, t.drain.answer.value.records, 0);
    }
  }

  /** The return of a dispatch that went well stores its sequence; any other return leaves the cursor alone. */
  lemma {:induction false} DispatchLands(t: State)
    ensures var u := DispatchResumedStep(t);
            && u.barrier == t.barrier && u.sockets == t.sockets && u.resync == t.resync
            && u.cursor == (if t.drain.Dispatching? && t.drain.result == Some(true) && Flight(t.drain).Some?
                            then Flight(t.drain).value.sequence else t.cursor)
            && (Flight(u.drain).Some? ==> u == t || u.cursor < Flight(u.drain).value.sequence)
  {
    if t.drain.Dispatching? && t.drain.result == Some(true) && t.drain.index < |t.drain.records| {
      AdvanceTakesOff(t.(cursor := t.drain.records[t.drain.index].sequence), t.drain.from, t.drain.records, t.drain.index + 1);
    }
  }

  lemma {:induction false} RecipientStays(t: State, id: SocketId, account: AccountAnswer)
    ensures Stay(t.sockets, BarrierRecipientStep(t, id, account).sockets)
  {
  }

  lemma {:induction false} BarrierDoneStays(t: State)
    ensures Stay(t.sockets, BarrierDoneStep(t).sockets)
  {
  }

  lemma {:induction false} ReadingTheBarrierStays(t: State, ok: bool)
    ensures BarrierReadStep(t, ok).sockets == t.sockets && BarrierResumedStep(t).sockets == t.sockets
    ensures RequireResync(t).sockets == t.sockets
  {
  }

  lemma {:induction false} ResyncStays(t: State, a: Action, u: State)
    requires a.ResyncSignal? || a.BarrierRead? || a.BarrierResumed? || a.BarrierRecipient? || a.BarrierDone?
    requires u == Apply(t, a)
    ensures Stay(t.sockets, u.sockets)
  {
    match a
    case ResyncSignal => ReadingTheBarrierStays(t, true);
    case BarrierRead(ok) => ReadingTheBarrierStays(t, ok);
    case BarrierResumed => ReadingTheBarrierStays(t, true);
    case BarrierRecipient(id, account) => RecipientStays(t, id, account);
    case BarrierDone => BarrierDoneStays(t);
  }

  lemma {:induction false} StepStays(t: State, a: Action)
    ensures Stay(t.sockets, Apply(t, a).sockets)
  {
    if !Moves(a) {
      OthersAreQuiet(t, a);
    } else if a.ReadResumed? {
      ReadTakesOff(t);
    } else if a.DispatchResumed? {
      DispatchLands(t);
    } else {
      ResyncStays(t, a, Apply(t, a));
    }
  }

  lemma {:induction false} BarrierReadAnswers(t: State, ok: bool, b: nat)
    requires Answered(BarrierReadStep(t, ok).resync, b)
    ensures Answered(t.resync, b) || (ok && b == t.log.latest)
  {
  }

  lemma {:induction false} OthersDoNotAnswer(t: State, id: SocketId, account: AccountAnswer, b: nat)
    ensures Answered(RequireResync(t).resync, b) ==> Answered(t.resync, b)
    ensures !Answered(BarrierResumedStep(t).resync, b) || Answered(t.resync, b)
    ensures Answered(BarrierRecipientStep(t, id, account).resync, b) ==> Answered(t.resync, b)
    ensures Answered(BarrierDoneStep(t).resync, b) ==> Answered(t.resync, b)
  {
  }

  lemma {:induction false} ResyncAnswers(t: State, a: Action, b: nat, u: State)
    requires a.ResyncSignal? || a.BarrierRead? || a.BarrierResumed? || a.BarrierRecipient? || a.BarrierDone?
    requires u == Apply(t, a) && Answered(u.resync, b)
    ensures Answered(t.resync, b) || (a == BarrierRead(true) && b == t.log.latest)
  {
    if a.BarrierRead? {
      BarrierReadAnswers(t, a.ok, b);
    } else {
      OthersDoNotAnswer(t, if a.BarrierRecipient? then a.id else 0, if a.BarrierRecipient? then a.account else Active, b);
    }
  }

  /** Only the read of the barrier answers a resync that waits for it. */
  lemma {:induction false} AnswerIsRead(t: State, a: Action, b: nat)
    requires Answered(Apply(t, a).resync, b)
    ensures Answered(t.resync, b) || (a == BarrierRead(true) && b == t.log.latest)
  {
    if !Moves(a) {
      OthersAreQuiet(t, a);
    } else if a.ReadResumed? {
      ReadTakesOff(t);
    } else if a.DispatchResumed? {
      DispatchLands(t);
    } else {
      ResyncAnswers(t, a, b, Apply(t, a));
    }
  }

  // ---------------------------------------------------------------- the log

  lemma {:induction false} AdvanceKeepsLog(s: State, from: nat, rows: seq<Record>, index: nat)
    requires index <= |rows|
    ensures Advance(s, from, rows, index).log == s.log
    decreases |rows| - index
  {
    if index < |rows| && rows[index].sequence <= s.cursor { AdvanceKeepsLog(s, from, rows, index + 1); }
  }

  lemma {:induction false} DrainKeepsLog(s: State, a: Action)
    requires a.ReadResumed? || a.DispatchResumed?
    ensures Apply(s, a).log == s.log
  {
    if a.ReadResumed? && s.drain.Reading? && s.drain.answer.Some? && s.drain.answer.value.Rows? {
      AdvanceKeepsLog(SetControlPlane(s, true), s.drain.from, s.drain.answer.value.records, 0);
    }
    if a.DispatchResumed? && s.drain.Dispatching? && s.drain.result.Some? && s.drain.index < |s.drain.records| {
      AdvanceKeepsLog(s.(cursor := s.drain.records[s.drain.index].sequence), s.drain.from, s.drain.records, s.drain.index + 1);
    }
  }

  lemma {:induction false} ResyncKeepsLog(s: State, id: SocketId, account: AccountAnswer, ok: bool)
    ensures RequireResync(s).log == s.log && BarrierReadStep(s, ok).log == s.log && BarrierResumedStep(s).log == s.log
    ensures BarrierRecipientStep(s, id, account).log == s.log && BarrierDoneStep(s).log == s.log
  {
  }

  lemma {:induction false} DispatchKeepsLog(s: State, stream: string)
    ensures StartedStep(s, stream).log == s.log && CapturedStep(s, stream).log == s.log
    ensures DispatchSettledStep(s, stream).log == s.log
  {
  }

  lemma {:induction false} RecipientKeepsLog(
      s: State, stream: string, id: SocketId, account: AccountAnswer, target: TargetAnswer)
    ensures AccountStep(s, stream, id, account).log == s.log && TargetStep(s, stream, id, target).log == s.log
    ensures RecipientDoneStep(s, stream, id).log == s.log
  {
  }

  /** A queue, a cursor or a socket may change, but only publication, remediation and pruning touch the log. */
  lemma {:induction false} OthersKeepLog(s: State, a: Action)
    requires !a.Publish? && !a.PoisonRemediated? && !a.Prune?
    ensures Apply(s, a).log == s.log
  {
    if a.Connect? || a.Disconnect? || a.JoinRoom? || a.LeaveRoom? {
      SocketActionIsBeside(s, a);
    } else if a.CheckTimer? || a.StatusReturned? || a.Reconciled? {
      HealthActionIsBeside(s, a);
    } else if a.DrainRequested? || a.ResyncAwaited? || a.OutboxFlushed? || a.RowsRead? || a.RequiredResyncResumed? {
      DrainStepKeepsBooks(s, a);
    } else if a.ReadResumed? || a.DispatchResumed? {
      DrainKeepsLog(s, a);
    } else if a.ResyncSignal? || a.BarrierRead? || a.BarrierResumed? || a.BarrierRecipient? || a.BarrierDone? {
      ResyncKeepsLog(s, if a.BarrierRecipient? then a.id else 0, if a.BarrierRecipient? then a.account else Active,
                     if a.BarrierRead? then a.ok else true);
    } else if a.DispatchStarted? || a.HealthCaptured? || a.DispatchSettled? {
      DispatchKeepsLog(s, a.stream);
    } else if a.AccountLoaded? || a.TargetChecked? || a.RecipientDone? {
      RecipientKeepsLog(s, a.stream, a.id, if a.AccountLoaded? then a.account else Active,
                        if a.TargetChecked? then a.target else Allowed);
    }
  }
}
