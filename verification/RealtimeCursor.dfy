/**
 The cursor of the drain. It is stored without a comparison when a dispatch returns, so it may move back; this module
 says from which states, and in which runs.
 */
module RealtimeCursor {
  import opened Options
  import opened RealtimeLog
  import opened RealtimeModel
  import opened RealtimeSafety
  import opened RealtimeFrames
  import opened RealtimeHistory

  // ---------------------------------------------------------------- one step

  /** The dispatch in flight has ended well, and its record lies below the cursor. */
  predicate Lags(t: State) {
    t.drain.Dispatching? && t.drain.result == Some(true) && Flight(t.drain).Some? && Flight(t.drain).value.sequence < t.cursor
  }

  lemma {:induction false} BarrierDoneRaises(t: State)
    ensures var u := BarrierDoneStep(t);
            && t.cursor <= u.cursor && u.drain == t.drain
            && (u == t || (t.resync.Notifying? && u.resync.NoResync?
                           && u.cursor == (if t.resync.barrier > t.cursor then t.resync.barrier else t.cursor)
                           && u.barrier == (if t.resync.barrier > t.barrier then t.resync.barrier else t.barrier)))
  {
  }

  /** The barrier a full resync has read, if it has. */
  function Promised(resync: Resync): Option<nat> {
    match resync
    case Notifying(barrier, _) => Some(barrier)
    case AwaitBarrier(Some(Latest(barrier))) => Some(barrier)
    case _ => None
  }

  /** A step of a full resync that leaves the cursor alone and promises no barrier but the latest sequence. */
  ghost predicate Waits(t: State, u: State) {
    && u.cursor == t.cursor && u.drain == t.drain && u.barrier == t.barrier
    && (Promised(u.resync) == None || Promised(u.resync) == Promised(t.resync) || Promised(u.resync) == Some(t.log.latest))
  }

  lemma {:induction false} BarrierReadWaits(t: State, ok: bool)
    ensures Waits(t, RequireResync(t)) && Waits(t, BarrierReadStep(t, ok)) && Waits(t, BarrierResumedStep(t))
  {
  }

  lemma {:induction false} RecipientWaits(t: State, id: SocketId, account: AccountAnswer)
    ensures Waits(t, BarrierRecipientStep(t, id, account))
  {
  }

  lemma {:induction false} ResyncWaits(t: State, a: Action, u: State)
    requires (a.ResyncSignal? || a.BarrierRead? || a.BarrierResumed? || a.BarrierRecipient?) && u == Apply(t, a)
    ensures Waits(t, u)
  {
    BarrierReadWaits(t, true);
    BarrierReadWaits(t, false);
    if a.BarrierRecipient? { RecipientWaits(t, a.id, a.account); }
  }

  /** From any state, the one step that moves the cursor back is the return of a dispatch whose record lies below it. */
  lemma {:induction false} MovesBackExactlyWhen(t: State, a: Action)
    ensures Apply(t, a).cursor < t.cursor <==> a.DispatchResumed? && Lags(t)
  {
    if !Moves(a) {
      OthersAreQuiet(t, a);
    } else if a.ReadResumed? {
      ReadTakesOff(t);
    } else if a.DispatchResumed? {
      DispatchLands(t);
    } else if a.BarrierDone? {
      BarrierDoneRaises(t);
    } else {
      ResyncWaits(t, a, Apply(t, a));
    }
  }

  // ---------------------------------------------------------------- what every reachable state keeps

  /** A full resync that has read its barrier read one at or above the last finished one. */
  ghost predicate BarriersRise(t: State) {
    Promised(t.resync).Some? ==> t.barrier <= Promised(t.resync).value
  }

  /** The record in flight lies above the cursor, unless the cursor stands on a finished barrier. */
  ghost predicate FlightOk(t: State) {
    Flight(t.drain).Some? ==> t.cursor < Flight(t.drain).value.sequence || t.cursor == t.barrier
  }

  lemma {:induction false} MoveKeepsCursorInv(t: State, a: Action, u: State)
    requires Moves(a) && t.barrier <= t.log.latest && BarriersRise(t) && FlightOk(t) && u == Apply(t, a)
    ensures BarriersRise(u) && FlightOk(u)
  {
    if a.ReadResumed? {
      ReadTakesOff(t);
    } else if a.DispatchResumed? {
      DispatchLands(t);
    } else if a.BarrierDone? {
      BarrierDoneRaises(t);
    } else {
      ResyncWaits(t, a, Apply(t, a));
    }
  }

  lemma {:induction false} StepKeepsCursorInv(t: State, a: Action, u: State)
    requires t.barrier <= t.log.latest && BarriersRise(t) && FlightOk(t) && u == Apply(t, a)
    ensures BarriersRise(u) && FlightOk(u)
  {
    if Moves(a) { MoveKeepsCursorInv(t, a, u); } else { OthersAreQuiet(t, a); }
  }

  lemma {:induction false} RunKeepsCursorInv(s: State, actions: seq<Action>)
    requires Inv(s) && BarriersRise(s) && FlightOk(s)
    ensures Inv(Run(s, actions)) && BarriersRise(Run(s, actions)) && FlightOk(Run(s, actions))
    decreases |actions|
  {
    if actions != [] {
      StepKeepsInv(s, actions[0]);
      StepKeepsCursorInv(s, actions[0], Apply(s, actions[0]));
      RunKeepsCursorInv(Apply(s, actions[0]), actions[1..]);
    }
  }

  lemma {:induction false} ReachableCursor(s: State, actions: seq<Action>)
    requires Init(s)
    ensures Inv(Run(s, actions)) && BarriersRise(Run(s, actions)) && FlightOk(Run(s, actions))
  {
    InitHasInv(s);
    RunKeepsCursorInv(s, actions);
  }

  // ---------------------------------------------------------------- every run

  function InFlightAt(s: State, actions: seq<Action>, k: nat): Option<Record>
    requires k <= |actions|
  {
    Flight(Run(s, actions[..k]).drain)
  }

  /** The action takes the cursor from at or below the record to above it, onto the barrier it has just finished. */
  ghost predicate Overtakes(t: State, a: Action, u: State, r: Record) {
    a == BarrierDone && t.cursor <= r.sequence < u.cursor && u.cursor == u.barrier
  }

  ghost predicate InFlightThrough(s: State, actions: seq<Action>, k: nat, n: nat, r: Record) {
    k <= n <= |actions| && forall j :: k <= j <= n ==> InFlightAt(s, actions, j) == Some(r)
  }

  /** Action `k` overtook the record, and at all moments from `k` to `n` the drain waits for the dispatch of that record. */
  ghost predicate OvertakenAt(s: State, actions: seq<Action>, k: nat, n: nat, r: Record) {
    && k < n && InFlightThrough(s, actions, k, n, r)
    && Overtakes(Run(s, actions[..k]), actions[k], Run(s, actions[..k + 1]), r)
  }

  /** While one dispatch stays in flight, the cursor only rises, and only onto the barrier of a resync that finishes. */
  lemma {:induction false} FlightRaises(t: State, a: Action, u: State, r: Record)
    requires BarriersRise(t) && u == Apply(t, a)
    requires Flight(t.drain) == Some(r) && Flight(u.drain) == Some(r)
    ensures t.cursor <= u.cursor
    ensures t.cursor < u.cursor ==> a == BarrierDone && u.cursor == u.barrier
  {
    if !Moves(a) {
      OthersAreQuiet(t, a);
    } else if a.ReadResumed? {
      ReadTakesOff(t);
    } else if a.DispatchResumed? {
      DispatchLands(t);
    } else if a.BarrierDone? {
      BarrierDoneRaises(t);
    } else {
      ResyncWaits(t, a, Apply(t, a));
    }
  }

  /** A dispatch takes off above the cursor. */
  lemma {:induction false} TakesOffAbove(t: State, a: Action, u: State, r: Record)
    requires u == Apply(t, a) && Flight(t.drain) != Some(r) && Flight(u.drain) == Some(r)
    ensures u.cursor < r.sequence
  {
    if !Moves(a) {
      OthersAreQuiet(t, a);
    } else if a.ReadResumed? {
      ReadTakesOff(t);
    } else if a.DispatchResumed? {
      DispatchLands(t);
    } else if a.BarrierDone? {
      BarrierDoneRaises(t);
    } else {
      ResyncWaits(t, a, Apply(t, a));
    }
  }

  lemma {:induction false} LaggingStep(t: State, a: Action, u: State, r: Record)
    requires BarriersRise(t) && u == Apply(t, a) && Flight(u.drain) == Some(r) && r.sequence < u.cursor
    ensures Flight(t.drain) == Some(r)
    ensures r.sequence < t.cursor || (a == BarrierDone && u.cursor == u.barrier)
  {
    if Flight(t.drain) != Some(r) { TakesOffAbove(t, a, u, r); }
    FlightRaises(t, a, u, r);
  }

  lemma {:induction false} ReachableRises(s: State, actions: seq<Action>)
    requires Init(s)
    ensures BarriersRise(Run(s, actions))
  {
    ReachableCursor(s, actions);
  }

  /** The last step before a record in flight lies below the cursor: it was in flight, and lay below or was overtaken. */
  lemma {:induction false} LagsSince(s: State, actions: seq<Action>, n: nat, r: Record)
    requires Init(s) && n < |actions|
    requires InFlightAt(s, actions, n + 1) == Some(r) && r.sequence < Run(s, actions[..n + 1]).cursor
    ensures InFlightAt(s, actions, n) == Some(r)
    ensures r.sequence < Run(s, actions[..n]).cursor
            || Overtakes(Run(s, actions[..n]), actions[n], Run(s, actions[..n + 1]), r)
  {
    RunOneMore(s, actions, n);
    ReachableRises(s, actions[..n]);
    LaggingStep(Run(s, actions[..n]), actions[n], Run(s, actions[..n + 1]), r);
  }

  lemma {:induction false} InFlightLonger(s: State, actions: seq<Action>, k: nat, n: nat, r: Record)
    requires n < |actions| && InFlightThrough(s, actions, k, n, r) && InFlightAt(s, actions, n + 1) == Some(r)
    ensures InFlightThrough(s, actions, k, n + 1, r)
  {
  }

  /** A record in flight below the cursor was overtaken while it was in flight. */
  lemma {:induction false} LaggingWasOvertaken(s: State, actions: seq<Action>, n: nat, r: Record) returns (k: nat)
    requires Init(s) && n <= |actions|
    requires InFlightAt(s, actions, n) == Some(r) && r.sequence < Run(s, actions[..n]).cursor
    ensures OvertakenAt(s, actions, k, n, r)
  {
    if n == 0 {
      assert false;
    } else {
      LagsSince(s, actions, n - 1, r);
      if r.sequence < Run(s, actions[..n - 1]).cursor {
        k := LaggingWasOvertaken(s, actions, n - 1, r);
      } else {
        k := n - 1;
        assert InFlightThrough(s, actions, k, k, r);
      }
      InFlightLonger(s, actions, k, n - 1, r);
    }
  }

  lemma {:induction false} FlightNeverSinks(s: State, actions: seq<Action>, n: nat, r: Record)
    requires Init(s) && n < |actions| && InFlightThrough(s, actions, n, n + 1, r)
    ensures Run(s, actions[..n]).cursor <= Run(s, actions[..n + 1]).cursor
  {
    assert InFlightAt(s, actions, n) == InFlightAt(s, actions, n + 1) == Some(r);
    RunOneMore(s, actions, n);
    ReachableRises(s, actions[..n]);
    FlightRaises(Run(s, actions[..n]), actions[n], Run(s, actions[..n + 1]), r);
  }

  /** While a record stays in flight, a cursor above it stays above it. */
  lemma {:induction false} FlightLags(s: State, actions: seq<Action>, k: nat, n: nat, r: Record)
    requires Init(s) && InFlightThrough(s, actions, k, n, r) && r.sequence < Run(s, actions[..k]).cursor
    ensures r.sequence < Run(s, actions[..n]).cursor
    decreases n - k
  {
    if k < n {
      FlightNeverSinks(s, actions, n - 1, r);
      FlightLags(s, actions, k, n - 1, r);
    }
  }

  /** Once overtaken, a record in flight stays below the cursor. */
  lemma {:induction false} OvertakenLags(s: State, actions: seq<Action>, k: nat, n: nat, r: Record)
    requires Init(s) && OvertakenAt(s, actions, k, n, r)
    ensures r.sequence < Run(s, actions[..n]).cursor && InFlightAt(s, actions, n) == Some(r)
  {
    FlightLags(s, actions, k + 1, n, r);
  }

  /**
   In a run, action `n` moves the cursor back exactly when it is the return of a dispatch that went well and was
   overtaken: a full resync finished while it was in flight, with a barrier above its record.
   */
  lemma {:induction false} CursorMovesBackExactlyWhen(s: State, actions: seq<Action>, n: nat)
    requires Init(s) && n < |actions|
    ensures var t := Run(s, actions[..n]);
            Run(s, actions[..n + 1]).cursor < t.cursor
            <==> && actions[n] == DispatchResumed && t.drain.Dispatching? && t.drain.result == Some(true)
                 && exists k, r :: OvertakenAt(s, actions, k, n, r)
  {
    var t := Run(s, actions[..n]);
    RunOneMore(s, actions, n);
    MovesBackExactlyWhen(t, actions[n]);
    if Lags(t) {
      var k := LaggingWasOvertaken(s, actions, n, Flight(t.drain).value);
    }
    if k, r :| OvertakenAt(s, actions, k, n, r) {
      OvertakenLags(s, actions, k, n, r);
    }
  }

  /** In every reachable state, the step that moves the cursor back moves it off a finished barrier, onto the record dispatched. */
  lemma {:induction false} MovesBackOffABarrier(s: State, actions: seq<Action>, a: Action)
    requires Init(s)
    requires var t := Run(s, actions); Apply(t, a).cursor < t.cursor
    ensures var t := Run(s, actions);
            && t.cursor == t.barrier
            && Flight(t.drain).Some? && Apply(t, a).cursor == Flight(t.drain).value.sequence
            && Flight(t.drain).value.sequence in t.completed
  {
    var t := Run(s, actions);
    ReachableCursor(s, actions);
    MovesBackExactlyWhen(t, a);
    DispatchLands(t);
  }

  // ---------------------------------------------------------------- a run that does it

  const FIRST: Record := Record(1, "first", "stream", [Room("lobby")])
  const SECOND: Record := Record(2, "second", "stream", [Room("lobby")])

  function Publishing(r: Record): Action { Publish(r.eventId, r.streamId, r.targets) }

  /** An empty log, and a runtime whose startup has just finished. */
  const START: State := State(
    Log([], 0, 0), Health(true, true, false, true, 0, NoCheck, 0, 0), map[], map[], 0, Idle, false, NoResync, [], 0, 0,
    map[], map[], [])

  /** A record is published and a drain begins. */
  const DRAINING: seq<Action> := [Publishing(FIRST), DrainRequested, ResyncAwaited, OutboxFlushed(true)]

  /** The drain reads the record and queues its dispatch. */
  const READING: seq<Action> := [RowsRead(true), ReadResumed]

  /** The dispatch ends well, and its return is due. */
  const DISPATCHING: seq<Action> :=
    [DispatchStarted("stream"), StatusReturned(Installed), HealthCaptured("stream"), DispatchSettled("stream")]

  /** Another record is published, and a full resync runs from its signal to its end. */
  const SIGNALLED: seq<Action> := [Publishing(SECOND), ResyncSignal]
  const RESYNCED: seq<Action> := [BarrierRead(true), BarrierResumed, BarrierDone]

  lemma {:induction false} RunJoins(s: State, xs: seq<Action>, ys: seq<Action>)
    ensures Run(s, xs + ys) == Run(Run(s, xs), ys)
    decreases |xs|
  {
    if xs == [] {
      assert xs + ys == ys;
    } else {
      assert (xs + ys)[1..] == xs[1..] + ys;
      RunJoins(Apply(s, xs[0]), xs[1..], ys);
    }
  }

  /** From `s` over `t` to `u`. */
  lemma {:induction false} RunOver(s: State, xs: seq<Action>, t: State, ys: seq<Action>, u: State)
    requires Run(s, xs) == t && Run(t, ys) == u
    ensures Run(s, xs + ys) == u
  {
    RunJoins(s, xs, ys);
  }

  lemma {:induction false} RunOne(s: State, a: Action)
    ensures Run(s, [a]) == Apply(s, a)
  {
    assert [a][1..] == [];
  }

  lemma {:induction false} RunTwo(s: State, a: Action, b: Action)
    ensures Run(s, [a, b]) == Apply(Apply(s, a), b)
  {
    assert [a, b][1..] == [b];
    RunOne(Apply(s, a), b);
  }

  lemma {:induction false} RunThree(s: State, a: Action, b: Action, c: Action)
    ensures Run(s, [a, b, c]) == Apply(Apply(Apply(s, a), b), c)
  {
    assert [a, b, c][1..] == [b, c];
    RunTwo(Apply(s, a), b, c);
  }

  lemma {:induction false} RunFour(s: State, a: Action, b: Action, c: Action, d: Action)
    ensures Run(s, [a, b, c, d]) == Apply(Apply(Apply(Apply(s, a), b), c), d)
  {
    assert [a, b, c, d][1..] == [b, c, d];
    RunThree(Apply(s, a), b, c, d);
  }

  lemma {:induction false} QueueOfOne(stream: string, op: Dispatch, phase: Phase)
    requires op.record.streamId == stream
    ensures var queues := map[stream := [op]];
            && Enqueue(map[], op) == queues && PopHead(queues, stream) == map[]
            && SetHead(queues, stream, phase) == map[stream := [op.(phase := phase)]]
  {
    var none: seq<Dispatch> := [];
    assert [op][1..] == none && none + [op] == [op] && [op.(phase := phase)] + none == [op.(phase := phase)];
  }

  const STORED: State := START.(log := Log([FIRST], 1, 0))

  const QUEUED: State := STORED.(
    queues := map["stream" := [Dispatch(FIRST, None, Queued)]],
    drain := Dispatching(0, [FIRST], 0, None))

  const CHECKED: State := QUEUED.(
    queues := map["stream" := [Dispatch(FIRST, None, AwaitBackstop(0))]],
    health := START.health.(settledChecks := 1))

  const CAPTURED: State := CHECKED.(
    queues := map["stream" := [Dispatch(FIRST, None, Fanout(0, 0, map[], map[]))]])

  const LANDED: State := CAPTURED.(
    queues := map[],
    completed := map[1 := Completion(map[], map[])],
    drain := Dispatching(0, [FIRST], 0, Some(true)))

  const AHEAD: State := LANDED.(
    log := Log([FIRST, SECOND], 2, 0), cursor := 2, barrier := 2, resyncs := [true])

  lemma {:induction false} Drains()
    ensures Run(START, DRAINING) == STORED.(drain := Reading(0, None))
  {
    RunFour(START, DRAINING[0], DRAINING[1], DRAINING[2], DRAINING[3]);
    assert Apply(START, Publishing(FIRST)) == STORED;
  }

  lemma {:induction false} Reads()
    ensures Run(STORED.(drain := Reading(0, None)), READING) == QUEUED
  {
    RunTwo(STORED.(drain := Reading(0, None)), READING[0], READING[1]);
    QueueOfOne("stream", Dispatch(FIRST, None, Queued), Queued);
    assert After([FIRST], 0) == [FIRST];
  }

  lemma {:induction false} Begins()
    ensures Apply(Apply(QUEUED, DispatchStarted("stream")), StatusReturned(Installed)) == CHECKED
  {
    QueueOfOne("stream", Dispatch(FIRST, None, Queued), AwaitBackstop(0));
  }

  lemma {:induction false} Captures()
    ensures Apply(CHECKED, HealthCaptured("stream")) == CAPTURED
  {
    QueueOfOne("stream", Dispatch(FIRST, None, AwaitBackstop(0)), Fanout(0, 0, map[], map[]));
    assert !FIRST.targets[0].Malformed?;
  }

  lemma {:induction false} Lands()
    ensures Apply(CAPTURED, DispatchSettled("stream")) == LANDED
  {
    QueueOfOne("stream", Dispatch(FIRST, None, Fanout(0, 0, map[], map[])), Queued);
  }

  lemma {:induction false} Dispatches()
    ensures Run(QUEUED, DISPATCHING) == LANDED
  {
    RunFour(QUEUED, DISPATCHING[0], DISPATCHING[1], DISPATCHING[2], DISPATCHING[3]);
    Begins();
    Captures();
    Lands();
  }

  const AWAITING: State := LANDED.(log := Log([FIRST, SECOND], 2, 0), resync := AwaitBarrier(None))

  lemma {:induction false} Signals()
    ensures Run(LANDED, SIGNALLED) == AWAITING
  {
    RunTwo(LANDED, SIGNALLED[0], SIGNALLED[1]);
    assert [FIRST] + [SECOND] == [FIRST, SECOND];
  }

  lemma {:induction false} Lists()
    ensures Apply(AWAITING.(resync := AwaitBarrier(Some(Latest(2)))), BarrierResumed) == AWAITING.(resync := Notifying(2, map[]))
  {
    assert Connected(AWAITING.sockets) == {};
  }

  lemma {:induction false} Resyncs()
    ensures Run(AWAITING, RESYNCED) == AHEAD
  {
    RunThree(AWAITING, RESYNCED[0], RESYNCED[1], RESYNCED[2]);
    Lists();
    assert BarrierDoneStep(AWAITING.(resync := Notifying(2, map[]))).sockets == map[];
  }

  lemma {:induction false} GetsAhead()
    ensures Run(START, DRAINING + READING + DISPATCHING + SIGNALLED + RESYNCED) == AHEAD
  {
    Drains();
    Reads();
    Dispatches();
    Signals();
    Resyncs();
    RunOver(START, DRAINING, STORED.(drain := Reading(0, None)), READING, QUEUED);
    RunOver(START, DRAINING + READING, QUEUED, DISPATCHING, LANDED);
    RunOver(START, DRAINING + READING + DISPATCHING, LANDED, SIGNALLED, AWAITING);
    RunOver(START, DRAINING + READING + DISPATCHING + SIGNALLED, AWAITING, RESYNCED, AHEAD);
  }

  /** The drain dispatches record 1, a resync takes the cursor to 2 meanwhile, and the return of the dispatch stores 1. */
  lemma {:induction false} TheCursorMovesBack()
    ensures Init(START)
    ensures Run(START, DRAINING + READING + DISPATCHING + SIGNALLED + RESYNCED).cursor == 2
    ensures Run(START, DRAINING + READING + DISPATCHING + SIGNALLED + RESYNCED + [DispatchResumed]).cursor == 1
  {
    GetsAhead();
    RunOne(AHEAD, DispatchResumed);
    RunOver(START, DRAINING + READING + DISPATCHING + SIGNALLED + RESYNCED, AHEAD,
            [DispatchResumed], Apply(AHEAD, DispatchResumed));
    DispatchLands(AHEAD);
  }
}
