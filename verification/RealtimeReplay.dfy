/** Replaying the durable log to one socket: the batched loop, the one-shot window, and a client that resumes. */
module RealtimeReplay {
  import opened Options
  import opened RealtimeLog
  import opened RealtimeHistory
  import opened RealtimeModel
  import opened RealtimeSafety
  import opened RealtimeFrames

  const MAX_REPLAY_EVENTS: nat := 2000

  /** `Interrupted` when a dispatch threw or health was lost: the replay ends without an acknowledgement. */
  datatype ResumeAck =
    | Resumed(lastSequence: nat, truncated: bool)
    | CursorInFuture(lastSequence: nat)
    | CursorTooOld(lastSequence: nat)
    | Interrupted

  /** What a resume should deliver: the first records above the cursor, up to the replay limit. */
  function Replayed(log: Log, after: nat): seq<Record> {
    FirstN(After(log.records, after), MAX_REPLAY_EVENTS)
  }

  /** The sequence of the last row dispatched, or the cursor the client came with. */
  function Reached(after: nat, rows: seq<Record>): nat {
    if rows == [] then after else rows[|rows| - 1].sequence
  }

  function Acknowledge(latest: nat, reached: nat): ResumeAck {
    Resumed(if reached < latest then reached else latest, reached < latest)
  }

  /**
   What happens during a replay. Does the captured health still hold once the retained range is known, and at a check
   made in front of row `k`? Does the dispatch of row `k` throw? Which latest sequence does a refusal read, unless health
   is lost behind that read?
   */
  datatype Meanwhile = Meanwhile(startsHealthy: bool, refusal: Option<nat>, healthyAt: nat -> bool, fails: nat -> bool)

  /** The first of the rows `from` to `end` that the replay stops at, or `end`. */
  function FirstStop(stops: nat -> bool, from: nat, end: nat): (k: nat)
    requires from <= end
    ensures from <= k <= end && (k < end ==> stops(k))
    ensures forall j :: from <= j < k ==> !stops(j)
    decreases end - from
  {
    if from == end || stops(from) then from else FirstStop(stops, from + 1, end)
  }

  /** The answer to a cursor outside the retained history. */
  function Refusal(log: Log, after: nat, m: Meanwhile): ResumeAck {
    match m.refusal
    case None => Interrupted
    case Some(latest) => if log.latest < after then CursorInFuture(latest) else CursorTooOld(latest)
  }

  /**
   What both branches do. When health is lost before anything was dispatched, nothing is. A cursor outside the retained
   history is refused. Otherwise the records to replay are dispatched up to the first one to stop at; if there is none
   and nothing else comes between, the client learns how far it has come.
   */
  ghost predicate Replays(log: Log, after: nat, m: Meanwhile, stops: nat -> bool, late: bool, dispatched: seq<Record>, ack: ResumeAck) {
    if !m.startsHealthy then dispatched == [] && ack == Interrupted
    else if log.latest < after || after < log.pruned then
      && dispatched == []
      && ack == Refusal(log, after, m)
    else
      var all := Replayed(log, after);
      var k := FirstStop(stops, 0, |all|);
      && dispatched == all[..k]
      && ack == if k < |all| || late then Interrupted else Acknowledge(log.latest, Reached(after, all))
  }

  /** The one-query branch checks health in front of every dispatch. */
  function WindowStops(m: Meanwhile): nat -> bool {
    (k: nat) => !m.healthyAt(k) || m.fails(k)
  }

  /** The control-plane branch that reads the whole window in one query. */
  method ReplayWindow(log: Log, after: nat, m: Meanwhile) returns (dispatched: seq<Record>, ack: ResumeAck)
    requires Valid(log)
    ensures Replays(log, after, m, WindowStops(m), false, dispatched, ack)
  {
    dispatched := [];
    if !m.startsHealthy { return dispatched, Interrupted; }
    if after > log.latest { return dispatched, if m.refusal.Some? then CursorInFuture(m.refusal.value) else Interrupted; }
    if after < log.pruned { return dispatched, if m.refusal.Some? then CursorTooOld(m.refusal.value) else Interrupted; }
    var window := FirstN(After(log.records, after), MAX_REPLAY_EVENTS);
    var cursor := after;
    for i := 0 to |window|
      invariant dispatched == window[..i] && cursor == Reached(after, dispatched)
      invariant forall j :: 0 <= j < i ==> !WindowStops(m)(j)
    {
      if !m.healthyAt(i) || m.fails(i) {
        FirstStopAt(WindowStops(m), i, |window|);
        return dispatched, Interrupted;
      }
      dispatched := dispatched + [window[i]];
      cursor := window[i].sequence;
    }
    FirstStopAt(WindowStops(m), |window|, |window|);
    ack := Acknowledge(log.latest, cursor);
  }

  /** One batch of the loop below: rows are dispatched until one lies above the watermark or a dispatch throws. */
  method DispatchBatch(rows: seq<Record>, cursor: nat, through: nat, done: nat, fails: nat -> bool)
    returns (dispatched: seq<Record>, reached: nat, ok: bool)
    ensures dispatched <= rows && reached == Reached(cursor, dispatched)
    ensures forall r :: r in dispatched ==> r.sequence <= through
    ensures forall j :: done <= j < done + |dispatched| ==> !fails(j)
    ensures ok && |dispatched| < |rows| ==> through < rows[|dispatched|].sequence
    ensures !ok ==> |dispatched| < |rows| && fails(done + |dispatched|)
  {
    dispatched, reached := [], cursor;
    for i := 0 to |rows|
      invariant dispatched == rows[..i] && reached == Reached(cursor, dispatched)
      invariant forall r :: r in dispatched ==> r.sequence <= through
      invariant forall j :: done <= j < done + i ==> !fails(j)
    {
      if rows[i].sequence > through { return dispatched, reached, true; }
      if fails(done + i) { return dispatched, reached, false; }
      dispatched := dispatched + [rows[i]];
      reached := rows[i].sequence;
    }
    ok := true;
  }

  /** The batched branch checks health once behind each read of a batch. */
  function BatchStops(m: Meanwhile): nat -> bool {
    (k: nat) => (k % EVENT_READ_BATCH == 0 && !m.healthyAt(k)) || m.fails(k)
  }

  /** Everything is dispatched, one more read finds nothing below the watermark, and health is lost behind it. */
  predicate LostAtTheEnd(log: Log, after: nat, m: Meanwhile) {
    var all := Replayed(log, after);
    |all| % EVENT_READ_BATCH == 0 && |all| < MAX_REPLAY_EVENTS && Reached(after, all) < log.latest && !m.healthyAt(|all|)
  }

  /** How the work on a batch ends: the loop goes on, is done, or the replay throws. */
  datatype BatchEnd = More | Last | Thrown

  /** Where the replay throws: at the first row to stop at, or behind all of them. */
  ghost predicate ThrowsAt(log: Log, after: nat, m: Meanwhile, k: nat) {
    if k < |Replayed(log, after)| then BatchStops(m)(k) else LostAtTheEnd(log, after, m)
  }

  /** What one round of the loop comes to, when the rows `done` were dispatched before it. */
  ghost predicate RoundOk(log: Log, after: nat, done: seq<Record>, batch: seq<Record>, reached: nat, end: BatchEnd, m: Meanwhile) {
    && done + batch <= After(log.records, after) && done + batch <= Replayed(log, after)
    && reached == Reached(after, done + batch)
    && (forall j :: |done| <= j < |done| + |batch| ==> !BatchStops(m)(j))
    && match end
       case More => |batch| == EVENT_READ_BATCH
       case Last => done + batch == Replayed(log, after) && !LostAtTheEnd(log, after, m)
       case Thrown => ThrowsAt(log, after, m, |done| + |batch|)
  }

  /** One round of the loop: `done` rows were dispatched in whole batches, down to `cursor`. */
  method NextBatch(log: Log, after: nat, ghost done: seq<Record>, cursor: nat, delivered: nat, m: Meanwhile)
    returns (batch: seq<Record>, reached: nat, end: BatchEnd)
    requires Valid(log) && log.pruned <= after <= log.latest
    requires done <= After(log.records, after) && delivered == |done| && cursor == Reached(after, done)
    requires delivered < MAX_REPLAY_EVENTS && delivered % EVENT_READ_BATCH == 0 && cursor < log.latest
    ensures RoundOk(log, after, done, batch, reached, end, m)
  {
    var limit := if EVENT_READ_BATCH < MAX_REPLAY_EVENTS - delivered then EVENT_READ_BATCH else MAX_REPLAY_EVENTS - delivered;
    var read := ReadAfter(log, cursor, limit);
    ReadsOnFrom(log, after, done, limit);
    NothingYet(log, after, done, m);
    if !m.healthyAt(delivered) { return [], cursor, Thrown; }
    if read.records == [] {
      FindsNothing(log, after, done, m);
      return [], cursor, Last;
    }
    batch, reached, end := DispatchRows(log, after, done, read.records, cursor, delivered, m);
  }

  /** The rows a read of a whole batch answers. */
  ghost predicate NextRows(log: Log, after: nat, done: seq<Record>, rows: seq<Record>) {
    && done <= After(log.records, after) && rows != []
    && rows == FirstN(After(log.records, after)[|done|..], EVENT_READ_BATCH) && done + rows <= After(log.records, after)
    && forall r :: r in rows ==> r.sequence <= log.latest
  }

  method DispatchRows(log: Log, after: nat, ghost done: seq<Record>, rows: seq<Record>, cursor: nat, delivered: nat, m: Meanwhile)
    returns (batch: seq<Record>, reached: nat, end: BatchEnd)
    requires Valid(log) && NextRows(log, after, done, rows) && cursor == Reached(after, done) && delivered == |done|
    requires |done| % EVENT_READ_BATCH == 0 && |done| < MAX_REPLAY_EVENTS && m.healthyAt(|done|)
    ensures RoundOk(log, after, done, batch, reached, end, m)
  {
    var complete;
    batch, reached, complete := DispatchBatch(rows, cursor, log.latest, delivered, m.fails);
    end := if !complete then Thrown else if |rows| < EVENT_READ_BATCH then Last else More;
    RoundEnds(log, after, done, rows, batch, end, m);
  }

  lemma {:induction false} RoundEnds(
      log: Log, after: nat, done: seq<Record>, rows: seq<Record>, batch: seq<Record>, end: BatchEnd, m: Meanwhile)
    requires Valid(log) && |done| % EVENT_READ_BATCH == 0 && |done| < MAX_REPLAY_EVENTS && m.healthyAt(|done|)
    requires NextRows(log, after, done, rows) && batch <= rows
    requires forall j :: |done| <= j < |done| + |batch| ==> !m.fails(j)
    requires end.Thrown? ==> |batch| < |rows| && m.fails(|done| + |batch|)
    requires !end.Thrown? ==> (|batch| < |rows| ==> log.latest < rows[|batch|].sequence)
                              && end == if |rows| < EVENT_READ_BATCH then Last else More
    ensures RoundOk(log, after, done, batch, Reached(Reached(after, done), batch), end, m)
  {
    BatchExtends(log, after, done, batch, rows);
    NoStopInBatch(m, |done|, |batch|);
    if !end.Thrown? {
      WholeBatch(batch, rows, log.latest);
      if end.Last? { ShortBatchIsLast(log, after, done, batch, m); }
    }
  }

  lemma {:induction false} FindsNothing(log: Log, after: nat, done: seq<Record>, m: Meanwhile)
    requires Valid(log) && done == After(log.records, after) && |done| < MAX_REPLAY_EVENTS && m.healthyAt(|done|)
    ensures done == Replayed(log, after) && !LostAtTheEnd(log, after, m)
  {
  }

  lemma {:induction false} ShortBatchIsLast(log: Log, after: nat, done: seq<Record>, batch: seq<Record>, m: Meanwhile)
    requires Valid(log) && done + batch == After(log.records, after) && |done| % EVENT_READ_BATCH == 0
    requires 0 < |batch| < EVENT_READ_BATCH && |done| + |batch| <= MAX_REPLAY_EVENTS
    ensures done + batch == Replayed(log, after) && !LostAtTheEnd(log, after, m)
  {
  }

  /** The loop over batches, until the limit, the starting watermark, a short batch, lost health or a failure stops it. */
  method DispatchRetained(log: Log, after: nat, m: Meanwhile)
    returns (dispatched: seq<Record>, cursor: nat, ok: bool)
    requires Valid(log) && log.pruned <= after <= log.latest
    ensures dispatched <= Replayed(log, after) && cursor == Reached(after, dispatched)
    ensures forall j :: 0 <= j < |dispatched| ==> !BatchStops(m)(j)
    ensures ok ==> dispatched == Replayed(log, after) && !LostAtTheEnd(log, after, m)
    ensures !ok ==> ThrowsAt(log, after, m, |dispatched|)
  {
    dispatched, cursor := [], after;
    var delivered := 0;
    while delivered < MAX_REPLAY_EVENTS && cursor < log.latest
      invariant delivered == |dispatched| && delivered % EVENT_READ_BATCH == 0 && delivered <= MAX_REPLAY_EVENTS
      invariant dispatched <= After(log.records, after) && cursor == Reached(after, dispatched)
      invariant forall j :: 0 <= j < delivered ==> !BatchStops(m)(j)
      decreases MAX_REPLAY_EVENTS - delivered
    {
      var batch, reached, end := NextBatch(log, after, dispatched, cursor, delivered, m);
      dispatched, cursor, delivered := dispatched + batch, reached, delivered + |batch|;
      if !end.More? { return dispatched, cursor, end.Last?; }
    }
    NothingLeft(log, after, dispatched);
    ok := true;
  }

  /** In front of a batch nothing new is dispatched; health lost there is where the replay throws. */
  lemma {:induction false} NothingYet(log: Log, after: nat, done: seq<Record>, m: Meanwhile)
    requires done <= After(log.records, after) && |done| < MAX_REPLAY_EVENTS && |done| % EVENT_READ_BATCH == 0
    requires Reached(after, done) < log.latest
    ensures done + [] == done && done <= Replayed(log, after)
    ensures !m.healthyAt(|done|) ==> ThrowsAt(log, after, m, |done|)
  {
    assert |done| >= |Replayed(log, after)| ==> done == Replayed(log, after);
  }

  /** Inside a batch there is no other check. */
  lemma {:induction false} NoStopInBatch(m: Meanwhile, from: nat, size: nat)
    requires from % EVENT_READ_BATCH == 0 && m.healthyAt(from) && size <= EVENT_READ_BATCH
    requires forall j :: from <= j < from + size ==> !m.fails(j)
    ensures forall j :: from <= j < from + size ==> !BatchStops(m)(j)
  {
  }

  /** The branch that reads batches. */
  method ReplayBatched(log: Log, after: nat, m: Meanwhile) returns (dispatched: seq<Record>, ack: ResumeAck)
    requires Valid(log)
    ensures Replays(log, after, m, BatchStops(m), LostAtTheEnd(log, after, m), dispatched, ack)
  {
    if !m.startsHealthy { return [], Interrupted; }
    if after > log.latest { return [], if m.refusal.Some? then CursorInFuture(m.refusal.value) else Interrupted; }
    if after < log.pruned { return [], if m.refusal.Some? then CursorTooOld(m.refusal.value) else Interrupted; }
    var cursor, ok;
    dispatched, cursor, ok := DispatchRetained(log, after, m);
    FirstStopAt(BatchStops(m), |dispatched|, |Replayed(log, after)|);
    ack := if ok then Acknowledge(log.latest, cursor) else Interrupted;
  }

  /** Where one replay stops at every row the other stops at, it comes to its stop no later. */
  lemma {:induction false} StopsNoLater(early: nat -> bool, late: nat -> bool, end: nat)
    requires forall k: nat :: k < end && late(k) ==> early(k)
    ensures FirstStop(early, 0, end) <= FirstStop(late, 0, end)
  {
    assert FirstStop(late, 0, end) < end ==> early(FirstStop(late, 0, end));
  }

  /**
   The branches on the same log, with the same things happening: the one-query branch dispatches a prefix of what the
   batched one does, and while health holds they dispatch and answer the same.
   */
  lemma {:induction false} BranchesAgree(
      log: Log, after: nat, m: Meanwhile, window: seq<Record>, windowAck: ResumeAck, batched: seq<Record>, batchedAck: ResumeAck)
    requires Replays(log, after, m, WindowStops(m), false, window, windowAck)
    requires Replays(log, after, m, BatchStops(m), LostAtTheEnd(log, after, m), batched, batchedAck)
    ensures window <= batched
    ensures (forall k: nat :: m.healthyAt(k)) ==> window == batched && windowAck == batchedAck
  {
    var end := |Replayed(log, after)|;
    StopsNoLater(WindowStops(m), BatchStops(m), end);
    if forall k: nat :: m.healthyAt(k) { StopsNoLater(BatchStops(m), WindowStops(m), end); }
  }

  lemma {:induction false} FirstStopAt(stops: nat -> bool, k: nat, end: nat)
    requires k <= end && (forall j :: 0 <= j < k ==> !stops(j)) && (k < end ==> stops(k))
    ensures FirstStop(stops, 0, end) == k
  {
  }

  /** What was dispatched of a batch goes on where the batches before it ended, inside the replay limit. */
  lemma {:induction false} BatchExtends(log: Log, after: nat, done: seq<Record>, batch: seq<Record>, rows: seq<Record>)
    requires batch <= rows && done + rows <= After(log.records, after) && |done| + |rows| <= MAX_REPLAY_EVENTS
    ensures done + batch <= After(log.records, after) && done + batch <= Replayed(log, after)
    ensures |batch| < |rows| ==> |done + batch| < |Replayed(log, after)|
    ensures Reached(after, done + batch) == Reached(Reached(after, done), batch)
  {
    var all := After(log.records, after);
    var k := |done| + |batch|;
    assert done + batch == (done + rows)[..k] == all[..k];
    assert Replayed(log, after)[..k] == all[..k];
  }

  /** A batch that ends at or below the watermark is dispatched whole. */
  lemma {:induction false} WholeBatch(batch: seq<Record>, rows: seq<Record>, through: nat)
    requires batch <= rows && (|batch| < |rows| ==> through < rows[|batch|].sequence)
    requires forall r :: r in rows ==> r.sequence <= through
    ensures batch == rows
  {
  }

  lemma {:induction false} NothingAbove(log: Log, sequence: nat)
    requires Valid(log) && log.latest <= sequence
    ensures After(log.records, sequence) == []
  {
    var cut := AfterIsSuffix(log.records, sequence);
    assert forall i :: 0 <= i < |log.records| ==> log.records[i] in log.records && log.records[i].sequence <= log.latest;
  }

  /** The cut of the log behind a row of it lies right behind that row. */
  lemma {:induction false} CutBehindRow(rs: seq<Record>, last: nat)
    requires Ascending(rs) && last < |rs|
    ensures After(rs, rs[last].sequence) == rs[last + 1..]
  {
    var cut := AfterIsSuffix(rs, rs[last].sequence);
    assert last < cut;
    assert cut == last + 1;
  }

  lemma {:induction false} PrefixReached(rs: seq<Record>, after: nat, done: seq<Record>)
    requires Ascending(rs) && done <= After(rs, after) && done != []
    ensures After(rs, Reached(after, done)) == After(rs, after)[|done|..]
    ensures after < Reached(after, done) && done[|done| - 1] in After(rs, after)
  {
    var cut := AfterIsSuffix(rs, after);
    var last := cut + |done| - 1;
    assert rs[last] == rs[cut..][|done| - 1] == done[|done| - 1];
    CutBehindRow(rs, last);
    assert rs[cut..][|done|..] == rs[last + 1..];
  }

  /** Reading on from the last row dispatched yields the next rows, and nothing twice. */
  lemma {:induction false} AfterReached(log: Log, after: nat, done: seq<Record>)
    requires Valid(log) && done <= After(log.records, after)
    ensures After(log.records, Reached(after, done)) == After(log.records, after)[|done|..]
    ensures after <= Reached(after, done) && (done != [] ==> after < Reached(after, done) <= log.latest)
  {
    if done != [] {
      PrefixReached(log.records, after, done);
      RowsAreStored(log, after, [done[|done| - 1]]);
    }
  }

  /** Rows above a cursor are stored rows, at or below the latest sequence. */
  lemma {:induction false} RowsAreStored(log: Log, after: nat, rows: seq<Record>)
    requires Valid(log) && forall r :: r in rows ==> r in After(log.records, after)
    ensures forall r :: r in rows ==> r.sequence <= log.latest
  {
    var cut := AfterIsSuffix(log.records, after);
    forall r | r in rows ensures r.sequence <= log.latest {
      assert r in log.records[cut..];
      assert r in log.records;
    }
  }

  /** What the next read of the loop answers: the rows after those dispatched, all at or below the watermark. */
  lemma {:induction false} ReadsOnFrom(log: Log, after: nat, done: seq<Record>, limit: nat)
    requires Valid(log) && log.pruned <= after && done <= After(log.records, after)
    ensures var read := ReadAfter(log, Reached(after, done), limit);
            && read == Rows(FirstN(After(log.records, after)[|done|..], limit))
            && done + read.records <= After(log.records, after)
            && forall r :: r in read.records ==> r.sequence <= log.latest
  {
    AfterReached(log, after, done);
    var all := After(log.records, after);
    var rows := FirstN(all[|done|..], limit);
    assert done + rows == all[..|done| + |rows|];
    RowsAreStored(log, after, rows);
  }

  /** The batched loop stops only at the limit or when nothing above its cursor is left. */
  lemma {:induction false} NothingLeft(log: Log, after: nat, done: seq<Record>)
    requires Valid(log) && done <= After(log.records, after) && |done| <= MAX_REPLAY_EVENTS
    requires |done| == MAX_REPLAY_EVENTS || done == After(log.records, after) || log.latest <= Reached(after, done)
    ensures done == Replayed(log, after)
  {
    AfterReached(log, after, done);
    if log.latest <= Reached(after, done) {
      NothingAbove(log, Reached(after, done));
    }
  }

  // ---------------------------------------------------------------- a client that resumes until it is caught up

  /** The answer to a resume inside the retained history. */
  function Resume(log: Log, after: nat): ResumeAck {
    Acknowledge(log.latest, Reached(after, Replayed(log, after)))
  }

  lemma {:induction false} LastRowIsLatest(log: Log, after: nat)
    requires Valid(log) && Anchored(log) && log.pruned <= after < log.latest
    ensures After(log.records, after) != [] && Reached(after, After(log.records, after)) == log.latest
  {
    var cut := AfterIsSuffix(log.records, after);
    var last := |log.records| - 1;
    assert cut <= last;
    assert log.records[cut..][last - cut] == log.records[last];
  }

  /** A truncated resume of an anchored log has moved the client forward by a full window; any other is complete. */
  lemma {:induction false} TruncatedMeansProgress(log: Log, after: nat)
    requires Valid(log) && Anchored(log) && log.pruned <= after <= log.latest
    ensures after <= Resume(log, after).lastSequence <= log.latest
    ensures Resume(log, after).truncated ==>
              && after < Resume(log, after).lastSequence
              && After(log.records, Resume(log, after).lastSequence) == After(log.records, after)[|Replayed(log, after)|..]
    ensures !Resume(log, after).truncated ==> Replayed(log, after) == After(log.records, after)
  {
    var rows := Replayed(log, after);
    AfterReached(log, after, rows);
    if log.latest <= Reached(after, rows) {
      NothingLeft(log, after, rows);
      NothingAbove(log, Reached(after, rows));
    } else {
      LastRowIsLatest(log, after);
    }
  }

  /** Every row a client sees that resumes from the returned sequence until the answer is no longer truncated. */
  ghost function ResumeAll(log: Log, after: nat): seq<Record>
    requires Valid(log) && Anchored(log) && log.pruned <= after <= log.latest
    decreases log.latest - after
  {
    TruncatedMeansProgress(log, after);
    Replayed(log, after) + (if Resume(log, after).truncated then ResumeAll(log, Resume(log, after).lastSequence) else [])
  }

  lemma {:induction false} ResumingAll(log: Log, after: nat)
    requires Valid(log) && Anchored(log) && log.pruned <= after <= log.latest
    ensures ResumeAll(log, after) == After(log.records, after)
    decreases log.latest - after
  {
    TruncatedMeansProgress(log, after);
    if Resume(log, after).truncated {
      ResumingAll(log, Resume(log, after).lastSequence);
    }
  }

  // ---------------------------------------------------------------- the logs that can arise

  lemma {:induction false} StepStaysAnchored(s: State, a: Action)
    requires Anchored(s.log)
    ensures Anchored(Apply(s, a).log)
  {
    if a.Publish? {
      AppendAnchors(s.log, a.eventId, a.streamId, a.targets);
    } else if !a.PoisonRemediated? && !a.Prune? {
      OthersKeepLog(s, a);
    }
  }

  lemma {:induction false} AppendAnchors(log: Log, eventId: string, streamId: string, targets: seq<Target>)
    ensures Anchored(Append(log, eventId, streamId, targets))
  {
  }

  /** However the log has been published to, remediated and pruned, its latest sequence is a stored row or the pruned mark. */
  lemma {:induction false} LogsStayAnchored(s: State, actions: seq<Action>)
    requires Anchored(s.log)
    ensures Anchored(Run(s, actions).log)
    decreases |actions|
  {
    if actions != [] {
      StepStaysAnchored(s, actions[0]);
      LogsStayAnchored(Apply(s, actions[0]), actions[1..]);
    }
  }

  /**
   On the log of every reachable state, resuming from the returned sequence terminates and visits exactly the stored
   records above the first cursor, once each, in order; no resume is told to come back for more from where it stands.
   */
  lemma {:induction false} ResumingVisitsEverything(s: State, actions: seq<Action>, after: nat)
    requires Init(s)
    requires var log := Run(s, actions).log; log.pruned <= after <= log.latest
    ensures var log := Run(s, actions).log;
            && Valid(log) && Anchored(log)
            && ResumeAll(log, after) == After(log.records, after)
            && Resume(log, after) != Resumed(after, true)
  {
    InitHasInv(s);
    RunKeepsInv(s, actions);
    LogsStayAnchored(s, actions);
    ResumingAll(Run(s, actions).log, after);
    TruncatedMeansProgress(Run(s, actions).log, after);
  }

  /** Exactly when a resume makes no progress: nothing is stored above the cursor, yet the latest sequence lies there. */
  lemma {:induction false} StuckExactlyWhen(log: Log, after: nat)
    requires Valid(log) && log.pruned <= after <= log.latest
    ensures Resume(log, after) == Resumed(after, true) <==> After(log.records, after) == [] && after < log.latest
  {
    AfterReached(log, after, Replayed(log, after));
  }
}
