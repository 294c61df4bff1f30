/** The validated read of the latest sequence: it walks the retained rows and declares a damaged range gone. */
module RealtimeValidation {
  import opened Options
  import opened RealtimeLog
  import opened RealtimeModel
  import opened RealtimeSafety
  import opened RealtimeFrames

  type Poison = Record -> bool

  /** Every row can be read. */
  const READABLE: Poison := (r: Record) => false

  /** A readable row with this sequence is stored. */
  ghost predicate Holds(log: Log, poisoned: Poison, q: nat) {
    exists r :: r in log.records && r.sequence == q && !poisoned(r)
  }

  /** No number between the pruned mark and the latest sequence is missing, and every row there can be read. */
  ghost predicate Sound(log: Log, poisoned: Poison) {
    forall q :: log.pruned < q <= log.latest ==> Holds(log, poisoned, q)
  }

  lemma {:induction false} NoRowsLeft(log: Log, poisoned: Poison, cursor: nat)
    requires Valid(log) && log.pruned <= cursor < log.latest && After(log.records, cursor) == []
    ensures !Sound(log, poisoned)
  {
    var cut := AfterIsSuffix(log.records, cursor);
    assert !Holds(log, poisoned, cursor + 1);
  }

  /** The rows of one read, and where the walk stands in them. */
  ghost predicate Walking(log: Log, from: nat, rows: seq<Record>, i: nat, cursor: nat) {
    && Valid(log) && log.pruned <= from && ReadAfter(log, from, EVENT_READ_BATCH) == Rows(rows) && i <= |rows|
    && cursor == if i == 0 then from else rows[i - 1].sequence
  }

  /** The next row is the next stored record. */
  lemma {:induction false} NothingBetween(log: Log, from: nat, rows: seq<Record>, i: nat, cursor: nat, r: Record)
    requires Walking(log, from, rows, i, cursor) && i < |rows| && r in log.records && cursor < r.sequence
    ensures rows[i].sequence <= r.sequence
  {
    ReadRows(log, from, EVENT_READ_BATCH);
    if r.sequence <= rows[i].sequence {
      assert from <= cursor;
      ReadIsContiguous(log, from, EVENT_READ_BATCH, r, i);
      var j :| 0 <= j <= i && rows[j] == r;
      assert j == i;
    }
  }

  lemma {:induction false} GapIsUnsound(log: Log, poisoned: Poison, from: nat, rows: seq<Record>, i: nat, cursor: nat)
    requires Walking(log, from, rows, i, cursor) && i < |rows| && rows[i].sequence != cursor + 1
    ensures !Sound(log, poisoned)
  {
    ReadRows(log, from, EVENT_READ_BATCH);
    assert rows[i] in log.records && cursor < rows[i].sequence && from <= cursor;
    if Holds(log, poisoned, cursor + 1) {
      var r :| r in log.records && r.sequence == cursor + 1 && !poisoned(r);
      NothingBetween(log, from, rows, i, cursor, r);
    }
  }

  lemma {:induction false} PoisonIsUnsound(log: Log, poisoned: Poison, r: Record)
    requires Valid(log) && r in log.records && log.pruned < r.sequence && poisoned(r)
    ensures !Sound(log, poisoned)
  {
    if Holds(log, poisoned, r.sequence) {
      var other :| other in log.records && other.sequence == r.sequence && !poisoned(other);
      SequenceIdentifies(log, r, other);
    }
  }

  /** Walks the rows of one read, down to the first gap or unreadable row. */
  method WalkRows(log: Log, poisoned: Poison, from: nat, rows: seq<Record>) returns (cursor: nat, ok: bool)
    requires Walking(log, from, rows, 0, from) && from <= log.latest
    requires forall q :: log.pruned < q <= from ==> Holds(log, poisoned, q)
    ensures from <= cursor <= log.latest && (ok && rows != [] ==> from < cursor)
    ensures forall q :: log.pruned < q <= cursor ==> Holds(log, poisoned, q)
    ensures !ok ==> !Sound(log, poisoned)
  {
    cursor := from;
    ReadRows(log, from, EVENT_READ_BATCH);
    for i := 0 to |rows|
      invariant Walking(log, from, rows, i, cursor) && from <= cursor <= log.latest && (0 < i ==> from < cursor)
      invariant forall q :: log.pruned < q <= cursor ==> Holds(log, poisoned, q)
    {
      if rows[i].sequence != cursor + 1 {
        GapIsUnsound(log, poisoned, from, rows, i, cursor);
        return cursor, false;
      }
      if poisoned(rows[i]) {
        PoisonIsUnsound(log, poisoned, rows[i]);
        return cursor, false;
      }
      cursor := rows[i].sequence;
    }
    ok := true;
  }

  /** Walks the retained range read by read; the first gap or unreadable row puts a barrier above everything. */
  method ValidatedLatestSequence(log: Log, poisoned: Poison) returns (after: Log, barrier: nat)
    requires Valid(log)
    ensures after == Validated(log, poisoned) && barrier == after.latest
  {
    var cursor: nat := log.pruned;
    while cursor < log.latest
      invariant log.pruned <= cursor <= log.latest
      invariant forall q :: log.pruned < q <= cursor ==> Holds(log, poisoned, q)
    {
      var rows := ReadAfter(log, cursor, EVENT_READ_BATCH).records;
      if rows == [] {
        NoRowsLeft(log, poisoned, cursor);
        return ForceBarrier(log), log.latest + 1;
      }
      var ok;
      cursor, ok := WalkRows(log, poisoned, cursor, rows);
      if !ok { return ForceBarrier(log), log.latest + 1; }
    }
    after, barrier := log, log.latest;
  }

  /** What the validated read leaves behind. */
  ghost function Validated(log: Log, poisoned: Poison): Log {
    if Sound(log, poisoned) then log else ForceBarrier(log)
  }

  lemma {:induction false} LastIsLatest(log: Log, poisoned: Poison)
    requires Valid(log) && Sound(log, poisoned)
    ensures Anchored(log)
  {
    if log.pruned < log.latest {
      assert Holds(log, poisoned, log.latest);
      var k :| 0 <= k < |log.records| && log.records[k].sequence == log.latest;
      assert log.records[|log.records| - 1] in log.records;
      LowerIsEarlier(log.records, |log.records| - 1, k);
    }
  }

  /** Whatever was damaged before, the log is whole afterwards, nothing was lost from it, and another read changes nothing. */
  lemma {:induction false} ValidationRepairs(log: Log, poisoned: Poison)
    requires Valid(log)
    ensures var after := Validated(log, poisoned);
            && Valid(after) && Anchored(after) && Sound(after, poisoned) && LogGrows(log, after)
            && Validated(after, poisoned) == after
            && (after != log ==> forall r :: r in log.records ==> r.sequence < after.pruned == after.latest)
  {
    if Sound(log, poisoned) { LastIsLatest(log, poisoned); }
  }

  /** The barrier read of a full resync is this read: an intact log is read as it is, a damaged one remediated first. */
  lemma {:induction false} BarrierReadValidates(s: State, poisoned: Poison)
    requires s.resync == AwaitBarrier(None)
    ensures var after := Validated(s.log, poisoned);
            BarrierReadStep(if Sound(s.log, poisoned) then s else Apply(s, PoisonRemediated), true)
            == s.(log := after, resync := AwaitBarrier(Some(Latest(after.latest))))
  {
  }

  /** Sequences are handed out without gaps: on a run from a log without one, the repair is due to unreadable rows only. */
  lemma {:induction false} LogsStayGapless(s: State, actions: seq<Action>)
    requires Sound(s.log, READABLE)
    ensures Sound(Run(s, actions).log, READABLE)
    decreases |actions|
  {
    if actions != [] {
      StepStaysGapless(s, actions[0]);
      LogsStayGapless(Apply(s, actions[0]), actions[1..]);
    }
  }

  lemma {:induction false} StepStaysGapless(s: State, a: Action)
    requires Sound(s.log, READABLE)
    ensures Sound(Apply(s, a).log, READABLE)
  {
    if a.Publish? {
      AppendIsGapless(s.log, a.eventId, a.streamId, a.targets);
    } else if a.Prune? {
      if s.log.pruned <= a.through <= s.log.latest { PruneIsGapless(s.log, a.through); }
    } else if !a.PoisonRemediated? {
      OthersKeepLog(s, a);
    }
  }

  lemma {:induction false} PruneIsGapless(log: Log, through: nat)
    requires Sound(log, READABLE) && log.pruned <= through <= log.latest
    ensures Sound(log.(pruned := through), READABLE)
  {
    forall q | through < q <= log.latest ensures Holds(log.(pruned := through), READABLE, q) {
      assert Holds(log, READABLE, q);
    }
  }

  lemma {:induction false} AppendIsGapless(log: Log, eventId: string, streamId: string, targets: seq<Target>)
    requires Sound(log, READABLE)
    ensures Sound(Append(log, eventId, streamId, targets), READABLE)
  {
    var next := Append(log, eventId, streamId, targets);
    forall q | next.pruned < q <= next.latest ensures Holds(next, READABLE, q) {
      if q == next.latest {
        assert next.records[|log.records|] in next.records;
      } else {
        assert Holds(log, READABLE, q);
      }
    }
  }
}
