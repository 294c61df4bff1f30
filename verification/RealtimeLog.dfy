/** The durable ordered log the realtime runtime reads: what the control plane promises its readers. */
module RealtimeLog {

  /** A stored target after canonicalisation: the room it names, or a shape no policy accepts. */
  datatype Target = Room(name: string) | Malformed

  datatype Record = Record(sequence: nat, eventId: string, streamId: string, targets: seq<Target>)

  /** `records` is everything ever stored; rows at or below `pruned` are no longer readable. */
  datatype Log = Log(records: seq<Record>, latest: nat, pruned: nat)

  /** What a read answers: an error, a cursor below the retained history, or rows in ascending order. */
  datatype Read = Unavailable | TooOld | Rows(records: seq<Record>)

  const EVENT_READ_BATCH: nat := 500

  ghost predicate Ascending(rs: seq<Record>) {
    forall i, j :: 0 <= i < j < |rs| ==> rs[i].sequence < rs[j].sequence
  }

  /** Sequences rise in commit order and an event id is stored once. */
  ghost predicate Valid(log: Log) {
    && Ascending(log.records)
    && (forall r :: r in log.records ==> 0 < r.sequence <= log.latest)
    && (forall r, q :: r in log.records && q in log.records && r.eventId == q.eventId ==> r == q)
    && log.pruned <= log.latest
  }

  /** The latest sequence is a stored record or the pruned mark: nothing is missing between the last row and it. */
  ghost predicate Anchored(log: Log) {
    log.latest == log.pruned || (log.records != [] && log.records[|log.records| - 1].sequence == log.latest)
  }

  /** The records above a sequence. */
  function After(rs: seq<Record>, sequence: nat): seq<Record> {
    if rs != [] && rs[0].sequence <= sequence then After(rs[1..], sequence) else rs
  }

  function FirstN(rs: seq<Record>, n: nat): seq<Record> {
    if n <= |rs| then rs[..n] else rs
  }

  function ReadAfter(log: Log, sequence: nat, limit: nat): Read {
    if sequence < log.pruned then TooOld else Rows(FirstN(After(log.records, sequence), limit))
  }

  function Append(log: Log, eventId: string, streamId: string, targets: seq<Target>): Log {
    log.(records := log.records + [Record(log.latest + 1, eventId, streamId, targets)], latest := log.latest + 1)
  }

  /** A poisoned row is replaced by a number nobody stored, and everything up to it is declared gone. */
  function ForceBarrier(log: Log): Log {
    log.(latest := log.latest + 1, pruned := log.latest + 1)
  }

  lemma {:induction false} AppendKeepsValid(log: Log, eventId: string, streamId: string, targets: seq<Target>)
    requires Valid(log)
    requires forall r :: r in log.records ==> r.eventId != eventId
    ensures Valid(Append(log, eventId, streamId, targets))
  {
    var next := Append(log, eventId, streamId, targets);
    forall i, j | 0 <= i < j < |next.records|
      ensures next.records[i].sequence < next.records[j].sequence
    {
      assert next.records[i] in log.records;
    }
  }

  /** The records above a sequence are a suffix of the log, cut exactly where sequences pass it. */
  lemma {:induction false} AfterIsSuffix(rs: seq<Record>, sequence: nat) returns (cut: nat)
    requires Ascending(rs)
    ensures cut <= |rs| && After(rs, sequence) == rs[cut..]
    ensures forall i :: 0 <= i < cut ==> rs[i].sequence <= sequence
    ensures forall i :: cut <= i < |rs| ==> sequence < rs[i].sequence
    ensures cut < |rs| ==> sequence < rs[cut].sequence
    ensures 0 < cut ==> rs[cut - 1].sequence <= sequence
  {
    if rs != [] && rs[0].sequence <= sequence {
      var inner := AfterIsSuffix(rs[1..], sequence);
      cut := inner + 1;
      forall i | 0 <= i < cut ensures rs[i].sequence <= sequence {
        if 0 < i { assert rs[i] == rs[1..][i - 1]; }
      }
      forall i | cut <= i < |rs| ensures sequence < rs[i].sequence {
        assert rs[i] == rs[1..][i - 1];
      }
    } else {
      cut := 0;
    }
  }

  lemma {:induction false} LowerIsEarlier(rs: seq<Record>, i: nat, j: nat)
    requires Ascending(rs) && i < |rs| && j < |rs|
    requires rs[i].sequence <= rs[j].sequence
    ensures i <= j
  {
  }

  /** The rows of a read are a stretch of the log, beginning right behind the cursor. */
  lemma {:induction false} RowsAreAStretch(log: Log, sequence: nat, limit: nat, rows: seq<Record>) returns (cut: nat)
    requires Valid(log) && ReadAfter(log, sequence, limit) == Rows(rows)
    ensures cut + |rows| <= |log.records| && rows == log.records[cut..cut + |rows|]
    ensures |rows| == limit || (|rows| < limit && cut + |rows| == |log.records|)
    ensures forall i :: 0 <= i < cut ==> log.records[i].sequence <= sequence
    ensures forall i :: cut <= i < |log.records| ==> sequence < log.records[i].sequence
  {
    cut := AfterIsSuffix(log.records, sequence);
  }

  /** The place of a stored record above the cursor in the stretch, when it is not behind its last row. */
  lemma {:induction false} PlaceInStretch(rs: seq<Record>, sequence: nat, cut: nat, end: nat, r: Record) returns (m: nat)
    requires Ascending(rs) && cut < end <= |rs| && r in rs && sequence < r.sequence <= rs[end - 1].sequence
    requires forall i :: 0 <= i < cut ==> rs[i].sequence <= sequence
    ensures m < end - cut && rs[cut + m] == r
  {
    var k :| 0 <= k < |rs| && rs[k] == r;
    LowerIsEarlier(rs, k, end - 1);
    m := k - cut;
  }

  /** A read leaves no hole: every stored record between the cursor and a row it returned is among the rows. */
  lemma {:induction false} ReadIsContiguous(log: Log, sequence: nat, limit: nat, r: Record, i: nat)
    requires Valid(log) && ReadAfter(log, sequence, limit).Rows?
    requires r in log.records && i < |ReadAfter(log, sequence, limit).records|
    requires sequence < r.sequence <= ReadAfter(log, sequence, limit).records[i].sequence
    ensures r in ReadAfter(log, sequence, limit).records[..i + 1]
  {
    var rows := ReadAfter(log, sequence, limit).records;
    var cut := RowsAreAStretch(log, sequence, limit, rows);
    assert rows[i] == log.records[cut + i];
    var m := PlaceInStretch(log.records, sequence, cut, cut + i + 1, r);
    assert rows[..i + 1][m] == log.records[cut + m];
  }

  /** The rows of a read: stored, above the cursor, ascending, at most the limit. */
  lemma {:induction false} ReadRows(log: Log, sequence: nat, limit: nat)
    requires Valid(log) && ReadAfter(log, sequence, limit).Rows?
    ensures var rows := ReadAfter(log, sequence, limit).records;
            && Ascending(rows) && |rows| <= limit
            && (forall i :: 0 <= i < |rows| ==> rows[i] in log.records && sequence < rows[i].sequence)
  {
    var rows := ReadAfter(log, sequence, limit).records;
    var cut := RowsAreAStretch(log, sequence, limit, rows);
    assert forall i :: 0 <= i < |rows| ==> rows[i] == log.records[cut + i];
  }
}
