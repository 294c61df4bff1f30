/** Scans of labels, online or collected offline: decided once, recorded under their event id, replayed ever after. */
module LabelScans {
  import opened JsText
  import opened LabelRegistry
  import opened Options

  type EventId = string

  datatype Device = Keyboard | Camera | Manual | Offline

  /** A reading as the terminal sends it; `scannedAt` counts milliseconds. */
  datatype Reading = Reading(
    eventId: EventId, code: string, source: Device, flow: Flow, expected: seq<EntityType>, scannedAt: int,
    deviceId: Option<string>)

  datatype Verdict =
    | Resolved | Unknown | NoLongerActive | WrongEntityType | ForbiddenStatus | InsufficientPermission | InvalidPayload
    | EntityNotFound | StaleOfflineEvent | FutureTimestamp

  datatype Finding = Finding(verdict: Verdict, labelId: Option<LabelId>, entity: Option<EntityKey>)

  /** What identifies a reading when its event id comes back. */
  datatype Identity = Identity(
    actor: nat, payload: string, flow: Flow, source: Device, scannedAt: int, expected: seq<EntityType>, deviceId: Option<string>)

  datatype Stored = Stored(identity: Identity, finding: Finding)

  datatype Answer = Answered(finding: Finding, replay: bool) | EventIdReused

  /** What a decision looks at: the registry, the reading rights, and the clock. */
  datatype World = World(registry: Registry, readers: set<(nat, EntityType)>, now: int)

  const MAX_FUTURE: int := 5 * 60000
  const MAX_AGE: int := 7 * 24 * 60 * 60000
  const PREFIX := "CERP:1:"

  function IdentityOf(r: Reading, actor: nat): Identity {
    Identity(actor, Trim(r.code), r.flow, r.source, r.scannedAt, r.expected, r.deviceId)
  }

  // ---------------------------------------------------------------- payloads

  function UpperAscii(s: string): (t: string)
    ensures |t| == |s|
  {
    seq(|s|, i requires 0 <= i < |s| => if 'a' <= s[i] <= 'z' then (s[i] as int - 'a' as int + 'A' as int) as char else s[i])
  }

  function BuildPayload(publicId: string): Option<string> {
    if IsUuid(publicId) then Some(PREFIX + Lower(publicId)) else None
  }

  function ParsePayload(raw: string): Option<string> {
    var code := Trim(raw);
    if |code| == |PREFIX| + 36 && UpperAscii(code[..|PREFIX|]) == PREFIX && IsUuid(code[|PREFIX|..])
    then Some(Lower(code[|PREFIX|..])) else None
  }

  /** A printed payload is read back as the public identifier in lower case. */
  lemma {:induction false} PayloadRoundTrip(publicId: string)
    requires IsUuid(publicId)
    ensures BuildPayload(publicId).Some? && ParsePayload(BuildPayload(publicId).value) == Some(Lower(publicId))
  {
    var id := Lower(publicId);
    var code := PREFIX + id;
    LowerIsUuid(publicId);
    VisibleEnds(code);
    assert code[..|PREFIX|] == PREFIX && code[|PREFIX|..] == id;
    assert UpperAscii(PREFIX) == PREFIX;
  }

  lemma {:induction false} LowerIsUuid(s: string)
    requires IsUuid(s)
    ensures IsUuid(Lower(s)) && Lower(Lower(s)) == Lower(s) && !IsSpace(Lower(s)[35])
  {
    var id := Lower(s);
    assert forall i :: 0 <= i < 36 ==> id[i] == LowerChar(s[i]) && LowerChar(id[i]) == id[i];
    assert Lower(id) == id;
  }

  lemma {:induction false} VisibleEnds(s: string)
    requires s != "" && !IsSpace(s[0]) && !IsSpace(s[|s| - 1])
    ensures Trim(s) == s
  {
    assert TrimStart(s) == s;
  }

  // ---------------------------------------------------------------- deciding

  /** `found` is what a search for the public identifier in the code finds. */
  ghost predicate Finds(labels: map<LabelId, Label>, code: string, found: Option<LabelId>) {
    var publicId := ParsePayload(code);
    publicId.Some? ==>
      if found.Some? then found.value in labels && labels[found.value].publicId == publicId.value
      else forall id :: id in labels ==> labels[id].publicId != publicId.value
  }

  function DecideLabel(w: World, r: Reading, actor: nat, id: LabelId): Finding
    requires id in w.registry.labels
  {
    var row := w.registry.labels[id];
    var about := (verdict: Verdict) => Finding(verdict, Some(id), Some(row.entity));
    if !row.status.Active? then about(NoLongerActive)
    else if !FlowAccepts(r.flow, row.entity.entityType) || (r.expected != [] && row.entity.entityType !in r.expected)
    then about(WrongEntityType)
    else if (actor, row.entity.entityType) !in w.readers then about(InsufficientPermission)
    else
      var entity := FindEntity(w.registry.entities, row.entity.entityType, row.entity.entityId);
      if entity.None? then about(EntityNotFound)
      else if r.flow in w.registry.entities[entity.value].barred then about(ForbiddenStatus)
      else about(Resolved)
  }

  predicate FlowAccepts(flow: Flow, t: EntityType) {
    match flow
    case Receive => t in {PurchaseOrder, Reception, StockArticle, StockLot}
    case Putaway => t in {StockArticle, StockLot, StockLocation, Reception}
    case Transfer => t in {StockArticle, StockLot, StockLocation}
    case Consume => t in {StockArticle, StockLot, WorkOrder}
    case StartWorkOrder => t == WorkOrder
    case QualityCheck => t in {QualityControl, StockLot, WorkOrder, Reception}
    case ToolIssue => t in {Tool, WorkOrder}
    case ToolReturn => t in {Tool, WorkOrder}
    case Ship => t in {Delivery, StockLot}
    case Traceability => true
  }

  /** What a reading means in a world, when the label it names is `found`. */
  function Decide(w: World, r: Reading, actor: nat, found: Option<LabelId>): Finding
    requires Finds(w.registry.labels, r.code, found)
  {
    if w.now - r.scannedAt < -MAX_FUTURE then Finding(FutureTimestamp, None, None)
    else if w.now - r.scannedAt > MAX_AGE then Finding(StaleOfflineEvent, None, None)
    else if ParsePayload(r.code).None? then Finding(InvalidPayload, None, None)
    else if found.None? then Finding(Unknown, None, None)
    else DecideLabel(w, r, actor, found.value)
  }

  // ---------------------------------------------------------------- recording

  /** A reading as far as recording is concerned. */
  datatype Attempt = Attempt(eventId: EventId, identity: Identity)

  function AttemptOf(r: Reading, actor: nat): Attempt { Attempt(r.eventId, IdentityOf(r, actor)) }

  /** The insert that may find the event id taken meanwhile; then the stored event answers. */
  function Record(scans: map<EventId, Stored>, a: Attempt, finding: Finding): (map<EventId, Stored>, Answer) {
    if a.eventId in scans then
      (scans, if scans[a.eventId].identity == a.identity then Answered(scans[a.eventId].finding, true) else EventIdReused)
    else (scans[a.eventId := Stored(a.identity, finding)], Answered(finding, false))
  }

  /** An attempt with the finding that recording it now would store. */
  datatype Filing = Filing(attempt: Attempt, finding: Finding)

  function File(scans: map<EventId, Stored>, f: Filing): (map<EventId, Stored>, Answer) {
    Record(scans, f.attempt, f.finding)
  }

  /** Attempts recorded one after the other. */
  function FileAll(scans: map<EventId, Stored>, fs: seq<Filing>): (map<EventId, Stored>, seq<Answer>) {
    if fs == [] then (scans, [])
    else
      var n := |fs| - 1;
      var before := FileAll(scans, fs[..n]);
      var last := File(before.0, fs[n]);
      (last.0, before.1 + [last.1])
  }

  // ---------------------------------------------------------------- what recording answers over a whole run

  lemma {:induction false} OneFilingMore(scans: map<EventId, Stored>, fs: seq<Filing>, n: nat)
    requires n < |fs|
    ensures var before := FileAll(scans, fs[..n]);
            FileAll(scans, fs[..n + 1]) == (File(before.0, fs[n]).0, before.1 + [File(before.0, fs[n]).1])
  {
    assert fs[..n + 1][..n] == fs[..n];
  }

  lemma {:induction false} AnswersStay(scans: map<EventId, Stored>, fs: seq<Filing>, n: nat, m: nat)
    requires n <= m <= |fs|
    ensures |FileAll(scans, fs[..m]).1| == m && FileAll(scans, fs[..n]).1 == FileAll(scans, fs[..m]).1[..n]
    decreases m
  {
    if 0 < m {
      OneFilingMore(scans, fs, m - 1);
      if n < m {
        AnswersStay(scans, fs, n, m - 1);
      } else {
        AnswersStay(scans, fs, m - 1, m - 1);
      }
    }
  }

  /** No filing before `i` has its event id, and none was stored at the start. */
  ghost predicate IsFirst(scans: map<EventId, Stored>, fs: seq<Filing>, i: nat) {
    && i < |fs| && fs[i].attempt.eventId !in scans
    && forall k :: 0 <= k < i ==> fs[k].attempt.eventId != fs[i].attempt.eventId
  }

  lemma {:induction false} NotStoredYet(scans: map<EventId, Stored>, fs: seq<Filing>, n: nat, e: EventId)
    requires n <= |fs| && e !in scans && forall k :: 0 <= k < n ==> fs[k].attempt.eventId != e
    ensures e !in FileAll(scans, fs[..n]).0
  {
    if 0 < n {
      NotStoredYet(scans, fs, n - 1, e);
      OneFilingMore(scans, fs, n - 1);
    }
  }

  /** Once the first filing of an event id is recorded, what is stored under it never changes. */
  lemma {:induction false} StoredEver(scans: map<EventId, Stored>, fs: seq<Filing>, i: nat, n: nat)
    requires IsFirst(scans, fs, i) && i < n <= |fs|
    ensures var e := fs[i].attempt.eventId;
            && e in FileAll(scans, fs[..n]).0
            && FileAll(scans, fs[..n]).0[e] == Stored(fs[i].attempt.identity, fs[i].finding)
    decreases n
  {
    OneFilingMore(scans, fs, n - 1);
    if n == i + 1 { NotStoredYet(scans, fs, i, fs[i].attempt.eventId); } else { StoredEver(scans, fs, i, n - 1); }
  }

  /** The answer to a filing, given the first filing of its event id. */
  function AnswerTo(first: Filing, f: Filing, isFirst: bool): Answer {
    if isFirst then Answered(first.finding, false)
    else if f.attempt == first.attempt then Answered(first.finding, true)
    else EventIdReused
  }

  lemma {:induction false} LaterFiling(scans: map<EventId, Stored>, fs: seq<Filing>, i: nat, j: nat)
    requires IsFirst(scans, fs, i) && i < j < |fs| && fs[j].attempt.eventId == fs[i].attempt.eventId
    ensures File(FileAll(scans, fs[..j]).0, fs[j]) == (FileAll(scans, fs[..j]).0, AnswerTo(fs[i], fs[j], false))
  {
    StoredEver(scans, fs, i, j);
  }

  lemma {:induction false} FirstFiling(scans: map<EventId, Stored>, fs: seq<Filing>, i: nat)
    requires IsFirst(scans, fs, i)
    ensures File(FileAll(scans, fs[..i]).0, fs[i]).1 == AnswerTo(fs[i], fs[i], true)
  {
    NotStoredYet(scans, fs, i, fs[i].attempt.eventId);
  }

  lemma {:induction false} FilingIsAnswered(scans: map<EventId, Stored>, fs: seq<Filing>, i: nat, j: nat)
    requires IsFirst(scans, fs, i) && i <= j < |fs| && fs[j].attempt.eventId == fs[i].attempt.eventId
    ensures |FileAll(scans, fs).1| == |fs| && FileAll(scans, fs).1[j] == AnswerTo(fs[i], fs[j], i == j)
    ensures i < j ==> FileAll(scans, fs[..j + 1]).0 == FileAll(scans, fs[..j]).0
  {
    assert fs[..|fs|] == fs;
    AnswersStay(scans, fs, j, j);
    AnswersStay(scans, fs, j + 1, |fs|);
    OneFilingMore(scans, fs, j);
    if i < j { LaterFiling(scans, fs, i, j); } else { FirstFiling(scans, fs, i); }
  }

  function Mapped<X>(xs: seq<X>, filing: X --> Filing): (fs: seq<Filing>)
    requires forall i :: 0 <= i < |xs| ==> filing.requires(xs[i])
    ensures |fs| == |xs| && forall i :: 0 <= i < |xs| ==> fs[i] == filing(xs[i])
  {
    seq(|xs|, i requires 0 <= i < |xs| => filing(xs[i]))
  }

  // ---------------------------------------------------------------- runs of scans

  /** One scan, in the world it happens to meet; `found` is what the search for its label answers there. */
  datatype Scan = Scan(world: World, reading: Reading, actor: nat, found: Option<LabelId>)

  ghost predicate LooksUp(x: Scan) { Finds(x.world.registry.labels, x.reading.code, x.found) }

  ghost predicate AllLookUp(xs: seq<Scan>) {
    forall i :: 0 <= i < |xs| ==> LooksUp(xs[i])
  }

  function Id(x: Scan): EventId { x.reading.eventId }

  function Decided(x: Scan): Finding
    requires LooksUp(x)
  {
    Decide(x.world, x.reading, x.actor, x.found)
  }

  /** What a scan would store if its event id is new: the decision in the world it meets. */
  function FilingOf(x: Scan): Filing
    requires LooksUp(x)
  {
    Filing(AttemptOf(x.reading, x.actor), Decided(x))
  }

  function Filings(xs: seq<Scan>): seq<Filing>
    requires AllLookUp(xs)
  {
    Mapped(xs, FilingOf)
  }

  /**
   A run of scans, by any terminals, online or offline: the stored events after it, and all answers. Each scan is
   answered by the stored event if there is one, or else decided and recorded.
   */
  function ScanAll(scans: map<EventId, Stored>, xs: seq<Scan>): (map<EventId, Stored>, seq<Answer>)
    requires AllLookUp(xs)
  {
    FileAll(scans, Filings(xs))
  }

  /** Scan `i` is the first of its event id. */
  ghost predicate FirstScan(scans: map<EventId, Stored>, xs: seq<Scan>, i: nat) {
    i < |xs| && Id(xs[i]) !in scans && forall k :: 0 <= k < i ==> Id(xs[k]) != Id(xs[i])
  }

  predicate SameAttempt(x: Scan, y: Scan) { AttemptOf(x.reading, x.actor) == AttemptOf(y.reading, y.actor) }

  /**
   Over any run of scans, each event id is decided once, in the world its first scan met. That finding answers every
   later scan that is the same attempt, whatever the world has become; any other use of the id is refused.
   */
  lemma {:induction false} FirstFindingStands(scans: map<EventId, Stored>, xs: seq<Scan>, i: nat, j: nat)
    requires AllLookUp(xs) && FirstScan(scans, xs, i) && i <= j < |xs| && Id(xs[j]) == Id(xs[i])
    ensures |ScanAll(scans, xs).1| == |xs|
    ensures ScanAll(scans, xs).1[j]
            == if i == j then Answered(Decided(xs[i]), false)
               else if SameAttempt(xs[j], xs[i]) then Answered(Decided(xs[i]), true)
               else EventIdReused
  {
    var fs := Filings(xs);
    assert IsFirst(scans, fs, i);
    FilingIsAnswered(scans, fs, i, j);
  }

  // ---------------------------------------------------------------- what a resolved scan means

  /** The label is active, the flow accepts it, the actor may read it, and the status of its entity does not bar the flow. */
  predicate LabelPasses(w: World, r: Reading, actor: nat, id: LabelId)
    requires id in w.registry.labels
  {
    var row := w.registry.labels[id];
    && row.status.Active? && FlowAccepts(r.flow, row.entity.entityType)
    && (r.expected == [] || row.entity.entityType in r.expected)
    && (actor, row.entity.entityType) in w.readers
    && var entity := FindEntity(w.registry.entities, row.entity.entityType, row.entity.entityId);
       entity.Some? && r.flow !in w.registry.entities[entity.value].barred
  }

  lemma {:induction false} LabelResolved(w: World, r: Reading, actor: nat, id: LabelId)
    requires id in w.registry.labels
    ensures DecideLabel(w, r, actor, id).verdict.Resolved? <==> LabelPasses(w, r, actor, id)
  {
  }

  predicate InTime(w: World, r: Reading) { -MAX_FUTURE <= w.now - r.scannedAt <= MAX_AGE }

  /** Every check passes: the clock, the payload, and those on the label. */
  predicate Passes(w: World, r: Reading, actor: nat, found: Option<LabelId>) {
    && InTime(w, r) && ParsePayload(r.code).Some? && found.Some? && found.value in w.registry.labels
    && LabelPasses(w, r, actor, found.value)
  }

  lemma {:induction false} DecidedResolved(w: World, r: Reading, actor: nat, found: Option<LabelId>)
    requires Finds(w.registry.labels, r.code, found)
    ensures Decide(w, r, actor, found).verdict.Resolved? <==> Passes(w, r, actor, found)
  {
    if found.Some? && found.value in w.registry.labels { LabelResolved(w, r, actor, found.value); }
  }

  predicate PassesChecks(x: Scan) { Passes(x.world, x.reading, x.actor, x.found) }

  /**
   In any run, a scan is answered as resolved exactly when the first scan of its event id was the same attempt and
   passed every check in the world it met.
   */
  lemma {:induction false} ResolvedExactlyWhen(scans: map<EventId, Stored>, xs: seq<Scan>, i: nat, j: nat)
    requires AllLookUp(xs) && FirstScan(scans, xs, i) && i <= j < |xs| && Id(xs[j]) == Id(xs[i])
    ensures |ScanAll(scans, xs).1| == |xs|
    ensures var answer := ScanAll(scans, xs).1[j];
            answer.Answered? && answer.finding.verdict.Resolved? <==> SameAttempt(xs[j], xs[i]) && PassesChecks(xs[i])
  {
    FirstFindingStands(scans, xs, i, j);
    DecidedResolved(xs[i].world, xs[i].reading, xs[i].actor, xs[i].found);
  }

  // ---------------------------------------------------------------- an offline batch

  /** Every answer was given; none was refused because its event id belongs to another attempt. */
  ghost predicate AllAnswered(answers: seq<Answer>) {
    forall i :: 0 <= i < |answers| ==> answers[i].Answered?
  }

  function CountResolved(answers: seq<Answer>): nat {
    if answers == [] then 0
    else
      var last := answers[|answers| - 1];
      CountResolved(answers[..|answers| - 1]) + (if last.Answered? && last.finding.verdict.Resolved? then 1 else 0)
  }

  /** Readings resolved one after the other, each decided by `filing`, until one is refused. */
  method ResolveEach<X>(scans: map<EventId, Stored>, xs: seq<X>, filing: X --> Filing)
    returns (after: map<EventId, Stored>, results: seq<Answer>, resolved: nat, rejected: nat, ok: bool)
    requires forall i :: 0 <= i < |xs| ==> filing.requires(xs[i])
    ensures ok ==> (after, results) == FileAll(scans, Mapped(xs, filing)) && AllAnswered(results)
    ensures ok ==> resolved == CountResolved(results) && resolved + rejected == |xs|
    ensures !ok ==> |results| < |xs| && (after, results) == FileAll(scans, Mapped(xs, filing)[..|results|])
    ensures !ok ==> File(after, Mapped(xs, filing)[|results|]) == (after, EventIdReused)
  {
    after, results, resolved, rejected := scans, [], 0, 0;
    ghost var fs := Mapped(xs, filing);
    for i := 0 to |xs|
      invariant (after, results) == FileAll(scans, fs[..i])
      invariant |results| == i && AllAnswered(results)
      invariant resolved == CountResolved(results) && resolved + rejected == i
    {
      OneFilingMore(scans, fs, i);
      FileAnswers(after, fs[i]);
      var step := File(after, filing(xs[i]));
      var answer := step.1;
      if answer.EventIdReused? { return after, results, resolved, rejected, false; }
      CountOneMore(results, answer);
      after, results := step.0, results + [answer];
      if answer.finding.verdict.Resolved? { resolved := resolved + 1; } else { rejected := rejected + 1; }
    }
    assert fs[..|xs|] == fs;
    ok := true;
  }

  /**
   The readings of an offline batch: each is resolved in the world it meets. The batch is the run of its readings; a
   reading whose event id belongs to another attempt aborts the rest.
   */
  method SyncOffline(scans: map<EventId, Stored>, xs: seq<Scan>)
    returns (after: map<EventId, Stored>, results: seq<Answer>, resolved: nat, rejected: nat, ok: bool)
    requires AllLookUp(xs)
    ensures ok ==> (after, results) == ScanAll(scans, xs) && AllAnswered(results)
    ensures ok ==> resolved == CountResolved(results) && resolved + rejected == |xs|
    ensures !ok ==> |results| < |xs| && (after, results) == FileAll(scans, Filings(xs)[..|results|])
    ensures !ok ==> File(after, Filings(xs)[|results|]) == (after, EventIdReused)
  {
    after, results, resolved, rejected, ok := ResolveEach(scans, xs, FilingOf);
  }

  lemma {:induction false} FileAnswers(scans: map<EventId, Stored>, f: Filing)
    ensures File(scans, f).1.Answered? || File(scans, f) == (scans, EventIdReused)
  {
  }

  lemma {:induction false} CountOneMore(answers: seq<Answer>, answer: Answer)
    ensures CountResolved(answers + [answer])
            == CountResolved(answers) + (if answer.Answered? && answer.finding.verdict.Resolved? then 1 else 0)
  {
    assert (answers + [answer])[..|answers|] == answers;
  }

  /** Every attempt is stored already. */
  ghost predicate AllStored(scans: map<EventId, Stored>, fs: seq<Filing>) {
    forall i :: 0 <= i < |fs| ==>
      fs[i].attempt.eventId in scans && scans[fs[i].attempt.eventId].identity == fs[i].attempt.identity
  }

  lemma {:induction false} StoredFilings(scans: map<EventId, Stored>, fs: seq<Filing>)
    requires AllStored(scans, fs)
    ensures FileAll(scans, fs).0 == scans && |FileAll(scans, fs).1| == |fs|
    ensures forall i :: 0 <= i < |fs| ==> FileAll(scans, fs).1[i] == Answered(scans[fs[i].attempt.eventId].finding, true)
  {
    if fs != [] { StoredFilings(scans, fs[..|fs| - 1]); }
  }

  lemma {:induction false} StoredStays(scans: map<EventId, Stored>, fs: seq<Filing>, f: Filing)
    requires AllStored(scans, fs)
    ensures AllStored(File(scans, f).0, fs)
    ensures forall i :: 0 <= i < |fs| ==>
              File(scans, f).0[fs[i].attempt.eventId].finding == scans[fs[i].attempt.eventId].finding
  {
  }

  lemma {:induction false} AnsweredNow(scans: map<EventId, Stored>, f: Filing)
    requires File(scans, f).1.Answered?
    ensures var e := f.attempt.eventId;
            && e in File(scans, f).0 && File(scans, f).0[e].identity == f.attempt.identity
            && File(scans, f).0[e].finding == File(scans, f).1.finding
  {
  }

  /** What is answered is stored, and stays so. */
  lemma {:induction false} AnsweredIsStored(scans: map<EventId, Stored>, fs: seq<Filing>)
    requires AllAnswered(FileAll(scans, fs).1)
    ensures AllStored(FileAll(scans, fs).0, fs) && |FileAll(scans, fs).1| == |fs|
    ensures forall i :: 0 <= i < |fs| ==>
              FileAll(scans, fs).1[i].finding == FileAll(scans, fs).0[fs[i].attempt.eventId].finding
  {
    if fs != [] {
      var n := |fs| - 1;
      var before := FileAll(scans, fs[..n]);
      var all := FileAll(scans, fs).1;
      assert forall i :: 0 <= i < |before.1| ==> before.1[i] == all[i];
      AnsweredIsStored(scans, fs[..n]);
      assert all[n] == File(before.0, fs[n]).1;
      StoredStays(before.0, fs[..n], fs[n]);
      AnsweredNow(before.0, fs[n]);
      forall i | 0 <= i < |fs|
        ensures fs[i].attempt.eventId in FileAll(scans, fs).0
        ensures FileAll(scans, fs).0[fs[i].attempt.eventId].identity == fs[i].attempt.identity
        ensures all[i].finding == FileAll(scans, fs).0[fs[i].attempt.eventId].finding
      {
        assert i < n ==> fs[..n][i] == fs[i];
      }
    }
  }

  lemma {:induction false} ResentFilings(scans: map<EventId, Stored>, fs: seq<Filing>, gs: seq<Filing>)
    requires |gs| == |fs| && forall i :: 0 <= i < |fs| ==> gs[i].attempt == fs[i].attempt
    requires AllAnswered(FileAll(scans, fs).1)
    ensures var (after, results) := FileAll(scans, fs);
            && |results| == |fs| && FileAll(after, gs).0 == after && |FileAll(after, gs).1| == |fs|
            && forall i :: 0 <= i < |fs| ==> FileAll(after, gs).1[i] == Answered(results[i].finding, true)
  {
    AnsweredIsStored(scans, fs);
    StoredFilings(FileAll(scans, fs).0, gs);
  }

  lemma {:induction false} AttemptFiled(x: Scan)
    requires LooksUp(x)
    ensures FilingOf(x).attempt == AttemptOf(x.reading, x.actor)
  {
  }

  /**
   A batch that went through and is sent again, whatever the world has become meanwhile: every reading gets the finding
   it got the first time, marked as a replay, and nothing changes.
   */
  lemma {:induction false} ResentBatch(scans: map<EventId, Stored>, xs: seq<Scan>, ys: seq<Scan>)
    requires AllLookUp(xs) && AllLookUp(ys) && |ys| == |xs| && forall i :: 0 <= i < |xs| ==> SameAttempt(xs[i], ys[i])
    requires AllAnswered(ScanAll(scans, xs).1)
    ensures var (after, results) := ScanAll(scans, xs);
            && |results| == |xs| && ScanAll(after, ys).0 == after && |ScanAll(after, ys).1| == |xs|
            && forall i :: 0 <= i < |xs| ==> ScanAll(after, ys).1[i] == Answered(results[i].finding, true)
  {
    var fs, gs := Filings(xs), Filings(ys);
    forall i | 0 <= i < |gs| ensures gs[i].attempt == fs[i].attempt {
      AttemptFiled(xs[i]);
      AttemptFiled(ys[i]);
      assert SameAttempt(xs[i], ys[i]);
    }
    ResentFilings(scans, fs, gs);
  }
}
