/** What holds of the books after any trace of commands, retries and outside changes. */
module AccountingSafety {
  import opened AccountingBalance
  import opened AccountingDomain
  import opened AccountingFile
  import opened AccountingStore
  import opened DecimalMoney
  import opened IdempotentCommands
  import opened Options

  ghost predicate DistinctSources(sources: seq<Source>) {
    forall i, j :: 0 <= i < j < |sources| ==> KeyOf(sources[i]) != KeyOf(sources[j])
  }

  /** The stored lines are those computed from the stored documents; what is generated carries the file of its lines. */
  ghost predicate BatchOk(build: Builder, b: Books, batch: Batch) {
    && batch.scope.mapping in b.mappings
    && DistinctSources(batch.sources)
    && var config := b.mappings[batch.scope.mapping].config;
       && build(batch.sources, config) == Ok(Built(batch.lines, batch.findings))
       && (batch.status.Generated? ==>
             batch.findings == [] && batch.artifact == Some(Render(RowsOf(batch.lines), config.delimiter)))
  }

  /** Every document of a generated batch is claimed by it. */
  ghost predicate GeneratedHold(batches: map<BatchId, Batch>, claims: map<DocumentKey, BatchId>) {
    forall id :: id in batches && batches[id].status.Generated? ==>
      forall k :: k in Keys(batches[id].sources) ==> k in claims && claims[k] == id
  }

  /** Every claim belongs to a generated batch that has the document. */
  ghost predicate HoldersAreGenerated(batches: map<BatchId, Batch>, claims: map<DocumentKey, BatchId>) {
    forall k :: k in claims ==>
      claims[k] in batches && batches[claims[k]].status.Generated? && k in Keys(batches[claims[k]].sources)
  }

  /** The claims held are exactly the documents of the generated batches, each held by its own batch. */
  ghost predicate ClaimsOk(b: Books) {
    GeneratedHold(b.batches, b.claims) && HoldersAreGenerated(b.batches, b.claims)
  }

  ghost predicate BooksOk(build: Builder, b: Books) {
    && DistinctDocuments(b.documents)
    && (forall id :: id in b.mappings ==> IsDelimiter(b.mappings[id].config.delimiter))
    && (forall id :: id in b.batches ==> BatchOk(build, b, b.batches[id]))
    && ClaimsOk(b)
  }

  // ---------------------------------------------------------------- loading and claiming

  lemma {:induction false} LoadTypeFrom(
      documents: seq<Document>, claims: map<DocumentKey, BatchId>, scope: Scope, t: SourceType, s: Source)
    requires s in LoadType(documents, claims, scope, t)
    ensures s.sourceType == t && exists i :: 0 <= i < |documents| && KeyOf(documents[i].source) == KeyOf(s)
  {
    if InScope(documents[0], scope, t) && s == Seen(documents[0].source, claims) {
      assert KeyOf(documents[0].source) == KeyOf(s);
    } else {
      LoadTypeFrom(documents[1..], claims, scope, t, s);
      var i :| 0 <= i < |documents[1..]| && KeyOf(documents[1..][i].source) == KeyOf(s);
      assert documents[i + 1] == documents[1..][i];
    }
  }

  lemma {:induction false} LoadTypeDistinct(
      documents: seq<Document>, claims: map<DocumentKey, BatchId>, scope: Scope, t: SourceType)
    requires DistinctDocuments(documents)
    ensures DistinctSources(LoadType(documents, claims, scope, t))
  {
    if documents != [] {
      var rest := LoadType(documents[1..], claims, scope, t);
      LoadTypeDistinct(documents[1..], claims, scope, t);
      forall j | 0 <= j < |rest| ensures KeyOf(rest[j]) != KeyOf(documents[0].source) {
        LoadTypeFrom(documents[1..], claims, scope, t, rest[j]);
        var i :| 0 <= i < |documents[1..]| && KeyOf(documents[1..][i].source) == KeyOf(rest[j]);
        assert documents[i + 1] == documents[1..][i];
      }
    }
  }

  lemma {:induction false} LoadedDistinct(b: Books, scope: Scope)
    requires DistinctDocuments(b.documents)
    ensures DistinctSources(LoadSources(b, scope))
  {
    forall t ensures DistinctSources(LoadType(b.documents, b.claims, scope, t)) {
      LoadTypeDistinct(b.documents, b.claims, scope, t);
    }
    forall t, s | s in LoadType(b.documents, b.claims, scope, t) ensures s.sourceType == t {
      LoadTypeFrom(b.documents, b.claims, scope, t, s);
    }
  }

  lemma {:induction false} KeysSplit(sources: seq<Source>)
    requires sources != []
    ensures Keys(sources) == {KeyOf(sources[0])} + Keys(sources[1..])
  {
    assert sources == [sources[0]] + sources[1..];
  }

  /** Claiming succeeds exactly when nothing is claimed yet; then it adds the batch's documents and nothing else. */
  lemma {:induction false} ClaimingAll(claims: map<DocumentKey, BatchId>, sources: seq<Source>, id: BatchId)
    requires DistinctSources(sources)
    ensures ClaimAll(claims, sources, id).Some? <==> Keys(sources) !! claims.Keys
    ensures ClaimAll(claims, sources, id).Some? ==>
              var after := ClaimAll(claims, sources, id).value;
              && after.Keys == claims.Keys + Keys(sources)
              && forall k :: k in after ==> after[k] == if k in Keys(sources) then id else claims[k]
    decreases |sources|
  {
    if sources != [] {
      var k := KeyOf(sources[0]);
      KeysSplit(sources);
      NotAmongTheRest(sources);
      ClaimingAll(claims[k := id], sources[1..], id);
    }
  }

  lemma {:induction false} NotAmongTheRest(sources: seq<Source>)
    requires DistinctSources(sources) && sources != []
    ensures KeyOf(sources[0]) !in Keys(sources[1..])
  {
    forall s | s in sources[1..] ensures KeyOf(s) != KeyOf(sources[0]) {
      var i :| 0 <= i < |sources[1..]| && sources[1..][i] == s;
      assert sources[i + 1] == s;
    }
  }

  // ---------------------------------------------------------------- every command keeps the invariant

  lemma {:induction false} PersistKeeps(build: Builder, b: Books, id: BatchId, scope: Scope, reexportOf: Option<BatchId>)
    requires BooksOk(build, b) && PersistPreview(build, b, id, scope, reexportOf).Success?
    ensures BooksOk(build, PersistPreview(build, b, id, scope, reexportOf).data)
  {
    LoadedDistinct(b, scope);
  }

  /** Replacing a batch by one with the same evidence and a status that holds no claims. */
  lemma {:induction false} QuietUpdateKeeps(build: Builder, b: Books, id: BatchId, batch: Batch)
    requires BooksOk(build, b) && id in b.batches && !b.batches[id].status.Generated? && !batch.status.Generated?
    requires batch.scope == b.batches[id].scope && batch.sources == b.batches[id].sources
    requires batch.lines == b.batches[id].lines && batch.findings == b.batches[id].findings
    ensures BooksOk(build, b.(batches := b.batches[id := batch]))
  {
  }

  /** Claims added for one batch: what was held stays held, and the new ones are its documents. */
  lemma {:induction false} ClaimsGrow(
      batches: map<BatchId, Batch>, claims: map<DocumentKey, BatchId>, after: map<DocumentKey, BatchId>, id: BatchId, batch: Batch)
    requires id in batches && !batches[id].status.Generated? && batch.status.Generated?
    requires GeneratedHold(batches, claims) && HoldersAreGenerated(batches, claims)
    requires after.Keys == claims.Keys + Keys(batch.sources) && Keys(batch.sources) !! claims.Keys
    requires forall k :: k in after ==> after[k] == if k in Keys(batch.sources) then id else claims[k]
    ensures GeneratedHold(batches[id := batch], after)
  {
    var now := batches[id := batch];
    forall other, k | other in now && now[other].status.Generated? && k in Keys(now[other].sources)
      ensures k in after && after[k] == other
    {
      if other != id { assert k in claims && claims[k] == other; }
    }
  }

  lemma {:induction false} HoldersGrow(
      batches: map<BatchId, Batch>, claims: map<DocumentKey, BatchId>, after: map<DocumentKey, BatchId>, id: BatchId, batch: Batch)
    requires id in batches && !batches[id].status.Generated? && batch.status.Generated?
    requires HoldersAreGenerated(batches, claims)
    requires after.Keys == claims.Keys + Keys(batch.sources)
    requires forall k :: k in after ==> after[k] == if k in Keys(batch.sources) then id else claims[k]
    ensures HoldersAreGenerated(batches[id := batch], after)
  {
    var now := batches[id := batch];
    forall k | k in after ensures after[k] in now && now[after[k]].status.Generated? && k in Keys(now[after[k]].sources) {
      if k !in Keys(batch.sources) { assert k in claims; }
    }
  }

  /** Claims taken for a batch that becomes generated. */
  lemma {:induction false} ClaimsAfterGenerate(b: Books, id: BatchId, batch: Batch, claims: map<DocumentKey, BatchId>)
    requires ClaimsOk(b) && id in b.batches && !b.batches[id].status.Generated?
    requires batch.status.Generated? && DistinctSources(batch.sources) && ClaimAll(b.claims, batch.sources, id) == Some(claims)
    ensures ClaimsOk(b.(claims := claims, batches := b.batches[id := batch]))
  {
    ClaimingAll(b.claims, batch.sources, id);
    ClaimsGrow(b.batches, b.claims, claims, id, batch);
    HoldersGrow(b.batches, b.claims, claims, id, batch);
  }

  lemma {:induction false} EvidenceAfterGenerate(build: Builder, b: Books, id: BatchId, batch: Batch)
    requires (forall other :: other in b.batches ==> BatchOk(build, b, b.batches[other])) && BatchOk(build, b, batch)
    ensures var after := b.batches[id := batch]; forall other :: other in after ==> BatchOk(build, b, after[other])
  {
  }

  lemma {:induction false} BatchOkIgnoresClaims(build: Builder, b: Books, c: Books, batch: Batch)
    requires BatchOk(build, b, batch) && c.mappings == b.mappings
    ensures BatchOk(build, c, batch)
  {
  }

  lemma {:induction false} GenerateKeeps(build: Builder, b: Books, id: BatchId, expectedVersion: nat)
    requires BooksOk(build, b) && Generate(build, b, id, expectedVersion).Success?
    ensures BooksOk(build, Generate(build, b, id, expectedVersion).data)
  {
    var after := Generate(build, b, id, expectedVersion).data;
    var batch := after.batches[id];
    assert BatchOk(build, b, batch);
    EvidenceAfterGenerate(build, b, id, batch);
    ClaimsAfterGenerate(b, id, batch, after.claims);
    forall other | other in after.batches ensures BatchOk(build, after, after.batches[other]) {
      BatchOkIgnoresClaims(build, b, after, after.batches[other]);
    }
  }

  /** Claims released with the batch that held them. */
  lemma {:induction false} ClaimsAfterCancel(b: Books, id: BatchId, batch: Batch)
    requires ClaimsOk(b) && id in b.batches && !batch.status.Generated?
    ensures ClaimsOk(b.(claims := Release(b.claims, id), batches := b.batches[id := batch]))
  {
    var now, after := b.batches[id := batch], Release(b.claims, id);
    forall other, k | other in now && now[other].status.Generated? && k in Keys(now[other].sources)
      ensures k in after && after[k] == other
    {
      assert k in b.claims && b.claims[k] == other;
    }
    forall k | k in after ensures after[k] in now && now[after[k]].status.Generated? && k in Keys(now[after[k]].sources) {
      assert k in b.claims;
    }
  }

  lemma {:induction false} CancelKeeps(build: Builder, b: Books, id: BatchId, expectedVersion: nat)
    requires BooksOk(build, b) && Cancel(b, id, expectedVersion).Success?
    ensures BooksOk(build, Cancel(b, id, expectedVersion).data)
  {
    var after := Cancel(b, id, expectedVersion).data;
    ClaimsAfterCancel(b, id, after.batches[id]);
    forall other | other in after.batches ensures BatchOk(build, after, after.batches[other]) {
      assert BatchOk(build, b, b.batches[other]);
    }
  }

  lemma {:induction false} ValidateKeeps(build: Builder, b: Books, id: BatchId, expectedVersion: nat)
    requires BooksOk(build, b) && Validate(build, b, id, expectedVersion).Success?
    ensures BooksOk(build, Validate(build, b, id, expectedVersion).data)
  {
    QuietUpdateKeeps(build, b, id, b.batches[id].(status := Validated, rowVersion := b.batches[id].rowVersion + 1));
  }

  lemma {:induction false} ReexportKeeps(
      build: Builder, b: Books, id: BatchId, mapping: Option<MappingId>, newId: BatchId)
    requires BooksOk(build, b) && Reexport(build, b, id, mapping, newId).Success?
    ensures BooksOk(build, Reexport(build, b, id, mapping, newId).data)
  {
    var original := b.batches[id];
    var mappingId := if mapping.Some? then mapping.value else original.scope.mapping;
    PersistKeeps(build, b, newId, original.scope.(mapping := mappingId), Some(id));
  }

  lemma {:induction false} ExecuteKeeps(build: Builder, b: Books, key: CommandKey, order: Order, newId: BatchId)
    requires BooksOk(build, b) && Execute(build, b, key, order, newId).Success?
    ensures BooksOk(build, Execute(build, b, key, order, newId).data)
  {
    match order
    case PreviewExport(scope) => PersistKeeps(build, b, newId, scope, None);
    case ValidateBatch(id, version) => ValidateKeeps(build, b, id, version);
    case GenerateBatch(id, version) => GenerateKeeps(build, b, id, version);
    case CancelBatch(id, version, _) => CancelKeeps(build, b, id, version);
    case ReexportBatch(id, mapping, _) => ReexportKeeps(build, b, id, mapping, newId);
  }

  lemma {:induction false} BatchOkSameConfig(build: Builder, b: Books, c: Books, batch: Batch)
    requires BatchOk(build, b, batch) && batch.scope.mapping in c.mappings
    requires c.mappings[batch.scope.mapping].config == b.mappings[batch.scope.mapping].config
    ensures BatchOk(build, c, batch)
  {
  }

  /** New and switched mapping versions leave every configuration in use as it is. */
  lemma {:induction false} MappingChangeKeeps(build: Builder, b: Books, id: MappingId, version: MappingVersion)
    requires BooksOk(build, b) && IsDelimiter(version.config.delimiter)
    requires id in b.mappings ==> version.config == b.mappings[id].config
    ensures BooksOk(build, b.(mappings := b.mappings[id := version]))
  {
    var after := b.(mappings := b.mappings[id := version]);
    forall other | other in after.batches ensures BatchOk(build, after, after.batches[other]) {
      BatchOkSameConfig(build, b, after, b.batches[other]);
    }
  }

  lemma {:induction false} MeanwhileKeeps(build: Builder, b: Books, change: Change)
    requires BooksOk(build, b)
    ensures BooksOk(build, Meanwhile(b, change))
  {
    match change
    case SetDocuments(documents) =>
      var after := Meanwhile(b, change);
      forall id | id in after.batches ensures BatchOk(build, after, after.batches[id]) {
        BatchOkIgnoresClaims(build, b, after, b.batches[id]);
      }
    case AddMapping(id, version) =>
      if id !in b.mappings && IsDelimiter(version.config.delimiter) { MappingChangeKeeps(build, b, id, version); }
    case SwitchMapping(id, active) =>
      if id in b.mappings { MappingChangeKeeps(build, b, id, b.mappings[id].(active := active)); }
  }

  // ---------------------------------------------------------------- theorems over all traces

  type Trace = seq<Event<CommandKey, Order, BatchId, Change>>
  type Store = State<Books, CommandKey, Order, BatchView>

  lemma {:induction false} TraceKeeps(build: Builder, s: Store, trace: Trace)
    requires BooksOk(build, s.data)
    ensures BooksOk(build, Run(TheSystem(build), s, trace).data)
  {
    var sys := TheSystem(build);
    var inv := (b: Books) => BooksOk(build, b);
    forall b, key, order, newId | inv(b) && sys.exec(b, key, order, newId).Success?
      ensures inv(sys.exec(b, key, order, newId).data)
    {
      ExecuteKeeps(build, b, key, order, newId);
    }
    forall b, change | inv(b) ensures inv(sys.world(b, change)) {
      MeanwhileKeeps(build, b, change);
    }
    InvariantHolds(sys, s, trace, inv);
  }

  /** Retried commands: the trace without the copies of successful commands ends in the same books and receipts. */
  lemma {:induction false} RetriesChangeNothing(build: Builder, s: Store, trace: Trace)
    ensures Run(TheSystem(build), s, WithoutCopies(TheSystem(build), s, trace)) == Run(TheSystem(build), s, trace)
  {
    CopiesChangeNothing(TheSystem(build), s, trace);
  }

  ghost predicate Empty(s: Store) {
    s.data.batches == map[] && s.data.claims == map[] && s.receipts == map[]
    && DistinctDocuments(s.data.documents)
    && forall id :: id in s.data.mappings ==> IsDelimiter(s.data.mappings[id].config.delimiter)
  }

  /**
   Exclusive export, over all runs by any actors: the documents claimed are exactly those of the generated batches, and
   two generated batches never share a document.
   */
  lemma {:induction false} ExclusiveExport(build: Builder, s: Store, trace: Trace)
    requires Empty(s)
    ensures var b := Run(TheSystem(build), s, trace).data;
            && (forall k, id :: k in b.claims && b.claims[k] == id <==>
                  id in b.batches && b.batches[id].status.Generated? && k in Keys(b.batches[id].sources))
            && forall i, j :: i in b.batches && j in b.batches && i != j
                              && b.batches[i].status.Generated? && b.batches[j].status.Generated?
                              ==> Keys(b.batches[i].sources) !! Keys(b.batches[j].sources)
  {
    TraceKeeps(build, s, trace);
    var b := Run(TheSystem(build), s, trace).data;
    forall i, j | i in b.batches && j in b.batches && i != j
                  && b.batches[i].status.Generated? && b.batches[j].status.Generated?
      ensures Keys(b.batches[i].sources) !! Keys(b.batches[j].sources)
    {
      forall k | k in Keys(b.batches[i].sources) ensures k !in Keys(b.batches[j].sources) {
        assert b.claims[k] == i;
      }
    }
  }

  /** Generation uses the documents as they are then: what it stored at the preview is what it would compute now. */
  lemma {:induction false} GenerationIsCurrent(build: Builder, b: Books, id: BatchId, expectedVersion: nat)
    requires Generate(build, b, id, expectedVersion).Success?
    ensures var batch := Generate(build, b, id, expectedVersion).data.batches[id];
            && batch.status.Generated? && id in b.batches && batch.scope == b.batches[id].scope
            && batch.sources == LoadSources(b, batch.scope)
            && batch.scope.mapping in b.mappings
            && build(LoadSources(b, batch.scope), b.mappings[batch.scope.mapping].config) == Ok(Built(batch.lines, []))
  {
  }

  /** The batch as it was generated by event `i` of the trace, from the documents and the mapping of that moment. */
  ghost predicate GeneratedBy(build: Builder, s: Store, trace: Trace, i: nat, id: BatchId, batch: Batch) {
    i < |trace| && trace[i].Command? && trace[i].request.content.GenerateBatch? && trace[i].request.content.batch == id
    && AnswerAt(TheSystem(build), s, trace, i).Performed?
    && var b := Run(TheSystem(build), s, trace[..i]).data;
       && batch.scope.mapping in b.mappings
       && batch.sources == LoadSources(b, batch.scope)
       && build(LoadSources(b, batch.scope), b.mappings[batch.scope.mapping].config) == Ok(Built(batch.lines, []))
  }

  ghost predicate WasGenerated(build: Builder, s: Store, trace: Trace, id: BatchId, batch: Batch) {
    exists i :: GeneratedBy(build, s, trace, i, id, batch)
  }

  /** What one event does to one batch, once it exists: nothing, or one move forward by a command. */
  ghost predicate MovesOn(before: Batch, after: Batch) {
    && after.scope == before.scope && after.sources == before.sources && after.lines == before.lines
    && after.findings == before.findings && after.reexportOf == before.reexportOf
    && (after == before
        || (after.rowVersion == before.rowVersion + 1
            && match before.status
               case Previewed => after.status.Validated? || after.status.Cancelled?
               case Validated => after.status.Generated? || after.status.Cancelled?
               case Generated => after.status.Cancelled? && after.artifact == before.artifact
               case Cancelled => false))
  }

  lemma {:induction false} ExecuteMovesOn(
      build: Builder, b: Books, key: CommandKey, order: Order, newId: BatchId, id: BatchId)
    requires id in b.batches && Execute(build, b, key, order, newId).Success?
    ensures var after := Execute(build, b, key, order, newId).data; id in after.batches && MovesOn(b.batches[id], after.batches[id])
  {
  }

  lemma {:induction false} StepMovesOn(build: Builder, s: Store, e: Event<CommandKey, Order, BatchId, Change>, id: BatchId)
    requires id in s.data.batches
    ensures var t := Step(TheSystem(build), s, e).0; id in t.data.batches && MovesOn(s.data.batches[id], t.data.batches[id])
  {
    match e
    case World(change) => assert Step(TheSystem(build), s, e).0.data == Meanwhile(s.data, change);
    case Command(r) =>
      OnlySuccessLeavesTraces(TheSystem(build), s, r);
      if Perform(TheSystem(build), s, r).1.Performed? { ExecuteMovesOn(build, s.data, r.key.value, r.content, r.drawn, id); }
  }

  /** A command that leaves a batch generated which was not generated before is its generation. */
  lemma {:induction false} OnlyGenerationGenerates(
      build: Builder, b: Books, key: CommandKey, order: Order, newId: BatchId, id: BatchId)
    requires Execute(build, b, key, order, newId).Success?
    requires var after := Execute(build, b, key, order, newId).data; id in after.batches && after.batches[id].status.Generated?
    requires id !in b.batches || !b.batches[id].status.Generated?
    ensures order.GenerateBatch? && order.batch == id && Generate(build, b, id, order.expectedVersion).Success?
    ensures Execute(build, b, key, order, newId) == Generate(build, b, id, order.expectedVersion)
  {
  }

  /** What the last event of a trace makes generated, it generated itself. */
  lemma {:induction false} LastGenerates(build: Builder, s: Store, trace: Trace, id: BatchId)
    requires trace != []
    requires var before := Run(TheSystem(build), s, trace[..|trace| - 1]).data;
             id !in before.batches || !before.batches[id].status.Generated?
    requires var after := Run(TheSystem(build), s, trace).data; id in after.batches && after.batches[id].status.Generated?
    ensures GeneratedBy(build, s, trace, |trace| - 1, id, Run(TheSystem(build), s, trace).data.batches[id])
  {
    var n := |trace| - 1;
    var before := Run(TheSystem(build), s, trace[..n]);
    RunOneMore(TheSystem(build), s, trace, n);
    assert trace[..n + 1] == trace;
    match trace[n]
    case World(change) =>
    case Command(r) =>
      OnlySuccessLeavesTraces(TheSystem(build), before, r);
      OnlyGenerationGenerates(build, before.data, r.key.value, r.content, r.drawn, id);
      GenerationIsCurrent(build, before.data, id, r.content.expectedVersion);
  }

  lemma {:induction false} SamePrefix(trace: Trace, n: nat, i: nat)
    requires i < n <= |trace|
    ensures trace[..n][i] == trace[i] && trace[..n][..i] == trace[..i]
  {
  }

  lemma {:induction false} GeneratedEarlier(build: Builder, s: Store, trace: Trace, n: nat, id: BatchId, batch: Batch)
    requires n <= |trace| && WasGenerated(build, s, trace[..n], id, batch)
    ensures WasGenerated(build, s, trace, id, batch)
  {
    var i :| GeneratedBy(build, s, trace[..n], i, id, batch);
    SamePrefix(trace, n, i);
    GeneratedInBoth(build, s, trace[..n], trace, i, id, batch);
  }

  lemma {:induction false} GeneratedInBoth(
      build: Builder, s: Store, a: Trace, b: Trace, i: nat, id: BatchId, batch: Batch)
    requires GeneratedBy(build, s, a, i, id, batch) && i < |b| && a[i] == b[i] && a[..i] == b[..i]
    ensures GeneratedBy(build, s, b, i, id, batch)
  {
  }

  /** The evidence of a batch that stays generated is that of its generation. */
  lemma {:induction false} SameEvidence(build: Builder, s: Store, trace: Trace, id: BatchId, a: Batch, b: Batch)
    requires WasGenerated(build, s, trace, id, a)
    requires b.scope == a.scope && b.sources == a.sources && b.lines == a.lines
    ensures WasGenerated(build, s, trace, id, b)
  {
    var i :| GeneratedBy(build, s, trace, i, id, a);
    assert GeneratedBy(build, s, trace, i, id, b);
  }

  /**
   Every generated batch of every trace was generated by some event of it, and holds the documents that the tables gave
   at that moment, and the lines computed from them then.
   */
  lemma {:induction false} GeneratedFromCurrentDocuments(build: Builder, s: Store, trace: Trace, id: BatchId)
    requires s.data.batches == map[]
    requires var b := Run(TheSystem(build), s, trace).data; id in b.batches && b.batches[id].status.Generated?
    ensures WasGenerated(build, s, trace, id, Run(TheSystem(build), s, trace).data.batches[id])
    decreases |trace|
  {
    if trace != [] {
      var n := |trace| - 1;
      var before, after := Run(TheSystem(build), s, trace[..n]), Run(TheSystem(build), s, trace);
      RunOneMore(TheSystem(build), s, trace, n);
      assert trace[..n + 1] == trace;
      if id in before.data.batches && before.data.batches[id].status.Generated? {
        GeneratedFromCurrentDocuments(build, s, trace[..n], id);
        GeneratedEarlier(build, s, trace, n, id, before.data.batches[id]);
        StepMovesOn(build, before, trace[n], id);
        SameEvidence(build, s, trace, id, before.data.batches[id], after.data.batches[id]);
      } else {
        LastGenerates(build, s, trace, id);
      }
    }
  }

  // ---------------------------------------------------------------- batches over time

  /** How many moves lead from one status to another; a cancelled batch may have been cancelled at any stage. */
  ghost predicate LaterThan(before: Batch, after: Batch) {
    && after.scope == before.scope && after.sources == before.sources && after.lines == before.lines
    && after.findings == before.findings && after.reexportOf == before.reexportOf
    && before.rowVersion <= after.rowVersion
    && var moves := after.rowVersion - before.rowVersion;
       && (moves == 0 ==> after == before)
       && (0 < moves ==>
             match before.status
             case Previewed =>
               (moves == 1 && after.status.Validated?) || (moves == 2 && after.status.Generated?)
               || (moves <= 3 && after.status.Cancelled?)
             case Validated => (moves == 1 && after.status.Generated?) || (moves <= 2 && after.status.Cancelled?)
             case Generated => moves == 1 && after.status.Cancelled? && after.artifact == before.artifact
             case Cancelled => false)
  }

  /** Whatever happens later, a batch keeps its evidence and moves only forward, one version at a time. */
  lemma {:induction false} BatchesMoveForward(build: Builder, s: Store, before: Trace, after: Trace, id: BatchId)
    requires id in Run(TheSystem(build), s, before).data.batches
    ensures id in Run(TheSystem(build), s, before + after).data.batches
    ensures LaterThan(Run(TheSystem(build), s, before).data.batches[id], Run(TheSystem(build), s, before + after).data.batches[id])
    decreases |after|
  {
    if after == [] {
      assert before + after == before;
    } else {
      var n := |after| - 1;
      var whole := before + after;
      assert whole[..|before| + n] == before + after[..n] && whole[..|before| + n + 1] == whole;
      BatchesMoveForward(build, s, before, after[..n], id);
      RunOneMore(TheSystem(build), s, whole, |before| + n);
      StepMovesOn(build, Run(TheSystem(build), s, before + after[..n]), after[n], id);
    }
  }

  // ---------------------------------------------------------------- from the documents to the file and back

  /** What a reader of the file adds up, with `read` for amounts: one column in the rows of one currency. */
  function ColumnTotal(rows: seq<seq<string>>, column: nat, currency: string, read: string -> int): int
    requires column < 11 && forall i :: 0 <= i < |rows| ==> |rows[i]| == 11
  {
    if rows == [] then 0
    else
      var last := rows[|rows| - 1];
      ColumnTotal(rows[..|rows| - 1], column, currency, read) + (if last[8] == currency then read(last[column]) else 0)
  }

  function ReadCents(text: string): int {
    var parsed := MoneyToCents(text);
    if parsed.Units? then parsed.value else 0
  }

  ghost predicate ReadsPrinted(read: string -> int) {
    forall n :: read(FormatDecimal(n, MONEY_SCALE)) == n
  }

  lemma {:induction false} CentsAreReadAsPrinted()
    ensures ReadsPrinted(ReadCents)
  {
    forall n ensures ReadCents(FormatDecimal(n, MONEY_SCALE)) == n { DecimalRoundTrip(n, MONEY_SCALE); }
  }

  lemma {:induction false} RowsOfSplit(lines: seq<Line>)
    requires lines != []
    ensures RowsOf(lines)[..|lines| - 1] == RowsOf(lines[..|lines| - 1])
    ensures RowsOf(lines)[|lines| - 1] == RowOf(lines[|lines| - 1])
  {
  }

  lemma {:induction false} RowReads(line: Line, read: string -> int)
    requires ReadsPrinted(read)
    ensures read(RowOf(line)[6]) == line.debit && read(RowOf(line)[7]) == line.credit && RowOf(line)[8] == line.currency
  {
  }

  lemma {:induction false} ColumnsAreSides(lines: seq<Line>, currency: string, read: string -> int)
    requires ReadsPrinted(read)
    ensures ColumnTotal(RowsOf(lines), 6, currency, read) == DebitOf(lines, currency)
    ensures ColumnTotal(RowsOf(lines), 7, currency, read) == CreditOf(lines, currency)
  {
    if lines != [] {
      RowsOfSplit(lines);
      RowReads(lines[|lines| - 1], read);
      ColumnsAreSides(lines[..|lines| - 1], currency, read);
    }
  }

  /** A builder without findings balances every currency. */
  ghost predicate Balances(build: Builder) {
    forall sources, config, lines, currency ::
      build(sources, config) == Ok(Built(lines, [])) ==> DebitOf(lines, currency) == CreditOf(lines, currency)
  }

  lemma {:induction false} TheBuilderBalances(sort: Sorting)
    ensures Balances(BuilderOf(sort))
  {
    forall sources, config, lines, currency | BuilderOf(sort)(sources, config) == Ok(Built(lines, []))
      ensures DebitOf(lines, currency) == CreditOf(lines, currency)
    {
      AdvancingPreview(sort(sources), config, AccountsOf(config), Built(lines, []));
      assert Balanced(lines, currency);
    }
  }

  lemma {:induction false} BatchBalances(build: Builder, b: Books, batch: Batch, currency: string)
    requires Balances(build) && BatchOk(build, b, batch) && batch.status.Generated?
    ensures DebitOf(batch.lines, currency) == CreditOf(batch.lines, currency)
  {
    assert build(batch.sources, b.mappings[batch.scope.mapping].config) == Ok(Built(batch.lines, []));
  }

  lemma {:induction false} ColumnsBalance(lines: seq<Line>, currency: string)
    requires DebitOf(lines, currency) == CreditOf(lines, currency)
    ensures ColumnTotal(RowsOf(lines), 6, currency, ReadCents) == ColumnTotal(RowsOf(lines), 7, currency, ReadCents)
  {
    CentsAreReadAsPrinted();
    ColumnsAreSides(lines, currency, ReadCents);
  }

  lemma {:induction false} ArtifactIsReadBack(lines: seq<Line>, delimiter: char, artifact: string)
    requires IsDelimiter(delimiter) && artifact == Render(RowsOf(lines), delimiter)
    ensures ReadFile(artifact, delimiter) == Some([Header()] + RowsOf(lines))
  {
    FileRoundTrip(RowsOf(lines), delimiter);
  }

  lemma {:induction false} FileOfBatch(build: Builder, b: Books, batch: Batch)
    requires BatchOk(build, b, batch) && batch.status.Generated?
    requires IsDelimiter(b.mappings[batch.scope.mapping].config.delimiter)
    ensures batch.artifact.Some?
    ensures ReadFile(batch.artifact.value, b.mappings[batch.scope.mapping].config.delimiter)
            == Some([Header()] + RowsOf(batch.lines))
  {
    ArtifactIsReadBack(batch.lines, b.mappings[batch.scope.mapping].config.delimiter, batch.artifact.value);
  }

  /**
   End to end, in every reachable state: reading the file of a generated batch gives the header and, row by row, the
   lines that were computed at its generation from the documents of that moment; per currency the debit and the credit
   column add up alike.
   */
  lemma {:induction false} FilesAreTrueAndBalanced(
      build: Builder, s: Store, trace: Trace, id: BatchId, currency: string)
    requires Empty(s) && Balances(build)
    requires var b := Run(TheSystem(build), s, trace).data; id in b.batches && b.batches[id].status.Generated?
    ensures var b := Run(TheSystem(build), s, trace).data;
            var batch := b.batches[id];
            && WasGenerated(build, s, trace, id, batch)
            && batch.scope.mapping in b.mappings && batch.artifact.Some?
            && ReadFile(batch.artifact.value, b.mappings[batch.scope.mapping].config.delimiter)
               == Some([Header()] + RowsOf(batch.lines))
            && ColumnTotal(RowsOf(batch.lines), 6, currency, ReadCents)
               == ColumnTotal(RowsOf(batch.lines), 7, currency, ReadCents)
  {
    TraceKeeps(build, s, trace);
    GeneratedFromCurrentDocuments(build, s, trace, id);
    var b := Run(TheSystem(build), s, trace).data;
    FileOfBatch(build, b, b.batches[id]);
    BatchBalances(build, b, b.batches[id], currency);
    ColumnsBalance(b.batches[id].lines, currency);
  }
}
