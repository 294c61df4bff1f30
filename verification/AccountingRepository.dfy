/** The repository as it runs: one transaction per command, tables updated step by step, rolled back on failure. */
module AccountingRepository {
  import opened AccountingBuilder
  import opened AccountingDomain
  import opened AccountingFile
  import opened AccountingSafety
  import opened AccountingStore
  import opened IdempotentCommands
  import opened Options

  class Repository {
    const sort: Sorting
    var mappings: map<MappingId, MappingVersion>
    var documents: seq<Document>
    var batches: map<BatchId, Batch>
    var claims: map<DocumentKey, BatchId>
    var receipts: map<CommandKey, Receipt<Order, BatchView>>

    ghost function Data(): Books
      reads this
    {
      Books(mappings, documents, batches, claims)
    }

    ghost function View(): State<Books, CommandKey, Order, BatchView>
      reads this
    {
      State(Data(), receipts)
    }

    /** The invariant of the books. */
    ghost predicate Valid()
      reads this
    {
      BooksOk(BuilderOf(sort), Data())
    }

    constructor (sort: Sorting)
      ensures Valid() && this.sort == sort && View() == State(Books(map[], [], map[], map[]), map[])
    {
      this.sort := sort;
      mappings, documents, batches, claims, receipts := map[], [], map[], map[], map[];
    }

    method LoadDocuments(scope: Scope) returns (sources: seq<Source>)
      ensures sources == LoadSources(Data(), scope)
    {
      var invoices := LoadType(documents, claims, scope, Invoice);
      var creditNotes := LoadType(documents, claims, scope, CreditNote);
      sources := invoices + creditNotes + LoadType(documents, claims, scope, Payment);
    }

    /** Inserts the entries one by one; the check constraints may refuse one. */
    method InsertEntries(lines: seq<Line>) returns (ok: bool)
      ensures ok <==> forall i :: 0 <= i < |lines| ==> Storable(lines[i])
    {
      for i := 0 to |lines|
        invariant forall k :: 0 <= k < i ==> Storable(lines[k])
      {
        if !Storable(lines[i]) { return false; }
      }
      ok := true;
    }

    method Save(id: BatchId, batch: Batch) returns (outcome: Execution<Books, BatchView>)
      modifies `batches
      ensures outcome == Put(old(Data()), id, batch) && Data() == outcome.data
    {
      batches := batches[id := batch];
      outcome := Success(Books(mappings, documents, batches, claims), BatchView(id, batch));
    }

    method PersistNewPreview(id: BatchId, scope: Scope, reexportOf: Option<BatchId>)
      returns (outcome: Execution<Books, BatchView>)
      requires Valid()
      modifies `batches
      ensures Valid()
      ensures outcome == PersistPreview(BuilderOf(sort), old(Data()), id, scope, reexportOf)
      ensures Data() == if outcome.Success? then outcome.data else old(Data())
    {
      if PersistPreview(BuilderOf(sort), Data(), id, scope, reexportOf).Success? { PersistKeeps(BuilderOf(sort), Data(), id, scope, reexportOf); }
      if scope.mapping !in mappings { return Failure("ACCOUNTING_MAPPING_NOT_FOUND"); }
      var version := mappings[scope.mapping];
      if !version.active { return Failure("ACCOUNTING_MAPPING_NOT_ACTIVE"); }
      if version.effectiveFrom > scope.periodFrom
         || (version.effectiveTo.Some? && version.effectiveTo.value < scope.periodTo) {
        return Failure("ACCOUNTING_MAPPING_PERIOD_MISMATCH");
      }
      var sources := LoadDocuments(scope);
      var preview := BuildAccountingPreview(sort(sources), version.config, AccountsOf(version.config));
      if preview.DecimalError? { return Failure("DECIMAL_INVALID"); }
      var stored := InsertEntries(preview.value.lines);
      if id in batches || !stored { return Failure("CONSTRAINT_VIOLATED"); }
      var batch := Batch(scope, Previewed, 1, sources, preview.value.lines, preview.value.findings, None, reexportOf);
      outcome := Save(id, batch);
    }

    /** Locks the batch and recomputes its preview; answers why it may not advance, if it may not. */
    method Recheck(id: BatchId, expectedVersion: nat, expected: Status) returns (refusal: Option<string>)
      ensures refusal == CheckBatch(BuilderOf(sort), Data(), id, expectedVersion, expected)
    {
      if id !in batches { return Some("ACCOUNTING_EXPORT_NOT_FOUND"); }
      var batch := batches[id];
      if batch.rowVersion != expectedVersion { return Some("CONCURRENT_MODIFICATION"); }
      if batch.status != expected { return Some("ACCOUNTING_EXPORT_TRANSITION_FORBIDDEN"); }
      if batch.scope.mapping !in mappings { return Some("ACCOUNTING_MAPPING_NOT_FOUND"); }
      var config := mappings[batch.scope.mapping].config;
      var sources := LoadDocuments(batch.scope);
      var now := BuildAccountingPreview(sort(sources), config, AccountsOf(config));
      if now.DecimalError? { return Some("DECIMAL_INVALID"); }
      if sources != batch.sources || now.value.lines != batch.lines { return Some("ACCOUNTING_EXPORT_PREVIEW_STALE"); }
      if !CanAdvance(now.value) { return Some("ACCOUNTING_EXPORT_BLOCKED"); }
      refusal := None;
    }

    /** Inserts one claim per document; a document claimed by another batch rolls all of them back. */
    method InsertClaims(sources: seq<Source>, id: BatchId) returns (ok: bool)
      modifies `claims
      ensures ok <==> ClaimAll(old(claims), sources, id).Some?
      ensures claims == if ok then ClaimAll(old(claims), sources, id).value else old(claims)
    {
      var savepoint := claims;
      for i := 0 to |sources|
        invariant ClaimAll(old(claims), sources, id) == ClaimAll(claims, sources[i..], id)
      {
        assert sources[i..][1..] == sources[i + 1..];
        if KeyOf(sources[i]) in claims {
          claims := savepoint;
          return false;
        }
        claims := claims[KeyOf(sources[i]) := id];
      }
      ok := true;
    }

    /** What happens while the batch is locked. */
    method ValidateLocked(id: BatchId, expectedVersion: nat) returns (outcome: Execution<Books, BatchView>)
      modifies `batches
      ensures outcome == Validate(BuilderOf(sort), old(Data()), id, expectedVersion)
      ensures Data() == if outcome.Success? then outcome.data else old(Data())
    {
      var refusal := Recheck(id, expectedVersion, Previewed);
      if refusal.Some? { return Failure(refusal.value); }
      var batch := batches[id];
      batch := batch.(status := Validated, rowVersion := batch.rowVersion + 1);
      outcome := Save(id, batch);
    }

    method ValidateCommand(id: BatchId, expectedVersion: nat) returns (outcome: Execution<Books, BatchView>)
      requires Valid()
      modifies `batches
      ensures Valid()
      ensures outcome == Validate(BuilderOf(sort), old(Data()), id, expectedVersion)
      ensures Data() == if outcome.Success? then outcome.data else old(Data())
    {
      ghost var before := Data();
      outcome := ValidateLocked(id, expectedVersion);
      if outcome.Success? { ValidateKeeps(BuilderOf(sort), before, id, expectedVersion); }
    }

    /** What happens while the batch is locked. */
    method GenerateLocked(id: BatchId, expectedVersion: nat) returns (outcome: Execution<Books, BatchView>)
      modifies `batches, `claims
      ensures outcome == Generate(BuilderOf(sort), old(Data()), id, expectedVersion)
      ensures Data() == if outcome.Success? then outcome.data else old(Data())
    {
      var refusal := Recheck(id, expectedVersion, Validated);
      if refusal.Some? { return Failure(refusal.value); }
      var batch := batches[id];
      var claimed := InsertClaims(batch.sources, id);
      if !claimed { return Failure("ACCOUNTING_SOURCE_ALREADY_EXPORTED"); }
      var artifact := Render(RowsOf(batch.lines), mappings[batch.scope.mapping].config.delimiter);
      batch := batch.(status := Generated, rowVersion := batch.rowVersion + 1, artifact := Some(artifact));
      outcome := Save(id, batch);
    }

    method GenerateCommand(id: BatchId, expectedVersion: nat) returns (outcome: Execution<Books, BatchView>)
      requires Valid()
      modifies `batches, `claims
      ensures Valid()
      ensures outcome == Generate(BuilderOf(sort), old(Data()), id, expectedVersion)
      ensures Data() == if outcome.Success? then outcome.data else old(Data())
    {
      ghost var before := Data();
      outcome := GenerateLocked(id, expectedVersion);
      if outcome.Success? { GenerateKeeps(BuilderOf(sort), before, id, expectedVersion); }
    }

    method CancelCommand(id: BatchId, expectedVersion: nat) returns (outcome: Execution<Books, BatchView>)
      requires Valid()
      modifies `batches, `claims
      ensures Valid()
      ensures outcome == Cancel(old(Data()), id, expectedVersion)
      ensures Data() == if outcome.Success? then outcome.data else old(Data())
    {
      if Cancel(Data(), id, expectedVersion).Success? { CancelKeeps(BuilderOf(sort), Data(), id, expectedVersion); }
      if id !in batches { return Failure("ACCOUNTING_EXPORT_NOT_FOUND"); }
      var batch := batches[id];
      if batch.rowVersion != expectedVersion { return Failure("CONCURRENT_MODIFICATION"); }
      if batch.status.Cancelled? { return Failure("ACCOUNTING_EXPORT_ALREADY_CANCELLED"); }
      claims := Release(claims, id);
      batch := batch.(status := Cancelled, rowVersion := batch.rowVersion + 1);
      outcome := Save(id, batch);
    }

    method ReexportCommand(id: BatchId, mapping: Option<MappingId>, newId: BatchId)
      returns (outcome: Execution<Books, BatchView>)
      requires Valid()
      modifies `batches
      ensures Valid()
      ensures outcome == Reexport(BuilderOf(sort), old(Data()), id, mapping, newId)
      ensures Data() == if outcome.Success? then outcome.data else old(Data())
    {
      if Reexport(BuilderOf(sort), Data(), id, mapping, newId).Success? { ReexportKeeps(BuilderOf(sort), Data(), id, mapping, newId); }
      if id !in batches { return Failure("ACCOUNTING_EXPORT_NOT_FOUND"); }
      var original := batches[id];
      if !original.status.Cancelled? { return Failure("ACCOUNTING_REEXPORT_REQUIRES_CANCELLED"); }
      var mappingId := if mapping.Some? then mapping.value else original.scope.mapping;
      outcome := PersistNewPreview(newId, original.scope.(mapping := mappingId), Some(id));
    }

    method Dispatch(order: Order, newId: BatchId, key: CommandKey) returns (outcome: Execution<Books, BatchView>)
      requires Valid()
      modifies `batches, `claims
      ensures Valid()
      ensures outcome == Execute(BuilderOf(sort), old(Data()), key, order, newId)
      ensures Data() == if outcome.Success? then outcome.data else old(Data())
    {
      if Execute(BuilderOf(sort), Data(), key, order, newId).Success? { ExecuteKeeps(BuilderOf(sort), Data(), key, order, newId); }
      match order
      case PreviewExport(scope) => outcome := PersistNewPreview(newId, scope, None);
      case ValidateBatch(id, version) => outcome := ValidateCommand(id, version);
      case GenerateBatch(id, version) => outcome := GenerateCommand(id, version);
      case CancelBatch(id, version, _) => outcome := CancelCommand(id, version);
      case ReexportBatch(id, mapping, _) => outcome := ReexportCommand(id, mapping, newId);
    }

    /** One command in one transaction: the receipt is looked up first and saved last. */
    method Handle(request: Request<CommandKey, Order, BatchId>) returns (answer: Answer<BatchView>)
      requires Valid()
      modifies `batches, `claims, `receipts
      ensures Valid()
      ensures (View(), answer) == Perform(TheSystem(BuilderOf(sort)), old(View()), request)
    {
      if request.key.None? { return KeyInvalid; }
      var key := request.key.value;
      if key in receipts {
        return if receipts[key].content != request.content then KeyReused else Replayed(receipts[key].result);
      }
      var outcome := Dispatch(request.content, request.drawn, key);
      match outcome
      case Failure(error) => answer := Refused(error);
      case Success(_, result) =>
        receipts := receipts[key := Receipt(request.content, result)];
        answer := Performed(result);
    }
  }
}
