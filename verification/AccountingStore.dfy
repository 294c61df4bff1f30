/** The life of an export batch: preview, validation, generation with claims, cancellation, re-export. */
module AccountingStore {
  import opened AccountingDomain
  import opened AccountingFile
  import opened DecimalMoney
  import opened IdempotentCommands
  import opened Options

  type BatchId = string
  type MappingId = string

  datatype DocumentKey = DocumentKey(sourceType: SourceType, sourceId: string)

  /** A finance document as the export query sees it; `day` orders dates. Whether it is claimed is not its own affair. */
  datatype Document = Document(source: Source, day: int, eligible: bool)

  datatype MappingVersion = MappingVersion(config: Mapping, active: bool, effectiveFrom: int, effectiveTo: Option<int>)

  datatype Status = Previewed | Validated | Generated | Cancelled

  datatype Scope = Scope(mapping: MappingId, periodFrom: int, periodTo: int, types: set<SourceType>)

  datatype Batch = Batch(
    scope: Scope, status: Status, rowVersion: nat, sources: seq<Source>, lines: seq<Line>, findings: seq<Finding>,
    artifact: Option<string>, reexportOf: Option<BatchId>)

  /** `claims` holds the claims that are not released: the unique index allows one per document. */
  datatype Books = Books(
    mappings: map<MappingId, MappingVersion>, documents: seq<Document>,
    batches: map<BatchId, Batch>, claims: map<DocumentKey, BatchId>)

  datatype CommandKey = CommandKey(actor: nat, key: string)

  datatype Order =
    | PreviewExport(scope: Scope)
    | ValidateBatch(batch: BatchId, expectedVersion: nat)
    | GenerateBatch(batch: BatchId, expectedVersion: nat)
    | CancelBatch(batch: BatchId, expectedVersion: nat, reason: string)
    | ReexportBatch(batch: BatchId, mapping: Option<MappingId>, reason: string)

  /** What else happens to the same tables: documents change, mapping versions appear and are switched. */
  datatype Change =
    | SetDocuments(documents: seq<Document>)
    | AddMapping(id: MappingId, version: MappingVersion)
    | SwitchMapping(id: MappingId, active: bool)

  datatype BatchView = BatchView(id: BatchId, batch: Batch)

  /** How lines and findings are built from loaded documents. */
  type Builder = (seq<Source>, Mapping) -> Outcome<Built>

  /** The rule by which documents are ordered before they are built; it depends on the locale. */
  type Sorting = seq<Source> -> seq<Source>

  function BuilderOf(sort: Sorting): Builder {
    (sources, config) => Preview(sort(sources), config, AccountsOf(config))
  }

  // ---------------------------------------------------------------- loading documents

  function KeyOf(s: Source): DocumentKey { DocumentKey(s.sourceType, s.sourceId) }

  function Keys(sources: seq<Source>): set<DocumentKey> {
    set s | s in sources :: KeyOf(s)
  }

  predicate InScope(d: Document, scope: Scope, t: SourceType) {
    && d.eligible && d.source.sourceType == t && t in scope.types && scope.periodFrom <= d.day <= scope.periodTo
  }

  function Seen(s: Source, claims: map<DocumentKey, BatchId>): Source {
    s.(claimedBy := if KeyOf(s) in claims then Some(claims[KeyOf(s)]) else None)
  }

  function LoadType(
    documents: seq<Document>, claims: map<DocumentKey, BatchId>, scope: Scope, t: SourceType): seq<Source>
  {
    if documents == [] then []
    else (if InScope(documents[0], scope, t) then [Seen(documents[0].source, claims)] else [])
         + LoadType(documents[1..], claims, scope, t)
  }

  /** The documents of the scope, type by type, each with the batch that holds it. */
  function LoadSources(b: Books, scope: Scope): seq<Source> {
    LoadType(b.documents, b.claims, scope, Invoice)
    + LoadType(b.documents, b.claims, scope, CreditNote)
    + LoadType(b.documents, b.claims, scope, Payment)
  }

  // ---------------------------------------------------------------- what the tables accept

  predicate IsCode(s: string, shortest: nat, longest: nat) {
    shortest <= |s| <= longest && forall i :: 0 <= i < |s| ==>
      ('A' <= s[i] <= 'Z' || 'a' <= s[i] <= 'z' || '0' <= s[i] <= '9')
  }

  /** The check constraints on an entry. */
  predicate Storable(line: Line) {
    && ((0 < line.debit && line.credit == 0) || (0 < line.credit && line.debit == 0))
    && IsCode(line.journal, 1, 12) && IsCode(line.account, 3, 20)
    && (line.thirdParty.Some? ==> IsCode(line.thirdParty.value, 3, 20))
    && IsCurrency(line.currency) && 0 < line.lineNo
    && (line.taxRate.Some? ==> 0 <= line.taxRate.value <= 1000000)
  }

  // ---------------------------------------------------------------- commands

  function Put(b: Books, id: BatchId, batch: Batch): Execution<Books, BatchView> {
    Success(b.(batches := b.batches[id := batch]), BatchView(id, batch))
  }

  function PersistPreview(
    build: Builder, b: Books, id: BatchId, scope: Scope, reexportOf: Option<BatchId>): Execution<Books, BatchView>
  {
    if scope.mapping !in b.mappings then Failure("ACCOUNTING_MAPPING_NOT_FOUND")
    else
      var version := b.mappings[scope.mapping];
      if !version.active then Failure("ACCOUNTING_MAPPING_NOT_ACTIVE")
      else if version.effectiveFrom > scope.periodFrom
              || (version.effectiveTo.Some? && version.effectiveTo.value < scope.periodTo)
      then Failure("ACCOUNTING_MAPPING_PERIOD_MISMATCH")
      else
        var sources := LoadSources(b, scope);
        match build(sources, version.config)
        case DecimalError => Failure("DECIMAL_INVALID")
        case Ok(preview) =>
          if id in b.batches || exists i | 0 <= i < |preview.lines| :: !Storable(preview.lines[i])
          then Failure("CONSTRAINT_VIOLATED")
          else Put(b, id, Batch(scope, Previewed, 1, sources, preview.lines, preview.findings, None, reexportOf))
  }

  /** Inserts the claims of a batch one after the other; the first document claimed elsewhere makes the insert fail. */
  function ClaimAll(claims: map<DocumentKey, BatchId>, sources: seq<Source>, id: BatchId)
    : Option<map<DocumentKey, BatchId>>
    decreases |sources|
  {
    if sources == [] then Some(claims)
    else if KeyOf(sources[0]) in claims then None
    else ClaimAll(claims[KeyOf(sources[0]) := id], sources[1..], id)
  }

  function Release(claims: map<DocumentKey, BatchId>, id: BatchId): map<DocumentKey, BatchId> {
    map k | k in claims && claims[k] != id :: claims[k]
  }

  function RowOf(line: Line): seq<string> {
    [line.journal, line.entryDate, line.pieceReference, line.account,
     if line.thirdParty.Some? then line.thirdParty.value else "", line.entryLabel,
     FormatDecimal(line.debit, MONEY_SCALE), FormatDecimal(line.credit, MONEY_SCALE), line.currency,
     if line.taxRate.Some? then FormatDecimal(line.taxRate.value, RATE_SCALE) else "", line.axes]
  }

  function RowsOf(lines: seq<Line>): seq<seq<string>> {
    seq(|lines|, i requires 0 <= i < |lines| => RowOf(lines[i]))
  }

  /** Version, status, and a fresh preview that is still the stored one and has no blocker. */
  function CheckBatch(build: Builder, b: Books, id: BatchId, expectedVersion: nat, expected: Status): Option<string> {
    if id !in b.batches then Some("ACCOUNTING_EXPORT_NOT_FOUND")
    else
      var batch := b.batches[id];
      if batch.rowVersion != expectedVersion then Some("CONCURRENT_MODIFICATION")
      else if batch.status != expected then Some("ACCOUNTING_EXPORT_TRANSITION_FORBIDDEN")
      else if batch.scope.mapping !in b.mappings then Some("ACCOUNTING_MAPPING_NOT_FOUND")
      else
        match build(LoadSources(b, batch.scope), b.mappings[batch.scope.mapping].config)
        case DecimalError => Some("DECIMAL_INVALID")
        case Ok(now) =>
          if LoadSources(b, batch.scope) != batch.sources || now.lines != batch.lines
          then Some("ACCOUNTING_EXPORT_PREVIEW_STALE")
          else if !CanAdvance(now) then Some("ACCOUNTING_EXPORT_BLOCKED")
          else None
  }

  function Validate(build: Builder, b: Books, id: BatchId, expectedVersion: nat): Execution<Books, BatchView> {
    var refusal := CheckBatch(build, b, id, expectedVersion, Previewed);
    if refusal.Some? then Failure(refusal.value)
    else Put(b, id, b.batches[id].(status := Validated, rowVersion := b.batches[id].rowVersion + 1))
  }

  function Generate(build: Builder, b: Books, id: BatchId, expectedVersion: nat): Execution<Books, BatchView> {
    var refusal := CheckBatch(build, b, id, expectedVersion, Validated);
    if refusal.Some? then Failure(refusal.value)
    else
      var batch := b.batches[id];
      match ClaimAll(b.claims, batch.sources, id)
      case None => Failure("ACCOUNTING_SOURCE_ALREADY_EXPORTED")
      case Some(claims) =>
        var artifact := Render(RowsOf(batch.lines), b.mappings[batch.scope.mapping].config.delimiter);
        Put(b.(claims := claims), id,
            batch.(status := Generated, rowVersion := batch.rowVersion + 1, artifact := Some(artifact)))
  }

  function Cancel(b: Books, id: BatchId, expectedVersion: nat): Execution<Books, BatchView> {
    if id !in b.batches then Failure("ACCOUNTING_EXPORT_NOT_FOUND")
    else
      var batch := b.batches[id];
      if batch.rowVersion != expectedVersion then Failure("CONCURRENT_MODIFICATION")
      else if batch.status.Cancelled? then Failure("ACCOUNTING_EXPORT_ALREADY_CANCELLED")
      else Put(b.(claims := Release(b.claims, id)), id, batch.(status := Cancelled, rowVersion := batch.rowVersion + 1))
  }

  function Reexport(build: Builder, b: Books, id: BatchId, mapping: Option<MappingId>, newId: BatchId)
    : Execution<Books, BatchView>
  {
    if id !in b.batches then Failure("ACCOUNTING_EXPORT_NOT_FOUND")
    else
      var original := b.batches[id];
      if !original.status.Cancelled? then Failure("ACCOUNTING_REEXPORT_REQUIRES_CANCELLED")
      else
        var mappingId := if mapping.Some? then mapping.value else original.scope.mapping;
        PersistPreview(build, b, newId, original.scope.(mapping := mappingId), Some(id))
  }

  function Execute(build: Builder, b: Books, key: CommandKey, order: Order, newId: BatchId): Execution<Books, BatchView> {
    match order
    case PreviewExport(scope) => PersistPreview(build, b, newId, scope, None)
    case ValidateBatch(id, version) => Validate(build, b, id, version)
    case GenerateBatch(id, version) => Generate(build, b, id, version)
    case CancelBatch(id, version, _) => Cancel(b, id, version)
    case ReexportBatch(id, mapping, _) => Reexport(build, b, id, mapping, newId)
  }

  ghost predicate DistinctDocuments(documents: seq<Document>) {
    forall i, j :: 0 <= i < j < |documents| ==> KeyOf(documents[i].source) != KeyOf(documents[j].source)
  }

  /** Documents keep their primary keys apart; a mapping version, once there, keeps its configuration. */
  function Meanwhile(b: Books, change: Change): Books {
    match change
    case SetDocuments(documents) =>
      if forall i, j | 0 <= i < j < |documents| :: KeyOf(documents[i].source) != KeyOf(documents[j].source)
      then b.(documents := documents) else b
    case AddMapping(id, version) =>
      if id in b.mappings || !IsDelimiter(version.config.delimiter) then b else b.(mappings := b.mappings[id := version])
    case SwitchMapping(id, active) =>
      if id in b.mappings then b.(mappings := b.mappings[id := b.mappings[id].(active := active)]) else b
  }

  function TheSystem(build: Builder): System<Books, CommandKey, Order, BatchId, BatchView, Change> {
    System((b, key, order) => None, (b, key, order, newId) => Execute(build, b, key, order, newId), (b, change) => Meanwhile(b, change))
  }
}
