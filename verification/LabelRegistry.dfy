/** Identification labels: issued, printed, invalidated and replaced, one transaction per command. */
module LabelRegistry {
  import opened DecimalDigits
  import opened IdempotentCommands
  import opened JsText
  import opened Options

  type LabelId = string

  datatype EntityType =
    | StockArticle | StockLot | StockLocation | WorkOrder | PurchaseOrder | Reception | QualityControl | Tool | Delivery

  datatype EntityKey = EntityKey(entityType: EntityType, entityId: string)

  datatype Flow =
    | Receive | Putaway | Transfer | Consume | StartWorkOrder | QualityCheck | ToolIssue | ToolReturn | Ship | Traceability

  /** What the business tables say of an entity; `barred` holds the flows its status forbids. */
  datatype Entity = Entity(humanCode: string, barred: set<Flow>)

  datatype Status = Active | Invalidated | Replaced

  /** `issued` is the position of the label in the order of issue. */
  datatype Label = Label(
    publicId: string, entity: EntityKey, humanCode: string, status: Status, replacedBy: Option<LabelId>, issued: nat)

  datatype PrintKind = FirstPrint | Reprint

  datatype Print = Print(labelId: LabelId, kind: PrintKind, reason: Option<string>)

  datatype Registry = Registry(
    entities: map<EntityKey, Entity>, labels: map<LabelId, Label>, prints: seq<Print>, managers: set<(nat, EntityType)>)

  datatype Order =
    | Issue(entityType: EntityType, entityId: string)
    | PrintLabel(labelId: LabelId, motive: Option<string>)
    | Invalidate(labelId: LabelId, reason: string)
    | Replace(labelId: LabelId, reason: string)

  datatype CommandType = LabelIssue | LabelPrint | LabelInvalidate | LabelReplace

  /** Receipts are kept per actor, command type and key. */
  datatype CommandKey = CommandKey(actor: nat, commandType: CommandType, key: string)

  /** What the server draws for a new label. */
  datatype Drawn = Drawn(labelId: LabelId, publicId: string)

  datatype Result =
    | Issued(labelId: LabelId, row: Label)
    | Printed(labelId: LabelId, kind: PrintKind)
    | Withdrawn(labelId: LabelId, row: Label)
    | Superseded(previous: Label, labelId: LabelId, row: Label)

  /** Business tables and rights change on their own. */
  datatype Change =
    | SetEntity(entityType: EntityType, entityId: string, entity: Entity)
    | RemoveEntity(key: EntityKey)
    | SetManager(actor: nat, entityType: EntityType, allowed: bool)

  // ---------------------------------------------------------------- entities

  predicate HasUuid(t: EntityType) { !t.StockLocation? && !t.WorkOrder? && !t.Tool? }

  predicate IsHex(c: char) { IsDigit(c) || 'a' <= c <= 'f' || 'A' <= c <= 'F' }

  predicate IsUuid(s: string) {
    && |s| == 36
    && (forall i :: 0 <= i < 36 ==> if i in {8, 13, 18, 23} then s[i] == '-' else IsHex(s[i]))
    && '1' <= s[14] <= '5' && s[19] in "89abAB"
  }

  function LowerChar(c: char): char {
    if 'A' <= c <= 'F' then (c as int - 'A' as int + 'a' as int) as char else c
  }

  function Lower(s: string): (r: string)
    ensures |r| == |s| && forall i :: 0 <= i < |s| ==> r[i] == LowerChar(s[i])
  {
    seq(|s|, i requires 0 <= i < |s| => LowerChar(s[i]))
  }

  const MAX_SAFE_INTEGER: nat := 9007199254740991

  predicate IsIntegerId(s: string) {
    s != "" && AllDigits(s) && s[0] != '0' && Value(s) <= MAX_SAFE_INTEGER
  }

  /** The spelling under which the business table returns an identifier, if it has the format at all. */
  function CanonicalId(t: EntityType, id: string): Option<string> {
    if HasUuid(t) then if IsUuid(id) then Some(Lower(id)) else None
    else if IsIntegerId(id) then Some(id) else None
  }

  function FindEntity(entities: map<EntityKey, Entity>, t: EntityType, id: string): Option<EntityKey> {
    var canonical := CanonicalId(t, id);
    if canonical.Some? && EntityKey(t, canonical.value) in entities then Some(EntityKey(t, canonical.value)) else None
  }

  /** Looking an entity up under the identifier it was found with finds the same entity. */
  lemma {:induction false} CanonicalIsStable(t: EntityType, id: string)
    requires CanonicalId(t, id).Some?
    ensures CanonicalId(t, CanonicalId(t, id).value) == CanonicalId(t, id)
  {
    if HasUuid(t) {
      var c := Lower(id);
      assert forall i :: 0 <= i < 36 ==> c[i] == LowerChar(id[i]) && LowerChar(c[i]) == c[i];
      assert Lower(c) == c;
    }
  }

  // ---------------------------------------------------------------- the tables

  predicate HasActive(labels: map<LabelId, Label>, entity: EntityKey) {
    exists id :: id in labels && labels[id].status.Active? && labels[id].entity == entity
  }

  /** The insert is refused by the unique indexes: on the identifier, the public one, and the active label of an entity. */
  function InsertLabel(labels: map<LabelId, Label>, drawn: Drawn, entity: EntityKey, humanCode: string): Option<map<LabelId, Label>> {
    if drawn.labelId in labels || HasActive(labels, entity) || exists id :: id in labels && labels[id].publicId == drawn.publicId
    then None
    else Some(labels[drawn.labelId := Label(drawn.publicId, entity, humanCode, Active, None, |labels|)])
  }

  /** One update serves both: without a successor the label is invalidated, with one it is replaced. */
  function InvalidateLabel(labels: map<LabelId, Label>, id: LabelId, replacement: Option<LabelId>): map<LabelId, Label>
    requires id in labels
  {
    labels[id := labels[id].(status := if replacement.Some? then Replaced else Invalidated, replacedBy := replacement)]
  }

  predicate PrintedBefore(prints: seq<Print>, id: LabelId) {
    exists i :: 0 <= i < |prints| && prints[i].labelId == id
  }

  // ---------------------------------------------------------------- commands

  /** Rights are checked, and the label looked up, before the transaction. */
  function Admit(d: Registry, key: CommandKey, order: Order): Option<string> {
    if order.Issue? then
      if (key.actor, order.entityType) in d.managers then None else Some("IDENTIFICATION_MANAGE_PERMISSION_REQUIRED")
    else if order.labelId !in d.labels then Some("IDENTIFICATION_LABEL_NOT_FOUND")
    else if (key.actor, d.labels[order.labelId].entity.entityType) in d.managers then None
    else Some("IDENTIFICATION_MANAGE_PERMISSION_REQUIRED")
  }

  function ExecuteIssue(d: Registry, t: EntityType, id: string, drawn: Drawn): Execution<Registry, Result> {
    var entity := FindEntity(d.entities, t, id);
    if entity.None? then Failure("IDENTIFICATION_ENTITY_NOT_FOUND")
    else if Traceability in d.entities[entity.value].barred then Failure("IDENTIFICATION_ENTITY_STATUS_FORBIDDEN")
    else
      match InsertLabel(d.labels, drawn, entity.value, d.entities[entity.value].humanCode)
      case None => Failure("IDENTIFICATION_LABEL_ALREADY_ACTIVE")
      case Some(labels) => Success(d.(labels := labels), Issued(drawn.labelId, labels[drawn.labelId]))
  }

  function ExecutePrint(d: Registry, id: LabelId, reason: Option<string>): Execution<Registry, Result> {
    if id !in d.labels then Failure("IDENTIFICATION_LABEL_NOT_FOUND")
    else if !d.labels[id].status.Active? then Failure("IDENTIFICATION_LABEL_INVALIDATED")
    else
      var kind := if PrintedBefore(d.prints, id) then Reprint else FirstPrint;
      if kind.Reprint? && reason.None? then Failure("IDENTIFICATION_REPRINT_REASON_REQUIRED")
      else Success(d.(prints := d.prints + [Print(id, kind, reason)]), Printed(id, kind))
  }

  function ExecuteInvalidate(d: Registry, id: LabelId): Execution<Registry, Result> {
    if id !in d.labels then Failure("IDENTIFICATION_LABEL_NOT_FOUND")
    else if !d.labels[id].status.Active? then Failure("IDENTIFICATION_LABEL_NOT_ACTIVE")
    else
      var labels := InvalidateLabel(d.labels, id, None);
      Success(d.(labels := labels), Withdrawn(id, labels[id]))
  }

  /** The old label is invalidated first, so that the new one may be inserted, and then tied to it. */
  function ExecuteReplace(d: Registry, id: LabelId, drawn: Drawn): Execution<Registry, Result> {
    if id !in d.labels then Failure("IDENTIFICATION_LABEL_NOT_FOUND")
    else if !d.labels[id].status.Active? then Failure("IDENTIFICATION_LABEL_NOT_ACTIVE")
    else
      var previous := d.labels[id];
      var entity := FindEntity(d.entities, previous.entity.entityType, previous.entity.entityId);
      if entity.None? then Failure("IDENTIFICATION_ENTITY_NOT_FOUND")
      else
        match InsertLabel(InvalidateLabel(d.labels, id, None), drawn, entity.value, previous.humanCode)
        case None => Failure("IDENTIFICATION_LABEL_ALREADY_ACTIVE")
        case Some(inserted) =>
          var labels := InvalidateLabel(inserted, id, Some(drawn.labelId));
          Success(d.(labels := labels), Superseded(labels[id], drawn.labelId, labels[drawn.labelId]))
  }

  function Execute(d: Registry, key: CommandKey, order: Order, drawn: Drawn): Execution<Registry, Result> {
    match order
    case Issue(t, id) => ExecuteIssue(d, t, id, drawn)
    case PrintLabel(id, reason) => ExecutePrint(d, id, reason)
    case Invalidate(id, _) => ExecuteInvalidate(d, id)
    case Replace(id, _) => ExecuteReplace(d, id, drawn)
  }

  function Meanwhile(d: Registry, change: Change): Registry {
    match change
    case SetEntity(t, id, entity) =>
      var canonical := CanonicalId(t, id);
      if canonical.Some? then d.(entities := d.entities[EntityKey(t, canonical.value) := entity]) else d
    case RemoveEntity(key) => d.(entities := d.entities - {key})
    case SetManager(actor, t, allowed) =>
      d.(managers := if allowed then d.managers + {(actor, t)} else d.managers - {(actor, t)})
  }

  function TheSystem(): System<Registry, CommandKey, Order, Drawn, Result, Change> {
    System((d, key, order) => Admit(d, key, order), (d, key, order, drawn) => Execute(d, key, order, drawn),
           (d, change) => Meanwhile(d, change))
  }

  // ---------------------------------------------------------------- what holds of the tables

  /** A label's life: only a replaced label has a successor, which exists, was issued later, and names the same entity. */
  ghost predicate LabelOk(labels: map<LabelId, Label>, row: Label) {
    && (row.status.Replaced? <==> row.replacedBy.Some?)
    && row.issued < |labels|
    && CanonicalId(row.entity.entityType, row.entity.entityId) == Some(row.entity.entityId)
    && (row.replacedBy.Some? ==>
          && row.replacedBy.value in labels
          && labels[row.replacedBy.value].entity == row.entity
          && row.issued < labels[row.replacedBy.value].issued)
  }

  ghost predicate OneActive(labels: map<LabelId, Label>) {
    forall i, j ::
      (i in labels && j in labels && labels[i].status.Active? && labels[j].status.Active?
       && labels[i].entity == labels[j].entity) ==> i == j
  }

  ghost predicate LabelsOk(labels: map<LabelId, Label>) {
    (forall id :: id in labels ==> LabelOk(labels, labels[id])) && OneActive(labels)
  }

  /** The first event of a label is a print; every later one is a reprint and states a reason. */
  ghost predicate PrintsOk(prints: seq<Print>) {
    forall i :: 0 <= i < |prints| ==>
      && (prints[i].kind.FirstPrint? <==> !PrintedBefore(prints[..i], prints[i].labelId))
      && (prints[i].kind.Reprint? ==> prints[i].reason.Some?)
  }

  ghost predicate RegistryOk(d: Registry) {
    LabelsOk(d.labels) && PrintsOk(d.prints)
  }

  lemma {:induction false} InsertKeeps(
      labels: map<LabelId, Label>, drawn: Drawn, entity: EntityKey, humanCode: string, after: map<LabelId, Label>)
    requires LabelsOk(labels) && InsertLabel(labels, drawn, entity, humanCode) == Some(after)
    requires CanonicalId(entity.entityType, entity.entityId) == Some(entity.entityId)
    ensures LabelsOk(after)
  {
    assert |after| == |labels| + 1;
    forall id | id in after ensures LabelOk(after, after[id]) {
      assert id == drawn.labelId || LabelOk(labels, labels[id]);
    }
  }

  lemma {:induction false} LabelOkFrame(labels: map<LabelId, Label>, after: map<LabelId, Label>, row: Label)
    requires LabelOk(labels, row) && |after| == |labels|
    requires forall k :: k in labels ==> k in after && after[k].entity == labels[k].entity && after[k].issued == labels[k].issued
    ensures LabelOk(after, row)
  {
  }

  lemma {:induction false} InvalidateKeeps(labels: map<LabelId, Label>, id: LabelId, replacement: Option<LabelId>)
    requires LabelsOk(labels) && id in labels
    requires replacement.Some? ==>
               && replacement.value in labels && replacement.value != id
               && labels[replacement.value].entity == labels[id].entity && labels[id].issued < labels[replacement.value].issued
    ensures LabelsOk(InvalidateLabel(labels, id, replacement))
  {
    var after := InvalidateLabel(labels, id, replacement);
    assert after.Keys == labels.Keys;
    assert |after| == |labels|;
    forall other | other in after ensures LabelOk(after, after[other]) {
      assert LabelOk(labels, labels[other]);
      if other == id { InvalidatedRowOk(labels, after, id, replacement); } else { LabelOkFrame(labels, after, labels[other]); }
    }
    FewerActive(labels, id, after);
  }

  lemma {:induction false} InvalidatedRowOk(
      labels: map<LabelId, Label>, after: map<LabelId, Label>, id: LabelId, replacement: Option<LabelId>)
    requires id in labels && LabelOk(labels, labels[id]) && after == InvalidateLabel(labels, id, replacement)
    requires |after| == |labels|
    requires replacement.Some? ==>
               && replacement.value in labels && replacement.value != id
               && labels[replacement.value].entity == labels[id].entity && labels[id].issued < labels[replacement.value].issued
    ensures LabelOk(after, after[id])
  {
  }

  lemma {:induction false} FewerActive(labels: map<LabelId, Label>, id: LabelId, after: map<LabelId, Label>)
    requires OneActive(labels) && id in labels && id in after && !after[id].status.Active?
    requires after == labels[id := after[id]]
    ensures OneActive(after)
  {
  }

  lemma {:induction false} ReplaceKeeps(d: Registry, id: LabelId, drawn: Drawn)
    requires LabelsOk(d.labels) && ExecuteReplace(d, id, drawn).Success?
    ensures LabelsOk(ExecuteReplace(d, id, drawn).data.labels)
  {
    var previous := d.labels[id];
    assert LabelOk(d.labels, previous);
    InvalidateKeeps(d.labels, id, None);
    var withdrawn := InvalidateLabel(d.labels, id, None);
    var inserted := InsertLabel(withdrawn, drawn, previous.entity, previous.humanCode).value;
    InsertKeeps(withdrawn, drawn, previous.entity, previous.humanCode, inserted);
    assert LabelOk(withdrawn, withdrawn[id]);
    InvalidateKeeps(inserted, id, Some(drawn.labelId));
  }

  lemma {:induction false} PrintKeeps(prints: seq<Print>, event: Print)
    requires PrintsOk(prints)
    requires event.kind == if PrintedBefore(prints, event.labelId) then Reprint else FirstPrint
    requires event.kind.Reprint? ==> event.reason.Some?
    ensures PrintsOk(prints + [event])
  {
    forall i | 0 <= i < |prints| ensures (prints + [event])[..i] == prints[..i] {}
    assert (prints + [event])[..|prints|] == prints;
  }

  lemma {:induction false} IssueKeeps(d: Registry, t: EntityType, id: string, drawn: Drawn)
    requires RegistryOk(d) && ExecuteIssue(d, t, id, drawn).Success?
    ensures RegistryOk(ExecuteIssue(d, t, id, drawn).data)
  {
    var entity := FindEntity(d.entities, t, id).value;
    CanonicalIsStable(t, id);
    InsertKeeps(d.labels, drawn, entity, d.entities[entity].humanCode, ExecuteIssue(d, t, id, drawn).data.labels);
  }

  lemma {:induction false} PrintingKeeps(d: Registry, id: LabelId, reason: Option<string>)
    requires RegistryOk(d) && ExecutePrint(d, id, reason).Success?
    ensures RegistryOk(ExecutePrint(d, id, reason).data)
  {
    PrintKeeps(d.prints, Print(id, if PrintedBefore(d.prints, id) then Reprint else FirstPrint, reason));
  }

  lemma {:induction false} InvalidationKeeps(d: Registry, id: LabelId)
    requires RegistryOk(d) && ExecuteInvalidate(d, id).Success?
    ensures RegistryOk(ExecuteInvalidate(d, id).data)
  {
    InvalidateKeeps(d.labels, id, None);
  }

  lemma {:induction false} ReplacementKeeps(d: Registry, id: LabelId, drawn: Drawn)
    requires RegistryOk(d) && ExecuteReplace(d, id, drawn).Success?
    ensures RegistryOk(ExecuteReplace(d, id, drawn).data)
  {
    ReplaceKeeps(d, id, drawn);
  }

  lemma {:induction false} ExecuteKeeps(d: Registry, key: CommandKey, order: Order, drawn: Drawn)
    requires RegistryOk(d) && Execute(d, key, order, drawn).Success?
    ensures RegistryOk(Execute(d, key, order, drawn).data)
  {
    match order
    case Issue(t, id) => IssueKeeps(d, t, id, drawn);
    case PrintLabel(id, reason) => PrintingKeeps(d, id, reason);
    case Invalidate(id, _) => InvalidationKeeps(d, id);
    case Replace(id, _) => ReplacementKeeps(d, id, drawn);
  }
}
