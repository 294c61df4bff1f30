/** The label service as it runs: one transaction per command, rolled back on failure. */
module LabelService {
  import opened IdempotentCommands
  import opened LabelRegistry
  import opened Options

  class Service {
    var entities: map<EntityKey, Entity>
    var labels: map<LabelId, Label>
    var prints: seq<Print>
    var managers: set<(nat, EntityType)>
    var receipts: map<CommandKey, Receipt<Order, Result>>

    ghost function Data(): Registry
      reads this
    {
      Registry(entities, labels, prints, managers)
    }

    ghost function View(): State<Registry, CommandKey, Order, Result>
      reads this
    {
      State(Data(), receipts)
    }

    /** The life cycle of labels and the order of prints. */
    ghost predicate Valid()
      reads this
    {
      RegistryOk(Data())
    }

    constructor ()
      ensures Valid() && View() == State(Registry(map[], map[], [], {}), map[])
    {
      entities, labels, prints, managers, receipts := map[], map[], [], {}, map[];
    }

    /** Inserts an active label, unless a unique index refuses it. */
    method InsertNewLabel(drawn: Drawn, entity: EntityKey, humanCode: string) returns (ok: bool)
      modifies `labels
      ensures ok <==> InsertLabel(old(labels), drawn, entity, humanCode).Some?
      ensures labels == if ok then InsertLabel(old(labels), drawn, entity, humanCode).value else old(labels)
    {
      ok := drawn.labelId !in labels && !HasActive(labels, entity)
            && !(exists id :: id in labels && labels[id].publicId == drawn.publicId);
      if ok { labels := labels[drawn.labelId := Label(drawn.publicId, entity, humanCode, Active, None, |labels|)]; }
    }

    method UpdateStatus(id: LabelId, replacement: Option<LabelId>)
      requires id in labels
      modifies `labels
      ensures labels == InvalidateLabel(old(labels), id, replacement)
    {
      var status := if replacement.Some? then Replaced else Invalidated;
      labels := labels[id := labels[id].(status := status, replacedBy := replacement)];
    }

    method IssueCommand(t: EntityType, entityId: string, drawn: Drawn) returns (outcome: Execution<Registry, Result>)
      requires Valid()
      modifies `labels
      ensures Valid()
      ensures outcome == ExecuteIssue(old(Data()), t, entityId, drawn)
      ensures Data() == if outcome.Success? then outcome.data else old(Data())
    {
      if ExecuteIssue(Data(), t, entityId, drawn).Success? { IssueKeeps(Data(), t, entityId, drawn); }
      var entity := FindEntity(entities, t, entityId);
      if entity.None? { return Failure("IDENTIFICATION_ENTITY_NOT_FOUND"); }
      if Traceability in entities[entity.value].barred { return Failure("IDENTIFICATION_ENTITY_STATUS_FORBIDDEN"); }
      var inserted := InsertNewLabel(drawn, entity.value, entities[entity.value].humanCode);
      if !inserted { return Failure("IDENTIFICATION_LABEL_ALREADY_ACTIVE"); }
      outcome := Success(Registry(entities, labels, prints, managers), Issued(drawn.labelId, labels[drawn.labelId]));
    }

    method PrintCommand(id: LabelId, motive: Option<string>) returns (outcome: Execution<Registry, Result>)
      requires Valid()
      modifies `prints
      ensures Valid()
      ensures outcome == ExecutePrint(old(Data()), id, motive)
      ensures Data() == if outcome.Success? then outcome.data else old(Data())
    {
      if ExecutePrint(Data(), id, motive).Success? { PrintingKeeps(Data(), id, motive); }
      if id !in labels { return Failure("IDENTIFICATION_LABEL_NOT_FOUND"); }
      if !labels[id].status.Active? { return Failure("IDENTIFICATION_LABEL_INVALIDATED"); }
      var kind := if PrintedBefore(prints, id) then Reprint else FirstPrint;
      if kind.Reprint? && motive.None? { return Failure("IDENTIFICATION_REPRINT_REASON_REQUIRED"); }
      prints := prints + [Print(id, kind, motive)];
      outcome := Success(Registry(entities, labels, prints, managers), Printed(id, kind));
    }

    method InvalidateCommand(id: LabelId) returns (outcome: Execution<Registry, Result>)
      requires Valid()
      modifies `labels
      ensures Valid()
      ensures outcome == ExecuteInvalidate(old(Data()), id)
      ensures Data() == if outcome.Success? then outcome.data else old(Data())
    {
      if ExecuteInvalidate(Data(), id).Success? { InvalidationKeeps(Data(), id); }
      if id !in labels { return Failure("IDENTIFICATION_LABEL_NOT_FOUND"); }
      if !labels[id].status.Active? { return Failure("IDENTIFICATION_LABEL_NOT_ACTIVE"); }
      UpdateStatus(id, None);
      outcome := Success(Registry(entities, labels, prints, managers), Withdrawn(id, labels[id]));
    }

    /** Withdraw, insert, tie together; a refused insert rolls the withdrawal back. */
    method ReplaceCommand(id: LabelId, drawn: Drawn) returns (outcome: Execution<Registry, Result>)
      requires Valid()
      modifies `labels
      ensures Valid()
      ensures outcome == ExecuteReplace(old(Data()), id, drawn)
      ensures Data() == if outcome.Success? then outcome.data else old(Data())
    {
      if ExecuteReplace(Data(), id, drawn).Success? { ReplacementKeeps(Data(), id, drawn); }
      if id !in labels { return Failure("IDENTIFICATION_LABEL_NOT_FOUND"); }
      if !labels[id].status.Active? { return Failure("IDENTIFICATION_LABEL_NOT_ACTIVE"); }
      var savepoint := labels;
      var previous := labels[id];
      var entity := FindEntity(entities, previous.entity.entityType, previous.entity.entityId);
      if entity.None? { return Failure("IDENTIFICATION_ENTITY_NOT_FOUND"); }
      UpdateStatus(id, None);
      var inserted := InsertNewLabel(drawn, entity.value, previous.humanCode);
      if !inserted {
        labels := savepoint;
        return Failure("IDENTIFICATION_LABEL_ALREADY_ACTIVE");
      }
      UpdateStatus(id, Some(drawn.labelId));
      outcome := Success(Registry(entities, labels, prints, managers),
                         Superseded(labels[id], drawn.labelId, labels[drawn.labelId]));
    }

    method Dispatch(key: CommandKey, order: Order, drawn: Drawn) returns (outcome: Execution<Registry, Result>)
      requires Valid()
      modifies `labels, `prints
      ensures Valid()
      ensures outcome == Execute(old(Data()), key, order, drawn)
      ensures Data() == if outcome.Success? then outcome.data else old(Data())
    {
      if Execute(Data(), key, order, drawn).Success? { ExecuteKeeps(Data(), key, order, drawn); }
      match order
      case Issue(t, entityId) => outcome := IssueCommand(t, entityId, drawn);
      case PrintLabel(id, motive) => outcome := PrintCommand(id, motive);
      case Invalidate(id, _) => outcome := InvalidateCommand(id);
      case Replace(id, _) => outcome := ReplaceCommand(id, drawn);
    }

    /** Rights first, then the receipt, then the command and its receipt in one transaction. */
    method Handle(request: Request<CommandKey, Order, Drawn>) returns (answer: Answer<Result>)
      requires Valid()
      modifies `labels, `prints, `receipts
      ensures Valid()
      ensures (View(), answer) == Perform(TheSystem(), old(View()), request)
    {
      if request.key.None? { return KeyInvalid; }
      var key := request.key.value;
      var refusal := Admit(Registry(entities, labels, prints, managers), key, request.content);
      if refusal.Some? { return Refused(refusal.value); }
      if key in receipts {
        return if receipts[key].content != request.content then KeyReused else Replayed(receipts[key].result);
      }
      var outcome := Dispatch(key, request.content, request.drawn);
      match outcome
      case Failure(error) => answer := Refused(error);
      case Success(_, result) =>
        receipts := receipts[key := Receipt(request.content, result)];
        answer := Performed(result);
    }
  }
}
