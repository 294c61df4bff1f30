/** What holds of labels after any trace of commands, retries and outside changes. */
module LabelChains {
  import opened IdempotentCommands
  import opened LabelRegistry
  import opened Options

  type Trace = seq<Event<CommandKey, Order, Drawn, Change>>
  type Store = State<Registry, CommandKey, Order, Result>

  lemma {:induction false} TraceKeeps(s: Store, trace: Trace)
    requires RegistryOk(s.data)
    ensures RegistryOk(Run(TheSystem(), s, trace).data)
  {
    var sys := TheSystem();
    var inv := (d: Registry) => RegistryOk(d);
    forall d, key, order, drawn | inv(d) && sys.exec(d, key, order, drawn).Success?
      ensures inv(sys.exec(d, key, order, drawn).data)
    {
      ExecuteKeeps(d, key, order, drawn);
    }
    forall d, change | inv(d) ensures inv(sys.world(d, change)) {
      assert sys.world(d, change).labels == d.labels && sys.world(d, change).prints == d.prints;
    }
    InvariantHolds(sys, s, trace, inv);
  }

  // ---------------------------------------------------------------- chains of successors

  /** The labels met from `id` on, successor by successor. */
  ghost function Chain(labels: map<LabelId, Label>, id: LabelId): seq<LabelId>
    requires LabelsOk(labels) && id in labels
    decreases |labels| - labels[id].issued
  {
    assert LabelOk(labels, labels[id]);
    if labels[id].replacedBy.None? then [id] else [id] + Chain(labels, labels[id].replacedBy.value)
  }

  ghost predicate Rises(labels: map<LabelId, Label>, chain: seq<LabelId>) {
    && (forall i :: 0 <= i < |chain| ==> chain[i] in labels)
    && forall i, j :: 0 <= i < j < |chain| ==> labels[chain[i]].issued < labels[chain[j]].issued
  }

  lemma {:induction false} ChainRises(labels: map<LabelId, Label>, id: LabelId)
    requires LabelsOk(labels) && id in labels
    ensures Chain(labels, id) != [] && Chain(labels, id)[0] == id && Rises(labels, Chain(labels, id))
    decreases |labels| - labels[id].issued
  {
    assert LabelOk(labels, labels[id]);
    if labels[id].replacedBy.Some? {
      var next := labels[id].replacedBy.value;
      var rest := Chain(labels, next);
      ChainRises(labels, next);
      var chain := [id] + rest;
      forall i, j | 0 <= i < j < |chain| ensures labels[chain[i]].issued < labels[chain[j]].issued {
        if i == 0 && 1 < j { assert labels[rest[0]].issued < labels[rest[j - 1]].issued; }
      }
    }
  }

  lemma {:induction false} ChainStaysAndEnds(labels: map<LabelId, Label>, id: LabelId)
    requires LabelsOk(labels) && id in labels
    ensures var chain := Chain(labels, id);
            && chain != []
            && (forall i :: 0 <= i < |chain| ==> chain[i] in labels && labels[chain[i]].entity == labels[id].entity)
            && (forall i :: 0 <= i < |chain| - 1 ==> labels[chain[i]].replacedBy == Some(chain[i + 1]))
            && !labels[chain[|chain| - 1]].status.Replaced?
    decreases |labels| - labels[id].issued
  {
    assert LabelOk(labels, labels[id]);
    if labels[id].replacedBy.Some? {
      var next := labels[id].replacedBy.value;
      ChainStaysAndEnds(labels, next);
      ChainRises(labels, next);
    }
  }

  ghost predicate Empty(s: Store) {
    s.data.labels == map[] && s.data.prints == [] && s.receipts == map[]
  }

  lemma {:induction false} EmptyIsOk(s: Store)
    requires Empty(s)
    ensures RegistryOk(s.data)
  {
  }

  /** From `id`, successors stay on the entity, never meet a label twice, and end at an active or an invalidated label. */
  ghost predicate ChainOk(labels: map<LabelId, Label>, id: LabelId)
    requires LabelsOk(labels) && id in labels
  {
    var chain := Chain(labels, id);
    && chain != [] && chain[0] == id
    && (forall i :: 0 <= i < |chain| ==> chain[i] in labels && labels[chain[i]].entity == labels[id].entity)
    && (forall i :: 0 <= i < |chain| - 1 ==> labels[chain[i]].replacedBy == Some(chain[i + 1]))
    && (forall i, j :: 0 <= i < j < |chain| ==> chain[i] != chain[j])
    && (labels[chain[|chain| - 1]].status.Active? || labels[chain[|chain| - 1]].status.Invalidated?)
  }

  lemma {:induction false} ChainIsSound(labels: map<LabelId, Label>, id: LabelId)
    requires LabelsOk(labels) && id in labels
    ensures ChainOk(labels, id)
  {
    ChainRises(labels, id);
    ChainStaysAndEnds(labels, id);
    var chain := Chain(labels, id);
    forall i, j | 0 <= i < j < |chain| ensures chain[i] != chain[j] {
      assert labels[chain[i]].issued < labels[chain[j]].issued;
    }
  }

  /** In every reachable state: one active label per entity, successors for replaced labels only, and sound chains. */
  lemma {:induction false} LabelChainsAreSound(s: Store, trace: Trace)
    requires Empty(s)
    ensures var labels := Run(TheSystem(), s, trace).data.labels;
            && LabelsOk(labels) && OneActive(labels)
            && forall id :: id in labels ==>
                 (labels[id].status.Replaced? <==> labels[id].replacedBy.Some?) && ChainOk(labels, id)
  {
    EmptyIsOk(s);
    TraceKeeps(s, trace);
    var labels := Run(TheSystem(), s, trace).data.labels;
    forall id | id in labels
      ensures labels[id].status.Replaced? <==> labels[id].replacedBy.Some?
      ensures ChainOk(labels, id)
    {
      assert LabelOk(labels, labels[id]);
      ChainIsSound(labels, id);
    }
  }

  // ---------------------------------------------------------------- labels over time

  /** Labels stay, keep their identity, and once no longer active never change again. */
  ghost predicate Evolves(a: map<LabelId, Label>, b: map<LabelId, Label>) {
    forall id :: id in a ==>
      && id in b && b[id].publicId == a[id].publicId && b[id].entity == a[id].entity && b[id].humanCode == a[id].humanCode
      && (a[id].status.Active? || b[id] == a[id])
  }

  lemma {:induction false} ExecuteEvolves(d: Registry, key: CommandKey, order: Order, drawn: Drawn)
    requires Execute(d, key, order, drawn).Success?
    ensures Evolves(d.labels, Execute(d, key, order, drawn).data.labels)
  {
  }

  lemma {:induction false} StepEvolves(s: Store, e: Event<CommandKey, Order, Drawn, Change>)
    ensures Evolves(s.data.labels, Step(TheSystem(), s, e).0.data.labels)
  {
    match e
    case World(change) =>
      assert Step(TheSystem(), s, e).0.data == Meanwhile(s.data, change);
    case Command(r) =>
      OnlySuccessLeavesTraces(TheSystem(), s, r);
      if Perform(TheSystem(), s, r).1.Performed? { ExecuteEvolves(s.data, r.key.value, r.content, r.drawn); }
  }

  lemma {:induction false} RunEvolves(s: Store, trace: Trace)
    ensures Evolves(s.data.labels, Run(TheSystem(), s, trace).data.labels)
    decreases |trace|
  {
    if trace != [] {
      StepEvolves(s, trace[0]);
      RunEvolves(Step(TheSystem(), s, trace[0]).0, trace[1..]);
    }
  }

  /** A label that is no longer active stays exactly as it is, whatever happens later: none comes back to life. */
  lemma {:induction false} NeverActiveAgain(s: Store, before: Trace, after: Trace, id: LabelId)
    requires id in Run(TheSystem(), s, before).data.labels
    requires !Run(TheSystem(), s, before).data.labels[id].status.Active?
    ensures id in Run(TheSystem(), s, before + after).data.labels
    ensures Run(TheSystem(), s, before + after).data.labels[id] == Run(TheSystem(), s, before).data.labels[id]
  {
    RunTwice(TheSystem(), s, before, after);
    RunEvolves(Run(TheSystem(), s, before), after);
  }

  /** A label is printed once as a print; every further print of it is a reprint with a reason. */
  lemma {:induction false} ReprintsAreExplained(s: Store, trace: Trace, i: nat, j: nat)
    requires Empty(s)
    requires var prints := Run(TheSystem(), s, trace).data.prints;
             i < j < |prints| && prints[i].labelId == prints[j].labelId
    ensures var prints := Run(TheSystem(), s, trace).data.prints; prints[j].kind.Reprint? && prints[j].reason.Some?
  {
    EmptyIsOk(s);
    TraceKeeps(s, trace);
    var prints := Run(TheSystem(), s, trace).data.prints;
    assert prints[..j][i].labelId == prints[j].labelId;
  }

  /** Retried commands: the trace without the copies of successful commands ends in the same labels, prints and receipts. */
  lemma {:induction false} RetriesChangeNothing(s: Store, trace: Trace)
    ensures Run(TheSystem(), s, WithoutCopies(TheSystem(), s, trace)) == Run(TheSystem(), s, trace)
  {
    CopiesChangeNothing(TheSystem(), s, trace);
  }
}
