/**
 Concurrent runs of the migration command against one database, as a transition system: every action is one round trip
 of one runner, or a crash. Committed state is what any other session sees; an open transaction is private to its runner.
 */
module MigrationLedger {
  import opened Options
  import JsText
  import SqlCleanup
  import SqlPatch

  type RunnerId = nat

  datatype Patch = Patch(filename: string, sql: string, sha256: string)

  /** `effects` lists the patches whose statements are committed, in commit order; `ledger` is the migration table. */
  datatype Database = Database(effects: seq<string>, ledger: map<string, string>)

  datatype Status = Pending | Applied | ChecksumMismatch

  /** How far the open transaction has come; `escaped` when the patch's own text has already committed its effects. */
  datatype Progress = Begun | Executed(escaped: bool) | Recorded(escaped: bool)

  /** Where one `up` run stands; `next` indexes the list of pending patches it planned. */
  datatype Phase =
    | Waiting
    | Planning
    | Applying(pending: seq<Patch>, next: nat)
    | InTransaction(pending: seq<Patch>, next: nat, progress: Progress)
    | Finished(ok: bool)

  datatype State = State(db: Database, holder: Option<RunnerId>, runners: map<RunnerId, Phase>)

  /** The answer to COMMIT can be lost although the server committed. */
  datatype CommitOutcome = Committed | CommittedUnnoticed | NotCommitted

  datatype Action =
    | Start(id: RunnerId)
    | Lock(id: RunnerId)
    | Plan(id: RunnerId, ok: bool)
    | NextPatch(id: RunnerId, ok: bool)
    | Execute(id: RunnerId, ok: bool)
    | Record(id: RunnerId, ok: bool)
    | Commit(id: RunnerId, outcome: CommitOutcome)
    | Crash(id: RunnerId)

  function StatusOf(patch: Patch, ledger: map<string, string>): Status {
    if patch.filename !in ledger then Pending
    else if ledger[patch.filename] != patch.sha256 then ChecksumMismatch
    else Applied
  }

  predicate Mismatched(inventory: seq<Patch>, ledger: map<string, string>) {
    exists patch :: patch in inventory && StatusOf(patch, ledger).ChecksumMismatch?
  }

  /** The patches without a ledger row, in inventory order. */
  function PendingOf(inventory: seq<Patch>, ledger: map<string, string>): seq<Patch> {
    if inventory == [] then []
    else (if StatusOf(inventory[0], ledger).Pending? then [inventory[0]] else []) + PendingOf(inventory[1..], ledger)
  }

  /** The text sent for a patch, or nothing when its transaction control is refused. */
  function ExecutableOf(patch: Patch): Option<string> {
    match SqlCleanup.Executed(patch.sql)
    case UnsupportedTransactionControl => None
    case Sql(text) => Some(text)
  }

  /** The server parses the whole text before it executes any of it, and no SQL command begins with a string constant. */
  predicate ServerRefuses(text: string) { SqlCleanup.BeginsWithString(text) }

  /** The text leaves the surrounding transaction alone: no statement of it begins or ends one. */
  predicate StaysInside(text: string) {
    SqlPatch.AllPlain(SqlPatch.Program(text))
  }

  function Effect(db: Database, patch: Patch): Database {
    db.(effects := db.effects + [patch.filename])
  }

  function Row(db: Database, patch: Patch): Database {
    db.(ledger := db.ledger[patch.filename := patch.sha256])
  }

  function At(s: State, id: RunnerId, phase: Phase): State {
    s.(runners := s.runners[id := phase])
  }

  /** The end of a run: the open transaction, if any, is rolled back, and the lock is given up. */
  function Finish(s: State, id: RunnerId, ok: bool): State {
    At(s, id, Finished(ok)).(holder := if s.holder == Some(id) then None else s.holder)
  }

  function PlanStep(s: State, id: RunnerId, ok: bool, inventory: seq<Patch>): State {
    if !ok || Mismatched(inventory, s.db.ledger) then Finish(s, id, false)
    else At(s, id, Applying(PendingOf(inventory, s.db.ledger), 0))
  }

  /** BEGIN for the next pending patch, unless it is refused before anything is sent. */
  function Open(s: State, id: RunnerId, pending: seq<Patch>, next: nat, ok: bool, text: Option<string>): State
    requires next < |pending|
  {
    if text.None? || !ok then Finish(s, id, false) else At(s, id, InTransaction(pending, next, Begun))
  }

  function NextPatchStep(s: State, id: RunnerId, pending: seq<Patch>, next: nat, ok: bool): State {
    if next >= |pending| then Finish(s, id, true)
    else Open(s, id, pending, next, ok, ExecutableOf(pending[next]))
  }

  /**
   Sends the text, if there is one; the server may refuse it, and a text that ends the transaction by itself commits
   its effects then and there.
   */
  function Send(
    s: State, id: RunnerId, pending: seq<Patch>, next: nat, ok: bool, text: Option<string>, refused: string -> bool,
    inside: string -> bool): State
    requires next < |pending|
  {
    if !ok || text.None? || refused(text.value) then Finish(s, id, false)
    else if inside(text.value) then At(s, id, InTransaction(pending, next, Executed(false)))
    else At(s, id, InTransaction(pending, next, Executed(true))).(db := Effect(s.db, pending[next]))
  }

  function ExecuteStep(s: State, id: RunnerId, pending: seq<Patch>, next: nat, ok: bool): State
    requires next < |pending|
  {
    Send(s, id, pending, next, ok, ExecutableOf(pending[next]), ServerRefuses, StaysInside)
  }

  function RecordStep(s: State, id: RunnerId, pending: seq<Patch>, next: nat, escaped: bool, ok: bool): State
    requires next < |pending|
  {
    if !ok || pending[next].filename in s.db.ledger then Finish(s, id, false)
    else At(s, id, InTransaction(pending, next, Recorded(escaped)))
  }

  function CommitStep(
    s: State, id: RunnerId, pending: seq<Patch>, next: nat, escaped: bool, outcome: CommitOutcome): State
    requires next < |pending|
  {
    var committed := Row(if escaped then s.db else Effect(s.db, pending[next]), pending[next]);
    match outcome
    case NotCommitted => Finish(s, id, false)
    case Committed => At(s, id, Applying(pending, next + 1)).(db := committed)
    case CommittedUnnoticed => Finish(s, id, false).(db := committed)
  }

  function TransactionStep(s: State, a: Action, pending: seq<Patch>, next: nat, progress: Progress): State
    requires next < |pending|
  {
    match progress
    case Begun => if a.Execute? then ExecuteStep(s, a.id, pending, next, a.ok) else s
    case Executed(escaped) => if a.Record? then RecordStep(s, a.id, pending, next, escaped, a.ok) else s
    case Recorded(escaped) => if a.Commit? then CommitStep(s, a.id, pending, next, escaped, a.outcome) else s
  }

  function Apply(s: State, a: Action, inventory: seq<Patch>): State {
    if a.id !in s.runners || s.runners[a.id].Finished? then (if a.Start? then At(s, a.id, Waiting) else s)
    else if a.Crash? then Finish(s, a.id, false)
    else match s.runners[a.id]
         case Waiting => if a.Lock? && s.holder.None? then At(s, a.id, Planning).(holder := Some(a.id)) else s
         case Planning => if a.Plan? then PlanStep(s, a.id, a.ok, inventory) else s
         case Applying(pending, next) => if a.NextPatch? then NextPatchStep(s, a.id, pending, next, a.ok) else s
         case InTransaction(pending, next, progress) =>
           if next < |pending| then TransactionStep(s, a, pending, next, progress) else s
  }

  function Run(s: State, actions: seq<Action>, inventory: seq<Patch>): State
    decreases |actions|
  {
    if actions == [] then s else Run(Apply(s, actions[0], inventory), actions[1..], inventory)
  }

  // ---------------------------------------------------------------- what the ledger says after each commit

  function Names(patches: seq<Patch>): seq<string> {
    seq(|patches|, i requires 0 <= i < |patches| => patches[i].filename)
  }

  ghost predicate Distinct(patches: seq<Patch>) {
    forall i, j :: 0 <= i < j < |patches| ==> patches[i].filename != patches[j].filename
  }

  function Rows(ledger: map<string, string>, patches: seq<Patch>): map<string, string> {
    if patches == [] then ledger
    else
      var last := patches[|patches| - 1];
      Rows(ledger, patches[..|patches| - 1])[last.filename := last.sha256]
  }

  /** The database once the patches have taken effect, in this order. */
  function Grown(base: Database, patches: seq<Patch>): Database {
    Database(base.effects + Names(patches), Rows(base.ledger, patches))
  }

  lemma {:induction false} GrownByOne(base: Database, patches: seq<Patch>, j: nat)
    requires j < |patches|
    ensures Row(Effect(Grown(base, patches[..j]), patches[j]), patches[j]) == Grown(base, patches[..j + 1])
  {
    assert patches[..j + 1][..j] == patches[..j];
    assert Names(patches[..j + 1]) == Names(patches[..j]) + [patches[j].filename];
  }

  lemma {:induction false} RowsKeys(ledger: map<string, string>, patches: seq<Patch>, f: string)
    ensures f in Rows(ledger, patches) <==> f in ledger || f in Names(patches)
    ensures f !in Names(patches) && f in ledger ==> Rows(ledger, patches)[f] == ledger[f]
  {
    if patches != [] {
      var init := patches[..|patches| - 1];
      RowsKeys(ledger, init, f);
      assert Names(patches) == Names(init) + [patches[|patches| - 1].filename];
    }
  }

  lemma {:induction false} PendingIsFrom(inventory: seq<Patch>, ledger: map<string, string>)
    ensures forall p :: p in PendingOf(inventory, ledger) ==> p in inventory && p.filename !in ledger
  {
    if inventory != [] { PendingIsFrom(inventory[1..], ledger); }
  }

  /** The rows of the first `j` pending patches, and no others, have been added. */
  ghost predicate RowsAdded(
      inventory: seq<Patch>, ledger: map<string, string>, later: map<string, string>, applied: seq<Patch>)
  {
    forall p :: p in inventory ==> (p.filename in later <==> p.filename in ledger || p in applied)
  }

  lemma {:induction false} DistinctTail(inventory: seq<Patch>)
    requires Distinct(inventory) && inventory != []
    ensures Distinct(inventory[1..]) && forall p :: p in inventory[1..] ==> p.filename != inventory[0].filename
  {
  }

  lemma {:induction false} RowsAddedTail(
      inventory: seq<Patch>, ledger: map<string, string>, later: map<string, string>, applied: seq<Patch>, rest: seq<Patch>)
    requires inventory != [] && RowsAdded(inventory, ledger, later, applied)
    requires forall p :: p in inventory[1..] ==> (p in applied <==> p in rest)
    ensures RowsAdded(inventory[1..], ledger, later, rest)
  {
  }

  /** Once some of the pending patches have rows, the patches still pending are the others, in the same order. */
  lemma {:induction false} PendingAfter(
      inventory: seq<Patch>, ledger: map<string, string>, later: map<string, string>, applied: seq<Patch>, left: seq<Patch>)
    requires Distinct(inventory) && PendingOf(inventory, ledger) == applied + left
    requires RowsAdded(inventory, ledger, later, applied)
    ensures PendingOf(inventory, later) == left
  {
    if inventory != [] {
      DistinctTail(inventory);
      if !StatusOf(inventory[0], ledger).Pending? {
        RowsAddedTail(inventory, ledger, later, applied, applied);
        PendingAfter(inventory[1..], ledger, later, applied, left);
      } else if applied == [] {
        assert left == [inventory[0]] + PendingOf(inventory[1..], ledger);
        RowsAddedTail(inventory, ledger, later, [], []);
        PendingAfter(inventory[1..], ledger, later, [], left[1..]);
      } else {
        FirstIsApplied(inventory[0], PendingOf(inventory[1..], ledger), applied, left);
        RowsAddedTail(inventory, ledger, later, applied, applied[1..]);
        PendingAfter(inventory[1..], ledger, later, applied[1..], left);
      }
    }
  }

  lemma {:induction false} FirstIsApplied(x: Patch, others: seq<Patch>, applied: seq<Patch>, left: seq<Patch>)
    requires [x] + others == applied + left && applied != []
    ensures applied[0] == x && others == applied[1..] + left
    ensures forall p :: p in applied <==> p == x || p in applied[1..]
  {
    assert x == ([x] + others)[0] == (applied + left)[0];
    assert others == ([x] + others)[1..] == (applied + left)[1..];
  }

  lemma {:induction false} NameMeansPatch(inventory: seq<Patch>, some: seq<Patch>, p: Patch)
    requires Distinct(inventory) && p in inventory && forall q :: q in some ==> q in inventory
    ensures p.filename in Names(some) <==> p in some
  {
    assert forall k :: 0 <= k < |some| ==> Names(some)[k] == some[k].filename && some[k] in inventory;
    if p.filename in Names(some) {
      var k :| 0 <= k < |some| && Names(some)[k] == p.filename;
      assert some[k] in inventory;
    }
  }

  lemma {:induction false} PendingOfGrown(inventory: seq<Patch>, base: Database, j: nat)
    requires Distinct(inventory) && j <= |PendingOf(inventory, base.ledger)|
    ensures var pending := PendingOf(inventory, base.ledger);
            PendingOf(inventory, Grown(base, pending[..j]).ledger) == pending[j..]
  {
    var pending := PendingOf(inventory, base.ledger);
    var later := Grown(base, pending[..j]).ledger;
    PendingIsFrom(inventory, base.ledger);
    forall p | p in inventory
      ensures p.filename in later <==> p.filename in base.ledger || p in pending[..j]
    {
      RowsKeys(base.ledger, pending[..j], p.filename);
      NameMeansPatch(inventory, pending[..j], p);
    }
    PendingAfter(inventory, base.ledger, later, pending[..j], pending[j..]);
  }

  // ---------------------------------------------------------------- the invariant

  /** How many of the patches pending at the start have taken effect. */
  function Progressed(s: State, base: Database): int { |s.db.effects| - |base.effects| }

  /** The committed state is the start plus a prefix of the patches pending then, in inventory order, effects and rows alike. */
  ghost predicate InStep(s: State, base: Database, pending0: seq<Patch>) {
    && 0 <= Progressed(s, base) <= |pending0|
    && s.db == Grown(base, pending0[..Progressed(s, base)])
  }

  /** A runner that works on the database holds the lock, and what it planned is exactly what is still to be done. */
  ghost predicate PhaseOk(s: State, id: RunnerId, phase: Phase, base: Database, pending0: seq<Patch>, refused: bool)
    requires InStep(s, base, pending0)
  {
    match phase
    case Waiting => true
    case Planning => s.holder == Some(id)
    case Applying(pending, next) =>
      s.holder == Some(id) && !refused && next <= |pending| && pending[next..] == pending0[Progressed(s, base)..]
    case InTransaction(pending, next, progress) =>
      && s.holder == Some(id) && !refused && next < |pending| && pending[next..] == pending0[Progressed(s, base)..]
      && (progress.Begun? || !progress.escaped)
    case Finished(ok) => ok ==> !refused && Progressed(s, base) == |pending0|
  }

  ghost predicate Inv(s: State, base: Database, inventory: seq<Patch>) {
    var pending0 := PendingOf(inventory, base.ledger);
    var refused := Mismatched(inventory, base.ledger);
    && InStep(s, base, pending0)
    && (refused ==> s.db == base)
    && (forall id :: id in s.runners ==> PhaseOk(s, id, s.runners[id], base, pending0, refused))
  }

  /** Whatever the server executes of a patch leaves the transaction around it alone. */
  lemma {:induction false} ExecutedTextStaysInside(patch: Patch)
    requires ExecutableOf(patch).Some?
    ensures ServerRefuses(ExecutableOf(patch).value) || StaysInside(ExecutableOf(patch).value)
  {
    SqlCleanup.ExecutedFormIsSafe(patch.sql);
  }

  lemma {:induction false} NextIsFirstLeft(pending: seq<Patch>, next: nat, pending0: seq<Patch>, j: nat)
    requires next < |pending| && j <= |pending0| && pending[next..] == pending0[j..]
    ensures j < |pending0| && pending[next] == pending0[j] && pending[next + 1..] == pending0[j + 1..]
  {
    assert pending[next..][0] == pending0[j..][0];
    assert pending[next..][1..] == pending0[j..][1..];
  }

  /** Steps that leave the database alone and move one runner to a phase that fits. */
  lemma {:induction false} MoveKeepsInv(s: State, t: State, id: RunnerId, base: Database, inventory: seq<Patch>)
    requires Inv(s, base, inventory) && t.db == s.db && id in t.runners
    requires t.runners == s.runners[id := t.runners[id]]
    requires t.holder == s.holder || (s.holder.None? && t.holder == Some(id)) || (s.holder == Some(id) && t.holder.None?)
    requires PhaseOk(t, id, t.runners[id], base, PendingOf(inventory, base.ledger), Mismatched(inventory, base.ledger))
    ensures Inv(t, base, inventory)
  {
  }

  /** A commit moves exactly one patch from pending to applied. */
  lemma {:induction false} CommitKeepsInv(
      s: State, id: RunnerId, pending: seq<Patch>, next: nat, outcome: CommitOutcome, base: Database, inventory: seq<Patch>)
    requires Inv(s, base, inventory) && id in s.runners && s.runners[id] == InTransaction(pending, next, Recorded(false))
    requires next < |pending|
    ensures Inv(CommitStep(s, id, pending, next, false, outcome), base, inventory)
  {
    var pending0 := PendingOf(inventory, base.ledger);
    var j := Progressed(s, base);
    NextIsFirstLeft(pending, next, pending0, j);
    GrownByOne(base, pending0, j);
    var t := CommitStep(s, id, pending, next, false, outcome);
    if outcome.NotCommitted? {
      MoveKeepsInv(s, t, id, base, inventory);
    } else {
      assert Progressed(t, base) == j + 1;
      forall other | other in t.runners
        ensures PhaseOk(t, other, t.runners[other], base, pending0, Mismatched(inventory, base.ledger))
      {
        assert other == id || PhaseOk(s, other, s.runners[other], base, pending0, Mismatched(inventory, base.ledger));
      }
    }
  }

  lemma {:induction false} PlanKeepsInv(s: State, id: RunnerId, ok: bool, base: Database, inventory: seq<Patch>)
    requires Inv(s, base, inventory) && Distinct(inventory) && id in s.runners && s.runners[id] == Planning
    ensures Inv(PlanStep(s, id, ok, inventory), base, inventory)
  {
    PendingOfGrown(inventory, base, Progressed(s, base));
    MoveKeepsInv(s, PlanStep(s, id, ok, inventory), id, base, inventory);
  }

  lemma {:induction false} OpenKeepsInv(
      s: State, id: RunnerId, pending: seq<Patch>, next: nat, ok: bool, text: Option<string>, base: Database,
      inventory: seq<Patch>)
    requires Inv(s, base, inventory) && id in s.runners && s.runners[id] == Applying(pending, next) && next < |pending|
    ensures Inv(Open(s, id, pending, next, ok, text), base, inventory)
  {
    MoveKeepsInv(s, Open(s, id, pending, next, ok, text), id, base, inventory);
  }

  /** A run that has worked through its list has left nothing pending. */
  lemma {:induction false} EndKeepsInv(s: State, id: RunnerId, pending: seq<Patch>, base: Database, inventory: seq<Patch>)
    requires Inv(s, base, inventory) && id in s.runners && s.runners[id] == Applying(pending, |pending|)
    ensures Inv(Finish(s, id, true), base, inventory)
  {
    assert pending[|pending|..] == [];
    MoveKeepsInv(s, Finish(s, id, true), id, base, inventory);
  }

  lemma {:induction false} NextPatchKeepsInv(
      s: State, id: RunnerId, pending: seq<Patch>, next: nat, ok: bool, base: Database, inventory: seq<Patch>)
    requires Inv(s, base, inventory) && id in s.runners && s.runners[id] == Applying(pending, next)
    ensures Inv(NextPatchStep(s, id, pending, next, ok), base, inventory)
  {
    if next < |pending| {
      OpenKeepsInv(s, id, pending, next, ok, ExecutableOf(pending[next]), base, inventory);
    } else {
      EndKeepsInv(s, id, pending, base, inventory);
    }
  }

  lemma {:induction false} SendKeepsInv(
      s: State, id: RunnerId, pending: seq<Patch>, next: nat, ok: bool, text: Option<string>, refused: string -> bool,
      inside: string -> bool, base: Database, inventory: seq<Patch>)
    requires Inv(s, base, inventory) && id in s.runners && s.runners[id] == InTransaction(pending, next, Begun)
    requires next < |pending| && (text.Some? ==> refused(text.value) || inside(text.value))
    ensures Inv(Send(s, id, pending, next, ok, text, refused, inside), base, inventory)
  {
    MoveKeepsInv(s, Send(s, id, pending, next, ok, text, refused, inside), id, base, inventory);
  }

  lemma {:induction false} RecordKeepsInv(
      s: State, id: RunnerId, pending: seq<Patch>, next: nat, ok: bool, base: Database, inventory: seq<Patch>)
    requires Inv(s, base, inventory) && id in s.runners && s.runners[id] == InTransaction(pending, next, Executed(false))
    requires next < |pending|
    ensures Inv(RecordStep(s, id, pending, next, false, ok), base, inventory)
  {
    MoveKeepsInv(s, RecordStep(s, id, pending, next, false, ok), id, base, inventory);
  }

  lemma {:induction false} TransactionKeepsInv(
      s: State, a: Action, pending: seq<Patch>, next: nat, progress: Progress, base: Database, inventory: seq<Patch>)
    requires Inv(s, base, inventory)
    requires a.id in s.runners && s.runners[a.id] == InTransaction(pending, next, progress) && next < |pending|
    ensures Inv(TransactionStep(s, a, pending, next, progress), base, inventory)
  {
    match progress
    case Begun =>
      if a.Execute? {
        if ExecutableOf(pending[next]).Some? { ExecutedTextStaysInside(pending[next]); }
        SendKeepsInv(s, a.id, pending, next, a.ok, ExecutableOf(pending[next]), ServerRefuses, StaysInside, base, inventory);
      }
    case Executed(escaped) =>
      if a.Record? { RecordKeepsInv(s, a.id, pending, next, a.ok, base, inventory); }
    case Recorded(escaped) =>
      if a.Commit? { CommitKeepsInv(s, a.id, pending, next, a.outcome, base, inventory); }
  }

  lemma {:induction false} StepKeepsInv(s: State, a: Action, base: Database, inventory: seq<Patch>)
    requires Inv(s, base, inventory) && Distinct(inventory)
    ensures Inv(Apply(s, a, inventory), base, inventory)
  {
    var t := Apply(s, a, inventory);
    if t != s {
      if a.id !in s.runners || s.runners[a.id].Finished? || a.Crash? {
        MoveKeepsInv(s, t, a.id, base, inventory);
      } else {
        match s.runners[a.id]
        case Waiting => MoveKeepsInv(s, t, a.id, base, inventory);
        case Planning => PlanKeepsInv(s, a.id, a.ok, base, inventory);
        case Applying(pending, next) => NextPatchKeepsInv(s, a.id, pending, next, a.ok, base, inventory);
        case InTransaction(pending, next, progress) => TransactionKeepsInv(s, a, pending, next, progress, base, inventory);
      }
    }
  }

  lemma {:induction false} RunKeepsInv(s: State, actions: seq<Action>, base: Database, inventory: seq<Patch>)
    requires Inv(s, base, inventory) && Distinct(inventory)
    ensures Inv(Run(s, actions, inventory), base, inventory)
    decreases |actions|
  {
    if actions != [] {
      StepKeepsInv(s, actions[0], base, inventory);
      RunKeepsInv(Apply(s, actions[0], inventory), actions[1..], base, inventory);
    }
  }

  // ---------------------------------------------------------------- theorems over all runs

  function Initial(db: Database): State { State(db, None, map[]) }

  lemma {:induction false} InitialInv(db: Database, inventory: seq<Patch>)
    ensures Inv(Initial(db), db, inventory)
  {
    assert db.effects + Names([]) == db.effects;
    assert PendingOf(inventory, db.ledger)[..0] == [];
  }

  /**
   Over any interleaving of any number of runs, failures and crashes: the patches pending at the start take effect one
   by one in inventory order, each with its ledger row and each at most once; nothing else changes.
   */
  lemma {:induction false} RunsApplyAPrefix(db: Database, actions: seq<Action>, inventory: seq<Patch>) returns (j: nat)
    requires Distinct(inventory)
    ensures j <= |PendingOf(inventory, db.ledger)|
    ensures Run(Initial(db), actions, inventory).db == Grown(db, PendingOf(inventory, db.ledger)[..j])
  {
    InitialInv(db, inventory);
    RunKeepsInv(Initial(db), actions, db, inventory);
    j := Progressed(Run(Initial(db), actions, inventory), db);
  }

  /** A ledger row exists exactly when that patch's effects are committed, if that was so at the start. */
  lemma {:induction false} LedgerMeansEffects(db: Database, actions: seq<Action>, inventory: seq<Patch>, f: string)
    requires Distinct(inventory)
    requires f in db.ledger <==> f in db.effects
    ensures var t := Run(Initial(db), actions, inventory); f in t.db.ledger <==> f in t.db.effects
  {
    var j := RunsApplyAPrefix(db, actions, inventory);
    var pending := PendingOf(inventory, db.ledger);
    RowsKeys(db.ledger, pending[..j], f);
  }

  lemma {:induction false} NamesDistinct(inventory: seq<Patch>, ledger: map<string, string>)
    requires Distinct(inventory)
    ensures Distinct(PendingOf(inventory, ledger))
  {
    if inventory != [] {
      NamesDistinct(inventory[1..], ledger);
      PendingIsFrom(inventory[1..], ledger);
    }
  }

  /** No patch takes effect twice. */
  lemma {:induction false} NothingTwice(db: Database, actions: seq<Action>, inventory: seq<Patch>)
    requires Distinct(inventory)
    requires forall f :: f in db.effects ==> f in db.ledger
    requires forall i, j :: 0 <= i < j < |db.effects| ==> db.effects[i] != db.effects[j]
    ensures var e := Run(Initial(db), actions, inventory).db.effects;
            forall i, j :: 0 <= i < j < |e| ==> e[i] != e[j]
  {
    var k := RunsApplyAPrefix(db, actions, inventory);
    var pending := PendingOf(inventory, db.ledger);
    NamesDistinct(inventory, db.ledger);
    PendingIsFrom(inventory, db.ledger);
    var e := db.effects + Names(pending[..k]);
    forall i, j | 0 <= i < j < |e| ensures e[i] != e[j] {
      if i < |db.effects| <= j {
        assert e[i] in db.effects && pending[j - |db.effects|] in pending;
      }
    }
  }

  /** A single changed checksum, and no run ever changes anything. */
  lemma {:induction false} MismatchStopsEverything(db: Database, actions: seq<Action>, inventory: seq<Patch>)
    requires Distinct(inventory) && Mismatched(inventory, db.ledger)
    ensures Run(Initial(db), actions, inventory).db == db
  {
    InitialInv(db, inventory);
    RunKeepsInv(Initial(db), actions, db, inventory);
  }

  lemma {:induction false} RunTwice(s: State, first: seq<Action>, second: seq<Action>, inventory: seq<Patch>)
    ensures Run(s, first + second, inventory) == Run(Run(s, first, inventory), second, inventory)
    decreases |first|
  {
    if first == [] {
      assert first + second == second;
    } else {
      assert (first + second)[0] == first[0] && (first + second)[1..] == first[1..] + second;
      RunTwice(Apply(s, first[0], inventory), first[1..], second, inventory);
    }
  }

  /** Once any run has ended well, every pending patch is applied and later runs apply zero. */
  lemma {:induction false} SuccessIsFinal(
      db: Database, before: seq<Action>, after: seq<Action>, id: RunnerId, inventory: seq<Patch>)
    requires Distinct(inventory)
    requires var s := Run(Initial(db), before, inventory); id in s.runners && s.runners[id] == Finished(true)
    ensures Run(Initial(db), before, inventory).db == Grown(db, PendingOf(inventory, db.ledger))
    ensures Run(Initial(db), before + after, inventory).db == Run(Initial(db), before, inventory).db
  {
    var s := Run(Initial(db), before, inventory);
    var pending := PendingOf(inventory, db.ledger);
    InitialInv(db, inventory);
    RunKeepsInv(Initial(db), before, db, inventory);
    assert pending[..|pending|] == pending;
    PendingOfGrown(inventory, db, |pending|);
    RunTwice(Initial(db), before, after, inventory);
    NothingLeftToDo(s, after, db, inventory);
  }

  /** When everything pending has taken effect, no action changes the database. */
  lemma {:induction false} NothingLeftToDo(s: State, actions: seq<Action>, base: Database, inventory: seq<Patch>)
    requires Inv(s, base, inventory) && Distinct(inventory)
    requires Progressed(s, base) == |PendingOf(inventory, base.ledger)|
    ensures Run(s, actions, inventory).db == s.db
    decreases |actions|
  {
    RunKeepsInv(s, actions, base, inventory);
    if actions != [] {
      StepKeepsInv(s, actions[0], base, inventory);
      EffectsOnlyGrow(s, actions[0], inventory);
      NothingLeftToDo(Apply(s, actions[0], inventory), actions[1..], base, inventory);
    }
  }

  lemma {:induction false} EffectsOnlyGrow(s: State, a: Action, inventory: seq<Patch>)
    ensures |s.db.effects| <= |Apply(s, a, inventory).db.effects|
  {
  }

  /** A patch whose executed form would commit is accepted, and changes nothing: the server refuses it as a whole. */
  lemma {:induction false} HiddenCommitChangesNothing(s: State, id: RunnerId, pending: seq<Patch>, next: nat, ok: bool)
    requires next < |pending| && pending[next].sql == [JsText.BOM] + SqlCleanup.HIDDEN
    ensures ExecutableOf(pending[next]).Some? && !StaysInside(ExecutableOf(pending[next]).value)
    ensures ExecuteStep(s, id, pending, next, ok) == Finish(s, id, false)
  {
    SqlCleanup.AcceptedTextThatCommits();
  }
}
