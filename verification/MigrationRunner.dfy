/** One `up` run against a database nobody else writes to while it holds the migration lock. */
module MigrationRunner {
  import opened MigrationLedger
  import opened Options
  import SqlCleanup

  /** What goes wrong on the wire while one patch is applied. */
  datatype Fault = NoFault | BeginFails | ExecuteFails | RecordFails | CommitFails | CommitGoesUnnoticed

  /** The script accepts the patch, and the server executes what is sent of it. */
  predicate Executes(patch: Patch) {
    ExecutableOf(patch).Some? && !ServerRefuses(ExecutableOf(patch).value)
  }

  class MigrationClient {
    var committed: Database
    var transaction: Option<Database>

    constructor (db: Database)
      ensures committed == db && transaction == None
    {
      committed, transaction := db, None;
    }

    /** A patch's statements run inside the open transaction, unless one of them ends it. */
    method Query(patch: Patch, inside: bool)
      requires transaction.Some?
      modifies this
      ensures inside ==>
                committed == old(committed) && transaction == Some(Effect(old(transaction.value), patch))
      ensures !inside ==>
                committed == Effect(old(transaction.value), patch) && transaction == Some(committed)
    {
      transaction := Some(Effect(transaction.value, patch));
      if !inside { committed := transaction.value; }
    }

    /** The insert into the migration table fails on a file name that has a row already. */
    method RecordMigration(patch: Patch) returns (ok: bool)
      requires transaction.Some?
      modifies `transaction
      ensures ok <==> patch.filename !in old(transaction.value.ledger)
      ensures transaction == Some(if ok then Row(old(transaction.value), patch) else old(transaction.value))
    {
      ok := patch.filename !in transaction.value.ledger;
      if ok { transaction := Some(Row(transaction.value, patch)); }
    }

    /** Applies one patch in one transaction: its effects and its row are committed together, or neither is. */
    method ApplyPatch(patch: Patch, fault: Fault) returns (ok: bool)
      requires transaction.None?
      modifies this
      ensures transaction.None?
      ensures committed == old(committed) || committed == Row(Effect(old(committed), patch), patch)
      ensures ok ==> committed == Row(Effect(old(committed), patch), patch)
      ensures ok <==> fault.NoFault? && Executes(patch) && patch.filename !in old(committed.ledger)
      ensures !Executes(patch) || patch.filename in old(committed.ledger) ==> committed == old(committed)
    {
      var executable := SqlCleanup.SqlWithoutOuterTransaction(patch.sql);
      if executable.UnsupportedTransactionControl? || fault.BeginFails? { return false; }
      transaction := Some(committed);
      if fault.ExecuteFails? || ServerRefuses(executable.sql) {
        transaction := None;
        return false;
      }
      ExecutedTextStaysInside(patch);
      Query(patch, StaysInside(executable.sql));
      var recorded := RecordMigration(patch);
      if !recorded || fault.RecordFails? || fault.CommitFails? {
        transaction := None;
        return false;
      }
      committed, transaction := transaction.value, None;
      ok := fault.NoFault?;
    }

    /** A run applies the pending patches in inventory order until the first failure; a changed checksum stops it before. */
    method RunUp(inventory: seq<Patch>, faults: nat -> Fault) returns (ok: bool, ghost applied: nat)
      requires transaction.None? && Distinct(inventory)
      modifies this
      ensures transaction.None?
      ensures Mismatched(inventory, old(committed.ledger)) ==> !ok && applied == 0
      ensures applied <= |PendingOf(inventory, old(committed.ledger))|
      ensures committed == Grown(old(committed), PendingOf(inventory, old(committed.ledger))[..applied])
      ensures ok ==> applied == |PendingOf(inventory, old(committed.ledger))|
    {
      applied := 0;
      ghost var base := committed;
      var pending := PendingOf(inventory, committed.ledger);
      assert Grown(base, pending[..0]) == base by { assert base.effects + Names([]) == base.effects; }
      if exists i | 0 <= i < |inventory| :: StatusOf(inventory[i], committed.ledger).ChecksumMismatch? {
        return false, 0;
      }
      var next := 0;
      while next < |pending|
        invariant next == applied <= |pending| && transaction.None?
        invariant committed == Grown(base, pending[..applied])
        invariant !Mismatched(inventory, base.ledger)
      {
        GrownByOne(base, pending, next);
        ghost var before := committed;
        var success := ApplyPatch(pending[next], faults(next));
        if committed != before { applied := applied + 1; }
        if !success { return false, applied; }
        next := next + 1;
      }
      ok := true;
    }
  }
}
