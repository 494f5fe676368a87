/**
 A database connection as the services use it: tables, an audit trail, and one transaction
 at a time that rollback undoes completely. The database may refuse any single statement;
 what it refuses is an input of each operation.
 */
module Transactions {
  import opened Prelude

  /** What the database does with the three statements around an audited change. */
  datatype Faults = Faults(begins: bool, appends: bool, commits: bool)

  predicate AllWork(f: Faults) { f.begins && f.appends && f.commits }

  class Connection<D, E> {
    var data: D
    var audit: seq<E>
    var savedData: D
    var savedAudit: seq<E>
    var inTransaction: bool

    constructor (initial: D)
      ensures !inTransaction && data == initial && audit == []
    {
      data, audit, savedData, savedAudit, inTransaction := initial, [], initial, [], false;
    }

    method Begin(works: bool) returns (ok: bool)
      requires !inTransaction
      modifies this`savedData, this`savedAudit, this`inTransaction
      ensures ok == works == inTransaction
      ensures ok ==> savedData == data && savedAudit == audit
    {
      if works {
        savedData, savedAudit, inTransaction := data, audit, true;
      }
      ok := works;
    }

    method Append(entry: E, works: bool) returns (ok: bool)
      modifies this`audit
      ensures ok == works
      ensures audit == if works then old(audit) + [entry] else old(audit)
    {
      if works { audit := audit + [entry]; }
      ok := works;
    }

    /** A commit that fails leaves the transaction open, to be rolled back. */
    method Commit(works: bool) returns (ok: bool)
      requires inTransaction
      modifies this`inTransaction
      ensures ok == works == !inTransaction
    {
      inTransaction := !works;
      ok := works;
    }

    method Rollback()
      requires inTransaction
      modifies this`data, this`audit, this`inTransaction
      ensures !inTransaction && data == savedData && audit == savedAudit
    {
      data, audit, inTransaction := savedData, savedAudit, false;
    }

    /**
     runWithAudit: a change and its audit row in one transaction. Both happen or neither
     does, whichever statement fails. The change is what its body makes of the tables, or
     None when the body gives up.
     */
    method RunWithAudit(change: Option<(D, E)>, f: Faults) returns (ok: bool)
      requires !inTransaction
      modifies this
      ensures !inTransaction
      ensures ok <==> change.Some? && AllWork(f)
      ensures ok ==> data == change.value.0 && audit == old(audit) + [change.value.1]
      ensures !ok ==> data == old(data) && audit == old(audit)
    {
      ok := Begin(f.begins);
      if !ok { return; }
      ok := change.Some?;
      if ok {
        data := change.value.0;
        ok := Append(change.value.1, f.appends);
      }
      if !ok {
        Rollback();
        return;
      }
      ok := Commit(f.commits);
      if !ok { Rollback(); }
    }
  }
}
