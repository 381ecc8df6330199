/** Client code exercising the contracts the way the library's own examples
    do: each method builds a connection in a given state, registers a callback
    through a public entry point, and then runs a lifecycle hook over the
    connection's record list. Only the contracts of the operations are used. */
module Scenarios {
  import opened Callbacks
  import opened Records
  import opened AfterCommitEverywhere
  import Dispatch

  /** `after_commit` inside a transaction: nothing runs at registration, the
      callback runs once when the commit hook is called, and never on rollback. */
  method AfterCommitInTransaction(cb: CallbackId)
    returns (atRegistration: seq<Event>, onCommit: seq<Event>, onRollback: seq<Event>)
    ensures atRegistration == []
    ensures onCommit == [Call(cb)]
    ensures onRollback == []
  {
    var conn := new Connection(true, true);
    var base := new Base(conn, true);
    var outcome;
    outcome, atRegistration := AfterCommit(base, Some(cb), []);
    var w := outcome.record;
    assert conn.records == [w];
    Dispatch.AtMostOneHookFires(w, AfterCommitName, cb, Dispatch.Committed);
    Dispatch.AtMostOneHookFires(w, AfterCommitName, cb, Dispatch.RolledBack);
    onCommit := Dispatch.Notify(conn.records, Dispatch.Committed, atRegistration);
    onRollback := Dispatch.Notify(conn.records, Dispatch.RolledBack, atRegistration);
  }

  /** `after_rollback` inside a transaction: the callback runs on rollback and not on commit. */
  method AfterRollbackInTransaction(cb: CallbackId)
    returns (atRegistration: seq<Event>, onCommit: seq<Event>, onRollback: seq<Event>)
    ensures atRegistration == []
    ensures onCommit == []
    ensures onRollback == [Call(cb)]
  {
    var conn := new Connection(true, true);
    var base := new Base(conn, true);
    var outcome;
    outcome, atRegistration := AfterRollback(base, Some(cb), []);
    var w := outcome.record;
    assert conn.records == [w];
    Dispatch.AtMostOneHookFires(w, AfterRollbackName, cb, Dispatch.Committed);
    Dispatch.AtMostOneHookFires(w, AfterRollbackName, cb, Dispatch.RolledBack);
    onCommit := Dispatch.Notify(conn.records, Dispatch.Committed, atRegistration);
    onRollback := Dispatch.Notify(conn.records, Dispatch.RolledBack, atRegistration);
  }

  /** Outside any transaction, `after_commit` with its default policy calls the
      callback at once, without a warning, and appends no record. */
  method AfterCommitOutsideTransaction(cb: CallbackId) returns (trace: seq<Event>, records: seq<Wrap>)
    ensures trace == [Call(cb)]
    ensures records == []
  {
    var conn := new Connection(false, false);
    var base := new Base(conn, true);
    var outcome;
    outcome, trace := AfterCommit(base, Some(cb), []);
    records := conn.records;
  }

  /** Outside any transaction, `before_commit` with its default policy warns,
      naming itself, and then calls the callback at once. */
  method BeforeCommitOutsideTransaction(cb: CallbackId) returns (trace: seq<Event>, records: seq<Wrap>)
    ensures trace == [Warn(WarningMessage(BeforeCommitName)), Call(cb)]
    ensures records == []
  {
    var conn := new Connection(false, false);
    var base := new Base(conn, true);
    var outcome;
    outcome, trace := BeforeCommit(base, Some(cb), []);
    records := conn.records;
  }

  /** Outside any transaction, `after_rollback` raises NotInTransaction and the
      callback is never called. */
  method AfterRollbackOutsideTransaction(cb: CallbackId) returns (outcome: Outcome, trace: seq<Event>, records: seq<Wrap>)
    ensures outcome == Raised(NotInTransaction("after_rollback is useless outside transaction"))
    ensures trace == []
    ensures records == []
  {
    var conn := new Connection(false, false);
    var base := new Base(conn, true);
    outcome, trace := AfterRollback(base, Some(cb), []);
    assert AfterRollbackName + " is useless outside transaction" == "after_rollback is useless outside transaction";
    records := conn.records;
  }

  /** A transaction that is open but not joinable (a test-fixture transaction) counts as
      no transaction: `after_commit` runs the callback at once and appends nothing. */
  method NonJoinableTransaction(cb: CallbackId) returns (trace: seq<Event>, records: seq<Wrap>)
    ensures trace == [Call(cb)]
    ensures records == []
  {
    var conn := new Connection(true, false);
    var base := new Base(conn, true);
    var outcome;
    outcome, trace := AfterCommit(base, Some(cb), []);
    records := conn.records;
  }

  /** With no connection in the pool, `in_transaction?` is false and registering
      does not establish one; `in_transaction` does establish it, then opens a
      new transaction for its block. */
  method NoPoolConnection(cb: CallbackId) returns (inTx: bool, poolAfterRegister: bool, branch: Branch)
    ensures !inTx
    ensures !poolAfterRegister
    ensures branch.OpenTransaction?
  {
    var conn := new Connection(false, false);
    var base := new Base(conn, false);
    inTx := IsInTransaction(base, null);
    var outcome, trace := AfterCommit(base, Some(cb), []);
    poolAfterRegister := base.poolActive;
    branch := InTransaction(base);
  }

  /** A callback registered with an explicit second connection goes to that
      connection's record list and leaves the default connection's list alone. */
  method SecondDatabase(cb: CallbackId) returns (defaultRecords: seq<Wrap>, otherRecords: seq<Wrap>)
    ensures defaultRecords == []
    ensures |otherRecords| == 1 && otherRecords[0].handlers == map[AfterCommitName := cb]
  {
    var primary := new Connection(true, true);
    var another := new Connection(true, true);
    var base := new Base(primary, true);
    var outcome, trace := AfterCommit(base, Some(cb), [], connection := another);
    defaultRecords := primary.records;
    otherRecords := another.records;
  }

  /** Three registrations in one transaction, `after_commit a`, `before_commit b`
      and `after_commit c`, leave three Wraps in registration order: the commit
      hook calls a then c, the before-commit hook calls only b, and the rollback
      hook calls nothing. */
  method SeveralInOneTransaction(a: CallbackId, b: CallbackId, c: CallbackId)
    returns (onBeforeCommit: seq<Event>, onCommit: seq<Event>, onRollback: seq<Event>)
    ensures onBeforeCommit == [Call(b)]
    ensures onCommit == [Call(a), Call(c)]
    ensures onRollback == []
  {
    var conn := new Connection(true, true);
    var base := new Base(conn, true);
    var outcome, trace := AfterCommit(base, Some(a), []);
    var wa := outcome.record;
    outcome, trace := BeforeCommit(base, Some(b), trace);
    var wb := outcome.record;
    outcome, trace := AfterCommit(base, Some(c), trace);
    var wc := outcome.record;
    assert trace == [];
    assert conn.records == [wa, wb, wc];
    var r1: seq<(Symbol, CallbackId)> := [(AfterCommitName, a)];
    var r2: seq<(Symbol, CallbackId)> := [(BeforeCommitName, b)];
    var r3: seq<(Symbol, CallbackId)> := [(AfterCommitName, c)];
    var regs := r1 + r2 + r3;
    assert Dispatch.BuiltFrom(conn.records, regs);
    Dispatch.HookFiresOnlyMatching(conn.records, regs, Dispatch.BeforeCommitted);
    Dispatch.HookFiresOnlyMatching(conn.records, regs, Dispatch.Committed);
    Dispatch.HookFiresOnlyMatching(conn.records, regs, Dispatch.RolledBack);
    Dispatch.CallsThroughAppend(r1 + r2, r3, BeforeCommitName);
    Dispatch.CallsThroughAppend(r1, r2, BeforeCommitName);
    Dispatch.CallsThroughAppend(r1 + r2, r3, AfterCommitName);
    Dispatch.CallsThroughAppend(r1, r2, AfterCommitName);
    Dispatch.CallsThroughAppend(r1 + r2, r3, AfterRollbackName);
    Dispatch.CallsThroughAppend(r1, r2, AfterRollbackName);
    onBeforeCommit := Dispatch.Notify(conn.records, Dispatch.BeforeCommitted, trace);
    onCommit := Dispatch.Notify(conn.records, Dispatch.Committed, trace);
    onRollback := Dispatch.Notify(conn.records, Dispatch.RolledBack, trace);
  }

  /** A missing block is an ArgumentError whatever the transaction state, and nothing is recorded. */
  method MissingCallback(inTransaction: bool) returns (outcome: Outcome, trace: seq<Event>, records: seq<Wrap>)
    ensures outcome == Raised(ArgumentError("Provide callback to after_commit"))
    ensures trace == [] && records == []
  {
    var conn := new Connection(inTransaction, inTransaction);
    var base := new Base(conn, true);
    outcome, trace := AfterCommit(base, None, []);
    assert "Provide callback to " + AfterCommitName == "Provide callback to after_commit";
    records := conn.records;
  }
}
