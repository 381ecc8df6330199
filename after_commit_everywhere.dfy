/** The registration engine of `AfterCommitEverywhere`: the three public entry
    points, the policy for calls made outside a transaction, the transaction-state
    predicate and the "ensure in transaction" helper. */
module AfterCommitEverywhere {
  import opened Callbacks
  import opened Records
  import Dispatch

  /** The recognised values of `without_tx`. Any other symbol is a caller error,
      found only when no transaction is open. */
  const Raise: Symbol := "raise"
  const Execute: Symbol := "execute"
  const WarnAndExecute: Symbol := "warn_and_execute"

  datatype Error =
    | ArgumentError(message: string)
    | NotInTransaction(message: string)

  /** How a registration ends: an exception, the callback's own result (it was
      called right away), or the Wrap handed to the connection. */
  datatype Outcome =
    | Raised(error: Error)
    | CalledNow(callback: CallbackId)
    | Deferred(record: Wrap)

  /** The ambient connection state of `ActiveRecord::Base`: whether the pool
      already holds a connection for the caller (`active_connection?`) and the
      connection `ActiveRecord::Base.connection` hands out. */
  class Base {
    var poolActive: bool
    const defaultConnection: Connection

    constructor (defaultConnection: Connection, poolActive: bool)
      ensures this.defaultConnection == defaultConnection
      ensures this.poolActive == poolActive
    {
      this.defaultConnection := defaultConnection;
      this.poolActive := poolActive;
    }
  }

  /** The connection an operation works on: the explicit one, else the default. */
  function Target(base: Base, connection: Connection?): (c: Connection) {
    if connection != null then connection else base.defaultConnection
  }

  /** `default_connection`: asking ActiveRecord for its connection establishes
      one if the pool held none, so afterwards the pool is active. */
  method DefaultConnection(base: Base) returns (c: Connection)
    modifies base`poolActive
    ensures c == base.defaultConnection
    ensures base.poolActive
  {
    base.poolActive := true;
    c := base.defaultConnection;
  }

  /** `in_transaction?`. With no explicit connection and no active pool connection
      the answer is false and the default connection is not even read (see the
      reads clause); otherwise it is "a transaction is open and the current one
      is joinable" (test-harness transactions are not). */
  function IsInTransaction(base: Base, connection: Connection?): (r: bool)
    reads base
    reads if connection != null then {connection} else if base.poolActive then {base.defaultConnection} else {}
    ensures connection == null && !base.poolActive ==> !r
    ensures r ==> Target(base, connection).transactionOpen && Target(base, connection).currentJoinable
    ensures ((connection != null || base.poolActive) && Target(base, connection).transactionOpen
             && Target(base, connection).currentJoinable) ==> r
  {
    if connection == null && !base.poolActive then false
    else
      var c := Target(base, connection);
      c.transactionOpen && c.currentJoinable
  }

  function WarningMessage(name: Symbol): (message: string) {
    name + ": No transaction open. Executing callback immediately."
  }

  /** What `register_callback(connection:, name:, without_tx:, callback:)` does,
      as a relation between the state before and after the call:
      - no callback: ArgumentError, before the transaction state is consulted;
      - no transaction: the policy decides, and no record is appended anywhere:
        warn_and_execute warns, then calls the callback once; execute calls it
        once; raise raises NotInTransaction; any other value raises ArgumentError;
      - in a transaction: the policy is not looked at, the callback is not called,
        and one fresh Wrap, holding only `name => callback` and the connection,
        is appended to the end of that connection's record list.
      `base` never changes: the default connection is resolved only when a
      transaction is open on it, and then the pool is already active. */
  twostate predicate RegisterCallbackSpec(base: Base, connection: Connection?, name: Symbol, withoutTx: Symbol,
                                          callback: Option<CallbackId>, trace: seq<Event>,
                                          new outcome: Outcome, trace': seq<Event>)
    reads base, Target(base, connection)
  {
    var target := Target(base, connection);
    && unchanged(base)
    && target.transactionOpen == old(target.transactionOpen)
    && target.currentJoinable == old(target.currentJoinable)
    && if callback.None? then
         && outcome == Raised(ArgumentError("Provide callback to " + name))
         && trace' == trace
         && target.records == old(target.records)
       else if !old(IsInTransaction(base, connection)) then
         && target.records == old(target.records)
         && if withoutTx == WarnAndExecute then
              outcome == CalledNow(callback.value) && trace' == trace + [Warn(WarningMessage(name)), Call(callback.value)]
            else if withoutTx == Execute then
              outcome == CalledNow(callback.value) && trace' == trace + [Call(callback.value)]
            else if withoutTx == Raise then
              outcome == Raised(NotInTransaction(name + " is useless outside transaction")) && trace' == trace
            else
              outcome == Raised(ArgumentError("Invalid \"without_tx\": \"" + withoutTx + "\"")) && trace' == trace
       else
         && trace' == trace
         && outcome.Deferred?
         && fresh(outcome.record)
         && outcome.record.connection == target
         && outcome.record.handlers == map[name := callback.value]
         && target.records == old(target.records) + [outcome.record]
  }

  method RegisterCallback(base: Base, connection: Connection?, name: Symbol, withoutTx: Symbol,
                          callback: Option<CallbackId>, trace: seq<Event>)
    returns (outcome: Outcome, trace': seq<Event>)
    modifies base, Target(base, connection)
    ensures RegisterCallbackSpec(base, connection, name, withoutTx, callback, trace, outcome, trace')
  {
    if callback.None? {
      return Raised(ArgumentError("Provide callback to " + name)), trace;
    }
    if !IsInTransaction(base, connection) {
      if withoutTx == WarnAndExecute {
        trace' := trace + [Warn(WarningMessage(name))];
        return CalledNow(callback.value), trace' + [Call(callback.value)];
      } else if withoutTx == Execute {
        return CalledNow(callback.value), trace + [Call(callback.value)];
      } else if withoutTx == Raise {
        return Raised(NotInTransaction(name + " is useless outside transaction")), trace;
      } else {
        return Raised(ArgumentError("Invalid \"without_tx\": \"" + withoutTx + "\"")), trace;
      }
    }
    var target := connection;
    if target == null {
      target := DefaultConnection(base);
    }
    var wrap := new Wrap(target, map[name := callback.value]);
    target.AddTransactionRecord(wrap);
    return Deferred(wrap), trace;
  }

  /** `after_commit(connection: nil, without_tx: EXECUTE, &callback)`. */
  method AfterCommit(base: Base, callback: Option<CallbackId>, trace: seq<Event>,
                     connection: Connection? := null, withoutTx: Symbol := Execute)
    returns (outcome: Outcome, trace': seq<Event>)
    modifies base, Target(base, connection)
    ensures RegisterCallbackSpec(base, connection, AfterCommitName, withoutTx, callback, trace, outcome, trace')
  {
    outcome, trace' := RegisterCallback(base, connection, AfterCommitName, withoutTx, callback, trace);
  }

  /** `before_commit(connection: nil, without_tx: WARN_AND_EXECUTE, &callback)`. */
  method BeforeCommit(base: Base, callback: Option<CallbackId>, trace: seq<Event>,
                      connection: Connection? := null, withoutTx: Symbol := WarnAndExecute)
    returns (outcome: Outcome, trace': seq<Event>)
    modifies base, Target(base, connection)
    ensures RegisterCallbackSpec(base, connection, BeforeCommitName, withoutTx, callback, trace, outcome, trace')
  {
    outcome, trace' := RegisterCallback(base, connection, BeforeCommitName, withoutTx, callback, trace);
  }

  /** `after_rollback(connection: nil, &callback)`: the policy is always RAISE,
      so outside a transaction the callback is never called. */
  method AfterRollback(base: Base, callback: Option<CallbackId>, trace: seq<Event>,
                       connection: Connection? := null)
    returns (outcome: Outcome, trace': seq<Event>)
    modifies base, Target(base, connection)
    ensures RegisterCallbackSpec(base, connection, AfterRollbackName, Raise, callback, trace, outcome, trace')
    ensures callback.Some? && !old(IsInTransaction(base, connection)) ==>
              trace' == trace && outcome == Raised(NotInTransaction(AfterRollbackName + " is useless outside transaction"))
  {
    outcome, trace' := RegisterCallback(base, connection, AfterRollbackName, Raise, callback, trace);
  }

  /** The two ways `in_transaction` can run its block. */
  datatype Branch =
    | YieldDirectly                               // already in a joinable transaction: `yield`
    | OpenTransaction(connection: Connection)     // `connection.transaction { yield }`

  /** `in_transaction(connection = nil)`: resolves the connection first (which
      establishes the default one when none is given), then runs the block in
      the current transaction if there is one, or in a new transaction on that
      connection otherwise. */
  method InTransaction(base: Base, connection: Connection? := null) returns (branch: Branch)
    modifies base
    ensures connection != null ==> unchanged(base)
    ensures connection == null ==> base.poolActive
    ensures var c := Target(base, connection);
            branch == if c.transactionOpen && c.currentJoinable then YieldDirectly else OpenTransaction(c)
  {
    var c := connection;
    if c == null {
      c := DefaultConnection(base);
    }
    if IsInTransaction(base, c) {
      branch := YieldDirectly;
    } else {
      branch := OpenTransaction(c);
    }
  }
}
