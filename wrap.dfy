/** The Wrap adapter (`AfterCommitEverywhere::Wrap`) and the abstract database
    connection it attaches itself to. They share a module because each refers
    to the other: a Wrap holds its connection, and a connection holds its Wraps. */
module Records {
  import opened Callbacks

  /** The part of an ActiveRecord connection adapter this library relies on:
      whether a transaction is open (`transaction_open?`, that is
      `open_transactions > 0`), whether the current transaction is joinable, and
      the record list of the current transaction, to which observers are appended. */
  class Connection {
    var transactionOpen: bool
    var currentJoinable: bool
    var records: seq<Wrap>

    constructor (transactionOpen: bool, currentJoinable: bool)
      ensures this.transactionOpen == transactionOpen
      ensures this.currentJoinable == currentJoinable
      ensures records == []
    {
      this.transactionOpen := transactionOpen;
      this.currentJoinable := currentJoinable;
      records := [];
    }

    /** `add_transaction_record`: the record is appended at the end; nothing
        that is already listed moves, and the transaction state is untouched. */
    method AddTransactionRecord(record: Wrap)
      modifies this
      ensures records == old(records) + [record]
      ensures transactionOpen == old(transactionOpen)
      ensures currentJoinable == old(currentJoinable)
    {
      records := records + [record];
    }
  }

  /** An observer that ActiveRecord treats like a model object: it holds the
      connection it was built for and a map from handler name to callback. */
  class Wrap {
    const connection: Connection
    const handlers: map<Symbol, CallbackId>

    /** `initialize(connection:, **handlers)`: both are stored as given. */
    constructor (connection: Connection, handlers: map<Symbol, CallbackId>)
      ensures this.connection == connection
      ensures this.handlers == handlers
    {
      this.connection := connection;
      this.handlers := handlers;
    }

    /** `has_transactional_callbacks?`: a Wrap always takes part in transaction callbacks. */
    function HasTransactionalCallbacks(): (r: bool)
      ensures r
    {
      true
    }

    /** `before_committed!`: calls the `:before_commit` handler, if there is one, and nothing else. */
    method BeforeCommitted(trace: seq<Event>) returns (trace': seq<Event>)
      ensures BeforeCommitName in handlers ==> trace' == trace + [Call(handlers[BeforeCommitName])]
      ensures BeforeCommitName !in handlers ==> trace' == trace
    {
      trace' := trace;
      if BeforeCommitName in handlers {
        trace' := trace' + [Call(handlers[BeforeCommitName])];
      }
    }

    /** `committed!`: calls the `:after_commit` handler, if there is one, and nothing else. */
    method Committed(trace: seq<Event>) returns (trace': seq<Event>)
      ensures AfterCommitName in handlers ==> trace' == trace + [Call(handlers[AfterCommitName])]
      ensures AfterCommitName !in handlers ==> trace' == trace
    {
      trace' := trace;
      if AfterCommitName in handlers {
        trace' := trace' + [Call(handlers[AfterCommitName])];
      }
    }

    /** `rolledback!`: calls the `:after_rollback` handler, if there is one, and nothing else. */
    method RolledBack(trace: seq<Event>) returns (trace': seq<Event>)
      ensures AfterRollbackName in handlers ==> trace' == trace + [Call(handlers[AfterRollbackName])]
      ensures AfterRollbackName !in handlers ==> trace' == trace
    {
      trace' := trace;
      if AfterRollbackName in handlers {
        trace' := trace' + [Call(handlers[AfterRollbackName])];
      }
    }

    /** `add_to_transaction`: appends this Wrap to the record list of the
        connection it was built with, and of no other connection. */
    method AddToTransaction()
      modifies connection
      ensures connection.records == old(connection.records) + [this]
      ensures connection.transactionOpen == old(connection.transactionOpen)
      ensures connection.currentJoinable == old(connection.currentJoinable)
    {
      connection.AddTransactionRecord(this);
    }
  }
}
