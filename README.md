# after_commit_everywhere, modelled in Dafny

A model of the core of the Ruby library `after_commit_everywhere`, which lets
code that is not an ActiveRecord model register `after_commit`, `before_commit`
and `after_rollback` callbacks on the current database transaction. The model
covers:

- the registration engine (`register_callback`). With no transaction open it
  applies the `without_tx` policy. Inside a transaction it appends a `Wrap`
  observer to the connection's transaction-record list.
- the transaction-state predicate `in_transaction?` and the helper
  `in_transaction`.
- the `Wrap` adapter that ActiveRecord later calls back.

The connection is abstract. `Records.Connection` has the fields
`transactionOpen`, `currentJoinable` and `records`.
`AfterCommitEverywhere.Base` stands for `ActiveRecord::Base`. It has a flag for
"the pool holds an active connection" and the default connection. Callbacks are
opaque numbers. The effects a caller can see are kept as a trace of events,
passed in and out of each operation: `Warn(message)` for a line on stderr and
`Call(callback)` for `callback.call`.

Files:

- `callbacks.dfy`: symbols, callbacks, the event trace and the entry-point names.
- `wrap.dfy`: the abstract connection and the `Wrap` class.
- `dispatch.dfy`: a small driver that calls one hook on every record of a list,
  with lemmas on which callbacks a hook fires.
- `after_commit_everywhere.dfy`: the policy constants, `in_transaction?`,
  `register_callback`, the three entry points, `default_connection` and
  `in_transaction`.
- `scenarios.dfy`: client methods that follow the library's own examples and
  use only the contracts above.

Two behaviours of the code worth noting:

- The code checks the `without_tx` value only when no transaction is open.
  Inside a transaction an invalid value is accepted without error.
- This version has no `prepend` option. Every registration appends.

## Model

| member | source | states |
|---|---|---|
| Records.Connection.AddTransactionRecord | lib/after_commit_everywhere.rb:122 | the record goes to the end of the list; earlier records and the transaction state are unchanged |
| Records.Wrap.constructor | lib/after_commit_everywhere/wrap.rb:7-10 | the connection and the handler map are stored exactly as given |
| Records.Wrap.HasTransactionalCallbacks | lib/after_commit_everywhere/wrap.rb:13-15 | always true |
| Records.Wrap.BeforeCommitted | lib/after_commit_everywhere/wrap.rb:18-20 | calls the `before_commit` handler once if present; otherwise the trace is unchanged |
| Records.Wrap.Committed | lib/after_commit_everywhere/wrap.rb:22-24 | calls the `after_commit` handler once if present; otherwise the trace is unchanged |
| Records.Wrap.RolledBack | lib/after_commit_everywhere/wrap.rb:26-28 | calls the `after_rollback` handler once if present; otherwise the trace is unchanged |
| Records.Wrap.AddToTransaction | lib/after_commit_everywhere/wrap.rb:30-33 | appends the Wrap itself to the record list of its own connection, and only that connection is modified |
| Dispatch.Notify | lib/after_commit_everywhere/wrap.rb:18-28 | calling one hook on every record, in list order, adds to the trace exactly the handler calls of the records, in that order |
| Dispatch.HookFiresOnlyMatching | lib/after_commit_everywhere.rb:120-122 | for records built by registration (one handler keyed by the entry-point name), a hook calls exactly the callbacks registered through the matching entry point, once each, in registration order |
| Dispatch.AtMostOneHookFires | lib/after_commit_everywhere/wrap.rb:18-28 | a Wrap with a single handler responds only to the hook whose key is that handler's name; the other two hooks do nothing |
| AfterCommitEverywhere.DefaultConnection | lib/after_commit_everywhere.rb:151-153 | returns the default connection; afterwards the pool holds an active connection |
| AfterCommitEverywhere.IsInTransaction | lib/after_commit_everywhere.rb:126-133 | false when no connection is given and the pool is inactive, and in that case the default connection is not read (reads clause); otherwise true exactly when a transaction is open and the current one is joinable |
| AfterCommitEverywhere.RegisterCallback | lib/after_commit_everywhere.rb:103-123 | one of six outcomes. No callback: ArgumentError. No transaction: warn_and_execute warns then calls once; execute calls once; raise raises NotInTransaction; any other value raises ArgumentError; none of these appends. In a transaction: one fresh Wrap `{name => callback}` for that connection is appended to its list, nothing is called and the policy is ignored. `Base` never changes |
| AfterCommitEverywhere.AfterCommit | lib/after_commit_everywhere.rb:41-52 | registers under `after_commit`; the policy defaults to execute |
| AfterCommitEverywhere.BeforeCommit | lib/after_commit_everywhere.rb:66-81 | registers under `before_commit`; the policy defaults to warn_and_execute |
| AfterCommitEverywhere.AfterRollback | lib/after_commit_everywhere.rb:93-100 | registers under `after_rollback` with policy raise; outside a transaction the callback is never called and NotInTransaction is returned |
| AfterCommitEverywhere.InTransaction | lib/after_commit_everywhere.rb:139-147 | resolves the connection first, which makes the pool active if no connection was given. If that connection has an open, joinable transaction, the block runs directly; otherwise it runs in a new transaction on that connection |
| Scenarios.AfterCommitInTransaction | spec/after_commit_everywhere_spec.rb:30-45 | inside a transaction nothing runs at registration; the commit hook calls the callback once; the rollback hook calls nothing |
| Scenarios.AfterRollbackInTransaction | spec/after_commit_everywhere_spec.rb:256-271 | inside a transaction the rollback hook calls the callback once; the commit hook calls nothing |
| Scenarios.AfterCommitOutsideTransaction | spec/after_commit_everywhere_spec.rb:65-73 | with no transaction, the callback runs at once, with no warning and no record |
| Scenarios.BeforeCommitOutsideTransaction | spec/after_commit_everywhere_spec.rb:176-186 | with no transaction, a warning naming `before_commit` comes first, then one call; no record |
| Scenarios.AfterRollbackOutsideTransaction | spec/after_commit_everywhere_spec.rb:274-279 | with no transaction, NotInTransaction is raised, nothing is called and no record is appended |
| Scenarios.NonJoinableTransaction | lib/after_commit_everywhere.rb:131-132 | an open but non-joinable (test-fixture) transaction counts as none: the callback runs at once and no record is appended |
| Scenarios.NoPoolConnection | lib/after_commit_everywhere.rb:127-128 | with an inactive pool, `in_transaction?` is false and registering does not establish a connection; `in_transaction` opens a new transaction |
| Scenarios.SecondDatabase | spec/after_commit_everywhere_spec.rb:111-126 | a registration on an explicit second connection goes to that connection's list only |
| Scenarios.SeveralInOneTransaction | spec/after_commit_everywhere_spec.rb:30-37 | three registrations in one transaction (`after_commit a`, `before_commit b`, `after_commit c`): the commit hook calls a then c, the before-commit hook calls only b, the rollback hook calls nothing |
| Dispatch.CallsThroughAppend | lib/after_commit_everywhere.rb:120-122 | the callbacks registered through one entry point over two runs of registrations are those of the first run followed by those of the second |
| Scenarios.MissingCallback | lib/after_commit_everywhere.rb:104 | a missing block raises ArgumentError whether or not a transaction is open; nothing is called or recorded |

## Left out

- ActiveRecord's transaction manager. Commit, rollback, savepoints, `requires_new` scopes, the `ActiveRecord::Rollback` signal and the order in which it fires hooks are not modelled. The model stops once a record is appended. `Dispatch.Notify` only shows what one hook does across a list.
- The ActiveRecord side of `add_transaction_record` is reduced to appending to a single list per connection. The no-op of ActiveRecord's null transaction is not modelled (this library calls it only inside a transaction).
- Callback bodies, and their return values, are opaque: a call shows up only as a `Call` event. A callback that raises, and so stops later sibling callbacks, is not modelled.
- The text of `warn` is kept as the message string in a `Warn` event. Writing it to stderr is not modelled.
- Records.Wrap.AddToTransaction: each connection has a single record list, so re-adding a Wrap puts it into that same list a second time (a later hook would then call its callback twice). In ActiveRecord the re-add goes into the record list of the new `requires_new` transaction instead, and that nesting is not modelled.
- `Base` reduces ActiveRecord's connection pool to one flag and one default connection. `DefaultConnection` models establishing a connection only as setting that flag.
- The Rails-version check in `before_commit` that raises `NotImplementedError` (lib/after_commit_everywhere.rb:71-73) is environment detection and is left out.
- The per-object `delegate` forwarding (lib/after_commit_everywhere.rb:16-17) is a thin wrapper and is left out.
- The default `connection:` argument of `Wrap#initialize` (`ActiveRecord::Base.connection`) is not modelled; the library always passes a connection.
- Ruby symbols are modelled as strings, and `register_callback`'s `name` as any string. Only the three entry-point names are ever passed.
