/** A small driver standing in for ActiveRecord's transaction manager at the one
    point this library cares about: calling one lifecycle hook on every record of
    a list. It fixes what the list's Wraps contribute to the trace, so that the
    lemmas below can say which callbacks a hook fires. */
module Dispatch {
  import opened Callbacks
  import opened Records

  /** The three lifecycle hooks a Wrap answers. */
  datatype Hook = BeforeCommitted | Committed | RolledBack {
    /** The handler key the hook looks up in a Wrap. */
    function Key(): (key: Symbol) {
      match this
      case BeforeCommitted => BeforeCommitName
      case Committed => AfterCommitName
      case RolledBack => AfterRollbackName
    }
  }

  /** What one hook adds to the trace for a Wrap with these handlers. */
  function HandlerCall(handlers: map<Symbol, CallbackId>, key: Symbol): (calls: seq<Event>) {
    if key in handlers then [Call(handlers[key])] else []
  }

  /** What calling the hook with this key on every record, in list order, adds to the trace. */
  function HookCalls(records: seq<Wrap>, key: Symbol): (calls: seq<Event>) {
    if records == [] then [] else HandlerCall(records[0].handlers, key) + HookCalls(records[1..], key)
  }

  lemma {:induction false} HookCallsAppend(a: seq<Wrap>, b: seq<Wrap>, key: Symbol)
    ensures HookCalls(a + b, key) == HookCalls(a, key) + HookCalls(b, key)
  {
    if a == [] {
      assert a + b == b;
    } else {
      assert (a + b)[1..] == a[1..] + b;
      HookCallsAppend(a[1..], b, key);
    }
  }

  /** Calls one hook on one record. */
  method Fire(record: Wrap, hook: Hook, trace: seq<Event>) returns (trace': seq<Event>)
    ensures trace' == trace + HandlerCall(record.handlers, hook.Key())
  {
    match hook {
      case BeforeCommitted => trace' := record.BeforeCommitted(trace);
      case Committed => trace' := record.Committed(trace);
      case RolledBack => trace' := record.RolledBack(trace);
    }
  }

  /** Calls `hook` on every record, first to last. */
  method Notify(records: seq<Wrap>, hook: Hook, trace: seq<Event>) returns (trace': seq<Event>)
    ensures trace' == trace + HookCalls(records, hook.Key())
  {
    trace' := trace;
    var i := 0;
    while i < |records|
      invariant 0 <= i <= |records|
      invariant trace' == trace + HookCalls(records[..i], hook.Key())
    {
      trace' := Fire(records[i], hook, trace');
      assert records[..i + 1] == records[..i] + [records[i]];
      HookCallsAppend(records[..i], [records[i]], hook.Key());
      i := i + 1;
    }
    assert records[..i] == records;
  }

  /** `records` are the Wraps that `register_callback` built for the registrations
      `regs`, in order: each holds exactly one handler, keyed by the entry-point name. */
  ghost predicate BuiltFrom(records: seq<Wrap>, regs: seq<(Symbol, CallbackId)>) {
    && |records| == |regs|
    && forall i :: 0 <= i < |records| ==> records[i].handlers == map[regs[i].0 := regs[i].1]
  }

  /** The calls of the callbacks registered through entry point `name`, in registration order. */
  function CallsThrough(regs: seq<(Symbol, CallbackId)>, name: Symbol): (calls: seq<Event>) {
    if regs == [] then []
    else (if regs[0].0 == name then [Call(regs[0].1)] else []) + CallsThrough(regs[1..], name)
  }

  /** Registrations can be followed one run at a time: the callbacks registered
      through `name` over `r1` then `r2` are those of `r1` followed by those of `r2`. */
  lemma {:induction false} CallsThroughAppend(r1: seq<(Symbol, CallbackId)>, r2: seq<(Symbol, CallbackId)>, name: Symbol)
    ensures CallsThrough(r1 + r2, name) == CallsThrough(r1, name) + CallsThrough(r2, name)
  {
    if r1 == [] {
      assert r1 + r2 == r2;
    } else {
      var head := if r1[0].0 == name then [Call(r1[0].1)] else [];
      assert (r1 + r2)[0] == r1[0];
      assert (r1 + r2)[1..] == r1[1..] + r2;
      assert CallsThrough(r1 + r2, name) == head + CallsThrough(r1[1..] + r2, name);
      CallsThroughAppend(r1[1..], r2, name);
      assert CallsThrough(r1, name) == head + CallsThrough(r1[1..], name);
    }
  }

  /** A hook fires exactly the callbacks registered through the matching entry
      point (`committed!` those of `after_commit`, and so on), once each and in
      registration order; callbacks registered through the other two entry
      points are never called by it. */
  lemma {:induction false} HookFiresOnlyMatching(records: seq<Wrap>, regs: seq<(Symbol, CallbackId)>, hook: Hook)
    requires BuiltFrom(records, regs)
    ensures HookCalls(records, hook.Key()) == CallsThrough(regs, hook.Key())
  {
    if records != [] {
      assert BuiltFrom(records[1..], regs[1..]) by {
        forall i | 0 <= i < |records[1..]|
          ensures records[1..][i].handlers == map[regs[1..][i].0 := regs[1..][i].1]
        {
          assert records[1..][i] == records[i + 1];
        }
      }
      HookFiresOnlyMatching(records[1..], regs[1..], hook);
    }
  }

  /** A Wrap built by `register_callback` answers at most one of its three hooks:
      the one whose key is the name it was registered under. */
  lemma AtMostOneHookFires(w: Wrap, name: Symbol, callback: CallbackId, hook: Hook)
    requires w.handlers == map[name := callback]
    ensures HandlerCall(w.handlers, hook.Key()) == if hook.Key() == name then [Call(callback)] else []
  {
  }
}
