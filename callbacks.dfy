/** Values shared by the registration engine and the Wrap adapter: Ruby symbols,
    opaque callbacks, and the trace of side effects that callers can observe. */
module Callbacks {

  /** A Ruby symbol, written without its leading colon (`:after_commit` is "after_commit"). */
  type Symbol = string

  /** A block handed to `after_commit` and friends. Its body is not modelled:
      calling it shows up only as a `Call` event in the trace. */
  type CallbackId = nat

  datatype Option<+T> = None | Some(value: T)

  /** A side effect, recorded in the order it happens. */
  datatype Event =
    | Warn(message: string)      // a line written to stderr by `warn`
    | Call(callback: CallbackId) // `callback.call`

  /** The names of the three public entry points; `register_callback` receives them
      as `__method__` and uses them as the handler key of the Wrap it builds. */
  const AfterCommitName: Symbol := "after_commit"
  const BeforeCommitName: Symbol := "before_commit"
  const AfterRollbackName: Symbol := "after_rollback"
}
