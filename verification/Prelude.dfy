/** Small shared types. */
module Prelude {
  datatype Option<+T> = None | Some(value: T)

  datatype Result<+T> = Ok(value: T) | Err(code: string)

  /** How a transaction ends: committed, committed and then raised (a task marked
      stale before the error is returned), or rolled back. */
  datatype Reply<+T> =
    | Commit(db: T)
    | CommitThenRaise(db: T, code: string)
    | Abort(code: string)

  /** The state a caller finds after the transaction. */
  function After<T>(before: T, r: Reply<T>): T {
    if r.Abort? then before else r.db
  }
}
