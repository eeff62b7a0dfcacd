/** Option and Outcome: a query that may find nothing, a transaction that may throw. */
module Wrappers {

  datatype Option<+T> = None | Some(value: T)

  /** How a transaction body ends: it commits a new state, or it throws and everything rolls back. */
  datatype Outcome<+T> = Commit(state: T) | Abort
}
