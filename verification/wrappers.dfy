/** Failure-compatible wrapper used where the Python code raises instead of returning. */
module Wrappers {

  /** `None` stands for a lookup that raised; `Some(v)` for one that produced `v`. */
  datatype Option<+T> = None | Some(value: T)
}
