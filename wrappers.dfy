/** Stock Option type used wherever the source has a value that may be absent
    (an unselected input node, an unbound local variable, a draw that was never accepted). */
module Wrappers {
  datatype Option<+T> = None | Some(value: T)
}
