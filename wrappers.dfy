/** An optional value, used for the component's nullable draft slots, for a
    fetch that may fail and for a connector that may not be drawn. */
module Wrappers {
  datatype Option<T> = None | Some(value: T)
}
