/** Optional values: the Go pointers that may be nil. */
module Wrappers {
  /** A pointer to a single value, `*T`. */
  datatype Option<T> = None | Some(value: T)

  /**
   * A pointer to a slice, `*[]T`. Kept apart from `Option<seq<T>>` so that an
   * element of the slice is structurally smaller than the record that holds the
   * pointer, which recursive SDK records (operands inside operands) rely on.
   */
  datatype SlicePtr<T> = Nil | Ptr(elems: seq<T>)
}
