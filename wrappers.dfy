/** The Option datatype used for the source's `undefined` / `null` values. */
module Wrappers {
  datatype Option<+T> = None | Some(value: T)

  /** Sequence concatenation is associative; stated once so callers need not re-derive it element-wise. */
  lemma AppendAssoc<T>(a: seq<T>, b: seq<T>, c: seq<T>)
    ensures a + b + c == a + (b + c)
  {
  }
}
