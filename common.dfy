/** Small wrappers shared by every module of the model. */
module Common {

  /** A value that may be absent: JavaScript's `undefined` / `null` for an optional field. */
  datatype Option<+T> = None | Some(value: T) {
    function GetOr(default: T): T {
      match this
      case Some(v) => v
      case None => default
    }
  }

  /** The outcome of an operation that either completes or throws an error. */
  datatype Outcome<+E> = Pass | Fail(error: E)

  function Min(a: int, b: int): int {
    if a <= b then a else b
  }

  /**
   * `xs` is `ys` with some elements left out and the rest in their original
   * order: what `Array.prototype.filter` returns.
   */
  predicate IsSubsequence<T(==)>(xs: seq<T>, ys: seq<T>)
    decreases |ys|
  {
    xs == [] || (ys != [] && ((xs[0] == ys[0] && IsSubsequence(xs[1..], ys[1..])) || IsSubsequence(xs, ys[1..])))
  }
}
