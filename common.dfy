/** Small shared datatypes: the optional value the Go code expresses with nil. */
module Common {

  /** A value that may be absent (a nil pointer or a failed lookup in Go). */
  datatype Option<+T> = None | Some(value: T)

  /** Either a value or an error, the model of Go's `(T, error)` pairs. */
  datatype Result<+T, +E> = Ok(value: T) | Err(error: E)

  /** Concatenation regrouped, so that proofs about long concatenations need not compare elements. */
  lemma ConcatAssoc<T>(x: seq<T>, y: seq<T>, z: seq<T>)
    ensures (x + y) + z == x + (y + z)
  {
  }

  /** A non-empty sequence is its first element followed by the rest. */
  lemma HeadThenTail<T>(s: seq<T>)
    requires |s| > 0
    ensures [s[0]] + s[1..] == s
  {
  }
}
