/** Order-preserving selection from a sequence, as `Array.prototype.filter`
    produces it. */
module Sequences {

  /** `a` is `b` with some entries left out, the rest in their order. */
  predicate IsSubsequence<T(==)>(a: seq<T>, b: seq<T>)
    decreases |b|
  {
    if a == [] then true
    else if b == [] then false
    else (a[0] == b[0] && IsSubsequence(a[1..], b[1..])) || IsSubsequence(a, b[1..])
  }
}
