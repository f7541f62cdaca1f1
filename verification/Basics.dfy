/** Values that may be absent, byte strings, and the size of sets. */
module Basics {
  datatype Option<+T> = None | Some(value: T)

  newtype Octet = x: int | 0 <= x < 256
  type Bytes = seq<Octet>

  lemma {:induction false} SubsetSize<T>(a: set<T>, b: set<T>)
    requires a <= b
    ensures |a| <= |b| && (|a| == |b| ==> a == b)
  {
    if x :| x in a { SubsetSize(a - {x}, b - {x}); }
  }
}
