/** Facts about slicing concatenated sequences, shared by the string
    utilities and the logger's line layout. */
module Slices {

  /** The middle part of a three-part concatenation is found at the offset
      of the first part's length. */
  lemma SliceMiddle<T>(a: seq<T>, b: seq<T>, c: seq<T>)
    ensures |a| + |b| <= |a + b + c|
    ensures (a + b + c)[|a|..|a| + |b|] == b
  {
  }

}
