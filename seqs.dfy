/** Facts about sequence slices shared by the loops that walk a list from the front. */
module Seqs {
  /** The first i + 1 elements are the first i and then element i. */
  lemma TakeOneMore<T>(s: seq<T>, i: int)
    requires 0 <= i < |s|
    ensures s[..i + 1] == s[..i] + [s[i]]
  {
  }
}
