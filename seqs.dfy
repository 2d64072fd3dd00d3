/** Small facts about sequence concatenation, stated on their own so that
    the loops that append to a list can use them without unfolding the
    functions that describe the list. */
module Seqs {
  /** Growing a prefix of `s` by one element. */
  lemma PrefixStep<T>(p: seq<T>, s: seq<T>, j: nat)
    requires j < |s|
    ensures p + s[..j + 1] == (p + s[..j]) + [s[j]]
  {
    assert s[..j + 1] == s[..j] + [s[j]];
  }

  /** Cutting `s` after its element `j`. */
  lemma SplitAfter<T>(p: seq<T>, s: seq<T>, j: nat)
    requires j < |s|
    ensures p + s == (p + s[..j + 1]) + s[j + 1..]
  {
    assert s == s[..j + 1] + s[j + 1..];
  }

  /** Appending to a list that already holds a prefix. */
  lemma AppendAssoc<T>(a: seq<T>, b: seq<T>, c: seq<T>)
    ensures a + (b + c) == (a + b) + c
  {
  }
}
