/** Facts about sequence concatenation that the inductive proofs of the other modules use
    at every step. */
module Sequences {

  /** Concatenation with a non-empty left operand starts with that operand's first element. */
  lemma ConcatTail<T>(a: seq<T>, b: seq<T>)
    requires a != []
    ensures (a + b)[0] == a[0] && (a + b)[1..] == a[1..] + b
  {
  }

  /** A non-empty sequence is its first element followed by the rest, after any prefix. */
  lemma SplitFirst<T>(xs: seq<T>, ys: seq<T>)
    requires ys != []
    ensures xs + [ys[0]] + ys[1..] == xs + ys
  {
    assert ys == [ys[0]] + ys[1..];
  }
}
