/** Small facts about sequences that the loops of the model share. */
module Seqs {
  /** Concatenation is associative; loops that append one step's output
      to what came before use it to line up with the recursive definition. */
  lemma Associative<T>(a: seq<T>, b: seq<T>, c: seq<T>)
    ensures a + (b + c) == (a + b) + c
  {
  }

  /** The first `n + 1` elements are the head and the first `n` of the tail. */
  lemma TakeCons<T>(s: seq<T>, n: nat)
    requires n < |s|
    ensures s[..n + 1] == [s[0]] + s[1..][..n]
  {
    forall i | 0 <= i < n + 1
      ensures s[..n + 1][i] == ([s[0]] + s[1..][..n])[i]
    {
      if i > 0 {
        assert ([s[0]] + s[1..][..n])[i] == s[1..][..n][i - 1];
      }
    }
  }
}
