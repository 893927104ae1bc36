/** Facts about concatenation that proofs state at the point of use. */
module Sequences {

  lemma Regroup<T>(a: seq<T>, b: seq<T>, c: seq<T>)
    ensures (a + b) + c == a + (b + c)
  {
  }

  /** Equal concatenations whose first parts are equally long have equal parts. */
  lemma SplitAt<T>(a: seq<T>, b: seq<T>, x: seq<T>, y: seq<T>)
    requires a + x == b + y && |a| == |b|
    ensures a == b && x == y
  {
    assert a == (a + x)[..|a|] && b == (b + y)[..|b|];
    assert x == (a + x)[|a|..] && y == (b + y)[|b|..];
  }

  /** Adjacent slices make one slice. */
  lemma Glue<T>(s: seq<T>, i: nat, j: nat, k: nat)
    requires i <= j <= k <= |s|
    ensures s[i..j] + s[j..k] == s[i..k]
  {
  }
}
