/** Facts about concatenation and slices, for elements of any type. */
module Sequences {
  lemma Unit<T>(a: seq<T>)
    ensures a + [] == a && [] + a == a
  {}

  lemma Associates<T>(a: seq<T>, b: seq<T>, c: seq<T>)
    ensures a + b + c == a + (b + c)
  {}

  lemma Regroups<T>(a: seq<T>, b: seq<T>, c: seq<T>, d: seq<T>)
    ensures a + (b + c) + d == a + b + (c + d)
  {}

  lemma TakeDrop<T>(a: seq<T>, n: nat)
    requires n <= |a|
    ensures a[..n] + a[n..] == a
  {}

  lemma ThreeParts<T>(a: seq<T>, i: nat, j: nat)
    requires i <= j <= |a|
    ensures a == a[..i] + a[i..j] + a[j..] && a[..j] == a[..i] + a[i..j]
  {}

  lemma TakeAppended<T>(a: seq<T>, b: seq<T>)
    ensures (a + b)[..|a|] == a && (a + b)[|a|..] == b
  {}

  lemma SliceAppended<T>(a: seq<T>, b: seq<T>, i: nat, j: nat)
    requires i <= j
    ensures j <= |a| ==> (a + b)[i..j] == a[i..j]
    ensures j <= |b| ==> (a + b)[|a| + i..|a| + j] == b[i..j]
  {
    if j <= |b| {
      forall k | 0 <= k < j - i
        ensures (a + b)[|a| + i..|a| + j][k] == b[i..j][k]
      {
        assert (a + b)[|a| + (i + k)] == b[i + k];
      }
    }
  }

  lemma FirstOf<T>(a: seq<T>, i: nat)
    requires i < |a|
    ensures a[i..] == [a[i]] + a[i + 1..]
  {}

  lemma LastOf<T>(a: seq<T>)
    requires a != []
    ensures a == a[..|a| - 1] + [a[|a| - 1]]
  {}
}
