/** Small facts about sequence concatenation, stated once for every element type. */
module Seqs {
  /** Taking apart `a + b` at the head of a non-empty `a`. */
  lemma HeadOfAppend<T>(a: seq<T>, b: seq<T>)
    requires |a| > 0
    ensures (a + b)[0] == a[0] && (a + b)[1..] == a[1..] + b
  {
  }

  lemma EmptyAppend<T>(a: seq<T>, b: seq<T>)
    requires a == []
    ensures a + b == b
  {
  }

  /** The two sides of `a + b`, taken apart again. */
  lemma AppendParts<T>(a: seq<T>, b: seq<T>)
    ensures (a + b)[..|a|] == a && (a + b)[|a|..] == b
  {
  }

  lemma Assoc<T>(xs: seq<T>, ys: seq<T>, zs: seq<T>)
    ensures xs + (ys + zs) == (xs + ys) + zs
  {
  }

  /** Cutting `a + [c] + b` inside `a`. */
  lemma SplitAround<T>(a: seq<T>, c: T, b: seq<T>, k: nat)
    requires k <= |a|
    ensures (a + [c] + b)[..k] == a[..k]
    ensures (a + [c] + b)[k..] == a[k..] + [c] + b
    ensures k == |a| ==> (a + [c] + b)[..k] == a
  {
  }

  /** The part of a prefix from `k` on is a prefix of the part from `k` on. */
  lemma SliceOfPrefix<T>(s: seq<T>, m: nat, k: nat)
    requires k <= m <= |s|
    ensures s[..m][k..] == s[k..][..m - k]
  {
  }

  /** Dropping the first element shifts every index by one. */
  lemma DropFirst<T>(s: seq<T>, i: nat)
    requires 0 < i <= |s|
    ensures s[1..][i - 1..] == s[i..] && [s[0]] + s[1..][..i - 1] == s[..i]
    ensures forall j :: 0 <= j < |s| ==> s[1..][j..] == s[j + 1..]
  {
  }

  /** `r` can be read off `s` by deleting elements: its elements occur in `s` in the same
      order. */
  predicate SubsequenceOf<T(==)>(r: seq<T>, s: seq<T>)
    decreases |s|
  {
    if r == [] then true
    else if s == [] then false
    else (r[0] == s[0] && SubsequenceOf(r[1..], s[1..])) || SubsequenceOf(r, s[1..])
  }

  /** Skipping the head of `s`, or matching it, keeps a subsequence a subsequence. */
  lemma SubsequenceCons<T>(r: seq<T>, s: seq<T>)
    requires s != [] && SubsequenceOf(r, s[1..])
    ensures SubsequenceOf(r, s)
    ensures SubsequenceOf([s[0]] + r, s)
  {
    assert ([s[0]] + r)[1..] == r;
  }

  lemma MultisetCons<T>(s: seq<T>)
    requires s != []
    ensures multiset(s) == multiset{s[0]} + multiset(s[1..])
  {
    assert s == [s[0]] + s[1..];
  }
}
