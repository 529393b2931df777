/** Sublists, permutations and small facts about sequences shared by the other modules. */
module Sequences {

  datatype Option<+T> = None | Some(value: T)

  function Min(a: int, b: int): int { if a < b then a else b }

  function Max(a: int, b: int): int { if a < b then b else a }

  /** `f` lists, in increasing order, the positions of `b` that make up `a`. */
  ghost predicate Embeds<T>(a: seq<T>, b: seq<T>, f: seq<nat>) {
    && |f| == |a|
    && (forall i, j :: 0 <= i < j < |f| ==> f[i] < f[j])
    && (forall i :: 0 <= i < |f| ==> f[i] < |b| && a[i] == b[f[i]])
  }

  ghost predicate Sublist<T>(a: seq<T>, b: seq<T>) {
    exists f :: Embeds(a, b, f)
  }

  lemma EmbedsNone<T>(b: seq<T>)
    ensures Embeds([], b, [])
  {
  }

  lemma EmbedsMore<T>(a: seq<T>, b: seq<T>, f: seq<nat>, i: nat)
    requires Embeds(a, b, f) && i < |b| && forall j :: 0 <= j < |f| ==> f[j] < i
    ensures Embeds(a + [b[i]], b, f + [i])
  {
  }

  lemma SublistRefl<T>(a: seq<T>)
    ensures Sublist(a, a)
  {
    assert Embeds(a, a, seq(|a|, i requires 0 <= i < |a| => i));
  }

  lemma SublistTransitive<T>(a: seq<T>, b: seq<T>, c: seq<T>)
    requires Sublist(a, b) && Sublist(b, c)
    ensures Sublist(a, c)
  {
    var f :| Embeds(a, b, f);
    var g :| Embeds(b, c, g);
    assert Embeds(a, c, seq(|f|, i requires 0 <= i < |f| => g[f[i]]));
  }

  lemma {:induction false} SublistIsNoLonger<T>(a: seq<T>, b: seq<T>)
    requires Sublist(a, b)
    ensures |a| <= |b|
    decreases |a|
  {
    if a != [] {
      var f :| Embeds(a, b, f);
      var last := f[|f| - 1];
      assert Embeds(a[..|a| - 1], b[..last], f[..|f| - 1]);
      SublistIsNoLonger(a[..|a| - 1], b[..last]);
    }
  }

  /** Leaving out one stretch of a sequence gives a sublist. */
  lemma CutIsSublist<T>(s: seq<T>, i: nat, j: nat)
    requires i <= j <= |s|
    ensures Sublist(s[..i] + s[j..], s)
  {
    var f := seq(i + |s| - j, k requires 0 <= k < i + |s| - j => if k < i then k else k - i + j);
    assert Embeds(s[..i] + s[j..], s, f);
  }

  lemma SliceIsSublist<T>(s: seq<T>, i: nat, j: nat)
    requires i <= j <= |s|
    ensures Sublist(s[i..j], s)
  {
    assert Embeds(s[i..j], s, seq(j - i, k requires 0 <= k < j - i => k + i));
  }

  /** No element occurs twice. */
  ghost predicate Distinct<T>(s: seq<T>) {
    forall i, j :: 0 <= i < j < |s| ==> s[i] != s[j]
  }

  lemma SublistElements<T>(a: seq<T>, b: seq<T>)
    requires Sublist(a, b)
    ensures forall x :: x in a ==> x in b
    ensures Distinct(b) ==> Distinct(a)
    ensures |a| <= |b|
  {
    var f :| Embeds(a, b, f);
    IncreasingBound(f, |b|);
  }

  lemma {:induction false} IncreasingBound(f: seq<nat>, n: nat)
    requires forall i, j :: 0 <= i < j < |f| ==> f[i] < f[j]
    requires forall i :: 0 <= i < |f| ==> f[i] < n
    ensures |f| <= n
  {
    if f != [] {
      IncreasingBound(f[..|f| - 1], f[|f| - 1]);
    }
  }
}
