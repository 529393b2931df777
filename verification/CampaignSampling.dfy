/** How many selectors of a catalog entry the sampling keeps (python/cutracer/service/campaign.py). */
module CampaignSampling {
  import opened Sequences
  import opened PlanOrder
  import opened CampaignSpec

  lemma {:induction false} HasRepresentative(targets: seq<Target>, entry: string, s: nat)
    requires s in Selectors(targets, entry)
    ensures Representative(targets, entry, s).Some?
  {
    var i :| 0 <= i < |targets| && targets[i].entryId == entry && targets[i].selector == s;
    if !(targets[0].entryId == entry && targets[0].selector == s) {
      assert targets[1..][i - 1] == targets[i];
      HasRepresentative(targets[1..], entry, s);
    }
  }

  /** Scores first, then selector numbers: no two selectors tie. */
  lemma RankTotal(targets: seq<Target>, score: Target -> Key, entry: string, a: nat, b: nat)
    requires a in Selectors(targets, entry) && b in Selectors(targets, entry) && a != b
    ensures RankedBefore(targets, score, entry, a, b) || RankedBefore(targets, score, entry, b, a)
    ensures !RankedBefore(targets, score, entry, a, a)
  {
    HasRepresentative(targets, entry, a);
    HasRepresentative(targets, entry, b);
    var x, y := Representative(targets, entry, a).value, Representative(targets, entry, b).value;
    BeforeTotal(score(x), score(y));
    BeforeIrreflexive(score(x));
  }

  lemma RankTransitive(targets: seq<Target>, score: Target -> Key, entry: string, a: nat, b: nat, c: nat)
    requires RankedBefore(targets, score, entry, a, b) && RankedBefore(targets, score, entry, b, c)
    ensures RankedBefore(targets, score, entry, a, c) && a != c
  {
    var x, y, z := Representative(targets, entry, a).value, Representative(targets, entry, b).value, Representative(targets, entry, c).value;
    if Before(score(x), score(y)) && Before(score(y), score(z)) {
      BeforeTransitive(score(x), score(y), score(z));
    }
    BeforeIrreflexive(score(x));
  }

  /** How many of `some` come before `s`. */
  function Above(targets: seq<Target>, score: Target -> Key, entry: string, some: set<nat>, s: nat): nat {
    |set x | x in some && RankedBefore(targets, score, entry, x, s)|
  }

  ghost predicate Last(targets: seq<Target>, score: Target -> Key, entry: string, some: set<nat>, m: nat) {
    m in some && forall x :: x in some && x != m ==> RankedBefore(targets, score, entry, x, m)
  }

  lemma {:induction false} LastExists(targets: seq<Target>, score: Target -> Key, entry: string, some: set<nat>)
    returns (m: nat)
    requires some != {} && some <= Selectors(targets, entry)
    ensures Last(targets, score, entry, some, m)
    decreases |some|
  {
    hide RankedBefore, Selectors;
    m :| m in some;
    var rest := some - {m};
    var first := m;
    assert forall x :: x in some && x != first ==> x in rest;
    if rest != {} {
      var l := LastExists(targets, score, entry, rest);
      RankTotal(targets, score, entry, m, l);
      if RankedBefore(targets, score, entry, m, l) {
        m := l;
      } else {
        forall x | x in rest && x != l ensures RankedBefore(targets, score, entry, x, m) {
          RankTransitive(targets, score, entry, x, l, m);
        }
      }
    }
  }

  ghost function Kept(targets: seq<Target>, score: Target -> Key, entry: string, some: set<nat>, k: nat): set<nat> {
    set s | s in some && Above(targets, score, entry, some, s) < k
  }

  /** Of any set of selectors, the ones with fewer than `k` before them are `k`, or all if there are fewer. */
  lemma {:induction false} KeptAbove(targets: seq<Target>, score: Target -> Key, entry: string, some: set<nat>, k: nat)
    requires some <= Selectors(targets, entry)
    ensures |Kept(targets, score, entry, some, k)| == Min(k, |some|)
    decreases |some|
  {
    hide RankedBefore, Selectors, Above;
    if some == {} {
      assert Kept(targets, score, entry, some, k) == {};
    } else {
      var m := LastExists(targets, score, entry, some);
      var rest := some - {m};
      KeptAbove(targets, score, entry, rest, k);
      RankOfLast(targets, score, entry, some, m);
      forall s | s in rest ensures Above(targets, score, entry, some, s) == Above(targets, score, entry, rest, s) {
        RankOfOthers(targets, score, entry, some, m, s);
      }
      var less := Kept(targets, score, entry, rest, k);
      assert m !in less && |some| == |rest| + 1;
      assert Kept(targets, score, entry, some, k) == less + (if |some| - 1 < k then {m} else {});
    }
  }

  lemma RankOfLast(targets: seq<Target>, score: Target -> Key, entry: string, some: set<nat>, m: nat)
    requires Last(targets, score, entry, some, m) && some <= Selectors(targets, entry)
    ensures Above(targets, score, entry, some, m) == |some| - 1
  {
    assert !RankedBefore(targets, score, entry, m, m) by { NotBeforeItself(targets, score, entry, m); }
    hide RankedBefore;
    assert (set x | x in some && RankedBefore(targets, score, entry, x, m)) == some - {m};
  }

  lemma NotBeforeItself(targets: seq<Target>, score: Target -> Key, entry: string, m: nat)
    ensures !RankedBefore(targets, score, entry, m, m)
  {
    if Representative(targets, entry, m).Some? {
      BeforeIrreflexive(score(Representative(targets, entry, m).value));
    }
  }

  lemma RankOfOthers(targets: seq<Target>, score: Target -> Key, entry: string, some: set<nat>, m: nat, s: nat)
    requires Last(targets, score, entry, some, m) && s in some && s != m
    ensures Above(targets, score, entry, some, s) == Above(targets, score, entry, some - {m}, s)
  {
    hide RankedBefore;
    if RankedBefore(targets, score, entry, m, s) {
      RankTransitive(targets, score, entry, m, s, m);
    }
    assert (set x | x in some && RankedBefore(targets, score, entry, x, s)) == (set x | x in some - {m} && RankedBefore(targets, score, entry, x, s));
  }

  /** Sampling keeps exactly the limit of selectors of an entry, or all of them, and whole selectors at a time. */
  lemma {:induction false} SampleSize(targets: seq<Target>, score: Target -> Key, entry: string, limit: nat)
    requires Consistent(targets) && forall i :: 0 <= i < |targets| && targets[i].entryId == entry ==> targets[i].sampling.maxSelected == Some(limit)
    ensures var kept := set i | 0 <= i < |targets| && targets[i].entryId == entry && Sampled(targets, score, targets[i]) :: targets[i].selector;
            |kept| == Min(limit, |Selectors(targets, entry)|)
    ensures forall i, j ::
              (0 <= i < |targets| && 0 <= j < |targets| && targets[i].entryId == entry == targets[j].entryId
               && targets[i].selector == targets[j].selector) ==>
                (Sampled(targets, score, targets[i]) <==> Sampled(targets, score, targets[j]))
  {
    var all := Selectors(targets, entry);
    KeptAbove(targets, score, entry, all, limit);
    hide RankedBefore;
    forall s ensures Rank(targets, score, entry, s) == Above(targets, score, entry, all, s) {
    }
    hide Rank, Above;
    var kept := set i | 0 <= i < |targets| && targets[i].entryId == entry && Sampled(targets, score, targets[i]) :: targets[i].selector;
    assert kept == Kept(targets, score, entry, all, limit);
  }
}
