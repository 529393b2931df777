/** Reduction of a set of delay points to one that still triggers (python/cutracer/reduce/reduce.py).

    The oracle is a function of the set of enabled points.  Replaying a candidate is not modelled. */
module Reduce {
  import opened Sequences
  import opened DelayConfig

  type Oracle = set<PointKey> -> bool

  // ------------------------------------------------------------ majority voting

  /** How many of the first `k` runs showed the race. */
  function CountTrue(answers: nat -> bool, k: nat): (n: nat)
    ensures n <= k
  {
    if k == 0 then 0 else CountTrue(answers, k - 1) + (if answers(k - 1) then 1 else 0)
  }

  lemma {:induction false} CountTrueExtends(answers: nat -> bool, other: nat -> bool, i: nat, k: nat)
    requires i <= k
    requires forall j: nat :: j < i ==> answers(j) == other(j)
    ensures CountTrue(answers, i) <= CountTrue(other, k) <= CountTrue(answers, i) + (k - i)
    decreases k
  {
    if i < k {
      CountTrueExtends(answers, other, i, k - 1);
    } else if k > 0 {
      CountTrueExtends(answers, other, i - 1, k - 1);
    }
  }

  /** Most of the `k` runs showed the race. */
  ghost predicate Majority(answers: nat -> bool, k: nat) {
    2 * CountTrue(answers, k) > k
  }

  /** However the runs after the first `i` turn out, the majority of all `k` is `race`. */
  ghost predicate Decided(answers: nat -> bool, i: nat, k: nat, race: bool) {
    forall other: nat -> bool :: (forall j: nat :: j < i ==> answers(j) == other(j)) ==> Majority(other, k) == race
  }

  lemma VoteDecided(answers: nat -> bool, i: nat, k: nat, race: bool)
    requires 0 < i <= k
    requires if race then CountTrue(answers, i) >= k / 2 + 1 else i - CountTrue(answers, i) >= k / 2 + 1 || (i == k && CountTrue(answers, i) < k / 2 + 1)
    ensures Decided(answers, i, k, race) && Majority(answers, k) == race
  {
    forall other: nat -> bool | (forall j: nat :: j < i ==> answers(j) == other(j))
      ensures Majority(other, k) == race
    {
      CountTrueExtends(answers, other, i, k);
    }
  }

  /** The vote is the strict majority of all `confidenceRuns` runs, although it may stop early: it
      stops only when the remaining runs can no longer change the answer. */
  method RunTestWithConfidence(answers: nat -> bool, confidenceRuns: int) returns (race: bool, runs: nat)
    ensures 1 <= runs <= Max(1, confidenceRuns)
    ensures race == Majority(answers, Max(1, confidenceRuns))
    ensures Decided(answers, runs, Max(1, confidenceRuns), race)
  {
    if confidenceRuns <= 1 {
      var only := answers(0);
      assert CountTrue(answers, 1) == CountTrue(answers, 0) + (if only then 1 else 0);
      VoteDecided(answers, 1, 1, only);
      return only, 1;
    }
    var raceCount := 0;
    var threshold := confidenceRuns / 2 + 1;
    for i := 0 to confidenceRuns
      invariant raceCount == CountTrue(answers, i)
      invariant raceCount < threshold && i - raceCount < threshold
    {
      if answers(i) {
        raceCount := raceCount + 1;
        if raceCount >= threshold {
          VoteDecided(answers, i + 1, confidenceRuns, true);
          return true, i + 1;
        }
      } else {
        var noRaceCount := i + 1 - raceCount;
        if noRaceCount >= threshold {
          VoteDecided(answers, i + 1, confidenceRuns, false);
          return false, i + 1;
        }
      }
    }
    VoteDecided(answers, confidenceRuns, confidenceRuns, false);
    return raceCount >= threshold, confidenceRuns;
  }

  lemma {:induction false} CountConstant(b: bool, k: nat)
    ensures CountTrue(_ => b, k) == if b then k else 0
  {
    if k > 0 {
      CountConstant(b, k - 1);
    }
  }

  /** A deterministic oracle gives the same answer however often it is asked. */
  method Ask(oracle: Oracle, keys: set<PointKey>, confidenceRuns: int) returns (race: bool)
    ensures race == oracle(keys)
  {
    var runs;
    var answer := oracle(keys);
    race, runs := RunTestWithConfidence(_ => answer, confidenceRuns);
    CountConstant(answer, Max(1, confidenceRuns));
    assert race == answer;
  }

  // ------------------------------------------------------------ candidate configurations

  /** A copy of `base` in which exactly the given points are enabled. */
  method MakeConfigWithPoints(base: DelayConfigMutator, points: seq<DelayPoint>) returns (m: DelayConfigMutator)
    requires base.Valid()
    ensures fresh(m) && m.Valid() && fresh(m.delayPoints)
    ensures m.config == base.config.(on := KeySet(points) * base.config.fixed.data.Keys)
  {
    hide base.Valid;
    m := base.Clone();
    m.SetAllEnabled(false);
    var enableSet := set k | k in KeysOf(points);
    m.EnableMatching(enableSet);
    assert {} + enableSet * base.config.fixed.data.Keys == KeySet(points) * base.config.fixed.data.Keys;
  }

  // ------------------------------------------------------------ linear reduction

  /** Which of the points `rest` the linear strategy keeps, when it has already kept `kept`. */
  ghost function LinearKept(oracle: Oracle, kept: set<PointKey>, rest: seq<PointKey>): seq<PointKey>
    decreases |rest|
  {
    if rest == [] then []
    else if oracle(kept + Elements(rest[1..])) then LinearKept(oracle, kept, rest[1..])
    else [rest[0]] + LinearKept(oracle, kept + {rest[0]}, rest[1..])
  }

  ghost predicate Monotone(oracle: Oracle) {
    forall a: set<PointKey>, b: set<PointKey> :: a <= b && oracle(a) ==> oracle(b)
  }

  ghost predicate OneMinimal(oracle: Oracle, keys: set<PointKey>) {
    forall k :: k in keys ==> !oracle(keys - {k})
  }

  lemma {:induction false} LinearKeptIsSublist(oracle: Oracle, kept: set<PointKey>, rest: seq<PointKey>)
    ensures Sublist(LinearKept(oracle, kept, rest), rest)
    decreases |rest|
  {
    if rest == [] {
      SublistRefl(rest);
    } else if oracle(kept + Elements(rest[1..])) {
      LinearKeptIsSublist(oracle, kept, rest[1..]);
      SliceIsSublist(rest, 1, |rest|);
      assert rest[1..|rest|] == rest[1..];
      SublistTransitive(LinearKept(oracle, kept, rest), rest[1..], rest);
    } else {
      var tail := LinearKept(oracle, kept + {rest[0]}, rest[1..]);
      LinearKeptIsSublist(oracle, kept + {rest[0]}, rest[1..]);
      var f :| Embeds(tail, rest[1..], f);
      assert Embeds([rest[0]] + tail, rest, [0] + seq(|f|, i requires 0 <= i < |f| => f[i] + 1));
    }
  }

  /** The kept points still trigger, and dropping any one of them was seen to fail at the time. */
  lemma {:induction false} LinearTriggers(oracle: Oracle, kept: set<PointKey>, rest: seq<PointKey>)
    requires oracle(kept + Elements(rest))
    requires Distinct(rest) && forall k :: k in rest ==> k !in kept
    ensures var r := LinearKept(oracle, kept, rest);
            && oracle(kept + Elements(r))
            && forall k :: k in r ==>
                 exists s: set<PointKey> :: kept + Elements(r) <= s <= kept + Elements(rest) && k in s && !oracle(s - {k})
    decreases |rest|
  {
    var r := LinearKept(oracle, kept, rest);
    if rest == [] {
    } else if oracle(kept + Elements(rest[1..])) {
      LinearTriggers(oracle, kept, rest[1..]);
      assert Elements(rest[1..]) <= Elements(rest);
    } else {
      var kept' := kept + {rest[0]};
      assert kept + Elements(rest) == kept' + Elements(rest[1..]) by { assert rest == [rest[0]] + rest[1..]; }
      LinearTriggers(oracle, kept', rest[1..]);
      var tail := LinearKept(oracle, kept', rest[1..]);
      assert kept + Elements(r) == kept' + Elements(tail);
      LinearKeptIsSublist(oracle, kept', rest[1..]);
      SublistElements(tail, rest[1..]);
      forall k | k in r
        ensures exists s: set<PointKey> :: kept + Elements(r) <= s <= kept + Elements(rest) && k in s && !oracle(s - {k})
      {
        if k == rest[0] {
          var s := kept + Elements(rest);
          assert s - {k} == kept + Elements(rest[1..]);
          assert kept + Elements(r) <= s && k in s && !oracle(s - {k});
        } else {
          assert k in tail;
        }
      }
    }
  }

  // ------------------------------------------------------------ when the linear result is minimal

  /** Triggering sets, each without one point of the set before it. */
  ghost predicate Chain(oracle: Oracle, chain: seq<set<PointKey>>) {
    && chain != [] && (forall i :: 0 <= i < |chain| ==> oracle(chain[i]))
    && forall i :: 0 < i < |chain| ==> OneLess(chain[i - 1], chain[i])
  }

  ghost predicate OneLess(s: set<PointKey>, t: set<PointKey>) {
    exists x :: x in s && t == s - {x}
  }

  ghost predicate NeededAlong(oracle: Oracle, chain: seq<set<PointKey>>, k: PointKey) {
    exists i :: 0 <= i < |chain| && !oracle(chain[i] - {k})
  }

  ghost function End(chain: seq<set<PointKey>>): set<PointKey>
    requires chain != []
  {
    chain[|chain| - 1]
  }

  /** A chain down to a set whose points were all needed on the way, although one of them no longer is. */
  ghost predicate Revival(oracle: Oracle, chain: seq<set<PointKey>>) {
    && Chain(oracle, chain)
    && (forall k :: k in End(chain) ==> NeededAlong(oracle, chain, k))
    && !OneMinimal(oracle, End(chain))
  }

  ghost predicate NoRevival(oracle: Oracle) {
    forall chain: seq<set<PointKey>> :: !Revival(oracle, chain)
  }

  /** A point that is needed stays needed when another one goes. */
  ghost predicate NeedStays(oracle: Oracle) {
    forall s: set<PointKey>, k: PointKey, x: PointKey ::
      oracle(s) && !oracle(s - {k}) && oracle(s - {x}) ==> !oracle(s - {x} - {k})
  }

  lemma ChainTail(oracle: Oracle, chain: seq<set<PointKey>>)
    requires Chain(oracle, chain) && |chain| > 1
    ensures Chain(oracle, chain[1..]) && OneLess(chain[0], chain[1]) && End(chain[1..]) == End(chain)
  {
    forall i | 0 < i < |chain| - 1 ensures OneLess(chain[1..][i - 1], chain[1..][i]) {
      assert OneLess(chain[i], chain[i + 1]);
    }
  }

  lemma ChainCons(oracle: Oracle, s: set<PointKey>, x: PointKey, chain: seq<set<PointKey>>)
    requires Chain(oracle, chain) && oracle(s) && x in s && chain[0] == s - {x}
    ensures Chain(oracle, [s] + chain) && End([s] + chain) == End(chain)
  {
    var all := [s] + chain;
    forall i | 0 < i < |all| ensures OneLess(all[i - 1], all[i]) {
      if i > 1 {
        assert OneLess(chain[i - 2], chain[i - 1]);
      }
    }
  }

  lemma NeededMore(oracle: Oracle, s: set<PointKey>, chain: seq<set<PointKey>>, k: PointKey)
    requires NeededAlong(oracle, chain, k)
    ensures NeededAlong(oracle, [s] + chain, k)
  {
    var i :| 0 <= i < |chain| && !oracle(chain[i] - {k});
    assert ([s] + chain)[i + 1] == chain[i];
  }

  lemma {:induction false} ChainShrinks(oracle: Oracle, chain: seq<set<PointKey>>)
    requires Chain(oracle, chain)
    ensures End(chain) <= chain[0]
    decreases |chain|
  {
    if |chain| > 1 {
      ChainTail(oracle, chain);
      ChainShrinks(oracle, chain[1..]);
    }
  }

  /** The sets the linear strategy goes through are a chain on which every point it keeps is needed. */
  lemma {:induction false} KeptChain(oracle: Oracle, kept: set<PointKey>, rest: seq<PointKey>) returns (chain: seq<set<PointKey>>)
    requires oracle(kept + Elements(rest))
    requires Distinct(rest) && forall k :: k in rest ==> k !in kept
    ensures Chain(oracle, chain) && chain[0] == kept + Elements(rest)
    ensures End(chain) == kept + Elements(LinearKept(oracle, kept, rest))
    ensures forall k :: k in LinearKept(oracle, kept, rest) ==> NeededAlong(oracle, chain, k)
    decreases |rest|
  {
    if rest == [] {
      chain := [kept + Elements(rest)];
    } else {
      assert rest == [rest[0]] + rest[1..];
      var s := kept + Elements(rest);
      assert s - {rest[0]} == kept + Elements(rest[1..]);
      if oracle(kept + Elements(rest[1..])) {
        var tail := KeptChain(oracle, kept, rest[1..]);
        ChainCons(oracle, s, rest[0], tail);
        chain := [s] + tail;
        forall k | k in LinearKept(oracle, kept, rest[1..]) ensures NeededAlong(oracle, chain, k) {
          NeededMore(oracle, s, tail, k);
        }
      } else {
        assert s == kept + {rest[0]} + Elements(rest[1..]);
        chain := KeptChain(oracle, kept + {rest[0]}, rest[1..]);
        assert !oracle(chain[0] - {rest[0]});
        assert Elements(LinearKept(oracle, kept, rest)) == {rest[0]} + Elements(LinearKept(oracle, kept + {rest[0]}, rest[1..]));
      }
    }
  }

  /** The order `rest` makes the linear strategy go from `start` down to `end`. */
  ghost predicate LeadsTo(oracle: Oracle, kept: set<PointKey>, rest: seq<PointKey>, start: set<PointKey>, end: set<PointKey>) {
    && Distinct(rest) && (forall k :: k in rest ==> k !in kept)
    && kept + Elements(rest) == start && kept + Elements(LinearKept(oracle, kept, rest)) == end
  }

  lemma KeepsFirst(oracle: Oracle, kept: set<PointKey>, y: PointKey, tail: seq<PointKey>, start: set<PointKey>, end: set<PointKey>)
    requires LeadsTo(oracle, kept + {y}, tail, start, end) && y !in kept && !oracle(start - {y})
    ensures LeadsTo(oracle, kept, [y] + tail, start, end)
  {
    var rest := [y] + tail;
    assert rest[1..] == tail && y !in tail;
    assert kept + Elements(tail) == start - {y};
    assert Elements(rest) == {y} + Elements(tail);
    var r := LinearKept(oracle, kept + {y}, tail);
    assert Elements([y] + r) == {y} + Elements(r);
  }

  lemma DropsFirst(oracle: Oracle, kept: set<PointKey>, x: PointKey, tail: seq<PointKey>, start: set<PointKey>, end: set<PointKey>)
    requires LeadsTo(oracle, kept, tail, start - {x}, end) && x in start && oracle(start - {x})
    ensures LeadsTo(oracle, kept, [x] + tail, start, end)
  {
    var rest := [x] + tail;
    assert rest[1..] == tail;
    assert x !in kept + Elements(tail);
    assert Elements(rest) == {x} + Elements(tail);
  }

  /** Every such chain is what the linear strategy goes through, for some order of the points. */
  lemma {:induction false} ChainOrder(oracle: Oracle, chain: seq<set<PointKey>>, kept: set<PointKey>) returns (rest: seq<PointKey>)
    requires Chain(oracle, chain) && kept <= End(chain)
    requires forall k :: k in End(chain) - kept ==> NeededAlong(oracle, chain, k)
    ensures LeadsTo(oracle, kept, rest, chain[0], End(chain))
    decreases |chain|, |End(chain) - kept|
  {
    hide LeadsTo;
    ChainShrinks(oracle, chain);
    if y :| y in End(chain) - kept && !oracle(chain[0] - {y}) {
      assert End(chain) - (kept + {y}) == End(chain) - kept - {y};
      var tail := ChainOrder(oracle, chain, kept + {y});
      KeepsFirst(oracle, kept, y, tail, chain[0], End(chain));
      rest := [y] + tail;
    } else if |chain| == 1 {
      assert forall k :: k in End(chain) - kept ==> !oracle(chain[0] - {k});
      assert kept == chain[0];
      NothingLeft(oracle, kept);
      rest := [];
    } else {
      ChainTail(oracle, chain);
      ChainShrinks(oracle, chain[1..]);
      var x :| x in chain[0] && chain[1] == chain[0] - {x};
      forall k | k in End(chain) - kept ensures NeededAlong(oracle, chain[1..], k) {
        var i :| 0 <= i < |chain| && !oracle(chain[i] - {k});
        assert chain[1..][i - 1] == chain[i];
      }
      var tail := ChainOrder(oracle, chain[1..], kept);
      DropsFirst(oracle, kept, x, tail, chain[0], End(chain));
      rest := [x] + tail;
    }
  }

  lemma NothingLeft(oracle: Oracle, kept: set<PointKey>)
    ensures LeadsTo(oracle, kept, [], kept, kept)
  {
  }

  /** The linear result is minimal for every set of points that triggers, in every order, if and only if the oracle has
      no revival. */
  lemma {:induction false} LinearMinimalExactly(oracle: Oracle)
    ensures NoRevival(oracle) <==>
            forall points: seq<PointKey> :: Distinct(points) && oracle(Elements(points)) ==>
              OneMinimal(oracle, Elements(LinearKept(oracle, {}, points)))
  {
    if NoRevival(oracle) {
      forall points: seq<PointKey> | Distinct(points) && oracle(Elements(points))
        ensures OneMinimal(oracle, Elements(LinearKept(oracle, {}, points)))
      {
        LinearOneMinimal(oracle, points);
      }
    } else {
      var chain :| Revival(oracle, chain);
      var points := ChainOrder(oracle, chain, {});
      assert {} + Elements(points) == Elements(points) == chain[0];
      assert {} + Elements(LinearKept(oracle, {}, points)) == Elements(LinearKept(oracle, {}, points));
      assert Distinct(points) && oracle(Elements(points)) && !OneMinimal(oracle, Elements(LinearKept(oracle, {}, points)));
    }
  }

  lemma {:induction false} LinearOneMinimal(oracle: Oracle, points: seq<PointKey>)
    requires NoRevival(oracle) && Distinct(points) && oracle(Elements(points))
    ensures OneMinimal(oracle, Elements(LinearKept(oracle, {}, points)))
  {
    assert {} + Elements(points) == Elements(points);
    var chain := KeptChain(oracle, {}, points);
    assert End(chain) == Elements(LinearKept(oracle, {}, points));
    assert !Revival(oracle, chain);
  }

  /** A local condition that rules revivals out; monotone oracles meet it. */
  lemma {:induction false} NeedStaysIsEnough(oracle: Oracle)
    requires NeedStays(oracle)
    ensures NoRevival(oracle)
  {
    forall chain: seq<set<PointKey>> | Chain(oracle, chain) && forall k :: k in End(chain) ==> NeededAlong(oracle, chain, k)
      ensures OneMinimal(oracle, End(chain))
    {
      forall k | k in End(chain) ensures !oracle(End(chain) - {k}) {
        var i :| 0 <= i < |chain| && !oracle(chain[i] - {k});
        NeededToTheEnd(oracle, chain, i, k);
      }
    }
  }

  lemma {:induction false} NeededToTheEnd(oracle: Oracle, chain: seq<set<PointKey>>, i: nat, k: PointKey)
    requires NeedStays(oracle) && Chain(oracle, chain) && i < |chain| && !oracle(chain[i] - {k})
    ensures !oracle(End(chain) - {k})
    decreases |chain| - i
  {
    if i + 1 < |chain| {
      assert OneLess(chain[i], chain[i + 1]);
      NeededToTheEnd(oracle, chain, i + 1, k);
    }
  }

  /** The points kept once the first `n` points have had their test. */
  ghost function KeptAfter(oracle: Oracle, points: seq<PointKey>, n: nat): set<PointKey>
    requires n <= |points|
  {
    if n == 0 then {}
    else
      var kept := KeptAfter(oracle, points, n - 1);
      if oracle(kept + Elements(points[n..])) then kept else kept + {points[n - 1]}
  }

  /** The points that are on then: those kept and those still to be tested. */
  ghost function OnAfter(oracle: Oracle, points: seq<PointKey>, n: nat): set<PointKey>
    requires n <= |points|
  {
    KeptAfter(oracle, points, n) + Elements(points[n..])
  }

  lemma {:induction false} KeptStaysNeeded(oracle: Oracle, points: seq<PointKey>, n: nat)
    requires NeedStays(oracle) && Distinct(points) && oracle(Elements(points)) && n <= |points|
    ensures oracle(OnAfter(oracle, points, n)) && KeptAfter(oracle, points, n) <= Elements(points[..n])
    ensures forall k :: k in KeptAfter(oracle, points, n) ==> !oracle(OnAfter(oracle, points, n) - {k})
  {
    if n == 0 {
      assert {} + Elements(points[0..]) == Elements(points);
    } else {
      KeptStaysNeeded(oracle, points, n - 1);
      TestNext(oracle, points, n);
    }
  }

  /** One test takes the tested point away or keeps it. */
  lemma TestNext(oracle: Oracle, points: seq<PointKey>, n: nat)
    requires Distinct(points) && 0 < n <= |points| && KeptAfter(oracle, points, n - 1) <= Elements(points[..n - 1])
    ensures var x, before := points[n - 1], OnAfter(oracle, points, n - 1);
            && KeptAfter(oracle, points, n) <= Elements(points[..n])
            && (if oracle(before - {x}) then
                  KeptAfter(oracle, points, n) == KeptAfter(oracle, points, n - 1) && OnAfter(oracle, points, n) == before - {x}
                else
                  KeptAfter(oracle, points, n) == KeptAfter(oracle, points, n - 1) + {x} && OnAfter(oracle, points, n) == before)
  {
    hide Elements;
    var kept := KeptAfter(oracle, points, n - 1);
    TestedPoint(kept, points, n);
  }

  lemma TestedPoint(kept: set<PointKey>, points: seq<PointKey>, n: nat)
    requires Distinct(points) && 0 < n <= |points| && kept <= Elements(points[..n - 1])
    ensures kept + Elements(points[n - 1..]) - {points[n - 1]} == kept + Elements(points[n..])
    ensures kept + {points[n - 1]} + Elements(points[n..]) == kept + Elements(points[n - 1..])
    ensures kept + {points[n - 1]} <= Elements(points[..n])
  {
    var x := points[n - 1];
    assert points[n - 1..] == [x] + points[n..];
    assert points[..n] == points[..n - 1] + [x];
    assert x !in points[..n - 1] && x !in points[n..];
  }

  lemma {:induction false} Listed(s: set<PointKey>) returns (r: seq<PointKey>)
    ensures Distinct(r) && Elements(r) == s
  {
    if s == {} {
      r := [];
    } else {
      var x :| x in s;
      var rest := Listed(s - {x});
      r := [x] + rest;
      assert x !in rest by { assert x !in Elements(rest); }
      assert Elements(r) == {x} + Elements(rest);
    }
  }

  /** Where a need is lost, testing the needed point and then the other one shows it. */
  lemma {:induction false} LostNeed(oracle: Oracle, s: set<PointKey>, k: PointKey, x: PointKey) returns (points: seq<PointKey>)
    requires oracle(s) && !oracle(s - {k}) && oracle(s - {x}) && oracle(s - {x} - {k})
    ensures Distinct(points) && Elements(points) == s && |points| >= 2
    ensures k in KeptAfter(oracle, points, 2) && oracle(OnAfter(oracle, points, 2) - {k})
  {
    assert k in s by { assert k !in s ==> s - {k} == s; }
    assert x in s by { assert x !in s ==> s - {x} == s; }
    var others := Listed(s - {k, x});
    points := [k, x] + others;
    assert k !in others && x !in others by { assert k !in Elements(others) && x !in Elements(others); }
    assert Elements(points) == {k, x} + Elements(others) == s;
    assert points[2..] == others && points[1..] == [x] + others && points[0..] == points;
    assert {} + Elements(points[0..]) == s && KeptAfter(oracle, points, 0) == {};
    assert points[..0] == [];
    hide Elements;
    TestNext(oracle, points, 1);
    TestNext(oracle, points, 2);
  }

  /** A need stays if and only if, in every run from every list that triggers, each point that is kept is needed by what
      is on after every later test. */
  lemma {:induction false} NeedStaysExactly(oracle: Oracle)
    ensures NeedStays(oracle) <==>
            forall points: seq<PointKey>, n: nat, k: PointKey ::
              Distinct(points) && oracle(Elements(points)) && n <= |points| && k in KeptAfter(oracle, points, n) ==>
                !oracle(OnAfter(oracle, points, n) - {k})
  {
    if NeedStays(oracle) {
      forall points: seq<PointKey>, n: nat, k: PointKey
        | Distinct(points) && oracle(Elements(points)) && n <= |points| && k in KeptAfter(oracle, points, n)
        ensures !oracle(OnAfter(oracle, points, n) - {k})
      {
        KeptStaysNeeded(oracle, points, n);
      }
    } else {
      var s: set<PointKey>, k: PointKey, x: PointKey :|
        oracle(s) && !oracle(s - {k}) && oracle(s - {x}) && oracle(s - {x} - {k});
      var points := LostNeed(oracle, s, k, x);
    }
  }

  lemma MonotoneNeedStays(oracle: Oracle)
    requires Monotone(oracle)
    ensures NeedStays(oracle)
  {
    forall s: set<PointKey>, k: PointKey, x: PointKey | oracle(s) && !oracle(s - {k}) && oracle(s - {x})
      ensures !oracle(s - {x} - {k})
    {
      assert s - {x} - {k} <= s - {k};
    }
  }

  /** One step is enough for a revival when every other point is needed. */
  lemma {:induction false} OneStepRevival(oracle: Oracle, s: set<PointKey>, k: PointKey, x: PointKey)
    requires oracle(s) && k in s && x in s && !oracle(s - {k}) && oracle(s - {x}) && oracle(s - {x} - {k})
    requires forall y :: y in s && y != k && y != x ==> !oracle(s - {y})
    ensures Revival(oracle, [s, s - {x}])
  {
    var chain := [s, s - {x}];
    assert OneLess(chain[0], chain[1]);
    forall y | y in End(chain) ensures NeededAlong(oracle, chain, y) {
      assert !oracle(chain[0] - {y});
    }
  }

  /** A second pass keeps everything if and only if the first result is minimal. */
  lemma {:induction false} SecondPassDecides(oracle: Oracle, keys: seq<PointKey>)
    requires Distinct(keys) && oracle(Elements(keys))
    ensures LinearKept(oracle, {}, keys) == keys <==> OneMinimal(oracle, Elements(keys))
  {
    assert {} + Elements(keys) == Elements(keys);
    AllKept(oracle, {}, keys);
  }

  lemma {:induction false} AllKept(oracle: Oracle, kept: set<PointKey>, rest: seq<PointKey>)
    requires oracle(kept + Elements(rest)) && Distinct(rest) && forall k :: k in rest ==> k !in kept
    ensures LinearKept(oracle, kept, rest) == rest <==> forall k :: k in rest ==> !oracle(kept + Elements(rest) - {k})
    decreases |rest|
  {
    if rest != [] {
      assert rest == [rest[0]] + rest[1..];
      assert kept + Elements(rest) - {rest[0]} == kept + Elements(rest[1..]);
      if oracle(kept + Elements(rest[1..])) {
        LinearKeptIsSublist(oracle, kept, rest[1..]);
        SublistIsNoLonger(LinearKept(oracle, kept, rest[1..]), rest[1..]);
      } else {
        assert kept + {rest[0]} + Elements(rest[1..]) == kept + Elements(rest);
        AllKept(oracle, kept + {rest[0]}, rest[1..]);
        assert LinearKept(oracle, kept, rest)[1..] == LinearKept(oracle, kept + {rest[0]}, rest[1..]);
      }
    }
  }

  /** Not every oracle is like that: this one leaves a point that can still be dropped. */
  lemma LinearMayMissASmallerSet()
    ensures exists oracle: Oracle, points: seq<PointKey> ::
              Distinct(points) && oracle(Elements(points)) && !OneMinimal(oracle, Elements(LinearKept(oracle, {}, points)))
  {
    var a, b := PointKey("k", "0"), PointKey("k", "1");
    var points := [a, b];
    var oracle: Oracle := s => s != {b};
    assert points[1..] == [b];
    assert {} + Elements([b]) == {b};
    assert {} + {a} + Elements([b][1..]) == {a};
    assert LinearKept(oracle, {} + {a}, [b]) == [];
    assert LinearKept(oracle, {}, points) == [a];
    assert Elements([a]) - {a} == {};
    assert Elements(points) == {a, b};
    assert a != b && a in {a, b};
    assert Distinct(points) && oracle(Elements(points)) && !OneMinimal(oracle, Elements(LinearKept(oracle, {}, points)));
  }

  datatype ReduceResult = ReduceResult(totalPoints: nat, essential: seq<DelayPoint>, iterations: nat)

  datatype Outcome = NoEnabledPoints | DoesNotTrigger | Reduced(result: ReduceResult)

  method FindPointInMutator(m: DelayConfigMutator, key: PointKey) returns (r: Option<DelayPoint>)
    requires m.Valid()
    ensures r.Some? ==> r.value in m.delayPoints && r.value.enabled && r.value.key == key
    ensures r.None? <==> key !in m.config.on
  {
    hide m.Valid, KeySet, Distinct, Sublist;
    var enabled := m.EnabledPoints();
    for i := 0 to |enabled|
      invariant forall j :: 0 <= j < i ==> enabled[j].key != key
    {
      if enabled[i].key == key {
        KeyAmong(enabled, key);
        return Some(enabled[i]);
      }
    }
    KeyAmong(enabled, key);
    return None;
  }

  lemma KeyAmong(points: seq<DelayPoint>, key: PointKey)
    ensures key in KeySet(points) <==> exists i :: 0 <= i < |points| && points[i].key == key
  {
    if i :| 0 <= i < |points| && points[i].key == key {
      assert KeysOf(points)[i] == key;
    }
  }

  /** Disables one point of a copy and runs the oracle on the copy; `m` is not touched. */
  method TestPointEssentiality(point: DelayPoint, m: DelayConfigMutator, oracle: Oracle, confidenceRuns: int)
      returns (isEssential: bool)
    requires m.Valid()
    ensures isEssential == !oracle(m.config.on - {point.key})
  {
    var test := m.Clone();
    var found := FindPointInMutator(test, point.key);
    if found.Some? {
      test.SetPointEnabled(found.value, false);
    }
    assert test.config.on == m.config.on - {point.key};
    var race := Ask(oracle, test.config.on, confidenceRuns);
    isEssential := !race;
  }

  /** One round of the linear strategy: the point stays if the race is gone without it. */
  method TestPoint(m: DelayConfigMutator, point: DelayPoint, oracle: Oracle, confidenceRuns: int)
      returns (isEssential: bool)
    requires m.Valid() && point.key in m.config.on
    modifies m`config, m.delayPoints
    ensures m.Valid()
    ensures isEssential == !oracle(old(m.config.on) - {point.key})
    ensures m.config == if isEssential then old(m.config) else old(m.config).(on := old(m.config.on) - {point.key})
  {
    isEssential := TestPointEssentiality(point, m, oracle, confidenceRuns);
    if !isEssential {
      var original := FindPointInMutator(m, point.key);
      m.SetPointEnabled(original.value, false);
    }
  }

  /** The first check of both strategies: there are enabled points and they show the race. */
  method ValidateInitialConfig(m: DelayConfigMutator, oracle: Oracle) returns (points: seq<DelayPoint>, failure: Option<Outcome>)
    requires m.Valid()
    ensures forall p :: p in points ==> p in m.delayPoints
    ensures Sublist(points, m.delayPoints) && Distinct(KeysOf(points)) && KeySet(points) == m.config.on
    ensures m.config.on == {} ==> failure == Some(NoEnabledPoints)
    ensures m.config.on != {} && !oracle(m.config.on) ==> failure == Some(DoesNotTrigger)
    ensures m.config.on != {} && oracle(m.config.on) ==> failure == None && points != []
  {
    points := m.EnabledPoints();
    if |points| == 0 {
      assert KeySet(points) == {};
      return points, Some(NoEnabledPoints);
    }
    assert KeysOf(points)[0] in KeySet(points);
    if !oracle(m.config.on) {
      return points, Some(DoesNotTrigger);
    }
    return points, None;
  }

  method ReduceDelayPoints(m: DelayConfigMutator, oracle: Oracle, confidenceRuns: int) returns (out: Outcome)
    requires m.Valid()
    modifies m`config, m.delayPoints
    ensures m.Valid()
    ensures out.NoEnabledPoints? <==> old(m.config.on) == {}
    ensures out.DoesNotTrigger? <==> old(m.config.on) != {} && !oracle(old(m.config.on))
    ensures !out.Reduced? ==> m.config == old(m.config)
    ensures out.Reduced? ==> LinearGuarantee(oracle, old(m.config), m.config, out.result)
    ensures out.Reduced? ==> forall p :: p in out.result.essential ==> p in m.delayPoints
  {
    hide m.Valid, Distinct, Sublist, LinearGuarantee, LinearKept;
    var pointsToTest, failure := ValidateInitialConfig(m, oracle);
    if failure.Some? {
      return failure.value;
    }
    KeysInOrder(m, pointsToTest);
    ghost var start := m.config;
    var essential, iteration := TestAllPoints(m, pointsToTest, oracle, confidenceRuns);
    out := Reduced(ReduceResult(|pointsToTest|, essential, iteration));
    GuaranteeHolds(oracle, start, m.config, KeysOf(pointsToTest), out.result);
  }

  lemma GuaranteeHolds(oracle: Oracle, start: Config, end: Config, keys: seq<PointKey>, r: ReduceResult)
    requires Distinct(keys) && Elements(keys) == start.on && oracle(start.on) && Sublist(keys, start.fixed.order)
    requires KeysOf(r.essential) == LinearKept(oracle, {}, keys)
    requires end == start.(on := KeySet(r.essential)) && r.iterations == r.totalPoints == |keys|
    ensures LinearGuarantee(oracle, start, end, r)
  {
    hide Distinct, Sublist, LinearKept, NoRevival, OneMinimal;
    LinearResult(oracle, keys);
    SublistTransitive(KeysOf(r.essential), keys, start.fixed.order);
    DistinctCardinality(keys);
  }

  lemma KeysInOrder(m: DelayConfigMutator, points: seq<DelayPoint>)
    requires m.Valid() && Sublist(points, m.delayPoints)
    ensures Sublist(KeysOf(points), m.config.fixed.order)
  {
    var f :| Embeds(points, m.delayPoints, f);
    forall i | 0 <= i < |f| ensures KeysOf(points)[i] == m.config.fixed.order[f[i]] {
      assert DelayConfigMutator.Mirrors(m.delayPoints[f[i]], m.config.fixed.order[f[i]], m.config);
    }
    assert Embeds(KeysOf(points), m.config.fixed.order, f);
  }

  method TestAllPoints(m: DelayConfigMutator, points: seq<DelayPoint>, oracle: Oracle, confidenceRuns: int)
      returns (essential: seq<DelayPoint>, iteration: nat)
    requires m.Valid() && Distinct(KeysOf(points)) && KeySet(points) == m.config.on
    modifies m`config, m.delayPoints
    ensures m.Valid() && iteration == |points|
    ensures forall p :: p in essential ==> p in points
    ensures KeysOf(essential) == LinearKept(oracle, {}, KeysOf(points))
    ensures m.config == old(m.config).(on := KeySet(essential))
  {
    hide m.Valid, LinearProgress, Distinct;
    ghost var keys := KeysOf(points);
    essential, iteration := [], 0;
    LinearStart(oracle, keys);
    for i := 0 to |points|
      invariant m.Valid() && m.config.fixed == old(m.config.fixed)
      invariant iteration == i
      invariant LinearProgress(oracle, keys, i, KeysOf(essential), m.config.on)
      invariant forall p :: p in essential ==> p in points
    {
      iteration := iteration + 1;
      var point := points[i];
      LinearStep(oracle, keys, i, KeysOf(essential), m.config.on);
      var isEssential := TestPoint(m, point, oracle, confidenceRuns);
      if isEssential {
        KeysOfMore(essential, point);
        essential := essential + [point];
      }
    }
    LinearEnd(oracle, keys, KeysOf(essential), m.config.on);
  }

  lemma KeysOfMore(points: seq<DelayPoint>, p: DelayPoint)
    ensures KeysOf(points + [p]) == KeysOf(points) + [p.key]
  {
  }

  /** After `i` points: what is decided, what is still on, and what the final answer will be. */
  ghost predicate LinearProgress(oracle: Oracle, keys: seq<PointKey>, i: nat, kept: seq<PointKey>, on: set<PointKey>)
    requires i <= |keys|
  {
    && on == OnAfter(oracle, keys, i) && Elements(kept) == KeptAfter(oracle, keys, i)
    && Elements(kept) <= Elements(keys[..i])
    && LinearKept(oracle, {}, keys) == kept + LinearKept(oracle, Elements(kept), keys[i..])
  }

  lemma LinearStart(oracle: Oracle, keys: seq<PointKey>)
    ensures LinearProgress(oracle, keys, 0, [], Elements(keys))
  {
    assert keys[0..] == keys && Elements([]) == {};
  }

  lemma LinearStep(oracle: Oracle, keys: seq<PointKey>, i: nat, kept: seq<PointKey>, on: set<PointKey>)
    requires i < |keys| && Distinct(keys) && LinearProgress(oracle, keys, i, kept, on)
    ensures keys[i] in on
    ensures if oracle(on - {keys[i]}) then LinearProgress(oracle, keys, i + 1, kept, on - {keys[i]})
            else LinearProgress(oracle, keys, i + 1, kept + [keys[i]], on)
  {
    hide Elements, KeptAfter, LinearKept, Distinct;
    TestNext(oracle, keys, i + 1);
    TestedPoint(Elements(kept), keys, i + 1);
    KeepNext(oracle, kept, keys, i);
  }

  lemma KeepNext(oracle: Oracle, kept: seq<PointKey>, keys: seq<PointKey>, i: nat)
    requires i < |keys|
    ensures keys[i] in Elements(keys[i..]) && Elements(kept + [keys[i]]) == Elements(kept) + {keys[i]}
    ensures var now, later := LinearKept(oracle, Elements(kept), keys[i..]), keys[i + 1..];
            if oracle(Elements(kept) + Elements(later)) then now == LinearKept(oracle, Elements(kept), later)
            else kept + now == (kept + [keys[i]]) + LinearKept(oracle, Elements(kept) + {keys[i]}, later)
  {
    var k, later := keys[i], keys[i + 1..];
    assert keys[i..] == [k] + later && keys[i..][1..] == later;
    assert Elements(kept + [k]) == Elements(kept) + {k};
    hide Elements;
    var tail := LinearKept(oracle, Elements(kept) + {k}, later);
    assert kept + ([k] + tail) == (kept + [k]) + tail;
  }

  lemma LinearEnd(oracle: Oracle, keys: seq<PointKey>, kept: seq<PointKey>, on: set<PointKey>)
    requires LinearProgress(oracle, keys, |keys|, kept, on)
    ensures kept == LinearKept(oracle, {}, keys) && on == Elements(kept)
  {
    assert keys[|keys|..] == [];
  }

  /** What a finished linear reduction promises: exactly the essential points are on, nothing else
      in the configuration moved, the race is still there, and every point has had its one test. */
  ghost predicate LinearGuarantee(oracle: Oracle, start: Config, end: Config, r: ReduceResult) {
    && Sublist(KeysOf(r.essential), start.fixed.order) && Distinct(KeysOf(r.essential))
    && KeySet(r.essential) <= start.on
    && end == start.(on := KeySet(r.essential))
    && oracle(KeySet(r.essential))
    && (NoRevival(oracle) ==> OneMinimal(oracle, KeySet(r.essential)))
    && r.iterations == r.totalPoints == |start.on|
  }

  /** What the linear strategy promises about the keys it keeps. */
  lemma {:induction false} LinearResult(oracle: Oracle, keys: seq<PointKey>)
    requires Distinct(keys) && oracle(Elements(keys))
    ensures var r := LinearKept(oracle, {}, keys);
            && oracle(Elements(r)) && Sublist(r, keys) && Distinct(r) && Elements(r) <= Elements(keys)
            && (NoRevival(oracle) ==> OneMinimal(oracle, Elements(r)))
  {
    var r := LinearKept(oracle, {}, keys);
    assert oracle(Elements(r)) by {
      assert {} + Elements(keys) == Elements(keys);
      LinearTriggers(oracle, {}, keys);
      assert {} + Elements(r) == Elements(r);
    }
    LinearKeptIsSublist(oracle, {}, keys);
    SublistElements(r, keys);
    if NoRevival(oracle) {
      LinearOneMinimal(oracle, keys);
    }
  }

  lemma {:induction false} DistinctCardinality(s: seq<PointKey>)
    requires Distinct(s)
    ensures |Elements(s)| == |s|
  {
    if s != [] {
      var t := s[..|s| - 1];
      DistinctCardinality(t);
      assert s == t + [s[|s| - 1]];
      assert Elements(s) == Elements(t) + {s[|s| - 1]};
      assert s[|s| - 1] !in t;
    }
  }

  /** If the oracle asks for a fixed set, a one-minimal trigger is exactly that set. */
  lemma {:induction false} FixedCauseIsFound(oracle: Oracle, cause: set<PointKey>, found: set<PointKey>)
    requires forall s: set<PointKey> :: oracle(s) <==> cause <= s
    requires oracle(found)
    requires cause != {}
    requires |found| == 1 || OneMinimal(oracle, found)
    ensures found == cause
  {
    if |found| == 1 {
      var c :| c in cause;
      assert |found - {c}| == 0;
      assert found == {c};
    } else {
      assert forall k :: k in found ==> !(cause <= found - {k});
    }
  }
}
