/** The bisecting strategy, a variant of ddmin (python/cutracer/reduce/reduce.py). */
module Bisect {
  import opened Sequences
  import opened DelayConfig
  import opened Reduce
  import opened BisectSpec

  // ------------------------------------------------------------ chunks

  /** `count` chunks of size `c` cover all points, and none of them is empty. */
  ghost predicate Covers(size: nat, c: nat, count: nat) {
    && c >= 1 && Cut(size, c, count) == size
    && forall k :: 0 <= k < count ==> Cut(size, c, k) < size
  }

  ghost predicate ChunksOf(points: seq<DelayPoint>, c: nat, chunks: seq<seq<DelayPoint>>) {
    && Covers(|points|, c, |chunks|)
    && forall k :: 0 <= k < |chunks| ==> chunks[k] == Chunk(points, c, k)
  }

  method SplitIntoChunks(points: seq<DelayPoint>, c: nat) returns (chunks: seq<seq<DelayPoint>>)
    requires c >= 1
    ensures ChunksOf(points, c, chunks)
  {
    chunks := [];
    var i := 0;
    while i < |points|
      invariant Cut(|points|, c, |chunks|) == Min(i, |points|)
      invariant forall k :: 0 <= k < |chunks| ==> Cut(|points|, c, k) < |points|
      invariant forall k :: 0 <= k < |chunks| ==> chunks[k] == Chunk(points, c, k)
    {
      chunks := chunks + [points[i..Min(i + c, |points|)]];
      i := i + c;
    }
  }

  lemma JoinChunk(front: seq<DelayPoint>, points: seq<DelayPoint>, c: nat, from: nat, j: nat)
    requires from <= Cut(|points|, c, j)
    ensures Cut(|points|, c, j) <= Cut(|points|, c, j + 1)
    ensures (front + points[from..Cut(|points|, c, j)]) + Chunk(points, c, j) == front + points[from..Cut(|points|, c, j + 1)]
  {
  }

  /** The points outside chunk `i`, collected chunk by chunk. */
  method Complement(ghost points: seq<DelayPoint>, ghost c: nat, chunks: seq<seq<DelayPoint>>, i: nat)
      returns (r: seq<DelayPoint>)
    requires ChunksOf(points, c, chunks) && i < |chunks|
    ensures r == Outside(points, c, i)
  {
    hide Cut, Chunk;
    ghost var size := |points|;
    r := [];
    NothingCut(size, c);
    for j := 0 to |chunks|
      invariant j <= i ==> r == [] + points[0..Cut(size, c, j)]
      invariant j > i ==> Cut(size, c, i + 1) <= Cut(size, c, j)
      invariant j > i ==> r == points[..Cut(size, c, i)] + points[Cut(size, c, i + 1)..Cut(size, c, j)]
    {
      if j != i {
        if j < i {
          JoinChunk([], points, c, 0, j);
        } else {
          JoinChunk(points[..Cut(size, c, i)], points, c, Cut(size, c, i + 1), j);
        }
        r := r + chunks[j];
      }
    }
  }

  lemma NothingCut(size: nat, c: nat)
    ensures Cut(size, c, 0) == 0
  {
  }

  /** The chunk size for granularity `n`.  Rounding down makes at least `n` chunks, fewer than `2n`,
      and single points at full granularity. */
  method ChunkSize(size: nat, n: nat) returns (c: nat)
    requires 2 <= n <= size
    ensures c == ChunkLength(size, n) < size && (n == size ==> c == 1)
    ensures forall count: nat :: Covers(size, c, count) ==> n <= count <= Min(size, 2 * n - 1)
  {
    HalfAtMost(size, n);
    c := Max(1, size / n);
    forall count: nat | Covers(size, c, count) ensures n <= count <= Min(size, 2 * n - 1) {
      ChunkCount(size, n, c, count);
    }
  }

  lemma {:induction false} CutAt(size: nat, c: nat, k: nat)
    requires Cut(size, c, k) < size
    ensures Cut(size, c, k) == k * c
  {
    if k > 0 {
      CutAt(size, c, k - 1);
      Distribute(k - 1, c);
    }
  }

  lemma Distribute(k: nat, c: nat)
    ensures (k + 1) * c == k * c + c
  {
  }

  /** Uneven chunking makes at least `n` and fewer than `2n` chunks. */
  lemma ChunkCount(size: nat, n: nat, c: nat, count: nat)
    requires 2 <= n <= size && c == size / n >= 1
    requires Covers(size, c, count)
    ensures n <= count <= Min(size, 2 * n - 1)
  {
    assert count >= 1;
    CutAt(size, c, count - 1);
    DivisionBounds(size, n);
    CountBelowTwice(size, n, c, count);
    CountBelowSize(size, c, count);
    CountAtLeast(size, n, c, count);
  }

  lemma DivisionBounds(size: nat, n: nat)
    requires n >= 1
    ensures n * (size / n) <= size < n * (size / n) + n
  {
  }

  lemma CountBelowTwice(size: nat, n: nat, c: nat, count: nat)
    requires n >= 2 && c >= 1 && count >= 1
    requires (count - 1) * c < size < n * c + n
    ensures count <= 2 * n - 1
  {
    if count >= 2 * n {
      MulMono(2 * n - 1, count - 1, c);
      assert (2 * n - 1) * c == n * c + (n - 1) * c;
      MulMono(1, c, n - 1);
    }
  }

  lemma CountBelowSize(size: nat, c: nat, count: nat)
    requires c >= 1 && count >= 1 && (count - 1) * c < size
    ensures count <= size
  {
    MulMono(1, c, count - 1);
  }

  lemma CountAtLeast(size: nat, n: nat, c: nat, count: nat)
    requires n >= 1 && count >= 1 && n * c <= size <= (count - 1) * c + c && c >= 1
    ensures n <= count
  {
    Distribute(count - 1, c);
    if count < n {
      MulMono(count + 1, n, c);
      Distribute(count, c);
    }
  }

  lemma MulMono(a: nat, b: nat, c: nat)
    requires a <= b
    ensures a * c <= b * c
    ensures c * a <= c * b
  {
  }

  // ------------------------------------------------------------ number of tests

  /** Tests still to be made at this size before it shrinks or is finished. */
  function LevelBound(size: nat, n: nat): int {
    if n >= size then 2 * size else 10 * size - 4 * n
  }

  /** The sum of the level bounds of all sizes up to `size`. */
  function AllLevels(size: nat): nat {
    if size == 0 then 0 else AllLevels(size - 1) + 10 * size
  }

  lemma {:induction false} AllLevelsQuadratic(size: nat)
    ensures AllLevels(size) == 5 * size * size + 5 * size
  {
    if size > 0 {
      AllLevelsQuadratic(size - 1);
      assert 5 * (size - 1) * (size - 1) == 5 * size * size - 10 * size + 5;
    }
  }

  lemma {:induction false} AllLevelsMono(a: nat, b: nat)
    requires a <= b
    ensures AllLevels(a) <= AllLevels(b)
    decreases b
  {
    if a < b {
      AllLevelsMono(a, b - 1);
    }
  }

  /** An upper bound for the number of subset tests of one call. */
  function TestBound(size: nat, n: nat): int {
    if size <= 1 then 0 else AllLevels(size - 1) + LevelBound(size, n)
  }

  /** A smaller call fits into what is left of the bound after one full round of tests. */
  lemma TestBoundShrinks(size: nat, n: nat, smaller: nat, n': nat)
    requires 2 <= n <= size && smaller < size && n' >= 2
    ensures 2 * size + TestBound(smaller, n') <= TestBound(size, n)
  {
    AllLevelsMono(smaller, size - 1);
    assert TestBound(smaller, n') <= AllLevels(smaller);
  }

  // ------------------------------------------------------------ the search

  ghost predicate SingleOrMinimal(oracle: Oracle, keys: seq<PointKey>) {
    |keys| == 1 || forall i :: 0 <= i < |keys| ==> !oracle(Elements(keys[..i] + keys[i + 1..]))
  }

  /** With distinct keys, leaving out one position is leaving out one key. */
  lemma {:induction false} SingleOrMinimalSet(oracle: Oracle, keys: seq<PointKey>)
    requires Distinct(keys) && SingleOrMinimal(oracle, keys)
    ensures |keys| == 1 || OneMinimal(oracle, Elements(keys))
  {
    if |keys| != 1 {
      forall k | k in Elements(keys) ensures !oracle(Elements(keys) - {k}) {
        var i :| 0 <= i < |keys| && keys[i] == k;
        assert keys == keys[..i] + [k] + keys[i + 1..];
        assert Elements(keys) - {k} == Elements(keys[..i] + keys[i + 1..]);
      }
    }
  }

  class Bisection {
    const base: DelayConfigMutator
    const oracle: Oracle
    const confidenceRuns: int
    var iteration: nat

    constructor (base: DelayConfigMutator, oracle: Oracle, confidenceRuns: int)
      ensures this.base == base && this.oracle == oracle && iteration == 0
    {
      this.base, this.oracle, this.confidenceRuns, this.iteration := base, oracle, confidenceRuns, 0;
    }

    ghost predicate Candidates(points: seq<DelayPoint>)
      reads base
    {
      && points != [] && Distinct(KeysOf(points)) && KeySet(points) <= base.config.fixed.data.Keys
    }

    method TestSubset(points: seq<DelayPoint>) returns (race: bool)
      requires base.Valid() && KeySet(points) <= base.config.fixed.data.Keys
      modifies this`iteration
      ensures iteration == old(iteration) + 1
      ensures race == oracle(KeySet(points))
    {
      iteration := iteration + 1;
      var m := MakeConfigWithPoints(base, points);
      assert KeySet(points) * base.config.fixed.data.Keys == KeySet(points);
      race := Ask(oracle, m.config.on, confidenceRuns);
    }

    /** Tests each chunk alone; returns the first one that triggers, or the number of chunks. */
    method FirstChunk(ghost current: seq<DelayPoint>, ghost c: nat, chunks: seq<seq<DelayPoint>>) returns (i: nat)
      requires base.Valid() && Candidates(current) && ChunksOf(current, c, chunks)
      modifies this`iteration
      ensures i <= |chunks| && iteration == old(iteration) + Min(i + 1, |chunks|)
      ensures i < |chunks| ==> oracle(KeySet(chunks[i]))
      ensures i == FirstAlone(oracle, KeysOf(current), c, 0)
    {
      hide base.Valid, Cut, Chunk, Distinct, Sublist;
      i := 0;
      while i < |chunks|
        invariant i <= |chunks| && iteration == old(iteration) + i
        invariant FirstAlone(oracle, KeysOf(current), c, 0) == FirstAlone(oracle, KeysOf(current), c, i)
      {
        ChunkFacts(current, c, i);
        KeysOfChunk(current, c, i);
        var race := TestSubset(chunks[i]);
        if race {
          return;
        }
        i := i + 1;
      }
    }

    /** Tests the points outside each chunk in turn. */
    method FirstComplement(ghost current: seq<DelayPoint>, ghost c: nat, chunks: seq<seq<DelayPoint>>)
        returns (i: nat, complement: seq<DelayPoint>)
      requires base.Valid() && Candidates(current) && ChunksOf(current, c, chunks)
      modifies this`iteration
      ensures i <= |chunks| && iteration == old(iteration) + Min(i + 1, |chunks|)
      ensures i < |chunks| ==> complement == Outside(current, c, i) && oracle(KeySet(complement))
      ensures i == |chunks| ==> forall j :: 0 <= j < |chunks| ==> !oracle(KeySet(Outside(current, c, j)))
      ensures i == FirstOutside(oracle, KeysOf(current), c, 0)
    {
      hide base.Valid, Cut, Outside, Distinct, Sublist;
      i, complement := 0, [];
      while i < |chunks|
        invariant i <= |chunks| && iteration == old(iteration) + i
        invariant forall j :: 0 <= j < i ==> !oracle(KeySet(Outside(current, c, j)))
        invariant FirstOutside(oracle, KeysOf(current), c, 0) == FirstOutside(oracle, KeysOf(current), c, i)
      {
        complement := Complement(current, c, chunks, i);
        OutsideFacts(current, c, i);
        KeysOfOutside(current, c, i);
        var race := TestSubset(complement);
        if race {
          return;
        }
        i := i + 1;
      }
    }

    /** One round at granularity `n`: the first chunk, else the first complement, that triggers. */
    method Round(current: seq<DelayPoint>, n: nat) returns (shrunk: bool, next: seq<DelayPoint>, n': nat)
      requires base.Valid() && Candidates(current) && 2 <= n <= |current|
      modifies this`iteration
      ensures old(iteration) <= iteration <= old(iteration) + 2 * Min(|current|, 2 * n - 1)
      ensures shrunk ==> Candidates(next) && Sublist(next, current) && |next| < |current| && oracle(KeySet(next))
      ensures !shrunk && n == |current| ==> SingleOrMinimal(oracle, KeysOf(current))
      ensures n' >= 2 && RoundIs(oracle, KeysOf(current), n, shrunk, KeysOf(next), n', iteration - old(iteration))
    {
      hide base.Valid, Cut, Chunk, Outside, Distinct, Sublist, FirstAlone, FirstOutside, SingleOrMinimal, KeySet;
      var chunkSize := ChunkSize(|current|, n);
      var chunks := SplitIntoChunks(current, chunkSize);

      var i := FirstChunk(current, chunkSize, chunks);
      if i < |chunks| {
        ChunkFacts(current, chunkSize, i);
        KeysOfChunk(current, chunkSize, i);
        return true, chunks[i], 2;
      }

      var j, complement := FirstComplement(current, chunkSize, chunks);
      if j < |chunks| {
        OutsideFacts(current, chunkSize, j);
        OutsideNonempty(current, chunkSize, j);
        KeysOfOutside(current, chunkSize, j);
        return true, complement, Max(n - 1, 2);
      }

      if n == |current| {
        SinglesAreMinimal(oracle, current);
      }
      return false, current, n;
    }

    method Ddmin(current: seq<DelayPoint>, granularity: nat) returns (r: seq<DelayPoint>)
      requires base.Valid() && Candidates(current) && oracle(KeySet(current)) && granularity >= 2
      modifies this`iteration
      decreases |current|, if granularity < |current| then |current| - granularity else 0
      ensures Candidates(r) && Sublist(r, current)
      ensures oracle(KeySet(r)) && SingleOrMinimal(oracle, KeysOf(r))
      ensures iteration <= old(iteration) + TestBound(|current|, granularity)
      ensures old(iteration) <= iteration && Found(KeysOf(r), iteration - old(iteration)) == Search(oracle, KeysOf(current), granularity)
    {
      hide base.Valid, Distinct, Sublist, SingleOrMinimal, KeySet, RoundIs, TestBound;
      var size := |current|;
      SublistRefl(current);
      if size <= 1 {
        OneIsEnough(oracle, KeysOf(current), granularity);
        return current;
      }
      var n := if granularity > size then size else granularity;
      TestBoundSteps(size, granularity);
      ghost var before := iteration;
      var shrunk, next, n' := Round(current, n);
      SearchByRound(oracle, KeysOf(current), granularity, shrunk, KeysOf(next), n', iteration - before);
      hide Search;
      if shrunk {
        TestBoundShrinks(size, n, |next|, n');
        r := Ddmin(next, n');
        SublistTransitive(r, next, current);
      } else if n < size {
        r := Ddmin(current, Min(2 * n, size));
      } else {
        r := current;
      }
    }

    /** What a finished bisection promises about its result `r` and the configuration it saves. */
    ghost predicate BisectGuarantee(r: ReduceResult, minimal: Config)
      reads base
    {
      var n := |base.config.on|;
      && Sublist(r.essential, base.delayPoints) && Distinct(KeysOf(r.essential))
      && KeySet(r.essential) <= base.config.on
      && minimal == base.config.(on := KeySet(r.essential))
      && oracle(KeySet(r.essential))
      && (|KeySet(r.essential)| == 1 || OneMinimal(oracle, KeySet(r.essential)))
      && r.totalPoints == n && r.iterations <= 5 * n * n + 5 * n
      && exists keys: seq<PointKey> ::
           && Elements(keys) == base.config.on && Sublist(keys, base.config.fixed.order)
           && Found(KeysOf(r.essential), r.iterations) == Search(oracle, keys, 2)
    }

    lemma EnabledInside()
      requires base.Valid()
      ensures base.config.on <= base.config.fixed.data.Keys
    {
    }

    lemma BisectFinish(points: seq<DelayPoint>, found: seq<DelayPoint>, tests: nat)
      requires base.Valid() && KeySet(points) == base.config.on && Distinct(KeysOf(points))
      requires Sublist(points, base.delayPoints) && Sublist(found, points)
      requires oracle(KeySet(found)) && SingleOrMinimal(oracle, KeysOf(found))
      requires tests <= TestBound(|points|, 2) && Found(KeysOf(found), tests) == Search(oracle, KeysOf(points), 2)
      ensures BisectGuarantee(ReduceResult(|points|, found, tests), base.config.(on := KeySet(found) * base.config.fixed.data.Keys))
    {
      hide Search, TestBound, Distinct, Embeds, OneMinimal;
      SublistKeys(found, points);
      QuadraticBound(|points|);
      KeysInOrder(base, points);
      DistinctCardinality(KeysOf(points));
      DistinctCardinality(KeysOf(found));
      SublistTransitive(found, points, base.delayPoints);
      SingleOrMinimalSet(oracle, KeysOf(found));
      assert KeySet(found) * base.config.fixed.data.Keys == KeySet(found);
    }

    /** Reduces the enabled points of the base configuration.  The result triggers, consists of
        enabled points in their order, and is a single point or cannot lose any point; the tests
        are exactly those of Search, at most 5N^2 + 5N. */
    method ReduceBisect() returns (out: Outcome, minimal: Config)
      requires base.Valid()
      modifies this`iteration
      ensures out.NoEnabledPoints? <==> base.config.on == {}
      ensures out.DoesNotTrigger? <==> base.config.on != {} && !oracle(base.config.on)
      ensures out.Reduced? ==> BisectGuarantee(out.result, minimal)
    {
      hide base.Valid, Distinct, Sublist, BisectGuarantee;
      minimal := base.config;
      var points, failure := ValidateInitialConfig(base, oracle);
      if failure.Some? {
        return failure.value, minimal;
      }
      iteration := 0;
      EnabledInside();
      var found := Ddmin(points, 2);
      var m := MakeConfigWithPoints(base, found);
      minimal := m.config;
      BisectFinish(points, found, iteration);
      return Reduced(ReduceResult(|points|, found, iteration)), minimal;
    }
  }

  lemma SublistKeys(a: seq<DelayPoint>, b: seq<DelayPoint>)
    requires Sublist(a, b)
    ensures KeySet(a) <= KeySet(b)
    ensures Distinct(KeysOf(b)) ==> Distinct(KeysOf(a))
  {
    var f :| Embeds(a, b, f);
    assert Embeds(KeysOf(a), KeysOf(b), f);
    SublistElements(KeysOf(a), KeysOf(b));
  }

  lemma QuadraticBound(size: nat)
    ensures TestBound(size, 2) <= 5 * size * size + 5 * size
  {
    AllLevelsQuadratic(size);
  }

  lemma KeysOfChunk(points: seq<DelayPoint>, c: nat, i: nat)
    ensures KeysOf(Chunk(points, c, i)) == Chunk(KeysOf(points), c, i)
  {
  }

  lemma KeysOfOutside(points: seq<DelayPoint>, c: nat, i: nat)
    ensures KeysOf(Outside(points, c, i)) == Outside(KeysOf(points), c, i)
  {
  }

  lemma OneIsEnough(oracle: Oracle, keys: seq<PointKey>, granularity: nat)
    requires |keys| == 1 && granularity >= 2
    ensures Search(oracle, keys, granularity) == Found(keys, 0) && SingleOrMinimal(oracle, keys) && TestBound(1, granularity) == 0
  {
  }

  /** What the bound leaves for the rounds at one size. */
  lemma TestBoundSteps(size: nat, granularity: nat)
    requires size > 1 && granularity >= 2
    ensures var n := Min(granularity, size);
            && TestBound(size, n) == TestBound(size, granularity)
            && (n < size ==> 2 * (2 * n - 1) + TestBound(size, Min(2 * n, size)) <= TestBound(size, granularity))
            && 2 * size <= TestBound(size, granularity)
  {
  }

  lemma ChunkFacts(current: seq<DelayPoint>, c: nat, i: nat)
    requires c >= 1 && Cut(|current|, c, i) < |current|
    ensures var r := Chunk(current, c, i);
            && r != [] && |r| <= c && Sublist(r, current)
            && KeySet(r) <= KeySet(current)
            && (Distinct(KeysOf(current)) ==> Distinct(KeysOf(r)))
  {
    SliceIsSublist(current, Cut(|current|, c, i), Cut(|current|, c, i + 1));
    SublistKeys(Chunk(current, c, i), current);
  }

  lemma OutsideFacts(current: seq<DelayPoint>, c: nat, i: nat)
    requires c >= 1 && Cut(|current|, c, i) < |current|
    ensures var r := Outside(current, c, i);
            && |r| < |current| && Sublist(r, current)
            && KeySet(r) <= KeySet(current)
            && (Distinct(KeysOf(current)) ==> Distinct(KeysOf(r)))
  {
    CutIsSublist(current, Cut(|current|, c, i), Cut(|current|, c, i + 1));
    SublistKeys(Outside(current, c, i), current);
  }

  /** A chunk is smaller than the whole, so something is left outside it. */
  lemma OutsideNonempty(current: seq<DelayPoint>, c: nat, i: nat)
    requires 1 <= c < |current|
    ensures Outside(current, c, i) != []
  {
    var size := |current|;
    assert Cut(size, c, i + 1) <= Cut(size, c, i) + c;
  }

  /** At full granularity the chunks are single points, so every one-point removal has failed. */
  lemma {:induction false} SinglesAreMinimal(oracle: Oracle, current: seq<DelayPoint>)
    requires forall j :: 0 <= j < |current| ==> !oracle(KeySet(Outside(current, 1, j)))
    ensures SingleOrMinimal(oracle, KeysOf(current))
  {
    var keys := KeysOf(current);
    forall i | 0 <= i < |keys| ensures !oracle(Elements(keys[..i] + keys[i + 1..])) {
      SinglesCut(|current|, i);
      SinglesCut(|current|, i + 1);
      assert KeysOf(Outside(current, 1, i)) == keys[..i] + keys[i + 1..];
    }
  }

  /** When the oracle asks for a fixed nonempty set of points, both strategies find exactly it. */
  lemma {:induction false} BothStrategiesAgree(oracle: Oracle, cause: set<PointKey>, bisected: seq<PointKey>,
                                               points: seq<PointKey>)
    requires cause != {} && Distinct(points)
    requires forall s: set<PointKey> :: oracle(s) <==> cause <= s
    requires oracle(Elements(points))
    requires Distinct(bisected) && oracle(Elements(bisected)) && SingleOrMinimal(oracle, bisected)
    ensures Elements(bisected) == cause == Elements(LinearKept(oracle, {}, points))
  {
    SingleOrMinimalSet(oracle, bisected);
    DistinctCardinality(bisected);
    FixedCauseIsFound(oracle, cause, Elements(bisected));
    LinearResult(oracle, points);
    FixedCauseIsFound(oracle, cause, Elements(LinearKept(oracle, {}, points)));
  }
}
