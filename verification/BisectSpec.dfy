/** The bisecting strategy on keys: what it finds, and how many subsets it tests (python/cutracer/reduce/reduce.py). */
module BisectSpec {
  import opened Sequences
  import opened DelayConfig
  import opened Reduce

  // ------------------------------------------------------------ chunks

  /** Where chunk `k` begins when `size` points are cut into chunks of size `c`. */
  function Cut(size: nat, c: nat, k: nat): (at: nat)
    ensures at <= size
  {
    if k == 0 then 0 else Min(Cut(size, c, k - 1) + c, size)
  }

  function Chunk<T>(points: seq<T>, c: nat, k: nat): seq<T> {
    points[Cut(|points|, c, k)..Cut(|points|, c, k + 1)]
  }

  function Outside<T>(points: seq<T>, c: nat, k: nat): seq<T> {
    points[..Cut(|points|, c, k)] + points[Cut(|points|, c, k + 1)..]
  }

  function ChunkLength(size: nat, n: nat): (c: nat)
    requires n >= 1
    ensures c >= 1
  {
    Max(1, size / n)
  }

  lemma HalfAtMost(size: nat, n: nat)
    requires 2 <= n <= size
    ensures 2 * ChunkLength(size, n) <= size && (n == size ==> ChunkLength(size, n) == 1)
  {
    var c := size / n;
    assert n * c <= size;
    assert 2 * c <= n * c;
    if n == size {
      assert c == 1;
    }
  }

  lemma CutGrows(size: nat, c: nat, k: nat)
    requires c >= 1 && Cut(size, c, k) < size
    ensures Cut(size, c, k) < Cut(size, c, k + 1) <= Cut(size, c, k) + c
  {
  }

  lemma CutIsPlace(size: nat, c: nat, k: nat)
    requires c >= 1 && Cut(size, c, k + 1) < size
    ensures Cut(size, c, k + 1) == Cut(size, c, k) + c
  {
  }

  // ------------------------------------------------------------ the search

  predicate IsChunk(size: nat, c: nat, i: nat) {
    Cut(size, c, i) < size
  }

  /** The first chunk from `i` on that triggers alone; the number of chunks if there is none. */
  ghost function FirstAlone(oracle: Oracle, keys: seq<PointKey>, c: nat, i: nat): nat
    requires c >= 1
    decreases |keys| - Cut(|keys|, c, i)
  {
    if !IsChunk(|keys|, c, i) || oracle(Elements(Chunk(keys, c, i))) then i
    else
      CutGrows(|keys|, c, i);
      FirstAlone(oracle, keys, c, i + 1)
  }

  lemma {:induction false} FirstAloneIs(oracle: Oracle, keys: seq<PointKey>, c: nat, i: nat)
    requires c >= 1
    ensures var r := FirstAlone(oracle, keys, c, i);
            && i <= r && (IsChunk(|keys|, c, r) ==> oracle(Elements(Chunk(keys, c, r))))
            && forall j :: i <= j < r ==> IsChunk(|keys|, c, j) && !oracle(Elements(Chunk(keys, c, j)))
    decreases |keys| - Cut(|keys|, c, i)
  {
    hide Elements, Chunk, Cut;
    if IsChunk(|keys|, c, i) && !oracle(Elements(Chunk(keys, c, i))) {
      CutGrows(|keys|, c, i);
      FirstAloneIs(oracle, keys, c, i + 1);
    }
  }

  /** The first chunk from `i` on that is not needed; the number of chunks if there is none. */
  ghost function FirstOutside(oracle: Oracle, keys: seq<PointKey>, c: nat, i: nat): nat
    requires c >= 1
    decreases |keys| - Cut(|keys|, c, i)
  {
    if !IsChunk(|keys|, c, i) || oracle(Elements(Outside(keys, c, i))) then i
    else
      CutGrows(|keys|, c, i);
      FirstOutside(oracle, keys, c, i + 1)
  }

  lemma {:induction false} FirstOutsideIs(oracle: Oracle, keys: seq<PointKey>, c: nat, i: nat)
    requires c >= 1
    ensures var r := FirstOutside(oracle, keys, c, i);
            && i <= r && (IsChunk(|keys|, c, r) ==> oracle(Elements(Outside(keys, c, r))))
            && forall j :: i <= j < r ==> IsChunk(|keys|, c, j) && !oracle(Elements(Outside(keys, c, j)))
    decreases |keys| - Cut(|keys|, c, i)
  {
    hide Elements, Outside, Cut;
    if IsChunk(|keys|, c, i) && !oracle(Elements(Outside(keys, c, i))) {
      CutGrows(|keys|, c, i);
      FirstOutsideIs(oracle, keys, c, i + 1);
    }
  }

  lemma Shorter<T>(points: seq<T>, c: nat, i: nat)
    requires c >= 1 && 2 * c <= |points| && IsChunk(|points|, c, i)
    ensures 0 < |Chunk(points, c, i)| < |points| && |Outside(points, c, i)| < |points|
  {
    CutGrows(|points|, c, i);
  }

  /** What was found, after how many tests. */
  datatype Found = Found(keys: seq<PointKey>, tests: nat)

  function After(f: Found, tests: nat): Found {
    f.(tests := f.tests + tests)
  }

  ghost function Search(oracle: Oracle, keys: seq<PointKey>, granularity: nat): Found
    requires granularity >= 2
    decreases |keys|, if granularity < |keys| then |keys| - granularity else 0
  {
    var size := |keys|;
    if size <= 1 then Found(keys, 0)
    else
      var n := Min(granularity, size);
      HalfAtMost(size, n);
      var c := ChunkLength(size, n);
      var i := FirstAlone(oracle, keys, c, 0);
      if IsChunk(size, c, i) then
        Shorter(keys, c, i);
        After(Search(oracle, Chunk(keys, c, i), 2), i + 1)
      else
        var j := FirstOutside(oracle, keys, c, 0);
        if IsChunk(size, c, j) then
          Shorter(keys, c, j);
          After(Search(oracle, Outside(keys, c, j), Max(n - 1, 2)), i + j + 1)
        else if n < size then After(Search(oracle, keys, Min(2 * n, size)), i + j)
        else Found(keys, i + j)
  }

  /** One round on `keys` at granularity `n`: what goes on with which granularity, after how many tests. */
  ghost predicate RoundIs(oracle: Oracle, keys: seq<PointKey>, n: nat, shrunk: bool, next: seq<PointKey>, n': nat, tests: int)
    requires 2 <= n <= |keys|
  {
    var c := ChunkLength(|keys|, n);
    var i, j := FirstAlone(oracle, keys, c, 0), FirstOutside(oracle, keys, c, 0);
    if IsChunk(|keys|, c, i) then shrunk && next == Chunk(keys, c, i) && n' == 2 && tests == i + 1
    else if IsChunk(|keys|, c, j) then shrunk && next == Outside(keys, c, j) && n' == Max(n - 1, 2) && tests == i + j + 1
    else !shrunk && tests == i + j
  }

  lemma SearchByRound(oracle: Oracle, keys: seq<PointKey>, granularity: nat, shrunk: bool, next: seq<PointKey>, n': nat, tests: nat)
    requires granularity >= 2 && |keys| > 1 && RoundIs(oracle, keys, Min(granularity, |keys|), shrunk, next, n', tests) && n' >= 2
    ensures var n := Min(granularity, |keys|);
            Search(oracle, keys, granularity) ==
              if shrunk then After(Search(oracle, next, n'), tests)
              else if n < |keys| then After(Search(oracle, keys, Min(2 * n, |keys|)), tests)
              else Found(keys, tests)
  {
    hide FirstAlone, FirstOutside, Chunk, Outside, ChunkLength, IsChunk;
  }

  // ------------------------------------------------------------ a slow family

  function Odds<T>(t: seq<T>): seq<T> {
    if |t| < 2 then [] else [t[1]] + Odds(t[2..])
  }

  /** All points before position 2q, and the odd positions from there on. */
  function Comb<T>(all: seq<T>, q: nat): seq<T>
    requires 2 * q <= |all|
  {
    all[..2 * q] + Odds(all[2 * q..])
  }

  /** The position in `all` of point `i` of the comb. */
  function Place(q: nat, i: nat): nat {
    if i < 2 * q then i else 2 * i - 2 * q + 1
  }

  lemma PlaceFacts(q: nat, i: nat)
    ensures Place(q, i) % 2 == 0 ==> i < 2 * q && Place(q, i) == i
    ensures q >= 1 && Place(q, i) == 1 ==> i == 1
    ensures forall j: nat :: i != j ==> Place(q, i) != Place(q, j)
  {
  }

  lemma LastPlace(q: nat, i: nat, half: nat)
    requires q <= half && Place(q, i) == 2 * half - 1
    ensures i == half + q - 1
  {
  }

  lemma {:induction false} OddsAt<T>(t: seq<T>)
    ensures |Odds(t)| == |t| / 2 && forall i :: 0 <= i < |Odds(t)| ==> Odds(t)[i] == t[2 * i + 1]
  {
    if |t| >= 2 {
      OddsAt(t[2..]);
    }
  }

  lemma CombAt<T>(all: seq<T>, q: nat)
    requires 2 * q <= |all| && |all| % 2 == 0
    ensures |Comb(all, q)| == |all| / 2 + q
    ensures forall i :: 0 <= i < |Comb(all, q)| ==> Place(q, i) < |all| && Comb(all, q)[i] == all[Place(q, i)]
  {
    hide Odds;
    OddsAt(all[2 * q..]);
  }

  lemma CombHas<T>(all: seq<T>, q: nat, p: nat)
    requires Distinct(all) && 2 * q <= |all| && |all| % 2 == 0 && p < |all|
    ensures all[p] in Comb(all, q) <==> p < 2 * q || p % 2 == 1
  {
    hide Comb;
    CombAt(all, q);
    if p < 2 * q {
      assert Comb(all, q)[p] == all[p];
    } else if p % 2 == 1 {
      assert Place(q, q + p / 2) == p && Comb(all, q)[q + p / 2] == all[p];
    } else {
      forall i | 0 <= i < |Comb(all, q)| ensures Comb(all, q)[i] != all[p] {
        PlaceFacts(q, i);
      }
    }
  }

  /** Without its topmost even point the comb is the next one. */
  lemma CombLess<T>(all: seq<T>, q: nat)
    requires 1 <= q && 2 * q <= |all| && |all| % 2 == 0
    ensures Comb(all, q)[..2 * q - 2] + Comb(all, q)[2 * q - 1..] == Comb(all, q - 1)
  {
    assert all[2 * q - 2..][1] == all[2 * q - 1] && all[2 * q - 2..][2..] == all[2 * q..];
  }

  /** The combs are what triggers. */
  ghost predicate CombsTrigger(oracle: Oracle, all: seq<PointKey>) {
    forall s: set<PointKey> :: oracle(s) <==> exists q: nat :: IsComb(all, q, s)
  }

  ghost predicate IsComb(all: seq<PointKey>, q: nat, s: set<PointKey>) {
    2 * q <= |all| && s == Elements(Comb(all, q))
  }

  /** Half of a comb is no comb: it misses the second or the last point. */
  lemma HalfFails(oracle: Oracle, all: seq<PointKey>, q: nat, a: nat, b: nat)
    requires CombsTrigger(oracle, all) && Distinct(all) && |all| % 2 == 0 && |all| >= 4 && 1 <= q && 2 * q <= |all|
    requires a <= b <= |Comb(all, q)| && 2 * (b - a) <= |Comb(all, q)|
    ensures !oracle(Elements(Comb(all, q)[a..b]))
  {
    hide Comb, Distinct, Place;
    var part := Comb(all, q)[a..b];
    if oracle(Elements(part)) {
      var r: nat :| IsComb(all, r, Elements(part));
      CombAt(all, q);
      SecondAndLast(all, r);
      hide Elements, CombsTrigger, IsComb;
      var i := Within(all, q, a, b, 1);
      PlaceFacts(q, i);
      var j := Within(all, q, a, b, |all| - 1);
      LastPlace(q, j, |all| / 2);
    }
  }

  lemma SecondAndLast(all: seq<PointKey>, r: nat)
    requires Distinct(all) && |all| % 2 == 0 && |all| >= 2 && 2 * r <= |all|
    ensures all[1] in Elements(Comb(all, r)) && all[|all| - 1] in Elements(Comb(all, r))
  {
    hide Comb, Distinct;
    CombHas(all, r, 1);
    CombHas(all, r, |all| - 1);
  }

  /** A point of a part of the comb is where its position says. */
  lemma Within(all: seq<PointKey>, q: nat, a: nat, b: nat, p: nat) returns (i: nat)
    requires Distinct(all) && |all| % 2 == 0 && 2 * q <= |all| && p < |all|
    requires a <= b <= |Comb(all, q)| && all[p] in Elements(Comb(all, q)[a..b])
    ensures a <= i < b && Place(q, i) == p
  {
    hide Comb, Place;
    CombAt(all, q);
    var part := Comb(all, q)[a..b];
    var k :| 0 <= k < |part| && part[k] == all[p];
    i := a + k;
  }

  /** Leaving out a part gives a comb only when the part is the topmost even point. */
  lemma OnlyTopEvenGoes(oracle: Oracle, all: seq<PointKey>, q: nat, a: nat, b: nat)
    requires CombsTrigger(oracle, all) && Distinct(all) && |all| % 2 == 0 && 1 <= q && 2 * q <= |all| && a < b <= |Comb(all, q)|
    requires oracle(Elements(Comb(all, q)[..a] + Comb(all, q)[b..]))
    ensures a == 2 * q - 2 && b == 2 * q - 1
  {
    hide Comb, Distinct, Place, Elements;
    var r: nat :| IsComb(all, r, Elements(Comb(all, q)[..a] + Comb(all, q)[b..]));
    hide CombsTrigger;
    GoneIsEven(all, q, a, b, r, a);
    if b > a + 1 {
      GoneIsEven(all, q, a, b, r, a + 1);
    }
    if a + 2 < 2 * q {
      StillThere(all, q, a, b, r);
    }
  }

  lemma GoneIsEven(all: seq<PointKey>, q: nat, a: nat, b: nat, r: nat, i: nat)
    requires Distinct(all) && |all| % 2 == 0 && 2 * q <= |all| && a <= i < b <= |Comb(all, q)|
    requires IsComb(all, r, Elements(Comb(all, q)[..a] + Comb(all, q)[b..]))
    ensures i < 2 * q && i % 2 == 0 && 2 * r <= i
  {
    hide Comb, Distinct, Place;
    LeftOut(all, q, a, b, i);
    CombHas(all, r, Place(q, i));
    PlaceFacts(q, i);
  }

  lemma StillThere(all: seq<PointKey>, q: nat, a: nat, b: nat, r: nat)
    requires Distinct(all) && |all| % 2 == 0 && 2 * q <= |all| && a % 2 == 0 && b == a + 1 && a + 2 < 2 * q
    requires a < |Comb(all, q)| && IsComb(all, r, Elements(Comb(all, q)[..a] + Comb(all, q)[b..]))
    ensures a + 2 < 2 * r
  {
    hide Comb, Distinct;
    CombAt(all, q);
    var rest := Comb(all, q)[..a] + Comb(all, q)[b..];
    assert rest[a + 1] == Comb(all, q)[a + 2] == all[a + 2];
    assert all[a + 2] in Elements(rest);
    CombHas(all, r, a + 2);
  }

  lemma LeftOut(all: seq<PointKey>, q: nat, a: nat, b: nat, i: nat)
    requires Distinct(all) && |all| % 2 == 0 && 2 * q <= |all| && a <= i < b <= |Comb(all, q)|
    ensures Place(q, i) < |all| && all[Place(q, i)] !in Elements(Comb(all, q)[..a] + Comb(all, q)[b..])
  {
    hide Comb, Place;
    CombAt(all, q);
    PlaceFacts(q, i);
    var rest := Comb(all, q)[..a] + Comb(all, q)[b..];
    forall k | 0 <= k < |rest| ensures rest[k] != all[Place(q, i)] {
      var j := if k < a then k else k - a + b;
      assert rest[k] == Comb(all, q)[j];
    }
  }

  lemma {:induction false} SinglesCut(size: nat, k: nat)
    ensures Cut(size, 1, k) == Min(k, size)
  {
    if k > 0 {
      SinglesCut(size, k - 1);
    }
  }

  /** Tests it takes to drop the even points one by one. */
  function CombTests(half: nat, q: nat): int {
    if q == 0 then 0 else CombTests(half, q - 1) + half + 3 * q - 1
  }

  /** No part triggers alone. */
  lemma NoneAlone(oracle: Oracle, all: seq<PointKey>, q: nat, n: nat)
    requires CombsTrigger(oracle, all) && Distinct(all) && |all| % 2 == 0 && |all| >= 4 && 1 <= q && 2 * q <= |all|
    requires 2 <= n <= |Comb(all, q)|
    ensures var c := ChunkLength(|Comb(all, q)|, n); !IsChunk(|Comb(all, q)|, c, FirstAlone(oracle, Comb(all, q), c, 0))
  {
    hide Comb, Distinct, CombsTrigger, FirstAlone, Cut, ChunkLength, Elements;
    var keys := Comb(all, q);
    HalfAtMost(|keys|, n);
    var c := ChunkLength(|keys|, n);
    var i := FirstAlone(oracle, keys, c, 0);
    FirstAloneIs(oracle, keys, c, 0);
    if IsChunk(|keys|, c, i) {
      CutGrows(|keys|, c, i);
      HalfFails(oracle, all, q, Cut(|keys|, c, i), Cut(|keys|, c, i + 1));
    }
  }

  /** Only single points can go, and each takes a test of every chunk and of every point before it. */
  lemma OneGoes(oracle: Oracle, all: seq<PointKey>, q: nat, c: nat)
    requires CombsTrigger(oracle, all) && Distinct(all) && |all| % 2 == 0 && |all| >= 4 && 1 <= q && 2 * q <= |all| && c >= 1
    requires var keys := Comb(all, q);
             IsChunk(|keys|, c, FirstOutside(oracle, keys, c, 0)) && !IsChunk(|keys|, c, FirstAlone(oracle, keys, c, 0))
    ensures var keys := Comb(all, q);
            var i, j := FirstAlone(oracle, keys, c, 0), FirstOutside(oracle, keys, c, 0);
            Outside(keys, c, j) == Comb(all, q - 1) && i + j + 1 >= |all| / 2 + 3 * q - 1
  {
    hide Comb, Distinct, CombsTrigger, FirstAlone, FirstOutside, Cut, Elements;
    var keys := Comb(all, q);
    var size := |keys|;
    CombAt(all, q);
    CombLess(all, q);
    var i, j := FirstAlone(oracle, keys, c, 0), FirstOutside(oracle, keys, c, 0);
    FirstOutsideIs(oracle, keys, c, 0);
    CutGrows(size, c, j);
    OnlyTopEvenGoes(oracle, all, q, Cut(size, c, j), Cut(size, c, j + 1));
    CutIsPlace(size, c, j);
    SinglesCut(size, i);
    SinglesCut(size, j);
  }

  /** With single points the topmost even one goes. */
  lemma OneDoesGo(oracle: Oracle, all: seq<PointKey>, q: nat)
    requires CombsTrigger(oracle, all) && Distinct(all) && |all| % 2 == 0 && 1 <= q && 2 * q <= |all|
    ensures IsChunk(|Comb(all, q)|, 1, FirstOutside(oracle, Comb(all, q), 1, 0))
  {
    hide Comb, Distinct, FirstOutside, Cut, Elements;
    var keys := Comb(all, q);
    var size := |keys|;
    CombAt(all, q);
    CombLess(all, q);
    var j := FirstOutside(oracle, keys, 1, 0);
    FirstOutsideIs(oracle, keys, 1, 0);
    SinglesCut(size, j);
    SinglesCut(size, 2 * q - 2);
    SinglesCut(size, 2 * q - 1);
    assert Outside(keys, 1, 2 * q - 2) == Comb(all, q - 1);
    assert IsComb(all, q - 1, Elements(Comb(all, q - 1)));
  }

  lemma {:induction false} CombIsSlow(oracle: Oracle, all: seq<PointKey>, q: nat, granularity: nat)
    requires CombsTrigger(oracle, all) && Distinct(all) && |all| % 2 == 0 && |all| >= 4 && 2 * q <= |all| && granularity >= 2
    ensures Search(oracle, Comb(all, q), granularity).tests >= CombTests(|all| / 2, q)
    decreases q, if granularity < |Comb(all, q)| then |Comb(all, q)| - granularity else 0
  {
    hide Comb, Distinct, CombsTrigger, FirstAlone, FirstOutside, Chunk, Outside, Elements, ChunkLength, IsChunk;
    if q > 0 {
      CombAt(all, q);
      var keys := Comb(all, q);
      var n := Min(granularity, |keys|);
      HalfAtMost(|keys|, n);
      var c := ChunkLength(|keys|, n);
      NoneAlone(oracle, all, q, n);
      if IsChunk(|keys|, c, FirstOutside(oracle, keys, c, 0)) {
        OneGoes(oracle, all, q, c);
        CombIsSlow(oracle, all, q - 1, Max(n - 1, 2));
      } else if n < |keys| {
        CombIsSlow(oracle, all, q, Min(2 * n, |keys|));
      } else {
        OneDoesGo(oracle, all, q);
      }
    }
  }

  lemma {:induction false} CombTestsSum(half: nat, q: nat)
    ensures 2 * CombTests(half, q) == 2 * (half * q) + 3 * (q * q) + q
  {
    if q > 0 {
      CombTestsSum(half, q - 1);
      Product(half, q);
      Product(q, q);
      Product(q - 1, q);
    }
  }

  lemma Product(a: nat, b: nat)
    requires b >= 1
    ensures a * b == a * (b - 1) + a && a * b == b * a
  {
  }

  /** For every even number N of points from 4 on there is an oracle that makes the search test at least 5/8 N^2 subsets. */
  lemma {:induction false} QuadraticWorstCase(all: seq<PointKey>)
    requires Distinct(all) && |all| % 2 == 0 && |all| >= 4
    ensures exists oracle: Oracle :: oracle(Elements(all)) && 8 * Search(oracle, all, 2).tests >= 5 * (|all| * |all|)
  {
    hide Comb, Distinct, Search, Elements, CombTests;
    var half := |all| / 2;
    var oracle: Oracle := s => exists q: nat :: IsComb(all, q, s);
    WholeComb(all);
    CombIsSlow(oracle, all, half, 2);
    CombTestsSum(half, half);
    Square(half);
    assert IsComb(all, half, Elements(all));
    assert oracle(Elements(all)) && 8 * Search(oracle, all, 2).tests >= 5 * (|all| * |all|);
  }

  lemma WholeComb(all: seq<PointKey>)
    requires |all| % 2 == 0
    ensures Comb(all, |all| / 2) == all
  {
  }

  lemma Square(half: nat)
    ensures (2 * half) * (2 * half) == 4 * (half * half)
  {
  }
}
