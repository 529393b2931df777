/** How many warps of a launch a plan's selection expects to enter (src/plan_runtime.cpp). */
module PlanCapture {
  import opened Sequences

  const MAX_UINT64: nat := 0xffff_ffff_ffff_ffff
  const WARP: nat := 32
  const MAX_THREADS: nat := 1024

  datatype Triple = Triple(x: nat, y: nat, z: nat)

  /** The lists are empty when everything is selected. */
  datatype Capture = Capture(ctas: seq<Triple>, warps: seq<nat>, lanes: seq<nat>)

  datatype Geometry = Geometry(grid: Triple, block: Triple)

  /** Sorted and without repetition, which is what canonicalisation leaves. */
  ghost predicate CaptureOk(c: Capture) {
    && Distinct(c.ctas)
    && (forall i, j :: 0 <= i < j < |c.warps| ==> c.warps[i] < c.warps[j])
    && (forall i, j :: 0 <= i < j < |c.lanes| ==> c.lanes[i] < c.lanes[j])
    && (forall i :: 0 <= i < |c.lanes| ==> c.lanes[i] < WARP)
  }

  // ------------------------------------------------------------ what is counted

  predicate Inside(c: Triple, grid: Triple) {
    c.x < grid.x && c.y < grid.y && c.z < grid.z
  }

  function Area(m: nat, n: nat): nat {
    m * n
  }

  function Volume(t: Triple): nat {
    t.x * t.y * t.z
  }

  function Threads(g: Geometry): nat {
    Volume(g.block)
  }

  /** The lanes a warp has in a block of `threads` threads. */
  function ActiveLanes(threads: nat, warp: nat): nat
    requires warp * WARP <= threads
  {
    Min(WARP, threads - warp * WARP)
  }

  function Range(n: nat): (r: set<nat>)
    ensures |r| == n && forall k :: k in r <==> 0 <= k < n
  {
    if n == 0 then {} else Range(n - 1) + {n - 1}
  }

  /** Every CTA of a grid. */
  function Box(grid: Triple): set<Triple> {
    set x, y, z | x in Range(grid.x) && y in Range(grid.y) && z in Range(grid.z) :: Triple(x, y, z)
  }

  function Ctas(c: Capture, grid: Triple): set<Triple> {
    if c.ctas == [] then Box(grid) else set t | t in c.ctas && Inside(t, grid)
  }

  ghost predicate LaneSelected(c: Capture, active: nat) {
    if c.lanes == [] then active > 0 else exists lane :: lane in c.lanes && lane < active
  }

  ghost predicate WarpSelected(c: Capture, threads: nat, warp: nat) {
    && warp * WARP < threads
    && (c.warps == [] || warp in c.warps)
    && LaneSelected(c, ActiveLanes(threads, warp))
  }

  ghost function Warps(c: Capture, threads: nat): set<nat> {
    set warp | warp in Range(threads) && WarpSelected(c, threads, warp)
  }

  /** The (CTA, warp) pairs inside the launch and the selection that hold a selected active lane. */
  ghost function EntryPairs(c: Capture, g: Geometry): set<(Triple, nat)> {
    Pairs(Ctas(c, g.grid), Warps(c, Threads(g)))
  }

  ghost function Pairs<A(!new), B(!new)>(a: set<A>, b: set<B>): set<(A, B)> {
    set x, y | x in a && y in b :: (x, y)
  }

  // ------------------------------------------------------------ sizes

  ghost function Triples(s: set<((nat, nat), nat)>): set<Triple> {
    set p | p in s :: Triple(p.0.0, p.0.1, p.1)
  }

  lemma {:induction false} TriplesSize(s: set<((nat, nat), nat)>)
    ensures |Triples(s)| == |s|
  {
    if s == {} {
      assert Triples(s) == {};
    } else {
      var p :| p in s;
      TriplesSize(s - {p});
      assert Triples(s) == Triples(s - {p}) + {Triple(p.0.0, p.0.1, p.1)};
    }
  }

  lemma {:induction false} BoxSize(grid: Triple)
    ensures |Box(grid)| == Volume(grid)
  {
    var plane := Pairs(Range(grid.x), Range(grid.y));
    var all := Pairs(plane, Range(grid.z));
    PairsSize(Range(grid.x), Range(grid.y));
    PairsSize(plane, Range(grid.z));
    TriplesSize(all);
    BoxIsTriples(grid);
    hide Pairs, Triples, Range, Box;
  }

  lemma BoxIsTriples(grid: Triple)
    ensures Box(grid) == Triples(Pairs(Pairs(Range(grid.x), Range(grid.y)), Range(grid.z)))
  {
    forall t | t in Box(grid) ensures t in Triples(Pairs(Pairs(Range(grid.x), Range(grid.y)), Range(grid.z))) {
      assert ((t.x, t.y), t.z) in Pairs(Pairs(Range(grid.x), Range(grid.y)), Range(grid.z));
    }
  }

  lemma AreaGrows(m: nat, n: nat)
    ensures Area(m + 1, n) == Area(m, n) + n && Area(0, n) == 0
  {
  }

  lemma {:induction false} PairsSize<A(!new), B(!new)>(a: set<A>, b: set<B>)
    ensures |Pairs(a, b)| == Area(|a|, |b|)
  {
    hide Area;
    if a == {} {
      AreaGrows(0, |b|);
      assert Pairs(a, b) == {};
    } else {
      var first :| first in a;
      PairsSize(a - {first}, b);
      ColumnSize(first, b);
      PairsGrow(a, first, b);
      assert |a| == |a - {first}| + 1;
      AreaGrows(|a - {first}|, |b|);
    }
  }

  lemma PairsGrow<A(!new), B(!new)>(a: set<A>, first: A, b: set<B>)
    requires first in a
    ensures |Pairs(a, b)| == |Pairs(a - {first}, b)| + |Pairs({first}, b)|
  {
    assert Pairs(a, b) == Pairs(a - {first}, b) + Pairs({first}, b);
    assert Pairs(a - {first}, b) !! Pairs({first}, b);
  }

  lemma {:induction false} ColumnSize<A(!new), B(!new)>(x: A, b: set<B>)
    ensures |Pairs({x}, b)| == |b|
  {
    if b == {} {
      assert Pairs({x}, b) == {};
    } else {
      var first :| first in b;
      ColumnSize(x, b - {first});
      assert Pairs({x}, b) == Pairs({x}, b - {first}) + {(x, first)};
    }
  }

  // ------------------------------------------------------------ the computation

  predicate Fits(a: nat, b: nat) {
    a * b <= MAX_UINT64
  }

  /** Overflow is an error, not a wrap. */
  method CheckedProduct(a: nat, b: nat) returns (r: Option<nat>)
    requires a <= MAX_UINT64 && b <= MAX_UINT64
    ensures r == if Fits(a, b) then Some(a * b) else None
  {
    if b != 0 {
      QuotientTest(a, b);
      if a > MAX_UINT64 / b {
        return None;
      }
    }
    r := Some(a * b);
  }

  lemma QuotientTest(a: nat, b: nat)
    requires b > 0
    ensures a > MAX_UINT64 / b <==> !Fits(a, b)
  {
    var q, m := MAX_UINT64 / b, MAX_UINT64;
    assert b * q <= m < b * (q + 1);
    if a > q {
      assert a * b >= (q + 1) * b;
    } else {
      assert a * b <= q * b;
    }
  }

  method TripleProduct(t: Triple) returns (r: Option<nat>)
    requires t.x <= MAX_UINT64 && t.y <= MAX_UINT64 && t.z <= MAX_UINT64
    ensures r == if TripleFits(t) then Some(Volume(t)) else None
  {
    r := CheckedProduct(t.x, t.y);
    if r.Some? {
      r := CheckedProduct(r.value, t.z);
    }
  }

  predicate TripleFits(t: Triple) {
    Fits(t.x, t.y) && Fits(t.x * t.y, t.z)
  }

  ghost predicate Uint64(t: Triple) {
    t.x <= MAX_UINT64 && t.y <= MAX_UINT64 && t.z <= MAX_UINT64
  }

  method CountCtas(ctas: seq<Triple>, grid: Triple) returns (n: nat)
    requires Distinct(ctas)
    ensures n == |set t | t in ctas && Inside(t, grid)|
  {
    n := 0;
    ghost var seen: set<Triple> := {};
    for i := 0 to |ctas|
      invariant seen == set t | t in ctas[..i] && Inside(t, grid)
      invariant n == |seen|
    {
      assert ctas[..i + 1] == ctas[..i] + [ctas[i]];
      if Inside(ctas[i], grid) {
        assert ctas[i] !in ctas[..i];
        seen := seen + {ctas[i]};
        n := n + 1;
      }
    }
    assert ctas[..|ctas|] == ctas;
  }

  /** The lowest selected lane decides whether any selected lane is active. */
  lemma {:induction false} FrontDecides(c: Capture, active: nat)
    requires CaptureOk(c) && active > 0
    ensures LaneSelected(c, active) <==> c.lanes == [] || c.lanes[0] < active
  {
    if c.lanes != [] {
      forall lane | lane in c.lanes ensures c.lanes[0] <= lane {
      }
      assert c.lanes[0] in c.lanes;
    }
  }

  lemma WarpDecides(c: Capture, threads: nat, warp: nat)
    requires CaptureOk(c) && warp < (threads + 31) / 32
    ensures warp * WARP < threads
    ensures WarpSelected(c, threads, warp) <==>
            (c.warps == [] || warp in c.warps) && (c.lanes == [] || c.lanes[0] < ActiveLanes(threads, warp))
  {
    hide LaneSelected;
    FrontDecides(c, ActiveLanes(threads, warp));
  }

  lemma AllWarps(c: Capture, threads: nat, seen: set<nat>)
    requires forall w :: w in seen <==> 0 <= w < (threads + 31) / 32 && WarpSelected(c, threads, w)
    ensures seen == Warps(c, threads)
  {
    hide LaneSelected;
  }

  method CountWarps(c: Capture, threads: nat) returns (n: nat)
    requires CaptureOk(c)
    ensures n == |Warps(c, threads)|
  {
    hide WarpSelected, Warps, CaptureOk, ActiveLanes;
    n := 0;
    ghost var seen: set<nat> := {};
    var warp := 0;
    while warp < (threads + 31) / 32
      invariant 0 <= warp <= (threads + 31) / 32
      invariant forall w :: w in seen <==> 0 <= w < warp && WarpSelected(c, threads, w)
      invariant n == |seen|
    {
      WarpDecides(c, threads, warp);
      if (c.warps == [] || warp in c.warps) && (c.lanes == [] || c.lanes[0] < ActiveLanes(threads, warp)) {
        seen := seen + {warp};
        n := n + 1;
      }
      warp := warp + 1;
    }
    AllWarps(c, threads, seen);
  }

  /** No geometry the program refuses, and no product out of range. */
  ghost predicate Countable(c: Capture, g: Geometry) {
    && TripleFits(g.block) && Threads(g) <= MAX_THREADS && TripleFits(g.grid)
    && Fits(|Ctas(c, g.grid)|, |Warps(c, Threads(g))|)
  }

  /** None where the program throws; otherwise the number of pairs that are expected. */
  ghost function Expected(c: Capture, g: Geometry): Option<nat> {
    if Countable(c, g) then Some(|EntryPairs(c, g)|) else None
  }

  method ExpectedEntries(c: Capture, g: Geometry) returns (r: Option<nat>)
    requires CaptureOk(c) && Uint64(g.grid) && Uint64(g.block)
    ensures r == Expected(c, g)
  {
    var threads := TripleProduct(g.block);
    hide Ctas, Warps, Pairs, Box;
    if threads.None? || threads.value > MAX_THREADS {
      return None;
    }
    var ctas := TripleProduct(g.grid);
    if ctas.None? {
      return None;
    }
    BoxSize(g.grid);
    CtasOf(c, g.grid);
    if c.ctas != [] {
      var n := CountCtas(c.ctas, g.grid);
      InsideBox(c, g.grid);
      ctas := Some(n);
    }
    var warps := CountWarps(c, threads.value);
    WarpsBound(c, threads.value);
    PairsSize(Ctas(c, g.grid), Warps(c, Threads(g)));
    r := CheckedProduct(ctas.value, warps);
  }

  lemma CtasOf(c: Capture, grid: Triple)
    ensures Ctas(c, grid) == if c.ctas == [] then Box(grid) else set t | t in c.ctas && Inside(t, grid)
  {
  }

  lemma InsideBox(c: Capture, grid: Triple)
    ensures |Ctas(c, grid)| <= |Box(grid)|
  {
    assert Ctas(c, grid) <= Box(grid);
    SubsetSize(Ctas(c, grid), Box(grid));
  }

  lemma WarpsBound(c: Capture, threads: nat)
    ensures |Warps(c, threads)| <= threads
  {
    SubsetSize(Warps(c, threads), Range(threads));
  }

  lemma SubsetSize<T>(a: set<T>, b: set<T>)
    requires a <= b
    ensures |a| <= |b|
  {
    assert b == a + (b - a);
  }
}
