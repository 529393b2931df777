/** The loops of normalize (src/instrumentation_plan.cpp). */
module PlanNormalize {
  import opened Sequences
  import PlanMerge
  import opened PlanOrder
  import opened PlanRead
  import opened PlanCanonical

  type Bytes = (string, string, nat, string)

  /** The map holds the bytes of every instruction seen, and they agree. */
  ghost predicate Agrees(m: map<(string, string, nat), string>, seen: set<Bytes>) {
    && (forall x :: x in seen ==> (x.0, x.1, x.2) in m && m[(x.0, x.1, x.2)] == x.3)
    && (forall k :: k in m ==> (k.0, k.1, k.2, m[k]) in seen)
  }

  ghost predicate Conflict(seen: set<Bytes>) {
    exists x, y :: x in seen && y in seen && x.0 == y.0 && x.1 == y.1 && x.2 == y.2 && x.3 != y.3
  }

  lemma AgreesNoConflict(m: map<(string, string, nat), string>, seen: set<Bytes>)
    requires Agrees(m, seen)
    ensures !Conflict(seen)
  {
  }

  ghost function PointBytes(sha: string, points: seq<Point>): set<Bytes> {
    set p | p in points :: (sha, p.fn, p.pc, p.bytes)
  }

  ghost function ConfigBytes(sha: string, configs: seq<Config>): set<Bytes> {
    set c, p | c in configs && p in c.points :: (sha, p.fn, p.pc, p.bytes)
  }

  lemma NoBytes(sha: string, points: seq<Point>)
    ensures PointBytes(sha, points[..0]) == {}
  {
  }

  lemma MoreBytesAt(sha: string, points: seq<Point>, i: nat)
    requires i < |points|
    ensures var p := points[i];
            PointBytes(sha, points[..i + 1]) == PointBytes(sha, points[..i]) + {(sha, p.fn, p.pc, p.bytes)}
    ensures PointBytes(sha, points[..i + 1]) <= PointBytes(sha, points)
  {
    assert points[..i + 1] == points[..i] + [points[i]];
  }

  /** The bytes of one point. */
  method NoteByte(m: map<(string, string, nat), string>, sha: string, p: Point, ghost seen: set<Bytes>)
    returns (ok: bool, n: map<(string, string, nat), string>)
    requires Agrees(m, seen)
    ensures ok ==> Agrees(n, seen + {(sha, p.fn, p.pc, p.bytes)})
    ensures !ok ==> Conflict(seen + {(sha, p.fn, p.pc, p.bytes)})
  {
    var k := (sha, p.fn, p.pc);
    if k !in m {
      return true, m[k := p.bytes];
    }
    if m[k] != p.bytes {
      assert (k.0, k.1, k.2, m[k]) in seen;
      return false, m;
    }
    return true, m;
  }

  /** The bytes of the points of one configuration; false where two instructions disagree. */
  method NoteBytes(m: map<(string, string, nat), string>, sha: string, points: seq<Point>, ghost seen: set<Bytes>)
    returns (ok: bool, n: map<(string, string, nat), string>)
    requires Agrees(m, seen)
    ensures ok ==> Agrees(n, seen + PointBytes(sha, points))
    ensures !ok ==> Conflict(seen + PointBytes(sha, points))
  {
    hide Agrees, Conflict, PointBytes;
    n := m;
    NoBytes(sha, points);
    assert seen + {} == seen;
    for i := 0 to |points|
      invariant Agrees(n, seen + PointBytes(sha, points[..i]))
    {
      var p := points[i];
      ghost var before := seen + PointBytes(sha, points[..i]);
      MoreBytesAt(sha, points, i);
      assert before + {(sha, p.fn, p.pc, p.bytes)} == seen + PointBytes(sha, points[..i + 1]);
      ok, n := NoteByte(n, sha, p, before);
      if !ok {
        ConflictStays(before + {(sha, p.fn, p.pc, p.bytes)}, seen + PointBytes(sha, points));
        return;
      }
    }
    assert points[..|points|] == points;
    ok := true;
  }

  lemma NoConfigBytes(sha: string, configs: seq<Config>)
    ensures ConfigBytes(sha, configs[..0]) == {}
  {
  }

  lemma MoreConfigBytes(sha: string, configs: seq<Config>, i: nat)
    requires i < |configs|
    ensures ConfigBytes(sha, configs[..i + 1]) == ConfigBytes(sha, configs[..i]) + PointBytes(sha, configs[i].points)
    ensures ConfigBytes(sha, configs[..i + 1]) <= ConfigBytes(sha, configs)
  {
    assert configs[..i + 1] == configs[..i] + [configs[i]];
  }

  method NoteConfigs(m: map<(string, string, nat), string>, sha: string, configs: seq<Config>, ghost seen: set<Bytes>)
    returns (ok: bool, n: map<(string, string, nat), string>)
    requires Agrees(m, seen)
    ensures ok ==> Agrees(n, seen + ConfigBytes(sha, configs))
    ensures !ok ==> Conflict(seen + ConfigBytes(sha, configs))
  {
    n := m;
    hide Agrees, Conflict, PointBytes, ConfigBytes;
    NoConfigBytes(sha, configs);
    assert seen + {} == seen;
    for i := 0 to |configs|
      invariant Agrees(n, seen + ConfigBytes(sha, configs[..i]))
    {
      var c := configs[i];
      MoreConfigBytes(sha, configs, i);
      ghost var before := seen + ConfigBytes(sha, configs[..i]);
      assert before + PointBytes(sha, c.points) == seen + ConfigBytes(sha, configs[..i + 1]);
      ok, n := NoteBytes(n, sha, c.points, before);
      if !ok {
        assert before + PointBytes(sha, c.points) <= seen + ConfigBytes(sha, configs);
        ConflictStays(before + PointBytes(sha, c.points), seen + ConfigBytes(sha, configs));
        return;
      }
    }
    assert configs[..|configs|] == configs;
    ok := true;
  }

  lemma ConflictStays(a: set<Bytes>, b: set<Bytes>)
    requires Conflict(a) && a <= b
    ensures Conflict(b)
  {
  }

  // ------------------------------------------------------------ groups

  type Name = (string, string, string)

  function NameOf(k: Kernel): Name { (k.sha, k.entry, k.target) }

  function LoadedName(k: Loaded): Name { (k.sha, k.entry, k.target) }

  ghost function Loads(kernels: seq<Kernel>): set<Loaded> {
    set k | k in kernels :: Load(k)
  }

  ghost function ConfigsNamed(kernels: seq<Kernel>, n: Name): set<Config> {
    set k, c | k in kernels && NameOf(k) == n && c in k.configs :: c
  }

  ghost predicate GroupsOk(m: map<Name, seq<Config>>, kernels: seq<Kernel>) {
    && m.Keys == (set k | k in kernels :: NameOf(k))
    && forall n :: n in m ==> Elements(m[n]) == ConfigsNamed(kernels, n)
  }

  lemma NamedAt(kernels: seq<Kernel>, l: Loaded)
    ensures ConfigsAt(Loads(kernels), l) == ConfigsNamed(kernels, LoadedName(l))
  {
    forall c | c in ConfigsNamed(kernels, LoadedName(l)) ensures c in ConfigsAt(Loads(kernels), l) {
      var k :| k in kernels && NameOf(k) == LoadedName(l) && c in k.configs;
      assert Load(k) in Loads(kernels) && c in Load(k).configs;
    }
    forall c | c in ConfigsAt(Loads(kernels), l) ensures c in ConfigsNamed(kernels, LoadedName(l)) {
      var j :| j in Loads(kernels) && SameBinary(j, l) && c in j.configs;
      var k :| k in kernels && j == Load(k);
      assert c in k.configs;
    }
  }

  /** The first pass: every configuration goes to its kernel, and the bytes of every instruction are compared. */
  method GroupAll(kernels: seq<Kernel>) returns (ok: bool, m: map<Name, seq<Config>>)
    ensures ok <==> !BytesConflict(Loads(kernels))
    ensures ok ==> GroupsOk(m, kernels)
  {
    m := map[];
    hide Agrees;
    var bytes: map<(string, string, nat), string> := map[];
    ghost var seen: set<Bytes> := {};
    assert Agrees(bytes, seen) by { NothingAgrees(); }
    for i := 0 to |kernels|
      invariant seen == BytesIn(Loads(kernels[..i])) && Agrees(bytes, seen)
      invariant GroupsOk(m, kernels[..i])
    {
      var k := kernels[i];
      assert kernels[..i + 1] == kernels[..i] + [k];
      MoreBytes(kernels[..i], k);
      ok, bytes := NoteConfigs(bytes, k.sha, k.configs, seen);
      seen := seen + ConfigBytes(k.sha, k.configs);
      if !ok {
        SomeBytes(kernels, i + 1);
        ConflictStays(seen, BytesIn(Loads(kernels)));
        return;
      }
      MoreGroups(m, kernels[..i], k);
      m := m[NameOf(k) := (if NameOf(k) in m then m[NameOf(k)] else []) + k.configs];
    }
    assert kernels[..|kernels|] == kernels;
    AgreesNoConflict(bytes, seen);
    ok := true;
  }

  lemma NothingAgrees()
    ensures Agrees(map[], {})
  {
  }

  lemma MoreBytes(kernels: seq<Kernel>, k: Kernel)
    ensures BytesIn(Loads(kernels + [k])) == BytesIn(Loads(kernels)) + ConfigBytes(k.sha, k.configs)
  {
    assert Loads(kernels + [k]) == Loads(kernels) + {Load(k)};
    assert forall c :: c in k.configs <==> c in Load(k).configs;
  }

  lemma SomeBytes(kernels: seq<Kernel>, i: nat)
    requires i <= |kernels|
    ensures BytesIn(Loads(kernels[..i])) <= BytesIn(Loads(kernels))
  {
    assert Loads(kernels[..i]) <= Loads(kernels);
  }

  lemma MoreGroups(m: map<Name, seq<Config>>, kernels: seq<Kernel>, k: Kernel)
    requires GroupsOk(m, kernels)
    ensures GroupsOk(m[NameOf(k) := (if NameOf(k) in m then m[NameOf(k)] else []) + k.configs], kernels + [k])
  {
    var name, prior := NameOf(k), if NameOf(k) in m then m[NameOf(k)] else [];
    assert Elements(prior + k.configs) == Elements(prior) + Elements(k.configs);
    assert NameOf(k) !in m ==> ConfigsNamed(kernels, name) == {};
    forall n ensures ConfigsNamed(kernels + [k], n) == ConfigsNamed(kernels, n) + (if n == name then Elements(k.configs) else {}) {
    }
  }

  // ------------------------------------------------------------ one kernel for each group

  ghost predicate IdsClash(configs: set<Config>) {
    exists c, d :: c in configs && d in configs && c.id == d.id && c != d
  }

  /** The configurations of one kernel by id; None where one id names two. */
  method SettleConfigs(configs: seq<Config>) returns (r: Option<seq<Config>>)
    ensures r.None? <==> IdsClash(Elements(configs))
    ensures r.Some? ==> Injective(Elements(configs), IdKey) && r.value == InOrder(Elements(configs), IdKey)
  {
    var byId: map<string, Config> := map[];
    for i := 0 to |configs|
      invariant forall j :: 0 <= j < i ==> configs[j].id in byId && byId[configs[j].id] == configs[j]
      invariant forall id :: id in byId ==> byId[id].id == id && byId[id] in Elements(configs[..i])
    {
      var c := configs[i];
      assert configs[..i + 1] == configs[..i] + [c];
      if c.id !in byId {
        byId := byId[c.id := c];
      } else if byId[c.id] != c {
        assert byId[c.id] in Elements(configs) && c in Elements(configs);
        return None;
      }
    }
    assert configs[..|configs|] == configs;
    NoClash(Elements(configs));
    var sorted := Arrange(Elements(configs), IdKey);
    r := Some(sorted);
  }

  lemma NoClash(configs: set<Config>)
    requires !IdsClash(configs)
    ensures Injective(configs, IdKey)
  {
    forall c, d | c in configs && d in configs && IdKey(c) == IdKey(d) ensures c == d {
      PlanMerge.CharsDistinct(c.id, d.id);
    }
  }

  lemma ClashFails(kernels: seq<Kernel>, m: map<Name, seq<Config>>, n: Name)
    requires GroupsOk(m, kernels) && n in m && IdsClash(Elements(m[n]))
    ensures IdsConflict(Loads(kernels))
  {
    var k :| k in kernels && NameOf(k) == n;
    NamedAt(kernels, Load(k));
    assert Load(k) in Loads(kernels);
    var c, d :| c in Elements(m[n]) && d in Elements(m[n]) && c.id == d.id && c != d;
  }

  lemma AllSettled(kernels: seq<Kernel>, m: map<Name, seq<Config>>)
    requires GroupsOk(m, kernels) && forall n :: n in m ==> !IdsClash(Elements(m[n]))
    ensures !IdsConflict(Loads(kernels))
  {
    forall l, c, d | l in Loads(kernels) && c in ConfigsAt(Loads(kernels), l) && d in ConfigsAt(Loads(kernels), l) && c.id == d.id
      ensures c == d
    {
      NamedAt(kernels, l);
      assert LoadedName(l) in m;
    }
  }

  /** The kernel of one group. */
  ghost predicate IsGroup(m: map<Name, seq<Config>>, n: Name, k: Kernel) {
    && n in m && !IdsClash(Elements(m[n])) && n == NameOf(k)
    && Sorted(k.configs, IdKey) && Elements(k.configs) == Elements(m[n])
  }

  lemma GroupIs(kernels: seq<Kernel>, m: map<Name, seq<Config>>, l: Loaded, k: Kernel)
    requires GroupsOk(m, kernels) && !IdsConflict(Loads(kernels)) && l in Loads(kernels) && IsGroup(m, LoadedName(l), k)
    ensures Grouped(Loads(kernels), l) == k
  {
    NamedAt(kernels, l);
    IdsInjective(Loads(kernels), l);
    IsInOrder(k.configs, IdKey);
  }

  lemma GroupsAre(kernels: seq<Kernel>, m: map<Name, seq<Config>>, groups: set<Kernel>)
    requires GroupsOk(m, kernels) && !IdsConflict(Loads(kernels))
    requires forall k :: k in groups ==> IsGroup(m, NameOf(k), k)
    requires forall n :: n in m ==> exists k :: k in groups && NameOf(k) == n
    ensures groups == Groups(Loads(kernels))
  {
    hide IsGroup, IdsConflict, Grouped;
    forall k | k in groups ensures k in Groups(Loads(kernels)) {
      GroupName(m, k);
      var j :| j in kernels && NameOf(j) == NameOf(k);
      assert Load(j) in Loads(kernels);
      GroupIs(kernels, m, Load(j), k);
    }
    forall g | g in Groups(Loads(kernels)) ensures g in groups {
      var l :| l in Loads(kernels) && g == Grouped(Loads(kernels), l);
      assert LoadedName(l) in m;
      var k :| k in groups && NameOf(k) == LoadedName(l);
      GroupIs(kernels, m, l, k);
    }
  }

  lemma GroupName(m: map<Name, seq<Config>>, k: Kernel)
    requires IsGroup(m, NameOf(k), k)
    ensures NameOf(k) in m
  {
  }

  /** Grouping, comparing and sorting kernels; None where the program fails. */
  method NormalizeKernels(kernels: seq<Kernel>) returns (r: Option<seq<Kernel>>)
    ensures r == Normalize(Loads(kernels))
  {
    hide BytesConflict, IdsConflict, GroupsOk, IsGroup, IdsClash, Groups, Loads;
    var ok, m := GroupAll(kernels);
    if !ok {
      return None;
    }
    var groups: set<Kernel> := {};
    var todo := m.Keys;
    while todo != {}
      invariant todo <= m.Keys
      invariant forall k :: k in groups ==> IsGroup(m, NameOf(k), k)
      invariant forall n :: n in m && n !in todo ==> !IdsClash(Elements(m[n])) && exists k :: k in groups && NameOf(k) == n
      decreases |todo|
    {
      var n :| n in todo;
      var list := SettleConfigs(m[n]);
      if list.None? {
        ClashFails(kernels, m, n);
        return None;
      }
      var k := Kernel(n.1, n.2, n.0, list.value);
      OneGroup(m, n, k);
      groups := groups + {k};
      todo := todo - {n};
    }
    AllSettled(kernels, m);
    GroupsAre(kernels, m, groups);
    GroupsInjective(Loads(kernels));
    var sorted := Arrange(groups, KernelKey);
    r := Some(sorted);
  }

  lemma OneGroup(m: map<Name, seq<Config>>, n: Name, k: Kernel)
    requires n in m && NameOf(k) == n && !IdsClash(Elements(m[n])) && Injective(Elements(m[n]), IdKey)
    requires k.configs == InOrder(Elements(m[n]), IdKey)
    ensures IsGroup(m, n, k)
  {
    InOrderSorted(Elements(m[n]), IdKey);
  }
}
