/** Reading the canonical plan gives the canonical plan again, limits included (src/instrumentation_plan.cpp). */
module PlanFixedPoint {
  import opened Sequences
  import opened PlanText
  import opened PlanOrder
  import opened PlanMerge
  import opened PlanRead
  import opened PlanCanonical
  import opened PlanFixed

  // ------------------------------------------------------------ normalised kernels

  lemma GroupLoads(kernels: set<Loaded>, k: Loaded)
    requires !IdsConflict(kernels) && k in kernels
    ensures Load(Grouped(kernels, k)) == Loaded(k.entry, k.target, k.sha, ConfigsAt(kernels, k))
  {
    IdsInjective(kernels, k);
  }

  /** Every configuration of a normalised kernel came from one of the kernels it was made from. */
  lemma LoadedBytes(kernels: set<Loaded>, list: seq<Kernel>)
    requires !IdsConflict(kernels) && Elements(list) == Groups(kernels)
    ensures BytesIn(set k | k in list :: Load(k)) <= BytesIn(kernels)
  {
    var again := set k | k in list :: Load(k);
    forall x | x in BytesIn(again) ensures x in BytesIn(kernels) {
      var l, c, p :| l in again && c in l.configs && p in c.points && x == (l.sha, p.fn, p.pc, p.bytes);
      var g :| g in list && l == Load(g);
      assert g in Elements(list);
      var k :| k in kernels && g == Grouped(kernels, k);
      GroupLoads(kernels, k);
      var m :| m in kernels && SameBinary(m, k) && c in m.configs;
    }
  }

  lemma OnlyOne(list: seq<Kernel>, g: Kernel, h: Kernel)
    requires Sorted(list, KernelKey) && g in list && h in list && SameBinary(Load(h), Load(g))
    ensures h == g
  {
    hide InOrder, KernelKey;
    IsInOrder(list, KernelKey);
    SameKernelKey(g, h);
    assert g in Elements(list) && h in Elements(list);
  }

  /** The group a normalised kernel belongs to is that kernel alone. */
  lemma LoadedConfigs(list: seq<Kernel>, g: Kernel)
    requires Sorted(list, KernelKey) && g in list
    ensures ConfigsAt(set k | k in list :: Load(k), Load(g)) == Elements(g.configs)
  {
    hide Sorted, KernelKey;
    var again := set k | k in list :: Load(k);
    assert Load(g) in again;
    forall l | l in again && SameBinary(l, Load(g)) ensures l == Load(g) {
      var h :| h in list && l == Load(h);
      OnlyOne(list, g, h);
    }
  }

  lemma {:induction false} NormalizedAgain(kernels: set<Loaded>, list: seq<Kernel>)
    requires Normalize(kernels) == Some(list)
    ensures Normalize(set k | k in list :: Load(k)) == Some(list)
  {
    var again := set k | k in list :: Load(k);
    GroupsInjective(kernels);
    InOrderSorted(Groups(kernels), KernelKey);
    LoadedBytes(kernels, list);
    hide BytesIn, ConfigsAt, Groups, KernelKey;
    assert !BytesConflict(again);
    NoIdsConflict(kernels, list);
    SameGroups(kernels, list);
    IsInOrder(list, KernelKey);
    GroupsInjective(again);
  }

  lemma NoIdsConflict(kernels: set<Loaded>, list: seq<Kernel>)
    requires !IdsConflict(kernels) && Elements(list) == Groups(kernels) && Sorted(list, KernelKey)
    ensures !IdsConflict(set k | k in list :: Load(k))
  {
    var again := set k | k in list :: Load(k);
    forall l, c, d | l in again && c in ConfigsAt(again, l) && d in ConfigsAt(again, l) && c.id == d.id ensures c == d {
      var g :| g in list && l == Load(g);
      LoadedConfigs(list, g);
      assert g in Elements(list);
      var k :| k in kernels && g == Grouped(kernels, k);
      GroupLoads(kernels, k);
    }
  }

  lemma SameGroups(kernels: set<Loaded>, list: seq<Kernel>)
    requires !IdsConflict(kernels) && Elements(list) == Groups(kernels) && Sorted(list, KernelKey)
    requires !IdsConflict(set k | k in list :: Load(k))
    ensures Groups(set k | k in list :: Load(k)) == Elements(list)
  {
    var again := set k | k in list :: Load(k);
    forall g | g in list ensures Load(g) in again && Grouped(again, Load(g)) == g {
      LoadedConfigs(list, g);
      assert g in Elements(list);
      var k :| k in kernels && g == Grouped(kernels, k);
      GroupLoads(kernels, k);
      hide ConfigsAt;
    }
    hide Grouped, ConfigsAt;
    forall x | x in Groups(again) ensures x in Elements(list) {
      var l :| l in again && x == Grouped(again, l);
      var g :| g in list && l == Load(g);
    }
    forall g | g in Elements(list) ensures g in Groups(again) {
      assert Load(g) in again;
    }
  }

  // ------------------------------------------------------------ the limits still hold

  type Tagged = (string, string, string, Config)

  function Tags(entry: string, target: string, sha: string, configs: seq<Config>): seq<Tagged> {
    seq(|configs|, i requires 0 <= i < |configs| => (entry, target, sha, configs[i]))
  }

  function Weigh(flat: seq<Tagged>, w: Config -> nat): nat {
    if flat == [] then 0 else w(flat[0].3) + Weigh(flat[1..], w)
  }

  lemma {:induction false} WeighSplit(a: seq<Tagged>, b: seq<Tagged>, w: Config -> nat)
    ensures Weigh(a + b, w) == Weigh(a, w) + Weigh(b, w)
  {
    if a == [] {
      assert a + b == b;
    } else {
      assert (a + b)[1..] == a[1..] + b;
      WeighSplit(a[1..], b, w);
    }
  }

  /** Things that are each there once weigh no more than a list that has them all. */
  lemma {:induction false} DistinctWeighLess(few: seq<Tagged>, many: seq<Tagged>, w: Config -> nat)
    requires Distinct(few) && forall t :: t in few ==> t in many
    ensures Weigh(few, w) <= Weigh(many, w)
    decreases |few|
  {
    if few != [] {
      assert few[0] in few;
      var i :| 0 <= i < |many| && many[i] == few[0];
      var less := many[..i] + many[i + 1..];
      assert many == many[..i] + ([many[i]] + many[i + 1..]);
      WeighSplit(many[..i], [many[i]] + many[i + 1..], w);
      WeighSplit([many[i]], many[i + 1..], w);
      WeighSplit(many[..i], many[i + 1..], w);
      assert Weigh([many[i]], w) == w(few[0].3) + Weigh([], w);
      forall t | t in few[1..] ensures t in less {
        var j :| 0 <= j < |few| - 1 && few[1..][j] == t;
        assert few[j + 1] == t && t != few[0] && t in few;
        var m :| 0 <= m < |many| && many[m] == t;
        assert t == if m < i then less[m] else less[m - 1];
      }
      DistinctWeighLess(few[1..], less, w);
    }
  }

  /** Every configuration of the given kernels, as read, with its kernel. */
  ghost function RawTags(raws: seq<RawKernel>): seq<Tagged> {
    if raws == [] then []
    else Tags(raws[0].entry, raws[0].target, raws[0].sha, ReadConfigs(raws[0].configs)) + RawTags(raws[1..])
  }

  ghost function ReadConfigs(configs: seq<RawConfig>): seq<Config> {
    if configs == [] then []
    else (match ReadConfig(configs[0]) case None => [] case Some(c) => [c]) + ReadConfigs(configs[1..])
  }

  function KernelTags(list: seq<Kernel>): seq<Tagged> {
    if list == [] then [] else Tags(list[0].entry, list[0].target, list[0].sha, list[0].configs) + KernelTags(list[1..])
  }

  function One(c: Config): nat { 1 }

  function Points(c: Config): nat { |c.points| }

  lemma {:induction false} ReadConfigsHas(configs: seq<RawConfig>, c: Config)
    requires Some(c) in Map(configs, ReadConfig)
    ensures c in ReadConfigs(configs)
  {
    var i :| 0 <= i < |configs| && Map(configs, ReadConfig)[i] == Some(c);
    if i > 0 {
      assert Map(configs[1..], ReadConfig)[i - 1] == Some(c);
      ReadConfigsHas(configs[1..], c);
    }
  }

  lemma TagsHead(entry: string, target: string, sha: string, c: Config, rest: seq<Config>, w: Config -> nat)
    ensures Weigh(Tags(entry, target, sha, [c] + rest), w) == w(c) + Weigh(Tags(entry, target, sha, rest), w)
  {
    assert Tags(entry, target, sha, [c] + rest)[1..] == Tags(entry, target, sha, rest);
  }

  lemma ReadConfigsHead(configs: seq<RawConfig>)
    requires configs != []
    ensures ReadConfig(configs[0]).Some? ==> ReadConfigs(configs) == [ReadConfig(configs[0]).value] + ReadConfigs(configs[1..])
    ensures ReadConfig(configs[0]).None? ==> ReadConfigs(configs) == ReadConfigs(configs[1..])
  {
    hide ReadConfig;
  }

  lemma {:induction false} RawWeight(configs: seq<RawConfig>, entry: string, target: string, sha: string)
    ensures Weigh(Tags(entry, target, sha, ReadConfigs(configs)), One) <= |configs|
    ensures Weigh(Tags(entry, target, sha, ReadConfigs(configs)), Points) <= Sum(Map(configs, RawPointCount))
  {
    hide ReadConfig, Weigh, Tags, ReadConfigs;
    if configs == [] {
      NoWeight(entry, target, sha);
    } else {
      RawWeight(configs[1..], entry, target, sha);
      ReadConfigsHead(configs);
      assert Map(configs, RawPointCount)[1..] == Map(configs[1..], RawPointCount);
      if ReadConfig(configs[0]).Some? {
        ConfigRoundTrip(configs[0]);
        TagsHead(entry, target, sha, ReadConfig(configs[0]).value, ReadConfigs(configs[1..]), One);
        TagsHead(entry, target, sha, ReadConfig(configs[0]).value, ReadConfigs(configs[1..]), Points);
      }
    }
  }

  lemma NoWeight(entry: string, target: string, sha: string)
    ensures Weigh(Tags(entry, target, sha, ReadConfigs([])), One) == 0
    ensures Weigh(Tags(entry, target, sha, ReadConfigs([])), Points) == 0
  {
  }

  lemma NothingWeighs()
    ensures forall w :: Weigh([], w) == 0
  {
  }

  lemma {:induction false} RawTagsWeight(raws: seq<RawKernel>)
    ensures Weigh(RawTags(raws), One) <= Sum(Map(raws, ConfigCount))
    ensures Weigh(RawTags(raws), Points) <= Sum(Map(raws, PointCount))
  {
    hide Weigh, ReadConfigs, Tags;
    if raws == [] {
      NothingWeighs();
    } else {
      var r := raws[0];
      RawTagsWeight(raws[1..]);
      RawWeight(r.configs, r.entry, r.target, r.sha);
      WeighSplit(Tags(r.entry, r.target, r.sha, ReadConfigs(r.configs)), RawTags(raws[1..]), One);
      WeighSplit(Tags(r.entry, r.target, r.sha, ReadConfigs(r.configs)), RawTags(raws[1..]), Points);
      assert Map(raws, ConfigCount)[1..] == Map(raws[1..], ConfigCount);
      assert Map(raws, PointCount)[1..] == Map(raws[1..], PointCount);
    }
  }

  lemma {:induction false} KernelWeight(configs: seq<Config>, entry: string, target: string, sha: string)
    ensures Weigh(Tags(entry, target, sha, configs), One) == |configs|
    ensures Weigh(Tags(entry, target, sha, configs), Points) == Sum(Map(Map(configs, WriteConfig), RawPointCount))
  {
    if configs != [] {
      KernelWeight(configs[1..], entry, target, sha);
      assert configs == [configs[0]] + configs[1..];
      TagsHead(entry, target, sha, configs[0], configs[1..], One);
      TagsHead(entry, target, sha, configs[0], configs[1..], Points);
      var counts := Map(Map(configs, WriteConfig), RawPointCount);
      assert counts[1..] == Map(Map(configs[1..], WriteConfig), RawPointCount);
      assert counts[0] == |configs[0].points|;
    }
  }

  lemma KernelCounts(k: Kernel)
    ensures ConfigCount(WriteKernel(k)) == |k.configs|
    ensures PointCount(WriteKernel(k)) == Sum(Map(Map(k.configs, WriteConfig), RawPointCount))
  {
    hide WriteConfig, Sum;
  }

  lemma {:induction false} KernelTagsWeight(list: seq<Kernel>)
    ensures Weigh(KernelTags(list), One) == Sum(Map(Map(list, WriteKernel), ConfigCount))
    ensures Weigh(KernelTags(list), Points) == Sum(Map(Map(list, WriteKernel), PointCount))
  {
    hide Weigh, Tags, WriteKernel;
    if list == [] {
      NothingWeighs();
    } else {
      var k := list[0];
      KernelCounts(k);
      KernelTagsWeight(list[1..]);
      KernelWeight(k.configs, k.entry, k.target, k.sha);
      WeighSplit(Tags(k.entry, k.target, k.sha, k.configs), KernelTags(list[1..]), One);
      WeighSplit(Tags(k.entry, k.target, k.sha, k.configs), KernelTags(list[1..]), Points);
      assert Map(Map(list, WriteKernel), ConfigCount)[1..] == Map(Map(list[1..], WriteKernel), ConfigCount);
      assert Map(Map(list, WriteKernel), PointCount)[1..] == Map(Map(list[1..], WriteKernel), PointCount);
    }
  }

  lemma {:induction false} TagFrom(list: seq<Kernel>, t: Tagged) returns (k: Kernel)
    requires t in KernelTags(list)
    ensures k in list && t.0 == k.entry && t.1 == k.target && t.2 == k.sha && t.3 in k.configs
  {
    if t in Tags(list[0].entry, list[0].target, list[0].sha, list[0].configs) {
      k := list[0];
    } else {
      k := TagFrom(list[1..], t);
    }
  }

  lemma {:induction false} RawTag(raws: seq<RawKernel>, r: RawKernel, c: Config)
    requires r in raws && c in ReadConfigs(r.configs)
    ensures (r.entry, r.target, r.sha, c) in RawTags(raws)
  {
    if r == raws[0] {
      var configs := ReadConfigs(r.configs);
      var i :| 0 <= i < |configs| && configs[i] == c;
      assert Tags(r.entry, r.target, r.sha, configs)[i] == (r.entry, r.target, r.sha, c);
    } else {
      RawTag(raws[1..], r, c);
    }
  }

  /** Where a configuration of a normalised kernel comes from. */
  lemma GroupSource(kernels: set<Loaded>, list: seq<Kernel>, g: Kernel, c: Config) returns (l: Loaded)
    requires Normalize(kernels) == Some(list) && g in list && c in g.configs
    ensures l in kernels && l.entry == g.entry && l.target == g.target && l.sha == g.sha && c in l.configs
  {
    GroupsInjective(kernels);
    assert g in Elements(list);
    var k :| k in kernels && g == Grouped(kernels, k);
    hide Groups, Normalize;
    GroupLoads(kernels, k);
    assert c in Elements(g.configs);
    l :| l in kernels && SameBinary(l, k) && c in l.configs;
  }

  /** No normalised configuration is new. */
  lemma TagsWereRead(raws: seq<RawKernel>, list: seq<Kernel>, t: Tagged)
    requires Normalize(Values(Map(raws, ReadKernel))) == Some(list) && t in KernelTags(list)
    ensures t in RawTags(raws)
  {
    hide Normalize, KernelTags, RawTags, ReadConfig, IsText, TargetOk, ShaOk;
    var g := TagFrom(list, t);
    var l := GroupSource(Values(Map(raws, ReadKernel)), list, g, t.3);
    var i :| 0 <= i < |raws| && Map(raws, ReadKernel)[i] == Some(l);
    assert t.3 in Values(Map(raws[i].configs, ReadConfig));
    ReadConfigsHas(raws[i].configs, t.3);
    RawTag(raws, raws[i], t.3);
  }

  lemma {:induction false} TagsOnce(list: seq<Kernel>)
    requires Sorted(list, KernelKey) && forall k :: k in list ==> Sorted(k.configs, IdKey)
    ensures Distinct(KernelTags(list))
  {
    if list != [] {
      var k := list[0];
      var first, rest := Tags(k.entry, k.target, k.sha, k.configs), KernelTags(list[1..]);
      SortedHead(list, KernelKey);
      TagsOnce(list[1..]);
      SortedApart(k.configs, IdKey);
      assert Distinct(first);
      forall t | t in first ensures t !in rest {
        if t in rest {
          var h := TagFrom(list[1..], t);
          HeadApart(list, h);
        }
      }
      DistinctJoin(first, rest);
    }
  }

  lemma HeadApart(list: seq<Kernel>, h: Kernel)
    requires list != [] && Sorted(list, KernelKey) && h in list[1..]
    ensures !(list[0].sha == h.sha && list[0].entry == h.entry && list[0].target == h.target)
  {
    var j :| 0 <= j < |list| - 1 && list[1..][j] == h;
    assert Before(KernelKey(list[0]), KernelKey(list[j + 1]));
    BeforeIrreflexive(KernelKey(h));
    SameKernelKey(list[0], h);
  }

  lemma SortedApart<T(!new)>(s: seq<T>, key: T -> Key)
    requires Sorted(s, key)
    ensures Distinct(s)
  {
    forall i, j | 0 <= i < j < |s| ensures s[i] != s[j] {
      BeforeIrreflexive(key(s[i]));
    }
  }

  lemma DistinctJoin<T>(a: seq<T>, b: seq<T>)
    requires Distinct(a) && Distinct(b) && forall t :: t in a ==> t !in b
    ensures Distinct(a + b)
  {
    forall i, j | 0 <= i < j < |a + b| ensures (a + b)[i] != (a + b)[j] {
      if i < |a| <= j {
        assert (a + b)[i] in a && (a + b)[j] in b;
      }
    }
  }

  /** What normalisation makes of kernels that were read. */
  lemma NormalizedConfigs(raws: seq<RawKernel>, list: seq<Kernel>, g: Kernel)
    requires Normalize(Values(Map(raws, ReadKernel))) == Some(list) && g in list
    ensures IsText(g.entry) && TargetOk(g.target) && ShaOk(g.sha)
    ensures g.configs != [] && Sorted(g.configs, IdKey) && forall c :: c in g.configs ==> ConfigCanonical(c)
  {
    hide ReadKernel, IsText, TargetOk, ShaOk, Normalize, ConfigCanonical, Sorted;
    var kernels := Values(Map(raws, ReadKernel));
    var k := GroupOf(kernels, list, g);
    var i :| 0 <= i < |raws| && Map(raws, ReadKernel)[i] == Some(k);
    LoadedTexts(raws[i]);
    LoadedConfigsNonempty(raws[i]);
    forall c | c in g.configs ensures ConfigCanonical(c) {
      var l := GroupSource(kernels, list, g, c);
      var j :| 0 <= j < |raws| && Map(raws, ReadKernel)[j] == Some(l);
      LoadedCanonical(raws[j], c);
    }
  }

  lemma GroupOf(kernels: set<Loaded>, list: seq<Kernel>, g: Kernel) returns (k: Loaded)
    requires Normalize(kernels) == Some(list) && g in list
    ensures k in kernels && k.entry == g.entry && k.target == g.target && k.sha == g.sha
    ensures Sorted(g.configs, IdKey) && (k.configs != {} ==> g.configs != [])
  {
    GroupsInjective(kernels);
    assert g in Elements(list);
    k :| k in kernels && g == Grouped(kernels, k);
    hide Groups, Normalize;
    IdsInjective(kernels, k);
    InOrderSorted(ConfigsAt(kernels, k), IdKey);
    if k.configs != {} {
      var c :| c in k.configs;
      assert c in ConfigsAt(kernels, k) && c in Elements(g.configs);
    }
  }

  lemma LoadedTexts(raw: RawKernel)
    requires ReadKernel(raw).Some?
    ensures var k := ReadKernel(raw).value; IsText(k.entry) && TargetOk(k.target) && ShaOk(k.sha)
  {
    hide ReadConfig, IsText, TargetOk, ShaOk;
  }

  lemma LoadedConfigsNonempty(raw: RawKernel)
    requires ReadKernel(raw).Some?
    ensures ReadKernel(raw).value.configs != {}
  {
    var read := Map(raw.configs, ReadConfig);
    assert read[0] in read && read[0].value in Values(read);
  }

  lemma LoadedCanonical(raw: RawKernel, c: Config)
    requires ReadKernel(raw).Some? && c in ReadKernel(raw).value.configs
    ensures ConfigCanonical(c)
  {
    var read := Map(raw.configs, ReadConfig);
    var i :| 0 <= i < |read| && read[i] == Some(c);
    ConfigRoundTrip(raw.configs[i]);
  }

  lemma {:induction false} OneOfMany(list: seq<Kernel>, k: Kernel)
    requires k in list
    ensures |k.configs| <= Sum(Map(Map(list, WriteKernel), ConfigCount))
  {
    var counts := Map(Map(list, WriteKernel), ConfigCount);
    assert counts[0] == |list[0].configs| && counts[1..] == Map(Map(list[1..], WriteKernel), ConfigCount);
    if k != list[0] {
      OneOfMany(list[1..], k);
    }
  }

  lemma KernelRoundTrip(k: Kernel)
    requires IsText(k.entry) && TargetOk(k.target) && ShaOk(k.sha) && 0 < |k.configs| <= CONFIGS_MAX
    requires forall c :: c in k.configs ==> ConfigCanonical(c)
    ensures ReadKernel(WriteKernel(k)) == Some(Load(k))
  {
    hide IsText, TargetOk, ShaOk;
    forall c | c in k.configs ensures ReadConfig(WriteConfig(c)) == Some(c) {
      assert ConfigCanonical(c);
    }
    hide ReadConfig, WriteConfig;
    Again(k.configs, WriteConfig, ReadConfig);
    hide Values, Map;
  }

  lemma {:induction false} CountsStay(raws: seq<RawKernel>, list: seq<Kernel>)
    requires Normalize(Values(Map(raws, ReadKernel))) == Some(list)
    ensures Sum(Map(Map(list, WriteKernel), ConfigCount)) <= Sum(Map(raws, ConfigCount))
    ensures Sum(Map(Map(list, WriteKernel), PointCount)) <= Sum(Map(raws, PointCount))
  {
    var few, many := KernelTags(list), RawTags(raws);
    forall t | t in few ensures t in many {
      TagsWereRead(raws, list, t);
    }
    forall k | k in list ensures Sorted(k.configs, IdKey) {
      NormalizedConfigs(raws, list, k);
    }
    NormalizedSorted(Values(Map(raws, ReadKernel)), list);
    hide Normalize, Sorted, Weigh, KernelTags, RawTags, Sum, Map;
    TagsOnce(list);
    DistinctWeighLess(few, many, One);
    DistinctWeighLess(few, many, Points);
    RawTagsWeight(raws);
    KernelTagsWeight(list);
  }

  lemma NormalizedSorted(kernels: set<Loaded>, list: seq<Kernel>)
    requires Normalize(kernels) == Some(list)
    ensures Sorted(list, KernelKey) && |list| <= |kernels| && (kernels != {} ==> list != [])
  {
    GroupsInjective(kernels);
    InOrderSorted(Groups(kernels), KernelKey);
    GroupsSize(kernels, kernels, Groups(kernels));
    if kernels != {} {
      var k :| k in kernels;
      assert Grouped(kernels, k) in Groups(kernels);
    }
  }

  lemma {:induction false} GroupsSize(all: set<Loaded>, kernels: set<Loaded>, image: set<Kernel>)
    requires kernels <= all && !IdsConflict(all) && image == set k | k in kernels :: Grouped(all, k)
    ensures |image| <= |kernels|
  {
    hide IdsConflict, Grouped;
    if kernels == {} {
      assert image == {};
    } else {
      var k :| k in kernels;
      var rest := set l | l in kernels - {k} :: Grouped(all, l);
      GroupsSize(all, kernels - {k}, rest);
      assert image == rest + {Grouped(all, k)};
      assert |kernels| == |kernels - {k}| + 1;
    }
  }

  /** Writing the canonical kernels out and reading them again changes nothing and breaks no limit. */
  lemma {:induction false} KernelsAreFixed(id: string, policy: Policy, raws: seq<RawKernel>)
    requires ReadKernels(id, policy, raws).Some?
    ensures var plan := ReadKernels(id, policy, raws).value; ReadKernels(id, policy, Map(plan.kernels, WriteKernel)) == Some(plan)
  {
    hide Normalize, Sum, ReadKernel, WriteKernel, Sorted, ConfigCanonical;
    var list := ReadKernels(id, policy, raws).value.kernels;
    CountsStay(raws, list);
    forall k | k in list ensures ReadKernel(WriteKernel(k)) == Some(Load(k)) {
      NormalizedConfigs(raws, list, k);
      OneOfMany(list, k);
      KernelRoundTrip(k);
    }
    NormalizedAgain(Values(Map(raws, ReadKernel)), list);
    LoadsAgain(list);
  }

  lemma LoadsAgain(list: seq<Kernel>)
    requires forall k :: k in list ==> ReadKernel(WriteKernel(k)) == Some(Load(k))
    ensures var read := Map(Map(list, WriteKernel), ReadKernel); None !in read && Values(read) == set k | k in list :: Load(k)
  {
    hide ReadKernel, WriteKernel;
    var read := Map(Map(list, WriteKernel), ReadKernel);
    assert forall i :: 0 <= i < |list| ==> read[i] == Some(Load(list[i]));
    forall l | l in (set k | k in list :: Load(k)) ensures l in Values(read) {
      var k :| k in list && l == Load(k);
      var i :| 0 <= i < |list| && list[i] == k;
      assert read[i] == Some(l);
    }
  }

  function WritePolicy(p: Policy): RawPolicy {
    RawPolicy("skip", if p.reportGap then "report_gap" else "error", if p.skipMismatch then "skip" else "error", "error")
  }

  lemma HeadOfRecords(records: seq<Record>)
    requires Headed(records)
    ensures records != [] && IsText(records[0].id) && ReadPolicy(records[0].policy).Some? && 0 < |KernelsOf(records)| <= KERNELS_MAX
  {
    hide IsText, ReadPolicy;
  }

  lemma PolicyRoundTrip(p: Policy)
    ensures ReadPolicy(WritePolicy(p)) == Some(p)
  {
  }

  /** What was read has at least one kernel and at most as many as were given. */
  lemma KernelBounds(id: string, policy: Policy, raws: seq<RawKernel>)
    requires ReadKernels(id, policy, raws).Some? && raws != []
    ensures var plan := ReadKernels(id, policy, raws).value;
            plan.id == id && plan.policy == policy && 0 < |plan.kernels| <= |raws|
  {
    hide Normalize, ReadKernel, Sum;
    var read := Map(raws, ReadKernel);
    var kernels := Values(read);
    NormalizedSorted(kernels, ReadKernels(id, policy, raws).value.kernels);
    ValuesBound(read);
    assert read[0] in read && read[0].value in kernels;
  }

  /** The canonical form is a fixed point: any accepted plan, written as one document and read, is itself. */
  lemma {:induction false} CanonicalIsFixed(records: seq<Record>)
    requires Parse(records).Some?
    ensures var plan := Parse(records).value;
            Parse([Document(plan.id, WritePolicy(plan.policy), Map(plan.kernels, WriteKernel))]) == Some(plan)
  {
    hide ReadKernels, Headed, KernelsOf, ReadPolicy, WritePolicy, IsText;
    var plan, raws := Parse(records).value, KernelsOf(records);
    HeadOfRecords(records);
    var id, policy := records[0].id, ReadPolicy(records[0].policy).value;
    KernelsAreFixed(id, policy, raws);
    KernelBounds(id, policy, raws);
    PolicyRoundTrip(policy);
    RecordsOf(plan.id, WritePolicy(policy), Map(plan.kernels, WriteKernel));
  }
}
