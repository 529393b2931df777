/** One canonical plan, whatever order its parts come in (src/instrumentation_plan.cpp). */
module PlanCanonical {
  import opened Sequences
  import opened PlanText
  import opened PlanOrder
  import opened PlanMerge
  import opened PlanRead

  // ------------------------------------------------------------ normalisation

  function Load(k: Kernel): Loaded {
    Loaded(k.entry, k.target, k.sha, Elements(k.configs))
  }

  function KernelKey(k: Kernel): Key {
    NameEnd(k.sha) + (NameEnd(k.entry) + NameEnd(k.target))
  }

  function IdKey(c: Config): Key { Chars(c.id) }

  predicate SameBinary(k: Loaded, l: Loaded) {
    k.sha == l.sha && k.entry == l.entry && k.target == l.target
  }

  ghost function ConfigsAt(kernels: set<Loaded>, k: Loaded): set<Config> {
    set l, c | l in kernels && SameBinary(l, k) && c in l.configs :: c
  }

  /** Instruction bytes belong to the binary and the function: (sha, function, pc, bytes). */
  ghost function BytesIn(kernels: set<Loaded>): set<(string, string, nat, string)> {
    set k, c, p | k in kernels && c in k.configs && p in c.points :: (k.sha, p.fn, p.pc, p.bytes)
  }

  ghost predicate BytesConflict(kernels: set<Loaded>) {
    exists x, y :: x in BytesIn(kernels) && y in BytesIn(kernels) && x.0 == y.0 && x.1 == y.1 && x.2 == y.2 && x.3 != y.3
  }

  /** One id, two different configurations of one kernel. */
  ghost predicate IdsConflict(kernels: set<Loaded>) {
    exists k, c, d :: k in kernels && c in ConfigsAt(kernels, k) && d in ConfigsAt(kernels, k) && c.id == d.id && c != d
  }

  lemma IdsInjective(kernels: set<Loaded>, k: Loaded)
    requires !IdsConflict(kernels) && k in kernels
    ensures Injective(ConfigsAt(kernels, k), IdKey)
  {
    forall c, d | c in ConfigsAt(kernels, k) && d in ConfigsAt(kernels, k) && IdKey(c) == IdKey(d) ensures c == d {
      CharsDistinct(c.id, d.id);
    }
  }

  ghost function Grouped(kernels: set<Loaded>, k: Loaded): Kernel
    requires !IdsConflict(kernels) && k in kernels
  {
    IdsInjective(kernels, k);
    Kernel(k.entry, k.target, k.sha, InOrder(ConfigsAt(kernels, k), IdKey))
  }

  ghost function Groups(kernels: set<Loaded>): set<Kernel>
    requires !IdsConflict(kernels)
  {
    set k | k in kernels :: Grouped(kernels, k)
  }

  lemma SameKernelKey(k: Kernel, l: Kernel)
    ensures KernelKey(k) == KernelKey(l) <==> k.sha == l.sha && k.entry == l.entry && k.target == l.target
  {
    if KernelKey(k) == KernelKey(l) {
      NameEndDistinct(k.sha, l.sha, NameEnd(k.entry) + NameEnd(k.target), NameEnd(l.entry) + NameEnd(l.target));
      NameEndDistinct(k.entry, l.entry, NameEnd(k.target), NameEnd(l.target));
      assert NameEnd(k.target) + [] == NameEnd(k.target) && NameEnd(l.target) + [] == NameEnd(l.target);
      NameEndDistinct(k.target, l.target, [], []);
    }
  }

  lemma {:induction false} GroupsInjective(kernels: set<Loaded>)
    requires !IdsConflict(kernels)
    ensures Injective(Groups(kernels), KernelKey)
  {
    forall x, y | x in Groups(kernels) && y in Groups(kernels) && KernelKey(x) == KernelKey(y) ensures x == y {
      var k :| k in kernels && x == Grouped(kernels, k);
      var l :| l in kernels && y == Grouped(kernels, l);
      SameKernelKey(x, y);
      assert ConfigsAt(kernels, k) == ConfigsAt(kernels, l);
    }
  }

  ghost function Normalize(kernels: set<Loaded>): Option<seq<Kernel>> {
    if BytesConflict(kernels) || IdsConflict(kernels) then None
    else
      GroupsInjective(kernels);
      Some(InOrder(Groups(kernels), KernelKey))
  }

  // ------------------------------------------------------------ a whole plan

  datatype RawPolicy = RawPolicy(unmatched: string, unsupported: string, mismatch: string, conflicts: string)

  datatype Policy = Policy(reportGap: bool, skipMismatch: bool)

  /** A whole document, or one record of a file with a record on each line. */
  datatype Record =
    | Document(id: string, policy: RawPolicy, kernels: seq<RawKernel>)
    | KernelRecord(id: string, policy: RawPolicy, kernel: RawKernel)

  datatype Plan = Plan(id: string, policy: Policy, kernels: seq<Kernel>)

  function ReadPolicy(p: RawPolicy): Option<Policy> {
    if p.unmatched != "skip" || p.conflicts != "error" || p.unsupported !in {"error", "report_gap"} || p.mismatch !in {"error", "skip"}
    then None
    else Some(Policy(p.unsupported == "report_gap", p.mismatch == "skip"))
  }

  function Sum(s: seq<nat>): nat {
    if s == [] then 0 else s[0] + Sum(s[1..])
  }

  function ConfigCount(k: RawKernel): nat { |k.configs| }

  function RawPointCount(c: RawConfig): nat { |c.points| }

  function PointCount(k: RawKernel): nat { Sum(Map(k.configs, RawPointCount)) }

  ghost function ReadKernels(id: string, policy: Policy, raw: seq<RawKernel>): Option<Plan> {
    var read := Map(raw, ReadKernel);
    if None in read || Sum(Map(raw, ConfigCount)) > CONFIGS_MAX || Sum(Map(raw, PointCount)) > POINTS_MAX
       || Normalize(Values(read)).None? then None
    else Some(Plan(id, policy, Normalize(Values(read)).value))
  }

  predicate Headed(records: seq<Record>) {
    && 0 < |records| <= KERNELS_MAX
    && IsText(records[0].id) && ReadPolicy(records[0].policy).Some?
    && (forall i :: 0 <= i < |records| ==> records[i].id == records[0].id && records[i].policy == records[0].policy)
    && (forall i :: 0 <= i < |records| && records[i].Document? ==> |records| == 1 && 0 < |records[i].kernels| <= KERNELS_MAX)
  }

  function KernelsOf(records: seq<Record>): seq<RawKernel>
    requires Headed(records)
  {
    if records[0].Document? then records[0].kernels
    else seq(|records|, i requires 0 <= i < |records| => if records[i].KernelRecord? then records[i].kernel else records[0].kernel)
  }

  ghost function Parse(records: seq<Record>): Option<Plan> {
    if !Headed(records) then None
    else ReadKernels(records[0].id, ReadPolicy(records[0].policy).value, KernelsOf(records))
  }

  // ------------------------------------------------------------ the same plan in another order

  ghost predicate SameObservation(a: RawObservation, b: RawObservation) {
    if a.RawRegisters? && b.RawRegisters? then multiset(a.names) == multiset(b.names) else a == b
  }

  ghost predicate SamePoint(a: RawPoint, b: RawPoint) {
    a.(observations := []) == b.(observations := []) && Shuffled(a.observations, b.observations, SameObservation)
  }

  ghost predicate SameChoice<T(!new)>(a: Choice<T>, b: Choice<T>) {
    if a.Only? && b.Only? then multiset(a.items) == multiset(b.items) else a == b
  }

  ghost predicate SameConfig(a: RawConfig, b: RawConfig) {
    && a.id == b.id && a.maxRecords == b.maxRecords && a.maxBytes == b.maxBytes
    && multiset(a.requests) == multiset(b.requests)
    && SameChoice(a.launches, b.launches) && SameChoice(a.ctas, b.ctas)
    && SameChoice(a.warps, b.warps) && SameChoice(a.lanes, b.lanes)
    && Shuffled(a.points, b.points, SamePoint)
  }

  ghost predicate SameKernel(a: RawKernel, b: RawKernel) {
    a.(configs := []) == b.(configs := []) && Shuffled(a.configs, b.configs, SameConfig)
  }

  lemma RemoveSame<T(!new)>(a: seq<T>, b: seq<T>) returns (i: nat)
    requires multiset(a) == multiset(b) && b != []
    ensures i < |a| && a[i] == b[0] && multiset(a[..i] + a[i + 1..]) == multiset(b[1..])
  {
    SameElements(a, b);
    assert b[0] in Elements(b);
    i :| 0 <= i < |a| && a[i] == b[0];
    TakenOut(a, i);
    TakenOut(b, 0);
    assert b[..0] + b[1..] == b[1..];
    Cancel(multiset(a[..i] + a[i + 1..]), multiset(b[1..]), b[0]);
  }

  lemma Cancel<T>(x: multiset<T>, y: multiset<T>, e: T)
    requires x + multiset{e} == y + multiset{e}
    ensures x == y
  {
    assert x == (x + multiset{e}) - multiset{e} && y == (y + multiset{e}) - multiset{e};
  }

  lemma {:induction false} MapMultiset<T(!new), U(!new)>(a: seq<T>, b: seq<T>, f: T -> U)
    requires multiset(a) == multiset(b)
    ensures multiset(Map(a, f)) == multiset(Map(b, f))
    decreases |b|
  {
    SameElements(a, b);
    if b != [] {
      var i := RemoveSame(a, b);
      MapMultiset(a[..i] + a[i + 1..], b[1..], f);
      MapRemove(a, i, f);
      assert Map(b[1..], f) == Map(b, f)[1..];
      SameOnceTakenOut(Map(a, f), i, Map(b, f));
    }
  }

  lemma ReadListSame<U(!new)>(a: seq<Option<U>>, b: seq<Option<U>>, key: U -> Key, maximum: nat)
    requires KeyOk(key) && multiset(a) == multiset(b)
    ensures ReadList(a, key, maximum) == ReadList(b, key, maximum)
  {
    SameReadings(a, b);
    hide Values;
  }

  lemma SameReadings<U(!new)>(a: seq<Option<U>>, b: seq<Option<U>>)
    requires multiset(a) == multiset(b)
    ensures Values(a) == Values(b) && |a| == |b| && (None in a <==> None in b)
  {
    SameElements(a, b);
    assert forall o :: o in a <==> o in Elements(a);
    assert forall o :: o in b <==> o in Elements(b);
  }

  lemma ChoiceSame<T(!new), U(!new)>(a: Choice<T>, b: Choice<T>, read: T -> Option<U>, key: U -> Key)
    requires KeyOk(key) && SameChoice(a, b)
    ensures ReadChoice(a, read, key) == ReadChoice(b, read, key)
  {
    if a.Only? && b.Only? {
      MapMultiset(a.items, b.items, read);
      ReadListSame(Map(a.items, read), Map(b.items, read), key, ARRAY_MAX);
    }
  }

  lemma {:induction false} ObservationSame(a: RawObservation, b: RawObservation)
    requires SameObservation(a, b)
    ensures ReadObservation(a) == ReadObservation(b)
  {
    KeysOk();
    if a.RawRegisters? && b.RawRegisters? {
      MapMultiset(a.names, b.names, ReadRegister);
      ReadListSame(Map(a.names, ReadRegister), Map(b.names, ReadRegister), NameKey, REGISTERS_MAX);
    }
  }

  lemma {:induction false} PointSame(a: RawPoint, b: RawPoint)
    requires SamePoint(a, b)
    ensures ReadPoint(a) == ReadPoint(b)
  {
    forall x, y | SameObservation(x, y) ensures ReadObservation(x) == ReadObservation(y) {
      ObservationSame(x, y);
    }
    ShuffledMaps(a.observations, b.observations, SameObservation, ReadObservation);
    SameReadings(Map(a.observations, ReadObservation), Map(b.observations, ReadObservation));
    SamePointFields(a, b);
    hide Values, Merge, SameObservation, Shuffled, SamePoint;
  }

  lemma SamePointFields(a: RawPoint, b: RawPoint)
    requires SamePoint(a, b)
    ensures a.fn == b.fn && a.pc == b.pc && a.bytes == b.bytes && a.phase == b.phase && a.policy == b.policy
  {
    assert a.(observations := []).fn == b.(observations := []).fn && a.(observations := []).pc == b.(observations := []).pc;
    assert a.(observations := []).bytes == b.(observations := []).bytes && a.(observations := []).phase == b.(observations := []).phase;
    assert a.(observations := []).policy == b.(observations := []).policy;
  }

  lemma {:induction false} ConfigSame(a: RawConfig, b: RawConfig)
    requires SameConfig(a, b)
    ensures ReadConfig(a) == ReadConfig(b)
    ensures |a.points| == |b.points|
  {
    KeysOk();
    forall x, y | SamePoint(x, y) ensures ReadPoint(x) == ReadPoint(y) {
      PointSame(x, y);
    }
    ShuffledMaps(a.points, b.points, SamePoint, ReadPoint);
    SameReadings(Map(a.points, ReadPoint), Map(b.points, ReadPoint));
    MapMultiset(a.requests, b.requests, ReadText);
    ReadListSame(Map(a.requests, ReadText), Map(b.requests, ReadText), Chars, ARRAY_MAX);
    ChoiceSame(a.launches, b.launches, ReadInteger(0, EXACT_MAX), IntegerKey);
    ChoiceSame(a.ctas, b.ctas, ReadTriple, TripleKey);
    ChoiceSame(a.warps, b.warps, ReadInteger(0, EXACT_MAX), IntegerKey);
    ChoiceSame(a.lanes, b.lanes, ReadInteger(0, 31), IntegerKey);
    hide Values, PointsOf, SamePoint, Shuffled, ReadList, ReadChoice, SameChoice;
  }

  lemma {:induction false} SumSame(a: seq<nat>, b: seq<nat>)
    requires multiset(a) == multiset(b)
    ensures Sum(a) == Sum(b)
    decreases |b|
  {
    SameElements(a, b);
    if b != [] {
      var i := RemoveSame(a, b);
      SumSame(a[..i] + a[i + 1..], b[1..]);
      SumTakenOut(a, i);
    }
  }

  lemma {:induction false} SumTakenOut(s: seq<nat>, i: nat)
    requires i < |s|
    ensures Sum(s) == s[i] + Sum(s[..i] + s[i + 1..])
    decreases |s|
  {
    if i == 0 {
      assert s[..0] + s[1..] == s[1..];
    } else {
      SumTakenOut(s[1..], i - 1);
      assert (s[..i] + s[i + 1..])[1..] == s[1..][..i - 1] + s[1..][i..];
    }
  }

  lemma {:induction false} KernelSame(a: RawKernel, b: RawKernel)
    requires SameKernel(a, b)
    ensures ReadKernel(a) == ReadKernel(b) && PointCount(a) == PointCount(b) && ConfigCount(a) == ConfigCount(b)
  {
    hide ReadConfig, SameConfig;
    forall x, y | SameConfig(x, y) ensures ReadConfig(x) == ReadConfig(y) && RawPointCount(x) == RawPointCount(y) {
      ConfigSame(x, y);
    }
    SameKernelFields(a, b);
    ShuffledMaps(a.configs, b.configs, SameConfig, ReadConfig);
    ShuffledMaps(a.configs, b.configs, SameConfig, RawPointCount);
    hide Shuffled, SameKernel;
    SumSame(Map(a.configs, RawPointCount), Map(b.configs, RawPointCount));
    SameReadings(Map(a.configs, ReadConfig), Map(b.configs, ReadConfig));
    hide Values, Sum;
  }

  lemma SameKernelFields(a: RawKernel, b: RawKernel)
    requires SameKernel(a, b)
    ensures a.entry == b.entry && a.target == b.target && a.sha == b.sha
  {
    assert a.(configs := []).entry == b.(configs := []).entry && a.(configs := []).target == b.(configs := []).target;
    assert a.(configs := []).sha == b.(configs := []).sha;
  }

  /** Permuting kernels, configurations, points, observations or registers gives the same plan, or fails both times. */
  lemma {:induction false} OrderDoesNotMatter(id: string, policy: Policy, a: seq<RawKernel>, b: seq<RawKernel>)
    requires Shuffled(a, b, SameKernel)
    ensures ReadKernels(id, policy, a) == ReadKernels(id, policy, b)
  {
    hide ReadKernel, SameKernel;
    forall x, y | SameKernel(x, y)
      ensures ReadKernel(x) == ReadKernel(y) && PointCount(x) == PointCount(y) && ConfigCount(x) == ConfigCount(y)
    {
      KernelSame(x, y);
    }
    ShuffledMaps(a, b, SameKernel, ReadKernel);
    ShuffledMaps(a, b, SameKernel, PointCount);
    ShuffledMaps(a, b, SameKernel, ConfigCount);
    hide Shuffled, PointCount, ConfigCount;
    SumSame(Map(a, PointCount), Map(b, PointCount));
    SumSame(Map(a, ConfigCount), Map(b, ConfigCount));
    SameReadings(Map(a, ReadKernel), Map(b, ReadKernel));
    hide Values, Sum, Normalize;
  }

  function AsRecord(id: string, policy: RawPolicy): RawKernel -> Record {
    (k: RawKernel) => KernelRecord(id, policy, k)
  }

  /** The same kernels in one document or one on each line, in any order: the same plan, or failure both times. */
  lemma {:induction false} DocumentOrRecords(id: string, policy: RawPolicy, a: seq<RawKernel>, b: seq<RawKernel>)
    requires Shuffled(a, b, SameKernel)
    ensures Parse([Document(id, policy, a)]) == Parse(Map(b, AsRecord(id, policy)))
    ensures Parse([Document(id, policy, a)]) == Parse([Document(id, policy, b)])
    ensures Parse(Map(a, AsRecord(id, policy))) == Parse(Map(b, AsRecord(id, policy)))
  {
    ShuffledLength(a, b, SameKernel);
    RecordsOf(id, policy, a);
    RecordsOf(id, policy, b);
    hide ReadKernels, Shuffled, Parse, SameKernel;
    if ReadPolicy(policy).Some? {
      OrderDoesNotMatter(id, ReadPolicy(policy).value, a, b);
    }
  }

  /** Both forms read as one header and the same kernels. */
  lemma {:induction false} RecordsOf(id: string, policy: RawPolicy, a: seq<RawKernel>)
    ensures Parse([Document(id, policy, a)]) ==
            if 0 < |a| <= KERNELS_MAX && IsText(id) && ReadPolicy(policy).Some? then ReadKernels(id, ReadPolicy(policy).value, a) else None
    ensures Parse(Map(a, AsRecord(id, policy))) == Parse([Document(id, policy, a)])
  {
    var records := Map(a, AsRecord(id, policy));
    hide ReadKernels, IsText, ReadPolicy;
    if Headed(records) {
      assert KernelsOf(records) == a;
    } else if a != [] {
      assert records[0].id == id && records[0].policy == policy;
    }
  }

  lemma {:induction false} ShuffledLength<T(!new)>(a: seq<T>, b: seq<T>, same: (T, T) -> bool)
    requires Shuffled(a, b, same)
    ensures |a| == |b|
    decreases |b|
  {
    if b != [] {
      var i := ShuffledHead(a, b, same);
      ShuffledLength(a[..i] + a[i + 1..], b[1..], same);
    }
  }
}
