/** Reading a plan one item after the other (src/instrumentation_plan.cpp), as the program does: arrays, points,
    configurations, kernels and records are loops that stop at the first thing that is wrong. */
module PlanParse {
  import opened Sequences
  import opened PlanText
  import opened PlanOrder
  import opened PlanMerge
  import opened PlanRead
  import opened PlanCanonical
  import opened PlanLoops
  import PlanFixed
  import PlanNormalize

  // ------------------------------------------------------------ arrays

  lemma {:induction false} AllRead<T(!new), U(!new)>(items: seq<T>, read: T -> Option<U>, values: seq<U>)
    requires |values| == |items| && forall j :: 0 <= j < |items| ==> read(items[j]) == Some(values[j])
    ensures None !in Map(items, read) && Values(Map(items, read)) == Elements(values)
  {
    var all := Map(items, read);
    forall u | u in Elements(values) ensures u in Values(all) {
      var j :| 0 <= j < |values| && values[j] == u;
      assert all[j] == Some(u);
    }
  }

  lemma {:induction false} OneUnread<T(!new), U(!new)>(items: seq<T>, read: T -> Option<U>, i: nat)
    requires i < |items| && read(items[i]).None?
    ensures None in Map(items, read)
  {
    assert Map(items, read)[i] == None;
  }

  /** Sorting, and refusing what is there twice. */
  method UniqueSort<U(==, !new)>(values: seq<U>, key: U -> Key) returns (r: Option<seq<U>>)
    requires KeyOk(key)
    ensures Injective(Elements(values), key)
    ensures r == if |Elements(values)| < |values| then None else Some(InOrder(Elements(values), key))
  {
    KeyInjective(Elements(values), key);
    var seen: set<U> := {};
    for i := 0 to |values|
      invariant seen == Elements(values[..i]) && |seen| == i
    {
      assert values[..i + 1] == values[..i] + [values[i]];
      assert Elements(values[..i + 1]) == seen + {values[i]};
      if values[i] in seen {
        TwiceIsFewer(values, i);
        return None;
      }
      seen := seen + {values[i]};
    }
    assert values[..|values|] == values;
    var sorted := Arrange(seen, key);
    r := Some(sorted);
  }

  lemma {:induction false} TwiceIsFewer<U>(values: seq<U>, i: nat)
    requires i < |values| && values[i] in Elements(values[..i])
    ensures |Elements(values)| < |values|
  {
    var front, rest := values[..i], values[i + 1..];
    assert values == front + [values[i]] + rest;
    assert Elements(values) == Elements(front + rest);
    ElementsBound(front + rest);
  }

  /** A nonempty bounded array of values, each once. */
  method ReadAll<T(!new), U(==, !new)>(items: seq<T>, read: T -> Option<U>, key: U -> Key, maximum: nat)
    returns (r: Option<seq<U>>)
    requires KeyOk(key)
    ensures r == ReadList(Map(items, read), key, maximum)
  {
    if items == [] || |items| > maximum {
      return None;
    }
    var values: seq<U> := [];
    for i := 0 to |items|
      invariant |values| == i && forall j :: 0 <= j < i ==> read(items[j]) == Some(values[j])
    {
      var value := read(items[i]);
      if value.None? {
        OneUnread(items, read, i);
        return None;
      }
      values := values + [value.value];
    }
    AllRead(items, read, values);
    r := UniqueSort(values, key);
  }

  method ReadSelection<T(!new), U(==, !new)>(c: Choice<T>, read: T -> Option<U>, key: U -> Key) returns (r: Option<Choice<U>>)
    requires KeyOk(key)
    ensures r == ReadChoice(c, read, key)
  {
    if c.All? {
      return Some(All);
    }
    var list := ReadAll(c.items, read, key, ARRAY_MAX);
    r := if list.None? then None else Some(Only(list.value));
  }

  // ------------------------------------------------------------ observations and points

  method ParseObservation(o: RawObservation) returns (r: Option<Observation>)
    ensures r == ReadObservation(o)
    ensures r.Some? ==> ObservationOk(r.value)
  {
    KeysOk();
    match o {
    case RawRegisters(names) =>
      var list := ReadAll(names, ReadRegister, NameKey, REGISTERS_MAX);
      r := if list.None? then None else Some(Registers(list.value));
    case RawMemoryAddress(mref) =>
      r := if 0 <= mref <= EXACT_MAX then Some(MemoryAddress(mref)) else None;
    case RawMemoryValue(mref) =>
      r := if 0 <= mref <= EXACT_MAX then Some(MemoryValue(mref)) else None;
    case RawDelay(ns) =>
      r := if 1 <= ns <= UINT32_MAX then Some(Delay(ns)) else None;
    case RawOpcode => r := Some(Opcode);
    case RawTma => r := Some(Tma);
    case RawUnknown => r := None;
    }
    if r.Some? {
      ReadIsOk(o);
    }
  }

  /** What is read is what the merging loops rely on. */
  lemma {:induction false} ReadIsOk(o: RawObservation)
    requires ReadObservation(o).Some?
    ensures ObservationOk(ReadObservation(o).value)
  {
    KeysOk();
    if o.RawRegisters? {
      PlanFixed.ReadListSettled(Map(o.names, ReadRegister), NameKey, REGISTERS_MAX);
      IsInOrder(ReadList(Map(o.names, ReadRegister), NameKey, REGISTERS_MAX).value, NameKey);
      hide ReadList, ReadRegister, InOrder, NameKey, KeyOk;
    }
  }

  lemma {:induction false} MergedAreOk(obs: set<Observation>)
    requires Merge(obs).Some? && forall o :: o in obs ==> ObservationOk(o)
    ensures forall i :: 0 <= i < |Merge(obs).value| ==> ObservationOk(Merge(obs).value[i])
  {
    var list := Merge(obs).value;
    UnionInjective(obs);
    NamesInjective(RegistersIn(obs));
    forall i | 0 <= i < |list| ensures ObservationOk(list[i]) {
      assert list[i] in Elements(list);
      if list[i].Registers? {
        assert list[i] == Registers(InOrder(RegistersIn(obs), NameKey));
      }
    }
  }

  method ParsePoint(raw: RawPoint) returns (r: Option<Point>)
    ensures r == ReadPoint(raw)
    ensures r.Some? ==> PointRead(r.value)
  {
    hide Merge, ObservationOk, ReadObservation, IsText, BytesOk;
    var pc := ReadPc(raw.pc);
    if !IsText(raw.fn) || pc.None? || !BytesOk(raw.bytes) || raw.phase !in {"before", "after"}
       || raw.policy !in {"executed_lanes", "reached_lanes"} || raw.observations == [] || |raw.observations| > OBSERVATIONS_MAX {
      return None;
    }
    var incoming: seq<Observation> := [];
    for i := 0 to |raw.observations|
      invariant |incoming| == i
      invariant forall j :: 0 <= j < i ==> ReadObservation(raw.observations[j]) == Some(incoming[j]) && ObservationOk(incoming[j])
    {
      var o := ParseObservation(raw.observations[i]);
      if o.None? {
        OneUnread(raw.observations, ReadObservation, i);
        return None;
      }
      incoming := incoming + [o.value];
    }
    AllRead(raw.observations, ReadObservation, incoming);
    var merged := MergeObservations([], incoming);
    assert Elements([]) + Elements(incoming) == Elements(incoming) by { NoElements<Observation>([]); }
    if merged.None? {
      return None;
    }
    MergedAreOk(Elements(incoming));
    MergeIsFixed(Elements(incoming));
    r := Some(Point(raw.fn, pc.value, raw.bytes, raw.phase == "before", raw.policy == "executed_lanes", merged.value));
  }

  // ------------------------------------------------------------ configurations

  lemma ElementsSnoc<T>(s: seq<T>, x: T)
    ensures Elements(s + [x]) == Elements(s) + {x}
  {
  }

  /** Each point is counted, read and merged with what is there for its place; `count` runs on over the whole plan. */
  method ParsePoints(raws: seq<RawPoint>, before: nat) returns (r: Option<seq<Point>>, count: nat)
    requires raws != []
    ensures r.Some? <==>
              && before + |raws| <= POINTS_MAX && None !in Map(raws, ReadPoint)
              && PointsOf(Values(Map(raws, ReadPoint))).Some?
    ensures r.Some? ==> r == PointsOf(Values(Map(raws, ReadPoint))) && count == before + |raws|
  {
    hide PointKey, PointRead, MergedPoint, PointsFail, ReadPoint, PointsOf, Values, Elements, InOrder;
    var m: map<Key, Point> := map[];
    ghost var candidates: seq<Point> := [];
    count := before;
    NothingMerged();
    assert Elements(candidates) == {} by { NoElements(candidates); }
    for i := 0 to |raws|
      invariant count == before + i && (i > 0 ==> count <= POINTS_MAX)
      invariant |candidates| == i && forall j :: 0 <= j < i ==> ReadPoint(raws[j]) == Some(candidates[j])
      invariant Merges(m, Elements(candidates))
    {
      hide Merges;
      count := count + 1;
      if count > POINTS_MAX {
        return None, count;
      }
      var c := ParsePoint(raws[i]);
      if c.None? {
        OneUnread(raws, ReadPoint, i);
        return None, count;
      }
      var ok;
      ok, m := MergePoint(m, c.value, Elements(candidates));
      ElementsSnoc(candidates, c.value);
      candidates := candidates + [c.value];
      if !ok {
        SomeFail(raws, candidates);
        return None, count;
      }
    }
    AllRead(raws, ReadPoint, candidates);
    MergesGives(m, Elements(candidates));
    var sorted := Arrange(m.Values, PointKey);
    r := Some(sorted);
  }

  /** Points that conflict still conflict among more. */
  lemma {:induction false} SomeFail(raws: seq<RawPoint>, candidates: seq<Point>)
    requires |candidates| <= |raws| && forall j :: 0 <= j < |candidates| ==> ReadPoint(raws[j]) == Some(candidates[j])
    requires PointsFail(Elements(candidates))
    ensures PointsOf(Values(Map(raws, ReadPoint))).None?
  {
    var all := Map(raws, ReadPoint);
    hide ReadPoint, PointsFail;
    forall p | p in Elements(candidates) ensures p in Values(all) {
      var j :| 0 <= j < |candidates| && candidates[j] == p;
      assert all[j] == Some(p);
    }
    PointsFailStays(Elements(candidates), Values(all));
  }

  method ParseConfig(raw: RawConfig, before: nat) returns (r: Option<Config>, count: nat)
    ensures r.Some? <==> before + |raw.points| <= POINTS_MAX && ReadConfig(raw).Some?
    ensures r.Some? ==> r == ReadConfig(raw) && count == before + |raw.points|
  {
    hide ReadPoint, PointsOf, ReadList, ReadChoice, Values, IsText;
    KeysOk();
    r, count := None, before;
    if !IsText(raw.id) {
      return;
    }
    var requests := ReadAll(raw.requests, ReadText, Chars, ARRAY_MAX);
    var launches := ReadSelection(raw.launches, ReadInteger(0, EXACT_MAX), IntegerKey);
    var ctas := ReadSelection(raw.ctas, ReadTriple, TripleKey);
    var warps := ReadSelection(raw.warps, ReadInteger(0, EXACT_MAX), IntegerKey);
    var lanes := ReadSelection(raw.lanes, ReadInteger(0, 31), IntegerKey);
    if requests.None? || launches.None? || ctas.None? || warps.None? || lanes.None? {
      return;
    }
    if !(1 <= raw.maxRecords <= EXACT_MAX) || !(1 <= raw.maxBytes <= EXACT_MAX) || raw.points == [] || |raw.points| > POINTS_MAX {
      return;
    }
    var points;
    points, count := ParsePoints(raw.points, before);
    if points.Some? {
      r := Some(Config(raw.id, requests.value, launches.value, ctas.value, warps.value, lanes.value,
                       raw.maxRecords, raw.maxBytes, points.value));
    }
  }

  // ------------------------------------------------------------ kernels

  lemma {:induction false} SumSnoc(s: seq<nat>, n: nat)
    ensures Sum(s + [n]) == Sum(s) + n
  {
    SumTakenOut(s + [n], |s|);
    assert (s + [n])[..|s|] + (s + [n])[|s| + 1..] == s;
  }

  /** A first part never weighs more than the whole. */
  lemma {:induction false} SumOfFront<T(!new)>(items: seq<T>, weight: T -> nat, i: nat)
    requires i <= |items|
    ensures Sum(Map(items[..i], weight)) <= Sum(Map(items, weight))
    decreases |items| - i
  {
    if i < |items| {
      SumOfFront(items, weight, i + 1);
      SumOfMore(items, weight, i);
    } else {
      assert items[..i] == items;
    }
  }

  lemma {:induction false} SumOfMore<T(!new)>(items: seq<T>, weight: T -> nat, i: nat)
    requires i < |items|
    ensures Sum(Map(items[..i + 1], weight)) == Sum(Map(items[..i], weight)) + weight(items[i])
  {
    assert Map(items[..i + 1], weight) == Map(items[..i], weight) + [weight(items[i])];
    SumSnoc(Map(items[..i], weight), weight(items[i]));
  }

  /** Reads one kernel; both counts run on over the whole plan. */
  method ParseKernel(raw: RawKernel, configsBefore: nat, pointsBefore: nat)
    returns (r: Option<Kernel>, configCount: nat, pointCount: nat)
    ensures r.Some? <==>
              && configsBefore + ConfigCount(raw) <= CONFIGS_MAX && pointsBefore + PointCount(raw) <= POINTS_MAX
              && ReadKernel(raw).Some?
    ensures r.Some? ==>
              && Some(Load(r.value)) == ReadKernel(raw)
              && configCount == configsBefore + ConfigCount(raw) && pointCount == pointsBefore + PointCount(raw)
  {
    hide ReadConfig, IsText, TargetOk, ShaOk, Sum;
    r, configCount, pointCount := None, configsBefore, pointsBefore;
    if !IsText(raw.entry) || !TargetOk(raw.target) || !ShaOk(raw.sha) || raw.configs == [] || |raw.configs| > CONFIGS_MAX {
      return;
    }
    var configs: seq<Config> := [];
    assert Sum(Map(raw.configs[..0], RawPointCount)) == 0 by { NoSum(raw.configs); }
    for i := 0 to |raw.configs|
      invariant |configs| == i && forall j :: 0 <= j < i ==> ReadConfig(raw.configs[j]) == Some(configs[j])
      invariant configCount == configsBefore + i && (i > 0 ==> configCount <= CONFIGS_MAX)
      invariant pointCount == pointsBefore + Sum(Map(raw.configs[..i], RawPointCount)) && (i > 0 ==> pointCount <= POINTS_MAX)
    {
      configCount := configCount + 1;
      if configCount > CONFIGS_MAX {
        return;
      }
      SumOfMore(raw.configs, RawPointCount, i);
      SumOfFront(raw.configs, RawPointCount, i + 1);
      var c;
      c, pointCount := ParseConfig(raw.configs[i], pointCount);
      if c.None? {
        if ReadConfig(raw.configs[i]).None? {
          OneUnread(raw.configs, ReadConfig, i);
        }
        return;
      }
      configs := configs + [c.value];
    }
    assert raw.configs[..|raw.configs|] == raw.configs;
    AllRead(raw.configs, ReadConfig, configs);
    r := Some(Kernel(raw.entry, raw.target, raw.sha, configs));
  }

  lemma {:induction false} NoSum<T(!new)>(items: seq<T>)
    ensures forall weight: T -> nat :: Sum(Map(items[..0], weight)) == 0
  {
  }

  // ------------------------------------------------------------ records

  /** What has been read of the kernels so far. */
  ghost predicate SoFar(raws: seq<RawKernel>, kernels: seq<Kernel>, configCount: nat, pointCount: nat) {
    && |kernels| == |raws| && (forall j :: 0 <= j < |raws| ==> ReadKernel(raws[j]) == Some(Load(kernels[j])))
    && configCount == Sum(Map(raws, ConfigCount)) <= CONFIGS_MAX
    && pointCount == Sum(Map(raws, PointCount)) <= POINTS_MAX
  }

  /** No plan comes from kernels that begin with these. */
  ghost predicate Hopeless(raws: seq<RawKernel>) {
    || None in Map(raws, ReadKernel)
    || Sum(Map(raws, ConfigCount)) > CONFIGS_MAX || Sum(Map(raws, PointCount)) > POINTS_MAX
  }

  lemma {:induction false} StaysHopeless(raws: seq<RawKernel>, i: nat)
    requires i <= |raws| && Hopeless(raws[..i])
    ensures Hopeless(raws)
  {
    SumOfFront(raws, ConfigCount, i);
    SumOfFront(raws, PointCount, i);
    if None in Map(raws[..i], ReadKernel) {
      var j :| 0 <= j < i && Map(raws[..i], ReadKernel)[j] == None;
      assert raws[..i][j] == raws[j];
      OneUnread(raws, ReadKernel, j);
    }
    hide Sum, ReadKernel, ConfigCount, PointCount;
  }

  /** The next kernel, with both counts. */
  method NextKernel(raw: RawKernel, kernels: seq<Kernel>, configCount: nat, pointCount: nat, ghost raws: seq<RawKernel>)
    returns (ok: bool, k: seq<Kernel>, c: nat, p: nat)
    requires SoFar(raws, kernels, configCount, pointCount)
    ensures ok ==> SoFar(raws + [raw], k, c, p)
    ensures !ok ==> Hopeless(raws + [raw])
  {
    hide ReadKernel, ConfigCount, PointCount;
    var r;
    r, c, p := ParseKernel(raw, configCount, pointCount);
    ghost var all := raws + [raw];
    assert all[..|raws| + 1] == all && all[..|raws|] == raws;
    SumOfMore(all, ConfigCount, |raws|);
    SumOfMore(all, PointCount, |raws|);
    hide Sum;
    if r.None? {
      if ReadKernel(raw).None? {
        OneUnread(all, ReadKernel, |raws|);
      }
      return false, kernels, c, p;
    }
    return true, kernels + [r.value], c, p;
  }

  /** The kernels of one document. */
  method NextKernels(items: seq<RawKernel>, kernels: seq<Kernel>, configCount: nat, pointCount: nat, ghost raws: seq<RawKernel>)
    returns (ok: bool, k: seq<Kernel>, c: nat, p: nat)
    requires SoFar(raws, kernels, configCount, pointCount)
    ensures ok ==> SoFar(raws + items, k, c, p)
    ensures !ok ==> Hopeless(raws + items)
  {
    hide ReadKernel, Hopeless, SoFar;
    k, c, p := kernels, configCount, pointCount;
    assert raws + items[..0] == raws;
    for i := 0 to |items|
      invariant SoFar(raws + items[..i], k, c, p)
    {
      ok, k, c, p := NextKernel(items[i], k, c, p, raws + items[..i]);
      assert raws + items[..i + 1] == raws + items[..i] + [items[i]];
      if !ok {
        assert (raws + items)[..|raws| + i + 1] == raws + items[..i + 1];
        StaysHopeless(raws + items, |raws| + i + 1);
        return;
      }
    }
    assert raws + items[..|items|] == raws + items;
    ok := true;
  }

  lemma NothingSoFar()
    ensures SoFar([], [], 0, 0)
  {
    assert Map([], ConfigCount) == [] && Map([], PointCount) == [];
  }

  lemma {:induction false} AllSoFar(raws: seq<RawKernel>, kernels: seq<Kernel>, configCount: nat, pointCount: nat)
    requires SoFar(raws, kernels, configCount, pointCount)
    ensures !Hopeless(raws) && PlanNormalize.Loads(kernels) == Values(Map(raws, ReadKernel))
  {
    hide ReadKernel, Sum;
    var loads := Map(kernels, Load);
    AllRead(raws, ReadKernel, loads);
    forall l | l in PlanNormalize.Loads(kernels) ensures l in Elements(loads) {
      var j :| 0 <= j < |kernels| && Load(kernels[j]) == l;
      assert loads[j] == l;
    }
    forall l | l in Elements(loads) ensures l in PlanNormalize.Loads(kernels) {
      var j :| 0 <= j < |loads| && loads[j] == l;
      assert kernels[j] in kernels;
    }
  }

  function KernelsIn(r: Record): seq<RawKernel> {
    if r.Document? then r.kernels else [r.kernel]
  }

  ghost function Seen(records: seq<Record>): seq<RawKernel> {
    if records == [] then [] else Seen(records[..|records| - 1]) + KernelsIn(records[|records| - 1])
  }

  /** The record fits the first one, and a document stands alone. */
  predicate Fits(records: seq<Record>, i: nat)
    requires i < |records|
  {
    && records[i].id == records[0].id && records[i].policy == records[0].policy
    && (records[i].Document? ==> |records| == 1 && 0 < |records[i].kernels| <= KERNELS_MAX)
  }

  /** Records one after the other give the kernels of the whole. */
  lemma {:induction false} SeenInFront(records: seq<Record>, i: nat)
    requires Headed(records) && i <= |records|
    ensures |Seen(records[..i])| <= |KernelsOf(records)| && Seen(records[..i]) == KernelsOf(records)[..|Seen(records[..i])|]
    ensures i == |records| || !records[0].Document? ==> |Seen(records[..i])| == if records[0].Document? then |records[0].kernels| else i
  {
    hide IsText, ReadPolicy;
    if i > 0 {
      SeenInFront(records, i - 1);
      assert records[..i][..i - 1] == records[..i - 1] && records[..i][i - 1] == records[i - 1];
    }
  }

  lemma {:induction false} SeenAll(records: seq<Record>)
    requires Headed(records)
    ensures Seen(records) == KernelsOf(records)
  {
    SeenInFront(records, |records|);
    assert records[..|records|] == records;
    hide IsText, ReadPolicy, Seen;
  }

  /** What a failure among the first `i` records means for all of them. */
  lemma {:induction false} FailsEarly(records: seq<Record>, i: nat)
    requires i <= |records| && Hopeless(Seen(records[..i]))
    ensures Parse(records).None?
  {
    if Headed(records) {
      SeenInFront(records, i);
      StaysHopeless(KernelsOf(records), |Seen(records[..i])|);
    }
    hide Seen, Headed, ReadKernel, Normalize, Sum;
  }

  /** The whole plan; None where the program fails. */
  method ParsePlan(records: seq<Record>) returns (r: Option<Plan>)
    ensures r == Parse(records)
  {
    hide ReadKernel, Hopeless, SoFar, Normalize, IsText, ReadPolicy, Seen;
    if records == [] || |records| > KERNELS_MAX {
      return None;
    }
    var id, header, policy := "", records[0].policy, Policy(false, false);
    var kernels: seq<Kernel>, configCount, pointCount := [], 0, 0;
    NothingSoFar();
    SeenNothing();
    for i := 0 to |records|
      invariant forall j :: 0 <= j < i ==> Fits(records, j)
      invariant i == 0 ==> id == ""
      invariant i > 0 ==> id == records[0].id != "" && IsText(id) && header == records[0].policy && ReadPolicy(header) == Some(policy)
      invariant SoFar(Seen(records[..i]), kernels, configCount, pointCount)
    {
      var doc := records[i];
      if doc.Document? && (|records| != 1 || doc.kernels == [] || |doc.kernels| > KERNELS_MAX) {
        return None;
      }
      var candidate := ReadPolicy(doc.policy);
      if !IsText(doc.id) || candidate.None? {
        return None;
      }
      if id == "" {
        id, header, policy := doc.id, doc.policy, candidate.value;
      } else if id != doc.id || header != doc.policy {
        return None;
      }
      TextIsNotEmpty(doc.id);
      var ok;
      ok, kernels, configCount, pointCount := NextKernels(KernelsIn(doc), kernels, configCount, pointCount, Seen(records[..i]));
      SeenMore(records, i);
      if !ok {
        FailsEarly(records, i + 1);
        return None;
      }
    }
    assert records[..|records|] == records;
    AllFit(records);
    SeenAll(records);
    AllSoFar(Seen(records), kernels, configCount, pointCount);
    var normalized := PlanNormalize.NormalizeKernels(kernels);
    ReadsAll(records);
    r := if normalized.None? then None else Some(Plan(id, policy, normalized.value));
  }

  lemma {:induction false} AllFit(records: seq<Record>)
    requires 0 < |records| <= KERNELS_MAX && forall j :: 0 <= j < |records| ==> Fits(records, j)
    requires IsText(records[0].id) && ReadPolicy(records[0].policy).Some?
    ensures Headed(records)
  {
    forall j | 0 <= j < |records|
      ensures records[j].id == records[0].id && records[j].policy == records[0].policy
      ensures records[j].Document? ==> |records| == 1 && 0 < |records[j].kernels| <= KERNELS_MAX
    {
      assert Fits(records, j);
    }
  }

  lemma SeenNothing()
    ensures Seen([]) == []
  {
  }

  lemma {:induction false} SeenMore(records: seq<Record>, i: nat)
    requires i < |records|
    ensures Seen(records[..i + 1]) == Seen(records[..i]) + KernelsIn(records[i])
  {
    assert records[..i + 1][..i] == records[..i];
  }

  lemma TextIsNotEmpty(s: string)
    requires IsText(s)
    ensures s != ""
  {
  }

  lemma {:induction false} ReadsAll(records: seq<Record>)
    requires Headed(records) && !Hopeless(KernelsOf(records))
    ensures var list := Normalize(Values(Map(KernelsOf(records), ReadKernel)));
            Parse(records) == if list.None? then None else Some(Plan(records[0].id, ReadPolicy(records[0].policy).value, list.value))
  {
    hide ReadKernel, Normalize, Sum, KernelsOf, Values;
  }
}
