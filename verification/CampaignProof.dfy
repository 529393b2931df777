/** The manifest and the sessions of a campaign agree, and the budgets hold. */
module CampaignProof {
  import opened Sequences
  import opened PlanOrder
  import opened CampaignSpec

  // ------------------------------------------------------------ greedy admission

  ghost predicate Monotone<U(!new)>(fits: (U, Target) -> bool, add: (U, Target) -> U) {
    forall u, s, t :: fits(add(u, s), t) ==> fits(u, t)
  }

  lemma {:induction false} AdmittedIs<U(!new)>(targets: seq<Target>, start: U, fits: (U, Target) -> bool, add: (U, Target) -> U)
    ensures var a := Admitted(targets, start, fits, add);
            && |a| <= |targets|
            && (forall t :: t in a ==> t in targets)
            && (UniqueIds(targets) ==> UniqueIds(a))
            && (a == [] ==> Used(targets, start, fits, add) == start)
  {
    if targets != [] {
      var front, last := targets[..|targets| - 1], targets[|targets| - 1];
      AdmittedIs(front, start, fits, add);
      var a := Admitted(front, start, fits, add);
      forall t | t in a ensures t in targets {
        assert t in front;
      }
      if UniqueIds(targets) {
        forall i | 0 <= i < |a| ensures a[i].unitId != last.unitId {
          assert a[i] in a && a[i] in front;
          var j :| 0 <= j < |front| && front[j] == a[i];
          assert targets[j].unitId != targets[|targets| - 1].unitId;
        }
      }
    }
  }

  /** Nothing that was deferred would fit once everything else has been admitted. */
  lemma {:induction false} DeferredDoNotFit<U(!new)>(targets: seq<Target>, start: U,
                                                            fits: (U, Target) -> bool, add: (U, Target) -> U, t: Target)
    requires Monotone(fits, add) && t in targets && t !in Admitted(targets, start, fits, add)
    ensures !fits(Used(targets, start, fits, add), t)
  {
    var front, last := targets[..|targets| - 1], targets[|targets| - 1];
    assert targets == front + [last];
    if t in front {
      DeferredDoNotFit(front, start, fits, add, t);
    }
  }

  lemma RunMonotone(b: RunBudget)
    ensures Monotone(RunFits(b), RunAdd())
  {
    var fits, add := RunFits(b), RunAdd();
    forall u, s, t | fits(add(u, s), t) ensures fits(u, t) {
      assert add(u, s) == RunAddFor(u, s) && RunFitsFor(b, add(u, s), t) && fits(u, t) == RunFitsFor(b, u, t);
    }
  }

  lemma ResourceMonotone(b: ResourceBudget, estimates: map<string, Estimate>)
    ensures Monotone(ResourceFits(b, estimates), ResourceAdd(estimates))
  {
    var fits, add := ResourceFits(b, estimates), ResourceAdd(estimates);
    forall u, s, t | fits(add(u, s), t) ensures fits(u, t) {
      var e := EstimateOf(estimates, t);
      assert add(u, s) == ResourceAddFor(u, EstimateOf(estimates, s));
      assert ResourceFitsFor(b, e, add(u, s)) && fits(u, t) == ResourceFitsFor(b, e, u);
    }
  }

  function GpuSeconds(targets: seq<Target>): nat {
    if targets == [] then 0 else GpuSeconds(targets[..|targets| - 1]) + targets[|targets| - 1].gpuSeconds
  }

  lemma GpuSecondsMore(targets: seq<Target>, t: Target)
    ensures GpuSeconds(targets + [t]) == GpuSeconds(targets) + t.gpuSeconds
  {
    assert (targets + [t])[..|targets|] == targets;
  }

  /** The execution budget: at most so many runs and so many seconds, and no deferred target would still fit. */
  lemma {:induction false} RunBudgetHolds(targets: seq<Target>, b: RunBudget)
    ensures var a, u := Admitted(targets, NO_RUNS, RunFits(b), RunAdd()), Used(targets, NO_RUNS, RunFits(b), RunAdd());
            && u == RunUsage(|a|, GpuSeconds(a))
            && (b.maxRuns.Some? ==> |a| <= b.maxRuns.value)
            && (b.maxGpuSeconds.Some? ==> GpuSeconds(a) <= b.maxGpuSeconds.value)
  {
    hide RunFits, RunAdd, GpuSeconds;
    if targets == [] {
      assert GpuSeconds([]) == 0 by { NoGpuSeconds(); }
    } else {
      var front, last := targets[..|targets| - 1], targets[|targets| - 1];
      RunBudgetHolds(front, b);
      var a, u := Admitted(front, NO_RUNS, RunFits(b), RunAdd()), Used(front, NO_RUNS, RunFits(b), RunAdd());
      AtRun(b, u, last);
      GpuSecondsMore(a, last);
      assert a + [] == a;
    }
  }

  lemma NoGpuSeconds()
    ensures GpuSeconds([]) == 0
  {
  }

  function Estimated(targets: seq<Target>, estimates: map<string, Estimate>, start: ResourceUsage): ResourceUsage {
    if targets == [] then start
    else ResourceAdd(estimates)(Estimated(targets[..|targets| - 1], estimates, start), targets[|targets| - 1])
  }

  ghost predicate Within(b: ResourceBudget, u: ResourceUsage) {
    && (b.maxTokens.Some? ==> u.tokens <= b.maxTokens.value)
    && (b.maxBytes.Some? ==> u.bytes <= b.maxBytes.value)
    && (b.rate.Some? ==> u.submissions <= b.rate.value.maxSubmissions)
  }

  lemma FittingStaysWithin(b: ResourceBudget, e: Estimate, u: ResourceUsage)
    requires ResourceFitsFor(b, e, u)
    ensures Within(b, ResourceAddFor(u, e))
  {
  }

  lemma EstimatedMore(targets: seq<Target>, estimates: map<string, Estimate>, start: ResourceUsage, t: Target)
    ensures Estimated(targets + [t], estimates, start) == ResourceAddFor(Estimated(targets, estimates, start), EstimateOf(estimates, t))
  {
    assert (targets + [t])[..|targets|] == targets;
  }

  /** The resource budget, from what was used before: once anything is admitted, all of its limits hold. */
  lemma {:induction false} ResourceBudgetHolds(targets: seq<Target>, b: ResourceBudget, estimates: map<string, Estimate>,
                                               start: ResourceUsage)
    ensures var fits, add := ResourceFits(b, estimates), ResourceAdd(estimates);
            var a := Admitted(targets, start, fits, add);
            && Used(targets, start, fits, add) == Estimated(a, estimates, start)
            && (a != [] || Within(b, start) ==> Within(b, Estimated(a, estimates, start)))
  {
    hide Within, ResourceFitsFor, ResourceAddFor, EstimateOf, Estimated;
    var fits, add := ResourceFits(b, estimates), ResourceAdd(estimates);
    if targets == [] {
      EstimatedNone(estimates, start);
    } else {
      var front, last := targets[..|targets| - 1], targets[|targets| - 1];
      ResourceBudgetHolds(front, b, estimates, start);
      var a, u := Admitted(front, start, fits, add), Used(front, start, fits, add);
      assert fits(u, last) == ResourceFitsFor(b, EstimateOf(estimates, last), u);
      if fits(u, last) {
        EstimatedMore(a, estimates, start, last);
        FittingStaysWithin(b, EstimateOf(estimates, last), u);
        assert add(u, last) == ResourceAddFor(u, EstimateOf(estimates, last));
      } else {
        assert a + [] == a;
      }
    }
  }

  lemma EstimatedNone(estimates: map<string, Estimate>, start: ResourceUsage)
    ensures Estimated([], estimates, start) == start
  {
  }

  // ------------------------------------------------------------ dictionaries

  lemma {:induction false} UnitMapAt<V(!new)>(targets: seq<Target>, value: Target -> V, t: Target)
    requires UniqueIds(targets) && t in targets
    ensures t.unitId in UnitMap(targets, value) && UnitMap(targets, value)[t.unitId] == value(t)
  {
    var front, last := targets[..|targets| - 1], targets[|targets| - 1];
    assert targets == front + [last];
    if t != last {
      assert t in front;
      var j :| 0 <= j < |front| && front[j] == t;
      assert targets[j].unitId != targets[|targets| - 1].unitId;
      UnitMapAt(front, value, t);
    }
  }

  // ------------------------------------------------------------ cadence decisions

  /** One decision for each target and each tool. */
  lemma {:induction false} DecisionsAre(targets: seq<Target>, c: Config, h: History, d: CadenceDecision)
    ensures d in DecideAll(targets, c, h) <==>
            exists i, j :: 0 <= i < |targets| && 0 <= j < |c.cadences| && d == DecideTools(targets[i], c.cadences, c, h)[j]
  {
    if targets != [] {
      var front, last := targets[..|targets| - 1], targets[|targets| - 1];
      DecisionsAre(front, c, h, d);
      if d in DecideTools(last, c.cadences, c, h) {
        var j :| 0 <= j < |c.cadences| && DecideTools(last, c.cadences, c, h)[j] == d;
        assert d == DecideTools(targets[|targets| - 1], c.cadences, c, h)[j];
      }
      if i, j :| 0 <= i < |targets| && 0 <= j < |c.cadences| && d == DecideTools(targets[i], c.cadences, c, h)[j] {
        if i < |front| {
          assert d == DecideTools(front[i], c.cadences, c, h)[j];
        } else {
          assert d in DecideTools(last, c.cadences, c, h);
        }
      }
    }
  }

  ghost predicate UniquePairs(decisions: seq<CadenceDecision>) {
    forall d, e :: d in decisions && e in decisions && d.target.unitId == e.target.unitId && d.tool == e.tool ==> d == e
  }

  lemma DecisionsUnique(targets: seq<Target>, c: Config, h: History)
    requires UniqueIds(targets) && UniqueTools(c.cadences)
    ensures UniquePairs(DecideAll(targets, c, h))
  {
    var all := DecideAll(targets, c, h);
    forall d, e | d in all && e in all && d.target.unitId == e.target.unitId && d.tool == e.tool ensures d == e {
      DecisionsAre(targets, c, h, d);
      DecisionsAre(targets, c, h, e);
      var i, j :| 0 <= i < |targets| && 0 <= j < |c.cadences| && d == DecideTools(targets[i], c.cadences, c, h)[j];
      var k, l :| 0 <= k < |targets| && 0 <= l < |c.cadences| && e == DecideTools(targets[k], c.cadences, c, h)[l];
      assert i == k && j == l;
    }
  }

  lemma {:induction false} CadenceMapAt(decisions: seq<CadenceDecision>, d: CadenceDecision)
    requires UniquePairs(decisions) && d in decisions
    ensures (d.target.unitId, d.tool) in CadenceMap(decisions) && CadenceMap(decisions)[(d.target.unitId, d.tool)] == d.cadence
  {
    var front, last := decisions[..|decisions| - 1], decisions[|decisions| - 1];
    assert decisions == front + [last];
    if d != last {
      assert d in front && last in decisions;
      CadenceMapAt(front, d);
    }
  }

  ghost predicate IsDue(d: CadenceDecision, id: string, tool: Tool) {
    d.target.unitId == id && d.tool == tool && d.cadence.Due?
  }

  lemma {:induction false} DueToolsAre(decisions: seq<CadenceDecision>, id: string, tool: Tool)
    ensures tool in DueTools(decisions, id) <==> exists d :: d in decisions && IsDue(d, id, tool)
  {
    if decisions != [] {
      var front, last := decisions[..|decisions| - 1], decisions[|decisions| - 1];
      assert decisions == front + [last];
      DueToolsAre(front, id, tool);
      if tool in DueTools(front, id) {
        var d :| d in front && IsDue(d, id, tool);
        assert d in decisions;
      }
      if IsDue(last, id, tool) {
        assert last in decisions;
      }
    }
  }

  ghost predicate PairsDiffer(d: seq<CadenceDecision>) {
    forall i, j :: 0 <= i < j < |d| ==> d[i].target.unitId != d[j].target.unitId || d[i].tool != d[j].tool
  }

  /** No tool is due twice for one unit. */
  lemma {:induction false} DueToolsOnce(decisions: seq<CadenceDecision>, id: string)
    requires PairsDiffer(decisions)
    ensures Distinct(DueTools(decisions, id))
  {
    if decisions != [] {
      var front, last := decisions[..|decisions| - 1], decisions[|decisions| - 1];
      DueToolsOnce(front, id);
      if last.target.unitId == id && last.cadence.Due? {
        forall d | d in front ensures !IsDue(d, id, last.tool) {
          var i :| 0 <= i < |front| && front[i] == d;
          assert decisions[i] == d && decisions[|decisions| - 1] == last;
        }
        DueToolsAre(front, id, last.tool);
      }
    }
  }

  lemma {:induction false} DueTargetsFrom(decisions: seq<CadenceDecision>, t: Target) returns (d: CadenceDecision)
    requires t in DueTargets(decisions)
    ensures d in decisions && d.target == t && d.cadence.Due?
  {
    var front, last := decisions[..|decisions| - 1], decisions[|decisions| - 1];
    if t in DueTargets(front) {
      d := DueTargetsFrom(front, t);
      assert decisions == front + [last];
    } else {
      d := last;
    }
  }

  /** A due decision puts a target of its unit among the due ones. */
  lemma {:induction false} DueTargetsHave(decisions: seq<CadenceDecision>, d: CadenceDecision) returns (t: Target)
    requires d in decisions && d.cadence.Due?
    ensures t in DueTargets(decisions) && t.unitId == d.target.unitId
  {
    var front, last := decisions[..|decisions| - 1], decisions[|decisions| - 1];
    assert decisions == front + [last];
    var before := DueTargets(front);
    if d in front {
      t := DueTargetsHave(front, d);
    } else if i :| 0 <= i < |before| && before[i].unitId == d.target.unitId {
      t := before[i];
    } else {
      t := d.target;
    }
  }

  lemma {:induction false} DueTargetsOnce(decisions: seq<CadenceDecision>)
    ensures UniqueIds(DueTargets(decisions))
  {
    if decisions != [] {
      DueTargetsOnce(decisions[..|decisions| - 1]);
    }
  }

  // ------------------------------------------------------------ the gates

  lemma {:induction false} EnabledAre(targets: seq<Target>, t: Target)
    ensures t in Enabled(targets) <==> t in targets && t.enabled
  {
    if targets != [] {
      var front, last := targets[..|targets| - 1], targets[|targets| - 1];
      assert targets == front + [last];
      EnabledAre(front, t);
    }
  }

  /** Each gate passes only what the one before it passed. */
  ghost predicate GatesOk(g: Gates, c: Config, h: History) {
    && UniqueIds(g.active) && UniqueIds(g.inShard) && UniqueIds(g.due) && UniqueIds(g.running) && UniqueIds(g.admitted)
    && (forall t :: t in g.inShard <==> t in g.active && SampledHere(c, g.active, t))
    && g.decisions == DecideAll(g.inShard, c, h)
    && g.due == DueTargets(g.decisions)
    && (forall t :: t in g.running ==> t in g.due)
    && (forall t :: t in g.admitted ==> t in g.running)
    && UniqueTools(c.cadences)
  }

  lemma OrderedUnique(s: set<Target>)
    requires Injective(s, UnitKey)
    ensures UniqueIds(InOrder(s, UnitKey))
  {
    InOrderSorted(s, UnitKey);
    var r := InOrder(s, UnitKey);
    forall i, j | 0 <= i < j < |r| ensures r[i].unitId != r[j].unitId {
      BeforeIrreflexive(UnitKey(r[i]));
    }
  }

  lemma {:induction false} GatesAreOk(all: seq<Target>, revision: string, c: Config, h: History,
                                      estimates: map<string, Estimate>)
    requires GatesOf(all, revision, c, h, estimates).Some?
    ensures GatesOk(GatesOf(all, revision, c, h, estimates).value, c, h)
  {
    hide Admitted, DueTargets, DecideAll, Enabled, Consistent, UniqueIds, UniqueTools, SampledHere, Recent, CompletedInPast;
    var g := GatesOf(all, revision, c, h, estimates).value;
    HereInjective(c, g.active);
    OrderedUnique(Here(c, g.active));
    DueTargetsOnce(g.decisions);
    AdmittedIs(g.due, NO_RUNS, RunFits(c.runs), RunAdd());
    AdmittedIs(g.running, StartUsage(c, h), ResourceFits(c.resources, estimates), ResourceAdd(estimates));
    assert forall t :: t in g.inShard <==> t in Elements(g.inShard);
  }

  // ------------------------------------------------------------ outcomes

  /** What the gates say of a pair, in their order. */
  function Verdict(t: Target, k: ToolCadence, c: Config, h: History, g: Gates): Outcome {
    if !t.enabled then Disabled
    else if c.mode.Scheduled? && !Sampled(g.active, c.score, t) then SampledOut
    else if c.mode.Scheduled? && c.shard(t.unitId) != c.shardIndex then OtherShard
    else
      match CadenceOf(t, k, c.mode, c.asOf, LastRun(h, t, k.tool))
      case Inapplicable => NotApplicable
      case NotDue => NotDueOutcome
      case Due => if t in g.admitted then AdmittedOutcome else DeferredBudget
  }

  lemma DecisionOf(t: Target, j: nat, c: Config, h: History, g: Gates)
    requires GatesOk(g, c, h) && t in g.inShard && j < |c.cadences|
    ensures var k := c.cadences[j];
            var d := CadenceDecision(t, k.tool, CadenceOf(t, k, c.mode, c.asOf, LastRun(h, t, k.tool)));
            && d in g.decisions
            && (t.unitId, k.tool) in CadenceMap(g.decisions) && CadenceMap(g.decisions)[(t.unitId, k.tool)] == d.cadence
            && (d.cadence.Due? ==> t in g.due)
  {
    var k := c.cadences[j];
    var d := DecideTools(t, c.cadences, c, h)[j];
    var i :| 0 <= i < |g.inShard| && g.inShard[i] == t;
    DecisionsAre(g.inShard, c, h, d);
    DecisionsUnique(g.inShard, c, h);
    CadenceMapAt(g.decisions, d);
    hide CadenceMap, DecideAll;
    if d.cadence.Due? {
      DueInShard(t, d, c, h, g);
    }
  }

  lemma DueInShard(t: Target, d: CadenceDecision, c: Config, h: History, g: Gates)
    requires GatesOk(g, c, h) && t in g.inShard && d in g.decisions && d.target == t && d.cadence.Due?
    ensures t in g.due
  {
    var s := DueTargetsHave(g.decisions, d);
    DueWasInShard(s, c, h, g);
    SameUnit(g.inShard, s, t);
  }

  lemma DueWasInShard(t: Target, c: Config, h: History, g: Gates)
    requires GatesOk(g, c, h) && t in g.due
    ensures t in g.inShard
  {
    var d := DueTargetsFrom(g.decisions, t);
    DecisionsAre(g.inShard, c, h, d);
    var i, j :| 0 <= i < |g.inShard| && 0 <= j < |c.cadences| && d == DecideTools(g.inShard[i], c.cadences, c, h)[j];
    assert g.inShard[i] == t;
  }

  lemma SameUnit(targets: seq<Target>, s: Target, t: Target)
    requires UniqueIds(targets) && s in targets && t in targets && s.unitId == t.unitId
    ensures s == t
  {
  }

  /** What the tables say of a target that reached this shard. */
  lemma GatesTold(all: seq<Target>, t: Target, j: nat, c: Config, h: History, g: Gates)
    requires GatesOk(g, c, h) && t in all && t in g.inShard && j < |c.cadences|
    ensures var x, k := TablesOf(all, c, g), c.cadences[j];
            var cadence := CadenceOf(t, k, c.mode, c.asOf, LastRun(h, t, k.tool));
            && (t.unitId, k.tool) in x.cadence && x.cadence[(t.unitId, k.tool)] == cadence
            && (cadence.Due? ==> t.unitId in x.execution && x.execution[t.unitId] == (t in g.running))
            && (t in g.running ==> t.unitId in x.resources && x.resources[t.unitId] == (t in g.admitted))
            && (t in g.admitted ==> t in g.running)
  {
    hide CadenceOf, DecideAll, DueTargets, Sampled, SampledHere, ShardTable, UniqueTools, UnitMap, CadenceMap;
    DecisionOf(t, j, c, h, g);
    if t in g.due {
      UnitMapAt(g.due, (x: Target) => x in g.running, t);
    }
    if t in g.running {
      UnitMapAt(g.running, (x: Target) => x in g.admitted, t);
    }
  }

  /** What the tables say of an active target. */
  lemma SampleTold(all: seq<Target>, t: Target, c: Config, h: History, g: Gates)
    requires GatesOk(g, c, h) && t in all && t in g.active
    ensures var x := TablesOf(all, c, g);
            && t.unitId in x.sample && x.sample[t.unitId] == Sampled(g.active, c.score, t) && t.unitId in x.shards
            && (c.mode.OnDemand? || Sampled(g.active, c.score, t) ==> x.shards[t.unitId] == c.shard(t.unitId))
            && (t in g.inShard <==> SampledHere(c, g.active, t))
  {
    hide DecideAll, DueTargets, Sampled, SampledHere, ShardTable, UniqueTools, UnitMap, CadenceMap;
    UnitMapAt(g.active, (x: Target) => Sampled(g.active, c.score, x), t);
    ShardOf(all, t, c, g.active);
  }

  /** Every lookup succeeds, and the outcome is what the gates decided. */
  lemma {:induction false} OutcomeIsVerdict(all: seq<Target>, t: Target, j: nat, c: Config, h: History, g: Gates)
    requires GatesOk(g, c, h) && t in all && j < |c.cadences| && g.active == Enabled(all)
    ensures OutcomeOf(t, c.cadences[j].tool, c, TablesOf(all, c, g)) == Verdict(t, c.cadences[j], c, h, g)
  {
    hide GatesOk, Sampled, CadenceOf, Enabled, TablesOf;
    EnabledAre(all, t);
    if t.enabled {
      SampleTold(all, t, c, h, g);
      if SampledHere(c, g.active, t) {
        GatesTold(all, t, j, c, h, g);
      }
    }
  }

  lemma ShardOf(all: seq<Target>, t: Target, c: Config, active: seq<Target>)
    requires UniqueIds(active) && t in active && t in all
    ensures t.unitId in ShardTable(all, c, active)
    ensures c.mode.OnDemand? || Sampled(active, c.score, t) ==> ShardTable(all, c, active)[t.unitId] == c.shard(t.unitId)
  {
    hide Sampled;
    assert t in Elements(all) && t in Elements(active);
  }

  // ------------------------------------------------------------ the manifest

  /** Every target and every tool, once and in order. */
  lemma {:induction false} ItemsCover(all: seq<Target>, c: Config, x: Tables, i: nat, j: nat)
    requires i < |all| && j < |c.cadences|
    ensures |AllItems(all, c, x)| == |all| * |c.cadences|
    ensures 0 <= i * |c.cadences| + j < |AllItems(all, c, x)|
    ensures AllItems(all, c, x)[i * |c.cadences| + j] == Item(all[i], c.cadences[j].tool, OutcomeOf(all[i], c.cadences[j].tool, c, x))
  {
    var front, n := all[..|all| - 1], |c.cadences|;
    ItemCount(front, c, x);
    ItemCount(all, c, x);
    if i < |front| {
      ItemsCover(front, c, x, i, j);
    }
  }

  lemma {:induction false} ItemCount(all: seq<Target>, c: Config, x: Tables)
    ensures |AllItems(all, c, x)| == |all| * |c.cadences|
  {
    if all != [] {
      ItemCount(all[..|all| - 1], c, x);
      OneMore(|all|, |c.cadences|);
    }
  }

  lemma OneMore(m: nat, n: nat)
    requires m > 0
    ensures m * n == (m - 1) * n + n
  {
  }

  lemma {:induction false} ItemFrom(all: seq<Target>, c: Config, x: Tables, item: Item)
    requires item in AllItems(all, c, x)
    ensures item.target in all && exists j :: 0 <= j < |c.cadences| && item == ItemsOf(item.target, c.cadences, c, x)[j]
  {
    var front, last := all[..|all| - 1], all[|all| - 1];
    assert all == front + [last];
    if item in AllItems(front, c, x) {
      ItemFrom(front, c, x, item);
    } else {
      var j :| 0 <= j < |c.cadences| && ItemsOf(last, c.cadences, c, x)[j] == item;
    }
  }

  /** No outcome is a failed lookup, and the fallback for a pair without a cadence decision is never taken. */
  lemma {:induction false} LookupsSucceed(all: seq<Target>, revision: string, c: Config, h: History,
                                          estimates: map<string, Estimate>, item: Item)
    requires Plan(all, revision, c, h, estimates).Some? && item in Plan(all, revision, c, h, estimates).value.items
    ensures !item.outcome.Missing? && !item.outcome.NoCadence?
  {
    var g := GatesOf(all, revision, c, h, estimates).value;
    GatesAreOk(all, revision, c, h, estimates);
    hide GatesOf, TablesOf, AllItems, GatesOk;
    LookupSucceeds(all, c, h, g, item);
  }

  lemma LookupSucceeds(all: seq<Target>, c: Config, h: History, g: Gates, item: Item)
    requires GatesOk(g, c, h) && g.active == Enabled(all) && item in AllItems(all, c, TablesOf(all, c, g))
    ensures !item.outcome.Missing? && !item.outcome.NoCadence?
  {
    hide GatesOk, TablesOf, AllItems, OutcomeOf, Enabled, Sampled, CadenceOf;
    ItemFrom(all, c, TablesOf(all, c, g), item);
    var j :| 0 <= j < |c.cadences| && item == ItemsOf(item.target, c.cadences, c, TablesOf(all, c, g))[j];
    OutcomeIsVerdict(all, item.target, j, c, h, g);
  }

  /** The tools of a session, stress included. */
  ghost predicate HasTool(s: Session, tool: Tool) {
    if tool.RandomDelayStress? then s.stress else tool in s.sanitizers
  }

  lemma {:induction false} SanitizersAre(tools: seq<Tool>, tool: Tool)
    ensures tool in Sanitizers(tools) <==> tool in tools && !tool.RandomDelayStress?
  {
    if tools != [] {
      assert tools == tools[..|tools| - 1] + [tools[|tools| - 1]];
      SanitizersAre(tools[..|tools| - 1], tool);
    }
  }

  lemma {:induction false} SanitizersOnce(tools: seq<Tool>)
    requires Distinct(tools)
    ensures Distinct(Sanitizers(tools))
  {
    if tools != [] {
      var front, last := tools[..|tools| - 1], tools[|tools| - 1];
      SanitizersOnce(front);
      SanitizersAre(front, last);
      assert last !in front;
    }
  }

  /** The session of an admitted target runs exactly the tools whose pair has the outcome `admitted`. */
  lemma {:induction false} SessionTools(all: seq<Target>, t: Target, j: nat, c: Config, h: History, g: Gates)
    requires GatesOk(g, c, h) && t in g.admitted && t in all && j < |c.cadences| && g.active == Enabled(all)
    ensures HasTool(SessionOf(t, g.decisions), c.cadences[j].tool) <==> Verdict(t, c.cadences[j], c, h, g).AdmittedOutcome?
  {
    hide CadenceOf, DueTools, Sampled, Sanitizers, Enabled;
    var k := c.cadences[j];
    AdmittedWasHere(t, c, h, g);
    EnabledAre(all, t);
    DueToolIff(t, j, c, h, g);
    SanitizersAre(DueTools(g.decisions, t.unitId), k.tool);
    hide GatesOk;
  }

  /** A session runs nothing but due tools. */
  lemma ToolIsDue(t: Target, decisions: seq<CadenceDecision>, tool: Tool)
    ensures HasTool(SessionOf(t, decisions), tool) <==> tool in DueTools(decisions, t.unitId)
  {
    hide DueTools, Sanitizers;
    SanitizersAre(DueTools(decisions, t.unitId), tool);
  }

  lemma DueToolIff(t: Target, j: nat, c: Config, h: History, g: Gates)
    requires GatesOk(g, c, h) && t in g.inShard && j < |c.cadences|
    ensures var k := c.cadences[j];
            k.tool in DueTools(g.decisions, t.unitId) <==> CadenceOf(t, k, c.mode, c.asOf, LastRun(h, t, k.tool)).Due?
  {
    hide CadenceOf, DueTools, Sampled, CadenceMap;
    var k := c.cadences[j];
    DecisionOf(t, j, c, h, g);
    var d := CadenceDecision(t, k.tool, CadenceOf(t, k, c.mode, c.asOf, LastRun(h, t, k.tool)));
    DueToolsAre(g.decisions, t.unitId, k.tool);
    DecisionsUnique(g.inShard, c, h);
    hide DecideAll, DueTargets;
    assert d.cadence.Due? ==> IsDue(d, t.unitId, k.tool);
    assert forall e :: e in g.decisions && IsDue(e, t.unitId, k.tool) ==> e == d;
  }

  lemma AdmittedWasHere(t: Target, c: Config, h: History, g: Gates)
    requires GatesOk(g, c, h) && t in g.admitted
    ensures t in g.inShard && t in g.active && SampledHere(c, g.active, t)
  {
    assert t in g.running && t in g.due;
    DueWasInShard(t, c, h, g);
  }

  lemma ActiveAre(all: seq<Target>, revision: string, c: Config, h: History, estimates: map<string, Estimate>)
    requires GatesOf(all, revision, c, h, estimates).Some?
    ensures GatesOf(all, revision, c, h, estimates).value.active == Enabled(all)
  {
  }

  /** Manifest and sessions agree: a pair is `admitted` in the audit if and only if a session of that target runs the tool. */
  lemma {:induction false} ManifestAgrees(all: seq<Target>, revision: string, c: Config, h: History,
                                          estimates: map<string, Estimate>, i: nat, j: nat)
    requires Plan(all, revision, c, h, estimates).Some? && i < |all| && j < |c.cadences|
    ensures var m := Plan(all, revision, c, h, estimates).value;
            && 0 <= i * |c.cadences| + j < |m.items| == |all| * |c.cadences|
            && var item := m.items[i * |c.cadences| + j];
            && item.target == all[i] && item.tool == c.cadences[j].tool
            && (item.outcome.AdmittedOutcome? <==> exists s :: s in m.sessions && s.target == all[i] && HasTool(s, c.cadences[j].tool))
  {
    hide GatesOf, GatesOk, OutcomeOf, TablesOf, AllItems, Sessions, SessionOf, HasTool, Sampled, CadenceOf;
    var g := GatesOf(all, revision, c, h, estimates).value;
    GatesAreOk(all, revision, c, h, estimates);
    ActiveAre(all, revision, c, h, estimates);
    ItemsCover(all, c, TablesOf(all, c, g), i, j);
    OutcomeIsVerdict(all, all[i], j, c, h, g);
    RunsTool(g.admitted, g.decisions, all[i], c.cadences[j].tool);
    if all[i] in g.admitted {
      SessionTools(all, all[i], j, c, h, g);
    }
  }

  /** Each admitted target has one session. */
  lemma RunsTool(admitted: seq<Target>, decisions: seq<CadenceDecision>, t: Target, tool: Tool)
    ensures (exists s :: s in Sessions(admitted, decisions) && s.target == t && HasTool(s, tool)) <==>
            t in admitted && HasTool(SessionOf(t, decisions), tool)
  {
    hide SessionOf, HasTool;
    var sessions := Sessions(admitted, decisions);
    forall s | s in sessions && s.target == t ensures t in admitted && s == SessionOf(t, decisions) {
      var n :| 0 <= n < |sessions| && sessions[n] == s;
      SessionTarget(admitted[n], decisions);
    }
    if t in admitted {
      var n :| 0 <= n < |admitted| && admitted[n] == t;
      SessionTarget(t, decisions);
      assert sessions[n] == SessionOf(t, decisions);
    }
  }

  lemma SessionTarget(t: Target, decisions: seq<CadenceDecision>)
    ensures SessionOf(t, decisions).target == t
  {
  }

  /** The checks the program makes when it builds a session and the manifest can never fail. */
  lemma {:induction false} SessionsAreValid(all: seq<Target>, revision: string, c: Config, h: History,
                                            estimates: map<string, Estimate>, n: nat)
    requires Plan(all, revision, c, h, estimates).Some? && n < |Plan(all, revision, c, h, estimates).value.sessions|
    ensures var m := Plan(all, revision, c, h, estimates).value;
            && Distinct(m.sessions[n].sanitizers) && (m.sessions[n].sanitizers != [] || m.sessions[n].stress)
            && forall i :: 0 <= i < |m.sessions| && i != n ==> m.sessions[i].target.unitId != m.sessions[n].target.unitId
  {
    hide GatesOf, GatesOk, TablesOf, AllItems, SessionOf;
    var g := GatesOf(all, revision, c, h, estimates).value;
    GatesAreOk(all, revision, c, h, estimates);
    SessionValid(g.admitted[n], c, h, g);
    AdmittedOnce(c, h, g);
    forall i | 0 <= i < |g.admitted| ensures SessionOf(g.admitted[i], g.decisions).target == g.admitted[i] {
      SessionTarget(g.admitted[i], g.decisions);
    }
  }

  lemma AdmittedOnce(c: Config, h: History, g: Gates)
    requires GatesOk(g, c, h)
    ensures UniqueIds(g.admitted)
  {
  }

  lemma SessionValid(t: Target, c: Config, h: History, g: Gates)
    requires GatesOk(g, c, h) && t in g.admitted
    ensures var s := SessionOf(t, g.decisions); Distinct(s.sanitizers) && (s.sanitizers != [] || s.stress)
  {
    hide DecideAll, DueTargets, Sampled, UniqueIds, UniqueTools, SampledHere, DueTools, Sanitizers;
    assert t in g.running && t in g.due;
    var d := DueFor(t, c, h, g);
    assert IsDue(d, t.unitId, d.tool);
    DueToolsAre(g.decisions, t.unitId, d.tool);
    SanitizersAre(DueTools(g.decisions, t.unitId), d.tool);
    DueOnce(t, c, h, g);
    SanitizersOnce(DueTools(g.decisions, t.unitId));
  }

  lemma DueOnce(t: Target, c: Config, h: History, g: Gates)
    requires GatesOk(g, c, h)
    ensures Distinct(DueTools(g.decisions, t.unitId))
  {
    hide DueTools;
    DecisionPairs(g.inShard, c, h);
    DueToolsOnce(g.decisions, t.unitId);
  }

  lemma DueFor(t: Target, c: Config, h: History, g: Gates) returns (d: CadenceDecision)
    requires GatesOk(g, c, h) && t in g.due
    ensures d in g.decisions && d.target == t && d.cadence.Due?
  {
    d := DueTargetsFrom(g.decisions, t);
  }

  lemma {:induction false} DecisionPairs(targets: seq<Target>, c: Config, h: History)
    requires UniqueIds(targets) && UniqueTools(c.cadences)
    ensures PairsDiffer(DecideAll(targets, c, h))
  {
    if targets != [] {
      var front, last := targets[..|targets| - 1], targets[|targets| - 1];
      DecisionPairs(front, c, h);
      var d, n := DecideAll(targets, c, h), |DecideAll(front, c, h)|;
      forall i, j | 0 <= i < j < |d| ensures d[i].target.unitId != d[j].target.unitId || d[i].tool != d[j].tool {
        if j < n {
          assert d[i] == DecideAll(front, c, h)[i] && d[j] == DecideAll(front, c, h)[j];
        } else if n <= i {
          assert d[i] == DecideTools(last, c.cadences, c, h)[i - n] && d[j] == DecideTools(last, c.cadences, c, h)[j - n];
        } else {
          assert d[j] == DecideTools(last, c.cadences, c, h)[j - n];
          assert d[i] in DecideAll(front, c, h);
          DecisionsAre(front, c, h, d[i]);
          var k, l :| 0 <= k < |front| && 0 <= l < |c.cadences| && d[i] == DecideTools(front[k], c.cadences, c, h)[l];
          assert targets[k].unitId != targets[|targets| - 1].unitId;
        }
      }
    }
  }

  /** Both budgets hold, and neither deferred anything that would still fit in the end. */
  lemma {:induction false} BudgetsHold(all: seq<Target>, revision: string, c: Config, h: History,
                                       estimates: map<string, Estimate>)
    requires GatesOf(all, revision, c, h, estimates).Some?
    ensures var g := GatesOf(all, revision, c, h, estimates).value;
            var start := StartUsage(c, h);
            && (c.runs.maxRuns.Some? ==> |g.running| <= c.runs.maxRuns.value)
            && (c.runs.maxGpuSeconds.Some? ==> GpuSeconds(g.running) <= c.runs.maxGpuSeconds.value)
            && (g.admitted != [] || Within(c.resources, start) ==> Within(c.resources, Estimated(g.admitted, estimates, start)))
            && (forall t :: t in g.due && t !in g.running ==> !RunFits(c.runs)(RunUsage(|g.running|, GpuSeconds(g.running)), t))
            && (forall t :: t in g.running && t !in g.admitted ==>
                  !ResourceFits(c.resources, estimates)(Estimated(g.admitted, estimates, start), t))
  {
    var g, start := GatesOf(all, revision, c, h, estimates).value, StartUsage(c, h);
    RunBudgetHolds(g.due, c.runs);
    ResourceBudgetHolds(g.running, c.resources, estimates, start);
    RunMonotone(c.runs);
    ResourceMonotone(c.resources, estimates);
    hide GatesOf, RunFits, RunAdd, ResourceFits, ResourceAdd, StartUsage, Admitted, Used, Monotone;
    forall t | t in g.due && t !in g.running ensures !RunFits(c.runs)(RunUsage(|g.running|, GpuSeconds(g.running)), t) {
      DeferredDoNotFit(g.due, NO_RUNS, RunFits(c.runs), RunAdd(), t);
    }
    forall t | t in g.running && t !in g.admitted
      ensures !ResourceFits(c.resources, estimates)(Estimated(g.admitted, estimates, start), t)
    {
      DeferredDoNotFit(g.running, start, ResourceFits(c.resources, estimates), ResourceAdd(estimates), t);
    }
  }
}
