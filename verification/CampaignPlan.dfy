/** A whole campaign (python/cutracer/service/campaign_manifest.py): the gates one after the other, the dictionaries, the
    audit and the sessions. */
module CampaignPlan {
  import opened Sequences
  import opened PlanOrder
  import opened CampaignSpec
  import opened CampaignProof
  import opened Campaign

  // ------------------------------------------------------------ dictionaries by unit

  function MapOf(targets: seq<Target>, values: seq<bool>): map<string, bool>
    requires |values| == |targets|
  {
    if targets == [] then map[]
    else
      var n := |targets| - 1;
      MapOf(targets[..n], values[..n])[targets[n].unitId := values[n]]
  }

  lemma {:induction false} MapOfIs(targets: seq<Target>, values: seq<bool>, f: Target -> bool)
    requires |values| == |targets| && forall i :: 0 <= i < |targets| ==> values[i] == f(targets[i])
    ensures MapOf(targets, values) == UnitMap(targets, f)
  {
    if targets != [] {
      MapOfIs(targets[..|targets| - 1], values[..|targets| - 1], f);
    }
  }

  method ByUnit(targets: seq<Target>, values: seq<bool>) returns (m: map<string, bool>)
    requires |values| == |targets|
    ensures m == MapOf(targets, values)
  {
    m := map[];
    for i := 0 to |targets|
      invariant m == MapOf(targets[..i], values[..i])
    {
      assert targets[..i + 1][..i] == targets[..i] && values[..i + 1][..i] == values[..i];
      m := m[targets[i].unitId := values[i]];
    }
    assert targets[..|targets|] == targets && values[..|targets|] == values;
  }

  method ByPair(decisions: seq<CadenceDecision>) returns (m: map<(string, Tool), Cadence>)
    ensures m == CadenceMap(decisions)
  {
    m := map[];
    for i := 0 to |decisions|
      invariant m == CadenceMap(decisions[..i])
    {
      assert decisions[..i + 1][..i] == decisions[..i];
      m := m[(decisions[i].target.unitId, decisions[i].tool) := decisions[i].cadence];
    }
    assert decisions[..|decisions|] == decisions;
  }

  /** Every unit has -1, and then the sampled ones get their own shard. */
  method ShardsOf(all: seq<Target>, c: Config, active: seq<Target>) returns (m: map<string, int>)
    requires forall t :: t in active ==> t in all
    ensures m == ShardTable(all, c, active)
  {
    hide Sampled;
    m := map[];
    for i := 0 to |all|
      invariant forall id :: id in m <==> exists j :: 0 <= j < i && all[j].unitId == id
      invariant forall id :: id in m ==> m[id] == -1
    {
      m := m[all[i].unitId := -1];
    }
    for i := 0 to |active|
      invariant forall id :: id in m <==> exists j :: 0 <= j < |all| && all[j].unitId == id
      invariant forall id :: id in m ==> m[id] == if InShardMap(active[..i], c, active, id) then c.shard(id) else -1
    {
      assert active[..i + 1] == active[..i] + [active[i]];
      MoreInShardMap(active, i, c);
      if c.mode.OnDemand? || Sampled(active, c.score, active[i]) {
        assert active[i] in all;
        m := m[active[i].unitId := c.shard(active[i].unitId)];
      }
    }
    assert active[..|active|] == active;
    ShardTableAt(all, c, active, m);
  }

  ghost predicate InShardMap(some: seq<Target>, c: Config, active: seq<Target>, id: string) {
    exists i :: 0 <= i < |some| && some[i].unitId == id && (c.mode.OnDemand? || Sampled(active, c.score, some[i]))
  }

  lemma {:induction false} MoreInShardMap(active: seq<Target>, i: nat, c: Config)
    requires i < |active|
    ensures forall id :: InShardMap(active[..i + 1], c, active, id) <==>
                    InShardMap(active[..i], c, active, id)
                    || (active[i].unitId == id && (c.mode.OnDemand? || Sampled(active, c.score, active[i])))
  {
    hide Sampled;
    forall id
      ensures InShardMap(active[..i + 1], c, active, id) <==>
              InShardMap(active[..i], c, active, id)
              || (active[i].unitId == id && (c.mode.OnDemand? || Sampled(active, c.score, active[i])))
    {
      if InShardMap(active[..i], c, active, id) {
        var j :| 0 <= j < i && active[..i][j].unitId == id && (c.mode.OnDemand? || Sampled(active, c.score, active[..i][j]));
        assert active[..i + 1][j] == active[..i][j];
      }
      if active[i].unitId == id && (c.mode.OnDemand? || Sampled(active, c.score, active[i])) {
        assert active[..i + 1][i] == active[i];
      }
    }
  }

  lemma {:induction false} ShardTableAt(all: seq<Target>, c: Config, active: seq<Target>, m: map<string, int>)
    requires forall id :: id in m <==> exists j :: 0 <= j < |all| && all[j].unitId == id
    requires forall id :: id in m ==> m[id] == if InShardMap(active, c, active, id) then c.shard(id) else -1
    ensures m == ShardTable(all, c, active)
  {
    hide Sampled;
    var s := ShardTable(all, c, active);
    forall id ensures id in m <==> id in s {
      if id in m {
        var j :| 0 <= j < |all| && all[j].unitId == id;
        assert all[j] in Elements(all);
      }
      if id in s {
        assert id in (set t | t in Elements(all) :: t.unitId);
        var t :| t in Elements(all) && t.unitId == id;
        var j :| 0 <= j < |all| && all[j] == t;
      }
    }
    forall id | id in m ensures m[id] == s[id] {
      if InShardMap(active, c, active, id) {
        var i :| 0 <= i < |active| && active[i].unitId == id && (c.mode.OnDemand? || Sampled(active, c.score, active[i]));
        assert active[i] in Elements(active);
      }
    }
  }

  // ------------------------------------------------------------ the gates

  method SelectHere(c: Config, active: seq<Target>) returns (sorted: seq<Target>)
    requires UniqueIds(active)
    ensures Injective(Here(c, active), UnitKey) && sorted == InOrder(Here(c, active), UnitKey)
  {
    HereInjective(c, active);
    hide SampledHere, UniqueIds;
    var here: set<Target> := {};
    for i := 0 to |active|
      invariant here == set t | t in Elements(active[..i]) && SampledHere(c, active, t)
    {
      assert active[..i + 1] == active[..i] + [active[i]];
      assert Elements(active[..i + 1]) == Elements(active[..i]) + {active[i]};
      if SampledHere(c, active, active[i]) {
        here := here + {active[i]};
      }
    }
    assert active[..|active|] == active;
    assert here == Here(c, active);
    sorted := Arrange(here, UnitKey);
  }

  /** A decision admits its target if and only if it names no constraint. */
  lemma {:induction false} RunAdmits(targets: seq<Target>, decisions: seq<RunDecision>, i: nat)
    requires UniqueIds(targets) && |decisions| == |targets| && i < |targets|
    requires forall j :: 0 <= j < |targets| ==> decisions[j].target == targets[j]
    ensures targets[i] in RunsAdmitted(decisions) <==> decisions[i].constraints == []
  {
    var n := |targets| - 1;
    if i < n {
      RunAdmits(targets[..n], decisions[..n], i);
      assert targets[i] != targets[n];
    } else {
      RunsFrom(targets[..n], decisions[..n]);
      assert targets[n] !in targets[..n];
    }
  }

  lemma {:induction false} RunsFrom(targets: seq<Target>, decisions: seq<RunDecision>)
    requires |decisions| == |targets| && forall j :: 0 <= j < |targets| ==> decisions[j].target == targets[j]
    ensures forall t :: t in RunsAdmitted(decisions) ==> t in targets
  {
    if targets != [] {
      var n := |targets| - 1;
      RunsFrom(targets[..n], decisions[..n]);
      assert targets == targets[..n] + [targets[n]];
    }
  }

  lemma {:induction false} ResourceAdmits(targets: seq<Target>, decisions: seq<ResourceDecision>, i: nat)
    requires UniqueIds(targets) && |decisions| == |targets| && i < |targets|
    requires forall j :: 0 <= j < |targets| ==> decisions[j].target == targets[j]
    ensures targets[i] in ResourcesAdmitted(decisions) <==> decisions[i].constraints == []
  {
    var n := |targets| - 1;
    if i < n {
      ResourceAdmits(targets[..n], decisions[..n], i);
      assert targets[i] != targets[n];
    } else {
      ResourcesFrom(targets[..n], decisions[..n]);
      assert targets[n] !in targets[..n];
    }
  }

  lemma {:induction false} ResourcesFrom(targets: seq<Target>, decisions: seq<ResourceDecision>)
    requires |decisions| == |targets| && forall j :: 0 <= j < |targets| ==> decisions[j].target == targets[j]
    ensures forall t :: t in ResourcesAdmitted(decisions) ==> t in targets
  {
    if targets != [] {
      var n := |targets| - 1;
      ResourcesFrom(targets[..n], decisions[..n]);
      assert targets == targets[..n] + [targets[n]];
    }
  }

  method ExecutionTable(due: seq<Target>, decisions: seq<RunDecision>) returns (m: map<string, bool>)
    requires UniqueIds(due) && |decisions| == |due|
    requires forall j :: 0 <= j < |due| ==> decisions[j].target == due[j]
    ensures m == UnitMap(due, AmongThem(RunsAdmitted(decisions)))
  {
    var values := seq(|due|, i requires 0 <= i < |due| => decisions[i].constraints == []);
    m := ByUnit(due, values);
    forall i | 0 <= i < |due| ensures values[i] == AmongThem(RunsAdmitted(decisions))(due[i]) {
      RunAdmits(due, decisions, i);
    }
    MapOfIs(due, values, AmongThem(RunsAdmitted(decisions)));
  }

  method ResourceTable(running: seq<Target>, decisions: seq<ResourceDecision>) returns (m: map<string, bool>)
    requires UniqueIds(running) && |decisions| == |running|
    requires forall j :: 0 <= j < |running| ==> decisions[j].target == running[j]
    ensures m == UnitMap(running, AmongThem(ResourcesAdmitted(decisions)))
  {
    var values := seq(|running|, i requires 0 <= i < |running| => decisions[i].constraints == []);
    m := ByUnit(running, values);
    forall i | 0 <= i < |running| ensures values[i] == AmongThem(ResourcesAdmitted(decisions))(running[i]) {
      ResourceAdmits(running, decisions, i);
    }
    MapOfIs(running, values, AmongThem(ResourcesAdmitted(decisions)));
  }

  method SampleTable(active: seq<Target>, c: Config) returns (m: map<string, bool>)
    ensures m == UnitMap(active, SampledAmong(active, c))
  {
    var values := seq(|active|, i requires 0 <= i < |active| => Sampled(active, c.score, active[i]));
    m := ByUnit(active, values);
    MapOfIs(active, values, SampledAmong(active, c));
  }

  // ------------------------------------------------------------ the plan

  /** What the gates give once none of them has refused. */
  lemma {:induction false} GatesGive(all: seq<Target>, revision: string, c: Config, h: History, estimates: map<string, Estimate>, g: Gates)
    requires g.active == Enabled(all) && UniqueIds(g.active) && Consistent(g.active) && Revision(g.active, revision)
    requires UniqueTools(c.cadences)
    requires Injective(Here(c, g.active), UnitKey) && g.inShard == InOrder(Here(c, g.active), UnitKey)
    requires CompletedInPast(g.inShard, c, h)
    requires g.decisions == DecideAll(g.inShard, c, h) && g.due == DueTargets(g.decisions)
    requires g.running == Admitted(g.due, NO_RUNS, RunFits(c.runs), RunAdd())
    requires forall i :: 0 <= i < |g.running| ==> g.running[i].unitId in estimates
    requires c.resources.rate.Some? ==> forall i :: 0 <= i < |h.submittedAt| ==> h.submittedAt[i] <= c.asOf
    requires g.admitted == Admitted(g.running, StartUsage(c, h), ResourceFits(c.resources, estimates), ResourceAdd(estimates))
    ensures GatesOf(all, revision, c, h, estimates) == Some(g)
  {
    hide Enabled, UniqueIds, Consistent, Revision, UniqueTools, Here, CompletedInPast, DecideAll, DueTargets, Admitted, InOrder,
         RunFits, RunAdd, ResourceFits, ResourceAdd, StartUsage, Injective;
  }

  method PlanCampaign(all: seq<Target>, revision: string, c: Config, h: History, estimates: map<string, Estimate>)
    returns (r: Option<Manifest>)
    ensures r == Plan(all, revision, c, h, estimates)
  {
    hide Enabled, Consistent, Revision, Here, CompletedInPast, DecideAll, DueTargets, Admitted, Used, RunFits, RunAdd,
         ResourceFits, ResourceAdd, StartUsage, AllItems, UnitMap, CadenceMap, ShardTable, InOrder;
    var active := Enabled(all);
    if !UniqueIds(active) || !Consistent(active) || !Revision(active, revision) || !UniqueTools(c.cadences) {
      return None;
    }
    var inShard := SelectHere(c, active);
    OrderedUnique(Here(c, active));
    var decisions := PlanToolCadence(inShard, c, h);
    if decisions.None? {
      return None;
    }
    var due := CollectDue(decisions.value);
    DueTargetsOnce(decisions.value);
    var runs := ApplyCampaignBudget(due, c.runs);
    var running := RunsAdmitted(runs.value);
    AdmittedIs(due, NO_RUNS, RunFits(c.runs), RunAdd());
    var resources := ApplyResourceBudget(running, estimates, c, h);
    if resources.None? {
      return None;
    }
    var admitted := ResourcesAdmitted(resources.value);
    ghost var g := Gates(active, inShard, decisions.value, due, running, admitted);
    GatesGive(all, revision, c, h, estimates, g);
    var sample := SampleTable(active, c);
    forall t | t in active ensures t in all {
      EnabledAre(all, t);
    }
    var shards := ShardsOf(all, c, active);
    var cadence := ByPair(decisions.value);
    var execution := ExecutionTable(due, runs.value);
    var resourceTable := ResourceTable(running, resources.value);
    var items := ManifestItems(all, c, Tables(sample, shards, cadence, execution, resourceTable));
    var sessions := PlannedSessions(admitted, decisions.value);
    r := Some(Manifest(items, sessions));
  }

  /** The other half of the agreement: whatever tool a session runs, the audit has that pair as admitted. */
  lemma {:induction false} SessionsAreAudited(all: seq<Target>, revision: string, c: Config, h: History,
                                              estimates: map<string, Estimate>, s: Session, tool: Tool) returns (i: nat, j: nat)
    requires Plan(all, revision, c, h, estimates).Some? && s in Plan(all, revision, c, h, estimates).value.sessions
    requires HasTool(s, tool)
    ensures i < |all| && j < |c.cadences| && s.target == all[i] && c.cadences[j].tool == tool
    ensures var m := Plan(all, revision, c, h, estimates).value;
            && 0 <= i * |c.cadences| + j < |m.items|
            && m.items[i * |c.cadences| + j] == Item(all[i], tool, AdmittedOutcome)
  {
    hide GatesOf, GatesOk, TablesOf, AllItems, SessionOf, HasTool;
    var g, t := SessionSource(all, revision, c, h, estimates, s);
    i, j := SessionPair(all, g, c, h, t, tool);
    SessionTarget(t, g.decisions);
    ManifestAgrees(all, revision, c, h, estimates, i, j);
    hide Plan;
  }

  lemma {:induction false} SessionSource(all: seq<Target>, revision: string, c: Config, h: History,
                                         estimates: map<string, Estimate>, s: Session) returns (g: Gates, t: Target)
    requires Plan(all, revision, c, h, estimates).Some? && s in Plan(all, revision, c, h, estimates).value.sessions
    ensures GatesOk(g, c, h) && g.active == Enabled(all) && t in g.admitted && s == SessionOf(t, g.decisions)
  {
    g := GatesOf(all, revision, c, h, estimates).value;
    GatesAreOk(all, revision, c, h, estimates);
    ActiveAre(all, revision, c, h, estimates);
    hide GatesOf, GatesOk, TablesOf, AllItems, SessionOf;
    var sessions := Plan(all, revision, c, h, estimates).value.sessions;
    var n :| 0 <= n < |sessions| && sessions[n] == s;
    t := g.admitted[n];
  }

  lemma {:induction false} SessionPair(all: seq<Target>, g: Gates, c: Config, h: History, t: Target, tool: Tool)
    returns (i: nat, j: nat)
    requires GatesOk(g, c, h) && g.active == Enabled(all) && t in g.admitted && HasTool(SessionOf(t, g.decisions), tool)
    ensures i < |all| && all[i] == t && j < |c.cadences| && c.cadences[j].tool == tool
  {
    hide Enabled, DueTools, GatesOk, SampledHere, HasTool, SessionOf, DecideAll;
    AdmittedWasHere(t, c, h, g);
    EnabledAre(all, t);
    i :| 0 <= i < |all| && all[i] == t;
    ToolIsDue(t, g.decisions, tool);
    DueToolsAre(g.decisions, t.unitId, tool);
    var d :| d in g.decisions && IsDue(d, t.unitId, tool);
    j := DecidedCadence(g, c, h, d);
  }

  lemma DecidedCadence(g: Gates, c: Config, h: History, d: CadenceDecision) returns (j: nat)
    requires GatesOk(g, c, h) && d in g.decisions
    ensures j < |c.cadences| && c.cadences[j].tool == d.tool
  {
    hide DecideAll, DueTargets, UniqueIds, UniqueTools, CadenceOf, SampledHere;
    DecisionsAre(g.inShard, c, h, d);
    var k, l :| 0 <= k < |g.inShard| && 0 <= l < |c.cadences| && d == DecideTools(g.inShard[k], c.cadences, c, h)[l];
    j := l;
  }
}
