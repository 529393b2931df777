/** The loops of campaign planning (python/cutracer/service/campaign.py, campaign_budget.py, campaign_manifest.py). */
module Campaign {
  import opened Sequences
  import opened CampaignSpec

  datatype RunConstraint = RunCap | GpuSecondsCap

  datatype RunDecision = RunDecision(target: Target, constraints: seq<RunConstraint>, runs: nat, gpuSeconds: nat)

  function RunsAdmitted(decisions: seq<RunDecision>): seq<Target> {
    if decisions == [] then []
    else
      var d := decisions[|decisions| - 1];
      RunsAdmitted(decisions[..|decisions| - 1]) + (if d.constraints == [] then [d.target] else [])
  }

  method RunConstraints(t: Target, b: RunBudget, u: RunUsage) returns (r: seq<RunConstraint>)
    ensures RunCap in r <==> b.maxRuns.Some? && u.runs >= b.maxRuns.value
    ensures GpuSecondsCap in r <==> b.maxGpuSeconds.Some? && u.gpuSeconds + t.gpuSeconds > b.maxGpuSeconds.value
    ensures r == [] <==> RunFitsFor(b, u, t)
  {
    r := [];
    if b.maxRuns.Some? && u.runs >= b.maxRuns.value {
      r := r + [RunCap];
    }
    if b.maxGpuSeconds.Some? && u.gpuSeconds + t.gpuSeconds > b.maxGpuSeconds.value {
      r := r + [GpuSecondsCap];
    }
  }

  /** One more target is admitted, or leaves everything as it is. */
  lemma OneMore<U(!new)>(targets: seq<Target>, i: nat, start: U, fits: (U, Target) -> bool, add: (U, Target) -> U)
    requires i < |targets|
    ensures var u := Used(targets[..i], start, fits, add);
            && Used(targets[..i + 1], start, fits, add) == (if fits(u, targets[i]) then add(u, targets[i]) else u)
            && Admitted(targets[..i + 1], start, fits, add)
               == Admitted(targets[..i], start, fits, add) + (if fits(u, targets[i]) then [targets[i]] else [])
  {
    assert targets[..i + 1][..i] == targets[..i];
  }

  lemma NoneYet<U(!new)>(start: U, fits: (U, Target) -> bool, add: (U, Target) -> U)
    ensures Used([], start, fits, add) == start && Admitted([], start, fits, add) == []
  {
  }

  lemma NoRuns()
    ensures RunsAdmitted([]) == []
  {
  }

  lemma OneMoreRun(decisions: seq<RunDecision>, d: RunDecision)
    ensures RunsAdmitted(decisions + [d]) == RunsAdmitted(decisions) + (if d.constraints == [] then [d.target] else [])
  {
    assert (decisions + [d])[..|decisions|] == decisions;
  }

  /** Each decision is about its own target, with what is used once it is made. */
  ghost predicate RunLog(decisions: seq<RunDecision>, targets: seq<Target>, b: RunBudget) {
    && |decisions| <= |targets|
    && forall j :: 0 <= j < |decisions| ==>
         && decisions[j].target == targets[j]
         && RunUsage(decisions[j].runs, decisions[j].gpuSeconds) == Used(targets[..j + 1], NO_RUNS, RunFits(b), RunAdd())
  }

  lemma RunLogMore(decisions: seq<RunDecision>, targets: seq<Target>, b: RunBudget, d: RunDecision)
    requires RunLog(decisions, targets, b) && |decisions| < |targets| && d.target == targets[|decisions|]
    requires RunUsage(d.runs, d.gpuSeconds) == Used(targets[..|decisions| + 1], NO_RUNS, RunFits(b), RunAdd())
    ensures RunLog(decisions + [d], targets, b)
  {
    hide Used, RunFits, RunAdd;
  }

  /** The execution budget, target by target in the given order. */
  method ApplyCampaignBudget(targets: seq<Target>, b: RunBudget) returns (r: Option<seq<RunDecision>>)
    ensures r.Some? <==> UniqueIds(targets)
    ensures r.Some? ==>
              && |r.value| == |targets| && RunsAdmitted(r.value) == Admitted(targets, NO_RUNS, RunFits(b), RunAdd())
              && forall i :: 0 <= i < |targets| ==>
                   r.value[i].target == targets[i]
                   && RunUsage(r.value[i].runs, r.value[i].gpuSeconds) == Used(targets[..i + 1], NO_RUNS, RunFits(b), RunAdd())
  {
    if !UniqueIds(targets) {
      return None;
    }
    hide RunFits, RunAdd, Used, Admitted, RunFitsFor, RunsAdmitted;
    var decisions: seq<RunDecision> := [];
    var u := NO_RUNS;
    NoneYet(NO_RUNS, RunFits(b), RunAdd());
    NoRuns();
    for i := 0 to |targets|
      invariant |decisions| == i && u == Used(targets[..i], NO_RUNS, RunFits(b), RunAdd())
      invariant RunsAdmitted(decisions) == Admitted(targets[..i], NO_RUNS, RunFits(b), RunAdd())
      invariant RunLog(decisions, targets, b)
    {
      hide RunLog, UniqueIds;
      var constraints := RunConstraints(targets[i], b, u);
      OneMore(targets, i, NO_RUNS, RunFits(b), RunAdd());
      AtRun(b, u, targets[i]);
      if constraints == [] {
        u := RunUsage(u.runs + 1, u.gpuSeconds + targets[i].gpuSeconds);
      }
      var d := RunDecision(targets[i], constraints, u.runs, u.gpuSeconds);
      OneMoreRun(decisions, d);
      RunLogMore(decisions, targets, b, d);
      decisions := decisions + [d];
    }
    assert targets[..|targets|] == targets;
    r := Some(decisions);
  }

  datatype ResourceConstraint = ReasoningTokens | ArtifactBytes | SubmissionRate

  datatype ResourceDecision = ResourceDecision(target: Target, constraints: seq<ResourceConstraint>, usage: ResourceUsage)

  function ResourcesAdmitted(decisions: seq<ResourceDecision>): seq<Target> {
    if decisions == [] then []
    else
      var d := decisions[|decisions| - 1];
      ResourcesAdmitted(decisions[..|decisions| - 1]) + (if d.constraints == [] then [d.target] else [])
  }

  method ResourceConstraints(b: ResourceBudget, e: Estimate, u: ResourceUsage) returns (r: seq<ResourceConstraint>)
    ensures ReasoningTokens in r <==> b.maxTokens.Some? && u.tokens + e.tokens > b.maxTokens.value
    ensures ArtifactBytes in r <==> b.maxBytes.Some? && u.bytes + e.bytes > b.maxBytes.value
    ensures SubmissionRate in r <==> b.rate.Some? && u.submissions + e.submissions > b.rate.value.maxSubmissions
    ensures r == [] <==> ResourceFitsFor(b, e, u)
  {
    r := [];
    if b.maxTokens.Some? && u.tokens + e.tokens > b.maxTokens.value {
      r := r + [ReasoningTokens];
    }
    if b.maxBytes.Some? && u.bytes + e.bytes > b.maxBytes.value {
      r := r + [ArtifactBytes];
    }
    if b.rate.Some? && u.submissions + e.submissions > b.rate.value.maxSubmissions {
      r := r + [SubmissionRate];
    }
  }

  method CountRecent(rate: Option<Rate>, asOf: int, submittedAt: seq<int>) returns (r: Option<nat>)
    ensures r.None? <==> rate.Some? && exists i :: 0 <= i < |submittedAt| && submittedAt[i] > asOf
    ensures r.Some? ==> r.value == Recent(rate, asOf, submittedAt)
  {
    if rate.None? {
      return Some(0);
    }
    var n := 0;
    for i := 0 to |submittedAt|
      invariant forall j :: 0 <= j < i ==> submittedAt[j] <= asOf
      invariant n == Recent(rate, asOf, submittedAt[..i])
    {
      assert submittedAt[..i + 1][..i] == submittedAt[..i];
      if submittedAt[i] > asOf {
        return None;
      }
      if submittedAt[i] > asOf - rate.value.windowSeconds {
        n := n + 1;
      }
    }
    assert submittedAt[..|submittedAt|] == submittedAt;
    r := Some(n);
  }

  lemma AtEstimate(b: ResourceBudget, estimates: map<string, Estimate>, u: ResourceUsage, t: Target)
    requires t.unitId in estimates
    ensures ResourceFits(b, estimates)(u, t) == ResourceFitsFor(b, estimates[t.unitId], u)
    ensures ResourceAdd(estimates)(u, t) == ResourceAddFor(u, estimates[t.unitId])
  {
  }

  lemma NoResources()
    ensures ResourcesAdmitted([]) == []
  {
  }

  lemma OneMoreResource(decisions: seq<ResourceDecision>, d: ResourceDecision)
    ensures ResourcesAdmitted(decisions + [d]) == ResourcesAdmitted(decisions) + (if d.constraints == [] then [d.target] else [])
  {
    assert (decisions + [d])[..|decisions|] == decisions;
  }

  ghost predicate ResourceLog(decisions: seq<ResourceDecision>, targets: seq<Target>, start: ResourceUsage,
                              fits: (ResourceUsage, Target) -> bool, add: (ResourceUsage, Target) -> ResourceUsage) {
    && |decisions| <= |targets|
    && forall j :: 0 <= j < |decisions| ==>
         decisions[j].target == targets[j] && decisions[j].usage == Used(targets[..j + 1], start, fits, add)
  }

  lemma ResourceLogMore(decisions: seq<ResourceDecision>, targets: seq<Target>, start: ResourceUsage,
                        fits: (ResourceUsage, Target) -> bool, add: (ResourceUsage, Target) -> ResourceUsage, d: ResourceDecision)
    requires ResourceLog(decisions, targets, start, fits, add) && |decisions| < |targets| && d.target == targets[|decisions|]
    requires d.usage == Used(targets[..|decisions| + 1], start, fits, add)
    ensures ResourceLog(decisions + [d], targets, start, fits, add)
  {
    hide Used;
  }

  /** The resource budget, from what was used before. */
  method ApplyResourceBudget(targets: seq<Target>, estimates: map<string, Estimate>, c: Config, h: History)
    returns (r: Option<seq<ResourceDecision>>)
    ensures r.Some? <==>
              && UniqueIds(targets) && (forall i :: 0 <= i < |targets| ==> targets[i].unitId in estimates)
              && (c.resources.rate.Some? ==> forall i :: 0 <= i < |h.submittedAt| ==> h.submittedAt[i] <= c.asOf)
    ensures r.Some? ==>
              var fits, add := ResourceFits(c.resources, estimates), ResourceAdd(estimates);
              && |r.value| == |targets| && ResourcesAdmitted(r.value) == Admitted(targets, StartUsage(c, h), fits, add)
              && forall i :: 0 <= i < |targets| ==>
                   r.value[i].target == targets[i] && r.value[i].usage == Used(targets[..i + 1], StartUsage(c, h), fits, add)
  {
    if !UniqueIds(targets) || exists i :: 0 <= i < |targets| && targets[i].unitId !in estimates {
      return None;
    }
    var recent := CountRecent(c.resources.rate, c.asOf, h.submittedAt);
    if recent.None? {
      return None;
    }
    hide Recent, EstimateOf, ResourceFitsFor, ResourceAddFor, ResourceFits, ResourceAdd, Used, Admitted, ResourcesAdmitted;
    ghost var fits, add := ResourceFits(c.resources, estimates), ResourceAdd(estimates);
    var u := ResourceUsage(h.tokens, h.bytes, recent.value);
    ghost var start := u;
    assert start == StartUsage(c, h);
    NoneYet(start, fits, add);
    NoResources();
    var decisions: seq<ResourceDecision> := [];
    for i := 0 to |targets|
      invariant |decisions| == i && u == Used(targets[..i], start, fits, add)
      invariant ResourcesAdmitted(decisions) == Admitted(targets[..i], start, fits, add)
      invariant ResourceLog(decisions, targets, start, fits, add)
    {
      hide ResourceLog, UniqueIds;
      var e := estimates[targets[i].unitId];
      var constraints := ResourceConstraints(c.resources, e, u);
      OneMore(targets, i, start, fits, add);
      AtEstimate(c.resources, estimates, u, targets[i]);
      if constraints == [] {
        u := ResourceAddFor(u, e);
      }
      var d := ResourceDecision(targets[i], constraints, u);
      OneMoreResource(decisions, d);
      ResourceLogMore(decisions, targets, start, fits, add, d);
      decisions := decisions + [d];
    }
    assert targets[..|targets|] == targets;
    r := Some(decisions);
  }

  /** Every target with every tool, in the order of the units. */
  method PlanToolCadence(sorted: seq<Target>, c: Config, h: History) returns (r: Option<seq<CadenceDecision>>)
    ensures r.Some? <==> UniqueIds(sorted) && UniqueTools(c.cadences) && CompletedInPast(sorted, c, h)
    ensures r.Some? ==> r.value == DecideAll(sorted, c, h)
  {
    if !UniqueIds(sorted) || !UniqueTools(c.cadences) {
      return None;
    }
    hide CadenceOf;
    var decisions: seq<CadenceDecision> := [];
    for i := 0 to |sorted|
      invariant decisions == DecideAll(sorted[..i], c, h) && CompletedInPast(sorted[..i], c, h)
    {
      var t := sorted[i];
      ghost var before := decisions;
      for j := 0 to |c.cadences|
        invariant decisions == before + DecideTools(t, c.cadences, c, h)[..j]
        invariant forall k :: 0 <= k < j && LastRun(h, t, c.cadences[k].tool).Some? ==> LastRun(h, t, c.cadences[k].tool).value <= c.asOf
      {
        var k := c.cadences[j];
        var last := LastRun(h, t, k.tool);
        if last.Some? && last.value > c.asOf {
          return None;
        }
        decisions := decisions + [CadenceDecision(t, k.tool, CadenceOf(t, k, c.mode, c.asOf, last))];
      }
      assert sorted[..i + 1] == sorted[..i] + [t] && (sorted[..i] + [t])[..i] == sorted[..i];
    }
    assert sorted[..|sorted|] == sorted;
    r := Some(decisions);
  }

  /** The first due decision of a unit brings its target. */
  method CollectDue(decisions: seq<CadenceDecision>) returns (due: seq<Target>)
    ensures due == DueTargets(decisions)
  {
    due := [];
    var units: set<string> := {};
    for i := 0 to |decisions|
      invariant due == DueTargets(decisions[..i])
      invariant forall u :: u in units <==> exists k :: 0 <= k < |due| && due[k].unitId == u
    {
      assert decisions[..i + 1][..i] == decisions[..i];
      var d := decisions[i];
      if d.cadence.Due? && d.target.unitId !in units {
        ghost var before := due;
        due := due + [d.target];
        units := units + {d.target.unitId};
        assert due[|before|].unitId == d.target.unitId;
        assert forall k :: 0 <= k < |before| ==> due[k] == before[k];
      }
    }
    assert decisions[..|decisions|] == decisions;
  }

  /** Every target, then every tool. */
  method ManifestItems(all: seq<Target>, c: Config, x: Tables) returns (items: seq<Item>)
    ensures items == AllItems(all, c, x)
  {
    hide OutcomeOf;
    items := [];
    for i := 0 to |all|
      invariant items == AllItems(all[..i], c, x)
    {
      ghost var before := items;
      for j := 0 to |c.cadences|
        invariant items == before + ItemsOf(all[i], c.cadences, c, x)[..j]
      {
        items := items + [Item(all[i], c.cadences[j].tool, OutcomeOf(all[i], c.cadences[j].tool, c, x))];
      }
      assert all[..i + 1] == all[..i] + [all[i]] && (all[..i] + [all[i]])[..i] == all[..i];
    }
    assert all[..|all|] == all;
  }

  method SanitizersOf(tools: seq<Tool>) returns (sanitizers: seq<Tool>)
    ensures sanitizers == Sanitizers(tools)
  {
    sanitizers := [];
    for j := 0 to |tools|
      invariant sanitizers == Sanitizers(tools[..j])
    {
      assert tools[..j + 1][..j] == tools[..j];
      if !tools[j].RandomDelayStress? {
        sanitizers := sanitizers + [tools[j]];
      }
    }
    assert tools[..|tools|] == tools;
  }

  method PlannedSessions(admitted: seq<Target>, decisions: seq<CadenceDecision>) returns (sessions: seq<Session>)
    ensures sessions == Sessions(admitted, decisions)
  {
    hide DueTools, Sanitizers;
    sessions := [];
    for i := 0 to |admitted|
      invariant |sessions| == i && forall j :: 0 <= j < i ==> sessions[j] == SessionOf(admitted[j], decisions)
    {
      var tools := DueTools(decisions, admitted[i].unitId);
      var sanitizers := SanitizersOf(tools);
      sessions := sessions + [Session(admitted[i], sanitizers, RandomDelayStress in tools)];
    }
  }
}
