/** Planning a diagnosis campaign (python/cutracer/service/campaign_manifest.py, campaign.py, campaign_budget.py).

    Times are instants with a time zone.  The sampling score and the shard of a unit are arbitrary functions.  None is a
    ValueError, and `Missing` a failed dictionary lookup. */
module CampaignSpec {
  import opened Sequences
  import opened PlanOrder
  import opened PlanMerge

  datatype Tool = Memcheck | Racecheck | Initcheck | Synccheck | RandomDelayStress

  datatype Sampling = Sampling(maxSelected: Option<nat>, seed: string)

  datatype Target = Target(unitId: string, entryId: string, selector: nat, testId: string, revision: string, sampling: Sampling,
                           enabled: bool, cadenceDays: nat, gpuSeconds: nat, hasOracle: bool)

  datatype Mode = Scheduled | OnDemand

  datatype ToolCadence = ToolCadence(tool: Tool, days: nat)

  datatype RunBudget = RunBudget(maxRuns: Option<nat>, maxGpuSeconds: Option<nat>)

  datatype Rate = Rate(maxSubmissions: nat, windowSeconds: nat)

  datatype ResourceBudget = ResourceBudget(maxTokens: Option<nat>, maxBytes: Option<nat>, rate: Option<Rate>)

  datatype Estimate = Estimate(tokens: nat, bytes: nat, submissions: nat)

  /** `score` orders the selectors of an entry; `shard` gives the shard of a unit. */
  datatype Config = Config(mode: Mode, asOf: int, shardIndex: nat, shard: string -> nat, score: Target -> Key,
                           cadences: seq<ToolCadence>, runs: RunBudget, resources: ResourceBudget)

  /** What has been run and used before. */
  datatype History = History(lastCompleted: map<(string, Tool), int>, submittedAt: seq<int>, tokens: nat, bytes: nat)

  const SECONDS_PER_DAY := 86400

  predicate UniqueIds(targets: seq<Target>) {
    forall i, j :: 0 <= i < j < |targets| ==> targets[i].unitId != targets[j].unitId
  }

  function UnitKey(t: Target): Key { Chars(t.unitId) }

  function Enabled(targets: seq<Target>): seq<Target> {
    if targets == [] then []
    else Enabled(targets[..|targets| - 1]) + (if targets[|targets| - 1].enabled then [targets[|targets| - 1]] else [])
  }

  // ------------------------------------------------------------ sampling

  /** One policy for each entry, and one test for each selector of it. */
  predicate Consistent(targets: seq<Target>) {
    forall i, j :: 0 <= i < |targets| && 0 <= j < |targets| && targets[i].entryId == targets[j].entryId ==>
      targets[i].sampling == targets[j].sampling && (targets[i].selector == targets[j].selector ==> targets[i].testId == targets[j].testId)
  }

  function Representative(targets: seq<Target>, entry: string, selector: nat): Option<Target> {
    if targets == [] then None
    else if targets[0].entryId == entry && targets[0].selector == selector then Some(targets[0])
    else Representative(targets[1..], entry, selector)
  }

  function Selectors(targets: seq<Target>, entry: string): set<nat> {
    set i | 0 <= i < |targets| && targets[i].entryId == entry :: targets[i].selector
  }

  /** Selectors are ranked by score, then by index. */
  predicate RankedBefore(targets: seq<Target>, score: Target -> Key, entry: string, a: nat, b: nat) {
    var x, y := Representative(targets, entry, a), Representative(targets, entry, b);
    && x.Some? && y.Some?
    && (Before(score(x.value), score(y.value)) || (score(x.value) == score(y.value) && a < b))
  }

  function Rank(targets: seq<Target>, score: Target -> Key, entry: string, selector: nat): nat {
    |set s | s in Selectors(targets, entry) && RankedBefore(targets, score, entry, s, selector)|
  }

  predicate Sampled(targets: seq<Target>, score: Target -> Key, t: Target) {
    t.sampling.maxSelected.None? || Rank(targets, score, t.entryId, t.selector) < t.sampling.maxSelected.value
  }

  // ------------------------------------------------------------ greedy admission

  /** What is used once every target that fits has been admitted, in order. */
  function Used<U>(targets: seq<Target>, start: U, fits: (U, Target) -> bool, add: (U, Target) -> U): U {
    if targets == [] then start
    else
      var u, t := Used(targets[..|targets| - 1], start, fits, add), targets[|targets| - 1];
      if fits(u, t) then add(u, t) else u
  }

  function Admitted<U>(targets: seq<Target>, start: U, fits: (U, Target) -> bool, add: (U, Target) -> U): seq<Target> {
    if targets == [] then []
    else
      var front, t := targets[..|targets| - 1], targets[|targets| - 1];
      Admitted(front, start, fits, add) + (if fits(Used(front, start, fits, add), t) then [t] else [])
  }

  datatype RunUsage = RunUsage(runs: nat, gpuSeconds: nat)

  predicate RunFitsFor(b: RunBudget, u: RunUsage, t: Target) {
    && (b.maxRuns.Some? ==> u.runs < b.maxRuns.value)
    && (b.maxGpuSeconds.Some? ==> u.gpuSeconds + t.gpuSeconds <= b.maxGpuSeconds.value)
  }

  function RunFits(b: RunBudget): (RunUsage, Target) -> bool {
    (u: RunUsage, t: Target) => RunFitsFor(b, u, t)
  }

  function RunAddFor(u: RunUsage, t: Target): RunUsage {
    RunUsage(u.runs + 1, u.gpuSeconds + t.gpuSeconds)
  }

  function RunAdd(): (RunUsage, Target) -> RunUsage {
    (u: RunUsage, t: Target) => RunAddFor(u, t)
  }

  lemma AtRun(b: RunBudget, u: RunUsage, t: Target)
    ensures RunFits(b)(u, t) == RunFitsFor(b, u, t) && RunAdd()(u, t) == RunAddFor(u, t)
  {
  }

  datatype ResourceUsage = ResourceUsage(tokens: nat, bytes: nat, submissions: nat)

  predicate ResourceFitsFor(b: ResourceBudget, e: Estimate, u: ResourceUsage) {
    && (b.maxTokens.Some? ==> u.tokens + e.tokens <= b.maxTokens.value)
    && (b.maxBytes.Some? ==> u.bytes + e.bytes <= b.maxBytes.value)
    && (b.rate.Some? ==> u.submissions + e.submissions <= b.rate.value.maxSubmissions)
  }

  function ResourceFits(b: ResourceBudget, estimates: map<string, Estimate>): (ResourceUsage, Target) -> bool {
    (u: ResourceUsage, t: Target) => ResourceFitsFor(b, EstimateOf(estimates, t), u)
  }

  function EstimateOf(estimates: map<string, Estimate>, t: Target): Estimate {
    if t.unitId in estimates then estimates[t.unitId] else Estimate(0, 0, 0)
  }

  function ResourceAddFor(u: ResourceUsage, e: Estimate): ResourceUsage {
    ResourceUsage(u.tokens + e.tokens, u.bytes + e.bytes, u.submissions + e.submissions)
  }

  function ResourceAdd(estimates: map<string, Estimate>): (ResourceUsage, Target) -> ResourceUsage {
    (u: ResourceUsage, t: Target) => ResourceAddFor(u, EstimateOf(estimates, t))
  }

  /** Submissions inside the window; none may lie in the future. */
  function Recent(rate: Option<Rate>, asOf: int, submittedAt: seq<int>): nat {
    if rate.None? || submittedAt == [] then 0
    else
      Recent(rate, asOf, submittedAt[..|submittedAt| - 1])
      + (if submittedAt[|submittedAt| - 1] > asOf - rate.value.windowSeconds then 1 else 0)
  }

  // ------------------------------------------------------------ cadence

  datatype Cadence = Due | NotDue | Inapplicable

  function MaxInt(a: nat, b: nat): nat { if a > b then a else b }

  function CadenceOf(t: Target, c: ToolCadence, mode: Mode, asOf: int, last: Option<int>): Cadence {
    if c.tool.RandomDelayStress? && !t.hasOracle then Inapplicable
    else if mode.OnDemand? || last.None? then Due
    else if asOf - last.value >= MaxInt(t.cadenceDays, c.days) * SECONDS_PER_DAY then Due
    else NotDue
  }

  function LastRun(h: History, t: Target, tool: Tool): Option<int> {
    if (t.unitId, tool) in h.lastCompleted then Some(h.lastCompleted[(t.unitId, tool)]) else None
  }

  predicate UniqueTools(cadences: seq<ToolCadence>) {
    forall i, j :: 0 <= i < j < |cadences| ==> cadences[i].tool != cadences[j].tool
  }

  /** No completion of a planned pair lies in the future. */
  predicate CompletedInPast(targets: seq<Target>, c: Config, h: History) {
    forall i, j :: 0 <= i < |targets| && 0 <= j < |c.cadences| && LastRun(h, targets[i], c.cadences[j].tool).Some? ==>
      LastRun(h, targets[i], c.cadences[j].tool).value <= c.asOf
  }

  datatype CadenceDecision = CadenceDecision(target: Target, tool: Tool, cadence: Cadence)

  function DecideTools(t: Target, cadences: seq<ToolCadence>, c: Config, h: History): seq<CadenceDecision> {
    seq(|cadences|, i requires 0 <= i < |cadences| =>
      CadenceDecision(t, cadences[i].tool, CadenceOf(t, cadences[i], c.mode, c.asOf, LastRun(h, t, cadences[i].tool))))
  }

  function DecideAll(targets: seq<Target>, c: Config, h: History): seq<CadenceDecision> {
    if targets == [] then []
    else DecideAll(targets[..|targets| - 1], c, h) + DecideTools(targets[|targets| - 1], c.cadences, c, h)
  }

  /** The due tools of a unit, in the order of the decisions. */
  function DueTools(decisions: seq<CadenceDecision>, unitId: string): seq<Tool> {
    if decisions == [] then []
    else
      var d := decisions[|decisions| - 1];
      DueTools(decisions[..|decisions| - 1], unitId) + (if d.target.unitId == unitId && d.cadence.Due? then [d.tool] else [])
  }

  /** The target of every unit with a due tool, at its first due decision. */
  function DueTargets(decisions: seq<CadenceDecision>): seq<Target> {
    if decisions == [] then []
    else
      var front, d := DueTargets(decisions[..|decisions| - 1]), decisions[|decisions| - 1];
      if d.cadence.Due? && (forall i :: 0 <= i < |front| ==> front[i].unitId != d.target.unitId) then front + [d.target] else front
  }

  // ------------------------------------------------------------ gates

  /** Everything the gates decide. */
  datatype Gates = Gates(active: seq<Target>, inShard: seq<Target>, decisions: seq<CadenceDecision>, due: seq<Target>,
                         running: seq<Target>, admitted: seq<Target>)

  predicate SampledHere(c: Config, active: seq<Target>, t: Target) {
    c.mode.OnDemand? || (Sampled(active, c.score, t) && c.shard(t.unitId) == c.shardIndex)
  }

  predicate Revision(active: seq<Target>, revision: string) {
    forall i :: 0 <= i < |active| ==> active[i].revision == revision
  }

  lemma UnitsInjective(targets: seq<Target>)
    requires UniqueIds(targets)
    ensures Injective(Elements(targets), UnitKey)
  {
    forall x, y | x in Elements(targets) && y in Elements(targets) && UnitKey(x) == UnitKey(y) ensures x == y {
      CharsDistinct(x.unitId, y.unitId);
    }
  }

  lemma HereInjective(c: Config, active: seq<Target>)
    requires UniqueIds(active)
    ensures Injective(Here(c, active), UnitKey)
  {
    UnitsInjective(active);
  }

  ghost function Here(c: Config, active: seq<Target>): set<Target> {
    set t | t in Elements(active) && SampledHere(c, active, t)
  }

  const NO_RUNS := RunUsage(0, 0)

  function StartUsage(c: Config, h: History): ResourceUsage {
    ResourceUsage(h.tokens, h.bytes, Recent(c.resources.rate, c.asOf, h.submittedAt))
  }

  ghost function GatesOf(all: seq<Target>, revision: string, c: Config, h: History, estimates: map<string, Estimate>): Option<Gates> {
    var active := Enabled(all);
    if !UniqueIds(active) || !Consistent(active) || !Revision(active, revision) || !UniqueTools(c.cadences) then None
    else
      HereInjective(c, active);
      var inShard := InOrder(Here(c, active), UnitKey);
      var decisions := DecideAll(inShard, c, h);
      var due := DueTargets(decisions);
      var running := Admitted(due, NO_RUNS, RunFits(c.runs), RunAdd());
      if !CompletedInPast(inShard, c, h) || (exists i :: 0 <= i < |running| && running[i].unitId !in estimates)
         || (c.resources.rate.Some? && exists i :: 0 <= i < |h.submittedAt| && h.submittedAt[i] > c.asOf) then None
      else
        Some(Gates(active, inShard, decisions, due, running,
                   Admitted(running, StartUsage(c, h), ResourceFits(c.resources, estimates), ResourceAdd(estimates))))
  }

  // ------------------------------------------------------------ the manifest

  datatype Outcome = AdmittedOutcome | Disabled | SampledOut | OtherShard | NotDueOutcome | NotApplicable | NoCadence | DeferredBudget | Missing

  datatype Item = Item(target: Target, tool: Tool, outcome: Outcome)

  datatype Session = Session(target: Target, sanitizers: seq<Tool>, stress: bool)

  /** The dictionaries the outcomes are looked up in. */
  datatype Tables = Tables(sample: map<string, bool>, shards: map<string, int>, cadence: map<(string, Tool), Cadence>,
                           execution: map<string, bool>, resources: map<string, bool>)

  function OutcomeOf(t: Target, tool: Tool, c: Config, x: Tables): Outcome {
    var id := t.unitId;
    if !t.enabled then Disabled
    else if c.mode.Scheduled? && id !in x.sample then Missing
    else if c.mode.Scheduled? && !x.sample[id] then SampledOut
    else if c.mode.Scheduled? && id !in x.shards then Missing
    else if c.mode.Scheduled? && x.shards[id] != c.shardIndex then OtherShard
    else if (id, tool) !in x.cadence then NoCadence
    else if x.cadence[(id, tool)].Inapplicable? then NotApplicable
    else if x.cadence[(id, tool)].NotDue? then NotDueOutcome
    else if id !in x.execution then Missing
    else if !x.execution[id] then DeferredBudget
    else if id !in x.resources then Missing
    else if !x.resources[id] then DeferredBudget
    else AdmittedOutcome
  }

  /** One entry for each target; a later one with the same unit replaces an earlier one. */
  function UnitMap<V>(targets: seq<Target>, value: Target -> V): map<string, V> {
    if targets == [] then map[]
    else UnitMap(targets[..|targets| - 1], value)[targets[|targets| - 1].unitId := value(targets[|targets| - 1])]
  }

  function CadenceMap(decisions: seq<CadenceDecision>): map<(string, Tool), Cadence> {
    if decisions == [] then map[]
    else
      var d := decisions[|decisions| - 1];
      CadenceMap(decisions[..|decisions| - 1])[(d.target.unitId, d.tool) := d.cadence]
  }

  /** In scheduled mode only the sampled units have a shard of their own; every other unit has -1. */
  ghost function ShardTable(all: seq<Target>, c: Config, active: seq<Target>): map<string, int> {
    map id | id in (set t | t in Elements(all) :: t.unitId) ::
      if exists t :: t in Elements(active) && t.unitId == id && (c.mode.OnDemand? || Sampled(active, c.score, t)) then c.shard(id) else -1
  }

  function SampledAmong(active: seq<Target>, c: Config): Target -> bool {
    (t: Target) => Sampled(active, c.score, t)
  }

  function AmongThem(some: seq<Target>): Target -> bool {
    (t: Target) => t in some
  }

  ghost function TablesOf(all: seq<Target>, c: Config, g: Gates): Tables {
    Tables(UnitMap(g.active, SampledAmong(g.active, c)), ShardTable(all, c, g.active), CadenceMap(g.decisions),
           UnitMap(g.due, AmongThem(g.running)), UnitMap(g.running, AmongThem(g.admitted)))
  }

  function ItemsOf(t: Target, cadences: seq<ToolCadence>, c: Config, x: Tables): seq<Item> {
    seq(|cadences|, i requires 0 <= i < |cadences| => Item(t, cadences[i].tool, OutcomeOf(t, cadences[i].tool, c, x)))
  }

  function AllItems(all: seq<Target>, c: Config, x: Tables): seq<Item> {
    if all == [] then [] else AllItems(all[..|all| - 1], c, x) + ItemsOf(all[|all| - 1], c.cadences, c, x)
  }

  function Sanitizers(tools: seq<Tool>): seq<Tool> {
    if tools == [] then []
    else Sanitizers(tools[..|tools| - 1]) + (if tools[|tools| - 1].RandomDelayStress? then [] else [tools[|tools| - 1]])
  }

  function SessionOf(t: Target, decisions: seq<CadenceDecision>): Session {
    var tools := DueTools(decisions, t.unitId);
    Session(t, Sanitizers(tools), RandomDelayStress in tools)
  }

  function Sessions(admitted: seq<Target>, decisions: seq<CadenceDecision>): (r: seq<Session>)
    ensures |r| == |admitted| && forall i :: 0 <= i < |r| ==> r[i] == SessionOf(admitted[i], decisions)
  {
    seq(|admitted|, i requires 0 <= i < |admitted| => SessionOf(admitted[i], decisions))
  }

  datatype Manifest = Manifest(items: seq<Item>, sessions: seq<Session>)

  ghost function Plan(all: seq<Target>, revision: string, c: Config, h: History, estimates: map<string, Estimate>): Option<Manifest> {
    match GatesOf(all, revision, c, h, estimates)
    case None => None
    case Some(g) => Some(Manifest(AllItems(all, c, TablesOf(all, c, g)), Sessions(g.admitted, g.decisions)))
  }
}
