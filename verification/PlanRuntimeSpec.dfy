/** The plan runtime of one CUDA context as a state machine (src/plan_runtime.cpp). */
module PlanRuntimeSpec {
  import opened Sequences
  import opened PlanCapture
  import opened TraceWriterSpec

  const LAUNCH_SLOTS: nat := 1024
  const MAX_WORDS: nat := 16
  const MAX_LAUNCH_RECORDS: nat := 1000000
  const PACKET_BYTES: nat := 2120

  /** `selects` is the launch policy of the configuration. */
  datatype Config = Config(capture: Capture, selects: nat -> bool, maxRecords: nat, maxBytes: nat)

  /** Which configurations a point serves, and the registers it sends: true for a predicate register. */
  datatype Point = Point(configurations: set<nat>, reachedPolicy: set<nat>, words: seq<bool>, wordMasks: nat -> set<nat>)

  datatype Tables = Tables(configs: seq<Config>, points: seq<Point>)

  datatype Identity = Identity(launch: nat, id: nat, kernelOrdinal: nat, geometry: Geometry)

  datatype Counts = Counts(selected: bool, error: string, expectedEntries: nat, received: nat, written: nat, jsonBytes: nat,
                           device: Counters)

  datatype Launch = Launch(identity: Identity, slot: Option<nat>, completed: bool, drained: bool, available: bool,
                           counts: map<nat, Counts>, records: set<(nat, nat)>)

  /** What the device reads and counts in. */
  datatype Control = Control(launchId: nat, enabled: set<nat>, counters: nat -> Counters)

  /** A prepared kernel: its configurations, and why some of them cannot be captured. */
  datatype Bound = Bound(configs: seq<nat>, gaps: map<nat, string>)

  datatype Context = Context(occupied: seq<bool>, slots: seq<Control>, bound: map<nat, Bound>, launches: map<nat, Launch>)

  /** Lanes, words and masks are sets of indices. */
  datatype Packet = Packet(launchId: nat, version: nat, point: nat, config: nat, sequence: nat, cta: Triple, warp: nat,
                           reached: set<nat>, executed: set<nat>, selected: set<nat>, valid: set<nat>,
                           wordCount: nat, wordMask: set<nat>, values: (nat, nat) -> nat)

  const NO_COUNTERS := Counters(0, 0, 0, 0, 0, 0)

  ghost predicate TablesOk(t: Tables) {
    forall i :: 0 <= i < |t.configs| ==> CaptureOk(t.configs[i].capture)
  }

  predicate BoundOk(t: Tables, b: Bound) {
    forall i :: 0 <= i < |b.configs| ==> b.configs[i] < |t.configs|
  }

  ghost predicate ContextOk(t: Tables, c: Context) {
    && |c.occupied| == |c.slots| == LAUNCH_SLOTS
    && forall f :: f in c.bound ==> BoundOk(t, c.bound[f])
  }

  // ------------------------------------------------------------ launch

  /** None where the geometry is refused. */
  ghost function CountsFor(config: Config, gap: Option<string>, identity: Identity): Option<Counts> {
    if gap.Some? then Some(Counts(false, gap.value, 0, 0, 0, 0, NO_COUNTERS))
    else if !config.selects(identity.kernelOrdinal) then Some(Counts(false, "", 0, 0, 0, 0, NO_COUNTERS))
    else
      match Expected(config.capture, identity.geometry)
      case None => None
      case Some(n) => Some(Counts(true, if n == 0 then "no_selected_warps_in_launch" else "", n, 0, 0, 0, NO_COUNTERS))
  }

  function GapOf(b: Bound, index: nat): Option<string> {
    if index in b.gaps then Some(b.gaps[index]) else None
  }

  ghost predicate Prepared(t: Tables, b: Bound, identity: Identity)
    requires BoundOk(t, b)
  {
    forall i :: 0 <= i < |b.configs| ==> CountsFor(t.configs[b.configs[i]], GapOf(b, b.configs[i]), identity).Some?
  }

  ghost function LaunchCounts(t: Tables, b: Bound, identity: Identity): map<nat, Counts>
    requires BoundOk(t, b) && Prepared(t, b, identity)
  {
    map i | i in b.configs :: CountsFor(t.configs[i], GapOf(b, i), identity).value
  }

  function SelectedIn(counts: map<nat, Counts>): set<nat> {
    set i | i in counts && counts[i].selected
  }

  function FirstFree(occupied: seq<bool>): (i: nat)
    ensures i <= |occupied| && (i < |occupied| ==> !occupied[i]) && forall k :: 0 <= k < i ==> occupied[k]
  {
    if occupied == [] || !occupied[0] then 0 else 1 + FirstFree(occupied[1..])
  }

  /** Marks the slot and overwrites its control block. */
  function TakeSlot(c: Context, k: nat, id: nat, enabled: set<nat>): Context
    requires k < |c.occupied| == |c.slots|
  {
    c.(occupied := c.occupied[k := true], slots := c.slots[k := Control(id, enabled, (i: nat) => NO_COUNTERS)])
  }

  datatype LaunchStep = LaunchStep(c: Context, ok: bool, took: Option<nat>)

  function WithLaunch(c: Context, l: Launch): Context {
    c.(launches := c.launches[l.identity.id := l])
  }

  /** A launch whose id is already there has taken a slot that nothing gives back. */
  function Place(c: Context, identity: Identity, counts: map<nat, Counts>): LaunchStep
    requires |c.occupied| == |c.slots|
  {
    var selected := SelectedIn(counts);
    var k := FirstFree(c.occupied);
    if selected == {} then
      if identity.id in c.launches then LaunchStep(c, false, None)
      else LaunchStep(WithLaunch(c, Launch(identity, None, false, false, false, counts, {})), true, None)
    else if k == |c.occupied| then LaunchStep(c, false, None)
    else
      var d := TakeSlot(c, k, identity.id, selected);
      if identity.id in c.launches then LaunchStep(d, false, Some(k))
      else LaunchStep(WithLaunch(d, Launch(identity, Some(k), false, false, false, counts, {})), true, Some(k))
  }

  ghost function BeginLaunch(t: Tables, c: Context, fn: nat, identity: Identity): LaunchStep
    requires ContextOk(t, c)
  {
    if fn !in c.bound || |c.launches| >= LAUNCH_SLOTS || !Prepared(t, c.bound[fn], identity) then LaunchStep(c, false, None)
    else Place(c, identity, LaunchCounts(t, c.bound[fn], identity))
  }

  // ------------------------------------------------------------ completion

  function CopyCounters(counts: map<nat, Counts>, control: Control): map<nat, Counts> {
    map i | i in counts :: counts[i].(device := control.counters(i))
  }

  /** The slot is given back only when the kernel is done and the channel is drained. */
  function DeviceComplete(c: Context, id: nat, completed: bool, drained: bool): Context
    requires |c.occupied| == |c.slots| == LAUNCH_SLOTS
  {
    if id !in c.launches then c
    else
      var l := c.launches[id].(completed := completed, drained := drained);
      if !(completed && drained) then c.(launches := c.launches[id := l])
      else if l.slot.None? || l.slot.value >= LAUNCH_SLOTS then c.(launches := c.launches[id := l.(available := true)])
      else
        c.(occupied := c.occupied[l.slot.value := false],
           launches := c.launches[id := l.(available := true, slot := None, counts := CopyCounters(l.counts, c.slots[l.slot.value]))])
  }

  function Fill(counts: map<nat, Counts>, reason: string): map<nat, Counts> {
    map i | i in counts :: if counts[i].error == "" then counts[i].(error := reason) else counts[i]
  }

  function DisablePlan(c: Context, reason: string): Context {
    c.(launches := map id | id in c.launches :: c.launches[id].(counts := Fill(c.launches[id].counts, reason)))
  }

  predicate CountsComplete(n: Counts, available: bool) {
    && n.selected && n.error == "" && available && n.expectedEntries > 0
    && n.device.entries == n.expectedEntries && n.device.dropped == 0
    && n.device.attempted == n.device.emitted == n.received == n.written
    && n.device.emittedBytes == n.received * PACKET_BYTES
  }

  predicate Incomplete(n: Counts, available: bool) {
    n.error != "" || (n.selected && !CountsComplete(n, available))
  }

  function ReportOf(n: Counts): Report {
    Report(n.selected, n.error, n.expectedEntries, n.device, n.received, n.written)
  }

  function CompletionLine(l: Launch, disabled: bool): Line {
    PlanCompletion(l.identity.launch, map i | i in l.counts :: ReportOf(l.counts[i]), LaunchComplete(l, disabled))
  }

  predicate LaunchComplete(l: Launch, disabled: bool) {
    !disabled && l.completed && l.drained && l.available && forall i :: i in l.counts ==> !Incomplete(l.counts[i], l.available)
  }

  function FinishTrace(c: Context, id: nat): Context {
    c.(launches := c.launches - {id})
  }

  // ------------------------------------------------------------ packets

  datatype Verdict = NoIdentity | GeometryOverflow | WrongBinding | Repeated | BadPredicate | OverBudget | Accepted

  function SelectedLanes(c: Capture): set<nat> {
    if c.lanes == [] then Range(WARP) else set l | l in c.lanes
  }

  predicate InGeometry(c: Capture, g: Geometry, cta: Triple, warp: nat) {
    && Inside(cta, g.grid) && (c.ctas == [] || cta in c.ctas)
    && warp < (Threads(g) + 31) / 32 && (c.warps == [] || warp in c.warps)
  }

  /** The lanes the block really has in this warp. */
  function BlockLanes(c: Capture, g: Geometry, cta: Triple, warp: nat): set<nat> {
    if InGeometry(c, g, cta, warp) then Range(ActiveLanes(Threads(g), warp)) else {}
  }

  /** The masks, the words and the place of a packet fit its launch, its point and its configuration. */
  predicate Binds(config: Config, point: Point, g: Geometry, p: Packet) {
    && InGeometry(config.capture, g, p.cta, p.warp)
    && p.reached <= BlockLanes(config.capture, g, p.cta, p.warp)
    && p.selected == p.reached * SelectedLanes(config.capture)
    && p.sequence < config.maxRecords
    && p.config in point.configurations
    && p.wordCount == |point.words| <= MAX_WORDS
    && p.wordMask == point.wordMasks(p.config)
    && p.reached != {} && p.executed <= p.reached && p.selected != {} && p.selected <= p.reached
    && p.valid == if p.config in point.reachedPolicy then p.selected else p.selected * p.executed
  }

  /** Some lane sends a predicate that is neither 0 nor 1. */
  predicate PredicateOutOfRange(point: Point, p: Packet) {
    exists word, lane | word in p.wordMask && lane in p.valid ::
      word < |point.words| && lane < WARP && p.values(word, lane) > 1 && point.words[word]
  }

  /** A packet that is bound to its launch; `size` is the length of the encoded record with its newline. */
  function JudgeRecord(config: Config, point: Point, l: Launch, p: Packet, size: nat): Verdict
    requires p.config in l.counts
  {
    if |l.records| >= MAX_LAUNCH_RECORDS || (p.config, p.sequence) in l.records then Repeated
    else if PredicateOutOfRange(point, p) then BadPredicate
    else if l.counts[p.config].written >= config.maxRecords
         || size > config.maxBytes - Min(l.counts[p.config].jsonBytes, config.maxBytes) then OverBudget
    else Accepted
  }

  function Judge(t: Tables, c: Context, p: Packet, size: nat): Verdict {
    if p.launchId !in c.launches || p.version != 1 || p.point >= |t.points| || p.config >= |t.configs| then NoIdentity
    else
      var l, point, config := c.launches[p.launchId], t.points[p.point], t.configs[p.config];
      if !TripleFits(l.identity.geometry.block) then GeometryOverflow
      else if p.config !in l.counts || !l.counts[p.config].selected || !Binds(config, point, l.identity.geometry, p) then WrongBinding
      else JudgeRecord(config, point, l, p, size)
  }

  function RecordOf(l: Launch, p: Packet, rest: string): Line {
    Observation(l.identity.launch, p.config, p.sequence, rest)
  }

  function ErrorOf(v: Verdict): string {
    match v
    case Repeated => "record_identity_duplicate_or_budget"
    case BadPredicate => "predicate_word_out_of_range"
    case OverBudget => "json_record_budget_exhausted"
    case _ => ""
  }

  /** The reason the writer is given, for every verdict but Accepted; each marks one dropped record. */
  function MarkOf(v: Verdict): string {
    match v
    case NoIdentity => "plan_packet_identity"
    case WrongBinding => "plan_packet_masks_or_binding"
    case Repeated => "plan_record_sequence"
    case BadPredicate => "predicate_word_out_of_range"
    case OverBudget => "plan_json_budget"
    case _ => ""
  }

  /** What one judged packet does to its launch; `written` is the writer's answer to an accepted record. */
  function Received(l: Launch, p: Packet, v: Verdict, size: nat, written: bool): Launch
    requires p.config in l.counts
  {
    if v.NoIdentity? || v.GeometryOverflow? || v.WrongBinding? then l
    else
      var n := l.counts[p.config].(received := l.counts[p.config].received + 1);
      var m :=
        if v.Accepted? then
          if written then n.(written := n.written + 1, jsonBytes := n.jsonBytes + size)
          else n.(error := "trace_writer_rejected_record")
        else n.(error := ErrorOf(v));
      l.(counts := l.counts[p.config := m], records := if v.Repeated? then l.records else l.records + {(p.config, p.sequence)})
  }

  function Consume(t: Tables, c: Context, p: Packet, size: nat, written: bool): Context {
    var v := Judge(t, c, p, size);
    if v.NoIdentity? || v.GeometryOverflow? || v.WrongBinding? then c
    else c.(launches := c.launches[p.launchId := Received(c.launches[p.launchId], p, v, size, written)])
  }

  lemma {:induction false} BindsExpected(config: Config, point: Point, g: Geometry, p: Packet)
    requires CaptureOk(config.capture) && Binds(config, point, g, p)
    ensures (p.cta, p.warp) in EntryPairs(config.capture, g)
  {
    hide Threads, CaptureOk, Range;
    var lane :| lane in p.selected;
    assert p.cta in Ctas(config.capture, g.grid);
    WarpExpected(config.capture, Threads(g), p.warp, lane);
    hide Ctas, Warps;
  }

  lemma WarpExpected(c: Capture, threads: nat, warp: nat, lane: nat)
    requires warp < (threads + 31) / 32 && (c.warps == [] || warp in c.warps)
    requires lane in Range(ActiveLanes(threads, warp)) && lane in SelectedLanes(c)
    ensures warp in Warps(c, threads)
  {
    hide Range;
    WarpBegins(threads, warp);
    assert LaneSelected(c, ActiveLanes(threads, warp));
    assert WarpSelected(c, threads, warp);
    hide LaneSelected, WarpSelected;
  }

  lemma WarpBegins(threads: nat, warp: nat)
    requires warp < (threads + 31) / 32
    ensures warp * WARP < threads && warp < threads
  {
  }

  /** Only a warp the plan expects to enter can send a packet that is counted as received. */
  lemma {:induction false} ReceivedIsExpected(t: Tables, c: Context, p: Packet, size: nat)
    requires TablesOk(t)
    requires var v := Judge(t, c, p, size); !v.NoIdentity? && !v.GeometryOverflow? && !v.WrongBinding?
    ensures (p.cta, p.warp) in EntryPairs(t.configs[p.config].capture, c.launches[p.launchId].identity.geometry)
  {
    hide Binds, EntryPairs, PredicateOutOfRange;
    BindsExpected(t.configs[p.config], t.points[p.point], c.launches[p.launchId].identity.geometry, p);
  }
}
