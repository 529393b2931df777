/** The runtime identity ledger as a state machine (src/runtime_identity.cpp, include/runtime_identity.h).

    Digests are injective, so a key is the value it digests.  The sink is an arbitrary function of the
    sequence number: it either publishes that record or throws.  `log` holds the published records and
    `retirements` every launch id ever retired; the program keeps neither. */
module LedgerSpec {
  import opened Sequences

  datatype ContextKey = ContextKey(ordinal: nat, handle: nat)

  datatype ModuleKey = ModuleKey(context: ContextKey, ordinal: nat, handle: nat)

  datatype HandleKey = HandleKey(ctx: nat, handle: nat)

  /** Attributes as a caller passes them; `rest` stands for the fields the ledger does not look at. */
  datatype Attributes = NotAnObject | Attributes(entry: Option<string>, cubin: Option<string>, rest: string)

  datatype FunctionIdentity = FunctionIdentity(entry: string, cubin: string, rest: string, mod: ModuleKey,
                                               loadObserved: bool, handle: nat)

  datatype LaunchAttributes = NotAnObject | LaunchAttributes(captureSelected: Option<bool>, rest: string)

  datatype LaunchKey = LaunchKey(fn: FunctionIdentity, id: nat, kernelOrdinal: nat, attributes: LaunchAttributes)

  datatype OrdinalKey = OrdinalKey(cubin: string, entry: string)

  datatype Context = Context(key: ContextKey, ordinals: map<OrdinalKey, nat>)

  datatype Module = Module(key: ModuleKey, loadObserved: bool)

  datatype Launch = Launch(ctx: nat, key: LaunchKey, captureSelected: bool)

  datatype Event =
    | ProcessStart
    | ContextBegun(context: ContextKey)
    | ContextEnded(context: ContextKey, incompleteLaunches: nat)
    | ModuleBegun(mod: ModuleKey, loadObserved: bool, api: string)
    | ModuleEnded(mod: ModuleKey)
    | FunctionSeen(fn: FunctionIdentity)
    | Launched(launch: LaunchKey)
    | DriverCompletion(launch: LaunchKey, completed: bool, drained: bool, footerRequired: bool)
    | LaunchIncomplete(launch: LaunchKey)
    | GapNoted(reason: string)
    | PlanEvent(name: string, data: string)
    | ProcessEnd(pendingLaunches: nat, liveContexts: nat, hasGaps: bool)

  datatype Record = Record(sequence: nat, event: Event)

  datatype Limits = Limits(contexts: nat, modules: nat, functions: nat, pendingLaunches: nat, retiredLaunchIds: nat)

  /** The lifetimes that have begun and not ended. */
  datatype Live = Live(contextCounter: nat, moduleCounter: nat, contexts: map<nat, Context>, modules: map<HandleKey, Module>,
                       functions: map<HandleKey, FunctionIdentity>, failed: map<HandleKey, ModuleKey>)

  datatype Ids = Ids(pending: map<nat, Launch>, retired: set<nat>, order: seq<nat>, retirements: seq<nat>)

  datatype Out = Out(sink: nat -> bool, sequence: nat, finished: bool, gap: bool, log: seq<Record>)

  datatype Ledger = Ledger(limits: Limits, live: Live, ids: Ids, out: Out)

  /** The state after a call, and whether the call returned instead of throwing. */
  datatype Step = Step(s: Ledger, ok: bool)

  datatype OutStep = OutStep(out: Out, ok: bool)

  datatype Served = Identity(fn: FunctionIdentity) | Unavailable | Threw

  datatype ServedStep = ServedStep(s: Ledger, served: Served)

  // ------------------------------------------------------------ operations

  function Initial(sink: nat -> bool, limits: Limits): Ledger {
    Ledger(limits, Live(0, 0, map[], map[], map[], map[]), Ids(map[], {}, [], []),
           Out(sink, 1, false, false, [Record(0, ProcessStart)]))
  }

  function Emit(o: Out, e: Event): OutStep {
    if o.finished then OutStep(o, false)
    else if o.sink(o.sequence) then
      OutStep(o.(sequence := o.sequence + 1, log := o.log + [Record(o.sequence, e)]), true)
    else OutStep(o.(sequence := o.sequence + 1, gap := true), false)
  }

  /** Stops at the first record the sink refuses. */
  function EmitAll(o: Out, events: seq<Event>): OutStep
    decreases |events|
  {
    if events == [] then OutStep(o, true)
    else
      var first := Emit(o, events[0]);
      if first.ok then EmitAll(first.out, events[1..]) else first
  }

  function WithGap(o: Out, gap: bool): Out {
    o.(gap := o.gap || gap)
  }

  /** Publishes one record on top of the changes already made to `s`. */
  function Publish(s: Ledger, e: Event): Step {
    var r := Emit(s.out, e);
    Step(s.(out := r.out), r.ok)
  }

  function Retire(ids: Ids, limit: nat, id: nat): Ids {
    var t := ids.(retirements := ids.retirements + [id]);
    if limit == 0 || id in ids.retired then t
    else if |ids.order| + 1 > limit then
      t.(retired := (ids.retired + {id}) - {(ids.order + [id])[0]}, order := (ids.order + [id])[1..])
    else t.(retired := ids.retired + {id}, order := ids.order + [id])
  }

  /** A pending launch ends: its id is retired and leaves the in-flight budget. */
  function RetirePending(ids: Ids, limit: nat, id: nat): Ids {
    var r := Retire(ids, limit, id);
    r.(pending := r.pending - {id})
  }

  function ContextBegin(s: Ledger, handle: nat): Step {
    if s.out.finished || handle == 0 || handle in s.live.contexts || |s.live.contexts| >= s.limits.contexts then Step(s, false)
    else
      var key := ContextKey(s.live.contextCounter, handle);
      Publish(s.(live := BeginContext(s.live, handle)), ContextBegun(key))
  }

  function BeginContext(l: Live, handle: nat): Live {
    l.(contextCounter := l.contextCounter + 1,
       contexts := l.contexts[handle := Context(ContextKey(l.contextCounter, handle), map[])])
  }

  /** Retires the pending launches of one context, in the order given. */
  function DrainPending(ids: Ids, limit: nat, handle: nat, walk: seq<nat>): Ids
    decreases |walk|
  {
    if walk == [] then ids
    else if walk[0] in ids.pending && ids.pending[walk[0]].ctx == handle then
      DrainPending(RetirePending(ids, limit, walk[0]), limit, handle, walk[1..])
    else DrainPending(ids, limit, handle, walk[1..])
  }

  /** The launches that DrainPending retires, as the records that report them. */
  function IncompleteOf(pending: map<nat, Launch>, handle: nat, walk: seq<nat>): seq<Event>
    decreases |walk|
  {
    if walk == [] then []
    else if walk[0] in pending && pending[walk[0]].ctx == handle then
      [LaunchIncomplete(pending[walk[0]].key)] + IncompleteOf(pending - {walk[0]}, handle, walk[1..])
    else IncompleteOf(pending, handle, walk[1..])
  }

  /** Everything of one context is erased. */
  function OutsideContext<V>(m: map<HandleKey, V>, handle: nat): (r: map<HandleKey, V>)
    ensures forall k :: k in r <==> k in m && k.ctx != handle
    ensures forall k :: k in r ==> r[k] == m[k]
  {
    map k | k in m && k.ctx != handle :: m[k]
  }

  function DropContext(l: Live, handle: nat): Live {
    l.(modules := OutsideContext(l.modules, handle), functions := OutsideContext(l.functions, handle),
       failed := OutsideContext(l.failed, handle), contexts := l.contexts - {handle})
  }

  /** `walk` lists the pending ids in ascending order. */
  function ContextEnd(s: Ledger, handle: nat, walk: seq<nat>): Step {
    if s.out.finished || handle !in s.live.contexts then Step(s, false)
    else
      var incomplete := IncompleteOf(s.ids.pending, handle, walk);
      var e := EmitAll(WithGap(s.out, incomplete != []),
                       incomplete + [ContextEnded(s.live.contexts[handle].key, |incomplete|)]);
      Step(Ledger(s.limits, DropContext(s.live, handle), DrainPending(s.ids, s.limits.retiredLaunchIds, handle, walk), e.out), e.ok)
  }

  /** Finds or begins a module lifetime; `observed` tells whether its load was seen. */
  function ModuleLocked(s: Ledger, ctx: nat, mod: nat, api: string, observed: bool): Step {
    if ctx !in s.live.contexts || mod == 0 then Step(s, false)
    else if HandleKey(ctx, mod) in s.live.modules then Step(s, !observed)
    else if |s.live.modules| >= s.limits.modules then Step(s, false)
    else
      var t := BeginModule(s.live, ctx, mod, observed);
      Publish(s.(live := t), ModuleBegun(t.modules[HandleKey(ctx, mod)].key, observed, api))
  }

  function BeginModule(l: Live, ctx: nat, mod: nat, observed: bool): Live
    requires ctx in l.contexts
  {
    var key := ModuleKey(l.contexts[ctx].key, l.moduleCounter, mod);
    l.(moduleCounter := l.moduleCounter + 1, modules := l.modules[HandleKey(ctx, mod) := Module(key, observed)])
  }

  function ModuleUnload(s: Ledger, ctx: nat, mod: nat): Step {
    if s.out.finished || ctx !in s.live.contexts then Step(s, false)
    else if HandleKey(ctx, mod) !in s.live.modules then
      Publish(s.(out := WithGap(s.out, true)), GapNoted("unload_without_module_begin"))
    else
      Publish(s.(live := DropModule(s.live, ctx, mod)), ModuleEnded(s.live.modules[HandleKey(ctx, mod)].key))
  }

  function DropModule(l: Live, ctx: nat, mod: nat): Live
    requires HandleKey(ctx, mod) in l.modules
  {
    var key := l.modules[HandleKey(ctx, mod)].key;
    l.(modules := l.modules - {HandleKey(ctx, mod)}, functions := FunctionsOutside(l.functions, ctx, key),
       failed := FailedOutside(l.failed, ctx, key))
  }

  function FunctionsOutside(m: map<HandleKey, FunctionIdentity>, ctx: nat, mod: ModuleKey): (r: map<HandleKey, FunctionIdentity>)
    ensures forall k :: k in r <==> k in m && !(k.ctx == ctx && m[k].mod == mod)
    ensures forall k :: k in r ==> r[k] == m[k]
  {
    map k | k in m && !(k.ctx == ctx && m[k].mod == mod) :: m[k]
  }

  function FailedOutside(m: map<HandleKey, ModuleKey>, ctx: nat, mod: ModuleKey): (r: map<HandleKey, ModuleKey>)
    ensures forall k :: k in r <==> k in m && !(k.ctx == ctx && m[k] == mod)
    ensures forall k :: k in r ==> r[k] == m[k]
  {
    map k | k in m && !(k.ctx == ctx && m[k] == mod) :: m[k]
  }

  function FunctionLocked(s: Ledger, ctx: nat, mod: nat, fn: nat, a: Attributes): ServedStep {
    if s.out.finished || fn == 0 || a.NotAnObject? || a.entry == None || a.cubin == None then ServedStep(s, Threw)
    else
      var m := ModuleLocked(s, ctx, mod, "first_seen_function", false);
      if !m.ok || HandleKey(ctx, mod) !in m.s.live.modules then ServedStep(m.s, Threw)
      else
        var bound := m.s.live.modules[HandleKey(ctx, mod)];
        BindFunction(m.s, HandleKey(ctx, fn),
                     FunctionIdentity(a.entry.value, a.cubin.value, a.rest, bound.key, bound.loadObserved, fn))
  }

  /** Serves an identity that is already bound, or binds it once its record is published. */
  function BindFunction(s: Ledger, key: HandleKey, identity: FunctionIdentity): ServedStep {
    if key in s.live.failed then ServedStep(s, Threw)
    else if key in s.live.functions then
      ServedStep(s, if s.live.functions[key] == identity then Identity(identity) else Threw)
    else if |s.live.functions| + |s.live.failed| >= s.limits.functions then ServedStep(s, Threw)
    else
      var e := Emit(s.out, FunctionSeen(identity));
      if e.ok then
        ServedStep(s.(out := e.out, live := s.live.(functions := s.live.functions[key := identity])), Identity(identity))
      else
        ServedStep(s.(out := e.out, live := FailFunction(s.live, key, identity.mod)), Threw)
  }

  /** An entry that is already there stays. */
  function FailFunction(l: Live, key: HandleKey, mod: ModuleKey): Live {
    l.(failed := if key in l.failed then l.failed else l.failed[key := mod])
  }

  datatype Capture = NoCallback | CallbackThrew | Captured(a: Attributes)

  function CaptureFunction(s: Ledger, ctx: nat, mod: nat, fn: nat, c: Capture): ServedStep {
    if s.out.finished || fn == 0 || c.NoCallback? then ServedStep(s, Threw)
    else
      var m := ModuleLocked(s, ctx, mod, "first_seen_function", false);
      if !m.ok || HandleKey(ctx, mod) !in m.s.live.modules then ServedStep(m.s, Threw)
      else CaptureIn(m.s, ctx, mod, HandleKey(ctx, fn), m.s.live.modules[HandleKey(ctx, mod)].key, c)
  }

  function CaptureIn(s: Ledger, ctx: nat, mod: nat, key: HandleKey, moduleKey: ModuleKey, c: Capture): ServedStep {
    if key in s.live.failed then ServedStep(s, if s.live.failed[key] == moduleKey then Unavailable else Threw)
    else if key in s.live.functions then
      ServedStep(s, if s.live.functions[key].mod == moduleKey then Identity(s.live.functions[key]) else Threw)
    else if |s.live.functions| + |s.live.failed| >= s.limits.functions then ServedStep(s, Threw)
    else
      var r := if c.Captured? then FunctionLocked(s, ctx, mod, key.handle, c.a) else ServedStep(s, Threw);
      if r.served.Threw? then
        ServedStep(r.s.(live := FailFunction(r.s.live, key, moduleKey), out := WithGap(r.s.out, true)), Threw)
      else r
  }

  function LaunchStep(s: Ledger, ctx: nat, fn: nat, id: nat, a: LaunchAttributes): Step {
    if s.out.finished || ctx !in s.live.contexts || HandleKey(ctx, fn) !in s.live.functions || a.NotAnObject? then Step(s, false)
    else if id in s.ids.pending || id in s.ids.retired || |s.ids.pending| >= s.limits.pendingLaunches then Step(s, false)
    else
      var key := NextLaunch(s.live, ctx, s.live.functions[HandleKey(ctx, fn)], id, a);
      var e := Emit(s.out, Launched(key));
      Step(Ledger(s.limits, CountLaunch(s.live, ctx, key.fn),
                  if e.ok then s.ids.(pending := s.ids.pending[id := Launch(ctx, key, a.captureSelected != Some(false))])
                  else Retire(s.ids, s.limits.retiredLaunchIds, id),
                  e.out),
           e.ok)
  }

  /** How many launches of the same entry and binary this context has seen. */
  function OrdinalOf(c: Context, fn: FunctionIdentity): nat {
    var k := OrdinalKey(fn.cubin, fn.entry);
    if k in c.ordinals then c.ordinals[k] else 0
  }

  function NextLaunch(l: Live, ctx: nat, fn: FunctionIdentity, id: nat, a: LaunchAttributes): LaunchKey
    requires ctx in l.contexts
  {
    LaunchKey(fn, id, OrdinalOf(l.contexts[ctx], fn), a)
  }

  function CountLaunch(l: Live, ctx: nat, fn: FunctionIdentity): Live
    requires ctx in l.contexts
  {
    var c := l.contexts[ctx];
    l.(contexts := l.contexts[ctx := c.(ordinals := c.ordinals[OrdinalKey(fn.cubin, fn.entry) := OrdinalOf(c, fn) + 1])])
  }

  function Complete(s: Ledger, ctx: nat, id: nat, completed: bool, drained: bool): Step {
    if id !in s.ids.pending || s.ids.pending[id].ctx != ctx || ctx !in s.live.contexts then Step(s, false)
    else
      var e := Emit(s.out, DriverCompletion(s.ids.pending[id].key, completed, drained, s.ids.pending[id].captureSelected));
      if e.ok then
        Step(s.(out := WithGap(e.out, !completed || !drained), ids := RetirePending(s.ids, s.limits.retiredLaunchIds, id)), true)
      else Step(s.(out := e.out), false)
  }

  function NoteGap(s: Ledger, reason: string): Step {
    Publish(s.(out := WithGap(s.out, true)), GapNoted(reason))
  }

  const PLAN_EVENTS := {"plan_loaded", "plan_applied", "plan_capture_completion", "plan_gap", "plan_error"}

  function NotePlan(s: Ledger, name: string, data: string): Step {
    if name !in PLAN_EVENTS || s.out.finished then Step(s, false)
    else Publish(s.(out := WithGap(s.out, name == "plan_gap" || name == "plan_error")), PlanEvent(name, data))
  }

  function Finish(s: Ledger): Step {
    if s.out.finished then Step(s, true)
    else
      var e := Emit(s.out, ProcessEnd(|s.ids.pending|, |s.live.contexts|, s.out.gap || |s.ids.pending| != 0));
      Step(s.(out := if e.ok then e.out.(finished := true) else e.out), e.ok)
  }

  // ------------------------------------------------------------ runs

  datatype Op =
    | OpContextBegin(handle: nat)
    | OpContextEnd(handle: nat)
    | OpModuleLoad(ctx: nat, mod: nat, api: string)
    | OpModuleUnload(ctx: nat, mod: nat)
    | OpFunction(ctx: nat, mod: nat, fn: nat, attributes: Attributes)
    | OpCapture(ctx: nat, mod: nat, fn: nat, capture: Capture)
    | OpLaunch(ctx: nat, fn: nat, id: nat, launch: LaunchAttributes)
    | OpComplete(ctx: nat, id: nat, completed: bool, drained: bool)
    | OpGap(reason: string)
    | OpPlan(name: string, data: string)
    | OpFinish

  /** The elements of a finite set in increasing order, the way a std::map is walked. */
  function Ascending(s: set<nat>): (r: seq<nat>)
    ensures forall x :: x in r <==> x in s
    ensures |r| == |s|
  {
    if s == {} then []
    else
      var m := Least(s);
      assert |s - {m}| == |s| - 1;
      [m] + Ascending(s - {m})
  }

  function Least(s: set<nat>): (m: nat)
    requires s != {}
    ensures m in s && forall x :: x in s ==> m <= x
  {
    LeastExists(s);
    var m :| IsLeast(s, m);
    m
  }

  predicate IsLeast(s: set<nat>, m: nat) { m in s && forall x :: x in s ==> m <= x }

  lemma {:induction false} LeastExists(s: set<nat>)
    requires s != {}
    ensures exists m :: IsLeast(s, m)
  {
    var a :| a in s;
    var rest := s - {a};
    if rest == {} {
      assert s == {a};
      assert IsLeast(s, a);
    } else {
      assert |rest| < |s|;
      LeastExists(rest);
      var b :| IsLeast(rest, b);
      forall x | x in s ensures (if a < b then a else b) <= x {
        assert x == a || x in rest;
      }
      assert IsLeast(s, if a < b then a else b);
    }
  }

  function Apply(s: Ledger, op: Op): Ledger {
    match op
    case OpContextBegin(handle) => ContextBegin(s, handle).s
    case OpContextEnd(handle) => ContextEnd(s, handle, Ascending(s.ids.pending.Keys)).s
    case OpModuleLoad(ctx, mod, api) => ModuleLocked(s, ctx, mod, api, true).s
    case OpModuleUnload(ctx, mod) => ModuleUnload(s, ctx, mod).s
    case OpFunction(ctx, mod, fn, attributes) => FunctionLocked(s, ctx, mod, fn, attributes).s
    case OpCapture(ctx, mod, fn, capture) => CaptureFunction(s, ctx, mod, fn, capture).s
    case OpLaunch(ctx, fn, id, launch) => LaunchStep(s, ctx, fn, id, launch).s
    case OpComplete(ctx, id, completed, drained) => Complete(s, ctx, id, completed, drained).s
    case OpGap(reason) => NoteGap(s, reason).s
    case OpPlan(name, data) => NotePlan(s, name, data).s
    case OpFinish => Finish(s).s
  }

  function Run(s: Ledger, ops: seq<Op>): Ledger {
    if ops == [] then s else Apply(Run(s, ops[..|ops| - 1]), ops[|ops| - 1])
  }
}
