/** The ledger as the program has it: an object whose methods change its fields in place.  A method returns
    `ok` false where the program throws.  Every method is the step of the same name in LedgerSpec. */
module RuntimeIdentity {
  import opened Sequences
  import opened LedgerSpec

  /** Walks a map and erases every entry of one context. */
  method EraseContext<V(==)>(m: map<HandleKey, V>, handle: nat) returns (r: map<HandleKey, V>)
    ensures r == OutsideContext(m, handle)
  {
    r := m;
    var todo := m.Keys;
    while todo != {}
      invariant todo <= m.Keys
      invariant forall k :: k in r <==> k in m && !(k.ctx == handle && k !in todo)
      invariant forall k :: k in r ==> r[k] == m[k]
    {
      var k :| k in todo;
      if k.ctx == handle {
        r := r - {k};
      }
      todo := todo - {k};
    }
  }

  method EraseFunctions(m: map<HandleKey, FunctionIdentity>, ctx: nat, mod: ModuleKey) returns (r: map<HandleKey, FunctionIdentity>)
    ensures r == FunctionsOutside(m, ctx, mod)
  {
    r := m;
    var todo := m.Keys;
    while todo != {}
      invariant todo <= m.Keys
      invariant forall k :: k in r <==> k in m && !(k.ctx == ctx && m[k].mod == mod && k !in todo)
      invariant forall k :: k in r ==> r[k] == m[k]
    {
      var k :| k in todo;
      if k.ctx == ctx && m[k].mod == mod {
        r := r - {k};
      }
      todo := todo - {k};
    }
  }

  method EraseFailed(m: map<HandleKey, ModuleKey>, ctx: nat, mod: ModuleKey) returns (r: map<HandleKey, ModuleKey>)
    ensures r == FailedOutside(m, ctx, mod)
  {
    r := m;
    var todo := m.Keys;
    while todo != {}
      invariant todo <= m.Keys
      invariant forall k :: k in r <==> k in m && !(k.ctx == ctx && m[k] == mod && k !in todo)
      invariant forall k :: k in r ==> r[k] == m[k]
    {
      var k :| k in todo;
      if k.ctx == ctx && m[k] == mod {
        r := r - {k};
      }
      todo := todo - {k};
    }
  }

  class RuntimeIdentityLedger {
    const sink: nat -> bool
    const limits: Limits
    var sequence: nat
    var contextCounter: nat
    var moduleCounter: nat
    var finished: bool
    var gap: bool
    var contexts: map<nat, Context>
    var modules: map<HandleKey, Module>
    var functions: map<HandleKey, FunctionIdentity>
    var failedFunctions: map<HandleKey, ModuleKey>
    var pending: map<nat, Launch>
    var retiredLaunchIds: set<nat>
    var retiredLaunchOrder: seq<nat>
    ghost var log: seq<Record>
    ghost var retirements: seq<nat>

    ghost function LiveView(): Live reads this {
      Live(contextCounter, moduleCounter, contexts, modules, functions, failedFunctions)
    }

    ghost function IdsView(): Ids reads this {
      Ids(pending, retiredLaunchIds, retiredLaunchOrder, retirements)
    }

    ghost function OutView(): Out reads this {
      Out(sink, sequence, finished, gap, log)
    }

    ghost function View(): Ledger reads this {
      Ledger(limits, LiveView(), IdsView(), OutView())
    }

    /** Construction throws when the sink refuses the first record; there is then no ledger. */
    constructor (sink: nat -> bool, limits: Limits)
      requires sink(0)
      ensures View() == Initial(sink, limits)
    {
      this.sink, this.limits := sink, limits;
      sequence, contextCounter, moduleCounter := 1, 0, 0;
      finished, gap := false, false;
      contexts, modules, functions, failedFunctions := map[], map[], map[], map[];
      pending, retiredLaunchIds, retiredLaunchOrder := map[], {}, [];
      log, retirements := [Record(0, ProcessStart)], [];
    }

    method Publish(e: Event) returns (ok: bool)
      modifies `sequence, `gap, `log
      ensures OutView() == Emit(old(OutView()), e).out && ok == Emit(old(OutView()), e).ok
    {
      if finished {
        return false;
      }
      ok := sink(sequence);
      if ok {
        log := log + [Record(sequence, e)];
      } else {
        gap := true;
      }
      sequence := sequence + 1;
    }

    method RetireLaunchId(id: nat)
      modifies `retiredLaunchIds, `retiredLaunchOrder, `retirements
      ensures IdsView() == Retire(old(IdsView()), limits.retiredLaunchIds, id)
    {
      retirements := retirements + [id];
      if limits.retiredLaunchIds == 0 || id in retiredLaunchIds {
        return;
      }
      retiredLaunchIds := retiredLaunchIds + {id};
      retiredLaunchOrder := retiredLaunchOrder + [id];
      if |retiredLaunchOrder| > limits.retiredLaunchIds {
        retiredLaunchIds := retiredLaunchIds - {retiredLaunchOrder[0]};
        retiredLaunchOrder := retiredLaunchOrder[1..];
      }
    }

    method BeginContextLifetime(handle: nat) returns (ok: bool, key: ContextKey)
      modifies this
      ensures var r := ContextBegin(old(View()), handle); View() == r.s && ok == r.ok
      ensures ok ==> key == ContextKey(old(contextCounter), handle)
    {
      hide Emit, BeginContext;
      key := ContextKey(contextCounter, handle);
      ok := false;
      if !finished && handle != 0 && handle !in contexts && |contexts| < limits.contexts {
        AddContext(handle);
        ok := Publish(ContextBegun(key));
      }
    }

    method AddContext(handle: nat)
      modifies `contextCounter, `contexts
      ensures LiveView() == BeginContext(old(LiveView()), handle)
    {
      contexts := contexts[handle := Context(ContextKey(contextCounter, handle), map[])];
      contextCounter := contextCounter + 1;
    }

    /** The loop over the pending launches, which erases those of one context. */
    method RetireContext(handle: nat) returns (incomplete: seq<Event>)
      modifies `pending, `retiredLaunchIds, `retiredLaunchOrder, `retirements
      ensures var walk := Ascending(old(pending).Keys);
              && IdsView() == DrainPending(old(IdsView()), limits.retiredLaunchIds, handle, walk)
              && incomplete == IncompleteOf(old(pending), handle, walk)
    {
      hide Ascending, Retire;
      var walk := Ascending(pending.Keys);
      incomplete := [];
      for i := 0 to |walk|
        invariant DrainPending(IdsView(), limits.retiredLaunchIds, handle, walk[i..])
               == DrainPending(old(IdsView()), limits.retiredLaunchIds, handle, walk)
        invariant incomplete + IncompleteOf(pending, handle, walk[i..]) == IncompleteOf(old(pending), handle, walk)
      {
        assert walk[i..][0] == walk[i] && walk[i..][1..] == walk[i + 1..];
        if walk[i] in pending && pending[walk[i]].ctx == handle {
          incomplete := incomplete + [LaunchIncomplete(pending[walk[i]].key)];
          RetireLaunchId(walk[i]);
          pending := pending - {walk[i]};
        }
      }
    }

    method PublishAll(events: seq<Event>) returns (ok: bool)
      modifies `sequence, `gap, `log
      ensures OutView() == EmitAll(old(OutView()), events).out && ok == EmitAll(old(OutView()), events).ok
    {
      for i := 0 to |events|
        invariant EmitAll(OutView(), events[i..]) == EmitAll(old(OutView()), events)
      {
        assert events[i..][0] == events[i] && events[i..][1..] == events[i + 1..];
        ok := Publish(events[i]);
        if !ok {
          return;
        }
      }
      ok := true;
    }

    method EraseLifetimes(handle: nat)
      modifies `modules, `functions, `failedFunctions, `contexts
      ensures LiveView() == DropContext(old(LiveView()), handle)
    {
      modules := EraseContext(modules, handle);
      functions := EraseContext(functions, handle);
      failedFunctions := EraseContext(failedFunctions, handle);
      contexts := contexts - {handle};
    }

    method EndContextLifetime(handle: nat) returns (ok: bool)
      modifies this
      ensures var r := ContextEnd(old(View()), handle, Ascending(old(pending).Keys));
              View() == r.s && ok == r.ok
    {
      hide DrainPending, IncompleteOf, EmitAll, Ascending, DropContext;
      if finished || handle !in contexts {
        return false;
      }
      var key := contexts[handle].key;
      var incomplete := RetireContext(handle);
      EraseLifetimes(handle);
      ok := PublishEnd(key, incomplete);
    }

    method PublishEnd(key: ContextKey, incomplete: seq<Event>) returns (ok: bool)
      modifies `sequence, `gap, `log
      ensures var r := EmitAll(WithGap(old(OutView()), incomplete != []), incomplete + [ContextEnded(key, |incomplete|)]);
              OutView() == r.out && ok == r.ok
    {
      hide EmitAll;
      if incomplete != [] {
        gap := true;
      }
      assert OutView() == WithGap(old(OutView()), incomplete != []);
      ok := PublishAll(incomplete + [ContextEnded(key, |incomplete|)]);
    }

    method FindModule(ctx: nat, mod: nat, api: string, observed: bool) returns (ok: bool, key: Option<ModuleKey>)
      modifies this
      ensures View() == ModuleLocked(old(View()), ctx, mod, api, observed).s
      ensures ok == ModuleLocked(old(View()), ctx, mod, api, observed).ok
      ensures ok ==> HandleKey(ctx, mod) in modules && key == Some(modules[HandleKey(ctx, mod)].key)
    {
      if ctx !in contexts || mod == 0 {
        return false, None;
      }
      if HandleKey(ctx, mod) in modules {
        return !observed, Some(modules[HandleKey(ctx, mod)].key);
      }
      if |modules| >= limits.modules {
        return false, None;
      }
      var begun := ModuleKey(contexts[ctx].key, moduleCounter, mod);
      moduleCounter := moduleCounter + 1;
      modules := modules[HandleKey(ctx, mod) := Module(begun, observed)];
      ok := Publish(ModuleBegun(begun, observed, api));
      key := Some(begun);
    }

    method UnloadModule(ctx: nat, mod: nat) returns (ok: bool)
      modifies this
      ensures var r := ModuleUnload(old(View()), ctx, mod); View() == r.s && ok == r.ok
    {
      hide Emit, DropModule;
      if finished || ctx !in contexts {
        return false;
      }
      if HandleKey(ctx, mod) !in modules {
        gap := true;
        ok := Publish(GapNoted("unload_without_module_begin"));
        return;
      }
      var key := modules[HandleKey(ctx, mod)].key;
      EraseModule(ctx, mod);
      ok := Publish(ModuleEnded(key));
    }

    method EraseModule(ctx: nat, mod: nat)
      requires HandleKey(ctx, mod) in modules
      modifies `modules, `functions, `failedFunctions
      ensures LiveView() == DropModule(old(LiveView()), ctx, mod)
    {
      var key := modules[HandleKey(ctx, mod)].key;
      modules := modules - {HandleKey(ctx, mod)};
      functions := EraseFunctions(functions, ctx, key);
      failedFunctions := EraseFailed(failedFunctions, ctx, key);
    }

    method IdentifyFunction(ctx: nat, mod: nat, fn: nat, a: Attributes) returns (served: Served)
      modifies this
      ensures var r := FunctionLocked(old(View()), ctx, mod, fn, a); View() == r.s && served == r.served
    {
      hide ModuleLocked, BindFunction;
      if finished || fn == 0 || a.NotAnObject? || a.entry == None || a.cubin == None {
        return Threw;
      }
      var found, _ := FindModule(ctx, mod, "first_seen_function", false);
      if !found {
        return Threw;
      }
      var bound := modules[HandleKey(ctx, mod)];
      served := Bind(HandleKey(ctx, fn), FunctionIdentity(a.entry.value, a.cubin.value, a.rest, bound.key, bound.loadObserved, fn));
    }

    /** Serves an identity that is already bound, or binds it once its record is published. */
    method Bind(key: HandleKey, identity: FunctionIdentity) returns (served: Served)
      modifies this
      ensures var r := BindFunction(old(View()), key, identity); View() == r.s && served == r.served
    {
      hide Emit;
      if key in failedFunctions {
        return Threw;
      }
      if key in functions {
        return if functions[key] == identity then Identity(identity) else Threw;
      }
      if |functions| + |failedFunctions| >= limits.functions {
        return Threw;
      }
      var published := Publish(FunctionSeen(identity));
      if !published {
        failedFunctions := failedFunctions[key := identity.mod];
        return Threw;
      }
      functions := functions[key := identity];
      served := Identity(identity);
    }

    /** `c` is what the capture callback returns or throws. */
    method IdentifyCaptured(ctx: nat, mod: nat, fn: nat, c: Capture) returns (served: Served)
      modifies this
      ensures var r := CaptureFunction(old(View()), ctx, mod, fn, c); View() == r.s && served == r.served
    {
      if finished || fn == 0 || c.NoCallback? {
        return Threw;
      }
      var found, moduleKey := FindModule(ctx, mod, "first_seen_function", false);
      if !found {
        return Threw;
      }
      var key := HandleKey(ctx, fn);
      if key in failedFunctions {
        return if failedFunctions[key] == moduleKey.value then Unavailable else Threw;
      }
      if key in functions {
        return if functions[key].mod == moduleKey.value then Identity(functions[key]) else Threw;
      }
      if |functions| + |failedFunctions| >= limits.functions {
        return Threw;
      }
      served := Threw;
      if c.Captured? {
        served := IdentifyFunction(ctx, mod, fn, c.a);
      }
      if served.Threw? {
        if key !in failedFunctions {
          failedFunctions := failedFunctions[key := moduleKey.value];
        }
        gap := true;
      }
    }

    method TakeOrdinal(ctx: nat, binding: FunctionIdentity) returns (ordinal: nat)
      requires ctx in contexts
      modifies `contexts
      ensures LiveView() == CountLaunch(old(LiveView()), ctx, binding) && ordinal == OrdinalOf(old(contexts[ctx]), binding)
    {
      var current, key := contexts[ctx], OrdinalKey(binding.cubin, binding.entry);
      ordinal := if key in current.ordinals then current.ordinals[key] else 0;
      contexts := contexts[ctx := current.(ordinals := current.ordinals[key := ordinal + 1])];
    }

    method BeginLaunch(ctx: nat, fn: nat, id: nat, a: LaunchAttributes) returns (ok: bool)
      modifies this
      ensures var r := LaunchStep(old(View()), ctx, fn, id, a); View() == r.s && ok == r.ok
    {
      hide CountLaunch, OrdinalOf, Emit, Retire;
      if finished || ctx !in contexts || HandleKey(ctx, fn) !in functions || a.NotAnObject? {
        return false;
      }
      if id in pending || id in retiredLaunchIds || |pending| >= limits.pendingLaunches {
        return false;
      }
      var binding := functions[HandleKey(ctx, fn)];
      var ordinal := TakeOrdinal(ctx, binding);
      var key := LaunchKey(binding, id, ordinal, a);
      ok := PublishLaunch(id, Launch(ctx, key, a.captureSelected != Some(false)));
    }

    method PublishLaunch(id: nat, launch: Launch) returns (ok: bool)
      modifies `sequence, `gap, `log, `pending, `retiredLaunchIds, `retiredLaunchOrder, `retirements
      ensures var e := Emit(old(OutView()), Launched(launch.key)); OutView() == e.out && ok == e.ok
      ensures IdsView() == if ok then old(IdsView()).(pending := old(pending)[id := launch])
                           else Retire(old(IdsView()), limits.retiredLaunchIds, id)
    {
      hide Emit, Retire;
      ok := Publish(Launched(launch.key));
      if ok {
        pending := pending[id := launch];
      } else {
        RetireLaunchId(id);
      }
    }

    method CompleteLaunch(ctx: nat, id: nat, completed: bool, drained: bool) returns (ok: bool)
      modifies this
      ensures var r := Complete(old(View()), ctx, id, completed, drained); View() == r.s && ok == r.ok
    {
      hide Emit, RetirePending;
      ok := false;
      if id in pending && pending[id].ctx == ctx && ctx in contexts {
        ok := PublishCompletion(pending[id], completed, drained);
        if ok {
          RetirePendingLaunch(id);
        }
      }
    }

    method PublishCompletion(launch: Launch, completed: bool, drained: bool) returns (ok: bool)
      modifies `sequence, `gap, `log
      ensures var e := Emit(old(OutView()), DriverCompletion(launch.key, completed, drained, launch.captureSelected));
              OutView() == (if e.ok then WithGap(e.out, !completed || !drained) else e.out) && ok == e.ok
    {
      hide Emit;
      ok := Publish(DriverCompletion(launch.key, completed, drained, launch.captureSelected));
      if ok && (!completed || !drained) {
        gap := true;
      }
    }

    method RetirePendingLaunch(id: nat)
      modifies `pending, `retiredLaunchIds, `retiredLaunchOrder, `retirements
      ensures IdsView() == RetirePending(old(IdsView()), limits.retiredLaunchIds, id) && pending == old(pending) - {id}
    {
      hide Retire;
      RetireLaunchId(id);
      pending := pending - {id};
    }

    method Gap(reason: string) returns (ok: bool)
      modifies this
      ensures var r := NoteGap(old(View()), reason); View() == r.s && ok == r.ok
    {
      gap := true;
      ok := Publish(GapNoted(reason));
    }

    method Plan(name: string, data: string) returns (ok: bool)
      modifies this
      ensures var r := NotePlan(old(View()), name, data); View() == r.s && ok == r.ok
    {
      if name !in PLAN_EVENTS || finished {
        return false;
      }
      if name == "plan_gap" || name == "plan_error" {
        gap := true;
      }
      ok := Publish(PlanEvent(name, data));
    }

    method End() returns (ok: bool)
      modifies this
      ensures var r := Finish(old(View())); View() == r.s && ok == r.ok
    {
      hide Emit;
      if finished {
        return true;
      }
      ok := Publish(ProcessEnd(|pending|, |contexts|, gap || |pending| != 0));
      if ok {
        finished := true;
      }
    }
  }
}
