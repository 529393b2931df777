/** What holds in every state the ledger can reach, including after a call that threw. */
module LedgerState {
  import opened Sequences
  import opened LedgerSpec

  // ------------------------------------------------------------ lifetimes

  ghost predicate LiveModule(modules: map<HandleKey, Module>, ctx: nat, key: ModuleKey) {
    HandleKey(ctx, key.handle) in modules && modules[HandleKey(ctx, key.handle)].key == key
  }

  ghost predicate ContextsOk(contexts: map<nat, Context>, counter: nat) {
    forall c :: c in contexts ==> contexts[c].key.handle == c && contexts[c].key.ordinal < counter
  }

  /** Every module lifetime lies inside the lifetime of its context. */
  ghost predicate ModulesOk(modules: map<HandleKey, Module>, contexts: map<nat, Context>, counter: nat) {
    forall k :: k in modules ==>
      && k.ctx in contexts && modules[k].key.context == contexts[k.ctx].key
      && modules[k].key.handle == k.handle && modules[k].key.ordinal < counter
  }

  /** No function is both usable and failed, and each names a live module of its own context. */
  ghost predicate FunctionsOk(functions: map<HandleKey, FunctionIdentity>, failed: map<HandleKey, ModuleKey>,
                              modules: map<HandleKey, Module>) {
    && (forall k :: k in functions ==> k !in failed)
    && (forall k :: k in functions ==> functions[k].handle == k.handle && LiveModule(modules, k.ctx, functions[k].mod))
    && (forall k :: k in failed ==> LiveModule(modules, k.ctx, failed[k]))
  }

  ghost predicate LiveOk(l: Live) {
    && ContextsOk(l.contexts, l.contextCounter)
    && ModulesOk(l.modules, l.contexts, l.moduleCounter)
    && FunctionsOk(l.functions, l.failed, l.modules)
  }

  /** Every pending launch belongs to a live context. */
  ghost predicate PendingOk(pending: map<nat, Launch>, contexts: map<nat, Context>) {
    forall id :: id in pending ==>
      && pending[id].ctx in contexts && pending[id].key.id == id
      && pending[id].key.fn.mod.context == contexts[pending[id].ctx].key
  }

  // ------------------------------------------------------------ retired ids

  /** The last `k` elements, or all of them. */
  ghost function Last<T>(s: seq<T>, k: nat): seq<T> {
    if |s| <= k then s else s[|s| - k..]
  }

  /** The retired ids are exactly the last retirements, oldest first. */
  ghost predicate Window(retired: set<nat>, order: seq<nat>, retirements: seq<nat>, limit: nat) {
    && order == Last(retirements, limit)
    && Distinct(order)
    && (forall i :: 0 <= i < |order| ==> order[i] in retired)
    && (forall id :: id in retired ==> id in order)
  }

  ghost predicate IdsOk(ids: Ids, limit: nat) {
    && Window(ids.retired, ids.order, ids.retirements, limit)
    && ids.retired !! ids.pending.Keys
  }

  /** The oldest id leaves a window that has grown too long. */
  lemma {:induction false} WindowSlides(order: seq<nat>, retired: set<nat>)
    requires |order| > 0 && Distinct(order)
    requires forall i :: 0 <= i < |order| ==> order[i] in retired
    requires forall id :: id in retired ==> id in order
    ensures Distinct(order[1..])
    ensures forall i :: 0 <= i < |order| - 1 ==> order[1..][i] in retired - {order[0]}
    ensures forall id :: id in retired - {order[0]} ==> id in order[1..]
  {
    forall i | 0 <= i < |order| - 1 ensures order[1..][i] in retired - {order[0]} {
      assert order[1..][i] == order[i + 1] && order[i + 1] != order[0];
    }
    forall id | id in retired - {order[0]} ensures id in order[1..] {
      var i :| 0 <= i < |order| && order[i] == id;
      assert order[1..][i - 1] == id;
    }
  }

  lemma {:induction false} RetireKeeps(ids: Ids, limit: nat, id: nat)
    requires IdsOk(ids, limit) && id !in ids.retired
    ensures var t := Retire(ids, limit, id);
            && Window(t.retired, t.order, t.retirements, limit)
            && t.retired <= ids.retired + {id} && t.pending == ids.pending
  {
    var t, longer := Retire(ids, limit, id), ids.order + [id];
    if limit == 0 {
    } else {
      assert id !in ids.order;
      assert Distinct(longer);
      assert forall x :: x in ids.retired + {id} ==> x in longer;
      LastGrows(ids.retirements, limit, id);
      if |longer| > limit {
        WindowSlides(longer, ids.retired + {id});
      }
    }
  }

  lemma LastGrows<T>(s: seq<T>, k: nat, x: T)
    requires k > 0
    ensures var longer := Last(s, k) + [x]; Last(s + [x], k) == if |longer| > k then longer[1..] else longer
  {
  }

  lemma {:induction false} RetirePendingKeeps(ids: Ids, limit: nat, id: nat)
    requires IdsOk(ids, limit) && id in ids.pending
    ensures var t := RetirePending(ids, limit, id);
            IdsOk(t, limit) && t.pending == ids.pending - {id} && |t.pending| <= |ids.pending|
  {
    RetireKeeps(ids, limit, id);
    SubsetCount(ids.pending - {id}, ids.pending);
  }

  lemma {:induction false} DrainKeeps(ids: Ids, limit: nat, handle: nat, walk: seq<nat>)
    requires IdsOk(ids, limit)
    ensures var t := DrainPending(ids, limit, handle, walk);
            && IdsOk(t, limit) && |t.pending| <= |ids.pending|
            && (forall id :: id in t.pending <==> id in ids.pending && !(id in walk && ids.pending[id].ctx == handle))
            && (forall id :: id in t.pending ==> t.pending[id] == ids.pending[id])
    decreases |walk|
  {
    if walk != [] {
      if walk[0] in ids.pending && ids.pending[walk[0]].ctx == handle {
        RetirePendingKeeps(ids, limit, walk[0]);
        DrainKeeps(RetirePending(ids, limit, walk[0]), limit, handle, walk[1..]);
      } else {
        DrainKeeps(ids, limit, handle, walk[1..]);
      }
      assert forall id :: id in walk <==> id == walk[0] || id in walk[1..];
    }
  }

  // ------------------------------------------------------------ budgets

  ghost predicate Budgets(l: Live, pending: map<nat, Launch>, limits: Limits) {
    && |l.contexts| <= limits.contexts
    && |l.modules| <= limits.modules
    && |l.functions| + |l.failed| <= limits.functions
    && |pending| <= limits.pendingLaunches
  }

  lemma {:induction false} WindowSize(ids: Ids, limit: nat)
    requires IdsOk(ids, limit)
    ensures |ids.retired| == |ids.order| <= limit
  {
    ElementCount(ids.order, ids.retired);
  }

  lemma {:induction false} ElementCount(order: seq<nat>, elements: set<nat>)
    requires Distinct(order)
    requires forall id :: id in elements <==> id in order
    ensures |elements| == |order|
  {
    if order == [] {
      assert elements == {};
    } else {
      var rest := order[1..];
      assert order == [order[0]] + rest;
      forall id ensures id in elements - {order[0]} <==> id in rest {
        if id == order[0] {
          assert id !in rest;
        }
      }
      ElementCount(rest, elements - {order[0]});
    }
  }

  lemma SubsetCount<K, V>(a: map<K, V>, b: map<K, V>)
    requires a.Keys <= b.Keys
    ensures |a| <= |b|
  {
    assert b.Keys == a.Keys + (b.Keys - a.Keys);
    assert |a| == |a.Keys| && |b| == |b.Keys|;
  }

  ghost predicate Structure(s: Ledger) {
    && LiveOk(s.live)
    && PendingOk(s.ids.pending, s.live.contexts)
    && IdsOk(s.ids, s.limits.retiredLaunchIds)
    && Budgets(s.live, s.ids.pending, s.limits)
  }

  // ------------------------------------------------------------ every operation keeps it

  lemma BeginContextKeeps(l: Live, pending: map<nat, Launch>, handle: nat)
    requires LiveOk(l) && PendingOk(pending, l.contexts) && handle !in l.contexts
    ensures LiveOk(BeginContext(l, handle)) && PendingOk(pending, BeginContext(l, handle).contexts)
  {
  }

  lemma {:induction false} DropContextKeeps(l: Live, handle: nat)
    requires LiveOk(l)
    ensures LiveOk(DropContext(l, handle))
  {
    var t := DropContext(l, handle);
    assert ModulesOk(t.modules, t.contexts, t.moduleCounter);
    assert ContextsOk(t.contexts, t.contextCounter);
    FunctionsStay(l, t);
  }

  /** Functions whose modules stay are untouched by a smaller inventory. */
  lemma FunctionsStay(l: Live, t: Live)
    requires FunctionsOk(l.functions, l.failed, l.modules)
    requires forall k :: k in t.functions ==>
               && k in l.functions && t.functions[k] == l.functions[k]
               && LiveModule(t.modules, k.ctx, l.functions[k].mod)
    requires forall k :: k in t.failed ==>
               && k in l.failed && t.failed[k] == l.failed[k] && LiveModule(t.modules, k.ctx, l.failed[k])
    ensures FunctionsOk(t.functions, t.failed, t.modules)
  {
  }

  lemma DropContextShrinks(l: Live, handle: nat)
    ensures var t := DropContext(l, handle);
            && |t.contexts| <= |l.contexts| && |t.modules| <= |l.modules|
            && |t.functions| <= |l.functions| && |t.failed| <= |l.failed|
  {
    var t := DropContext(l, handle);
    SubsetCount(t.contexts, l.contexts);
    SubsetCount(t.modules, l.modules);
    SubsetCount(t.functions, l.functions);
    SubsetCount(t.failed, l.failed);
  }

  lemma {:induction false} BeginModuleKeeps(l: Live, ctx: nat, mod: nat, observed: bool)
    requires LiveOk(l) && ctx in l.contexts && HandleKey(ctx, mod) !in l.modules
    ensures LiveOk(BeginModule(l, ctx, mod, observed))
    ensures |BeginModule(l, ctx, mod, observed).modules| == |l.modules| + 1
  {
    var t := BeginModule(l, ctx, mod, observed);
    forall c, key: ModuleKey | LiveModule(l.modules, c, key) ensures LiveModule(t.modules, c, key) {
    }
    assert FunctionsOk(t.functions, t.failed, t.modules);
  }

  lemma {:induction false} DropModuleKeeps(l: Live, ctx: nat, mod: nat)
    requires LiveOk(l) && HandleKey(ctx, mod) in l.modules
    ensures LiveOk(DropModule(l, ctx, mod))
  {
    var t := DropModule(l, ctx, mod);
    forall c, key: ModuleKey | LiveModule(l.modules, c, key) && !(c == ctx && key == l.modules[HandleKey(ctx, mod)].key)
      ensures LiveModule(t.modules, c, key)
    {
    }
    FunctionsStay(l, t);
  }

  lemma DropModuleShrinks(l: Live, ctx: nat, mod: nat)
    requires HandleKey(ctx, mod) in l.modules
    ensures var t := DropModule(l, ctx, mod);
            |t.modules| <= |l.modules| && |t.functions| <= |l.functions| && |t.failed| <= |l.failed|
  {
    var t := DropModule(l, ctx, mod);
    SubsetCount(t.modules, l.modules);
    SubsetCount(t.functions, l.functions);
    SubsetCount(t.failed, l.failed);
  }

  lemma ModuleLockedKeeps(s: Ledger, ctx: nat, mod: nat, api: string, observed: bool)
    requires Structure(s)
    ensures var r := ModuleLocked(s, ctx, mod, api, observed);
            && Structure(r.s) && (r.ok ==> HandleKey(ctx, mod) in r.s.live.modules)
  {
    if ctx in s.live.contexts && mod != 0 && HandleKey(ctx, mod) !in s.live.modules && |s.live.modules| < s.limits.modules {
      BeginModuleKeeps(s.live, ctx, mod, observed);
    }
  }

  lemma UseFunctionKeeps(l: Live, key: HandleKey, identity: FunctionIdentity)
    requires LiveOk(l) && key !in l.functions && key !in l.failed
    requires identity.handle == key.handle && LiveModule(l.modules, key.ctx, identity.mod)
    ensures LiveOk(l.(functions := l.functions[key := identity]))
    ensures |l.functions[key := identity]| == |l.functions| + 1
  {
    FunctionAdded(l.functions, l.failed, l.modules, key, identity);
    hide ContextsOk, ModulesOk, FunctionsOk;
  }

  lemma FunctionAdded(functions: map<HandleKey, FunctionIdentity>, failed: map<HandleKey, ModuleKey>,
                      modules: map<HandleKey, Module>, key: HandleKey, identity: FunctionIdentity)
    requires FunctionsOk(functions, failed, modules) && key !in failed
    requires identity.handle == key.handle && LiveModule(modules, key.ctx, identity.mod)
    ensures FunctionsOk(functions[key := identity], failed, modules)
  {
    hide LiveModule;
  }

  lemma FailFunctionKeeps(l: Live, key: HandleKey, mod: ModuleKey)
    requires LiveOk(l) && key !in l.functions && LiveModule(l.modules, key.ctx, mod)
    ensures LiveOk(FailFunction(l, key, mod))
    ensures |FailFunction(l, key, mod).failed| == |l.failed| + (if key in l.failed then 0 else 1)
  {
    assert FunctionsOk(l.functions, FailFunction(l, key, mod).failed, l.modules);
  }

  lemma BindFunctionKeeps(s: Ledger, key: HandleKey, identity: FunctionIdentity)
    requires Structure(s) && identity.handle == key.handle && LiveModule(s.live.modules, key.ctx, identity.mod)
    ensures Structure(BindFunction(s, key, identity).s)
  {
    hide LiveOk, PendingOk, IdsOk, LiveModule, Emit;
    if key !in s.live.failed && key !in s.live.functions {
      UseFunctionKeeps(s.live, key, identity);
      FailFunctionKeeps(s.live, key, identity.mod);
    }
  }

  lemma {:induction false} FunctionLockedKeeps(s: Ledger, ctx: nat, mod: nat, fn: nat, a: Attributes)
    requires Structure(s)
    ensures Structure(FunctionLocked(s, ctx, mod, fn, a).s)
  {
    if !(s.out.finished || fn == 0 || a.NotAnObject? || a.entry == None || a.cubin == None) {
      ModuleLockedKeeps(s, ctx, mod, "first_seen_function", false);
      var m := ModuleLocked(s, ctx, mod, "first_seen_function", false);
      if m.ok {
        var bound := m.s.live.modules[HandleKey(ctx, mod)];
        BindFunctionKeeps(m.s, HandleKey(ctx, fn),
                          FunctionIdentity(a.entry.value, a.cubin.value, a.rest, bound.key, bound.loadObserved, fn));
      }
    }
  }

  /** While nothing is bound to `key`, a call for it binds it, fails it, or leaves it alone. */
  lemma FunctionLockedRoom(s: Ledger, ctx: nat, mod: nat, fn: nat, a: Attributes)
    requires HandleKey(ctx, mod) in s.live.modules && ctx in s.live.contexts && mod != 0
    requires HandleKey(ctx, fn) !in s.live.functions && HandleKey(ctx, fn) !in s.live.failed
    ensures var r := FunctionLocked(s, ctx, mod, fn, a);
            && r.s.limits == s.limits && r.s.ids == s.ids && r.s.live.modules == s.live.modules
            && r.s.live.contexts == s.live.contexts
            && (r.served.Threw? ==>
                  && r.s.live.functions == s.live.functions
                  && (r.s.live.failed == s.live.failed || HandleKey(ctx, fn) in r.s.live.failed))
  {
  }

  /** A failed capture takes one place of the function inventory, which had room for one more. */
  lemma {:induction false} CaptureFunctionKeeps(s: Ledger, ctx: nat, mod: nat, fn: nat, c: Capture)
    requires Structure(s)
    ensures Structure(CaptureFunction(s, ctx, mod, fn, c).s)
  {
    if !s.out.finished && fn != 0 && !c.NoCallback? {
      ModuleLockedKeeps(s, ctx, mod, "first_seen_function", false);
      var m := ModuleLocked(s, ctx, mod, "first_seen_function", false);
      if m.ok {
        CaptureInKeeps(m.s, ctx, mod, HandleKey(ctx, fn), c);
      }
    }
  }

  lemma {:induction false} CaptureInKeeps(s: Ledger, ctx: nat, mod: nat, key: HandleKey, c: Capture)
    requires Structure(s) && ctx in s.live.contexts && HandleKey(ctx, mod) in s.live.modules && key.ctx == ctx && mod != 0
    ensures Structure(CaptureIn(s, ctx, mod, key, s.live.modules[HandleKey(ctx, mod)].key, c).s)
  {
    if key !in s.live.failed && key !in s.live.functions && |s.live.functions| + |s.live.failed| < s.limits.functions {
      var moduleKey := s.live.modules[HandleKey(ctx, mod)].key;
      LiveModuleAt(s.live, ctx, mod);
      if c.Captured? {
        FunctionLockedKeeps(s, ctx, mod, key.handle, c.a);
        FunctionLockedRoom(s, ctx, mod, key.handle, c.a);
        var r := FunctionLocked(s, ctx, mod, key.handle, c.a);
        if r.served.Threw? {
          FailKeeps(r.s, key, moduleKey, s);
        }
      } else {
        FailKeeps(s, key, moduleKey, s);
      }
    }
    hide Structure, LiveModule, FunctionLocked, FailFunction;
  }

  lemma LiveModuleAt(l: Live, ctx: nat, mod: nat)
    requires LiveOk(l) && HandleKey(ctx, mod) in l.modules
    ensures LiveModule(l.modules, ctx, l.modules[HandleKey(ctx, mod)].key)
  {
  }

  /** Failing a function takes the place that was free before the capture. */
  lemma FailKeeps(s: Ledger, key: HandleKey, mod: ModuleKey, before: Ledger)
    requires Structure(s) && key !in s.live.functions && LiveModule(s.live.modules, key.ctx, mod)
    requires s.limits == before.limits && |before.live.functions| + |before.live.failed| < before.limits.functions
    requires s.live.functions == before.live.functions && (s.live.failed == before.live.failed || key in s.live.failed)
    ensures Structure(s.(live := FailFunction(s.live, key, mod), out := WithGap(s.out, true)))
  {
    hide LiveOk, PendingOk, IdsOk, LiveModule;
    FailFunctionKeeps(s.live, key, mod);
  }

  lemma CountLaunchKeeps(l: Live, pending: map<nat, Launch>, ctx: nat, fn: FunctionIdentity)
    requires LiveOk(l) && PendingOk(pending, l.contexts) && ctx in l.contexts
    ensures LiveOk(CountLaunch(l, ctx, fn)) && PendingOk(pending, CountLaunch(l, ctx, fn).contexts)
    ensures forall c :: c in l.contexts ==> CountLaunch(l, ctx, fn).contexts[c].key == l.contexts[c].key
    ensures |CountLaunch(l, ctx, fn).contexts| == |l.contexts| && CountLaunch(l, ctx, fn).contexts.Keys == l.contexts.Keys
  {
    var t := CountLaunch(l, ctx, fn);
    assert t.contexts.Keys == l.contexts.Keys;
    assert |t.contexts| == |t.contexts.Keys| && |l.contexts| == |l.contexts.Keys|;
  }

  lemma PendKeeps(ids: Ids, contexts: map<nat, Context>, limit: nat, id: nat, launch: Launch)
    requires IdsOk(ids, limit) && PendingOk(ids.pending, contexts) && id !in ids.pending && id !in ids.retired
    requires launch.ctx in contexts && launch.key.id == id && launch.key.fn.mod.context == contexts[launch.ctx].key
    ensures IdsOk(ids.(pending := ids.pending[id := launch]), limit)
    ensures PendingOk(ids.pending[id := launch], contexts)
    ensures |ids.pending[id := launch]| == |ids.pending| + 1
  {
  }

  /** The id of a launch whose record was refused is never used again within the window. */
  lemma RefuseKeeps(ids: Ids, limit: nat, id: nat)
    requires IdsOk(ids, limit) && id !in ids.pending && id !in ids.retired
    ensures IdsOk(Retire(ids, limit, id), limit)
  {
    RetireKeeps(ids, limit, id);
  }

  lemma FunctionHome(l: Live, key: HandleKey)
    requires LiveOk(l) && key in l.functions
    ensures key.ctx in l.contexts && l.functions[key].mod.context == l.contexts[key.ctx].key
  {
    assert LiveModule(l.modules, key.ctx, l.functions[key].mod);
  }

  lemma {:induction false} LaunchKeeps(s: Ledger, ctx: nat, fn: nat, id: nat, a: LaunchAttributes)
    requires Structure(s)
    ensures Structure(LaunchStep(s, ctx, fn, id, a).s)
  {
    hide LiveOk, IdsOk, PendingOk;
    if !(s.out.finished || ctx !in s.live.contexts || HandleKey(ctx, fn) !in s.live.functions || a.NotAnObject?)
       && !(id in s.ids.pending || id in s.ids.retired || |s.ids.pending| >= s.limits.pendingLaunches) {
      var identity := s.live.functions[HandleKey(ctx, fn)];
      FunctionHome(s.live, HandleKey(ctx, fn));
      CountLaunchKeeps(s.live, s.ids.pending, ctx, identity);
      PendKeeps(s.ids, CountLaunch(s.live, ctx, identity).contexts, s.limits.retiredLaunchIds, id,
                Launch(ctx, NextLaunch(s.live, ctx, identity, id, a), a.captureSelected != Some(false)));
      RefuseKeeps(s.ids, s.limits.retiredLaunchIds, id);
    }
  }

  lemma FewerPending(pending: map<nat, Launch>, contexts: map<nat, Context>, id: nat)
    requires PendingOk(pending, contexts)
    ensures PendingOk(pending - {id}, contexts)
  {
  }

  lemma {:induction false} CompleteKeeps(s: Ledger, ctx: nat, id: nat, completed: bool, drained: bool)
    requires Structure(s)
    ensures Structure(Complete(s, ctx, id, completed, drained).s)
  {
    hide LiveOk, IdsOk, PendingOk, Emit, RetirePending;
    if id in s.ids.pending {
      RetirePendingKeeps(s.ids, s.limits.retiredLaunchIds, id);
      FewerPending(s.ids.pending, s.live.contexts, id);
    }
  }

  /** A context that ends takes all of its pending launches with it. */
  lemma DrainedBelong(ids: Ids, contexts: map<nat, Context>, limit: nat, handle: nat, walk: seq<nat>)
    requires IdsOk(ids, limit) && PendingOk(ids.pending, contexts) && forall id :: id in ids.pending ==> id in walk
    ensures PendingOk(DrainPending(ids, limit, handle, walk).pending, contexts - {handle})
  {
    hide IdsOk;
    DrainKeeps(ids, limit, handle, walk);
  }

  lemma {:induction false} ContextEndKeeps(s: Ledger, handle: nat, walk: seq<nat>)
    requires Structure(s) && forall id :: id in s.ids.pending ==> id in walk
    ensures Structure(ContextEnd(s, handle, walk).s)
  {
    hide LiveOk, IdsOk, PendingOk;
    if !s.out.finished && handle in s.live.contexts {
      DrainKeeps(s.ids, s.limits.retiredLaunchIds, handle, walk);
      DrainedBelong(s.ids, s.live.contexts, s.limits.retiredLaunchIds, handle, walk);
      DropContextKeeps(s.live, handle);
      DropContextShrinks(s.live, handle);
    }
  }

  lemma ContextBeginKeeps(s: Ledger, handle: nat)
    requires Structure(s)
    ensures Structure(ContextBegin(s, handle).s)
  {
    hide LiveOk, PendingOk, IdsOk, Emit;
    if handle !in s.live.contexts {
      BeginContextKeeps(s.live, s.ids.pending, handle);
    }
  }

  lemma ModuleUnloadKeeps(s: Ledger, ctx: nat, mod: nat)
    requires Structure(s)
    ensures Structure(ModuleUnload(s, ctx, mod).s)
  {
    hide LiveOk, PendingOk, IdsOk, Emit;
    if HandleKey(ctx, mod) in s.live.modules {
      DropModuleKeeps(s.live, ctx, mod);
      DropModuleShrinks(s.live, ctx, mod);
    }
  }

  lemma NotesKeep(s: Ledger, op: Op)
    requires Structure(s) && (op.OpGap? || op.OpPlan? || op.OpFinish?)
    ensures Structure(Apply(s, op))
  {
    hide LiveOk, PendingOk, IdsOk, Emit;
  }

  lemma {:induction false} ApplyKeeps(s: Ledger, op: Op)
    requires Structure(s)
    ensures Structure(Apply(s, op))
  {
    hide Structure, ContextBegin, ContextEnd, ModuleLocked, ModuleUnload, FunctionLocked, CaptureFunction, LaunchStep, Complete,
         Ascending;
    match op {
      case OpContextBegin(handle) => ContextBeginKeeps(s, handle);
      case OpContextEnd(handle) => ContextEndKeeps(s, handle, Ascending(s.ids.pending.Keys));
      case OpModuleLoad(ctx, mod, api) => ModuleLockedKeeps(s, ctx, mod, api, true);
      case OpModuleUnload(ctx, mod) => ModuleUnloadKeeps(s, ctx, mod);
      case OpFunction(ctx, mod, fn, attributes) => FunctionLockedKeeps(s, ctx, mod, fn, attributes);
      case OpCapture(ctx, mod, fn, capture) => CaptureFunctionKeeps(s, ctx, mod, fn, capture);
      case OpLaunch(ctx, fn, id, launch) => LaunchKeeps(s, ctx, fn, id, launch);
      case OpComplete(ctx, id, completed, drained) => CompleteKeeps(s, ctx, id, completed, drained);
      case _ => NotesKeep(s, op);
    }
    assert Structure(Apply(s, op));
  }

  /** Every run of ledger calls, whatever the sink accepts, keeps the structure. */
  lemma {:induction false} ReachableStructure(sink: nat -> bool, limits: Limits, ops: seq<Op>)
    ensures Structure(Run(Initial(sink, limits), ops))
  {
    if ops != [] {
      ReachableStructure(sink, limits, ops[..|ops| - 1]);
      ApplyKeeps(Run(Initial(sink, limits), ops[..|ops| - 1]), ops[|ops| - 1]);
    }
  }
}
