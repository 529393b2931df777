/** What the published log proves: a last record without gaps means that nothing was lost. */
module LedgerTrace {
  import opened Sequences
  import opened LedgerSpec
  import opened LedgerState

  /** Where the log holds each launch, each completion and each function. */
  datatype History = History(launchedAt: map<LaunchKey, nat>, completedAt: map<LaunchKey, nat>, seenAt: map<FunctionIdentity, nat>)

  ghost predicate LaunchRecords(log: seq<Record>, launchedAt: map<LaunchKey, nat>, seenAt: map<FunctionIdentity, nat>) {
    && (forall k :: k in launchedAt ==>
          && launchedAt[k] < |log| && log[launchedAt[k]].event == Launched(k)
          && k.fn in seenAt && seenAt[k.fn] < launchedAt[k])
    && (forall i :: 0 <= i < |log| && log[i].event.Launched? ==>
          log[i].event.launch in launchedAt && launchedAt[log[i].event.launch] == i)
  }

  ghost predicate CompletionRecords(log: seq<Record>, completedAt: map<LaunchKey, nat>, launchedAt: map<LaunchKey, nat>) {
    && (forall k :: k in completedAt ==>
          && completedAt[k] < |log| && IsCompletion(log[completedAt[k]].event, k)
          && k in launchedAt && launchedAt[k] < completedAt[k])
    && (forall i :: 0 <= i < |log| && log[i].event.DriverCompletion? ==>
          log[i].event.launch in completedAt && completedAt[log[i].event.launch] == i)
  }

  ghost predicate FunctionRecords(log: seq<Record>, seenAt: map<FunctionIdentity, nat>) {
    forall f :: f in seenAt ==> seenAt[f] < |log| && log[seenAt[f]].event == FunctionSeen(f)
  }

  /** The history describes the log exactly. */
  ghost predicate RecordsOk(log: seq<Record>, h: History) {
    && LaunchRecords(log, h.launchedAt, h.seenAt)
    && CompletionRecords(log, h.completedAt, h.launchedAt)
    && FunctionRecords(log, h.seenAt)
  }

  predicate IsCompletion(e: Event, k: LaunchKey) {
    e.DriverCompletion? && e.launch == k
  }

  /** An identity is served only after its record is published. */
  ghost predicate FunctionsPublished(functions: map<HandleKey, FunctionIdentity>, h: History) {
    forall k :: k in functions ==> functions[k] in h.seenAt
  }

  ghost predicate PendingRecorded(pending: map<nat, Launch>, h: History) {
    forall id :: id in pending ==> pending[id].key in h.launchedAt && pending[id].key !in h.completedAt
  }

  /** No launch that is still to come can carry a key already in the log. */
  ghost predicate Fresh(contexts: map<nat, Context>, counter: nat, h: History) {
    forall k :: k in h.launchedAt ==>
      && k.fn.mod.context.ordinal < counter
      && forall c :: c in contexts && contexts[c].key == k.fn.mod.context ==> k.kernelOrdinal < OrdinalOf(contexts[c], k.fn)
  }

  ghost predicate Gapless(log: seq<Record>, sequence: nat) {
    |log| == sequence && forall i :: 0 <= i < |log| ==> log[i].sequence == i
  }

  /** Every launch is completed cleanly or still pending. */
  ghost predicate Settled(log: seq<Record>, pending: map<nat, Launch>, launchedAt: map<LaunchKey, nat>,
                          completedAt: map<LaunchKey, nat>) {
    forall k :: k in launchedAt ==>
      if k in completedAt then completedAt[k] < |log| && CleanCompletion(log[completedAt[k]].event)
      else k.id in pending && pending[k.id].key == k
  }

  predicate CleanCompletion(e: Event) {
    e.DriverCompletion? && e.completed && e.drained
  }

  ghost predicate CompletedOnce(log: seq<Record>, i: nat, k: LaunchKey) {
    exists c :: i < c < |log| && SoleCompletion(log, c, k)
  }

  /** The record at `c` completes `k` cleanly, and no other record completes it. */
  ghost predicate SoleCompletion(log: seq<Record>, c: nat, k: LaunchKey)
    requires c < |log|
  {
    && IsCompletion(log[c].event, k) && CleanCompletion(log[c].event)
    && forall d :: 0 <= d < |log| && IsCompletion(log[d].event, k) ==> d == c
  }

  /** Sequence numbers without a hole, and every launch completed once, later, and completely. */
  ghost predicate Clean(log: seq<Record>) {
    && (forall i :: 0 <= i < |log| ==> log[i].sequence == i)
    && (forall i :: 0 <= i < |log| && log[i].event.Launched? ==> CompletedOnce(log, i, log[i].event.launch))
  }

  /** The last record, and no other, closes the process; without gaps it closes a clean log. */
  ghost predicate Ends(log: seq<Record>, finished: bool) {
    && (forall i :: 0 <= i < |log| && log[i].event.ProcessEnd? ==> finished && i == |log| - 1)
    && (finished ==> |log| > 0 && log[|log| - 1].event.ProcessEnd?)
    && (finished && !log[|log| - 1].event.hasGaps ==> Clean(log))
  }

  ghost predicate OutOk(o: Out, pending: map<nat, Launch>, h: History) {
    && RecordsOk(o.log, h)
    && (!o.gap ==> Gapless(o.log, o.sequence) && Settled(o.log, pending, h.launchedAt, h.completedAt))
    && Ends(o.log, o.finished)
  }

  ghost predicate Trace(s: Ledger, h: History) {
    && OutOk(s.out, s.ids.pending, h)
    && FunctionsPublished(s.live.functions, h)
    && PendingRecorded(s.ids.pending, h)
    && Fresh(s.live.contexts, s.live.contextCounter, h)
  }

  // ------------------------------------------------------------ one record

  predicate Plain(e: Event) {
    !e.Launched? && !e.DriverCompletion? && !e.ProcessEnd?
  }

  ghost predicate Extends<K(!new), V(!new)>(m: map<K, V>, t: map<K, V>) {
    forall k :: k in m ==> k in t && t[k] == m[k]
  }

  lemma LaunchesStay(log: seq<Record>, r: Record, launchedAt: map<LaunchKey, nat>, seenAt: map<FunctionIdentity, nat>,
                     seen: map<FunctionIdentity, nat>)
    requires LaunchRecords(log, launchedAt, seenAt) && !r.event.Launched? && Extends(seenAt, seen)
    ensures LaunchRecords(log + [r], launchedAt, seen)
  {
  }

  lemma LaunchAdded(log: seq<Record>, r: Record, k: LaunchKey, launchedAt: map<LaunchKey, nat>, seenAt: map<FunctionIdentity, nat>)
    requires LaunchRecords(log, launchedAt, seenAt) && r.event == Launched(k) && k !in launchedAt
    requires k.fn in seenAt && seenAt[k.fn] < |log|
    ensures LaunchRecords(log + [r], launchedAt[k := |log|], seenAt)
  {
  }

  lemma CompletionsStay(log: seq<Record>, r: Record, completedAt: map<LaunchKey, nat>, launchedAt: map<LaunchKey, nat>,
                        launched: map<LaunchKey, nat>)
    requires CompletionRecords(log, completedAt, launchedAt) && !r.event.DriverCompletion? && Extends(launchedAt, launched)
    ensures CompletionRecords(log + [r], completedAt, launched)
  {
  }

  lemma CompletionAdded(log: seq<Record>, r: Record, k: LaunchKey, completedAt: map<LaunchKey, nat>, launchedAt: map<LaunchKey, nat>)
    requires CompletionRecords(log, completedAt, launchedAt) && IsCompletion(r.event, k) && k !in completedAt
    requires k in launchedAt && launchedAt[k] < |log|
    ensures CompletionRecords(log + [r], completedAt[k := |log|], launchedAt)
  {
  }

  lemma AppendOther(log: seq<Record>, r: Record, h: History)
    requires RecordsOk(log, h) && !r.event.Launched? && !r.event.DriverCompletion?
    ensures RecordsOk(log + [r], h)
  {
    LaunchesStay(log, r, h.launchedAt, h.seenAt, h.seenAt);
    CompletionsStay(log, r, h.completedAt, h.launchedAt, h.launchedAt);
    hide LaunchRecords, CompletionRecords;
  }

  lemma AppendLaunch(log: seq<Record>, r: Record, k: LaunchKey, h: History)
    requires RecordsOk(log, h) && r.event == Launched(k) && k !in h.launchedAt && k.fn in h.seenAt
    ensures RecordsOk(log + [r], h.(launchedAt := h.launchedAt[k := |log|]))
  {
    LaunchAdded(log, r, k, h.launchedAt, h.seenAt);
    CompletionsStay(log, r, h.completedAt, h.launchedAt, h.launchedAt[k := |log|]);
    hide LaunchRecords, CompletionRecords;
  }

  lemma AppendCompletion(log: seq<Record>, r: Record, k: LaunchKey, h: History)
    requires RecordsOk(log, h) && IsCompletion(r.event, k) && k in h.launchedAt && k !in h.completedAt
    ensures RecordsOk(log + [r], h.(completedAt := h.completedAt[k := |log|]))
  {
    LaunchesStay(log, r, h.launchedAt, h.seenAt, h.seenAt);
    CompletionAdded(log, r, k, h.completedAt, h.launchedAt);
    hide LaunchRecords, CompletionRecords;
  }

  lemma AppendSeen(log: seq<Record>, r: Record, f: FunctionIdentity, h: History)
    requires RecordsOk(log, h) && r.event == FunctionSeen(f)
    ensures RecordsOk(log + [r], See(log, f, h))
  {
    hide LaunchRecords, CompletionRecords, FunctionRecords;
    SeenExtends(log, f, h);
    LaunchesStay(log, r, h.launchedAt, h.seenAt, See(log, f, h).seenAt);
    CompletionsStay(log, r, h.completedAt, h.launchedAt, h.launchedAt);
    FunctionAdded(log, r, f, h.seenAt);
  }

  lemma SeenExtends(log: seq<Record>, f: FunctionIdentity, h: History)
    ensures Extends(h.seenAt, See(log, f, h).seenAt) && Extends(h.launchedAt, h.launchedAt)
  {
  }

  lemma FunctionAdded(log: seq<Record>, r: Record, f: FunctionIdentity, seenAt: map<FunctionIdentity, nat>)
    requires FunctionRecords(log, seenAt) && r.event == FunctionSeen(f)
    ensures FunctionRecords(log + [r], seenAt) && FunctionRecords(log + [r], seenAt[f := |log|])
  {
  }

  /** The first record of a function is the one remembered. */
  function See(log: seq<Record>, f: FunctionIdentity, h: History): History {
    if f in h.seenAt then h else h.(seenAt := h.seenAt[f := |log|])
  }

  lemma EmitEnds(o: Out, e: Event)
    requires Ends(o.log, o.finished) && !e.ProcessEnd?
    ensures Ends(Emit(o, e).out.log, Emit(o, e).out.finished)
  {
    hide Clean;
  }

  lemma EmitGapless(o: Out, e: Event)
    requires !o.finished && o.sink(o.sequence) && Gapless(o.log, o.sequence)
    ensures Gapless(Emit(o, e).out.log, Emit(o, e).out.sequence)
  {
  }

  lemma SettledStays(log: seq<Record>, r: Record, pending: map<nat, Launch>, h: History)
    requires Settled(log, pending, h.launchedAt, h.completedAt)
    ensures Settled(log + [r], pending, h.launchedAt, h.completedAt)
  {
  }

  lemma {:induction false} EmitPlain(o: Out, e: Event, pending: map<nat, Launch>, h: History)
    requires OutOk(o, pending, h) && Plain(e)
    ensures OutOk(Emit(o, e).out, pending, h)
  {
    EmitEnds(o, e);
    if Emit(o, e).ok {
      var t := Emit(o, e).out;
      AppendOther(o.log, Record(o.sequence, e), h);
      if !t.gap {
        EmitGapless(o, e);
        SettledStays(o.log, t.log[|o.log|], pending, h);
      }
    }
    hide Ends, Gapless, Settled, RecordsOk;
  }

  lemma {:induction false} EmitAllPlain(o: Out, events: seq<Event>, pending: map<nat, Launch>, h: History)
    requires OutOk(o, pending, h) && forall e :: e in events ==> Plain(e)
    ensures OutOk(EmitAll(o, events).out, pending, h)
    decreases |events|
  {
    hide OutOk;
    if events != [] {
      EmitPlain(o, events[0], pending, h);
      EmitAllPlain(Emit(o, events[0]).out, events[1..], pending, h);
    }
  }

  lemma GapOk(o: Out, gap: bool, pending: map<nat, Launch>, h: History)
    requires OutOk(o, pending, h)
    ensures OutOk(WithGap(o, gap), pending, h)
  {
    hide RecordsOk, Clean;
  }

  /** A gap excuses any change to the pending launches. */
  lemma LossOk(o: Out, pending: map<nat, Launch>, left: map<nat, Launch>, h: History)
    requires OutOk(o, pending, h) && (o.gap || pending == left)
    ensures OutOk(o, left, h)
  {
  }

  // ------------------------------------------------------------ launches

  lemma SettledLaunch(log: seq<Record>, r: Record, k: LaunchKey, l: Launch, pending: map<nat, Launch>,
                      launchedAt: map<LaunchKey, nat>, completedAt: map<LaunchKey, nat>)
    requires Settled(log, pending, launchedAt, completedAt) && k.id !in pending && l.key == k && k !in completedAt
    ensures Settled(log + [r], pending[k.id := l], launchedAt[k := |log|], completedAt)
  {
  }

  function RecordLaunch(o: Out, k: LaunchKey, h: History): History {
    h.(launchedAt := h.launchedAt[k := |o.log|])
  }

  lemma EmitLaunch(o: Out, k: LaunchKey, pending: map<nat, Launch>, l: Launch, h: History)
    requires OutOk(o, pending, h) && k !in h.launchedAt && k.fn in h.seenAt && k.id !in pending && l.key == k
    requires !o.finished && o.sink(o.sequence)
    ensures OutOk(Emit(o, Launched(k)).out, pending[k.id := l], RecordLaunch(o, k, h))
  {
    var t, g := Emit(o, Launched(k)).out, RecordLaunch(o, k, h);
    EmitEnds(o, Launched(k));
    AppendLaunch(o.log, Record(o.sequence, Launched(k)), k, h);
    if !t.gap {
      EmitGapless(o, Launched(k));
      SettledLaunch(o.log, Record(o.sequence, Launched(k)), k, l, pending, h.launchedAt, h.completedAt);
    }
    hide Ends, Gapless, Settled, RecordsOk;
  }

  lemma RefusedLaunch(o: Out, e: Event, pending: map<nat, Launch>, h: History)
    requires OutOk(o, pending, h) && !Emit(o, e).ok
    ensures OutOk(Emit(o, e).out, pending, h)
  {
    hide RecordsOk, Clean;
  }

  /** The next launch of a live context has a key the log does not hold. */
  lemma {:induction false} NextIsFresh(s: Ledger, ctx: nat, fn: FunctionIdentity, id: nat, a: LaunchAttributes, h: History)
    requires Fresh(s.live.contexts, s.live.contextCounter, h) && ctx in s.live.contexts
    requires fn.mod.context == s.live.contexts[ctx].key
    ensures NextLaunch(s.live, ctx, fn, id, a) !in h.launchedAt
  {
    var k := NextLaunch(s.live, ctx, fn, id, a);
    assert k.kernelOrdinal == OrdinalOf(s.live.contexts[ctx], k.fn);
  }

  lemma CountIsFresh(l: Live, ctx: nat, fn: FunctionIdentity, id: nat, a: LaunchAttributes, o: Out, h: History)
    requires LiveOk(l) && Fresh(l.contexts, l.contextCounter, h) && ctx in l.contexts && fn.mod.context == l.contexts[ctx].key
    ensures var t, k := CountLaunch(l, ctx, fn), NextLaunch(l, ctx, fn, id, a);
            Fresh(t.contexts, t.contextCounter, RecordLaunch(o, k, h)) && Fresh(t.contexts, t.contextCounter, h)
  {
    hide ModulesOk, FunctionsOk;
    var t, k := CountLaunch(l, ctx, fn), NextLaunch(l, ctx, fn, id, a);
    forall c, f: FunctionIdentity | c in l.contexts ensures OrdinalOf(l.contexts[c], f) <= OrdinalOf(t.contexts[c], f) {
    }
    assert OrdinalOf(t.contexts[ctx], fn) == k.kernelOrdinal + 1;
  }

  lemma LaunchedFirst(o: Out, k: LaunchKey, pending: map<nat, Launch>, h: History)
    requires OutOk(o, pending, h) && k !in h.launchedAt
    ensures k !in h.completedAt
  {
  }

  lemma {:induction false} LaunchTrace(s: Ledger, ctx: nat, fn: nat, id: nat, a: LaunchAttributes,
                                       h: History) returns (g: History)
    requires Structure(s) && Trace(s, h)
    ensures Trace(LaunchStep(s, ctx, fn, id, a).s, g)
  {
    g := h;
    hide OutOk, Fresh, LiveOk, PendingOk, IdsOk, Budgets;
    if LaunchStep(s, ctx, fn, id, a).s != s {
      var identity := s.live.functions[HandleKey(ctx, fn)];
      FunctionHome(s.live, HandleKey(ctx, fn));
      var k := NextLaunch(s.live, ctx, identity, id, a);
      NextIsFresh(s, ctx, identity, id, a, h);
      CountIsFresh(s.live, ctx, identity, id, a, s.out, h);
      if Emit(s.out, Launched(k)).ok {
        LaunchedFirst(s.out, k, s.ids.pending, h);
        g := RecordLaunch(s.out, k, h);
        EmitLaunch(s.out, k, s.ids.pending, Launch(ctx, k, a.captureSelected != Some(false)), h);
      } else {
        RefusedLaunch(s.out, Launched(k), s.ids.pending, h);
      }
    }
  }

  // ------------------------------------------------------------ completions

  lemma SettledCompletion(log: seq<Record>, r: Record, k: LaunchKey, pending: map<nat, Launch>,
                          launchedAt: map<LaunchKey, nat>, completedAt: map<LaunchKey, nat>)
    requires Settled(log, pending, launchedAt, completedAt) && k.id in pending && pending[k.id].key == k && k in launchedAt
    requires CleanCompletion(r.event)
    ensures Settled(log + [r], pending - {k.id}, launchedAt, completedAt[k := |log|])
  {
  }

  function RecordCompletion(o: Out, k: LaunchKey, h: History): History {
    h.(completedAt := h.completedAt[k := |o.log|])
  }

  lemma EmitCompletion(o: Out, id: nat, completed: bool, drained: bool, pending: map<nat, Launch>, h: History)
    requires OutOk(o, pending, h) && PendingRecorded(pending, h) && id in pending && pending[id].key.id == id
    requires !o.finished && o.sink(o.sequence)
    ensures var k := pending[id].key;
            var e := DriverCompletion(k, completed, drained, pending[id].captureSelected);
            OutOk(WithGap(Emit(o, e).out, !completed || !drained), pending - {id}, RecordCompletion(o, k, h))
  {
    var k := pending[id].key;
    var e := DriverCompletion(k, completed, drained, pending[id].captureSelected);
    var t, g := WithGap(Emit(o, e).out, !completed || !drained), RecordCompletion(o, k, h);
    EmitEnds(o, e);
    AppendCompletion(o.log, Record(o.sequence, e), k, h);
    if !t.gap {
      EmitGapless(o, e);
      SettledCompletion(o.log, Record(o.sequence, e), k, pending, h.launchedAt, h.completedAt);
    }
    hide Ends, Gapless, Settled, RecordsOk;
  }

  lemma {:induction false} CompleteTrace(s: Ledger, ctx: nat, id: nat, completed: bool, drained: bool,
                                         h: History) returns (g: History)
    requires Structure(s) && Trace(s, h)
    ensures Trace(Complete(s, ctx, id, completed, drained).s, g)
  {
    g := h;
    hide OutOk, Fresh, LiveOk, IdsOk, Budgets, PendingOk, PendingRecorded;
    if id in s.ids.pending && s.ids.pending[id].ctx == ctx && ctx in s.live.contexts {
      var k := s.ids.pending[id].key;
      var e := DriverCompletion(k, completed, drained, s.ids.pending[id].captureSelected);
      PendingId(s.ids.pending, s.live.contexts, id);
      if Emit(s.out, e).ok {
        EmitCompletion(s.out, id, completed, drained, s.ids.pending, h);
        g := RecordCompletion(s.out, k, h);
        RecordedOthers(s.ids.pending, s.live.contexts, id, s.out, h);
        FreshStays(s.live.contexts, s.live.contextCounter, h, g);
      } else {
        RefusedLaunch(s.out, e, s.ids.pending, h);
      }
    }
  }

  lemma PendingId(pending: map<nat, Launch>, contexts: map<nat, Context>, id: nat)
    requires PendingOk(pending, contexts) && id in pending
    ensures pending[id].key.id == id
  {
  }

  lemma RecordedOthers(pending: map<nat, Launch>, contexts: map<nat, Context>, id: nat, o: Out, h: History)
    requires PendingRecorded(pending, h) && PendingOk(pending, contexts) && id in pending
    ensures PendingRecorded(pending - {id}, RecordCompletion(o, pending[id].key, h))
  {
  }

  lemma FreshStays(contexts: map<nat, Context>, counter: nat, h: History, g: History)
    requires Fresh(contexts, counter, h) && g.launchedAt == h.launchedAt
    ensures Fresh(contexts, counter, g)
  {
  }

  // ------------------------------------------------------------ contexts

  ghost predicate Smaller<K(!new), V(!new)>(t: map<K, V>, m: map<K, V>) {
    forall k :: k in t ==> k in m && t[k] == m[k]
  }

  lemma FreshBegins(l: Live, handle: nat, h: History)
    requires Fresh(l.contexts, l.contextCounter, h)
    ensures Fresh(BeginContext(l, handle).contexts, l.contextCounter + 1, h)
  {
    var t := BeginContext(l, handle);
    assert forall c :: c in t.contexts && c != handle ==> c in l.contexts && t.contexts[c] == l.contexts[c];
  }

  lemma FreshEnds(contexts: map<nat, Context>, handle: nat, counter: nat, h: History)
    requires Fresh(contexts, counter, h)
    ensures Fresh(contexts - {handle}, counter, h)
  {
    assert forall c :: c in contexts - {handle} ==> c in contexts && (contexts - {handle})[c] == contexts[c];
  }

  lemma ContextBeginTrace(s: Ledger, handle: nat, h: History)
    requires Trace(s, h)
    ensures Trace(ContextBegin(s, handle).s, h)
  {
    hide OutOk, Fresh;
    EmitPlain(s.out, ContextBegun(ContextKey(s.live.contextCounter, handle)), s.ids.pending, h);
    FreshBegins(s.live, handle, h);
  }

  lemma {:induction false} IncompletePlain(pending: map<nat, Launch>, handle: nat, walk: seq<nat>)
    ensures forall e :: e in IncompleteOf(pending, handle, walk) ==> Plain(e)
    decreases |walk|
  {
    if walk != [] {
      IncompletePlain(pending, handle, walk[1..]);
      IncompletePlain(pending - {walk[0]}, handle, walk[1..]);
    }
  }

  lemma {:induction false} NothingIncomplete(ids: Ids, limit: nat, handle: nat, walk: seq<nat>)
    requires IncompleteOf(ids.pending, handle, walk) == []
    ensures DrainPending(ids, limit, handle, walk) == ids
    decreases |walk|
  {
    if walk != [] {
      NothingIncomplete(ids, limit, handle, walk[1..]);
    }
  }

  lemma {:induction false} DrainedAreFewer(ids: Ids, limit: nat, handle: nat, walk: seq<nat>)
    ensures Smaller(DrainPending(ids, limit, handle, walk).pending, ids.pending)
    decreases |walk|
  {
    if walk != [] {
      if walk[0] in ids.pending && ids.pending[walk[0]].ctx == handle {
        DrainedAreFewer(RetirePending(ids, limit, walk[0]), limit, handle, walk[1..]);
      } else {
        DrainedAreFewer(ids, limit, handle, walk[1..]);
      }
    }
  }

  lemma FewerPending(t: map<nat, Launch>, pending: map<nat, Launch>, h: History)
    requires PendingRecorded(pending, h) && Smaller(t, pending)
    ensures PendingRecorded(t, h)
  {
  }

  lemma FewerFunctions(t: map<HandleKey, FunctionIdentity>, functions: map<HandleKey, FunctionIdentity>, h: History)
    requires FunctionsPublished(functions, h) && Smaller(t, functions)
    ensures FunctionsPublished(t, h)
  {
  }

  lemma ContextEndTrace(s: Ledger, handle: nat, walk: seq<nat>, h: History)
    requires Trace(s, h)
    ensures Trace(ContextEnd(s, handle, walk).s, h)
  {
    hide OutOk, Fresh, FunctionsPublished, PendingRecorded, DrainPending, IncompleteOf, EmitAll;
    if !s.out.finished && handle in s.live.contexts {
      var incomplete := IncompleteOf(s.ids.pending, handle, walk);
      var events := incomplete + [ContextEnded(s.live.contexts[handle].key, |incomplete|)];
      var left := DrainPending(s.ids, s.limits.retiredLaunchIds, handle, walk).pending;
      var o := WithGap(s.out, incomplete != []);
      GapOk(s.out, incomplete != [], s.ids.pending, h);
      if incomplete == [] {
        NothingIncomplete(s.ids, s.limits.retiredLaunchIds, handle, walk);
      }
      LossOk(o, s.ids.pending, left, h);
      IncompletePlain(s.ids.pending, handle, walk);
      EmitAllPlain(o, events, left, h);
      DrainedAreFewer(s.ids, s.limits.retiredLaunchIds, handle, walk);
      FewerPending(left, s.ids.pending, h);
      FewerFunctions(DropContext(s.live, handle).functions, s.live.functions, h);
      FreshEnds(s.live.contexts, handle, s.live.contextCounter, h);
    }
  }

  // ------------------------------------------------------------ modules and functions

  lemma ModuleLockedTrace(s: Ledger, ctx: nat, mod: nat, api: string, observed: bool, h: History)
    requires Trace(s, h)
    ensures Trace(ModuleLocked(s, ctx, mod, api, observed).s, h)
  {
    hide OutOk, Fresh, FunctionsPublished, PendingRecorded;
    if ctx in s.live.contexts && mod != 0 && HandleKey(ctx, mod) !in s.live.modules && |s.live.modules| < s.limits.modules {
      var key := BeginModule(s.live, ctx, mod, observed).modules[HandleKey(ctx, mod)].key;
      EmitPlain(s.out, ModuleBegun(key, observed, api), s.ids.pending, h);
    }
  }

  lemma ModuleUnloadTrace(s: Ledger, ctx: nat, mod: nat, h: History)
    requires Trace(s, h)
    ensures Trace(ModuleUnload(s, ctx, mod).s, h)
  {
    hide OutOk, Fresh, FunctionsPublished, PendingRecorded;
    if !s.out.finished && ctx in s.live.contexts {
      if HandleKey(ctx, mod) in s.live.modules {
        EmitPlain(s.out, ModuleEnded(s.live.modules[HandleKey(ctx, mod)].key), s.ids.pending, h);
        FewerFunctions(DropModule(s.live, ctx, mod).functions, s.live.functions, h);
      } else {
        GapOk(s.out, true, s.ids.pending, h);
        EmitPlain(WithGap(s.out, true), GapNoted("unload_without_module_begin"), s.ids.pending, h);
      }
    }
  }

  lemma EmitSeen(o: Out, f: FunctionIdentity, pending: map<nat, Launch>, h: History)
    requires OutOk(o, pending, h) && Emit(o, FunctionSeen(f)).ok
    ensures OutOk(Emit(o, FunctionSeen(f)).out, pending, See(o.log, f, h))
  {
    EmitEnds(o, FunctionSeen(f));
    var t := Emit(o, FunctionSeen(f)).out;
    AppendSeen(o.log, Record(o.sequence, FunctionSeen(f)), f, h);
    if !t.gap {
      EmitGapless(o, FunctionSeen(f));
      SettledStays(o.log, t.log[|o.log|], pending, h);
    }
    hide Ends, Gapless, Settled, RecordsOk;
  }

  lemma SeenKeeps(s: Ledger, key: HandleKey, f: FunctionIdentity, log: seq<Record>, h: History)
    requires FunctionsPublished(s.live.functions, h) && PendingRecorded(s.ids.pending, h)
    ensures FunctionsPublished(s.live.functions[key := f], See(log, f, h)) && PendingRecorded(s.ids.pending, See(log, f, h))
  {
  }

  lemma BindFunctionTrace(s: Ledger, key: HandleKey, identity: FunctionIdentity, h: History) returns (g: History)
    requires Trace(s, h)
    ensures Trace(BindFunction(s, key, identity).s, g)
  {
    g := h;
    hide OutOk, Fresh, FunctionsPublished, PendingRecorded;
    if key !in s.live.failed && key !in s.live.functions && |s.live.functions| + |s.live.failed| < s.limits.functions {
      if Emit(s.out, FunctionSeen(identity)).ok {
        g := See(s.out.log, identity, h);
        EmitSeen(s.out, identity, s.ids.pending, h);
        SeenKeeps(s, key, identity, s.out.log, h);
        FreshStays(s.live.contexts, s.live.contextCounter, h, g);
      } else {
        RefusedLaunch(s.out, FunctionSeen(identity), s.ids.pending, h);
      }
    }
  }

  lemma FunctionLockedTrace(s: Ledger, ctx: nat, mod: nat, fn: nat, a: Attributes, h: History) returns (g: History)
    requires Trace(s, h)
    ensures Trace(FunctionLocked(s, ctx, mod, fn, a).s, g)
  {
    hide Trace, ModuleLocked, BindFunction;
    g := h;
    if !(s.out.finished || fn == 0 || a.NotAnObject? || a.entry == None || a.cubin == None) {
      ModuleLockedTrace(s, ctx, mod, "first_seen_function", false, h);
      var m := ModuleLocked(s, ctx, mod, "first_seen_function", false);
      if m.ok && HandleKey(ctx, mod) in m.s.live.modules {
        var bound := m.s.live.modules[HandleKey(ctx, mod)];
        g := BindFunctionTrace(m.s, HandleKey(ctx, fn),
                               FunctionIdentity(a.entry.value, a.cubin.value, a.rest, bound.key, bound.loadObserved, fn), h);
      }
    }
  }

  lemma FailTrace(s: Ledger, key: HandleKey, mod: ModuleKey, h: History)
    requires Trace(s, h)
    ensures Trace(s.(live := FailFunction(s.live, key, mod), out := WithGap(s.out, true)), h)
  {
    hide OutOk, Fresh, FunctionsPublished, PendingRecorded;
    GapOk(s.out, true, s.ids.pending, h);
  }

  lemma CaptureInTrace(s: Ledger, ctx: nat, mod: nat, key: HandleKey, moduleKey: ModuleKey, c: Capture, h: History)
    returns (g: History)
    requires Trace(s, h)
    ensures Trace(CaptureIn(s, ctx, mod, key, moduleKey, c).s, g)
  {
    hide Trace, FunctionLocked;
    g := h;
    if key !in s.live.failed && key !in s.live.functions && |s.live.functions| + |s.live.failed| < s.limits.functions {
      var r := if c.Captured? then FunctionLocked(s, ctx, mod, key.handle, c.a) else ServedStep(s, Threw);
      if c.Captured? {
        g := FunctionLockedTrace(s, ctx, mod, key.handle, c.a, h);
      }
      FailTrace(r.s, key, moduleKey, g);
    }
  }

  lemma CaptureFunctionTrace(s: Ledger, ctx: nat, mod: nat, fn: nat, c: Capture, h: History) returns (g: History)
    requires Trace(s, h)
    ensures Trace(CaptureFunction(s, ctx, mod, fn, c).s, g)
  {
    hide Trace, ModuleLocked, CaptureIn;
    g := h;
    if !s.out.finished && fn != 0 && !c.NoCallback? {
      ModuleLockedTrace(s, ctx, mod, "first_seen_function", false, h);
      var m := ModuleLocked(s, ctx, mod, "first_seen_function", false);
      if m.ok && HandleKey(ctx, mod) in m.s.live.modules {
        g := CaptureInTrace(m.s, ctx, mod, HandleKey(ctx, fn), m.s.live.modules[HandleKey(ctx, mod)].key, c, h);
      }
    }
  }

  // ------------------------------------------------------------ the last record

  lemma {:induction false} SettledIsClean(log: seq<Record>, h: History)
    requires LaunchRecords(log, h.launchedAt, h.seenAt) && CompletionRecords(log, h.completedAt, h.launchedAt)
    requires Settled(log, map[], h.launchedAt, h.completedAt) && forall i :: 0 <= i < |log| ==> log[i].sequence == i
    ensures Clean(log)
  {
    forall i | 0 <= i < |log| && log[i].event.Launched? ensures CompletedOnce(log, i, log[i].event.launch) {
      var k := log[i].event.launch;
      assert k in h.completedAt;
      assert SoleCompletion(log, h.completedAt[k], k);
    }
  }

  lemma FinishOut(o: Out, pending: map<nat, Launch>, contexts: nat, h: History)
    requires OutOk(o, pending, h) && !o.finished && o.sink(o.sequence)
    ensures OutOk(Emit(o, ProcessEnd(|pending|, contexts, o.gap || |pending| != 0)).out.(finished := true), pending, h)
  {
    var e := ProcessEnd(|pending|, contexts, o.gap || |pending| != 0);
    var t := Emit(o, e).out;
    AppendOther(o.log, Record(o.sequence, e), h);
    if !o.gap {
      EmitGapless(o, e);
      SettledStays(o.log, t.log[|o.log|], pending, h);
      if |pending| == 0 {
        assert pending == map[];
        SettledEnd(t, h);
      }
    }
    EndAppended(o.log, Record(o.sequence, e));
    hide Ends, Gapless, Settled, RecordsOk, Clean;
  }

  lemma SettledEnd(t: Out, h: History)
    requires RecordsOk(t.log, h) && Gapless(t.log, t.sequence) && Settled(t.log, map[], h.launchedAt, h.completedAt)
    ensures Clean(t.log)
  {
    SettledIsClean(t.log, h);
    hide LaunchRecords, CompletionRecords, FunctionRecords, Settled, Clean;
  }

  /** The first end closes the log. */
  lemma EndAppended(log: seq<Record>, r: Record)
    requires Ends(log, false) && r.event.ProcessEnd? && (!r.event.hasGaps ==> Clean(log + [r]))
    ensures Ends(log + [r], true)
  {
    hide Clean;
  }

  lemma {:induction false} FinishTrace(s: Ledger, h: History)
    requires Trace(s, h)
    ensures Trace(Finish(s).s, h)
  {
    hide OutOk, Fresh, FunctionsPublished, PendingRecorded;
    if !s.out.finished {
      if s.out.sink(s.out.sequence) {
        FinishOut(s.out, s.ids.pending, |s.live.contexts|, h);
      } else {
        RefusedLaunch(s.out, ProcessEnd(|s.ids.pending|, |s.live.contexts|, s.out.gap || |s.ids.pending| != 0), s.ids.pending, h);
      }
    }
  }

  lemma NotesTrace(s: Ledger, e: Event, gap: bool, h: History)
    requires Trace(s, h) && Plain(e)
    ensures Trace(Publish(s.(out := WithGap(s.out, gap)), e).s, h)
  {
    hide OutOk, Fresh, FunctionsPublished, PendingRecorded;
    GapOk(s.out, gap, s.ids.pending, h);
    EmitPlain(WithGap(s.out, gap), e, s.ids.pending, h);
  }

  // ------------------------------------------------------------ runs

  lemma {:induction false} ApplyTrace(s: Ledger, op: Op, h: History) returns (g: History)
    requires Structure(s) && Trace(s, h)
    ensures Trace(Apply(s, op), g)
  {
    hide Structure, Trace, ContextBegin, ContextEnd, ModuleLocked, ModuleUnload, FunctionLocked, CaptureFunction, LaunchStep,
         Complete, Finish, Publish;
    g := h;
    match op
    case OpContextBegin(handle) => ContextBeginTrace(s, handle, h);
    case OpContextEnd(handle) => ContextEndTrace(s, handle, Ascending(s.ids.pending.Keys), h);
    case OpModuleLoad(ctx, mod, api) => ModuleLockedTrace(s, ctx, mod, api, true, h);
    case OpModuleUnload(ctx, mod) => ModuleUnloadTrace(s, ctx, mod, h);
    case OpFunction(ctx, mod, fn, attributes) => g := FunctionLockedTrace(s, ctx, mod, fn, attributes, h);
    case OpCapture(ctx, mod, fn, capture) => g := CaptureFunctionTrace(s, ctx, mod, fn, capture, h);
    case OpLaunch(ctx, fn, id, launch) => g := LaunchTrace(s, ctx, fn, id, launch, h);
    case OpComplete(ctx, id, completed, drained) => g := CompleteTrace(s, ctx, id, completed, drained, h);
    case OpGap(reason) => NotesTrace(s, GapNoted(reason), true, h);
    case OpPlan(name, data) => NotesTrace(s, PlanEvent(name, data), name == "plan_gap" || name == "plan_error", h);
    case OpFinish => FinishTrace(s, h);
  }

  lemma InitialTrace(sink: nat -> bool, limits: Limits)
    ensures Trace(Initial(sink, limits), History(map[], map[], map[]))
  {
  }

  lemma {:induction false} ReachableTrace(sink: nat -> bool, limits: Limits, ops: seq<Op>) returns (h: History)
    ensures Trace(Run(Initial(sink, limits), ops), h)
  {
    hide Trace, Structure, Apply, Initial;
    if ops == [] {
      InitialTrace(sink, limits);
      h := History(map[], map[], map[]);
    } else {
      var before := Run(Initial(sink, limits), ops[..|ops| - 1]);
      h := ReachableTrace(sink, limits, ops[..|ops| - 1]);
      ReachableStructure(sink, limits, ops[..|ops| - 1]);
      h := ApplyTrace(before, ops[|ops| - 1], h);
    }
  }

  /** A last record without gaps, in any run and with any sink: nothing follows it, sequence numbers have no hole,
      and every launch has exactly one later completion, which reports both the kernel and the channel done. */
  lemma {:induction false} CleanEndIsComplete(sink: nat -> bool, limits: Limits, ops: seq<Op>, i: nat)
    requires i < |Run(Initial(sink, limits), ops).out.log|
    requires var e := Run(Initial(sink, limits), ops).out.log[i].event; e.ProcessEnd? && !e.hasGaps
    ensures var log := Run(Initial(sink, limits), ops).out.log; i == |log| - 1 && Clean(log)
  {
    var h := ReachableTrace(sink, limits, ops);
  }

  /** No launch is published before the record of the function it runs, and no key is published twice. */
  lemma {:induction false} LaunchesAreIdentified(sink: nat -> bool, limits: Limits, ops: seq<Op>, i: nat)
    requires i < |Run(Initial(sink, limits), ops).out.log| && Run(Initial(sink, limits), ops).out.log[i].event.Launched?
    ensures var log := Run(Initial(sink, limits), ops).out.log;
            && (exists j :: 0 <= j < i && log[j].event == FunctionSeen(log[i].event.launch.fn))
            && (forall j :: 0 <= j < |log| && log[j].event == log[i].event ==> j == i)
  {
    var h := ReachableTrace(sink, limits, ops);
    var log := Run(Initial(sink, limits), ops).out.log;
    var k := log[i].event.launch;
    assert h.launchedAt[k] == i;
    assert log[h.seenAt[k.fn]].event == FunctionSeen(k.fn);
  }

  /** Whatever identity the ledger would serve now, its record is in the log. */
  lemma {:induction false} ServedIsPublished(sink: nat -> bool, limits: Limits, ops: seq<Op>, key: HandleKey)
    requires key in Run(Initial(sink, limits), ops).live.functions
    ensures var s := Run(Initial(sink, limits), ops);
            exists j :: 0 <= j < |s.out.log| && s.out.log[j].event == FunctionSeen(s.live.functions[key])
  {
    var h := ReachableTrace(sink, limits, ops);
    var s := Run(Initial(sink, limits), ops);
    assert s.out.log[h.seenAt[s.live.functions[key]]].event == FunctionSeen(s.live.functions[key]);
  }
}
