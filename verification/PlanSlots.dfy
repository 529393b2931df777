/** Launch slots over every run: a control block is overwritten only once its previous launch has given it back. */
module PlanSlots {
  import opened Sequences
  import opened PlanRuntimeSpec
  import W = TraceWriterSpec

  /** The launch `id` took `slot` when exactly `returnedBefore` of the earlier assignments had been given back. */
  datatype Assignment = Assignment(slot: nat, id: nat, returnedBefore: set<nat>)

  /** Every assignment in order, those given back by a launch reported completed and drained, the assignment of each
      launch, those of refused duplicate ids, and the latest assignment of each occupied slot. */
  datatype Past = Past(taken: seq<Assignment>, returned: set<nat>, serialOf: map<nat, nat>, refused: set<nat>, holder: map<nat, nat>)

  datatype Runtime = Runtime(tables: Tables, disabled: bool, c: Context, past: Past)

  datatype Op =
    | OpPrepare(fn: nat, bound: Bound)
    | OpForget(fn: nat)
    | OpLaunch(fn: nat, identity: Identity)
    | OpDeviceCounts(slot: nat, counters: nat -> W.Counters)
    | OpComplete(id: nat, completed: bool, drained: bool)
    | OpConsume(p: Packet, size: nat, written: bool)
    | OpDisable(reason: string)
    | OpFinishTrace(id: nat)

  function Initial(t: Tables): Runtime {
    Runtime(t, false,
            Context(seq(LAUNCH_SLOTS, _ => false), seq(LAUNCH_SLOTS, _ => Control(0, {}, (i: nat) => NO_COUNTERS)), map[], map[]),
            Past([], {}, map[], {}, map[]))
  }

  function RememberTaken(past: Past, slot: nat, id: nat, ok: bool): Past {
    var serial := |past.taken|;
    Past(past.taken + [Assignment(slot, id, past.returned)], past.returned,
         if ok then past.serialOf[id := serial] else past.serialOf,
         if ok then past.refused else past.refused + {serial},
         past.holder[slot := serial])
  }

  predicate GivesBack(c: Context, id: nat, completed: bool, drained: bool) {
    completed && drained && id in c.launches && c.launches[id].slot.Some? && c.launches[id].slot.value < LAUNCH_SLOTS
  }

  function RememberGivenBack(past: Past, slot: nat, id: nat): Past {
    if id in past.serialOf then past.(returned := past.returned + {past.serialOf[id]}, holder := past.holder - {slot}) else past
  }

  ghost function Apply(r: Runtime, op: Op): Runtime
    requires ContextOk(r.tables, r.c)
  {
    match op
    case OpPrepare(fn, bound) => if !r.disabled && BoundOk(r.tables, bound) then r.(c := r.c.(bound := r.c.bound[fn := bound])) else r
    case OpForget(fn) => r.(c := r.c.(bound := r.c.bound - {fn}))
    case OpLaunch(fn, identity) =>
      if r.disabled then r
      else
        var s := BeginLaunch(r.tables, r.c, fn, identity);
        r.(c := s.c, past := if s.took.Some? then RememberTaken(r.past, s.took.value, identity.id, s.ok) else r.past)
    case OpDeviceCounts(slot, counters) =>
      if slot >= |r.c.slots| then r
      else r.(c := r.c.(slots := r.c.slots[slot := r.c.slots[slot].(counters := counters)]))
    case OpComplete(id, completed, drained) =>
      r.(c := DeviceComplete(r.c, id, completed, drained),
         past := if GivesBack(r.c, id, completed, drained) then RememberGivenBack(r.past, r.c.launches[id].slot.value, id) else r.past)
    case OpConsume(p, size, written) => if r.disabled then r else r.(c := Consume(r.tables, r.c, p, size, written))
    case OpDisable(reason) => r.(disabled := true, c := DisablePlan(r.c, reason))
    case OpFinishTrace(id) => r.(c := FinishTrace(r.c, id))
  }

  // ------------------------------------------------------------ invariants

  /** The launch owns its slot: occupied, named in the control block, and not given back. */
  ghost predicate Owns(occupied: seq<bool>, slots: seq<Control>, past: Past, id: nat, slot: nat) {
    && slot < |occupied| == |slots| && occupied[slot] && slots[slot].launchId == id
    && id in past.serialOf && slot in past.holder && past.holder[slot] == past.serialOf[id]
    && past.serialOf[id] !in past.refused
  }

  ghost predicate OwnersOk(c: Context, past: Past) {
    forall id :: id in c.launches && c.launches[id].slot.Some? ==> Owns(c.occupied, c.slots, past, id, c.launches[id].slot.value)
  }

  /** Occupied slots are exactly those whose latest assignment has not been given back. */
  ghost predicate HoldersOk(occupied: seq<bool>, past: Past) {
    && (forall k :: 0 <= k < |occupied| ==> (occupied[k] <==> k in past.holder))
    && (forall k :: k in past.holder ==>
          && k < |occupied| && past.holder[k] < |past.taken|
          && past.taken[past.holder[k]].slot == k && past.holder[k] !in past.returned)
  }

  ghost predicate AssignedOk(past: Past) {
    && (forall s :: 0 <= s < |past.taken| && s !in past.returned ==>
          past.taken[s].slot in past.holder && past.holder[past.taken[s].slot] == s)
    && (forall s :: 0 <= s < |past.taken| ==> past.taken[s].returnedBefore <= past.returned)
    && (forall s, t :: 0 <= s < t < |past.taken| && past.taken[s].slot == past.taken[t].slot ==>
          s in past.taken[t].returnedBefore)
    && (forall s :: s in past.returned ==> s < |past.taken|)
    && (forall s :: s in past.refused ==> s < |past.taken| && s !in past.returned)
  }

  ghost predicate Ok(r: Runtime) {
    && ContextOk(r.tables, r.c)
    && OwnersOk(r.c, r.past)
    && HoldersOk(r.c.occupied, r.past)
    && AssignedOk(r.past)
  }

  lemma TakenAssigned(past: Past, slot: nat, id: nat, ok: bool)
    requires AssignedOk(past) && slot !in past.holder
    ensures AssignedOk(RememberTaken(past, slot, id, ok))
  {
  }

  lemma TakenHolders(occupied: seq<bool>, past: Past, slot: nat, id: nat, ok: bool)
    requires HoldersOk(occupied, past) && AssignedOk(past) && slot < |occupied|
    ensures HoldersOk(occupied[slot := true], RememberTaken(past, slot, id, ok))
  {
  }

  lemma GivenBackAssigned(past: Past, slot: nat, id: nat)
    requires AssignedOk(past) && id in past.serialOf && slot in past.holder && past.holder[slot] == past.serialOf[id]
    requires past.serialOf[id] < |past.taken| && past.taken[past.serialOf[id]].slot == slot
    requires past.serialOf[id] !in past.refused
    ensures AssignedOk(RememberGivenBack(past, slot, id))
  {
  }

  lemma GivenBackHolders(occupied: seq<bool>, past: Past, slot: nat, id: nat)
    requires HoldersOk(occupied, past) && AssignedOk(past) && id in past.serialOf
    requires slot in past.holder && past.holder[slot] == past.serialOf[id]
    ensures HoldersOk(occupied[slot := false], RememberGivenBack(past, slot, id))
  {
  }

  // ------------------------------------------------------------ each step

  lemma OwnsElsewhere(c: Context, past: Past, id: nat, mine: nat, k: nat, other: nat, ok: bool, enabled: set<nat>)
    requires Owns(c.occupied, c.slots, past, id, mine) && HoldersOk(c.occupied, past) && AssignedOk(past)
    requires k < |c.occupied| && !c.occupied[k] && (ok ==> other != id)
    ensures var d := TakeSlot(c, k, other, enabled);
            Owns(d.occupied, d.slots, RememberTaken(past, k, other, ok), id, mine)
  {
  }

  lemma TakenOwners(c: Context, past: Past, k: nat, l: Launch, ok: bool, enabled: set<nat>)
    requires |c.occupied| == |c.slots| && OwnersOk(c, past) && HoldersOk(c.occupied, past) && AssignedOk(past)
    requires k < |c.occupied| && !c.occupied[k] && l.slot == Some(k) && (ok ==> l.identity.id !in c.launches)
    ensures var d := TakeSlot(c, k, l.identity.id, enabled);
            OwnersOk(if ok then WithLaunch(d, l) else d, RememberTaken(past, k, l.identity.id, ok))
  {
    var id := l.identity.id;
    var taken, later := TakeSlot(c, k, id, enabled), RememberTaken(past, k, id, ok);
    var d := if ok then WithLaunch(taken, l) else taken;
    forall i | i in c.launches && c.launches[i].slot.Some? && (ok ==> i != id)
      ensures Owns(d.occupied, d.slots, later, i, c.launches[i].slot.value)
    {
      OwnsElsewhere(c, past, i, c.launches[i].slot.value, k, id, ok, enabled);
    }
    if ok {
      assert |past.taken| !in past.refused;
      assert Owns(d.occupied, d.slots, later, id, k);
    }
    hide Owns;
  }

  lemma {:induction false} LaunchOwners(c: Context, past: Past, identity: Identity, counts: map<nat, Counts>)
    requires |c.occupied| == |c.slots| && OwnersOk(c, past) && HoldersOk(c.occupied, past) && AssignedOk(past)
    ensures var s := Place(c, identity, counts);
            var later := if s.took.Some? then RememberTaken(past, s.took.value, identity.id, s.ok) else past;
            && OwnersOk(s.c, later) && HoldersOk(s.c.occupied, later) && AssignedOk(later)
            && |s.c.occupied| == |s.c.slots| == |c.slots| && s.c.bound == c.bound
  {
    hide SelectedIn, OwnersOk;
    var s := Place(c, identity, counts);
    if s.took.Some? {
      var k := s.took.value;
      var l := Launch(identity, Some(k), false, false, false, counts, {});
      assert k !in past.holder;
      TakenAssigned(past, k, identity.id, s.ok);
      TakenHolders(c.occupied, past, k, identity.id, s.ok);
      TakenOwners(c, past, k, l, s.ok, SelectedIn(counts));
    } else if s.ok {
      UnslottedOwners(c, past, Launch(identity, None, false, false, false, counts, {}));
    }
    hide HoldersOk, AssignedOk, RememberTaken;
  }

  lemma UnslottedOwners(c: Context, past: Past, l: Launch)
    requires OwnersOk(c, past) && l.slot.None?
    ensures OwnersOk(WithLaunch(c, l), past)
  {
  }

  /** A step that moves no slot. */
  predicate SlotsStay(c: Context, d: Context) {
    && d.occupied == c.occupied && |d.slots| == |c.slots|
    && (forall k :: 0 <= k < |c.slots| ==> d.slots[k].launchId == c.slots[k].launchId)
    && (forall id :: id in d.launches ==> id in c.launches && d.launches[id].slot == c.launches[id].slot)
  }

  lemma SameSlots(c: Context, d: Context, past: Past)
    requires OwnersOk(c, past) && SlotsStay(c, d)
    ensures OwnersOk(d, past) && d.occupied == c.occupied && |d.slots| == |c.slots|
  {
    forall id | id in d.launches && d.launches[id].slot.Some?
      ensures Owns(d.occupied, d.slots, past, id, d.launches[id].slot.value)
    {
      assert Owns(c.occupied, c.slots, past, id, c.launches[id].slot.value);
    }
  }

  lemma GivenBackOwners(c: Context, past: Past, id: nat)
    requires GivesBack(c, id, true, true) && |c.occupied| == |c.slots| == LAUNCH_SLOTS
    requires OwnersOk(c, past) && HoldersOk(c.occupied, past)
    ensures OwnersOk(DeviceComplete(c, id, true, true), RememberGivenBack(past, c.launches[id].slot.value, id))
  {
    hide CopyCounters;
    var d, k := DeviceComplete(c, id, true, true), c.launches[id].slot.value;
    var later := RememberGivenBack(past, k, id);
    assert Owns(c.occupied, c.slots, past, id, k);
    forall i | i in d.launches && d.launches[i].slot.Some?
      ensures Owns(d.occupied, d.slots, later, i, d.launches[i].slot.value)
    {
      assert Owns(c.occupied, c.slots, past, i, c.launches[i].slot.value);
    }
  }

  lemma NotGivenBack(c: Context, id: nat, completed: bool, drained: bool)
    requires |c.occupied| == |c.slots| == LAUNCH_SLOTS && !GivesBack(c, id, completed, drained)
    ensures SlotsStay(c, DeviceComplete(c, id, completed, drained))
  {
  }

  lemma {:induction false} CompleteOwners(c: Context, past: Past, id: nat, completed: bool, drained: bool)
    requires |c.occupied| == |c.slots| == LAUNCH_SLOTS && OwnersOk(c, past) && HoldersOk(c.occupied, past) && AssignedOk(past)
    ensures var d := DeviceComplete(c, id, completed, drained);
            var later := if GivesBack(c, id, completed, drained) then RememberGivenBack(past, c.launches[id].slot.value, id) else past;
            && OwnersOk(d, later) && HoldersOk(d.occupied, later) && AssignedOk(later)
            && |d.occupied| == |d.slots| == LAUNCH_SLOTS && d.bound == c.bound
  {
    hide CopyCounters, OwnersOk, HoldersOk, AssignedOk, RememberGivenBack, SlotsStay;
    if GivesBack(c, id, completed, drained) {
      var k := c.launches[id].slot.value;
      OwnedSlot(c, past, id);
      GivenBackAssigned(past, k, id);
      GivenBackHolders(c.occupied, past, k, id);
      GivenBackOwners(c, past, id);
    } else {
      NotGivenBack(c, id, completed, drained);
      SameSlots(c, DeviceComplete(c, id, completed, drained), past);
    }
  }

  lemma OwnedSlot(c: Context, past: Past, id: nat)
    requires OwnersOk(c, past) && HoldersOk(c.occupied, past) && id in c.launches && c.launches[id].slot.Some?
    ensures var k := c.launches[id].slot.value;
            && id in past.serialOf && k in past.holder && past.holder[k] == past.serialOf[id]
            && past.serialOf[id] < |past.taken| && past.taken[past.serialOf[id]].slot == k && past.serialOf[id] !in past.refused
  {
    assert Owns(c.occupied, c.slots, past, id, c.launches[id].slot.value);
  }

  lemma ConsumeSlots(t: Tables, c: Context, p: Packet, size: nat, written: bool)
    ensures SlotsStay(c, Consume(t, c, p, size, written)) && Consume(t, c, p, size, written).bound == c.bound
  {
    hide PredicateOutOfRange, Binds, ErrorOf;
  }

  lemma DisableSlots(c: Context, reason: string)
    ensures SlotsStay(c, DisablePlan(c, reason)) && DisablePlan(c, reason).bound == c.bound
  {
    hide Fill;
  }

  lemma CountedSlots(c: Context, slot: nat, counters: nat -> W.Counters)
    requires slot < |c.slots|
    ensures SlotsStay(c, c.(slots := c.slots[slot := c.slots[slot].(counters := counters)]))
  {
  }

  lemma FinishSlots(c: Context, id: nat)
    ensures SlotsStay(c, FinishTrace(c, id)) && FinishTrace(c, id).bound == c.bound
  {
  }

  lemma BoundSlots(c: Context, bound: map<nat, Bound>)
    ensures SlotsStay(c, c.(bound := bound))
  {
  }

  lemma {:induction false} StepOk(r: Runtime, op: Op)
    requires Ok(r)
    ensures Ok(Apply(r, op))
  {
    hide OwnersOk, HoldersOk, AssignedOk, SlotsStay, Prepared, LaunchCounts, Consume, Place, DeviceComplete, DisablePlan, FinishTrace,
         RememberTaken, RememberGivenBack, GivesBack, BoundOk;
    match op
    case OpPrepare(fn, bound) =>
      BoundSlots(r.c, r.c.bound[fn := bound]);
      SameSlots(r.c, r.c.(bound := r.c.bound[fn := bound]), r.past);
    case OpForget(fn) =>
      BoundSlots(r.c, r.c.bound - {fn});
      SameSlots(r.c, Apply(r, op).c, r.past);
    case OpLaunch(fn, identity) =>
      if !r.disabled && fn in r.c.bound && |r.c.launches| < LAUNCH_SLOTS && Prepared(r.tables, r.c.bound[fn], identity) {
        LaunchOwners(r.c, r.past, identity, LaunchCounts(r.tables, r.c.bound[fn], identity));
      }
    case OpDeviceCounts(slot, counters) =>
      if slot < |r.c.slots| {
        CountedSlots(r.c, slot, counters);
        SameSlots(r.c, Apply(r, op).c, r.past);
      }
    case OpComplete(id, completed, drained) => CompleteOwners(r.c, r.past, id, completed, drained);
    case OpConsume(p, size, written) =>
      ConsumeSlots(r.tables, r.c, p, size, written);
      SameSlots(r.c, Consume(r.tables, r.c, p, size, written), r.past);
    case OpDisable(reason) =>
      DisableSlots(r.c, reason);
      SameSlots(r.c, DisablePlan(r.c, reason), r.past);
    case OpFinishTrace(id) =>
      FinishSlots(r.c, id);
      SameSlots(r.c, FinishTrace(r.c, id), r.past);
  }

  // ------------------------------------------------------------ runs

  ghost function Run(t: Tables, ops: seq<Op>): (r: Runtime)
    ensures Ok(r)
  {
    if ops == [] then Initial(t)
    else
      var before := Run(t, ops[..|ops| - 1]);
      StepOk(before, ops[|ops| - 1]);
      Apply(before, ops[|ops| - 1])
  }

  /** Live launches own distinct, occupied slots, and each finds its own id in its control block. */
  lemma {:induction false} SlotsAreExclusive(t: Tables, ops: seq<Op>, id: nat, other: nat)
    requires var c := Run(t, ops).c; id in c.launches && c.launches[id].slot.Some? && other in c.launches && other != id
    ensures var c := Run(t, ops).c;
            var k := c.launches[id].slot.value;
            k < |c.occupied| == |c.slots| && c.occupied[k] && c.slots[k].launchId == id && c.launches[other].slot != Some(k)
  {
    var r := Run(t, ops);
    assert Owns(r.c.occupied, r.c.slots, r.past, id, r.c.launches[id].slot.value);
    if r.c.launches[other].slot.Some? {
      assert Owns(r.c.occupied, r.c.slots, r.past, other, r.c.launches[other].slot.value);
    }
  }

  /** Whenever a slot is taken again, its earlier launch had already been reported completed and drained. */
  lemma {:induction false} ReuseAfterReturn(t: Tables, ops: seq<Op>, i: nat, j: nat)
    requires var taken := Run(t, ops).past.taken; i < j < |taken| && taken[i].slot == taken[j].slot
    ensures i in Run(t, ops).past.taken[j].returnedBefore
  {
  }

  /** A failed, uncertain or refused launch never gives its slot back: the slot stays occupied and is not taken again. */
  lemma {:induction false} UnreturnedSlotsStay(t: Tables, ops: seq<Op>, s: nat)
    requires var past := Run(t, ops).past; s < |past.taken| && (s in past.refused || s !in past.returned)
    ensures var r := Run(t, ops);
            && r.past.taken[s].slot < |r.c.occupied| && r.c.occupied[r.past.taken[s].slot]
            && s !in r.past.returned
            && forall j :: s < j < |r.past.taken| ==> r.past.taken[j].slot != r.past.taken[s].slot
  {
    assert AssignedOk(Run(t, ops).past);
  }
}
