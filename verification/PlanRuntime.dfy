/** The plan runtime of one context as the program has it.  Every method is the step of the same name in PlanRuntimeSpec,
    PlanSlots or EndToEnd. */
module PlanRuntime {
  import opened Sequences
  import opened PlanCapture
  import opened PlanRuntimeSpec
  import PlanSlots
  import EndToEnd
  import W = TraceWriterSpec
  import Writers = TraceWriter

  // ------------------------------------------------------------ loops over tables

  method FindFree(occupied: array<bool>) returns (k: nat)
    ensures k == FirstFree(occupied[..])
  {
    k := 0;
    while k < occupied.Length && occupied[k]
      invariant k <= occupied.Length
      invariant FirstFree(occupied[..]) == k + FirstFree(occupied[k..])
    {
      assert occupied[k..][0] && occupied[k..][1..] == occupied[k + 1..];
      k := k + 1;
    }
  }

  method CountOne(config: Config, gap: Option<string>, identity: Identity) returns (r: Option<Counts>)
    requires CaptureOk(config.capture) && Uint64(identity.geometry.grid) && Uint64(identity.geometry.block)
    ensures r == CountsFor(config, gap, identity)
  {
    if gap.Some? {
      return Some(Counts(false, gap.value, 0, 0, 0, 0, NO_COUNTERS));
    }
    if !config.selects(identity.kernelOrdinal) {
      return Some(Counts(false, "", 0, 0, 0, 0, NO_COUNTERS));
    }
    var n := ExpectedEntries(config.capture, identity.geometry);
    if n.None? {
      return None;
    }
    r := Some(Counts(true, if n.value == 0 then "no_selected_warps_in_launch" else "", n.value, 0, 0, 0, NO_COUNTERS));
  }

  /** One entry for every configuration of the kernel, or none at all. */
  method CountAll(t: Tables, b: Bound, identity: Identity) returns (r: Option<map<nat, Counts>>)
    requires TablesOk(t) && BoundOk(t, b) && Uint64(identity.geometry.grid) && Uint64(identity.geometry.block)
    ensures r.Some? <==> Prepared(t, b, identity)
    ensures r.Some? ==> r.value == LaunchCounts(t, b, identity)
  {
    hide CountsFor;
    var counts: map<nat, Counts> := map[];
    for i := 0 to |b.configs|
      invariant forall j :: 0 <= j < i ==> CountsFor(t.configs[b.configs[j]], GapOf(b, b.configs[j]), identity).Some?
      invariant forall k :: k in counts <==> k in b.configs[..i]
      invariant forall k :: k in counts ==> k < |t.configs| && Some(counts[k]) == CountsFor(t.configs[k], GapOf(b, k), identity)
    {
      var index := b.configs[i];
      var one := CountOne(t.configs[index], GapOf(b, index), identity);
      if one.None? {
        return None;
      }
      counts := counts[index := one.value];
      assert b.configs[..i + 1] == b.configs[..i] + [index];
    }
    assert b.configs[..|b.configs|] == b.configs;
    r := Some(counts);
  }

  method CopyAll(counts: map<nat, Counts>, control: Control) returns (r: map<nat, Counts>)
    ensures r == CopyCounters(counts, control)
  {
    r := counts;
    var todo := counts.Keys;
    while todo != {}
      invariant todo <= counts.Keys && r.Keys == counts.Keys
      invariant forall i :: i in counts ==> r[i] == if i in todo then counts[i] else counts[i].(device := control.counters(i))
    {
      var i :| i in todo;
      r := r[i := r[i].(device := control.counters(i))];
      todo := todo - {i};
    }
  }

  method FillAll(counts: map<nat, Counts>, reason: string) returns (r: map<nat, Counts>)
    ensures r == Fill(counts, reason)
  {
    r := counts;
    var todo := counts.Keys;
    while todo != {}
      invariant todo <= counts.Keys && r.Keys == counts.Keys
      invariant forall i :: i in counts ==>
                  r[i] == if i in todo || counts[i].error != "" then counts[i] else counts[i].(error := reason)
    {
      var i :| i in todo;
      if r[i].error == "" {
        r := r[i := r[i].(error := reason)];
      }
      todo := todo - {i};
    }
  }

  /** Every configuration of every launch. */
  method FillLaunches(launches: map<nat, Launch>, reason: string) returns (r: map<nat, Launch>)
    ensures r == map id | id in launches :: launches[id].(counts := Fill(launches[id].counts, reason))
  {
    hide Fill;
    r := launches;
    var todo := launches.Keys;
    while todo != {}
      invariant todo <= launches.Keys && r.Keys == launches.Keys
      invariant forall id :: id in launches ==>
                  r[id] == if id in todo then launches[id] else launches[id].(counts := Fill(launches[id].counts, reason))
    {
      var id :| id in todo;
      var counts := FillAll(launches[id].counts, reason);
      r := r[id := r[id].(counts := counts)];
      todo := todo - {id};
    }
  }

  /** The report of every configuration, and whether all of it is complete. */
  method ReportAll(l: Launch, disabled: bool) returns (line: W.Line, complete: bool)
    ensures line == CompletionLine(l, disabled) && complete == LaunchComplete(l, disabled)
  {
    complete := !disabled && l.completed && l.drained && l.available;
    var reports: map<nat, W.Report> := map[];
    var todo := l.counts.Keys;
    while todo != {}
      invariant todo <= l.counts.Keys && reports.Keys == l.counts.Keys - todo
      invariant forall i :: i in reports ==> reports[i] == ReportOf(l.counts[i])
      invariant complete == (!disabled && l.completed && l.drained && l.available
                             && forall i :: i in l.counts && i !in todo ==> !Incomplete(l.counts[i], l.available))
    {
      var i :| i in todo;
      reports := reports[i := ReportOf(l.counts[i])];
      if Incomplete(l.counts[i], l.available) {
        complete := false;
      }
      todo := todo - {i};
    }
    line := W.PlanCompletion(l.identity.launch, reports, complete);
    assert reports == map i | i in l.counts :: ReportOf(l.counts[i]);
  }

  /** Every word the packet sends, lane by lane. */
  method FindBadPredicate(point: Point, p: Packet) returns (bad: bool)
    requires p.wordCount == |point.words|
    ensures bad == PredicateOutOfRange(point, p)
  {
    for word := 0 to p.wordCount
      invariant forall w, l :: 0 <= w < word && w in p.wordMask && l in p.valid && l < WARP ==> !(p.values(w, l) > 1 && point.words[w])
    {
      if word in p.wordMask {
        for lane := 0 to WARP
          invariant forall l :: 0 <= l < lane && l in p.valid ==> !(p.values(word, l) > 1 && point.words[word])
        {
          if lane in p.valid && p.values(word, lane) > 1 && point.words[word] {
            return true;
          }
        }
      }
    }
    bad := false;
  }

  /** The checks of a packet that is bound to its launch. */
  method VerifyRecord(config: Config, point: Point, launch: Launch, p: Packet, n: nat) returns (v: Verdict)
    requires p.config in launch.counts && Binds(config, point, launch.identity.geometry, p)
    ensures v == JudgeRecord(config, point, launch, p, n)
  {
    hide Binds, PredicateOutOfRange;
    if |launch.records| >= MAX_LAUNCH_RECORDS || (p.config, p.sequence) in launch.records {
      return Repeated;
    }
    WordsMatch(config, point, launch.identity.geometry, p);
    var bad := FindBadPredicate(point, p);
    if bad {
      return BadPredicate;
    }
    var counts := launch.counts[p.config];
    if counts.written >= config.maxRecords || n > config.maxBytes - Min(counts.jsonBytes, config.maxBytes) {
      return OverBudget;
    }
    v := Accepted;
  }

  lemma WordsMatch(config: Config, point: Point, g: Geometry, p: Packet)
    requires Binds(config, point, g, p)
    ensures p.wordCount == |point.words|
  {
  }

  class PlanRuntime {
    const tables: Tables
    const occupied: array<bool>
    const slots: array<Control>
    var disabled: bool
    var bound: map<nat, Bound>
    var launches: map<nat, Launch>
    ghost var past: PlanSlots.Past

    ghost predicate Valid()
      reads this, occupied, slots
    {
      && TablesOk(tables) && occupied.Length == slots.Length == LAUNCH_SLOTS
      && forall f :: f in bound ==> BoundOk(tables, bound[f])
    }

    ghost function State(): (c: Context)
      reads this, occupied, slots
      requires Valid()
      ensures ContextOk(tables, c)
    {
      Context(occupied[..], slots[..], bound, launches)
    }

    ghost function View(): PlanSlots.Runtime
      reads this, occupied, slots
      requires Valid()
    {
      PlanSlots.Runtime(tables, disabled, State(), past)
    }

    constructor (tables: Tables)
      requires TablesOk(tables)
      ensures Valid() && fresh(occupied) && fresh(slots) && View() == PlanSlots.Initial(tables)
    {
      this.tables, disabled, bound, launches := tables, false, map[], map[];
      past := PlanSlots.Initial(tables).past;
      occupied := new bool[LAUNCH_SLOTS](_ => false);
      slots := new Control[LAUNCH_SLOTS](_ => Control(0, {}, (i: nat) => NO_COUNTERS));
      new;
      assert occupied[..] == seq(LAUNCH_SLOTS, _ => false);
      assert slots[..] == PlanSlots.Initial(tables).c.slots;
    }

    method BeginPlanLaunch(fn: nat, identity: Identity) returns (ok: bool)
      requires Valid() && Uint64(identity.geometry.grid) && Uint64(identity.geometry.block)
      modifies this, occupied, slots
      ensures Valid() && View() == PlanSlots.Apply(old(View()), PlanSlots.OpLaunch(fn, identity))
      ensures ok == (!old(disabled) && BeginLaunch(tables, old(State()), fn, identity).ok)
    {
      if disabled || fn !in bound || |launches| >= LAUNCH_SLOTS {
        return false;
      }
      hide CountsFor, FirstFree, SelectedIn, LaunchCounts, Prepared;
      var counts := CountAll(tables, bound[fn], identity);
      if counts.None? {
        return false;
      }
      ok := PlaceLaunch(identity, counts.value);
    }

    method PlaceLaunch(identity: Identity, counts: map<nat, Counts>) returns (ok: bool)
      requires Valid()
      modifies this, occupied, slots
      ensures Valid() && disabled == old(disabled)
      ensures var s := Place(old(State()), identity, counts);
              && State() == s.c && ok == s.ok
              && past == (if s.took.Some? then PlanSlots.RememberTaken(old(past), s.took.value, identity.id, ok) else old(past))
    {
      hide FirstFree, SelectedIn, PlanSlots.RememberTaken;
      var slot: Option<nat> := None;
      var selected := SelectedIn(counts);
      if selected != {} {
        var k := FindFree(occupied);
        if k == occupied.Length {
          return false;
        }
        FreeSlot(occupied[..]);
        slot := Some(k);
        occupied[k] := true;
        slots[k] := Control(identity.id, selected, (i: nat) => NO_COUNTERS);
      }
      ok := identity.id !in launches;
      if slot.Some? {
        past := PlanSlots.RememberTaken(past, slot.value, identity.id, ok);
      }
      if ok {
        launches := launches[identity.id := Launch(identity, slot, false, false, false, counts, {})];
      }
    }

    lemma FreeSlot(s: seq<bool>)
      ensures FirstFree(s) <= |s|
    {
    }

    method CompleteOnDevice(id: nat, completed: bool, drained: bool)
      requires Valid()
      modifies this, occupied
      ensures Valid() && View() == PlanSlots.Apply(old(View()), PlanSlots.OpComplete(id, completed, drained))
    {
      if id !in launches {
        return;
      }
      var launch := launches[id].(completed := completed, drained := drained);
      hide CopyCounters, PlanSlots.RememberGivenBack;
      if completed && drained {
        launch := launch.(available := true);
        if launch.slot.Some? && launch.slot.value < LAUNCH_SLOTS {
          var k := launch.slot.value;
          var counts := CopyAll(launch.counts, slots[k]);
          occupied[k] := false;
          past := PlanSlots.RememberGivenBack(past, k, id);
          launch := launch.(counts := counts, slot := None);
        }
      }
      launches := launches[id := launch];
    }

    method DisableAll(reason: string)
      requires Valid()
      modifies this
      ensures Valid() && View() == PlanSlots.Apply(old(View()), PlanSlots.OpDisable(reason))
    {
      hide TablesOk, BoundOk, Fill;
      disabled := true;
      launches := FillLaunches(launches, reason);
    }

    /** Checks, counts and writes one packet; the order of the checks is that of the program.  A geometry that cannot be
        counted is thrown, and the caller then marks the writer. */
    method ConsumePacket(p: Packet, rest: string, writer: Writers.TraceWriter, zipped: bool) returns (ghost size: nat, ghost f: W.Flushed)
      requires Valid()
      modifies this, writer
      ensures Valid()
      ensures EndToEnd.Sys(View(), writer.View(), p.launchId)
           == EndToEnd.Receive(EndToEnd.Sys(old(View()), old(writer.View()), p.launchId), p, size, rest, f)
    {
      hide Valid, State, Judge, Consume, MarkOf, RecordOf, W.WriteEncoded, W.MarkCaptureError;
      size, f := 0, W.Complete;
      if disabled {
        writer.Mark("plan_disabled_after_error", true);
        return;
      }
      var v, n := Verify(p, rest, writer);
      size := n;
      if v.GeometryOverflow? {
        writer.Mark(EndToEnd.GEOMETRY_OVERFLOW, false);
        return;
      }
      var ok := false;
      if v.Accepted? {
        ok, f := writer.PutEncodedRecord(RecordOf(launches[p.launchId], p, rest), zipped);
      } else {
        writer.Mark(MarkOf(v), true);
      }
      CountPacket(p, v, n, ok);
    }

    method CountPacket(p: Packet, v: Verdict, n: nat, ok: bool)
      requires Valid() && v == Judge(tables, State(), p, n) && !v.GeometryOverflow?
      modifies this`launches
      ensures Valid() && View() == old(View()).(c := Consume(tables, old(State()), p, n, ok))
    {
      hide TablesOk, BoundOk, Received, PredicateOutOfRange, Binds, JudgeRecord;
      if !v.NoIdentity? && !v.WrongBinding? {
        launches := launches[p.launchId := Received(launches[p.launchId], p, v, n, ok)];
      }
    }

    /** The verdict on a packet, and the length of its record with the newline. */
    method Verify(p: Packet, rest: string, writer: Writers.TraceWriter) returns (v: Verdict, n: nat)
      requires Valid()
      ensures v == Judge(tables, State(), p, n)
      ensures !v.NoIdentity? && !v.GeometryOverflow? && !v.WrongBinding? ==>
                && p.launchId in launches && p.config in launches[p.launchId].counts
                && n == |writer.setup.dump(RecordOf(launches[p.launchId], p, rest))| + 1
      ensures v.Accepted? ==> State().launches == launches
    {
      hide Binds, PredicateOutOfRange, TripleFits, RecordOf;
      n := 0;
      if p.launchId !in launches || p.version != 1 || p.point >= |tables.points| || p.config >= |tables.configs| {
        return NoIdentity, n;
      }
      var launch, point, config := launches[p.launchId], tables.points[p.point], tables.configs[p.config];
      if !TripleFits(launch.identity.geometry.block) {
        return GeometryOverflow, n;
      }
      if p.config !in launch.counts || !launch.counts[p.config].selected || !Binds(config, point, launch.identity.geometry, p) {
        return WrongBinding, n;
      }
      n := |writer.setup.dump(RecordOf(launch, p, rest))| + 1;
      v := VerifyRecord(config, point, launch, p, n);
    }

    /** `published` is false when the event sink throws; the caller then marks the writer. */
    method EndTrace(id: nat, writer: Writers.TraceWriter, published: bool)
      requires Valid()
      modifies this, writer
      ensures Valid()
      ensures EndToEnd.Sys(View(), writer.View(), id)
           == EndToEnd.EndLaunch(EndToEnd.Sys(old(View()), old(writer.View()), id), published)
    {
      if id !in launches {
        writer.Mark("missing_plan_launch_completion", false);
        return;
      }
      hide LaunchComplete, CompletionLine, W.MarkCaptureError, W.WriteMetadata;
      var line, complete := ReportAll(launches[id], disabled);
      if !complete {
        writer.Mark("plan_capture_incomplete", false);
      }
      writer.PutMetadata(line);
      if published {
        launches := launches - {id};
      } else {
        writer.Mark("plan_completion_error", false);
      }
    }
  }
}
