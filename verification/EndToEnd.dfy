/** One launch, its packets and its trace file: what a complete footer vouches for
    (src/plan_runtime.cpp with src/trace_writer.cpp; src/analysis.cu routes a packet to the writer of its launch). */
module EndToEnd {
  import opened Sequences
  import opened PlanRuntimeSpec
  import W = TraceWriterSpec
  import P = TraceWriterProof
  import PlanSlots

  /** The plan runtime of a context, and the writer of the launch `id`. */
  datatype Sys = Sys(r: PlanSlots.Runtime, w: W.Writer, id: nat)

  datatype Step =
    | Plan(op: PlanSlots.Op)
    | Arrive(p: Packet, size: nat, rest: string, f: W.Flushed)
    | Write(call: W.Op)
    | FinishTrace(published: bool)

  /** The exception for a geometry that cannot be counted is caught by the receiver, which marks every open writer. */
  const GEOMETRY_OVERFLOW := "plan_packet_error: Capture geometry exceeds count range"

  predicate WillWrite(w: W.Writer) {
    !w.tally.finished && W.IsEnabled(w.tally) && !w.setup.mode.Text?
  }

  /** A packet of the launch: judged, and written or reported as dropped. */
  function Receive(s: Sys, p: Packet, size: nat, rest: string, f: W.Flushed): Sys {
    if s.r.disabled then s.(w := W.MarkCaptureError(s.w, "plan_disabled_after_error", true))
    else
      var v := Judge(s.r.tables, s.r.c, p, size);
      if v.GeometryOverflow? then s.(w := W.MarkCaptureError(s.w, GEOMETRY_OVERFLOW, false))
      else if v.Accepted? then
        var w := W.WriteEncoded(s.w, RecordOf(s.r.c.launches[p.launchId], p, rest), f);
        s.(w := w, r := s.r.(c := Consume(s.r.tables, s.r.c, p, size, WillWrite(s.w) && w.tally.enabled)))
      else s.(w := W.MarkCaptureError(s.w, MarkOf(v), true), r := s.r.(c := Consume(s.r.tables, s.r.c, p, size, false)))
  }

  /** The launch ends: its report is written and it is forgotten, unless the event could not be published. */
  function EndLaunch(s: Sys, published: bool): Sys {
    if s.id !in s.r.c.launches then s.(w := W.MarkCaptureError(s.w, "missing_plan_launch_completion", false))
    else
      var l := s.r.c.launches[s.id];
      var u := if LaunchComplete(l, s.r.disabled) then s.w else W.MarkCaptureError(s.w, "plan_capture_incomplete", false);
      var v := W.WriteMetadata(u, CompletionLine(l, s.r.disabled));
      if published then s.(w := v, r := s.r.(c := PlanRuntimeSpec.FinishTrace(s.r.c, s.id)))
      else s.(w := W.MarkCaptureError(v, "plan_completion_error", false))
  }

  /** Packets and the end of this launch come only to its own writer; its id is not launched again; nobody else writes
      records, reports or footers of a plan. */
  predicate Fits(step: Step, id: nat) {
    match step
    case Plan(op) =>
      && !(op.OpConsume? && op.p.launchId == id) && !(op.OpFinishTrace? && op.id == id)
      && !(op.OpLaunch? && op.identity.id == id)
    case Arrive(p, _, _, _) => p.launchId == id
    case Write(call) => OnlyOther(call)
    case FinishTrace(_) => true
  }

  predicate OnlyOther(call: W.Op) {
    && (call.OpTrace? && call.line.Some? ==> call.line.value.Other?)
    && (call.OpEncoded? ==> call.record.Other?)
    && (call.OpMetadata? ==> call.metadata.Other?)
  }

  ghost function Apply(s: Sys, step: Step): Sys
    requires ContextOk(s.r.tables, s.r.c)
  {
    match step
    case Plan(op) => s.(r := PlanSlots.Apply(s.r, op))
    case Arrive(p, size, rest, f) => Receive(s, p, size, rest, f)
    case Write(call) => s.(w := W.Apply(s.w, call))
    case FinishTrace(published) => EndLaunch(s, published)
  }

  // ------------------------------------------------------------ what is in the file

  /** The sequence numbers of the records of one configuration, in the order of the file. */
  function Observed(entries: seq<W.Entry>, config: nat): seq<nat> {
    if entries == [] then []
    else
      var before, line := Observed(entries[..|entries| - 1], config), entries[|entries| - 1].line;
      if line.Observation? && line.config == config then before + [line.sequence] else before
  }

  lemma ObservedMore(entries: seq<W.Entry>, e: W.Entry, config: nat)
    ensures Observed(entries + [e], config) ==
            if e.line.Observation? && e.line.config == config then Observed(entries, config) + [e.line.sequence]
            else Observed(entries, config)
  {
    assert (entries + [e])[..|entries|] == entries;
  }

  /** The device and the host agree on every record of the configuration. */
  predicate ReportComplete(r: W.Report) {
    && r.error == ""
    && (r.selected ==>
          && r.device.attempted == r.device.emitted == r.received == r.written
          && r.device.dropped == 0 && r.device.entries == r.expectedEntries > 0)
  }

  /** Exactly `count` records, no two with one sequence number, all within the budget. */
  ghost predicate Exactly(sequences: seq<nat>, count: nat, maxRecords: nat) {
    |sequences| == count && Distinct(sequences) && forall i :: 0 <= i < |sequences| ==> sequences[i] < maxRecords
  }

  ghost predicate ConfigTold(t: Tables, k: nat, r: W.Report, entries: seq<W.Entry>) {
    && ReportComplete(r) && k < |t.configs| && Exactly(Observed(entries, k), r.written, t.configs[k].maxRecords)
    && (r.written > 0 ==> r.selected)
  }

  /** Every report among the lines is complete and true of them. */
  ghost predicate Told(t: Tables, entries: seq<W.Entry>) {
    forall i :: 0 <= i < |entries| && entries[i].line.PlanCompletion? ==>
      && entries[i].line.complete
      && forall k :: k in entries[i].line.configs ==> ConfigTold(t, k, entries[i].line.configs[k], entries)
  }

  predicate NoReport(entries: seq<W.Entry>) {
    forall i :: 0 <= i < |entries| ==> !entries[i].line.PlanCompletion?
  }

  ghost predicate ConfigCounted(t: Tables, l: Launch, k: nat, entries: seq<W.Entry>)
    requires k in l.counts
  {
    && k < |t.configs|
    && Exactly(Observed(entries, k), l.counts[k].written, t.configs[k].maxRecords)
    && (l.counts[k].written > 0 ==> l.counts[k].selected)
    && forall i :: 0 <= i < |Observed(entries, k)| ==> (k, Observed(entries, k)[i]) in l.records
  }

  ghost predicate Counted(t: Tables, l: Launch, entries: seq<W.Entry>) {
    NoReport(entries) && forall k :: k in l.counts ==> ConfigCounted(t, l, k, entries)
  }

  /** Nothing has gone wrong yet. */
  predicate Clean(w: W.Writer) {
    w.tally.errors == {} && w.tally.enabled && !w.tally.finished
  }

  ghost predicate Live(t: Tables, c: Context, id: nat, entries: seq<W.Entry>) {
    if id in c.launches then Counted(t, c.launches[id], entries) else Told(t, entries)
  }

  predicate EndsComplete(entries: seq<W.Entry>) {
    entries != [] && entries[|entries| - 1].line.Footer? && entries[|entries| - 1].line.completion.complete
  }

  ghost predicate Inv(s: Sys) {
    && PlanSlots.Ok(s.r) && P.Ok(s.w) && P.Plain(s.w.setup.mode)
    && (Clean(s.w) ==> Live(s.r.tables, s.r.c, s.id, s.w.past.accepted))
    && (s.w.tally.finished && EndsComplete(s.w.past.accepted) ==> Told(s.r.tables, s.w.past.accepted))
  }

  // ------------------------------------------------------------ steps of the writer

  lemma FlushExtends(w: W.Writer, f: W.Flushed)
    ensures var v := W.Flush(w, f);
            && v.setup == w.setup && v.past == w.past && w.tally.errors <= v.tally.errors
            && v.tally.finished == w.tally.finished && v.tally.accepting == w.tally.accepting
            && (v.tally.enabled ==> w.tally.enabled)
            && (v.tally.errors == {} ==> v.tally.enabled == w.tally.enabled)
  {
  }

  /** One record: taken as one more line, or refused with an error. */
  lemma EncodedExtends(w: W.Writer, line: W.Line, f: W.Flushed)
    ensures var v := W.WriteEncoded(w, line, f);
            && v.setup == w.setup && v.tally.finished == w.tally.finished && v.tally.accepting == w.tally.accepting
            && w.tally.errors <= v.tally.errors && (v.tally.enabled ==> w.tally.enabled)
            && (if WillWrite(w) then
                  (v.tally.errors == {} ==> v.tally.enabled) && v.past.accepted == w.past.accepted + [W.Entry(line, true)]
                else v.past.accepted == w.past.accepted && v.tally.errors != {})
  {
    FlushExtends(P.Buffered(W.Offer(w), line), f);
    hide W.Flush;
    assert "record_write_rejected" in w.tally.errors + {"record_write_rejected"};
  }

  /** At most one more line, which says nothing about a plan, and none once the writer has finished. */
  ghost predicate OneOther(w: W.Writer, v: W.Writer) {
    && v.setup == w.setup && v.tally.finished == w.tally.finished
    && w.tally.errors <= v.tally.errors && (v.tally.enabled ==> w.tally.enabled)
    && (v.tally.errors == {} ==> v.tally.accepting == w.tally.accepting)
    && (v.past.accepted == w.past.accepted
        || (!w.tally.finished && |v.past.accepted| == |w.past.accepted| + 1
            && v.past.accepted[|w.past.accepted|].line.Other?
            && v.past.accepted == w.past.accepted + [v.past.accepted[|w.past.accepted|]]))
  }

  lemma EncodedIsOne(w: W.Writer, line: W.Line, f: W.Flushed)
    requires line.Other?
    ensures OneOther(w, W.WriteEncoded(w, line, f))
  {
    hide W.WriteEncoded;
    EncodedExtends(w, line, f);
  }

  lemma BufferIsOne(w: W.Writer, line: W.Line, f: W.Flushed)
    requires line.Other? && !w.tally.finished
    ensures OneOther(w, W.Buffer(w, line, f))
  {
    hide W.Flush;
    FlushExtends(P.Buffered(w, line), f);
  }

  lemma TraceIsOne(w: W.Writer, line: Option<W.Line>, sassKnown: bool, textOk: bool, f: W.Flushed)
    requires line.Some? ==> line.value.Other?
    ensures OneOther(w, W.WriteTrace(w, line, sassKnown, textOk, f))
  {
    hide W.Buffer;
    if line.Some? && !w.tally.finished {
      BufferIsOne(W.Noted(W.Offer(w), if sassKnown then {} else {"missing_instruction_identity"}), line.value, f);
    }
  }

  lemma DisableIsOne(w: W.Writer, f: W.Flushed)
    ensures OneOther(w, W.Disable(w, f))
  {
    hide W.Flush;
    FlushExtends(W.Noted(w, {"trace_disabled"}), f);
    assert "trace_disabled" in W.Noted(w, {"trace_disabled"}).tally.errors;
  }

  /** Any call but the last. */
  lemma CallExtends(w: W.Writer, call: W.Op)
    requires OnlyOther(call) && !call.OpFinish?
    ensures OneOther(w, W.Apply(w, call))
  {
    hide W.Flush, W.WriteEncoded, W.WriteTrace, W.Disable;
    match call
    case OpEncoded(record, f) =>
      EncodedIsOne(w, record, f);
      hide OneOther;
    case OpTrace(line, sassKnown, textOk, f) =>
      TraceIsOne(w, line, sassKnown, textOk, f);
      hide OneOther;
    case OpMetadata(metadata) =>
    case OpFlush(f) => FlushExtends(w, f);
    case OpDisable(f) =>
      DisableIsOne(w, f);
      hide OneOther;
    case OpMark(reason, droppedRecord) =>
  }

  predicate Neutral(line: W.Line) {
    line.Other? || line.Footer?
  }

  lemma ToldMore(t: Tables, entries: seq<W.Entry>, e: W.Entry)
    requires Told(t, entries) && Neutral(e.line)
    ensures Told(t, entries + [e])
  {
    hide Exactly, ReportComplete;
    forall i, k | 0 <= i < |entries| && entries[i].line.PlanCompletion? && k in entries[i].line.configs
      ensures ConfigTold(t, k, entries[i].line.configs[k], entries + [e])
    {
      ObservedMore(entries, e, k);
      assert ConfigTold(t, k, entries[i].line.configs[k], entries);
    }
  }

  lemma CountedMore(t: Tables, l: Launch, entries: seq<W.Entry>, e: W.Entry)
    requires Counted(t, l, entries) && Neutral(e.line)
    ensures Counted(t, l, entries + [e])
  {
    hide Exactly;
    forall k | k in l.counts ensures ConfigCounted(t, l, k, entries + [e]) {
      ObservedMore(entries, e, k);
      assert ConfigCounted(t, l, k, entries);
    }
  }

  lemma LiveMore(t: Tables, c: Context, id: nat, entries: seq<W.Entry>, e: W.Entry)
    requires Live(t, c, id, entries) && Neutral(e.line)
    ensures Live(t, c, id, entries + [e])
  {
    hide Counted, Told;
    if id in c.launches {
      CountedMore(t, c.launches[id], entries, e);
    } else {
      ToldMore(t, entries, e);
    }
  }

  lemma CountedIsTold(t: Tables, l: Launch, entries: seq<W.Entry>)
    requires Counted(t, l, entries)
    ensures Told(t, entries)
  {
  }

  // ------------------------------------------------------------ steps of the plan

  /** What was decided when the launch began: who it is, its configurations, which are selected and what they expect. */
  ghost predicate SamePlan(l: Launch, m: Launch) {
    && l.identity == m.identity && l.counts.Keys == m.counts.Keys
    && forall k :: k in l.counts ==>
         l.counts[k].selected == m.counts[k].selected && l.counts[k].expectedEntries == m.counts[k].expectedEntries
  }

  /** What the lines are counted against. */
  ghost predicate SameRecords(l: Launch, m: Launch) {
    l.records == m.records && SamePlan(l, m) && forall k :: k in l.counts ==> l.counts[k].written == m.counts[k].written
  }

  lemma SameCounted(t: Tables, l: Launch, m: Launch, entries: seq<W.Entry>)
    requires Counted(t, l, entries) && SameRecords(l, m)
    ensures Counted(t, m, entries)
  {
    forall k | k in m.counts ensures ConfigCounted(t, m, k, entries) {
      assert ConfigCounted(t, l, k, entries);
    }
  }

  ghost predicate KeepsRecords(c: Context, d: Context, id: nat) {
    && (id in d.launches <==> id in c.launches)
    && (id in c.launches ==> SameRecords(c.launches[id], d.launches[id]))
  }

  lemma PlaceKeepsRecords(c: Context, identity: Identity, counts: map<nat, Counts>, id: nat)
    requires |c.occupied| == |c.slots| && identity.id != id
    ensures KeepsRecords(c, Place(c, identity, counts).c, id)
  {
    hide SelectedIn, FirstFree;
  }

  lemma CompleteKeepsRecords(c: Context, other: nat, completed: bool, drained: bool, id: nat)
    requires |c.occupied| == |c.slots| == LAUNCH_SLOTS
    ensures KeepsRecords(c, DeviceComplete(c, other, completed, drained), id)
  {
  }

  lemma DisableKeepsRecords(c: Context, reason: string, id: nat)
    ensures KeepsRecords(c, DisablePlan(c, reason), id)
  {
  }

  lemma ConsumeKeepsRecords(t: Tables, c: Context, p: Packet, size: nat, written: bool, id: nat)
    requires p.launchId != id
    ensures KeepsRecords(c, Consume(t, c, p, size, written), id)
  {
    hide PredicateOutOfRange, Binds, Received;
  }

  /** Other launches, completions, device counters and even disabling leave the records of this launch alone. */
  lemma PlanKeepsRecords(r: PlanSlots.Runtime, op: PlanSlots.Op, id: nat)
    requires ContextOk(r.tables, r.c) && Fits(Plan(op), id)
    ensures PlanSlots.Apply(r, op).tables == r.tables && KeepsRecords(r.c, PlanSlots.Apply(r, op).c, id)
  {
    hide Prepared, LaunchCounts, Place, DeviceComplete, DisablePlan, Consume, BoundOk, PlanSlots.RememberTaken,
         PlanSlots.RememberGivenBack;
    match op
    case OpLaunch(fn, identity) =>
      if fn in r.c.bound && Prepared(r.tables, r.c.bound[fn], identity) {
        PlaceKeepsRecords(r.c, identity, LaunchCounts(r.tables, r.c.bound[fn], identity), id);
      }
    case OpComplete(other, completed, drained) => CompleteKeepsRecords(r.c, other, completed, drained, id);
    case OpConsume(p, size, written) => ConsumeKeepsRecords(r.tables, r.c, p, size, written, id);
    case OpDisable(reason) => DisableKeepsRecords(r.c, reason, id);
    case _ =>
  }

  lemma AcceptedFacts(t: Tables, c: Context, p: Packet, size: nat)
    requires Judge(t, c, p, size).Accepted?
    ensures p.launchId in c.launches && p.config < |t.configs| && p.config in c.launches[p.launchId].counts
    ensures (p.config, p.sequence) !in c.launches[p.launchId].records && p.sequence < t.configs[p.config].maxRecords
    ensures c.launches[p.launchId].counts[p.config].selected
  {
    hide PredicateOutOfRange, BlockLanes, InGeometry, SelectedLanes;
  }

  lemma ExactlyMore(sequences: seq<nat>, count: nat, maxRecords: nat, s: nat)
    requires Exactly(sequences, count, maxRecords) && s !in sequences && s < maxRecords
    ensures Exactly(sequences + [s], count + 1, maxRecords)
  {
  }

  /** The configuration whose packet was taken, and the others. */
  lemma AcceptedConfig(t: Tables, l: Launch, p: Packet, size: nat, entries: seq<W.Entry>, e: W.Entry, k: nat)
    requires k in l.counts && ConfigCounted(t, l, k, entries) && p.config in l.counts && p.config < |t.configs|
    requires (p.config, p.sequence) !in l.records && p.sequence < t.configs[p.config].maxRecords && l.counts[p.config].selected
    requires e.line.Observation? && e.line.config == p.config && e.line.sequence == p.sequence
    ensures k in Received(l, p, Accepted, size, true).counts
    ensures ConfigCounted(t, Received(l, p, Accepted, size, true), k, entries + [e])
  {
    ObservedMore(entries, e, k);
    hide Observed;
    if k == p.config {
      assert p.sequence !in Observed(entries, k);
      ExactlyMore(Observed(entries, k), l.counts[k].written, t.configs[k].maxRecords, p.sequence);
    }
    hide Exactly;
  }

  lemma {:induction false} AcceptedCounted(t: Tables, c: Context, p: Packet, size: nat, rest: string, entries: seq<W.Entry>)
    requires Judge(t, c, p, size).Accepted? && Counted(t, c.launches[p.launchId], entries)
    ensures var l := c.launches[p.launchId];
            Counted(t, Received(l, p, Accepted, size, true), entries + [W.Entry(RecordOf(l, p, rest), true)])
  {
    hide Judge, ConfigCounted;
    AcceptedFacts(t, c, p, size);
    var l := c.launches[p.launchId];
    var m, e := Received(l, p, Accepted, size, true), W.Entry(RecordOf(l, p, rest), true);
    forall k | k in m.counts ensures ConfigCounted(t, m, k, entries + [e]) {
      AcceptedConfig(t, l, p, size, entries, e, k);
    }
  }

  /** An accepted packet adds its record, or leaves the writer with an error. */
  lemma AcceptedInv(s: Sys, p: Packet, size: nat, rest: string, f: W.Flushed)
    requires Inv(s) && p.launchId == s.id && !s.r.disabled && Judge(s.r.tables, s.r.c, p, size).Accepted?
    ensures Inv(Receive(s, p, size, rest, f))
  {
    hide PlanSlots.Ok, P.Ok, Told, Counted, Judge, W.WriteEncoded, Received, EndsComplete;
    ReceiveOk(s, p, size, rest, f);
    AcceptedFacts(s.r.tables, s.r.c, p, size);
    EncodedExtends(s.w, RecordOf(s.r.c.launches[p.launchId], p, rest), f);
    if Clean(s.w) {
      AcceptedCounted(s.r.tables, s.r.c, p, size, rest, s.w.past.accepted);
    }
  }

  /** A packet, accepted or refused, keeps the agreement. */
  lemma {:induction false} ReceiveInv(s: Sys, p: Packet, size: nat, rest: string, f: W.Flushed)
    requires Inv(s) && p.launchId == s.id
    ensures Inv(Receive(s, p, size, rest, f))
  {
    hide PlanSlots.Ok, P.Ok, Told, Live, Judge, W.WriteEncoded, Consume, MarkOf, EndsComplete;
    var v := Judge(s.r.tables, s.r.c, p, size);
    if !s.r.disabled && v.Accepted? {
      AcceptedInv(s, p, size, rest, f);
    } else {
      ReceiveOk(s, p, size, rest, f);
      MarkIsAnError(s.w, "plan_disabled_after_error");
      MarkIsAnError(s.w, GEOMETRY_OVERFLOW);
      MarkIsAnError(s.w, MarkOf(v));
    }
  }

  lemma MarkIsAnError(w: W.Writer, reason: string)
    ensures forall dropped ::
              var v := W.MarkCaptureError(w, reason, dropped);
              && reason in v.tally.errors && v.setup == w.setup && v.past.accepted == w.past.accepted
              && v.tally.finished == w.tally.finished && v.tally.accepting == w.tally.accepting
  {
  }

  ghost predicate StillOk(s: Sys, u: Sys) {
    PlanSlots.Ok(u.r) && P.Ok(u.w) && P.Plain(u.w.setup.mode) && u.r.tables == s.r.tables
  }

  lemma AcceptedOk(s: Sys, p: Packet, size: nat, rest: string, f: W.Flushed)
    requires StillOk(s, s) && !s.r.disabled && Judge(s.r.tables, s.r.c, p, size).Accepted?
    ensures StillOk(s, Receive(s, p, size, rest, f))
  {
    hide PlanSlots.Ok, P.Ok, Judge, W.WriteEncoded, Consume;
    AcceptedFacts(s.r.tables, s.r.c, p, size);
    var line := RecordOf(s.r.c.launches[p.launchId], p, rest);
    P.StepOk(s.w, W.OpEncoded(line, f));
    EncodedExtends(s.w, line, f);
    PlanSlots.StepOk(s.r, PlanSlots.OpConsume(p, size, WillWrite(s.w) && W.WriteEncoded(s.w, line, f).tally.enabled));
  }

  lemma MarkedOk(w: W.Writer, reason: string, dropped: bool)
    requires P.Ok(w)
    ensures P.Ok(W.MarkCaptureError(w, reason, dropped)) && W.MarkCaptureError(w, reason, dropped).setup == w.setup
  {
    hide P.Ok;
    P.StepOk(w, W.OpMark(reason, dropped));
  }

  lemma ReceiveOk(s: Sys, p: Packet, size: nat, rest: string, f: W.Flushed)
    requires StillOk(s, s)
    ensures StillOk(s, Receive(s, p, size, rest, f))
  {
    hide PlanSlots.Ok, P.Ok, Judge, W.WriteEncoded, Consume, W.MarkCaptureError, MarkOf, P.Plain;
    var v := Judge(s.r.tables, s.r.c, p, size);
    if !s.r.disabled && v.Accepted? {
      AcceptedOk(s, p, size, rest, f);
    } else {
      MarkedOk(s.w, "plan_disabled_after_error", true);
      MarkedOk(s.w, GEOMETRY_OVERFLOW, false);
      MarkedOk(s.w, MarkOf(v), true);
      PlanSlots.StepOk(s.r, PlanSlots.OpConsume(p, size, false));
    }
  }

  // ------------------------------------------------------------ the end of the launch

  lemma CompleteConfigs(l: Launch, disabled: bool, k: nat)
    requires LaunchComplete(l, disabled) && k in l.counts
    ensures ReportComplete(ReportOf(l.counts[k]))
  {
    assert !Incomplete(l.counts[k], l.available);
  }

  /** A complete report tells the truth about the lines written so far. */
  lemma {:induction false} ReportTold(t: Tables, l: Launch, disabled: bool, entries: seq<W.Entry>, r: bool)
    requires Counted(t, l, entries) && LaunchComplete(l, disabled)
    ensures Told(t, entries + [W.Entry(CompletionLine(l, disabled), r)])
  {
    var e := W.Entry(CompletionLine(l, disabled), r);
    var all := entries + [e];
    forall i, k | 0 <= i < |all| && all[i].line.PlanCompletion? && k in all[i].line.configs
      ensures ConfigTold(t, k, all[i].line.configs[k], all)
    {
      assert i == |entries|;
      CompleteConfigs(l, disabled, k);
      ObservedMore(entries, e, k);
      assert ConfigCounted(t, l, k, entries);
    }
  }

  lemma MetadataExtends(w: W.Writer, line: W.Line)
    ensures var v := W.WriteMetadata(w, line);
            && v.setup == w.setup && v.tally == w.tally
            && (if WillWrite(w) then v.past.accepted == w.past.accepted + [W.Entry(line, false)]
                else v.past.accepted == w.past.accepted)
  {
  }

  lemma EndOk(s: Sys, published: bool)
    requires Inv(s)
    ensures var u := EndLaunch(s, published); PlanSlots.Ok(u.r) && P.Ok(u.w) && P.Plain(u.w.setup.mode) && u.r.tables == s.r.tables
  {
    hide PlanSlots.Ok, P.Ok, Clean, Live, Told, W.WriteMetadata, W.MarkCaptureError, LaunchComplete;
    MarkIsAnError(s.w, "missing_plan_launch_completion");
    MarkIsAnError(s.w, "plan_capture_incomplete");
    P.StepOk(s.w, W.OpMark("missing_plan_launch_completion", false));
    P.StepOk(s.w, W.OpMark("plan_capture_incomplete", false));
    if s.id in s.r.c.launches {
      var l := s.r.c.launches[s.id];
      var u := if LaunchComplete(l, s.r.disabled) then s.w else W.MarkCaptureError(s.w, "plan_capture_incomplete", false);
      var line := CompletionLine(l, s.r.disabled);
      P.StepOk(u, W.OpMetadata(line));
      MetadataExtends(u, line);
      var v := W.WriteMetadata(u, line);
      P.StepOk(v, W.OpMark("plan_completion_error", false));
      MarkIsAnError(v, "plan_completion_error");
      PlanSlots.StepOk(s.r, PlanSlots.OpFinishTrace(s.id));
    }
  }

  lemma {:induction false} EndInv(s: Sys, published: bool)
    requires Inv(s)
    ensures Inv(EndLaunch(s, published))
  {
    EndOk(s, published);
    var out := EndLaunch(s, published);
    hide PlanSlots.Ok, P.Ok, Told, Counted, W.WriteMetadata, W.MarkCaptureError, LaunchComplete, CompletionLine;
    MarkIsAnError(s.w, "missing_plan_launch_completion");
    MarkIsAnError(s.w, "plan_capture_incomplete");
    if s.id in s.r.c.launches {
      var l := s.r.c.launches[s.id];
      var u := if LaunchComplete(l, s.r.disabled) then s.w else W.MarkCaptureError(s.w, "plan_capture_incomplete", false);
      var line := CompletionLine(l, s.r.disabled);
      MetadataExtends(u, line);
      MarkIsAnError(W.WriteMetadata(u, line), "plan_completion_error");
      if Clean(out.w) {
        CountedIsTold(s.r.tables, l, s.w.past.accepted);
        ReportTold(s.r.tables, l, s.r.disabled, s.w.past.accepted, false);
      }
    }
  }

  // ------------------------------------------------------------ the other steps

  lemma PlanInv(s: Sys, op: PlanSlots.Op)
    requires Inv(s) && Fits(Plan(op), s.id)
    ensures Inv(s.(r := PlanSlots.Apply(s.r, op)))
  {
    PlanSlots.StepOk(s.r, op);
    PlanKeepsRecords(s.r, op, s.id);
    hide PlanSlots.Ok, P.Ok, Told, Counted, PlanSlots.Apply, SameRecords;
    if Clean(s.w) && s.id in s.r.c.launches {
      SameCounted(s.r.tables, s.r.c.launches[s.id], PlanSlots.Apply(s.r, op).c.launches[s.id], s.w.past.accepted);
    }
  }

  lemma FinishExtends(w: W.Writer, launchId: nat, completed: bool, drained: bool, synced: bool, f: W.Flushed, g: W.Flushed)
    requires !w.tally.finished && P.Plain(w.setup.mode)
    ensures var v := W.Finish(w, launchId, completed, drained, synced, f, g);
            && v.setup == w.setup && v.tally.finished
            && (v.past.accepted == w.past.accepted
                || exists e :: v.past.accepted == w.past.accepted + [e] && e.line.Footer? && (e.line.completion.complete ==> Clean(w)))
  {
    var u := W.Closing(w, completed, drained, synced, f);
    FlushExtends(w, f);
    var e := W.Entry(W.FooterOf(u.tally, launchId, completed, drained), false);
    FlushExtends(W.Append(u, e.line, false), g);
    hide W.Flush;
    if u.tally.enabled {
      assert W.Finish(w, launchId, completed, drained, synced, f, g).past.accepted == w.past.accepted + [e];
    }
  }

  lemma {:induction false} FinishInv(s: Sys, call: W.Op)
    requires Inv(s) && call.OpFinish?
    ensures Inv(s.(w := W.Apply(s.w, call)))
  {
    hide PlanSlots.Ok, P.Ok, Told, Counted, W.Finish, EndsComplete;
    P.StepOk(s.w, call);
    if !s.w.tally.finished {
      FinishExtends(s.w, call.launchId, call.completed, call.drained, call.synced, call.f, call.g);
      NoFooterYet(s.w);
      var v := W.Apply(s.w, call);
      if EndsComplete(v.past.accepted) {
        var e :| v.past.accepted == s.w.past.accepted + [e] && e.line.Footer? && (e.line.completion.complete ==> Clean(s.w));
        LastComplete(s.w.past.accepted, e);
        if s.id in s.r.c.launches {
          CountedIsTold(s.r.tables, s.r.c.launches[s.id], s.w.past.accepted);
        }
        ToldMore(s.r.tables, s.w.past.accepted, e);
      }
    } else {
      FinishedStays(s.w, call);
    }
  }

  lemma LastComplete(entries: seq<W.Entry>, e: W.Entry)
    requires EndsComplete(entries + [e])
    ensures e.line.Footer? && e.line.completion.complete
  {
    assert (entries + [e])[|entries|] == e;
  }

  lemma FinishedStays(w: W.Writer, call: W.Op)
    requires w.tally.finished && call.OpFinish?
    ensures W.Apply(w, call) == w
  {
  }

  lemma NoFooterYet(w: W.Writer)
    requires P.Ok(w) && !w.tally.finished && P.Plain(w.setup.mode)
    ensures !EndsComplete(w.past.accepted)
  {
  }

  lemma CallInv(s: Sys, call: W.Op)
    requires Inv(s) && OnlyOther(call) && !call.OpFinish?
    ensures Inv(s.(w := W.Apply(s.w, call)))
  {
    P.StepOk(s.w, call);
    CallExtends(s.w, call);
    var v := W.Apply(s.w, call);
    hide PlanSlots.Ok, P.Ok, Told, Live, W.Apply;
    if Clean(v) && v.past.accepted != s.w.past.accepted {
      LiveMore(s.r.tables, s.r.c, s.id, s.w.past.accepted, v.past.accepted[|s.w.past.accepted|]);
    }
  }

  lemma {:induction false} StepInv(s: Sys, step: Step)
    requires Inv(s) && Fits(step, s.id)
    ensures Inv(Apply(s, step))
  {
    hide Inv, PlanSlots.Apply, W.Apply, Receive, EndLaunch;
    match step
    case Plan(op) => PlanInv(s, op);
    case Arrive(p, size, rest, f) => ReceiveInv(s, p, size, rest, f);
    case Write(call) =>
      if call.OpFinish? {
        FinishInv(s, call);
      } else {
        CallInv(s, call);
      }
    case FinishTrace(published) => EndInv(s, published);
  }

  // ------------------------------------------------------------ the report of the launch

  /** A report of this launch, on exactly the configurations it began with, selected as they were then. */
  ghost predicate ReportsOn(line: W.Line, begun: Launch) {
    && line.PlanCompletion? && line.launch == begun.identity.launch && line.configs.Keys == begun.counts.Keys
    && forall k :: k in begun.counts ==>
         line.configs[k].selected == begun.counts[k].selected && line.configs[k].expectedEntries == begun.counts[k].expectedEntries
  }

  ghost predicate OnlyReport(entries: seq<W.Entry>, j: nat, begun: Launch) {
    && j < |entries| && ReportsOn(entries[j].line, begun)
    && forall i :: 0 <= i < |entries| && entries[i].line.PlanCompletion? ==> i == j
  }

  ghost predicate Reported(entries: seq<W.Entry>, begun: Launch) {
    exists j: nat :: OnlyReport(entries, j, begun)
  }

  /** Every record names the launch. */
  predicate OwnRecords(entries: seq<W.Entry>, launch: nat) {
    forall i :: 0 <= i < |entries| && entries[i].line.Observation? ==> entries[i].line.launch == launch
  }

  lemma OwnMore(entries: seq<W.Entry>, e: W.Entry, launch: nat)
    requires OwnRecords(entries, launch) && (e.line.Observation? ==> e.line.launch == launch)
    ensures OwnRecords(entries + [e], launch)
  {
  }

  /** `ended` says that the launch was ended while the writer was open. */
  ghost predicate ReportInv(s: Sys, begun: Launch, ended: bool) {
    && (s.id in s.r.c.launches ==> SamePlan(s.r.c.launches[s.id], begun))
    && OwnRecords(s.w.past.accepted, begun.identity.launch)
    && (Clean(s.w) ==> s.w.tally.accepting)
    && (Clean(s.w) && ended ==> s.id !in s.r.c.launches)
    && (Clean(s.w) && s.id !in s.r.c.launches ==> Reported(s.w.past.accepted, begun))
    && (s.w.tally.finished && ended && EndsComplete(s.w.past.accepted) ==> Reported(s.w.past.accepted, begun))
  }

  lemma ReportedMore(entries: seq<W.Entry>, e: W.Entry, begun: Launch)
    requires Reported(entries, begun) && !e.line.PlanCompletion?
    ensures Reported(entries + [e], begun)
  {
    var j: nat :| OnlyReport(entries, j, begun);
    assert OnlyReport(entries + [e], j, begun);
  }

  lemma FirstReport(l: Launch, begun: Launch, disabled: bool, entries: seq<W.Entry>, r: bool)
    requires SamePlan(l, begun) && NoReport(entries)
    ensures Reported(entries + [W.Entry(CompletionLine(l, disabled), r)], begun)
  {
    hide LaunchComplete;
    assert OnlyReport(entries + [W.Entry(CompletionLine(l, disabled), r)], |entries|, begun);
  }

  lemma ConsumeKeepsPlan(t: Tables, c: Context, p: Packet, size: nat, written: bool)
    ensures var d := Consume(t, c, p, size, written);
            && d.launches.Keys == c.launches.Keys
            && (p.launchId in c.launches ==> SamePlan(d.launches[p.launchId], c.launches[p.launchId]))
  {
    hide PredicateOutOfRange, Binds, ErrorOf;
  }

  lemma AcceptedReport(s: Sys, p: Packet, size: nat, rest: string, f: W.Flushed, begun: Launch, ended: bool)
    requires ReportInv(s, begun, ended) && p.launchId == s.id && !s.r.disabled && Judge(s.r.tables, s.r.c, p, size).Accepted?
    ensures ReportInv(Receive(s, p, size, rest, f), begun, ended)
  {
    hide Reported, OwnRecords, EndsComplete, Judge, Consume, W.WriteEncoded;
    var t, c := s.r.tables, s.r.c;
    AcceptedFacts(t, c, p, size);
    var line := RecordOf(c.launches[p.launchId], p, rest);
    EncodedExtends(s.w, line, f);
    OwnMore(s.w.past.accepted, W.Entry(line, true), begun.identity.launch);
    ConsumeKeepsPlan(t, c, p, size, WillWrite(s.w) && W.WriteEncoded(s.w, line, f).tally.enabled);
  }

  lemma ReceiveReport(s: Sys, p: Packet, size: nat, rest: string, f: W.Flushed, begun: Launch, ended: bool)
    requires ReportInv(s, begun, ended) && p.launchId == s.id
    ensures ReportInv(Receive(s, p, size, rest, f), begun, ended)
  {
    hide Reported, OwnRecords, EndsComplete, Judge, Consume, W.WriteEncoded, W.MarkCaptureError, MarkOf;
    var v := Judge(s.r.tables, s.r.c, p, size);
    if !s.r.disabled && v.Accepted? {
      AcceptedReport(s, p, size, rest, f, begun, ended);
    } else {
      ConsumeKeepsPlan(s.r.tables, s.r.c, p, size, false);
      MarkIsAnError(s.w, "plan_disabled_after_error");
      MarkIsAnError(s.w, GEOMETRY_OVERFLOW);
      MarkIsAnError(s.w, MarkOf(v));
    }
  }

  lemma EndReport(s: Sys, published: bool, begun: Launch, ended: bool)
    requires Inv(s) && ReportInv(s, begun, ended)
    ensures ReportInv(EndLaunch(s, published), begun, ended || !s.w.tally.finished)
  {
    hide PlanSlots.Ok, P.Ok, Told, ConfigCounted, Reported, OwnRecords, EndsComplete, W.WriteMetadata, W.MarkCaptureError,
         LaunchComplete, SamePlan;
    MarkIsAnError(s.w, "missing_plan_launch_completion");
    MarkIsAnError(s.w, "plan_capture_incomplete");
    if s.id in s.r.c.launches {
      var l := s.r.c.launches[s.id];
      var u := if LaunchComplete(l, s.r.disabled) then s.w else W.MarkCaptureError(s.w, "plan_capture_incomplete", false);
      var line := CompletionLine(l, s.r.disabled);
      MetadataExtends(u, line);
      OwnMore(s.w.past.accepted, W.Entry(line, false), begun.identity.launch);
      MarkIsAnError(W.WriteMetadata(u, line), "plan_completion_error");
      if Clean(s.w) {
        FirstReport(l, begun, s.r.disabled, s.w.past.accepted, false);
      }
    }
  }

  lemma CallReport(s: Sys, call: W.Op, begun: Launch, ended: bool)
    requires ReportInv(s, begun, ended) && OnlyOther(call) && !call.OpFinish?
    ensures ReportInv(s.(w := W.Apply(s.w, call)), begun, ended)
  {
    hide Reported, OwnRecords, SamePlan, W.Apply;
    CallExtends(s.w, call);
    var v := W.Apply(s.w, call);
    if v.past.accepted != s.w.past.accepted {
      var e := v.past.accepted[|s.w.past.accepted|];
      OwnMore(s.w.past.accepted, e, begun.identity.launch);
      if Reported(s.w.past.accepted, begun) {
        ReportedMore(s.w.past.accepted, e, begun);
      }
    }
  }

  /** A complete footer is only ever written by a writer that had nothing to complain about. */
  lemma FinishReport(s: Sys, call: W.Op, begun: Launch, ended: bool)
    requires P.Ok(s.w) && P.Plain(s.w.setup.mode) && ReportInv(s, begun, ended) && call.OpFinish?
    ensures ReportInv(s.(w := W.Apply(s.w, call)), begun, ended)
  {
    hide P.Ok, Reported, OwnRecords, SamePlan, W.Finish, EndsComplete;
    if !s.w.tally.finished {
      FinishExtends(s.w, call.launchId, call.completed, call.drained, call.synced, call.f, call.g);
      NoFooterYet(s.w);
      var v := W.Apply(s.w, call);
      if v.past.accepted != s.w.past.accepted {
        var e :| v.past.accepted == s.w.past.accepted + [e] && e.line.Footer? && (e.line.completion.complete ==> Clean(s.w));
        OwnMore(s.w.past.accepted, e, begun.identity.launch);
        if EndsComplete(v.past.accepted) && ended {
          LastComplete(s.w.past.accepted, e);
          ReportedMore(s.w.past.accepted, e, begun);
        }
      }
    } else {
      FinishedStays(s.w, call);
    }
  }

  predicate EndsLaunch(s: Sys, step: Step) {
    step.FinishTrace? && !s.w.tally.finished
  }

  lemma PlanReport(s: Sys, op: PlanSlots.Op, begun: Launch, ended: bool)
    requires ContextOk(s.r.tables, s.r.c) && Fits(Plan(op), s.id) && ReportInv(s, begun, ended)
    ensures ReportInv(s.(r := PlanSlots.Apply(s.r, op)), begun, ended)
  {
    hide Reported, OwnRecords, EndsComplete, PlanSlots.Apply, ContextOk;
    PlanKeepsRecords(s.r, op, s.id);
  }

  lemma {:induction false} StepReport(s: Sys, step: Step, begun: Launch, ended: bool)
    requires Inv(s) && Fits(step, s.id) && ReportInv(s, begun, ended)
    ensures ReportInv(Apply(s, step), begun, ended || EndsLaunch(s, step))
  {
    hide ReportInv, PlanSlots.Apply, W.Apply, Receive, EndLaunch, P.Ok, P.Plain, Clean, Live, Told, EndsComplete, ContextOk,
         PlanSlots.OwnersOk, PlanSlots.HoldersOk, PlanSlots.AssignedOk;
    match step
    case Plan(op) => PlanReport(s, op, begun, ended);
    case Arrive(p, size, rest, f) => ReceiveReport(s, p, size, rest, f, begun, ended);
    case Write(call) =>
      if call.OpFinish? {
        FinishReport(s, call, begun, ended);
      } else {
        CallReport(s, call, begun, ended);
      }
    case FinishTrace(published) => EndReport(s, published, begun, ended);
  }

  // ------------------------------------------------------------ runs

  /** A launch that has just been accepted, and its new writer. */
  ghost predicate Begun(s: Sys) {
    && PlanSlots.Ok(s.r) && P.Plain(s.w.setup.mode)
    && (exists isOpen :: s.w == W.Initial(s.w.setup, isOpen))
    && s.id in s.r.c.launches
    && (forall k :: k in s.r.c.launches[s.id].counts ==> k < |s.r.tables.configs| && s.r.c.launches[s.id].counts[k].written == 0)
  }

  ghost function Run(s: Sys, steps: seq<Step>): (u: Sys)
    requires Begun(s) && forall x :: x in steps ==> Fits(x, s.id)
    ensures Inv(u) && u.id == s.id && u.r.tables == s.r.tables && u.w.setup == s.w.setup
  {
    if steps == [] then
      BegunInv(s);
      s
    else
      var before := Run(s, steps[..|steps| - 1]);
      StepInv(before, steps[|steps| - 1]);
      SameTables(before, steps[|steps| - 1]);
      Apply(before, steps[|steps| - 1])
  }

  lemma BegunInv(s: Sys)
    requires Begun(s)
    ensures Inv(s)
  {
    hide PlanSlots.Ok, P.Ok, Counted, Told, Observed;
    var isOpen :| s.w == W.Initial(s.w.setup, isOpen);
    P.InitialOk(s.w.setup, isOpen);
    assert s.w.past.accepted == [] && !s.w.tally.finished;
    NothingCounted(s.r.tables, s.r.c.launches[s.id]);
  }

  lemma NothingCounted(t: Tables, l: Launch)
    requires forall k :: k in l.counts ==> k < |t.configs| && l.counts[k].written == 0
    ensures Counted(t, l, [])
  {
    forall k | k in l.counts ensures ConfigCounted(t, l, k, []) {
      assert Observed([], k) == [];
    }
  }

  ghost predicate SameFile(s: Sys, u: Sys) {
    u.id == s.id && u.r.tables == s.r.tables && u.w.setup == s.w.setup
  }

  lemma ReceiveSame(s: Sys, p: Packet, size: nat, rest: string, f: W.Flushed)
    ensures SameFile(s, Receive(s, p, size, rest, f)) && Receive(s, p, size, rest, f).w.tally.finished == s.w.tally.finished
  {
    hide Judge, Consume, W.WriteEncoded, MarkOf;
    if Judge(s.r.tables, s.r.c, p, size).Accepted? {
      AcceptedFacts(s.r.tables, s.r.c, p, size);
      EncodedExtends(s.w, RecordOf(s.r.c.launches[p.launchId], p, rest), f);
    }
  }

  lemma EndSame(s: Sys, published: bool)
    ensures SameFile(s, EndLaunch(s, published)) && EndLaunch(s, published).w.tally.finished == s.w.tally.finished
  {
    hide LaunchComplete, CompletionLine;
  }

  lemma WriteSame(w: W.Writer, call: W.Op)
    requires OnlyOther(call) && P.Plain(w.setup.mode)
    ensures W.Apply(w, call).setup == w.setup
  {
    if !call.OpFinish? {
      CallExtends(w, call);
      hide W.Apply;
    } else if !w.tally.finished {
      FinishExtends(w, call.launchId, call.completed, call.drained, call.synced, call.f, call.g);
      hide W.Finish;
    }
  }

  lemma SameTables(s: Sys, step: Step)
    requires ContextOk(s.r.tables, s.r.c) && P.Plain(s.w.setup.mode) && Fits(step, s.id)
    ensures SameFile(s, Apply(s, step))
  {
    hide Receive, EndLaunch, PlanSlots.Apply, W.Apply, ContextOk;
    match step
    case Plan(op) => PlanKeepsRecords(s.r, op, s.id);
    case Arrive(p, size, rest, f) => ReceiveSame(s, p, size, rest, f);
    case Write(call) => WriteSame(s.w, call);
    case FinishTrace(published) => EndSame(s, published);
  }

  predicate Finishes(step: Step) {
    step.Write? && step.call.OpFinish?
  }

  /** The launch is ended before its writer is finished, whatever else happens. */
  ghost predicate EndedFirst(steps: seq<Step>) {
    exists n :: 0 <= n < |steps| && steps[n].FinishTrace? && forall q :: 0 <= q < n ==> !Finishes(steps[q])
  }

  lemma OnlyFinishFinishes(s: Sys, step: Step)
    requires ContextOk(s.r.tables, s.r.c) && Fits(step, s.id) && !Finishes(step)
    ensures Apply(s, step).w.tally.finished == s.w.tally.finished
  {
    hide Receive, EndLaunch, PlanSlots.Apply, W.Apply, ContextOk, SameFile;
    match step
    case Plan(op) =>
    case Arrive(p, size, rest, f) => ReceiveSame(s, p, size, rest, f);
    case Write(call) => CallExtends(s.w, call);
    case FinishTrace(published) => EndSame(s, published);
  }

  ghost predicate FinishedBy(s: Sys, steps: seq<Step>) {
    s.w.tally.finished ==> exists q :: 0 <= q < |steps| && Finishes(steps[q])
  }

  lemma {:induction false} OneMoreStep(before: Sys, front: seq<Step>, last: Step, begun: Launch)
    requires Inv(before) && Fits(last, before.id) && ReportInv(before, begun, EndedFirst(front)) && FinishedBy(before, front)
    ensures ReportInv(Apply(before, last), begun, EndedFirst(front + [last])) && FinishedBy(Apply(before, last), front + [last])
  {
    StepReport(before, last, begun, EndedFirst(front));
    Remembered(before, front, last);
    Forgetful(Apply(before, last), begun, EndedFirst(front) || EndsLaunch(before, last), EndedFirst(front + [last]));
    if Finishes(last) {
      assert Finishes((front + [last])[|front|]);
    } else if Apply(before, last).w.tally.finished {
      OnlyFinishFinishes(before, last);
      var q :| 0 <= q < |front| && Finishes(front[q]);
      assert Finishes((front + [last])[q]);
    }
    hide ReportInv, EndsLaunch, EndedFirst, Apply;
  }

  /** The report that is written is that of the launch as it began. */
  lemma {:induction false} RunReport(s: Sys, steps: seq<Step>)
    requires Begun(s) && forall x :: x in steps ==> Fits(x, s.id)
    ensures ReportInv(Run(s, steps), s.r.c.launches[s.id], EndedFirst(steps)) && FinishedBy(Run(s, steps), steps)
  {
    var begun := s.r.c.launches[s.id];
    hide Begun, Inv, ReportInv, EndedFirst, Fits, FinishedBy, Run, Apply, PlanSlots.Ok;
    if steps == [] {
      BegunReport(s);
      NoSteps(s);
    } else {
      var front, last := steps[..|steps| - 1], steps[|steps| - 1];
      assert steps == front + [last];
      assert last in steps && forall x :: x in front ==> x in steps;
      RunReport(s, front);
      var before := Run(s, front);
      OneMoreStep(before, front, last, begun);
      LastStep(s, steps);
    }
  }

  lemma NoSteps(s: Sys)
    requires Begun(s)
    ensures Run(s, []) == s
  {
    hide Begun, Inv;
  }

  lemma {:induction false} LastStep(s: Sys, steps: seq<Step>)
    requires Begun(s) && (forall x :: x in steps ==> Fits(x, s.id)) && steps != []
    ensures var before := Run(s, steps[..|steps| - 1]);
            ContextOk(before.r.tables, before.r.c) && Run(s, steps) == Apply(before, steps[|steps| - 1])
  {
    hide Begun, Fits, Apply, P.Ok, Live, Told;
  }

  lemma BegunReport(s: Sys)
    requires Begun(s)
    ensures ReportInv(s, s.r.c.launches[s.id], EndedFirst([])) && FinishedBy(s, [])
  {
    hide PlanSlots.Ok, Reported;
  }

  lemma Remembered(before: Sys, front: seq<Step>, last: Step)
    requires FinishedBy(before, front)
    ensures EndedFirst(front + [last]) ==> EndedFirst(front) || EndsLaunch(before, last)
  {
    var steps := front + [last];
    if EndedFirst(steps) {
      var n :| 0 <= n < |steps| && steps[n].FinishTrace? && forall q :: 0 <= q < n ==> !Finishes(steps[q]);
      assert forall q :: 0 <= q < |front| ==> steps[q] == front[q];
    }
  }

  lemma Forgetful(s: Sys, begun: Launch, ended: bool, known: bool)
    requires ReportInv(s, begun, ended) && (known ==> ended)
    ensures ReportInv(s, begun, known)
  {
    hide Reported, SamePlan, EndsComplete;
  }

  /** A launch the runtime accepts starts with nothing received and nothing written, and with exactly the configurations
      of its kernel, selected and counted for its geometry. */
  lemma {:induction false} AcceptedLaunchBegins(r: PlanSlots.Runtime, fn: nat, identity: Identity, setup: W.Setup, isOpen: bool)
    requires PlanSlots.Ok(r) && !r.disabled && BeginLaunch(r.tables, r.c, fn, identity).ok && P.Plain(setup.mode)
    ensures var s := Sys(PlanSlots.Apply(r, PlanSlots.OpLaunch(fn, identity)), W.Initial(setup, isOpen), identity.id);
            && Begun(s)
            && s.r.c.launches[s.id].identity == identity
            && s.r.c.launches[s.id].counts == LaunchCounts(r.tables, r.c.bound[fn], identity)
  {
    hide PlanSlots.OwnersOk, PlanSlots.HoldersOk, PlanSlots.AssignedOk, PlanSlots.RememberTaken, Prepared, LaunchCounts, Place,
         BoundOk, W.Initial;
    PlanSlots.StepOk(r, PlanSlots.OpLaunch(fn, identity));
    FreshCounts(r.tables, r.c.bound[fn], identity);
    PlacedLaunch(r.c, identity, LaunchCounts(r.tables, r.c.bound[fn], identity));
    InitialSetup(setup, isOpen);
  }

  lemma PlacedLaunch(c: Context, identity: Identity, counts: map<nat, Counts>)
    requires |c.occupied| == |c.slots| && Place(c, identity, counts).ok
    ensures var d := Place(c, identity, counts).c;
            identity.id in d.launches && d.launches[identity.id].identity == identity && d.launches[identity.id].counts == counts
  {
    hide SelectedIn, FirstFree;
  }

  lemma InitialSetup(setup: W.Setup, isOpen: bool)
    ensures W.Initial(setup, isOpen).setup == setup
  {
  }

  lemma FreshCounts(t: Tables, b: Bound, identity: Identity)
    requires BoundOk(t, b) && Prepared(t, b, identity)
    ensures forall k :: k in LaunchCounts(t, b, identity) ==> k < |t.configs| && LaunchCounts(t, b, identity)[k].written == 0
  {
    forall k | k in LaunchCounts(t, b, identity) ensures k < |t.configs| && LaunchCounts(t, b, identity)[k].written == 0 {
      var i :| 0 <= i < |b.configs| && b.configs[i] == k;
      assert CountsFor(t.configs[b.configs[i]], GapOf(b, b.configs[i]), identity).Some?;
    }
  }

  /** What the report `r` of configuration `k` vouches for, when the launch began with `begun` for it. */
  ghost predicate Vouched(t: Tables, k: nat, begun: Counts, r: W.Report, entries: seq<W.Entry>) {
    && r.selected == begun.selected && r.error == ""
    && (if r.selected then
          && r.device.attempted == r.device.emitted == r.received == r.written
          && r.device.dropped == 0 && r.device.entries == begun.expectedEntries > 0
        else r.written == 0)
    && |Observed(entries, k)| == r.written && Distinct(Observed(entries, k))
    && k < |t.configs| && forall q :: q in Observed(entries, k) ==> q < t.configs[k].maxRecords
  }

  /** End to end, in any order of packets, completions, disabling and failing writes: if the launch was ended before its
      writer was finished and the file holds a footer that says `complete`, then the file holds one report, of this launch
      and of exactly the configurations it began with; for each selected one the device and the host agree on every record
      and nothing was dropped; and the file holds exactly the records each report counts, with distinct sequence numbers
      below the limit, all of them records of this launch. */
  lemma {:induction false} CompleteFooterVouches(s: Sys, steps: seq<Step>, i: nat, c: W.Completion)
      returns (j: nat, m: map<nat, W.Report>)
    requires Begun(s) && W.DumpOk(s.w.setup.dump) && (forall x :: x in steps ==> Fits(x, s.id)) && EndedFirst(steps)
    requires var lines := P.Lines(Run(s, steps).w.file); i < |lines| && lines[i] == s.w.setup.dump(W.Footer(c)) && c.complete
    ensures var begun, entries := s.r.c.launches[s.id], Run(s, steps).w.past.accepted;
            && P.Lines(Run(s, steps).w.file) == P.Dumps(entries, s.w.setup.dump)
            && j < i == |entries| - 1 && entries[j].line == W.PlanCompletion(begun.identity.launch, m, true)
            && (forall q :: 0 <= q < |entries| && entries[q].line.PlanCompletion? ==> q == j)
            && m.Keys == begun.counts.Keys
            && (forall k :: k in m ==> Vouched(s.r.tables, k, begun.counts[k], m[k], entries))
            && OwnRecords(entries, begun.identity.launch)
  {
    var u, begun := Run(s, steps), s.r.c.launches[s.id];
    FooterLast(u.w, i, c);
    RunReport(s, steps);
    j, m := ReportVouches(s.r.tables, u.w.past.accepted, begun);
    hide P.Lines, P.Ok, PlanSlots.Ok, Vouched, Run, Told;
  }

  lemma {:induction false} ReportVouches(t: Tables, entries: seq<W.Entry>, begun: Launch) returns (j: nat, m: map<nat, W.Report>)
    requires Told(t, entries) && Reported(entries, begun) && EndsComplete(entries)
    ensures j < |entries| - 1 && entries[j].line == W.PlanCompletion(begun.identity.launch, m, true)
    ensures forall q :: 0 <= q < |entries| && entries[q].line.PlanCompletion? ==> q == j
    ensures m.Keys == begun.counts.Keys && forall k :: k in m ==> Vouched(t, k, begun.counts[k], m[k], entries)
  {
    j :| OnlyReport(entries, j, begun);
    m := entries[j].line.configs;
    forall k | k in m ensures Vouched(t, k, begun.counts[k], m[k], entries) {
      assert ConfigTold(t, k, m[k], entries);
    }
  }

  lemma {:induction false} FooterLast(w: W.Writer, i: nat, c: W.Completion)
    requires P.Ok(w) && P.Plain(w.setup.mode) && W.DumpOk(w.setup.dump)
    requires i < |P.Lines(w.file)| && P.Lines(w.file)[i] == w.setup.dump(W.Footer(c))
    ensures P.Lines(w.file) == P.Dumps(w.past.accepted, w.setup.dump)
    ensures w.tally.finished && i == |w.past.accepted| - 1 && w.past.accepted[i].line == W.Footer(c)
  {
    P.LinesOfPrefix(w.file, w.past.accepted, w.setup.dump);
    assert w.setup.dump(w.past.accepted[i].line) == w.setup.dump(W.Footer(c));
    hide P.Lines, P.Records, P.Render;
  }
}
