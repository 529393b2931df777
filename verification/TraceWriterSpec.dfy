/** The trace writer as a state machine (src/trace_writer.cpp).

    A line is a structured value and `dump` its text: injective, and without a newline.  What the operating system
    does with a write is an argument of the call. */
module TraceWriterSpec {
  import opened Sequences

  datatype Mode = Text | Compressed | Uncompressed | Clp

  datatype Counters = Counters(attempted: nat, attemptedBytes: nat, emitted: nat, emittedBytes: nat, dropped: nat, entries: nat)

  /** What a plan's completion record says of one configuration. */
  datatype Report = Report(selected: bool, error: string, expectedEntries: nat, device: Counters, received: nat, written: nat)

  datatype Completion = Completion(launchId: nat, kernelCompleted: bool, channelDrained: bool, written: nat, dropped: nat,
                                   errors: set<string>, complete: bool)

  datatype Line =
    | Observation(launch: nat, config: nat, sequence: nat, rest: string)
    | PlanCompletion(launch: nat, configs: map<nat, Report>, complete: bool)
    | Other(rest: string)
    | Footer(completion: Completion)

  ghost predicate DumpOk(dump: Line -> string) {
    && (forall l :: '\n' !in dump(l))
    && (forall k, l :: dump(k) == dump(l) ==> k == l)
  }

  datatype Entry = Entry(line: Line, isRecord: bool)

  datatype Setup = Setup(mode: Mode, threshold: nat, dump: Line -> string, zip: string -> string)

  /** The counters and flags of the program. */
  datatype Tally = Tally(enabled: bool, accepting: bool, finished: bool, buffered: nat, written: nat, dropped: nat, errors: set<string>)

  /** Not kept by the program: every line taken into the buffer, how many records were offered, whether the writer was
      ever disabled, and the last two as they were when it finished. */
  datatype Past = Past(accepted: seq<Entry>, offered: nat, disabled: bool, atFinish: Option<(nat, bool)>)

  datatype Writer = Writer(setup: Setup, tally: Tally, buffer: string, file: string, past: Past)

  /** How the write loop ended: everything written, stopped by an error or by no progress after some bytes, or not begun
      because compression failed.  Short writes and interrupted ones only delay the end. */
  datatype Flushed = Complete | Torn(bytes: nat) | NotCompressed

  // ------------------------------------------------------------ flushing

  function Initial(setup: Setup, isOpen: bool): Writer {
    Writer(setup, Tally(isOpen, true, false, 0, 0, 0, {}), "", "", Past([], 0, false, None))
  }

  predicate IsEnabled(t: Tally) { t.enabled && t.accepting }

  function FinishBufferWrite(t: Tally, success: bool): Tally {
    if success then t.(written := t.written + t.buffered, buffered := 0)
    else t.(dropped := t.dropped + t.buffered, errors := t.errors + {"record_write_failed"}, enabled := false, buffered := 0)
  }

  predicate Succeeds(data: string, f: Flushed) {
    f.Complete? || (f.Torn? && data == "")
  }

  /** The bytes that reach the file. */
  function Written(data: string, f: Flushed): string {
    if Succeeds(data, f) then data
    else if f.Torn? then data[..Min(f.bytes, |data| - 1)]
    else ""
  }

  function Flush(w: Writer, f: Flushed): Writer {
    if w.setup.mode.Text? || w.buffer == "" || !w.tally.enabled then w
    else
      var data := if w.setup.mode.Compressed? then w.setup.zip(w.buffer) else w.buffer;
      var t := if f.NotCompressed? then w.tally.(errors := w.tally.errors + {"compression_failed"}) else w.tally;
      w.(tally := FinishBufferWrite(t, Succeeds(data, f)), buffer := "", file := w.file + Written(data, f))
  }

  // ------------------------------------------------------------ operations

  function Append(w: Writer, line: Line, isRecord: bool): Writer {
    w.(buffer := w.buffer + w.setup.dump(line) + "\n", past := w.past.(accepted := w.past.accepted + [Entry(line, isRecord)]))
  }

  function WriteMetadata(w: Writer, line: Line): Writer {
    if !IsEnabled(w.tally) || w.tally.finished || w.setup.mode.Text? then w else Append(w, line, false)
  }

  function Drop(w: Writer, reasons: set<string>): Writer {
    w.(tally := w.tally.(dropped := w.tally.dropped + 1, errors := w.tally.errors + reasons))
  }

  function Offer(w: Writer): Writer {
    w.(past := w.past.(offered := w.past.offered + 1))
  }

  /** One more record in the buffer, which is flushed when it has grown to the threshold. */
  function Buffer(w: Writer, line: Line, f: Flushed): Writer {
    var t := Append(w, line, true).(tally := w.tally.(buffered := w.tally.buffered + 1));
    if |t.buffer| >= w.setup.threshold then Flush(t, f) else t
  }

  function WriteEncoded(w: Writer, line: Line, f: Flushed): Writer {
    if w.tally.finished || !IsEnabled(w.tally) || w.setup.mode.Text? then Drop(Offer(w), {"record_write_rejected"})
    else Buffer(Offer(w), line, f)
  }

  function Noted(w: Writer, reasons: set<string>): Writer {
    w.(tally := w.tally.(errors := w.tally.errors + reasons))
  }

  /** `textOk` is the state of the text file after the write; `line` is None for a record that cannot be serialised. */
  function WriteTrace(w: Writer, line: Option<Line>, sassKnown: bool, textOk: bool, f: Flushed): Writer {
    if w.tally.finished then w
    else if !IsEnabled(w.tally) then Drop(Offer(w), {})
    else
      var v := Noted(Offer(w), if sassKnown then {} else {"missing_instruction_identity"});
      if w.setup.mode.Text? then
        if textOk then v.(tally := v.tally.(written := v.tally.written + 1)) else Drop(v, {"record_write_failed"})
      else if line.None? then Drop(v, {"serialization_failed", "record_write_failed"})
      else Buffer(v, line.value, f)
  }

  function Disable(w: Writer, f: Flushed): Writer {
    var t := Flush(Noted(w, {"trace_disabled"}), f);
    t.(tally := t.tally.(accepting := false), past := t.past.(disabled := true))
  }

  function MarkCaptureError(w: Writer, reason: string, droppedRecord: bool): Writer {
    if droppedRecord then Drop(Offer(w), {reason}) else Noted(w, {reason})
  }

  /** What finishing finds wrong. */
  function Faults(completed: bool, drained: bool, synced: bool): set<string> {
    (if synced then {} else {"data_sync_failed"})
    + (if completed then {} else {"kernel_completion_unverified"})
    + (if drained then {} else {"channel_drain_unverified"})
  }

  function CloseTally(t: Tally, completed: bool, drained: bool, synced: bool): Tally {
    t.(enabled := t.enabled && synced, accepting := false, finished := true, errors := t.errors + Faults(completed, drained, synced))
  }

  /** The writer once its data is flushed and its errors are known. */
  function Closing(w: Writer, completed: bool, drained: bool, synced: bool, f: Flushed): Writer {
    var t := Flush(w, f);
    t.(tally := CloseTally(t.tally, completed, drained, synced), past := t.past.(atFinish := Some((t.past.offered, t.past.disabled))))
  }

  function FooterOf(t: Tally, launchId: nat, completed: bool, drained: bool): Line {
    Footer(Completion(launchId, completed, drained, t.written, t.dropped, t.errors, t.errors == {} && t.dropped == 0))
  }

  function Finish(w: Writer, launchId: nat, completed: bool, drained: bool, synced: bool, f: Flushed, g: Flushed): Writer {
    if w.tally.finished then w
    else
      var u := Closing(w, completed, drained, synced, f);
      if !u.tally.enabled || w.setup.mode.Text? then u
      else Flush(Append(u, FooterOf(u.tally, launchId, completed, drained), false), g)
  }

  datatype Op =
    | OpTrace(line: Option<Line>, sassKnown: bool, textOk: bool, f: Flushed)
    | OpEncoded(record: Line, f: Flushed)
    | OpMetadata(metadata: Line)
    | OpFlush(f: Flushed)
    | OpDisable(f: Flushed)
    | OpMark(reason: string, droppedRecord: bool)
    | OpFinish(launchId: nat, completed: bool, drained: bool, synced: bool, f: Flushed, g: Flushed)

  function Apply(w: Writer, op: Op): Writer {
    match op
    case OpTrace(line, sassKnown, textOk, f) => WriteTrace(w, line, sassKnown, textOk, f)
    case OpEncoded(record, f) => WriteEncoded(w, record, f)
    case OpMetadata(metadata) => WriteMetadata(w, metadata)
    case OpFlush(f) => Flush(w, f)
    case OpDisable(f) => Disable(w, f)
    case OpMark(reason, droppedRecord) => MarkCaptureError(w, reason, droppedRecord)
    case OpFinish(launchId, completed, drained, synced, f, g) => Finish(w, launchId, completed, drained, synced, f, g)
  }

  function Run(w: Writer, ops: seq<Op>): Writer {
    if ops == [] then w else Apply(Run(w, ops[..|ops| - 1]), ops[|ops| - 1])
  }

  /** Only the writer itself makes footers. */
  predicate NoFooter(op: Op) {
    && (op.OpTrace? && op.line.Some? ==> !op.line.value.Footer?)
    && (op.OpEncoded? ==> !op.record.Footer?)
    && (op.OpMetadata? ==> !op.metadata.Footer?)
  }
}
