/** Nothing is lost silently, and a footer means what it says. */
module TraceWriterProof {
  import opened Sequences
  import opened TraceWriterSpec

  // ------------------------------------------------------------ lines of a file

  /** The text of a sequence of lines. */
  function Render(entries: seq<Entry>, dump: Line -> string): string {
    if entries == [] then "" else Render(entries[..|entries| - 1], dump) + dump(entries[|entries| - 1].line) + "\n"
  }

  function FirstNewline(text: string): (i: nat)
    ensures i <= |text| && '\n' !in text[..i] && (i < |text| ==> text[i] == '\n' && '\n' in text)
  {
    if text == "" || text[0] == '\n' then 0 else 1 + FirstNewline(text[1..])
  }

  /** The lines that are there in full. */
  function Lines(text: string): seq<string>
    decreases |text|
  {
    var i := FirstNewline(text);
    if i == |text| then [] else [text[..i]] + Lines(text[i + 1..])
  }

  function Dumps(entries: seq<Entry>, dump: Line -> string): (r: seq<string>)
    ensures |r| == |entries| && forall i :: 0 <= i < |r| ==> r[i] == dump(entries[i].line)
  {
    seq(|entries|, i requires 0 <= i < |entries| => dump(entries[i].line))
  }

  lemma RenderMore(entries: seq<Entry>, e: Entry, dump: Line -> string)
    ensures Render(entries + [e], dump) == Render(entries, dump) + dump(e.line) + "\n"
  {
    assert (entries + [e])[..|entries|] == entries;
  }

  lemma RenderOne(e: Entry, dump: Line -> string)
    ensures Render([e], dump) == dump(e.line) + "\n" + Render([], dump)
  {
    RenderMore([], e, dump);
    assert [] + [e] == [e];
  }

  lemma Associative(a: string, b: string, c: string, d: string)
    ensures (a + b) + c + d == a + (b + c + d)
  {
  }

  lemma {:induction false} RenderFront(entries: seq<Entry>, dump: Line -> string)
    requires entries != []
    ensures Render(entries, dump) == dump(entries[0].line) + "\n" + Render(entries[1..], dump)
    decreases |entries|
  {
    hide Render;
    var last := |entries| - 1;
    if last == 0 {
      assert entries == [entries[0]] && entries[1..] == [];
      RenderOne(entries[0], dump);
    } else {
      var front, middle, e := entries[..last], entries[1..last], entries[last];
      assert entries == front + [e] && entries[1..] == middle + [e] && front[1..] == middle;
      RenderFront(front, dump);
      RenderMore(front, e, dump);
      RenderMore(middle, e, dump);
      Associative(dump(entries[0].line) + "\n", Render(middle, dump), dump(e.line), "\n");
    }
  }

  lemma {:induction false} NewlineAt(head: string, rest: string)
    requires '\n' !in head
    ensures FirstNewline(head + "\n" + rest) == |head|
  {
    if head != "" {
      assert (head + "\n" + rest)[1..] == head[1..] + "\n" + rest;
      assert (head + "\n" + rest)[0] == head[0] && head[0] in head;
      NewlineAt(head[1..], rest);
    }
  }

  lemma LineOff(head: string, rest: string)
    requires '\n' !in head
    ensures Lines(head + "\n" + rest) == [head] + Lines(rest)
  {
    NewlineAt(head, rest);
    var text := head + "\n" + rest;
    assert text[..|head|] == head && text[|head| + 1..] == rest;
  }

  lemma NoLine(text: string)
    requires '\n' !in text
    ensures Lines(text) == []
  {
  }

  /** A part of one line and the rest is a part of the line, or the line and a part of the rest. */
  lemma PrefixCases(file: string, head: string, rest: string)
    requires file <= head + "\n" + rest
    ensures if |file| > |head| then file == head + "\n" + file[|head| + 1..] && file[|head| + 1..] <= rest else file <= head
  {
    var all := head + "\n" + rest;
    assert file == all[..|file|];
    if |file| > |head| {
      assert file[|head| + 1..] == rest[..|file| - |head| - 1];
    } else {
      assert file == head[..|file|];
    }
  }

  /** A torn file still holds the first lines, whole and in order. */
  lemma {:induction false} LinesOfPrefix(file: string, entries: seq<Entry>, dump: Line -> string)
    requires DumpOk(dump) && file <= Render(entries, dump)
    ensures Lines(file) <= Dumps(entries, dump)
    ensures file == Render(entries, dump) ==> Lines(file) == Dumps(entries, dump)
    decreases |entries|
  {
    if entries == [] {
      NoLine(file);
    } else {
      RenderFront(entries, dump);
      var head, rest := dump(entries[0].line), Render(entries[1..], dump);
      assert '\n' !in head;
      hide Render, Lines, Dumps, DumpOk;
      PrefixCases(file, head, rest);
      if |file| > |head| {
        var tail := file[|head| + 1..];
        LinesOfPrefix(tail, entries[1..], dump);
        LineOff(head, tail);
        DumpsFront(entries, dump);
        assert file == head + "\n" + rest ==> tail == rest;
      } else {
        NoLine(file);
        assert |file| < |head + "\n" + rest|;
      }
    }
  }

  lemma DumpsFront(entries: seq<Entry>, dump: Line -> string)
    requires entries != []
    ensures Dumps(entries, dump) == [dump(entries[0].line)] + Dumps(entries[1..], dump)
  {
  }

  // ------------------------------------------------------------ invariants

  function Records(entries: seq<Entry>): nat {
    if entries == [] then 0 else Records(entries[..|entries| - 1]) + (if entries[|entries| - 1].isRecord then 1 else 0)
  }

  lemma RecordsMore(entries: seq<Entry>, e: Entry)
    ensures Records(entries + [e]) == Records(entries) + (if e.isRecord then 1 else 0)
  {
    assert (entries + [e])[..|entries|] == entries;
  }

  /** Every record offered is written, dropped or still in the buffer. */
  ghost predicate Conserved(t: Tally, past: Past) {
    past.offered == t.written + t.dropped + t.buffered
  }

  ghost predicate Plain(m: Mode) { m.Uncompressed? || m.Clp? }

  /** The file holds a first part of the accepted lines, and all of them but the buffer while nothing failed. */
  ghost predicate FileOk(setup: Setup, enabled: bool, buffer: string, file: string, accepted: seq<Entry>) {
    && file <= Render(accepted, setup.dump)
    && (enabled ==> file + buffer == Render(accepted, setup.dump))
  }

  /** No footer before the end, and at the end one that tells the truth. */
  ghost predicate FooterOk(t: Tally, past: Past) {
    && (forall i :: 0 <= i < |past.accepted| && past.accepted[i].line.Footer? ==> past.atFinish.Some? && i == |past.accepted| - 1)
    && (past.atFinish.Some? <==> t.finished)
    && (past.disabled ==> "trace_disabled" in t.errors)
    && (t.enabled && !t.finished ==> t.written + t.buffered == Records(past.accepted))
    && (past.accepted != [] && past.accepted[|past.accepted| - 1].line.Footer? ==>
          FooterTrue(past.accepted[|past.accepted| - 1].line.completion, past.accepted, past.atFinish))
  }

  ghost predicate FooterTrue(c: Completion, accepted: seq<Entry>, atFinish: Option<(nat, bool)>)
    requires accepted != []
  {
    && c.written == Records(accepted[..|accepted| - 1])
    && (c.complete <==> c.errors == {} && c.dropped == 0)
    && atFinish.Some?
    && atFinish.value.0 == c.written + c.dropped
    && (atFinish.value.1 ==> c.errors != {})
  }

  ghost predicate Ok(w: Writer) {
    && Conserved(w.tally, w.past)
    && (Plain(w.setup.mode) ==> FileOk(w.setup, w.tally.enabled, w.buffer, w.file, w.past.accepted))
    && (!w.setup.mode.Text? ==> FooterOk(w.tally, w.past))
    && (w.tally.enabled && w.buffer == "" ==> w.tally.buffered == 0)
  }

  // ------------------------------------------------------------ each step

  lemma {:induction false} FlushOk(w: Writer, f: Flushed)
    requires Ok(w)
    ensures Ok(Flush(w, f))
    ensures Flush(w, f).past == w.past && Flush(w, f).tally.finished == w.tally.finished
    ensures w.tally.errors <= Flush(w, f).tally.errors
    ensures !w.setup.mode.Text? && Flush(w, f).tally.enabled ==> Flush(w, f).tally.buffered == 0 && Flush(w, f).buffer == ""
  {
    hide Records;
    if !(w.setup.mode.Text? || w.buffer == "" || !w.tally.enabled) {
      var data := if w.setup.mode.Compressed? then w.setup.zip(w.buffer) else w.buffer;
      if Plain(w.setup.mode) {
        WrittenPrefix(data, f);
        FlushedFile(w.file, data, Written(data, f), Render(w.past.accepted, w.setup.dump));
      }
    }
    hide Render;
  }

  lemma WrittenPrefix(data: string, f: Flushed)
    ensures Written(data, f) <= data && (Succeeds(data, f) ==> Written(data, f) == data)
  {
  }

  lemma FlushedFile(file: string, data: string, part: string, all: string)
    requires file + data == all && part <= data
    ensures file + part <= all
  {
  }

  lemma AppendOk(w: Writer, line: Line, isRecord: bool)
    requires Ok(w) && w.tally.enabled && !w.tally.finished && !line.Footer? && !w.setup.mode.Text?
    ensures Ok(if isRecord then Buffered(Offer(w), line) else Append(w, line, false))
  {
    RenderMore(w.past.accepted, Entry(line, isRecord), w.setup.dump);
    RecordsMore(w.past.accepted, Entry(line, isRecord));
    hide Render, Records;
  }

  function Buffered(w: Writer, line: Line): Writer {
    Append(w, line, true).(tally := w.tally.(buffered := w.tally.buffered + 1))
  }

  lemma BufferOk(w: Writer, line: Line, f: Flushed)
    requires Ok(w) && w.tally.enabled && !w.tally.finished && !line.Footer? && !w.setup.mode.Text?
    ensures Ok(Buffer(Offer(w), line, f))
  {
    AppendOk(w, line, true);
    FlushOk(Buffered(Offer(w), line), f);
    hide Ok;
  }

  lemma DropOk(w: Writer, reasons: set<string>)
    requires Ok(w)
    ensures Ok(Drop(Offer(w), reasons)) && Ok(Noted(w, reasons))
  {
    hide Render, Records, FooterTrue;
  }

  lemma {:induction false} StepOk(w: Writer, op: Op)
    requires Ok(w) && NoFooter(op)
    ensures Ok(Apply(w, op))
  {
    hide Ok;
    match op
    case OpTrace(line, sassKnown, textOk, f) => TraceOk(w, line, sassKnown, textOk, f);
    case OpEncoded(record, f) =>
      DropOk(w, {"record_write_rejected"});
      if !w.tally.finished && IsEnabled(w.tally) && !w.setup.mode.Text? {
        BufferOk(w, record, f);
      }
    case OpMetadata(metadata) =>
      if IsEnabled(w.tally) && !w.tally.finished && !w.setup.mode.Text? {
        AppendOk(w, metadata, false);
      }
    case OpFlush(f) => FlushOk(w, f);
    case OpDisable(f) => DisableOk(w, f);
    case OpMark(reason, droppedRecord) => DropOk(w, {reason});
    case OpFinish(launchId, completed, drained, synced, f, g) => FinishOk(w, launchId, completed, drained, synced, f, g);
  }

  lemma TraceOk(w: Writer, line: Option<Line>, sassKnown: bool, textOk: bool, f: Flushed)
    requires Ok(w) && (line.Some? ==> !line.value.Footer?)
    ensures Ok(WriteTrace(w, line, sassKnown, textOk, f))
  {
    hide Ok, Buffer, Drop;
    DropOk(w, {});
    var reasons := if sassKnown then {} else {"missing_instruction_identity"};
    var v := Noted(w, reasons);
    DropOk(w, reasons);
    DropOk(v, {"record_write_failed"});
    DropOk(v, {"serialization_failed", "record_write_failed"});
    assert Noted(Offer(w), reasons) == Offer(v);
    if line.Some? && w.tally.enabled && !w.tally.finished && !w.setup.mode.Text? {
      BufferOk(v, line.value, f);
    }
    if w.setup.mode.Text? {
      WrittenAsText(v);
    }
  }

  lemma WrittenAsText(w: Writer)
    requires Ok(w) && w.setup.mode.Text?
    ensures Ok(Offer(w).(tally := w.tally.(written := w.tally.written + 1)))
  {
  }

  lemma DisableOk(w: Writer, f: Flushed)
    requires Ok(w)
    ensures Ok(Disable(w, f))
  {
    DropOk(w, {"trace_disabled"});
    FlushOk(Noted(w, {"trace_disabled"}), f);
    hide FileOk, FooterTrue, Records;
  }

  lemma ClosingOk(w: Writer, completed: bool, drained: bool, synced: bool, f: Flushed)
    requires Ok(w) && !w.tally.finished
    ensures var u := Closing(w, completed, drained, synced, f);
            && Ok(u)
            && (u.tally.enabled && !w.setup.mode.Text? ==>
                  u.tally.written == Records(u.past.accepted) && u.tally.buffered == 0 && u.buffer == "")
  {
    FlushOk(w, f);
    hide Flush, Render, Records, FooterTrue;
  }

  lemma FooterAppended(u: Writer, launchId: nat, completed: bool, drained: bool)
    requires Ok(u) && u.tally.finished && u.tally.enabled && !u.setup.mode.Text? && u.past.atFinish == Some((u.past.offered, u.past.disabled))
    requires u.tally.written == Records(u.past.accepted) && u.tally.buffered == 0
    requires forall i :: 0 <= i < |u.past.accepted| ==> !u.past.accepted[i].line.Footer?
    ensures Ok(Append(u, FooterOf(u.tally, launchId, completed, drained), false))
  {
    var e := Entry(FooterOf(u.tally, launchId, completed, drained), false);
    RenderMore(u.past.accepted, e, u.setup.dump);
    assert (u.past.accepted + [e])[..|u.past.accepted|] == u.past.accepted;
    hide Render, Records;
  }

  lemma {:induction false} FinishOk(w: Writer, launchId: nat, completed: bool, drained: bool, synced: bool, f: Flushed,
                                    g: Flushed)
    requires Ok(w)
    ensures Ok(Finish(w, launchId, completed, drained, synced, f, g))
  {
    if !w.tally.finished {
      ClosingOk(w, completed, drained, synced, f);
      FlushOk(w, f);
      var u := Closing(w, completed, drained, synced, f);
      if u.tally.enabled && !w.setup.mode.Text? {
        assert u.past.accepted == w.past.accepted;
        FooterAppended(u, launchId, completed, drained);
        FlushOk(Append(u, FooterOf(u.tally, launchId, completed, drained), false), g);
      }
      hide Ok, Flush;
    }
  }

  lemma NothingRendered(dump: Line -> string)
    ensures Render([], dump) == "" && Records([]) == 0
  {
  }

  lemma InitialOk(setup: Setup, isOpen: bool)
    ensures Ok(Initial(setup, isOpen))
  {
    hide Render, Records, FooterTrue;
    NothingRendered(setup.dump);
  }

  lemma {:induction false} ReachableOk(setup: Setup, isOpen: bool, ops: seq<Op>)
    requires forall op :: op in ops ==> NoFooter(op)
    ensures Ok(Run(Initial(setup, isOpen), ops)) && Run(Initial(setup, isOpen), ops).setup == setup
  {
    hide Ok, Apply;
    if ops == [] {
      InitialOk(setup, isOpen);
    } else {
      ReachableOk(setup, isOpen, ops[..|ops| - 1]);
      StepOk(Run(Initial(setup, isOpen), ops[..|ops| - 1]), ops[|ops| - 1]);
      SameSetup(Run(Initial(setup, isOpen), ops[..|ops| - 1]), ops[|ops| - 1]);
    }
  }

  lemma SameSetup(w: Writer, op: Op)
    ensures Apply(w, op).setup == w.setup
  {
  }

  // ------------------------------------------------------------ what holds of every run

  /** Records offered before the end, encoded records offered at any time, and drops reported from outside are all
      written, dropped or still buffered: in every mode, whatever writes did. */
  lemma {:induction false} RecordsConserved(setup: Setup, isOpen: bool, ops: seq<Op>)
    requires forall op :: op in ops ==> NoFooter(op)
    ensures var w := Run(Initial(setup, isOpen), ops);
            w.past.offered == w.tally.written + w.tally.dropped + w.tally.buffered
  {
    ReachableOk(setup, isOpen, ops);
  }

  /** The whole lines of an uncompressed file are always the first accepted lines, in order. */
  lemma {:induction false} FileHoldsAcceptedLines(setup: Setup, isOpen: bool, ops: seq<Op>)
    requires (setup.mode.Uncompressed? || setup.mode.Clp?) && DumpOk(setup.dump) && forall op :: op in ops ==> NoFooter(op)
    ensures var w := Run(Initial(setup, isOpen), ops);
            && Lines(w.file) <= Dumps(w.past.accepted, setup.dump)
            && (w.tally.enabled && w.buffer == "" ==> Lines(w.file) == Dumps(w.past.accepted, setup.dump))
  {
    ReachableOk(setup, isOpen, ops);
    var w := Run(Initial(setup, isOpen), ops);
    LinesOfPrefix(w.file, w.past.accepted, setup.dump);
    assert w.buffer == "" ==> w.file + w.buffer == w.file;
  }

  /** A footer in the file is its last line, the lines before it are exactly the accepted ones in order, and one that
      says `complete` vouches for all of them: nothing dropped, no error, never disabled, every offered record there. */
  lemma {:induction false} FooterIsExact(setup: Setup, isOpen: bool, ops: seq<Op>, i: nat, c: Completion)
    requires (setup.mode.Uncompressed? || setup.mode.Clp?) && DumpOk(setup.dump) && forall op :: op in ops ==> NoFooter(op)
    requires var file := Run(Initial(setup, isOpen), ops).file; i < |Lines(file)| && Lines(file)[i] == setup.dump(Footer(c))
    ensures var w := Run(Initial(setup, isOpen), ops);
            && Lines(w.file) == Dumps(w.past.accepted, setup.dump)
            && i == |w.past.accepted| - 1 && w.past.accepted[i].line == Footer(c)
            && c.written == Records(w.past.accepted[..i])
            && w.past.atFinish.Some? && w.past.atFinish.value.0 == c.written + c.dropped
            && (c.complete ==> c.dropped == 0 && c.errors == {} && !w.past.atFinish.value.1)
  {
    ReachableOk(setup, isOpen, ops);
    FileHoldsAcceptedLines(setup, isOpen, ops);
    var w := Run(Initial(setup, isOpen), ops);
    assert setup.dump(w.past.accepted[i].line) == setup.dump(Footer(c));
    hide Lines, Records, Render;
  }
}
