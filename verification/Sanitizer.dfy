/** Parsing Compute Sanitizer logs (python/cutracer/compute_sanitizer/parser.py).

    A line is either without the sanitizer's marker (None) or the facts the program's patterns find in it; the program
    asks for them in a fixed order. */
module Sanitizer {
  import opened Sequences

  datatype Severity = Error | Warning

  datatype Diagnostic = MissingSummary | MalformedSummary | MultipleSummaries | IncompleteFinding | UnparsedFinding
    | SummaryCountMismatch | SummaryFindingMismatch | InternalToolError

  datatype Access = Access(kind: string, fn: string, offset: string, file: string, line: nat, hazards: Option<nat>)

  /** `lines` is the raw block. */
  datatype Finding = Finding(severity: Severity, primary: Access, conflicts: seq<Access>, lines: seq<string>)

  datatype Invalid = Invalid(kind: string, size: nat)

  datatype Site = Site(fn: string, offset: string, file: Option<string>, line: Option<nat>)

  datatype InvalidAccess = InvalidAccess(invalid: Invalid, site: Option<Site>, lines: seq<string>)

  datatype Summary = Summary(total: nat, errors: nat, warnings: nat)

  datatype SummaryFact = NoSummary | Unreadable | Readable(summary: Summary)

  /** What each pattern says of one sanitizer line. */
  datatype Body = Body(text: string, internalError: bool, summary: SummaryFact, truncation: bool, invalid: Option<Invalid>,
                       header: Option<(Severity, Access)>, site: Option<Site>, mentionsRace: bool, conflict: Option<Access>,
                       looksLikeAccess: bool)

  const SITE_LOOKAHEAD := 3

  // ------------------------------------------------------------ the racecheck parser

  /** The block that is open: nothing, a race with its conflicts so far, or an invalid access still without a site. */
  datatype Open = Closed | Race(header: (Severity, Access), conflicts: seq<Access>) | Pending(invalid: Invalid, seen: nat)

  datatype Racecheck = Racecheck(findings: seq<Finding>, invalids: seq<InvalidAccess>, diagnostics: seq<Diagnostic>,
                                 summary: Option<Summary>, markers: nat, truncated: bool, open: Open, lines: seq<string>)

  datatype Result = Result(findings: seq<Finding>, invalids: seq<InvalidAccess>, diagnostics: seq<Diagnostic>,
                           summary: Option<Summary>, truncated: bool)

  const START := Racecheck([], [], [], None, 0, false, Closed, [])

  function Diagnose(ds: seq<Diagnostic>, d: Diagnostic): seq<Diagnostic> {
    if d in ds then ds else ds + [d]
  }

  /** Closes the open block. */
  function Flush(s: Racecheck): Racecheck {
    var t := s.(open := Closed, lines := []);
    match s.open
    case Closed => t
    case Race(header, conflicts) =>
      if conflicts == [] then t.(diagnostics := Diagnose(t.diagnostics, IncompleteFinding))
      else t.(findings := t.findings + [Finding(header.0, header.1, conflicts, s.lines)])
    case Pending(invalid, _) => t.(invalids := t.invalids + [InvalidAccess(invalid, None, s.lines)])
  }

  function Noted(s: Racecheck, d: Diagnostic): Racecheck {
    s.(diagnostics := Diagnose(s.diagnostics, d))
  }

  function ReadSummary(s: Racecheck, fact: SummaryFact): Racecheck {
    var t := Flush(s).(markers := s.markers + 1);
    if fact.Readable? then t.(summary := Some(fact.summary)) else Noted(t, MalformedSummary)
  }

  /** A line that no auxiliary block claims. */
  function ReadRace(s: Racecheck, b: Body): Racecheck {
    if b.header.Some? then Flush(s).(open := Race(b.header.value, []), lines := [b.text])
    else if b.mentionsRace then Noted(Flush(s), UnparsedFinding)
    else if !s.open.Race? then s
    else if b.conflict.Some? then s.(open := s.open.(conflicts := s.open.conflicts + [b.conflict.value]), lines := s.lines + [b.text])
    else Flush(if b.looksLikeAccess then Noted(s, UnparsedFinding) else s)
  }

  function Consume(s: Racecheck, line: Option<Body>): Racecheck {
    if line.None? then s
    else
      var b := line.value;
      if b.internalError then Noted(Flush(s), InternalToolError)
      else if !b.summary.NoSummary? then ReadSummary(s, b.summary)
      else if b.truncation then Flush(s).(truncated := true)
      else if b.invalid.Some? then Flush(s).(open := Pending(b.invalid.value, 0), lines := [b.text])
      else if s.open.Pending? then
        if b.header.Some? then ReadRace(Flush(s), b)
        else if b.site.Some? then
          s.(open := Closed, lines := [], invalids := s.invalids + [InvalidAccess(s.open.invalid, b.site, s.lines + [b.text])])
        else if s.open.seen < SITE_LOOKAHEAD then s.(open := s.open.(seen := s.open.seen + 1), lines := s.lines + [b.text])
        else ReadRace(Flush(s), b)
      else ReadRace(s, b)
  }

  function ConsumeAll(s: Racecheck, log: seq<Option<Body>>): Racecheck {
    if log == [] then s else Consume(ConsumeAll(s, log[..|log| - 1]), log[|log| - 1])
  }

  predicate HasSeverity(findings: seq<Finding>, v: Severity) {
    exists i :: 0 <= i < |findings| && findings[i].severity == v
  }

  /** Where a summary contradicts itself or the blocks. */
  function Contradictions(m: Summary, findings: seq<Finding>, invalids: seq<InvalidAccess>): seq<Diagnostic> {
    var positive, reported := m.total != 0 || m.errors != 0 || m.warnings != 0, findings != [] || invalids != [];
    (if (m.total == 0) != (m.errors == 0 && m.warnings == 0) then [SummaryCountMismatch] else [])
    + (if (positive && !reported) || (!positive && reported)
          || (HasSeverity(findings, Error) && m.errors == 0) || (HasSeverity(findings, Warning) && m.warnings == 0)
       then [SummaryFindingMismatch] else [])
  }

  function DiagnoseAll(ds: seq<Diagnostic>, more: seq<Diagnostic>): seq<Diagnostic> {
    if more == [] then ds else Diagnose(DiagnoseAll(ds, more[..|more| - 1]), more[|more| - 1])
  }

  function Finish(s: Racecheck): Result {
    var t := Flush(s);
    var ds := if t.markers == 0 then Diagnose(t.diagnostics, MissingSummary)
              else if t.markers > 1 then Diagnose(t.diagnostics, MultipleSummaries) else t.diagnostics;
    var all := if t.summary.Some? then DiagnoseAll(ds, Contradictions(t.summary.value, t.findings, t.invalids)) else ds;
    Result(t.findings, t.invalids, all, t.summary, t.truncated)
  }

  function ParseRacecheck(log: seq<Option<Body>>): Result {
    Finish(ConsumeAll(START, log))
  }

  // ------------------------------------------------------------ interleaved output

  /** The sanitizer's own lines. */
  function Marked<T>(log: seq<Option<T>>): seq<Option<T>> {
    if log == [] then []
    else Marked(log[..|log| - 1]) + (if log[|log| - 1].Some? then [log[|log| - 1]] else [])
  }

  lemma {:induction false} OnlyMarkedMatter(s: Racecheck, log: seq<Option<Body>>)
    ensures ConsumeAll(s, log) == ConsumeAll(s, Marked(log))
  {
    if log != [] {
      var front, last := log[..|log| - 1], log[|log| - 1];
      OnlyMarkedMatter(s, front);
      if last.Some? {
        assert (Marked(front) + [last])[..|Marked(front)|] == Marked(front);
      } else {
        assert Marked(front) + [] == Marked(front);
      }
    }
  }

  /** Child output may come anywhere: logs with the same sanitizer lines have the same result. */
  lemma {:induction false} RacecheckIgnoresChildren(log: seq<Option<Body>>, other: seq<Option<Body>>)
    requires Marked(log) == Marked(other)
    ensures ParseRacecheck(log) == ParseRacecheck(other)
  {
    OnlyMarkedMatter(START, log);
    OnlyMarkedMatter(START, other);
  }

  // ------------------------------------------------------------ rendering

  /** A finding as the tool prints it: its header, then a line for each conflict. */
  datatype Block = Block(severity: Severity, primary: Access, text: string, conflicts: seq<(Access, string)>)

  function HeaderLine(b: Block): Body {
    Body(b.text, false, NoSummary, false, None, Some((b.severity, b.primary)), None, true, None, false)
  }

  function ConflictLine(c: (Access, string)): Body {
    Body(c.1, false, NoSummary, false, None, None, None, false, Some(c.0), true)
  }

  function SummaryLine(m: Summary, text: string): Body {
    Body(text, false, Readable(m), false, None, None, None, false, None, false)
  }

  function ConflictLines(cs: seq<(Access, string)>): seq<Option<Body>> {
    seq(|cs|, i requires 0 <= i < |cs| => Some(ConflictLine(cs[i])))
  }

  function RenderBlock(b: Block): seq<Option<Body>> {
    [Some(HeaderLine(b))] + ConflictLines(b.conflicts)
  }

  function Render(blocks: seq<Block>): seq<Option<Body>> {
    if blocks == [] then [] else Render(blocks[..|blocks| - 1]) + RenderBlock(blocks[|blocks| - 1])
  }

  function FindingOf(b: Block): Finding {
    Finding(b.severity, b.primary, Accesses(b.conflicts), [b.text] + Texts(b.conflicts))
  }

  function Accesses(cs: seq<(Access, string)>): seq<Access> {
    seq(|cs|, i requires 0 <= i < |cs| => cs[i].0)
  }

  function Texts(cs: seq<(Access, string)>): seq<string> {
    seq(|cs|, i requires 0 <= i < |cs| => cs[i].1)
  }

  function FindingsOf(blocks: seq<Block>): (r: seq<Finding>)
    ensures |r| == |blocks| && forall i :: 0 <= i < |r| ==> r[i] == FindingOf(blocks[i])
  {
    seq(|blocks|, i requires 0 <= i < |blocks| => FindingOf(blocks[i]))
  }

  lemma {:induction false} ConsumeJoin(s: Racecheck, a: seq<Option<Body>>, b: seq<Option<Body>>)
    ensures ConsumeAll(s, a + b) == ConsumeAll(ConsumeAll(s, a), b)
  {
    if b == [] {
      assert a + b == a;
    } else {
      var front, last := b[..|b| - 1], b[|b| - 1];
      assert (a + b)[..|a + b| - 1] == a + front;
      ConsumeJoin(s, a, front);
    }
  }

  /** While a race is open, its conflict lines gather in it. */
  lemma {:induction false} GatherConflicts(s: Racecheck, cs: seq<(Access, string)>)
    requires s.open.Race?
    ensures ConsumeAll(s, ConflictLines(cs)) ==
            s.(open := Race(s.open.header, s.open.conflicts + Accesses(cs)), lines := s.lines + Texts(cs))
  {
    if cs == [] {
      assert s.open.conflicts + Accesses(cs) == s.open.conflicts && s.lines + Texts(cs) == s.lines;
    } else {
      var front, last := cs[..|cs| - 1], cs[|cs| - 1];
      GatherConflicts(s, front);
      assert ConflictLines(cs)[..|cs| - 1] == ConflictLines(front);
      assert s.open.conflicts + Accesses(cs) == s.open.conflicts + Accesses(front) + [last.0];
      assert s.lines + Texts(cs) == s.lines + Texts(front) + [last.1];
    }
  }

  /** One printed block is one finding, closed with whatever comes next. */
  lemma {:induction false} ConsumeBlock(s: Racecheck, b: Block)
    requires !s.open.Pending? && b.conflicts != []
    ensures var t := ConsumeAll(s, RenderBlock(b));
            && t.open.Race?
            && Flush(t) == Flush(s).(findings := Flush(s).findings + [FindingOf(b)])
  {
    var first := [Some(HeaderLine(b))];
    ConsumeJoin(s, first, ConflictLines(b.conflicts));
    assert first[..0] == [] && ConsumeAll(s, first) == Consume(ConsumeAll(s, []), first[0]);
    var begun := Flush(s).(open := Race((b.severity, b.primary), []), lines := [b.text]);
    GatherConflicts(begun, b.conflicts);
    assert [] + Accesses(b.conflicts) == Accesses(b.conflicts);
  }

  lemma {:induction false} ConsumeBlocks(blocks: seq<Block>)
    requires forall i :: 0 <= i < |blocks| ==> blocks[i].conflicts != []
    ensures var t := ConsumeAll(START, Render(blocks));
            !t.open.Pending? && Flush(t) == START.(findings := FindingsOf(blocks))
  {
    hide ConsumeAll, RenderBlock, FindingOf, Flush;
    if blocks == [] {
      NothingConsumed();
    } else {
      var front, last := blocks[..|blocks| - 1], blocks[|blocks| - 1];
      ConsumeBlocks(front);
      ConsumeJoin(START, Render(front), RenderBlock(last));
      ConsumeBlock(ConsumeAll(START, Render(front)), last);
      assert FindingsOf(front) + [FindingOf(last)] == FindingsOf(blocks);
    }
  }

  lemma NothingConsumed()
    ensures ConsumeAll(START, []) == START && Flush(START) == START
  {
  }

  lemma {:induction false} DiagnoseNothing(more: seq<Diagnostic>)
    ensures DiagnoseAll([], more) == [] <==> more == []
  {
    if more != [] {
      assert DiagnoseAll([], more) != [];
    }
  }

  /** Any printed findings, then a summary, with child output anywhere in between: exactly those findings and that summary
      come back, and no diagnostic if and only if the summary does not contradict them. */
  lemma {:induction false} PrintedFindingsComeBack(blocks: seq<Block>, m: Summary, text: string, log: seq<Option<Body>>)
    requires forall i :: 0 <= i < |blocks| ==> blocks[i].conflicts != []
    requires Marked(log) == Marked(Render(blocks) + [Some(SummaryLine(m, text))])
    ensures var r := ParseRacecheck(log);
            && r.findings == FindingsOf(blocks) && r.invalids == [] && r.summary == Some(m) && !r.truncated
            && (r.diagnostics == [] <==> Contradictions(m, FindingsOf(blocks), []) == [])
  {
    var printed := Render(blocks) + [Some(SummaryLine(m, text))];
    RacecheckIgnoresChildren(log, printed);
    ConsumeBlocks(blocks);
    assert printed[..|printed| - 1] == Render(blocks);
    DiagnoseNothing(Contradictions(m, FindingsOf(blocks), []));
    var t := ConsumeAll(START, Render(blocks));
    assert ConsumeAll(START, printed) == ReadSummary(t, Readable(m));
  }

  /** What it takes for a summary not to contradict a list of findings. */
  lemma {:induction false} ConsistentSummary(m: Summary, findings: seq<Finding>)
    ensures Contradictions(m, findings, []) == [] <==>
            && (m.total == 0 <==> m.errors == 0 && m.warnings == 0)
            && (m.total == 0 <==> findings == [])
            && (HasSeverity(findings, Error) ==> m.errors > 0) && (HasSeverity(findings, Warning) ==> m.warnings > 0)
  {
  }

  lemma FlushKeeps(s: Racecheck)
    ensures var t := Flush(s);
            t == s.(open := Closed, lines := [], findings := t.findings, diagnostics := t.diagnostics, invalids := t.invalids)
  {
    hide Diagnose;
  }

  // ------------------------------------------------------------ the parser itself

  class RacecheckParser {
    var findings: seq<Finding>
    var invalidAccesses: seq<InvalidAccess>
    var diagnostics: seq<Diagnostic>
    var summary: Option<Summary>
    var summaryMarkers: nat
    var outputTruncated: bool
    var header: Option<(Severity, Access)>
    var conflicts: seq<Access>
    var rawLines: seq<string>
    var pendingInvalid: Option<Invalid>
    var invalidLookahead: nat

    /** At most one block is open, and nothing is left over from a closed one. */
    ghost predicate Valid() reads this {
      && !(header.Some? && pendingInvalid.Some?)
      && (header.None? ==> conflicts == [])
      && (header.None? && pendingInvalid.None? ==> rawLines == [])
      && (pendingInvalid.Some? ==> invalidLookahead <= SITE_LOOKAHEAD)
    }

    ghost function View(): Racecheck reads this {
      Racecheck(findings, invalidAccesses, diagnostics, summary, summaryMarkers, outputTruncated,
                if header.Some? then Race(header.value, conflicts)
                else if pendingInvalid.Some? then Pending(pendingInvalid.value, invalidLookahead) else Closed,
                rawLines)
    }

    constructor ()
      ensures Valid() && View() == START
    {
      findings, invalidAccesses, diagnostics, summary, summaryMarkers, outputTruncated := [], [], [], None, 0, false;
      header, conflicts, rawLines, pendingInvalid, invalidLookahead := None, [], [], None, 0;
    }

    method Note(d: Diagnostic)
      requires Valid()
      modifies `diagnostics
      ensures Valid() && View() == Noted(old(View()), d)
    {
      if d !in diagnostics {
        diagnostics := diagnostics + [d];
      }
    }

    method FlushBlock()
      requires Valid()
      modifies this
      ensures Valid() && View() == Flush(old(View()))
      ensures header.None? && pendingInvalid.None? && invalidLookahead == 0
    {
      hide Flush;
      FlushKeeps(View());
      CloseBlock();
      header, conflicts, rawLines, pendingInvalid, invalidLookahead := None, [], [], None, 0;
    }

    /** The open block becomes a finding, a diagnostic or an access without a site. */
    method CloseBlock()
      requires Valid()
      modifies `findings, `diagnostics, `invalidAccesses
      ensures var t := Flush(old(View())); findings == t.findings && diagnostics == t.diagnostics && invalidAccesses == t.invalids
    {
      if header.Some? {
        if conflicts != [] {
          findings := findings + [Finding(header.value.0, header.value.1, conflicts, rawLines)];
        } else if IncompleteFinding !in diagnostics {
          diagnostics := diagnostics + [IncompleteFinding];
        }
      }
      if pendingInvalid.Some? {
        invalidAccesses := invalidAccesses + [InvalidAccess(pendingInvalid.value, None, rawLines)];
      }
    }

    method ConsumeSummary(b: Body) returns (done: bool)
      requires Valid()
      modifies this
      ensures Valid() && done == !b.summary.NoSummary?
      ensures View() == if done then ReadSummary(old(View()), b.summary) else old(View())
    {
      if b.summary.NoSummary? {
        return false;
      }
      FlushBlock();
      summaryMarkers := summaryMarkers + 1;
      if b.summary.Readable? {
        summary := Some(b.summary.summary);
      } else {
        Note(MalformedSummary);
      }
      done := true;
    }

    /** True when the line belongs to a truncation note or to an invalid access. */
    method ConsumeAuxiliary(b: Body) returns (done: bool)
      requires Valid() && !b.internalError && b.summary.NoSummary?
      modifies this
      ensures Valid()
      ensures if done then View() == Consume(old(View()), Some(b)) else Consume(old(View()), Some(b)) == ReadRace(View(), b)
    {
      hide Flush, ReadRace, ReadSummary, Noted;
      if b.truncation {
        FlushBlock();
        outputTruncated := true;
        return true;
      }
      if b.invalid.Some? {
        FlushBlock();
        pendingInvalid := b.invalid;
        rawLines := [b.text];
        return true;
      }
      if pendingInvalid.Some? {
        if b.header.Some? {
          FlushBlock();
          return false;
        }
        if b.site.Some? {
          rawLines := rawLines + [b.text];
          invalidAccesses := invalidAccesses + [InvalidAccess(pendingInvalid.value, b.site, rawLines)];
          pendingInvalid := None;
          rawLines := [];
          return true;
        }
        if invalidLookahead + 1 <= SITE_LOOKAHEAD {
          invalidLookahead := invalidLookahead + 1;
          rawLines := rawLines + [b.text];
          return true;
        }
        FlushBlock();
      }
      done := false;
    }

    /** A line that no auxiliary block claims. */
    method ConsumeRace(b: Body)
      requires Valid()
      modifies this
      ensures Valid() && View() == ReadRace(old(View()), b)
    {
      hide Flush, Diagnose;
      if b.header.Some? {
        FlushBlock();
        header := b.header;
        rawLines := [b.text];
        return;
      }
      if b.mentionsRace {
        FlushBlock();
        Note(UnparsedFinding);
        return;
      }
      if header.None? {
        return;
      }
      if b.conflict.Some? {
        conflicts := conflicts + [b.conflict.value];
        rawLines := rawLines + [b.text];
        return;
      }
      if b.looksLikeAccess {
        Note(UnparsedFinding);
      }
      FlushBlock();
    }

    method ConsumeLine(line: Option<Body>)
      requires Valid()
      modifies this
      ensures Valid() && View() == Consume(old(View()), line)
    {
      hide Flush, ReadRace, ReadSummary, Noted, Valid, View;
      if line.None? {
        return;
      }
      var b := line.value;
      if b.internalError {
        FlushBlock();
        Note(InternalToolError);
        return;
      }
      var done := ConsumeSummary(b);
      if done {
        return;
      }
      done := ConsumeAuxiliary(b);
      if done {
        return;
      }
      ConsumeRace(b);
    }

    method NoteAll(more: seq<Diagnostic>)
      requires Valid()
      modifies `diagnostics
      ensures Valid() && View() == old(View()).(diagnostics := DiagnoseAll(old(diagnostics), more))
    {
      hide Diagnose, Valid;
      ghost var before := diagnostics;
      for i := 0 to |more|
        invariant Valid() && diagnostics == DiagnoseAll(before, more[..i])
      {
        assert more[..i + 1][..i] == more[..i];
        Note(more[i]);
      }
      assert more[..|more|] == more;
    }

    method FinishLog() returns (r: Result)
      requires Valid()
      modifies this
      ensures Valid() && r == Finish(old(View()))
    {
      hide Flush, Diagnose, DiagnoseAll, Contradictions, Valid;
      FlushBlock();
      if summaryMarkers == 0 {
        Note(MissingSummary);
      } else if summaryMarkers > 1 {
        Note(MultipleSummaries);
      }
      if summary.Some? {
        NoteAll(Contradictions(summary.value, findings, invalidAccesses));
      }
      r := Result(findings, invalidAccesses, diagnostics, summary, outputTruncated);
    }
  }

  method ParseRacecheckLog(log: seq<Option<Body>>) returns (r: Result)
    ensures r == ParseRacecheck(log)
  {
    var parser := new RacecheckParser();
    for i := 0 to |log|
      invariant fresh(parser) && parser.Valid() && parser.View() == ConsumeAll(START, log[..i])
    {
      assert log[..i + 1][..i] == log[..i];
      parser.ConsumeLine(log[i]);
    }
    assert log[..|log|] == log;
    r := parser.FinishLog();
  }
}
