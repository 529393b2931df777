/** The tools with one error summary (python/cutracer/compute_sanitizer/parser.py). */
module SanitizerChecks {
  import opened Sequences
  import S = Sanitizer

  datatype Fact = NoFact | NotPrinted(count: nat) | Count(errors: nat) | Unreadable

  /** What the patterns of one tool say of one sanitizer line; `host` marks the messages that have no site. */
  datatype Body = Body(text: string, internalError: bool, summary: Fact, message: Option<(string, bool)>, site: Option<string>)

  datatype Issue = Issue(message: string, sites: seq<string>, lines: seq<string>)

  datatype Checker = Checker(issues: seq<Issue>, diagnostics: seq<S.Diagnostic>, errors: Option<nat>, markers: nat,
                             notPrinted: Option<nat>)

  datatype Result = Result(issues: seq<Issue>, diagnostics: seq<S.Diagnostic>, errors: Option<nat>, notPrinted: Option<nat>,
                           truncated: bool)

  const START := Checker([], [], None, 0, None)

  // ------------------------------------------------------------ one issue

  /** The block of an issue ends with the next message or summary, or after three sanitizer lines. */
  predicate Ends(b: Body, seen: nat) {
    seen >= S.SITE_LOOKAHEAD || b.message.Some? || !b.summary.NoFact?
  }

  /** The lines that follow a message, skipping child output. */
  function Following(rest: seq<Option<Body>>, seen: nat): seq<Body>
    decreases |rest|
  {
    if rest == [] then []
    else if rest[0].None? then Following(rest[1..], seen)
    else if Ends(rest[0].value, seen) then []
    else [rest[0].value] + Following(rest[1..], seen + 1)
  }

  function SitesIn(bodies: seq<Body>): seq<string> {
    if bodies == [] then []
    else
      var last := bodies[|bodies| - 1];
      SitesIn(bodies[..|bodies| - 1]) + (if last.site.Some? then [last.site.value] else [])
  }

  function TextsOf(bodies: seq<Body>): seq<string> {
    seq(|bodies|, i requires 0 <= i < |bodies| => bodies[i].text)
  }

  function IssueOf(b: Body, rest: seq<Option<Body>>): Issue
    requires b.message.Some?
  {
    var following := Following(rest, 0);
    Issue(b.message.value.0, SitesIn(following), [b.text] + TextsOf(following))
  }

  // ------------------------------------------------------------ the parser

  function ReadSummary(s: Checker, f: Fact): Checker {
    match f
    case NoFact => s
    case NotPrinted(count) => s.(notPrinted := Some(count))
    case Count(errors) => s.(markers := s.markers + 1, errors := Some(errors))
    case Unreadable => s.(markers := s.markers + 1, diagnostics := S.Diagnose(s.diagnostics, S.MalformedSummary))
  }

  function ReadIssue(s: Checker, b: Body, rest: seq<Option<Body>>): Checker {
    if b.message.None? then s
    else
      var issue := IssueOf(b, rest);
      s.(issues := s.issues + [issue],
         diagnostics := if issue.sites == [] && !b.message.value.1 then S.Diagnose(s.diagnostics, S.IncompleteFinding) else s.diagnostics)
  }

  function Step(s: Checker, b: Body, rest: seq<Option<Body>>): Checker {
    if b.internalError then s.(diagnostics := S.Diagnose(s.diagnostics, S.InternalToolError))
    else if !b.summary.NoFact? then ReadSummary(s, b.summary)
    else ReadIssue(s, b, rest)
  }

  function From(s: Checker, log: seq<Option<Body>>): Checker
    decreases |log|
  {
    if log == [] then s
    else From(if log[0].None? then s else Step(s, log[0].value, log[1..]), log[1..])
  }

  function Finish(s: Checker): Result {
    var ds := if s.markers == 0 then S.Diagnose(s.diagnostics, S.MissingSummary)
              else if s.markers > 1 then S.Diagnose(s.diagnostics, S.MultipleSummaries) else s.diagnostics;
    var mismatch := s.errors.Some? && ((s.errors.value > 0 && s.issues == [] && s.notPrinted.None?) || (s.errors.value == 0 && s.issues != []));
    Result(s.issues, if mismatch then S.Diagnose(ds, S.SummaryFindingMismatch) else ds, s.errors,
           if s.errors.Some? then s.notPrinted else None, s.notPrinted.Some?)
  }

  function Parse(log: seq<Option<Body>>): Result {
    Finish(From(START, log))
  }

  // ------------------------------------------------------------ interleaved output

  function Marked(log: seq<Option<Body>>): seq<Option<Body>> {
    if log == [] then [] else (if log[0].Some? then [log[0]] else []) + Marked(log[1..])
  }

  lemma MarkedFront(log: seq<Option<Body>>)
    requires log != []
    ensures log[0].None? ==> Marked(log) == Marked(log[1..])
    ensures log[0].Some? ==> Marked(log) != [] && Marked(log)[0] == log[0] && Marked(log)[1..] == Marked(log[1..])
  {
  }

  lemma {:induction false} FollowingSkipsChildren(rest: seq<Option<Body>>, seen: nat)
    ensures Following(rest, seen) == Following(Marked(rest), seen)
    decreases |rest|
  {
    if rest != [] {
      MarkedFront(rest);
      FollowingSkipsChildren(rest[1..], seen);
      FollowingSkipsChildren(rest[1..], seen + 1);
    }
  }

  lemma StepSkipsChildren(s: Checker, b: Body, rest: seq<Option<Body>>)
    ensures Step(s, b, rest) == Step(s, b, Marked(rest))
  {
    FollowingSkipsChildren(rest, 0);
  }

  lemma {:induction false} FromSkipsChildren(s: Checker, log: seq<Option<Body>>)
    ensures From(s, log) == From(s, Marked(log))
    decreases |log|
  {
    if log != [] {
      MarkedFront(log);
      if log[0].None? {
        FromSkipsChildren(s, log[1..]);
      } else {
        StepSkipsChildren(s, log[0].value, log[1..]);
        FromSkipsChildren(Step(s, log[0].value, log[1..]), log[1..]);
      }
    }
  }

  /** Child output may come anywhere, even inside the three lines that may follow a message. */
  lemma {:induction false} ChecksIgnoreChildren(log: seq<Option<Body>>, other: seq<Option<Body>>)
    requires Marked(log) == Marked(other)
    ensures Parse(log) == Parse(other)
  {
    FromSkipsChildren(START, log);
    FromSkipsChildren(START, other);
  }

  // ------------------------------------------------------------ the loops

  /** `taken` of the lines that follow have been read, up to `position`. */
  ghost predicate Gathered(log: seq<Option<Body>>, position: nat, taken: seq<Body>, all: seq<Body>)
    requires position <= |log|
  {
    all == taken + Following(log[position..], |taken|)
  }

  lemma GatheredNext(log: seq<Option<Body>>, position: nat, taken: seq<Body>, all: seq<Body>)
    requires position < |log| && Gathered(log, position, taken, all)
    ensures log[position].None? ==> Gathered(log, position + 1, taken, all)
    ensures log[position].Some? && Ends(log[position].value, |taken|) ==> all == taken
    ensures log[position].Some? && !Ends(log[position].value, |taken|) ==>
              Gathered(log, position + 1, taken + [log[position].value], all)
  {
    hide Ends;
    assert log[position..][0] == log[position] && log[position..][1..] == log[position + 1..];
  }

  lemma GatheredEnd(log: seq<Option<Body>>, taken: seq<Body>, all: seq<Body>)
    requires Gathered(log, |log|, taken, all)
    ensures all == taken
  {
  }

  lemma GatheredStart(log: seq<Option<Body>>, position: nat)
    requires position <= |log|
    ensures Gathered(log, position, [], Following(log[position..], 0)) && SitesIn([]) == [] && TextsOf([]) == []
  {
  }

  lemma CollectedMore(bodies: seq<Body>, b: Body)
    ensures SitesIn(bodies + [b]) == if b.site.Some? then SitesIn(bodies) + [b.site.value] else SitesIn(bodies)
    ensures TextsOf(bodies + [b]) == TextsOf(bodies) + [b.text]
  {
    assert (bodies + [b])[..|bodies|] == bodies;
    assert SitesIn(bodies) + [] == SitesIn(bodies);
  }

  /** Looks ahead from a message. */
  method CheckerIssueAt(log: seq<Option<Body>>, index: nat) returns (issue: Option<Issue>)
    requires index < |log|
    ensures log[index].None? || log[index].value.message.None? ==> issue == None
    ensures log[index].Some? && log[index].value.message.Some? ==> issue == Some(IssueOf(log[index].value, log[index + 1..]))
  {
    hide Following, SitesIn, TextsOf, Ends, Gathered;
    if log[index].None? || log[index].value.message.None? {
      return None;
    }
    var b := log[index].value;
    var sites: seq<string>, lines, seen := [], [], 0;
    ghost var taken: seq<Body> := [];
    ghost var all := Following(log[index + 1..], 0);
    GatheredStart(log, index + 1);
    var position := index + 1;
    while position < |log|
      invariant index < position <= |log|
      invariant seen == |taken| && Gathered(log, position, taken, all)
      invariant sites == SitesIn(taken) && lines == TextsOf(taken)
    {
      var next := log[position];
      GatheredNext(log, position, taken, all);
      if next.Some? {
        if Ends(next.value, seen) {
          break;
        }
        CollectedMore(taken, next.value);
        taken := taken + [next.value];
        seen := seen + 1;
        if next.value.site.Some? {
          sites := sites + [next.value.site.value];
        }
        lines := lines + [next.value.text];
      }
      position := position + 1;
    }
    if position == |log| {
      GatheredEnd(log, taken, all);
    }
    issue := Some(Issue(b.message.value.0, sites, [b.text] + lines));
  }

  class ErrorCheckerParser {
    var issues: seq<Issue>
    var diagnostics: seq<S.Diagnostic>
    var errors: Option<nat>
    var summaryMarkers: nat
    var notPrinted: Option<nat>

    ghost function View(): Checker reads this {
      Checker(issues, diagnostics, errors, summaryMarkers, notPrinted)
    }

    constructor ()
      ensures View() == START
    {
      issues, diagnostics, errors, summaryMarkers, notPrinted := [], [], None, 0, None;
    }

    method Note(d: S.Diagnostic)
      modifies `diagnostics
      ensures diagnostics == S.Diagnose(old(diagnostics), d)
    {
      if d !in diagnostics {
        diagnostics := diagnostics + [d];
      }
    }

    method ConsumeSummary(b: Body) returns (done: bool)
      modifies this
      ensures done == !b.summary.NoFact? && View() == ReadSummary(old(View()), b.summary)
    {
      if b.summary.NoFact? {
        return false;
      }
      if b.summary.NotPrinted? {
        notPrinted := Some(b.summary.count);
        return true;
      }
      summaryMarkers := summaryMarkers + 1;
      if b.summary.Count? {
        errors := Some(b.summary.errors);
      } else {
        Note(S.MalformedSummary);
      }
      done := true;
    }

    method ConsumeIssue(log: seq<Option<Body>>, index: nat)
      requires index < |log| && log[index].Some?
      modifies this
      ensures View() == ReadIssue(old(View()), log[index].value, log[index + 1..])
    {
      var issue := CheckerIssueAt(log, index);
      if issue.None? {
        return;
      }
      if issue.value.sites == [] && !log[index].value.message.value.1 {
        Note(S.IncompleteFinding);
      }
      issues := issues + [issue.value];
    }

    method FinishLog() returns (r: Result)
      modifies this
      ensures r == Finish(old(View()))
    {
      if summaryMarkers == 0 {
        Note(S.MissingSummary);
      } else if summaryMarkers > 1 {
        Note(S.MultipleSummaries);
      }
      if errors.Some? {
        var printedNothing := errors.value > 0 && issues == [] && notPrinted.None?;
        if printedNothing || (errors.value == 0 && issues != []) {
          Note(S.SummaryFindingMismatch);
        }
      }
      r := Result(issues, diagnostics, errors, if errors.Some? then notPrinted else None, notPrinted.Some?);
    }
  }

  method ParseErrorCheckerLog(log: seq<Option<Body>>) returns (r: Result)
    ensures r == Parse(log)
  {
    var parser := new ErrorCheckerParser();
    for index := 0 to |log|
      invariant fresh(parser) && From(parser.View(), log[index..]) == From(START, log)
    {
      assert log[index..][0] == log[index] && log[index..][1..] == log[index + 1..];
      if log[index].Some? {
        var b := log[index].value;
        if b.internalError {
          parser.Note(S.InternalToolError);
        } else {
          var done := parser.ConsumeSummary(b);
          if !done {
            parser.ConsumeIssue(log, index);
          }
        }
      }
    }
    r := parser.FinishLog();
  }
}
