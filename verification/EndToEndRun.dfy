/** A run that EndToEnd.CompleteFooterVouches speaks of: one warp sends one record, the kernel completes, the channel is
    drained, and the launch and its writer are finished. */
module EndToEndRun {
  import opened Sequences
  import opened PlanCapture
  import opened PlanRuntimeSpec
  import W = TraceWriterSpec
  import P = TraceWriterProof
  import PlanSlots
  import EndToEnd

  const ORIGIN := Triple(0, 0, 0)
  const EVERYTHING := Capture([], [], [])
  const ONE_THREAD := Geometry(Triple(1, 1, 1), Triple(1, 1, 1))
  const CONFIG := Config(EVERYTHING, (n: nat) => true, 1, 1)
  const POINT := Point({0}, {}, [], (k: nat) => {})
  const TABLES := Tables([CONFIG], [POINT])
  const IDENTITY := Identity(0, 0, 0, ONE_THREAD)
  const PACKET := Packet(0, 1, 0, 0, 0, ORIGIN, 0, {0}, {0}, {0}, {0}, 0, {}, (word: nat, lane: nat) => 0)
  const COUNTED := W.Counters(1, PACKET_BYTES, 1, PACKET_BYTES, 0, 1)

  const BEGUN := Launch(IDENTITY, Some(0), false, false, false, map[0 := Counts(true, "", 1, 0, 0, 0, NO_COUNTERS)], {})
  const SENT := BEGUN.(counts := map[0 := Counts(true, "", 1, 1, 1, 1, NO_COUNTERS)], records := {(0, 0)})
  const DONE := Launch(IDENTITY, None, true, true, true, map[0 := Counts(true, "", 1, 1, 1, 1, COUNTED)], {(0, 0)})

  const STEPS := [
    EndToEnd.Arrive(PACKET, 1, "", W.Complete),
    EndToEnd.Plan(PlanSlots.OpDeviceCounts(0, (k: nat) => COUNTED)),
    EndToEnd.Plan(PlanSlots.OpComplete(0, true, true)),
    EndToEnd.FinishTrace(true),
    EndToEnd.Write(W.OpFinish(0, true, true, true, W.Complete, W.Complete))
  ]

  // ------------------------------------------------------------ the launch

  lemma OneCta()
    ensures Ctas(EVERYTHING, ONE_THREAD.grid) == {ORIGIN}
  {
    assert Range(1) == {0};
  }

  lemma OneWarp()
    ensures Threads(ONE_THREAD) == 1 && Warps(EVERYTHING, 1) == {0}
  {
    assert Range(1) == {0};
    assert LaneSelected(EVERYTHING, ActiveLanes(1, 0));
  }

  lemma OneEntry()
    ensures Expected(EVERYTHING, ONE_THREAD) == Some(1)
  {
    hide Ctas, Warps, Threads;
    OneCta();
    OneWarp();
    assert TripleFits(ONE_THREAD.block);
    assert Pairs({ORIGIN}, {0}) == {(ORIGIN, 0)};
    assert EntryPairs(EVERYTHING, ONE_THREAD) == {(ORIGIN, 0)};
  }

  function Bindings(): Bound { Bound([0], map[]) }

  lemma Counted()
    ensures CountsFor(CONFIG, None, IDENTITY) == Some(Counts(true, "", 1, 0, 0, 0, NO_COUNTERS))
    ensures Prepared(TABLES, Bindings(), IDENTITY) && LaunchCounts(TABLES, Bindings(), IDENTITY) == BEGUN.counts
  {
    OneEntry();
    hide Expected;
  }

  /** A runtime whose one kernel is prepared. */
  ghost function Ready(): (r: PlanSlots.Runtime)
    ensures PlanSlots.Ok(r) && !r.disabled && r.tables == TABLES && r.c.launches == map[]
    ensures r.c.bound == map[0 := Bindings()] && |r.c.occupied| == LAUNCH_SLOTS && !r.c.occupied[0]
  {
    PlanSlots.StepOk(PlanSlots.Initial(TABLES), PlanSlots.OpPrepare(0, Bindings()));
    PlanSlots.Apply(PlanSlots.Initial(TABLES), PlanSlots.OpPrepare(0, Bindings()))
  }

  ghost function Start(setup: W.Setup): EndToEnd.Sys {
    EndToEnd.Sys(PlanSlots.Apply(Ready(), PlanSlots.OpLaunch(0, IDENTITY)), W.Initial(setup, true), 0)
  }

  /** How far the launch has come. */
  ghost predicate LaunchIs(s: EndToEnd.Sys, l: Launch) {
    && !s.r.disabled && s.r.tables == TABLES && s.id == 0 && 0 in s.r.c.launches && s.r.c.launches[0] == l
    && |s.r.c.occupied| == |s.r.c.slots| == LAUNCH_SLOTS
  }

  /** Nothing has gone wrong with the writer. */
  ghost predicate WriterIs(w: W.Writer, setup: W.Setup, lines: seq<W.Line>) {
    && w.setup == setup && w.tally.enabled && w.tally.accepting && !w.tally.finished && w.tally.errors == {} && w.tally.dropped == 0
    && |w.past.accepted| == |lines| && forall i :: 0 <= i < |lines| ==> w.past.accepted[i].line == lines[i]
  }

  lemma LaunchPlaced(c: Context)
    requires |c.occupied| == |c.slots| == LAUNCH_SLOTS && !c.occupied[0] && c.launches == map[]
    ensures var p := Place(c, IDENTITY, BEGUN.counts);
            && p.ok && p.c.launches == map[0 := BEGUN] && |p.c.occupied| == |p.c.slots| == LAUNCH_SLOTS
  {
    assert 0 in SelectedIn(BEGUN.counts);
    assert FirstFree(c.occupied) == 0;
  }

  lemma Started(setup: W.Setup)
    requires P.Plain(setup.mode)
    ensures EndToEnd.Begun(Start(setup)) && LaunchIs(Start(setup), BEGUN) && WriterIs(Start(setup).w, setup, [])
  {
    hide PlanSlots.OwnersOk, PlanSlots.HoldersOk, PlanSlots.AssignedOk, PlanSlots.RememberTaken, Place, Prepared, LaunchCounts,
         CountsFor, EndToEnd.Begun;
    var r := Ready();
    Counted();
    LaunchPlaced(r.c);
    EndToEnd.AcceptedLaunchBegins(r, 0, IDENTITY, setup, true);
  }

  // ------------------------------------------------------------ its five steps

  function Record(): W.Line { W.Observation(0, 0, 0, "") }

  lemma PacketInside()
    ensures InGeometry(EVERYTHING, ONE_THREAD, ORIGIN, 0) && TripleFits(ONE_THREAD.block)
    ensures BlockLanes(EVERYTHING, ONE_THREAD, ORIGIN, 0) == {0}
  {
    assert Range(1) == {0};
  }

  lemma PacketBinds()
    ensures Binds(CONFIG, POINT, ONE_THREAD, PACKET) && !PredicateOutOfRange(POINT, PACKET)
  {
    hide Range, InGeometry, BlockLanes;
    PacketInside();
    assert 0 in Range(WARP);
    assert PACKET.reached * SelectedLanes(EVERYTHING) == {0};
  }

  lemma PacketAccepted(c: Context)
    requires 0 in c.launches && c.launches[0] == BEGUN
    ensures Judge(TABLES, c, PACKET, 1) == Accepted
  {
    hide Binds, PredicateOutOfRange, TripleFits;
    PacketInside();
    PacketBinds();
  }

  lemma PacketRecorded()
    ensures RecordOf(BEGUN, PACKET, "") == Record() && Received(BEGUN, PACKET, Accepted, 1, true) == SENT
  {
  }

  lemma LineTaken(w: W.Writer, setup: W.Setup, lines: seq<W.Line>, line: W.Line)
    requires WriterIs(w, setup, lines) && !setup.mode.Text?
    ensures WriterIs(W.WriteEncoded(w, line, W.Complete), setup, lines + [line]) && WriterIs(W.WriteMetadata(w, line), setup, lines + [line])
  {
  }

  lemma Sent(s: EndToEnd.Sys, setup: W.Setup)
    requires LaunchIs(s, BEGUN) && WriterIs(s.w, setup, []) && !setup.mode.Text?
    ensures var u := EndToEnd.Receive(s, PACKET, 1, "", W.Complete); LaunchIs(u, SENT) && WriterIs(u.w, setup, [Record()])
  {
    hide Judge, Received, W.WriteEncoded;
    PacketAccepted(s.r.c);
    PacketRecorded();
    LineTaken(s.w, setup, [], Record());
    assert [] + [Record()] == [Record()];
  }

  /** The device has counted in the slot of the launch. */
  ghost predicate CountedIs(s: EndToEnd.Sys) {
    LaunchIs(s, SENT) && s.r.c.slots[0].counters == ((k: nat) => COUNTED)
  }

  lemma DeviceCounted(s: EndToEnd.Sys)
    requires LaunchIs(s, SENT) && ContextOk(s.r.tables, s.r.c)
    ensures CountedIs(EndToEnd.Apply(s, STEPS[1])) && EndToEnd.Apply(s, STEPS[1]).w == s.w
  {
    hide ContextOk;
  }

  lemma Completed(s: EndToEnd.Sys)
    requires CountedIs(s) && ContextOk(s.r.tables, s.r.c)
    ensures LaunchIs(EndToEnd.Apply(s, STEPS[2]), DONE) && EndToEnd.Apply(s, STEPS[2]).w == s.w
  {
    hide ContextOk, PlanSlots.GivesBack, PlanSlots.RememberGivenBack;
  }

  function ReportLine(): W.Line {
    W.PlanCompletion(0, map[0 := W.Report(true, "", 1, COUNTED, 1, 1)], true)
  }

  lemma AllComplete()
    ensures LaunchComplete(DONE, false) && CompletionLine(DONE, false) == ReportLine()
  {
  }

  lemma Ended(s: EndToEnd.Sys, setup: W.Setup)
    requires LaunchIs(s, DONE) && WriterIs(s.w, setup, [Record()]) && !setup.mode.Text?
    ensures WriterIs(EndToEnd.EndLaunch(s, true).w, setup, [Record(), ReportLine()])
  {
    hide LaunchComplete, CompletionLine, W.WriteMetadata;
    AllComplete();
    LineTaken(s.w, setup, [Record()], ReportLine());
    assert [Record()] + [ReportLine()] == [Record(), ReportLine()];
  }

  lemma FooterWritten(w: W.Writer, setup: W.Setup, lines: seq<W.Line>) returns (c: W.Completion)
    requires WriterIs(w, setup, lines) && P.Plain(setup.mode) && P.Ok(w)
    ensures var v := W.Finish(w, 0, true, true, true, W.Complete, W.Complete);
            && v.file == P.Render(v.past.accepted, setup.dump) && c.complete
            && |v.past.accepted| == |lines| + 1 && v.past.accepted[|lines|].line == W.Footer(c)
  {
    P.FinishOk(w, 0, true, true, true, W.Complete, W.Complete);
    var v := W.Finish(w, 0, true, true, true, W.Complete, W.Complete);
    c := v.past.accepted[|lines|].line.completion;
    assert v.buffer == "" && v.file + v.buffer == v.file;
    hide P.Render, P.FooterOk;
  }

  // ------------------------------------------------------------ the run

  lemma StepsFit()
    ensures (forall x :: x in STEPS ==> EndToEnd.Fits(x, 0)) && EndToEnd.EndedFirst(STEPS)
  {
    assert STEPS[3].FinishTrace? && forall q :: 0 <= q < 3 ==> !EndToEnd.Finishes(STEPS[q]);
  }

  lemma FrontFits(n: nat)
    requires n <= |STEPS|
    ensures forall x :: x in STEPS[..n] ==> EndToEnd.Fits(x, 0)
  {
    hide EndToEnd.Fits;
    StepsFit();
    assert forall x :: x in STEPS[..n] ==> x in STEPS;
  }

  /** The state after `n` steps. */
  ghost function After(setup: W.Setup, n: nat): (u: EndToEnd.Sys)
    requires P.Plain(setup.mode) && n <= |STEPS|
    ensures EndToEnd.Inv(u)
  {
    Started(setup);
    FrontFits(n);
    EndToEnd.Run(Start(setup), STEPS[..n])
  }

  lemma AfterNone(setup: W.Setup)
    requires P.Plain(setup.mode)
    ensures After(setup, 0) == Start(setup) && LaunchIs(Start(setup), BEGUN) && WriterIs(Start(setup).w, setup, [])
  {
    hide Start, EndToEnd.Run, EndToEnd.Begun;
    Started(setup);
    assert STEPS[..0] == [];
    EndToEnd.NoSteps(Start(setup));
  }

  lemma AfterNext(setup: W.Setup, n: nat)
    requires P.Plain(setup.mode) && n < |STEPS|
    ensures ContextOk(After(setup, n).r.tables, After(setup, n).r.c) && After(setup, n + 1) == EndToEnd.Apply(After(setup, n), STEPS[n])
  {
    hide Start, EndToEnd.Begun, EndToEnd.Fits, EndToEnd.Apply, EndToEnd.Run, EndToEnd.Inv;
    Started(setup);
    FrontFits(n);
    FrontFits(n + 1);
    assert STEPS[..n + 1][..n] == STEPS[..n] && STEPS[..n + 1][n] == STEPS[n];
    EndToEnd.LastStep(Start(setup), STEPS[..n + 1]);
  }

  lemma AfterSent(setup: W.Setup)
    requires P.Plain(setup.mode)
    ensures LaunchIs(After(setup, 1), SENT) && WriterIs(After(setup, 1).w, setup, [Record()])
  {
    hide Start, After, EndToEnd.Receive, LaunchIs, WriterIs, ContextOk;
    AfterNone(setup);
    AfterNext(setup, 0);
    Sent(Start(setup), setup);
  }

  lemma AfterDone(setup: W.Setup)
    requires P.Plain(setup.mode)
    ensures LaunchIs(After(setup, 3), DONE) && After(setup, 3).w == After(setup, 1).w
  {
    hide After, LaunchIs, CountedIs, ContextOk, EndToEnd.Apply;
    AfterSent(setup);
    AfterNext(setup, 1);
    AfterNext(setup, 2);
    DeviceCounted(After(setup, 1));
    Completed(After(setup, 2));
  }

  lemma AfterEnded(setup: W.Setup)
    requires P.Plain(setup.mode)
    ensures WriterIs(After(setup, 4).w, setup, [Record(), ReportLine()])
  {
    hide After, EndToEnd.EndLaunch, LaunchIs, WriterIs, ContextOk;
    AfterSent(setup);
    AfterDone(setup);
    AfterNext(setup, 3);
    Ended(After(setup, 3), setup);
  }

  lemma IsLast(setup: W.Setup)
    requires P.Plain(setup.mode)
    ensures EndToEnd.Begun(Start(setup)) && Start(setup).w.setup == setup && Start(setup).id == 0
    ensures (forall x :: x in STEPS ==> EndToEnd.Fits(x, 0)) && After(setup, 5) == EndToEnd.Run(Start(setup), STEPS)
  {
    hide EndToEnd.Begun, EndToEnd.Run, EndToEnd.Fits, EndToEnd.Inv;
    Started(setup);
    StepsFit();
    assert STEPS[..5] == STEPS;
  }

  lemma FileEnds(setup: W.Setup) returns (i: nat, c: W.Completion)
    requires P.Plain(setup.mode) && W.DumpOk(setup.dump)
    ensures var lines := P.Lines(After(setup, 5).w.file); i < |lines| && lines[i] == setup.dump(W.Footer(c)) && c.complete
  {
    hide After, WriterIs, W.Finish, P.Render, P.Lines, P.Ok, W.DumpOk, EndToEnd.Live, EndToEnd.Told, PlanSlots.Ok;
    AfterEnded(setup);
    AfterNext(setup, 4);
    c := FooterWritten(After(setup, 4).w, setup, [Record(), ReportLine()]);
    var w := After(setup, 5).w;
    P.LinesOfPrefix(w.file, w.past.accepted, setup.dump);
    i := 2;
  }

  /** Whatever the writer's mode, threshold and encoding: this run begins a launch and its file ends with a footer that
      says `complete`, so the theorem about such footers is not about nothing. */
  lemma {:induction false} CompleteRun(setup: W.Setup) returns (i: nat, c: W.Completion)
    requires P.Plain(setup.mode) && W.DumpOk(setup.dump)
    ensures var s := Start(setup);
            && EndToEnd.Begun(s) && s.w.setup == setup && (forall x :: x in STEPS ==> EndToEnd.Fits(x, s.id))
            && EndToEnd.EndedFirst(STEPS)
            && var lines := P.Lines(EndToEnd.Run(s, STEPS).w.file); i < |lines| && lines[i] == setup.dump(W.Footer(c)) && c.complete
  {
    hide EndToEnd.Begun, EndToEnd.Run, EndToEnd.Fits, EndToEnd.EndedFirst, EndToEnd.Inv, WriterIs, Start, After;
    Started(setup);
    StepsFit();
    i, c := FileEnds(setup);
    IsLast(setup);
  }
}
