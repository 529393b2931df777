/** Which launches belong to which graph invocation (src/runtime_identity.cpp, RuntimeGraphTracker). */
module GraphTracker {
  import opened Sequences

  datatype Frame = Frame(ordinal: nat, stream: nat, api: int, launches: seq<nat>)

  datatype Tracker = Tracker(next: nat, frames: map<nat, seq<Frame>>)

  const MAX_CONTEXTS := 1024
  const MAX_DEPTH := 64
  const MAX_LAUNCHES := 1000000

  /** What a caller could have seen happen. */
  datatype Event =
    | Began(ctx: nat, stream: nat, api: int, ordinal: nat)
    | Attached(ctx: nat, ordinal: nat, launch: nat)
    | Took(ctx: nat, stream: nat, api: int, ordinal: nat, launches: seq<nat>)
    | Abandoned(ctx: nat, launches: seq<nat>)
    | Cleared(ctx: nat, launches: seq<nat>)

  datatype Op =
    | OpBegin(ctx: nat, stream: nat, api: int)
    | OpAttach(ctx: nat, stream: nat, ordinal: nat, launch: nat)
    | OpTake(ctx: nat, stream: nat, api: int, entryMatched: bool)
    | OpClear(ctx: nat)

  // ------------------------------------------------------------ operations

  function Depth(t: Tracker, ctx: nat): nat {
    if ctx in t.frames then |t.frames[ctx]| else 0
  }

  predicate CanBegin(t: Tracker, ctx: nat) {
    ctx != 0 && (ctx in t.frames || |t.frames| < MAX_CONTEXTS) && Depth(t, ctx) < MAX_DEPTH
  }

  function Stack(t: Tracker, ctx: nat): seq<Frame> {
    if ctx in t.frames then t.frames[ctx] else []
  }

  function Begin(t: Tracker, ctx: nat, stream: nat, api: int): Tracker
    requires CanBegin(t, ctx)
  {
    Tracker(t.next + 1, t.frames[ctx := Stack(t, ctx) + [Frame(t.next, stream, api, [])]])
  }

  function Top(t: Tracker, ctx: nat): Frame
    requires Depth(t, ctx) > 0
  {
    t.frames[ctx][|t.frames[ctx]| - 1]
  }

  /** The stack below the innermost invocation. */
  function Below(t: Tracker, ctx: nat): seq<Frame>
    requires Depth(t, ctx) > 0
  {
    t.frames[ctx][..|t.frames[ctx]| - 1]
  }

  predicate CanAttach(t: Tracker, ctx: nat, stream: nat, ordinal: nat) {
    && Depth(t, ctx) > 0 && Top(t, ctx).ordinal == ordinal && Top(t, ctx).stream == stream
    && |Top(t, ctx).launches| < MAX_LAUNCHES
  }

  function Attach(t: Tracker, ctx: nat, launch: nat): Tracker
    requires Depth(t, ctx) > 0
  {
    var top := Top(t, ctx);
    t.(frames := t.frames[ctx := Below(t, ctx) + [top.(launches := top.launches + [launch])]])
  }

  predicate Matches(t: Tracker, ctx: nat, stream: nat, api: int, entryMatched: bool) {
    Depth(t, ctx) > 0 && entryMatched && Top(t, ctx).stream == stream && Top(t, ctx).api == api
  }

  function Pop(t: Tracker, ctx: nat): Tracker
    requires Depth(t, ctx) > 0
  {
    t.(frames := if |t.frames[ctx]| == 1 then t.frames - {ctx} else t.frames[ctx := Below(t, ctx)])
  }

  function Forget(t: Tracker, ctx: nat): Tracker {
    t.(frames := t.frames - {ctx})
  }

  /** The launches of a whole stack, outermost invocation first. */
  function Launches(stack: seq<Frame>): seq<nat> {
    if stack == [] then [] else Launches(stack[..|stack| - 1]) + stack[|stack| - 1].launches
  }

  datatype Traced = Traced(t: Tracker, events: seq<Event>)

  /** One call: a call that throws changes nothing and leaves no event. */
  function Apply(s: Traced, op: Op): Traced {
    match op
    case OpBegin(ctx, stream, api) =>
      if CanBegin(s.t, ctx) then Traced(Begin(s.t, ctx, stream, api), s.events + [Began(ctx, stream, api, s.t.next)]) else s
    case OpAttach(ctx, stream, ordinal, launch) =>
      if CanAttach(s.t, ctx, stream, ordinal) then Traced(Attach(s.t, ctx, launch), s.events + [Attached(ctx, ordinal, launch)]) else s
    case OpTake(ctx, stream, api, entryMatched) =>
      if Depth(s.t, ctx) == 0 then s
      else if Matches(s.t, ctx, stream, api, entryMatched) then
        Traced(Pop(s.t, ctx), s.events + [Took(ctx, stream, api, Top(s.t, ctx).ordinal, Top(s.t, ctx).launches)])
      else Traced(Forget(s.t, ctx), s.events + [Abandoned(ctx, Launches(s.t.frames[ctx]))])
    case OpClear(ctx) =>
      Traced(Forget(s.t, ctx), s.events + [Cleared(ctx, Launches(Stack(s.t, ctx)))])
  }

  function Run(ops: seq<Op>): Traced {
    if ops == [] then Traced(Tracker(0, map[]), []) else Apply(Run(ops[..|ops| - 1]), ops[|ops| - 1])
  }

  // ------------------------------------------------------------ what the events add up to

  function AttachedIn(events: seq<Event>, ctx: nat): multiset<nat> {
    if events == [] then multiset{}
    else
      var e, before := events[|events| - 1], AttachedIn(events[..|events| - 1], ctx);
      if e.Attached? && e.ctx == ctx then before + multiset{e.launch} else before
  }

  /** Everything a context gave back: by a matched exit, by an unmatched one, or by being cleared. */
  function ReturnedIn(events: seq<Event>, ctx: nat): multiset<nat> {
    if events == [] then multiset{}
    else
      var e, before := events[|events| - 1], ReturnedIn(events[..|events| - 1], ctx);
      if (e.Took? || e.Abandoned? || e.Cleared?) && e.ctx == ctx then before + multiset(e.launches) else before
  }

  /** The launches attached to one invocation, in order. */
  function AttachedTo(events: seq<Event>, ordinal: nat): seq<nat> {
    if events == [] then []
    else
      var e, before := events[|events| - 1], AttachedTo(events[..|events| - 1], ordinal);
      if e.Attached? && e.ordinal == ordinal then before + [e.launch] else before
  }

  // ------------------------------------------------------------ invariants

  ghost predicate StackOk(stack: seq<Frame>, next: nat) {
    && 0 < |stack| <= MAX_DEPTH
    && (forall i :: 0 <= i < |stack| ==> stack[i].ordinal < next && |stack[i].launches| <= MAX_LAUNCHES)
    && (forall i, j :: 0 <= i < j < |stack| ==> stack[i].ordinal < stack[j].ordinal)
  }

  /** No empty stack is kept, depth is bounded, and ordinals increase up each stack. */
  ghost predicate Structure(t: Tracker) {
    && |t.frames| <= MAX_CONTEXTS
    && forall c :: c in t.frames ==> StackOk(t.frames[c], t.next)
  }

  /** The invocation of a frame is known: who began it, and exactly what was attached to it. */
  ghost predicate FrameOk(c: nat, f: Frame, events: seq<Event>) {
    && Began(c, f.stream, f.api, f.ordinal) in events
    && f.launches == AttachedTo(events, f.ordinal)
    && forall e :: e in events && e.Took? ==> e.ordinal != f.ordinal
  }

  ghost predicate FramesOk(t: Tracker, events: seq<Event>) {
    forall c, i :: c in t.frames && 0 <= i < |t.frames[c]| ==> FrameOk(c, t.frames[c][i], events)
  }

  /** Every ordinal has one begin. */
  ghost predicate BeginsOk(next: nat, events: seq<Event>) {
    && (forall e :: e in events && e.Began? ==> e.ordinal < next)
    && (forall d, e :: d in events && e in events && d.Began? && e.Began? && d.ordinal == e.ordinal ==> d == e)
    && (forall e :: e in events && e.Attached? ==> e.ordinal < next)
    && (forall e :: e in events && e.Took? ==>
          && e.launches == AttachedTo(events, e.ordinal)
          && Began(e.ctx, e.stream, e.api, e.ordinal) in events)
  }

  ghost predicate Conserved(t: Tracker, events: seq<Event>, ctx: nat) {
    AttachedIn(events, ctx) == ReturnedIn(events, ctx) + multiset(Launches(Stack(t, ctx)))
  }

  ghost predicate Inv(s: Traced) {
    Structure(s.t) && FramesOk(s.t, s.events) && BeginsOk(s.t.next, s.events) && forall c :: Conserved(s.t, s.events, c)
  }

  lemma PushOk(stack: seq<Frame>, next: nat, stream: nat, api: int)
    requires stack == [] || (StackOk(stack, next) && |stack| < MAX_DEPTH)
    ensures StackOk(stack + [Frame(next, stream, api, [])], next + 1)
  {
  }

  lemma AttachOk(stack: seq<Frame>, next: nat, launch: nat)
    requires StackOk(stack, next) && |stack[|stack| - 1].launches| < MAX_LAUNCHES
    ensures var top := stack[|stack| - 1];
            StackOk(stack[..|stack| - 1] + [top.(launches := top.launches + [launch])], next)
  {
  }

  lemma OthersOk(t: Tracker, next: nat)
    requires Structure(t) && t.next <= next
    ensures forall c :: c in t.frames ==> StackOk(t.frames[c], next)
  {
  }

  lemma SameKeys(s: Tracker, t: Tracker)
    requires t.frames.Keys == s.frames.Keys
    ensures |t.frames| == |s.frames|
  {
    assert |t.frames| == |t.frames.Keys| && |s.frames| == |s.frames.Keys|;
  }

  lemma FewerKeys(s: Tracker, t: Tracker)
    requires t.frames.Keys <= s.frames.Keys
    ensures |t.frames| <= |s.frames|
  {
    assert s.frames.Keys == t.frames.Keys + (s.frames.Keys - t.frames.Keys);
    assert |t.frames| == |t.frames.Keys| && |s.frames| == |s.frames.Keys|;
  }

  lemma BeginKeeps(t: Tracker, ctx: nat, stream: nat, api: int)
    requires Structure(t) && CanBegin(t, ctx)
    ensures Structure(Begin(t, ctx, stream, api))
  {
    var u := Begin(t, ctx, stream, api);
    OthersOk(t, t.next + 1);
    PushOk(Stack(t, ctx), t.next, stream, api);
    if ctx in t.frames {
      assert u.frames.Keys == t.frames.Keys;
      SameKeys(t, u);
    }
    hide StackOk;
  }

  lemma AttachKeeps(t: Tracker, ctx: nat, stream: nat, ordinal: nat, launch: nat)
    requires Structure(t) && CanAttach(t, ctx, stream, ordinal)
    ensures Structure(Attach(t, ctx, launch))
  {
    var u := Attach(t, ctx, launch);
    AttachOk(t.frames[ctx], t.next, launch);
    assert u.frames.Keys == t.frames.Keys;
    SameKeys(t, u);
    hide StackOk;
  }

  lemma BelowOk(stack: seq<Frame>, next: nat)
    requires StackOk(stack, next) && |stack| > 1
    ensures StackOk(stack[..|stack| - 1], next)
  {
  }

  lemma PopKeeps(t: Tracker, ctx: nat)
    requires Structure(t) && Depth(t, ctx) > 0
    ensures Structure(Pop(t, ctx)) && Structure(Forget(t, ctx))
  {
    hide StackOk;
    FewerKeys(t, Pop(t, ctx));
    FewerKeys(t, Forget(t, ctx));
    if |t.frames[ctx]| > 1 {
      BelowOk(t.frames[ctx], t.next);
    }
  }

  lemma {:induction false} StructureKeeps(s: Traced, op: Op)
    requires Structure(s.t)
    ensures Structure(Apply(s, op).t)
  {
    hide Structure;
    match op
    case OpBegin(ctx, stream, api) =>
      if CanBegin(s.t, ctx) {
        BeginKeeps(s.t, ctx, stream, api);
      }
    case OpAttach(ctx, stream, ordinal, launch) =>
      if CanAttach(s.t, ctx, stream, ordinal) {
        AttachKeeps(s.t, ctx, stream, ordinal, launch);
      }
    case OpTake(ctx, _, _, _) =>
      if Depth(s.t, ctx) > 0 {
        PopKeeps(s.t, ctx);
      }
    case OpClear(ctx) => ForgetKeeps(s.t, ctx);
  }

  lemma ForgetKeeps(t: Tracker, ctx: nat)
    requires Structure(t)
    ensures Structure(Forget(t, ctx))
  {
    FewerKeys(t, Forget(t, ctx));
    hide StackOk;
  }

  // ------------------------------------------------------------ conservation

  lemma Counted(events: seq<Event>, e: Event, c: nat)
    ensures AttachedIn(events + [e], c) == if e.Attached? && e.ctx == c then AttachedIn(events, c) + multiset{e.launch} else AttachedIn(events, c)
    ensures ReturnedIn(events + [e], c) ==
            if (e.Took? || e.Abandoned? || e.Cleared?) && e.ctx == c then ReturnedIn(events, c) + multiset(e.launches) else ReturnedIn(events, c)
  {
    assert (events + [e])[..|events|] == events;
  }

  lemma Pushed(stack: seq<Frame>, f: Frame)
    ensures Launches(stack + [f]) == Launches(stack) + f.launches
  {
    assert (stack + [f])[..|stack|] == stack;
  }

  lemma ConservedBegin(t: Tracker, events: seq<Event>, ctx: nat, stream: nat, api: int, c: nat)
    requires CanBegin(t, ctx) && Conserved(t, events, c)
    ensures Conserved(Begin(t, ctx, stream, api), events + [Began(ctx, stream, api, t.next)], c)
  {
    Counted(events, Began(ctx, stream, api, t.next), c);
    Pushed(Stack(t, ctx), Frame(t.next, stream, api, []));
    assert Launches(Stack(t, ctx)) + [] == Launches(Stack(t, ctx));
    hide AttachedIn, ReturnedIn, Launches;
  }

  lemma LaunchesTop(t: Tracker, ctx: nat)
    requires Depth(t, ctx) > 0
    ensures Launches(t.frames[ctx]) == Launches(Below(t, ctx)) + Top(t, ctx).launches
  {
  }

  lemma LaunchesAttached(t: Tracker, ctx: nat, launch: nat)
    requires Depth(t, ctx) > 0
    ensures Launches(Stack(Attach(t, ctx, launch), ctx)) == Launches(Stack(t, ctx)) + [launch]
  {
    var top := Top(t, ctx);
    LaunchesTop(t, ctx);
    Pushed(Below(t, ctx), top.(launches := top.launches + [launch]));
    hide Launches;
  }

  lemma ConservedAttach(t: Tracker, events: seq<Event>, ctx: nat, ordinal: nat, launch: nat, c: nat)
    requires Depth(t, ctx) > 0 && Conserved(t, events, c)
    ensures Conserved(Attach(t, ctx, launch), events + [Attached(ctx, ordinal, launch)], c)
  {
    Counted(events, Attached(ctx, ordinal, launch), c);
    LaunchesAttached(t, ctx, launch);
    hide AttachedIn, ReturnedIn, Launches, Attach;
    if c != ctx {
      AttachElsewhere(t, ctx, launch, c);
    }
  }

  lemma AttachElsewhere(t: Tracker, ctx: nat, launch: nat, c: nat)
    requires Depth(t, ctx) > 0 && c != ctx
    ensures Stack(Attach(t, ctx, launch), c) == Stack(t, c) && Stack(Pop(t, ctx), c) == Stack(t, c)
  {
  }

  lemma ConservedPop(t: Tracker, events: seq<Event>, ctx: nat, stream: nat, api: int, c: nat)
    requires Depth(t, ctx) > 0 && Conserved(t, events, c)
    ensures Conserved(Pop(t, ctx), events + [Took(ctx, stream, api, Top(t, ctx).ordinal, Top(t, ctx).launches)], c)
  {
    Counted(events, Took(ctx, stream, api, Top(t, ctx).ordinal, Top(t, ctx).launches), c);
    LaunchesTop(t, ctx);
    assert Stack(Pop(t, ctx), ctx) == Below(t, ctx);
    hide AttachedIn, ReturnedIn, Launches, Pop, Below;
    if c != ctx {
      AttachElsewhere(t, ctx, 0, c);
    }
  }

  lemma ConservedForget(t: Tracker, events: seq<Event>, e: Event, c: nat)
    requires Conserved(t, events, c) && (e.Abandoned? || e.Cleared?) && e.launches == Launches(Stack(t, e.ctx))
    ensures Conserved(Forget(t, e.ctx), events + [e], c)
  {
    Counted(events, e, c);
    hide AttachedIn, ReturnedIn;
  }

  lemma {:induction false} ConservedStep(s: Traced, op: Op, c: nat)
    requires Conserved(s.t, s.events, c)
    ensures Conserved(Apply(s, op).t, Apply(s, op).events, c)
  {
    hide Conserved, Launches;
    match op
    case OpBegin(ctx, stream, api) =>
      if CanBegin(s.t, ctx) {
        ConservedBegin(s.t, s.events, ctx, stream, api, c);
      }
    case OpAttach(ctx, stream, ordinal, launch) =>
      if CanAttach(s.t, ctx, stream, ordinal) {
        ConservedAttach(s.t, s.events, ctx, ordinal, launch, c);
      }
    case OpTake(ctx, stream, api, entryMatched) =>
      if Matches(s.t, ctx, stream, api, entryMatched) {
        ConservedPop(s.t, s.events, ctx, stream, api, c);
      } else {
        ConservedForget(s.t, s.events, Abandoned(ctx, Launches(Stack(s.t, ctx))), c);
      }
    case OpClear(ctx) => ConservedForget(s.t, s.events, Cleared(ctx, Launches(Stack(s.t, ctx))), c);
  }

  // ------------------------------------------------------------ ownership

  /** Two invocations with one ordinal are one invocation. */
  lemma {:induction false} DistinctFrames(t: Tracker, events: seq<Event>, c: nat, i: nat, d: nat, j: nat)
    requires Structure(t) && FramesOk(t, events) && BeginsOk(t.next, events)
    requires c in t.frames && i < |t.frames[c]| && d in t.frames && j < |t.frames[d]|
    requires t.frames[c][i].ordinal == t.frames[d][j].ordinal
    ensures c == d && i == j
  {
    var f, g := t.frames[c][i], t.frames[d][j];
    assert FrameOk(c, f, events) && FrameOk(d, g, events);
    assert Began(c, f.stream, f.api, f.ordinal) == Began(d, g.stream, g.api, g.ordinal);
    assert StackOk(t.frames[c], t.next);
  }

  lemma FrameStays(c: nat, f: Frame, events: seq<Event>, e: Event)
    requires FrameOk(c, f, events) && !((e.Attached? || e.Took?) && e.ordinal == f.ordinal)
    ensures FrameOk(c, f, events + [e])
  {
    assert (events + [e])[..|events|] == events;
  }

  lemma {:induction false} NoneAttached(events: seq<Event>, ordinal: nat)
    requires forall e :: e in events && e.Attached? ==> e.ordinal != ordinal
    ensures AttachedTo(events, ordinal) == []
  {
    if events != [] {
      NoneAttached(events[..|events| - 1], ordinal);
    }
  }

  lemma AttachedMore(events: seq<Event>, e: Event, ordinal: nat)
    ensures AttachedTo(events + [e], ordinal) ==
            if e.Attached? && e.ordinal == ordinal then AttachedTo(events, ordinal) + [e.launch] else AttachedTo(events, ordinal)
  {
    assert (events + [e])[..|events|] == events;
  }

  lemma FramesBegin(t: Tracker, events: seq<Event>, ctx: nat, stream: nat, api: int)
    requires Structure(t) && FramesOk(t, events) && BeginsOk(t.next, events) && CanBegin(t, ctx)
    ensures FramesOk(Begin(t, ctx, stream, api), events + [Began(ctx, stream, api, t.next)])
  {
    var u, e := Begin(t, ctx, stream, api), Began(ctx, stream, api, t.next);
    forall c, i | c in u.frames && 0 <= i < |u.frames[c]| ensures FrameOk(c, u.frames[c][i], events + [e]) {
      if c == ctx && i == |Stack(t, ctx)| {
        NoneAttached(events, t.next);
        AttachedMore(events, e, t.next);
      } else {
        assert FrameOk(c, t.frames[c][i], events);
        FrameStays(c, t.frames[c][i], events, e);
      }
    }
  }

  lemma FramesAttach(t: Tracker, events: seq<Event>, ctx: nat, launch: nat)
    requires Structure(t) && FramesOk(t, events) && BeginsOk(t.next, events) && Depth(t, ctx) > 0
    ensures FramesOk(Attach(t, ctx, launch), events + [Attached(ctx, Top(t, ctx).ordinal, launch)])
  {
    hide Structure, BeginsOk, AttachedTo;
    var u, e := Attach(t, ctx, launch), Attached(ctx, Top(t, ctx).ordinal, launch);
    var last := |t.frames[ctx]| - 1;
    forall c, i | c in u.frames && 0 <= i < |u.frames[c]| ensures FrameOk(c, u.frames[c][i], events + [e]) {
      assert FrameOk(c, t.frames[c][i], events);
      if c == ctx && i == last {
        AttachedMore(events, e, Top(t, ctx).ordinal);
      } else {
        if t.frames[c][i].ordinal == Top(t, ctx).ordinal {
          DistinctFrames(t, events, c, i, ctx, last);
        }
        FrameStays(c, t.frames[c][i], events, e);
        assert u.frames[c][i] == t.frames[c][i];
      }
    }
  }

  lemma FramesPop(t: Tracker, events: seq<Event>, ctx: nat, stream: nat, api: int)
    requires Structure(t) && FramesOk(t, events) && BeginsOk(t.next, events) && Depth(t, ctx) > 0
    ensures FramesOk(Pop(t, ctx), events + [Took(ctx, stream, api, Top(t, ctx).ordinal, Top(t, ctx).launches)])
  {
    hide Structure, BeginsOk, FrameOk;
    var u, e := Pop(t, ctx), Took(ctx, stream, api, Top(t, ctx).ordinal, Top(t, ctx).launches);
    var last := |t.frames[ctx]| - 1;
    forall c, i | c in u.frames && 0 <= i < |u.frames[c]| ensures FrameOk(c, u.frames[c][i], events + [e]) {
      assert FrameOk(c, t.frames[c][i], events);
      if t.frames[c][i].ordinal == Top(t, ctx).ordinal {
        DistinctFrames(t, events, c, i, ctx, last);
      }
      FrameStays(c, t.frames[c][i], events, e);
    }
  }

  lemma FramesForget(t: Tracker, events: seq<Event>, e: Event)
    requires FramesOk(t, events) && (e.Abandoned? || e.Cleared?)
    ensures FramesOk(Forget(t, e.ctx), events + [e])
  {
    hide FrameOk;
    var u := Forget(t, e.ctx);
    forall c, i | c in u.frames && 0 <= i < |u.frames[c]| ensures FrameOk(c, u.frames[c][i], events + [e]) {
      FrameStays(c, t.frames[c][i], events, e);
    }
  }

  /** An event that neither begins nor attaches leaves the record of begins alone. */
  lemma BeginsStay(next: nat, events: seq<Event>, e: Event)
    requires BeginsOk(next, events) && (e.Abandoned? || e.Cleared?)
    ensures BeginsOk(next, events + [e])
  {
    forall d | d in events && d.Took? ensures AttachedTo(events + [e], d.ordinal) == d.launches {
      AttachedMore(events, e, d.ordinal);
    }
  }

  lemma BeginsBegin(next: nat, events: seq<Event>, e: Event)
    requires BeginsOk(next, events) && e.Began? && e.ordinal == next
    ensures BeginsOk(next + 1, events + [e])
  {
    forall d | d in events && d.Took? ensures AttachedTo(events + [e], d.ordinal) == d.launches {
      AttachedMore(events, e, d.ordinal);
    }
  }

  lemma BeginsAttach(next: nat, events: seq<Event>, e: Event)
    requires BeginsOk(next, events) && e.Attached? && e.ordinal < next
    requires forall d :: d in events && d.Took? ==> d.ordinal != e.ordinal
    ensures BeginsOk(next, events + [e])
  {
    forall d | d in events && d.Took? ensures AttachedTo(events + [e], d.ordinal) == d.launches {
      AttachedMore(events, e, d.ordinal);
    }
  }

  lemma BeginsTake(next: nat, events: seq<Event>, e: Event)
    requires BeginsOk(next, events) && e.Took? && e.launches == AttachedTo(events, e.ordinal)
    requires Began(e.ctx, e.stream, e.api, e.ordinal) in events
    ensures BeginsOk(next, events + [e])
  {
    forall d | d in events + [e] && d.Took? ensures AttachedTo(events + [e], d.ordinal) == d.launches {
      AttachedMore(events, e, d.ordinal);
    }
  }

  lemma {:induction false} OwnershipStep(s: Traced, op: Op)
    requires Structure(s.t) && FramesOk(s.t, s.events) && BeginsOk(s.t.next, s.events)
    ensures FramesOk(Apply(s, op).t, Apply(s, op).events) && BeginsOk(Apply(s, op).t.next, Apply(s, op).events)
  {
    if Depth(s.t, op.ctx) > 0 {
      assert FrameOk(op.ctx, Top(s.t, op.ctx), s.events);
      assert StackOk(s.t.frames[op.ctx], s.t.next);
    }
    hide Structure, FramesOk, BeginsOk, StackOk, Launches, AttachedTo;
    match op
    case OpBegin(ctx, stream, api) =>
      if CanBegin(s.t, ctx) {
        FramesBegin(s.t, s.events, ctx, stream, api);
        BeginsBegin(s.t.next, s.events, Began(ctx, stream, api, s.t.next));
      }
    case OpAttach(ctx, stream, ordinal, launch) =>
      if CanAttach(s.t, ctx, stream, ordinal) {
        FramesAttach(s.t, s.events, ctx, launch);
        BeginsAttach(s.t.next, s.events, Attached(ctx, ordinal, launch));
      }
    case OpTake(ctx, stream, api, entryMatched) =>
      if Matches(s.t, ctx, stream, api, entryMatched) {
        FramesPop(s.t, s.events, ctx, stream, api);
        BeginsTake(s.t.next, s.events, Took(ctx, stream, api, Top(s.t, ctx).ordinal, Top(s.t, ctx).launches));
      } else {
        var e := Abandoned(ctx, Launches(Stack(s.t, ctx)));
        FramesForget(s.t, s.events, e);
        BeginsStay(s.t.next, s.events, e);
      }
    case OpClear(ctx) =>
      var e := Cleared(ctx, Launches(Stack(s.t, ctx)));
      FramesForget(s.t, s.events, e);
      BeginsStay(s.t.next, s.events, e);
  }

  // ------------------------------------------------------------ runs

  lemma {:induction false} ReachableInv(ops: seq<Op>)
    ensures Inv(Run(ops))
  {
    if ops != [] {
      var s, op := Run(ops[..|ops| - 1]), ops[|ops| - 1];
      ReachableInv(ops[..|ops| - 1]);
      StructureKeeps(s, op);
      OwnershipStep(s, op);
      forall c ensures Conserved(Apply(s, op).t, Apply(s, op).events, c) {
        ConservedStep(s, op, c);
      }
      hide Structure, FramesOk, BeginsOk, Conserved;
    }
  }

  /** Stacks are never empty, at most 64 deep, and their ordinals increase strictly from the outside in. */
  lemma {:induction false} ReachableDepth(ops: seq<Op>, c: nat)
    requires c in Run(ops).t.frames
    ensures StackOk(Run(ops).t.frames[c], Run(ops).t.next)
  {
    ReachableInv(ops);
  }

  /** Every launch attached in a context is given back once, or is still attached; none crosses contexts. */
  lemma {:induction false} LaunchesConserved(ops: seq<Op>, c: nat)
    ensures var s := Run(ops);
            AttachedIn(s.events, c) == ReturnedIn(s.events, c) + multiset(Launches(Stack(s.t, c)))
  {
    ReachableInv(ops);
    assert Conserved(Run(ops).t, Run(ops).events, c);
  }

  /** A matched exit returns exactly the launches attached to the begin of its own context, stream and API, in order:
      over the whole run, so none is attached to that begin later. */
  lemma {:induction false} MatchedExitIsExact(ops: seq<Op>, e: Event)
    requires e in Run(ops).events && e.Took?
    ensures e.launches == AttachedTo(Run(ops).events, e.ordinal)
    ensures Began(e.ctx, e.stream, e.api, e.ordinal) in Run(ops).events
    ensures forall b :: b in Run(ops).events && b.Began? && b.ordinal == e.ordinal ==> b == Began(e.ctx, e.stream, e.api, e.ordinal)
  {
    ReachableInv(ops);
    assert BeginsOk(Run(ops).t.next, Run(ops).events);
  }

  lemma RunSnoc(ops: seq<Op>, op: Op)
    ensures Run(ops + [op]) == Apply(Run(ops), op)
  {
    assert (ops + [op])[..|ops|] == ops;
    hide Apply;
  }

  lemma DepthOfOk(t: Tracker, ctx: nat)
    requires ctx in t.frames && StackOk(t.frames[ctx], t.next)
    ensures Depth(t, ctx) > 0
  {
  }

  lemma NoLaunches()
    ensures Launches([]) == []
  {
  }

  /** An exit that does not match gives up everything its context holds. */
  lemma {:induction false} UnmatchedExitAbandonsAll(ops: seq<Op>, ctx: nat, stream: nat, api: int, entryMatched: bool)
    requires var t := Run(ops).t; ctx in t.frames && !Matches(t, ctx, stream, api, entryMatched)
    ensures var s, u := Run(ops), Run(ops + [OpTake(ctx, stream, api, entryMatched)]);
            && ctx !in u.t.frames
            && u.events == s.events + [Abandoned(ctx, Launches(s.t.frames[ctx]))]
            && AttachedIn(u.events, ctx) == ReturnedIn(u.events, ctx)
            && forall c :: c != ctx ==> Stack(u.t, c) == Stack(s.t, c)
  {
    hide Run, Launches, AttachedIn, ReturnedIn, StackOk;
    var op := OpTake(ctx, stream, api, entryMatched);
    RunSnoc(ops, op);
    ReachableDepth(ops, ctx);
    assert Depth(Run(ops).t, ctx) > 0 by { DepthOfOk(Run(ops).t, ctx); }
    LaunchesConserved(ops + [op], ctx);
    NoLaunches();
  }

  // ------------------------------------------------------------ the tracker itself

  datatype Exit = Exit(matched: bool, launches: seq<nat>)

  class RuntimeGraphTracker {
    var next: nat
    var frames: map<nat, seq<Frame>>

    ghost function View(): Tracker reads this {
      Tracker(next, frames)
    }

    constructor ()
      ensures View() == Tracker(0, map[])
    {
      next, frames := 0, map[];
    }

    /** None where the program throws. */
    method BeginGraph(ctx: nat, stream: nat, api: int) returns (ordinal: Option<nat>)
      modifies this
      ensures ordinal == if old(CanBegin(View(), ctx)) then Some(old(next)) else None
      ensures View() == if old(CanBegin(View(), ctx)) then Begin(old(View()), ctx, stream, api) else old(View())
    {
      if ctx == 0 || (ctx !in frames && |frames| >= MAX_CONTEXTS) {
        return None;
      }
      var stack := if ctx in frames then frames[ctx] else [];
      if |stack| >= MAX_DEPTH {
        return None;
      }
      ordinal := Some(next);
      frames := frames[ctx := stack + [Frame(next, stream, api, [])]];
      next := next + 1;
    }

    method Current(ctx: nat, stream: nat) returns (ordinal: Option<nat>)
      ensures ordinal == if Depth(View(), ctx) > 0 && Top(View(), ctx).stream == stream then Some(Top(View(), ctx).ordinal) else None
    {
      if ctx !in frames || |frames[ctx]| == 0 || frames[ctx][|frames[ctx]| - 1].stream != stream {
        return None;
      }
      ordinal := Some(frames[ctx][|frames[ctx]| - 1].ordinal);
    }

    method AttachLaunch(ctx: nat, stream: nat, ordinal: nat, launch: nat) returns (ok: bool)
      modifies this
      ensures ok == old(CanAttach(View(), ctx, stream, ordinal))
      ensures View() == if ok then Attach(old(View()), ctx, launch) else old(View())
    {
      if ctx !in frames || |frames[ctx]| == 0 {
        return false;
      }
      var stack := frames[ctx];
      var frame := stack[|stack| - 1];
      if frame.ordinal != ordinal || frame.stream != stream || |frame.launches| >= MAX_LAUNCHES {
        return false;
      }
      frames := frames[ctx := stack[..|stack| - 1] + [frame.(launches := frame.launches + [launch])]];
      ok := true;
    }

    method Take(ctx: nat, stream: nat, api: int, entryMatched: bool) returns (exit: Exit)
      modifies this
      ensures Depth(old(View()), ctx) == 0 ==> exit == Exit(false, []) && View() == old(View())
      ensures Matches(old(View()), ctx, stream, api, entryMatched) ==>
                exit == Exit(true, Top(old(View()), ctx).launches) && View() == Pop(old(View()), ctx)
      ensures Depth(old(View()), ctx) > 0 && !Matches(old(View()), ctx, stream, api, entryMatched) ==>
                exit == Exit(false, Launches(old(frames[ctx]))) && View() == Forget(old(View()), ctx)
    {
      if ctx !in frames || |frames[ctx]| == 0 {
        return Exit(false, []);
      }
      var stack := frames[ctx];
      var last := |stack| - 1;
      if entryMatched && stack[last].stream == stream && stack[last].api == api {
        frames := frames[ctx := stack[..last]];
        if stack[..last] == [] {
          frames := frames - {ctx};
        }
        return Exit(true, stack[last].launches);
      }
      var incomplete: seq<nat> := [];
      for i := 0 to |stack|
        invariant incomplete == Launches(stack[..i])
      {
        assert stack[..i + 1][..i] == stack[..i];
        incomplete := incomplete + stack[i].launches;
      }
      assert stack[..|stack|] == stack;
      frames := frames - {ctx};
      exit := Exit(false, incomplete);
    }

    method Clear(ctx: nat)
      modifies this
      ensures View() == Forget(old(View()), ctx)
    {
      frames := frames - {ctx};
    }
  }
}
