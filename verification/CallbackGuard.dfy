/** Lock accounting of nested CUDA callbacks on one thread (include/cuda_callback_guard.h). */
module CallbackGuard {
  import opened Sequences

  datatype PendingLaunch = PendingLaunch(context: nat, api: int, launchId: Option<nat>, retainedLock: bool)

  datatype LaunchExit = LaunchExit(launch: Option<PendingLaunch>, inOrder: bool)

  predicate Same(p: PendingLaunch, context: nat, api: int) {
    p.context == context && p.api == api
  }

  /** The most recent entry of one context and API. */
  function LastMatch(entries: seq<PendingLaunch>, context: nat, api: int): (r: Option<nat>)
    ensures r.None? <==> forall i :: 0 <= i < |entries| ==> !Same(entries[i], context, api)
    ensures r.Some? ==>
              && r.value < |entries| && Same(entries[r.value], context, api)
              && forall i :: r.value < i < |entries| ==> !Same(entries[i], context, api)
  {
    if entries == [] then None
    else if Same(entries[|entries| - 1], context, api) then Some(|entries| - 1)
    else LastMatch(entries[..|entries| - 1], context, api)
  }

  function Without(entries: seq<PendingLaunch>, i: nat): seq<PendingLaunch>
    requires i < |entries|
  {
    entries[..i] + entries[i + 1..]
  }

  // ------------------------------------------------------------ the callback object

  /** How many acquisitions of the recursive mutex the thread holds. */
  class Mutex {
    var depth: int

    constructor ()
      ensures depth == 0
    {
      depth := 0;
    }
  }

  class PendingLaunches {
    var entries: seq<PendingLaunch>

    constructor ()
      ensures entries == []
    {
      entries := [];
    }
  }

  class ScopedCudaLaunchCallback {
    const mutex: Mutex
    const pending: PendingLaunches
    var retainEntryLock: bool
    var releaseEntryLock: bool

    /** This callback is the innermost one of the thread `t`. */
    ghost predicate InnermostOf(t: Thread)
      reads this, mutex, pending
    {
      && t.live != [] && Inner(t) == Callback(retainEntryLock, releaseEntryLock)
      && t.depth == mutex.depth && t.entries == pending.entries
    }

    /** `t` is the thread the callback runs on. */
    constructor (mutex: Mutex, pending: PendingLaunches, ghost t: Thread)
      requires t.depth == mutex.depth && t.entries == pending.entries
      modifies mutex
      ensures this.mutex == mutex && this.pending == pending
      ensures InnermostOf(Step(t, Op.Open))
    {
      this.mutex, this.pending := mutex, pending;
      retainEntryLock, releaseEntryLock := false, false;
      new;
      mutex.depth := mutex.depth + 1;
    }

    method Enter(launch: PendingLaunch, ghost t: Thread)
      requires InnermostOf(t)
      modifies pending, `retainEntryLock
      ensures InnermostOf(Step(t, Op.Enter(launch)))
    {
      pending.entries := pending.entries + [launch];
      retainEntryLock := launch.retainedLock;
    }

    method TakePendingLaunch(context: nat, api: int, ghost t: Thread) returns (exit: LaunchExit)
      requires InnermostOf(t)
      modifies pending, `releaseEntryLock
      ensures InnermostOf(Step(t, Op.Exit(context, api)))
      ensures match LastMatch(t.entries, context, api)
              case None => exit == LaunchExit(None, false)
              case Some(i) => exit == LaunchExit(Some(t.entries[i]), i == |t.entries| - 1)
    {
      var entries := pending.entries;
      var i := |entries|;
      while i > 0 && !Same(entries[i - 1], context, api)
        invariant 0 <= i <= |entries|
        invariant forall k :: i <= k < |entries| ==> !Same(entries[k], context, api)
      {
        i := i - 1;
      }
      if i == 0 {
        return LaunchExit(None, false);
      }
      var launch := entries[i - 1];
      pending.entries := entries[..i - 1] + entries[i..];
      releaseEntryLock := launch.retainedLock;
      exit := LaunchExit(Some(launch), i == |entries|);
    }

    /** The destructor. */
    method Close(ghost t: Thread)
      requires InnermostOf(t)
      modifies mutex
      ensures mutex.depth == Step(t, Op.Close).depth && pending.entries == Step(t, Op.Close).entries
    {
      if releaseEntryLock {
        mutex.depth := mutex.depth - 1;
      }
      if !retainEntryLock {
        mutex.depth := mutex.depth - 1;
      }
    }
  }

  // ------------------------------------------------------------ any nesting of callbacks

  datatype Callback = Callback(retain: bool, release: bool)

  /** `live` is the stack of callbacks that have begun and not ended, innermost last.  `lostRetains` and `lostReleases`
      count how often a callback overwrote a flag that was already set. */
  datatype Thread = Thread(depth: int, entries: seq<PendingLaunch>, live: seq<Callback>, lostRetains: nat, lostReleases: nat)

  datatype Op = Open | Enter(launch: PendingLaunch) | Exit(context: nat, api: int) | Close

  function Inner(t: Thread): Callback
    requires t.live != []
  {
    t.live[|t.live| - 1]
  }

  function WithInner(t: Thread, c: Callback): seq<Callback>
    requires t.live != []
  {
    t.live[..|t.live| - 1] + [c]
  }

  function Bit(b: bool): nat { if b then 1 else 0 }

  /** Only the innermost callback runs. */
  function Step(t: Thread, op: Op): Thread {
    match op
    case Open => t.(depth := t.depth + 1, live := t.live + [Callback(false, false)])
    case Enter(launch) =>
      if t.live == [] then t
      else
        t.(entries := t.entries + [launch], live := WithInner(t, Inner(t).(retain := launch.retainedLock)),
           lostRetains := t.lostRetains + Bit(Inner(t).retain))
    case Exit(context, api) =>
      (match LastMatch(t.entries, context, api)
       case None => t
       case Some(i) =>
         if t.live == [] then t
         else
           t.(entries := Without(t.entries, i), live := WithInner(t, Inner(t).(release := t.entries[i].retainedLock)),
              lostReleases := t.lostReleases + Bit(Inner(t).release)))
    case Close =>
      if t.live == [] then t
      else t.(depth := t.depth - Bit(Inner(t).release) - (1 - Bit(Inner(t).retain)), live := t.live[..|t.live| - 1])
  }

  function Run(ops: seq<Op>): Thread {
    if ops == [] then Thread(0, [], [], 0, 0) else Step(Run(ops[..|ops| - 1]), ops[|ops| - 1])
  }

  function Retained(entries: seq<PendingLaunch>): nat {
    if entries == [] then 0 else Retained(entries[..|entries| - 1]) + Bit(entries[|entries| - 1].retainedLock)
  }

  /** What the live callbacks will release when they end. */
  function Owed(live: seq<Callback>): nat {
    if live == [] then 0
    else Owed(live[..|live| - 1]) + (1 - Bit(live[|live| - 1].retain)) + Bit(live[|live| - 1].release)
  }

  lemma RetainedSnoc(entries: seq<PendingLaunch>, p: PendingLaunch)
    ensures Retained(entries + [p]) == Retained(entries) + Bit(p.retainedLock)
  {
    assert (entries + [p])[..|entries|] == entries;
  }

  lemma OwedSnoc(live: seq<Callback>, c: Callback)
    ensures Owed(live + [c]) == Owed(live) + (1 - Bit(c.retain)) + Bit(c.release)
  {
    assert (live + [c])[..|live|] == live;
  }

  lemma {:induction false} RetainedWithout(entries: seq<PendingLaunch>, i: nat)
    requires i < |entries|
    ensures Retained(Without(entries, i)) == Retained(entries) - Bit(entries[i].retainedLock)
  {
    var last := |entries| - 1;
    if i == last {
      assert Without(entries, i) == entries[..last];
    } else {
      RetainedWithout(entries[..last], i);
      assert Without(entries, i) == Without(entries[..last], i) + [entries[last]];
      RetainedSnoc(Without(entries[..last], i), entries[last]);
    }
  }

  ghost predicate Balanced(t: Thread) {
    t.depth + t.lostRetains == Owed(t.live) + Retained(t.entries) + t.lostReleases
  }

  lemma OwedInner(t: Thread)
    requires t.live != []
    ensures Owed(t.live) == Owed(t.live[..|t.live| - 1]) + (1 - Bit(Inner(t).retain)) + Bit(Inner(t).release)
  {
  }

  lemma OwedWith(t: Thread, c: Callback)
    requires t.live != []
    ensures Owed(WithInner(t, c)) == Owed(t.live[..|t.live| - 1]) + (1 - Bit(c.retain)) + Bit(c.release)
  {
    OwedSnoc(t.live[..|t.live| - 1], c);
  }

  lemma EnterBalanced(t: Thread, launch: PendingLaunch)
    requires Balanced(t) && t.live != []
    ensures Balanced(Step(t, Enter(launch)))
  {
    OwedInner(t);
    OwedWith(t, Inner(t).(retain := launch.retainedLock));
    RetainedSnoc(t.entries, launch);
    hide Owed, Retained, WithInner;
  }

  lemma ExitBalanced(t: Thread, context: nat, api: int, i: nat)
    requires Balanced(t) && t.live != [] && LastMatch(t.entries, context, api) == Some(i)
    ensures Balanced(Step(t, Exit(context, api)))
  {
    OwedInner(t);
    OwedWith(t, Inner(t).(release := t.entries[i].retainedLock));
    RetainedWithout(t.entries, i);
    hide Owed, Retained, WithInner, Without, LastMatch;
  }

  lemma CloseBalanced(t: Thread)
    requires Balanced(t) && t.live != []
    ensures Balanced(Step(t, Close))
  {
    OwedInner(t);
    hide Owed, Retained;
  }

  lemma {:induction false} StepBalanced(t: Thread, op: Op)
    requires Balanced(t)
    ensures Balanced(Step(t, op))
  {
    hide Owed, Retained, LastMatch, Without, WithInner, Inner;
    match op
    case Open => OwedSnoc(t.live, Callback(false, false));
    case Enter(launch) =>
      if t.live != [] {
        EnterBalanced(t, launch);
      }
    case Exit(context, api) =>
      if t.live != [] && LastMatch(t.entries, context, api).Some? {
        ExitBalanced(t, context, api, LastMatch(t.entries, context, api).value);
      }
    case Close =>
      if t.live != [] {
        CloseBalanced(t);
      }
  }

  /** In every run, and at every moment of it, the lock depth is what the live callbacks owe plus one for every pending
      entry that retained the lock, up to the flags that were overwritten. */
  lemma {:induction false} DepthIsAccounted(ops: seq<Op>)
    ensures var t := Run(ops); t.depth + t.lostRetains == Owed(t.live) + Retained(t.entries) + t.lostReleases
  {
    if ops != [] {
      DepthIsAccounted(ops[..|ops| - 1]);
      StepBalanced(Run(ops[..|ops| - 1]), ops[|ops| - 1]);
    }
  }

  // ------------------------------------------------------------ callbacks that act at most once

  /** How many enters, and how many exits, each live callback has made so far. */
  function Acts(ops: seq<Op>): seq<(nat, nat)> {
    if ops == [] then [] else ActsAfter(Acts(ops[..|ops| - 1]), ops[|ops| - 1])
  }

  function ActsAfter(before: seq<(nat, nat)>, op: Op): seq<(nat, nat)> {
    if op.Open? then before + [(0, 0)]
    else if before == [] then before
    else
      var outer, inner := before[..|before| - 1], before[|before| - 1];
      match op
      case Enter(_) => outer + [(inner.0 + 1, inner.1)]
      case Exit(_, _) => outer + [(inner.0, inner.1 + 1)]
      case Close => outer
  }

  ghost predicate Once(acts: seq<(nat, nat)>) {
    forall c :: 0 <= c < |acts| ==> acts[c].0 <= 1 && acts[c].1 <= 1
  }

  /** No callback makes a second enter or a second exit. */
  ghost predicate AtMostOnce(ops: seq<Op>) {
    forall n :: 0 <= n <= |ops| ==> Once(Acts(ops[..n]))
  }

  ghost predicate FlagsFollowActs(live: seq<Callback>, acts: seq<(nat, nat)>) {
    && |live| == |acts|
    && forall c :: 0 <= c < |live| ==> (live[c].retain ==> acts[c].0 > 0) && (live[c].release ==> acts[c].1 > 0)
  }

  lemma FlagsStep(t: Thread, acts: seq<(nat, nat)>, op: Op)
    requires FlagsFollowActs(t.live, acts) && t.lostRetains == 0 && t.lostReleases == 0
    requires Once(ActsAfter(acts, op))
    ensures FlagsFollowActs(Step(t, op).live, ActsAfter(acts, op))
    ensures Step(t, op).lostRetains == 0 && Step(t, op).lostReleases == 0
  {
    var after := ActsAfter(acts, op);
    if t.live != [] && !op.Open? && !op.Close? {
      assert after[|acts| - 1].0 <= 1 && after[|acts| - 1].1 <= 1;
    }
  }

  lemma {:induction false} NothingLost(ops: seq<Op>)
    requires AtMostOnce(ops)
    ensures Run(ops).lostRetains == 0 && Run(ops).lostReleases == 0
    ensures FlagsFollowActs(Run(ops).live, Acts(ops))
  {
    hide Step, ActsAfter, Once;
    if ops != [] {
      var before, op := ops[..|ops| - 1], ops[|ops| - 1];
      forall n | 0 <= n <= |before| ensures Once(Acts(before[..n])) {
        assert before[..n] == ops[..n];
      }
      NothingLost(before);
      assert ops[..|ops|] == ops;
      assert Acts(ops) == ActsAfter(Acts(before), op);
      assert Run(ops) == Step(Run(before), op);
      FlagsStep(Run(before), Acts(before), op);
    } else {
      assert Run(ops).live == [] && Acts(ops) == [];
    }
  }

  /** When no callback is live, the thread holds the lock once for each pending entry that retained it. */
  lemma {:induction false} IdleDepth(ops: seq<Op>)
    requires AtMostOnce(ops) && Run(ops).live == []
    ensures Run(ops).depth == Retained(Run(ops).entries)
  {
    DepthIsAccounted(ops);
    NothingLost(ops);
  }

  /** Between callbacks the accounting is exact if and only if as many retains as releases were overwritten. */
  lemma {:induction false} IdleDepthExactly(ops: seq<Op>)
    requires Run(ops).live == []
    ensures Run(ops).depth == Retained(Run(ops).entries) <==> Run(ops).lostRetains == Run(ops).lostReleases
  {
    DepthIsAccounted(ops);
  }

  /** A callback that ends never unlocks a mutex its thread does not hold. */
  lemma {:induction false} CloseNeverUnderflows(ops: seq<Op>)
    requires AtMostOnce(ops) && Run(ops).live != []
    ensures var t := Run(ops); t.depth >= Bit(Inner(t).release) + (1 - Bit(Inner(t).retain))
  {
    DepthIsAccounted(ops);
    NothingLost(ops);
  }

  /** A second retained enter in one callback leaves the thread short of one acquisition. */
  lemma {:induction false} SecondEnterLosesALock(p: PendingLaunch)
    requires p.retainedLock
    ensures var t := Run([Open, Enter(p), Enter(p), Close]); t.live == [] && t.depth == 1 && Retained(t.entries) == 2
  {
    var a, b, c := [Open], [Open, Enter(p)], [Open, Enter(p), Enter(p)];
    assert a[..0] == [] && b[..1] == a && c[..2] == b && [Open, Enter(p), Enter(p), Close][..3] == c;
    assert Run(a) == Thread(1, [], [Callback(false, false)], 0, 0);
    assert Run(b) == Thread(1, [p], [Callback(true, false)], 0, 0);
    assert Run(c) == Thread(1, [p, p], [Callback(true, false)], 1, 0);
    RetainedSnoc([p], p);
    RetainedSnoc([], p);
  }

  // ------------------------------------------------------------ one exit, up to the close that releases the lock

  lemma {:induction false} RunSnoc(ops: seq<Op>, op: Op)
    ensures Run(ops + [op]) == Step(Run(ops), op)
  {
    assert (ops + [op])[..|ops|] == ops;
  }

  lemma {:induction false} RunThree(ops: seq<Op>, a: Op, b: Op, c: Op)
    ensures Run(ops + [a, b, c]) == Step(Step(Step(Run(ops), a), b), c)
  {
    assert ops + [a, b, c] == ops + [a] + [b] + [c];
    RunSnoc(ops, a);
    RunSnoc(ops + [a], b);
    RunSnoc(ops + [a] + [b], c);
  }

  /** A callback whose exit matches no entry leaves the thread, at its close, as it found it. */
  lemma {:induction false} UnmatchedExitReleasesNothing(ops: seq<Op>, context: nat, api: int)
    requires forall i :: 0 <= i < |Run(ops).entries| ==> !Same(Run(ops).entries[i], context, api)
    ensures Run(ops + [Open, Exit(context, api), Close]) == Run(ops)
  {
    RunThree(ops, Open, Exit(context, api), Close);
    hide Run;
  }

  /** A callback whose exit matches removes the most recent entry of its context and API, and releases at its close what
      that entry retained; every other entry and every outer callback stays as it was. */
  lemma {:induction false} ExitReleasesItsOwnEntry(ops: seq<Op>, context: nat, api: int, i: nat)
    requires var entries := Run(ops).entries;
             && i < |entries| && Same(entries[i], context, api)
             && forall k :: i < k < |entries| ==> !Same(entries[k], context, api)
    ensures var t := Run(ops);
            Run(ops + [Open, Exit(context, api), Close]) ==
              t.(depth := t.depth - Bit(t.entries[i].retainedLock), entries := t.entries[..i] + t.entries[i + 1..])
  {
    RunThree(ops, Open, Exit(context, api), Close);
    hide Run;
  }

  /** Launching and returning leaves no trace, whether or not the lock was kept across the driver call. */
  lemma {:induction false} ExitUndoesEnter(ops: seq<Op>, p: PendingLaunch)
    ensures Run(ops + [Open, Enter(p), Close] + [Open, Exit(p.context, p.api), Close]) == Run(ops)
  {
    hide Run;
    var entered := ops + [Open, Enter(p), Close];
    EnterOnly(ops, p);
    ExitReleasesItsOwnEntry(entered, p.context, p.api, |Run(ops).entries|);
  }

  lemma EnterOnly(ops: seq<Op>, p: PendingLaunch)
    ensures var t := Run(ops);
            Run(ops + [Open, Enter(p), Close]) == t.(depth := t.depth + Bit(p.retainedLock), entries := t.entries + [p])
  {
    hide Run;
    RunThree(ops, Open, Enter(p), Close);
  }
}
