/** The ticket protocol between CUDA callbacks and the one receiver thread (include/capture_completion.h;
    the receiver's loop is in src/analysis.cu). */
module CompletionQueue {
  datatype Request = Request(launchId: nat, kernelCompleted: bool, channelDrained: bool, error: string)

  /** The fields the mutex protects. */
  datatype Queue = Queue(pending: seq<Request>, graphLaunches: seq<nat>, barrier: nat, takenBarrier: nat, finishedBarrier: nat)

  // ------------------------------------------------------------ critical sections

  function Requests(launches: seq<nat>, completed: bool, drained: bool, error: string): seq<Request> {
    seq(|launches|, i requires 0 <= i < |launches| => Request(launches[i], completed, drained, error))
  }

  function RequestGraph(q: Queue, completed: bool, drained: bool, error: string): Queue {
    q.(pending := q.pending + Requests(q.graphLaunches, completed, drained, error), graphLaunches := [])
  }

  function Take(q: Queue): Queue {
    q.(takenBarrier := q.barrier, pending := [])
  }

  function Finished(q: Queue): Queue {
    q.(finishedBarrier := q.takenBarrier)
  }

  class CaptureCompletionQueue {
    var pending: seq<Request>
    var graphLaunches: seq<nat>
    var barrier: nat
    var takenBarrier: nat
    var finishedBarrier: nat

    ghost function View(): Queue reads this {
      Queue(pending, graphLaunches, barrier, takenBarrier, finishedBarrier)
    }

    /** The fields are those of the queue after `actions`, which everyone who shares it has taken together. */
    ghost predicate IsAfter(actions: seq<Action>) reads this {
      View() == Run(actions).q
    }

    constructor ()
      ensures IsAfter([])
    {
      pending, graphLaunches, barrier, takenBarrier, finishedBarrier := [], [], 0, 0, 0;
    }

    method Enqueue(r: Request, ghost actions: seq<Action>)
      requires IsAfter(actions)
      modifies `pending
      ensures IsAfter(actions + [DoRequest(r)])
    {
      SnocRun(actions, DoRequest(r));
      pending := pending + [r];
    }

    method RegisterGraphLaunch(launchId: nat, ghost actions: seq<Action>)
      requires IsAfter(actions)
      modifies `graphLaunches
      ensures IsAfter(actions + [DoRegisterGraph(launchId)])
    {
      SnocRun(actions, DoRegisterGraph(launchId));
      graphLaunches := graphLaunches + [launchId];
    }

    method RequestGraphCompletion(completed: bool, drained: bool, error: string, ghost actions: seq<Action>)
      requires IsAfter(actions)
      modifies `pending, `graphLaunches
      ensures IsAfter(actions + [DoRequestGraph(completed, drained, error)])
    {
      SnocRun(actions, DoRequestGraph(completed, drained, error));
      for i := 0 to |graphLaunches|
        invariant graphLaunches == old(graphLaunches)
        invariant pending == old(pending) + Requests(graphLaunches[..i], completed, drained, error)
      {
        pending := pending + [Request(graphLaunches[i], completed, drained, error)];
      }
      assert graphLaunches[..|graphLaunches|] == graphLaunches;
      graphLaunches := [];
    }

    /** Only the receiver calls this, between complete chunks. */
    method TakeAtChunkBoundary(ghost actions: seq<Action>) returns (ready: seq<Request>)
      requires IsAfter(actions) && Run(actions).receiver.AtBoundary?
      modifies `takenBarrier, `pending
      ensures IsAfter(actions + [DoTake]) && Run(actions + [DoTake]).receiver == Finishing(ready)
    {
      SnocRun(actions, DoTake);
      takenBarrier := barrier;
      ready := pending;
      pending := [];
    }

    /** The receiver calls this after finishing the requests it took. */
    method FinishedChunkBoundary(ghost actions: seq<Action>)
      requires IsAfter(actions) && Run(actions).receiver == Finishing([])
      modifies `finishedBarrier
      ensures IsAfter(actions + [DoFinishedBoundary])
    {
      SnocRun(actions, DoFinishedBoundary);
      finishedBarrier := takenBarrier;
    }

    /** The first half of a wait: its number among all waits.  The lock is released before the second half. */
    method StartWait(ghost actions: seq<Action>) returns (ticket: nat)
      requires IsAfter(actions)
      modifies `barrier
      ensures IsAfter(actions + [DoWait]) && ticket == |Run(actions + [DoWait]).waits|
    {
      SnocRun(actions, DoWait);
      ReachableOk(actions);
      barrier := barrier + 1;
      ticket := barrier;
    }

    /** The second half of a wait, when it wakes: true means that every chunk copied before the wait began is parsed and
        every request enqueued before it is finished. */
    method WaitIsOver(ticket: nat, ghost actions: seq<Action>) returns (reached: bool)
      requires IsAfter(actions) && 1 <= ticket <= |Run(actions).waits|
      ensures reached <==> Reached(Run(actions), ticket)
      ensures reached ==>
                var s := Run(actions);
                && s.waits[ticket - 1].copied <= s.parsed
                && s.waits[ticket - 1].enqueued <= |s.finished| && s.finished <= s.enqueued
    {
      reached := finishedBarrier >= ticket;
      if reached {
        WaitMeansDone(actions, ticket);
      }
    }
  }

  // ------------------------------------------------------------ every interleaving

  /** Where the receiver's loop stands. */
  datatype Receiver = AtBoundary | Finishing(left: seq<Request>) | Receiving | Parsing

  /** What had happened when a wait began. */
  datatype Wait = Wait(copied: nat, enqueued: nat)

  /** The queue, the receiver, and what they have done: `enqueued` and `finished` in order, chunks counted. */
  datatype System = System(q: Queue, receiver: Receiver, enqueued: seq<Request>, taken: seq<Request>, finished: seq<Request>,
                           copied: nat, parsed: nat, waits: seq<Wait>)

  datatype Action =
    | DoRequest(r: Request)
    | DoRegisterGraph(launchId: nat)
    | DoRequestGraph(completed: bool, drained: bool, error: string)
    | DoWait
    | DoTake
    | DoFinishOne
    | DoFinishedBoundary
    | DoCopy
    | DoReceiveNothing
    | DoParse

  /** Callbacks act at any time; the receiver only in the order of its loop. */
  predicate Enabled(s: System, a: Action) {
    match a
    case DoTake => s.receiver.AtBoundary?
    case DoFinishOne => s.receiver.Finishing? && s.receiver.left != []
    case DoFinishedBoundary => s.receiver.Finishing? && s.receiver.left == []
    case DoCopy => s.receiver.Receiving?
    case DoReceiveNothing => s.receiver.Receiving?
    case DoParse => s.receiver.Parsing?
    case _ => true
  }

  function Act(s: System, a: Action): System
    requires Enabled(s, a)
  {
    match a
    case DoRequest(r) => s.(q := s.q.(pending := s.q.pending + [r]), enqueued := s.enqueued + [r])
    case DoRegisterGraph(id) => s.(q := s.q.(graphLaunches := s.q.graphLaunches + [id]))
    case DoRequestGraph(completed, drained, error) =>
      s.(q := RequestGraph(s.q, completed, drained, error),
         enqueued := s.enqueued + Requests(s.q.graphLaunches, completed, drained, error))
    case DoWait => s.(q := s.q.(barrier := s.q.barrier + 1), waits := s.waits + [Wait(s.copied, |s.enqueued|)])
    case DoTake => s.(q := Take(s.q), receiver := Finishing(s.q.pending), taken := s.taken + s.q.pending)
    case DoFinishOne => s.(receiver := Finishing(s.receiver.left[1..]), finished := s.finished + [s.receiver.left[0]])
    case DoFinishedBoundary => s.(q := Finished(s.q), receiver := Receiving)
    case DoCopy => s.(receiver := Parsing, copied := s.copied + 1)
    case DoReceiveNothing => s.(receiver := AtBoundary)
    case DoParse => s.(receiver := AtBoundary, parsed := s.parsed + 1)
  }

  /** An action that is not enabled does not happen. */
  function Run(actions: seq<Action>): System {
    if actions == [] then System(Queue([], [], 0, 0, 0), AtBoundary, [], [], [], 0, 0, [])
    else
      var s, a := Run(actions[..|actions| - 1]), actions[|actions| - 1];
      if Enabled(s, a) then Act(s, a) else s
  }

  /** Wait number `t` (from 1) would return true. */
  predicate Reached(s: System, t: nat) {
    1 <= t <= |s.waits| && s.q.finishedBarrier >= t
  }

  // ------------------------------------------------------------ invariants

  /** Every request is taken once, in the order of the requests, and finished in that order. */
  ghost predicate OrderOk(s: System) {
    && s.enqueued == s.taken + s.q.pending
    && s.taken == s.finished + (if s.receiver.Finishing? then s.receiver.left else [])
    && s.copied == s.parsed + (if s.receiver.Parsing? then 1 else 0)
  }

  ghost predicate TicketsOk(s: System) {
    && s.q.finishedBarrier <= s.q.takenBarrier <= s.q.barrier == |s.waits|
    && (!s.receiver.Finishing? ==> s.q.finishedBarrier == s.q.takenBarrier)
    && (forall t :: 0 <= t < |s.waits| ==> s.waits[t].copied <= s.copied && s.waits[t].enqueued <= |s.enqueued|)
    && (forall t :: 0 <= t < s.q.takenBarrier ==> s.waits[t].copied <= s.parsed && s.waits[t].enqueued <= |s.taken|)
    && (forall t :: 0 <= t < s.q.finishedBarrier ==> s.waits[t].enqueued <= |s.finished|)
  }

  lemma EnqueuedInOrder(taken: seq<Request>, pending: seq<Request>, more: seq<Request>)
    ensures taken + pending + more == taken + (pending + more)
  {
  }

  lemma FinishedInOrder(finished: seq<Request>, left: seq<Request>)
    requires left != []
    ensures finished + left == finished + [left[0]] + left[1..]
  {
    assert left == [left[0]] + left[1..];
  }

  lemma RequestOrder(s: System, a: Action)
    requires OrderOk(s) && (a.DoRequest? || a.DoRequestGraph?)
    ensures OrderOk(Act(s, a))
  {
    if a.DoRequest? {
      EnqueuedInOrder(s.taken, s.q.pending, [a.r]);
    } else {
      EnqueuedInOrder(s.taken, s.q.pending, Requests(s.q.graphLaunches, a.completed, a.drained, a.error));
    }
    hide Requests;
  }

  lemma TakeOrder(s: System)
    requires OrderOk(s) && s.receiver.AtBoundary?
    ensures OrderOk(Act(s, DoTake))
  {
    var t := Act(s, DoTake);
    assert t.taken + [] == t.taken && s.finished + [] == s.finished;
  }

  lemma FinishOrder(s: System)
    requires OrderOk(s) && s.receiver.Finishing? && s.receiver.left != []
    ensures OrderOk(Act(s, DoFinishOne))
  {
    FinishedInOrder(s.finished, s.receiver.left);
  }

  lemma {:induction false} OrderStep(s: System, a: Action)
    requires OrderOk(s) && Enabled(s, a)
    ensures OrderOk(Act(s, a))
  {
    if a.DoRequest? || a.DoRequestGraph? {
      RequestOrder(s, a);
    } else if a.DoTake? {
      TakeOrder(s);
    } else if a.DoFinishOne? {
      FinishOrder(s);
    } else {
      OtherOrder(s, a);
    }
    hide OrderOk, Act;
  }

  lemma OtherOrder(s: System, a: Action)
    requires OrderOk(s) && Enabled(s, a)
    requires !a.DoRequest? && !a.DoRequestGraph? && !a.DoTake? && !a.DoFinishOne?
    ensures OrderOk(Act(s, a))
  {
    assert s.finished + [] == s.finished;
  }

  lemma {:induction false} TicketsStep(s: System, a: Action)
    requires OrderOk(s) && TicketsOk(s) && Enabled(s, a)
    ensures TicketsOk(Act(s, a))
  {
  }

  lemma {:induction false} ReachableOk(actions: seq<Action>)
    ensures OrderOk(Run(actions)) && TicketsOk(Run(actions))
  {
    if actions != [] {
      var s, a := Run(actions[..|actions| - 1]), actions[|actions| - 1];
      ReachableOk(actions[..|actions| - 1]);
      if Enabled(s, a) {
        OrderStep(s, a);
        TicketsStep(s, a);
      }
    }
  }

  /** A wait that returns true: every chunk copied before the call is parsed, and every request enqueued before it is
      finished, in any interleaving. */
  lemma {:induction false} WaitMeansDone(actions: seq<Action>, t: nat)
    requires Reached(Run(actions), t)
    ensures var s := Run(actions);
            && s.waits[t - 1].copied <= s.parsed
            && s.waits[t - 1].enqueued <= |s.finished| && s.finished <= s.enqueued
  {
    ReachableOk(actions);
  }

  /** Requests come out as they went in: finished, then taken, then pending, with nothing lost or repeated. */
  lemma {:induction false} RequestsInOrder(actions: seq<Action>)
    ensures var s := Run(actions);
            && s.finished <= s.taken <= s.enqueued && s.enqueued == s.taken + s.q.pending
            && s.q.finishedBarrier <= s.q.takenBarrier <= s.q.barrier
  {
    ReachableOk(actions);
  }

  lemma {:induction false} SnocRun(actions: seq<Action>, a: Action)
    ensures var s := Run(actions); Run(actions + [a]) == if Enabled(s, a) then Act(s, a) else s
  {
    assert (actions + [a])[..|actions|] == actions;
  }

  function Repeat(a: Action, n: nat): seq<Action> {
    if n == 0 then [] else [a] + Repeat(a, n - 1)
  }

  lemma {:induction false} FinishAll(actions: seq<Action>)
    requires Run(actions).receiver.Finishing?
    ensures var s, e := Run(actions), Run(actions + Repeat(DoFinishOne, |Run(actions).receiver.left|));
            e.receiver == Finishing([]) && e.q == s.q && e.waits == s.waits
    decreases |Run(actions).receiver.left|
  {
    var s := Run(actions);
    if s.receiver.left == [] {
      assert actions + [] == actions;
    } else {
      SnocRun(actions, DoFinishOne);
      FinishAll(actions + [DoFinishOne]);
      assert actions + Repeat(DoFinishOne, |s.receiver.left|)
          == actions + [DoFinishOne] + Repeat(DoFinishOne, |s.receiver.left| - 1);
    }
  }

  /** One undisturbed boundary releases every wait begun before it. */
  lemma {:induction false} BoundaryReleasesWaiters(actions: seq<Action>, t: nat)
    requires Run(actions).receiver.AtBoundary? && 1 <= t <= |Run(actions).waits|
    ensures var boundary := [DoTake] + Repeat(DoFinishOne, |Run(actions).q.pending|) + [DoFinishedBoundary];
            Reached(Run(actions + boundary), t)
  {
    var s := Run(actions);
    ReachableOk(actions);
    SnocRun(actions, DoTake);
    FinishAll(actions + [DoTake]);
    var work := Repeat(DoFinishOne, |s.q.pending|);
    SnocRun(actions + [DoTake] + work, DoFinishedBoundary);
    assert actions + ([DoTake] + work + [DoFinishedBoundary]) == actions + [DoTake] + work + [DoFinishedBoundary];
  }

  /** A wait that begins after the receiver has taken its batch is not released by that batch. */
  lemma {:induction false} LateWaitNeedsAnotherBoundary(actions: seq<Action>)
    requires Run(actions).receiver == Finishing([])
    ensures var t := |Run(actions).waits| + 1;
            !Reached(Run(actions + [DoWait] + [DoFinishedBoundary]), t)
  {
    ReachableOk(actions);
    SnocRun(actions, DoWait);
    SnocRun(actions + [DoWait], DoFinishedBoundary);
  }
}
