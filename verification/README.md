# A verified model of CUTracer

CUTracer records what GPU kernels do and decides whether a recording may be called complete. This project models the
parts of it that make that decision, and the algorithms around them, and proves what they promise.

- **Capture evidence.** The identity ledger (`LedgerSpec`, `LedgerState`, `LedgerTrace`, `RuntimeIdentity`), the graph
  tracker (`GraphTracker`), the completion queue (`CompletionQueue`), the callback lock (`CallbackGuard`), the trace
  writer (`TraceWriterSpec`, `TraceWriterProof`, `TraceWriter`) and the plan runtime (`PlanRuntimeSpec`, `PlanSlots`,
  `PlanRuntime`, `PlanCapture`, `PlanSelection`). `EndToEnd` joins the last two: what a complete footer vouches for;
  `EndToEndRun` is one run it speaks of, and `TraceLines` an encoding of lines such as the theorems ask for.
- **Delta debugging.** The configuration mutator (`DelayConfig`), voting and linear reduction (`Reduce`), and the bisecting
  reducer (`BisectSpec`, `Bisect`).
- **Plan canonicalisation.** Texts (`PlanText`), sorting (`PlanOrder`), merging (`PlanMerge`), what a plan reads as
  (`PlanRead`), order independence (`PlanCanonical`), the fixed point (`PlanFixed`, `PlanFixedPoint`), the loops that read
  and normalise it (`PlanParse`, `PlanLoops`, `PlanNormalize`) and the tables the device searches (`PlanTables`).
- **Campaign planning.** `CampaignSpec`, `CampaignProof`, the loops (`Campaign`, `CampaignPlan`), `CampaignSampling`.
- **Sanitizer logs.** `Sanitizer` (race reports) and `SanitizerChecks` (the other checkers).

`Sequences` holds the few general facts the others share. Where the program is an object that changes in place, there
is a class with its fields and methods, and where it is a loop there is a loop. Each method is proved against a
specification: in the capture protocol it is a step of a state machine written as functions, and the theorems are about
every sequence of such steps. Failing writes, throwing sinks, packets, device counters and the
order in which threads act are arbitrary inputs.

`dafny verify dfyconfig.toml` checks everything.

## Main results

| part | results |
|---|---|
| ledger | `LedgerTrace.CleanEndIsComplete`, `LedgerState.ReachableStructure` |
| graph tracker | `GraphTracker.LaunchesConserved`, `GraphTracker.MatchedExitIsExact`, `GraphTracker.UnmatchedExitAbandonsAll` |
| completion queue | `CompletionQueue.WaitMeansDone`, `CompletionQueue.RequestsInOrder` |
| callback lock | `CallbackGuard.IdleDepth`, `CallbackGuard.IdleDepthExactly` |
| trace writer | `TraceWriterProof.RecordsConserved`, `TraceWriterProof.FooterIsExact` |
| plan runtime | `EndToEnd.CompleteFooterVouches`, `PlanSlots.ReuseAfterReturn`, `PlanCapture.ExpectedEntries`, `PlanSelection.PlanSelectionContains` |
| delta debugging | `Bisect.Bisection.ReduceBisect`, `BisectSpec.QuadraticWorstCase`, `Reduce.ReduceDelayPoints`, `Reduce.LinearMinimalExactly`, `Reduce.RunTestWithConfidence`, `Bisect.BothStrategiesAgree` |
| plans | `PlanParse.ParsePlan`, `PlanCanonical.DocumentOrRecords`, `PlanFixedPoint.CanonicalIsFixed` |
| campaigns | `CampaignPlan.PlanCampaign`, `CampaignProof.ManifestAgrees`, `CampaignProof.LookupsSucceed`, `CampaignProof.BudgetsHold` |
| sanitizer logs | `Sanitizer.PrintedFindingsComeBack`, `Sanitizer.RacecheckIgnoresChildren`, `SanitizerChecks.ChecksIgnoreChildren` |

## What came out differently than the documentation says

- The linear reducer is documented to find a minimal set, and can keep a point it no longer needs
  (`Reduce.LinearMayMissASmallerSet`). `Reduce.LinearMinimalExactly` says of which oracles the documentation is true; an
  oracle for which a needed point stays needed when another one goes, such as a monotone one, is among them
  (`Reduce.NeedStaysIsEnough`; `Reduce.NeedStaysExactly` says what that means for the runs), and for any oracle a second
  pass decides it (`Reduce.SecondPassDecides`).
- The bisecting reducer is documented with N log N tests in the worst case. The worst case is quadratic: for every even
  number N of points from 4 on some oracle takes at least 5/8 N² tests (`BisectSpec.QuadraticWorstCase`), and none takes
  more than 5N² + 5N (`Bisect.Bisection.ReduceBisect`).
- Voting is documented for odd numbers of answers. It is modelled for every number; a tie is no race, as in the code.
- The lock accounting of callbacks relies on one enter or exit in each callback. `CallbackGuard.SecondEnterLosesALock`
  shows what happens otherwise, and `CallbackGuard.IdleDepthExactly` says exactly when the accounting still works out.

## Model

| member | source | states |
|---|---|---|
| `LedgerTrace.CleanEndIsComplete` | src/runtime_identity.cpp:195-475 | For every sequence of calls and every sink, which may refuse any record: a published `process_end` without gaps is the last record, sequence numbers are 0, 1, 2, … without a hole, and every published launch has exactly one completion, later, with `kernel_completed` and `channel_drained` |
| `LedgerTrace.LaunchesAreIdentified` | src/runtime_identity.cpp:389-424 | In every reachable log the function record of a launch precedes it, and no launch is published twice |
| `LedgerTrace.ServedIsPublished` | src/runtime_identity.cpp:354-387 | Every identity the ledger would serve is in its log |
| `LedgerTrace.ReachableTrace` | src/runtime_identity.cpp:195-475 | Log and live state agree in every reachable state: while no gap is noted the log has no hole and every launch is completed cleanly or pending; pending launches are published and not completed; future launch keys are new |
| `LedgerTrace.ApplyTrace` | src/runtime_identity.cpp:230-475 | Every call keeps that agreement, whether it returns or throws |
| `LedgerTrace.LaunchTrace` | src/runtime_identity.cpp:389-424 | A launch, published or refused, keeps the agreement of log and state |
| `LedgerTrace.CompleteTrace` | src/runtime_identity.cpp:426-443 | A completion keeps the agreement of log and state, published or refused |
| `LedgerTrace.FinishTrace` | src/runtime_identity.cpp:465-475 | Closing keeps the agreement |
| `LedgerState.ReachableStructure` | src/runtime_identity.cpp:219-443 | In every reachable state, also after a throw: usable and failed functions are disjoint and name live modules of their context; modules and pending launches belong to live contexts; pending and retired ids are disjoint; the retired ids are exactly the last K retirements in order; all budgets hold |
| `LedgerState.ApplyKeeps` | src/runtime_identity.cpp:230-475 | Every call keeps that structure |
| `LedgerState.RetireKeeps` | src/runtime_identity.cpp:219-228 | Retiring a new id leaves exactly the last K retirements, in order |
| `LedgerState.WindowSize` | src/runtime_identity.cpp:219-228 | Set and queue have one size, within the limit |
| `LedgerState.DrainKeeps` | src/runtime_identity.cpp:248-256 | The drain removes exactly the pending launches of the context and keeps the window exact |
| `LedgerState.FunctionLockedKeeps` | src/runtime_identity.cpp:354-387 | Binding a function keeps the structure, also when its record is refused |
| `LedgerState.CaptureInKeeps` | src/runtime_identity.cpp:329-351 | Capturing in a known module keeps the structure, also when the callback throws |
| `LedgerState.CaptureFunctionKeeps` | src/runtime_identity.cpp:321-352 | Capturing a function keeps the structure |
| `LedgerState.LaunchKeeps` | src/runtime_identity.cpp:389-424 | Launching keeps the structure, also when its record is refused |
| `LedgerState.CompleteKeeps` | src/runtime_identity.cpp:426-443 | Completing keeps the structure |
| `LedgerState.ContextEndKeeps` | src/runtime_identity.cpp:243-269 | Ending a context keeps the structure, also when a record in the middle is refused |
| `RuntimeIdentity.RuntimeIdentityLedger.Publish` | src/runtime_identity.cpp:195-209 | One record: published, or refused with a gap and a used sequence number; nothing once closed |
| `RuntimeIdentity.RuntimeIdentityLedger.RetireLaunchId` | src/runtime_identity.cpp:219-228 | The id window moves as the step `Retire` of LedgerSpec, the one RetireKeeps is about |
| `RuntimeIdentity.RuntimeIdentityLedger.BeginContextLifetime` | src/runtime_identity.cpp:230-241 | The whole new state of a context begin; the key is the next ordinal with its handle |
| `RuntimeIdentity.RuntimeIdentityLedger.RetireContext` | src/runtime_identity.cpp:248-256 | The loop retires and reports the pending launches of one context, in ascending order |
| `RuntimeIdentity.RuntimeIdentityLedger.PublishAll` | src/runtime_identity.cpp:265-268 | Records in order, stopping at the first one refused |
| `RuntimeIdentity.RuntimeIdentityLedger.EndContextLifetime` | src/runtime_identity.cpp:243-269 | The whole new state of a context end, whichever record is refused |
| `RuntimeIdentity.RuntimeIdentityLedger.FindModule` | src/runtime_identity.cpp:271-291 | Finds the live module or begins one; a second observed load throws |
| `RuntimeIdentity.RuntimeIdentityLedger.UnloadModule` | src/runtime_identity.cpp:298-314 | The whole new state of an unload; one without a begin is a gap |
| `RuntimeIdentity.RuntimeIdentityLedger.IdentifyFunction` | src/runtime_identity.cpp:354-387 | The whole new state and the identity served, or that it throws |
| `RuntimeIdentity.RuntimeIdentityLedger.IdentifyCaptured` | src/runtime_identity.cpp:321-352 | The same through a callback, whose failure marks the function |
| `RuntimeIdentity.RuntimeIdentityLedger.TakeOrdinal` | src/runtime_identity.cpp:405-414 | The kernel ordinal counts per context, binary and entry |
| `RuntimeIdentity.RuntimeIdentityLedger.BeginLaunch` | src/runtime_identity.cpp:389-424 | The whole new state of a launch; a refused record retires the id |
| `RuntimeIdentity.RuntimeIdentityLedger.CompleteLaunch` | src/runtime_identity.cpp:426-443 | The whole new state of a completion; a refused record changes only the gap and the sequence number |
| `RuntimeIdentity.RuntimeIdentityLedger.Plan` | src/runtime_identity.cpp:451-463 | Only known plan events; the two bad ones note a gap |
| `RuntimeIdentity.RuntimeIdentityLedger.End` | src/runtime_identity.cpp:465-475 | Closes once, and only when `process_end` is published |
| `RuntimeIdentity.EraseContext` | src/runtime_identity.cpp:257-260 | The walk over a map erases exactly the entries of one context |
| `RuntimeIdentity.EraseFunctions` | src/runtime_identity.cpp:310-311 | The walk erases exactly the functions of one module of one context |
| `RuntimeIdentity.EraseFailed` | src/runtime_identity.cpp:312 | The walk erases exactly the failures of one module of one context |
| `GraphTracker.LaunchesConserved` | src/runtime_identity.cpp:83-145 | Over any calls: the launches attached in a context are, counted with multiplicity, those given back for it plus those still attached; nothing crosses contexts |
| `GraphTracker.MatchedExitIsExact` | src/runtime_identity.cpp:119-133 | A matched exit returns exactly the launches ever attached to its begin, in order, and that begin had the same context, stream and API |
| `GraphTracker.UnmatchedExitAbandonsAll` | src/runtime_identity.cpp:134-139 | An unmatched exit returns everything its context holds, leaves no frame there, and touches no other context |
| `GraphTracker.ReachableDepth` | src/runtime_identity.cpp:88-93 | Every stack is nonempty and at most 64 deep, with strictly increasing ordinals below the counter |
| `GraphTracker.StructureKeeps` | src/runtime_identity.cpp:83-145 | Every call keeps depth, ordinal order, launch and context limits |
| `GraphTracker.ConservedStep` | src/runtime_identity.cpp:83-145 | Every call keeps attached = returned + outstanding |
| `GraphTracker.OwnershipStep` | src/runtime_identity.cpp:83-145 | Every call keeps each frame holding exactly the launches attached to its ordinal |
| `GraphTracker.ReachableInv` | src/runtime_identity.cpp:83-145 | All of these hold after any calls |
| `GraphTracker.RuntimeGraphTracker.BeginGraph` | src/runtime_identity.cpp:83-95 | Throws exactly for context 0, a 1025th context or a 65th frame; else pushes one frame with the next ordinal |
| `GraphTracker.RuntimeGraphTracker.AttachLaunch` | src/runtime_identity.cpp:106-117 | Appends to the top frame if and only if ordinal, stream and budget allow; else changes nothing |
| `GraphTracker.RuntimeGraphTracker.Take` | src/runtime_identity.cpp:119-140 | The three exits: nothing open, matched, unmatched, with the whole new state of each |
| `CompletionQueue.WaitMeansDone` | include/capture_completion.h:53-68 | In any interleaving of requesters, graph requesters, waiters and the receiver: when a wait has its ticket, every chunk copied before it began is parsed and every request enqueued before it is finished |
| `CompletionQueue.RequestsInOrder` | include/capture_completion.h:25-60 | Finished requests are a prefix of the taken ones, those of the enqueued ones, and nothing is lost or repeated; finished ≤ taken ≤ barrier |
| `CompletionQueue.BoundaryReleasesWaiters` | include/capture_completion.h:45-68 | One undisturbed boundary of the receiver releases every wait begun before it |
| `CompletionQueue.LateWaitNeedsAnotherBoundary` | include/capture_completion.h:45-68 | A wait begun after the receiver took its batch is not released by that batch |
| `CompletionQueue.OrderStep` | src/analysis.cu:860-893 | Every action of any thread keeps the order of requests and barriers |
| `CompletionQueue.TicketsStep` | include/capture_completion.h:64-68 | Every action keeps what each ticket stands for: chunks and requests before it |
| `CompletionQueue.ReachableOk` | src/analysis.cu:860-942 | Both hold after any interleaving |
| `CompletionQueue.CaptureCompletionQueue.RequestGraphCompletion` | include/capture_completion.h:35-41 | The loop takes the queue to the state after one request for each registered launch, in order, with an empty register |
| `CompletionQueue.CaptureCompletionQueue.TakeAtChunkBoundary` | include/capture_completion.h:45-51 | Hands the receiver exactly the batch that the interleaving gives it, and takes the queue to the state after that action |
| `CompletionQueue.CaptureCompletionQueue.StartWait` | include/capture_completion.h:64-66 | The ticket is the number of this wait among all waits of the interleaving |
| `CompletionQueue.CaptureCompletionQueue.WaitIsOver` | include/capture_completion.h:67 | True if and only if the wait is reached, and then every chunk copied before it began is parsed and every request enqueued before it is finished |
| `CallbackGuard.IdleDepth` | include/cuda_callback_guard.h:63-100 | For any nesting with at most one enter or exit in each callback: with no callback live, the lock is held once for each pending entry that retained it |
| `CallbackGuard.IdleDepthExactly` | include/cuda_callback_guard.h:63-100 | Without that discipline this is true if and only if as many retains as releases were overwritten |
| `CallbackGuard.SecondEnterLosesALock` | include/cuda_callback_guard.h:82-85 | Two retained enters in one callback leave one acquisition short |
| `CallbackGuard.DepthIsAccounted` | include/cuda_callback_guard.h:63-100 | At every moment: depth + overwritten retains = what live callbacks will release + retained entries + overwritten releases |
| `CallbackGuard.NothingLost` | include/cuda_callback_guard.h:82-100 | With at most one enter or exit in each callback no flag is overwritten |
| `CallbackGuard.CloseNeverUnderflows` | include/cuda_callback_guard.h:68-75 | A callback that ends never unlocks more than its thread holds |
| `CallbackGuard.UnmatchedExitReleasesNothing` | include/cuda_callback_guard.h:68-94 | A callback whose exit matches no entry leaves the thread, at its close, exactly as it found it |
| `CallbackGuard.ExitReleasesItsOwnEntry` | include/cuda_callback_guard.h:68-99 | A callback whose exit matches, in order or not, removes only the most recent entry of its context and API, and at its close releases exactly what that entry retained |
| `CallbackGuard.ExitUndoesEnter` | include/cuda_callback_guard.h:63-100 | A launch and its return leave the thread as it was, whether or not the lock was kept across the driver call |
| `CallbackGuard.StepBalanced` | include/cuda_callback_guard.h:63-100 | Every step keeps the accounting |
| `CallbackGuard.LastMatch` | include/cuda_callback_guard.h:88-94 | The reverse search finds the last matching entry if and only if there is one |
| `CallbackGuard.ScopedCudaLaunchCallback.constructor` | include/cuda_callback_guard.h:63-66 | The new innermost callback of the thread, as the state machine opens it |
| `CallbackGuard.ScopedCudaLaunchCallback.Enter` | include/cuda_callback_guard.h:82-85 | The state machine's step of an enter, on the objects themselves |
| `CallbackGuard.ScopedCudaLaunchCallback.TakePendingLaunch` | include/cuda_callback_guard.h:87-100 | The reverse search is the state machine's step of an exit; it returns the entry and whether it was on top |
| `CallbackGuard.ScopedCudaLaunchCallback.Close` | include/cuda_callback_guard.h:68-75 | The destructor leaves the lock depth of the state machine's close |
| `TraceWriterProof.RecordsConserved` | src/trace_writer.cpp:139-351 | After any calls, with short, interrupted or failing writes, in every mode: records offered before the end, encoded records offered at any time and drops reported from outside are, in number, written + dropped + buffered |
| `TraceWriterProof.FooterIsExact` | src/trace_writer.cpp:225-267 | A footer in an uncompressed file is its last line, before it stand exactly the accepted lines in order, and `complete` means nothing dropped, no error and never disabled before the end |
| `TraceWriterProof.FileHoldsAcceptedLines` | src/trace_writer.cpp:288-351 | The whole lines of an uncompressed file are always the first accepted lines in order, and all of them when the buffer is empty and the writer enabled |
| `TraceWriterProof.ReachableOk` | src/trace_writer.cpp:139-351 | The invariant of counters, buffer and file holds after any calls |
| `TraceWriterProof.StepOk` | src/trace_writer.cpp:139-267 | Every call keeps it |
| `TraceWriterProof.FlushOk` | src/trace_writer.cpp:195-208 | A flush, whatever part of it is written, keeps it; one that leaves the writer enabled empties the buffer |
| `TraceWriterProof.FinishOk` | src/trace_writer.cpp:225-267 | Finishing keeps it, also when the footer is torn |
| `TraceWriter.TraceWriter.WriteData` | src/trace_writer.cpp:288-324 | Appends all of the data, or a proper part and the writer is disabled |
| `TraceWriter.TraceWriter.FinishBuffer` | src/trace_writer.cpp:339-351 | Buffered records become written or dropped, and the buffer is empty |
| `TraceWriter.TraceWriter.FlushBuffer` | src/trace_writer.cpp:195-208 | The whole new state of a flush in any mode |
| `TraceWriter.TraceWriter.PutMetadata` | src/trace_writer.cpp:139-150 | One more line that is no record, only while open and enabled |
| `TraceWriter.TraceWriter.BufferLine` | src/trace_writer.cpp:489-501 | One more buffered record, flushed at the threshold |
| `TraceWriter.TraceWriter.PutEncodedRecord` | src/trace_writer.cpp:152-166 | Accepted or counted as dropped; the answer says which |
| `TraceWriter.TraceWriter.PutTrace` | src/trace_writer.cpp:168-193 | The whole new state of a record in any mode, also a refused one |
| `TraceWriter.TraceWriter.DisableTrace` | src/trace_writer.cpp:210-215 | Flushes, then takes no more |
| `TraceWriter.TraceWriter.Close` | src/trace_writer.cpp:225-250 | Everything of the end up to the footer, whichever write fails |
| `TraceWriter.TraceWriter.FinishTrace` | src/trace_writer.cpp:225-267 | The whole new state of the end, with its footer; a second end changes nothing |
| `EndToEnd.CompleteFooterVouches` | src/plan_runtime.cpp:802-914 | One launch with one writer, in any order of packets, completions, disabling, other trace records and failing writes: if `finish_trace` came before the writer was finished and the file holds a `complete` footer, then the file holds exactly one report, of this launch and exactly the configurations it began with; each selected one has attempted = emitted = received = written, nothing dropped and exactly the expected warps entered; and the file holds exactly that many of its records, with distinct sequences below `max_records`, and no record of another launch |
| `EndToEndRun.CompleteRun` | src/analysis.cu:860-894 | In every uncompressed mode and for every threshold and encoding, a run of one packet, sent, completed, drained, ended and finished, meets all of that: the theorem is not about nothing |
| `EndToEnd.RunReport` | src/plan_runtime.cpp:859-916 | Whatever else happens, the report that is written is that of the launch as it began, and an error-free writer has exactly one once the launch is ended |
| `EndToEnd.StepReport` | src/plan_runtime.cpp:722-916 | Every step keeps that |
| `EndToEnd.AcceptedLaunchBegins` | src/plan_runtime.cpp:627-720 | Every accepted launch with a new writer satisfies what that theorem starts from, with exactly the configurations of its kernel, selected and counted for its geometry |
| `EndToEnd.StepInv` | src/plan_runtime.cpp:722-916 | Every step keeps that an error-free writer and the launch agree on the records |
| `EndToEnd.ReceiveInv` | src/plan_runtime.cpp:751-857 | A packet, accepted, refused or thrown out, keeps it |
| `EndToEnd.AcceptedCounted` | src/plan_runtime.cpp:802-856 | An accepted packet adds exactly one record with a new sequence to its configuration |
| `EndToEnd.ReportTold` | src/plan_runtime.cpp:868-914 | A complete report is true of the lines written so far |
| `EndToEnd.EndInv` | src/plan_runtime.cpp:859-916 | Ending the launch keeps it, also when the event cannot be published |
| `EndToEnd.FinishInv` | src/trace_writer.cpp:225-267 | Finishing the writer keeps it |
| `EndToEnd.FooterLast` | src/trace_writer.cpp:252-267 | The footer is the last line and closes the accepted ones |
| `PlanSlots.SlotsAreExclusive` | src/plan_runtime.cpp:680-713 | In every reachable state live launches own distinct occupied slots whose control blocks name them |
| `PlanSlots.ReuseAfterReturn` | src/plan_runtime.cpp:680-749 | A control block is overwritten only after every earlier launch in it was reported completed and drained |
| `PlanSlots.UnreturnedSlotsStay` | src/plan_runtime.cpp:711-749 | A failed or uncertain launch, or a refused duplicate, keeps its slot |
| `PlanSlots.LaunchOwners` | src/plan_runtime.cpp:680-713 | Placing a launch keeps slot ownership, also when the id is a duplicate |
| `PlanSlots.CompleteOwners` | src/plan_runtime.cpp:722-749 | A completion gives back exactly the slot of its own launch, or none |
| `PlanSlots.StepOk` | src/plan_runtime.cpp:389-916 | Every call keeps slot ownership |
| `PlanRuntimeSpec.ReceivedIsExpected` | src/plan_runtime.cpp:773-801 | Every packet counted as received comes from a (CTA, warp) pair that `expected_entries` counts for its launch |
| `PlanRuntimeSpec.BindsExpected` | src/plan_runtime.cpp:773-801 | The mask and geometry checks imply that the pair lies in the selection with a selected active lane |
| `PlanRuntime.PlanRuntime.BeginPlanLaunch` | src/plan_runtime.cpp:627-720 | The whole new state of a launch, also when it throws late |
| `PlanRuntime.PlanRuntime.PlaceLaunch` | src/plan_runtime.cpp:680-713 | The first free slot is taken and its control block overwritten before the duplicate check |
| `PlanRuntime.PlanRuntime.CompleteOnDevice` | src/plan_runtime.cpp:722-749 | Counters are copied and the slot given back exactly for completed and drained |
| `PlanRuntime.PlanRuntime.DisableAll` | src/plan_runtime.cpp:389-403 | Every launch without an error gets this one; slots stay |
| `PlanRuntime.PlanRuntime.ConsumePacket` | src/plan_runtime.cpp:751-857 | The whole new state of runtime and writer for a packet, check by check, with the mark the receiver leaves when the geometry is thrown out |
| `PlanRuntime.PlanRuntime.Verify` | src/plan_runtime.cpp:762-850 | The verdict on a packet in the order of the checks, and the size of its record |
| `PlanRuntime.PlanRuntime.EndTrace` | src/plan_runtime.cpp:859-916 | The whole new state of runtime and writer when a launch ends |
| `PlanRuntime.FindFree` | src/plan_runtime.cpp:683-686 | The first free slot, or the length when there is none |
| `PlanRuntime.CountOne` | src/plan_runtime.cpp:651-664 | The counts a configuration starts with, or the geometry overflow |
| `PlanRuntime.CountAll` | src/plan_runtime.cpp:651-679 | One entry for each configuration of the kernel; fails exactly when one of them does |
| `PlanRuntime.CopyAll` | src/plan_runtime.cpp:741-743 | Every configuration gets its own device counters |
| `PlanRuntime.FillAll` | src/plan_runtime.cpp:396-400 | Only empty errors are filled |
| `PlanRuntime.ReportAll` | src/plan_runtime.cpp:868-911 | The report of every configuration; complete if and only if none is incomplete and the launch ended well |
| `PlanRuntime.FindBadPredicate` | src/plan_runtime.cpp:810-823 | True if and only if a valid lane of a sent predicate word exceeds 1 |
| `PlanCapture.ExpectedEntries` | src/plan_runtime.cpp:102-130 | The number of (CTA, warp) pairs inside geometry and selection that have a selected active lane; overflow and more than 1024 threads are errors |
| `PlanCapture.CountCtas` | src/plan_runtime.cpp:109-117 | The number of selected CTAs inside the grid |
| `PlanCapture.CountWarps` | src/plan_runtime.cpp:118-128 | The number of selected warps with a selected active lane |
| `PlanCapture.FrontDecides` | src/plan_runtime.cpp:124-127 | The lowest selected lane decides whether any selected lane is active |
| `PlanCapture.CheckedProduct` | src/plan_runtime.cpp:95-100 | The product if and only if it fits 64 bits |
| `PlanSelection.PlanSelectionContains` | include/plan_selection.h:18-40 | On a sorted table the search answers exactly membership; an empty table selects everything |
| `PlanSelection.Compare` | include/plan_selection.h:26-33 | The first differing axis decides the order of row and key; no such axis means equal |
| `Bisect.Bisection.ReduceBisect` | python/cutracer/reduce/reduce.py:820-960 | For a deterministic oracle: fails exactly without enabled points or when the start does not trigger; else the result is an ordered part of the enabled points, triggers, is a single point or cannot lose any point, nothing else in the configuration moves, and the subsets tried are as many as `BisectSpec.Search` says, at most 5N² + 5N |
| `BisectSpec.QuadraticWorstCase` | python/cutracer/reduce/reduce.py:820-941 | For every even number N ≥ 4 of points there is an oracle that makes the search try at least 5/8 N² subsets, more than the documented N log N |
| `BisectSpec.CombIsSlow` | python/cutracer/reduce/reduce.py:863-941 | Where only the topmost of the even points can go, each of them takes a test of every chunk and of every point before it, at any granularity |
| `Bisect.Bisection.Ddmin` | python/cutracer/reduce/reduce.py:863-941 | Terminates on (points, points − granularity); the result is a triggering sublist, single or 1-minimal, and result and number of tests are those of `BisectSpec.Search`, within the bound |
| `Bisect.Bisection.Round` | python/cutracer/reduce/reduce.py:874-941 | One granularity: a strictly smaller triggering sublist, or nothing, and at full granularity then every one-point removal fails; exactly the tests up to the first chunk or complement that triggers, at most 2·min(size, 2n−1), and the granularity that comes next |
| `Bisect.Bisection.FirstChunk` | python/cutracer/reduce/reduce.py:887-903 | The first chunk that triggers, after that many tests |
| `Bisect.Bisection.FirstComplement` | python/cutracer/reduce/reduce.py:906-932 | The first complement that triggers; without one, no complement does |
| `Bisect.Bisection.TestSubset` | python/cutracer/reduce/reduce.py:800-817 | One more test, answered for exactly these points |
| `Bisect.SplitIntoChunks` | python/cutracer/reduce/reduce.py:874-879 | The chunks cover the points in order, each of the chunk size except a shorter last one |
| `Bisect.Complement` | python/cutracer/reduce/reduce.py:908-911 | All points outside one chunk, in order |
| `Bisect.ChunkCount` | python/cutracer/reduce/reduce.py:874-879 | Floor division makes at least n and at most min(size, 2n−1) chunks |
| `Bisect.AllLevelsQuadratic` | python/cutracer/reduce/reduce.py:863-941 | The levels add up to 5N² + 5N |
| `Bisect.SinglesAreMinimal` | python/cutracer/reduce/reduce.py:905-941 | At full granularity failing complements mean 1-minimality |
| `Bisect.BothStrategiesAgree` | python/cutracer/reduce/reduce.py:662-960 | For an oracle "contains the nonempty set M" both strategies return exactly M |
| `Reduce.ReduceDelayPoints` | python/cutracer/reduce/reduce.py:662-737 | For a deterministic oracle the final configuration has exactly the essential points on, in the order of the file, nothing else moves, it triggers, it is 1-minimal for every oracle without a revival, and every enabled point is tried once |
| `Reduce.LinearMinimalExactly` | python/cutracer/reduce/reduce.py:662-721 | The result is 1-minimal for every triggering set of points in every order if and only if the oracle has no revival: no chain of triggering sets, each one point smaller, on which every point of the last set was needed, although one of them can now go |
| `Reduce.LinearOneMinimal` | python/cutracer/reduce/reduce.py:693-721 | 1-minimality for an oracle without a revival |
| `Reduce.NeedStaysIsEnough` | python/cutracer/reduce/reduce.py:693-721 | There is no revival when a needed point stays needed whenever another one goes |
| `Reduce.NeedStaysExactly` | python/cutracer/reduce/reduce.py:693-716 | That local condition holds if and only if, in every run from every triggering list, each point kept so far is needed by what is on after every later test |
| `Reduce.MonotoneNeedStays` | python/cutracer/reduce/reduce.py:693-721 | Monotone oracles are like that |
| `Reduce.OneStepRevival` | python/cutracer/reduce/reduce.py:693-721 | A point that stops being needed when another one goes is already a revival if every other point is needed |
| `Reduce.SecondPassDecides` | python/cutracer/reduce/reduce.py:689-716 | A second pass keeps everything if and only if the first result is 1-minimal |
| `Reduce.KeptChain` | python/cutracer/reduce/reduce.py:693-716 | The sets the loop goes through are such a chain, on which every kept point was needed |
| `Reduce.ChainOrder` | python/cutracer/reduce/reduce.py:693-716 | Every such chain is what the loop goes through for some order of the points |
| `Reduce.LinearMayMissASmallerSet` | python/cutracer/reduce/reduce.py:662-683 | A concrete oracle for which the result is not minimal |
| `Reduce.LinearResult` | python/cutracer/reduce/reduce.py:693-721 | The kept points trigger, are a sublist of the given ones, and are 1-minimal without a revival |
| `Reduce.LinearKeptIsSublist` | python/cutracer/reduce/reduce.py:689-708 | Kept points stay in order |
| `Reduce.FixedCauseIsFound` | python/cutracer/reduce/reduce.py:662-960 | A 1-minimal triggering set of an oracle "contains M" is M |
| `Reduce.RunTestWithConfidence` | python/cutracer/reduce/reduce.py:740-771 | The vote is the strict majority of all k answers for every k, and it stops only when no continuation can change it |
| `Reduce.VoteDecided` | python/cutracer/reduce/reduce.py:763-769 | At the threshold every continuation has the same majority |
| `Reduce.Ask` | python/cutracer/reduce/reduce.py:740-771 | For a deterministic oracle the vote is its answer |
| `Reduce.MakeConfigWithPoints` | python/cutracer/reduce/reduce.py:774-797 | A fresh copy with exactly the given points on |
| `Reduce.FindPointInMutator` | python/cutracer/reduce/reduce.py:580-587 | The enabled point with this key, if and only if there is one |
| `Reduce.TestPointEssentiality` | python/cutracer/reduce/reduce.py:590-619 | Essential if and only if the oracle fails without the point; the original stays as it is |
| `Reduce.TestPoint` | python/cutracer/reduce/reduce.py:693-716 | Keeps an essential point, switches off any other |
| `Reduce.TestAllPoints` | python/cutracer/reduce/reduce.py:693-721 | The loop keeps exactly what the linear strategy keeps |
| `Reduce.ValidateInitialConfig` | python/cutracer/reduce/reduce.py:622-659 | The two failures, and otherwise the enabled points |
| `DelayConfig.DelayConfigMutator.ParseDelayPoints` | python/cutracer/reduce/config_mutator.py:76-94 | One fresh point object for each entry, in order |
| `DelayConfig.DelayConfigMutator.EnabledPoints` | python/cutracer/reduce/config_mutator.py:101-103 | Exactly the enabled points, in order, none twice |
| `DelayConfig.DelayConfigMutator.SetPointEnabled` | python/cutracer/reduce/config_mutator.py:105-116 | The object and the configuration change together; nothing else moves |
| `DelayConfig.DelayConfigMutator.SetAllEnabled` | python/cutracer/reduce/config_mutator.py:118-121 | All entries on, or all off, in both copies |
| `DelayConfig.DelayConfigMutator.EnableMatching` | python/cutracer/reduce/reduce.py:793-795 | The matching entries go on, in both copies |
| `DelayConfig.DelayConfigMutator.Clone` | python/cutracer/reduce/config_mutator.py:142-149 | Same configuration, fresh objects |
| `PlanParse.ParsePlan` | src/instrumentation_plan.cpp:618-677 | The loop over the records, with its header checks, both running counts and normalisation, computes `Parse`: the plan as a function of the records, or failure |
| `PlanCanonical.OrderDoesNotMatter` | src/instrumentation_plan.cpp:304-536 | Permuting kernels, configurations, points, observations, registers and selections at every level gives the same kernels, or failure both times: of the function that `PlanParse.ParsePlan` computes one item after the other |
| `PlanCanonical.DocumentOrRecords` | src/instrumentation_plan.cpp:618-672 | The same kernels in one document or as NDJSON records, in any order, give the same canonical plan, or failure in each case |
| `PlanParse.NextKernels` | src/instrumentation_plan.cpp:658-664 | The kernels of one document one after the other: all read and within the limits, or no plan comes from kernels that begin with these |
| `PlanParse.ParseKernel` | src/instrumentation_plan.cpp:404-438 | The loop over configurations with both running counts reads the kernel, or fails exactly when the kernel or a limit does |
| `PlanParse.ParseConfig` | src/instrumentation_plan.cpp:334-402 | The fields and the loop over points read the configuration, or fail exactly when it or the point limit does |
| `PlanParse.ParsePoints` | src/instrumentation_plan.cpp:382-400 | Each point is counted, read and merged with what is there for its place; the result is the merged points of the set, and it fails exactly when one is unreadable, two conflict, or there are too many |
| `PlanParse.ParsePoint` | src/instrumentation_plan.cpp:304-332 | The fields and the loop over observations read the point; what is read is merged as later merges need it |
| `PlanParse.ParseObservation` | src/instrumentation_plan.cpp:204-247 | Reads each kind; register lists are sorted by name, each once |
| `PlanParse.ReadIsOk` | src/instrumentation_plan.cpp:204-247 | Every observation that is read meets what merging relies on |
| `PlanParse.ReadAll` | src/instrumentation_plan.cpp:86-104 | An array: nonempty, bounded, every item readable and none twice, sorted; or failure |
| `PlanParse.UniqueSort` | src/instrumentation_plan.cpp:78-84 | Sorts, and fails if and only if a value is there twice |
| `PlanCanonical.RecordsOf` | src/instrumentation_plan.cpp:633-665 | A document and its records read as one header and the same kernels |
| `PlanCanonical.KernelSame` | src/instrumentation_plan.cpp:404-438 | A permuted kernel reads the same, with the same counts towards the limits |
| `PlanCanonical.ConfigSame` | src/instrumentation_plan.cpp:334-402 | A permuted configuration reads the same |
| `PlanCanonical.PointSame` | src/instrumentation_plan.cpp:304-332 | A permuted point reads the same |
| `PlanCanonical.ObservationSame` | src/instrumentation_plan.cpp:204-247 | Permuted registers read the same |
| `PlanCanonical.GroupsInjective` | src/instrumentation_plan.cpp:501-535 | No two normalised kernels share binary, entry and target |
| `PlanFixedPoint.CanonicalIsFixed` | src/instrumentation_plan.cpp:501-672 | Any accepted plan, written out as one document and read again, is the same plan |
| `PlanFixedPoint.KernelsAreFixed` | src/instrumentation_plan.cpp:595-606 | Canonical kernels, written and read, normalise to themselves and stay within every limit |
| `PlanFixedPoint.NormalizedAgain` | src/instrumentation_plan.cpp:501-536 | Normalising twice is normalising once |
| `PlanFixedPoint.CountsStay` | src/instrumentation_plan.cpp:384-387 | Configurations and points of the canonical plan are no more than were read |
| `PlanFixed.ConfigRoundTrip` | src/instrumentation_plan.cpp:565-593 | A configuration that was read survives being written and read |
| `PlanFixed.PointRoundTrip` | src/instrumentation_plan.cpp:552-563 | So does a point |
| `PlanFixed.ObservationRoundTrip` | src/instrumentation_plan.cpp:177-247 | So does an observation |
| `PlanFixed.PointsRoundTrip` | src/instrumentation_plan.cpp:382-400 | The merged points, written and read, merge to themselves |
| `PlanFixed.SettledPoints` | src/instrumentation_plan.cpp:382-400 | Canonical points at different places merge to themselves |
| `PlanMerge.MergeObservations` | src/instrumentation_plan.cpp:251-302 | The loops compute the merge of what was there and what comes in as a function of the sets alone, or fail exactly when it does not exist |
| `PlanMerge.MergeAssociative` | src/instrumentation_plan.cpp:251-302 | Merging in two steps is merging at once, failure included; so order and repetition do not matter |
| `PlanMerge.MergeIsFixed` | src/instrumentation_plan.cpp:251-302 | Merging a merged list changes nothing |
| `PlanMerge.FailureStays` | src/instrumentation_plan.cpp:265-289 | A failed merge stays failed whatever else comes in |
| `PlanMerge.EncodeDistinct` | src/instrumentation_plan.cpp:177-202 | Different observations have different texts, so the sort has no ties |
| `PlanMerge.MergeOne` | src/instrumentation_plan.cpp:262-289 | One candidate: the list of the larger set, or its merge fails |
| `PlanMerge.MergeRegisters` | src/instrumentation_plan.cpp:272-286 | Two register lists become their sorted union, or exceed the limit |
| `PlanMerge.FindPositions` | src/instrumentation_plan.cpp:258-261 | Every observation is found at its position by its key |
| `PlanOrder.SortedUnique` | src/instrumentation_plan.cpp:291-301 | Two sorted lists of the same things are equal |
| `PlanOrder.Arrange` | src/instrumentation_plan.cpp:291-301 | Selecting the least again and again gives the one sorted list |
| `PlanRead.MergedInjective` | src/instrumentation_plan.cpp:383-400 | After merging there is one point at each place |
| `PlanLoops.MergePoint` | src/instrumentation_plan.cpp:388-396 | One point: the map of the larger set, or a conflict in it |
| `PlanNormalize.NormalizeKernels` | src/instrumentation_plan.cpp:501-536 | The loops compute the canonical kernels of the set of kernels, or fail exactly when bytes or ids conflict |
| `PlanNormalize.GroupAll` | src/instrumentation_plan.cpp:507-519 | Groups by kernel; fails if and only if two instructions disagree on their bytes |
| `PlanNormalize.NoteBytes` | src/instrumentation_plan.cpp:511-516 | The byte map agrees with all points seen, or two of them conflict |
| `PlanNormalize.NoteConfigs` | src/instrumentation_plan.cpp:510-518 | The same over the configurations of one kernel |
| `PlanNormalize.SettleConfigs` | src/instrumentation_plan.cpp:522-532 | One configuration for each id, sorted; fails if and only if one id names two |
| `PlanText.PcRoundTrip` | src/instrumentation_plan.cpp:111-128 | Every 64-bit PC survives being written and read |
| `PlanText.RegisterRoundTrip` | src/instrumentation_plan.cpp:130-157 | Every register survives being written and read |
| `PlanText.NamesDistinct` | src/instrumentation_plan.cpp:540-546 | Different registers have different names |
| `PlanTables.CanonicalCtaTable` | src/plan_runtime.cpp:430-436 | The flattened CTA table of every configuration that was read holds its CTAs row by row, sorted, as the device search needs |
| `PlanTables.CanonicalWarpTable` | src/plan_runtime.cpp:437-441 | The copied warp list of every configuration that was read is such a table, one warp in each row |
| `PlanTables.SortedTable` | include/plan_selection.h:12-25 | Any list sorted by keys of one width flattens to a searchable table with those rows |
| `PlanTables.CanonicalCapture` | src/instrumentation_plan.cpp:353-377 | Every configuration that was read meets what the count of expected warps relies on |
| `CampaignPlan.PlanCampaign` | python/cutracer/service/campaign_manifest.py:371-419 | The gates one after the other, their dictionaries, the audit and the sessions are exactly the plan the results below are about, or a refusal when one of the gates refuses |
| `CampaignProof.ManifestAgrees` | python/cutracer/service/campaign_manifest.py:226-419 | Every target × tool pair has exactly one item, in order, and it is `ADMITTED` if and only if a planned session of that target runs that tool |
| `CampaignPlan.SessionsAreAudited` | python/cutracer/service/campaign_manifest.py:273-333 | Whatever tool a session runs is one of the planned ones, its target is one of the targets, and the item of that pair is `ADMITTED` |
| `CampaignPlan.ShardsOf` | python/cutracer/service/campaign_manifest.py:396-399 | Every unit gets -1, and then exactly the sampled ones their own shard |
| `CampaignPlan.ExecutionTable` | python/cutracer/service/campaign_manifest.py:290-292 | The dictionary says of each due target whether it was admitted to run |
| `CampaignPlan.ResourceTable` | python/cutracer/service/campaign_manifest.py:293-295 | The dictionary says of each running target whether its resources were admitted |
| `CampaignPlan.SelectHere` | python/cutracer/service/campaign_manifest.py:181-213 | The targets sampled into this shard, sorted by unit |
| `CampaignProof.LookupsSucceed` | python/cutracer/service/campaign_manifest.py:226-270 | No dictionary lookup ever misses, and the fallback for a pair without a cadence decision is never taken |
| `CampaignProof.OutcomeIsVerdict` | python/cutracer/service/campaign_manifest.py:226-270 | The outcome looked up in the tables is the verdict of the gates themselves |
| `CampaignProof.BudgetsHold` | python/cutracer/service/campaign_manifest.py:336-368 | Both budgets hold at the end, and no deferred target would fit the final usage |
| `CampaignProof.RunBudgetHolds` | python/cutracer/service/campaign.py:284-324 | Usage is exactly that of the admitted targets and within the caps |
| `CampaignProof.ResourceBudgetHolds` | python/cutracer/service/campaign_budget.py:162-213 | From any initial usage: final usage is exactly that plus the admitted estimates, within all caps once anything is admitted |
| `CampaignProof.DeferredDoNotFit` | python/cutracer/service/campaign.py:284-324 | Greedy admission is maximal: what was deferred does not fit the final usage |
| `CampaignProof.SessionTools` | python/cutracer/service/campaign_manifest.py:316-333 | The session of an admitted target runs exactly the tools with the verdict `admitted` |
| `CampaignProof.SessionsAreValid` | python/cutracer/service/campaign_manifest.py:117-158 | The constructor checks cannot fail: sessions are nonempty, without repeated tools, one for each unit |
| `CampaignProof.ItemsCover` | python/cutracer/service/campaign_manifest.py:296-313 | The nested loops visit every target with every tool once |
| `CampaignProof.GatesAreOk` | python/cutracer/service/campaign_manifest.py:380-395 | The targets of each gate come from the gate before, each unit once |
| `CampaignSampling.SampleSize` | python/cutracer/service/campaign.py:202-263 | Sampling keeps exactly the limit of selectors of an entry, or all of them, and never part of a selector |
| `CampaignSampling.KeptAbove` | python/cutracer/service/campaign.py:210-222 | Ranks are a numbering: exactly k selectors have fewer than k before them |
| `Campaign.RunConstraints` | python/cutracer/service/campaign.py:266-281 | Exactly the caps the target would break |
| `Campaign.ApplyCampaignBudget` | python/cutracer/service/campaign.py:284-324 | The loop decides as greedy admission does and records the running usage; duplicates are errors |
| `Campaign.ResourceConstraints` | python/cutracer/service/campaign_budget.py:135-159 | Exactly the caps the estimate would break |
| `Campaign.CountRecent` | python/cutracer/service/campaign_budget.py:117-132 | Submissions inside the window; one from the future is an error |
| `Campaign.ApplyResourceBudget` | python/cutracer/service/campaign_budget.py:162-213 | The loop decides as greedy admission does from the initial usage; its three errors |
| `Campaign.PlanToolCadence` | python/cutracer/service/campaign.py:362-401 | One decision for each target and tool; its errors |
| `Campaign.CollectDue` | python/cutracer/service/campaign_manifest.py:216-223 | Each unit with a due decision, once, by its first |
| `Campaign.ManifestItems` | python/cutracer/service/campaign_manifest.py:273-313 | The items of all targets and tools, in order |
| `Campaign.PlannedSessions` | python/cutracer/service/campaign_manifest.py:316-333 | One session for each admitted target with its due tools |
| `Sanitizer.PrintedFindingsComeBack` | python/cutracer/compute_sanitizer/parser.py:319-451 | Any findings with at least one conflict each, printed with a summary and with child output anywhere between: exactly these findings and the summary come back, without diagnostics if and only if the summary does not contradict them |
| `Sanitizer.RacecheckIgnoresChildren` | python/cutracer/compute_sanitizer/parser.py:395-465 | Logs with the same sanitizer lines have the same result |
| `Sanitizer.ConsumeBlock` | python/cutracer/compute_sanitizer/parser.py:319-429 | One printed block is one finding, whatever came before |
| `Sanitizer.GatherConflicts` | python/cutracer/compute_sanitizer/parser.py:420-429 | Conflict lines gather in the open race, in order |
| `Sanitizer.RacecheckParser.FlushBlock` | python/cutracer/compute_sanitizer/parser.py:319-335 | The open race becomes a finding, or its lack of conflicts a diagnostic |
| `Sanitizer.RacecheckParser.ConsumeSummary` | python/cutracer/compute_sanitizer/parser.py:337-352 | A summary line is read, a second or broken one diagnosed; other lines change nothing |
| `Sanitizer.RacecheckParser.ConsumeAuxiliary` | python/cutracer/compute_sanitizer/parser.py:354-393 | Truncation notes and invalid accesses with their lookahead |
| `Sanitizer.RacecheckParser.ConsumeLine` | python/cutracer/compute_sanitizer/parser.py:395-429 | The whole new state for a line |
| `Sanitizer.RacecheckParser.FinishLog` | python/cutracer/compute_sanitizer/parser.py:431-451 | The result with all its diagnostics |
| `Sanitizer.ParseRacecheckLog` | python/cutracer/compute_sanitizer/parser.py:454-465 | The loop gives the result of the whole log |
| `SanitizerChecks.ChecksIgnoreChildren` | python/cutracer/compute_sanitizer/parser.py:617-743 | The other checkers ignore child output, even inside the lines that may follow a message |
| `SanitizerChecks.FollowingSkipsChildren` | python/cutracer/compute_sanitizer/parser.py:617-652 | The lookahead finds the same lines with and without child output |
| `SanitizerChecks.CheckerIssueAt` | python/cutracer/compute_sanitizer/parser.py:617-652 | The issue of a message with its following lines, or none for any other line |
| `SanitizerChecks.ErrorCheckerParser.ConsumeSummary` | python/cutracer/compute_sanitizer/parser.py:669-686 | A summary line is read; other lines change nothing |
| `SanitizerChecks.ErrorCheckerParser.ConsumeIssue` | python/cutracer/compute_sanitizer/parser.py:688-698 | The whole new state for an issue |
| `SanitizerChecks.ErrorCheckerParser.FinishLog` | python/cutracer/compute_sanitizer/parser.py:700-727 | The result with all its diagnostics |
| `SanitizerChecks.ParseErrorCheckerLog` | python/cutracer/compute_sanitizer/parser.py:730-743 | The loop gives the result of the whole log |

## Left out

- CUDA, NVBit and device code: launches, packets, completions and device counters are arbitrary inputs.
- Digests: a digest is the value it digests, so digests never collide.
- The event sink: an arbitrary function of the sequence number. A ledger whose first record is refused does not exist.
- Counters are unbounded; only the products in `expected_entries` are bounded by 64 bits, as the code checks them.
- JSON text: plans and events start as parsed values, so unknown or missing fields, node, nesting and byte budgets and
  duplicate keys do not occur. `dump` is any injective function into text without newlines; `TraceLines.DumpExists` shows
  that there is one.
- Compressed, archive and text traces: the compressor's success is an input, and what the file holds is stated only for
  uncompressed lines. Counting holds in every mode.
- Opening and naming files, process exit, timers; interrupted writes are finitely many.
- TraceWriterProof.FileHoldsAcceptedLines: uncompressed modes only, because other modes hold no plain lines.
- TraceWriterProof.RecordsConserved: no caller passes a line that looks like a footer.
- EndToEnd.CompleteFooterVouches: a launch id is not launched again while its writer lives, only the plan runtime writes
  records and reports of a plan, the launch is ended before its writer is finished, as the receiver does, and the writer
  is in an uncompressed mode.
- EndToEnd.ReceiveInv: when a packet's geometry cannot be counted, the receiver marks every open writer and the channel.
  Modelled is the mark on the writer of this launch; marks that other launches' packets leave there come as arbitrary calls.
- BisectSpec.QuadraticWorstCase: even numbers of points only.
- PlanRuntime.PlanRuntime.BeginPlanLaunch: one CUDA context; contexts share nothing but the disabled flag. Binding kernels
  to functions (`prepare`, `inventory`, `forget_module`) only supplies and removes tables.
- Lane and word masks are sets of indices.
- Mutexes: each critical section is one step. CompletionQueue.CaptureCompletionQueue.StartWait and `WaitIsOver` are the
  two halves of one wait; a wait that times out is not modelled, since it returns false and promises nothing.
- CallbackGuard.IdleDepth: a callback acts only while it is the innermost one of its thread.
- The oracle of a reduction is a function of the enabled points; replaying a candidate, its exceptions, and loading and
  saving configuration files are not modelled.
- DelayConfig.DelayConfigMutator.SetPointEnabled: the nested dictionaries are a set of enabled keys beside the fixed rest.
- Reduce.LinearOneMinimal: 1-minimality is stated for oracles without a revival; without that it is false of some order.
- Regular expressions of the log parser: a line comes with what the patterns found in it, and splitting text into lines
  is not modelled.
- The projection of race reports to checker results, and the printed text of checker issues.
- Expanding a catalog, validating planner configurations (blank names, naive times), reports and reasons as text. The
  sampling score and the shard of a unit are arbitrary functions.
- `ScopedCudaCallbackSuppression`, the session around the ledger, checkpoints, distributed campaigns, artifacts, command
  lines: input, output and plumbing.
