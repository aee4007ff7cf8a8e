# A verified model of the computer-use MCP server's core protocols

The server hands shell commands, files and applications of one computer to remote agents, and must
keep doing so across lost replies, crashes, restarts and upgrades. This project models the code
that is responsible for that, as state machines, parsers and objects, and proves what every run of
it keeps. Each stretch of the original between two awaits is one atomic step; disk, memory, other
processes and the clock are separate state or step parameters, so a lemma about all event sequences
is a lemma about all interleavings.

| File | What it models |
|---|---|
| `Sse.dfy`, `SseContent.dfy` | the incremental event-stream rewriter (sections 9.2.5 and 9.2.6 of the WHATWG HTML Standard), its one-shot reading, reading its output back, and what becomes of every line |
| `Registry.dfy`, `ControlPlane.dfy`, `RegistryEffects.dfy` | the router's generation registry, the serialised compare-and-swap commands over a run with failing writes, crashes, traffic and fencing backends, and what each command does |
| `DataPlane.dfy`, `Handles.dfy`, `BackendFence.dfy` | the router's request bookkeeping, its owner-tagged handles (base64url as in section 5 of RFC 4648), and the backend's retirement fence |
| `HotSwap.dfy` | control plane, data plane and backends as one system: one fence, one traffic, and whom a forwarded call reaches |
| `AtMostOnce.dfy`, `ReadOnce.dfy`, `CarefulRemoval.dfy`, `TerminalState.dfy`, `JobOutcome.dfy`, `CurrentOutcome.dfy`, `JobWorker.dfy`, `ReportedOutcome.dfy` | one operation identifier of the durable job ledger: several stores, several workers, crashes, removals file by file, stale rewrites, the whole of `runJob`, and what starts answer and workers report |
| `Ledger.dfy`, `LiveJobs.dfy`, `AdmissionVerdict.dfy` | admission to the job ledger by one store: listing, expiry, budgets, the limit on jobs whose workers live, and the exact verdict |
| `Concurrency.dfy`, `AdmissionRule.dfy` | the admission controller: five classes, two queues, nested caps and reservations, and the exact rule of admission |
| `Recovery.dfy`, `RecoveryDecisions.dfy`, `RestartBudget.dfy`, `SkewGuard.dfy`, `RestartSpacing.dfy` | the recovery controller: every decision from what was observed before, restart budget and cooldown under any clock, confirmations, incidents, crash- and corruption-safe ledger |
| `AtomicFile.dfy`, `ReplacementOutcome.dfy` | the per-path promise chain around compare-and-swap file replacement, and what its callers are told |
| `BoundedProcess.dfy`, `ProcessResult.dfy` | the deadline, output limit and termination of a child process, and its result |
| `Identity.dfy` | the canonical form and fingerprint of a policy |
| `Wrappers.dfy` | `Option` and `Result` |

Every module has a pure step function and lemmas over its runs; where the original is an object or
a set of closure variables, a class with those fields is proved to take exactly those steps. Beside the safety results, the
main operations are characterised without their own functions: by counting, by positions, by the
events that have happened.

## What turned out to hold only under a condition

- A call forwarded by the router names the generation, not the incarnation that is probed;
  `docs/specs/HOT-SWAP.md` says that backend requests carry the expected incarnation, the code is
  followed here. The call is admitted if and only if the two names are equal
  (`BackendFence.ForwardedCallReachesProbedIncarnation`). They are in every run that never gave the
  generation another incarnation, at registration or by a rebind (`HotSwap.NeverReboundKeepsItsName`);
  `HotSwap.ReboundRunIsRefused` is a run with a rebind.
- Of all requests expecting one epoch at most one becomes visible if and only if no write lands while
  memory is behind the disk (`ControlPlane.OneWinnerIff`), which only an unread write can bring about;
  `ControlPlane.UnreadWriteForksTheEpoch` is such a run.
- A retirement that landed makes its generation gone if and only if the write is acknowledged or read
  back (`ControlPlane.RetirementIsFinal`); `ControlPlane.UnreadRetirementKeepsServing` is a run in which
  requests are dispatched to a generation that is gone from disk.
- No selected generation is ever fenced, in memory, on disk or about to be written, if and only if no
  retire request takes effect on an incarnation in use there (`ControlPlane.SelectionNeverFenced`). Runs
  that leave nothing uncertain are such (`ControlPlane.CarefulRunIsSafe`); a shared incarnation and a
  retire request delivered late are the two ways in which it happens.
- There are never more executions than reservations of an operation. Each reservation has one holder of
  its request throughout a run if and only if no worker ever reads a request that another one holds
  (`ReadOnce.OneHolderIff`), and then no reservation is executed twice (`ReadOnce.ReservationRunsOnce`),
  whatever is removed and when. Removals that begin at a terminal state and take each file once, in any
  order and however interleaved with late workers, are harmless in this sense
  (`CarefulRemoval.OrderlyNeverRefetches`). A removal that is interrupted and begun again need not be,
  even though each of its steps happens at a terminal state
  (`CarefulRemoval.RestartedRemovalRunsAReservationTwice`); in any run, an execution that repeats a
  reservation has used up the request file of another one (`CarefulRemoval.TwiceTakesAnotherFile`).
- During such a removal a terminal state is final if and only if the claim mark is there and no worker
  is in flight (`TerminalState.TerminalIsFinalIff`), which holds unless the claim mark went before the
  status file; `CarefulRemoval.LateWorkerTurnsSuccessIntoFailure` is a run in which it did.
- Cancelling before the launch prevents the execution unless the timer's look at the cancel file is
  outstanding when the explicit check comes (`AtMostOnce.CancelPreventsIff`).
- Unfinished records never exceed the limit on concurrent jobs if and only if every admission found room
  besides those shown active and those shown unknown (`Ledger.ConcurrencyHolds`). Jobs with a living
  worker never exceed it if and only if every admission found fewer of them
  (`LiveJobs.ConcurrencyHolds`), so in every run whose counts show all living workers, however many have
  died (`LiveJobs.SeenWorkersKeepTheLimit`). A worker slower than the launch grace is not shown, and
  breaks it (`LiveJobs.SlowLaunchExceedsTheLimit`).
- The hourly restart budget, which `docs/RELIABILITY.md` promises without a condition, holds over a
  clock if and only if no tick comes within an hour of an earlier one that it, or a tick in between,
  cannot remember because it came before it or an hour or more after it (`RestartBudget.BudgetIff`). A
  clock that does not step back is such. A stamp from the future breaks it
  (`Recovery.StepBackBreaksBudget`), and so does a stamp that is pruned before the clock steps back by a
  second (`RestartBudget.PrunedStampBreaksBudget`). When every tick runs to its end, only the ticks that
  pass the five-second guard count (`SkewGuard.CompletedBudgetIff`).
- The reasons of a decision (confirmations, alternation of openings and resolutions, the stability
  period) hold over any clock (`Recovery.DecisionsHaveReasons`). The cooldown between restarts holds over
  a clock if and only if that clock never steps back at all (`RestartSpacing.SpacingIff`).
- Printed frames reparse exactly when each is within the byte limit, which a frame of the identity
  rewriter need not be, because of the space it adds (`Sse.PrintedFramesReparse`,
  `Sse.AddedSpaceOutgrowsTheLimit`).

## Model

| member | source | states |
|---|---|---|
| `Sse.ConsumedWorth` | src/hotswap/sse.ts:20-38 | consuming any state, with any text still to come, leaves the outcome of the whole stream as the one-shot reading has it; in particular the byte limit cannot fire for one cutting only, and a CR held back is the same line break |
| `Sse.ChunkingIsInvisible` | src/hotswap/sse.ts:13-38 | pushing any chunks and ending throws, or returns frames and shows messages, exactly as the one-shot parser does for the concatenated bytes |
| `Sse.AnyTwoChunkings` | src/hotswap/sse.ts:13-38 | two cuttings of one stream fail together, or print the same frames and show the same messages |
| `Sse.EmitTwice` | src/hotswap/sse.ts:39-48 | a printed block read back verbatim prints the same lines, and its data is what the callback answered |
| `Sse.FrameReparsed` | src/hotswap/sse.ts:20-48 | a printed frame in front of any text is read back as exactly one block with exactly its lines |
| `Sse.PrintedFramesReparse` | src/hotswap/sse.ts:20-48 | reading the concatenated output back yields exactly the frames and the callback's answers if every frame fits the limit, and throws otherwise |
| `Sse.VerbatimFixedPoint` | src/hotswap/sse.ts:20-48 | an identity rewriter is a fixed point on its own output if and only if that output fits the limit |
| `Sse.AddedSpaceOutgrowsTheLimit` | src/hotswap/sse.ts:33-47 | a message seven bytes short of the limit, sent without the optional space, is accepted and printed by the identity rewriter as a frame one byte over the limit, which it then cannot read back |
| `Sse.SomeOutputIsTooLong` | src/hotswap/sse.ts:33-47 | so some accepted stream has an output that cannot be read back |
| `SseContent.BlockIsPrinted` | src/hotswap/sse.ts:39-48 | a block with data is printed as all its lines without data, each at the index that counts such lines before it, and one data line with the callback's answer; the text given to the parser consists of the pieces that the data lines carry, the k-th line's in the k-th place, joined by LF; it is refused exactly when the parser or the callback refuses |
| `SseContent.LineSurvives` | src/hotswap/sse.ts:46-47 | whatever the codec answers, every line without data of a printed block, ids included, stands in the output at the index counting such lines before it |
| `SseContent.SplitLinesIff` | src/hotswap/sse.ts:21-33 | a text has exactly the lines into which CRLF, CR and LF cut it |
| `SseContent.GroupIff` | src/hotswap/sse.ts:27-33 | lines form exactly the blocks that blank lines close |
| `SseContent.RenderIff` | src/hotswap/sse.ts:27-48 | the frames are exactly those printed for the blocks in order, empty blocks skipped, and a block over the limit is refused |
| `SseContent.AcceptableIff` | src/hotswap/sse.ts:14-19 | what is left over at the end is acceptable exactly when it is whole comment lines within the limit |
| `SseContent.AcceptedIff` | src/hotswap/sse.ts:13-48 | a text is accepted with these frames and messages if and only if it can be read as lines and blocks, with nothing but comments left, for which they are printed |
| `Sse.DeadForever` | src/hotswap/sse.ts:13-38 | once a push has thrown, the outcome of the stream is a throw whatever chunks follow |
| `Sse.SseRewriter.Take` | src/hotswap/sse.ts:27-33 | one line taken at a line break: counted, limited, kept or closing its frame |
| `Sse.SseRewriter.Consume` | src/hotswap/sse.ts:20-38 | the scan loop with its resume index computes the specification, and returns exactly the newly printed frames |
| `Sse.SseRewriter.Push` | src/hotswap/sse.ts:13 | decoding and scanning one chunk |
| `Sse.SseRewriter.End` | src/hotswap/sse.ts:14-19 | the last scan; leftovers other than comments throw |
| `Sse.Forward` | src/hotswap/router.ts:353-363 | the forwarding loop over all chunks computes the one-shot outcome of the concatenation |
| `Registry.ProposeWellFormed` | src/hotswap/router.ts:161-220 | every command keeps the registry well formed (unique ids, at most 128, selections registered and different, one legacy owner) and moves the epoch by exactly one |
| `Registry.RollbackTwice` | src/hotswap/router.ts:197-202 | two successful rollbacks between present selections restore the selection |
| `Registry.ProposeKeepsOwner` | src/hotswap/router.ts:161-220 | only the retirement of a generation unregisters it |
| `Registry.GuardWhenQuiet` | src/hotswap/router.ts:183-211 | a guard passed with calls in flight asks the same backend as without them |
| `RegistryEffects.SelectionMoves` | src/hotswap/router.ts:197-202 | activation and rollback make the generation asked for active and the one that was active the previous one, change nothing else, and nothing at all exactly if it is active already |
| `RegistryEffects.SelectionRefused` | src/hotswap/router.ts:197-201 | they are refused exactly for an unregistered generation, or for a rollback without a previous one |
| `RegistryEffects.RegistrationAdds` | src/hotswap/router.ts:161-176 | a registration adds exactly the new generation, when its id is free, there is room and no second legacy owner, and keeps the selection |
| `RegistryEffects.RebindRenames` | src/hotswap/router.ts:177-197 | a rebind is refused exactly for an unknown, legacy or busy generation, and changes nothing for the same incarnation |
| `RegistryEffects.RebindEffect` | src/hotswap/router.ts:187-197 | it names the other incarnation of an idle backend and changes nothing else |
| `RegistryEffects.RetirementRemoves` | src/hotswap/router.ts:206-220 | a retirement is begun exactly for a generation that is neither selected nor legacy nor in use, and removes it and no other |
| `RegistryEffects.SelectionIsRemembered` | src/hotswap/router.ts:197-202 | in every run whose failed writes are read back, wherever the active generation changed the one before is the one to go back to |
| `RegistryEffects.SelectionTakesEffect` | src/hotswap/router.ts:123-202 | after any run, a command that selects a healthy generation leads to exactly the swapped selection in memory and on disk |
| `RegistryEffects.RollbackRestores` | src/hotswap/router.ts:197-202 | after any run, activating a generation in place of the active one and rolling back makes the replaced one active again |
| `ControlPlane.EveryRunCore` | src/hotswap/router.ts:123-220 | in every run, failing read-backs included, memory and disk hold well-formed registries, a command in progress still meets its guard and proposes the next epoch, and after an unread write nothing is active |
| `ControlPlane.RetiringIsQuiet` | src/hotswap/router.ts:206-220 | in every run a retiring generation has nothing in flight and is not selected, and the second in-flight check never refuses |
| `ControlPlane.ReceiptCommutes` | src/hotswap/router.ts:143-220 | requests admitted or released between a backend's reply and its receipt might as well come after the receipt |
| `ControlPlane.EveryRunInSync` | src/hotswap/router.ts:123-132 | in every run, whatever fails, the disk holds the last visible registry; memory equals it between commands, or has no active generation after a write that could not be read back |
| `ControlPlane.OneWinnerIff` | src/hotswap/router.ts:123-226 | in any run the visible registries form a chain of epochs, and equivalently no two requests expecting one epoch both became visible, if and only if no write landed while memory was behind the disk |
| `ControlPlane.OutOfStepIsBlind` | src/hotswap/router.ts:125-131 | a write lands behind the disk only after a failed write that could not be read back, while nothing is active |
| `ControlPlane.OneWinnerPerEpoch` | src/hotswap/router.ts:154-226 | so of all requests expecting one epoch at most one becomes visible in every run that writes in step |
| `ControlPlane.OwnersStayRegistered` | src/hotswap/router.ts:123-132 | while failed writes can be read back, every request in flight belongs to a generation registered in memory |
| `ControlPlane.ReopenResumes` | src/hotswap/router.ts:100-114 | wherever any run is stopped, reopening resumes the last visible registry, with no traffic and no command |
| `ControlPlane.OwnerKeepsResolving` | src/hotswap/router.ts:161-222 | a generation keeps resolving across activations, rollbacks, rebinds, failed writes and reopens until it is retired |
| `ControlPlane.LiveOwnerResolves` | src/hotswap/router.ts:296-300 | while failed writes are read back, the owner of a request in flight resolves |
| `ControlPlane.RetirementIsFinal` | src/hotswap/router.ts:123-220 | a retirement that landed leaves it unregistered in memory and on disk, without traffic and in no pending write, if and only if the write is acknowledged or can be read back |
| `ControlPlane.UnreadRetirementKeepsServing` | src/hotswap/router.ts:125-131 | a run in which a landed retirement is not read back and a request is dispatched to the generation that is gone from disk |
| `ControlPlane.GoneIsSilent` | src/hotswap/router.ts:296-300 | nothing is dispatched again to a generation that is gone, in any continuation that does not register it anew |
| `ControlPlane.SelectionNeverFenced` | src/hotswap/router.ts:197-220 | at every moment of a run no active or rollback generation in memory, on disk or about to be written is answered by a fenced incarnation, if and only if no retire request took effect on an incarnation in use there |
| `ControlPlane.StepSafeIff` | src/hotswap/router.ts:168-220 | one step out of a safe state is unsafe exactly when it fences an incarnation in use in memory, on disk or in the pending write |
| `ControlPlane.HurtShows` | src/hotswap/router.ts:216-220 | the harm is visible: a selected generation is fenced at once, or on disk when the pending write lands |
| `ControlPlane.CarefulRunIsSafe` | src/hotswap/router.ts:197-220 | a run without unread writes, abandoned retire requests and incarnations named twice is safe throughout |
| `ControlPlane.UnreadWriteForksTheEpoch` | src/hotswap/router.ts:125-131 | a run in which a write lands, cannot be read back, and a second request wins at the same epoch |
| `ControlPlane.SharedIncarnationIsFenced` | src/hotswap/router.ts:208-217 | a run in which retiring a second name of the active incarnation fences the active generation |
| `ControlPlane.LateRetireFencesTheActive` | src/hotswap/router.ts:216-220 | a run in which an abandoned retire request arrives after its target has been activated |
| `RegistryEffects.SettlementFollows` | src/hotswap/router.ts:123-132 | after a write memory is what is on disk if it was acknowledged or read back, and otherwise loses the active generation and nothing else |
| `RegistryEffects.FencesFollow` | src/hotswap/router.ts:206-220 | in every run an incarnation is fenced exactly by a retire request that arrives, and one is on its way exactly after a lost reply or a crash |
| `ControlPlane.Router.Begin` | src/hotswap/router.ts:177-212 | compare-and-swap, guard and retirement mark of a command |
| `ControlPlane.Router.Answer` | src/hotswap/router.ts:168-219 | the backend's answer leads to the write or gives the command up |
| `ControlPlane.Router.Write` | src/hotswap/router.ts:124 | the rename lands or does not |
| `ControlPlane.Router.Settle` | src/hotswap/router.ts:123-132 | memory adopts the write, is reconciled with the disk, or has no active generation |
| `ControlPlane.Router.Admit` | src/hotswap/router.ts:296-300 | admission to a registered generation that is not retiring |
| `DataPlane.EveryRunAccurate` | src/hotswap/router.ts:262-386 | in every run admitted is the number of live requests and at most 256, each in-flight count is the number of requests owned, each exchange group is exactly the non-empty set of live exchanges under its key |
| `DataPlane.ClampNeverBinds` | src/hotswap/router.ts:381 | a request that ends was counted, so the clamp at zero never binds |
| `DataPlane.CancelReachesOneOrNone` | src/hotswap/router.ts:278-284 | a cancellation marks exactly the one live exchange under its key, or nothing |
| `DataPlane.InFlightWithinAdmitted` | src/hotswap/router.ts:299-300 | the in-flight counts of distinct generations add up to at most the admission count |
| `DataPlane.RequestFollows` | src/hotswap/router.ts:262-386 | in every run a request is admitted exactly while fewer than 256 are live and no shutdown has happened, ends exactly when it finishes, is assigned once, and is cancelled exactly when it is the only live exchange under the key |
| `DataPlane.Bookkeeping.Admit` | src/hotswap/router.ts:262-263 | admission below the limit and before shutdown |
| `DataPlane.Bookkeeping.Dispatch` | src/hotswap/router.ts:298-315 | counting the owner and opening the exchange |
| `DataPlane.Bookkeeping.Cancel` | src/hotswap/router.ts:278-284 | ambiguity is refused, otherwise the one exchange is cancelled |
| `DataPlane.Bookkeeping.Finish` | src/hotswap/router.ts:379-386 | the final bookkeeping of a request |
| `Handles.WrappedHandle` | src/hotswap/router.ts:231-251 | a wrapped handle unwraps to its owner and raw handle exactly under its own kind, for a registered owner and a handle backends issue; never as a raw legacy handle |
| `Handles.RawHandle` | src/hotswap/router.ts:236-241 | a raw handle belongs to the legacy generation or to nobody |
| `Handles.AcceptedIff` | src/hotswap/router.ts:242-250 | of all texts that begin like a wrapped handle, exactly those carrying the router's own digest over an owner, this kind and a raw handle of this kind, within 2048 characters, are accepted, and for that owner; every other one is invalid |
| `Handles.OtherTextsAreNobodys` | src/hotswap/router.ts:236-241 | a text that neither begins like a wrapped handle nor is a raw one of this kind belongs to nobody |
| `Handles.FieldsSplit` | src/hotswap/router.ts:242-243 | the fields of any text have no dot and joined by dots give the text back |
| `Handles.HandleFollowsItsOwner` | src/hotswap/router.ts:231-251 | a handle keeps resolving to a generation that resolves, with the same raw handle, across every later run that does not retire it |
| `Handles.IssuedHandleFollowsItsOwner` | src/hotswap/router.ts:231-251 | a handle issued for a request in flight keeps resolving to the generation that owns the request, with the same raw handle, across every later run that does not retire it, if failed writes were read back up to then |
| `Handles.FieldsOfJoin` | src/hotswap/router.ts:242-243 | dotless fields joined by dots split into exactly those fields |
| `BackendFence.FencedForever` | src/http-server.ts:113-201 | from the fence on, through every event, the backend has no exchange, no call and no resource, and admits nothing |
| `BackendFence.EveryRunFenceHolds` | src/http-server.ts:117-125 | in every run a fenced backend is idle and owns nothing |
| `BackendFence.FencedIff` | src/http-server.ts:117-125 | in every run the fence is set if and only if a keyed retire request naming the incarnation came while nothing was in progress or owned |
| `BackendFence.AdmittedIff` | src/http-server.ts:160-186 | in every run an addressed and authorised request is admitted, as one more exchange, if and only if the backend has not been retired; a retired one refuses exactly the addressed ones as retired |
| `BackendFence.WorkFollows` | src/http-server.ts:113-201 | in every run exchanges, calls and resources come and go by their own events only |
| `BackendFence.ForwardedCallReachesProbedIncarnation` | src/hotswap/router.ts:307 | a forwarded call is admitted by the probed incarnation if and only if that incarnation bears the id of the generation, and refused as a mismatch otherwise |
| `BackendFence.ReboundCallsAreRefused` | src/http-server.ts:160-163 | after a rebind the new incarnation refuses every call forwarded to the generation |
| `HotSwap.RunsTheControlPlane` | src/hotswap/router.ts:154-226 | whatever router, backends and stray requests do together is, for the router, a run of the control plane |
| `HotSwap.EveryRunAgrees` | src/http-server.ts:113-130 | in every run of the system the router's fenced incarnations are exactly the backends whose fence is set, and these are idle and own nothing: a fence is set by an accepted retire request of that backend and in no other way |
| `HotSwap.RetirementIsSafe` | src/http-server.ts:113-186 | a fenced backend has no exchange, no call and no resource and admits nothing; and if no retire request took effect on an incarnation in use, it answers for no selected generation in memory or on disk |
| `HotSwap.NeverReboundKeepsItsName` | src/hotswap/router.ts:161-197 | in every run that never gave a generation another incarnation, memory, disk and the command in progress name its own id |
| `HotSwap.ForwardedCallArrives` | src/hotswap/router.ts:296-315 | in every such run a call forwarded to the generation is admitted by the incarnation that is probed for it |
| `HotSwap.ReboundRunIsRefused` | src/hotswap/router.ts:177-197 | a run that rebinds a generation, after which the incarnation it is probed at refuses every call forwarded to it |
| `HotSwap.InFlightIsBusy` | src/hotswap/router.ts:183-211 | in every run the in-flight count that the guards read is positive exactly for the generations that own a request |
| `HotSwap.RetiringOwnsNothing` | src/hotswap/router.ts:206-220 | in every run a generation that is being retired owns no request in the data plane |
| `HotSwap.OneTraffic` | src/hotswap/router.ts:262-386 | in every run of the joint system the control plane's requests in flight are exactly the data plane's requests with an owner, each under its owner |
| `BackendFence.Server.Retire` | src/http-server.ts:113-130 | the fence is set exactly for a keyed request naming the incarnation while nothing is busy or owned |
| `BackendFence.Server.Mcp` | src/http-server.ts:160-186 | admission of a request as an exchange |
| `AtMostOnce.AtMostOnce` | src/execution/job-store.ts:161-182 | in every run, with removals of any part and rewrites of stale records at any time, executions are at most as many as reservations, and those at most one more than directory removals |
| `AtMostOnce.NeverTwice` | src/execution/job-worker.ts:12-44 | two executions belong to claims of different lives of the directory and used up the request files of different reservations |
| `AtMostOnce.ExecutesWhatWasReserved` | src/execution/job-worker.ts:36-48 | what is executed has the hash its reservation was made with, by a start that was not denied |
| `AtMostOnce.DeniedNeverLaunches` | src/execution/job-store.ts:136-165 | a start that conflicts, is refused or finds a reservation reserves nothing and launches no worker |
| `AtMostOnce.DenialIsFinal` | src/execution/job-store.ts:136-165 | no later step changes a denial |
| `AtMostOnce.CancelledOnlyIfSkipped` | src/execution/job-worker.ts:24-44 | an execution with the cancel file in place is one whose explicit check returned without looking |
| `AtMostOnce.CancelPreventsIff` | src/execution/job-worker.ts:24-44 | with the cancel file in place the explicit check prevents the execution if and only if no timer look is outstanding or the job is aborted anyway |
| `AtMostOnce.CancelledJobStillRuns` | src/execution/job-worker.ts:25-33 | a run in which a job cancelled before the explicit check is executed |
| `ReadOnce.OneHolderIff` | src/execution/job-worker.ts:36-48 | at every moment of a run, whatever is removed and when, each reservation has at most one holder of its request if and only if no worker ever reads a request that another one holds |
| `ReadOnce.ReservationRunsOnce` | src/execution/job-worker.ts:36-48 | in every run without such a reading no reservation is executed twice |
| `CarefulRemoval.OrderlyNeverRefetches` | src/execution/job-store.ts:145-147 | no such reading occurs under removals that begin at a terminal state and take each file once, file by file and interleaved with anything |
| `CarefulRemoval.ReservationRunsOnce` | src/execution/job-store.ts:145-147 | so under these removals no reservation is executed twice |
| `CarefulRemoval.TwiceTakesAnotherFile` | src/execution/job-worker.ts:36-44 | in any run, a reservation executed twice is executed by a worker that used up the request file of another one |
| `CarefulRemoval.TerminalIsFinal` | src/execution/job-worker.ts:62-66 | during and outside such a removal a terminal status is changed by no start, launch, cancellation or late report, as long as the claim mark does not go before the status file |
| `CarefulRemoval.LateWorkerOvertakesIff` | src/execution/job-worker.ts:12-66 | once the claim mark is gone, a late worker that finds no request turns the terminal state into a failure, and changes it exactly if it was none |
| `CarefulRemoval.LateWorkerTurnsSuccessIntoFailure` | src/execution/job-store.ts:147 | a run in which a removal takes the claim mark first and a reported success becomes a failure |
| `TerminalState.TerminalIsFinalIff` | src/execution/job-worker.ts:12-66 | after any such history, no continuation without further removals writes over a terminal state if and only if the claim mark is there and no worker is in flight |
| `TerminalState.TerminalStateStays` | src/execution/job-worker.ts:12-66 | and then the status file reads the same after every such continuation |
| `TerminalState.UnexposedIsMastered` | src/execution/job-store.ts:147 | that is the case unless a removal has taken the claim mark and not yet the status file |
| `CarefulRemoval.RepeatedStartRetrieves` | src/execution/job-store.ts:136-140 | under such removals a start that finds a status retrieves the job if it asks for what was reserved last, and conflicts otherwise |
| `CarefulRemoval.RestartedRemovalRunsAReservationTwice` | src/execution/job-store.ts:146-147 | a run in which files are removed only at terminal states, but by removals begun again, and one reservation is executed twice |
| `JobOutcome.OutcomeIsTrue` | src/execution/job-worker.ts:47-66 | in every run a terminal status was reported by a worker with reason to: success by one that executed its request and saw it succeed, cancelled by one that was aborted, failed by one that never saw it succeed |
| `CurrentOutcome.OutcomeIsCurrent` | src/execution/job-worker.ts:12-66 | under such removals that worker claimed the directory after its latest reservation |
| `JobWorkers.JobWorker.Claim` | src/execution/job-worker.ts:12-16 | the exclusive claim |
| `JobWorkers.JobWorker.Announce` | src/execution/job-worker.ts:40-41 | the running record replaces the status |
| `JobWorkers.JobWorker.Consume` | src/execution/job-worker.ts:42 | the request is removed, or the job fails without executing |
| `JobWorkers.JobWorker.Check` | src/execution/job-worker.ts:24-31 | the explicit check returns at once exactly when a look is outstanding |
| `JobWorkers.JobWorker.Decide` | src/execution/job-worker.ts:44-47 | `execute` is called exactly when nothing has aborted |
| `JobWorkers.JobWorker.Return` | src/execution/job-worker.ts:47 | `execute` has returned: the result decides on success |
| `JobWorkers.JobWorker.Fault` | src/execution/job-worker.ts:48-55 | whatever throws inside the `try` block ends it |
| `JobWorkers.JobWorker.Conclude` | src/execution/job-worker.ts:62-66 | the outcome written from abort flag and result |
| `JobWorkers.JobWorker.Callback` | src/execution/job-worker.ts:20-31 | the timer's ticks, its look at the cancel file and the signal handlers |
| `JobWorkers.JobWorker.RunJob` | src/execution/job-worker.ts:11-68 | the whole of `runJob`, with anything happening and anything throwing at its awaits, is a run of the machine to its end in which every stretch comes when it is due; it calls `execute` at most once, reports a success only if that call returned one, a failure only if it did not, and a cancellation only if aborted |
| `ReportedOutcome.FlagsAreTrue` | src/execution/job-worker.ts:18-47 | in every run a worker is aborted exactly if a signal came while it listened or a look found the cancel file, and has succeeded exactly if its call of `execute` returned a success |
| `ReportedOutcome.ReportFollows` | src/execution/job-worker.ts:56-66 | in every run a worker that concludes writes cancelled exactly if it was aborted by then, else succeeded exactly if `execute` returned a success, else failed; nothing if its directory is gone |
| `ReportedOutcome.TimerNotices` | src/execution/job-worker.ts:24-33 | at any time up to the result one round of the timer notices a cancel file |
| `ReportedOutcome.AnswerFollows` | src/execution/job-store.ts:136-182 | in every run each answer of a start is given exactly for its own reason and never changes, and only a start that finds no directory reserves |
| `ReportedOutcome.UndisturbedJobRuns` | src/execution/job-worker.ts:11-68 | after any run that left no directory, a start and its worker whom nothing disturbs execute the command once, with the request just reserved, and leave it recorded as succeeded |
| `Ledger.ListIsComplete` | src/execution/job-store.ts:104-113 | in every run at most maxStoredJobs jobs are listed, so the listing is never cut off |
| `Ledger.WithinBudget` | src/execution/job-store.ts:159-160 | in every run stored and reserved output, results counted up to the limit, is within the budget; in full when every result fits |
| `Ledger.TerminalIsFinal` | src/execution/job-store.ts:142-152 | a job keeps its hash and a terminal state; it leaves the ledger only when terminal and past its retention |
| `Ledger.ExpiryIsExact` | src/execution/job-store.ts:143-152 | expiring a listing removes exactly the terminal jobs past retention and empties exactly the outputs past theirs; every other job is unchanged |
| `Ledger.ConcurrencyHolds` | src/execution/job-store.ts:156-157 | throughout a run unfinished records never exceed maxConcurrent if and only if every admission found room for one more besides the jobs shown active and those shown unknown |
| `Ledger.SlowLaunchExceedsConcurrency` | src/execution/job-store.ts:90-98 | a run in which a slow worker is taken for lost and two records are unfinished under a limit of one |
| `LiveJobs.RunsTheLedger` | src/execution/job-store.ts:134-167 | with workers that die, what the ledger sees is one of its runs: a dead worker writes nothing |
| `LiveJobs.ConcurrencyHolds` | src/execution/job-store.ts:156-157 | throughout a run jobs with a living worker never exceed maxConcurrent if and only if every admission found fewer of them |
| `LiveJobs.SeenWorkersKeepTheLimit` | src/execution/job-store.ts:90-98 | they never do if every count shows every living worker, however many have died |
| `LiveJobs.SlowLaunchExceedsTheLimit` | src/execution/job-store.ts:95-97 | a run in which two living workers exceed a limit of one, the first not having announced itself within the grace |
| `Ledger.ExpireTimesAll` | src/execution/job-store.ts:143-152 | expiring record by record is the expiry of the whole listing |
| `Ledger.JobStore.ExpireRecords` | src/execution/job-store.ts:143-152 | the expiry loop |
| `Ledger.JobStore.Count` | src/execution/job-store.ts:153-160 | the three admission limits, counted by loops |
| `Ledger.JobStore.Start` | src/execution/job-store.ts:136-167 | an uninterrupted start is a run of the machine; each answer says what was the case: the job that exists with this hash, a conflict with another one, the verdict after expiry, a reservation in the way, or a new record |
| `AdmissionVerdict.VerdictIff` | src/execution/job-store.ts:153-160 | a start is admitted if and only if fewer jobs are busy than may run, fewer stored than may be stored, and stored and expected output leave room for one more; a refusal names the first of these limits that is reached |
| `AdmissionVerdict.ExpiryLeavesSurvivors` | src/execution/job-store.ts:141-152 | expiring a listing leaves the survivors in their order |
| `AdmissionVerdict.StartIsDecided` | src/execution/job-store.ts:134-167 | in every run a start changes nothing for an identifier that is held; otherwise the expired jobs go, and the new one is added if and only if the survivors leave room and its directory is not reserved |
| `AdmissionVerdict.ReportsAreRecorded` | src/execution/job-worker.ts:40-66 | in every run a worker's report changes its own unfinished job and nothing else |
| `Concurrency.EveryRunAdmissible` | src/concurrency.ts:89-143 | in every run the caps and the queue bound hold, every call is accounted for once, no waiting call could start, calls of one class start in submission order, and waiting calls have an active one |
| `Concurrency.EnterOnlyBlocks` | src/concurrency.ts:208-216 | starting work never makes another class startable |
| `Concurrency.TakeFirstThenPass` | src/concurrency.ts:251-255 | taking the first startable entry and starting over is one step of the single greedy pass |
| `Concurrency.PassIsMaximal` | src/concurrency.ts:251-265 | a pass keeps the caps and leaves nothing that could start |
| `Concurrency.PassKeepsOrder` | src/concurrency.ts:251-265 | a pass starts calls of one class in queue order |
| `Concurrency.NewcomerNeverOvertakes` | src/concurrency.ts:97-100 | a newcomer that starts at once overtakes no waiting call of its class |
| `Concurrency.ControlNeverWaits` | src/concurrency.ts:192-210 | while fewer control calls run than are reserved, none waits and the next starts at once |
| `Concurrency.InteractiveShellReserve` | src/concurrency.ts:196-216 | while fewer interactive shells run than are reserved, no shell cap blocks an interactive call |
| `AdmissionRule.WaitingIsHeldByItsCaps` | src/concurrency.ts:208-216 | in every run, counting the calls that run, each waiting call has one of its own class's caps full |
| `AdmissionRule.SubmissionIsDecidedByCaps` | src/concurrency.ts:89-143 | in every run a submitted call starts at once if and only if none of its own class's caps is full, and otherwise is refused exactly if the queues are full |
| `AdmissionRule.TimeoutEndsOneWait` | src/concurrency.ts:121-127 | a time-out ends the one wait if there still is one, and touches no other call |
| `AdmissionRule.AbortEndsOneWait` | src/concurrency.ts:130-139 | a cancellation ends the one wait, or marks the running call the first time, and touches no other call |
| `AdmissionRule.FinishMakesRoom` | src/concurrency.ts:251-301 | the end of a call removes that call; calls that were waiting start or wait on, and nobody is lost |
| `Concurrency.ConcurrencyController.TakeStartable` | src/concurrency.ts:251-255 | the first startable entry, with nothing startable before it |
| `Concurrency.ConcurrencyController.Drain` | src/concurrency.ts:257-265 | the rescanning loop terminates and equals one greedy sweep over the control queue, then the regular queue |
| `Concurrency.ConcurrencyController.Submit` | src/concurrency.ts:89-143 | start, queue or refuse |
| `Concurrency.ConcurrencyController.RemoveQueued` | src/concurrency.ts:240-249 | the waiting entry is taken out of the queue that holds it |
| `Concurrency.ConcurrencyController.Timeout` | src/concurrency.ts:121-127 | a waiting call times out once |
| `Concurrency.ConcurrencyController.Abort` | src/concurrency.ts:130-139 | a waiting call is cancelled, a running one counted once |
| `Concurrency.ConcurrencyController.Finish` | src/concurrency.ts:289-301 | the end of a call frees its slots and drains |
| `Recovery.EveryRunSafe` | scripts/recovery.py:291-369 | in every run with a clock that does not step back, crashes after any effect and detected damage at any tick, the ledger covers every restart performed |
| `RestartBudget.BudgetIff` | scripts/recovery.py:291-369 | over a clock, no window of an hour ever holds more performed restarts of a component than the budget, whatever the policy, observations, crashes and damage, if and only if no tick comes within an hour of an earlier one that it or a tick in between cannot remember |
| `RestartBudget.MemorableClockKeepsBudget` | scripts/recovery.py:48-89 | the budget holds in every run over such a clock |
| `RestartBudget.ForgetfulClockBreaksBudget` | scripts/recovery.py:48-89 | over any other clock an explicit run exceeds it |
| `RestartBudget.SteadyClock` | scripts/recovery.py:303-305 | a clock that never steps back is such a clock |
| `SkewGuard.RefusedTicksDoNothing` | scripts/recovery.py:303-305 | when every tick completes, a run is the run of the ticks that pass the five-second guard |
| `SkewGuard.CompletedBudgetIff` | scripts/recovery.py:291-369 | when every tick completes and the ledger stays undamaged, the budget holds over a clock if and only if the ticks that pass the guard form such a clock |
| `RestartBudget.PrunedStampBreaksBudget` | scripts/recovery.py:48-49 | a run in which a stamp is pruned on the hour, the clock steps back by a second and the budget of one is exceeded |
| `Recovery.DecisionsHaveReasons` | scripts/recovery.py:42-89 | in every run over any clock, with crashes and damage, restarts and incident openings rest on enough consecutive failures, openings and resolutions of incidents alternate except across a lost ledger, and a resolution follows healthy observations spanning the stability period |
| `Recovery.RecoveryTiming` | scripts/recovery.py:42-89 | every entry of every journal: decisions have these reasons over any clock, and over one that does not step back restarts keep the exponential cooldown |
| `RecoveryDecisions.DecisionsAreExact` | scripts/recovery.py:42-89 | in every run every recorded decision is the exact one by the journal before it: an open incident is closed if and only if observations have been healthy for the stability period, a confirmed failure leaves it open, and a restart is decided if and only if the confirmed failure is one it can help, the remembered restarts leave room in the budget and the last one is long enough ago |
| `RecoveryDecisions.PhaseFollows` | scripts/recovery.py:56-89 | so is the phase that is reported |
| `RecoveryDecisions.TickRecords` | scripts/recovery.py:291-369 | a tick that is not refused decides about every component in turn, once, on what was observed, records each decision before acting on it and performs every restart it decides; a crash cuts this off at some point |
| `RestartSpacing.SpacingIff` | scripts/recovery.py:80-89 | over a clock of non-negative times every performed restart keeps its distance from the one before, whatever the policy, observations, crashes and damage, if and only if the clock never steps back |
| `RestartSpacing.StepBackBreaksSpacing` | scripts/recovery.py:48-89 | over any clock that steps back, an explicit run performs a restart that does not keep its distance |
| `Recovery.BackendOrTunnels` | scripts/recovery.py:326-329 | one tick never restarts both the backend and a tunnel |
| `Recovery.RestartCovered` | scripts/recovery.py:86-89 | the stamp recorded with a restart decision covers the restart |
| `Recovery.RebuiltCovers` | scripts/recovery.py:277-288 | the ledger that replaces a damaged one covers everything performed so far |
| `Recovery.ForgetsOnlyTheFuture` | scripts/recovery.py:48-49 | any decision, a restart included, forgets a stamp less than an hour old if and only if the ledger holds a stamp from the future |
| `Recovery.StepBackBreaksBudget` | scripts/recovery.py:303-305 | a run in which a tolerated step back of the clock buys a restart beyond the budget |
| `Recovery.RecoveryOwner.Load` | scripts/recovery.py:251-288 | missing, damaged and stored ledgers |
| `Recovery.RecoveryOwner.Treat` | scripts/recovery.py:331-364 | decide, persist, then act |
| `Recovery.RecoveryOwner.Tick` | scripts/recovery.py:291-369 | a tick, ended by a crash after any number of effects |
| `AtomicFile.NeverOverlap` | src/execution/atomic-file.ts:15-17 | in every run two replacements of one path are never under way at once, although idle lock entries are deleted |
| `AtomicFile.DigestChain` | src/execution/atomic-file.ts:21-59 | without outside writers every applied replacement expected the digest of what the one before left, which was within the size limit, and the file holds what the last one left |
| `AtomicFile.SameExpectationNeedsRestore` | src/execution/atomic-file.ts:42-59 | two replacements with one expectation both apply only if a write in between left that digest again |
| `AtomicFile.OutsideWriteIsLost` | src/execution/atomic-file.ts:54-58 | an outside write between the recheck and the rename is overwritten unnoticed |
| `ReplacementOutcome.AloneIsCompareAndSwap` | src/execution/atomic-file.ts:18-71 | a replacement whose turn it is and that nobody disturbs succeeds if and only if the file has the expected digest, or is missing as expected; then the path holds the new content, and otherwise nothing has changed |
| `ReplacementOutcome.InterferenceIsCaught` | src/execution/atomic-file.ts:46-57 | with the content staged it goes on if and only if the path is still missing, or is the same file with the same time stamp and length; otherwise nothing has changed |
| `ReplacementOutcome.OutcomeIsTold` | src/execution/atomic-file.ts:58-71 | in every run, outside writers included, a settled replacement without any other fault was told of success if and only if it replaced its file |
| `ReplacementOutcome.EntryGoesWithTheNewest` | src/execution/atomic-file.ts:15-71 | in every run the lock entry of a path goes when its newest replacement cleans up and with no other; without an entry every replacement is settled |
| `AtomicFile.ReadAll` | src/execution/atomic-file.ts:32-39 | whatever the reads return, the buffer holds the file up to its room, and overflows exactly for a file over the limit |
| `AtomicFile.Replacements.Call` | src/execution/atomic-file.ts:15-17 | chaining a task behind the newest one |
| `AtomicFile.Replacements.Compare` | src/execution/atomic-file.ts:29-42 | the bounded comparison with the expected digest |
| `AtomicFile.Replacements.Swap` | src/execution/atomic-file.ts:46-57 | link for a new file, recheck for an existing one |
| `AtomicFile.Replacements.Rename` | src/execution/atomic-file.ts:58 | the replacement itself |
| `AtomicFile.Replacements.Cleanup` | src/execution/atomic-file.ts:71 | the lock entry goes unless a newer task took it over |
| `BoundedProcess.SettlesInTime` | src/execution/bounded-process.ts:87-103 | with timers at most a lag late, a process has settled by its timeout plus 1250 ms plus three lags, whatever it does |
| `BoundedProcess.DeadlineIsAttained` | src/execution/bounded-process.ts:91-101 | the bound is attained by a process that ignores everything |
| `BoundedProcess.SettlesOnce` | src/execution/bounded-process.ts:117-128 | after the first settlement the exit code, the output and the reasons stay and no signal follows |
| `BoundedProcess.SignalsEscalate` | src/execution/bounded-process.ts:64-103 | at most one SIGTERM, first; only SIGKILLs after it; a terminated run has sent SIGKILL by the time it settles, and only a terminated run sends anything |
| `BoundedProcess.EveryRunReasoned` | src/execution/bounded-process.ts:87-140 | a run is terminated exactly for a deadline, a cancellation, too much output or a spool failure |
| `BoundedProcess.ReturnedIsWhole` | src/execution/bounded-process.ts:87-165 | a returned result holds every byte delivered, within the limit, and every byte the process wrote, bytes left in its pipes included, unless it says that it timed out |
| `ProcessResult.FaultsHaveCauses` | src/execution/bounded-process.ts:87-141 | in every run each fault is noted, and this code settled with, if and only if its cause has happened |
| `ProcessResult.ResultIsWhatHappened` | src/execution/bounded-process.ts:151-165 | the caller is told the first reason for a failure that has happened, in the order of the checks: cancelled, output limit, spool, spawn, standard input with code 0; and without any the code of the settling event and whether the deadline had passed |
| `ProcessResult.FirstSettlementCounts` | src/execution/bounded-process.ts:117-128 | that event is the first close or pipe time-out that took effect, whatever follows |
| `BoundedProcess.BoundedRun.Terminate` | src/execution/bounded-process.ts:87-103 | the first call signals and arms the force timer |
| `BoundedProcess.BoundedRun.SettleClose` | src/execution/bounded-process.ts:118-126 | the settlement |
| `BoundedProcess.BoundedRun.Collect` | src/execution/bounded-process.ts:136-141 | counting, limiting and storing output |
| `BoundedProcess.BoundedRun.OnForce` | src/execution/bounded-process.ts:91-100 | the kill and the pipe grace |
| `Identity.CanonicalIff` | src/hotswap/identity.ts:10-17 | two trees have one canonical form if and only if they differ in nothing but the order of object keys, at any depth |
| `Identity.CanonicalIdempotent` | src/hotswap/identity.ts:10-17 | the canonical form is its own, keeps keys unique, and differs from its source in nothing but key order |
| `Identity.FingerprintIff` | src/hotswap/identity.ts:18-27 | with a digest free of collisions, fingerprints agree if and only if the policies agree up to port and key order |
| `Identity.PortIsNotPolicy` | src/hotswap/identity.ts:21-23 | another port does not change the fingerprint |
| `Identity.Fingerprints.PolicyFingerprint` | src/hotswap/identity.ts:18-27 | the memo table returns what would be computed |

## Left out

- Sockets, HTTP parsing, process spawning, systemd and the file system's own failures are events or parameters.
- SHA-256, HMAC, JSON printing and parsing, UTF-8 decoding and base64url are uninterpreted functions with the facts a lemma names (a decoder of a concatenation decodes in two steps, a printer prints no line break and is inverted by its parser, an encoding has no dot and is inverted, a digest has no collisions).
- CarefulRemoval.ReservationRunsOnce: the case of orderly removal; the condition that covers every run is ReadOnce.OneHolderIff, and the bound without any is AtMostOnce.AtMostOnce.
- JobWorkers.JobWorker.RunJob: the uninterrupted process; that it may stop for good between two stretches is part of the machine's runs. The output files are not modelled.
- Recovery: a state file that is deleted counts as a first start and so resets the budget (`scripts/recovery.py:255-256`); neither that nor undetected damage is modelled.
- Ledger.WithinBudget: a result over the limit, which re-encoding invalid output can produce, is counted at the limit.
- ProcessResult: the missing exit code of a process ended by a signal is a code other than 0.
- BoundedProcess.SettlesInTime: timers later than any fixed lag, and the wait for the spool files after the settlement, are not modelled.
- AtMostOnce: policy checks before a reservation are one refusal step; `unknown` is a reply of a failed launch here and a computed view in Ledger, never a stored state.
- Ledger: the order of the listing, which matters only when it is cut off, and several stores on one directory.
- Recovery: probes, poll status, incident files and identifiers, the dry run, and the canary interval; a backend restart that is handed to the router counts as a restart.
- Concurrency: peak counters and the snapshot; an admitted function does not call the controller back before it first waits.
- Identity: enumeration of integer-like object keys before the others, which applies alike to a tree and to its canonical form; the constant-time comparison of secrets.
- Handles, router replies: rewriting of reply ids and of handles inside tool results.
- decodeRpc, inventory and status requests, the backend's other endpoints: shallow wrappers over the modelled parts.
- Shell and path policy, Kubernetes and desktop adapters, deployment scripts: not part of this model.
