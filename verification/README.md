# dr-exec in Dafny

A model of the parts of dr-exec whose correctness is a matter of interleavings, byte
streams and ownership, with proofs over every run and every input.

- **Scheduler** (`SchedulerModel`, `SchedulerProofs`, `ExecutionScheduler`). Every critical
  section of the scheduler is one atomic step of a transition system whose state also holds
  the items in the worker threads' hands and a history: admissions, finish order,
  departures, lost work. The class `Scheduler` follows the source method by method and each
  method is proved to perform exactly one step of the system. The laws are proved for
  arbitrary sequences of steps by drivers, workers, deadline watcher and closer.
- **Drivers** (`Batch`, `MapStream`, `StreamProgress`, `Orphans`, `Departures`). `run_batch` and
  the loop of `_drive_stream` under `map_stream`, one scheduler call per move, interleaved with
  all other parties.
- **Worker processes** (`WorkerSet`, `WorkerFates`, `Exchange`). The slot queue with its
  lock-free closed flag and locked registry as a program over threads' program counters, with
  what becomes of a worker when its lease ends; and one worker's two bounded byte pipes, serve
  loop, reader thread and callers, with stops and deaths at any point.
  Requests and answers are single lines because canonical text holds no LF
  (`Json.PrintPrintable`).
- **Protected protocol** (`Framing`, `Automaton`, `Failures`, `Protocol`, `Json`, `JsonReader`,
  `JsonText`, `Emissions`, `Wire`, `WireFormat`). The incremental budgeted framer and the frame
  automaton as classes, proved equal to a parse of the whole stream; which failure code a stream
  has, and exactly when, without the automaton; the child's writer; a canonical JSON printer and
  a recursive-descent reader that are exact inverses, with the texts written out by the rules of
  RFC 8259; the frames byte by byte; and writer and reader run one after the other.
- **Process engine** (`Transports`, `Joins`, `Descriptors`, `Retention`, `Attempt`). Who owns
  which descriptor across every fault; why the transport threads end once released; the
  child's staged descriptor remapping as a class over a descriptor table; head/tail retention;
  how a supervised child is reported.
- **Two algorithms** (`Utf8`, `Acyclic`). Byte-capped UTF-8 truncation over a decoder for
  arbitrary bytes (section 3 of RFC 3629), and the depth-first cycle check.

Verify with `dafny verify dfyconfig.toml`.

## Observations

- `release_owned` is documented to keep a departed driver from stalling the others
  (src/dr_exec/scheduling/scheduler.py:232-240). It only looks at the ready queue.
  `Orphans.OthersGoOnExactlyWhenInFlightWorkLeavesRoom` gives the exact condition: after the
  release the others can go on to admit work if and only if the intake is open and the
  departed owner's queued, running and lost work is less than the capacity. Which departure
  breaks the promise is in `Departures`: a stream stopped at a yield never does
  (`StoppingAtAYieldNeverStalls`); one whose consumer is cancelled in its wait can
  (`CancelledWaitCanStall`, a run of the stream itself), and one whose source raises leaves in
  the same way.
- The child's writer accepts any string (src/dr_exec/runtime/bootstrap.py:28-30), while the
  parent's frame model refuses a lone surrogate (src/dr_exec/runtime/protocol.py:89-95). A
  document with one is written and then reported as a malformed frame, after the outputs before
  it: `Wire.ParentRefusesWhatTheChildWrites`, with `Wire.OneSuchDocument` as an input.
- The joins of a close have no time limit. They return because every target that speaks the
  protocol also has a digest, so the forward pipe has a reader
  (src/dr_exec/execution/engine.py:1096-1098); `Joins.AnUnservedPumpCanHang` shows what would
  happen otherwise.
- Under the marked-truncation policy an overflow does not stop the child, but it is still
  reported as a budget failure: `_outcome_of` looks at the overflow alone
  (src/dr_exec/execution/engine.py:1141-1142).
- A stream whose retention drops bytes need not have overflowed:
  `Retention.DroppingWithoutOverflow`.

## Model

| member | source | states |
|---|---|---|
| `SchedulerProofs.TicketLaw` | src/dr_exec/scheduling/scheduler.py:108-130 | in every run the admitted items split exactly into pending, running, ready, departed and lost; token keys are the live tickets; residents count live and lost work within capacity; work is lost iff the scheduler is broken; after expiry every live token is cancelled |
| `SchedulerProofs.StepKeepsInv` | src/dr_exec/scheduling/scheduler.py:307-364 | every critical section keeps conservation, counting, staffing and flag discipline |
| `SchedulerProofs.RunKeepsInv` | src/dr_exec/scheduling/scheduler.py:108-364 | the invariant holds after every sequence of steps |
| `SchedulerProofs.ExpiryReachesEveryLaterTicket` | src/dr_exec/scheduling/scheduler.py:192-203 | after `expire` every live and every later ticket is cancelled for the rest of the run |
| `SchedulerProofs.CancelAllReachesExactlyTheLive` | src/dr_exec/scheduling/scheduler.py:186-190 | a cancel-all cancels the queued, running and buffered tickets and no other, moves nothing else, and they stay cancelled in every later run |
| `SchedulerProofs.ExpireReachesExactlyTheLive` | src/dr_exec/scheduling/scheduler.py:192-203 | an expiry cancels the same tickets and marks the scheduler expired |
| `SchedulerProofs.CancelAllSparesLaterTickets` | src/dr_exec/scheduling/scheduler.py:186-203 | unlike after an expiry, a ticket issued after a cancel-all is not cancelled in any run without a further cancel-all, expiry or break |
| `SchedulerProofs.NothingElseCancels` | src/dr_exec/scheduling/scheduler.py:108-364 | in every run of an unexpired scheduler without cancel-all, expiry and break nothing is cancelled |
| `SchedulerProofs.FailureCancelsExactlyTheQueued` | src/dr_exec/scheduling/scheduler.py:307-364 | a run that fails cancels exactly the queued tickets and loses that work with its own item, buffered completions stay |
| `SchedulerProofs.FailedHiringCancelsExactlyTheQueued` | src/dr_exec/scheduling/scheduler.py:356-364 | a worker that cannot be started cancels exactly the queued tickets and the new one |
| `SchedulerProofs.StaffingLaw` | src/dr_exec/scheduling/scheduler.py:254-290 | workers never exceed capacity; while healthy there is a worker for every queued and running item; workers leave only when nothing is queued |
| `SchedulerProofs.CapacityNeverRefusesANeededWorker` | src/dr_exec/scheduling/scheduler.py:254-257 | when a worker is needed the capacity guard does not hold it back |
| `SchedulerProofs.AdmissionMeans` | src/dr_exec/scheduling/scheduler.py:108-130 | what each answer of `admit` means for the queue, the tokens, the capacity and the intake |
| `SchedulerProofs.HiresExactlyWhenNeeded` | src/dr_exec/scheduling/scheduler.py:254-269 | in every reachable state an admission starts a worker iff queued and running work outnumber the workers, and breaks iff that start fails |
| `SchedulerProofs.StartsInAdmissionOrder` | src/dr_exec/scheduling/scheduler.py:278-290 | in every run a worker takes the queued item with the lowest ticket |
| `SchedulerProofs.ShutdownDropsNothing` | src/dr_exec/scheduling/scheduler.py:211-223 | once all workers are joined nothing is queued or running, so clearing the queue drops nothing |
| `SchedulerProofs.WaitingDriverHasAWorkerStep` | src/dr_exec/scheduling/scheduler.py:172-184 | while a driver waits some worker step is enabled and lowers 2·pending + running |
| `SchedulerProofs.WorkerRunsAreBounded` | src/dr_exec/scheduling/scheduler.py:271-322 | no run of worker steps is longer than the measure |
| `SchedulerProofs.WorkersAlwaysWakeAWaitingDriver` | src/dr_exec/scheduling/scheduler.py:172-184 | every maximal run of worker steps ends with no driver waiting |
| `SchedulerProofs.OwnersHaveIndependentQueues` | src/dr_exec/scheduling/scheduler.py:331-344 | for every owner, what it finished is what left its queue followed by what is in it, in finish order, whatever the others do |
| `SchedulerProofs.TakeServesOwnQueueOnly` | src/dr_exec/scheduling/scheduler.py:145-170 | a take returns the head of the taker's own queue, nothing only when that is empty, raises exactly when it is empty and the scheduler broken, and leaves other queues alone |
| `SchedulerProofs.ReleaseEmptiesOwnQueueOnly` | src/dr_exec/scheduling/scheduler.py:241-252 | a release empties one owner's queue and no other, and touches no queued or running work |
| `SchedulerProofs.DriversReceiveOnlyTheirOwn` | src/dr_exec/scheduling/pool.py:489-505 | in every run a driver is handed only completions it claims |
| `ExecutionScheduler.Scheduler.Open` | src/dr_exec/scheduling/scheduler.py:80-102 | refuses exactly the capacities below one; otherwise starts empty |
| `ExecutionScheduler.Scheduler.TryAdmit` | src/dr_exec/scheduling/scheduler.py:108-130 | performs exactly the admission step and returns its admission result |
| `ExecutionScheduler.Scheduler.Enqueue` | src/dr_exec/scheduling/scheduler.py:116-123 | queues the job under the next ticket, born cancelled after expiry, and takes a resident slot |
| `ExecutionScheduler.Scheduler.HireIfNeeded` | src/dr_exec/scheduling/scheduler.py:254-269 | starts a worker, breaks, or does nothing, as the staffing rule says |
| `ExecutionScheduler.Scheduler.BreakDown` | src/dr_exec/scheduling/scheduler.py:356-364 | cancels exactly the queued tickets and loses that work, once, and closes the intake |
| `ExecutionScheduler.Scheduler.StopIntake` | src/dr_exec/scheduling/scheduler.py:132-135 | performs exactly the close-intake step |
| `ExecutionScheduler.Scheduler.CancelAllWork` | src/dr_exec/scheduling/scheduler.py:186-190 | the cancelled set gains exactly the live tokens, and nothing else changes |
| `ExecutionScheduler.Scheduler.ExpireWork` | src/dr_exec/scheduling/scheduler.py:192-203 | the cancelled set gains exactly the live tokens, and later ones are marked |
| `ExecutionScheduler.Scheduler.TakeCompletionNowait` | src/dr_exec/scheduling/scheduler.py:145-170 | the scan takes the oldest claimed completion and returns it, nothing or the break |
| `ExecutionScheduler.Scheduler.HandOver` | src/dr_exec/scheduling/scheduler.py:339-343 | removes one completion with its token and slot |
| `ExecutionScheduler.Scheduler.Release` | src/dr_exec/scheduling/scheduler.py:232-252 | the loop drops exactly the claimed completions and their slots |
| `ExecutionScheduler.Scheduler.TakeAdmitted` | src/dr_exec/scheduling/scheduler.py:278-290 | hands over the oldest queued item, or lets the worker leave, never both |
| `ExecutionScheduler.Scheduler.FinishWork` | src/dr_exec/scheduling/scheduler.py:307-322 | buffers the completion, or loses the item and breaks without giving its slot back |
| `ExecutionScheduler.Scheduler.FinishShutdown` | src/dr_exec/scheduling/scheduler.py:218-223 | ends the shutdown, discarding completions unless preserved |
| `ExecutionScheduler.Scheduler.DiscardCompletions` | src/dr_exec/scheduling/scheduler.py:346-349 | forgets the buffered completions, their tokens and all residents |
| `Batch.NormalEndYieldsEveryJobOnce` | src/dr_exec/scheduling/scheduler.py:407-434 | a batch that returns saw no break, admitted exactly its source and yielded each job once, in finish order |
| `Batch.BreakSurfaces` | src/dr_exec/scheduling/scheduler.py:424-429 | the empty-completion return is unreachable; `SchedulerBroken` means lost work; a broken batch never returns normally; what is yielded is a prefix of the finish order |
| `Batch.NothingAdmittedAfterBreak` | src/dr_exec/scheduling/scheduler.py:356-371 | after a break no move admits anything |
| `Batch.BatchTerminates` | src/dr_exec/scheduling/scheduler.py:407-434 | every run has at most 15·n + 8 moves besides repeated expiries, for a source of n jobs; a run that neither the generator nor a worker can extend has ended, with nothing queued or running |
| `Batch.EndsAsItHappened` | src/dr_exec/scheduling/scheduler.py:407-434 | a batch ends as closed by its caller, or with its source's error, iff that is what happened in the run |
| `Batch.SourceIsPulledLazily` | src/dr_exec/scheduling/scheduler.py:407-434 | while nothing broke, the jobs pulled exceed the jobs yielded by at most the capacity |
| `Batch.WaitEndsExactly` | src/dr_exec/scheduling/scheduler.py:172-184 | in every reachable state a waiting batch can go on iff a completion is buffered, the scheduler broke, or nothing is queued or running |
| `Batch.MoveLowersWork` | src/dr_exec/scheduling/scheduler.py:374-434 | every move of generator, workers, caller or source lowers one measure; expiry keeps it |
| `Batch.PlayKeeps` | src/dr_exec/scheduling/scheduler.py:374-434 | every pulled job is in the log or the driver's hand, and completions come in finish order, throughout every run |
| `MapStream.SourceNeverRunsAhead` | src/dr_exec/scheduling/pool.py:508-532 | the source is asked at most delivered + width times, at every moment |
| `MapStream.NormalEndDeliversEverySubmissionOnce` | src/dr_exec/scheduling/pool.py:213-333 | a stream that ends normally while the pool runs has delivered every submission of its source exactly once |
| `StreamProgress.AStreamCanAlwaysReturn` | src/dr_exec/scheduling/pool.py:213-333 | from every state of every run in which the pool runs and takes work, some continuation ends the stream normally |
| `MapStream.NothingSubmittedAfterTheClose` | src/dr_exec/scheduling/pool.py:245-249 | a stream that found its pool closing submits nothing more in any later run |
| `MapStream.LeavesForGood` | src/dr_exec/scheduling/pool.py:328-333 | however a stream ends, nothing is left buffered for it, and in every later run it asks for nothing, submits nothing and delivers nothing |
| `MapStream.BreakIsReported` | src/dr_exec/scheduling/pool.py:324-327 | a stream raises for a break only after one, and then the pool is marked |
| `MapStream.PoolStateTellsTheBreak` | src/dr_exec/scheduling/pool.py:430-440 | in every run a pool marked broken has a broken scheduler, and one that closed has a healthy and empty one that never breaks later |
| `MapStream.OutstandingTracksOwnWork` | src/dr_exec/scheduling/pool.py:364-392 | `outstanding` is the number of the stream's own undelivered tickets |
| `MapStream.ForeignIsApart` | src/dr_exec/scheduling/pool.py:489-505 | no step of another party touches what this stream has queued or received |
| `MapStream.DriveIsOneCall` | src/dr_exec/scheduling/pool.py:213-333 | each driver move is at most one scheduler call, and an enabled one |
| `MapStream.DeliveredIsOwn` | src/dr_exec/scheduling/scheduler.py:331-344 | what left a claim's queue was admitted for it, without repeats |
| `Orphans.ReleaseFreesAllExactlyWhenNothingIsInFlight` | src/dr_exec/scheduling/scheduler.py:232-252 | after a release the owner's held slots stay exactly its queued, running and lost work, in every later run of the others; zero iff there was none |
| `Orphans.OthersGoOnExactlyWhenInFlightWorkLeavesRoom` | src/dr_exec/scheduling/scheduler.py:232-252 | the documented promise, exactly: after a release some run of the others reaches a state that can admit iff the intake is open and the owner's queued, running and lost work is below the capacity |
| `Orphans.OthersRecover` | src/dr_exec/scheduling/scheduler.py:271-344 | with room left by the departed owner, workers finishing and another driver taking make room |
| `Orphans.DepartedStreamCanStallThePool` | src/dr_exec/scheduling/scheduler.py:232-252 | an owner whose in-flight work fills the capacity when it leaves stops every later admission |
| `Orphans.StallIsReachable` | src/dr_exec/scheduling/scheduler.py:108-130 | such a state is two steps from the start |
| `Departures.StoppingAtAYieldNeverStalls` | src/dr_exec/scheduling/pool.py:377-392 | in every run a stream stopped at a yield leaves less than the capacity in flight, so the others can go on iff the intake is open |
| `Departures.TakeLeavesRoom` | src/dr_exec/scheduling/scheduler.py:331-344 | after an owned take the owner holds less than the capacity |
| `Departures.CancelledWaitCanStall` | src/dr_exec/scheduling/pool.py:310-333 | a run of one stream, cancelled in its wait with its job in flight, after which nobody can ever admit again |
| `WorkerSet.SlotLaw` | src/dr_exec/execution/worker_pool.py:271-364 | in every interleaving queued and held slots make up the width; no worker is held twice or held and queued; every spawned worker is terminated, registered, or owed by one thread |
| `WorkerSet.NothingSurvivesClose` | src/dr_exec/execution/worker_pool.py:322-357 | after a close, once every thread has returned, every spawned worker is terminated and the queue has full width |
| `WorkerSet.OpenSetServesLiveWorkers` | src/dr_exec/execution/worker_pool.py:271-303 | until the close, a leased or queued worker is registered and not terminated |
| `WorkerFates.DiscardedForGood` | src/dr_exec/execution/worker_pool.py:221-230 | in every run after a lease is discarded no other thread ever holds its worker and it is never queued again; once let go of, it is terminated or a close is about to; the slot is put back empty |
| `WorkerFates.ReleasedAlive` | src/dr_exec/execution/worker_pool.py:310-314 | in every run in which the set stays open a lease that ends without a discard puts its worker back, registered and not terminated |
| `WorkerFates.ReleasedAfterCloseIsRetired` | src/dr_exec/execution/worker_pool.py:310-314 | a lease released after the closed flag puts back an empty slot |
| `WorkerFates.LatecomersGetNothing` | src/dr_exec/execution/worker_pool.py:280-281 | a thread that comes after the closed flag, for a lease or a second close, never gets anything |
| `WorkerFates.DrainedIsTerminated` | src/dr_exec/execution/worker_pool.py:341-357 | an idle worker that a drain takes from the queue is terminated by the time it is let go of |
| `WorkerFates.SlotsAreServedInOrder` | src/dr_exec/execution/worker_pool.py:271-320 | in every run slots leave the queue in the order in which they came |
| `WorkerFates.AJobGetsAWorker` | src/dr_exec/execution/worker_pool.py:271-303 | in an open set with a free slot and a free lock a job comes by its own moves to lease the worker of the oldest slot, or the next one spawned when that slot is empty |
| `WorkerFates.ACloseSetsTheFlag` | src/dr_exec/execution/worker_pool.py:331-333 | a close that finds the set open sets the flag by its own moves |
| `WorkerFates.GivingUpCostsNothing` | src/dr_exec/execution/worker_pool.py:271-293 | a job that stops waiting changes nothing; one whose worker cannot be spawned puts an empty slot back |
| `WorkerSet.NoLeaseAfterClose` | src/dr_exec/execution/worker_pool.py:284-303 | once the closing snapshot is taken no step grants a lease |
| `WorkerSet.StepCounts` | src/dr_exec/execution/worker_pool.py:271-364 | every step moves slots or replaces the content of one, so the width is conserved; which content a lease puts back is stated by `WorkerFates.DiscardedForGood` and `WorkerFates.ReleasedAlive` |
| `WorkerSet.StepAccounts` | src/dr_exec/execution/worker_pool.py:359-364 | no step loses track of a spawned worker |
| `WorkerSet.StepSole` | src/dr_exec/execution/worker_pool.py:294-303 | no worker is owed by two threads, or owed while registered |
| `WorkerSet.StepShuts` | src/dr_exec/execution/worker_pool.py:294-303 | registering under the snapshot's lock keeps the registry empty after the snapshot |
| `WorkerSet.RunKeeps` | src/dr_exec/execution/worker_pool.py:271-364 | the invariant holds in every run |
| `WorkerSet.NobodyIsStuck` | src/dr_exec/execution/worker_pool.py:271-364 | in every reachable state a thread that is not idle and not waiting for a slot can move, or the holder of the lock it waits for can; and a closing thread can get to its end without any job ending |
| `WorkerSet.CloserReachesIdle` | src/dr_exec/execution/worker_pool.py:322-357 | a close gets to its end by moves of its own thread and of a thread in its critical section alone, while every job that holds a worker goes on holding it |
| `WorkerSet.StepLocks` | src/dr_exec/execution/worker_pool.py:294-303 | the lock is held exactly by the thread in its critical section |
| `Exchange.EveryFrameAnswersItsOwnRequest` | src/dr_exec/execution/worker_pool.py:601-623 | across jobs, stops and deaths, the k-th frame taken is what the worker wrote for the k-th request it read, and that request was the taker's own |
| `Exchange.ReturnedWorkerIsClean` | src/dr_exec/execution/worker_pool.py:443-482 | a released worker is ready, has no unanswered request, no buffered frame and nothing in its pipes |
| `Exchange.OnlyTheReadyFrameLetsThrough` | src/dr_exec/execution/worker_pool.py:163-184 | a job is let through to its worker iff the worker is known to be ready or its frame is the ready frame; anything else costs the lease |
| `Exchange.AWaitingCallerCanGiveUp` | src/dr_exec/execution/worker_pool.py:592-598 | a caller with a stop condition that waits for readiness or for its frame can always stop without the worker doing anything |
| `Exchange.NoPipeEverBlocksAJobForGood` | src/dr_exec/execution/worker_pool.py:140-150 | over pipes of any positive size, in every reachable state the caller can get to its end without a stop or a death, since worker and reader thread read while the other side writes |
| `Exchange.CallerMovesOn` | src/dr_exec/execution/worker_pool.py:163-184 | while a caller holds the lease some step other than a stop or a death is possible and lowers a measure |
| `Exchange.StepKeeps` | src/dr_exec/execution/worker_pool_worker.py:347-385 | every step of caller, worker or reader keeps the exchange in phase, byte by byte |
| `Exchange.DrainFrames` | src/dr_exec/execution/worker_pool.py:783-802 | the reader publishes exactly the whole lines of the bytes it was given, however they were cut, then the death marker |
| `Exchange.LinesOfASplit` | src/dr_exec/execution/worker_pool_worker.py:416-426 | a stream has only one split into lines and an unterminated rest |
| `Protocol.FrameAcquisition.ReadSize` | src/dr_exec/runtime/protocol.py:157-165 | the size is positive without the clamp, never reads past either budget by more than one byte, and is a whole chunk unless it meets a budget exactly |
| `Protocol.FrameAcquisition.Fill` | src/dr_exec/runtime/protocol.py:141-155 | keeps the buffer and total bounds; reports excess exactly when the total is exceeded; otherwise loses no byte and makes progress |
| `Protocol.FrameAcquisition.NextFrame` | src/dr_exec/runtime/protocol.py:119-139 | returns the next line of the stream or the violation the stream calls for, whatever the chunking |
| `Protocol.StreamState.Take` | src/dr_exec/runtime/protocol.py:187-257 | steps as the frame automaton; refuses a frame with a code iff the frame is wrong in the way that code stands for |
| `Protocol.ReadProtocolStream` | src/dr_exec/runtime/protocol.py:260-305 | for every chunking, equals the parse of the whole stream when it fits the total budget; otherwise it is OVERSIZED_FRAME with one byte past the budget received, or the failure the parse meets first; it receives what its result depends on and less than a chunk more |
| `Protocol.ExaminedBytesDecide` | src/dr_exec/runtime/protocol.py:141-155 | the bytes a result depends on decide it: whatever else follows them, outputs and failure are the same |
| `Automaton.ParseExtends` | src/dr_exec/runtime/protocol.py:281-305 | accepted outputs are never taken back |
| `Failures.FailsExactlyWhen` | src/dr_exec/runtime/protocol.py:187-305 | for every stream and code, without the automaton: the reading fails with that code after certain outputs iff the stream is a run of lines in order followed by something wrong in the way the code stands for |
| `Failures.RefusedExactlyWhenWrong` | src/dr_exec/runtime/protocol.py:203-257 | which frame is refused at which place with which code: foreign prelude, repeated prelude, early, duplicate, skipped or surplus output, wrong count, anything after the completion |
| `Json.PrintPrintable` | src/dr_exec/runtime/bootstrap.py:17-25 | canonical text holds no control byte, so no LF |
| `Json.SupplementaryKeysComeLast` | src/dr_exec/runtime/bootstrap.py:17-25 | sorted keys are in code-point order, so U+FFFF comes before U+10000 |
| `JsonReader.ReadsExactlyThePrinted` | src/dr_exec/runtime/bootstrap.py:17-25 | reading is the exact inverse of printing on well-formed values; whether a float numeral is canonical is the decoder's next test |
| `Wire.ReadsExactlyCanonicalText` | src/dr_exec/core/model.py:54-70 | bytes are read as a value iff the value is well formed, its floats are canonical and the bytes are its canonical text |
| `JsonReader.TextDeterminesValue` | src/dr_exec/runtime/bootstrap.py:17-25 | two well-formed values with the same canonical text are equal |
| `JsonReader.StrayNumeralsAreRefused` | src/dr_exec/core/model.py:61-70 | a lone sign, numerals run together and a leading zero are no canonical texts |
| `JsonText.TextOfAValue` | src/dr_exec/runtime/bootstrap.py:17-25 | every value's text is its word, numeral or string, or its parts between brackets with commas and nothing else |
| `JsonText.TextOfAUnit` | src/dr_exec/runtime/bootstrap.py:17-25 | a unit is its short escape, itself, or a backslash, a u and four lower-case digits that read as its number |
| `JsonText.TextOfAnInteger` | src/dr_exec/runtime/bootstrap.py:17-25 | an integer is an optional minus sign and digits without a leading zero whose value is its size |
| `JsonText.FloatTextIs` | src/dr_exec/runtime/bootstrap.py:17-25 | a float's text is a number of section 6 of RFC 8259 with a fraction or an exponent |
| `JsonText.FloatTextHas` | src/dr_exec/runtime/bootstrap.py:17-25 | and every such number is a float's text |
| `JsonText.PairedExactly` | src/dr_exec/runtime/protocol.py:89-95 | a text is free of lone surrogates iff every high one is followed by a low one and every low one preceded by a high one |
| `Emissions.SuccessExactlyOnEmissions` | src/dr_exec/runtime/protocol.py:281-305 | over any sound codec, parsing succeeds iff the bytes are the emission of some documents within budgets |
| `Emissions.PrefixKeepsWholeOutputs` | src/dr_exec/runtime/protocol.py:128-138 | over any sound codec, a cut emission yields exactly the whole documents and INCOMPLETE_STREAM |
| `Emissions.ReadStream` | src/dr_exec/runtime/protocol.py:260-305 | over any sound codec and every chunking, the reader succeeds iff the stream fits the total budget and is the emission of some documents within the other budgets, and then returns them; it fails with a code iff the stream halts in the way of that code |
| `Emissions.WriteThenRead` | src/dr_exec/runtime/bootstrap.py:132-144 | for any documents the writer accepts, the bootstrap followed by the reader is the replay of the written frames, and succeeds iff the driver returned and everything fits |
| `Emissions.ParsingIsReplaying` | src/dr_exec/runtime/protocol.py:281-305 | parsing written lines is running the automaton on their frames |
| `Emissions.SuccessExactlyWhenAllFits` | src/dr_exec/runtime/protocol.py:281-305 | a replay succeeds iff the frames are completed and all fit |
| `Emissions.RefusedOutputDecides` | src/dr_exec/runtime/protocol.py:299-305 | the first output that does not decode keeps what came before it and gives the failure code |
| `Emissions.WriteCutRead` | src/dr_exec/runtime/protocol.py:128-138 | the bootstrap followed by the reader on a proper prefix gives exactly the documents wholly inside it |
| `Emissions.UnfinishedIsIncomplete` | src/dr_exec/runtime/protocol.py:196-201 | an emission without its completion line is INCOMPLETE_STREAM with all its documents |
| `Emissions.ProtocolWriter.WriteFrame` | src/dr_exec/runtime/bootstrap.py:125-129 | appends one line, or raises on a completed stream |
| `Emissions.ProtocolWriter.Emit` | src/dr_exec/runtime/bootstrap.py:102-114 | appends the next numbered output, or changes nothing when it raises |
| `Emissions.ProtocolWriter.Finish` | src/dr_exec/runtime/bootstrap.py:116-123 | appends the completion with the output count and closes |
| `Emissions.Bootstrap` | src/dr_exec/runtime/bootstrap.py:132-144 | leaves on the stream the emission of the accepted documents, without the completion line when the driver raises |
| `Wire.DecodesExactlyItsEncoding` | src/dr_exec/runtime/protocol.py:64-101 | a frame is decoded from bytes iff it is valid, the bytes are its canonical text and its nesting keeps the depth budget; valid excludes lone surrogates |
| `WireFormat.DecoderAnswers` | src/dr_exec/runtime/protocol.py:64-101 | for all bytes: the frame they encode, or OVERSIZED_FRAME iff they are nested too deep, or MALFORMED_FRAME |
| `WireFormat.PreludeBytes` | src/dr_exec/runtime/wire.py:14-17 | the prelude byte by byte |
| `WireFormat.OutputBytes` | src/dr_exec/runtime/wire.py:20-24 | an output byte by byte around its document |
| `WireFormat.DocumentBytes` | src/dr_exec/runtime/bootstrap.py:17-25 | a document byte by byte around its payload |
| `WireFormat.CompleteBytes` | src/dr_exec/runtime/wire.py:27-30 | the completion byte by byte |
| `WireFormat.DepthIsNesting` | src/dr_exec/runtime/protocol.py:64-101 | the depth that is budgeted is the least bound on the nesting |
| `Wire.NonCanonicalTextIsRefused` | src/dr_exec/core/model.py:54-70 | bytes that are no canonical text are MALFORMED_FRAME, or OVERSIZED_FRAME when their nesting is at fault |
| `Wire.WireCodecSound` | src/dr_exec/runtime/protocol.py:64-101 | only a frame's own LF-free encoding decodes to it |
| `Wire.FittingMeans` | src/dr_exec/runtime/protocol.py:104-107 | a frame fits iff it is valid and keeps the depth and byte budgets |
| `Wire.WithinBudgetsMeans` | src/dr_exec/runtime/protocol.py:228-235 | an emission keeps the frame, depth and count budgets iff its id is a digest, its documents are valid, every frame fits and the outputs keep their count; the total budget is a separate clause of the reader |
| `Wire.ReadFrames` | src/dr_exec/runtime/protocol.py:187-305 | for every chunking the reader succeeds iff the stream fits the total budget and is prelude(id), outputs 0..n-1 and complete(n), one per line, nothing after, within every budget; outputs and failure code are exactly those of the first thing wrong with the stream |
| `Wire.RoundTrip` | src/dr_exec/runtime/bootstrap.py:77-144 | for any test the child applies, the bootstrap followed by the reader is the replay of the written frames; it succeeds iff the driver returned, the total fits and the parent accepts every frame, and then returns exactly the accepted documents |
| `Wire.ParentRefusesWhatTheChildWrites` | src/dr_exec/runtime/protocol.py:89-95 | the first document with a lone surrogate ends the stream as malformed, keeping the outputs before it |
| `Wire.LoneSurrogateIsMalformed` | src/dr_exec/runtime/protocol.py:89-95 | the frame of such a document is MALFORMED_FRAME |
| `Wire.OneSuchDocument` | src/dr_exec/runtime/bootstrap.py:28-30 | a concrete one |
| `Wire.CutRoundTrip` | src/dr_exec/runtime/protocol.py:128-201 | when the parent accepts every written frame, the reader on any proper prefix of what the bootstrap wrote reports INCOMPLETE_STREAM and exactly the documents wholly inside it |
| `Descriptors.DescriptorTable.Lift` | src/dr_exec/execution/spawn.py:76-78 | the dup loop ends above the target range, succeeds iff a high number is free, and uses up one |
| `Descriptors.DescriptorTable.Stage` | src/dr_exec/execution/spawn.py:74-79 | staging succeeds iff there are enough free high numbers and copies every source |
| `Descriptors.DescriptorTable.CloseSources` | src/dr_exec/execution/spawn.py:80-81 | closes all sources, failing exactly when one is listed twice |
| `Descriptors.DescriptorTable.Place` | src/dr_exec/execution/spawn.py:82-84 | puts every staged copy on its target and closes it |
| `Descriptors.DescriptorTable.Remap` | src/dr_exec/execution/spawn.py:65-86 | succeeds iff sources are distinct and enough high numbers are free; then each target is inheritable on its source's original file, others are unchanged, and leftovers are low and not inheritable |
| `Descriptors.PayloadGetsExactlyTheTargets` | src/dr_exec/execution/engine.py:871-882 | with only the sources inheritable before, the payload inherits the targets and nothing else |
| `Descriptors.OrderIsIrrelevant` | src/dr_exec/execution/spawn.py:65-73 | the order of the pairs does not change what the payload inherits |
| `Transports.EveryDescriptorClosedOnce` | src/dr_exec/execution/engine.py:856-924 | for every fault and interleaving no descriptor is closed twice or used after its close, and a finished attempt has closed every one it opened |
| `Transports.NothingIsTakenTwice` | src/dr_exec/execution/engine.py:577-605 | the already-taken errors cannot arise |
| `Transports.ReleaseComesFirst` | src/dr_exec/execution/engine.py:613-638 | in every run the release byte is written before a close comes to its joins and before any descriptor that threads only borrow is closed |
| `Transports.FlawlessAttempt` | src/dr_exec/execution/engine.py:1063-1125 | in every run without a fault exactly the threads the target needs are started before the wait, and the attempt waits, tears down and joins, in that order, before it closes |
| `Transports.FailureEndsTheAttempt` | src/dr_exec/execution/engine.py:856-924 | after a failed launch, setup or start the attempt never waits, and neither that thread nor a later one ever runs |
| `Transports.JoinedPumpIsServed` | src/dr_exec/execution/engine.py:1063-1125 | at the joins of a close a running pump that forwards a protocol has a reader thread or a closed read end, whatever failed to start |
| `Joins.JoinsReturn` | src/dr_exec/execution/engine.py:238-334 | once the release byte is written every run of the threads is bounded, and where none can go on all have ended |
| `Joins.ForwardingLosesNothing` | src/dr_exec/execution/engine.py:327-334 | in every run in which the reader reads, each protocol byte the pump took in has been read, is in the forward pipe, or is still to be written |
| `Joins.CloseJoinsReturn` | src/dr_exec/execution/engine.py:635-638 | for every target, fault and moment at which a close comes to its joins, the release byte is written, the threads it finds have a served forward pipe and bounded runs, and all end |
| `Joins.SomeStep` | src/dr_exec/execution/engine.py:635-638 | until every thread has ended, some thread can go on, through a forward pipe of any positive size |
| `Joins.AnUnservedPumpCanHang` | src/dr_exec/execution/engine.py:332-334 | without a reader and with its read end open, a full forward pipe blocks the pump for good |
| `Joins.AnUnreleasedPumpNeedNotEnd` | src/dr_exec/execution/engine.py:613-615 | without the release byte a child that keeps writing keeps the pump running for any number of rounds |
| `Transports.StepOwned` | src/dr_exec/execution/engine.py:1063-1125 | every step leaves each opened descriptor in exactly one hand |
| `Transports.StepOrderly` | src/dr_exec/execution/engine.py:238-252 | every step only touches descriptors that are still open |
| `Transports.RunKeeps` | src/dr_exec/execution/engine.py:283-304 | ownership and order hold in every run |
| `Retention.StreamRetention.Offer` | src/dr_exec/execution/retention.py:22-40 | for every chunking, head, tail and dropped count are functions of the whole stream |
| `Retention.LosslessExactlyWhenItFits` | src/dr_exec/execution/retention.py:22-48 | nothing is dropped iff the stream fits head plus tail, iff head plus tail is the stream |
| `Retention.OnlyTheMiddleIsDropped` | src/dr_exec/recording/models.py:197-207 | the stream is head, dropped middle, tail |
| `Retention.MoreNeverUndrops` | src/dr_exec/execution/retention.py:22-40 | heads only grow and dropped bytes never come back |
| `Retention.StreamRetention.Snapshot` | src/dr_exec/execution/retention.py:42-48 | the counters kept by `offer` satisfy the recorded stream's own check: head, tail and dropped add up to produced, and each is the function of the stream it should be |
| `Retention.OverflowMeansDropping` | src/dr_exec/declarations/models.py:115-125 | under a consistent budget what is kept fits the total, and output beyond it was dropped |
| `Retention.NothingDroppedExactlyWhenEachFits` | src/dr_exec/execution/retention.py:22-48 | nothing is dropped iff each stream fits its own share |
| `Retention.DroppingWithoutOverflow` | src/dr_exec/execution/retention.py:87-92 | dropping does not mean overflow, on a concrete budget |
| `Retention.PayloadRetention.ForBudget` | src/dr_exec/execution/retention.py:69-81 | gives each stream its share, or no limit |
| `Retention.PayloadRetention.Take` | src/dr_exec/execution/engine.py:327-331 | routes a chunk to one stream and reports overflow exactly when the total is exceeded; overflow never reverts |
| `Attempt.AwaitChild` | src/dr_exec/execution/engine.py:476-498 | the loop ends in the first round with a reason to end, for the first reason in its order of precedence, every earlier round going on; or every round goes on |
| `Attempt.StreamsAreWhatWasWritten` | src/dr_exec/execution/engine.py:327-331 | in every run each retained stream is what was written to it, in order, however it was cut |
| `Attempt.PollsAreTheWaitingLoop` | src/dr_exec/execution/engine.py:466-498 | in every interleaving with the pump, the polls are an execution of that loop over the overflow event as the pump left it |
| `Attempt.StoppedChildIsReportedAsStopped` | src/dr_exec/execution/engine.py:466-498 | a child the waiting loop stopped is reported as over budget or cancelled, whatever arrives later |
| `Attempt.ExitStatusReportedExactlyWhen` | src/dr_exec/execution/engine.py:1133-1153 | the exit status is reported iff nothing was stopped, the output kept its total and the protocol did not fail; and then as the exit code, or as the signal of a negative return code |
| `Attempt.OutcomeExactly` | src/dr_exec/execution/engine.py:1133-1153 | for every run each outcome, with its axis, code, number and count, is reported iff a condition on the bytes produced, the last poll, the protocol's failure and the return code holds |
| `Attempt.WaitEndsExactlyForAReason` | src/dr_exec/execution/engine.py:476-498 | in every run the wait has ended iff some poll saw a reason; the child is left alone iff it was gone or its transports failed, and stopped for its output iff it ran over under the policy that stops |
| `Attempt.RunsStayWithinTheBudget` | src/dr_exec/execution/retention.py:83-92 | in every interleaving of both streams the kept bytes fit the total, and a raised overflow means dropped bytes |
| `Utf8.TruncationKeepsTheLongestPrefix` | src/dr_exec/importable_json.py:183-198 | a detail that fits is unchanged after escaping; any other is the longest prefix within 8177 bytes plus the marker, at most 3 bytes short |
| `Utf8.TruncationIsBounded` | src/dr_exec/importable_json.py:183-198 | the result encodes to at most 8192 bytes and equals the escaped text iff that fits |
| `Utf8.CutKeepsWhatFits` | src/dr_exec/execution/worker_pool_worker.py:205-220 | decoding a cut encoding, ignoring errors, keeps exactly the characters that fit |
| `Utf8.RoundTrip` | src/dr_exec/importable_json.py:192-194 | decoding an encoding gives the text back, whatever is substituted for errors |
| `Utf8.EscapeLeavesScalars` | src/dr_exec/importable_json.py:186-192 | a text without surrogates is not changed by escaping |
| `Utf8.EscapingReplacesSurrogates` | src/dr_exec/importable_json.py:186-192 | every surrogate becomes a backslash, a u and the four lower-case digits of its number, and nothing else changes |
| `Utf8.EncodingIsInTheTable` | src/dr_exec/importable_json.py:192-194 | an encoded character has the bits of its number in the order of section 3 of RFC 3629 |
| `Acyclic.ValidateAcyclic` | scripts/check_defs.py:83-106 | accepts iff the relation has no cycle and every target is known; a reported path is a real cycle; an unknown target is one |
| `Acyclic.Search.Visit` | scripts/check_defs.py:91-103 | finishes the name and everything below it, restores the path, or reports an honest failure; terminates |
| `Acyclic.FinishingOrderExcludesCycles` | scripts/check_defs.py:83-106 | an order in which every edge leads back excludes every cycle |

## Left out

- `run_batch`, `_drive_stream`, `_WorkerSet`, `_WorkerLease`, the worker exchange and `_Transports` are modelled as step functions over values, one step per atomic action, and not as classes: their point is what other threads do between two actions. Aliasing of the objects involved is not captured.
- The scheduler's condition variable: a wait is a step that is enabled when its condition holds; notifications and the pool's wake-up callback are not modelled, so a missed notification is not excluded.
- Cancel tokens are a set of cancelled tickets; what an executor does with a cancelled token is not modelled.
- asyncio tasks, shields and event-loop affinity; pool open and close appear only as the steps other streams can observe.
- Floating-point conversion: which numerals with a fraction or exponent are the printed form of their own value is a parameter of the decoder, over the number grammar of section 6 of RFC 8259. Integers are concrete, without the interpreter's limit on digits.
- Whether bytes that are not canonical text are refused for their nesting or otherwise: a parameter, since the strict decoder belongs to another package.
- What the parent's document validator refuses beyond a wrong shape and lone surrogates: a parameter, since it belongs to another package.
- Texts are sequences of UTF-16 units, so a text that holds a high surrogate directly followed by a low one as two code points is identified with the character they encode.
- The depth ceiling of the JSON decoder is folded into the depth budget.
- `Emissions.Bootstrap`: a driver is a list of documents and whether it returns; drivers that catch an error of `emit` are covered, drivers that write to the descriptor directly are not.
- Interpretation of a worker's frame into an outcome, and request decoding in the worker: branch-by-branch mappings.
- Entry points that write to the result pipe, and descendants that inherit it.
- `Descriptors.DescriptorTable.Remap`: requires the sources to be open, as the parent passes them; the table after a failure is not described, since the child exits.
- Failures to create a pipe, a selector or a file object, and launch errors other than an operating-system error.
- Process groups, signals, teardown timing and the parent watchdog.
- `Acyclic.ValidateAcyclic`: the interpreter's recursion limit is not modelled.
- The rendering of an exception before its truncation.
- The run store, the declaration and recording schemas, identity digests, the in-process executor and the command line: schema data and thin wrappers.
