# A verified model of the remote execution service

The service accepts clients on a named pipe, launches a process for each RUN request, streams the
process's two output pipes back in length-prefixed frames, and keeps a registry of jobs that launchers,
exit waiters, timeout monitors, cancel requests and an idle cleaner all change at once. This project
models that behaviour and proves what holds of it over every input, every run and every interleaving.

`dafny verify dfyconfig.toml` checks everything.

| module | subject |
|---|---|
| `MachineWords`, `Errors` | fixed-width words, host byte order, error values |
| `Protocol`, `PipeFraming` | frame codec; length prefix, short reads and writes, writer task |
| `Streaming` | one connection as a step system: pumps sharing a window, channel, writer, updaters |
| `WindowBound`, `WindowWitnesses` | the exact overshoot of the shared window; runs that show why each condition is there |
| `Wakeups`, `OutputBound`, `SessionEnd` | when a waiting sender is woken; how much output a job can have without credit; when its session can end |
| `Delivery`, `PumpLaws` | from the child's bytes to what a client parses; what makes a pump stop, and how full the channel gets |
| `IoPump` | the `StreamPump` object and the read loop, and their exact credit accounting |
| `JobStates`, `JobRegistry`, `JobManagers` | the state machine, the registry as a value, the manager object that refines it |
| `CapacityRace`, `SweepRace`, `LockOrder` | `create_job` and `cleanup_idle_jobs` under races; lock order and absence of deadlock |
| `JobLifecycle`, `JobOutcomes`, `JobSolo` | all tasks of one job as a step system with rely and guarantee conditions; whole-run results; each task alone |
| `TimeoutMonitor`, `EnvBlock`, `RequestLoop` | timing of the monitor; environment block; the client session |

Concurrent code is modelled with one step per atomic access, lock acquisition or send, and a run is any
finite list of enabled steps. Code that updates state in place is a class whose methods are proved equal
to a function on values, and the lemmas speak about that function.

What one operation does alone is stated next to it: `JobRegistry.CreateNeverOverwrites`,
`JobRegistry.CancelAlone` and `JobRegistry.QuietSweepSparesLiveJobs` for the registry, and
`RequestLoop.FailedLaunchLeavesNoJob` and `RequestLoop.LaunchAddsOneRunningJob` for a RUN request.

## Where the code differs from its documents

The model follows the code.

- Byte order: `encode` applies `to_be` and then writes big-endian, so on a little-endian host `flags`,
  `job_id` and `sequence_number` arrive byte-reversed, and `FLAG_EOS` arrives as 0x0100. The host order is
  a parameter everywhere.
- The length prefix is big-endian; ARCHITECTURE.md:37 says little-endian.
- `update_window` raises the window and lowers the bytes in flight, so one acknowledged byte buys two. The
  bounds proved are the ones that follow from that. The window belongs to a job, not to a stream.
- No file calls `update_window`. A job whose two outputs exceed 65536 bytes together therefore never
  completes both streams, and up to that no pump ever waits (`OutputBound.OutputDichotomy`). Such a job
  also keeps its client's session, and with it a connection permit (`SessionEnd.SessionDichotomy`).
- Overlapping calls of `update_window` can subtract the same bytes twice; the window's bound holds iff they
  do not subtract more than is in flight (`WindowBound.RacyWindowBoundExact`).
- A notification that falls between a sender's first load and its wait can be lost. `Wakeups` proves that
  no other notification is, and exactly when one at those stages strands the sender.
- EXIT is not ordered after the end markers of the outputs, although ARCHITECTURE.md:477 describes a drain:
  it is the last frame iff both pumps have finished when the waiter sends it (`JobOutcomes.ExitIsLast`).
- The quiet sweep can remove a live job that was created after its scan began (`SweepRace`).
- The request loop compares the error's code with the plain number of a broken pipe, while the error was
  built from the binding's HRESULT. The branch for a client that disconnected is therefore never taken
  (`ProcessRequests` ends in a read error instead). The Windows bindings are not part of this model; that
  they report HRESULTs, never positive as signed numbers, is assumed in `Errors.HResult`.
- An idle cleaning may make a quiet sweep possible only for the next one, so one call need not reach a
  fixpoint (`OneCleaningIsNotEnough`).
- CODE_REVIEW.md describes other code and is not used.

## Model

| member | source | states |
|---|---|---|
| `Delivery.EndToEnd` | src/io_pump.rs:115-173 | Dropping off: for every interleaving of any number of pumps with distinct streams, the channel, the writer and all other senders, and for every number of arrived bytes, the payloads parsed for a stream are a prefix of what its pump has read, and equal to it once the end marker is among the parsed frames |
| `Delivery.ClientSeesQueuePrefix` | src/pipe_server.rs:151-162 | Any initial part of the written bytes parses to an initial part of the frames sent to the channel, then to a truncation, never to an altered or malformed frame |
| `Delivery.ClientSeesDelivered` | src/pipe_server.rs:345-357 | A stream's parsed frames are an initial part of those its pump delivered, whatever the drop policy |
| `Delivery.NumberedDelivery` | src/io_pump.rs:125-172 | Over every run and field by field: the j-th frame a pump produces is an OUTPUT frame of its stream and job with sequence number j modulo 2^32; it carries 1 to 32768 bytes and no flag, except that the last may be the empty frame with flag 1, which is there iff the pump has ended; what was read is the payloads of all of them; the channel holds exactly those not dropped, in order |
| `PumpLaws.EosIffEndReached` | src/io_pump.rs:128-172 | Over every run: a pump builds its end marker iff it comes to the end of its pipe or sees the token cancelled, never after a failed read |
| `PumpLaws.CancelledPumpStopsReading` | src/io_pump.rs:128-131 | Once the token is cancelled a pump finishes at most the read it is in, over every run |
| `PumpLaws.ChannelIsBounded` | src/pipe_server.rs:149-149 | Over every run the channel holds at most 256 frames |
| `PumpLaws.SenderWaitsForRoom` | src/io_pump.rs:44-48 | A pump whose frame is charged is held up exactly by a full channel and fails exactly on a closed one |
| `PumpLaws.OversizedFrameStopsWriter` | src/pipe_server.rs:151-162 | The writer gives up at a frame whose payload is above 32768 bytes |
| `PumpLaws.ClosedWriterWritesNothing` | src/pipe_server.rs:151-162 | Over every run a writer that has given up takes and writes nothing more |
| `PumpLaws.WindowIsCredited` | src/io_pump.rs:27-29 | Over every run the window grows by exactly the bytes its updates acknowledge, modulo 2^64 |
| `Delivery.SoleSenderKeepsEos` | src/io_pump.rs:36-58 | One sender, no wrap by credit and no subtraction beyond what is in flight: the end marker is never dropped, over every run and any number of updaters |
| `WindowWitnesses.EosDroppedWithTwoSenders` | src/io_pump.rs:47-49 | For every number of senders from two on, every non-empty window and dropping on, a reachable state has dropped an end marker |
| `Delivery.RunConserves` | src/io_pump.rs:47-53 | Conservation: at every moment the bytes charged to the window are those of the delivered frames and of the frames charged but not yet on the channel |
| `OutputBound.OutputDichotomy` | src/io_pump.rs:36-58 | Without updates and with dropping off, for any window, any streams and any outputs of the children: the outputs together fit the window iff no schedule ever makes a pump wait for good, and iff some schedule completes every stream with all its output. Beyond the window some schedule hangs and none completes |
| `OutputBound.CompletedOutputAsWired` | src/pipe_server.rs:254-290 | The same for the job as the server wires it: the exact boundary is 65536 bytes for stdout and stderr together |
| `OutputBound.NothingRefused` | src/io_pump.rs:36-58 | Under either policy and every schedule, a job whose output so far fits the window has had no frame refused and none dropped |
| `OutputBound.CompletedFitsWindow` | src/io_pump.rs:162-172 | Under every schedule, when all streams have ended the job has read at most the window: the last end marker to be tested sees all that was charged |
| `SessionEnd.SessionDichotomy` | src/pipe_server.rs:163-169 | A session waits for its writer, which stops only when every sender is gone. If the job's outputs fit the window, the session can still end from every moment any run may reach short of a failed write; if not, some run reaches a moment from which no continuation without a failed write ends it, so the connection's permit is not returned |
| `SessionEnd.FittingSessionCanEnd` | src/pipe_server.rs:151-169 | From every reachable moment at which what has been read fits the window, some continuation ends all pumps, writes everything and ends the session |
| `SessionEnd.ParkedNeverEnds` | src/pipe_server.rs:163-169 | With one pump waiting and no updates, no continuation without a failed write ends the session |
| `SessionEnd.EndedSessionIsComplete` | src/pipe_server.rs:151-162 | When the writer ends in order, the wire holds every frame ever sent, whole and in order, and parses to exactly those |
| `WindowBound.RacyWindowBound` | src/io_pump.rs:27-58 | For n pumps sharing one window and any number of overlapping updates none of whose subtractions exceeds what is in flight, without 64-bit wrap by credit, every reachable state has bytes in flight at most the window plus (n - 1) * min(window, 32768), and the window is the initial one plus all credit |
| `WindowBound.RacyWindowBoundExact` | src/io_pump.rs:27-58 | With the counters in the lower half of their range, a run keeps the bound at every moment iff none of its subtractions exceeds what is in flight: the first one that does breaks it at once |
| `WindowBound.SeparateRunsFit` | src/io_pump.rs:30-32 | Subtractions never exceed what is in flight if no update loads the counter while another is between its load and its subtraction, in particular with a single updater |
| `WindowBound.AcceptedAsWired` | src/pipe_server.rs:254-290 | Without updates two pumps of a job charge at most 65536 + 32768 payload bytes over the job's whole life, whether or not it completes |
| `WindowBound.ParkedForever` | src/io_pump.rs:52-54 | Without updates a parked pump never moves again |
| `WindowWitnesses.RacyWindowBoundIsTight` | src/io_pump.rs:40-48 | For every number of pumps and every window a run attains the racy bound |
| `WindowWitnesses.TwoUpdatersUnderflow` | src/io_pump.rs:27-34 | An input that fails the condition: two overlapping updates that have both loaded the same bytes drive the counter below zero, to 2^64 - 10 |
| `WindowWitnesses.WrappedWindowBreaksBound` | src/io_pump.rs:28-29 | Credit that wraps the window leaves it below the bytes in flight: the bound needs the no-wrap condition |
| `Wakeups.WakeupsKept` | src/io_pump.rs:40-54 | For any number of pumps and of overlapping updates whose subtractions fit: if no update notifies while a pump is between its first load and its wait, then whenever no update is under way and the pump waits, its frame does not fit |
| `Wakeups.StrandedIffDeafened` | src/io_pump.rs:27-54 | At any of the three stages in between: after the last update notifies and the pump goes on, it waits although its frame fits, with nobody left to wake it, iff the frame fits by now but not by what the pump has loaded |
| `Wakeups.LostWakeup` | src/io_pump.rs:40-54 | None of the three stages can be left out: for each a run notifies at no other stage and strands the pump |
| `IoPump.StreamPump.UpdateWindow` | src/io_pump.rs:27-34 | Run alone, performs `Acknowledge` on the two counters |
| `IoPump.StreamPump.TrySendFrame` | src/io_pump.rs:36-58 | The retry loop, with any atomic accesses of other tasks to the two counters before each of its own, performs `Offer`: the test sees the counters as they were at the two loads, the addition is made to what they are then; the channel gets the frame exactly when it is accepted and a receiver listens |
| `IoPump.QuietOffer` | src/io_pump.rs:39-55 | Without interference, over any number of turns: accepted iff it fits, dropped iff it does not and dropping is on, and nothing is charged unless it is accepted |
| `IoPump.OfferSeesEachMoment` | src/io_pump.rs:40-47 | With others charging and raising between the three accesses: the test takes the bytes in flight as of the first load and the window as of the second, and the payload is added to what is in flight by then |
| `IoPump.ExactCredit` | src/io_pump.rs:27-58 | Sequential runs with W0 initial, S accepted, A acknowledged: the window is W0 + A; bytes in flight lie between S - A and S and equal S - A iff no acknowledgement exceeded what was in flight; then S is at most W0 + 2A |
| `IoPump.ExactCreditIsTight` | src/io_pump.rs:27-58 | For every non-empty initial window and every A in range a run attains S = W0 + 2A, with bytes in flight above the initial window by A |
| `IoPump.BooksBalance` | src/io_pump.rs:27-58 | For arbitrary acknowledgements the credit equations are kept, the bytes in flight never underflow and never exceed the window |
| `IoPump.StartOutputPump` | src/io_pump.rs:115-173 | On the shared window object, with other tasks' accesses to it at every point: the frames offered carry, field by field, the chunks of the turns that the window lets the loop make, the j-th with sequence number j modulo 2^32, and a last empty one with flag 1 iff the loop came to its end; with dropping off the channel receives exactly these, in order, but for the last if the loop breaks on it |
| `IoPump.CourseFollowsInputs` | src/io_pump.rs:127-161 | The turns are those of the inputs in order, and the loop stops only after a cancelled token, the end of the pipe, a failed read or a failed send |
| `IoPump.ChunksAreReads` | src/io_pump.rs:139-153 | The chunks are never empty and joined are exactly the bytes the turns have read |
| `Protocol.EncodeFrame` | src/protocol.rs:125-155 | Succeeds iff the payload is at most 32768 bytes; the output is 12 bytes longer than the payload and within the reader's limit |
| `Protocol.DecodeEncode` | src/protocol.rs:125-178 | Decoding an encoded frame gives the frame with flags, job id and sequence number as the host order shows them, all else unchanged |
| `Protocol.EncodedBytes` | src/protocol.rs:143-152 | The bytes of an encoded frame: the two tags, then flags, job id and sequence number as base-256 digits, most significant first on a big-endian host and last on a little-endian one, then the payload |
| `Protocol.WireTags` | src/protocol.rs:10-77 | The byte of every frame type and every stream |
| `Protocol.EncodeDecode` | src/protocol.rs:125-178 | Every accepted byte string within the size limit is the encoding of the frame it decodes to: no two decode alike |
| `Protocol.DecodeAccepts` | src/protocol.rs:157-178 | Decoding succeeds iff there are 12 bytes and both tag bytes are known |
| `Protocol.RoundTrip` | src/protocol.rs:149-178 | One round trip is the identity iff the host is big-endian or the three numeric fields are byte palindromes; two round trips always are |
| `Protocol.EosSurvives` | src/protocol.rs:121-155 | When a decoded frame shows the end-of-stream flag: iff bit 0 was set on a big-endian host, bit 8 on a little-endian one |
| `Protocol.EosLostOnLittleEndian` | src/protocol.rs:149-149 | A concrete end marker whose flag is lost on a little-endian host |
| `Protocol.EchoedJobId` | src/protocol.rs:149-151 | A job id that a client decodes and sends back reaches the server unchanged iff both hosts have the same order or the id is a byte palindrome |
| `PipeFraming.ParseWire` | src/pipe_server.rs:345-401 | The written form of any encodable frames, followed by anything, reads back to those frames in order and consumes exactly their bytes |
| `PipeFraming.ParseCutWire` | src/pipe_server.rs:345-386 | A stream cut after any number of bytes yields exactly the frames that fit, then a truncation |
| `PipeFraming.ParseCutFrame` | src/pipe_server.rs:345-357 | A proper prefix of one frame's bytes is never taken for a frame |
| `PipeFraming.WireBytes` | src/pipe_server.rs:392-401 | Before a frame go four bytes with its length, 12 more than its payload, most significant byte first |
| `PipeFraming.ParseCases` | src/pipe_server.rs:345-357 | What one read makes of any bytes: too few of them, a length beyond 1048576, or exactly as many bytes as the length says for the decoder |
| `PipeFraming.ParseAllStops` | src/pipe_server.rs:173-187 | Reading frames stops at the first failure and leaves all remaining bytes |
| `PipeFraming.Pipe.ReadExact` | src/pipe_server.rs:359-386 | Whatever the sizes of the reads, success returns exactly the next bytes; on a healthy pipe failure means that fewer were left |
| `PipeFraming.Pipe.ReadFrame` | src/pipe_server.rs:345-357 | One read from the pipe refines the parse of its bytes: same frame and rest, same error, truncation as an I/O error |
| `PipeFraming.Pipe.WriteAll` | src/pipe_server.rs:403-422 | Whatever the sizes of the writes, success sends all bytes in order and failure a prefix of them |
| `PipeFraming.Pipe.WriteFrame` | src/pipe_server.rs:392-401 | Sends the frame's wire form, a prefix of it on failure, and nothing for an oversized frame |
| `PipeFraming.Pipe.WriterTask` | src/pipe_server.rs:151-162 | Sends whole frames of the queue in order and at most a prefix of one more, and stops at the first that is oversized or fails |
| `JobStates.PathsAreShort` | src/job_manager.rs:90-113 | A job makes at most four transitions and none out of a terminal state |
| `JobStates.Predecessors` | src/job_manager.rs:90-113 | Where each state can be entered from, and that a state is terminal iff nothing leads out of it |
| `JobRegistry.RunsAreSound` | src/job_manager.rs:148-376 | Over every sequential run of all operations at arbitrary clock readings: no job has id 0, the capacity is respected, and a job is terminal iff it has a completion time |
| `JobRegistry.CreateEffect` | src/job_manager.rs:148-182 | All that a creation does, by case: refused at the capacity without drawing an id, failing on a taken id, or adding one new job with its fields and setting the creation time |
| `JobRegistry.TransitionEffect` | src/job_manager.rs:188-215 | All that a transition does: nothing if unknown or disallowed; else target, activity stamp, and the completion time iff the target is terminal |
| `JobRegistry.TouchAndCleanupEffect` | src/job_manager.rs:235-243 | Removing a job drops its entry alone; refreshing one sets its activity stamp alone; an unknown id changes nothing |
| `JobRegistry.CleaningKeeps` | src/job_manager.rs:267-376 | By the fields of a job: kept iff the service is not quiet and its completion, or its last activity if it is live, is less than the idle time old; what is kept is unchanged |
| `JobRegistry.IdsCycle` | src/job_manager.rs:158-163 | Drawn ids count through 1 to 2^32 - 1 over and over, across the wrap-around |
| `JobRegistry.IdsDistinct` | src/job_manager.rs:158-163 | No id repeats within 2^32 - 1 draws |
| `JobRegistry.CreateEventuallySucceeds` | src/job_manager.rs:148-182 | Below the capacity at most L consecutive creations fail, each as a collision, and the next succeeds |
| `JobRegistry.CleaningFixpoint` | src/job_manager.rs:267-376 | A second cleaning at the same clock changes nothing iff the first left no quiet rest; a third never changes anything |
| `JobRegistry.SecondSweepIsQuiet` | src/job_manager.rs:272-307 | The second cleaning is a quiet sweep iff the first left a rest of terminal jobs with the service quiet |
| `JobRegistry.OneCleaningIsNotEnough` | src/job_manager.rs:267-376 | A concrete registry on which the second of two cleanings still removes a job |
| `SweepRace.LiveRemovalsAreLate` | src/job_manager.rs:267-305 | Under any interference, with the scan, the listing and the removals going one entry at a time: a job that the quiet sweep removes while not terminal was inserted after the scan began and was not come across by it |
| `SweepRace.QuietSweepsAreQuiet` | src/job_manager.rs:272-294 | In every run a quiet sweep removes only if its scan found jobs and the last creation, as read when it began, was at least the quiet time old |
| `SweepRace.RemovedJobsStayGone` | src/job_manager.rs:235-243 | No registered job is one that the sweep has removed |
| `SweepRace.QuietSweepExact` | src/job_manager.rs:277-305 | From every reachable moment after a quiet scan: left alone, the sweep removes no live job in any continuation iff none is registered by then, and those that are were inserted since the scan began |
| `SweepRace.LiveJobSwept` | src/job_manager.rs:277-305 | Such a run exists: a job created between the scan and the listing is removed live |
| `SweepRace.IdleRemovalsWereDue` | src/job_manager.rs:311-369 | Under any interference: a job removed by the idle pass had expired when it was examined, and unless its id was reused meanwhile a terminal one is still due when it is removed |
| `SweepRace.IdlePassExact` | src/job_manager.rs:311-369 | From every reachable moment after the listing: left alone, the idle pass takes only jobs that are due in every continuation iff every listed job still registered is due by then; one that is not was live when it was examined, or came under a reused id since the scan began |
| `SweepRace.ActiveJobSwept` | src/job_manager.rs:311-369 | Such a run exists: a live job that shows activity after its examination is removed all the same |
| `JobManagers.JobManager.CreateJob` | src/job_manager.rs:148-182 | The object performs `Create`; the new handle is registered under its own id |
| `JobManagers.JobManager.TransitionState` | src/job_manager.rs:188-215 | The object performs `Transition`, changing one handle only |
| `JobManagers.JobManager.Cancel` | src/job_manager.rs:217-233 | The object performs `CancelJob` |
| `JobManagers.JobManager.UpdateActivity` | src/job_manager.rs:379-383 | The object performs `Touch` |
| `JobManagers.JobManager.CleanupJob` | src/job_manager.rs:235-243 | Removes exactly that job and cancels its token |
| `JobManagers.JobManager.ListActiveJobs` | src/job_manager.rs:245-247 | Every registered id exactly once, in any order |
| `JobManagers.JobManager.ForceCleanupAll` | src/job_manager.rs:253-259 | Leaves no job, with every token cancelled |
| `JobManagers.JobManager.CleanupIdleJobs` | src/job_manager.rs:267-376 | Run alone, the two-pass cleaning leaves exactly the jobs that the declarative filter keeps, counts the removed ones and cancels their tokens |
| `CapacityRace.RacyCapacityBound` | src/job_manager.rs:148-182 | n racing callers and any removals never exceed the capacity by more than n - 1 jobs, and exactly respect it for n = 1 |
| `CapacityRace.ConfiguredCapacityBound` | src/service_host.rs:10-11 | 100 connections and a cap of 50 give at most 149 jobs |
| `CapacityRace.RacyCapacityBoundIsTight` | src/job_manager.rs:148-182 | For every capacity and number of callers a run attains the bound |
| `CapacityRace.InsertNeverOverwrites` | src/job_manager.rs:158-178 | Key check and insert are separate steps, yet in every interleaving and across any number of wraps an insert finds its non-zero id unused, as long as no draw is the 2^32-th since the latest draw of a call still under way |
| `CapacityRace.WrappedInsertOverwrites` | src/job_manager.rs:158-178 | That threshold is sharp: in a run where one draw is exactly the 2^32-th since that of a call under way, the call is about to replace a live job |
| `LockOrder.CallsAreClean` | src/job_manager.rs:148-383 | Every manager method, with every outcome, acquires its locks in rank order and returns them all |
| `LockOrder.NestingIsExact` | src/job_manager.rs:148-383 | The exact held-while-acquiring relation: some method acquires one lock while holding another iff it is a job's mutex under the registry's lock, or a later one of the state, completion and activity mutexes of the same job |
| `LockOrder.TransitionNests` | src/job_manager.rs:188-215 | Which mutexes a transition takes, by whether the job is found, the transition allowed and the target terminal |
| `LockOrder.WritersLock` | src/job_manager.rs:148-259 | Which calls take the registry's lock exclusively: a creation that inserts and a removal that finds its job |
| `LockOrder.MutualExclusion` | src/job_manager.rs:148-383 | Under every schedule nobody holds a lock that another holds exclusively |
| `LockOrder.DeadlockFree` | src/job_manager.rs:148-383 | For any number of threads, programs and schedules, while a thread is unfinished some thread can step |
| `LockOrder.SchedulesEnd` | src/job_manager.rs:148-383 | Every schedule is finite: its length is exactly the work it has consumed |
| `LockOrder.FinishedHoldNothing` | src/job_manager.rs:148-383 | A finished thread holds no lock |
| `JobOutcomes.FirstTerminalIsFinal` | src/job_manager.rs:188-215 | A terminal state and a completion time never change again, at most four transitions happen, and with the state lock free the state is terminal iff the completion time is set |
| `JobOutcomes.WaiterSettles` | src/pipe_server.rs:299-323 | A waiter that ran to its end leaves a still registered job terminal, although both its transitions may have been refused |
| `JobOutcomes.CancelSettles` | src/job_manager.rs:217-233 | When `cancel_job` has returned Ok, a still registered job is terminal, whoever won the race |
| `JobSolo.CancelAlone` | src/job_manager.rs:217-233 | `cancel_job` from any moment, alone: an error for an unknown job, nothing for a terminal one, else token cancelled, `Canceled` and stamped |
| `JobSolo.EndedJobsAreSignalled` | src/job_manager.rs:217-243 | In every run a job that is Canceled, or no longer registered, or TimedOut with its monitor at its end, has its token cancelled |
| `JobOutcomes.LauncherOutcomes` | src/pipe_server.rs:231-339 | A finished launch leaves the job with its waiter started, removed, terminal, or unacknowledged and Created; it leaves a registered, live job without a waiter iff it was cut off at the acknowledgement and the job is still registered and Created |
| `JobOutcomes.UnacknowledgedJobRemains` | src/pipe_server.rs:239-247 | The last case happens: a failed acknowledgement leaves a Created job registered |
| `JobOutcomes.TimedOutIsLate` | src/cancellation.rs:19-56 | TimedOut is entered only from Running and not before the timeout has passed since the monitor started |
| `JobOutcomes.FrameOrder` | src/pipe_server.rs:231-339 | In every run RUN_ACK is first and unique, at most one of EXIT and ERROR is ever sent, nothing of a stream follows its end marker, that marker is there iff the stream's pump has ended well, and a finished waiter has offered exactly one EXIT |
| `JobSolo.FailedLaunchIsReported` | src/pipe_server.rs:325-335 | In every interleaving: once the launcher of a failed launch has ended, and unless its report could not be sent, exactly one ERROR and no EXIT is on the channel |
| `JobSolo.FailedLaunchAlone` | src/pipe_server.rs:231-335 | A failed launch alone leaves the frames RUN_ACK and ERROR and the job Failed, signalled and removed |
| `JobSolo.WaiterAlone` | src/pipe_server.rs:304-323 | The waiter of a running job alone: Exiting, one EXIT sent, Completed and stamped |
| `JobSolo.RemoveAlone` | src/job_manager.rs:235-243 | `cleanup_job` from any moment, alone: an error for an unknown job, else token cancelled and removed |
| `JobSolo.LookAlone` | src/cancellation.rs:28-55 | One look of the monitor alone: it stops at a terminal state or a cancelled token, times out a registered running job once the timeout has passed and signals the token, and else comes back unchanged |
| `JobOutcomes.OnlyStragglersFollowExit` | src/pipe_server.rs:299-323 | In every continuation, what follows EXIT on the channel are frames of streams whose pump had not finished when EXIT was sent |
| `JobOutcomes.ExitIsLast` | src/pipe_server.rs:304-323 | EXIT is the job's last frame in every continuation iff both pumps had finished when it was sent |
| `JobOutcomes.OutputAfterExit` | src/pipe_server.rs:304-323 | A run whose channel holds the acknowledgement, then EXIT, then output |
| `TimeoutMonitor.MonitorTimeout` | src/cancellation.rs:19-56 | On the manager object, with any operations of other tasks between its steps and pauses of one second to D: the monitor ends at the first look that finds the state terminal or the token cancelled; otherwise it attempts the transition in [timeout, timeout + D), after a bounded number of looks, which times the job out iff it is still registered and running, and cancels its token |
| `EnvBlock.BuildEnvBlock` | src/process_launcher.rs:286-295 | The loop yields the block of the map's entries in some order that lists each key once |
| `EnvBlock.DecodeEncodeWide` | src/process_launcher.rs:286-295 | UTF-16 decoding undoes encoding for every text |
| `EnvBlock.ScalarUnits` | src/process_launcher.rs:290-290 | One unit up to U+FFFF; beyond, a high and a low surrogate that compose to the scalar |
| `EnvBlock.BlockUnits` | src/process_launcher.rs:286-295 | Entry by entry: the key, the unit 0x3D, the value, a NUL; and a NUL at the end |
| `EnvBlock.BlockRoundTrip` | src/process_launcher.rs:286-295 | For every iteration order, splitting the block at NULs and first equals signs gives the map back iff no key or value has a NUL and no key an equals sign |
| `EnvBlock.ParsedIsRepresentable` | src/process_launcher.rs:286-295 | Whatever parses has that form |
| `RequestLoop.HandleRequest` | src/pipe_server.rs:188-216 | Every frame type's effect on the registry, with any operations of other tasks before it and between the steps of a RUN, and when it ends the session |
| `RequestLoop.CancelRequestCancels` | src/pipe_server.rs:192-198 | CANCEL leaves a registered job terminal, and Canceled with its token cancelled if it was live; no other job changes and the session goes on |
| `RequestLoop.OtherRequestsRefresh` | src/pipe_server.rs:199-216 | GOODBYE ends the session and changes nothing; WINDOW_UPDATE refreshes its job's activity; other frames do so unless their job id is zero |
| `RequestLoop.RefusedRunEnds` | src/pipe_server.rs:231-247 | A RUN with a bad payload, without room for a job or without its acknowledgement ends the session; in the last case the new job stays |
| `RequestLoop.NothingAfterTheEnd` | src/pipe_server.rs:173-219 | Nothing is handled after the request that ends the session |
| `RequestLoop.FailedLaunchRemovesJob` | src/pipe_server.rs:325-335 | After a process that did not start, no job is left under its id, whatever other tasks did between the steps |
| `RequestLoop.ProcessRequests` | src/pipe_server.rs:173-219 | However the reads are cut and whatever other tasks do to the registry meanwhile, the session handles an initial part of the frames its bytes parse to, in order, with the registry of their one-by-one dispatch; on a healthy pipe a read error comes only after all parsable frames; the disconnect branch is never taken |

## Left out

Assumed:

- Win32 calls are nondeterministic outcomes; a successful `WriteFile` makes progress, and a healthy pipe
  fails only at the end of its data.
- The registry map is linearizable, with one reader-writer lock for `LockOrder` where the library has one
  per shard; the frame channel is a FIFO of 256 entries; a cancellation token never becomes uncancelled.
- The sum in the window test wraps as in a release build; a debug build would stop there instead.
- `JobLifecycle` has one clock that never goes back; `JobRegistry` allows a clock that does.

Not modelled:

- `SessionEnd` says when a session can end, not that a fair schedule ends it; the time a child takes to exit and
  the failed writes that also end a writer are outside it.
- Liveness of a blocked sender: lost wake-ups make it false. `Wakeups` is about safety: who is not left waiting.
- Reuse of an id by a second job while tasks of the first are still alive (`JobLifecycle` follows one
  creation; a removed id is not registered again there).
- IoPump.StreamPump.UpdateWindow: runs alone; its four accesses interleaved with others are in `Streaming`.
- JobManagers.JobManager.CleanupIdleJobs: runs alone; other tasks' changes during it are in `SweepRace`. The
  other methods of the object also run one at a time, and their races are in `CapacityRace`, `LockOrder` and
  `JobLifecycle`.
- `SweepRace` takes each removal of `cleanup_job`, a lookup, a token and a removal by id, as one step.
- `RequestLoop` gives each request one clock reading for its own operations; the tasks that a launched job
  starts are in `JobLifecycle`, and here among the other tasks.
- TimeoutMonitor.MonitorTimeout: has other tasks act between its steps only, and ends at the cancelled token;
  terminating the process is not part of this model.
- JSON payloads are opaque; process and job-object handles, process termination, exit codes and
  `wait_for_exit_timeout` are not part of this model beyond the token they cancel.
- The HELLO exchange, access control and audit text, `src/file_ipc.rs`, `src/service_host.rs` (except its
  constants), `src/main.rs`, `src/logger.rs` and error formatting.
- Freedom from handle leaks in `ProcessLauncher::launch`, which does not hold of the code.
