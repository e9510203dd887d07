# Storm Pulse agent: at-least-once and crash-safety protocols

Storm Pulse's agent keeps a set of small promises to its control plane: log lines are
delivered at least once, events are conserved, spool files are not lost, a signed command is
not run twice, a shutdown answers every job, a certificate swap can be cut anywhere. This
project models the code behind each promise and proves the promise for every input, run or
interleaving, or, where the code does not keep it, gives the input that breaks it and the exact
condition under which it holds.

Each protocol is one module. A datatype holds the state, a function per operation says what
the operation does to it, a step relation (`Enabled`, `Next`, `IsRun`, `After`) says which
interleavings there are, and an invariant kept by every step gives the run theorems. Beside
that stands the code's own form: a class with the source's fields whose methods are proved to
do what those functions say, loops included.

| module | what it models |
|---|---|
| `DockerLines`, `ContainerLog` | Docker log lines, receipts, the microsecond cursor, and the container's log |
| `StreamingTailer`, `StreamingDockerTailer`, `LogCursor` | the follow tailer, and every interleaving of its reads, ACKs, prunes, lost batches, respawns and reconnects |
| `PendingBatches` | log batches in flight, and the ACK handler that confirms before it pops |
| `PullCursor`, `PullProtocol` | the polling tailer's guarded checkpoint, and the loop that holds it to one batch in flight |
| `EventBuffer` | the bounded event buffer with in-flight batches and loss accounting |
| `SpoolFeeder` | the spool feeder against an emitter renaming and deleting files, failing calls and crashes |
| `Jobs`, `JobAnswers`, `RetryWindow` | the job manager's permits, quota ceiling and shutdown; what each run answers; one job's attempts inside its window |
| `MetricsAck` | dirty resource ids, push watermarks and their ACKs |
| `StateReader` | the Garage reader's cache under sweeps and targeted reads |
| `CertSwap` | the certificate swap, its roll-forward and its `.prev` fallback |
| `NonceWindow` | the replay window: freshness, nonce rows and their purge |
| `SequenceRun` | a signed command sequence under a seal and grants that change while it runs |
| `ParamSchema` | the JSON shape checker against what a shape means |

What the model assumes of the world: the container's log is in time order; only one feeder
owns a spool directory, a file's identity is never reused, and a call that fails leaves every
name as it was; renames and links are atomic and a finished one survives a crash; a sleep lasts
at least its delay; sending a job's progress message lets a cancellation through; batch ids are
unused when drawn.

## Where the code falls short of its promise

- Two lines in one microsecond: both tailers' cursors are one microsecond past the last line
  read, so a read that ends between the two leaves the second behind (`LogCursor.RepeatLoses`,
  `PullProtocol.RepeatLoses`). With one log worker the follow tailer delivers a log at least
  once, on every schedule, exactly when no two of its lines share a microsecond
  (`LogCursor.SafeIffStrictMicros`).
- A session that ends while its read is still in a thread lets the next session's read overlap
  it. Any log of two lines then has a run that loses one (`LogCursor.OverlappingReadsLose`), so
  only logs of at most one line are safe (`LogCursor.PlainSafeIffOneLine`). Where the docker
  client may write a message of its own into the stream, even one line can be lost
  (`LogCursor.BareReadLoses`) and only the empty log is safe (`LogCursor.SafeIffEmpty`).
- The polling tailer caps standard output followed by standard error, so a capped read can claim
  a range whose older error lines it cut (`PullCursor.CrowdedCuts`). A log is delivered whole on
  every schedule exactly when its microseconds are distinct and its standard output fits under
  the cap or all comes before any standard error (`PullProtocol.SafeIffStrictRoomy`).
- A drain asked for no events can leave the buffer one over its bound, exactly when it has a
  loss to report and a full buffer (`EventBuffer.DrainBoundIff`).
- The emitter's own deletion of a segment can make the feeder read and stamp a stranded file a
  second time: exactly when that file is aside under the name and the name is pending, or about
  to be settled, for another file (`SpoolFeeder.DeleteSafeIff`). Such a point can be reached
  (`SpoolFeeder.CarelessIsReachable`), and after the deletion the feeder's own steps stamp the
  file twice (`SpoolFeeder.CarelessStampsTwice`). Without such a deletion no file is stamped
  twice (`SpoolFeeder.StampedOnce`).
- One feeder outlives the sessions that tick it from a thread
  (`stormpulse/agent/loops.py:239-251`), so a tick still running when its session ends can
  overlap the next session's. The feeder's results here are for one tick at a time, which the
  code does not enforce.
- A full re-read drops a listed bucket whose own read failed without counting it; the drop
  count is the number that left exactly when there is none (`StateReader.DropCount`). A bucket
  answered 404 while a sweep is in flight comes back exactly when that sweep listed and had read
  it (`StateReader.GoneReturnsIff`). A cached record gives way to an older one exactly when a
  targeted read lands after a read of the same id that returned later
  (`StateReader.NeverRevertsIff`); `StateReader.LateTargetedReadReverts` is such a run.
- An install that misreads a whole live pair takes no `.prev`; both pairs are then broken at one
  cut, exactly when `.prev` was not whole and the key changes (`CertSwap.RenewalSafeIff`). A
  renewal that cannot read the pending key while the live certificate waits for it draws another
  and loses it (`CertSwap.RenewalRecoverableIff`). The presented certificate is not the loaded
  one exactly when the roll-forward is needed and its rename fails
  (`CertSwap.LoadedIsPresentedIff`).
- Verification reads the clock three times. A copy of an accepted frame is accepted again
  exactly when it is fresh and its own purge cutoff has passed the stored row
  (`NonceWindow.ReplayAcceptedIff`, `NonceWindow.LatePurgeReplays`); with one reading it never
  is.
- Without stop-on-failure a step that raises once admitted, for bad parameters or a grant
  revoked since, is passed over while later steps run; the steps that run are a prefix whatever
  the seal and the grants do exactly when nothing that can run comes after one that can raise
  (`SequenceRun.RunsPrefixIff`). Under stop-on-failure they always are
  (`SequenceRun.StopOnFailureRunsPrefix`).
- Checking `max_bytes` encodes the string, and a lone surrogate, which JSON can carry, raises.
  Every accepted schema can check a value exactly when no string in it holds one
  (`ParamSchema.DefinedIff`).

## Model

| member | source | states |
|---|---|---|
| DockerLines.TickIsLeastCursorPast | stormpulse/logging/docker_tailer.py:36-66 | the cursor after a line is the least microsecond bound that no longer returns it |
| DockerLines.LastTsAppend | stormpulse/logging/docker_tailer.py:99-105 | a read's end is one tick past its last stamped line, whatever unstamped lines follow |
| StreamingTailer.BeginReadKeepsChain | stormpulse/logging/docker_tailer.py:252-266 | starting a read keeps the contiguous chain; told what is pending, every open range awaits its ACK or the stream is back at the checkpoint |
| StreamingTailer.EndReadKeepsChain | stormpulse/logging/docker_tailer.py:269-274 | a read that starts where the stream is extends the chain by the range it drained |
| StreamingTailer.ConfirmKeepsChain | stormpulse/logging/docker_tailer.py:276-298 | any confirm keeps the chain and its open head; it is accepted exactly when that range was issued and is open |
| StreamingDockerTailer.StreamingDockerTailer.BeginRead | stormpulse/logging/docker_tailer.py:262-266 | the first locked section: rewind if a range was lost, respawn, and read from the stream's end or the stored or seeded ts |
| StreamingDockerTailer.StreamingDockerTailer.EndRead | stormpulse/logging/docker_tailer.py:269-274 | the second locked section: lines issue a range, none issue nothing (what that means for a run: LogCursor.EmptyReadLeaves, LogCursor.RestartsOnlyIfMislaid) |
| StreamingDockerTailer.StreamingDockerTailer.ConfirmShipped | stormpulse/logging/docker_tailer.py:276-298 | the loops mark the first equal open range and store the end of the longest done prefix, refusing any other receipt |
| StreamingDockerTailer.StreamingDockerTailer.SkipFiltered | stormpulse/logging/docker_tailer.py:300-307 | a wholly filtered range is confirmed at read |
| StreamingDockerTailer.StreamingDockerTailer.Lost | stormpulse/logging/docker_tailer.py:314-317 | some open range is absent from the pending receipts |
| StreamingDockerTailer.StreamingDockerTailer.Rewind | stormpulse/logging/docker_tailer.py:319-330 | the follow ends and the respawn throttle is lifted |
| StreamingDockerTailer.StreamingDockerTailer.EnsureRunning | stormpulse/logging/docker_tailer.py:332-351 | a live process is kept; a dead one is replaced unless the throttle holds |
| StreamingDockerTailer.StreamingDockerTailer.Spawn | stormpulse/logging/docker_tailer.py:353-378 | every spawn restarts at the checkpoint and drops the issued ranges |
| StreamingDockerTailer.StreamingDockerTailer.FromTs | stormpulse/logging/docker_tailer.py:85-96 | the stored ts, or now stored as the seed |
| StreamingDockerTailer.StreamingDockerTailer.Close | stormpulse/logging/docker_tailer.py:309-312 | the process is gone, chain and checkpoint stay |
| LogCursor.AtLeastOnce | stormpulse/logging/docker_tailer.py:252-298 | over every interleaving of reads one at a time, ACKs, skips, prunes, orphaned batches, stream deaths and restarts, in a log of distinct microseconds, every line from the seed to the checkpoint was in an ACKed batch or a wholly filtered read, and every matching line in an ACKed one |
| LogCursor.RunKeeps | stormpulse/agent/loops.py:175-194 | with reads one at a time and distinct microseconds, the chain, the sealed ranges and the stream's position hold in every reachable state of loop, tracker, ACK worker and tailer |
| LogCursor.RunAttributes | stormpulse/logging/docker_tailer.py:300-307 | a line that matches the filter is never counted as filtered, in any reachable state |
| LogCursor.ConfirmCovered | stormpulse/logging/docker_tailer.py:279-282 | a confirm whose own lines are delivered moves the checkpoint over delivered lines only, whichever equal range it matches, ACKs from before a rewind included |
| LogCursor.RepeatLoses | stormpulse/logging/docker_tailer.py:36-47 | any log with two lines in one microsecond has a run, with one reader, that loses the second |
| LogCursor.SafeIffStrictMicros | stormpulse/logging/docker_tailer.py:36-47 | a log is safe on every one-reader schedule exactly when no two of its lines share a microsecond |
| LogCursor.OverlappingReadsLose | stormpulse/agent/loops.py:175-179 | every log of two lines or more has a run with two reads draining at once, and no client message, that loses a line |
| LogCursor.PlainSafeIffOneLine | stormpulse/agent/loops.py:175-179 | with reads that may overlap and no client messages, a log is safe on every schedule exactly when it has at most one line |
| LogCursor.BareReadLoses | stormpulse/logging/docker_tailer.py:252-298 | with client messages every log that is not empty has a run with overlapping reads that loses a line: an empty range read at the stream's end is confirmed after a respawn |
| LogCursor.SafeIffEmpty | stormpulse/agent/loops.py:175-179 | with both, a log is safe on every schedule exactly when it is empty |
| LogCursor.NoLineStuck | stormpulse/logging/docker_tailer.py:252-266 | in every state reachable with reads one at a time and distinct microseconds, once a read has begun with the pending receipts every line from the checkpoint on is in a range that is done or awaits its ACK, or is still ahead of the stream, or no stream runs |
| LogCursor.EmptyReadLeaves | stormpulse/logging/docker_tailer.py:269-274 | a read that drained nothing leaves the tailer as it was |
| LogCursor.RestartsOnlyIfMislaid | stormpulse/logging/docker_tailer.py:262-274 | in every reachable state a read told what is pending leaves a live stream alone unless an open range is not pending; then some read that took lines was orphaned, is still in hand, or had its batch leave the tracker, and the stream goes back to the checkpoint |
| LogCursor.RunOwned | stormpulse/logging/docker_tailer.py:269-274 | in every reachable state each open range is the claim of a read that took lines, in hand, orphaned or sent |
| LogCursor.ReadUsedOnce | stormpulse/agent/loops.py:175-194 | in any run what a read took is filtered, shipped or orphaned once, and nothing read before a restart is used after it |
| LogCursor.PendingIsTrackedSince | stormpulse/agent/log_batches.py:32-71 | in any run a batch is pending exactly while it was tracked and neither popped, pruned nor lost to a restart since |
| LogCursor.ConfirmFollowsAck | stormpulse/agent/acks.py:66-78 | in any run the cursor is moved for a batch only after an ACK of it that found it pending, in the same agent life |
| LogCursor.CloseEndsFollow | stormpulse/logging/docker_tailer.py:309-312 | in any run nothing is taken from the stream after a close until a read begins |
| PendingBatches.PendingBatches.Add | stormpulse/agent/log_batches.py:32-35 | the batch is in flight and its group's release flag is down |
| PendingBatches.PendingBatches.Peek | stormpulse/agent/log_batches.py:56-59 | the receipt of a batch still pending |
| PendingBatches.PendingBatches.Pop | stormpulse/agent/log_batches.py:37-46 | the batch leaves, waking its group only when asked |
| PendingBatches.PendingBatches.PruneStale | stormpulse/agent/log_batches.py:65-71 | exactly the entries sent before the cutoff leave, and each one's group wakes |
| PendingBatches.TrackerTellsHistory | stormpulse/agent/log_batches.py:32-71 | over any adds, pops and prunes the tracker holds exactly what was added and neither popped nor pruned since, and a group's flag is up exactly when a batch of it was released or pruned and none of it was added since |
| PendingBatches.PeekTellsOpen | stormpulse/agent/log_batches.py:56-59 | after any adds, pops and prunes a peek finds the receipt a batch was added with exactly while it is open |
| PendingBatches.HandleLogBatchAck | stormpulse/agent/acks.py:66-78 | an ACK confirms, then pops, releasing only on a confirm; a confirm that raises leaves the tailer and pops without releasing; an unknown batch changes nothing |
| PullCursor.AcceptedCoverWithoutGap | stormpulse/logging/docker_tailer.py:69-82 | under any order of stale, duplicate and fresh confirms the checkpoint strictly rises on each accepted one and the accepted ranges cover it without a gap |
| PullCursor.ClaimEnd | stormpulse/logging/docker_tailer.py:108-114 | a read claims up to one tick past the last line it kept, in the order the two streams are joined |
| PullCursor.UncappedLeavesNone | stormpulse/logging/docker_tailer.py:108-114 | a read under the cap keeps every line it claims |
| PullCursor.StdoutFitsLeavesNone | stormpulse/logging/docker_tailer.py:108-114 | so does a capped read with room for all the stdout it fetched |
| PullCursor.StdoutFirstLeavesNone | stormpulse/logging/docker_tailer.py:151-190 | so does any read of a log whose stderr comes last, one stream included |
| PullCursor.CrowdedCuts | stormpulse/logging/docker_tailer.py:190-190 | every other log has an instant whose read claims a stderr line it cut |
| PullCursor.DockerTailer.ReadNewLines | stormpulse/logging/docker_tailer.py:136-149 | the seed is stored first; lines and receipt are those of the capped read, or empty when the command fails |
| PullCursor.DockerTailer.ConfirmShipped | stormpulse/logging/docker_tailer.py:192-194 | accepts exactly its own container's receipt that covers the checkpoint, which then moves to its end |
| PullCursor.DockerTailer.SkipFiltered | stormpulse/logging/docker_tailer.py:196-200 | a filtered read is confirmed exactly when its receipt is acceptable and no pending receipt of the source may lie below it |
| PullProtocol.OneInFlight | stormpulse/agent/loops.py:121-134 | in every reachable state a held group has at most one batch pending, and none while its loop reads |
| PullProtocol.AtLeastOnce | stormpulse/agent/loops.py:121-134 | over every interleaving whose reads keep what they claim, in a log of distinct microseconds, the checkpoint never passes an undelivered line, and every matching line behind it was in an ACKed batch |
| PullProtocol.RunAttributes | stormpulse/agent/loops.py:175-194 | in any run a read matches exactly when a line it kept does, no matching line is ever counted as filtered, and every batch on the wire carries one |
| PullProtocol.TrackerIsHistory | stormpulse/agent/log_batches.py:32-71 | in any run the tracker holds exactly the batches sent and neither popped, found stale at a wake, nor lost to a restart since, the group's own and others |
| PullProtocol.WakeReadsIffNoneInFlight | stormpulse/agent/loops.py:121-134 | in any run a wake starts a read exactly when every batch the group sent was popped, or stale at some wake, this one included |
| PullProtocol.ReadUsedOnce | stormpulse/agent/loops.py:175-194 | in any run what a thread read is skipped, shipped or dropped once, and never after a restart |
| PullProtocol.ShippedInSession | stormpulse/agent/loops.py:175-194 | in any run a thread ships nothing once the session it was started in is over |
| PullProtocol.ConfirmFollowsAck | stormpulse/agent/acks.py:66-78 | in any run the checkpoint is moved for a batch only after its ACK, in the same agent life |
| PullProtocol.SafeIffStrictRoomy | stormpulse/logging/docker_tailer.py:108-190 | a log is delivered whole on every schedule exactly when no two lines share a microsecond and its stdout fits under the cap or comes before any stderr |
| PullProtocol.CrowdedLoses | stormpulse/logging/docker_tailer.py:151-190 | a log of distinct microseconds whose stdout neither fits nor comes first has a run of one read that loses a line |
| PullProtocol.RepeatLoses | stormpulse/logging/docker_tailer.py:36-47 | any log with two lines in one microsecond has a run that loses the second |
| PullProtocol.ConfirmedReadSafeIff | stormpulse/logging/docker_tailer.py:108-114 | a confirmed read at the checkpoint is safe exactly when it left none of its claim behind |
| EventBuffer.Conservation | stormpulse/events.py:255-356 | in every reachable state each seq ever stamped is in exactly one of held, acked, nacked, discarded; losses and refusals equal the tally plus what the loss records the drains made say, each count in its own field; what is held lists emitted events in increasing seq, each with the body it was stamped on; batches hold what was handed over; both bounds hold |
| EventBuffer.AckReleasesItsBatch | stormpulse/events.py:328-340 | an ACK or NACK removes its own batch's seqs and no others |
| EventBuffer.AckReleasesWhatWasSent | stormpulse/events.py:328-340 | an ACK or NACK is known exactly when it releases something, then exactly the seqs its drain handed over, and a NACK counts them |
| EventBuffer.DrainBoundIff | stormpulse/events.py:296-326 | a drain leaves the buffer within its bound exactly when it may take an event, has room, or has nothing to report |
| EventBuffer.DrainHandsOver | stormpulse/events.py:296-326 | a drain hands over the oldest events, a record of any loss with its two counts first, keeps the rest in order, and tracks the newest batches the cap allows, counting what had to go |
| EventBuffer.DrainPlaces | stormpulse/events.py:300-312 | the loss records a drain makes say exactly what the tally said, dropped and undeclared apart |
| EventBuffer.RoomyExtend | stormpulse/events.py:265-287 | a batch that fits the room drops nothing and all its seqs are held |
| EventBuffer.ExtendKeepsNewest | stormpulse/events.py:265-277 | appending a batch keeps exactly the newest that fit of what was buffered and the batch under consecutive seqs |
| EventBuffer.EventBuffer.Extend | stormpulse/events.py:265-277 | stamps contiguous seqs, dropping and counting the oldest when full |
| EventBuffer.EventBuffer.HoldsAny | stormpulse/events.py:289-294 | whether any seq of a range is buffered or in flight |
| EventBuffer.EventBuffer.Drain | stormpulse/events.py:296-326 | the code of that drain: record, pop, track, evict |
| EventBuffer.EventBuffer.Ack | stormpulse/events.py:328-330 | discards the batch, true exactly when it was in flight |
| EventBuffer.EventBuffer.Nack | stormpulse/events.py:332-340 | discards the batch and returns its size, none if unknown |
| EventBuffer.EventBuffer.RequeueUnacked | stormpulse/events.py:342-356 | every in-flight batch goes back in front, oldest first, and exactly the longest suffix of in-flight then buffered events that fits is held, still in emit order, the rest counted as dropped |
| EventBuffer.EventBuffer.Room | stormpulse/events.py:284-287 | a batch pushed now drops nothing exactly when it is empty or no longer than this |
| EventBuffer.EventBuffer.Refuse | stormpulse/events.py:279-282 | one more refused event on the tally, nothing else |
| SpoolFeeder.NeverLoses | stormpulse/agent/event_spool.py:159-292 | however the emitter, the buffer, failing calls and crashes interleave, every file put in still has a name, or the emitter replaced or deleted it, or the feeder deleted it; and a feeder about to delete holds aside the file it read in this life, all of whose seqs have left the buffer |
| SpoolFeeder.DeletesOnlyWhatItRead | stormpulse/agent/event_spool.py:237-267 | in any run a file about to be deleted was read or refused at some step since the agent last started |
| SpoolFeeder.DeletedIsGone | stormpulse/agent/event_spool.py:237-267 | in any run what the feeder deleted holds no name, and a directory is never read and never deleted |
| SpoolFeeder.BootListsAgain | stormpulse/agent/event_spool.py:136-144 | in any run nothing is read after a boot before the directory is listed again |
| SpoolFeeder.BootMirrorsEmpty | stormpulse/events.py:246-253 | a boot starts with the event buffer of a new process: empty, its seqs from one |
| SpoolFeeder.StampedOnce | stormpulse/agent/event_spool.py:140-189 | no file identity is stamped twice in one feeder's life, across pending, settling, parked and put-back states, unless the emitter deletes a segment whose settling would return a stranded file |
| SpoolFeeder.DeleteSafeIff | stormpulse/agent/event_spool.py:237-287 | a reachable deletion by the emitter keeps every later run from stamping a file twice exactly when no stranded file is aside under that name with the name pending or settling for another file |
| SpoolFeeder.CarelessStampsTwice | stormpulse/agent/event_spool.py:237-287 | after any other deletion the feeder's own steps stamp the stranded file again |
| SpoolFeeder.CarelessIsReachable | stormpulse/agent/event_spool.py:253-287 | under any name, two failed removals and a new segment reach such a point |
| SpoolFeeder.StampedTwice | stormpulse/agent/event_spool.py:253-287 | two failed removals and such a deletion stamp a file twice |
| SpoolFeeder.RefusedIsSettled | stormpulse/agent/event_spool.py:166-177 | in any run a segment refused or without events is being settled, for the very file found, as soon as it was opened; one with events is pending with exactly their seqs |
| SpoolFeeder.BufferOnlyForgets | stormpulse/events.py:289-356 | every buffer operation is one the feeder's proof allows for: a seq that left never comes back, and the room left is the bound less what is buffered |
| SpoolFeeder.ReadIsExtend | stormpulse/agent/event_spool.py:166-175 | reading a segment gives out exactly the seqs the feeder waits for when there is room, and otherwise drops only as a buffer move may |
| SpoolFeeder.SpoolFeeder.RecoverAsides | stormpulse/agent/event_spool.py:146-157 | boot puts back every stranded name it can list, one call at a time; without failing calls only directories stay aside, and no file is lost |
| SpoolFeeder.SpoolFeeder.Tick | stormpulse/agent/event_spool.py:159-177 | a tick looks at every pending segment, settling it unless its events are still held; lists; and reads every live name neither pending nor parked, unless it stops having just found less room than a whole segment takes; no file is lost, whatever happens between its calls |
| SpoolFeeder.SpoolFeeder.ReadOne | stormpulse/agent/event_spool.py:166-177 | a segment refused or without events is settled before the next is read; one with events is pending |
| SpoolFeeder.SpoolFeeder.Settle | stormpulse/agent/event_spool.py:237-267 | a settling parks a file it could not rename or delete, finds its name gone, deletes exactly the file that was read, or puts another one back; only a failing call or a directory parks |
| SpoolFeeder.SpoolFeeder.PutBack | stormpulse/agent/event_spool.py:269-287 | a put-back is true only when nothing is left aside; otherwise the settled file is parked, and only a failing call or a directory prevents it |
| Jobs.OneTerminalEach | stormpulse/commands/jobs.py:429-451 | no job ever gets two terminal messages: at most one result, at most one cancellation, never both |
| Jobs.ShutdownAnswersAll | stormpulse/commands/jobs.py:429-451 | a reasoned shutdown that completes leaves every job it found unfinished over, with exactly one terminal message, even if its handler swallowed the cancellation |
| Jobs.NothingStartsAfterClosing | stormpulse/commands/jobs.py:271-274 | once closing, no task is created and none revives |
| JobAnswers.ResultsAnswer | stormpulse/commands/jobs.py:470-512 | over any run a job's results on the wire are its last outcome, once, if a step called for it (an outcome with no granted ask before admission closed, or a later permit with the window shut), and none otherwise |
| JobAnswers.OverIsAnswered | stormpulse/commands/jobs.py:470-560 | a job over with no exception, cancellation or shutdown was told its last outcome exactly once, and its follow-up ran exactly when that was a success |
| JobAnswers.OutcomeIsToldOrGoesOn | stormpulse/commands/jobs.py:484-503 | in any run an outcome is on the wire at once unless its ask was granted; a granted ask puts nothing there and the job goes on; after closing the job is just over |
| JobAnswers.PermitIsAttemptOrResult | stormpulse/commands/jobs.py:478-512 | in any run a first permit, or one with the window open, is an attempt; one with it shut puts the last outcome on the wire |
| Jobs.PermitsAndQuotas | stormpulse/commands/jobs.py:354-385 | through permits, crashes, cancellation and reused ids the running counters are the jobs holding a permit, at most six, and accepted unfinished quota jobs are at most six |
| Jobs.QuotaIdsCount | stormpulse/commands/jobs.py:354-366 | the count over the dicts is the number of live quota jobs, request ids reused or not |
| Jobs.RunKeeps | stormpulse/commands/jobs.py:457-523 | counters, dicts, attempted results and what a shutdown owes agree in every reachable state, a task that stops before its result included |
| Jobs.JobManager.QuotaPending | stormpulse/commands/jobs.py:354-366 | the loop over the dicts counts exactly the live quota jobs |
| Jobs.JobManager.ShouldShedQuota | stormpulse/commands/jobs.py:368-385 | a quota job is shed exactly when closing or at the ceiling |
| Jobs.JobManager.StartJob | stormpulse/commands/jobs.py:255-292 | refused when closing or when that id is running, else one queued task under its id |
| Jobs.JobManager.Dispatch | stormpulse/agent/dispatch.py:435-461 | the quota check and the start it guards are one step |
| Jobs.JobManager.FinishJob | stormpulse/commands/jobs.py:294-299 | the done callback of a task whose id was started again removes nothing |
| Jobs.JobManager.Acquire | stormpulse/commands/jobs.py:476-484 | with a permit an attempt starts, or the result is sent once the window shut |
| Jobs.JobManager.Return | stormpulse/commands/jobs.py:484-503 | a handler's outcome while closing sends nothing; a granted ask goes on; anything else is the result (over runs: JobAnswers.ResultsAnswer) |
| Jobs.JobManager.BeginResult | stormpulse/commands/jobs.py:606-610 | the result is committed before its send yields |
| Jobs.JobManager.EnterPermit | stormpulse/commands/jobs.py:513-518 | both counters rise with the permit |
| Jobs.JobManager.LeavePermit | stormpulse/commands/jobs.py:520-523 | both fall with it, on every way out |
| Jobs.JobManager.SnapshotActive | stormpulse/commands/jobs.py:436-444 | the active jobs, those of them without a result attempt, and a cancel for each active one |
| RetryWindow.Run | stormpulse/commands/jobs.py:470-503 | every attempt is admitted within the window and at least the asked seconds after the last, so attempts are at most window + 1, one without a window; one follows another exactly when admission is open, the ask fits and the next permit finds the window open; there is a result, the last outcome, unless admission closed |
| RetryWindow.Round | stormpulse/commands/jobs.py:478-512 | one permit: an attempt if the window admits it, then another wait, the result, or nothing after closing |
| RetryWindow.SpacedBySeconds | stormpulse/commands/jobs.py:77-86 | asks of at least a second put attempt i at least i seconds after the first |
| RetryWindow.Window.Open | stormpulse/commands/jobs.py:184-186 | the deadline is set by the first permit and never moves |
| MetricsAck.DirtyIsReadSinceAck | stormpulse/agent/integrations_runtime.py:105-152 | for out-of-order, duplicate, evicted, discarded and cleared pushes the dirty ids are exactly those read since the largest watermark whose push was acknowledged while outstanding, outstanding being told from the history alone |
| MetricsAck.AckKnownIffOutstanding | stormpulse/agent/integrations_runtime.py:119-152 | an ACK is known exactly when its push was sent, not yet acknowledged, discarded, cleared or pushed out by the cap; then exactly the ids read no later than its send are released |
| MetricsAck.PromptAckReleasesAll | stormpulse/agent/integrations_runtime.py:119-152 | a push just sent is outstanding, and its ACK releases everything |
| MetricsAck.ReleasedWasListed | stormpulse/agent/integrations_runtime.py:139-152 | an ACK releases only ids owed, and so listed, when its push was sent |
| MetricsAck.IntegrationRuntime.NoteChanged | stormpulse/agent/integrations_runtime.py:105-110 | every non-empty id takes a fresh revision, in order |
| MetricsAck.IntegrationRuntime.TrackPush | stormpulse/agent/integrations_runtime.py:119-124 | the watermark is recorded and only the oldest receipts past the cap go (over runs: MetricsAck.AckKnownIffOutstanding) |
| MetricsAck.IntegrationRuntime.DiscardPush | stormpulse/agent/integrations_runtime.py:127-130 | only the receipt goes |
| MetricsAck.IntegrationRuntime.DiscardPendingPushes | stormpulse/agent/integrations_runtime.py:133-136 | from here no push sent before can be acknowledged; dirty ids and revision stay |
| MetricsAck.IntegrationRuntime.AcknowledgePush | stormpulse/agent/integrations_runtime.py:139-152 | an unknown push changes nothing; a known one keeps the ids above its watermark |
| MetricsAck.AcknowledgeAll | stormpulse/agent/integrations_runtime.py:139-152 | each integration releases by its own watermark, and the ACK is known if any had it |
| StateReader.RefreshNeverReverts | stormpulse/garage/state_reader.py:166-208 | however targeted reads interleave, landing a refresh replaces no record by an older one, keeps exactly (listed and (kept or read)) or absorbed, and a full one is complete exactly when every listed id is cached |
| StateReader.RefreshReadsWhatItShould | stormpulse/garage/state_reader.py:166-188 | over any run a finished refresh asked for every listed id, or for exactly the listed ids the cache lacked when the list came back, in order, and lands what it was answered |
| StateReader.NeverRevertsIff | stormpulse/garage/state_reader.py:182-226 | over whole runs, no step replaces a cached record by an older one exactly when no targeted read lands after a read of the same id that returned later |
| StateReader.PromptNeverReverts | stormpulse/garage/state_reader.py:210-226 | when targeted reads land as they return, no run replaces a record by an older one |
| StateReader.MergeKeys | stormpulse/garage/state_reader.py:49-64 | which ids a merge caches and whose record each one has |
| StateReader.DropCount | stormpulse/garage/state_reader.py:60-64 | the drop count, and exactly when it is the number of ids that left |
| StateReader.GoneReturnsIff | stormpulse/garage/state_reader.py:210-226 | exactly when an id answered 404 mid-sweep is cached again |
| StateReader.KnownIdsKeepPlace | stormpulse/garage/state_reader.py:57-64 | through a membership diff surviving ids keep their order, ahead of every new one |
| StateReader.HintIsNotLost | stormpulse/garage/state_reader.py:228-255 | a hinted id is read by a later tick or still pending, unless a full re-read landed since, and a tick reads at most 32 |
| StateReader.DrainTakesTheFirst | stormpulse/garage/state_reader.py:251-255 | a tick takes the first pending ids and leaves the others in order |
| StateReader.FreshIsWhatWasRead | stormpulse/garage/state_reader.py:207-208 | the ids reported read: all cached ones on a full re-read, else those swept or absorbed |
| StateReader.LateTargetedReadReverts | stormpulse/garage/state_reader.py:210-226 | a targeted read landing after a newer sweep puts the older record back |
| StateReader.OverlayIsUnion | stormpulse/garage/state.py:156-167 | the pushed state's upsert and the cache's agree, order, repeats and duplicate ids included |
| StateReader.WithItems | stormpulse/garage/state.py:156-167 | popping each known record's update and appending the rest is that upsert |
| StateReader.GarageStateReader.BeginRefresh | stormpulse/garage/state_reader.py:172-173 | exactly the targeted reads that land from here on are laid over the refresh |
| StateReader.GarageStateReader.FinishRefresh | stormpulse/garage/state_reader.py:182-208 | a failed list leaves the cache; any other merges, reports drops and freshness, and a full one clears the pending hints |
| StateReader.GarageStateReader.ReadBuckets | stormpulse/garage/state_reader.py:210-226 | upserts and pops land in the cache and in what a refresh will lay over; drops counted once each |
| StateReader.GarageStateReader.TakeHint | stormpulse/garage/state_reader.py:228-238 | hinted ids lead, no pending id is lost, and none is listed twice |
| StateReader.GarageStateReader.Drain | stormpulse/garage/state_reader.py:251-255 | the first 32 pending ids, the rest stay in order |
| CertSwap.AlwaysBootable | stormpulse/enroll.py:574-599 | through any renewals and boots, each cut at any write or rename and reads failing, the live or the .prev pair is whole, a boot loads one, and no live name goes missing, unless a renewal misses a whole live pair with no .prev to fall back on |
| CertSwap.NextBootIsLive | stormpulse/enroll.py:594-595 | from a whole live pair, whatever is cut where, the next boot whose rename succeeds loads a live pair, unless a renewal cannot read the pending key the live certificate waits for |
| CertSwap.RenewalSafeIff | stormpulse/enroll.py:584-595 | one renewal is safe at every cut exactly when it saw the live pair, .prev was whole, or the key is unchanged |
| CertSwap.RenewalRecoverableIff | stormpulse/enroll.py:418-438 | one renewal leaves the live pair whole or one roll-forward away at every cut exactly when it reads the pending key or needs none |
| CertSwap.CutsAreSingleChanges | stormpulse/enroll.py:574-599 | two neighbouring cuts of a renewal differ by at most one file written or renamed |
| CertSwap.RenewalInstalls | stormpulse/enroll.py:524-534 | an uncut renewal leaves the new pair live and the one it replaced as .prev |
| CertSwap.RetryKeepsKey | stormpulse/enroll.py:418-438 | a cut renewal tried again presents the same key |
| CertSwap.PendingUntilLive | stormpulse/enroll.py:418-438 | a pending key the renewals can read stays pending until it is the live key |
| CertSwap.RollForwardMakesWhole | stormpulse/enroll.py:546-561 | a live certificate for the pending key is made whole, and loaded, when the rename succeeds, which leaves no pending key |
| CertSwap.LoadedIsPresentedIff | stormpulse/agent/ssl_context.py:33-67 | the loaded pair is the presented certificate's, unless a needed roll-forward fails to rename |
| CertSwap.Credentials.LoadOrCreatePendingKey | stormpulse/enroll.py:418-438 | the stored key when it parses, else a fresh one written first |
| CertSwap.Credentials.InstallRenewedPair | stormpulse/enroll.py:574-599 | the renames in order, stopped at any budget |
| CertSwap.Credentials.CompletePendingSwap | stormpulse/enroll.py:546-561 | rolls forward exactly when the live certificate is the pending key's and the rename succeeds |
| CertSwap.Credentials.LoadTlsContext | stormpulse/agent/ssl_context.py:33-67 | roll forward, then live, then .prev, then none |
| NonceWindow.ReadOnceNeverReplays | stormpulse/auth.py:147-174 | with a rising clock read once per verification no frame is accepted twice in any run |
| NonceWindow.NoReplay | stormpulse/auth.py:147-174 | a copy is refused whenever it delays its purge no longer than the accepted one delayed its row |
| NonceWindow.ReplayAcceptedIff | stormpulse/auth.py:154-171 | exactly when a copy of the last accepted frame is accepted again |
| NonceWindow.LatePurgeReplays | stormpulse/auth.py:203-214 | any delay at the window's edge is enough |
| NonceWindow.RowsWereAccepted | stormpulse/auth.py:242-243 | nothing enters the store but the nonces of authentic accepted frames |
| NonceWindow.RefusedOnlyAsReplay | stormpulse/auth.py:203-243 | a fresh authentic frame is refused only because its nonce was accepted before |
| NonceWindow.NonceStore.CheckAndStore | stormpulse/auth.py:147-174 | purge, look and insert in one transaction, a refusal undoing the purge |
| NonceWindow.NonceStore.VerifyEnvelope | stormpulse/auth.py:181-245 | freshness, then signature, then nonce, in that order |
| SequenceRun.HandleCommandSequence | stormpulse/agent/dispatch.py:486-604 | under any schedule of seals and revokes a batch is refused whole at its first explaining step, or its steps are taken in order, each admitted by a check made after the one before was over; an admitted step runs its command unless its second lookup fails or its parameters are bad, and refusals and stopping failures come last |
| SequenceRun.PreCheck | stormpulse/agent/dispatch.py:511-549 | the whole-batch check, and which step answers for its refusal |
| SequenceRun.BatchAdmittedIff | stormpulse/agent/dispatch.py:511-549 | a batch is admitted exactly when each command is a loaded subprocess whose grant stood as it was looked up and no seal fell over a hatch; a refusal's reason is the true one |
| SequenceRun.RanIff | stormpulse/agent/dispatch.py:551-604 | an answered step ran exactly when it is a loaded subprocess with good parameters, not sealed at its admission, its grant standing there and again as it ran |
| SequenceRun.AttemptedIsPrefix | stormpulse/agent/dispatch.py:551-604 | steps that pass their admission are a prefix, indices consecutive and apart in time; the answers end early exactly at a refusal, an answer that could not be sent, or a stopping failure |
| SequenceRun.StopOnFailureRunsPrefix | stormpulse/agent/dispatch.py:551-604 | under stop-on-failure the commands that run are a prefix |
| SequenceRun.RunsPrefixIff | stormpulse/agent/dispatch.py:552-597 | without it, exactly which loaded batches run a prefix under every schedule: nothing that can run comes after a step that can raise |
| SequenceRun.ResealStops | stormpulse/agent/admission.py:30-42 | a seal that falls after a step keeps every later hatch from running and ends the sequence there |
| SequenceRun.RevokeStops | stormpulse/agent/admission.py:83-98 | so does a revoked grant for its command |
| SequenceRun.GatesAgree | stormpulse/agent/signoff_guard.py:13-44 | while nothing changes the batch check passes exactly when every step's own would |
| SequenceRun.Step | stormpulse/agent/dispatch.py:552-588 | an admitted step runs exactly when its second lookup succeeds and its parameters are good, and its success is the command's; any other fails without running |
| ParamSchema.WalkMeansShape | stormpulse/config/param_schema.py:123-200 | for every accepted declaration the checking walk finds no violation exactly on the values the shape stands for, and raises only on a lone surrogate |
| ParamSchema.DefinedIff | stormpulse/config/param_schema.py:177-184 | every accepted declaration can check a value exactly when no string in it holds a lone surrogate |
| ParamSchema.AcceptedIff | stormpulse/config/param_schema.py:39-120 | the declaration walk accepts exactly the documents that spell out a good shape: the known keys of the type and no others, each with a value of its kind, patterns that compile, required names that are declared; and each is read as that one shape |
| ParamSchema.RequiredRaisesIff | stormpulse/config/param_schema.py:100-104 | the declaration walk's scan of the required names raises exactly at a list or an object after declared names only |
| ParamSchema.TypeRaises | stormpulse/config/param_schema.py:48-50 | a node whose type is a list or an object makes the declaration walk raise |
| ParamSchema.RoundTrip | stormpulse/config/param_schema.py:39-120 | every shape with good patterns and declared required names can be written down, is accepted, and reads back as itself |
| ParamSchema.Utf8IsShortest | stormpulse/config/param_schema.py:182-184 | a character is measured as the fewest octets of UTF-8 that can carry it, as RFC 3629 demands |
| ParamSchema.Utf8LengthSplits | stormpulse/config/param_schema.py:182-184 | a string measures what its two parts do together, and neither way if one cannot be encoded |
| ParamSchema.LoneSurrogateRaises | stormpulse/config/param_schema.py:182-183 | wherever a value holds a lone surrogate some accepted shape raises on it |
| ParamSchema.MissingIsFineIff | stormpulse/config/param_schema.py:138-140 | the required names of an accepted declaration can be looked up, and pass exactly when all are present |
| ParamSchema.AcceptedKeys | stormpulse/config/param_schema.py:90-107 | an accepted object declaration's keys are accepted shapes and its required names declared |
| ParamSchema.AcceptedEntries | stormpulse/config/param_schema.py:110-120 | an accepted entries rule has an accepted value shape |

## Left out

- PendingBatches.HandleLogBatchAck: a confirm that raises leaves the tailer as it was; one that raised between its list and its stored position is not modelled.
- SpoolFeeder.SpoolFeeder.Tick: segments are read in some order, not in the order of their names.
- SpoolFeeder.StampedOnce: assumes `lstat` names a file exactly and one tick at a time, though two sessions' ticks of one feeder may overlap; a segment's records and their parsing are a count.
- Jobs.ShutdownAnswersAll: assumes a progress send lets a cancellation through; a send that swallowed it would let a parked job run again.
- CertSwap.AlwaysBootable: the pair a boot loads is read as it is on disk; a renewal's reads and a boot's roll-forward may fail.
- NonceWindow.ReadOnceNeverReplays: one maximum age for the whole run; the database, its transactions and its persistence are one map.
- SequenceRun.HandleCommandSequence: a send that fails ends the answers; a handler cancelled in mid-step is not told apart from it.
- RetryWindow.Run: clock readings are reals, so floating-point rounding of the deadline is not modelled.
- ParamSchema.WalkMeansShape: verdicts only, not message text; regular expressions are an arbitrary compile outcome and match relation; Python's recursion limit and non-JSON values are not modelled.
- Docker's calendar format: instants are integers, so an unreadable stored timestamp, which `_covers` lets through, does not occur.
- The follow process's pipe and its partial lines: a stream delivers whole lines.
- The configured cap of 1 to 200 lines a batch (stormpulse/config/__init__.py:828) enters as a bound on the model's `maxLines`.
- File and journald tailers, log parsing and enrichment.
- HMAC, X.509 and key generation: whether a frame is authentic and which key a certificate is for are given.
- The rest of the Garage reader's tick: cadences, topology, hint-file refusals and composing the pushed state.
- Push generations, component lists and adapter hooks of the integration envelope.
- Result payloads, progress text, log lines and metrics events.
- Initial enrollment, reconnect backoff, Caddy planning, the CLI and configuration parsing.
