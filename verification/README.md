# Vidarax: event delivery, live audio, policies and the sidecar ledgers

This project models the parts of Vidarax whose promises span many steps, many
threads or many bytes, and proves those promises for all inputs, all runs and
all reachable states.

**Event delivery.** `Timeline` is the write-ahead log seen as a file of records
below a published end, with its bounded cursor reader. `DeliveryLog` holds
webhook matching, the registration fold and the delivery-log fold.
`DeliveryProtocol` puts one timeline writer, the lossy broadcast ring, the
coordinator and one worker per hook into a single step relation with failed
reads, failed appends, failed posts and crashes between any two steps.
`DeliveryInvariant`, `DeliverySteps` and `DeliverySafety` prove one invariant of
every reachable state, and `DeliveryTheorems` draws the promises from it;
`DeliveryPromises` states them once more in terms of the records alone, with the
rules of which events a hook is told of written out; `DeliveryErrors` says which error a worker shows and when a restart shows the
same. `WebhookWorker` and `WebhookCoordinator` are the imperative code: every
statement of the worker, and every command and notification the coordinator
handles, is shown to be a step of the protocol, whatever the rest of the world
does in between. `SseStream` and `SseProducer` do the same for the
server-sent event stream.

**Live audio.** `LiveAudio` is the wrapping RTP clock, `AudioWindows` the
per-track accumulators and the aggregation loop, `OggCrc` the bitwise CRC-32 of
section 6 of RFC 3533, `OggOpus` an Ogg page writer with an independent page,
flag and packet parser written from section 6 of RFC 3533, and `OpusWindow` a whole
window with the headers of section 5 and the granule positions of section 4 of
RFC 7845. `Octets` holds the one conversion between bytes and numbers.

**Policies.** `Policies` is the fold from immutable events to policy revisions,
in place and as a function; `PolicyRollout` adds the handlers that write those
events, interleaved in any way, `PolicyHistory` what a policy's status says about
its past, and `PolicyLineage` which parent it names.

**Smaller pieces.** `Calendar` and `Timestamps` cover the date algorithm and the
order of formatted timestamps, `BatchPool` the bounded pool of a batch request,
`SpeechGroups` the greedy grouping of speech and `SpeechCoverage` what the groups
cover, `Admission` and `ByteBudget` the ledgers of the two Python sidecars, and
`LatencyHistogram` the latency buckets and the quantile reader. `Sorting` is the
one stable sort, by any order; `Wrappers` holds the shared `Option`, `Result` and
saturating numbers.

Where the obvious claim is false of the code, that is proved too, with the exact
condition under which it holds. A restart recovers the error a worker shows
depending on what last set it (`DeliveryErrors.RestartErrorExactly`). A policy's
status remembers that it was active as long as no overlapping handler sets it
back (`PolicyHistory.HistoryExactly`), and revisions form one line as long as no
two overlapping handlers name the same parent (`PolicyLineage.LineExactly`).
Nested speech may be lost from its group (`SpeechCoverage.CoverageExactly`, for any
ranges). A damaged page passes its
checksum exactly when the damage, read as a page, does
(`OggOpus.DamagePassesExactly`). An Ogg stream whose last frame is empty has no
last-page flag (`OpusWindow.WindowReadsBack`), a granule position counts samples
only for frames of 120 to 5760 ticks (`OpusWindow.GranuleCountsSamples`), and the
first instant of the year 10000 sorts before the last of 9999
(`Timestamps.TextOrderExactly`). For the first five a reachable state, an input or
a page shows the failure.

## Model

| member | source | states |
|---|---|---|
| Timeline.ReadEventsAfterFromUpTo | crates/vidarax-core/src/timeline.rs:639-700 | from any offset and whatever the rest of a record decodes to, the reader's loop returns what the declarative read says: the batch and the position just past the last record examined, or a refusal |
| Timeline.ReadIsSlice | crates/vidarax-core/src/timeline.rs:639-700 | from any record boundary at or before the cursor a read never fails and returns the records right after the cursor, cut at the limit and at the published end |
| Timeline.OffsetRefinesFullScan | crates/vidarax-core/src/timeline.rs:631-700 | when every record before the offset is at or below the cursor, the read from the offset equals the read from 0: same batch, same next position |
| Timeline.ReadIsNewer | crates/vidarax-core/src/timeline.rs:610-700 | the batch is the first `limit` committed events newer than the cursor, picked record by record |
| DeliveryLog.RestoreWebhookConfigs | crates/vidarax-api/src/delivery.rs:1184-1227 | the loop over the timeline yields the fold of registrations and deletions |
| DeliveryLog.RestoredIsRegistered | crates/vidarax-api/src/delivery.rs:1184-1227 | with ids never reused, a restored hook has exactly the configuration and starting sequence number it was registered with |
| DeliveryLog.RestoredUnlessDeleted | crates/vidarax-api/src/delivery.rs:1184-1227 | a hook is restored if and only if its registration is in the timeline and no deletion of it comes later |
| DeliveryLog.LoadDeliveryState | crates/vidarax-api/src/delivery.rs:1262-1287 | one pass over the delivery log recovers, for every hook mentioned and no other, its largest settled sequence number, its saturating counts, and its last dead-letter error |
| DeliveryLog.TerminalsCounted | crates/vidarax-api/src/delivery.rs:1262-1287 | a hook's terminal records are counted once each as delivered or dead letter |
| DeliveryErrors.RestartErrorExactly | crates/vidarax-api/src/delivery.rs:893-921 | in every reachable state of every run the error a restart recovers is the one the worker shows if and only if what last set it was a start or a dead letter, or a delivery with no dead-letter error on record, or a failed replay with that same error; between a dead-letter record and its status update, it is the new error |
| DeliveryErrors.RunShows | crates/vidarax-api/src/delivery.rs:893-1027 | the error a worker shows, by what last set it |
| DeliveryErrors.SettledShowsLastRecord | crates/vidarax-api/src/delivery.rs:1015-1021 | after a settlement the worker shows the error of its last terminal record, none after a delivery |
| DeliveryLog.RestartErrorAgrees | crates/vidarax-api/src/delivery.rs:1273-1280 | of the log alone: the recovered error is that of the last terminal record if and only if that was not a delivery or no dead letter left an error |
| DeliveryErrors.DeliveryIsForgotten | crates/vidarax-api/src/delivery.rs:1015-1021 | a reachable state in which a delivery after a dead letter has cleared the error, and a restart brings it back |
| DeliveryErrors.FailedReplayIsForgotten | crates/vidarax-api/src/delivery.rs:901-904 | a reachable state in which a failed replay shows an error, and a restart shows none |
| DeliverySafety.RunKeeps | crates/vidarax-api/src/delivery.rs:707-1047 | the invariant of the timeline, the delivery log, every hook, every task and every record holds in every reachable state, with crashes and failures anywhere |
| DeliveryTheorems.ExactlyOnce | crates/vidarax-api/src/delivery.rs:940-1046 | in every reachable state the log holds exactly one terminal record for each committed event the hook is subscribed to (`Subscribed` writes the rules out) past the registration and not past the durable cursor, none for any other, in strictly increasing order, and the cursor never passes the committed prefix |
| DeliveryPromises.OneVerdictEach | crates/vidarax-api/src/delivery.rs:1049-1067 | in every reachable state, for every registered hook and committed event: one verdict in the log if the event comes after the registration, is of the same run, is not about webhooks, asks for one if it is a trigger, is of a listed kind or none is listed, and the log has passed it; otherwise none |
| DeliveryPromises.VerdictsAreOwed | crates/vidarax-api/src/delivery.rs:940-1046 | every verdict is on a committed event that a committed registration of the hook is told of by those rules |
| DeliveryPromises.PostsAreOwed | crates/vidarax-api/src/delivery.rs:963-977 | a POST is only ever made for such an event, of at most 1048576 bytes, that has no verdict yet |
| DeliveryPromises.QuietMeansAllTold | crates/vidarax-api/src/delivery.rs:909-920 | once the coordinator has heard everything, a parked worker's hook has one verdict on every committed event it is told of, and none on any other |
| DeliveryPromises.EveryEventCanBeTold | crates/vidarax-api/src/delivery.rs:889-921 | from every reachable state, whatever failed before, some schedule leads there |
| DeliveryPromises.DeadLettersWereTried | crates/vidarax-api/src/delivery.rs:971-1014 | a dead letter is on an event over 1048576 bytes, or one with at least three failed POSTs before the record was written |
| DeliveryPromises.ThreeAttempts | crates/vidarax-api/src/delivery.rs:975-999 | at most three attempts at an event in a row |
| DeliveryTheorems.DeliveredWasPosted | crates/vidarax-api/src/delivery.rs:975-1014 | each delivered record is preceded, in an earlier state whose log did not hold it yet, by a successful POST of that event |
| DeliveryTheorems.DeadLetterWasTried | crates/vidarax-api/src/delivery.rs:971-1014 | each dead letter is preceded, in an earlier state whose log did not hold it yet, by at least three failed POSTs of that event, or the body is over the limit |
| DeliveryTheorems.NoPostAfterSettled | crates/vidarax-api/src/delivery.rs:941-977 | a POST is only ever made for a committed event the hook is subscribed to, within the body limit, that has no terminal record, through any crash |
| DeliveryTheorems.LogGrows | crates/vidarax-api/src/delivery.rs:1289-1297 | no step removes or changes a record or a post, and no step adds both |
| DeliveryTheorems.NoLostWakeups | crates/vidarax-api/src/delivery.rs:817-827 | for a worker parked after a successful replay with an empty channel, every committed event of its run past its cursor is one the coordinator has yet to hear of |
| DeliveryTheorems.OffsetReadIsFullRead | crates/vidarax-api/src/delivery.rs:941-960 | whenever a worker reads, its remembered offset gives the same batch as a scan of the whole file, which is the next 256 committed events past its cursor, and the read does not fail |
| DeliveryTheorems.RestartAgreesWithMemory | crates/vidarax-api/src/delivery.rs:1262-1287 | outside the moment between a record and its status update, a restart recovers the running worker's counters and effective cursor |
| DeliveryTheorems.QuiescentMeansSettled | crates/vidarax-api/src/delivery.rs:909-920 | once the coordinator has heard everything, a parked worker has settled every event due to its hook, in order |
| DeliveryTheorems.WorkerParks | crates/vidarax-api/src/delivery.rs:889-921 | from every good state a worker whose effects succeed reaches the parked state |
| DeliveryTheorems.EverythingCanSettle | crates/vidarax-api/src/delivery.rs:889-921 | from every reachable state, whatever failed before, some schedule settles every committed event due to a hook |
| DeliveryTheorems.SettledOnce | crates/vidarax-api/src/delivery.rs:963-1027 | a log that settles exactly the due events counts each one the hook is subscribed to once and no other |
| DeliveryTheorems.DueCounts | crates/vidarax-api/src/delivery.rs:963-967 | a record is due once if the hook is subscribed to it and it is in range, and never otherwise |
| WebhookWorker.HookWorker.ReplayHook | crates/vidarax-api/src/delivery.rs:931-1047 | against any behaviour of the other tasks the replay is a run of the protocol; on success everything committed at the call is behind the cursor, on failure the task waits to retry |
| WebhookWorker.HookWorker.SettleBatch | crates/vidarax-api/src/delivery.rs:961-1045 | after a settled batch the status stands at its last event and the offset just past it; after a failure the offset has not moved |
| WebhookWorker.HookWorker.Attempt | crates/vidarax-api/src/delivery.rs:973-1000 | up to three POSTs with a retry record after each failure but the last; each a protocol step |
| WebhookWorker.HookWorker.SettleEvent | crates/vidarax-api/src/delivery.rs:971-1027 | the attempts, one terminal record, then the status: each a protocol step |
| WebhookWorker.HookWorker.FinishBatch | crates/vidarax-api/src/delivery.rs:1028-1045 | the checkpoint is logged, then adopted, then the offset moves, in this order |
| WebhookWorker.HookWorker.Run | crates/vidarax-api/src/delivery.rs:887-922 | for any number of rounds the task is a run of the protocol in which it takes at least two steps a round; if it parks, no token waits and everything committed when it began is behind its cursor; if it stops, it was told to |
| WebhookWorker.ReadIsGood | crates/vidarax-api/src/delivery.rs:950-961 | from a good offset a read succeeds, moves the cursor forward, and one that is not full reaches the published end |
| WebhookCoordinator.Coordinator.constructor | crates/vidarax-api/src/delivery.rs:722-739 | as many restored hooks as there are, but at most 64, become active with empty channels, and none without a secret or a delivery log: the restart step of the protocol |
| WebhookCoordinator.Coordinator.Reserve | crates/vidarax-api/src/delivery.rs:750-774 | the reply for each state of the table; exactly when it accepts, the reservation step of the protocol, and the table is never past 64 hooks |
| WebhookCoordinator.Coordinator.Activate | crates/vidarax-api/src/delivery.rs:775-798 | only a reserved hook that is not active becomes active, with the sequence number of its registration and an empty channel: the activation step of the protocol |
| WebhookCoordinator.Coordinator.Remove | crates/vidarax-api/src/delivery.rs:799-806 | the hook and its channel go and nothing else changes: the removal step of the protocol, or none if there was no such hook |
| WebhookCoordinator.Coordinator.Wake | crates/vidarax-api/src/delivery.rs:817-872 | whatever order the table is walked in, exactly the active hooks concerned end with a token, a second one being coalesced |
| WebhookCoordinator.Coordinator.Hear | crates/vidarax-api/src/delivery.rs:817-827 | a notification or lag report wakes the hooks it concerns, and that is the hearing step of the protocol; more than 1024 behind it moves to the oldest kept |
| SseStream.RunKeeps | crates/vidarax-api/src/delivery.rs:329-431 | what was sent is the filter of the committed prefix up to the stream's progress, in every state of every run |
| SseStream.StreamIsFilter | crates/vidarax-api/src/delivery.rs:307-429 | what a client was sent is strictly increasing and holds exactly the committed events of the run and kind asked for, past the start and within the stream's progress, for every interleaving of commits, batches, notifications and ring overruns |
| SseStream.CaughtUpMeansComplete | crates/vidarax-api/src/delivery.rs:340-392 | a stream that has heard everything and is waiting has sent, in order, every committed event past the start of the run and kind asked for, and no other |
| SseStream.OutputIsBounded | crates/vidarax-api/src/delivery.rs:330-334 | never more than 16 events wait for the client |
| SseStream.ResumeIsSeamless | crates/vidarax-api/src/delivery.rs:307-328 | cutting a stream anywhere and resuming at the last received id gives together what one uninterrupted stream gives (section 9.2.4 of the WHATWG HTML Living Standard) |
| SseStream.FilterAscends | crates/vidarax-api/src/delivery.rs:422-429 | the filter is strictly increasing and holds exactly the events of its range that are of the run and kind asked for |
| SseProducer.Producer.Produce | crates/vidarax-api/src/delivery.rs:338-392 | for any number of notifications the producer is a run of the stream protocol with a step of its own for each; it ends only closed, and otherwise stands at replay or following as its flag says |
| SseProducer.Producer.ReplayToSse | crates/vidarax-api/src/delivery.rs:404-431 | one batch is a sequence of protocol steps; it asks for another exactly when it was full, and then the cursor has moved |
| SseProducer.Producer.SendBatch | crates/vidarax-api/src/delivery.rs:421-431 | every event of the batch moves the cursor, and the wanted ones are sent in order, until the batch ends or the client is gone |
| SseProducer.Producer.CatchUp | crates/vidarax-api/src/delivery.rs:341-358 | replay ends, either following the ring or closed |
| SseProducer.Producer.SendEvent | crates/vidarax-api/src/delivery.rs:433-448 | an event is sent once, when there is room, or the stream closes owing it |
| SseProducer.Producer.AwaitNotification | crates/vidarax-api/src/delivery.rs:361-391 | an old notification is skipped, a newer one moves the cursor, a report that more than 1024 were missed leads back to replay at the oldest kept |
| OggCrc.OggCrc | crates/vidarax-api/src/live_audio.rs:520-533 | the two loops compute the recursive CRC of the bytes |
| OggCrc.BitIsInjective | crates/vidarax-api/src/live_audio.rs:524-530 | one bit step never maps two registers to one |
| OggCrc.CrcIsLinear | crates/vidarax-api/src/live_audio.rs:520-533 | for inputs of equal length the checksum of the exclusive-or is the exclusive-or of the checksums |
| OggCrc.FourBytesAreAWord | crates/vidarax-api/src/live_audio.rs:520-533 | feeding four bytes to an empty register is 32 bit steps on the word they form |
| OggCrc.BurstDetected | crates/vidarax-api/src/live_audio.rs:520-533 | two inputs of equal length that differ only within four consecutive bytes have different checksums |
| OggOpus.LeDigits | crates/vidarax-api/src/live_audio.rs:507-510 | byte k of a number is its digit k in base 256, least significant first |
| OggOpus.LeRoundTrips | crates/vidarax-api/src/live_audio.rs:507-510 | a number that fits its width is read back from its little-endian bytes |
| OggOpus.FitsUpTo65024 | crates/vidarax-api/src/live_audio.rs:497-502 | exactly the packets over 65024 bytes need more than 255 segments |
| OggOpus.TableSums | crates/vidarax-api/src/live_audio.rs:511-513 | the lacing values of a packet add up to its length |
| OggOpus.Patched | crates/vidarax-api/src/live_audio.rs:515-516 | overwriting bytes 22 to 26 of a page is writing it with that checksum |
| OggOpus.PageRoundTrips | crates/vidarax-api/src/live_audio.rs:489-518 | an independent parser finds the text OggS and reads every field, the segment table and the packet back from a written page whatever follows it, with its checksum valid |
| OggOpus.PageCarriesPacket | crates/vidarax-api/src/live_audio.rs:494-513 | a page carries exactly one whole packet and leaves none open |
| OggOpus.DamageIsDetected | crates/vidarax-api/src/live_audio.rs:514-533 | a page damaged inside four consecutive bytes outside or inside its checksum field no longer passes its checksum |
| OggOpus.DamagePassesExactly | crates/vidarax-api/src/live_audio.rs:514-533 | a page damaged in any way passes if and only if the exclusive-or of the two pages, read as a page, passes |
| OggOpus.StraddlingDamagePasses | crates/vidarax-api/src/live_audio.rs:514-533 | four damaged bytes across the edge of the field that every page of 31 bytes passes with |
| OpusWindow.HeadParses | crates/vidarax-api/src/live_audio.rs:442-450 | the identification header spells OpusHead and parses as version 1, two channels, pre-skip 312, rate 48000, gain 0 (section 5.1 of RFC 7845) |
| OpusWindow.TagsParse | crates/vidarax-api/src/live_audio.rs:453-459 | the comment header spells OpusTags and parses as the vendor vidarax and no comments (section 5.2 of RFC 7845) |
| OpusWindow.OggFile.AppendPage | crates/vidarax-api/src/live_audio.rs:489-518 | a page is refused, output untouched, exactly when the packet is over 65024 bytes; otherwise the sealed page is appended |
| OpusWindow.BuildOggOpus | crates/vidarax-api/src/live_audio.rs:438-486 | fails exactly when some frame is over 65024 bytes; otherwise the bytes read back as described in the next row |
| OpusWindow.WindowReadsBack | crates/vidarax-api/src/live_audio.rs:438-486 | the written window parses as its two headers and every nonempty frame in order, one packet a page, numbered from 0, valid checksums; bit 2 of the header type is set on page 0 alone, bit 4 on the last page alone and exactly if the last frame has data, bit 1 nowhere |
| OpusWindow.BytesParse | crates/vidarax-api/src/live_audio.rs:489-518 | any sequence of written pages parses page for page |
| OpusWindow.PagesCarryPackets | crates/vidarax-api/src/live_audio.rs:489-518 | their packets come back in order with nothing left over |
| OpusWindow.KeptExactly | crates/vidarax-api/src/live_audio.rs:463-466 | a frame has a page if and only if it has data, once, in order |
| OpusWindow.GranuleUnwrapped | crates/vidarax-api/src/live_audio.rs:462-483 | while a window spans less than 2^32 ticks, a granule position is pre-skip, true elapsed ticks and the clamped duration |
| OpusWindow.GranulesRise | crates/vidarax-api/src/live_audio.rs:462-483 | then granule positions never decrease and strictly increase whenever the clock does |
| OpusWindow.GranuleCountsSamples | crates/vidarax-api/src/live_audio.rs:467-483 | and one equals pre-skip plus all samples so far if and only if its frame lasts between 120 and 5760 ticks (section 4 of RFC 7845) |
| LiveAudio.WrapSubIsElapsed | crates/vidarax-api/src/live_audio.rs:67-89 | wrapped subtraction is the true distance modulo 2^32, and the true distance exactly while that is below 2^32 |
| AudioWindows.TrackAccumulator.Push | crates/vidarax-api/src/live_audio.rs:51-57 | the new value of the accumulator, the window start moving only when it was empty |
| AudioWindows.TrackAccumulator.TakeWindow | crates/vidarax-api/src/live_audio.rs:91-100 | the window holds every buffered frame and the accumulator is left empty |
| AudioWindows.Aggregator.Receive | crates/vidarax-api/src/live_audio.rs:125-154 | one turn of the loop keeps every track's frames accounted for, every window right, and the drop counter exact |
| AudioWindows.Aggregator.Finish | crates/vidarax-api/src/live_audio.rs:155-161 | at the end no track is left with 250 ms or more buffered |
| AudioWindows.Aggregator.Run | crates/vidarax-api/src/live_audio.rs:124-162 | the whole loop, over any frames of any tracks, ends with all of that true of the frames received |
| AudioWindows.ReceivedIsGood | crates/vidarax-api/src/live_audio.rs:134-153 | a frame keeps the invariant of its track: windows unbroken and of the right length, stretches opened exactly where the track, the clock or the 16-bit sequence breaks, each with a stale window before it |
| AudioWindows.FramesConserved | crates/vidarax-api/src/live_audio.rs:127-161 | the valid frames of a track are, in order, the frames of every window taken (queued, refused or discarded) and then those still buffered |
| AudioWindows.FramesOfTrack | crates/vidarax-api/src/live_audio.rs:125-133 | the valid frames of a track are those received for it with a clock and with data, each as often as it came |
| AudioWindows.InvalidCounted | crates/vidarax-api/src/live_audio.rs:127-130 | the frames counted as dropped on arrival are those without a clock or without data |
| AudioWindows.RefusedCounted | crates/vidarax-api/src/live_audio.rs:138-152 | and the windows counted as dropped are those the queue refused, each once |
| AudioWindows.EmittedIsGood | crates/vidarax-api/src/live_audio.rs:147-153 | a threshold window lasts at least the window length and less without its last frame |
| AudioWindows.RestartedIsGood | crates/vidarax-api/src/live_audio.rs:138-144 | a stale window ends exactly at a break, is shorter than the window length, and is discarded exactly when it has at most one frame |
| AudioWindows.StaleExactlyAtGaps | crates/vidarax-api/src/live_audio.rs:59-65 | between two valid frames of a track a window ends as stale if and only if their clock rates differ, or both sequence numbers are known and the second is not the next one in 16 bits |
| AudioWindows.WindowsLast | crates/vidarax-api/src/live_audio.rs:67-77 | with true clock readings below 2^32 ticks: a threshold window reaches the window length with its last frame and not before, a stale one never does, a flushed one lasts 250 ms or more |
| AudioWindows.SourceStartIsElapsed | crates/vidarax-api/src/live_audio.rs:79-89 | a window's start is the true elapsed time since its stretch began, rounded down to a millisecond, if and only if that is below 2^32 ticks |
| AudioWindows.QueuedWindowsEncodeWhole | crates/vidarax-api/src/live_audio.rs:127-161 | a queued window is of one track and clock, known sequence numbers go up by one with 0 after 65535, and every frame has data, so its Ogg stream carries every frame |
| Policies.PolicyTable.ReconstructPolicies | crates/vidarax-api/src/policies.rs:792-865 | the loop over the events and the final sort give the reconstruction as a function |
| Policies.PolicyTable.RetireActive | crates/vidarax-api/src/policies.rs:867-876 | exactly the active policies of other revisions are retired |
| Policies.PolicyTable.ApplyAcknowledgement | crates/vidarax-api/src/policies.rs:878-900 | exactly the first policy of the revision takes the status and the application |
| Policies.AtMostOneActive | crates/vidarax-api/src/policies.rs:792-876 | for any events in any order, repeated numbers included, at most one reconstructed policy is active |
| Policies.OnePolicyEach | crates/vidarax-api/src/policies.rs:792-865 | whatever the events, a revision with given parent, prompt, schema, parameters and creation time is listed as often as events created one |
| Policies.ListedWasCreated | crates/vidarax-api/src/policies.rs:797-823 | so every listed policy has the number, terms and time of an event that created it |
| Policies.CreatedIsListed | crates/vidarax-api/src/policies.rs:797-823 | and every creation is listed with its terms |
| Policies.EventShows | crates/vidarax-api/src/policies.rs:792-900 | each event adds at most one policy and makes of each earlier one exactly what `Becomes` says: acknowledged if it is the first of the revision named, rolled back, retired, or unchanged |
| Policies.CreatedAsDraft | crates/vidarax-api/src/policies.rs:805-823 | a revision starts as a draft with no generation, not effective, nothing deferred |
| Policies.RevisionsAreImmutable | crates/vidarax-api/src/policies.rs:792-865 | a listed revision stays listed with the same parent, prompt, schema and parameters, whatever is appended |
| Policies.ReconstructionPermutes | crates/vidarax-api/src/policies.rs:863-864 | the reconstruction holds every policy of the fold once, in order of revision |
| PolicyRollout.RunIsSound | crates/vidarax-api/src/policies.rs:164-530 | in every interleaving of handlers each acknowledgement is honest about the revision it names |
| PolicyRollout.EffectiveMeansActive | crates/vidarax-api/src/policies.rs:668-900 | in every interleaving a policy marked effective is active, has a prompt and has nothing deferred |
| PolicyHistory.RunRests | crates/vidarax-api/src/policies.rs:164-530 | in every interleaving each acknowledgement rests on a status its handler read at some earlier point |
| PolicyHistory.HistoryExactly | crates/vidarax-api/src/policies.rs:164-530 | in every interleaving: retired or rolled back means active before and not now, at every point and for every policy, if and only if no shadow or canary acknowledgement is appended for a revision that is active, retired or rolled back at that moment |
| PolicyHistory.ActiveClimbed | crates/vidarax-api/src/policies.rs:902-909 | in every interleaving every active policy was a canary before, and a shadow before that |
| PolicyHistory.RollbackAcceptsFormer | crates/vidarax-api/src/policies.rs:433-469 | while nothing regresses in that way the rollback guard accepts exactly a revision that was active and is not, while another is |
| PolicyHistory.SerialRunIsOrdered | crates/vidarax-api/src/policies.rs:164-530 | with handlers run one at a time each acknowledgement meets its guard in the state it is appended to |
| PolicyHistory.SerialNeverRegresses | crates/vidarax-api/src/policies.rs:902-909 | and none of them regresses |
| PolicyLineage.RunIsLineal | crates/vidarax-api/src/policies.rs:164-212 | in every interleaving a policy's parent is none or a revision created before it, and it has a prompt that is not empty or a restricted zone |
| PolicyLineage.LineExactly | crates/vidarax-api/src/policies.rs:179-201 | in every interleaving the revisions form one line, each naming the one created last before it and the first none, if and only if no two name the same parent |
| PolicyLineage.SerialParentsChain | crates/vidarax-api/src/policies.rs:179-201 | with handlers run one at a time they do form one line |
| PolicyLineage.OverlappingCreationsFork | crates/vidarax-api/src/policies.rs:174-212 | a reachable state of overlapping handlers in which two revisions name the same parent |
| PolicyHistory.FormerlyActiveExactly | crates/vidarax-api/src/policies.rs:325-339 | so a policy is retired or rolled back if and only if it was active before and is not now |
| PolicyHistory.RollbackAcceptsExactly | crates/vidarax-api/src/policies.rs:433-469 | and the rollback guard accepts exactly a revision that was active and is not, while another is |
| PolicyHistory.OverlappingHandlersForget | crates/vidarax-api/src/policies.rs:313-398 | a reachable state of overlapping handlers in which a revision that was active is a shadow |
| Calendar.NextDay | crates/vidarax-api/src/handlers.rs:4115-4138 | the date of the next day is the Gregorian successor of the date, for every day |
| Calendar.AgreesWithCalendar | crates/vidarax-api/src/handlers.rs:4115-4138 | the algorithm gives the date reached from 1 January 1970 one day at a time |
| Calendar.YearFound | crates/vidarax-api/src/handlers.rs:4127-4132 | the year of a day of an era is the one whose days include it |
| Timestamps.TextOrder | crates/vidarax-api/src/handlers.rs:4115-4138 | before the year 10000 timestamps compare as strings exactly as they do as numbers (section 5.1 of RFC 3339) |
| Timestamps.TextOrderExactly | crates/vidarax-api/src/handlers.rs:4115-4138 | that holds below a bound if and only if the bound is at most 253402300800000 |
| Timestamps.TextReadsBack | crates/vidarax-api/src/handlers.rs:4115-4138 | before the year 10000 a timestamp has the layout of section 5.6 of RFC 3339 with milliseconds, and its decimals read back as the date of its day and the clock time, which add up to the timestamp |
| Timestamps.FieldsRecombine | crates/vidarax-api/src/handlers.rs:4115-4123 | day and clock time add up to the timestamp, each within its range |
| Timestamps.ListedByTime | crates/vidarax-api/src/handlers.rs:3590-3595 | sorting runs by the text of their creation times is sorting them by time, ties included |
| Timestamps.TimeSortIsRight | crates/vidarax-api/src/handlers.rs:3590-3595 | and that is ascending with every run listed once |
| BatchPool.InferBatch | crates/vidarax-api/src/handlers.rs:648-768 | each refusal exactly when it applies and before anything is spawned, with limits 256, 64 and 8 and the first invalid request deciding; otherwise, for every completion order: at most the limit in flight, every request spawned once, an error exactly when some task panics, and else the i-th result is the outcome of request i and the counts are those of the requests answered |
| BatchPool.RunPool | crates/vidarax-api/src/handlers.rs:697-768 | the same of the pool itself |
| BatchPool.FilledFlattens | crates/vidarax-api/src/handlers.rs:760-761 | full slots flatten to one item per request, with the counts of the outcomes |
| SpeechGroups.GroupSpeechRanges | scripts/audio_perception_server.py:876-906 | the loop that rewrites the last group computes the groups of the clipped, kept ranges, each widened by 300 ms at both ends within the recording |
| SpeechGroups.KeptExactly | scripts/audio_perception_server.py:880-884 | kept are exactly the ranges that last 250 ms or more once cut to the recording |
| SpeechGroups.GroupsCover | scripts/audio_perception_server.py:880-897 | for ranges whose starts and ends go forward every kept range lies in a group, confidence included |
| SpeechGroups.StartsLegal | scripts/audio_perception_server.py:886-890 | the groups are consecutive runs with gaps of at most a second and spans of at most twenty, single ranges exempt |
| SpeechGroups.GreedyStaysAhead | scripts/audio_perception_server.py:886-897 | any legal split has at least as many runs, and with equally many its last run starts no later |
| SpeechGroups.GroupsAreFewest | scripts/audio_perception_server.py:876-897 | for disjoint ranges in any order: coverage, legality, and no legal split with fewer groups |
| SpeechCoverage.CoverageExactly | scripts/audio_perception_server.py:876-897 | for any ranges in any order, the groups span every kept range if and only if each range that ends after the last of its run lies in a single range of over twenty seconds that is a group of its own |
| SpeechCoverage.LoudCoverageExactly | scripts/audio_perception_server.py:876-897 | with confidence included, if and only if some group covers each range that ends after the last of its run |
| SpeechCoverage.OwnGroupCovers | scripts/audio_perception_server.py:885-897 | a kept range lies in the group it was put into, confidence included, if and only if it does not end after the last range of its run |
| SpeechCoverage.ShortSpeechExactly | scripts/audio_perception_server.py:876-897 | while no kept range is over twenty seconds the groups span every kept range, and cover it with confidence included, if and only if none ends after the last of its run |
| SpeechCoverage.LongSpeechMayCover | scripts/audio_perception_server.py:885-897 | a group of a minute that spans a range lost from a later group |
| SpeechGroups.PaddingWidens | scripts/audio_perception_server.py:899-906 | padding widens a group by exactly 300 ms at each end, or to the edge of the recording |
| SpeechGroups.NestedSpeechIsLost | scripts/audio_perception_server.py:891-896 | nested ranges whose group does not cover them |
| ByteBudget.MicroBatcher.Reserve | scripts/embedding_server.py:116-121 | one step of the ledger: bytes are added exactly when they fit the budget, and otherwise nothing is and the connection closes |
| ByteBudget.MicroBatcher.SubmitReserved | scripts/embedding_server.py:123-129 | an item is queued last exactly when the queue has room, and otherwise, after whatever other threads do, its bytes are given back |
| ByteBudget.MicroBatcher.Collect | scripts/embedding_server.py:131-143 | the batch is taken in queue order and within the batch size while others may add behind it |
| ByteBudget.MicroBatcher.Turn | scripts/embedding_server.py:131-147 | the release at the end of a turn subtracts exactly the bytes of the batch, with no clamping |
| ByteBudget.MicroBatcher.Handle | scripts/embedding_server.py:192-224 | a length of 0 or over 10485760 bytes is refused and closes the connection; otherwise, whatever the client, the queue and the other threads do, a request ends with its handler holding no bytes, in a state of the run |
| ByteBudget.LedgerIsExact | scripts/embedding_server.py:116-224 | in every interleaving the counter is exactly the bytes held by handlers, queued and in the batch, and within the budget |
| ByteBudget.ClampNeverActs | scripts/embedding_server.py:149-151 | so no release gives back more than is counted |
| ByteBudget.QuietMeansFree | scripts/embedding_server.py:116-224 | with nothing in hand the whole budget is free |
| Admission.RunKeepsBalance | scripts/audio_perception_server.py:909-939 | both counters and the permits are exactly what the threads hold, in every interleaving |
| Admission.LimitsHold | scripts/audio_perception_server.py:918-939 | active never exceeds the limit, queued never exceeds its maximum, permits free and held add up to the limit |
| Admission.QuiescenceRestores | scripts/audio_perception_server.py:918-939 | with every thread gone the counters are as at the start |
| Admission.Gate.Acquire | scripts/audio_perception_server.py:918-934 | with other threads between its lock sections the caller ends counted active exactly if admitted, and otherwise leaves no trace; it is admitted whenever a permit is free at once, and refused only when the queue was full as it came to it or its wait ran out |
| Admission.Gate.Handle | scripts/audio_perception_server.py:1027-1068 | a request gives back all it took |
| LatencyHistogram.ProviderMetrics.RecordLatency | crates/vidarax-api/src/inference_metrics.rs:369-378 | the counters go on reflecting the recorded latencies, each modulo 2^64 |
| LatencyHistogram.ProviderMetrics.RenderBuckets | crates/vidarax-api/src/inference_metrics.rs:211-230 | each rendered bucket counts exactly the latencies at or below its bound, the bounds written out |
| LatencyHistogram.ProviderMetrics.IsHighLatency | crates/vidarax-api/src/inference_metrics.rs:351-367 | with at least ten latencies, high exactly when their 95th percentile is over 5000 ms, as long as 95 times the count fits in 64 bits |
| LatencyHistogram.CumulatedIsAtMost | crates/vidarax-api/src/inference_metrics.rs:211-218 | cumulated buckets count the latencies at or below their bound |
| LatencyHistogram.TotalAddsUp | crates/vidarax-api/src/inference_metrics.rs:369-371 | the total the sum counter reflects adds up however the latencies are split |
| LatencyHistogram.CountReaches | benchmarks/provider_hardware_matrix.py:85-90 | a count reaches a target, however it was rounded, exactly when the value at the rank of that target is within the bound |
| LatencyHistogram.QuantileIsLeastBound | benchmarks/provider_hardware_matrix.py:93-122 | between two scrapes and for any target, as the script rounds it, the quantile is the least bucket bound at or above the value at its rank, and none when there is nothing recorded or that value is over 60000 ms |
| LatencyHistogram.ExactQuantileIsLeastBound | benchmarks/provider_hardware_matrix.py:85-122 | with the exact product that value is the exact nearest-rank percentile |

## Left out

- Delivery-log file: an append is one atomic step that happens or fails; a line torn by a crash in the middle of a write, and malformed lines, are not modelled.
- Timeline file: records are sized values with no bytes inside; checksums and JSON decoding are not modelled, and what the rest of a record decodes to from a byte inside it is chosen freely. A writer poisoned by a failed sync is covered only by the steps that stop committing.
- JSON payloads and CloudEvents envelopes: events carry the few fields that delivery and policies read, and the length of the envelope.
- POST requests, DNS checks, HMAC signing and secrets: a POST is a success or a failure chosen freely.
- Retry sleeps, the two-second back-off, keep-alives and timeouts: only the order of steps is kept.
- WebhookWorker.HookWorker.Run: observes a given number of rounds of a loop that ends only when told to.
- SseProducer.Producer.Produce: observes a given number of notifications for the same reason.
- WebhookCoordinator: listing hooks, the derived secrets, the reply channels and the metrics.
- Hook ids are random in the code; the protocol and WebhookCoordinator.Coordinator.Reserve take an id that is not in the table to be unused.
- Sequence numbers are at most 2^64 - 1, as in the code, and a run ends before they are used up.
- DeliveryTheorems.EverythingCanSettle: gives a schedule that settles everything, not fairness of the real scheduler.
- OggOpus.DamageIsDetected: does not cover bursts across the edge of the checksum field, where content and checksum change together; `OggOpus.DamagePassesExactly` does, and `OggOpus.StraddlingDamagePasses` shows one that passes.
- AudioWindows.Aggregator.Run: takes a window length above 0, as the fixed 4000 ms of crates/vidarax-api/src/whip.rs:797; the queue of two windows accepts or refuses freely.
- OpusWindow.BuildOggOpus: takes at least one frame, as the code indexes the first one.
- Conversion of windows by ffmpeg, transcription and publication of observations.
- Policy requests: size limits, zone validation, schemas beyond their text, replay evaluation scores and HTTP replies.
- PolicyHistory.FormerlyActiveExactly: is about handlers that do not overlap; `PolicyHistory.HistoryExactly` covers every interleaving and `PolicyHistory.OverlappingHandlersForget` shows one that fails.
- LatencyHistogram.QuantileIsLeastBound: scraped counts are integers, which the script holds exactly up to 2^53; a server restart between two scrapes is not modelled.
- Confidence scores are real numbers, where the scripts use floating point.
- SpeechGroups.GroupsCover: is about ranges that go forward, which disjoint ranges do; `SpeechCoverage.CoverageExactly` says, of all ranges, when they are covered.
- SpeechCoverage.CoverageExactly: is about time; `SpeechCoverage.LoudCoverageExactly` adds the confidence, which a group that spans a range of another may lack.
- ByteBudget: decoding, inference and the embeddings themselves; a thread that dies inside a lock section.
- BatchPool: aborting what is still in flight after a panic, how a request is validated, and what running it does.
- Prometheus text, SLO ratios, the other counters of a provider, and mean latency.
- HTTP handlers, routing, authentication, uploads, frame analysis, novelty and gate logic, the command line, the SDKs and the user interface.
