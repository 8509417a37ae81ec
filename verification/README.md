# AutoClaw and autoManage: a verified model

AutoClaw is a personal agent: it talks over chat channels, runs tools, keeps a session history, remembers
things in tiers and wakes itself up with cron jobs. autoManage is a dashboard that follows the traces such
agents write. This project models the parts of both whose correctness is not visible in any single function,
and proves what they promise.

The source changes state in place, so the model does too: a class or a loop of the source is a class or a loop
here, and each method is proved equal to a specification function over plain values. The theorems are about
those functions, over every input or every run.

| Part | Files | Main results |
|---|---|---|
| Cron scheduler | CronService, CronProtocol, CronTheorems, CronLimits, CronSpacing, CronSchedules | every interleaving of check loops, callbacks, API calls, crashes and restarts keeps its promises to each job, whatever its schedule, up to exact conditions |
| Message deduplication | DedupRing | set and ring answer as a sliding window over accepted ids |
| Discord splitter | MessageSplitter, Text | chunks are bounded, lose only whitespace, and break code fences in exactly two cases |
| Trace ingestion | TraceTailer, TraceParser, AgentStatus, EventStore, IngestionService, IngestionTheorems, IngestionRestarts, StatusTheorems | what a snapshot says of a trace; within one process, following files in pieces agrees with reading the final files once; exactly what a further process on the same database changes |
| Agent loop | Transcript, SessionManager, AgentLoop, AgentTheorems, ConversationTheorems, TurnTheorems | a turn gives and stores the model's last answer; tool results stay under their calls in every prompt of a conversation, exactly if every emergency compression in it is clean |
| Tiered memory | Similarity, Words, Consolidator, PlanTheorems, MemoryEntries, WorkingMemory, Preferences, Consolidation, ConsolidationTheorems, ConsolidationWords, ConsolidationFixpoint | plans partition and cluster, consolidation conserves entries and words, can be rolled back and reaches a fixpoint |

Prelude holds shared vocabulary (windows over sequences, taking off a last element).

## Where the code does less than one would expect

These are results: the model follows the code, and a lemma says exactly when the expectation holds.

- A repeating job whose next run would exceed 64 bits becomes due at once (`CronService.EveryIntervalExactUnlessOverflow`).
- `UpdateJob` writes the whole record. When it overwrites a one-shot job that has been collected, leaving the
  schedule, the job can be collected again exactly if the written record is switched on with a next run, the
  service runs, and some check loop neither has the job queued nor is executing it
  (`CronLimits.StaleUpdateRecollectsIff`). It can then fire twice, unless the first collection was lost with its
  process (`CronLimits.StaleUpdateFiresOnceIff`). The cron tool writes back the record that `AddJob` returned
  (`AutoClaw/pkg/tools/cron.go:204`); in a run from an empty store in which that record is stale and the service
  was stopped and started in between, the job fires twice (`CronLimits.StaleCopyFiresTwice`).
- Collections of a repeating job always lie an interval apart. Its firings do while there is at most one loop
  (`CronSpacing.EveryJobFiresAtADistance`); with the loop of a stopped service still at work beside a new one, two
  firings can fall on one instant (`CronSpacing.EveryJobFiresTogether`).
- A one-shot job whose time passes while no service runs is never served: left in the store by a process that ended,
  it can still fire if and only if its time lies ahead (`CronSchedules.LeftBehindFiresIff`).
- Disabling a job does not recall it. A disabled job never fires again if and only if no loop has it queued
  (`CronLimits.DisabledJobStaysSilentIff`), and a disabled repeating job stays without a next run if and only if
  no loop has it queued or is running it (`CronLimits.DisabledJobStaysUnscheduledIff`); a run from an empty store
  reaches such a moment (`CronLimits.DisabledWhileQueued`).
- A duplicate delivery does not renew an id in the deduplication window: an id stays known exactly while its own
  acceptance is within it (`DedupRing.DeliveryIsDuplicateWhileInWindow`, with a run in
  `DedupRing.DuplicateDoesNotRefresh`).
- `findLastUnclosedCodeBlock` returns the first fence, not the last open one. A chunk that more text follows has
  unpaired fences in exactly two cases: it begins with a block that does not close within the buffer, or the
  chunk's natural end runs through a fence (`MessageSplitter.CutIsBalancedUnless`). Both happen
  (`MessageSplitter.BlockTooLongHappens`, `MessageSplitter.FenceAcrossCutHappens`).
- An emergency compression can separate tool results from their calls. Every prompt of a conversation is paired if
  and only if every compression in it is clean: the history is short, or its first message calls no tools, or is
  itself a cut-off result, and the kept half does not begin with a tool result
  (`ConversationTheorems.ConversationIsPairedIff`; `AgentTheorems.CompressedPromptIsPairedIff` for one prompt). One
  turn from an empty session that overflows after two tool calls sends an unpaired prompt
  (`ConversationTheorems.OverflowSendsUnpaired`).
- Summarizing a session forgets the previous summary when more than ten of the older messages are usable: it counts
  if and only if between one and ten are (`TurnTheorems.OldSummaryCountsIff`).
- A trace file replaced by a text at least as long is read on from the old offset. Its lines are delivered if and
  only if the old unfinished line, joined with the new text up to its next newline, is all that the new text
  finishes up to there (`TraceTailer.ReplacementDeliveredIff`; `TraceTailer.ReplacementWithoutNewline` when there is
  no such newline). Lines can be lost (`TraceTailer.ReplacedLineIsLost`) and fragments delivered that the file never
  held as lines (`TraceTailer.ReplacedLineIsTorn`).
- The tailer's offsets live in memory, the events in a database file. A new process reads every trace file from its
  start and stores its events behind those already there. The rows are those of the new process on its own if and
  only if nothing was stored or the new events fill the retention limit (`IngestionRestarts.RestartedRowsIff`), and
  an unchanged file changes the rows on rereading unless it has no events or fills that limit
  (`IngestionRestarts.RereadingChangesRowsIff`). The snapshot's counts are then right exactly if no counted event is
  repeated or dropped (`IngestionRestarts.RestartedCountsIff`).
- Past 1000 events or the retention limit, a snapshot's error and tool-call counts are those of the whole trace
  if and only if no such event was dropped, and its pending approvals if and only if as many requests as responses
  were, or none are pending either way (`IngestionTheorems.SnapshotCountsAllIff`).
- With simultaneous events, the one listed last decides the status (`AgentStatus.LatestListedEventDecides`).
- A memory of salience exactly 0.7 that is past retention is pruned although 0.7 is enough for promotion
  (`ConsolidationTheorems.SalientReachPreferencesIff`).
- Applying a plan leaves untouched what the plan lists as kept if and only if no memory that is neither expired
  nor merged shares its id with an expired one; pruning by id drops the others
  (`ConsolidationTheorems.UntouchedIsKeptIff`, smallest case in
  `ConsolidationTheorems.SharedIdLosesCurrentEntry`).
- The comment in `applyMerges` speaks of the first source's timestamp; the code takes the earliest
  (`Consolidation.EarliestIsEarliest`), which is the first source's if and only if no other is earlier
  (`Consolidation.FirstSourceDatesMergeIff`).

## Model

| member | source | states |
|---|---|---|
| CronService.EveryIntervalExactUnlessOverflow | AutoClaw/pkg/cron/service.go:245-259 | the next run of a repeating job is one interval away if and only if the sum fits 64 bits, and is already due if and only if it does not |
| CronService.CronService.Start | AutoClaw/pkg/cron/service.go:81-103 | a stopped service reloads the store file, recomputes enabled jobs and saves; a running one is left alone |
| CronService.CronService.Stop | AutoClaw/pkg/cron/service.go:105-118 | only the running flag changes |
| CronService.CronService.RecomputeNextRuns | AutoClaw/pkg/cron/service.go:281-289 | exactly the enabled jobs get a new next run |
| CronService.CronService.CheckJobs | AutoClaw/pkg/cron/service.go:134-166 | the locked part collects the due ids in order and clears the next run of exactly those jobs, in memory and on disk |
| CronService.CronService.FindJob | AutoClaw/pkg/cron/service.go:204-210 | the position of the first job with an id |
| CronService.CronService.BeginExecution | AutoClaw/pkg/cron/service.go:176-193 | a copy of the job, if it is still stored |
| CronService.CronService.EndExecution | AutoClaw/pkg/cron/service.go:201-243 | records the outcome; a one-shot job is removed or switched off, another one rescheduled; a job that is gone is ignored |
| CronService.CronService.AddJob | AutoClaw/pkg/cron/service.go:346-381 | the new job, enabled and scheduled, is appended and saved |
| CronService.CronService.UpdateJob | AutoClaw/pkg/cron/service.go:383-395 | the whole record is overwritten, if its id is stored |
| CronService.CronService.RemoveJob | AutoClaw/pkg/cron/service.go:397-422 | removes every job with the id, and reports whether there was one |
| CronService.CronService.EnableJob | AutoClaw/pkg/cron/service.go:424-448 | switching on recomputes the next run, switching off clears it |
| CronProtocol.DueIdsAreDue | AutoClaw/pkg/cron/service.go:142-150 | the collected ids are distinct and are exactly those of due jobs |
| CronProtocol.StepProjects | AutoClaw/pkg/cron/service.go:134-243 | every step of the whole service is, for each job, one step of a one-job reference machine |
| CronProtocol.StepKeepsCoherent | AutoClaw/pkg/cron/service.go:346-448 | ids stay unique and the file agrees with memory after every step |
| CronTheorems.RunKeepsInvariant | AutoClaw/pkg/cron/service.go:134-289 | in every interleaving each firing has its own collection, a collected one-shot job is never armed again, and a repeating job's pending run is an interval after every collection |
| CronTheorems.AtJobFiresAtMostOnce | AutoClaw/pkg/cron/service.go:134-259 | in every run with stops, crashes, restarts, disabling and removal in between, a one-shot job fires at most once and never early |
| CronTheorems.EveryJobKeepsItsDistance | AutoClaw/pkg/cron/service.go:142-166 | in every run, across crashes too, any two collections of a repeating job are at least its interval apart |
| CronTheorems.EveryJobIsNeverStranded | AutoClaw/pkg/cron/service.go:226-238 | while the service runs, an enabled repeating job with no execution under way has a next run |
| CronTheorems.ArmedUntilCrash | AutoClaw/pkg/cron/service.go:105-118 | stopping, or any other step but the end of the process, never leaves such a job without one |
| CronTheorems.RemovedJobNeverReturns | AutoClaw/pkg/cron/service.go:204-214 | a removed id is never stored, collected or fired again, even if it was queued or running at the time |
| CronTheorems.DisabledJobIsNotCollected | AutoClaw/pkg/cron/service.go:145-148 | a disabled job is not collected until a call switches it on |
| CronLimits.Work | AutoClaw/pkg/cron/service.go:170-173 | a loop can work off any part of its queue without a job outside that part noticing |
| CronLimits.DisabledJobStaysSilentIff | AutoClaw/pkg/cron/service.go:170-198 | a stored job that is off never fires in any continuation that leaves it off if and only if no loop has it queued |
| CronLimits.DisabledJobStaysUnscheduledIff | AutoClaw/pkg/cron/service.go:204-238 | a repeating job that is off keeps no next run in every such continuation if and only if no loop has it queued or is running it |
| CronLimits.DisabledWhileQueued | AutoClaw/pkg/cron/service.go:424-448 | a run from an empty store to a disabled job that is still queued |
| CronLimits.StaleUpdateRecollectsIff | AutoClaw/pkg/cron/service.go:383-395 | after an overwrite a one-shot job collected once stays so in every continuation if and only if the record is off or has no next run, the service is stopped, or every loop holds the job |
| CronLimits.StaleUpdateFiresOnceIff | AutoClaw/pkg/cron/service.go:383-395 | it fires at most once in every continuation if and only if it cannot be collected again, or its collection was neither fired nor is queued any more |
| CronLimits.StaleCopyFiresTwice | AutoClaw/pkg/cron/service.go:346-395 | a run from an empty store in which writing back the record AddJob returned has the job collected and fired twice |
| CronSpacing.EveryJobFiresAtADistance | AutoClaw/pkg/cron/service.go:170-238 | in every run with at most one loop at a time, firings of a repeating job are at least its interval apart |
| CronSpacing.EveryJobFiresTogether | AutoClaw/pkg/cron/service.go:81-118 | a run from an empty store, with a stop and a start, in which two firings fall on one instant |
| CronSchedules.ReschedulingWritesNextRun | AutoClaw/pkg/cron/service.go:245-289 | adding, switching on, starting and the end of a repeated execution write what the schedule asks for: its own time if ahead, one interval later, or the cron library's tick |
| CronSchedules.CheckCollectsIff | AutoClaw/pkg/cron/service.go:134-166 | a check collects a job exactly if the service runs and the job is on with a next run no later than now |
| CronSchedules.EndRecordsOutcome | AutoClaw/pkg/cron/service.go:201-243 | the end of an execution records start, outcome and error; a one-shot job goes or is switched off |
| CronSchedules.SwitchingSetsSwitch | AutoClaw/pkg/cron/service.go:424-448 | switching sets the switch, clears the next run when off, and keeps how the job last ran |
| CronSchedules.OutcomeIsKept | AutoClaw/pkg/cron/service.go:346-448 | no other step changes how a job last ran |
| CronSchedules.AddStoresJob | AutoClaw/pkg/cron/service.go:346-381 | the stored job is what the caller asked for, on, created now, and deleted after its run if one-shot |
| CronSchedules.JobKeepsIdentity | AutoClaw/pkg/cron/service.go:134-448 | in every run without updates a stored job keeps name, schedule, payload, creation time and deletion mark |
| CronSchedules.LastRunIsAFiring | AutoClaw/pkg/cron/service.go:176-222 | in every run without updates a recorded last run is a moment at which the job fired |
| CronSchedules.CronJobIsNeverStranded | AutoClaw/pkg/cron/service.go:226-238 | while the service runs, an enabled cron job whose library finds ticks, with no execution under way, has a next run |
| CronSchedules.CronJobFollowsItsTicks | AutoClaw/pkg/cron/service.go:261-276 | in every run each collection of a cron job comes at or after a tick the library gave for a moment no earlier than the collection before |
| CronSchedules.AtJobIsScheduled | AutoClaw/pkg/cron/service.go:245-252 | while the service runs, an enabled one-shot job whose time lies ahead is scheduled for it |
| CronSchedules.LeftBehindFiresIff | AutoClaw/pkg/cron/service.go:81-103 | an enabled one-shot job left in the store by a process that ended can still fire if and only if its time lies ahead |
| DedupRing.OneBotChannel.constructor | AutoClaw/pkg/channels/onebot.go:97-103 | an empty ring tracks an empty history |
| DedupRing.OneBotChannel.IsDuplicate | AutoClaw/pkg/channels/onebot.go:641-661 | true exactly when the id is among the last N accepted ids; the ring read from the write position lists them oldest first and the set holds exactly them |
| DedupRing.ShiftWindow | AutoClaw/pkg/channels/onebot.go:653-658 | accepting an id evicts the oldest one exactly when the ring is full |
| DedupRing.AcceptedIdsSpread | AutoClaw/pkg/channels/onebot.go:641-661 | no id is accepted twice within N acceptances |
| DedupRing.RepeatIsDuplicateIff | AutoClaw/pkg/channels/onebot.go:641-650 | an id delivered twice in a row is a duplicate exactly if it is neither empty nor "0" |
| DedupRing.DeliveryIsDuplicateWhileInWindow | AutoClaw/pkg/channels/onebot.go:648-660 | deliveries of an accepted id are duplicates exactly while at most N acceptances lie back to its own, whatever duplicate deliveries of it came in between |
| DedupRing.DuplicateDoesNotRefresh | AutoClaw/pkg/channels/onebot.go:648-650 | a concrete run in which a duplicate delivery does not keep an id from being forgotten |
| MessageSplitter.FindLastUnclosedCodeBlock | AutoClaw/pkg/channels/discord.go:184-203 | the first fence of a text with an odd number of them |
| MessageSplitter.FindNextClosingCodeBlock | AutoClaw/pkg/channels/discord.go:207-214 | the position behind the first fence from a position on |
| MessageSplitter.FindLastNewline | AutoClaw/pkg/channels/discord.go:218-229 | the last newline of the search window |
| MessageSplitter.FindLastSpace | AutoClaw/pkg/channels/discord.go:233-244 | the last blank of the search window |
| MessageSplitter.FindCut | AutoClaw/pkg/channels/discord.go:131-174 | where a chunk ends, which is after its start and within the limit and buffer |
| MessageSplitter.SplitMessage | AutoClaw/pkg/channels/discord.go:122-180 | terminates and computes the specified chunks |
| MessageSplitter.ChunksAreBounded | AutoClaw/pkg/channels/discord.go:122-180 | every chunk is non-empty and at most 500 over the limit |
| MessageSplitter.SplitLosesOnlyWhitespace | AutoClaw/pkg/channels/discord.go:122-180 | the content is the chunks in order with only whitespace dropped between them or at the end |
| MessageSplitter.BreakIsNotInFence | AutoClaw/pkg/channels/discord.go:131-138 | a cut at a newline or blank never runs through a fence |
| MessageSplitter.ExtensionParity | AutoClaw/pkg/channels/discord.go:148-155 | extending a chunk to the next fence adds one fence, or two when a separate one straddles the cut |
| MessageSplitter.CutIsBalancedUnless | AutoClaw/pkg/channels/discord.go:142-177 | a chunk that content follows has paired fences if and only if neither named exception applies |
| MessageSplitter.BlockTooLongHappens | AutoClaw/pkg/channels/discord.go:155-173 | any fence-free text behind an opening fence that runs past the buffer is cut with its fence open |
| MessageSplitter.FenceAcrossCutHappens | AutoClaw/pkg/channels/discord.go:142-155 | a text whose fence straddles the limit gets a chunk with three fences |
| MessageSplitter.ChunksAreBalancedIffTame | AutoClaw/pkg/channels/discord.go:122-214 | all chunks but the last have paired fences if and only if no cut meets an exception |
| MessageSplitter.NaturalEndIs | AutoClaw/pkg/channels/discord.go:131-138 | the last newline of the last 200 characters, or else the last blank or tab of the last 100, or else the end |
| MessageSplitter.FencesAreCounted | AutoClaw/pkg/channels/discord.go:184-203 | the fences counted are those of a scan that steps over each, with no other between them |
| MessageSplitter.CutIs | AutoClaw/pkg/channels/discord.go:140-174 | where a chunk ends in each case: paired fences, text within 500 of the limit, a closing fence within it, or none |
| MessageSplitter.ShortTextIsWhole | AutoClaw/pkg/channels/discord.go:122-128 | a text within the limit is one chunk, an empty one none |
| Text.TrimParts | AutoClaw/pkg/channels/discord.go:176 | trimming removes all whitespace at both ends and nothing else |
| TraceTailer.TraceTailer.ReadAppendedLines | autoManage/src/ingest/tailer.ts:13-36 | one read of one file: new finished lines, new offset and remainder, other files untouched |
| TraceTailer.TraceTailer.Reset | autoManage/src/ingest/tailer.ts:38-41 | one file is forgotten, others are kept |
| TraceTailer.LinesAppend | autoManage/src/ingest/tailer.ts:22-26 | the lines of a text are those of a front part followed by those of its remainder with the rest |
| TraceTailer.GrowingRead | autoManage/src/ingest/tailer.ts:16-29 | one read of a grown file brings exactly the missing lines |
| TraceTailer.RotatedRead | autoManage/src/ingest/tailer.ts:16-20 | a file shorter than the offset is read afresh |
| TraceTailer.FirstLineDelivered | autoManage/src/ingest/tailer.ts:22-29 | of each line a newline ends what is left without surrounding whitespace is delivered, unless nothing is, then those of the rest; without a newline, nothing |
| TraceTailer.ReplacementDeliveredIff | autoManage/src/ingest/tailer.ts:16-26 | a replaced file at least as long has its lines delivered if and only if the old unfinished line joined with the new text's end of line is all the new text finishes up to there |
| TraceTailer.ReplacementWithoutNewline | autoManage/src/ingest/tailer.ts:16-26 | with no newline behind the offset nothing is delivered, whatever the new text finished before it |
| TraceTailer.ReplacedLineIsTorn | autoManage/src/ingest/tailer.ts:16-26 | a one-line file replaced by a longer line: a fragment of it is delivered |
| TraceTailer.ReplacedLineIsLost | autoManage/src/ingest/tailer.ts:16-26 | a one-line file replaced by another of the same length: its line is never delivered |
| TraceTailer.TailingDeliversEverything | autoManage/src/ingest/tailer.ts:13-41 | over any reads of any files, a file that grows or starts over shorter has exactly the finished lines it ever held delivered, in order |
| TraceTailer.TailingIsReadingAtOnce | autoManage/src/ingest/tailer.ts:13-41 | over any reads of any files, a growing file's lines are those of its final content, each once and in order, and the remainder is the text behind its last newline |
| TraceParser.ParseTraceLines | autoManage/src/ingest/parser.ts:12-59 | events and counters of a batch |
| TraceParser.StatsBalance | autoManage/src/ingest/parser.ts:25-57 | every non-blank line counts once more, as an event or as one kind of reject |
| TraceParser.ParseAppend | autoManage/src/ingest/parser.ts:12-59 | parsing two batches is parsing their concatenation |
| TraceParser.StatsCountLines | autoManage/src/ingest/parser.ts:19-44 | each counter of rejects is the number of lines of its kind, blank ones aside |
| TraceParser.EventsInOrder | autoManage/src/ingest/parser.ts:19-46 | the events are those of the valid lines, each once and in their order |
| AgentStatus.SortSorts | autoManage/src/status/derive.ts:31 | the ordered copy is sorted by time and holds the same events |
| AgentStatus.SortedIsUnique | autoManage/src/status/derive.ts:31-33 | with distinct times a set of events has one sorted order |
| AgentStatus.StatusIgnoresArrivalOrder | autoManage/src/status/derive.ts:18-82 | with distinct times the whole result depends on the events alone, not on their order |
| AgentStatus.CountsIgnoreArrivalOrder | autoManage/src/status/derive.ts:35-40 | the three counts never depend on the order, and are those of the unsorted input |
| AgentStatus.LatestListedEventDecides | autoManage/src/status/derive.ts:33-71 | the deciding event is the last listed among the latest |
| StatusTheorems.StatusTells | autoManage/src/status/derive.ts:31-71 | one if and only if for each status, from the latest listed event, open approvals and the time since; last time, counts and span are those of the listed events |
| StatusTheorems.NothingTells | autoManage/src/status/derive.ts:19-29 | without events an agent is idle, with nothing to show |
| StatusTheorems.TaskTells | autoManage/src/status/derive.ts:43-56 | the current task is the text of the latest plan, unless blank, and else the tool named by the latest call that names one |
| EventStore.SQLiteStore.AppendEvents | autoManage/src/storage/sqlite.ts:96-144 | the events are inserted under increasing ids, then each touched agent is cut to its newest rows |
| EventStore.SQLiteStore.InsertAll | autoManage/src/storage/sqlite.ts:100-124 | insertion in order, and the agents touched |
| EventStore.SQLiteStore.DeleteOld | autoManage/src/storage/sqlite.ts:126-141 | deletes an agent's rows whose id is not among the newest |
| EventStore.SQLiteStore.SelectNewest | autoManage/src/storage/sqlite.ts:132-136 | an agent's newest rows in descending order |
| EventStore.SQLiteStore.ListRecentEvents | autoManage/src/storage/sqlite.ts:186-221 | an agent's newest rows, newest first |
| EventStore.SQLiteStore.UpsertAgent | autoManage/src/storage/sqlite.ts:47-94 | one snapshot row for each agent |
| EventStore.RetentionKeepsNewest | autoManage/src/storage/sqlite.ts:126-141 | deletion by id leaves the agent exactly its newest N rows and every other agent all rows |
| EventStore.RetentionOfEach | autoManage/src/storage/sqlite.ts:126-141 | the same over all touched agents in turn |
| IngestionService.IngestionService.IngestLines | autoManage/src/ingest/service.ts:112-148 | one batch: counters, rows and the agent's snapshot |
| IngestionService.BatchRows | autoManage/src/ingest/service.ts:113-148 | each agent's stored events after a batch are the newest of the old ones and its own new ones |
| IngestionService.BatchSnapshot | autoManage/src/ingest/service.ts:124-147 | the snapshot is derived from the read-back window and the batch; a batch without events changes none |
| IngestionTheorems.StoredRowsFrom | autoManage/src/ingest/service.ts:112-148 | from any consistent database, a process adds its events to each agent's rows and the newest N stay |
| IngestionTheorems.StoredRowsAreNewest | autoManage/src/ingest/service.ts:112-148 | in the first process each agent's rows are the newest N events of its whole trace |
| IngestionTheorems.SnapshotFrom | autoManage/src/ingest/service.ts:124-147 | from any consistent database, the snapshot is derived from what was read back before the agent's last batch with events, and that batch |
| IngestionTheorems.SnapshotIsOfWindow | autoManage/src/ingest/service.ts:124-147 | after any batches the snapshot is derived from the newest stored events before the agent's last batch with events, and that batch |
| IngestionTheorems.ReadBackIsWholeTraceIffFits | autoManage/src/ingest/service.ts:124-131 | what is read back is the whole earlier trace if and only if that trace fits retention and the 1000-row window |
| IngestionTheorems.SnapshotIsOneShotStatus | autoManage/src/ingest/service.ts:124-147 | while the trace before the last batch with events fits, the snapshot is the status derived from the whole trace at once |
| IngestionTheorems.SnapshotCountsAllIff | autoManage/src/ingest/service.ts:124-147 | exactly when a snapshot's error, tool-call and pending-approval counts are those of the whole trace, from what was dropped |
| IngestionTheorems.BatchingIsInvisible | autoManage/src/ingest/service.ts:112-148 | how the line stream was cut into batches does not matter |
| IngestionTheorems.CountersAreOneParse | autoManage/src/ingest/service.ts:47-53 | the accumulated counters are those of one parse over all lines |
| IngestionTheorems.DashboardMatchesFinalFile | autoManage/src/ingest/service.ts:76-81 | end to end, one file, first process: following it at any moments gives the rows and status of all it held, in order |
| IngestionTheorems.DashboardMatchesFinalFiles | autoManage/src/ingest/service.ts:76-148 | end to end, any number of files of one agent, first process: its trace is what the files held; while that fits, rows and counts are theirs, and with distinct times the whole status, in whatever order the events are listed |
| StatusTheorems.SnapshotShows | autoManage/src/ingest/service.ts:131-145 | a snapshot shows its agent and, of the events it was derived from, status, task, time, counts and span |
| StatusTheorems.SnapshotShowsWindow | autoManage/src/ingest/service.ts:124-147 | from any database the stored snapshot shows the newest 1000 stored events and the batch behind them |
| StatusTheorems.SnapshotShowsTrace | autoManage/src/ingest/service.ts:112-147 | while an agent's trace fits, the stored snapshot shows that whole trace, however it came in |
| StatusTheorems.RowsTell | autoManage/src/ingest/service.ts:12-45 | over any batches every stored row tells of the event it holds |
| StatusTheorems.ListedNewestFirst | autoManage/src/storage/sqlite.ts:186-221 | recent events are listed newest first, and none of the agent's that is left out is newer |
| IngestionRestarts.RowsOfProcesses | autoManage/src/storage/sqlite.ts:38-43 | over any processes on one database each agent's rows are the newest of all events delivered, as often as they were |
| IngestionRestarts.RestartedRowsIff | autoManage/src/ingest/watcher.ts:21-35 | a further process leaves the rows it would have on its own if and only if nothing was stored or its events fill the limit |
| IngestionRestarts.RestartedCountsIff | autoManage/src/ingest/service.ts:124-147 | exactly when the snapshot's counts are those of what the further process has read, from what is repeated and dropped |
| IngestionRestarts.RereadingChangesRowsIff | autoManage/src/ingest/tailer.ts:10-21 | an unchanged file read by a second process is stored again; the rows stay the same if and only if it has no events or fills the limit |
| Transcript.SoundIffSuffixOfPaired | AutoClaw/pkg/agent/context.go:201-205 | a history is paired after stripping if and only if it is a suffix of a paired transcript |
| Transcript.SuffixOfPairedIsSound | AutoClaw/pkg/session/manager.go:125-146 | cutting a paired transcript anywhere leaves orphaned results only at the front |
| Transcript.SoundTruncated | AutoClaw/pkg/session/manager.go:125-146 | truncation keeps that form |
| Transcript.SoundAppend | AutoClaw/pkg/session/manager.go:71-87 | appending a call with all its results keeps that form |
| Transcript.PairedAppend | AutoClaw/pkg/session/manager.go:71-87 | paired transcripts concatenate |
| SessionManager.SessionManager.AddMessage | AutoClaw/pkg/session/manager.go:62-67 | appends a plain message, creating the session if needed |
| SessionManager.SessionManager.AddFullMessage | AutoClaw/pkg/session/manager.go:71-87 | appends a message, creating the session if needed |
| SessionManager.SessionManager.GetHistory | AutoClaw/pkg/session/manager.go:89-101 | the stored messages, none for an unknown key |
| SessionManager.SessionManager.GetSummary | AutoClaw/pkg/session/manager.go:103-112 | the stored summary, empty for an unknown key |
| SessionManager.SessionManager.SetSummary | AutoClaw/pkg/session/manager.go:114-123 | replaces the summary of a known session |
| SessionManager.SessionManager.TruncateHistory | AutoClaw/pkg/session/manager.go:125-146 | leaves the last messages, none for a limit of zero or less |
| SessionManager.SessionManager.SetHistory | AutoClaw/pkg/session/manager.go:269-282 | replaces the messages of a known session |
| AgentLoop.BuildMessages | AutoClaw/pkg/agent/context.go:166-222 | system message, history without leading tool results, user message |
| AgentLoop.AgentLoop.ForceCompression | AutoClaw/pkg/agent/loop.go:769-825 | the stored history is compressed; nothing happens for four messages or fewer, or an unknown session |
| AgentLoop.AgentLoop.Chat | AutoClaw/pkg/agent/loop.go:481-486 | one model call, recorded with the prompt it was given |
| AgentLoop.AgentLoop.ChatWithRetries | AutoClaw/pkg/agent/loop.go:478-599 | the retry loop: compress and rebuild the prompt while the context overflows, at most twice |
| AgentLoop.AgentLoop.RunTools | AutoClaw/pkg/agent/loop.go:633-717 | the assistant message and one result for each call go to the prompt and the session alike |
| AgentLoop.AgentLoop.RunIteration | AutoClaw/pkg/agent/loop.go:443-717 | one pass of the loop is one unfolding of the specification |
| AgentLoop.AgentLoop.RunLLMIteration | AutoClaw/pkg/agent/loop.go:439-721 | outcome, iteration count, stored history and prompts of the whole loop |
| AgentLoop.AgentLoop.RunAgentLoop | AutoClaw/pkg/agent/loop.go:359-435 | a whole turn: session, prompts and answer, other sessions untouched |
| AgentLoop.AgentLoop.SummarizeSession | AutoClaw/pkg/agent/loop.go:896-968 | all but the last four messages are summarized, in halves when more than ten are usable; a non-empty summary replaces the old one and only the last four messages stay |
| AgentLoop.AgentLoop.SummarizeOlder | AutoClaw/pkg/agent/loop.go:908-961 | the summary of the older messages, empty when none is usable, with a note when some were omitted |
| AgentLoop.AgentLoop.SelectMessages | AutoClaw/pkg/agent/loop.go:911-930 | what users and the assistant said, without oversized messages, and whether any was omitted |
| AgentLoop.RunToolLoop | AutoClaw/pkg/tools/toolloop.go:36-154 | runs until the first reply without calls, an error or the limit, appending one block for each reply with calls |
| AgentLoop.ExecuteCalls | AutoClaw/pkg/tools/toolloop.go:98-147 | the assistant message and its results, in the order of the calls |
| AgentTheorems.IterationsAreBounded | AutoClaw/pkg/agent/loop.go:443-599 | at most the configured iterations, between one and three model calls in each |
| AgentTheorems.ToolLoopTranscriptIsPaired | AutoClaw/pkg/tools/toolloop.go:98-147 | a subagent's transcript is paired at every iteration |
| AgentTheorems.PromptIsPaired | AutoClaw/pkg/agent/context.go:201-219 | stripping leading results makes the prompt fully paired |
| AgentTheorems.CompressionKeeps | AutoClaw/pkg/agent/loop.go:776-817 | compression keeps the first message, the last and the second half of the middle, has length half rounded up plus two, and shrinks from six messages on |
| AgentTheorems.CompressionSettlesAtFive | AutoClaw/pkg/agent/loop.go:769-817 | repeated compression settles at five messages |
| AgentTheorems.HistoryStaysPatched | AutoClaw/pkg/agent/loop.go:359-435 | with overflows and compressions too, the stored history is a suffix of a paired transcript but for at most two messages in front |
| AgentTheorems.CompressedPromptIsPairedIff | AutoClaw/pkg/agent/loop.go:776-817 | exactly when the prompt rebuilt from a compressed history is paired, for every history a conversation can have |
| ConversationTheorems.CleanCompression | AutoClaw/pkg/agent/loop.go:776-817 | a compression of a sound history rebuilds a paired prompt if and only if it is clean, and then leaves the history sound |
| ConversationTheorems.IterationIsPairedIff | AutoClaw/pkg/agent/loop.go:443-717 | the loop sends only paired prompts if and only if every compression in it is clean, and then keeps the history sound |
| ConversationTheorems.ConversationIsPairedIff | AutoClaw/pkg/agent/loop.go:359-435 | through any turns, failed turns, retries, summaries and truncations, every prompt ever sent is paired if and only if every compression is clean, and then the history is a suffix of a paired transcript |
| ConversationTheorems.EveryPromptIsPaired | AutoClaw/pkg/agent/loop.go:359-435 | without overflow every prompt ever sent is paired and the history stays a suffix of a paired transcript |
| ConversationTheorems.OverflowSendsUnpaired | AutoClaw/pkg/agent/loop.go:478-599 | from an empty session, any model that asks for one tool twice and then overflows is sent an unpaired prompt in that turn |
| ConversationTheorems.OverflowHappens | AutoClaw/pkg/agent/loop.go:478-599 | such a model exists: a concrete conversation of one turn sends an unpaired prompt |
| TurnTheorems.TurnAnswersLastReply | AutoClaw/pkg/agent/loop.go:391-434 | the reply to the last prompt decides a turn: its content, or the default for an empty one, is answered and stored last; an error fails it with no answer stored; a call for tools is last only at the limit, where the default is given |
| TurnTheorems.AskGivesUpIff | AutoClaw/pkg/agent/loop.go:478-599 | a context error reaches the turn if and only if three calls in a row end in one |
| TurnTheorems.TurnTranscript | AutoClaw/pkg/agent/loop.go:359-717 | without overflow the prompts of a turn are a first one and that with the exchanges so far, and it stores question, exchanges and answer |
| TurnTheorems.OverflowRebuildsPrompt | AutoClaw/pkg/agent/loop.go:497-585 | after an overflow the next prompt is built anew from the compressed history alone |
| TurnTheorems.CompressionTellsDropped | AutoClaw/pkg/agent/loop.go:797-811 | the note in a compressed history tells in decimal how many messages it stands for |
| TurnTheorems.SummarizableAreUsable | AutoClaw/pkg/agent/loop.go:910-925 | the messages summarized are exactly those of either side that are not too long, as often as they occur |
| TurnTheorems.SummaryReadsAll | AutoClaw/pkg/agent/loop.go:928-961 | each usable message is read once, in order, up to ten in one batch and more in two halves, merged or joined |
| TurnTheorems.OldSummaryCountsIff | AutoClaw/pkg/agent/loop.go:934-956 | the previous summary counts for the new one if and only if between one and ten of the older messages are usable |
| TurnTheorems.SummaryCoversDropped | AutoClaw/pkg/agent/loop.go:900-967 | what summarizing drops from a session is what the summary was made of |
| TurnTheorems.SummarizingKeepsFour | AutoClaw/pkg/agent/loop.go:963-967 | the last four messages stay under the new summary; without one, or with four messages, nothing changes |
| Similarity.Tokenize | AutoClaw/internal/drift/similarity.go:7-16 | lower-case words of more than two characters |
| Similarity.ToSet | AutoClaw/internal/drift/similarity.go:59-65 | the set of the words |
| Similarity.JaccardSimilarity | AutoClaw/internal/drift/similarity.go:20-40 | shared words over all words, at or above 0.6 if and only if at least three of five words are shared |
| Similarity.CountShared | AutoClaw/internal/drift/similarity.go:28-33 | the size of the intersection |
| Similarity.ExtractUniqueContent | AutoClaw/internal/drift/similarity.go:44-57 | the new words joined by blanks |
| Similarity.ThresholdIsExact | AutoClaw/internal/drift/consolidator.go:77 | the real-valued test is the integer test on set sizes |
| Similarity.SimilarIsSymmetric | AutoClaw/internal/drift/similarity.go:20-40 | the order of the texts does not matter |
| Similarity.JaccardRange | AutoClaw/internal/drift/similarity.go:20-40 | between 0 and 1, and 1 exactly for equal non-empty word sets |
| Similarity.NewWordsAreTheDifference | AutoClaw/internal/drift/similarity.go:44-57 | exactly the words the other text lacks, each once |
| Words.FieldsAreWords | AutoClaw/internal/drift/similarity.go:8 | splitting yields exactly the maximal runs without whitespace, all of them, in the text's order |
| Words.FieldsKeepText | AutoClaw/internal/drift/similarity.go:8 | the fields one after the other are the text without its whitespace |
| Words.TokensAreLongWords | AutoClaw/internal/drift/similarity.go:7-16 | the tokens are the words of more than two characters, in small letters, all of them, in the text's order |
| Words.SimilarIff | AutoClaw/internal/drift/similarity.go:20-40 | two texts count as similar if and only if at least three in five of their words are in both; the measure is that ratio |
| Words.NewWordsInOrder | AutoClaw/internal/drift/similarity.go:44-57 | the words a text adds keep the order of their first occurrences |
| Words.NoWordIsLost | AutoClaw/internal/drift/consolidator.go:103-138 | a merged text begins with that of a most salient entry, and every word of the others it lacks stands in it by itself |
| Words.MergeAddsNothingIff | AutoClaw/internal/drift/consolidator.go:120-131 | it is that text alone if and only if no other entry has a word it lacks |
| Words.DetailsInOrder | AutoClaw/internal/drift/consolidator.go:120-126 | what entries add is listed in their order |
| Consolidator.GenerateConsolidationPlan | AutoClaw/internal/drift/consolidator.go:43-99 | the plan of the specification |
| Consolidator.RetentionFilter | AutoClaw/internal/drift/consolidator.go:51-65 | what is retained and what is pruned, in order |
| Consolidator.DetectMerges | AutoClaw/internal/drift/consolidator.go:67-89 | the groups of the marking loops, merged, and the marked ids |
| Consolidator.GatherBehind | AutoClaw/internal/drift/consolidator.go:73-81 | the inner loop of one leader |
| Consolidator.MergeMemories | AutoClaw/internal/drift/consolidator.go:103-138 | the merged group, most salient entry first |
| Consolidator.FindPrimary | AutoClaw/internal/drift/consolidator.go:105-110 | the first entry of highest salience |
| Consolidator.CollectDetails | AutoClaw/internal/drift/consolidator.go:120-126 | what each further entry adds, where it adds anything |
| PlanTheorems.GreedyIsClusters | AutoClaw/internal/drift/consolidator.go:67-89 | with distinct ids the marking loops compute the recursive clustering in which each leader takes all entries like it |
| PlanTheorems.GreedyMarks | AutoClaw/internal/drift/consolidator.go:68-89 | whatever the ids, the planner marks exactly the members of its groups |
| PlanTheorems.SinglesAreUnmarked | AutoClaw/internal/drift/consolidator.go:91-96 | the entries kept alone are the one-element clusters |
| PlanTheorems.ClustersPartition | AutoClaw/internal/drift/consolidator.go:67-96 | clustering neither loses nor repeats an entry |
| PlanTheorems.MergeListsItsGroup | AutoClaw/internal/drift/consolidator.go:111-118 | a merge lists its group's ids, each once, a most salient entry's first |
| PlanTheorems.PlanFollowsClusters | AutoClaw/internal/drift/consolidator.go:43-99 | the plan is that of the recursive clustering |
| PlanTheorems.PlanPartitionsInput | AutoClaw/internal/drift/consolidator.go:51-96 | kept, pruned and merged ids are the input's ids, each exactly once, in groups of two or more |
| PlanTheorems.ClustersAreSeparated | AutoClaw/internal/drift/consolidator.go:67-89 | every member is like its cluster's earliest member, and no entry of a later cluster is |
| PlanTheorems.PlanIsAClustering | AutoClaw/internal/drift/consolidator.go:67-96 | the plan's groups and kept entries are such clusters of the retained entries |
| WorkingMemory.WorkingLayer.Write | AutoClaw/internal/memory/working.go:44-55 | the completed entry goes to the file of its own month |
| WorkingMemory.WorkingLayer.ReadAll | AutoClaw/internal/memory/working.go:75-96 | the files of all months, in the order of their names |
| WorkingMemory.WorkingLayer.Prune | AutoClaw/internal/memory/working.go:124-163 | every file loses exactly the named entries, and entries stay in their own month |
| WorkingMemory.WorkingLayer.FilterFile | AutoClaw/internal/memory/working.go:147-155 | what remains of one file, and whether it changed |
| WorkingMemory.WorkingLayer.Replace | AutoClaw/internal/memory/working.go:167-193 | the files hold exactly the given entries, each in its own month |
| WorkingMemory.WriteThenRead | AutoClaw/internal/memory/working.go:44-55 | a write adds exactly its entry to what a full read delivers, last in its month |
| WorkingMemory.WrittenEntryIsCompleted | AutoClaw/internal/memory/working.go:44-55 | what is written is the given entry with an id and a time where it had none |
| WorkingMemory.ReadIsInMonthOrder | AutoClaw/internal/memory/working.go:75-96 | a full read delivers the months in order |
| WorkingMemory.PruneFiltersRead | AutoClaw/internal/memory/working.go:124-163 | reading after pruning is filtering the former reading |
| WorkingMemory.ReplaceThenRead | AutoClaw/internal/memory/working.go:167-193 | reading after replacing gives a permutation that keeps the order within each month |
| WorkingMemory.ReadThenReplace | AutoClaw/internal/memory/working.go:167-193 | writing back what was read changes no file |
| Preferences.PreferencesLayer.Write | AutoClaw/internal/memory/preferences.go:43-59 | one labelled entry more, counted |
| Preferences.PreferencesLayer.Snapshot | AutoClaw/internal/memory/preferences.go:95-119 | the current entries under a new version number |
| Preferences.PreferencesLayer.Rollback | AutoClaw/internal/memory/preferences.go:122-145 | the entries of a snapshot become current again; an unknown version changes nothing |
| Preferences.PreferencesLayer.Diff | AutoClaw/internal/memory/preferences.go:177-228 | every reported difference is true, none is missing, and no id is reported twice |
| Preferences.LastEntryStands | AutoClaw/internal/memory/preferences.go:194-201 | of entries with the same id the last one is compared |
| Preferences.PreferencesLayer.OnlyIn | AutoClaw/internal/memory/preferences.go:204-216 | the entries whose id only one side has |
| Preferences.PreferencesLayer.ChangedIn | AutoClaw/internal/memory/preferences.go:218-225 | the entries on both sides whose content or salience differs |
| Preferences.DiffPatches | AutoClaw/internal/memory/preferences.go:177-228 | applying a difference to the first snapshot gives the ids, contents and saliences of the second |
| Preferences.SnapshotsAreKept | AutoClaw/internal/memory/preferences.go:43-145 | over any writes, snapshots and rollbacks versions never go back, a snapshot never changes and the counter is exact |
| Preferences.RollbackRestores | AutoClaw/internal/memory/preferences.go:122-145 | whatever happened since, rolling back restores the entries of the snapshot |
| Consolidation.TieredMemoryStore.RunConsolidation | AutoClaw/internal/memory/consolidate.go:28-121 | the whole cycle on both tiers, its account, and the consolidation time, which empty working memory leaves alone |
| Consolidation.TieredMemoryStore.Rewrite | AutoClaw/internal/memory/consolidate.go:70-112 | carrying a plan out: working files, preferences and account |
| Consolidation.TieredMemoryStore.WritePromoted | AutoClaw/internal/memory/consolidate.go:105-111 | the promoted entries are written in order |
| Consolidation.ApplyPlan | AutoClaw/internal/memory/consolidate.go:63-83 | untouched entries followed by merged ones |
| Consolidation.CollectMergeSourceIDs | AutoClaw/internal/memory/consolidate.go:194-202 | the ids of all groups |
| Consolidation.ApplyMerges | AutoClaw/internal/memory/consolidate.go:157-192 | one new entry for each non-empty group |
| Consolidation.MergeSources | AutoClaw/internal/memory/consolidate.go:169-181 | highest salience and earliest time of the sources |
| Consolidation.Promote | AutoClaw/internal/memory/consolidate.go:84-96 | survivors of 0.7 or more are relabelled for preferences, the others remain |
| Consolidation.EarliestIsASource | AutoClaw/internal/memory/consolidate.go:170-181 | a merge's timestamp is that of one of its sources |
| Consolidation.EarliestIsEarliest | AutoClaw/internal/memory/consolidate.go:170-181 | no known source is earlier, when no source's time is unset |
| Consolidation.FirstSourceDatesMergeIff | AutoClaw/internal/memory/consolidate.go:168-181 | it is the first source's if and only if no other source is earlier |
| Consolidation.RemainingMembers | AutoClaw/internal/memory/consolidate.go:84-96 | promotion splits the survivors at salience 0.7 and loses none |
| ConsolidationTheorems.UntouchedIsKeptIff | AutoClaw/internal/memory/consolidate.go:63-83 | whatever the ids, what the filter leaves untouched is the plan's kept list, in order, if and only if no entry neither expired nor merged shares its id with an expired one; otherwise fewer stay |
| ConsolidationTheorems.UntouchedIsKept | AutoClaw/internal/memory/consolidate.go:74-81 | with distinct ids what the filter leaves untouched is the plan's kept list, in order |
| ConsolidationTheorems.EntriesAreAccountedFor | AutoClaw/internal/memory/consolidate.go:56-82 | working memory is as large as the pruned, merged and untouched entries together |
| ConsolidationTheorems.ConsolidationConserves | AutoClaw/internal/memory/consolidate.go:28-121 | the account balances, preferences keep what they had and grow by exactly the promoted entries, and all that stays in working memory is below 0.7 |
| ConsolidationTheorems.SalientReachPreferencesIff | AutoClaw/internal/memory/consolidate.go:84-111 | an entry of salience 0.7 or more reaches preferences, itself or in a merge at least as salient, if and only if it is not both exactly 0.7 and past retention |
| ConsolidationTheorems.SharedIdLosesCurrentEntry | AutoClaw/internal/memory/consolidate.go:56-81 | with a shared id, pruning an expired entry drops a current one the plan keeps |
| ConsolidationTheorems.RollbackUndoesConsolidation | AutoClaw/internal/memory/consolidate.go:34-39 | rolling back to the version a consolidation reports restores the preferences from before it, whatever was done since |
| ConsolidationTheorems.EmptyRunOnlySnapshots | AutoClaw/internal/memory/consolidate.go:34-50 | with empty working memory a run takes its snapshot, reports zeros and changes nothing else |
| ConsolidationTheorems.PrunedIffPastRetention | AutoClaw/internal/drift/consolidator.go:44-65 | at a moment an entry is pruned if and only if its salience is at most 0.7 and its whole second lies more than the retention days back; exactly the others survive, alone or merged, in one of the tiers |
| ConsolidationWords.MergedEntryIs | AutoClaw/internal/memory/consolidate.go:157-192 | a merge's entry has the merged text and is as salient as its most salient source |
| ConsolidationWords.NoWordLeavesMemory | AutoClaw/internal/memory/consolidate.go:28-121 | for every entry not past retention some entry at least as salient is kept that says all its words |
| ConsolidationFixpoint.RemainingIsSettled | AutoClaw/internal/memory/consolidate.go:84-101 | one round leaves nothing to prune or promote, merged entries included |
| ConsolidationFixpoint.SettledRound | AutoClaw/internal/memory/consolidate.go:63-101 | in settled memory a round only merges, and shrinks memory by at least one entry for each merge |
| ConsolidationFixpoint.RoundIsQuiet | AutoClaw/internal/memory/consolidate.go:28-121 | one round over any working memory leaves files in order, ids distinct and memory settled |
| ConsolidationFixpoint.ConsolidationReachesFixpoint | AutoClaw/internal/memory/consolidate.go:28-121 | repeated at one instant, consolidation prunes and promotes nothing after the first round and changes nothing more within as many rounds as there were entries |

## Left out

- CronTheorems.AtJobFiresAtMostOnce: assumes that UpdateJob is used only for edits that leave schedule, switch and next run as stored. CronLimits.StaleUpdateFiresOnceIff covers overwriting a job once collected with its own schedule; edits that change a schedule, or arm a job for another time before its first collection, are not covered.
- CronTheorems.EveryJobKeepsItsDistance: makes the same assumption, and that clock plus interval fits 64 bits; CronService.EveryIntervalExactUnlessOverflow says what happens otherwise.
- CronTheorems.EveryJobIsNeverStranded: makes the same assumption about UpdateJob.
- IngestionTheorems.DashboardMatchesFinalFiles: gives the whole status for distinct event times only; with equal times the order of reading decides, and only the counts are given.
- ConsolidationFixpoint.ConsolidationReachesFixpoint: assumes distinct entry ids and an id generator that yields new ones; ids come from a random generator in the source.
- Cron: the expression library is an arbitrary function, the clock is monotone, new ids are fresh and saves succeed; several clock reads inside one locked region count as one instant; a loop of a stopped service never has to end, as its select may keep taking ticks, so it may collect after the next start; a process ends between locked regions, not inside one; Load, ListJobs, Status and a second process editing the store file are absent.
- Text is single-byte and whitespace is ASCII, so cuts inside multi-byte characters are not modelled.
- Salience and similarity are real numbers: rounding of 64-bit floating point is not modelled, so the 0.6 and 0.7 boundaries are exact.
- Memory: timestamps lie in years 0 to 9999 and pass through text with whole seconds; a retention day is 24 hours and the number of days is given; the planner accepts an unparsable timestamp, the stores produce none; file errors are absent; reading a window, context text, listing snapshots and previews would add only easy members.
- Agent: the model and the tools are oracles; whether an error text names the context is part of the oracle's answer; summarizing runs between turns, not beside them, and the summarizing model is a pair of functions; saving and loading sessions, channels and tool hooks are absent.
- Ingestion: decoding and validating a line, path handling and display names are arbitrary functions; the database is a sequence of rows and a map of snapshots, without its file; a negative limit and the event bus are absent.
- A few methods are bodies of source loops given a name and a contract: FindCut, GatherBehind, RetentionFilter, DetectMerges, RunIteration, ChatWithRetries, RunTools, SummarizeOlder, SelectMessages, InsertAll, DeleteOld, ApplyPlan, Promote, Rewrite, MergeSources.
- Maps are enumerated in an arbitrary order, as Go does; the order of the differences is therefore not stated.
