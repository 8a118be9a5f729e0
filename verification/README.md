# A verified model of the session journal, the bounded prompt and the tool loop

The assistant keeps an append-only journal per thread, replays it into a bounded model prompt,
summarises old turns into checkpoints, and runs a budgeted tool loop on top. This project models
those parts in Dafny and proves what they keep over every run. `dafny verify dfyconfig.toml` checks
all of it.

Objects whose methods update their fields are classes here (the store, the turn budget, the steering
mailbox and session, the turn recorder, the memory store, the state of a compaction run); the loops over slices and maps
are methods with loops, each proved against a function that says what it computes; protocols that
several goroutines or processes take part in are step systems with an invariant over every run.

## The components

| Files | What they model |
|---|---|
| `ids`, `messages`, `text`, `context_config` | identifiers and digests, prompt messages and their cost, string scanning, the fixed percentages |
| `checkpoint`, `compactor` | provenance and validation of checkpoints; the recursive chunk-and-merge compactor |
| `thread_journal`, `journal_history`, `turn_groups`, `thread_store`, `pause_policy` | the journal and its replay, the same told by its events alone, turn groups, the guarded store calls, the automatic pause |
| `coverage`, `resume`, `resume_links`, `resume_tail` | which turns a checkpoint covers, what a resume rebuilds and when it may, the journal suffix it reads back |
| `compaction_protocol`, `compaction_safety`, `compaction_failure`, `compaction_progress`, `pause_runs` | sessions of several processes compacting one thread, what every interleaving keeps, how a failure is closed and a success reached, and the pause in all of them |
| `planner` | the greedy prompt planner |
| `turn_budget`, `tool_pairs`, `steering`, `turn_recorder`, `previews`, `react_batch`, `react_turn` | one turn: admission, the tool batch, the recorder, the ReAct loop, steering, replay, bounded tool results |
| `conversation` | a whole thread of such turns |
| `exec_stream` | the headless stream writer |
| `thread_fork` | source-preserving forks |
| `memory_store`, `memory_history` | the versioned memory table and its extraction leases, and what its transactions amount to |
| `toml_edit`, `toml_append`, `toml_settings`, `toml_read` | the line-preserving TOML editor, and a reader of what it writes |

What the code leaves to others is a parameter: token estimates are any function from messages to
naturals, hashes are uninterpreted functions of which only the digest format is assumed, the model,
the tools, clocks and cancellation are answers chosen by an environment. The JSON form of a checkpoint
is taken to be a round trip that drops the two fields injected after a load. Event ids and new
operation ids are fresh; nothing is assumed about call ids. Two facts about the tools node, that it
answers in the order of the calls and has by then reported the start and end of each, are hypotheses
where they are used (`AnswersInOrder`, `ReportsCalls`); `ReActBatch.SomeNodeReports` shows a node that
meets both.

## Results about the code worth knowing

* **A turn can be missing from a resume snapshot.** A checkpoint that leaves no committed turn raw
  records tail 0, and the snapshot then starts after the checkpoint event
  (internal/store/thread_resume.go:87-109). A turn that was open at that moment, in another session,
  and commits later is neither covered nor read back. `ResumeTail.SnapshotHoldsUncovered` gives the
  exact condition, `ResumeTail.StraddlingTurnIsLost` a journal in which it happens.
* **A late extraction closes another worker's claim.** `finishExtraction` looks at the status and the
  source of the row, not at who holds the lease (internal/memory/store.go:654-668). When a lease has
  run out and a second worker has claimed the source, the first one's finish is accepted
  (`MemoryStore.LateFinishClosesAnothersClaim`); if it reports a failure, a third worker can get in
  after the retry delay, while the second one's lease still runs, and the second one's finish then closes
  the third one's claim (`MemoryStore.LateFailureCutsLeaseShort`).
  `MemoryStore.FinishBelongsToItsClaim` says exactly when a finish closes the worker's own claim, for any
  calls in between: each of them must be a claim of the same source inside the lease, a finish of another
  source, or a finish that cannot store its drafts. `MemoryStore.FinishClosesTheHolder` says exactly when it
  is accepted at all.
* **Removing a just-appended server can be refused.** The quoting of `formatMCPServerTOMLString`
  never puts three double quotes in a row, but it leaves three single quotes of a value as they are,
  and the remover refuses such a text. `TomlAppend.RemoveUndoesAppend` gives the condition on the
  server's own values, `TomlAppend.ThreeQuotesCannotBeRemoved` a server with the argument `'''`.
* **A boolean setting can be glued to an open last line.** When the text has no final line break and
  the block reaches to its end, the inserted setting continues the last line.
  `TomlSettings.SetTwice` shows that this is the only way in which setting twice differs from
  setting once, and `TomlSettings.NoteSwallowsSettings` a text in which it happens. The updated text is
  parsed again before it is written (internal/config/config.go:955-957), so that only a last line that
  still parses with the setting behind it, such as a comment, loses the setting silently.
* **The retry cap of memory extraction is never reached.** Doubling stops after six steps, at 320
  minutes, below the six-hour cap (`MemoryStore.BackoffIsBounded`).
* **Fresh call ids are not needed for safe commits.** A usage record that is found again carries its
  operation id, so `CompactionSafety.CheckpointsAreContiguous` needs fresh operation ids only.

## Model

| member | source | states |
|---|---|---|
| `Ids.CollectUnique` | internal/contextbuild/types.go:351-366 | the loop with a `seen` map computes `Unique`: first occurrences, in order, without blanks |
| `Ids.UniqueMembers` | internal/contextbuild/types.go:351-366 | cleaning yields a blank-free list without repeats that holds exactly the non-blank values |
| `Ids.UniqueFixpoint` | internal/contextbuild/types.go:351-366 | a list that is already clean is not changed |
| `Ids.UniqueKeepsOrder` | internal/contextbuild/types.go:351-366 | cleaned values stand in the order in which they first occur |
| `CheckpointContract.EvidenceRefsAnchorTheRange` | internal/contextbuild/compactor.go:184-197 | anchors are all of a manifest of up to 32 events, and the first 16 and last 16 events of a longer one |
| `CheckpointContract.CanonicalIdsIffCanonical` | internal/contextbuild/checkpoint.go:580-586 | the length test accepts a manifest if and only if it is non-empty, blank-free and without repeats |
| `CheckpointContract.ProvenanceExists` | internal/contextbuild/checkpoint.go:502-530 | every clean manifest with a digest and a durable parent has a provenance, with these anchors and this lineage hash |
| `CheckpointContract.ValidCheckpointStaysInManifest` | internal/contextbuild/checkpoint.go:473-498 | a validated checkpoint cites and exposes only events of its source manifest |
| `CheckpointContract.CitedEventsAreVisible` | internal/contextbuild/checkpoint.go:547-578 | every anchor and every event that is cited as it stands is shown to the model |
| `CheckpointContract.WiderClaimScopeStaysValid` | internal/contextbuild/checkpoint.go:473-498 | what was accepted under the narrow claim scope of a merge is accepted under the whole manifest on resume |
| `Chunking.ChunkForCompaction` | internal/contextbuild/compactor.go:614-638 | chunks concatenate to the input, none is empty, several groups share one only if they fit, and no chunk had room for the next group |
| `Compaction.CompactRecursive` | internal/contextbuild/compactor.go:476-573 | a log of the model calls: on success the result is the answer to the last request with the manifest injected, that request shows all source groups or, in chunk order, one group per chunk with the summary that a logged call gave of it, and it is certified for the unchunked request; calls stay within 2n whatever happens, and each error names its cause |
| `Compaction.CompactWithResult` | internal/contextbuild/compactor.go:421-469 | at most 2n compactor calls for n groups on success or failure; success tells every source group through the calls made, is certified, within the target size and at most four fifths of what it replaces; each error names its cause |
| `Compaction.SourceIsShownOnce` | internal/contextbuild/compactor.go:476-573 | the groups shown raw by the calls behind a result are the source groups, each once and in order |
| `Compaction.MergeClaimScopeExists` | internal/contextbuild/compactor.go:159-182 | the merge's "outside the direct source manifest" check cannot fire when the children validated |
| `Compaction.CertifiedStaysInManifest` | internal/contextbuild/checkpoint.go:547-578 | all that a certified checkpoint cites, exposes or anchors is in the manifest of its request |
| `Compaction.MergeKeepsIdentity` | internal/contextbuild/compactor.go:117-153 | a result certified for the merge request is certified for the request the merge stands for |
| `Compaction.GainRule` | internal/contextbuild/compactor.go:796-801 | a gain of 20 percent means, exactly, at most four fifths of the old size |
| `ThreadJournal.OperationsAreLinear` | internal/store/thread_journal.go:403-530 | in a journal that replays, an operation id starts at most once, ends at most once and never starts after it ended |
| `ThreadJournal.StartsDoNotOverlap` | internal/store/thread_journal.go:403-423 | between two compaction starts the first operation ends |
| `ThreadJournal.PendingHasStart` | internal/store/thread_journal.go:403-423 | a pending operation has its start on record, and nothing about compaction but usage after it |
| `JournalHistory.NextEventIsDecided` | internal/store/thread_lifecycle.go:51-187 | a journal can go on with an event if and only if the events before it allow that: no turn is reopened or nested, an operation starts once and alone, a checkpoint or failure closes what is pending, a usage belongs to an open turn or a pending operation |
| `JournalHistory.TurnsAreSummed` | internal/store/thread_lifecycle.go:51-187 | the open turn of the replayed state is the turn that has started and not ended |
| `JournalHistory.OperationsAreSummed` | internal/store/thread_journal.go:403-530 | the pending operation of the replayed state is the one that has started with no checkpoint or failure after it |
| `JournalHistory.CheckpointsAreSummed` | internal/store/thread_journal.go:403-530 | the active checkpoint of the replayed state is the newest one, unless it was reset |
| `TurnGroups.JournalGroupsAreTidy` | internal/store/thread_query.go:70-154 | groups of a journal are started, distinct and non-empty; only the last can be open |
| `TurnGroups.ContextGroupsGrow` | internal/chat/session.go:2606-2627 | one more event leaves the committed groups as they are, or a commit adds one at the end |
| `TurnGroups.ContextIdsCanonical` | internal/store/thread_query.go:70-154 | event ids of committed groups are non-empty and pairwise disjoint |
| `ThreadStores.WriteGuardsMatchReplay` | internal/store/thread_compaction.go:13-109 | start, failure, finish and reset are accepted if and only if the revision matches and the journal would still replay |
| `ThreadStores.UsageGuardMatchesReplay` | internal/store/thread_usage.go:14-53 | whatever the usage guard records replays, and whatever would replay it records or recognises |
| `ThreadStores.CommitGuardMatchesReplay` | internal/store/thread_checkpoint.go:14-61 | a commit is accepted if and only if revision, parent and replay allow it; the parent lookup never refuses |
| `ThreadStores.ThreadStore.StartCompaction` | internal/store/thread_compaction.go:13-40 | appends exactly the start event, or leaves the journal as it was with the first error that applies |
| `ThreadStores.ThreadStore.RecordCompactionFailure` | internal/store/thread_compaction.go:45-75 | closes the pending operation it names, or records an unstarted one, or changes nothing, with the first error that applies; the failure is stamped from the pause and streak it is written under |
| `ThreadStores.ThreadStore.FinishCompaction` | internal/store/thread_compaction.go:80-109 | closes exactly the pending operation it names, at whatever revision is current, stamped from the pause and streak of that moment |
| `ThreadStores.ThreadStore.RecordUsage` | internal/store/thread_usage.go:14-53 | records a call once; a replayed equal call changes nothing, an unequal one is a conflict |
| `ThreadStores.ThreadStore.CommitCheckpoint` | internal/store/thread_checkpoint.go:14-61 | appends the checkpoint under the compare-and-swap guards, or changes nothing |
| `ThreadStores.ThreadStore.ResetIncompatibleCheckpoint` | internal/store/thread_compaction.go:212-243 | clears the active checkpoint only at the expected revision and id; the streak is gone and the pause is the one given |
| `ThreadStores.ThreadStore.LoadCheckpointLineage` | internal/store/thread_checkpoint.go:90-122 | returns the whole lineage of any checkpoint on record; the cycle error is unreachable |
| `ThreadStores.LineageReachesRoot` | internal/store/thread_checkpoint.go:90-122 | every lineage of a written journal runs through earlier and earlier events to a parentless root |
| `ThreadStores.UsageByCallId` | internal/store/thread_usage.go:55-73 | the journal scan finds exactly what the projection holds for a call id |
| `PausePolicy.RecordedFailuresReplay` | internal/store/thread_compaction.go:114-157 | past the input checks no failure of the pending kind is refused, neither on writing nor on replay |
| `PausePolicy.StampAgreesWithReason` | internal/store/thread_journal.go:512-519 | the stamped streak and the older reason-based rule replay to the same state |
| `PausePolicy.PauseIsDecided` | internal/store/thread_compaction.go:114-209 | exactly when a thread is paused after each kind of event, by the number of low-gain attempts since anything else was decided |
| `PausedRuns.LowGainIsBounded` | internal/chat/session.go:1437-1766 | however many sessions compact one thread, in every world the streak counts the low-gain attempts since anything else was decided and never passes the limit, at which the thread is paused with no automatic compaction pending |
| `PausedRuns.NoStartWhilePaused` | internal/chat/session.go:1458-1460 | an automatic compaction starts only in a thread that is not paused at that moment, though its session looked at the pause some steps earlier |
| `Coverage.PrefixCoverage` | internal/chat/session.go:2703-2723 | against the ids of the first k groups, covered groups are exactly those k and uncovered ones the rest |
| `Coverage.CompactionCandidates` | internal/chat/session.go:2728-2747 | the candidates are the prefix of the uncovered groups that leaves the hot tail but takes every omitted group |
| `Coverage.CandidateCutIsUnique` | internal/chat/session.go:2728-2747 | that description has exactly one solution |
| `Coverage.TailStartSequence` | internal/chat/session.go:2749-2764 | the loop finds the start of the group after the last candidate, or 0 |
| `Coverage.TailIsFirstUncovered` | internal/chat/session.go:2749-2764 | the recorded tail is the start of the first group left uncovered, or 0 when none is |
| `Coverage.ResolveSourceGroups` | internal/chat/session.go:2780-2824 | the loop resolves a manifest to whole committed turns in order, or refuses it |
| `Coverage.SliceResolves` | internal/chat/session.go:2780-2824 | the manifest of any run of committed turns resolves to exactly those turns |
| `Coverage.CoverageMerges` | internal/chat/session.go:2849-2855 | merging the manifests of consecutive runs gives the manifest of the whole prefix |
| `Resume.LoadVerified` | internal/chat/session.go:2877-2919 | the loop from the root upward computes the verified memory, with errors exactly where a link fails |
| `Resume.ValidateColdSource` | internal/chat/session.go:2925-2969 | the cold source check decides whether manifest, whole groups and hash agree |
| `ResumeLinks.VerifiesIffSound` | internal/chat/session.go:2877-2969 | a lineage loads if and only if at every link the manifest names whole committed turns in order, the stored hash is the hash of exactly these turns, and the payload vouches for it and for the link before; what is loaded then is the newest payload and all manifests, root first |
| `ResumeLinks.BackedIsChecked` | internal/chat/session.go:2780-2824 | both passes over the ledger together accept a stored checkpoint if and only if the turns its manifest touches are whole, make up the manifest and have its hash |
| `Resume.MergesCommute` | internal/chat/session.go:2849-2855 | merging manifests one compaction at a time equals merging the whole lineage at once |
| `Resume.PlanCompaction` | internal/chat/session.go:1465-1521 | the preflight plans the candidate turns, or has none, or names a cut that does not resolve |
| `Resume.PlanTakesNextTurns` | internal/chat/session.go:1465-1521 | while memory covers k turns, a plan is about the next whole turns and the first one left raw |
| `Resume.EveryCutResolves` | internal/chat/session.go:2769-2775 | the preflight never fails to resolve the turns it chose |
| `Resume.AgreementIsStable` | internal/chat/session.go:2877-2919 | any further event leaves the agreement between memory and rebuild alone |
| `Resume.CommitAgrees` | internal/chat/session.go:1622-1661 | after a commit, a resume rebuilds exactly the checkpoint and coverage the live session installs |
| `ResumeTail.TailEvents` | internal/store/thread_resume.go:87-109 | the search for the tail start returns the suffix from it, or the error |
| `ResumeTail.EvidenceSuffices` | internal/store/thread_resume.go:58-82 | verifying a lineage against the snapshot's evidence decides the same as against the whole ledger |
| `ResumeTail.SuffixGroups` | internal/store/thread_resume.go:37-53 | a suffix shows every turn committed after the cut, except one that was open at the cut |
| `ResumeTail.SnapshotHoldsUncovered` | internal/chat/session.go:1845-1859 | the snapshot holds exactly the uncovered turns, if and only if no turn straddled a checkpoint that left none raw |
| `ResumeTail.StraddlingTurnIsLost` | internal/store/thread_resume.go:87-109 | a journal whose snapshot is empty although a committed turn is not covered |
| `CompactionSafety.RunsAreSafe` | internal/chat/session.go:1437-1766 | every world of every run of the step system keeps the invariant of journal, sessions and operations |
| `CompactionSafety.CheckpointsAreContiguous` | internal/chat/session.go:1529-1658 | between the start of an operation and its checkpoint lie only usage records of that operation |
| `CompactionSafety.FailuresAreSettled` | internal/chat/session.go:1695-1766 | when the failure path has returned without a store error, its operation is not pending |
| `CompactionSafety.FailuresCloseTheirOwn` | internal/chat/session.go:1695-1766 | a step of the failure path writes nothing or the failure of its own operation, never another one |
| `CompactionFailure.FailurePathSettles` | internal/chat/session.go:1695-1766 | in every reachable world a session on the failure path whose operation is pending settles it by at most three steps of its own, with exactly one failure of that operation appended |
| `CompactionFailure.FailureNeverGivesUp` | internal/chat/session.go:1722-1757 | while its operation is pending, a step of the failure path appends that operation's failure and settles, or writes nothing and gets nearer |
| `CompactionFailure.OperationIsNeverAbandoned` | internal/chat/session.go:1541-1766 | short of a restart, no step leaves an operation pending and its session neither running it nor on its failure path |
| `CompactionFailure.RunningCanFail` | internal/chat/session.go:1541-1617 | a running compaction can be given up at any time and goes on to record its failure |
| `CompactionFailure.UnpaidCallsAreNotCommitted` | internal/chat/session.go:1545-1600 | after a model call that could not be recorded, nothing is committed |
| `CompactionSafety.LiveAgreesWithResume` | internal/chat/session.go:2860-2919 | what any session holds in memory is what loading its checkpoint rebuilds, and covers a prefix of the committed turns |
| `CompactionSafety.ResumeSucceeds` | internal/chat/session.go:2860-2872 | whatever checkpoint is active in a reachable journal, its lineage ends at a root and verification passes |
| `CompactionSafety.CommitsMakeProgress` | internal/chat/session.go:1637-1661 | each success covers strictly more turns and records where the first uncovered one starts |
| `CompactionSafety.CommitsUnlessMoved` | internal/chat/session.go:1637-1661 | a finished compaction that is not stale commits if and only if nothing was written since its last recorded call and its checkpoint id is new |
| `CompactionSafety.CommitInstalls` | internal/chat/session.go:1622-1661 | a checkpoint that commits was built from exactly the next uncovered turns of the journal it lands in |
| `CompactionFailure.StartsUnlessMoved` | internal/chat/session.go:1529-1540 | a planned compaction starts if and only if nothing was written since its session looked, nothing is pending and the thread is not archived |
| `CompactionProgress.CompactionGoesThrough` | internal/chat/session.go:1437-1661 | from any reachable world in which a session has something to compact and nothing stands in its way, load, plan, start and commit lead to its checkpoint being active and covering what was planned |
| `CompactionProgress.MemoryLoads` | internal/chat/session.go:2860-2872 | the memory a session compacts from can always be had |
| `ContextConfig.WatermarksAreOrdered` | internal/contextbuild/config.go:29-57 | target, trigger and ceiling keep their order for every window |
| `Planner.Plan` | internal/contextbuild/planner.go:67-210 | exactly when which error, and of which artifact or group; otherwise the rendered plan, with an optional artifact kept if and only if it fits beside those kept before it, within the ceiling, and any omission forces a compaction signal |
| `Planner.CutIsLongest` | internal/contextbuild/planner.go:149-168 | a suffix of the groups fits if and only if it is no longer than the chosen one |
| `Planner.SelectNewest` | internal/contextbuild/planner.go:149-168 | the greedy loop finds that cut, or the newest required group before it |
| `Planner.KeepingIsFair` | internal/contextbuild/planner.go:179-196 | kept optional artifacts fit; if one was skipped, all of them together would not have |
| `Planner.PickedInOrder` | internal/contextbuild/planner.go:179-196 | every kept artifact stands right behind the kept ones before it |
| `Planner.OmissionsAreReported` | internal/contextbuild/planner.go:179-210 | every omitted group and every optional artifact that is not in the plan is reported |
| `Planner.CheckpointIsPlaced` | internal/contextbuild/planner.go:67-148 | the checkpoint stands right after the immutable and active messages, or it does not fit and its absence is reported |
| `Planner.RequestIsLast` | internal/contextbuild/planner.go:67-210 | the prompt begins with the immutable context and ends in the current request |
| `Planner.RenderedWithinCeiling` | internal/contextbuild/planner.go:67-210 | the assembled prompt stays under the ceiling |
| `Planner.OmissionsMeanOverflow` | internal/contextbuild/planner.go:67-210 | any omission or fallback means that what was offered exceeds the ceiling |
| `TurnBudgets.TurnBudget.AdmitToolBatch` | internal/runtimeguard/turn.go:383-455 | refused if and only if an id is blank, repeated in the batch or already admitted, with the error of the first such call, and then nothing changes; otherwise every call is registered with its decision and the counters rise by exactly what was allowed |
| `TurnBudgets.DecideBatch` | internal/runtimeguard/turn.go:383-455 | calls under their limit, in source order, are all allowed if they all fit and none otherwise |
| `TurnBudgets.FittingBatchIsAllowed` | internal/runtimeguard/turn.go:383-455 | a batch that fits under every limit and into what is left is allowed as a whole |
| `TurnBudgets.RefusalIsDue` | internal/runtimeguard/turn.go:383-455 | a call is denied for its key exactly when the equivalent calls before it have used up the limit, and for the budget exactly when the calls that are left do not fit together |
| `TurnBudgets.MarkEligible` | internal/runtimeguard/turn.go:409-430 | the first pass on a copy of the counters finds exactly the calls under their limit |
| `TurnBudgets.TurnBudget.StartToolCall` | internal/runtimeguard/turn.go:457-496 | an admitted call is claimed once without a second reservation; after a batch every other start is refused |
| `TurnBudgets.TurnBudget.AcquireToolCall` | internal/runtimeguard/turn.go:353-361 | takes one call from the budget or changes nothing |
| `TurnBudgets.TurnBudget.AcquireModelStep` | internal/runtimeguard/turn.go:363-371 | takes one model step while any is left, touching nothing else |
| `TurnBudgets.TurnBudget.AcquireFinalResponse` | internal/runtimeguard/turn.go:373-381 | the reserved final response is given exactly once |
| `TurnBudgets.TurnBudget.MarkStateChanged` | internal/runtimeguard/turn.go:333-341 | forgets the equivalent-call counters and nothing else |
| `TurnBudgets.TurnIsBounded` | internal/runtimeguard/turn.go:333-496 | over any interleaving the counter equals the reservations and bounds the executions, no key exceeds its limit between state changes, no id starts twice, nothing bypasses a batch |
| `ToolPairs.TurnGroupMessages` | internal/chat/session.go:2629-2690 | replay strips the committed messages and splices the completed tools in front of the last assistant message |
| `ToolPairs.ReplayIsPaired` | internal/chat/session.go:2629-2690 | a commit without tool-role messages replays with every tool result right after its call |
| `ToolPairs.ReplayIsExact` | internal/chat/session.go:2629-2690 | replay is the committed messages, assistant ones without reasoning and calls, with one call and its result for each completed tool, in order, in front of the last assistant message: nothing is dropped, added or moved |
| `ToolPairs.PlanIsPaired` | internal/contextbuild/planner.go:149-199 | a plan over well-formed groups is well formed |
| `ToolPairs.PacketKeepsPairs` | internal/agent/react.go:1090-1107 | a packet put after the system prefix never separates a call from its results |
| `Steering.TurnSteerMailbox.Enqueue` | internal/chat/steer.go:81-105 | accepted inputs are numbered 1, 2, 3; nothing is accepted when blank, cancelled or after close |
| `Steering.TurnSteerMailbox.TakeTurnSteers` | internal/chat/steer.go:118-137 | delivers everything pending once, in admission order, and nothing after close |
| `Steering.TurnSteerMailbox.Close` | internal/chat/steer.go:139-148 | drops what still waits and answers what the model has seen |
| `Steering.SteerSession.SteerWithReceipt` | internal/chat/steer.go:193-236 | input reaches exactly the expected, accepting, uncancelled turn, with every refusal in its order |
| `Steering.ClosedTurnAcceptsNothing` | internal/chat/steer.go:193-267 | over any life of a session, between the end of a turn and the next input it accepts lies a new activation of that turn |
| `Steering.AcceptedInputsAreKept` | internal/chat/steer.go:193-267 | every accepted input lies in the mailbox of the turn that was active when it came |
| `Steering.DeliveryIsOrdered` | internal/chat/steer.go:118-137 | over any life of a mailbox each input is delivered at most once, at the place its number tells |
| `TurnRecorders.TurnRecorder.RecordStart` | internal/chat/session.go:2272-2299 | a start is accepted exactly when its call is new to the turn and the store takes it; a call id that has been shown before fails the recorder for good |
| `TurnRecorders.TurnRecorder.RecordEnd` | internal/chat/session.go:2300-2357 | an end completes the open call it names, or the oldest open call of its tool, or one that starts with it, and keeps its raw output; exactly when it is refused |
| `TurnRecorders.TurnRecorder.RecordAll` | internal/chat/session.go:2262-2360 | over any run of events, a recorder fails exactly when one of them is refused, and otherwise holds what the events add up to: every raw output it was shown, under its own call id |
| `TurnRecorders.TurnRecorder.BatchProjections` | internal/chat/session.go:2370-2396 | previews of calls a recorder without a failure has been shown stay within max(12288, 512 n) bytes, with nothing assumed about their ids |
| `TurnRecorders.SubBagHasNoRepeat` | internal/store/thread_lifecycle.go:93-109 | since no start is journaled twice, no batch of started calls repeats an id |
| `ReActBatch.AdmitBatch` | internal/agent/react.go:447-495 | a call is refused exactly when it is mixed with a task control call, unknown or denied by the budget, and every other one has its reservation; a batch gets its decisions exactly when all arguments have a key and, if it has calls for the budget, the context is alive and their ids are new |
| `ReActBatch.DecideFollows` | internal/agent/react.go:447-495 | the decision about a call is that of the budget about its own place among the executable calls |
| `ReActBatch.PermittedAreReserved` | internal/agent/react.go:447-495 | as many calls reach the tools node as the budget has allowed |
| `ReActBatch.MergeResults` | internal/agent/react.go:511-572 | each refusal stands at its call's place, the node's results fill the others in order, and a short or long batch is an error |
| `ReActBatch.MergedAnswers` | internal/agent/react.go:511-572 | if the node answers its calls in order, the merged batch answers all calls in order |
| `ReActBatch.ProjectedAnswers` | internal/chat/tool_projection.go:65-103 | replacing result texts by previews keeps every result at its call |
| `ReActBatch.RunBatch` | internal/agent/react.go:300-345 | whatever the model asks and the tools return, a batch that reaches the model answers all calls in order within the preview budget, no more calls ran than were reserved, and a batch that fails names its cause |
| `ReActBatch.SomeNodeReports` | internal/agent/react.go:511-572 | a tools node that always answers, in order and with every start and end reported, meets what `RunBatch` asks of a node |
| `ReActTurn.RunTurn` | internal/agent/react.go:231-375 | every request is the history so far with packets in its system prefix, every reply with calls is the next batch, the loop ends with the first reply that asks for none, or with the reserved final response once the steps or the model-step budget are used up, and every error names its cause; what was delivered is what the history shows, and the calls run stay within the reservations |
| `ReActTurn.RequestsArePaired` | internal/agent/react.go:250-346 | every request of the loop, final instruction and steers included, keeps each result next to its call |
| `ReActTurn.SteerAfterRequest` | internal/agent/steer.go:55-80 | delivering steers after the packets were placed gives the same request as before |
| `ReActTurn.AskTurn` | internal/chat/session.go:909-1135 | a turn commits if and only if there is an answer that may be stored; it stores the request, exactly the inputs the model was shown in that order, and the text the loop ended with, without reasoning and calls; input after the last model call is accepted and not stored; any other end forgets all inputs |
| `Conversation.Converse` | internal/chat/session.go:1793-1805 | over any life of a thread each turn has no prompt that fits, or is asked with its plan and adds one replayed group if it commits; through commit, replay, planning and loop every request keeps each tool result next to its call |
| `Previews.PreviewOf` | internal/chat/session.go:2428-2444 | head and tail are disjoint parts of the output and with the omitted bytes make up all of it; their size is the allowance or the output |
| `Previews.BatchPreviews` | internal/chat/session.go:2370-2396 | the loop over the shared budget computes the allocation |
| `Previews.EveryoneGetsAShare` | internal/chat/session.go:2370-2396 | in a batch of up to 24 results each shows its whole output or at least an equal share of the budget, capped at 8192 bytes |
| `Previews.LastGetsTheRest` | internal/chat/session.go:2370-2396 | what the others left unused is there for the last result |
| `ExecStream.RunsAreSafe` | cmd/eino-assistant/run_exec_stream.go:129-242 | every interleaving of producers and the writer keeps the invariant |
| `ExecStream.LinesAreInOrder` | cmd/eino-assistant/run_exec_stream.go:129-154 | lines are numbered 1, 2, 3 without gaps and show the accepted records in acceptance order |
| `ExecStream.LinesAreDistinct` | cmd/eino-assistant/run_exec_stream.go:129-154 | no call is printed twice |
| `ExecStream.TerminalLineIsLast` | cmd/eino-assistant/run_exec_stream.go:200-213 | a printed terminal line is last and unique, and everything accepted was printed before it |
| `ExecStream.WaitersAreToldTheTruth` | cmd/eino-assistant/run_exec_stream.go:175-198 | a waiter is told nil only if its record was printed, and after an error the record is never printed |
| `ExecStream.PlainCallsAreToldTheTruth` | cmd/eino-assistant/run_exec_stream.go:156-173 | a plain call is told nil if and only if its record was accepted |
| `ExecStream.NobodyIsStuck` | cmd/eino-assistant/run_exec_stream.go:129-242 | as long as a call has not returned, some goroutine can take a step: no interleaving deadlocks |
| `ThreadFork.AnalyzeForkSource` | internal/store/thread_fork.go:138-220 | the first refusal that applies, in the order of the checks, or the boundary: the creation event, the latest commit or the named one |
| `ThreadFork.ForkThread` | internal/store/thread_fork.go:53-270 | the whole operation: refused exactly when and for the first reason that applies; otherwise the child is a valid chain that copies the source up to the boundary asked for, names its hash, holds nothing but the conversation and is idle |
| `ThreadFork.HashFixesHistory` | internal/store/thread_fork.go:300-304 | with collision-free hashes the hash of the last event pins the whole chain |
| `ThreadFork.ProvenancePinsPrefix` | internal/store/thread_fork.go:284-299 | the hash a child records finds exactly the events it was copied from, in any chain |
| `ThreadFork.RebuildForkEvents` | internal/store/thread_fork.go:272-313 | the rebuilt prefix is a valid hash chain of the child that carries every body and replays to the same state; no check of the rebuild fails |
| `ThreadFork.ForkPreservesProjections` | internal/store/thread_fork.go:272-313 | any fold that ignores creation metadata reads the same from the child as from the source prefix |
| `ThreadFork.ChildIsIdle` | internal/store/thread_fork.go:195-219 | a child starts with no open turn, no pending compaction and no checkpoint |
| `MemoryStore.ActiveIsUniqueAndNewest` | internal/memory/store.go:285-311 | a key has at most one active entry, with the greatest version, which is the number of versions |
| `MemoryStore.VersionsAreDistinct` | internal/memory/store.go:285-311 | versions of a key grow with insertion and never repeat |
| `MemoryStore.InsertVersion` | internal/memory/store.go:285-311 | inserts the next version and supersedes the active one, or rolls back on a clash of ids |
| `MemoryHistory.InsertedAddsVersion` | internal/memory/store.go:285-311 | the new row is active under the version after the newest, names the entry it supersedes, and every row but that one is as it was |
| `MemoryStore.Store.Add` | internal/memory/store.go:260-283 | exactly when an entry is written, and that a candidate never displaces an active user entry or an older generation writes |
| `MemoryStore.Store.UpdateUser` | internal/memory/store.go:313-333 | exactly when a user claim becomes the next version of the key it names; otherwise nothing changes |
| `MemoryStore.Store.Delete` | internal/memory/store.go:335-357 | keeps the row and its version; the key has no active entry afterwards |
| `MemoryStore.Store.Accept` | internal/memory/store.go:359-384 | confirms a candidate in place; confirming twice changes nothing |
| `MemoryStore.Store.Reset` | internal/memory/store.go:234-248 | empties both tables and moves to the next generation |
| `MemoryStore.Store.ClaimExtraction` | internal/memory/store.go:616-652 | a lease is granted exactly when no success, running lease or waiting retry of this source forbids it |
| `MemoryStore.Store.FinishExtraction` | internal/memory/store.go:654-711 | exactly when a finish is accepted; all drafts or none, only under the current generation and a running extraction of the same source, and never at the expense of a user entry |
| `MemoryHistory.DraftedIsStored` | internal/memory/store.go:686-704 | a finish stores every draft that is not empty and not about a key the user has settled, in order, the last one of a key being active, and supersedes nothing else |
| `MemoryHistory.InsertableIsFresh` | internal/memory/store.go:686-704 | all drafts can be stored if and only if the ids of those to be stored are unused and distinct |
| `MemoryHistory.AttemptsAreCounted` | internal/memory/store.go:616-652 | over any calls the attempts on record are the claims granted for the source since another one was claimed |
| `MemoryHistory.SuccessIsFinal` | internal/memory/store.go:616-652 | a source whose extraction succeeded is not claimed again unless another source of the thread was in between |
| `MemoryStore.FinishBelongsToItsClaim` | internal/memory/store.go:616-710 | after any calls of one generation since a granted claim, a finish closes that claim if and only if each call was a claim of its source inside the lease, a finish of another source, or a finish that could not store its drafts |
| `MemoryStore.FinishIsOpen` | internal/memory/store.go:654-668 | a source is being worked on if and only if one of its claims still holds the row |
| `MemoryStore.FinishClosesTheHolder` | internal/memory/store.go:654-710 | a finish that fails or can store its drafts is accepted if and only if some claim of its source holds the row, and leaves no claim of that source holding it |
| `MemoryStore.ServeCalls` | internal/memory/store.go:616-711 | over any sequence of claims and finishes of one thread the store keeps the row of that account, and answers whether each was accepted |
| `MemoryStore.LateFinishClosesAnothersClaim` | internal/memory/store.go:654-668 | two claims after which the first worker's finish closes the second worker's claim |
| `MemoryStore.LateFailureCutsLeaseShort` | internal/memory/store.go:654-685 | a worker that finishes inside its own lease and closes the claim of another one, although no claim came after that lease had run out |
| `MemoryStore.LeaseIsExclusive` | internal/memory/store.go:616-652 | a claimed source can be claimed again exactly when its lease has run out |
| `MemoryStore.FailureWaits` | internal/memory/store.go:616-652 | a failed source can be claimed again exactly when its delay has passed |
| `MemoryStore.BackoffIsBounded` | internal/memory/store.go:654-711 | the first wait is five minutes, each further failure doubles it, and it levels off at 320 minutes |
| `TomlEdit.ServerBlocks` | internal/config/config.go:1247-1267 | the blocks are exactly the server headers, each up to the next header that is not the server's own |
| `TomlEdit.FormatString` | internal/config/config.go:1191-1214 | the loop computes the quoted form, or fails on a control character |
| `TomlEdit.QuotedIsSafe` | internal/config/config.go:1191-1214 | a quoted value holds no line break and never three double quotes in a row |
| `TomlEdit.QuotedReadsBack` | internal/config/config.go:1191-1214 | reading a quoted value by the rules for basic strings gives the value back and stops at its closing quote |
| `TomlAppend.ServerLinesInside` | internal/config/config.go:1086-1169 | whatever the values, every line after the header stays inside the block |
| `TomlAppend.AppendServer` | internal/config/config.go:1075-1084 | appends a blank line and the block to the padded source, or refuses a value that cannot be quoted |
| `TomlRead.BlockReadsBack` | internal/config/config.go:1086-1169 | a reader of the block finds every setting of the server once, with its value, and nothing else, and its environment entry by entry in a table of its own |
| `TomlRead.WritableIffClean` | internal/config/config.go:1086-1214 | a server can be written if and only if no text it writes has a control character other than a tab |
| `TomlEdit.RemoveServer` | internal/config/config.go:1221-1245 | cuts out the lines of the target block, with each refusal in its order |
| `TomlAppend.BlockShowsValues` | internal/config/config.go:1086-1214 | a formatted block has three single quotes in a row if and only if one of the values it writes does |
| `TomlAppend.RemoveUndoesAppend` | internal/config/config.go:1075-1084 | removing a just-appended server gives back the source plus newline padding, unless three quotes in a row stand in the source or three single ones in a value of the server, or the blocks were not the servers' |
| `TomlAppend.ThreeQuotesCannotBeRemoved` | internal/config/config.go:1221-1245 | a server that can be appended and not removed again |
| `TomlSettings.SetBoolean` | internal/config/config.go:961-1001 | both scans together replace the first setting of the block or insert it before the block's first sub-header or end |
| `TomlSettings.SettingTakesEffect` | internal/config/config.go:961-1026 | in the returned text, split into lines again, the target block is where it was, the first assignment of the setting in it reads as the value and keeps its comment, and every other line is as it was |
| `TomlSettings.ReplaceTwice` | internal/config/config.go:1012-1026 | the second replacement of a line wins, comment and line break included |
| `TomlSettings.SetTwice` | internal/config/config.go:961-1026 | setting twice equals setting once to the last value if and only if the setting is not glued to an open last line |
| `TomlSettings.EndedTextIsNotGlued` | internal/config/config.go:961-1001 | a text that is empty or ends in a line break never glues |
| `TomlSettings.CommentSwallows` | internal/config/config.go:961-1001 | a setting glued to a comment is read by nobody |
| `TomlSettings.NoteSwallowsSettings` | internal/config/config.go:961-1001 | a text in which a second setting does not override the first |

## Left out

- White space around ids: an id is blank or a name, so trimming is the identity on names; `strings.TrimSpace` in the prompt and the TOML editor is modelled on characters.
- Checkpoint claims: sections are one list of claims; beyond their references only presence of text, confidence and duplicates are checked.
- Legacy v1 checkpoints: only the reset that removes one is modelled.
- Journal: tool lifecycle inside a turn is one kind of event that needs its open turn; a committed group carries its messages, and `ToolPairs` models the pairing of tool records separately.
- Journal: the store's on-disk tail repair, SQLite index, locks and atomic renames are left to the file system.
- ThreadStores.ThreadStore.CommitCheckpoint: the storage hash and the default source hash are functions of the ledger; tampering with stored bytes is not modelled.
- PausePolicy: reasons are their class only.
- ThreadStores.ThreadStore.ResetIncompatibleCheckpoint: the reset's reason is taken to be given.
- PausedRuns.LowGainIsBounded: sessions may have different limits; `limit` bounds them all.
- Compaction.CompactRecursive: the prompt text, the usage observer's call ids and provider retries are parameters; the order of calls is the order of their numbers.
- CompactionProtocol: the decision whether to compact at all, the release estimate and the retry timers only decide whether a step is taken.
- Planner.Plan: the report fields other than the listed ones are not modelled.
- TurnBudgets: deadlines and `canonicalJSON` are left out; a call's key is given.
- ReActTurn.RunTurn: streams are whole replies; presentation events, task continuation and reasoning events are not modelled.
- ReActBatch.RunBatch: the tools node is an answer of the environment; it may start, deny or reserve calls in any order.
- TurnRecorders: the artifact store and the journal accept or refuse by choice of the environment, except that the journal refuses a second start or completion of a call.
- Conversation.Converse: one session runs the thread from its start; how far the checkpoint covers it and what the journal holds of a turn's tools are any, and a prompt without room for its checkpoint ends the turn.
- Steering: the observer of consumed inputs is not modelled.
- ExecStream: JSON encoding always succeeds, and cancelling the run after a write failure is one more abort of a producer.
- ThreadFork: publication of the child's files and the refusal of a torn source file are left out; `HashFixesHistory` and `ProvenancePinsPrefix` take hashes to be free of collisions.
- MemoryStore: search, summaries, reports and the processed-thread list add only easy members; SQL is a transaction over rows, time is minutes.
- TomlEdit: strings are characters, so invalid UTF-8 does not occur; replacing other settings and the status line is left out.
- TomlSettings.SetTwice: stated for settings that are bare keys; the source sets `oauth` and `enabled`.
- Provider clients, MCP connections, OAuth, the TUI, Cobra commands, sandboxing and instruction files: network, terminal and system calls.
