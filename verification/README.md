# Verification of the agent runtime's core protocols

A Dafny model of the parts of this repository whose behaviour spans many calls, and proofs of what those calls
promise together. Strings are sequences of Unicode scalar values measured in UTF-8 bytes; integers that the source
saturates, clips or checks are saturated, clipped or checked at the same width here. Code that updates an object in
place is a class whose methods are proved against pure functions of the old state; protocols with several tasks are
step machines whose runs are arbitrary sequences of steps.

| file | models |
|---|---|
| `Text.dfy` | UTF-8 lengths, boundaries and clipping; character classes, searching, decimal numbers |
| `RunEvents.dfy` | the snapshot fold shared by client and server, incremental previews, the public projection |
| `Display.dfy` | what a snapshot shows, told from the event log alone |
| `RunRegistry.dfy` | a retained run: snapshot, bounded journal, reset floor, cursor protocol |
| `Replication.dfy` | source, lossy channel, collector and any number of clients as one step machine |
| `JournalBytes.dfy` | when the journal's byte counter is exact |
| `Base64.dfy` | the canonical base64 recogniser |
| `Messages.dfy` | messages and the tool-call pairing validator |
| `Grouping.dfy`, `Projection.dfy` | settled groups, and the projection that replaces selected groups by a summary |
| `SavedState.dfy` | capturing a selection and replaying it over a later history |
| `Sizing.dfy`, `Summaries.dfy` | request sizes and budgets; packing groups into bounded summary requests |
| `Handover.dfy` | which groups the summary requests carry, and what becomes of the answers |
| `Compaction.dfy`, `CompactionRuns.dfy` | the compactor with its cache, and whole runs over a growing history |
| `CacheRuns.dfy` | the compactor's cache under overlapping compactions, cancellations and finishes |
| `MemoryDocument.dfy`, `MemoryStore.dfy` | the Markdown memory file, batches of edits, and both stores |
| `TaskBudget.dfy` | the tree of accounting branches, alone and under concurrent calls |
| `Terminal.dfy` | terminal output ring and sequenced input |
| `Gateway.dfy` | admission of concurrent model calls in the evaluation gateway |
| `Instructions.dfy`, `InstructionRuns.dfy` | project guidance and the freshness gate; its calls overlapping |
| `InstructionLimits.dfy`, `InstructionWedge.dfy` | when overlapping calls keep a run within its directories, and what follows when they do not |
| `InstructionSlots.dfy` | the guidance records of many runs, cancelled and finished while calls are in flight |
| `ModelSettings.dfy`, `SettingsEffects.dfy` | the settings transaction, what each change leaves behind, and live model routes |

`dafny verify dfyconfig.toml` checks everything.

## Environment

- The source of a run assigns sequence numbers atomically with its snapshot (`packages/api/src/event.rs:265-267`),
  so its snapshot is the fold of its events; it emits nothing after the final event.
- A client that resumes at a cursor holds the view of that cursor.
- JSON serializers, hashes, URL parsing, the file tree, the model and its adapters are function-valued parameters.
  Each assumption made about them is a named predicate: `Lawful` (decoding inverts encoding; no raw newline in
  encoded metadata), `CollisionFree` and `Sane` (digests are injective), `PlainTextIsEscaped` (a plain user message
  costs a constant plus its escaped text), `Lists` (an ordered set lists its elements once). The memory stores also
  take it that the empty document prints within its size limit. Nothing else is assumed.
- The byte counter of a journal is added to with saturation and subtracted from in full. `JournalBytes` proves it exact
  for budgets up to 2^63 bytes; beyond, only lengths that no running process can hold make it lose a byte
  (`ManyEventsLoseAByte`, and `UnserializableEventLosesBytes` for a one-event journal).
- Each call of a run reads the file tree as it finds it, so trees differ from call to call, and a path argument may lead
  to any directory inside the project, links included.
- Clocks, cancellation, lock contention, disk failures and thread interleavings are parameters or steps chosen
  freely by the environment.

## Findings

- The file store reports an I/O error although the new file is already in place when a sync after the rename fails
  (`packages/memory/src/store.rs:511-518`). `MemoryStore.FileStore.Apply` states that this happens if and only if the
  final sync of a batch that changes the document fails, and that the file then holds the whole batch;
  `MemoryStore.SyncFailureStoresAnyway` is such a call.
- Calls that overlap in one run can spoil its guidance record, which is copied, worked on unlocked and written back
  (`packages/instructions/src/lib.rs:297-371`). From an empty record, a refresh that finds 63 directories and two
  overlapping checks of one more each leave 65, and every later check is an error (`InstructionWedge.OverlapWedgesARun`,
  `WedgedForGood`). `InstructionLimits.DrainStaysWithinIff` is the exact condition on the calls in flight,
  `CommitStaysWithinIff` that on a single commit, and `RunStaysWithinIff` carries it over whole runs; in particular
  the limit holds while no two calls overlap. A refresh also writes its older record over a directory recorded
  meanwhile; `InstructionRuns.RecordedForGoodIff` says exactly when one can be lost.
- The limit of 64 runs is tested when a call begins, while a commit creates a missing record anew
  (`packages/instructions/src/lib.rs:62-77`, `:316-371`). 64 runs, one of them finished with a check in flight and
  replaced by another, leave 65 records (`InstructionSlots.PlacesOverflow`). `PlacesHoldIff` is the exact condition,
  `ComesBackIff` says when a finished run has a record again, and `TidyRunsFit` that finishing only runs with no call
  that may still commit keeps the limit.
- In `summarize` the "summary request exceeds" error can only arise when there is no group left to fold in:
  `Summaries.Ended` states it for an empty list of groups alone.

## Model

| member | source | states |
|---|---|---|
| `Text.ClipUtf8` | packages/api/src/message.rs:161-167 | the byte loop returns the bytes of the longest prefix of whole characters that fits the limit |
| `Text.BoundaryIsPrefixLength` | packages/api/src/message.rs:161-167 | the byte-level boundary test holds exactly at the ends of whole-character prefixes (section 3 of RFC 3629) |
| `RunEvents.PreviewRefinesClip` | packages/api/src/event.rs:418-426 | after any deltas the preview is the one-shot clip of their concatenation, and `truncated` holds exactly when that is too long |
| `RunEvents.LiveSnapshot.Put` | packages/api/src/event.rs:343-357 | replacing, pruning and pushing in place is the functional insertion |
| `RunEvents.LiveSnapshot.Apply` | packages/api/src/event.rs:329-416 | the mutating fold refuses exactly the gapped, foreign or unversioned events and otherwise applies the event |
| `RunEvents.RetentionIsConserved` | packages/api/src/event.rs:343-357 | over any log: ids stay unique, at most 256 items are kept, and items plus `pruned_items` is the number of insertions |
| `RunEvents.PruningSparesActiveItems` | packages/api/src/event.rs:346-354 | an item disappears only as the victim of an insertion into a full display: the first that is neither pending nor running, or the oldest when all are |
| `Display.ShownIsArrivedAndContinued` | packages/api/src/event.rs:339-413 | over any log, every item on display is the one that last arrived under its id, its message, arguments and output previews each extended by exactly the deltas of that kind and id since, its call id and name the last ones given, and nothing else changed |
| `Display.StreamedFromEmpty` | packages/api/src/event.rs:418-426 | in particular an item that arrived empty shows the one-shot clip of everything of its kind streamed to it since |
| `Display.ShowsCarried` | packages/api/src/event.rs:341-358 | an arriving item takes the place of its id, else goes last; on a full display the victim makes way; the rest stay in order |
| `Display.StatusIsLast` | packages/api/src/event.rs:339-412 | started, step and outcome are those of the last event that said so |
| `RunEvents.PublicCommutesWithApply` | packages/application/src/protocol.rs:81-95 | projecting diagnostics away commutes with `apply`, refusals included |
| `RunEvents.DiagnosticsStayPrivate` | packages/application/src/protocol.rs:81-95 | public events and snapshots do not depend on the private error message |
| `Display.PublicReplacesTheMessage` | packages/application/src/protocol.rs:81-95 | of a snapshot or event only the text of an error is replaced: by one message for unsupported capabilities and by another for everything else |
| `RunRegistry.Entry.AcceptEvent` | packages/application/src/service.rs:67-88 | one acceptance: ignored, journaled with eviction, or resynchronized on a gap |
| `RunRegistry.Entry.Trim` | packages/application/src/service.rs:82-85 | the eviction loop pops exactly what the functional eviction drops |
| `RunRegistry.Entry.Resync` | packages/application/src/service.rs:89-99 | an older snapshot is dropped; a newer one replaces snapshot and journal and raises the reset floor |
| `RunRegistry.Entry.Fail` | packages/application/src/service.rs:100-107 | a fault is set only while no outcome is known, and everyone is notified |
| `RunRegistry.EvictKeepsLast` | packages/application/src/service.rs:82-85 | eviction keeps a suffix with the newest event, meets both bounds, and keeps an exact byte count exact |
| `RunRegistry.EvictIsLongest` | packages/application/src/service.rs:82-85 | with exact counting no event is evicted that would still have fitted |
| `RunRegistry.AcceptKeepsReplica` | packages/application/src/service.rs:67-88 | an accepted event advances the entry by exactly itself and is not evicted by its own insertion when it fits; older ones are ignored, later ones are a gap |
| `RunRegistry.InstallKeepsReplica` | packages/application/src/service.rs:89-99 | any source snapshot, installed or refused, leaves the entry a replica of the source |
| `RunRegistry.Subscription.PollOnce` | packages/application/src/subscription.rs:21-46 | one pass of the loop returns the frame and cursor the protocol prescribes |
| `RunRegistry.PollDeliversInOrder` | packages/application/src/subscription.rs:23-44 | every frame moves cursor and client view together; an event frame is the public event at cursor + 1 |
| `RunRegistry.PollIs` | packages/application/src/subscription.rs:23-44 | exactly what a client gets: the very next event whenever it is past the reset floor and the journal still holds that event; a snapshot, with its reason, in exactly the other cases; when caught up the fault, the end, or nothing |
| `RunRegistry.ReasonIs` | packages/application/src/subscription.rs:25-29 | the initial, resync and expired reasons each hold if and only if told by cursor, reset floor and journal alone |
| `RunRegistry.NextIsAdjacent` | packages/application/src/subscription.rs:25-33 | when no snapshot is due, the first journal event beyond the cursor is the adjacent one, and exists exactly when the client is behind |
| `RunRegistry.WaitMeansCaughtUp` | packages/application/src/subscription.rs:23-45 | a client waits if and only if it is current with a run that is not terminal |
| `RunRegistry.DrainExactly` | packages/application/src/subscription.rs:20-47 | draining a settled entry yields either every remaining event or one snapshot, then at most one fault, then the end |
| `Replication.RunKeepsInv` | packages/application/src/service.rs:283-304 | source log, entry, collector position and every client satisfy the protocol invariant after every interleaving |
| `Replication.ClientViewsAreExact` | packages/application/src/subscription.rs:20-47 | in every interleaving a client view is the public source snapshot at its cursor, and its next frame is the adjacent event, a later whole snapshot, or the fault |
| `Replication.NoLostWakeup` | packages/application/src/subscription.rs:12-47 | a suspended client that could be served has an unseen revision or a notification about to be sent |
| `Replication.StoppedRunsEndEveryClient` | packages/application/src/service.rs:283-304 | the collector stops only at a terminal entry, `completed_at` marks exactly the terminal entries, and there every client drains to the final view with at most one fault |
| `Replication.CollectorStops` | packages/application/src/service.rs:283-304 | after the final event, a closed channel, or a lag behind a finished source, five steps of its own stop the collector at a terminal entry |
| `Replication.OpenIs` | packages/application/src/subscription.rs:12-19 | a subscription is refused if and only if its cursor is ahead of the run; any other starts at its own position |
| `Replication.TerminalStateIsFinal` | packages/application/src/service.rs:67-107 | nothing delivered or resynchronized later changes a terminal entry’s snapshot or fault |
| `Replication.JournalIsContiguousAndBounded` | packages/application/src/service.rs:67-99 | in every run the journal is contiguous, ends at the snapshot, lies above the reset floor and meets both bounds |
| `JournalBytes.RoomyRunsAreExact` | packages/application/src/service.rs:74-85 | with room to spare the byte counter is the exact sum of the journal after every run |
| `JournalBytes.CounterIsExactIff` | packages/application/src/service.rs:74-85 | for event lengths the serializer can report, the counter is exact in all runs if and only if the budget is at most 2^63 bytes, or the journal holds one event and the budget is below `usize::MAX` |
| `Replication.FaultIsExecutorFault` | packages/application/src/service.rs:100-107 | the only fault a run ever shows is the executor-contract fault |
| `Base64.ValidBase64Iff` | packages/api/src/content.rs:191-220 | the recogniser accepts exactly the padded encodings of nonempty byte strings (section 4 of RFC 4648) with zero pad bits (section 3.5) |
| `Messages.ValidateMessages` | packages/api/src/validation.rs:6-78 | the loop over pending and seen ids accepts exactly the well-paired histories |
| `Messages.AcceptsIffWellPaired` | packages/api/src/validation.rs:6-78 | the pairing state machine accepts a history if and only if it splits into settled groups with fresh nonempty call ids and valid content |
| `Messages.AcceptedImagesDecode` | packages/api/src/content.rs:130-220 | in an accepted history every inline image decodes to nonempty bytes and every linked one is an HTTPS address, of a known type |
| `Grouping.TakeBatch` | packages/compaction/src/lib.rs:413-440 | a batch is taken exactly when each call is answered once, in any order, before anything else |
| `Grouping.GroupMessages` | packages/compaction/src/lib.rs:407-462 | grouping succeeds exactly when the history is a sequence of settled groups, which concatenate back to it |
| `Grouping.GroupingIsUnique` | packages/compaction/src/lib.rs:407-462 | a history has at most one grouping |
| `Grouping.AcceptedHistoriesGroup` | packages/compaction/src/lib.rs:407-462 | every history the validator accepts can be grouped |
| `Grouping.SystemFreeCommutes` | packages/compaction/src/state.rs:39-42 | dropping System groups is dropping System messages |
| `Projection.ProjectGroups` | packages/compaction/src/lib.rs:372-399 | the pass over groups with an index list builds the projection |
| `Projection.SortedSetIs` | packages/compaction/src/lib.rs:374-379 | archive references are listed once each, in order |
| `Projection.SpillReferencesSurvive` | packages/compaction/src/lib.rs:482-495 | every archived result of a summarized group keeps its exact reference line |
| `Projection.SummaryNamesItsArchive` | packages/compaction/src/lib.rs:372-399 | the message in their place carries the marker, the handoff whole, and the identifier of every archived result of theirs |
| `Projection.SummaryTakesFirstPlace` | packages/compaction/src/lib.rs:388-397 | the summary stands where the first selected group stood; every other group stays verbatim and in order |
| `Projection.ProjectionStaysPaired` | packages/compaction/src/lib.rs:372-399 | any projection of an accepted history is accepted again |
| `SavedState.Capture` | packages/compaction/src/state.rs:35-65 | the ranges captured are those of the selected groups in the history without System messages |
| `SavedState.MatchRanges` | packages/compaction/src/state.rs:80-107 | the walk with offset and range index finds the selection the ranges describe, or refuses |
| `SavedState.ReplayState` | packages/compaction/src/state.rs:68-109 | replaying checks the header and every range and projects |
| `SavedState.ReplayIff` | packages/compaction/src/state.rs:68-109 | replay succeeds if and only if some selection of whole safe groups explains every saved range, and then yields its projection |
| `SavedState.ReplayChecksEveryRange` | packages/compaction/src/state.rs:85-101 | success means ranges in strict order, disjoint, each exactly one whole safe group with the saved hash |
| `SavedState.ReplayChecksHeader` | packages/compaction/src/state.rs:68-84 | success means a current version, a valid handoff within its size, a bounded number of ranges and a history without System messages that is long enough |
| `SavedState.ReplayDetectsChange` | packages/compaction/src/state.rs:90-98 | with a collision-free hash a captured state replays only over the very messages it was captured from |
| `SavedState.CaptureThenReplay` | packages/compaction/src/state.rs:35-109 | on the System-free history plus any settled tail, replay gives the live projection without System messages plus the tail |
| `Sizing.SummaryCostsItsEscapedLength` | packages/compaction/src/lib.rs:344-348 | a summary adds at most its escaped length to a request, exactly that below saturation, through both size estimates |
| `Sizing.BudgetSuffices` | packages/compaction/src/lib.rs:223-284 | a summary within its budget passes all three later size checks, forced or not |
| `Sizing.EffectiveTargetIsLargest` | packages/compaction/src/lib.rs:223-235 | the effective target is the largest size within the target or 256 bytes of summary, below both triggers and, when forced, below the old size |
| `Sizing.RequestCoversBoth` | packages/compaction/src/lib.rs:344-348 | the request size is the larger of the exact request and the reserved estimate |
| `Summaries.CanonicalHandoffParses` | packages/compaction/src/summary.rs:23-47 | a handoff stored in canonical form within the size limit parses back to itself |
| `Summaries.PackGroups` | packages/compaction/src/lib.rs:556-566 | whole groups are packed for as long as the request still fits |
| `Summaries.Summarize` | packages/compaction/src/lib.rs:536-607 | the requests form a trace of greedy fitting rounds chained through canonical handoffs, at most the allowed number; each way of ending has its exact cause |
| `Summaries.SummaryIsDetermined` | packages/compaction/src/lib.rs:536-607 | two traces over the same groups, seed and answers end the same way: the outcome is a function of its inputs |
| `Summaries.RequestsCarryTheHistory` | packages/compaction/src/lib.rs:556-606 | on success the sources of the requests concatenate to the whole rendered history |
| `Summaries.EveryGroupIsSummarizedOnce` | packages/compaction/src/lib.rs:556-606 | on success each group is carried by exactly one request |
| `Summaries.HandoffIsPublishable` | packages/compaction/src/lib.rs:591-602 | the final handoff is valid, canonical and within its escaped budget |
| `Handover.TraceHandsOver` | packages/compaction/src/lib.rs:243-264 | the requests of a success carry exactly the groups selected and not covered before, each whole, once and in order; the handoff passes from answer to request, and only complete, valid answers without tool calls are kept |
| `Handover.RequestsFit` | packages/compaction/src/lib.rs:609-637 | every request fits the context in bytes and, with its answer, the window in tokens |
| `Compaction.ChooseGroups` | packages/compaction/src/lib.rs:181-221 | the retain loop ends with the most recent groups the target allows, always keeping the last; it gives up exactly when nothing can be selected |
| `Compaction.ChoiceGrows` | packages/compaction/src/lib.rs:185-215 | a chosen selection keeps every earlier group and adds only safe groups before the last, never the latest user request |
| `CompactionRuns.ChoiceKeepsMost` | packages/compaction/src/lib.rs:181-221 | a choice keeps as many recent groups as leave a worthwhile selection with 256 bytes for a summary below the target, up to the configured number |
| `Compaction.SummaryWithinBudgetMeetsIt` | packages/compaction/src/lib.rs:223-284 | with the byte-based token estimate a handoff within budget cannot fail the checks on the finished projection |
| `Compaction.Compactor.New` | packages/compaction/src/lib.rs:74-80 | exactly the valid configurations are accepted, and they start with an empty cache |
| `Compaction.Compactor.Finish` | packages/compaction/src/lib.rs:321-327 | finishing a run removes its entry and no other |
| `Compaction.Compactor.DropStale` | packages/compaction/src/lib.rs:117-130 | a cached summary survives exactly when every fingerprint still matches |
| `Compaction.Compactor.WriteSummary` | packages/compaction/src/lib.rs:223-284 | no room, no budget, a failed summary, each size check and success are tied to exactly the inputs that cause them; a handoff leaves only when it meets every limit |
| `Compaction.Compactor.Publish` | packages/compaction/src/lib.rs:285-314 | publication records selection, fingerprints and state together or changes nothing; capacity refuses only new runs; each outcome has its exact cause |
| `Compaction.Compactor.Settle` | packages/compaction/src/lib.rs:274-315 | a handoff is published unless the call was stopped, capture fails or the cache is full; any other end is passed on unchanged |
| `Compaction.Compactor.Replace` | packages/compaction/src/lib.rs:175-315 | once a request needs it: the choice of groups, the handoff and its publication determine the answer and the new entry |
| `Compaction.Compactor.Compact` | packages/compaction/src/lib.rs:109-316 | the answer is the one explained by stop flags, grouping, token budget, pressure, choice, summary and cache, in that order; the entry of this run alone grows, stays, or is dropped as stale |
| `Compaction.Compactor.RecoverContext` | packages/compaction/src/lib.rs:333-341 | in every case the cache takes the step of one forced compaction with an explained answer; the result is that answer, and none exactly when it is not smaller |
| `Compaction.ExplanationIsUnique` | packages/compaction/src/lib.rs:109-316 | only one answer is explained: every error needs its cause, and without one the call must succeed |
| `CacheRuns.CapacityHolds` | packages/compaction/src/lib.rs:298-300 | however the compactions of many runs overlap, no more runs than allowed have a cached summary |
| `CacheRuns.CancelledWorkIsNotPublished` | packages/compaction/src/lib.rs:291-303 | once a run is cancelled and then finished, nothing still waiting can bring its summary back, whatever happens in between and later |
| `CacheRuns.CancelledLaterIff` | packages/compaction/src/lib.rs:291-327 | finishing first and cancelling later is safe if and only if nothing was published in between |
| `CacheRuns.FinishedComesBackIff` | packages/compaction/src/lib.rs:291-327 | a waiting compaction that can publish restores a finished run exactly when the run is not cancelled |
| `CacheRuns.FreshOneDroppedIff` | packages/compaction/src/lib.rs:117-130 | of two overlapping compactions of one run, one drops a summary that still matches exactly when another it had read before no longer did |
| `CacheRuns.SummariesAreOwn` | packages/compaction/src/lib.rs:285-314 | whatever overlaps, a cached summary is one that a compaction of its own run captured from its own history while the run was not cancelled |
| `CacheRuns.PublishesOverItsOwn` | packages/compaction/src/lib.rs:117-130 | whatever other runs do while the model is asked, the run’s entry at publication is the one the compaction began from |
| `CompactionRuns.GroupsGrow` | packages/compaction/src/lib.rs:407-462 | when a history and its extension both group, the extension only appends groups |
| `CompactionRuns.StaysFresh` | packages/compaction/src/lib.rs:123-130 | under any growth of the history a published summary stays fresh and its selection stays protected |
| `CompactionRuns.SelectionOnlyGrows` | packages/compaction/src/lib.rs:185-194 | along a run the selected set only grows |
| `CompactionRuns.SummarizedGroupsWereHandedOver` | packages/compaction/src/lib.rs:243-264 | along a run every summarized group was carried whole by one request of the call that first summarized it, whose answers led to the summary then kept, and has not changed since |
| `CompactionRuns.OpaqueIsNeverSummarized` | packages/compaction/src/lib.rs:464-480 | no run ever summarizes a System message, media, an artifact outside the archive, reasoning or provider data, nor the latest user request |
| `CompactionRuns.PressureIff` | packages/compaction/src/lib.rs:148-161 | a request is due if and only if it reaches the trigger share of the context in bytes or of the input window in tokens |
| `CompactionRuns.PublishedIsRelieved` | packages/compaction/src/lib.rs:264-284 | what is published is smaller than before and no longer due |
| `CompactionRuns.DroppedIffChanged` | packages/compaction/src/lib.rs:123-130 | with distinguishing fingerprints a summary is dropped if and only if one of its groups is gone or has changed |
| `CompactionRuns.OutputKeepsTheRest` | packages/compaction/src/lib.rs:109-316 | every successful call of a run returns the history with protected groups verbatim and in order, and stays accepted by the validator |
| `CompactionRuns.SavedStateReproducesView` | packages/compaction/src/state.rs:68-109 | at every point of a run the saved state replays to exactly what the model sees, System messages aside |
| `MemoryDocument.Render` | packages/memory/src/store.rs:220-248 | the building loop prints the document, or refuses it above 64 KiB |
| `MemoryDocument.Parse` | packages/memory/src/store.rs:249-297 | the splitting loop is the parser, error by error |
| `MemoryDocument.SeparatorInPart` | packages/memory/src/store.rs:261-267 | a separator inside a printed entry could only have come from a text that holds the reserved marker |
| `MemoryDocument.ParseRender` | packages/memory/src/store.rs:220-297 | printing then parsing gives every valid document back |
| `MemoryDocument.ParsedIff` | packages/memory/src/store.rs:249-297 | the parser accepts a text as a document if and only if the document is valid and prints to that text |
| `MemoryDocument.AcceptedIsClean` | packages/memory/src/store.rs:298-308 | whatever is accepted from a file has clean texts without markers or private keys, proper authors, distinct ids below the next number, and sizes within the limits |
| `MemoryDocument.RenderIsInjective` | packages/memory/src/store.rs:220-248 | different valid documents print differently |
| `MemoryStore.ChangeDocument` | packages/memory/src/store.rs:319-382 | the editing loop applies the whole batch to a copy or reports the first error |
| `MemoryStore.OperationUpdatesOneText` | packages/memory/src/store.rs:336-377 | read as a map from ids to texts, an accepted operation updates exactly one id, and a repeated text adds nothing |
| `MemoryStore.OperationSucceedsIff` | packages/memory/src/store.rs:336-377 | when each operation goes through |
| `MemoryStore.AddDoes` | packages/memory/src/store.rs:337-351 | a new text goes last under the next id with its time and author; a repeated one changes nothing |
| `MemoryStore.ReplaceDoes` | packages/memory/src/store.rs:352-367 | a changed entry keeps place, id and creation time and takes the new author and a time no earlier; the others stay |
| `MemoryStore.RemoveDoes` | packages/memory/src/store.rs:368-376 | a removal leaves the other entries in order |
| `MemoryStore.BatchIsChain` | packages/memory/src/store.rs:336-377 | a batch is its operations one after the other |
| `MemoryStore.ChangedIff` | packages/memory/src/store.rs:319-382 | a batch goes through if and only if it was made for this document, is of 1 to 16 possible operations by a proper author, and leaves a document within every limit |
| `MemoryStore.SnapshotShows` | packages/memory/src/store.rs:309-318 | a snapshot shows the entries, their size, the printed document and its digest |
| `MemoryStore.ChangedIsStorable` | packages/memory/src/store.rs:319-382 | a batch that goes through leaves a document that re-parses to itself and takes only fresh ids |
| `MemoryStore.SecondBatchConflicts` | packages/memory/src/store.rs:320-325 | of two batches against one revision the second conflicts once the first altered the document |
| `MemoryStore.InMemoryStore.Read` | packages/memory/src/store.rs:544-550 | reading shows the document and its revision |
| `MemoryStore.InMemoryStore.Apply` | packages/memory/src/store.rs:551-564 | the stored document becomes the changed one or stays as it was |
| `MemoryStore.FileStore.Load` | packages/memory/src/store.rs:462-479 | a missing file is empty memory; anything else must parse |
| `MemoryStore.LoadedIff` | packages/memory/src/store.rs:462-479 | a file loads if and only if it is missing or the printed form of a valid document; one that is too large is refused as such |
| `MemoryStore.FileStore.Persist` | packages/memory/src/store.rs:503-518 | the file is replaced exactly when neither the write fails nor cancellation comes first, and then loads as the new document |
| `MemoryStore.FileStore.Apply` | packages/memory/src/store.rs:491-520 | the report is the first thing that goes wrong, else success; an error over a changed file occurs if and only if the final sync of a real change fails, and the file then holds the whole batch |
| `MemoryStore.SyncFailureStoresAnyway` | packages/memory/src/store.rs:507-518 | a call for which that happens: a first entry is reported as an I/O error and is stored |
| `MemoryStore.IdsAreNeverReused` | packages/memory/src/store.rs:337-376 | along any history every document re-parses to itself and a removed id never comes back |
| `TaskBudget.TaskTree.Branch` | packages/api/src/run.rs:90-101 | a new branch starts empty under its parent |
| `TaskBudget.TaskTree.Check` | packages/api/src/run.rs:111-134 | a check passes exactly when no branch on the path is stopped or over the reported-token limit |
| `TaskBudget.TaskTree.ReserveModelCall` | packages/api/src/run.rs:149-168 | a grant is given exactly when every branch on the path is open and the root is below its quota, and is counted on the whole path or nowhere |
| `TaskBudget.TaskTree.RecordAttempt` | packages/api/src/run.rs:176-212 | a report reaches the branch and every ancestor and nothing else |
| `TaskBudget.SaturationCommutes` | packages/api/src/run.rs:176-207 | saturating at every report or once at the end gives the same totals |
| `TaskBudget.StepKeepsInv` | packages/api/src/run.rs:138-218 | every atomic step of every call keeps each counter equal to what has reached it |
| `TaskBudget.NothingIsInvented` | packages/api/src/run.rs:138-218 | in every interleaving the reports on a branch are exactly those callers made on it, and no more calls are granted on it than were asked for there |
| `TaskBudget.Run` | packages/api/src/run.rs:138-218 | in every interleaving the balance of every branch and the root quota hold |
| `TaskBudget.AccountingAgrees` | packages/api/src/run.rs:231-234 | at every step each branch’s input and output are the saturated sums of the input and output of all reports that have reached it, and `reported_tokens` is their saturating sum |
| `TaskBudget.CallsAddUp` | packages/api/src/run.rs:149-168 | when no call is in flight a branch’s calls are its direct reservations plus its children’s calls |
| `TaskBudget.TokensAddUp` | packages/api/src/run.rs:200-211 | when no call is in flight a branch’s tokens, input and output are each everything of that kind reported on it or below, saturated once |
| `TaskBudget.BegunLaterIsLate` | packages/api/src/run.rs:122-168 | in every interleaving, a reservation that begins after the root has reached the reported-token limit is late |
| `TaskBudget.BreakerStaysOpen` | packages/api/src/run.rs:122-168 | in every interleaving no late reservation can ever be granted, so after the limit is reached the root’s calls grow by at most the early reservations then in flight |
| `Terminal.Output.Extend` | apps/server/src/terminal.rs:170-183 | the buffer stays bytes start to end of the whole stream and at most one mebibyte |
| `Terminal.Output.Exit` | apps/server/src/terminal.rs:185-189 | the exit is recorded with its status and the stream is complete |
| `Terminal.Output.Read` | apps/server/src/terminal.rs:194-215 | a page is the stretch of the stream from the cursor or the oldest kept byte |
| `Terminal.ReadRefusedIff` | apps/server/src/terminal.rs:194-198 | a read is refused if and only if its cursor is ahead of the stream |
| `Terminal.ReaderSeesTheStream` | apps/server/src/terminal.rs:194-215 | a client following `next` has the stream minus exactly the flagged gaps; an exited page means it reached the end |
| `Terminal.ExitIsReached` | apps/server/src/terminal.rs:194-215 | after the exit sixteen polls always reach the end |
| `Terminal.Input.Send` | apps/server/src/terminal.rs:216-251 | one request is written, repeated without effect, or refused, as its sequence number says |
| `Terminal.AcknowledgedIff` | apps/server/src/terminal.rs:216-251 | a request is acknowledged if and only if it is well-formed, the terminal is up, no write failed, and it repeats the last write or is the next and succeeds |
| `Terminal.WrittenInTurn` | apps/server/src/terminal.rs:224-250 | everything written came from the request of that number made when it was next: nothing twice, nothing out of turn |
| `Terminal.WritesOnlyGrow` | apps/server/src/terminal.rs:224-250 | the writer only ever gets more data, and nothing after a fault |
| `Terminal.AcknowledgedOnce` | apps/server/src/terminal.rs:231-249 | acknowledged data stands once, in its sequence place, for good; refused data never reached the writer |
| `Gateway.EvaluationGateway.Survey` | eval-harness/harness/gateway.py:78-81 | the pass over the records finds unknown usage and the known total |
| `Gateway.EvaluationGateway.Admit` | eval-harness/harness/gateway.py:70-90 | a call is admitted or the gateway is latched with the reason |
| `Gateway.EvaluationGateway.Settle` | eval-harness/harness/gateway.py:221-229 | settling a call records its tokens and latches the gateway above the limit |
| `Gateway.AdmittedIff` | eval-harness/harness/gateway.py:70-90 | in every interleaving a call is admitted if and only if nothing has latched the gateway, calls are left, every finished call reported usage, and the total is below the limit |
| `Gateway.RunBounds` | eval-harness/harness/gateway.py:74-76 | in every interleaving admitted calls never exceed the limit |
| `Gateway.ClosedStaysClosed` | eval-harness/harness/gateway.py:73-84 | once blocked, or once a finished call has unknown usage, nothing is admitted again |
| `Gateway.OvershootIsInFlight` | eval-harness/harness/gateway.py:81-88 | the final total is below the token limit plus the tokens of the calls unfinished right after the last admission |
| `Instructions.CollectScopes` | packages/instructions/src/lib.rs:171-184 | the scopes are the root and every ancestor of every directory, at most 128 |
| `Instructions.ChoiceIs` | packages/instructions/src/lib.rs:188-240 | in a scope the first of the two file names that exists decides, and must be a readable regular file |
| `Instructions.LoadIs` | packages/instructions/src/lib.rs:188-248 | loading succeeds exactly when every scope is regular and all files together stay within 64 KiB, and delivers one record per file in scope order |
| `Instructions.LoadRules` | packages/instructions/src/lib.rs:166-263 | the loading loop reads each scope once and fails on the first irregular or oversized file |
| `Instructions.LoadedIsChosen` | packages/instructions/src/lib.rs:188-248 | the fingerprints hold exactly the chosen file and hash of every scope |
| `Instructions.AddMessages` | packages/instructions/src/lib.rs:145-165 | paths named by calls add their directories, at most 64 |
| `Instructions.RefreshCovers` | packages/instructions/src/lib.rs:297-335 | after a refresh the directory of every path in the messages, and once of every path in the history, is recorded |
| `Instructions.ProjectInstructions.State` | packages/instructions/src/lib.rs:62-77 | a run gets its own rules, created empty, up to the run limit |
| `Instructions.ProjectInstructions.CommitSources` | packages/instructions/src/lib.rs:316-329 | the commit of a refresh replaces the record of the run by the one it built |
| `Instructions.ProjectInstructions.Sources` | packages/instructions/src/lib.rs:297-335 | a refresh that nothing overlaps delivers what applies or changes nothing |
| `Instructions.ProjectInstructions.CommitCheck` | packages/instructions/src/lib.rs:360-371 | the commit of a check adds its directories to whatever is recorded by then and judges the call |
| `Instructions.ProjectInstructions.Check` | packages/instructions/src/lib.rs:346-373 | a check that nothing overlaps judges the call and remembers its directory even when it refuses |
| `Instructions.SurveyIsFreshIff` | packages/instructions/src/lib.rs:353-361 | what a check loads equals what was delivered if and only if every ancestor scope of its directories shows the delivered file and hash |
| `Instructions.AllowedIffFresh` | packages/instructions/src/lib.rs:361-371 | a side-effecting call is allowed if and only if every ancestor scope of every visited directory shows exactly what was last delivered |
| `Instructions.RefreshUnblocks` | packages/instructions/src/lib.rs:297-373 | after a refusal a successful refresh with unchanged files makes the same call allowed |
| `InstructionRuns.RecordedForGoodIff` | packages/instructions/src/lib.rs:297-371 | a recorded directory survives everything that can follow if and only if every refresh in flight that could still commit began with it recorded |
| `InstructionLimits.CommitStaysWithinIff` | packages/instructions/src/lib.rs:297-371 | whatever the files hold, one commit keeps the record within 64 directories if and only if it is harmless: a refresh unless it began beyond the limit, a check unless what was recorded meanwhile leaves it too little room |
| `InstructionLimits.DrainStaysWithinIff` | packages/instructions/src/lib.rs:297-371 | whatever the files hold and in whatever order the calls in flight commit, the record stays within 64 directories if and only if it, and whatever a refresh in flight may write over it, leaves room for all that the checks in flight hold and may add |
| `InstructionLimits.RunStaysWithinIff` | packages/instructions/src/lib.rs:297-371 | along a run every way of ending the calls in flight stays within the limit if and only if that condition holds each time a call begins |
| `InstructionWedge.OverlapWedgesARun` | packages/instructions/src/lib.rs:346-371 | a run from an empty record with unchanging files: a refresh that finds 63 directories, then two overlapping checks of one more each, leave 65 |
| `InstructionWedge.WedgedIff` | packages/instructions/src/lib.rs:316-371 | a record is beyond the limit for good if and only if it is beyond it now and every refresh in flight that could commit began beyond it |
| `InstructionWedge.WedgedForGood` | packages/instructions/src/lib.rs:365-367 | from then on every check that reaches its commit is an error, whatever happens |
| `InstructionLimits.AloneNeverWedges` | packages/instructions/src/lib.rs:346-371 | while no two calls overlap a run never records more than 64 directories |
| `InstructionSlots.RunsAreIndependent` | packages/instructions/src/lib.rs:62-77 | whatever other runs do, a run that is not finished goes through a run of its own steps, so every result about one run holds among many |
| `InstructionSlots.ComesBackIff` | packages/instructions/src/lib.rs:316-371 | a finished run has a record again, without a new call of its own, if and only if it was not cancelled and a call of it that could commit was still in flight |
| `InstructionSlots.PlacesHoldIff` | packages/instructions/src/lib.rs:62-77 | however calls end and runs are cancelled and finished, no more than 64 runs have a record if and only if those that have one and those a call in flight may still give one are no more than 64 together |
| `InstructionSlots.TidyRunsFit` | packages/instructions/src/lib.rs:62-77 | in every run of the whole, if runs are finished only when none of their calls may still commit, no more than 64 have a record |
| `InstructionSlots.PlacesOverflow` | packages/instructions/src/lib.rs:316-371 | otherwise it can fail: 64 runs, one finished with a check in flight and replaced, leave 65 records |
| `InstructionRuns.DeliveredByARefresh` | packages/instructions/src/lib.rs:297-335 | what is recorded as delivered was loaded by a refresh that committed |
| `InstructionRuns.AllowedIffFreshInRuns` | packages/instructions/src/lib.rs:346-373 | along any run, any edits and any overlap, a side-effecting call goes ahead if and only if it could look up and load what applies, the record stays within the limit, and every ancestor scope of every directory known when it began and of the one it names shows what had been delivered by then, and nothing else had been |
| `InstructionRuns.AllowedCallsAreFresh` | packages/instructions/src/lib.rs:346-373 | in particular the root scope, every scope visited before, and every scope of the directory the call itself names |
| `ModelSettings.ModelManager.Open` | packages/models/src/lib.rs:181-203 | settings open exactly when they load and are valid; nothing stored means empty settings |
| `ModelSettings.ModelManager.Update` | packages/models/src/lib.rs:330-350 | the answer is that of one transaction: stale, refused, exhausted, invalid, not saved, or published one revision later; any error changes nothing |
| `ModelSettings.ModelManager.Upsert` | packages/models/src/lib.rs:352-399 | a bad endpoint is refused, anything else is exactly the transaction of the upserted document |
| `ModelSettings.ModelManager.Delete` | packages/models/src/lib.rs:401-425 | a deletion succeeds whenever it is current, names a provider, has a revision left and is saved; validation never stops it |
| `ModelSettings.ModelManager.SetDefault` | packages/models/src/lib.rs:427-439 | a default is set whenever it is current, names a model, has a revision left and is saved; validation never stops it |
| `ModelSettings.ModelManager.SetVisibility` | packages/models/src/lib.rs:441-468 | models are shown or hidden whenever it is current, names them, has a revision left and is saved; the default stays |
| `ModelSettings.ModelManager.Seed` | packages/models/src/lib.rs:210-252 | only a never-written store takes the normalised initial provider; each refusal has its exact cause |
| `ModelSettings.ModelManager.Adapter` | packages/models/src/lib.rs:576-586 | an adapter is built exactly for offered models whose configuration the factory takes |
| `ModelSettings.ModelManager.Bind` | packages/models/src/lib.rs:572-599 | a binding succeeds if and only if a model is selected, offered and adaptable, and takes a route id not in use |
| `ModelSettings.ModelManager.Unbind` | packages/models/src/lib.rs:697-700 | dropping a binding frees its route and no other |
| `ModelSettings.DeleteStaysValid` | packages/models/src/lib.rs:401-425 | after a deletion the default exists and is enabled, or there is none |
| `ModelSettings.DefaultStaysValid` | packages/models/src/lib.rs:427-439 | an existing model can always become the enabled default |
| `ModelSettings.VisibilityStaysValid` | packages/models/src/lib.rs:441-468 | hiding models never hides the default |
| `ModelSettings.DeleteHidesOne` | packages/models/src/lib.rs:401-425 | after a deletion exactly the other providers show what they showed |
| `ModelSettings.DefaultShowsOne` | packages/models/src/lib.rs:427-439 | choosing a default shows that model and changes no other |
| `ModelSettings.VisibilitySetsNamed` | packages/models/src/lib.rs:441-468 | a visibility change sets exactly the models it names, except that the default stays shown |
| `ModelSettings.KeyStaysWithItsEndpoint` | packages/models/src/lib.rs:355-372 | a key that was not typed is carried over only while endpoint and protocol stay the same |
| `SettingsEffects.UpsertDoes` | packages/models/src/lib.rs:355-397 | the named provider holds the typed key, or none if cleared, or the old one only at its own endpoint and protocol, with the given models, trimmed name and body; every other provider stays, a new one goes last, and the default changes only when there was none |
| `SettingsEffects.UpsertRefusedIff` | packages/models/src/lib.rs:355-372 | the exact causes for refusing an upsert before validation |
| `SettingsEffects.DeleteDoes` | packages/models/src/lib.rs:401-425 | a deletion takes out that provider alone; a default that went with it becomes the first model still shown |
| `SettingsEffects.DefaultDoes` | packages/models/src/lib.rs:427-439 | a default is possible exactly for an existing model, and only shown flags and the default change |
| `SettingsEffects.VisibilityDoes` | packages/models/src/lib.rs:441-468 | a visibility change is possible exactly for what exists, and only shown flags change |
| `SettingsEffects.TransactionIff` | packages/models/src/lib.rs:330-350 | a change goes through if and only if it is current, possible, within the revisions, valid and stored |
| `SettingsEffects.SeedDoes` | packages/models/src/lib.rs:210-252 | an initial provider is stored as given but for its endpoint and options |
| `SettingsEffects.ConfigIsItsOwn` | packages/models/src/lib.rs:311-323 | an offered model runs with the endpoint, key and options of its own provider |
| `SettingsEffects.TrimIs` | packages/models/src/lib.rs:639-641 | trimming takes blanks off both ends and nothing else |
| `ModelSettings.RouteIdsDiffer` | packages/models/src/lib.rs:589-593 | routes with different numbers never share an id |
| `ModelSettings.RouteIsForGood` | packages/models/src/lib.rs:566-599 | a route means the same selection for as long as it exists, and a dropped id never comes back for another |

## Left out

- Compaction.Compactor.Compact: one call alone; what other calls do to the cache while the model is asked is
  `CacheRuns`, where calls of one run may overlap too.
- Compaction.Compactor.Publish: the deadline check and the cancellation check made before capture share one flag.
- Summaries.Summarize: the rendering of a group into text and the wording of the request are abstract functions.
- Instructions.ProjectInstructions.Check: the call alone; overlapping calls of a run are `InstructionRuns`, where the
  files a call reads are those of one moment.
- Instructions.ProjectInstructions.Sources: resolving a path argument to a directory inside the project is abstract.
- TaskBudget.TaskTree.Check: the class is for a caller alone; concurrent calls are the step machine, where a check may
  read each counter at any moment since its call began. Timing, cache and context statistics are not modelled.
- MemoryStore.FileStore.Apply: locking, link checks and permissions are one lock parameter; timestamps are unbounded.
- ModelSettings.ModelManager.Bind: the route counter does not wrap around, and the adapter is the record it is built from.
- RunRegistry.Subscription.PollOnce: the suspended wait itself is a step of `Replication`, as is the wake-up.
- Sequence numbers, revisions and pruned-item counters do not wrap around at 64 bits.
- The channel is more general than the source's broadcast channel: any logged event may arrive at any time, again, or
  never.
- Request and run maps of the application service, retention sweeps, steering input and shutdown: bookkeeping without
  further laws.
- The legacy text and preview projections of content, and UI artifact shortening: plain computations.
- HTTP, event streams, desktop and web shells, terminal processes, tool transports: input and output around the core.
- Sessions, planner, engine, spill store and provider adapters are not part of this model.
- Real SHA-256, JSON and encryption: abstract functions, as listed above.
