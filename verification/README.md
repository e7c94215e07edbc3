# Verified models of the DeerFlow application layer

These Dafny modules model the parts of the application whose correctness depends on whole runs
rather than on single calls, and prove what they are for:

* the **inactive-thread cleanup** that several workers run over one SQLite database, together with
  the guards that keep foreground runs, archiving and deletion apart (`Timestamps`,
  `CleanupProtocol`, `CleanupStore`, `ThreadGuards`, `RunAdmission`, `PagedScan`);
* the **streaming pipeline** from LangGraph items to an append-only event stream, to a bracketed
  AG-UI stream, to server-sent events, and to Feishu cards (`StreamClient`, `StreamOnce`,
  `StreamSnapshots`, `StreamProcessor`, `AguiEvents`, `AguiTranslator`, `AguiNotes`, `AguiRun`,
  `AguiSnapshots`, `PipelineCalls`, `Sse`, `AguiResume`, `FeishuCards`, `FeishuRenderer`,
  `FeishuPipeline`);
* the **portable configuration service**: redaction and restoration of secrets, and an
  all-or-nothing save with renaming and archiving of agent directories (`Json`, `Redaction`,
  `AgentTree`, `ConfigSave`);
* the **admin configuration writer**: a compare-and-swap file write, a compensating rollback, and a
  second redaction with structured placeholders (`AdminSecrets`, `AdminConfig`).

`Text` holds what several modules need about strings.

## How the models are built

Code that changes state is a class with the same fields. Its methods are proved equal to functions
on values, and the theorems about runs are about those functions. Every transaction, every stretch
between two awaits and every guarded write is one atomic step; the interleaving theorems range over
all sequences of such steps by any number of jobs, processes, writers or messages.

* *Cleanup.* A step is one `with self._connect()` block. Instants are integers (microseconds);
  `Timestamps` justifies that, because the stored texts are ordered like the instants. Clock
  readings are taken before a transaction begins, as in the code, and may therefore be stale: every
  step that writes an expiry carries its own `reading`. Expiries are `THREAD_CLAIM` and `JOB_LEASE`
  after that reading.
* *AG-UI.* `AguiEvents.Watch` is a client that follows the stream and refuses any event that is out
  of place; it knows nothing about how the stream is produced. The strict client also refuses a
  second start of an open text message. The bracketing theorems say what acceptance means, index by
  index; `AguiRun.EventGenerator` says every connection is accepted. The sets the code iterates over
  in an unspecified order are emptied in an arbitrary order.
* *Pipeline.* The deltas are read off the events by functions that ignore the state
  (`StreamClient.TextSent`, `AguiEvents.TextOf`, `FeishuCards.Received`), and the theorems connect
  them.
* *Saves.* A file is its text. Each operation on the disk may be the one that fails.

## Where the code is not what one might expect

Each of these is stated twice: with a concrete input, and with the exact condition under which it
happens, for all inputs.

* A lead message whose identifier is that of an open subagent message is started a second time.
  Input: `AguiRun.LeadMayCollide`. Exactly when: `AguiRun.EventGenerator` (the strict client accepts
  a connection if and only if there is no collision); everything else holds for all inputs.
* A snapshot is compared with the last one by its joined identifiers only, so a message rewritten
  under its identifier is not shown. Input: `AguiSnapshots.RewriteIsDropped`, and
  `AguiSnapshots.JoinedIdsCollide` for a list of other identifiers. Exactly when:
  `AguiSnapshots.ClientShowsRunStart` (a client shows the first of the latest states with one
  signature).
* `_reasoning_delta` guesses whether its input is cumulative. Input:
  `AguiTranslator.RepeatedReasoningIsLost`. Exactly when: `AguiTranslator.IncrementalReasoning` and,
  for the whole pipeline, `StreamProcessor.PipelineDelivers` (some piece begins with all the
  reasoning before it).
* A resumed connection knows nothing of the reasoning and the calls before the break: cumulative
  reasoning is sent again, and a call that is open at the break gets neither arguments nor an end.
  Inputs: `AguiResume.ReasoningIsSentAgain`, `AguiResume.CallIsCutOff`. Exactly when:
  `AguiResume.ResumedReasoning`, `AguiResume.ResumedCall`. Text and subagents' thoughts always join
  (`Sse.ResumedText`, `AguiResume.ResumedThoughts`).
* A job that lost its lease still claims threads. Input: `CleanupProtocol.DisplacedJobStillClaims`.
  Exactly when: `CleanupProtocol.OwnerClaimsStep` and `CleanupProtocol.OnlyOwnerClaimsExactly` (a job
  claims without the lease, or gives the lease back while it holds claims).
* A claimed row that anyone else forgets, for example a manual deletion in another process, lets a
  run in while the first process is still deleting. Input: `RunAdmission.ManualDeletionLetsRunIn`.
  Exactly when: `CleanupProtocol.TouchAcceptedExactly` and `RunAdmission.RunAdmittedExactly`.
* Two agents that name the same original directory can be saved without an error and leave one of
  them without a directory. Input: `AgentTree.SharedOriginalLosesAgent`. Exactly when:
  `AgentTree.ReachesExactly` and `ConfigSave.SavedIsExact` (unless the directory is first moved away
  and then named again, in which case `AgentTree.MoverGetsFiles` says who gets its files).
* A rolled-back save restores the text as Python reads it. Input: `ConfigSave.CarriageReturnIsLost`.
  Exactly when: `ConfigSave.RolledBackText`.
* A rolled-back memory update may leave other data than before. Input:
  `AdminConfig.NullMemoryIsReplaced`. Exactly when: `AdminConfig.UndoneExactly` (the memory section
  was present without being an object).
* The admin writer can overwrite the update of a writer that does not use its guard. Input:
  `AdminConfig.GuardIsNotEnough`. Exactly when: `AdminConfig.GuardedLosesExactly`.
* The admin round trip turns an empty secret into no value and takes look-alikes of placeholders for
  placeholders. Input: `AdminSecrets.EmptySecretIsLost`. Exactly when:
  `AdminSecrets.RoundTripExactly`.

## Model

| member | source | states |
|---|---|---|
| Timestamps.TextDecidesTime | app/thread_cleanup.py:35-36 | for all UTC instants of the years 1 to 9999, one text is byte-wise smaller than another exactly if its instant is earlier, although whole seconds are written without a fraction |
| Timestamps.FieldsOrderInstants | app/thread_cleanup.py:31-36 | instants of the proleptic Gregorian calendar are ordered like their fields from year to microsecond |
| CleanupStore.ThreadCleanupStore.TouchThread | app/thread_cleanup.py:188-225 | refuses exactly an unexpired (or never expiring) claim; otherwise inserts or refreshes the row and clears its claim, as the transaction `Touch` |
| CleanupStore.ThreadCleanupStore.ForgetThread | app/thread_cleanup.py:231-233 | removes the row and nothing else |
| CleanupStore.ThreadCleanupStore.BackfillActivity | app/thread_cleanup.py:248-321 | indexes the next batch of unindexed checkpointed threads behind the cursor, in order and at most the limit, moves the cursor to the last of them, and is complete exactly when there are none; no checkpointed thread is passed over |
| CleanupStore.ThreadCleanupStore.ClaimThread | app/thread_cleanup.py:466-498 | claims exactly an unprotected row older than the cutoff with no unexpired claim, without looking at the lease |
| CleanupStore.ThreadCleanupStore.RenewThreadClaim | app/thread_cleanup.py:511-527 | moves the expiry of the job's own claim only |
| CleanupStore.ThreadCleanupStore.ReleaseThreadClaim | app/thread_cleanup.py:500-508 | clears the job's own claim only |
| CleanupStore.ThreadCleanupStore.AcquireJobLease | app/thread_cleanup.py:529-583 | takes a free lease, abandons the previous owner's open run record, clears its claims and all expired ones |
| CleanupStore.ThreadCleanupStore.RenewJobLease | app/thread_cleanup.py:585-601 | renews only the owner's lease |
| CleanupStore.ThreadCleanupStore.ReleaseJobLease | app/thread_cleanup.py:603-608 | deletes only the owner's lease |
| CleanupStore.ThreadCleanupStore.UpdateRun | app/thread_cleanup.py:667-683 | overwrites the job's run record unless it is abandoned |
| CleanupProtocol.ClaimedRowsAreInactive | app/thread_cleanup.py:466-498 | in every interleaving of all transactions, a row claimed by a job is unprotected and last active before that job's cutoff |
| CleanupProtocol.TouchOutcome | app/thread_cleanup.py:188-225 | a touch is refused exactly under an unexpired claim and then changes nothing; an accepted one leaves the thread indexed, unclaimed, as protected as before, never less recent, and all else unchanged |
| CleanupProtocol.UndatedIsNeverClaimed | app/thread_cleanup.py:294-301 | in every run, a thread whose timestamp could not be read stays protected and unclaimed from its backfill until someone forgets it |
| CleanupProtocol.UnexpiredLeaseIsKept | app/thread_cleanup.py:529-608 | no step of anybody takes an unexpired lease from its owner, except the owner's own release |
| CleanupProtocol.LeaseIsHeld | app/thread_cleanup.py:685-709 | a job whose renewals come within the lease time owns the lease in every state until it releases it |
| CleanupProtocol.OwnershipIsOneInterval | app/thread_cleanup.py:733-749 | a job acquires once; after it lost or released the lease it never owns it again |
| CleanupProtocol.LostLeaseStaysPowerless | app/thread_cleanup.py:585-608 | in every run, after a job lost or released its lease, all its later renewals and releases leave the database as it is |
| CleanupProtocol.TakeoverClearsPreviousOwner | app/thread_cleanup.py:542-583 | after a takeover no row is claimed by the previous owner and no claim has expired, all other claims stand, and the previous owner's open run record is abandoned |
| CleanupProtocol.AbandonedIsFinal | app/thread_cleanup.py:667-683 | an abandoned run record never changes again, in any run |
| CleanupProtocol.OwnerClaimsStep | app/thread_cleanup.py:466-498 | if only the lease owner holds claims, this remains so after a step if and only if the step neither claims a claimable thread for another job nor gives the lease back while something is claimed |
| CleanupProtocol.OnlyOwnerClaimsExactly | app/thread_cleanup.py:466-608 | over every run, only the lease owner ever holds claims if and only if no step of the run does either |
| CleanupProtocol.DisplacedJobStillClaims | app/thread_cleanup.py:466-498 | a database and a job that claims a thread after its lease was taken over |
| CleanupProtocol.ClaimStands | app/thread_cleanup.py:511-527 | while a job renews lease and claim on time, its claim stands and every touch of the thread is refused, from the claim to the end of the deletion |
| CleanupProtocol.TouchAcceptedExactly | app/thread_cleanup.py:188-233 | during a deletion with timely renewals, and unless the thread is claimed anew, a touch is accepted if and only if someone has forgotten the row since the claim |
| ThreadGuards.ThreadGuardSet.MarkThreadRunning | app/dependencies.py:970-981 | counts a run unless the thread is being deleted or archived, keeping the guards consistent |
| ThreadGuards.ThreadGuardSet.MarkThreadDone | app/dependencies.py:983-990 | takes one run back |
| ThreadGuards.ThreadGuardSet.TryReserveArtifactArchive | app/dependencies.py:992-1003 | reserves a thread that is neither running, nor archived, nor being deleted |
| ThreadGuards.ThreadGuardSet.ReleaseArtifactArchive | app/dependencies.py:1005-1009 | gives the reservation back |
| ThreadGuards.ThreadGuardSet.TryBeginDelete | app/dependencies.py:1044-1049 | admits a deletion of a thread that is neither running nor being deleted |
| ThreadGuards.ThreadGuardSet.FinishDelete | app/dependencies.py:1156-1158 | ends the deletion |
| ThreadGuards.Keeps | app/dependencies.py:970-1009 | every change of the guards keeps counted, archived and deleted threads disjoint and `running` equal to the first two together |
| RunAdmission.GuardsStaySound | app/dependencies.py:970-1013 | in every interleaving, in every process, the guards stay consistent and each count is the number of runs now active on the thread |
| RunAdmission.RunsExcludeDeletionInProcess | app/dependencies.py:1044-1049 | no run is active in a process that deletes or archives its thread |
| RunAdmission.IndexStaysCovering | app/dependencies.py:726-733 | in every run, an unprotected row is never dated earlier than the touch of an unfinished run, up to the stamping delay |
| RunAdmission.ClaimFindsNoRecentRun | app/thread_cleanup.py:466-498 | a successful claim means that every unfinished run on the thread is older than the inactivity period |
| RunAdmission.NoRunDuringCleanupDeletion | app/dependencies.py:726-752 | across processes, no run shorter than the inactivity period is admitted or active on a thread from the claim to the end of its cleanup |
| RunAdmission.RunAdmittedExactly | app/dependencies.py:726-733 | in every run of the system, a run start during a cleanup deletion of its thread is admitted if and only if someone has forgotten the row; otherwise it leaves the system as it was |
| RunAdmission.ManualDeletionLetsRunIn | app/dependencies.py:1149-1158 | a run of the system in which another process's manual deletion lets a run become active during a cleanup deletion |
| PagedScan.CandidateRows | app/thread_cleanup.py:323-358 | returns the first rows, by last activity and then identifier, of the eligible rows beyond the cursor |
| PagedScan.OrderIsSorted | app/thread_cleanup.py:345-356 | the order of a query lists each row of a set once, in strictly increasing order |
| PagedScan.SortedUnique | app/thread_cleanup.py:345-356 | that order is the only one |
| PagedScan.PageContinues | app/thread_cleanup.py:847-859 | although visited rows may have disappeared and claims may have expired, the next query from the cursor finds exactly how the scan goes on: all rows still to come, and newly eligible ones in their place |
| PagedScan.ProcessCandidate | app/thread_cleanup.py:882-944 | a busy thread or a dry run leaves the row; otherwise the claimed row is forgotten or released |
| PagedScan.ExecuteRun | app/thread_cleanup.py:820-971 | on any database, the paged loop refines the simple scan of an ordered plan that holds all rows eligible from the start and only rows eligible by the end: it visits a prefix, each row once, exactly as far as the simple scan unless stopped; deletions stay within the limit; the counters are what happened to the visited rows and never exceed the scanned ones; when exhausted, the whole plan was visited and counted |
| PagedScan.PlanIsFixed | app/thread_cleanup.py:345-356 | if no claim expires during the scan, the plan is the eligible rows in order |
| StreamClient.DeltasAddUp | deerflow/client.py:1054-1062 | for every run and every identified message, the text and reasoning deltas sent concatenate to what the state remembers |
| StreamClient.OnlyAppends | deerflow/client.py:1103-1119 | later items only append to the events and to the text of every message |
| StreamSnapshots.SnapshotCatchesUp | deerflow/client.py:1082-1119 | for every checkpoint, run, snapshot and identified message: after the snapshot the text sent is extended by what the snapshot holds of the message whenever that goes beyond it, and else unchanged; messages the run takes no notice of stay as they are |
| StreamSnapshots.SnapshotEqualsText | deerflow/client.py:1103-1117 | a noticed message whose snapshot text extends what was sent has exactly that text afterwards |
| StreamSnapshots.SkippedExactly | deerflow/client.py:1087-1090 | a snapshot passes an AI message over if and only if the checkpoint holds it, or it was first shown as something else, and the run has not streamed it |
| StreamOnce.CallsOnce | deerflow/client.py:1120-1129 | over any run, the call keys sent for an identified message are pairwise different and are exactly those remembered |
| StreamSnapshots.CallsAreSent | deerflow/client.py:1120-1129 | no call of a noticed message that a snapshot shows is left out |
| StreamOnce.UsageOnce | deerflow/client.py:985-1007 | the final usage is the sum of the first usage of every identified message and of every unidentified one |
| StreamSnapshots.UsageFromItems | deerflow/client.py:985-1007 | told from the checkpoint and the items alone, the final usage is the sum of the first usage of every identified message that counts and of every unidentified one; all AI chunks count, and the AI messages of snapshots that are not passed over |
| StreamOnce.HistoryIsNotReplayed | deerflow/client.py:783-816 | a message of the checkpoint is mentioned by a run if and only if the run streams a chunk of it anew |
| StreamProcessor.Processor.constructor | deerflow/client.py:783-816 | the seeded state: exactly the non-empty identifiers of the checkpoint are seen |
| StreamProcessor.Processor.AccountUsage | deerflow/client.py:985-1007 | counts a usage unless it is empty or its message was counted |
| StreamProcessor.Processor.EventsFromStreamItem | deerflow/client.py:1009-1150 | one item changes the dictionaries and emits events exactly as the value-level step that the run theorems are about |
| StreamProcessor.Stream | deerflow/client.py:1418-1445 | a whole run: the events of all items, the recursion notice if the limit was hit, and the end event with the totals |
| StreamProcessor.Chat | deerflow/client.py:1517-1526 | answers the concatenated deltas of the message whose text came last |
| StreamProcessor.StreamedSends | deerflow/client.py:1437-1445 | notice and end event add nothing to the messages of the run |
| StreamProcessor.PipelineDelivers | app/routers/chat.py:635-665 | end to end, the AG-UI text of a message is the text the client's state remembers; the reasoning is, too, exactly unless a delta begins with all the reasoning before it |
| PipelineCalls.CallsStart | app/routers/chat.py:814-826 | end to end, a call is started once and then ended once at an AG-UI client if the run sent it, and is never started otherwise |
| PipelineCalls.ShownCallStarts | deerflow/client.py:1120-1129 | every identified call of a noticed message that some snapshot of the run shows is started and ended once at an AG-UI client, whatever the run does later |
| StreamProcessor.ChatAgrees | deerflow/client.py:1517-1526 | what `chat` answers is what an AG-UI client shows for the same message |
| AguiEvents.MessagesAreBracketed | app/routers/chat.py:641-665 | in an accepted stream, every content and end of a text or reasoning message comes after a start of it that has not ended |
| AguiEvents.MessagesAreEnded | app/routers/chat.py:347-363 | in a finished stream, every message started is ended afterwards |
| AguiEvents.OneLeadText | app/routers/chat.py:658-664 | at no point are two lead text messages open |
| AguiEvents.ToolsOnce | app/routers/chat.py:814-826 | a tool call is started at most once and ended at most once |
| AguiEvents.ArgsBeforeEnd | app/routers/chat.py:673-676 | the arguments of a tool call come immediately before its end and nowhere else |
| AguiEvents.ToolsAreEnded | app/routers/chat.py:347-350 | in a finished stream, every tool call started is ended afterwards |
| AguiEvents.StrictIsLenient | app/routers/chat.py:658-664 | a stream the strict client accepts is accepted by the lenient one, with the same view |
| AguiTranslator.Connection.NextReasoningDelta | app/routers/chat.py:458-465 | returns the delta and stores the new text |
| AguiTranslator.Connection.ToolCallsToAgui | app/routers/chat.py:800-827 | starts each new call once and keeps the latest arguments of all |
| AguiTranslator.Connection.AiToAgui | app/routers/chat.py:623-667 | closes, starts and fills reasoning, text and calls as the events of the entry |
| AguiTranslator.Connection.ToolMessageToAgui | app/routers/chat.py:669-684 | ends an open call with its latest arguments and reports the result |
| AguiTranslator.Connection.SubTokenToAgui | app/routers/chat.py:740-758 | ends the subagent's reasoning, starts its text once, adds the token |
| AguiTranslator.Connection.SubThinkingToAgui | app/routers/chat.py:761-777 | starts the subagent's reasoning once, adds the thought |
| AguiTranslator.Connection.SubTerminalToAgui | app/routers/chat.py:780-797 | ends what the subagent has open |
| AguiTranslator.Connection.SubToolCallToAgui | app/routers/chat.py:830-843 | starts the call under the subagent's name space |
| AguiTranslator.Connection.SubToolResultToAgui | app/routers/chat.py:846-868 | ends the subagent's call with its arguments and reports the result |
| AguiTranslator.Connection.StreamEventToAgui | app/routers/chat.py:511-612 | the events of one entry, whatever its kind |
| AguiTranslator.Connection.TrackEvent | app/routers/chat.py:314-344 | keeps the loop's own sets and the last snapshot in step with what a client holds open |
| AguiTranslator.Connection.OnEntry | app/routers/chat.py:284-346 | one turn of the loop: a client holding the open messages and calls accepts the events, receives exactly the entry's text and reasoning delta, and the latest arguments; the sets then again are what the client holds open |
| AguiTranslator.EntryRenders | app/routers/chat.py:511-612 | for every entry and state, the client accepts its events, ends up with the stated open messages, and receives exactly its text; the strict client does too unless a lead message takes an open subagent's identifier |
| AguiTranslator.DeduplicatedRenders | app/routers/chat.py:315-319 | dropping a repeated snapshot changes none of this |
| AguiTranslator.CumulativeReasoning | app/routers/chat.py:458-465 | if each reasoning text extends the one before, the deltas concatenate to the last one |
| AguiTranslator.IncrementalReasoning | app/routers/chat.py:458-465 | the deltas concatenate to all texts in order if and only if no text begins with all the non-empty text before it; otherwise some text is lost |
| AguiTranslator.RepeatedReasoningIsLost | app/routers/chat.py:458-465 | two pieces of reasoning of which a letter is lost |
| AguiNotes.EntryNotesSent | app/routers/chat.py:511-612 | each entry is translated to exactly its tool results, snapshot with all its messages and custom events with their values, once and in order, whatever is open |
| AguiNotes.EmitsNotes | app/routers/chat.py:314-344 | what is emitted leaves out a snapshot exactly if its joined identifiers are those of the last snapshot, whatever else it holds, and nothing else |
| AguiRun.EventGenerator | app/routers/chat.py:252-381 | for every sequence of entries, whether the subscription ends or raises and however the run ended: the stream is well bracketed and finished by RUN_FINISHED or RUN_ERROR, starts exactly the calls the entries carry, delivers exactly the entries' text, the folded reasoning of messages and all thoughts of subagents, carries the latest arguments, relays results, snapshots and custom events in order except snapshots with the identifiers of the one before, and its frames are tagged entry by entry, at each of which all this holds of what was sent so far; it is strictly bracketed if and only if no collision occurs |
| AguiRun.StartedAreCalls | app/routers/chat.py:814-826 | after any entries, the calls ever started are exactly those the entries carry |
| AguiSnapshots.ClientShowsRunStart | app/routers/chat.py:315-319 | a client always shows the first of the latest states with one signature, so it shows the latest state if and only if the two are equal |
| AguiSnapshots.RewriteIsDropped | app/routers/chat.py:315-319 | two values entries, the second rewriting a message under its identifier, after which the client shows the first |
| AguiSnapshots.JoinedIdsCollide | app/routers/chat.py:316-316 | two values entries with different identifiers that join to the same text, after which the client shows the first |
| AguiRun.Finish | app/routers/chat.py:347-381 | both closing sequences end everything that is open, and then the run |
| AguiRun.StateIsFold | app/routers/chat.py:458-465 | the stored reasoning of a message is the fold of the reasoning texts received for it |
| AguiRun.PlainIdsDoNotCollide | app/routers/chat.py:320-325 | collisions need a lead message named like a subagent's |
| AguiRun.LeadMayCollide | app/routers/chat.py:320-325 | two entries with a collision |
| Sse.ReadBack | app/routers/chat.py:417-423 | a reader written after section 9.2.6 of the WHATWG HTML standard gets back exactly the JSON payloads in order, given payloads without line breaks and identifiers without NUL |
| Sse.ReadPrefix | app/routers/chat.py:417-423 | wherever the transmission breaks off, a number of whole frames was received, and the last event ID is that of the last of them with one |
| Sse.ResumePoint | app/routers/chat.py:345-346 | a client holds the identifier of an entry if and only if it has every frame of that entry and not every frame of a later one that carries an identifier |
| AguiResume.ResumedReasoning | app/routers/chat.py:225-243 | the reasoning of a message that a client kept up to an entry's identifier and that of a connection resumed with it join to the run's if and only if nothing was kept, or no later reasoning begins with all that was delivered before it or with all that was delivered since the break |
| AguiResume.ResumedThoughts | app/routers/chat.py:761-777 | the kept and resumed thoughts of a subagent always join to all its thoughts |
| AguiResume.ResumedCall | app/routers/chat.py:225-232 | a call started before the break is ended, before or after it, if and only if it was not open at the break or the entries after the break carry it again |
| AguiResume.ReasoningIsSentAgain | app/routers/chat.py:240-243 | two entries whose cumulative reasoning is sent again after a break between them |
| AguiResume.CallIsCutOff | app/routers/chat.py:669-684 | a call and its result, between which a break leaves the call without an end |
| Sse.ResumedText | app/routers/chat.py:252-346 | the text a client kept up to an entry's identifier, followed by the text of a connection resumed with it, is exactly the run's text |
| FeishuCards.StepKeeps | app/channels/feishu.py:976-1036 | every step of the loop, of a worker or of a sending task keeps the invariant: prefixes, live workers, one card each |
| FeishuCards.CardsAreSeparate | app/channels/feishu.py:976-1036 | at every point of every interleaving, no two messages share a card, the patches of a card are ever longer prefixes of its message's text, and pending text that is not the last patched has a live worker |
| FeishuCards.FullTextShown | app/channels/feishu.py:1117-1126 | after the drain, the last patch of every message's card is its full text, unless no card could be sent |
| FeishuCards.TurnsRunOut | app/channels/feishu.py:1008-1021 | after the end of the stream, every turn of a worker whose card is decided brings it closer to its end |
| FeishuCards.TextIsReceived | app/channels/feishu.py:1104-1108 | a message's text is the concatenation of its deltas |
| FeishuRenderer.Renderer.EnsureCardForMessage | app/channels/feishu.py:976-987 | binds the initial card once, or sends a new one, for a message without a card |
| FeishuRenderer.Renderer.SchedulePatch | app/channels/feishu.py:1032-1036 | replaces the pending content and starts a worker if none is live |
| FeishuRenderer.Renderer.PatchMessageCard | app/channels/feishu.py:989-1006 | waits for, binds or gives up the card, and patches it |
| FeishuRenderer.Renderer.RunPatchWorker | app/channels/feishu.py:1008-1021 | a worker's turn between two awaits |
| FeishuRenderer.Renderer.OnDelta | app/channels/feishu.py:1104-1112 | one delta in the event loop |
| FeishuRenderer.Renderer.OnEnd | app/channels/feishu.py:1117-1120 | schedules every full text |
| FeishuPipeline.CardShowsRun | app/channels/feishu.py:1088-1126 | end to end, in every interleaving, the card finally shows the text that the run's state remembers |
| Redaction.RoundTrip | deerflow/config_tool.py:338-367 | restoring a redacted tree against the original gives the original, for every tree |
| Redaction.RevealsNothing | deerflow/config_tool.py:338-349 | two trees look the same after redaction if and only if they differ in hidden values only |
| Redaction.RestoredAt | deerflow/config_tool.py:352-367 | at every position of an edited tree, a sentinel becomes the value the original has there and stays if it has none; every other value stays as sent |
| Redaction.LeftoversExactly | deerflow/config_tool.py:370-377 | a sentinel is left if and only if one stands where the sentinel-free original has no value |
| Redaction.OrderIsIrrelevant | deerflow/config_tool.py:380-389 | uniquely named items are restored alike from existing items in any order |
| Redaction.NamedRoundTrip | deerflow/config_tool.py:380-389 | any selection of redacted items, in any order, is restored whole, item by name |
| AdminSecrets.RoundTripExactly | app/routers/admin.py:596-613 | what is shown and sent back unedited is restored if and only if it is plain: no empty secret, no look-alike of the placeholders for no value or an environment variable |
| AdminSecrets.SecretRoundTrip | app/routers/admin.py:805-834 | a single secret comes back as it was, except that an empty one becomes no value |
| AdminSecrets.EmptySecretIsLost | app/routers/admin.py:596-598 | an empty password that comes back as no value |
| AdminSecrets.PlaceholderWords | app/routers/admin.py:583-593 | the keys of the placeholders are not secret themselves |
| AdminSecrets.LooksKept | app/routers/admin.py:805-823 | redaction neither makes nor hides an object that looks like a placeholder |
| AgentTree.ValidatedAgents | deerflow/config_tool.py:701-725 | accepts exactly lists whose names are valid and differ in more than letter case, whose models are configured and whose settings are accepted |
| AgentTree.PreCheck | deerflow/config_tool.py:916-925 | accepts exactly if no agent takes a directory that is not its own |
| AgentTree.LoopReaches | deerflow/config_tool.py:968-980 | with the checks passed, no plain file in the way and shared directories compatible, the loop never fails, every agent has its directory with its own settings over the files it came for, and every other entry is untouched |
| AgentTree.ReachesExactly | deerflow/config_tool.py:968-980 | with the checks passed, the loop ends well with a directory for every agent if and only if no plain file is in the way and every shared directory is first moved away and then named again |
| AgentTree.DistinctIsCompatible | deerflow/config_tool.py:969-975 | lists in which no directory is named twice are compatible with every tree |
| AgentTree.MoverGetsFiles | deerflow/config_tool.py:971-976 | of two agents from one directory, the one that moves it away gets its files and the one that keeps its name starts afresh |
| AgentTree.SaveUpdates | deerflow/config_tool.py:968-986 | afterwards exactly the incoming agents are directories, plain files stay, and the directories nobody came from are archived as they were |
| AgentTree.NothingLost | deerflow/config_tool.py:968-986 | every file of every directory is kept under the directory's new name or archived with it; only the two managed files are replaced |
| AgentTree.UpdatesExactly | deerflow/config_tool.py:968-986 | a loop and archiving that end well update the agents exactly if and only if shared directories are compatible |
| AgentTree.SharedOriginalLosesAgent | deerflow/config_tool.py:971-975 | two agents with the same original for which the loop ends well and one agent has no directory |
| ConfigSave.Store.PlaceAgents | deerflow/config_tool.py:968-980 | if no operation fails, the loop computes `AgentTree.AgentLoop` |
| ConfigSave.Store.ArchiveAll | deerflow/config_tool.py:981-986 | moves exactly the given directories, unchanged, to the archive |
| ConfigSave.Store.RollBack | deerflow/config_tool.py:988-1000 | a rollback that completes restores both texts and the whole tree of agents, from whatever state the failure left |
| ConfigSave.Store.Save | deerflow/config_tool.py:766-1003 | refused exactly on a stale revision or a failed check, then nothing is touched; saved only as computed from the contents it replaced; rolled back to the state before for a failure at any operation; the backup of the agents is complete whenever anything was written |
| ConfigSave.SavedIsExact | deerflow/config_tool.py:962-986 | a save that succeeds updates the agents exactly if and only if directories that agents share are first moved away and then named again |
| ConfigSave.RolledBackText | deerflow/config_tool.py:963-994 | a rollback gives back the same text, and the same bytes if and only if there was no carriage return |
| ConfigSave.CarriageReturnIsLost | deerflow/config_tool.py:963-994 | a file whose line end changes in a rollback |
| AdminConfig.Admin.AtomicWriteConfig | app/routers/admin.py:507-560 | commits exactly if the file is the one the data was loaded from (also right before the replacement), validates and can be written; otherwise leaves it |
| AdminConfig.NoLostUpdate | app/routers/admin.py:507-557 | however loads and commits of any number of writers interleave, the file is what the successful writers make of it one after the other |
| AdminConfig.LosesExactly | app/routers/admin.py:507-557 | a write of any writer, guarded or not, replaces something else than it was made from if and only if the last write since its writer saw the file left something else |
| AdminConfig.GuardedLosesExactly | app/routers/admin.py:541-557 | a guarded write loses an update if and only if an unguarded writer overwrites the file with something else between the last comparison and the replacement |
| AdminConfig.SerialUnlessLost | app/routers/admin.py:507-557 | as long as no write loses an update, the file is what all writers, guarded or not, make of it one after the other |
| AdminConfig.GuardIsNotEnough | app/routers/admin.py:541-557 | a session in which the update of an unguarded writer is lost |
| AdminConfig.UndoneExactly | app/routers/admin.py:1054-1058 | undoing an update touches no other section and restores the data exactly if and only if the memory section was absent or an object |
| AdminConfig.NullMemoryIsReplaced | app/routers/admin.py:853-855 | a memory section that is null comes back as an empty object |
| AdminConfig.Admin.ReloadMemoryWithRollback | app/routers/admin.py:1023-1079 | after a failed reload, only the memory section is changed, only in a file that still holds the candidate; otherwise the file is as the other writers left it, and the reported flags are true |
| AdminConfig.Admin.PersistMemoryAndReload | app/routers/admin.py:1082-1099 | the whole update: done, rejected with the file unchanged, or compensated |

## Left out

* Unfaithful clocks: the shared clock is monotone; only a reading may be older than its transaction.
* `thread_activity.created_at`, `source` and `updated_at`, storage statistics, previews, metrics, the schedule and time zones of the cleanup.
* RunAdmission.NoRunDuringCleanupDeletion: assumes what the protocol itself does not enforce: renewals on time, nobody else forgetting the row (`ManualDeletionLetsRunIn` shows why), and backfilled timestamps not older than an unfinished run's touch.
* PagedScan.ExecuteRun: the scan runs on a database that nobody else changes, except that claims of others expire, with a verdict per thread (busy, deletable, undeletable) fixed for the run; the start-up of a run and the heartbeat task are in `CleanupProtocol`, not here. The body is split into one method per loop.
* The physical deletion of a thread: only its place between the guards and the claim is modelled.
* `ClientManager.shutdown`, which empties the running set but not the counts; the guard invariants are for the time before it.
* `deerflow/client.py`: reasoning that is not a string, the wrapping of content blocks into text, titles and artifacts of values events, and item shapes other than chunk, snapshot and custom.
* `app/routers/chat.py`: agent names on events, run input handling, heartbeat timing, cancellation of the request, and the stream bridge, which delivers any sequence of entries. Exceptions come from the subscription only, between two entries.
* AguiTranslator.Connection.CloseTools: the order in which open calls are ended is arbitrary, as it is in a Python set; so is the order of the closing ends of messages, which the code sorts.
* CleanupProtocol.TouchAcceptedExactly: a thread that another job claims after its row was forgotten and indexed anew is refused or not by that claim.
* Sse.ReadBack: a leading byte order mark and the `event` and `retry` fields, which the printer never writes.
* FeishuCards.FullTextShown: no error entry arrives and no patch call raises; artifacts are not sent; when a patch is due is left open.
* Redaction.OrderIsIrrelevant: names are plain strings; how Python renders other values is a parameter.
* Redaction.RoundTrip: trees have string keys; the comparison of numbers is not modelled.
* AgentTree.ValidatedAgents: which settings `AgentConfig` accepts is a parameter; the settings of an agent are its `config.yaml` text.
* ConfigSave.Store.Save: hashes are injective (a revision is the content it is a hash of), the validation and merging of everything but the agents is a parameter, a directory is its files by relative path, and an operation on the disk either happens or does not; the directory of agents exists, because without it a save fails before anything is written; dry validation is not modelled.
* AgentTree.SaveUpdates: the agents are not covered by the revisions, so nothing else changes them during a save.
* AdminConfig.Admin.AtomicWriteConfig: nobody writes between the last comparison and the replacement (`GuardedLosesExactly` says what happens then); revisions of the memory section here also tell the order of keys apart.
* AdminConfig.NoLostUpdate: all writers use the guard (`SerialUnlessLost` and `GuardedLosesExactly` are about those that do not).
* SQLite, YAML, JSON and pydantic themselves, file locks and fsync, LangGraph, the Feishu SDK, HTTP, `app/artifact_archive.py`, `deerflow/acp/session_cleanup.py` and the `bridge` directory.
