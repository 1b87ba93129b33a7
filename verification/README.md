# Verified models of the local backend

A Dafny 4.11 project that models the hand-written protocols, scanners and transformations of this
repository and proves what they keep. `dafny verify dfyconfig.toml` checks everything.

Each component that changes state in place is a class whose methods are proved against functions or
relations on a value of its state. The properties are then proved about those, over every run or
every interleaving of steps.

| file | component |
|---|---|
| `broker.dfy` | the stream broker: a truncated backlog with cursors that behaves like an append-only log |
| `checkpoint.dfy`, `checkpoint_writes.dfy` | checkpoints that wait for content blobs, supersede each other and owe a terminal action |
| `turn_actor.dfy`, `turn_outcomes.dfy`, `resume_timers.dfy` | the stream actor: when a provider pass starts, resumes or completes the turn; what each command leads to; its resume timers across runs |
| `provider_output.dfy` | what the actor writes of a provider's text, reasoning and tool calls |
| `append_seq.dfy`, `append_tracker.dfy` | the blocking order of appends and its wakeups; lookups and eviction over all objects |
| `codebase_index.dfy`, `index_listener.dfy`, `index_history.dfy` | the index store with its compacted event log, its listeners, and what both hold after any registrations |
| `jsonc.dfy` | the JSONC normaliser: comments, then trailing commas |
| `frames.dfy` | the incremental decoder of Connect streams |
| `log_window.dfy` | the log file that is kept to its last lines |
| `proto_resolve.dfy`, `proto_copy.dfy`, `proto_names.dfy` | the proto extractor: resolving names, copying types until references are closed, and what the printed names denote |
| `account.dfy`, `account_outcomes.dfy`, `account_races.dfy` | the Cursor account manager and its generation guard; what each operation leads to; commits within one generation |
| `local_ca.dfy` | the key and certificate files of the local authority, with crashes |
| `static_i18n.dfy` | compiled message templates and their interpolation |

Some promises do not hold on all inputs. The code is modelled as it is, and the condition under which
the promise holds is proved:

- RunSSE keeps its own cursor from 0 while a subscription starts at the base cursor, so it can send events
  twice exactly if the base was not 0 (`StreamBroker.RunSseSendsOnceIffUntrimmed`). Over OpenStream it keeps
  that cursor, and misses as many events of the new log as it had read of the old one
  (`StreamBroker.ReopenedReaderSkips`, `StreamBroker.ReopenedReaderSendsNewLogIff`).
- A new run starts the timer tokens anew. A checkpoint that is pending then loses its timer
  (`CheckpointSync.NextKeepsLive`), and a timer that is armed then can end a later checkpoint
  (`CheckpointSync.OldTimerCanEndNewerIff`) or start a later pass
  (`ResumeTimers.RunLeavesOldTimersIff`, `ResumeTimers.OldResumeTimerCanActIff`).
- White space alone before a tool call is not written, nor is the text or reasoning behind the last
  call of a pass when it gives no entry (`ProviderOutput.TextIsCompleteIff`,
  `ProviderOutput.ReasoningIsConservedIff`).
- Eviction takes an object out of reach while callers are blocked on it, who may never be served, and two
  objects of one request can both have a ticket out (`AppendTracker.LookupEvictsIff`,
  `AppendTracker.EvictedServesAgainIff`, `AppendTracker.TwoTicketsIff`).
- A printed name can denote another type or none: when copied types share a short name, when a type is
  unknown, when an enum stands above a definition, and when a type nested in the message around the use
  has the name that is printed (`ProtoNames.NamesAreFaithfulIff`, `ProtoNames.NestedNameCaptures`).
- A cancellation can complete the turn instead, when finishing the pending edits consumes a remembered
  completion (`TurnActor.CancelCompletesIff`).
- A payload of more lines than the limit leaves the log too long, and a rewrite that fails half-way
  leaves its counts wrong (`LogWindow.BoundedIff`, `LogWindow.FailedRewriteKeepsCountIff`).
- A registration whose save fails is kept in memory without a wakeup
  (`IndexListener.RegisterStepKeepsInv`), and a listener behind the compaction misses events
  (`IndexListener.ListingLosesNothingIff`).
- Bytes behind an impossible frame length are read differently when cut differently
  (`Frames.ChunkingMattersIff`).
- The end of a failed Disconnect ignores the generation (`Account.OldOperationChangesNothingIff`). Within one
  generation a refresh can undo a login, and a profile lookup can store an address with another account
  (`AccountRaces.RefreshKeepsAccountIff`, `AccountRaces.EmailFitsAccountIff`).
- A template with a placeholder in its own text, or a null argument, shows another text
  (`StaticI18n.TemplateIsFaithfulIff`, `StaticI18n.TemplateRoundTripIff`).

Clocks, network answers, file errors and the choices of a scheduler are parameters of the steps. Text
and bytes are sequences; texts are taken without surrounding blanks where the code trims them.

Class methods that do one thing are tied to a function of the state by their contracts; the table lists
the methods with a loop or several outcomes, and the properties.

## Model

| member | source | states |
|---|---|---|
| `StreamBroker.ActiveStream.constructor` | internal/backend/forwarder/broker.go:32-41 | a non-positive backlog limit becomes 1024 and a new stream is empty |
| `StreamBroker.ActiveStream.Reopen` | internal/backend/forwarder/broker.go:43-105 | opening a known request again empties its backlog and moves the base and every cursor to 0 |
| `StreamBroker.ActiveStream.AcknowledgeCursor` | internal/backend/forwarder/broker.go:239-257 | a cursor moves only forward and never beyond the end; then the backlog is trimmed to the lowest cursor |
| `StreamBroker.ActiveStream.TrimAcknowledgedBacklog` | internal/backend/forwarder/broker.go:259-280 | what all subscribers passed is dropped, and nothing without subscribers |
| `StreamBroker.ActiveStream.Publish` | internal/backend/forwarder/broker.go:407-441 | a message is refused once terminal, an end event never; overflow is dropped from the front only without subscribers; every subscriber is signalled |
| `StreamBroker.ActiveStream.ReadFromCursor` | internal/backend/forwarder/broker.go:444-459 | a read returns the retained events from the cursor, or from the base cursor if that is later |
| `StreamBroker.AcknowledgeRefines` | internal/backend/forwarder/broker.go:239-280 | an acknowledgement that is taken moves the base to the lowest cursor, keeps the backlog equal to the log from there on, and moves no other cursor; any other changes nothing |
| `StreamBroker.AppendRefines` | internal/backend/forwarder/broker.go:407-441 | a publish appends to the log; without subscribers exactly the last events up to the limit are retained, and with subscribers nothing is dropped |
| `StreamBroker.ReadIsLogSuffix` | internal/backend/forwarder/broker.go:444-459 | a read at any cursor is exactly a suffix of the whole log |
| `StreamBroker.NextKeepsInv` | internal/backend/forwarder/broker.go:182-551 | every step of every participant keeps: refinement of the log, one end event at the end, no lost wakeup |
| `StreamBroker.RunKeepsInv` | internal/backend/forwarder/broker.go:182-551 | the same over every interleaving |
| `StreamBroker.EveryRunIsALog` | internal/backend/forwarder/broker.go:43-551 | from a new stream: at every point the backlog is the log from the base on, the log has at most one end event and nothing after it, and a waiting reader with unread events has a signal or one on its way |
| `StreamBroker.BaseMovesExactly` | internal/backend/forwarder/broker.go:43-441 | the base moves only to 0 at OpenStream, to the lowest cursor at an acknowledgement, and past the excess over the limit at a publish without subscribers; the log grows exactly by what is accepted |
| `StreamBroker.RunRetains` | internal/backend/forwarder/broker.go:182-441 | in every run an event is dropped only if some cursor went past it or as many newer ones followed as the limit |
| `StreamBroker.EveryRunRetains` | internal/backend/forwarder/broker.go:182-459 | so from a new stream a read at any later cursor gives the log from there on |
| `StreamBroker.FirstEndCounts` | internal/backend/forwarder/broker.go:462-551 | an open stream takes the status of its first end and an ended one keeps it |
| `StreamBroker.UnreadEndIsReadLast` | internal/backend/forwarder/broker.go:407-459 | whoever has not passed the end event reads it, as the last event, whatever was trimmed |
| `StreamBroker.ReaderReceivesLogSlice` | internal/backend/forwarder/service.go:497-560 | a reader whose own cursor agrees with the broker receives a contiguous slice of the log, without gap or duplicate, whatever others publish, acknowledge or unsubscribe |
| `StreamBroker.FreshReaderInStep` | internal/backend/forwarder/service.go:473-500 | a new reader is in step exactly if it starts at the base cursor |
| `StreamBroker.ReopenedReaderSkips` | internal/backend/forwarder/broker.go:43-105 | a reader that is connected over OpenStream keeps its own cursor: in every run that leaves it alone it sends the rest of its batch and then the new log from that cursor on, so it misses exactly as many first events as it had read of the old log |
| `StreamBroker.ReopenedReaderSendsNewLogIff` | internal/backend/forwarder/broker.go:43-105 | on an open stream it sends the new log from its start in every such run exactly if it had read nothing |
| `StreamBroker.TrimmedStreamIsReachable` | internal/backend/forwarder/broker.go:407-441 | a run after which an open stream has a base beyond 0 |
| `StreamBroker.MovedReaderIsReachable` | internal/backend/forwarder/service.go:473-560 | a run after which a connected reader of an open stream has read something |
| `StreamBroker.RunSseSendsOnceIffUntrimmed` | internal/backend/forwarder/service.go:473-560 | RunSSE starts its own cursor at 0: in every run that leaves its reader alone it sends a contiguous part of the log exactly if the base cursor was 0 when it subscribed; for any other base there is a run in which an event is sent twice |
| `StreamBroker.LateReaderSeesEndIff` | internal/backend/forwarder/service.go:473-560 | a reader of a terminal stream has no subscription; it reads what is retained, and the end event exactly if that was not trimmed |
| `CheckpointSync.Stream.PublishReadyCheckpoint` | internal/backend/forwarder/checkpoint_blobs.go:253-293 | a ready checkpoint is published once and its terminal action runs |
| `CheckpointSync.Stream.RegisterBlobs` | internal/backend/forwarder/checkpoint_blobs.go:63-118 | the keys of a projection and the new writes they need |
| `CheckpointSync.Stream.Enqueue` | internal/backend/forwarder/checkpoint_blobs.go:46-128 | a newer projection replaces the pending one and inherits its terminal action unless it brings its own |
| `CheckpointSync.Stream.QueueProjection` | internal/backend/forwarder/checkpoint_blobs.go:46-147 | the whole of queueing: enqueue, dispatch until a send fails, publish at once if ready, otherwise arm the timer |
| `CheckpointSync.Stream.HandleBlobResult` | internal/backend/forwarder/checkpoint_blobs.go:186-251 | an acknowledgement confirms its key; a rejection is fatal only if nothing else covers a pending key; unknown requests change nothing |
| `CheckpointSync.Stream.HandleTimeout` | internal/backend/forwarder/checkpoint_blobs.go:295-332 | a timeout drops the pending checkpoint and runs what it owed, or publishes it when everything arrived |
| `CheckpointSync.PlanAddsMissingWrites` | internal/backend/forwarder/checkpoint_blobs.go:80-118 | a plan adds a write for exactly those needed keys that have none in flight and are not confirmed, and never two for one key |
| `CheckpointSync.QueueKeepsInv` | internal/backend/forwarder/checkpoint_blobs.go:46-147 | queueing keeps the invariant |
| `CheckpointSync.BlobResultKeepsInv` | internal/backend/forwarder/checkpoint_blobs.go:186-251 | an answer keeps the invariant |
| `CheckpointSync.TimerDischarges` | internal/backend/forwarder/checkpoint_blobs.go:295-332 | the current timer leaves nothing pending and runs exactly the owed action; any other firing changes nothing |
| `CheckpointSync.RunKeepsInv` | internal/backend/forwarder/checkpoint_blobs.go:46-378 | over every run, resets of the timer tokens included: keys in flight are distinct and unconfirmed, a pending checkpoint has each key confirmed or in flight and not all confirmed, and the history accounts for what is confirmed and what is owed |
| `CheckpointSync.EveryRunKeepsInv` | internal/backend/forwarder/checkpoint_blobs.go:46-378 | the same from a fresh stream |
| `CheckpointSync.NextKeepsLive` | internal/backend/forwarder/service.go:918-942 | every step keeps a live timer for a pending checkpoint, except a reset, which does so exactly if nothing is pending |
| `CheckpointSync.EveryRunIsLive` | internal/backend/forwarder/checkpoint_blobs.go:130-147 | so a pending checkpoint has a live timer in every run whose resets find nothing pending |
| `CheckpointSync.OldTimerCanEndNewerIff` | internal/backend/forwarder/service.go:918-942 | after any run a reset of the tokens lets a timer armed for an earlier checkpoint end a later one, in some continuation without a further reset, exactly if a timer is armed at the reset |
| `CheckpointSync.NoOldTimerActs` | internal/backend/forwarder/actor.go:1000-1114 | in no run whose resets find no timer armed does an older timer end a newer checkpoint |
| `CheckpointSync.CountUp` | internal/backend/forwarder/checkpoint_blobs.go:46-147 | checkpoints that supersede each other, with every send accepted, bring the timer token up to any number |
| `CheckpointSync.ArmedTimerIsReachable` | internal/backend/forwarder/checkpoint_blobs.go:130-147 | a run that leaves a timer armed |
| `CheckpointSync.PublishedAfterConfirmation` | internal/backend/forwarder/checkpoint_blobs.go:186-293 | every published checkpoint follows, for each required key, a dispatch and its error-free acknowledgement, in this order |
| `CheckpointSync.StepEndsExactly` | internal/backend/forwarder/checkpoint_blobs.go:46-332 | after any run, what each step does to the pending checkpoint: it is published, with the number, state and keys of the projection queued last, exactly when its last missing key is confirmed, or at queueing if none is missing, and the broker takes it; it is dropped exactly when a send is refused, a needed blob is rejected or its time is up; otherwise it stays until another is queued or it is discarded |
| `CheckpointSync.EndRetiresTimer` | internal/backend/forwarder/checkpoint_blobs.go:295-378 | a step that ends or discards the pending checkpoint leaves no timer that carries the current token |
| `CheckpointSync.PublishedIsLastQueued` | internal/backend/forwarder/checkpoint_blobs.go:253-293 | what is published is the projection queued last, not superseded, dropped or discarded since and not published before |
| `CheckpointWrites.EveryRunTellsWrites` | internal/backend/forwarder/checkpoint_blobs.go:80-118 | over every run exactly those writes are in flight that were dispatched and neither answered nor dropped with a failed or discarded checkpoint, and no request number is used twice |
| `CheckpointSync.OwedIsLastQueued` | internal/backend/forwarder/checkpoint_blobs.go:63-79 | the owed terminal action is the last one queued and neither run nor discarded since |
| `CheckpointSync.RanIsLastQueued` | internal/backend/forwarder/checkpoint_blobs.go:253-378 | what runs is the last terminal action queued, and it runs once |
| `AppendSequence.RequestState.TryAcquire` | internal/backend/forwarder/append_seq.go:77-129 | one pass of the acquire loop: admitted, restarted, stale or blocked on the open channel |
| `AppendSequence.Tracker.Prune` | internal/backend/forwarder/append_seq.go:53-75 | exactly the expired states go |
| `AppendSequence.Tracker.StateFor` | internal/backend/forwarder/append_seq.go:53-75 | a request gets its own state, or a fresh one |
| `AppendSequence.NextKeepsInv` | internal/backend/forwarder/append_seq.go:77-146 | every step keeps: one ticket at most, admissions in order, no lost wakeup |
| `AppendSequence.AcquireTries` | internal/backend/forwarder/append_seq.go:77-129 | after any run, a caller with a positive number is admitted at once exactly if no ticket is out and its number is 1 or follows the last admitted one, is refused exactly if its number lies strictly between 1 and the one that is due, and blocks on the open channel otherwise |
| `AppendSequence.RetryTries` | internal/backend/forwarder/append_seq.go:77-129 | a blocked caller whose channel was closed tries again in the same way |
| `AppendSequence.ReleaseOpens` | internal/backend/forwarder/append_seq.go:131-146 | after any run, a release takes the ticket back and closes the channel of every blocked caller |
| `AppendSequence.UsedNow` | internal/backend/forwarder/append_seq.go:77-158 | every call that reaches an object renews the time of its last use |
| `AppendSequence.RunsCountUp` | internal/backend/forwarder/append_seq.go:77-146 | between restarts the admitted numbers count up by one, so none repeats |
| `AppendSequence.EnablingStepClosesChannel` | internal/backend/forwarder/append_seq.go:77-146 | a step that makes a blocked caller admissible, restartable or stale closes the channel it waits on |
| `AppendSequence.EvictedStateIsIdle` | internal/backend/forwarder/append_seq.go:148-158 | an evicted state has no ticket out; callers blocked on it wait for a number that is still to come |
| `AppendTracker.EveryRunKeepsInv` | internal/backend/forwarder/append_seq.go:37-158 | from the empty tracker, over every run of lookups, evictions, acquisitions, retries, abandonments and releases, on every object that ever was: one ticket at most, admissions in order, no lost wakeup, and the table maps each request to an object of its own |
| `AppendTracker.RunKeepsInv` | internal/backend/forwarder/append_seq.go:37-158 | the same from any state that satisfies the invariant |
| `AppendTracker.LookupShows` | internal/backend/forwarder/append_seq.go:53-75 | what a lookup leaves in the table is what the method of the tracker leaves |
| `AppendTracker.LookupEvictsIff` | internal/backend/forwarder/append_seq.go:53-158 | a lookup takes an object out of reach exactly if no ticket is out and it was not used for the retention time; the callers blocked on it stay blocked |
| `AppendTracker.TicketStaysInReach` | internal/backend/forwarder/append_seq.go:53-158 | no step takes an object out of reach while its ticket is out |
| `AppendTracker.EvictedStaysOut` | internal/backend/forwarder/append_seq.go:53-75 | nobody finds an evicted object again |
| `AppendTracker.EvictedServesAgainIff` | internal/backend/forwarder/append_seq.go:37-146 | in some continuation an evicted object gives out a ticket exactly if a call that holds it, or that is blocked on a closed channel, has a number it would admit; otherwise its blocked callers stay blocked whatever happens |
| `AppendTracker.TwoTicketsIff` | internal/backend/forwarder/append_seq.go:37-146 | after a lookup that replaces the expired object of its own request, both objects can have a ticket out together exactly if somebody can still enter the old one |
| `AppendTracker.TwoTicketsAreReachable` | internal/backend/forwarder/append_seq.go:37-146 | a run from the empty tracker after which two objects of one request have a ticket out |
| `ProviderOutput.Stream.HandleEvent` | internal/backend/forwarder/actor.go:507-636 | the effect of one model event on what is pending and written |
| `ProviderOutput.Stream.HandleDone` | internal/backend/forwarder/actor.go:758-815 | the error-free end of a pass |
| `ProviderOutput.HistoryFollowsScript` | internal/backend/forwarder/actor.go:481-636 | at every point of a pass the history is, entry for entry, what the events script: before each tool call the text since the last one if it is more than white space, with the reasoning since then and its last signature, and then the call |
| `ProviderOutput.TextIsConserved` | internal/backend/forwarder/actor.go:481-815 | over a whole pass the written text is, byte for byte, the text segments before tool calls that are more than white space, and the last text if it gives an entry, which it does exactly if it is more than white space or, in a pass without tools, comes with reasoning that can be replayed; every tool is invoked once, in order |
| `ProviderOutput.TextIsCompleteIff` | internal/backend/forwarder/actor.go:481-815 | the written text is all the text received exactly if no white space stands alone before a tool call and the text behind the last one is empty or gives an entry |
| `ProviderOutput.ReasoningIsConservedIff` | internal/backend/forwarder/actor.go:758-815 | the reasoning of a pass is conserved exactly if none follows the last tool call or what follows is written as an entry |
| `ProviderOutput.TrailingReasoningIsDropped` | internal/backend/forwarder/actor.go:758-815 | reasoning after a tool call with no text behind it is dropped |
| `TurnActor.MergedDispositionResumesIff` | internal/backend/forwarder/actor.go:1201-1239 | completions merged in any number resume exactly if the first resumes and none completes |
| `TurnActor.Stream.DriveProvider` | internal/backend/forwarder/service.go:1586-1701 | a pass begins under a new token, turns into a compaction, or fails |
| `TurnActor.Stream.ReconcileStream` | internal/backend/forwarder/actor.go:379-445 | nothing while active, terminal or pending; otherwise the remembered completion, then the pending action |
| `TurnActor.Stream.HandleProviderDone` | internal/backend/forwarder/actor.go:758-907 | a report with another token changes nothing; otherwise fail, remember or conclude |
| `TurnActor.NextKeepsInv` | internal/backend/forwarder/actor.go:318-467 | every command keeps: starts only when clean, tokens, someone attends an open stream, a resume is never stuck; an exec result may open the next exec (internal/backend/forwarder/write_tool.go:208-269) |
| `TurnActor.EveryRunKeepsInv` | internal/backend/forwarder/actor.go:318-1114 | the same over every run of commands, from a new stream |
| `TurnActor.EveryStartIsClean` | internal/backend/forwarder/actor.go:359-445 | in no run does a pass start while one is active, while anything is pending, during a compaction or after a terminal status |
| `TurnActor.StartsAreDistinct` | internal/backend/forwarder/actor.go:359-445 | every start has a higher token than every one before |
| `TurnActor.StartBeginsPassIff` | internal/backend/forwarder/service.go:807-964 | after any run of commands a run intent with work meets nothing in its way, no remembered completion either, and begins a pass at once exactly if the stream has not ended |
| `TurnOutcomes.DoneOutcome` | internal/backend/forwarder/actor.go:758-907 | after any run, for the report of the current pass of an open stream with nothing pending: an error fails the turn; a normal end completes it exactly if a completion is remembered that does not resume, or none is remembered, no retry took over, and no tool was called and no resume was asked for or a tool ended the turn; otherwise a resume is armed |
| `TurnOutcomes.DoneWhilePending` | internal/backend/forwarder/actor.go:820-848 | with something pending the end is remembered: the turn will resume exactly if nothing waits for the user, there was a tool call or a stop that asks for more, and nothing remembered asks to complete |
| `TurnOutcomes.ExecOutcome` | internal/backend/forwarder/actor.go:379-445 | after any run, the result of an execution: a hook starts its summary, beside others nothing else changes, and the last one completes the turn, arms a resume or leaves it idle by what is remembered |
| `TurnOutcomes.InteractionOutcome` | internal/backend/forwarder/interaction_tools.go:72-135 | the same for an answered interaction, which asks to complete unless it resumes by itself |
| `TurnOutcomes.CompactionOutcome` | internal/backend/forwarder/compaction.go:391-452 | after any run, the report of the current compaction: an error fails the turn, a manual one leaves it to its checkpoint, any other arms a resume |
| `TurnOutcomes.TimerOutcome` | internal/backend/forwarder/actor.go:1060-1083 | after any run, a resume timer begins a pass exactly if its token is the current one and the open stream is idle with a resume pending; its token is used up in any case |
| `TurnOutcomes.StartOutcome` | internal/backend/forwarder/service.go:807-964 | after any run, a run intent with work on an open stream leaves nothing of the turn before and begins a pass, a compaction, or fails |
| `TurnOutcomes.NoPassOutcome` | internal/backend/forwarder/service.go:752-960 | a run intent without work, or one that prewarms, only stops what was going on |
| `TurnOutcomes.ToolOutcome` | internal/backend/forwarder/actor.go:507-636 | after any run, a tool call of the current pass is pending until its result, and one of another pass changes nothing |
| `TurnOutcomes.CheckpointOutcome` | internal/backend/forwarder/service.go:2434-2469 | a checkpoint that carries the completion completes an open turn |
| `TurnActor.ConsumedWasRemembered` | internal/backend/forwarder/actor.go:1190-1260 | a remembered completion is consumed at most once |
| `TurnActor.RetiredReportChangesNothing` | internal/backend/forwarder/actor.go:447-467 | a report with a token that was retired changes nothing, however much later it comes |
| `TurnActor.Stream.CompletePendingEdits` | internal/backend/forwarder/service.go:1023-1063 | a cancellation finishes the pending file edits one after the other, each of which reconciles |
| `TurnActor.CancelCompletesIff` | internal/backend/forwarder/service.go:1011-1041 | after any run, a cancellation of an open stream completes the turn instead exactly if finishing the pending edits leaves nothing pending and a completion is remembered that does not resume; otherwise it cancels |
| `ResumeTimers.RunLeavesOldTimersIff` | internal/backend/forwarder/service.go:918-942 | a run intent with work leaves behind a timer of earlier tokens exactly if a resume timer is armed |
| `ResumeTimers.OldResumeTimerCanActIff` | internal/backend/forwarder/actor.go:1000-1114 | after any run, a resume timer armed before the tokens began anew starts a pass in some continuation exactly if the stream has not ended |
| `Jsonc.StripComments` | internal/cursor/settings.go:294-363 | the comment stripper is its specification, an unclosed block comment an error |
| `Jsonc.LooksAhead` | internal/cursor/settings.go:394-404 | the scan behind a comma |
| `Jsonc.StripTrailingCommas` | internal/cursor/settings.go:366-409 | the comma stripper is its specification |
| `Jsonc.StripDoc` | internal/cursor/settings.go:294-363 | on any document of tokens, whitespace and closed comments, stripping leaves tokens and whitespace as they were |
| `Jsonc.DropCommasDoc` | internal/cursor/settings.go:366-409 | on any document, exactly the commas whose next token closes a bracket are dropped |
| `Jsonc.LexDoc` | internal/cursor/settings.go:282-291 | a document reads as its tokens |
| `Jsonc.NormalizeKeepsTokens` | internal/cursor/settings.go:282-409 | normalising any laid-out document reads as the same tokens without trailing commas; string literals are unchanged |
| `Jsonc.NormalizeKeepsJson` | internal/cursor/settings.go:265-409 | normalising any layout of any JSON value with optional trailing commas reads as the strict JSON text of that value |
| `Jsonc.StripKeepsNewlines` | internal/cursor/settings.go:294-363 | stripping comments keeps the number of newlines |
| `Jsonc.StripIsIdempotent` | internal/cursor/settings.go:294-363 | stripping comments twice is stripping once, on every text without an unclosed block comment |
| `ProtoResolve.CycleHasNoRoot` | proto/ext_tool/extractor.go:287-301 | an alias chain that comes back to itself leads to no root |
| `ProtoResolve.ResolveRoot` | proto/ext_tool/extractor.go:287-301 | the root an alias leads to, or the alias itself exactly if it leads to none; always ends |
| `ProtoResolve.Filter` | proto/ext_tool/extractor.go:424-459 | a preference is applied unless it would leave nothing |
| `ProtoResolve.Nearest` | proto/ext_tool/extractor.go:461-492 | the nearest definition, earlier text on a tie, first of equals |
| `ProtoResolve.PickBest` | proto/ext_tool/extractor.go:419-493 | the nearest of the candidates left by kind, package and module |
| `ProtoResolve.CandidatesPreferKindThenPackage` | proto/ext_tool/extractor.go:419-459 | a definition of the wrong kind or package is considered only if there is none of the right one |
| `ProtoCopy.Collect` | proto/ext_tool/extractor.go:1359-1374 | a round collects exactly what the messages and services of the file need |
| `ProtoCopy.CopyOne` | proto/ext_tool/extractor.go:1387-1413 | a needed type is copied with its package replaced, or only marked when unknown |
| `ProtoCopy.CopyNeeded` | proto/ext_tool/extractor.go:1376-1416 | in whatever order the set is visited: copies are traced and distinct, and a round that copies shrinks the short names still missing |
| `ProtoCopy.CopyAllExternalTypes` | proto/ext_tool/extractor.go:1313-1433 | the copying ends; without the cap its result is closed, and the cap is reached only with more than 20 short names to copy; every copy was needed by something before it |
| `ProtoCopy.WantedIsReachable` | proto/ext_tool/extractor.go:1354-1416 | whatever is needed is reached by references from the package's own messages and services |
| `ProtoCopy.CopiesAreReachable` | proto/ext_tool/extractor.go:1354-1416 | nothing is copied that the package does not reach |
| `ProtoCopy.ClosedFileNamesNoForeignPackage` | proto/ext_tool/extractor.go:1896-1927 | a closed file names no package but Google's |
| `ProtoNames.SplitDotted` | proto/ext_tool/extractor.go:1885-1887 | the components of a dotted name are those of its parts |
| `ProtoNames.NestedIsPrintedShort` | proto/ext_tool/extractor.go:1896-1927 | a type nested in the message that uses it is printed from there on, and no other |
| `ProtoNames.PrintedMeans` | proto/ext_tool/extractor.go:1896-1927 | in the file, where types are nested by their components and a name is looked for from the message around it outwards, a name without package denotes its type exactly if that is written and nothing nested captures the name; a name with package leaves the file exactly if nothing nearer begins like it |
| `ProtoNames.RecordedForAnotherIff` | proto/ext_tool/extractor.go:1313-1416 | a use finds its short name recorded for another type exactly if two types of one short name meet in the file |
| `ProtoNames.ShapeIsExpected` | proto/ext_tool/extractor.go:1354-1416 | without such a clash the file defines the own types and what is known of the foreign types in use, whatever order they were copied in |
| `ProtoNames.NamesAreFaithfulIff` | proto/ext_tool/extractor.go:1727-1797 | every definition is written and every printed name denotes the type it resolves to, defined in the file, exactly if no two types of one short name meet, every type printed without a package is known, no enum stands above or in place of a definition, and no name is captured |
| `ProtoNames.MisprintsIff` | proto/ext_tool/extractor.go:1896-1927 | a printed name denotes something else in the file exactly if its search is caught by a node of that name in another scope, or something else stands in the place of its type |
| `ProtoNames.MisprintHasCause` | proto/ext_tool/extractor.go:1896-1927 | behind a misprint is a clash, an unknown type, an enum above a definition, or a captured name |
| `ProtoNames.NestedNameCaptures` | proto/ext_tool/extractor.go:1727-1797 | a closed file without clash in which a field of Foo resolves to Bar, prints Bar and denotes Foo.Bar |
| `LogWindow.CountBytesLines` | internal/logger/logger.go:251-260 | newlines, and an unfinished last line |
| `LogWindow.LastLinesBytes` | internal/logger/logger.go:262-281 | exactly the requested number of last lines, as a byte suffix from a line start; the search for a newline never fails |
| `LogWindow.AddedIsTheDifference` | internal/logger/logger.go:221-238 | the lines a payload adds are the difference of the recounts, never negative |
| `LogWindow.BoundedIff` | internal/logger/logger.go:155-180 | a write that adds a line leaves the file within its limit exactly if the payload by itself is |
| `LogWindow.AddedWithinLimitIsNotEnough` | internal/logger/logger.go:155-180 | adding exactly the limit to an unfinished line exceeds it by one |
| `LogWindow.LineWindowFileWriter.constructor` | internal/logger/logger.go:130-153 | opening counts the file and shortens it to its last lines |
| `LogWindow.LineWindowFileWriter.CountIncomingLines` | internal/logger/logger.go:221-238 | the count relative to the unfinished line |
| `LogWindow.LineWindowFileWriter.TrimToLastLines` | internal/logger/logger.go:192-219 | what each of its failures leaves, a failed reopening after a failed read or rewrite included |
| `LogWindow.LineWindowFileWriter.Write` | internal/logger/logger.go:155-180 | the whole effect of a write, complete, partial or failing |
| `LogWindow.WriteIsProper` | internal/logger/logger.go:155-180 | a write keeps counts exact, loses only from the front, leaves what was accepted whole at the end, and respects the limit |
| `LogWindow.RunKeepsWindow` | internal/logger/logger.go:155-219 | over every run without a half-way failing rewrite the counts are those of a recount and the file is the end of everything accepted |
| `LogWindow.LastPayloadIsWhole` | internal/logger/logger.go:155-219 | over such a run what the last write had accepted is whole at the end of the file |
| `LogWindow.RunRetains` | internal/logger/logger.go:155-219 | over every run that shortens the file only for payloads it then writes whole, the file holds everything accepted, or at least as many lines as the limit less the reserve |
| `LogWindow.RunStaysWithinLimit` | internal/logger/logger.go:155-219 | over every run without a half-way failing rewrite the file stays within a limit every payload respects |
| `LogWindow.FailedRewriteKeepsCountIff` | internal/logger/logger.go:192-219 | a rewrite that fails half-way leaves the count right exactly if the file was empty, or it could not be opened again and nothing is written any more |
| `CodebaseIndex.SortFiles` | internal/backend/forwarder/codebase_index_store.go:294-318 | each file once, by order and then by path |
| `CodebaseIndex.CodebaseIndexStore.Load` | internal/backend/forwarder/codebase_index_store.go:438-480 | loading does not change the state the store stands for |
| `CodebaseIndex.CodebaseIndexStore.NotifyIndexSubscribers` | internal/backend/forwarder/codebase_index_store.go:520-530 | every subscriber of the index has a signal pending |
| `CodebaseIndex.CodebaseIndexStore.RegisterFile` | internal/backend/forwarder/codebase_index_store.go:223-292 | the record, the event and the compaction; with a failing save they stay in memory and nobody is told |
| `CodebaseIndex.CodebaseIndexStore.ListEvents` | internal/backend/forwarder/codebase_index_store.go:320-341 | the retained events of an index after a given one |
| `CodebaseIndex.RegisterKeepsNumbering` | internal/backend/forwarder/codebase_index_store.go:511-537 | event ids stay consecutive across compaction |
| `CodebaseIndex.RestartResumes` | internal/backend/forwarder/codebase_index_store.go:438-509 | what was saved loads as the very state that was saved, the next id included |
| `CodebaseIndex.ListingFollowsRegistrations` | internal/backend/forwarder/codebase_index_store.go:223-318 | after any list of registrations with automatic orders, whatever indexes and repetitions it holds, the listing of an index is its paths in the order of first registration, numbered from 1, each with the hash of its last registration |
| `IndexHistory.FilesAreRecords` | internal/backend/forwarder/codebase_index_store.go:223-292 | after any registrations, with given or automatic orders, an index holds exactly the paths registered for it, each with the hash and stage of its last registration, the time of its first, and the last order given for it or else its place |
| `IndexHistory.RetainedAreTheLast` | internal/backend/forwarder/codebase_index_store.go:511-537 | after any registrations on an empty disk the retained events are exactly the last 2000, or all of them, numbered from 1, each with the record it made |
| `IndexHistory.ListEventsIsCompleteIff` | internal/backend/forwarder/codebase_index_store.go:320-341 | after any registrations ListEvents gives every event of an index with a later id exactly if none of them has 2000 or more behind it |
| `IndexHistory.HorizonIs` | internal/backend/forwarder/codebase_index_store.go:511-537 | over every run compaction has dropped what was dropped before and all but the last 2000 |
| `IndexHistory.ListingIsCompleteIff` | internal/backend/forwarder/codebase_index_handler.go:77-101 | over every run on an empty disk the store has the last 2000 events, and what a listener lists is complete exactly if no event it should get has 2000 or more behind it |
| `IndexHistory.EverySubscriberIsTold` | internal/backend/forwarder/codebase_index_store.go:520-530 | a registration leaves a signal for every subscriber of its index and for no other |
| `IndexListener.ListIsCompleteIff` | internal/backend/forwarder/codebase_index_store.go:320-341 | ListEvents gives the matching events of the whole log exactly if compaction dropped none of them |
| `IndexListener.RegisterStepKeepsInv` | internal/backend/forwarder/codebase_index_store.go:223-292 | a registration keeps the invariant; after a failing save nobody sleeps on an undelivered event exactly if every listener of the index has a signal or is about to list |
| `IndexListener.NextKeepsInv` | internal/backend/forwarder/codebase_index_handler.go:48-102 | every step of every listener keeps: sent, lost and still to come together are the log |
| `IndexListener.EveryRunKeepsInv` | internal/backend/forwarder/codebase_index_handler.go:48-102 | the same over every run, and no lost wakeup while saves succeed |
| `IndexListener.WaitingListenerIsUpToDate` | internal/backend/forwarder/codebase_index_handler.go:77-101 | a listener that waits unsignalled has been through its whole log, each event once and in order |
| `IndexListener.ListingLosesNothingIff` | internal/backend/forwarder/codebase_index_handler.go:77-101 | a listing skips exactly the dropped events the listener had not dealt with, none while it is not behind the compaction |
| `Frames.LengthRoundTrip` | cursor-proxy-debugger/decode.go:53-56 | the four length bytes are read as they were written |
| `Frames.ConnectFrameDecoder.Write` | cursor-proxy-debugger/decode.go:48-68 | a write reports what the bytes so far determine, and keeps the rest |
| `Frames.ParseMore` | cursor-proxy-debugger/decode.go:48-68 | parsing some bytes and then more is parsing them together |
| `Frames.FedAgrees` | cursor-proxy-debugger/decode.go:48-68 | after any chunks the decoder is where their concatenation puts it |
| `Frames.ChunkingMattersIff` | cursor-proxy-debugger/decode.go:48-79 | how a stream is cut shows exactly if an impossible length is met below the limit with bytes behind it |
| `Frames.DecodingInvertsEncoding` | cursor-proxy-debugger/decode.go:48-79 | any encoded frames, cut in any way, are reported in order up to the limit, and an incomplete one exactly if bytes remain |
| `Account.TokenStaysWithinGeneration` | internal/cursoraccount/manager.go:120-142 | within one generation the token never becomes empty again |
| `Account.NextKeepsInv` | internal/cursoraccount/manager.go:120-310 | every step of every operation keeps: signed in means a token, whatever may be committed has one |
| `Account.OldOperationChangesNothingIff` | internal/cursoraccount/manager.go:195-219 | an operation begun under an older generation changes nothing, except the end of a Disconnect that could not remove the file |
| `Account.SignedInMeansToken` | internal/cursoraccount/manager.go:120-310 | over every interleaving signed in means a non-empty token |
| `Account.DisconnectIsQuiet` | internal/cursoraccount/manager.go:195-208 | a disconnect or a requested logout leaves nothing that could sign in again |
| `Account.DisconnectSticks` | internal/cursoraccount/manager.go:195-310 | after a disconnect nothing but a new login brings credentials back, whatever was under way |
| `AccountOutcomes.CommitOutcome` | internal/cursoraccount/manager.go:493-508 | a commit signs in with what it stores exactly if its generation is the current one and the save succeeds |
| `AccountOutcomes.FailureOutcome` | internal/cursoraccount/manager.go:483-518 | a failure shows its error and keeps the credentials exactly if its generation is the current one |
| `AccountOutcomes.GenerationOutcome` | internal/cursoraccount/manager.go:168-232 | a generation begins exactly with a login, a disconnect, a shutdown or a logout that a refresh found; the credentials go at a disconnect and a logout |
| `AccountOutcomes.LoginSignsInIff` | internal/cursoraccount/manager.go:274-310 | over every run a login that commits signs in, with the credentials its poll was answered, exactly if the save succeeds and no generation began since |
| `AccountRaces.RunKeepsLock` | internal/cursoraccount/manager.go:235-240 | over every interleaving one authorization is under way at most, and the lock is free when there is none |
| `AccountRaces.RefreshKeepsAccountIff` | internal/cursoraccount/manager.go:235-272 | a refresh of the current generation stores the account it read at its snapshot: it replaces the signed-in account exactly if that is no longer the one it read, and then a login or a profile lookup of the generation replaced it in between |
| `AccountRaces.EmailKeepsCredentialsIff` | internal/cursoraccount/manager.go:117-142 | a profile lookup keeps everything but the address exactly if what is stored is still what it read last, and otherwise a commit came in between |
| `AccountRaces.EmailFitsAccountIff` | internal/cursoraccount/manager.go:117-142 | the address it stores belongs to the account it is stored with exactly if that account is still the authorized one at the second reading, and otherwise a commit replaced it in between |
| `AccountRaces.EmailCanMixAccounts` | internal/cursoraccount/manager.go:117-142 | a reachable state in which the address of the old account is stored with the new one |
| `LocalCa.Installation.GenerateAndPersist` | internal/certs/local_ca.go:71-95 | the key first, then the certificate |
| `LocalCa.Installation.LoadOrCreate` | internal/certs/local_ca.go:24-56 | what a start does, by what is on disk |
| `LocalCa.StartKeepsSound` | internal/certs/local_ca.go:24-95 | a start keeps a sound disk sound; an unsound one it never repairs |
| `LocalCa.EveryRunIsSound` | internal/certs/local_ca.go:24-165 | over any number of starts, each cut short anywhere, an own certificate always has its key and no start ends incomplete or mismatched |
| `LocalCa.RecoversIff` | internal/certs/local_ca.go:24-165 | after any run an undisturbed start succeeds exactly if the first disk was sound |
| `LocalCa.RunningKeyIsKept` | internal/certs/local_ca.go:24-56 | once running, every later start uses the same key |
| `StaticI18n.DecimalRoundTrip` | frontend/plugins/static-i18n-plugin.js:212 | the index in a placeholder is read as it was written |
| `StaticI18n.CreateTemplateCanonical` | frontend/plugins/static-i18n-plugin.js:206-216 | the canonical message, part by part |
| `StaticI18n.InterpolateParts` | frontend/src/i18n/runtime.js:115-120 | no placeholder is found across the border of a fixed part, and arguments are not searched again |
| `StaticI18n.InterpolateCanonical` | frontend/src/i18n/runtime.js:115-120 | interpolating a canonical message interpolates its fixed parts and puts each argument between them |
| `StaticI18n.MergeMessageRecords` | frontend/plugins/static-i18n-plugin.js:121-160 | every record is in the catalog under its id, or two sources share an id and it is an error |
| `StaticI18n.MergeLocaleMessages` | frontend/plugins/static-i18n-plugin.js:162-176 | the source locale gets the sources, others keep what they have |
| `StaticI18n.TemplateRoundTripIff` | frontend/src/i18n/runtime.js:109-120 | with plain fixed parts the original text is shown exactly if no argument is null or undefined, even if arguments contain placeholders |
| `StaticI18n.TemplateIsFaithfulIff` | frontend/src/i18n/runtime.js:109-120 | the original text is shown for all present arguments exactly if there are no expressions or no placeholder in the fixed parts |

## Left out

- Counters are unbounded: generations, timer tokens, request ids, event ids and orders do not wrap around.
- The registry of streams of the broker: looking up and removing streams, the timers of the terminal clean-up and `RemoveIfIdle`; properties are stated for one stream object.
- Subscriber ids are given from outside; that a generated one is fresh is taken for granted.
- The conversation storage of the actor is taken to succeed, and what compaction and tools compute is a parameter of the step.
- The mailbox of the actor: commands are atomic and one at a time.
- Cancelling the context of a running provider pass: a pass that was cancelled may still report.
- `TurnActor.EveryRunKeepsInv`: a report that the provider loop was interrupted is not accepted from the current pass of an open stream; interrupt.go interrupts the loop of a pass when the stream has ended or its pass was cancelled or replaced, and its token is retired with that.
- What a hidden read or write computes: of a chain of execs only that a result closes one and opens the next is modelled.
- `AppendSequence.RequestState.TryAcquire`: is one turn of the blocking loop; blocking itself is a state of the interleaving in which the caller may retry once its channel is closed.
- `ProtoCopy.CopyAllExternalTypes`: closure is stated for the ordinary exit; after the twenty-first productive round the code gives up.
- How the extractor parses type names, fields and modules with regular expressions; a reference resolves through a function, and names are already split into package and short name.
- The import list of a generated file and the order in which types are written.
- `ProtoNames.NamesAreFaithfulIff`: a type that was extracted twice under one name is written once, while the model asks the names in both to be right; packages other than that of the file and Google's do not occur in the search.
- A blank expected kind in `pickBestDefinition`, which no caller passes.
- Index fields other than registered files and events, events of other kinds than registrations, and the position of an index in its catalog.
- `CodebaseIndex.CodebaseIndexStore.ListFiles`: sorting is by selection, where the code calls the library's sort.
- Decoding, decompressing and printing the payload of a frame.
- `LogWindow.LineWindowFileWriter.constructor`: opening is taken to succeed.
- Agreement of the account file with the account in memory, what the file system does to it, and the parsing and expiry of tokens.
- Permissions, temporary files and the cryptography of the local authority; two processes starting at once.
- Where messages occur in the frontend, their hash ids, and switching locales.
- Header copying, routing, configuration defaults, the settings writers around the normaliser, the exchange and documentation stores and the user interface: they would only add easy members.
