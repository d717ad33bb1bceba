# GistClaw: verified models

GistClaw is an agent runtime that keeps its state in SQLite tables, journals what happens as events, and
gets its guarantees from small transactions and from recovery after a crash. This project models that
machinery in Dafny 4.11 and proves what it promises. `dafny verify dfyconfig.toml` checks all of it.

| files | what they model |
|---|---|
| `slots` | when a schedule is next due, with the 64-bit arithmetic of the program |
| `scheduler_store`, `scheduler_service`, `scheduler_wake`, `startup` | the scheduler's tables, its loop, and recovery at start-up, as classes |
| `scheduler_world`, `scheduler_exactly_once`, `scheduler_failures` | the scheduler as a concurrent system in which any agent may take the next transaction and any crash may come between two |
| `scheduler_overlap`, `scheduler_crowding`, `scheduler_ahead` | which occurrences of one schedule can be open at once, how many, and when the loop's own never overlap |
| `scheduler_steps` | the service's own turns and dispatches as runs of that system |
| `scheduler_lost`, `scheduler_punctual` | when a committed dispatch is marked failed without its run, and when it never is |
| `scheduler_late_accept`, `scheduler_overlap_runs`, `scheduler_lost_run` | reachable runs that show why the conditions are there |
| `journal`, `journal_tokens`, `journal_bindings`, `inbound` | the event journal and its projections, token totals, thread bindings, and the one-batch start of a run from a message |
| `run_loop`, `tool_batch`, `context_events`, `approvals` | budgeted provider turns, tool batches, reloaded context, approval tickets |
| `supervisor` | connector restarts |
| `pagination`, `page_orders` | keyset pages of sessions, routes, deliveries and memory items |
| `line_split`, `logstream`, `capture` | the log sink and the output capture |
| `auth` | devices, sessions and cleanup |
| `path_guard` | paths a tool may use |
| `basics`, `ordering`, `text` | shared values, `ORDER BY` as sorting by a strict total order, trimming |

Conventions. A table is a map or a sequence with the unique keys of the migrations; a transaction is one
function or method, and one step of a run. Methods that change state are tied to the functions the lemmas
speak about. Times are integers in nanoseconds. Where a property of many steps is meant, a run is a
sequence of steps each of which was enabled, and the lemma speaks about every run from the empty state.

Assumptions. Generated identifiers are new. The clock does not go back. A live dispatcher may answer at any
time, one lost in a crash never does. Only `SchedulerPunctual.PunctualNeverLost` asks for calls within the
grace period, which counts from the clock reading of the claim and not from the claim. Where a lemma needs
the slot arithmetic to be exact it says so, and `Slots.EveryNextExactIff` says exactly when it is.

What the proofs brought out:

- Acceptance writes its row unconditionally, and a sync acts on a status loaded earlier. Either can reopen
  an occurrence that has meanwhile been closed. The order of open occurrences survives exactly when what is
  reopened still fits it.
- `RunNow` reads the clock before its transaction. Callers whose transactions come in the reverse order of
  their readings are all dispatched, so any number can be open at once; `SchedulerCrowding.RunCrowdedIff`
  says which claims make one too many.
- Updating or enabling a schedule writes back what it loaded in an earlier statement, a rename included. It
  can put the next run before the slot of an open occurrence, and then the loop alone opens two.
- The grace period of an open dispatch counts from a clock reading taken before its claim, for a pass once
  for all its claims. A pass beside it can give the occurrence up while the call is under way: the run is
  journaled, the occurrence says failed without it, and if the caller crashes nobody looks again.
- A login checks the password before its transaction. A change in between revokes every session but the one
  that then opens with the old password.
- A duplicate message usually meets another unique key (the open root run, or the session) before the
  receipt's own, so the later of two racing receivers mostly gets an error and not the first one's run.
- A `session_bound` event may carry a status other than active; such a binding is an end no walk was meant
  to have.
- "Prev" without a cursor gives session, route and delivery pages the wrong flags as soon as the table does
  not fit on one page; memory pages are right.
- The restart budget is per half-open hour; an hour with both its ends can be one restart over, never two.
- Under the directory "/" the prefix test compares with "//" and admits nothing but "/" itself.
- A run that uses up its ten turns is journaled as completed, like one that ended by itself.

## Model

| member | source | states |
|---|---|---|
| `Slots.EveryNextExactIff` | internal/scheduler/schedule.go:84-99 | the 64-bit computation of an "every" schedule returns the least point anchor + k*interval (k >= 0) that is not before now if and only if interval, distance and product fit the arithmetic |
| `Slots.InRangeFits` | internal/scheduler/schedule.go:84-99 | they fit whenever everySeconds <= 9223372036 and now - anchor fits in 64-bit nanoseconds |
| `Slots.WrappedNeverExact` | internal/scheduler/schedule.go:92-99 | an interval whose nanoseconds overflow never yields the right slot once the anchor has passed |
| `Slots.SaturatedFallsShort` | internal/scheduler/schedule.go:94-98 | a saturated distance yields a slot before now |
| `Slots.OutOfRangeExamples` | internal/scheduler/schedule.go:92-98 | concrete inputs: an interval that wraps to zero divides by zero, a distance of three centuries falls short |
| `Slots.EveryNextMonotone` | internal/scheduler/schedule.go:84-99 | a later clock never gives an earlier slot |
| `Slots.NextNotBefore` | internal/scheduler/schedule.go:67-114 | in range, no kind of schedule computes a slot before the instant it is asked about, so at now + 1ns the slot is strictly after now |
| `Slots.NextDefined` | internal/scheduler/schedule.go:15-65 | in range, a spec that validates always has an answer: its computation never divides by zero |
| `Slots.SpecValidIff` | internal/scheduler/schedule.go:15-65 | a spec is accepted exactly when it has what its kind needs and nothing of the other kinds |
| `Slots.SpecErrors` | internal/scheduler/schedule.go:15-65 | otherwise the first thing wrong is the error |
| `Slots.NextByKind` | internal/scheduler/schedule.go:67-114 | a one-time schedule is due at its time until that has passed, a cron schedule at the first fire time not before the instant |
| `SchedulerStore.Store.CreateSchedule` | internal/scheduler/store.go:38-100 | a schedule whose spec validates and computes, under a new id, enters with its next run if enabled; otherwise nothing changes |
| `SchedulerStore.Store.UpdateSchedule` | internal/scheduler/store.go:113-185 | loads the row, works out the next run, and writes spec and next run back into whatever the tables have become in between; an update without a new spec writes back the next run it loaded |
| `SchedulerStore.Store.SetScheduleEnabled` | internal/scheduler/store.go:343-369 | the same for enabling and disabling: the next run comes from the spec as loaded |
| `SchedulerStore.Store.ClaimDueOccurrence` | internal/scheduler/store.go:253-341 | the claim transaction step by step: not due, bad spec, skipped behind an open predecessor, slot already taken, or claimed; the next run moves in each case but the first two |
| `SchedulerStore.Store.ClaimManualOccurrence` | internal/scheduler/store.go:488-554 | the claim of RunNow: missing schedule, skipped, slot taken or claimed; schedules stay as they are |
| `SchedulerStore.Store.MarkOccurrenceAccepted` | internal/scheduler/store.go:631-649 | acceptance writes run, status and start unconditionally |
| `SchedulerStore.Store.MarkOccurrenceFailed` | internal/scheduler/store.go:651-695 | failure closes the occurrence and extends or starts the schedule's failure count |
| `SchedulerStore.Store.SyncOccurrenceWithRun` | internal/scheduler/store.go:697-781 | the occurrence is completed, interrupted, failed or waiting exactly when the run is, active exactly when the run is active or pending; when that is a change, a failed run extends or starts the count of failures and a completed or interrupted one ends it |
| `SchedulerStore.SyncFollows` | internal/scheduler/store.go:967-982 | the same, with every other column, row and schedule as it was |
| `SchedulerStore.MarksOne` | internal/scheduler/store.go:631-695 | an acceptance and a failure change the columns they name and nothing else |
| `SchedulerStore.Store.ListOpenOccurrences` | internal/scheduler/store.go:556-584 | all open occurrences, in creation order with ties by id |
| `SchedulerStore.Store.ListDueSchedules` | internal/scheduler/store.go:215-251 | the due schedules by next run and id, cut off at the limit (100 when unset) |
| `SchedulerStore.Store.RepairMissingNextRunAt` | internal/scheduler/store.go:783-824 | an error-free repair gives exactly the enabled schedules without a next run the one computed for now |
| `SchedulerStore.ClaimAdvances` | internal/scheduler/store.go:253-341 | a claim that does not fail leaves its schedule no longer due, with a next run strictly after the claim or none, also when the slot was skipped or taken; it is claimed exactly when a new dispatching row appears; every other row stays |
| `SchedulerStore.ClaimDueExact` | internal/scheduler/store.go:253-341 | what a due claim leaves in each case: schedule not enabled or not yet due, spec in error, id or slot taken, or one row more |
| `SchedulerStore.ClaimManualExact` | internal/scheduler/store.go:488-554 | what a manual claim leaves in each case |
| `SchedulerStore.AddedRow` | internal/scheduler/store.go:937-955 | the row a claim adds is skipped if and only if an occurrence of the schedule with an earlier slot is dispatching, active or waiting for approval |
| `SchedulerStore.CreatesOne` | internal/scheduler/store.go:38-100 | what a new schedule is, and when it is refused |
| `SchedulerStore.EditWrites` | internal/scheduler/store.go:113-185 | what each edit writes into the row that is there now, and when it is refused |
| `SchedulerStore.ReceiptRunLatest` | internal/scheduler/store.go:586-612 | the run found is that of the latest receipt of the thread and message on the scheduler's own channel, and none only if there is none |
| `SchedulerStore.ListsOpen` | internal/scheduler/store.go:556-584 | the open listing shows exactly the dispatching, active and waiting occurrences, by creation time and id |
| `SchedulerStore.ListsDue` | internal/scheduler/store.go:215-251 | the due listing shows exactly the enabled schedules whose next run has come, by next run and id |
| `SchedulerStore.RepairsMissing` | internal/scheduler/store.go:783-824 | a repair gives the enabled schedules without a next run the one computed for now, and changes nothing else |
| `SchedulerStore.ReachFrame` | internal/scheduler/store.go:651-781 | reaching a status changes one occurrence and only the summary columns of its schedule |
| `SchedulerWorld.ReceiptRunFound` | internal/scheduler/store.go:586-612 | receipt lookup finds a run exactly when the journal holds a receipt for the occurrence's thread and id on the scheduler's channel |
| `SchedulerExactlyOnce.StepLinked` | internal/scheduler/service.go:201-286 | every step of every agent keeps occurrences, receipts, runs and dispatch calls linked, however late a dispatcher answers |
| `SchedulerExactlyOnce.ExactlyOnce` | internal/scheduler/service.go:201-286 | over every interleaving of claims, calls at any time after them, journal commits, acceptances, reconciliations, loads and writes of edits, and crashes, with clock readings that may be old: no occurrence is dispatched twice, receipts are unique, a stored run is the run of the occurrence's receipt, a skipped one is never dispatched |
| `SchedulerLost.StepLost` | internal/scheduler/service.go:201-286 | the occurrences with a receipt that are marked failed without a run, after any step: those before it, less one whose acceptance is written, and one more exactly when a call commits for a row already failed without a run, or a failure is written to a row that has got a receipt and no run |
| `SchedulerLost.RunLostIff` | internal/scheduler/store.go:651-695 | over every run from an empty database, no committed dispatch is ever marked failed without its run if and only if no step is of these two kinds |
| `SchedulerLost.LostForGood` | internal/scheduler/store.go:556-584 | a dispatch so lost that no agent has in hand or in a listing stays lost in every run |
| `SchedulerLostRun.CommittedDispatchLost` | internal/scheduler/service.go:86-99 | a reachable run that loses one for good: RunNow claims 25 after its reading, a pass gives the occurrence up 6 after the claim, the call commits, and its caller crashes |
| `SchedulerPunctual.PunctualNeverLost` | internal/scheduler/service.go:201-241 | over every run in which each call commits no later than the grace period after the clock reading of its claim, none is lost: a failed occurrence with a receipt carries its run |
| `SchedulerExactlyOnce.CommittedDispatchRecovers` | internal/scheduler/service.go:243-286 | a dispatch that reports an error after its events committed finds its receipt, is accepted, and is completed, interrupted, failed, waiting or active exactly as its run is |
| `SchedulerOverlap.OnePerSlot` | internal/scheduler/store.go:937-955 | over every run, late decisions included: a schedule has at most one occurrence per slot, no slot lies after its claim and no claim after the clock |
| `SchedulerOverlap.StepShapeIff` | internal/scheduler/store.go:253-341 | claims, by hand and with any clock reading too, and edits keep the shape of the next row; a late decision keeps it if and only if what it reopens was claimed before exactly those open occurrences of its schedule whose slots are earlier |
| `SchedulerOverlap.OrderlyRunOverlap` | internal/scheduler/store.go:488-554 | over every run without reopening, with RunNow calls that claim with old readings, stale edits and crashes: of two open occurrences of one schedule the later claimed has the strictly earlier slot, which had passed when the other was claimed |
| `SchedulerCrowding.StepCrowdsIff` | internal/scheduler/store.go:937-955 | for any k, a step keeps every schedule at no more than k open occurrences if and only if it does not claim a free slot earlier than those of k open ones, nor reopen one next to k |
| `SchedulerCrowding.RunCrowdedIff` | internal/scheduler/store.go:488-554 | over every run of any agents, readings, edits, crashes and late decisions: at most k are open in every state if and only if no step is of that kind |
| `SchedulerCrowding.TimelyNeverCrowds` | internal/scheduler/store.go:488-554 | a RunNow whose reading is not before the slot of any open occurrence is never of that kind |
| `SchedulerAhead.StepAheadIff` | internal/scheduler/store.go:113-185 | only the write of an edit can leave a next run before the slot of what the scheduler itself has open, and it does if and only if, before the write, the row it is going to write does |
| `SchedulerAhead.WriteExcludesOverlapIff` | internal/scheduler/store.go:113-185 | the write of an edit rules out that the next due claim makes two open if and only if, before it, the row it will leave is disabled, invalid or without a next run, or that slot is taken or not before the open one |
| `SchedulerAhead.SoloNoOverlap` | internal/scheduler/store.go:343-369 | without RunNow, and with edits none of which writes such a next run, a schedule has at most one open occurrence in every state, whatever crashes |
| `SchedulerAhead.TimelyAtMostTwo` | internal/scheduler/service.go:86-99 | with RunNow that reads in time, besides, at most two: one claimed by hand and one the loop claimed later |
| `SchedulerOverlapRuns.ManyByHand` | internal/scheduler/service.go:86-99 | for every n a reachable run in which n RunNow calls claim in the reverse order of their readings and all n occurrences are open |
| `SchedulerOverlapRuns.StaleWriteOverlaps` | internal/scheduler/store.go:113-185 | a reachable run of the loop alone in which an update that only renames writes back an old next run, and two are open |
| `SchedulerLateAccept.LateAcceptBreaksShape` | internal/scheduler/store.go:631-649 | a reachable run in which a late acceptance reopens a finished occurrence next to a later one: the condition on reopening is needed |
| `SchedulerFailures.FailureCounter` | internal/scheduler/store.go:651-781 | over every run, last_status failed means consecutive_failures is the length of the trailing block of failures written; completed or interrupted means 0; needs_approval leaves the count and ends the block |
| `SchedulerService.Service.ReconcileOccurrence` | internal/scheduler/service.go:201-241 | one open occurrence: sync with its run, accept and sync by receipt, fail when dispatching past the grace period, or leave |
| `SchedulerService.Service.ReconcileOpenOccurrences` | internal/scheduler/service.go:201-241 | the loop is the fold of that over the listing taken at its start |
| `SchedulerService.PassReconciles` | internal/scheduler/service.go:201-241 | from sound tables a pass meets no error, leaves every schedule's times alone, and brings every open occurrence up to date: one with a run, its own or its receipt's, has that run and its status, one without is failed if it has been dispatching past the grace period and otherwise left |
| `SchedulerService.Service.Repair` | internal/scheduler/service.go:128-138 | an error-free repair leaves the tables sound, every occurrence so brought up to date, and next runs filled in |
| `SchedulerService.Service.CallDispatcher` | internal/scheduler/service.go:243-262 | the call starts a run if and only if nothing refuses it, its conversation has no open root run and the session it would open is not there; then its batch is journaled, and otherwise nothing |
| `SchedulerService.Service.DispatchClaimedOccurrence` | internal/scheduler/service.go:243-286 | a first dispatch meets no error: its run and receipt are journaled and the occurrence is active with that run, or the journal is as it was and the occurrence has failed without one |
| `SchedulerService.Service.ClaimAndDispatch` | internal/scheduler/service.go:154-166 | one round takes exactly its schedule off the due ones; with a new id, its slot was taken and nothing changes, or there is one row more, which is skipped behind an earlier open one or else has had that dispatch |
| `SchedulerService.Service.DrainDue` | internal/scheduler/service.go:148-169 | what is still due afterwards is max(0, due - limit); with new ids, every occurrence that was there is as it was, and every new one is skipped, or has the run of its receipt and is not dispatching, or has no receipt and has failed |
| `SchedulerService.Service.RunOnce` | internal/scheduler/service.go:140-169 | after an error-free pass the schedules still due at that instant number max(0, due - dueLimit), counting skipped and duplicate slots; every occurrence that was there is brought up to date, and every new one is done with as after a drain |
| `SchedulerWake.WakeTimer.NextWakeAt` | internal/scheduler/store.go:409-427 | the earliest next run of an enabled schedule, if any |
| `SchedulerWake.WakeTimer.NextWakeDelay` | internal/scheduler/service.go:171-199 | the delay lies between the minimum and the interval, never runs past a next run except by the minimum, and is shorter than the interval only when some schedule is due by its end |
| `SchedulerService.LinkedIsSound` | internal/scheduler/service.go:201-241 | every state a run can reach satisfies what reconciliation relies on |
| `SchedulerSteps.TurnRefines` | internal/scheduler/service.go:201-241 | a turn of the reconciliation loop is a run of one agent in the concurrent system: if nobody comes between its steps they leave what the turn leaves |
| `SchedulerSteps.DispatchRefines` | internal/scheduler/service.go:243-286 | the steps of the agent that holds a claim, call, lookup, acceptance, sync or failure, end with the occurrence answered as the dispatch promises |
| `Startup.ReconcileInterrupted` | internal/runtime/runs.go:1937-1982 | every active or pending run becomes interrupted, no other run changes, and the count is their number |
| `Startup.App.Prepare` | internal/app/lifecycle.go:18-52 | after an error-free first start no run is active or pending and every open occurrence waits on a needs_approval run or is dispatching, without receipt and no older than the grace period; a second call changes nothing |
| `Startup.EveryCrashIsSound` | internal/app/lifecycle.go:33-52 | what start-up requires holds in every state any run can leave behind, a crash included |
| `Journal.ConversationStore.AppendEvents` | internal/conversations/service.go:106-129 | the loop inside the transaction commits the fold of all projections or, on the first error, nothing |
| `Journal.AppendConcat` | internal/conversations/service.go:106-129 | appending two batches as one is appending one after the other, if the first succeeds |
| `Journal.AppendExtends` | internal/conversations/service.go:106-129 | a committed batch is journaled whole, in order, after everything before it |
| `Journal.AppendsOne` | internal/conversations/service.go:106-129 | an event under an id that is taken is refused; any other is journaled last, if its projection succeeds |
| `Journal.RunEvents` | internal/conversations/service.go:242-400 | what each kind of run event does to runs and receipts, and which are refused beside an open root run |
| `Journal.TableEvents` | internal/conversations/service.go:423-560 | what each other kind does to sessions, messages, bindings, receipts of messages and intents, and which unique key refuses it |
| `JournalTokens.EveryJournalAccounted` | internal/conversations/service.go:259-274 | for every journal a run stores the sums over the turns journaled since it started |
| `JournalTokens.StoredIsTurnSumIff` | internal/conversations/service.go:259-274 | they are the sums over all its turns if and only if the turns before its start add up to nothing |
| `JournalTokens.EarlyTurnLost` | internal/conversations/service.go:259-274 | a turn journaled before run_started is lost to the totals |
| `JournalBindings.EveryJournalRouted` | internal/conversations/service.go:458-507 | for every journal at most one binding of a conversation and thread is active and every replacement points strictly forward within the thread |
| `JournalBindings.SettleEnds` | internal/conversations/service.go:458-507 | following replaced_by_route_id stays in the thread, moves strictly forward in the journal and ends at a row that was not replaced |
| `JournalBindings.ActiveEndIsTheRoute` | internal/conversations/service.go:458-507 | an active end is the only active binding of the thread |
| `JournalBindings.EveryWalkSettlesIff` | internal/conversations/service.go:458-507 | every walk ends at an active or deactivated binding if and only if no session_bound event asked for another status |
| `Inbound.BatchOutcome` | internal/runtime/collaboration.go:712-828 | the outcome of the whole start batch, error by error, from the state of the unique keys |
| `Inbound.DuplicateRollsBack` | internal/runtime/collaboration.go:712-828 | a duplicate batch leaves no trace; its error is the receipt's key if and only if the conversation is free and its session is not created again |
| `Inbound.CommitKeeps` | internal/conversations/service.go:508-531 | receipts and runs are only ever added and receipt keys stay distinct |
| `Inbound.ReceiveInboundMessage` | internal/runtime/collaboration.go:159-230 | existing receipt first, then the checks, then the batch, then the receipt again if the batch met it, with any commits of others between any two of these |
| `Inbound.ReceiveOnce` | internal/runtime/collaboration.go:159-230 | after a message has started a run, the same message gets that run and journals nothing, whatever was committed in between |
| `Inbound.RaceSettles` | internal/runtime/collaboration.go:159-230 | of two receivers of one message, however their lookups, checks and batches interleave, the one whose batch comes second starts and journals nothing; it is answered with the first one's run if and only if it looked up after it, or was not refused, found no open root run at its check or its batch, and did not create a session that is there by then |
| `RunLoop.Runtime.ExecuteRunLoop` | internal/runtime/runs.go:559-873 | a run that cannot be loaded is left alone; on any other the loop ends at the first turn that does not go on or finds no budget, as told from the script: without budget interrupted after k calls, failing before the call at k, and after k + 1 calls failed by the provider, an error of a write or batch, paused by a batch that pauses, interrupted by an empty turn that is no end, or completed by an end, with a receipt for what was used; only that, or the end of the turns, completes the run |
| `RunLoop.FirstStopExists` | internal/runtime/runs.go:605-609 | there is always such a turn, or the end of the turns |
| `RunLoop.Runtime.RunTurn` | internal/runtime/runs.go:609-822 | one turn, from the budget check to its verdict |
| `RunLoop.StepEnds` | internal/runtime/runs.go:643-822 | a turn with budget that does not go on ends the loop: errored, failed, paused, interrupted or finished by the first of the causes in the script |
| `RunLoop.StepStops` | internal/runtime/runs.go:606-631 | a turn without budget interrupts the run and calls nobody |
| `RunLoop.ProviderUnderCap` | internal/runtime/runs.go:122-128 | at most ten provider calls, each only while the stored total is below a positive cap, less what overlapping loops added since; with none, simply below the cap |
| `RunLoop.ReceiptIsStoredIff` | internal/runtime/runs.go:823-848 | the receipt of a completed run carries the stored totals whenever no batch of anybody else holds a turn of the run (`QuietScript`); in general, if and only if what others added comes to nothing |
| `RunLoop.OutcomeBalanced` | internal/runtime/runs.go:594-597 | what the loop counts plus what others added is what the run stores, on every exit; a script without foreign turns has nothing to add |
| `RunLoop.OvershootOneTurn` | internal/runtime/runs.go:609-635 | however often a run is resumed, its stored total stays below the cap plus its largest single turn |
| `ToolBatch.Runtime.ExecuteToolCalls` | internal/runtime/runs.go:894-1028 | results for exactly the calls before the first ask, through the first still-active delegation, or all; one ticket at most, for the ask; paused exactly in the first two cases; a failing write ends the batch |
| `ToolBatch.Runtime.ExecuteToolCall` | internal/runtime/runs.go:917-1026 | one call, in its own fields: what is run, what is recorded, whether a ticket is issued and whether the batch goes on |
| `ToolBatch.BatchEnds` | internal/runtime/runs.go:917-1028 | what the end of a batch means in the fields of its calls: no call before it asked, failed or left a delegation active, and the call at the end decides outcome, ticket and number of results |
| `ToolBatch.StopUnique` | internal/runtime/runs.go:926-1026 | where a batch stops is determined by its calls |
| `ToolBatch.BatchesCompose` | internal/runtime/runs.go:926-1026 | after calls that do not stop, a batch goes on as the rest would alone |
| `ToolBatch.AskNeverInvoked` | internal/runtime/runs.go:983-1006 | only registered, allowed calls are ever run |
| `ContextEvents.LatestToolCallEvents` | internal/runtime/runs.go:1129-1166 | the two loops compute the specified selection |
| `ContextEvents.KeepsOrder` | internal/runtime/runs.go:1129-1166 | what is kept keeps its order |
| `ContextEvents.KeepsKeyless` | internal/runtime/runs.go:1143-1152 | every event without a usable call id is kept |
| `ContextEvents.KeepsLastUnder` | internal/runtime/runs.go:1153-1157 | of each call id exactly the last record is kept |
| `ContextEvents.Idempotent` | internal/runtime/runs.go:1129-1166 | selecting twice selects nothing more |
| `ContextEvents.LatestAppend` | internal/runtime/runs.go:1129-1166 | a new record takes the place of the one under its id and leaves the rest |
| `ContextEvents.ParentJournal.AppendUpdatedParentSpawnResult` | internal/runtime/runs.go:1678-1770 | appends one record for the last allowed delegation with the child's result, nothing when there is none, an error at an undecodable record |
| `ContextEvents.LastDelegationIsLast` | internal/runtime/runs.go:1678-1770 | the record found is of a delegating tool that was allowed, and no later record is |
| `ContextEvents.UndecodableIff` | internal/runtime/runs.go:1678-1770 | the update fails exactly if a record does not decode |
| `ContextEvents.ChildResultReplaces` | internal/runtime/runs.go:1678-1770 | the reloaded context then has exactly one record of that call, with the child's status, and is otherwise unchanged |
| `ContextEvents.ChildResultReplacesIff` | internal/runtime/runs.go:1149-1152 | the earlier record goes if and only if the call id is not blank |
| `Approvals.ApprovalTable.ResolveTicket` | internal/tools/approvals.go:43-76 | read, then compare-and-set against whatever the table has become: "approved" stores approved and "denied" denied exactly when the ticket is pending both times; any other text, a missing ticket, one that is not pending and a lost race are the errors they are |
| `Approvals.ApprovalTable.ExpireStaleApprovals` | internal/runtime/runs.go:1986-2005 | the sweep expires exactly the stale pending tickets and counts them |
| `Approvals.OneWinner` | internal/tools/approvals.go:43-76 | over every interleaving of resolvers, sweeps and crashes a ticket leaves pending at most once and its status is the winner's |
| `Approvals.InvokedOnce` | internal/runtime/runs.go:2325-2488 | the gated tool is invoked at most once per ticket, only after a resolver approved it, with exactly the stored tool and arguments |
| `Approvals.AsSaid` | internal/runtime/runs.go:2318-2488 | over every interleaving the gated tool is run only for a resolver that said "approved" of that ticket, and a ticket becomes approved or denied only by a resolver that said just that of it |
| `Approvals.SettledAsSaid` | internal/runtime/runs.go:2318-2488 | a resolver nobody disturbs settles a pending ticket as it says; approved, the tool is run once with what the ticket stores, denied, nothing is run |
| `Approvals.ResolversEnd` | internal/runtime/runs.go:2318-2488 | a resolver that loses, finds no run or is done is gone, and a crash leaves none |
| `Approvals.DecidedForGood` | internal/tools/approvals.go:60-66 | a decided ticket never changes again |
| `Approvals.VerifiedWasApproved` | internal/tools/approvals.go:92-107 | a ticket verifies if and only if some resolver approved it and the fingerprint is the stored one |
| `Approvals.SweptIsFresh` | internal/runtime/runs.go:1986-2005 | a sweep leaves pending exactly the pending tickets at most a day old whose runs wait for them, and expires the other pending ones; a second sweep does nothing |
| `Supervisor.PruneRestarts` | internal/app/connector_supervisor.go:196-209 | the filter that writes over the slice it reads leaves exactly the times after the cutoff, in order |
| `Supervisor.SupervisedConnector.RequestRestart` | internal/app/connector_supervisor.go:183-194 | granted if and only if fewer than the limit remain after the prune |
| `Supervisor.SupervisedConnector.CollectExit` | internal/app/connector_supervisor.go:129-151 | what the exit of the running instance changes, by its kind, shutdown and pending request |
| `Supervisor.SupervisedConnector.RestartIfDegraded` | internal/app/connector_supervisor.go:153-172 | a degraded connector past its grace asks once; it is cancelled exactly when granted |
| `Supervisor.SupervisedConnector.StartPending` | internal/app/connector_supervisor.go:174-181 | starts exactly what is requested, stopped, past its cooldown and not shutting down |
| `Supervisor.SupervisedConnector.Tick` | internal/app/connector_supervisor.go:102-109 | a tick is the three in order |
| `Supervisor.ChecksAsk` | internal/app/connector_supervisor.go:153-172 | a check asks for a restart exactly of a running connector with nothing requested, past its grace, whose report says degraded and suggests a restart |
| `Supervisor.TickIsThreeSteps` | internal/app/connector_supervisor.go:102-109 | in the runs a tick is the three steps at one reading of the clock |
| `Supervisor.ShutdownEndsIt` | internal/app/connector_supervisor.go:129-181 | after the shutdown nothing is started in any run |
| `Supervisor.RunSupervised` | internal/app/connector_supervisor.go:113-209 | the invariants hold through every order of these steps, instance ends and shutdown |
| `Supervisor.SupervisedFromTheStart` | internal/app/connector_supervisor.go:113-209 | in every half-open hour at most MaxRestartsPerHour grants, starts at least RestartCooldown apart, at most one live instance, one start per grant |
| `Supervisor.AbandonedForGood` | internal/app/connector_supervisor.go:129-181 | not running and nothing requested is final |
| `Supervisor.AbandonedIff` | internal/app/connector_supervisor.go:129-151 | a connector is given up exactly when an unrequested exit was a cancellation, came during shutdown, or found the hour used up |
| `Supervisor.ClosedHourIff` | internal/app/connector_supervisor.go:183-209 | over every run, hours with both ends keep the limit if and only if each grant found one to spare with the restart of exactly an hour before still counted; and no such hour is ever more than one over |
| `Supervisor.StepClosedIff` | internal/app/connector_supervisor.go:183-194 | a step keeps the limit for such hours if and only if it grants nothing or finds one to spare |
| `Supervisor.SpareSeen` | internal/app/connector_supervisor.go:196-209 | at a tick later than the last, whether there is one to spare can be read off the restarts the connector remembers |
| `Supervisor.ClosedHourExceeded` | internal/app/connector_supervisor.go:201-208 | a reachable run in which such an hour is one over |
| `Pagination.ReverseSlice` | internal/sessions/pagination.go:73-77 | the in-place swaps reverse the slice |
| `Pagination.BuildPage` | internal/sessions/service.go:470-519 | truncation, reversal, flags and cursors as specified |
| `Pagination.PagesServe` | internal/sessions/service.go:376-519 | from every cursor with rows after it a forward page shows exactly the next rows, and from every row but the first a backward page exactly the rows just before it; HasNext iff rows follow, HasPrev iff rows precede, and both cursors stand right |
| `Pagination.WalkVisitsAll` | internal/sessions/service.go:376-519 | following next cursors from the first page sees every row exactly once, in order |
| `Pagination.BackUndoesForward` | internal/sessions/service.go:376-519 | next and then prev gives back the page one was on, flags and cursors included |
| `Pagination.MemoryLastPage` | internal/memory/store.go:472-506 | a memory page asked backward without a cursor shows the last rows |
| `Pagination.BackwardWithoutCursorIff` | internal/sessions/service.go:376-431 | a session, route or delivery page asked backward without a cursor shows what it must if and only if the table fits on one page |
| `PageOrders.SessionWalk` | internal/sessions/service.go:376-431 | the four-disjunct cursor predicates are the two sides of the four-key mixed order, and its walk is complete |
| `PageOrders.RouteWalk` | internal/sessions/service.go:680-706 | the same for routes |
| `PageOrders.DeliveryWalk` | internal/sessions/service.go:952-990 | the same for deliveries |
| `PageOrders.MemoryWalk` | internal/memory/store.go:307-322 | the same for memory items, with text keys |
| `PageOrders.MemoryCursorRoundTripIff` | internal/memory/store.go:454-470 | a memory cursor survives its text form if and only if both halves are non-empty and the time holds no separator |
| `PageOrders.MemoryCursorParsed` | internal/memory/store.go:454-470 | whatever parses is the text form of what it parses to |
| `LineSplit.SplitWhole` | internal/logstream/sink.go:61-80 | cutting into lines loses nothing |
| `LineSplit.SplitAtNewlines` | internal/logstream/sink.go:61-80 | every line but the leftover ends in its only newline, and the leftover has none |
| `LineSplit.SplitUnique` | internal/logstream/sink.go:61-80 | it is the only such cut |
| `LogStream.Sink.Write` | internal/logstream/sink.go:61-80 | a write appends the parsed lines and keeps the leftover; the sink always holds the last maxEntries, numbered without a gap |
| `LogStream.Sink.Append` | internal/logstream/sink.go:156-184 | one entry more, the oldest dropped over the limit |
| `LogStream.Sink.Snapshot` | internal/logstream/sink.go:102-131 | the last limit of the matching entries kept |
| `LogStream.ChunksIrrelevant` | internal/logstream/sink.go:61-80 | any cut of a stream into writes gives the entries and leftover of one write |
| `LogStream.SnapshotLatest` | internal/logstream/sink.go:102-131 | a kept match is left out of a snapshot only if later ones fill it |
| `Capture.StreamCaptureWriter.Write` | internal/tools/repo_exec.go:262-279 | every byte is captured whatever the sink does, records and pending bytes together are the captured bytes, a successful write has recorded every complete line |
| `Capture.StreamCaptureWriter.Flush` | internal/tools/repo_exec.go:281-283 | a successful flush leaves nothing pending |
| `Capture.StreamCaptureWriter.FlushLines` | internal/tools/repo_exec.go:285-311 | one record per line, the unfinished one only on a flush; an error means the sink refused a record |
| `Capture.OneRecordPerLine` | internal/tools/repo_exec.go:262-311 | over any number of writes to a willing sink there is one record per line |
| `Auth.AuthDb.SetPassword` | internal/auth/auth.go:120-149 | a blank password is refused; otherwise every open session is revoked |
| `Auth.AuthDb.Login` | internal/auth/auth.go:176-245 | an unset or wrong password is refused; if the cookie names a device of the table, a blocked one is refused and changes nothing, and an unblocked one gets the session with no device added; otherwise exactly the new device is added and gets it; then a cleanup; with anything others do between the check of the password and the transaction, the session is opened with a password no longer set exactly when they have set another |
| `Auth.LoginOpens` | internal/auth/auth.go:460-548 | the same of the step in the runs |
| `Auth.AuthDb.ChangePassword` | internal/auth/auth.go:169-174 | a wrong current password changes nothing; otherwise the new one is set and every open session revoked, whatever others have done in between |
| `Auth.StaleLoginIff` | internal/auth/auth.go:176-245 | over every reachable run, a session is opened with a password no longer set if and only if the last change between the check and the transaction set another; it authenticates until it expires all the same |
| `Auth.ReplacedPasswordOpens` | internal/auth/auth.go:176-245 | such a run: the session opened with the old password authenticates after the change |
| `Auth.AuthDb.AuthenticateSession` | internal/auth/auth.go:247-307 | the errors in their order, or the session and then the device touched in whatever others have made of the tables before and between |
| `Auth.AuthenticateErrors` | internal/auth/auth.go:247-307 | the first of these decides: no such session or device, blocked, revoked, expired |
| `Auth.TouchesOne` | internal/auth/auth.go:285-299 | a touch moves the time one row was last seen |
| `Auth.AuthDb.LogoutSession` | internal/auth/auth.go:309-329 | revokes the session once and cleans up; an unsigned cookie changes nothing |
| `Auth.RevokesOpen` | internal/auth/auth.go:120-149 | a logout, a revocation of a device and a password change close exactly the open sessions they are about, and move no earlier revocation |
| `Auth.AuthDb.MutateDevice` | internal/auth/auth.go:550-599 | block or unblock, sessions of a blocked device revoked, missing device refused |
| `Auth.BlockIsUndone` | internal/auth/auth.go:550-599 | blocking marks the device once and closes its open sessions, unblocking takes the mark away and brings none back |
| `Auth.AuthDb.RevokeDeviceSessions` | internal/auth/auth.go:339-361 | revokes what is open; refused only for an unknown device |
| `Auth.AuthDb.Cleanup` | internal/auth/auth.go:412-452 | removes the oldest due sessions, then the oldest stale devices, at most 128 of each |
| `Auth.CleanupExact` | internal/auth/auth.go:412-452 | the sessions revoked or expired a day ago or earlier, then the devices not blocked, without session and not seen for 90 days: of each as many as there are up to 128, none younger than one that stays |
| `Auth.AuthenticatesIff` | internal/auth/auth.go:247-307 | in every reachable state a session authenticates if and only if it was issued, no logout, block, device revocation or password change came since, and it has not expired, also for a clock reading up to a day old |
| `Auth.NeverAgain` | internal/auth/auth.go:120-149 | a session issued before a password change or a block of its device never authenticates again |
| `Auth.BlockedHasNone` | internal/auth/auth.go:550-599 | a blocked device has no unrevoked session |
| `Auth.RevocationStands` | internal/auth/auth.go:309-361 | a revocation is never undone or moved |
| `Auth.CleanupIsSafe` | internal/auth/auth.go:412-452 | cleanup removes no session that could authenticate, no blocked device and none with sessions, and changes no row it keeps |
| `Auth.StepsAreStatements` | internal/auth/auth.go:412-452 | in the runs the touches, the unblocking and the two halves of a cleanup do what their statements do |
| `PathGuard.EnsureNoSymlinkEscape` | internal/tools/path_guard.go:88-126 | the loop is the guard |
| `PathGuard.WithinIff` | internal/tools/path_guard.go:39-41 | the text prefix test is the component prefix test, and under "/" it admits only "/" |
| `PathGuard.GuardSound` | internal/tools/path_guard.go:88-126 | what the guard accepts the system resolves to a place under the root, or to a missing component there |
| `PathGuard.GuardIff` | internal/tools/path_guard.go:88-126 | below a real root the guard accepts a path if and only if, up to the first component missing from its directory, every prefix resolves and every link among its components resolves to a place under the root |
| `PathGuard.AcceptedStaysUnderRoot` | internal/tools/path_guard.go:12-52 | an accepted path is the root joined with the returned relative path and, in every file tree with links, physically resolves under the root up to its first missing component |
| `PathGuard.WholeTreeAcceptsOnlyRoot` | internal/tools/path_guard.go:39-41 | with "/" as the directory only "/" is accepted |
| `PathGuard.DetourRejected` | internal/tools/path_guard.go:118-121 | a path that leaves and comes back is turned away |

## Left out

- Slots.NextDefined: the cron library is a function of the spec that returns nothing or a later instant; time zones and RFC 3339 texts are resolved before the model begins, and a text that does not parse is an error value.
- SchedulerOverlap.OrderlyRunOverlap: asks that no step reopens a closed occurrence, because the unconditional acceptance refutes the claim otherwise (`SchedulerLateAccept.LateAcceptBreaksShape`); `SchedulerOverlap.StepShapeIff` gives the exact condition for a step.
- SchedulerAhead.SoloNoOverlap: asks more of an edit than the exact condition for its next claim, `SchedulerAhead.WriteExcludesOverlapIff`: a next run that lies behind on a taken slot may move to a free one later; `SchedulerCrowding.RunCrowdedIff` is exact for whole runs.
- SchedulerService.Service.RunOnce: nobody else writes between the transactions of the pass, which the count of what is still due needs; the same holds for `DrainDue` and for the loop of `RepairMissingNextRunAt`. The properties of `scheduler_world` and what follows from it allow any other writer between any two.
- RunLoop.ProviderUnderCap: the working-memory events, session messages and outbound intents of a turn stand among what others commit; context assembly, presence and streaming are not modelled.
- Inbound.RaceSettles: which session a message goes to is part of the plan; loading a run that a receipt names does not fail, and errors after the batch has committed stand in `SchedulerWorld.Delivered` alone.
- RunLoop.ReceiptIsStoredIff: cost, model lane and model id on receipts and runs are not modelled.
- ContextEvents.LatestToolCallEvents: events come in journal order, which is the order of their creation times as long as the clock does not go back.
- ToolBatch.Runtime.ExecuteToolCalls: the policy's decision, the tool's result and failing writes come with each call; gates and prompts of an ask are not modelled beyond their failing.
- Approvals.InvokedOnce: gates, session messages and the continuation of the run after the decision are not modelled; a failure among them is the resolver stopping.
- Approvals.VerifiedWasApproved: the fingerprint is a value taken at creation, not the hash of its parts.
- LogStream.Sink.Write: what a line is parsed into and which entries a query matches are parameters, so the claims hold for the program's own parser and filter among others; subscribers, the list of sources and entry times are not modelled.
- Capture.StreamCaptureWriter.Write: the sink is a function that accepts or refuses its n-th record; cancellation is a refusal.
- Auth.AuthDb.Login: passwords and tokens are compared as values (hashing and signing taken as injective), one identifier stands for a session and its token, and display columns are not modelled.
- PathGuard.AcceptedStaysUnderRoot: the file tree does not change while a path is resolved; the elevated mode that skips the guard for absolute paths is not modelled.
- Pagination.WalkVisitsAll: the table is fixed during the walk and filters are applied to it beforehand; the JSON and base64 text of session, route and delivery cursors is not modelled.
- Supervisor.SupervisedFromTheStart: one connector at a time; cancelling an instance has no effect of its own besides the exit it brings about, and health persistence is not modelled.
- DeleteSchedule and ResetConversation: removal of whole schedules and conversations.
- Text columns, update times and authority envelopes of schedules, occurrences, runs and sessions.
- The projections of tool calls, gates and summaries, which no property here reads.
- Terminal run statuses as absorbing and one open root run under concurrent starts: the program does not keep the first, and leaves the second to a unique index.
- Providers, connectors, web handlers, CLI, configuration, process execution, prompt assembly and memory matching.
