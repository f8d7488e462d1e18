# Verified model of the outreach orchestrator

The orchestrator turns account events (a delinquency, a failed payment, a payment, an opt-out, a
hardship request, a pause) into outreach tasks, and sends those tasks through channel adapters.
Several processes work on one database at the same time: API processes that ingest events and plan
outreach in one transaction, dispatch workers that claim, send and record, and operators who enter
delivery results by hand or cancel an account's queue.

This project models the whole service as one transition system and proves what its documentation
promises over every run: any number of submitters, workers and operators, any interleaving of their
commits, crashes at any point. Where a promise is false of the code, a concrete run shows it and a
lemma gives the exact condition under which it holds.

## How the model is built

A `Store` is the committed database: customers, accounts, events, decisions, tasks, the append-only
audit log, and the clock that stamps `created_at`. A `System` adds what processes hold outside it:
worker claims (each with the worker's in-memory copy of the row), submissions whose first lookup
found nothing, and the answers given so far. A `Step` is one commit, one provider answer or one
process ending. A step that is not possible in a state leaves it as it is, so every sequence of
steps is a run, and a claim about `Reached(clock, steps)` is a claim about every reachable state.

The duplicate check and the insertion of an event are two steps. A planner cancellation works from
the tasks it selects in the same commit (`Insert(i, None)`), or from an answer its query gave
earlier, while other transactions committed (`Insert(i, Some(ids))`). All results hold with both,
except where `None` or a serial run is named.

The code that changes rows in place is modelled in place too. `RunningService.World` is a class
with the tables as fields, and the worker, the planner, the ingestion and the operational API are
methods on it with the loops of the source. Each method is proved to move the world exactly as the
transition system does, with arbitrary steps of other processes (`between`, `turns`) where the
source awaits between commits. The lemmas about runs therefore apply to the procedures.

| file | content |
|---|---|
| counting, projection | counting rows, and reading some of them in order |
| models, inbound_events, wall_clock, policy, planner, ingestion, row_updates | the rows and the operations as functions |
| service | the transition system: `Step`, `Next`, `Run` |
| evolution, store_invariant, delivery, audit_fold, insertion, run_invariant | the invariant and that every step keeps it |
| guarantees, decision_log, event_log, planner_loop, rolling_cap, quiet_hours, reclaiming, opt_out, final_status, workload, draining | the results |
| counterexamples, quiet_hour_runs, key_collisions | runs on which tempting claims fail |
| running_service, dispatch_worker, planner_procedure, ingestion_procedure, operational_outreach | the imperative procedures |

A file holds the module of its name (`quiet_hours.dfy` holds `QuietHours`).

## Model

| member | source | states |
|---|---|---|
| Guarantees.AtMostOneDelivery | src/orchestrator/workers/dispatch.py:69-123 | In every reachable state the provider has accepted at most one message per task, with any workers, crashes, manual results, cancellations and ingestions in between. |
| Guarantees.ExclusiveClaim | src/orchestrator/workers/dispatch.py:69-98 | At most one worker is busy with a task, and while it is, no pass can claim the task, whatever its time. |
| Guarantees.StaleCopyIsCurrent | src/orchestrator/workers/dispatch.py:163-190 | Whenever the conditional failure update goes through, the worker's in-memory attempt_count, max_attempts and scheduled_at equal the row's, so the task is queued again exactly when the row has attempts left. |
| Guarantees.AttemptsBounded | src/orchestrator/models.py:268-269 | attempt_count is the number of claims ever made on the task and never exceeds three, and a scheduled task always has an attempt left, although the claim does not look at max_attempts. |
| Guarantees.ManualResultIff | src/orchestrator/domain/operational_outreach.py:55-97 | In every reachable state a manual result is recorded exactly when the status read is scheduled, dispatching or failed and still stands; the row is then sent without error, or failed with the given or the standard text, with one audit row, and otherwise nothing changes. |
| Guarantees.AuditDeterminesTask | src/orchestrator/workers/dispatch.py:84-97 | Reading the audit log in commit order gives status, attempt_count, scheduled_at and last_error of every task row, and never meets an entry that does not fit the history before it. |
| Guarantees.FoldCountsStarts | src/orchestrator/workers/dispatch.py:84-95 | In any log that makes sense for a task, the attempt count read from it is the number of dispatch_started rows. |
| Guarantees.AttemptsAreLogged | src/orchestrator/workers/dispatch.py:69-97 | The attempt_count column, the number of dispatch_started rows and the number of claims made agree for every task. |
| DecisionLog.DecisionsAreExplained | src/orchestrator/orchestration/planner.py:231-323 | In every reachable state the log's rows about decisions are what the decisions table calls for, in its order and nothing besides: each decision with its outcome, channel and reasons, then its block, its deferral (with a time exactly for quiet hours) or its task. |
| EventLog.EventsAreLogged | src/orchestrator/orchestration/planner.py:98-178 | In every reachable state the log's rows about events are exactly those the accepted events call for, in order: two receipts each, one opt-out, hardship escalation or pause with the right customer or account, and one processed marker for each event that plans nothing. |
| EventLog.EventsAreDecided | src/orchestrator/orchestration/planner.py:422-446 | In every reachable state the decisions table is, for each delinquency, one decision on email, text and call, for each failed payment one on email and text, in order, and none for any other event. |
| Guarantees.OneAnswerPerIdentity | src/orchestrator/domain/event_ingestion.py:252-319 | All answers ever given for one source and external_id are equal: the original, every duplicate and every submitter that lost the race. |
| Guarantees.AnswersCountRows | src/orchestrator/domain/event_ingestion.py:252-304 | In every reachable state each answer given counts the event's tasks, its blocked and deferred decisions, the cancellations that name it, and its decisions. |
| Guarantees.OneEventPerIdentity | src/orchestrator/models.py:168-174 | At most one event per source and external_id, however the checks and insertions of submitters interleave. |
| Guarantees.ReplayAnswersTheSame | src/orchestrator/domain/event_ingestion.py:104-108 | Submitting an answered event again, at any later point of any run, changes no row, leaves nothing open and gives the first answer again, whatever became of its tasks. |
| Guarantees.OnlyAcceptedLeavesTrace | src/orchestrator/domain/event_ingestion.py:132-142 | A submission commits its event, with the columns as sent and marked processed, exactly when the account is not another customer's and no event has the key text; otherwise no row changes. The reply to the original equals the reply rebuilt from durable rows. |
| Guarantees.CollisionNeedsSeparator | src/orchestrator/domain/event_ingestion.py:135-142 | The error after an integrity violation without an existing event needs a separator in the submitted identity, and one in its source or in the source of an event already stored. |
| KeyCollisions.FailsIff | src/orchestrator/domain/event_ingestion.py:132-142 | Some run of submissions whose identities have 1 to 255 characters turns an event of this identity away with the integrity error, though no event has the identity, exactly if its key text holds a further separator that splits it into two such halves. |
| KeyCollisions.EventIsTurnedAway | src/orchestrator/domain/event_ingestion.py:132-142 | A concrete run that ends so, with no row and no reply left. |
| Insertion.ReplyMatchesPlan | src/orchestrator/domain/event_ingestion.py:252-319 | The counts rebuilt from decisions, the task join and the cancellation audit rows are the counts the planner returned. |
| RunInvariant.ReconstructStable | src/orchestrator/domain/event_ingestion.py:252-304 | No later change of the store that only appends decisions and audit rows about other events changes the rebuilt reply. |
| RunInvariant.StepKeeps | src/orchestrator/models.py:159-319 | Every step of every process keeps the invariant over rows, log, claims, decisions and replies. |
| Guarantees.PlanErrorIff | src/orchestrator/orchestration/planner.py:81-85 | Planning raises exactly when the event, its customer or its account is missing, or the account is another customer's. |
| Guarantees.PlannerIsIdempotent | src/orchestrator/orchestration/planner.py:200-206 | Planning an ingested event again, after any run and with any time, cap or selection, returns zeros and changes nothing, also where the first cancellation found nothing. |
| Guarantees.TaskIffSchedulable | src/orchestrator/orchestration/planner.py:231-308 | A task exists for an event and channel exactly when a decision on them is allow, or is defer with quiet_hours as its only reason. |
| Guarantees.DecisionLineage | src/orchestrator/orchestration/planner.py:231-240 | An event decides at most once on each channel, and every decision agrees with its event and with its account's owner. |
| Guarantees.TaskLineage | src/orchestrator/orchestration/planner.py:297-308 | Event and channel identify a task, and it agrees with its decision, its event and the owner of its account. |
| Guarantees.AccountNeverMoves | src/orchestrator/domain/event_ingestion.py:230-243 | An account once stored keeps its customer in every later state. |
| Guarantees.PauseLastsOneSnapshot | src/orchestrator/domain/event_ingestion.py:192-249 | After an event the account has the snapshot's status, or is paused if the event is a pause, whatever it was before; the customer has the snapshot's zone and consents, and the opt-out flag exactly if it was set or the event is an opt-out; nobody else changes. |
| Guarantees.InsertedTasksAreCompliant | src/orchestrator/orchestration/planner.py:214-308 | Every inserted task is scheduled, untried, with three attempts, stamped with the clock, and has consent for its channel, no opt-out, an account neither paused nor resolved, and for calls and texts a local time in [09:00, 20:00). |
| Guarantees.InsertedSchedule | src/orchestrator/orchestration/planner.py:422-464 | Every inserted task is due when the sequencing rules say: email at once, text at the first instant in [09:00, 20:00) local from 30 or 15 minutes on, call at 10:00 local three days after a Friday, two after a Saturday, else the next day. Stated in microseconds. |
| Guarantees.LoggedTimesAreRight | src/orchestrator/orchestration/planner.py:272-323 | Every time that planning an event logs, for a deferral or a task, is that of the sequencing rules. |
| Guarantees.CallsAreNeverQuiet | src/orchestrator/orchestration/planner.py:436-439 | A call proposal never gets the quiet_hours reason. |
| QuietHours.QuietHoursKeptIff | src/orchestrator/workers/dispatch.py:69-106 | In every reachable state, each provider call for a call or text was made by a pass inside the window of the zone stored for its customer at that moment exactly if the wait since its planned instant, a change of zone counted in, stopped short of closing or spanned whole nights; first attempts and retries alike. |
| QuietHours.FirstSendInWindowIff | src/orchestrator/workers/dispatch.py:69-78 | A call or text never claimed before is planned for an open instant of its event's zone; a pass claims it inside the window of the customer's stored zone exactly if its lateness, shifted by the change of zone, stops short of closing or spans whole nights. |
| QuietHours.RetryInWindowIff | src/orchestrator/workers/dispatch.py:172-187 | A retried call or text is due at its last claim's pass time plus retry delay; wherever the attempts before it fell, a pass claims it inside the window of the customer's stored zone exactly if the wait since the planned instant, which its first claim still holds, ends inside it. |
| QuietHours.WaitAddsUp | src/orchestrator/workers/dispatch.py:172-187 | The wait of a retry is the wait of the attempt before it, that pass's retry delay, and the lateness of its own pass, which is never negative. |
| QuietHours.ClaimRecordsZone | src/orchestrator/workers/dispatch.py:83 | The zone kept with a claim is the customer's stored zone when the claim commits. |
| QuietHours.TimedStep | src/orchestrator/orchestration/planner.py:272-308 | Every step keeps: queued calls and texts never claimed are due in their window, every other queued task at the retry time of its last claim, and every claim was made on such a row, not before it was due. |
| QuietHourRuns.LateTextIsSent | src/orchestrator/workers/dispatch.py:69-106 | A run on which a text planned for nine in the morning is sent by a pass at nine in the evening of its customer's stored zone. |
| QuietHourRuns.RetryIsSentAfterClosing | src/orchestrator/workers/dispatch.py:172-187 | A run on which a text that fails two minutes before closing is, with the default delay, retried and accepted after it by a pass that is not late. |
| QuietHourRuns.MovedTextIsSent | src/orchestrator/domain/event_ingestion.py:209-215 | After a later snapshot moved the customer twelve hours ahead, the text sent at the very instant it was planned for arrives at nine in the evening. |
| PlannerLoop.PlanAllClosedForm | src/orchestrator/orchestration/planner.py:208-331 | A pass creates min(unblocked proposals, max(0, cap - recent)) tasks, and counts the others that are blocked. |
| PlannerLoop.PlanAllInOrder | src/orchestrator/orchestration/planner.py:214-311 | Tasks go to proposals in order: however the list is split, the next proposal gets one exactly if it is unblocked and the unblocked ones before it leave room; if they do not, its decision carries frequency_cap_exceeded. The decision row has the columns of the subject and the verdict of the policy at that count. |
| PlannerLoop.PlanAllPartition | src/orchestrator/orchestration/planner.py:325-331 | created + blocked + cap-deferred = decisions stored = proposals. |
| Policy.OutcomeMeaning | src/orchestrator/policy/engine.py:61-104 | Blocks win over deferrals and deferrals over allowance, each outcome characterised exactly by the input's fields and the hours [09:00, 20:00). |
| Policy.ReasonsMeaning | src/orchestrator/policy/engine.py:61-128 | Each reason, policy_allowed included, is given exactly when its rule fires, and a deferral time exactly for quiet hours. |
| Policy.ReasonsInOrder | src/orchestrator/policy/engine.py:69-98 | Each reason is given once, in the order of the rules. |
| Policy.EvaluatePolicy | src/orchestrator/policy/engine.py:61-104 | The list-filling evaluation computes the policy function the two meanings above are about. |
| Policy.DeferralIsEarliest | src/orchestrator/policy/engine.py:131-163 | A quiet-hours deferral goes to the earliest open instant, at most 13 hours ahead, at 09:00 local, and evaluating again there gives no quiet_hours. |
| WallClock.ComputeNextBusinessDayAt10 | src/orchestrator/orchestration/planner.py:449-464 | The weekend loop ends at 10:00 local three days after a Friday, two after a Saturday and one after any other day, counting days from a Monday. |
| RollingCap.AtMostThreeInAnyDay | src/orchestrator/orchestration/planner.py:399-419 | If no inserted policy event is dated so that it overlooks an attempt of the last 24 hours, then in every reachable state at most three scheduled, dispatching, sent or failed tasks per customer were created in any 24 hours. |
| RollingCap.RecentAttemptsInColumns | src/orchestrator/orchestration/planner.py:27-32 | The planner's count is the number of the customer's scheduled, dispatching, sent and failed tasks created since 24 hours before the event's date. |
| RollingCap.TimelyEventsKeepTheCap | src/orchestrator/orchestration/planner.py:409-417 | That holds in particular when no event is dated after the clock when it is inserted. |
| RollingCap.PassKeepsCapIff | src/orchestrator/orchestration/planner.py:208-311 | One policy event keeps the cap exactly if it proposes nothing unblocked, or its own count is three, or what that count leaves room for fits beside the 24 hours before the database clock. |
| RollingCap.DateIsSafeIff | src/orchestrator/orchestration/planner.py:409-417 | An event's date keeps the cap for all its kinds, consents and statuses exactly if no attempt lies within 24 hours of the clock yet more than 24 hours before that date. |
| RollingCap.EarlierCountKeepsCapIff | src/orchestrator/orchestration/planner.py:208-331 | A pass that counted recent attempts at any earlier time keeps the cap exactly if it proposes nothing unblocked, or counted three, or what its count leaves room for fits beside the attempts now in the window. |
| Counterexamples.FutureDateDefeatsCap | src/orchestrator/orchestration/planner.py:409-417 | An event dated a day ahead makes six attempts in one window. |
| Reclaiming.ReclaimIff | src/orchestrator/workers/dispatch.py:163-190 | Some continuation claims a task again exactly if it is scheduled, or dispatching under a worker without acceptance and with attempts left; a crashed worker's task never comes back. |
| Counterexamples.EarlierCountDefeatsCap | src/orchestrator/orchestration/planner.py:399-419 | For a customer and account already stored with the same snapshots, two events whose attempts are both counted before either is inserted make six attempts in one window. |
| Reclaiming.AcceptedIff | src/orchestrator/workers/dispatch.py:100-123 | Some continuation has the provider accept a message for a task exactly if the task is queued, a worker with attempts left may send it back, or a call for it is open. |
| Reclaiming.CancellationInColumns | src/orchestrator/orchestration/planner.py:372-382 | A payment, opt-out, hardship request or pause that selects at its commit cancels exactly the scheduled tasks of its account and customer, and other events cancel none. |
| OptOut.OptOutSilences | src/orchestrator/orchestration/planner.py:106-129 | After an opt-out commits, from a current selection or one made earlier, in every continuation: the customer stays opted out, no task is created for them, and a task of that account claimed again was at the commit in flight, or queued and not on the list, and stays within three claims; a message of it accepted later answers a call open at the commit or comes from such a task. |
| OptOut.EarlierFlagSilentIff | src/orchestrator/orchestration/planner.py:214-230 | A pass that loaded the opt-out flag at any earlier time creates nothing exactly if the flag was set by then, or the snapshot permits no proposed channel, or the count is three. |
| OptOut.OptOutIsFinalIff | src/orchestrator/orchestration/planner.py:372-380 | In no continuation does the provider accept another message to an opted-out customer exactly if none of their tasks, on any account, is queued, in flight with attempts left, or being sent. |
| Counterexamples.OptOutLeavesOtherAccounts | src/orchestrator/orchestration/planner.py:372-380 | After an opt-out on one account, a message for a queued task of the customer's other account is accepted on some run. |
| Counterexamples.EarlierFlagDefeatsOptOut | src/orchestrator/orchestration/planner.py:85 | A pass that loaded the customer before an opt-out committed, and inserts after it, queues three tasks. |
| Counterexamples.OptOutMissesOpenCall | src/orchestrator/orchestration/planner.py:372-380 | A run on which nothing of the opted-out customer's can be claimed any more, and the provider accepts a message whose call was open when the opt-out committed. |
| Counterexamples.OptOutMissesRetry | src/orchestrator/orchestration/planner.py:372-382 | A run on which a retry recorded between the opt-out's query and its commit stays queued on the account, and its message can be accepted. |
| FinalStatus.SentChangesIff | src/orchestrator/orchestration/planner.py:381-382 | A sent row changes in a step exactly if a planner cancellation working from an earlier answer lists it, and then becomes cancelled. |
| FinalStatus.SentIsFinalWhenSerial | src/orchestrator/workers/dispatch.py:136-142 | When cancellations work from current answers, a sent row never changes again. |
| FinalStatus.CancelledIsFinal | src/orchestrator/domain/operational_outreach.py:20-26 | A cancelled row never changes again in any run. |
| FinalStatus.AcceptedMessageStatus | src/orchestrator/workers/dispatch.py:128-160 | The row of an accepted message is sent, dispatching, failed or cancelled, never queued, and cancelled only if some cancellation worked from an earlier answer; no other message for the task is ever accepted. |
| Counterexamples.LateCancelOverwritesSent | src/orchestrator/orchestration/planner.py:372-382 | A run on which a cancellation writes over a row the worker has sent, working from what its query answers at the submission. |
| Workload.EffectiveStepLowersRank | src/orchestrator/workers/dispatch.py:69-78 | Each claim and each recording that changes a row lowers the total rank of the tasks. |
| Workload.WorkIsBounded | src/orchestrator/workers/dispatch.py:163-209 | N accepted events cause at most 18 N such steps in any run, and what is left of the rank is the share still unused. |
| Workload.SendsAreBounded | src/orchestrator/orchestration/planner.py:432-445 | N accepted events cause at most 9 N provider calls in any run. |
| Draining.QueueDrains | src/orchestrator/workers/dispatch.py:54-125 | Undisturbed passes, each at a time t or later and as many as half the total rank, reach a state in which nothing is due at t, for any positive batch limit. |
| Draining.ThreePassesPerTask | src/orchestrator/workers/dispatch.py:33-41 | From any reachable state three passes for each task suffice for that, and with positive retry delays nothing is due at t when they end. |
| InboundEvents.KeyInjective | src/orchestrator/domain/inbound_events.py:11 | For separator-free sources the encoded identity determines source and external_id. |
| InboundEvents.KeyAmbiguousIff | src/orchestrator/domain/inbound_events.py:4-12 | Another identity has the same encoding exactly if the separator occurs in either half. |
| Counterexamples.KeysCollide | src/orchestrator/domain/inbound_events.py:7-11 | Two different identities with the same encoding. |
| DispatchWorker.SelectDue | src/orchestrator/workers/dispatch.py:54-62 | The query answers different scheduled tasks whose scheduled_at has come, at most the limit and all of them if they are fewer, ordered by scheduled_at and then created_at; none that is left out comes before one that is listed. Stated in the columns. |
| DispatchWorker.ClaimDueTask | src/orchestrator/workers/dispatch.py:69-98 | The conditional claim with its audit row moves the world as the claim step, and reports whether the row was taken. |
| DispatchWorker.RecordSuccessfulSend | src/orchestrator/workers/dispatch.py:128-160 | The conditional success update is the success step, silent on a row that is no longer dispatching. |
| DispatchWorker.RecordFailedSend | src/orchestrator/workers/dispatch.py:163-209 | The failure update, decided on the copy taken at the claim, is the failure step. |
| DispatchWorker.DispatchDueTasks | src/orchestrator/workers/dispatch.py:33-125 | A pass over such a list read once, with any other steps around each claim, call and recording, and a worker that may die after any of them, ends where its run ends, returns the number of its claims, claims no task twice, and undisturbed claims every selected task in order. |
| DispatchWorker.PassTakesWhatIsDue | src/orchestrator/workers/dispatch.py:64-98 | Whatever others do meanwhile, a pass whose worker lives goes through its whole list and claims exactly the tasks that are still scheduled and due when it comes to them. |
| DispatchWorker.PassClaimsOnce | src/orchestrator/workers/dispatch.py:64-98 | Whatever others do during a pass, two of its claims are never on one task, and there are at most as many as ids left. |
| DispatchWorker.UndisturbedPassTakesAll | src/orchestrator/workers/dispatch.py:54-98 | A pass left alone claims every id of its list, in order. |
| OperationalOutreach.RecordManualDeliveryResult | src/orchestrator/domain/operational_outreach.py:47-104 | The result is recorded exactly if the status read first is scheduled, dispatching or failed and the row still has it when updated; status, error and audit row are then as requested, and every other row as the others left it. |
| OperationalOutreach.CancelScheduledAccountOutreach | src/orchestrator/domain/operational_outreach.py:107-154 | The loop over a list selected once, with other processes at work before every update, ends where its run ends and counts exactly the updates that go through; left alone it cancels the account's whole queue with one audit row each. |
| OperationalOutreach.ReportedStaysCancelled | src/orchestrator/domain/operational_outreach.py:126-137 | Every task the loop counts is cancelled at its end, whatever others did meanwhile. |
| OperationalOutreach.CancelCountIsQueued | src/orchestrator/domain/operational_outreach.py:125-153 | Over distinct ids the count of the loop is the number scheduled at its start and the number of audit rows it adds. |
| PlannerProcedure.PlanProposals | src/orchestrator/orchestration/planner.py:208-331 | The loop with its counters stores the rows and returns the counts of the closed form's pass. |
| PlannerProcedure.CancelSelected | src/orchestrator/orchestration/planner.py:381-396 | The cancellation loop overwrites every listed row, logs each, and returns the length of the list. |
| PlannerProcedure.PlanOutreachForEvent | src/orchestrator/orchestration/planner.py:64-180 | The dispatch on the event type changes the tables as the planning function, and changes nothing where it raises. |
| IngestionProcedure.InsertInTransaction | src/orchestrator/domain/event_ingestion.py:110-178 | Flushing rows step by step and rolling back gives the verdict of the insertion function, all rows or none. |
| IngestionProcedure.IngestEventSnapshot | src/orchestrator/domain/event_ingestion.py:84-178 | Whatever others do between the lookup, the cancellation query and the commit, the call is this run of the service, with the query's answer as its list, and gives the answer the state at insertion demands. |
| IngestionProcedure.SelectionStays | src/orchestrator/orchestration/planner.py:372-382 | Whatever others do after the cancellation query, the tasks it selected are still distinct tasks of that account and customer when they are written. |
| IngestionProcedure.IngestLeaves | src/orchestrator/domain/event_ingestion.py:132-142 | An answered call leaves its answer as the last reply; any other leaves every row as the other processes left it. |

## Where the documentation says more than the code does

- The docstring at src/orchestrator/domain/inbound_events.py:7-8 says hashing avoids ambiguous
  separators. The text that is hashed is ambiguous as soon as either half contains U+001F
  (`KeyAmbiguousIff`).
- docs/compliance-assumptions.md:47 promises that an opt-out cancels the affected customer's or
  account's scheduled outreach. The query requires both the customer and the account, so other
  accounts of the customer keep theirs (`OptOutLeavesOtherAccounts`). Nor does
  it reach a message whose call is open (`OptOutMissesOpenCall`). `OptOutIsFinalIff` says exactly
  when an opt-out is final.
- docs/compliance-assumptions.md:72 promises a rolling cap. It holds when no event is dated after the
  clock (`TimelyEventsKeepTheCap`), or overlooks nothing by its date (`AtMostThreeInAnyDay`, `DateIsSafeIff`),
  and can fail otherwise (`FutureDateDefeatsCap`).
- docs/compliance-assumptions.md:62 says calls and texts should not be sent outside the allowed
  local time. Quiet hours are looked at when a task is planned, not when it is sent or retried
  (`LateTextIsSent`, `RetryIsSentAfterClosing`, `MovedTextIsSent`); `QuietHoursKeptIff`,
  `FirstSendInWindowIff` and `RetryInWindowIff` say exactly when the window is kept.
- The docstring at src/orchestrator/orchestration/planner.py:367-370 says sent tasks are not
  rewritten by a cancellation. The write does not repeat the condition of the query
  (`SentChangesIff`, `LateCancelOverwritesSent`).

## Left out

- Time zones: a customer's zone is one fixed offset. Changes to and from daylight saving time are not modelled, and nothing is said about elapsed time across one.
- Ingestion is one commit, apart from the duplicate check and the list a cancellation works from. Two first submissions that race to insert the same new customer or account row end in an uncaught error in the source; here the second finds the row.
- RollingCap.AtMostThreeInAnyDay: relies on ingestion being one commit. For a count made earlier than its insertion, EarlierCountKeepsCapIff gives the exact condition for one pass, and EarlierCountDefeatsCap a failure; such passes are not steps of the transition system.
- OptOut.OptOutSilences: relies on ingestion being one commit but for the cancellation's selection. For a policy event that loaded the customer before an opt-out committed, EarlierFlagSilentIff gives the exact condition for one pass, and EarlierFlagDefeatsOptOut a failure; such passes are not steps of the transition system.
- Guarantees.InsertedTasksAreCompliant: relies on the same; the snapshot and opt-out flag that a pass evaluates are those at its commit.
- QuietHours.QuietHoursKeptIff: the time of a send is the time its pass was given, which every claim of the pass shares; how long a pass takes is not modelled.
- A commit that fails for a reason the model has no rows for, and an error text longer than the 1000 characters of last_error, appear only as a process that ends (`Crash`, `Abandon`).
- A provider that accepts a message and then raises: `delivered` means that the adapter returned normally.
- A missing adapter is a provider call that raises.
- Times are unbounded; the datetime range of the language, unparsable or naive times, unknown zones and unknown event types are not modelled.
- SHA-256 is taken to be injective, and random ids to be fresh (they are row numbers here).
- Names, phone numbers, emails, balances, days past due, metadata, correlation ids, provider message ids, actors and free-text reasons: they are stored and decide nothing.
- Ties in the order of a query, and the order in which the audit log is listed by created_at and id: the model uses commit order.
- HTTP routing and validation, listing endpoints, settings, migrations, demo data and the worker's polling loop.
- OperationalOutreach.RecordManualDeliveryResult: the task exists, as the endpoint looks it up before the call; the refreshed row it returns is not modelled.
- OperationalOutreach.CancelScheduledAccountOutreach: each conditional update is visible to others at once. In the source they are committed together, and until then others wait for the row or read its old status.
- Guarantees.CollisionNeedsSeparator: is one direction, about the two sources; FailsIff is the equivalence about one identity.
