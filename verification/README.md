# RADAR, modelled and proved in Dafny

RADAR turns alerts into incidents, incidents into investigation plans, plans into
root-cause recommendations and recommendations into Slack cards. Between the stages it
passes events through an outbox table that several workers, a reaper and operators work
on at once, and each consumer answers at-least-once delivery with a processed marker and
unique indexes. Beside that pipeline stand the ingestion of alerts, the watcher's
escalation, an incremental index of runbooks with rank fusion over it, and three scripts
and tools: the chaos counter ramp, the token minting script and the changed-service
detector. This project states what these parts promise and proves it.

`dafny verify dfyconfig.toml` checks everything.

## Layout

The pipeline is one step system (`Pipeline.dfy`): the committed database, the workers,
the handlers of the four consumers in every phase between two of their steps, the row
locks and the Slack channel; any of them may interleave, fail or die. Its inductive
invariant is in `PipelineInvariant.dfy`, what every transaction keeps in
`PipelineTransactions.dfy`, what every step keeps in `PipelineSafety.dfy` and what it
leaves alone in `PipelineSteps.dfy`. The claims over whole runs are in
`PipelineTheorems.dfy`, with how often an incident is planned in `PipelinePlanning.dfy`,
its status in `PipelineStatus.dfy`, termination in `PipelineSettling.dfy` and the claim
budget in `PipelineBudget.dfy`; `PipelineRuns.dfy` builds the runs that show two
conditions are needed. What a single step does is said of the tables' columns, with status
codes, delays and window lengths written out, in `PipelineAnswers.dfy` for the handlers, in
`PipelineOutcomes.dfy` for what becomes of an outbox row and in `PipelineArrivals.dfy` for
everything around them. `Consumers.dfy` holds the four handlers as they are written,
transaction after transaction, verified against whatever other transactions may commit in
between, which is proved to include every other step of the step system, and
`OutboxTable.dfy` the operations on the outbox table. `Lifecycle.dfy` and `Outbox.dfy` are
the state machines both rest on.

The remaining modules stand alone: `Incidents.dfy`, `Escalation.dfy`, `Indexer.dfy` over
`Chunking.dfy` with `NormalText.dfy`, `ChunkIdentity.dfy` and `Checkout.dfy`, `Fusion.dfy`, `CounterRamp.dfy`, `Tokens.dfy` with `Minting.dfy`, and
`Workspace.dfy`; `Text.dfy` has the string operations two of them share, `Wrappers.dfy` the option and result types.

## Where the code does less than its documentation says

Each of these is proved; the members named say when the claim does hold.

- "At most five attempts": the outcome of a dispatch is recorded by an unlocked read and an
  update of the changed columns, so a worker overtaken by the reaper can put an old attempt
  count back, and an event is then claimed a sixth time with no operator involved
  (`PipelineBudget.StaleRecordBreaksTheLimit`). A record is harmless exactly when the count it
  leaves still covers the claims made, one more of them if it leaves the row to somebody
  processing it (`RecordKeepsBudgetIffHarmless`). Without requeues a run keeps claims made and
  to come within five exactly when no record in it was harmful (`BudgetIffHarmless`), and a
  reachable state can be continued past five with no further harmful record exactly when it is
  over budget already (`OverclaimedIffOverBudget`). All runs still come to an end
  (`PipelineSettling.EveryRunSettles`).
- "The `FOR UPDATE` makes the decision atomic" (docstring of `_mark_investigating` in
  delivery.py): the locking select returns the incident the session loaded before the post,
  with the status it had then, since nothing expires or refreshes it. An incident resolved
  while its card is being posted goes back to investigating
  (`PipelineRuns.ResolvedDuringPostIsOverwritten`). Statuses never fall back exactly when no
  record overwrites one (`PipelineStatus.StatusClimbs`), and a record overwrites exactly when
  the incident was moved between the post and the record (`OverwritesIffMovedMeanwhile`).
- "Restart target and worker in any order" after a token rotation: no dispatch is rejected
  exactly when the target reloads first and, once the rotation is finalized, does not reload
  before its caller has (`Tokens.RolloutIsSafeInOrder`).
- "One plan per incident": at any moment, yes (`PipelineTheorems.OnceOnly`). Over a run an
  incident is planned twice exactly when a plan is committed for it after all the plans it had
  were deleted (`PipelinePlanning.PlannedTwiceIffReplanned`); without such a deletion it is not
  (`PlannedOnce`), and with one it can be (`PipelineRuns.DeletedPlanIsPlannedAgain`).
- "A rolling window" for escalation: the count has no upper time bound, so it is the rolling
  window's exactly while no alert arrived after the event being handled
  (`Escalation.RollingExactlyWhenNothingCameLater`); a first event handled late counts every
  alert (`LateFirstEventCountsAll`).
- "A duplicate resolve changes nothing": it finds nothing exactly when no other live incident
  has the fingerprint (`Incidents.RepeatedResolve`, `RepeatHitsOlderIncident`). An incident
  resolved from Slack keeps its alert rows firing for ever (`SlackLeavesAlertsFiring`).
- "Re-running converges": exactly when every hash-unchanged runbook had its ids stored and no
  chunk was orphaned (`Indexer.CompletedIsInLine`), and only while the corpus stays put between
  a cut and its re-run (`RevertedFileLooksUnchanged`).
- "The file-level and chunk-level hashes agree about what counts as a change": for two files
  with one document hash and the same frontmatter, exactly when their heading lines are the
  same, trailing blanks included (`ChunkIdentity.SameHashSameIds`); a blank after a `##` heading
  is enough to part them (`Chunking.BlankAfterHeading`).
- "CRLF checkouts change nothing": a file's document hash stays exactly when no CRLF is left
  once the file's ends are trimmed (`NormalText.CrLfKeepsDocument`), and, for files without CRLF
  in their frontmatter, every chunk stays exactly when none is left in any section once its body
  is trimmed (`Checkout.CrLfKeepsFile`).

## Model

| member | source | states |
|---|---|---|
| `Lifecycle.HistoryClimbs` | packages/database/src/radar_database/lifecycle.py:55-120 | along legal edges a status strictly climbs open, investigating, resolved, closed between any two points of a history, by at least one rank per move |
| `Lifecycle.AtMostThreeMoves` | packages/database/src/radar_database/lifecycle.py:55-60 | an incident is moved at most three times, and a longest history is the full one |
| `Lifecycle.TheEdges` | packages/database/src/radar_database/lifecycle.py:55-120 | the four legal moves, and no other: open to investigating, open to resolved, investigating to resolved, resolved to closed |
| `Outbox.MarkFailed` | packages/database/src/radar_database/outbox.py:190-230 | a failure counts one attempt and leaves the row pending exactly below the fifth, never processing |
| `OutboxTable.OutboxTable.ClaimBatch` | packages/database/src/radar_database/outbox.py:74-103 | the claim takes the oldest due unlocked rows, oldest first, as many as the limit allows, flips exactly those and leaves the rest |
| `OutboxTable.OutboxTable.Sweep` | apps/outbox-worker/src/radar_outbox_worker/dead_letter.py:89-118 | the reaper re-pends or dead-letters the rows longest in processing beyond the age, those and no others |
| `OutboxTable.OutboxTable.Record` | apps/outbox-worker/src/radar_outbox_worker/retry.py:61-102 | undisturbed, the record removes a delivered row, dead-letters a permanent failure, reschedules or exhausts any other, and notes a missing row |
| `OutboxTable.OutboxTable.HandleBatch` | apps/outbox-worker/src/radar_outbox_worker/poller.py:138-161 | up to the stop signal every event's row ends as its outcome says, a raising handler's row stays claimed, and the un-started tail is untouched |
| `OutboxTable.OutboxTable.Requeue` | apps/outbox-worker/src/radar_outbox_worker/dead_letter.py:143-186 | only a dead letter is requeued: its row becomes pending and due at once, with no attempt counted and its age kept; otherwise nothing changes and the caller is told |
| `OutboxTable.OldestFirst` | packages/database/src/radar_database/outbox.py:84-93 | ordering and limit: distinct rows, sorted by age, as many as possible, none left out that is older than one taken |
| `OutboxTable.ClaimsAreDisjoint` | packages/database/src/radar_database/outbox.py:74-103 | supporting fact: two claims never share a row, whether the second skips the first's locks or follows its commit, and no sweep takes a row just claimed |
| `OutboxTable.OldestIsClaimed` | packages/database/src/radar_database/outbox.py:84-93 | the oldest due row is passed over only for a full batch of rows at least as old |
| `OutboxTable.RequeuedIsClaimed` | apps/outbox-worker/src/radar_outbox_worker/dead_letter.py:143-186 | a requeued row is taken by the next claim with room for every row, unless it is locked |
| `OutboxTable.FiveFailuresAndOut` | packages/database/src/radar_database/outbox.py:43-44 | a row that keeps failing is rescheduled with the listed delays four times and dead-lettered at the fifth failure |
| `OutboxTable.StaleRecordLosesAnAttempt` | apps/outbox-worker/src/radar_outbox_worker/retry.py:63-102 | supporting fact about one row: the update of changed columns is the failure wanted on an untouched row, and loses the reaper's attempt on one reaped and claimed meanwhile |
| `PipelineOutcomes.AnswerDecidesRow` | apps/outbox-worker/src/radar_outbox_worker/dispatcher.py:280-289 | hearing an answer and recording it on an undisturbed row: any 2xx removes the row; 429, 500, 502, 503 and 504 leave it pending with 5, 15, 60 or 300 seconds of backoff, and dead at the fifth failure; every other code leaves it dead at once |
| `PipelineOutcomes.UnsentDecidesRow` | apps/outbox-worker/src/radar_outbox_worker/dispatcher.py:213-265 | a missing dispatch token puts the row aside at once; a timeout or connection error has it tried again up to the fifth failure |
| `PipelineOutcomes.ClaimTakesDueRow` | packages/database/src/radar_database/outbox.py:74-103 | a free worker can claim exactly a pending row whose time has come, which is then processing since that moment |
| `PipelineOutcomes.ReapTakesStuckRow` | apps/outbox-worker/src/radar_outbox_worker/dead_letter.py:89-118 | exactly a row processing for longer than the age is reaped: due again at once with the attempt counted, or dead at the fifth |
| `PipelineOutcomes.RequeueRevives` | apps/outbox-worker/src/radar_outbox_worker/dead_letter.py:143-186 | a requeued dead letter nobody touches is pending with a fresh budget, and any free worker can claim it at that moment |
| `PipelineArrivals.RecordWrites` | apps/outbox-worker/src/radar_outbox_worker/retry.py:61-102 | column by column, what a record leaves of a row whatever happened to it since it was read |
| `PipelineArrivals.RequeueWrites` | apps/outbox-worker/src/radar_outbox_worker/dead_letter.py:143-186 | and what a requeue leaves of it |
| `PipelineArrivals.IncidentMoves` | packages/database/src/radar_database/repository.py:94-181 | whoever but delivery moves an incident resolves it, open or investigating, or closes it resolved |
| `PipelineArrivals.HandlerStops` | apps/feedback-service/src/radar_feedback_service/delivery.py:105-160 | a handler that fails or dies commits nothing and lets go of its row lock; a card posted and not recorded stays in the channel and is counted as lost |
| `PipelineAnswers.AnswersTell` | apps/planner-agent/src/radar_planner_agent/routes.py:80-222 | in every reachable state: a handler answers 200 exactly when it finds its marker or a recorded card or commits its work, 500 exactly when its marker came in between look-up and commit, 503 exactly for a refused post, and 422 exactly for a missing row |
| `PipelineAnswers.AnswerSettlesRow` | apps/outbox-worker/src/radar_outbox_worker/dispatcher.py:213-289 | and so the outbox row: it is gone after the record exactly when the step found its marker or card or committed its work; a raced marker and a refused post have it tried again up to the fifth failure; a missing row puts it aside |
| `PipelineAnswers.StartStep` | apps/planner-agent/src/radar_planner_agent/routes.py:94-121 | the gate: a marker found is answered with 200, an event of another type is marked and dropped, any other goes on |
| `PipelineAnswers.PlannerCommits` | apps/planner-agent/src/radar_planner_agent/planning.py:108-179 | the planner's commit, column by column: a race lost is recovered from, a plan found leaves only the marker, and otherwise plan, marker and one pending reasoning request are written and the answer is 200 |
| `PipelineAnswers.ReasonerCommits` | apps/reasoner-agent/src/radar_reasoner_agent/storage.py:169-259 | the reasoner's likewise, with the recommendation and its event |
| `PipelineAnswers.WatcherCommits` | apps/watcher-agent/src/radar_watcher_agent/routes.py:96-126 | the watcher's: one pending plan request, or the suppression, or neither for a duplicate, with the marker |
| `PipelineAnswers.PostStep` | apps/feedback-service/src/radar_feedback_service/delivery.py:107-133 | under the row lock an unrecorded card is posted and the status then current kept; a recorded one is answered with 200, a refused post with 503, and the lock released |
| `PipelineAnswers.RecordStepOfCard` | apps/feedback-service/src/radar_feedback_service/delivery.py:136-199 | the record: timestamp and marker, and investigating if the incident was open when it was read; a conflict loses the record and counts the card as lost |
| `PipelineTheorems.NoEventIsLost` | apps/outbox-worker/src/radar_outbox_worker/retry.py:61-102 | in every reachable state an event ever written is still an outbox row or its stage's work is committed |
| `PipelineTheorems.EveryIncidentIsAccountedFor` | apps/watcher-agent/src/radar_watcher_agent/routes.py:63-136 | every incident ever opened was suppressed, has its card recorded, or has an outbox row left about it |
| `PipelineTheorems.OnceOnly` | packages/database/src/radar_database/models.py:157 | at most one plan request by the watcher, one plan row and one recommendation for each incident, under concurrent redelivery |
| `PipelineTheorems.OneSuccessorPerPlan` | apps/planner-agent/src/radar_planner_agent/planning.py:108-179 | every plan ever committed is named by exactly one event of the planner's, and any other event the planner wrote names another plan |
| `PipelineTheorems.OneSuccessorPerRecommendation` | apps/reasoner-agent/src/radar_reasoner_agent/storage.py:169-259 | every recommendation is named by exactly one event of the reasoner's, and any other names another recommendation |
| `PipelinePlanning.PlannedTwiceIffReplanned` | apps/planner-agent/src/radar_planner_agent/planning.py:115-140 | over any run an incident has been planned twice if and only if the planner committed a plan for it at a moment when it had been planned and no plan row of it was left |
| `PipelinePlanning.PlanningStep` | apps/planner-agent/src/radar_planner_agent/planning.py:91-179 | a step adds to the plans ever made for an incident exactly when it is the planner's commit that met neither a marker nor a plan row, and then one plan under a fresh id |
| `PipelinePlanning.PlannedOnce` | apps/planner-agent/src/radar_planner_agent/planning.py:91-179 | while none of its own plan rows is deleted an incident is planned at most once over a whole run |
| `PipelineRuns.DeletedPlanIsPlannedAgain` | apps/planner-agent/src/radar_planner_agent/planning.py:115-140 | a run in which an incident's plan is deleted and a repeated request plans it again |
| `PipelineTheorems.MarkerNeverAheadOfWork` | apps/reasoner-agent/src/radar_reasoner_agent/routes.py:202-252 | a committed marker means the work exists, through both duplicate paths, the recovery, and deletions during the remote calls |
| `PipelineTheorems.SuccessMeansDone` | apps/planner-agent/src/radar_planner_agent/routes.py:184-222 | whatever path led to it, a 2xx answer leaves the event's work committed |
| `PipelineTheorems.CardsAreCounted` | apps/feedback-service/src/radar_feedback_service/delivery.py:105-160 | cards posted for a recommendation are the recorded one, those whose transaction died after the post, and the one a lock holder has just posted; a recorded timestamp names a card really posted for it |
| `PipelineTheorems.CardsAreExclusive` | apps/feedback-service/src/radar_feedback_service/delivery.py:107-130 | no two recommendations claim one message, and no two handlers work on one recommendation's card at once |
| `PipelineTheorems.PostedCardIsRecorded` | apps/feedback-service/src/radar_feedback_service/delivery.py:140-150 | with the row locked, the record after a post meets no conflict: it always commits, naming that card |
| `PipelineTheorems.OnlyLocksBlock` | apps/feedback-service/src/radar_feedback_service/delivery.py:107-113 | a live handler can always take its next step, except to lock a recommendation somebody else holds |
| `PipelineStatus.StatusClimbs` | packages/database/src/radar_database/repository.py:94-181 | over every stretch of a run an incident's status is unchanged or strictly further along if and only if no delivery record decided on a status that was no longer the incident's |
| `PipelineStatus.StatusStep` | packages/database/src/radar_database/repository.py:130-165 | a step moves a status along a legal edge or not at all, but for the overwriting record, which takes it back to investigating |
| `PipelineStatus.OverwritesIffMovedMeanwhile` | apps/feedback-service/src/radar_feedback_service/delivery.py:127-199 | a record of an incident read as open overwrites if and only if a status move of it was committed between the post and the record |
| `PipelineRuns.ResolvedDuringPostIsOverwritten` | apps/feedback-service/src/radar_feedback_service/delivery.py:163-199 | a run in which an incident resolved during the post is put back to investigating |
| `PipelineTheorems.RunOnlyGrows` | packages/database/src/radar_database/repository.py:329-342 | events, markers, plan histories, recommendations, recorded cards and every committed effect last for the rest of the run |
| `PipelineTheorems.InvestigatingMeansDelivered` | apps/feedback-service/src/radar_feedback_service/delivery.py:142-199 | an investigating incident always has a recommendation whose card is recorded and in the channel |
| `PipelineSafety.StepKeeps` | apps/reasoner-agent/src/radar_reasoner_agent/routes.py:85-323 | every step of every worker, reaper, operator and consumer keeps the invariant, takes nothing back and never reuses an incident's id |
| `PipelineSafety.RecordCannotConflict` | apps/feedback-service/src/radar_feedback_service/delivery.py:140-150 | while a recommendation's card is unrecorded its delivery event carries no marker and its incident is there |
| `PipelineTransactions.PlannerCommitKeeps` | apps/planner-agent/src/radar_planner_agent/planning.py:108-179 | plan, successor event and marker in one commit keep every clause of the database invariant and do the event's work |
| `PipelineTransactions.ReasonerCommitKeeps` | apps/reasoner-agent/src/radar_reasoner_agent/storage.py:169-259 | recommendation, successor event and marker in one commit keep every clause and do the event's work |
| `PipelineTransactions.WatcherCommitKeeps` | apps/watcher-agent/src/radar_watcher_agent/routes.py:96-126 | the decision and its marker in one commit keep every clause and do the event's work |
| `PipelineTransactions.FeedbackCommitKeeps` | apps/feedback-service/src/radar_feedback_service/delivery.py:136-150 | timestamp, marker and a status move decided on any status read before keep every clause in one commit and do the event's work |
| `PipelineSettling.EveryRunSettles` | apps/outbox-worker/src/radar_outbox_worker/poller.py:102-161 | in an endless run there is a new alert, repeat, requeue, deletion or status move after every moment: with finitely many of those, worker, reaper and consumer steps come to an end, crashes, early reaping and lost updates included |
| `PipelineSettling.StepDescends` | apps/outbox-worker/src/radar_outbox_worker/dead_letter.py:89-118 | every such step lowers one lexicographic measure of stages to do, failures still recordable at each attempt count, and single steps |
| `PipelineBudget.BudgetIffHarmless` | apps/outbox-worker/src/radar_outbox_worker/dead_letter.py:89-118 | over a run without requeues the claims made of an event and those its row is still good for stay within five if and only if no recorded failure of it was harmful |
| `PipelineBudget.OverclaimedIffOverBudget` | apps/outbox-worker/src/radar_outbox_worker/dead_letter.py:89-118 | a reachable state can be continued, without a requeue or a harmful record, to more than five claims of an event if and only if claims made and claims its row is good for exceed five; for a live row with attempts to spare, if and only if its attempts no longer pay for its claims |
| `PipelineBudget.FreshRunsClaimAtMost` | apps/outbox-worker/src/radar_outbox_worker/dead_letter.py:89-118 | without requeues and harmful records an event is claimed at most five times, however early the reaper comes |
| `PipelineBudget.RecordKeepsBudgetIffHarmless` | apps/outbox-worker/src/radar_outbox_worker/retry.py:63-102 | for every row read, every row found and every number of claims: the update leaves them within budget if and only if the count read, plus one, covers them, with one to spare where the row is left to somebody processing it |
| `PipelineBudget.HarmlessIffNotReclaimed` | apps/outbox-worker/src/radar_outbox_worker/retry.py:63-102 | where the attempts just pay for the claims, a retryable failure is harmless if and only if the row was not claimed again since it was read, the current claim aside when it was read re-pended |
| `PipelineBudget.StaleRecordBreaksTheLimit` | apps/outbox-worker/src/radar_outbox_worker/retry.py:63-102 | a run without any requeue, the reaper waiting its 60 seconds, in which an event is claimed more than five times |
| `Consumers.StepRelies` | apps/planner-agent/src/radar_planner_agent/planning.py:91-179 | every step of the step system by anyone else leaves a handler in its phase and does no more than the handlers below are verified against |
| `Consumers.OthersRely` | apps/planner-agent/src/radar_planner_agent/planning.py:91-179 | and so does any stretch of a run between two steps of the handler |
| `Consumers.Services.ReceivePlanRequest` | apps/planner-agent/src/radar_planner_agent/routes.py:80-179 | against any such interference, the answer and the whole new state from the states the handler meets: 503 not ready; 200 for a marker found; 422 for a malformed payload or a missing incident, nothing changed; otherwise the commit or the recovery below |
| `Consumers.Services.PlanIncident` | apps/planner-agent/src/radar_planner_agent/planning.py:91-179 | no plan at the look-up and no race: plan, marker and one pending reasoning request are committed and the answer is 200; a plan found: the marker alone; a race lost: the recovery |
| `Consumers.PlannerFails` | apps/planner-agent/src/radar_planner_agent/routes.py:184-222 | the planner answers 500 if and only if the event's own marker came in between its recovery's look-up and its commit, and then has changed nothing; a 200 has the marker committed |
| `Consumers.Services.ReceiveReasoningRequest` | apps/reasoner-agent/src/radar_reasoner_agent/routes.py:85-252 | the same across two transactions with rows deleted in between: 200 for a marker found, 422 for a malformed payload, a missing incident, plan or alert or a plan of another incident, and otherwise the write below |
| `Consumers.Services.StoreRecommendation` | apps/reasoner-agent/src/radar_reasoner_agent/storage.py:169-259 | rows gone during the call: 422 and nothing written; no recommendation and no race: recommendation, marker and one pending event committed, 200; one found: the marker alone; a race lost: the recovery |
| `Consumers.ReasonerFails` | apps/reasoner-agent/src/radar_reasoner_agent/routes.py:326-364 | the reasoner answers 500 if and only if the event's own marker came in between its recovery's look-up and its commit |
| `Consumers.Services.ReceiveAlert` | apps/watcher-agent/src/radar_watcher_agent/routes.py:63-136 | 200 for a marker found, 422 for a malformed payload or a missing incident; otherwise decision and marker in one commit: a plan request, a suppression, or the marker alone for a duplicate, and 200 |
| `Consumers.WatcherFails` | apps/watcher-agent/src/radar_watcher_agent/routes.py:96-126 | the watcher answers 500 if and only if its own marker is there at its commit |
| `Consumers.Services.DeliverRca` | apps/feedback-service/src/radar_feedback_service/delivery.py:83-160 | under the row lock: a missing or recorded card changes nothing; a refused post changes nothing; otherwise the channel has exactly one card more, the row names it, the event is marked, and an incident open before the post is investigating |
| `Consumers.Services.HandleRecommendation` | apps/feedback-service/src/radar_feedback_service/routes.py:82-155 | 200 exactly for a marker found and a card delivered now or before, 422 for a malformed payload or a missing recommendation, 503 for a service not ready or a refused post, with the whole new state |
| `Consumers.Services.AbsorbRace` | apps/reasoner-agent/src/radar_reasoner_agent/routes.py:326-364 | the recovery answers 200 for a marker it finds or writes, and 500 exactly when the marker came in between; the marker is committed and the work in place, whoever wins |
| `Incidents.Ledger.PersistAlert` | apps/ingestion/src/radar_ingestion/publisher.py:98-183 | one alert is one transaction, said of the rows: an alert that is not resolved adds one row with its own status and clearing time on the newest open incident of its fingerprint within 300 seconds, which counts one more, or on a new open incident; a resolve flips the firing rows of the newest live incident, stamps them and resolves it, or changes nothing; the result says which |
| `Incidents.Ledger.FindOpenIncident` | apps/ingestion/src/radar_ingestion/deduper.py:33-58 | the newest open incident of the fingerprint opened at most 300 seconds before the reference time, or none when there is none |
| `Incidents.Ledger.FindResolvableIncident` | apps/ingestion/src/radar_ingestion/resolver.py:62-95 | the newest open or investigating incident of the fingerprint, however old, or none when there is none |
| `Incidents.Ledger.MarkAlertsResolved` | apps/ingestion/src/radar_ingestion/resolver.py:98-127 | exactly the incident's firing rows are flipped and stamped, and the count is their number |
| `Incidents.Ledger.ResolveIfQuiet` | apps/ingestion/src/radar_ingestion/resolver.py:143-171 | the incident is resolved if and only if none of its alerts is firing and it is still live; a missing one and an illegal move are errors that change nothing |
| `Incidents.Ledger.TransitionStatus` | packages/database/src/radar_database/repository.py:94-181 | a status moves along one of the four edges, a resolve with its time and resolver, or the move is refused and nothing changes |
| `Incidents.DoesKeeps` | apps/ingestion/src/radar_ingestion/publisher.py:98-183 | every transaction of ingestion, delivery and Slack keeps the books right and alters no stamp, resolved row or earlier status |
| `Incidents.FlippedIsQuiet` | apps/ingestion/src/radar_ingestion/resolver.py:98-171 | after the flip nothing on the incident fires and other incidents' alerts are as before, so the gate never holds a matched resolve back |
| `Incidents.CountsAreRows` | apps/ingestion/src/radar_ingestion/publisher.py:127-140 | at every point of every serial run an incident's alert count is the number of its alert rows |
| `Incidents.FiresUntilCleared` | apps/ingestion/src/radar_ingestion/resolver.py:98-127 | over any run a firing alert's row fires if and only if no resolve has cleared its incident since |
| `Incidents.IncidentFires` | apps/ingestion/src/radar_ingestion/publisher.py:125-140 | an incident a firing alert opened or was attached to has a firing alert until a resolve clears it |
| `Incidents.OpenIncidentsAreApart` | apps/ingestion/src/radar_ingestion/deduper.py:46-58 | a still-open incident was opened more than the window before the alert of any later incident with its fingerprint arrived |
| `Incidents.ResolvedStaysQuiet` | apps/ingestion/src/radar_ingestion/resolver.py:143-171 | an incident its alerts resolved never again holds a firing alert, and keeps its stamp |
| `Incidents.StampsAreFinal` | apps/ingestion/src/radar_ingestion/resolver.py:98-127 | each resolve stamp, of an alert or an incident, is written once in a run |
| `Incidents.SlackLeavesAlertsFiring` | apps/feedback-service/src/radar_feedback_service/interactions.py:242-291 | the alert rows of a resolved or closed incident never change again: one fires in a later state if and only if it fired then |
| `Incidents.RepeatedResolve` | apps/ingestion/src/radar_ingestion/resolver.py:62-95 | a repeated resolve finds nothing if and only if no other live incident has the fingerprint; otherwise it resolves one of those |
| `Incidents.RepeatHitsOlderIncident` | apps/ingestion/src/radar_ingestion/resolver.py:76-95 | for any two alerts more than the window apart, a run in which the repeat of a resolve about the newer incident resolves the older one |
| `Escalation.Escalate` | apps/watcher-agent/src/radar_watcher_agent/correlation.py:212-274 | the new severity is the most severe of the current one and all targets whose rules fire, and is reported exactly when it changed |
| `Escalation.SeverityOrder` | apps/watcher-agent/src/radar_watcher_agent/correlation.py:63-79 | critical, high, medium, low, info, from the most severe down; nothing is more severe than itself |
| `Escalation.FiresWhenEnoughCame` | apps/watcher-agent/src/radar_watcher_agent/correlation.py:240-258 | a rule fires if and only if as many alerts as its threshold came in at most its minutes before the event, or later |
| `Escalation.CountAlertsSince` | apps/watcher-agent/src/radar_watcher_agent/correlation.py:277-286 | the count of alerts at or after a moment, with no later bound |
| `Escalation.HandlingReachesWorst` | apps/watcher-agent/src/radar_watcher_agent/correlation.py:212-274 | over any sequence of events severity never gets milder and ends at the most severe of the start and every target that fired |
| `Escalation.OrderAndRepetitionIgnored` | apps/watcher-agent/src/radar_watcher_agent/correlation.py:240-258 | the same events in any order and number leave the same severity |
| `Escalation.EarliestDecides` | apps/watcher-agent/src/radar_watcher_agent/correlation.py:277-286 | of a set of events the earliest alone decides the outcome |
| `Escalation.RollingExactlyWhenNothingCameLater` | apps/watcher-agent/src/radar_watcher_agent/correlation.py:222-231 | the count is that of a rolling window ending at the event if and only if no alert arrived later |
| `Escalation.LateFirstEventCountsAll` | apps/watcher-agent/src/radar_watcher_agent/correlation.py:277-286 | for an incident's first event a rule fires exactly when there are enough alerts at all, however far apart |
| `Escalation.OneAlertNeverEscalates` | apps/watcher-agent/src/radar_watcher_agent/rules.py:77-90 | when a rule fires on a single alert, exactly; no rule that loading accepts does |
| `Indexer.RunbookIndexer.Run` | apps/knowledge-service/src/radar_knowledge_service/indexer.py:173-218 | wherever it is cut, each runbook keeps all its old ids or all its new ones and the manifest lags; it completes if and only if the process does not die and every changed file can be chunked, and then all are settled and the vectors requested are exactly the produced ids not stored |
| `Indexer.RunbookIndexer.IndexRunbook` | apps/knowledge-service/src/radar_knowledge_service/indexer.py:236-283 | new chunks, then deletions, then the manifest: at every cut no gap, at the end exactly the produced ids and their exact cost; other runbooks untouched |
| `Indexer.RunbookIndexer.RemoveRunbook` | apps/knowledge-service/src/radar_knowledge_service/indexer.py:285-304 | chunks first, manifest row last: cut, the row still lists the runbook; done, nothing of it is left |
| `Indexer.CompletedMeans` | apps/knowledge-service/src/radar_knowledge_service/indexer.py:173-218 | after a completed run the manifest names exactly the files with their hashes, a file it did not name with that hash has exactly its chunks in the index, a file that is gone has none, and every other chunk is where it was |
| `Indexer.CutMeans` | apps/knowledge-service/src/radar_knowledge_service/indexer.py:236-283 | after a cut no chunk a file had and has still is missing, the manifest names a new hash only once exactly the file's chunks are stored, and unchanged files are untouched |
| `Indexer.WorkMeans` | apps/knowledge-service/src/radar_knowledge_service/reconciliation.py:76-141 | what is embedded and what is deleted, chunk by chunk |
| `Indexer.CompletedIsInLine` | apps/knowledge-service/src/radar_knowledge_service/indexer.py:173-218 | a completed run brings index and manifest in line with the corpus if and only if it started clean |
| `Indexer.CutKeepsClean` | apps/knowledge-service/src/radar_knowledge_service/indexer.py:250-283 | a run cut at any write neither loses nor gains cleanliness |
| `Indexer.CutRunsConverge` | apps/knowledge-service/src/radar_knowledge_service/indexer.py:173-347 | any number of cut runs and then a complete one reach the ids and manifest of one uninterrupted run, with nothing stored for removed runbooks |
| `Indexer.CompletedNeedsNothing` | apps/knowledge-service/src/radar_knowledge_service/reconciliation.py:76-141 | right after any completed run, clean or not, there is nothing to embed, delete or record, and what a further run may leave, wherever cut, is exactly the same store |
| `Indexer.RevertedFileLooksUnchanged` | apps/knowledge-service/src/radar_knowledge_service/indexer.py:273-274 | a file put back after a cut just before its record is taken for unchanged for ever |
| `Indexer.FilesAreWellNamed` | apps/knowledge-service/src/radar_knowledge_service/indexer.py:144-154 | files whose frontmatter id is their stem give every runbook its own chunks only |
| `Chunking.ChunkRunbook` | apps/knowledge-service/src/radar_knowledge_service/chunking.py:231-256 | chunking a file succeeds exactly with frontmatter and a heading, and then yields one chunk for each heading, in order, named and numbered after it, its text in normal form |
| `Chunking.FrontmatterIsParsed` | apps/knowledge-service/src/radar_knowledge_service/chunking.py:154-202 | the frontmatter of a file that opens with `---` ends at the first further one after at least one line; the body is the rest |
| `NormalText.ChunkTextReads` | apps/knowledge-service/src/radar_knowledge_service/chunking.py:221-228 | a chunk's text is title, dash and section name on one line and, after an empty line, the section's text in normal form, if there is any |
| `ChunkIdentity.InkNormalize` | apps/knowledge-service/src/radar_knowledge_service/chunking.py:108-120 | a text has as many characters that are not blank after normalising as before |
| `Chunking.OneChunkPerHeading` | apps/knowledge-service/src/radar_knowledge_service/chunking.py:205-256 | chunking succeeds exactly with frontmatter and a heading, and then yields one chunk for each heading, in order, its text in normal form |
| `Chunking.NormalizeIsCanonical` | apps/knowledge-service/src/radar_knowledge_service/chunking.py:108-120 | normalising is idempotent and its results are exactly the texts in normal form |
| `Chunking.CrLfCheckoutIsInvisible` | apps/knowledge-service/src/radar_knowledge_service/chunking.py:96-105 | turning LF into CRLF is invisible after unifying if and only if the text had no CRLF |
| `NormalText.CrLfKeepsDocument` | apps/knowledge-service/src/radar_knowledge_service/chunking.py:96-151 | turning LF into CRLF leaves a document hash unchanged if and only if no CRLF is left in the text once its ends are trimmed |
| `Checkout.CrLfKeepsFile` | apps/knowledge-service/src/radar_knowledge_service/chunking.py:96-256 | for a file without CRLF in its frontmatter, turning LF into CRLF leaves every chunk unchanged if and only if no CRLF is left in any section of the file as it stands once the section's body is trimmed |
| `ChunkIdentity.CrLfKeepsText` | apps/knowledge-service/src/radar_knowledge_service/chunking.py:221-228 | turning LF into CRLF in a section's body leaves its chunk text unchanged if and only if no CRLF is left in the body once its ends are trimmed |
| `Chunking.CrLfKeepsChunks` | apps/knowledge-service/src/radar_knowledge_service/chunking.py:144-256 | a CRLF checkout of a file without CRLF leaves every chunk and the document hash unchanged |
| `Chunking.SplitIsLossless` | apps/knowledge-service/src/radar_knowledge_service/chunking.py:205-218 | the dropped head joined with each heading and section body rebuilds the body |
| `Chunking.SectionsAreHeadings` | apps/knowledge-service/src/radar_knowledge_service/chunking.py:212-218 | the sections are the heading lines of the body, all of them, in order |
| `Chunking.EditsStayLocal` | apps/knowledge-service/src/radar_knowledge_service/chunking.py:205-218 | an edit below one heading changes that section only |
| `Chunking.EncodingIsInjective` | apps/knowledge-service/src/radar_knowledge_service/chunking.py:123-141 | what is hashed into an id differs for different NUL-free fields, and need not with NULs |
| `ChunkIdentity.SameHashSameIds` | apps/knowledge-service/src/radar_knowledge_service/chunking.py:144-256 | files with one document hash and the same frontmatter have the same chunk ids if and only if they have the same heading lines at the same places |
| `ChunkIdentity.SameSectionsSameIds` | apps/knowledge-service/src/radar_knowledge_service/chunking.py:205-256 | whatever their hashes, files with the same frontmatter have the same chunk ids if and only if they have the same sections in order, bodies compared in normal form |
| `ChunkIdentity.TextTellsBody` | apps/knowledge-service/src/radar_knowledge_service/chunking.py:221-228 | under one title and section name two bodies have the same chunk text if and only if they have the same normal form |
| `Chunking.BlankAfterHeading` | apps/knowledge-service/src/radar_knowledge_service/chunking.py:144-151 | a blank after a heading leaves the document hash and changes that chunk's id |
| `Fusion.ReciprocalRankFusion` | apps/knowledge-service/src/radar_knowledge_service/fusion.py:44-90 | a rank constant that is not positive is refused; otherwise the output is the asked prefix of the sorted list of all ids |
| `Fusion.Tally` | apps/knowledge-service/src/radar_knowledge_service/fusion.py:71-80 | the nested loops compute every id's total contribution and best position, for the ids found and no others |
| `Fusion.Sort` | apps/knowledge-service/src/radar_knowledge_service/fusion.py:82-89 | every id of the score table once, each ahead of all that follow by score, best position and id |
| `Fusion.FusionOrder` | apps/knowledge-service/src/radar_knowledge_service/fusion.py:82-89 | higher scores first, equal ones by the better best position, and those by the ids' code points |
| `Fusion.EntryByEntry` | apps/knowledge-service/src/radar_knowledge_service/fusion.py:71-80 | each entry at a position counted from one adds one over the constant plus the position to its id's score, and the best position is the least |
| `Fusion.BeforeIsByCodePoints` | apps/knowledge-service/src/radar_knowledge_service/fusion.py:82-89 | ids compare by the first place they differ |
| `Fusion.FusionIsUnique` | apps/knowledge-service/src/radar_knowledge_service/fusion.py:82-89 | at most one list is the fusion of given rankings |
| `Fusion.FusionIgnoresLegOrder` | apps/knowledge-service/src/radar_knowledge_service/fusion.py:71-80 | the order of the legs does not matter |
| `Fusion.FusionIsMonotone` | apps/knowledge-service/src/radar_knowledge_service/fusion.py:71-89 | moving an id up a place in a duplicate-free ranking never lowers its place in the output, nor drops it from the part a limit keeps |
| `Fusion.FusionRespectsDominance` | apps/knowledge-service/src/radar_knowledge_service/fusion.py:71-89 | an id that precedes another in every leg holding the other precedes it in the result |
| `Fusion.BothLegsOutrankOne` | apps/knowledge-service/src/radar_knowledge_service/fusion.py:52-54 | with at most rank constant plus one distinct ids per leg, every id of both legs outranks every id of one |
| `Fusion.BoundIsExact` | apps/knowledge-service/src/radar_knowledge_service/fusion.py:71-89 | with one place more an id last in both legs loses to one first in a single leg |
| `Fusion.Retrieve` | apps/knowledge-service/src/radar_knowledge_service/retrieval.py:120-166 | an empty query is refused; otherwise every fused id is found in the id map and comes back as the vector leg's hit where there is one |
| `Fusion.SharedHitsComeFirst` | apps/knowledge-service/src/radar_knowledge_service/retrieval.py:141-166 | in what retrieval fuses, a chunk found by both legs is listed before any found by one |
| `CounterRamp.CounterRamp.HandOver` | apps/platform-sim/src/radar_platform_sim/chaos.py:164-174 | right after a drain the total handed out is the floor of rate times active time summed over all windows, and less than one unit is pending |
| `CounterRamp.CounterRamp.Start` | apps/platform-sim/src/radar_platform_sim/chaos.py:154-162 | retargeting keeps everything earned so far |
| `CounterRamp.CounterRamp.Stop` | apps/platform-sim/src/radar_platform_sim/chaos.py:176-189 | clearing stops the climb and keeps what was earned owed |
| `CounterRamp.CounterRamp.Accrue` | apps/platform-sim/src/radar_platform_sim/chaos.py:145-152 | settling accounts for all time inside the window once, and leaves nothing due |
| `CounterRamp.CallByCall` | apps/platform-sim/src/radar_platform_sim/chaos.py:145-189 | what a log of calls earns: a ramp its rate for as long as it runs and at most its duration, ending what ran before; a clear ends it; a drain adds and ends nothing |
| `CounterRamp.CutStopsTheClock` | apps/platform-sim/src/radar_platform_sim/chaos.py:154-189 | what a ramp or clear ends earns nothing more |
| `CounterRamp.AccruesInParts` | apps/platform-sim/src/radar_platform_sim/chaos.py:145-152 | settling on the way changes nothing in the end |
| `CounterRamp.ScrapingDoesNotMatter` | apps/platform-sim/src/radar_platform_sim/chaos.py:164-174 | two counters with the same ramps and clears, just drained, have handed out the same, however they were scraped before |
| `Minting.Vault.Run` | scripts/dev-mint-tokens.py:372-444 | one run, plain or rotating, leaves the Vault related to what it found as a run must: tokens kept, minted or rotated, copies rewritten, grants pruned and given out |
| `Minting.Vault.MintAgentTokens` | scripts/dev-mint-tokens.py:193-220 | services with a token keep it, but for the rotated one, whose old token stays beside the new |
| `Minting.Vault.RebuildDispatchMap` | scripts/dev-mint-tokens.py:259-273 | the worker's map holds the targets' tokens of this run and nothing else; other fields stay |
| `Minting.Vault.WriteKnowledgeGrant` | scripts/dev-mint-tokens.py:238-256 | the reasoner's copy is the knowledge service's token of this run; other fields stay |
| `Minting.Vault.MintGatewayTokens` | scripts/dev-mint-tokens.py:276-349 | each granted pair has its token in the map and in its service's secret, survivors stay, everything else is revoked |
| `Minting.Vault.MintWebhookTokens` | scripts/dev-mint-tokens.py:352-369 | missing webhook tokens are minted, each apart from every other token, and existing ones kept |
| `Minting.Vault.FinalizeAgentRotation` | scripts/dev-mint-tokens.py:223-235 | the previous token is dropped and nothing else changes |
| `Tokens.RunConverges` | scripts/dev-mint-tokens.py:193-349 | from any Vault one run makes callers and targets agree, and gives each granted pair exactly one token if and only if no pair had two |
| `Tokens.AgentRan` | scripts/dev-mint-tokens.py:193-220 | one service's secret after a run: its token kept; replaced by a token no gateway pair and no other service has, with the old one beside it, when it is the one to rotate; or a fresh one where there was none |
| `Tokens.CallersRan` | scripts/dev-mint-tokens.py:238-273 | after a run the worker holds the token of the watcher, the planner, the reasoner and the feedback service and no other, and the reasoner the knowledge service's |
| `Tokens.GatewayRan` | scripts/dev-mint-tokens.py:276-349 | after a run over a map without doubles each of the three granted pairs has one token, in its service's own field, the one it had unless it was to rotate; only a single grant keeps the bare name |
| `Tokens.NoTokenServesTwice` | scripts/dev-mint-tokens.py:372-444 | from an empty Vault, after any commands, no token serves two services, nor a service and a webhook or a gateway pair |
| `Tokens.HistoriesConverge` | scripts/dev-mint-tokens.py:372-444 | from an empty Vault, after any commands, everything agrees from the first mint on |
| `Tokens.RerunChangesNothing` | scripts/dev-mint-tokens.py:193-220 | a plain run right after any run is the identity |
| `Tokens.DoublesStay` | scripts/dev-mint-tokens.py:298-331 | a run leaves one token per granted pair if and only if it found at most one |
| `Tokens.RolloutIsSafeInOrder` | packages/common/src/radar_common/bootstrap.py:45-57 | once a rotation is written, no dispatch is rejected if and only if the reloads and the finalize come in order |
| `Tokens.RotationRollsOutInOrder` | scripts/dev-mint-tokens.py:193-256 | the same after one rotating run from any steady Vault, for the dispatch targets and for the knowledge service, whose caller is the reasoner |
| `Tokens.RolloutState` | packages/common/src/radar_common/bootstrap.py:45-57 | what the caller sends and the target accepts, after any steps of a rollout |
| `Tokens.WorkerFirstIsRejected` | scripts/dev-mint-tokens.py:46-51 | after every rotation, restarting the caller first has a dispatch rejected; target, caller, finalize, target has none |
| `Workspace.TransitiveDeps` | scripts/detect-changed-services.py:77-87 | on any graph, cycles included, the worklist ends with exactly the members reachable by one or more edges |
| `Workspace.FindDependents` | scripts/detect-changed-services.py:89-96 | the buildable apps whose package reaches the member |
| `Workspace.ServicesForChanges` | scripts/detect-changed-services.py:143-171 | an app is rebuilt if and only if one of the paths, blanks trimmed, rebuilds it; with pyproject.toml, uv.lock or .dockerignore among them every buildable app is |
| `Workspace.PathRebuilds` | scripts/detect-changed-services.py:143-171 | a path rebuilds exactly these buildable apps: every one for the three root files, the app it lies under, and the apps that reach the package or plugin it lies under |
| `Workspace.OtherRootFiles` | scripts/detect-changed-services.py:153-171 | any other path without a slash rebuilds nothing |
| `Workspace.OrderAndRepetitionIgnored` | scripts/detect-changed-services.py:143-171 | order, repetition and surrounding blanks of the paths do not matter |
| `Workspace.FileInside` | scripts/detect-changed-services.py:156-171 | a file inside a package rebuilds the apps that reach it and none when the package is unknown, inside an app that app alone, elsewhere nothing |
| `Workspace.PluginFileInside` | scripts/detect-changed-services.py:156-171 | a file inside a plugin, two directories down, rebuilds the apps that reach it and none when the plugin is unknown |

## Left out

- Deletions inside an open transaction: between a transaction's explicit lookup of an incident or plan and its commit that row is not deleted; if it were, the deferred foreign key would fail at commit and be taken for the lost race. Deletions during the reasoner's remote calls are modelled.
- Recommendations are never deleted in the model; nothing in the repository deletes one.
- Consumers.Services.DeliverRca: the outcome `Missing`, and with it the 422 of a missing recommendation, is there as the code has it but cannot come up in the model, where a handled recommendation event always names a row.
- A requeue reads without a lock and writes the changed columns later; in the step system it may have read any dead letter, also one its row never was, so what holds of all runs holds of more than the code has. No run shown here contains one.
- PipelineBudget.FreshRunsClaimAtMost: is one way, since a harmful record need not be followed by a sixth claim; the two exact statements are `BudgetIffHarmless` and `OverclaimedIffOverBudget`.
- PipelinePlanning.PlannedOnce: is one way; the exact condition is `PlannedTwiceIffReplanned`.
- Status moves by ingestion and Slack read the status in the step that writes it, as they do under their row lock; delivery alone loads the incident before it.
- OutboxTable.OutboxTable.Record: is about a row nobody else touches between its read and its update; interference is in `StaleRecordLosesAnAttempt`, `PipelineArrivals.RecordWrites` and the step system.
- OutboxTable.OutboxTable.HandleBatch: likewise, no other worker or reaper touches the batch's rows while it runs.
- Consumers.Services.ReceivePlanRequest: interference between its steps is what `Rely` allows, and so it is for the other handlers; `StepRelies` shows the step system keeps to it, given that the generator of ids never repeats one.
- Indexer.RunbookIndexer.Run: the corpus is one in which a file's stem is the id in its frontmatter, as the repository's runbook contract test demands; the indexer itself does not check it.
- Indexer.RunbookIndexer.IndexRunbook: likewise.
- Indexer.FileIsRead: the files are given by stem; listing the directory, which skips its own README, is not modelled.
- Chunking.CrLfKeepsChunks: is one way; the exact statement is `Checkout.CrLfKeepsFile`.
- Checkout.CrLfKeepsFile: leaves out files with CRLF in their frontmatter, where the blank lines that appear go to the YAML parser, which is not part of this model.
- Incident attach and escalation take no row lock in the code, so the ingestion and escalation claims are for serial transactions; delivery's overwriting of a status is in the step system only.
- Ingestion's tables, the escalation counts and the consumers' database are values replaced by each transaction; update in place and sessions are not modelled.
- Incidents.Ledger.PersistAlert: does not model the unique correlation id of an incident, a conflict on which fails the request.
- Ties in `opened_at` and `created_at` and the order of dictionary entries are resolved arbitrarily.
- HTTP, Slack, Postgres, Elasticsearch and the LLM are steps that may succeed, fail or die; in the step system malformed payloads, unready services and missing dispatch tokens end as the failures they answer with.
- The suppression rule's query is a choice either way; which alerts are suppressed is not modelled.
- Severity, titles, audit rows, metrics, logs, last errors, `closed_at` and the RCA's content, which decide nothing here.
- Digests stand for what they hash; YAML is a function from text to frontmatter or an error; UTF-8 is the identity on characters.
- Embedding batches, the budget check and dimension mismatch of the indexer are runs that stop before writing.
- Floating point: scores and accruals are exact reals.
- Loading of the workspace and of the correlation rules, CRAG grading, prompts, card layout, bot commands and callback parsing, which have no sharp claim.
- New tokens are fresh: the generator never repeats a token in use.
