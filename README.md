# Loan-collection notification engine

This project models the scheduling core of a loan-collection reminder service and proves properties about it. The core has four parts:

- **Plans.** A notification plan belongs to one credit. It has a due date, an amount and a currency.
- **Planner.** It expands a plan into notification records along a configured timeline of four phases (preventive, early, medium and late delay). For each phase it walks the configured days, and for each day the channels it lists: sms, email, push and ai_call.
- **Records and jobs.** Each record is saved and gets a delayed job on its channel's queue.
- **Workers.** Queue workers later send the records. Around them sit:
  - the rescheduler,
  - the cancellation of a credit's notifications,
  - the credit-status cascade that triggers that cancellation,
  - the executor with its record-level retry budget,
  - the delivery time-window rules,
  - template substitution,
  - a test-scenario scheduler,
  - the status-check sweep and the failed-job listener,
  - the state effects of the plan endpoints.

The model is a sequential state machine over one store:

- **Store contents.** It holds records, plans, one job queue per channel (a map from job id to job) and the repeatable jobs of the status-check queue (`Store.Store`).
- **Methods.** Every operation that changes the store is a method on that class. Its `ensures` state the new store and the result as a pure function of the old store.
- **Properties.** Those functions carry the properties: all-and-only planning, phase and time order, idempotent dispatch, rollback, bounded retries, cancellation totals, and so on.
- **Parameters.** The clock, the configuration tables (`Strategy.Config`) and the credit-status oracle are parameters. So are the store and queue failures named by a fault parameter: a failing record save, job add, jobId write or job removal in planning, dispatch, rescheduling and cancellation, a failing status write in cancellation and in the failed listener, and a failing send. The caught failures listed under "## Left out" have no parameter.

Modules:

| module | what it models |
|---|---|
| `Models` | the record and plan schemas, enums and defaults |
| `Store` | records, plans, queues and repeatable jobs as state |
| `Strategy` | the configuration tables |
| `Text` | decimal rendering of numbers |
| `Calendar` | ISO dates |
| `TimeWindow` | delivery hours, weekends, holidays and the daily cap |
| `Template` | `formatMessage` |
| `Dispatch` | `scheduleNotificationTask` |
| `Persist` | the save / dispatch / write-back step shared by both schedulers |
| `Planner` | `scheduleNotifications` and its four phase functions |
| `Reschedule` | `rescheduleBullJob` |
| `Cancel` | `cancelScheduledNotifications` |
| `CreditCheck` | `checkCreditStatus` |
| `Notifications` | `sendNotification` |
| `TestScheduler` | the test-scenario scheduler |
| `Workers` | the queue workers |
| `PlanController` | the plan endpoints |

Where the source has a defect, the model keeps both forms:

- `AsWritten` behaves as the code does.
- `Corrected` behaves as evidently intended.

The operations take the variant as a parameter `v` and compute either form: the cancellation loop, the credit-status check, the send, the job processor and the status-check sweep. A lemma that holds for one form only names that form. getNextValidTime is two functions, `NextValidTimeAsWritten` and `NextValidTime`. See "## Findings".

## Model

| member | source | states |
|---|---|---|
| Models.ParseChannel | models/notificationRecord.model.js:36-40 | a channel string parses only to the enum value whose name it is, and a string that is no channel name parses to nothing |
| Models.ParseChannelName | models/notificationRecord.model.js:36-40 | every channel's name parses back to that channel |
| Models.NewRecord | models/notificationRecord.model.js:12-74 | a new record has status scheduled, retryCount 0, empty metadata and no sentAt, failReason or jobId; the given fields are kept |
| Models.NewPlan | models/notificationPlan.model.js:12-46 | a new plan is active with credit status ACTIVE and lastCheckDate equal to its creation time; the given fields are kept |
| Store.Queues.Set | services/scheduler.service.js:366-381 | writing one channel's queue changes that queue and no other |
| Store.EnqueueStores | services/scheduler.service.js:392-420 | lookup-before-add: after enqueueing, the job id is present; other ids are untouched; a job whose id is new is the one returned |
| Store.EnqueueIdempotent | services/scheduler.service.js:392-399 | enqueueing the same job again returns the same job and leaves the queue as it was |
| Store.Store.InsertRecord | services/scheduler.service.js:102 | a save stores the record under the next id and advances the id counter, changing nothing else |
| Store.Store.PutRecord | services/scheduler.service.js:603-605 | an update by id replaces that record only |
| Text.NatToString | services/scheduler.service.js:384 | the decimal form of a number is non-empty and all digits, with no leading zero once the number is 10 or more |
| Text.NatToStringRoundTrip | services/scheduler.service.js:384 | reading the decimal form back gives the number |
| Text.NatToStringInjective | services/scheduler.service.js:384 | distinct numbers have distinct decimal forms |
| Text.IntToString | services/scheduler.service.js:384 | a signed integer renders as digits, with a leading minus exactly when it is negative |
| Text.IntToStringInjective | services/scheduler.service.js:384 | distinct integers have distinct renderings |
| Text.PadLeft | services/scheduler.service.js:437 | zero padding keeps the digits at the right and fills the left with zeros up to the width |
| Calendar.CivilFromDays | services/scheduler.service.js:437 | a day number maps to a month in 1..12 and a day in 1..31 |
| Calendar.IsoDate | services/scheduler.service.js:437 | the date part of an ISO timestamp has the form YYYY-MM-DD |
| Calendar.IsoDateExample | services/scheduler.service.js:434-438 | day 19914 after the epoch renders as "2024-07-10" |
| Calendar.DateText | services/scheduler.service.js:437 | a year in 0..9999 with a valid month and day renders as four digits, a dash, two digits, a dash, two digits |
| Calendar.CivilExampleJuly | services/scheduler.service.js:434-438 | day 19914 is 2024-07-10 |
| Calendar.DateTextExample | services/scheduler.service.js:437 | 2024, 7, 10 renders as "2024-07-10" |
| Calendar.CivilExampleJune | services/scheduler.service.js:434-438 | day 19884 is 2024-06-10 |
| TimeWindow.IsHoliday | services/time.service.js:49-54 | no date is a holiday |
| TimeWindow.IsValidTime | services/time.service.js:13-42 | a moment is valid exactly when its hour lies in [START_HOUR, END_HOUR) and it is a weekday or weekends are enabled |
| TimeWindow.AtHourParts | services/time.service.js:77-84 | moving k days and setting the hour lands on that day, at that hour, on the weekday k later |
| TimeWindow.WeekendShift | services/time.service.js:87-107 | with weekends disabled, a Saturday moves two days and a Sunday one day, to START_HOUR; any other moment is unchanged; the result is never earlier |
| TimeWindow.NextValidTimeAsWritten | services/time.service.js:61-131 | getNextValidTime as written: never earlier than its input, a valid input comes back unchanged, an early hour goes to START_HOUR of the same day, a late hour to START_HOUR of the next day or, with weekends disabled, past the weekend (Friday +3, Saturday +2 days), an in-window weekend input to START_HOUR of Monday; the result is valid exactly unless the input is an early hour on a disabled weekend |
| TimeWindow.AsWrittenEarlyWeekendInvalid | services/time.service.js:66-74 | on a weekend with weekends disabled, an early-hour input yields a moment that is not valid |
| TimeWindow.AsWrittenSaturdayMorning | services/time.service.js:66-74 | concrete case: Saturday 2024-06-08 03:00 yields Saturday 09:00, which is not valid |
| TimeWindow.NextValidTime | services/time.service.js:61-131 | corrected: the next valid time is never earlier than its input, is valid, equals a valid input, and for an invalid input lies exactly on a START_HOUR |
| TimeWindow.NextValidIsLeast | services/time.service.js:61-131 | corrected: no moment from the input up to the result is valid, so the result is the earliest valid moment at or after the input |
| TimeWindow.CheckDailyNotificationLimit | services/time.service.js:139-143 | the daily limit check always allows the send |
| TimeWindow.NextDayStart | services/notification.service.js:213-220 | "tomorrow at START_HOUR" is the next day at START_HOUR, after now |
| Template.Placeholder | services/template.service.js:21 | the pattern for a key is `{{`, the key, `}}` |
| Template.ReplaceAllAbsent | services/template.service.js:21-22 | replacing a pattern that does not occur leaves the text unchanged |
| Template.ReplaceAllFirstOccurrence | services/template.service.js:21-22 | the first occurrence is replaced and the scan resumes after it (the global flag) |
| Template.ReplaceAllIsSplitJoin | services/template.service.js:21-22 | every occurrence of a border-free pattern is replaced: pieces joined by the pattern become pieces joined by the value |
| Template.PlaceholderBorderFree | services/template.service.js:21 | a placeholder of a brace-free key cannot overlap itself |
| Template.PlaceholderNotInOther | services/template.service.js:20-23 | the placeholder of one brace-free key never occurs inside that of another |
| Template.SubstituteAppend | services/template.service.js:20-23 | keys are applied one after another: substituting d1 + d2 is substituting d1, then d2 |
| Template.SubstituteNoPlaceholders | services/template.service.js:18-25 | text without any of the data's placeholders is returned unchanged |
| Template.SubstituteNoPlaceholdersWhenAbsent | services/template.service.js:18-25 | the same fact, stated unconditionally as an implication |
| Template.Format | services/template.service.js:12-26 | a falsy template yields ""; a template with no placeholder of the data comes back unchanged |
| Template.UnknownPlaceholderKept | services/template.service.js:18-25 | a placeholder whose key is not in the data is left verbatim |
| Template.FormatOneKey | services/template.service.js:20-23 | with one key, all of that key's placeholders are replaced by its value |
| Template.FormatMessage | services/template.service.js:12-26 | the forEach fold over the keys computes Format |
| Strategy.Lookup | services/scheduler.service.js:76 | the template lookup finds the first entry with that key, or there is none |
| Strategy.TemplateFor | services/scheduler.service.js:76-78 | a template is found only under that day and that channel, never for an unconfigured day, and whatever the day's first entry holds for the channel is exactly what is found |
| Dispatch.JobIdForInjective | services/scheduler.service.js:384 | the job id `recordId-scheduledForMs` determines both the record id and the moment |
| Dispatch.DelayFor | services/scheduler.service.js:387-390 | the delay is scheduledFor − now when positive, otherwise 1000 |
| Dispatch.NotificationJobFor | services/scheduler.service.js:402-420 | a new job carries the record id, credit, borrower and content, with attempts 3, exponential backoff 60000, removeOnComplete true and removeOnFail false |
| Dispatch.DispatchJob | services/scheduler.service.js:363-420 | an unknown channel is an error; a failing add fails only for a new id; on success the channel's queue gains exactly the job id and other queues are unchanged; an existing job is returned unchanged, otherwise the new job |
| Dispatch.DispatchTwice | services/scheduler.service.js:392-399 | dispatching the same record twice yields the same job and adds nothing the second time |
| Dispatch.DispatchKeyedById | services/scheduler.service.js:384-420 | every queue stays keyed by job id, and the returned job has the derived id |
| Dispatch.ScheduleNotificationTask | services/scheduler.service.js:363-427 | the store after a dispatch is the one DispatchJob computes; a failed dispatch changes nothing |
| Persist.Materialize | models/notificationRecord.model.js:12-74 | a draft is saved exactly when its channel is known and its required text fields are non-empty; the record then has the schema defaults and the draft's fields |
| Persist.TestJobFor | services/testScheduler.service.js:196-214 | a test job has id "test-" + record id, positive delay, attempts 3, no backoff, removeOnComplete true and removeOnFail false |
| Persist.TestDispatch | services/testScheduler.service.js:178-214 | the test queue add fails only when its fault is set, and otherwise stores the job under its id, with no lookup first |
| Persist.DispatchForFacts | services/scheduler.service.js:363-420 | a dispatch of a valid record succeeds unless its add fails; on success the queues only grow, stay keyed by id, and hold the job under the id the kind derives |
| Persist.AttemptSaved | services/scheduler.service.js:101-121 | once the record is saved, a failed dispatch keeps the saved record, a failed jobId write keeps the queued job, and otherwise the job id is written and the record's id is returned |
| Persist.AttemptUnqueued | services/scheduler.service.js:101-121 | a saved record whose dispatch fails is left in the store without a job id and is not pushed |
| Persist.AttemptJobIdLost | services/scheduler.service.js:108-109 | a dispatched record whose job id write fails keeps its job in the queue and is not pushed |
| Persist.AttemptMade | services/scheduler.service.js:101-111 | a record saved, dispatched and updated is pushed, with its job id written and its job queued |
| Persist.AttemptShape | services/scheduler.service.js:101-121 | one try block: the store stays well formed and only grows; a pushed id is the fresh id, holding the draft's record with its job queued; a valid draft without a fault is always pushed |
| Persist.FramedStep | services/scheduler.service.js:74-122 | one more try block keeps the growth and id-order frame of the run |
| Persist.AttemptsFramed | services/scheduler.service.js:74-122 | a loop of try blocks keeps the store well formed and growing; pushed ids are fresh and increasing |
| Persist.AttemptsFrame | services/scheduler.service.js:74-122 | the same frame, stated field by field |
| Persist.CreatedQueuedStep | services/scheduler.service.js:101-111 | one more try block keeps every pushed record stored, from one of the drafts, and queued |
| Persist.AttemptsCreatedQueued | services/scheduler.service.js:101-111 | every pushed record is stored, comes from one of the drafts, and has its job queued |
| Persist.AttemptsCreated | services/scheduler.service.js:101-111 | the same, stated field by field |
| Persist.AttemptsCreatedFrom | services/scheduler.service.js:101-111 | each pushed record comes from one of the drafts |
| Persist.AttemptsShape | services/scheduler.service.js:74-122 | the frame and the creation facts together |
| Persist.AllMadeSnoc | services/scheduler.service.js:101-111 | one more successful try block extends the one-record-per-draft correspondence |
| Persist.AllSucceedStep | services/scheduler.service.js:101-111 | when the next draft is valid and fault-free, it gets the next id and a record |
| Persist.AttemptsAllSucceed | services/scheduler.service.js:101-121 | with no fault, every valid draft yields a record, with consecutive ids in draft order |
| Persist.AttemptsSingle | services/scheduler.service.js:101-111 | a run over one draft is one try block |
| Persist.AttemptsSnoc | services/scheduler.service.js:74-122 | the loop is the fold of the try block |
| Persist.AttemptsAppend | services/scheduler.service.js:38-41 | running two draft lists one after the other, with a shared createdRecords, is running their concatenation |
| Persist.PersistAndDispatch | services/scheduler.service.js:101-121 | the store after the try block and the pushed id are those of Attempt |
| Planner.AuctionDate | services/scheduler.service.js:434-438 | the auction date is the ISO date of the day thirty days after the due date |
| Planner.ChannelDraftSound | services/scheduler.service.js:74-99 | a channel's draft, when there is one, is Planned: a configured day and channel, moment dueDate + day days and not in the past, a non-empty template rendered with the phase's data; an eligible channel has exactly one draft |
| Planner.ChannelDraftCovers | services/scheduler.service.js:76-78 | an eligible channel's own draft covers it |
| Planner.ChannelsDraftsSound | services/scheduler.service.js:74-99 | the inner loop yields only Planned drafts of its day and its channels |
| Planner.ChannelsDraftsComplete | services/scheduler.service.js:74-78 | the inner loop yields a draft for every eligible channel |
| Planner.ChannelsDraftsExact | services/scheduler.service.js:74-99 | the inner loop is sound and complete |
| Planner.DaysDraftsSound | services/scheduler.service.js:60-71 | the day loop yields only Planned drafts of its days; past moments and days without a channel list yield nothing |
| Planner.DayDraftsComplete | services/scheduler.service.js:62-78 | one day yields a draft for every eligible channel of that day |
| Planner.DaysDraftsComplete | services/scheduler.service.js:60-78 | the day loop yields a draft for every eligible (day, channel) |
| Planner.DaysDraftsExact | services/scheduler.service.js:60-99 | the day loop is sound and complete |
| Planner.PhaseDraftsExact | services/scheduler.service.js:57-124 | one phase function plans only Planned drafts of that phase, and one for each of its eligible (day, channel) pairs |
| Planner.PlanDraftsSound | services/scheduler.service.js:57-124 | every draft the four phase functions plan is Planned |
| Planner.PlanDraftsComplete | services/scheduler.service.js:57-124 | every eligible (phase, day, channel) triple gets a draft |
| Planner.PlanDraftsExact | services/scheduler.service.js:57-124 | all and only: the plan's drafts are Planned, and they cover every eligible triple |
| Planner.ChannelDraftCount | services/scheduler.service.js:74-99 | one channel gives one draft of its own (phase, day, channel) triple when its template is non-empty, and no draft of any other triple |
| Planner.ChannelsDraftsCount | services/scheduler.service.js:74-99 | a channel list without repeats gives each triple once when the channel is listed and has a template, and zero times otherwise |
| Planner.DayDraftsCount | services/scheduler.service.js:60-99 | one day gives each triple once when the moment is not past and the channel is listed with a template, zero times otherwise |
| Planner.DaysDraftsCount | services/scheduler.service.js:60-99 | a day list without repeats gives each covered triple exactly once and every other triple zero times |
| Planner.PhaseDraftsCount | services/scheduler.service.js:57-124 | a phase whose days and channel lists have no repeats plans each eligible triple of its own phase exactly once and nothing else |
| Planner.PlanDraftsCount | services/scheduler.service.js:57-124 | with no repeated day or channel in the configuration, the plan holds exactly one draft per eligible triple and none for any other |
| Planner.PlanDraftsPhaseOrder | services/scheduler.service.js:38-41 | the drafts come in phase order: preventive, early, medium, late |
| Planner.PhaseDraftsStage | services/scheduler.service.js:88-99 | each phase function stamps its own stage on its records |
| Planner.ConcatPhaseOrder | services/scheduler.service.js:38-41 | concatenating the four phases' drafts gives a phase-ordered list |
| Planner.AttemptsKeepPhaseOrder | services/scheduler.service.js:38-41 | skipping failed notifications keeps the created records in phase order |
| Planner.ScheduleNotificationsRecords | services/scheduler.service.js:30-48 | every created record is stored: status scheduled, the plan's id, scheduledFor = dueDate + day days, not in the past, its job id written and its job queued, and it comes from a Planned draft |
| Planner.ScheduleNotificationsOrder | services/scheduler.service.js:38-47 | the created records are stored and returned in phase order |
| Planner.ScheduleNotificationsComplete | services/scheduler.service.js:101-121 | with every draft valid and no fault, every planned draft is created |
| Planner.ScheduleNotificationsSpec | services/scheduler.service.js:30-48 | record facts, phase order and completeness together |
| Planner.ScheduleChannel | services/scheduler.service.js:74-122 | one channel iteration performs the try block of its draft |
| Planner.DayStep | services/scheduler.service.js:74-122 | one more channel extends the fold over the day's channels |
| Planner.ScheduleDay | services/scheduler.service.js:74-123 | the channel loop performs the run over its drafts |
| Planner.PhaseStep | services/scheduler.service.js:60-123 | one more day extends the fold over the phase's days |
| Planner.SchedulePhase | services/scheduler.service.js:57-124 | the phase function performs the run over its phase's drafts |
| Planner.ScheduleNotifications | services/scheduler.service.js:30-48 | scheduleNotifications performs the run over the plan's drafts; the returned ids are those of the run |
| Reschedule.RemoveOldJob | services/scheduler.service.js:476-511 | the old job leaves its channel's queue when there is one and its removal succeeds; otherwise the queues are unchanged |
| Reschedule.RescheduleRejects | services/scheduler.service.js:446-457 | a missing record is reported before the date is checked; an invalid date is reported next; nothing changes in either case |
| Reschedule.RescheduleSuccess | services/scheduler.service.js:467-530 | on success the record has the new moment, status scheduled and the returned job's id; the job is queued under the derived id; nothing else changes |
| Reschedule.RemoveFailureIgnored | services/scheduler.service.js:496-510 | a failure to remove the old job is swallowed: the outcome is still success and the records are the same as with a successful removal |
| Reschedule.RescheduleRollback | services/scheduler.service.js:531-548 | after any error the records and plans are as before; an old job that was removed stays removed |
| Reschedule.RescheduleTouchesOnlyItsRecord | services/scheduler.service.js:446-548 | only the rescheduled record changes, and only in scheduledFor, status and jobId |
| Reschedule.RescheduleWellFormed | services/scheduler.service.js:446-548 | rescheduling keeps the store well formed |
| Reschedule.RescheduleJob | services/scheduler.service.js:446-549 | rescheduleBullJob computes RescheduleOutcome |
| Reschedule.RescheduleAccepted | services/scheduler.service.js:465-548 | the try block after both checks pass computes Accepted |
| Cancel.MatchedIds | services/scheduler.service.js:558-561 | the query finds exactly the records of the credit still scheduled, in increasing id order |
| Cancel.MatchedIdsNone | services/scheduler.service.js:558-561 | with no matching record the query finds nothing |
| Cancel.CountsAddUp | services/scheduler.service.js:631-635 | totalCancelled + totalFailed = number of entries, and totalFailed is 0 exactly when every entry succeeded |
| Cancel.CancelStepFrame | services/scheduler.service.js:570-629 | one iteration reports its record, keeps every key, only shrinks queues and leaves plans alone |
| Cancel.CancelStepEffect | services/scheduler.service.js:570-629 | one iteration: the record becomes cancelled when its entry succeeds and is untouched otherwise; only its own job can leave a queue; success holds exactly when no step of it failed |
| Cancel.CancelRunFrame | services/scheduler.service.js:570-629 | the loop makes one entry per matched record, in order, and only shrinks the queues |
| Cancel.CancelRunOthers | services/scheduler.service.js:570-629 | records outside the matched list are untouched |
| Cancel.CancelRunRecords | services/scheduler.service.js:570-629 | each matched record ends cancelled when its entry succeeded and unchanged when it failed |
| Cancel.CancelRunJobs | services/scheduler.service.js:591-600 | only matched records' jobs leave the queues, and each such job whose removal did not fail is gone |
| Cancel.CorrectEntriesStep | services/scheduler.service.js:570-629 | one more corrected iteration keeps the rule that an entry fails exactly on a failing removal or write |
| Cancel.CancelRunCorrected | services/scheduler.service.js:570-629 | corrected loop: an entry fails exactly when its job removal or its status write fails |
| Cancel.MatchedAreRecords | services/scheduler.service.js:558-561 | the matched ids are exactly the stored matching records |
| Cancel.CancelOutcomeTotals | services/scheduler.service.js:631-635 | totalCancelled + totalFailed equals the number matched; details list the matched ids in order |
| Cancel.CancelOutcomeRecords | services/scheduler.service.js:556-636 | only matched records change, each to cancelled exactly when its entry succeeded; the queues only shrink; plans are unchanged; the store stays well formed |
| Cancel.CancelRematch | services/scheduler.service.js:558-561 | after a run, the records still matching are exactly those whose entry failed |
| Cancel.CancelRunFaultFree | services/scheduler.service.js:570-629 | with no fault, the corrected loop cancels every matched record and removes its job |
| Cancel.CancelCorrectedFaultFree | services/scheduler.service.js:556-636 | corrected, with no fault: totalFailed 0, totalCancelled = number matched, every matched record cancelled and its job removed |
| Cancel.CancelTwiceMatchesNothing | services/scheduler.service.js:558-561 | re-running after a fault-free cancellation matches zero records |
| Cancel.CancelAsWrittenLosesJob | services/scheduler.service.js:592-605 | as written, a record whose queued job is removed is reported failed and keeps status scheduled, although its job is gone |
| Cancel.CancelAsWrittenSingle | services/scheduler.service.js:592-628 | as written, one matched record with a queued job: 0 cancelled, 1 failed, records unchanged, its job removed |
| Cancel.CancelAsWrittenExample | services/scheduler.service.js:597 | concrete store: one scheduled sms record with job "0-100" ends still scheduled, with an empty sms queue, 0 cancelled and 1 failed |
| Cancel.CancelOne | services/scheduler.service.js:571-628 | one loop iteration on the store computes CancelStep |
| Cancel.CancelLoop | services/scheduler.service.js:570-629 | the loop on the store computes CancelRun |
| Cancel.CancelScheduledNotifications | services/scheduler.service.js:556-636 | cancelScheduledNotifications computes CancelOutcome |
| CreditCheck.FirstPlan | services/scheduler.service.js:651-658 | findOneAndUpdate picks the first plan of the credit by id, or reports that there is none |
| CreditCheck.CheckWithoutPlan | services/scheduler.service.js:648-663 | a failing status fetch is rethrown with nothing changed; with no plan the answer is updated: false and nothing changes |
| CreditCheck.CheckWithPlan | services/scheduler.service.js:651-685 | with a plan, it records the new status and check time on that plan only; cancellation runs exactly when the status is CLOSED, CANCELLED or RESTRUCTURED, and otherwise no record or job changes |
| CreditCheck.CheckTerminalCancelsAll | services/scheduler.service.js:666-683 | corrected cancellation: a terminal status without faults cancels every scheduled record of the credit, and the answer counts them |
| CreditCheck.CheckTerminalAsWritten | services/scheduler.service.js:666-683 | as written, through the cancellation loop at lines 592-628: a terminal credit whose only scheduled record has a queued job loses that job, the record stays scheduled, and the answer says updated with 0 cancelled |
| CreditCheck.CheckKeepsWellFormed | services/scheduler.service.js:651-685 | the check keeps the store well formed and adds or drops no plan |
| CreditCheck.CheckCreditStatus | services/scheduler.service.js:643-690 | checkCreditStatus computes CheckOutcome, with the cancellation loop as written or corrected |
| Notifications.SendGuards | services/notification.service.js:163-177 | a missing record is an error; a record that is not scheduled is skipped with no send and no change |
| Notifications.SendDelivered | services/notification.service.js:237-289 | a delivered send sets status sent and sentAt, keeps the old metadata keys and adds providerResponse; nothing else changes |
| Notifications.SendFailedFinal | services/notification.service.js:290-327 | a failure with retryCount ≥ 2 rethrows; the record stays failed, with metadata error and retryCount + 1 and the top-level retryCount unchanged |
| Notifications.SendRetryUnfold | services/notification.service.js:303-317 | a failure with retryCount < 2 writes the retried record, then reschedules it one hour after now |
| Notifications.SendCapUnfold | services/notification.service.js:207-228 | past the daily limit, scheduledFor becomes tomorrow at START_HOUR and the record is rescheduled there |
| Notifications.RescheduleCallSucceeds | services/notification.service.js:317 | the corrected reschedule call moves the record and queues its new job |
| Notifications.RescheduleCallFrame | services/notification.service.js:317 | the reschedule call changes only that record, and only its moment, status and job id |
| Notifications.SendRetried | services/notification.service.js:303-324 | corrected retry: status scheduled, scheduledFor now + 1h, retryCount + 1, metadata error and count, a new job queued, a non-throwing return |
| Notifications.SendRetryAsWritten | services/notification.service.js:304-317 | as written, the retry branch writes the record, then throws at the unimported rescheduleBullJob; no job is queued |
| Notifications.SendCapped | services/notification.service.js:207-235 | as written, the limit branch writes tomorrow START_HOUR and throws; corrected, it reschedules there; the branch is unreachable while the limit stub allows every send |
| Notifications.SendFrame | services/notification.service.js:163-329 | a send keeps the store well formed and touches no other record and no plan |
| Notifications.SendFrameDeferred | services/notification.service.js:207-235 | the limit branch touches no other record and no plan |
| Notifications.SendFrameRetried | services/notification.service.js:290-327 | the retry branch touches no other record and no plan |
| Notifications.SendRetryCount | services/notification.service.js:299-313 | a send raises retryCount by at most one, only for a scheduled record under the budget, and always when it reports a retry |
| Notifications.RetriesStep | services/notification.service.js:304-313 | one more failing send keeps the retry count within the budget |
| Notifications.RetriesBoundedRun | services/notification.service.js:304-313 | over any run of failing sends, retries counted on the record never exceed the budget |
| Notifications.RetriesBounded | services/notification.service.js:304-327 | bounded retries: a record is retried at most 2 − retryCount times however often it fails |
| Notifications.SendNotification | services/notification.service.js:163-329 | sendNotification computes SendOutcome |
| Notifications.CallReschedule | services/notification.service.js:228 | the reschedule call on the store computes RescheduleCall |
| Workers.ProcessDispatched | workers/notificationWorkers.js:22-83 | the job queued for a record, regular or test, is processed as a send of exactly that record |
| Workers.ProcessWithoutRecord | workers/notificationWorkers.js:22-33 | a job without a record id fails as a missing record and changes nothing |
| Workers.ProcessNotificationJob | workers/notificationWorkers.js:22-83 | a channel processor computes ProcessOutcome |
| Workers.DueIds | workers/notificationWorkers.js:93-98 | exactly the active plans whose lastCheckDate is before now − CHECK_INTERVAL, by id |
| Workers.Limit | workers/notificationWorkers.js:99 | at most BATCH_SIZE items taken from the front; a limit of 0 takes all |
| Workers.InsertByCheckPerm | workers/notificationWorkers.js:100 | insertion by lastCheckDate keeps the items |
| Workers.InsertByCheckSorted | workers/notificationWorkers.js:100 | insertion into a list ordered by lastCheckDate keeps it ordered |
| Workers.SortByCheckSpec | workers/notificationWorkers.js:100 | sorting by ascending lastCheckDate gives an ordered permutation |
| Workers.SortedDueSpec | workers/notificationWorkers.js:93-100 | the sorted due list is ordered, holds only due plans, and holds every due plan |
| Workers.LimitSorted | workers/notificationWorkers.js:99-100 | taking a prefix keeps the order, and every plan left out was checked no earlier than those taken |
| Workers.SelectBatchSpec | workers/notificationWorkers.js:93-100 | the batch holds only due plans, by ascending lastCheckDate, min(BATCH_SIZE, due) of them, and every due plan left out was checked no earlier than all of the batch |
| Workers.BatchCredits | workers/notificationWorkers.js:107-109 | the loop visits the batch's credit ids, one per plan, in order |
| Workers.SweepRunAligned | workers/notificationWorkers.js:107-122 | one result per plan in order: an error entry for that credit exactly when its check threw, otherwise that credit's report with the fetched status |
| Workers.SweepRunNonTerminal | workers/notificationWorkers.js:107-122 | when no credit turns terminal, the sweep changes no record and no job |
| Workers.SweepSpec | workers/notificationWorkers.js:88-132 | checked = number of plans in the batch; one result per plan, aligned with the batch; the store stays well formed |
| Workers.SweepOne | workers/notificationWorkers.js:108-121 | one loop iteration computes SweepStep |
| Workers.StatusCheckSweep | workers/notificationWorkers.js:88-132 | the status-check processor computes SweepOutcome, for either variant of the cascade |
| Workers.FailedListenerSpec | workers/notificationWorkers.js:172-191 | when the job carries a record id, that record turns failed with metadata replaced by exactly {error, failedAt, attempts}; nothing else changes |
| Workers.OnJobFailed | workers/notificationWorkers.js:172-191 | the failed listener computes FailedOutcome |
| Workers.RemoveRepeatable | workers/notificationWorkers.js:143 | removing by key drops exactly the repeatable jobs with that key |
| Workers.ClearedStep | workers/notificationWorkers.js:142-144 | each removal keeps the listed-jobs-removed invariant |
| Workers.ClearedAll | workers/notificationWorkers.js:140-144 | once every listed key is removed, no repeatable job is left |
| Workers.SetupRecurringChecks | workers/notificationWorkers.js:137-162 | every existing repeatable job is removed, then exactly one recurring check with CHECK_INTERVAL is added |
| TestScheduler.ChannelScenarios | services/testScheduler.service.js:30-37 | one scenario per (channel, template) entry of a day, in entry order |
| TestScheduler.PhaseScenariosLength | services/testScheduler.service.js:29-38 | a phase yields as many scenarios as its table has entries |
| TestScheduler.PhaseScenarioAt | services/testScheduler.service.js:29-38 | entry j of day i is the scenario at position (entries before day i) + j |
| TestScheduler.PhaseScenariosFrom | services/testScheduler.service.js:29-38 | every scenario of a phase comes from an entry of its table |
| TestScheduler.FilterPhase | services/testScheduler.service.js:99-101 | keeps exactly the scenarios of the given phase |
| TestScheduler.FilterChannels | services/testScheduler.service.js:104-108 | keeps exactly the scenarios whose channel is listed |
| TestScheduler.InsertPerm | services/testScheduler.service.js:111-129 | insertion keeps the scenarios |
| TestScheduler.InsertSorted | services/testScheduler.service.js:111-129 | insertion into a list sorted by (phase, day) keeps it sorted |
| TestScheduler.InsertStable | services/testScheduler.service.js:111-129 | insertion keeps equal-key scenarios in their original order |
| TestScheduler.SortScenariosSpec | services/testScheduler.service.js:111-129 | the sort is sorted by phase order then day, a permutation, and stable |
| TestScheduler.TestDrafts | services/testScheduler.service.js:136-172 | one draft per sorted scenario |
| TestScheduler.TestDraftsAt | services/testScheduler.service.js:136-172 | draft i is built from scenario i alone: its phase, day and channel, its template rendered with the test data, at now + (i+1)·interval minutes |
| TestScheduler.FromDraftFields | services/testScheduler.service.js:161-172 | a record made from a draft has its moment, stage, day and plan, status scheduled and the derived job id |
| TestScheduler.TestTimesIncrease | services/testScheduler.service.js:138-140 | with a positive interval the moments strictly increase with the index |
| TestScheduler.TestTimesReflect | services/testScheduler.service.js:138-140 | an earlier moment means an earlier index |
| TestScheduler.TestScenariosExact | services/testScheduler.service.js:96-129 | the scheduled scenarios are exactly the table entries passing the optional phase filter and the optional non-empty channel filter, sorted, with multiplicity kept |
| TestScheduler.AttemptsKeepTimeOrder | services/testScheduler.service.js:136-229 | skipping failed scenarios keeps the created records in strictly increasing time |
| TestScheduler.TestRunOrder | services/testScheduler.service.js:136-229 | created test records have strictly increasing moments and come in (phase, day) order |
| TestScheduler.RunKeyOrder | services/testScheduler.service.js:136-229 | the (phase, day) order of the drafts carries over to the created records |
| TestScheduler.TestDraftsTimeOrder | services/testScheduler.service.js:138-140 | the test drafts' moments strictly increase |
| TestScheduler.TestDraftsKeyOrder | services/testScheduler.service.js:111-140 | an earlier draft never has a later (phase, day) |
| TestScheduler.TestRecordOf | services/testScheduler.service.js:161-217 | a record made from a test draft is scheduled, belongs to the plan and has job id "test-" + its id |
| TestScheduler.TestRunSpec | services/testScheduler.service.js:174-231 | each created test record is stored from its draft with its test job queued; with no fault, every scenario is created |
| TestScheduler.TestRunRecords | services/testScheduler.service.js:174-231 | the record facts of the test run |
| TestScheduler.ScheduleTestSpec | services/testScheduler.service.js:89-232 | scheduleTestNotifications: record facts, time and key order, and completeness |
| TestScheduler.CollectDay | services/testScheduler.service.js:30-37 | the inner forEach appends that day's scenarios |
| TestScheduler.CollectPhase | services/testScheduler.service.js:29-38 | the outer forEach appends the phase's scenarios |
| TestScheduler.GetAllNotificationScenarios | services/testScheduler.service.js:25-77 | the scenarios of the four phases, in table order |
| TestScheduler.SelectScenarios | services/testScheduler.service.js:96-129 | filtering and sorting computes TestScenarios |
| TestScheduler.ScheduleScenario | services/testScheduler.service.js:137-228 | one loop iteration performs the try block of its draft |
| TestScheduler.ScheduleScenarios | services/testScheduler.service.js:136-229 | the index loop performs the run over the test drafts |
| TestScheduler.ScheduleTestNotifications | services/testScheduler.service.js:89-232 | scheduleTestNotifications computes TestOutcome |
| TestScheduler.SchedulePhaseTestNotifications | services/testScheduler.service.js:241-247 | delegates with only the phase option set |
| TestScheduler.ScheduleChannelTestNotifications | services/testScheduler.service.js:256-262 | delegates with only the channels option set |
| PlanController.FindPlanSpec | controllers/notificationPlan.controller.js:81-83 | findOne by creditId finds a plan exactly when one exists, whatever its status |
| PlanController.CreateRejectsExisting | controllers/notificationPlan.controller.js:81-88 | a create for a credit that has a plan is refused, and nothing is saved or scheduled |
| PlanController.CreateSpec | controllers/notificationPlan.controller.js:91-100 | the new plan is active, keeps the given fields, with currency given or "EUR", and is the only plan of its credit; records are kept and queues only grow |
| PlanController.CreateSchedules | controllers/notificationPlan.controller.js:100-110 | a create saves the plan, then plans it; the answer counts the created records, which are scheduled and belong to the plan at dueDate + day days |
| PlanController.CreatePlan | controllers/notificationPlan.controller.js:76-115 | createPlan computes CreateOutcome |
| PlanController.CancelPlanRecordsSpec | controllers/notificationPlan.controller.js:142-145 | exactly the plan's scheduled records become cancelled; nothing else changes; none of the plan's records stays scheduled |
| PlanController.CancelPlanRecordsIdempotent | controllers/notificationPlan.controller.js:142-145 | running the update twice is running it once |
| PlanController.CancelPlanRecordsInStore | controllers/notificationPlan.controller.js:142-145 | updateMany on the store computes CancelPlanRecords and leaves the queues alone |
| PlanController.ApplyFieldsSpec | controllers/notificationPlan.controller.js:149-151 | amount, currency and status are copied only when truthy, and nothing else in the plan changes |
| PlanController.UpdateKeepsDate | controllers/notificationPlan.controller.js:168-172 | with the due date unchanged only the truthy fields are saved; no record, job or other plan changes |
| PlanController.UpdateMovesDate | controllers/notificationPlan.controller.js:136-164 | a moved due date cancels the plan's scheduled records, keeps their jobs queued, saves the plan with the new date and fields, and plans again from the new date |
| PlanController.UpdatePlan | controllers/notificationPlan.controller.js:120-181 | updatePlan computes UpdateOutcome |
| PlanController.CancelPlanSpec | controllers/notificationPlan.controller.js:200-208 | cancelPlan sets the plan cancelled and cancels only that plan's scheduled records; queues are untouched |
| PlanController.CancelPlan | controllers/notificationPlan.controller.js:186-217 | cancelPlan computes CancelPlanOutcome |
| PlanController.MissingPlanNotFound | controllers/notificationPlan.controller.js:57-62 | get, update and cancel all answer NOT_FOUND for a credit without a plan and change nothing; get finds a plan of the credit otherwise |
| PlanController.PagesSpec | controllers/notificationPlan.controller.js:40 | pages = ceil(total / limit): the least number of limit-sized pages holding total items |
| PlanController.PageWindow | controllers/notificationPlan.controller.js:24 | item i lies in the skip window of page i / limit + 1 |
| PlanController.PageInRange | controllers/notificationPlan.controller.js:40 | that page is between 1 and the page count |
| PlanController.PageHoldsItem | controllers/notificationPlan.controller.js:24 | every item of the total is on some page within the page count |
| PlanController.PageUnique | controllers/notificationPlan.controller.js:242 | an item is on one page only |

## Left out

- The channel senders (sendSMS, sendEmail, sendPush, sendAICall), fetchCredit and getBorrowerContacts are provider I/O. A send is a parameter: delivered with a provider response, or failed with a message. An unknown channel takes the failed path.
- The credit-status fetch is an oracle parameter. services/api.service.js exports no `fetchCreditStatus`, so the ES-module import at services/scheduler.service.js:23 fails when the module graph is linked, and scheduler.service.js never loads as written. Module linking is outside the model; the oracle stands for the intended import.
- The configuration tables in constants.js are not shown. They are a parameter: days, channel lists and template tables per phase, time constraints and status-check settings.
- A plan's amount is an integer. Fractional JavaScript Number amounts and their decimal rendering in `{{amount}}` are not modelled.
- The hour range is assumed well formed: 0 <= START_HOUR < END_HOUR <= 24 (`WellFormedHours`). The source never checks it. The time-window functions (WeekendShift, NextValidTimeAsWritten, NextValidTime, NextDayStart) and SendOutcome require it.
- The store-fault parameter of scheduleNotifications and the test scheduler (a failing save, job add or jobId write) is a function of the draft, so two equal drafts fail or succeed together. A fault indexed by position is not modelled.
- Time is integer milliseconds in UTC. Local time zones and daylight saving are not modelled.
- Each operation reads the clock once (`now`). The source calls `new Date()` or `Date.now()` several times per operation.
- The `limit` query returns plans tied on lastCheckDate in id order. MongoDB's tie order is unspecified.
- Cancel.MatchedIds: the cancel query returns records in id order, which fixes the order of `details`. MongoDB's natural order for an unsorted find is unspecified.
- Concurrency is not modelled: worker concurrency, the Bull queue machinery, cron repeats and interleavings of reschedule, cancel and send.
- `setupCreditStatusChecks` is queue wiring with a cron repeat and is left out.
- The queue event loggers, statistics.controller.js, routes, middlewares, app bootstrap and utils/crypto.js are not part of this model.
- getMessageTemplate is not part of this model.
- Two dead code paths are left out:
  - The commented-out time-window test in sendNotification.
  - The holiday loop of getNextValidTime, which cannot run because isHoliday is always false.
- The rollback write of rescheduleBullJob is assumed to succeed.
- Four caught failures have no fault parameter and are assumed not to happen:
  - checkCreditStatus's plan update (`findOneAndUpdate`, services/scheduler.service.js:651-658);
  - the records query of cancelScheduledNotifications (services/scheduler.service.js:558-561);
  - the status sweep's plans query (workers/notificationWorkers.js:92-100);
  - setupRecurringChecks' `getRepeatableJobs`, `removeRepeatableByKey` and `add` (workers/notificationWorkers.js:139-160).
- CreditCheck.CheckOutcome: returns an error only with the store unchanged. The source reaches one more state: a terminal status whose plan is already updated, followed by a failing cancel query. The sweep then records an error for a credit whose plan has moved on. The model does not capture that state.
- A failing store write inside sendNotification's own steps is not modelled. A failing send is.
- sendTestNotification in the controller is left out. Its stage "test" is outside the phase enum, so its record fails the schema.
- Controller save failures and invalid date strings are not modelled.
- Page and limit are integers. Non-numeric query strings are out.
- The listing endpoints' queries are left out; only their pagination arithmetic is modelled.
- A truthy `channels` option that is not an array is out; the channel list is a sequence.
- Replacement values are plain text. JavaScript's `$` patterns in `String.replace` and regular-expression metacharacters in keys are not modelled.
- Records and plans share one id space. Mongo ObjectIds become consecutive numbers.
- `creditId` has no uniqueness constraint in either schema; only createPlan's check enforces one plan per credit. The model keeps that: the stores allow several plans per credit.
- TestScheduler.TestDrafts: its own contract states only the length. TestScheduler.TestDraftsAt states each draft's fields.

## Findings

| source | as written | input that shows it | evidently intended | confidence | as-written member | corrected member |
|---|---|---|---|---|---|---|
| services/scheduler.service.js:597 | the debug line after a successful job removal names an undefined `recordId`, which throws into the failure branch, so the record is reported failed and stays scheduled although its job is gone | one scheduled sms record with job "0-100" queued, cancelled without faults | the record is set to cancelled and counted in totalCancelled | not executed | Cancel.CancelAsWrittenExample | Cancel.CancelCorrectedFaultFree |
| services/notification.service.js:317 | rescheduleBullJob is called but never imported (imports at lines 13-18), so the retry branch (and the daily-limit branch at line 228) throws after writing the record, and no new job is queued | a scheduled record with retryCount 0 whose send fails | the record is rescheduled one hour later with a new job, and the call returns without throwing | not executed | Notifications.SendRetryAsWritten | Notifications.SendRetried |
| services/time.service.js:66-74 | an hour before START_HOUR returns START_HOUR the same day without the weekend shift | Saturday 2024-06-08 03:00 UTC with weekends disabled, START_HOUR 9 | the next valid moment, Monday at START_HOUR | not executed | TimeWindow.AsWrittenSaturdayMorning | TimeWindow.NextValidTime |
