# SkyMailr, modelled and proved in Dafny

SkyMailr accepts messages from many tenants, throttles them, hands them to a mail provider and follows
their fate through provider webhooks. This project models the parts of it that are protocols, state
machines or algorithms, and proves what they promise.

| file | models |
|---|---|
| `Throttling.dfy` | the slot log, its counters, the capacity check and the reservation that follows it |
| `DispatchProtocol.dfy` | any number of dispatch workers, interleaved step by step around the tenant row lock |
| `MailModel.dfy`, `MailStore.dfy` | messages, events, suppressions and pauses: each operation as a function of the whole database, and as the statement-by-statement method proved equal to it |
| `MailOutcomes.dfy` | what each of these operations does to a message, in plain terms, and what a pause stops over whole runs |
| `MailLifecycle.dfy`, `MailRevival.dfy`, `MailWebhooks.dfy`, `MailSuppression.dfy` | what every run of these operations keeps, and which messages can be sent again |
| `Normalizer.dfy` | how webhook payloads yield a message identifier and an event identifier |
| `WorkflowEngine.dfy` | the step interpreter, its sweeps, and the step-list trace it refines |
| `JsonExtract.dfy` | the scanner that cuts a JSON object out of model output, against a printer for the grammar of RFC 8259 |
| `StepOrder.dfy`, `SlugSearch.dfy` | renumbering under a unique constraint, and the search for a fresh slug |
| `DomainDns.dfy` | the two DNS evaluators, the plan they share, and the dispatch gate |
| `SendingRisk.dfy` | the automated pause evaluator and the pause state |

`dafny verify dfyconfig.toml` checks everything.

## How to read the model

Where the source mutates rows, a class has the same fields and its methods make the same assignments in the
same order; each method's contract equates the new state with a specification function of the old one and says
what its caller may rely on. The specification functions in turn are pinned down by lemmas in plain terms: literal
statuses, numbers of seconds, configured rates, rows counted as sets. `MailStore.Store` carries the invariants of the theorems as its own `Valid()`. The
theorems are about the specification functions, over all runs. Python's `None` and SQL's `NULL` are `None`; a raised
exception is a distinguished result; clock readings are parameters (or, in `DispatchProtocol`, readings of one
shared clock that only moves forward); the answers of the provider, of DNS and of the templates are parameters.

In `DispatchProtocol` a worker's first clock reading precedes the lock, the recheck reads the clock again, and
the stored stamp is a third reading. The tenant limit comes from a tenant row loaded before all that, so it may be
stale; operators may edit rates and policies between any two steps, and what is promised is the largest value a
limit takes during the run. A domain's tagged rows are capped while its policy is enabled; for a domain whose
policy stays enabled all along, the cap covers every message sent from it.

## What turned out false of the code

- A wait is honoured only directly after a send. A wait that opens a workflow, follows another wait, or follows
  a skipped step type is crossed at once: the interpreter suspends exactly at the first wait that directly follows
  a send (`OnlyWaitsAfterSendsSuspend`); `OpeningWaitIsCrossed` is a workflow whose opening wait, of any length,
  is crossed in the sweep that starts it.
- The recheck can still refuse after a successful check: exactly when local midnight passed in between and
  the new day is already full (`RecheckRefusesExactlyOnFullNextDay`); `MidnightRefusalHappens` is a run.
- A per-minute or daily cap is honoured exactly when it is positive. The help texts give only null as "no cap", but
  0 is read the same way (`DailyCapHonouredIffPositive`, `MinuteCapHonouredIffPositive`).
- At-least-once webhooks are exactly-once if and only if the event has an identifier (`AppliedOnceIffIdentified`).
  Postal's events always have one (`PostalIsExactlyOnce`); those of the generic mapping have one exactly when `uuid`,
  or failing that `id`, is not blank (`GenericEventsAreIdentifiedIff`).
- Cancelling is final exactly when webhooks cannot name the message's provider identifier. The blank identifier of
  a message no provider has accepted is such a one; any other, unless stripping changes it, lets some run bring
  the message back (`CancelIsFinalIffUnnameable`).
- A sent message stays sent once under exactly the same condition (`NeverResentIffUnnameable`). What sends it again is
  a soft bounce or a failure report, terminal or not, and no other webhook (`SecondSendIffReopened`). In every run it
  is accepted at most once plus once per reopening (`EveryHandoffIsMetered`).
- A message whose body failed to render is not kept from the provider: once an operator retries it, it is dispatched
  unrendered. Without a retry no run hands it over, and with one some run does exactly when it was not suppressed
  (`UnrenderedIsSentOnlyByRetry`, `SendableIffNotSuppressed`).
- Automation weakens its own pauses: a pause of everything but system mail becomes one of marketing and lifecycle
  mail at the next evaluation that finds a lesser trigger alone, unless an operator set it (`EvaluationUnblocksIff`).
- Moving a step collides with the unique constraint unless every row's old order is 0 or at least its new
  position; on a list already numbered 1..n, as deletion leaves it, only the move to the step's own position
  goes through (`ApplyStepOrder`, `CompactMoveCollides`). Deleting collides exactly when the remaining rows hold both
  order 0 and order 1 (`DeleteStepAndRenumber`).
- The retry backoff is written with a cap of 300 seconds that it never reaches: delays stay at 256 (`BackoffDoubles`).
- The JSON extractor returns an object exactly when the object's text stands at the first brace
  (`ExtractedIffAtFirstBrace`). It does not after a placeholder such as `{x}` (`EarlierBracesWin`), and it does after a
  copy of the object itself (`RepeatedObjectIsFound`).

## Model

| member | source | states |
|---|---|---|
| Throttling.Oldest | apps/messages/services/throttling.py:101-106 | the reported row is in scope and in span, no row in scope and span is older, and it is missing exactly when the count is zero |
| Throttling.CheckIsExact | apps/messages/services/throttling.py:176-209 | on a log without future rows the check allows a send if and only if reserving a slot now keeps every 60-second window and local day within its cap |
| Throttling.CheckDecides | apps/messages/services/throttling.py:176-209 | which of the three tests refuses, and in which order, by numbers: 60 seconds, the enabled policy's positive caps, the local day |
| Throttling.CountersReadTheirRows | apps/messages/services/throttling.py:154-173 | each counter is the size of the set of rows with the tenant or domain and time it names |
| Throttling.RefusalReports | apps/messages/services/throttling.py:95-131 | the reported time is 60 seconds after the oldest row of the full window, or the first instant of the next local day |
| Throttling.NextSendTimeIsLateEnough | apps/messages/services/throttling.py:134-151 | the fallback time is what one of the windows reports and never before what a check would report |
| Throttling.AdmitKeepsWindow | apps/messages/services/throttling.py:224-251 | a row stamped at any time after a passed check keeps every closed 60-second window capped |
| Throttling.AdmitKeepsDay | apps/messages/services/throttling.py:240-251 | the same for every local day, also when midnight passes between check and stamp |
| Throttling.AdmitKeepsCaps | apps/messages/services/throttling.py:212-251 | one admission keeps all promised caps of its tenant and domain |
| Throttling.WindowStaysShut | apps/messages/services/throttling.py:95-109 | a full window stays full up to and including the reported reopen time, whatever is added |
| Throttling.WindowReopensExactly | apps/messages/services/throttling.py:95-126 | with exactly the limit in the window and nothing added, it reopens strictly after the reported time and not before |
| Throttling.SameLocalDay | apps/messages/services/throttling.py:86-92 | the day bounds of an instant contain exactly the instants of the same local date |
| Throttling.RefusalHolds | apps/messages/services/throttling.py:188-207 | each of the three refusals stays in force until the time it reports |
| Throttling.LaterCheckRefusesExactlyOnFullNextDay | apps/messages/services/throttling.py:224-244 | on an unchanged log a later check refuses exactly when the local date has moved on to a full day, and then on the daily cap |
| Throttling.DailyCapHonouredIffPositive | apps/messages/services/throttling.py:203-207 | whatever is on record, a used-up daily cap refuses if and only if it is positive (or the tenant is closed) |
| Throttling.MinuteCapHonouredIffPositive | apps/messages/services/throttling.py:198-202 | the same for the per-minute cap |
| Throttling.SlotTable.CanSendNow | apps/messages/services/throttling.py:176-209 | the verdict, reason and reopen time are those of the specified check, in the same order of tests |
| Throttling.SlotTable.RecordSendAttempt | apps/messages/services/throttling.py:212-251 | inserts one row exactly when the recheck allows it, otherwise nothing, and never breaks a cap whatever the stamp |
| DispatchProtocol.CapsHoldInEveryRun | apps/messages/tasks.py:41-66 | in every interleaving no window of a tenant, no window of a domain and no local day of a domain exceeds the largest limit in force |
| DispatchProtocol.TenantRateHoldsInEveryRun | apps/messages/services/throttling.py:31-36 | in every interleaving, under any policies and rates of others, 60 seconds never hold more of a tenant's rows than its configured rate, or the floor if none is set, ever was |
| DispatchProtocol.DomainCapsHoldInEveryRun | apps/tenants/models.py:237-263 | the same for the messages sent from a domain whose enabled policy's caps stay within bounds, per 60 seconds and per local day |
| DispatchProtocol.LockExcludesInEveryRun | apps/messages/services/throttling.py:191-191 | two workers are never past the same tenant's row lock |
| DispatchProtocol.RecheckRefusesExactlyOnFullNextDay | apps/messages/tasks.py:42-66 | with the policy unedited, the recheck refuses exactly when midnight passed and the new day is full |
| DispatchProtocol.MidnightRefusalHappens | apps/messages/services/throttling.py:240-244 | a run from an initial state in which that refusal happens |
| DispatchProtocol.CommitKeepsCaps | apps/messages/services/throttling.py:246-251 | committing a rechecked row keeps the caps of every tenant and domain |
| DispatchProtocol.CheckIgnoresOthers | apps/messages/services/throttling.py:154-173 | rows of other tenants never change a check from allowed to refused |
| DispatchProtocol.RunKeepsInv | apps/messages/tasks.py:41-66 | lock, log and every worker's knowledge stay consistent over any run |
| MailModel.RequeuedAt | apps/messages/tasks.py:101-110 | a message is requeued exactly when it is due and fewer newer ones than the batch size are due; nothing else of it changes |
| MailModel.Lookup | apps/providers/webhook_service.py:221-221 | the newest message with the identifier, and none only if no message has it |
| MailModel.FindRow | apps/providers/webhook_service.py:117-121 | a matching row is found whenever there is one |
| MailStore.Store.CreateTemplatedMessage | apps/messages/services/send_pipeline.py:91-190 | exact new database: refusal leaves it alone, otherwise one message SUPPRESSED, FAILED or QUEUED with its events |
| MailStore.Store.CreateRawMessage | apps/messages/services/send_pipeline.py:205-279 | the same for messages that need no template |
| MailStore.Store.ApplySendSchedule | apps/messages/services/send_pipeline.py:193-202 | RENDERED becomes QUEUED with its send time and one event; any other status is left alone |
| MailStore.Store.DispatchMessageTask | apps/messages/tasks.py:21-86 | exact new database for every outcome: skipped, deferred, sent, failed, backed off |
| MailStore.Store.ReserveCapacity | apps/messages/tasks.py:41-66 | reserves one slot exactly when both checks allow it, otherwise defers to the reported time |
| MailStore.Store.DispatchToProvider | apps/messages/services/dispatch.py:15-102 | pause and domain gates before the call, then the exact effect of acceptance, rejection or an exception |
| MailStore.Store.RetryOutboundMessage | apps/messages/services/message_actions.py:7-14 | retries only messages that webhooks reopened as often as they were accepted, leaves them ready for dispatch, and touches no other |
| MailStore.Store.CancelOutboundMessage | apps/messages/services/message_actions.py:17-25 | a cancelled message is not dispatched, retried, requeued or cancelled again; no other message changes |
| MailStore.Store.RetryDueDeferredTask | apps/messages/tasks.py:101-110 | requeues the newest due messages, at most a hundred |
| MailStore.Store.CreateMessageEventIdempotent | apps/providers/webhook_service.py:64-79 | the event is on record afterwards, and one row is new exactly when it had no identifier or was not on record |
| MailStore.Store.ApplySuppressionUnique | apps/providers/webhook_service.py:103-137 | whatever was there, the address has exactly one entry for the reason afterwards, with the given channels and metadata, and no other entry changes |
| MailStore.Store.ApplyWebhook | apps/providers/webhook_service.py:213-325 | exact new database for every kind of webhook |
| MailStore.Store.ApplyBounce | apps/providers/webhook_service.py:244-282 | the record, and the different effects of hard and soft bounces |
| MailStore.Store.ApplyComplaint | apps/providers/webhook_service.py:284-311 | the status, record, suppression and pause a complaint leads to |
| MailStore.Store.ApplyAutomatedRiskPause | apps/tenants/services/sending_risk.py:182-230 | a manual pause stays, no pause is lifted, every firing trigger is honoured, and no other tenant is touched |
| MailStore.Store.CreateManualSuppression | apps/subscriptions/services/suppression_ops.py:35-88 | the address has exactly the manual entry given, and every message the entry stops is suppressed from then on; a blank address is refused |
| MailStore.Store.RemoveSuppressionWithAudit | apps/subscriptions/services/suppression_ops.py:91-117 | the row is traded for one audit row of what it said, and all others stay in place |
| MailOutcomes.CreationOutcome | apps/messages/services/send_pipeline.py:91-202 | a refused, paused or unapproved request leaves no trace; any other makes one message with the request's tenant, address and times, and the status and events of its case |
| MailOutcomes.CapacityWithoutDomain | apps/messages/services/throttling.py:31-36 | a message without a domain may go exactly while its tenant's last 60 seconds hold fewer rows than the configured rate, or the floor |
| MailOutcomes.CapacityWithDomain | apps/messages/services/throttling.py:188-209 | and one with a domain exactly if besides no cap of an enabled policy is used up |
| MailOutcomes.DispatchSkips | apps/messages/tasks.py:24-39 | nothing happens to a missing, unready or not yet due message |
| MailOutcomes.DispatchDefers | apps/messages/tasks.py:42-66 | without capacity the message is deferred to the reported time, with one event and no slot, call or retry |
| MailOutcomes.DispatchReserves | apps/messages/services/throttling.py:246-251 | with capacity one slot is written, with the columns of the message and of its domain's enabled policy |
| MailOutcomes.GatesStopDispatch | apps/messages/services/dispatch.py:23-54 | a pause that covers the type, or the domain gate, fails the message without a provider call |
| MailOutcomes.ProviderDecides | apps/messages/services/dispatch.py:69-102 | otherwise one call is made and the message ends as the provider answers |
| MailOutcomes.BackoffDoubles | apps/messages/tasks.py:70-86 | delays double from one second and stay at 256 from the eighth retry on |
| MailOutcomes.NothingIsSentWhilePaused | apps/tenants/services/sending_risk.py:233-253 | no message of a tenant that stays paused for its type is handed to a provider in any run |
| MailOutcomes.HeldUntilOperatorActs | apps/tenants/services/sending_risk.py:182-210 | a manual pause, and any pause of marketing and lifecycle mail, stays in force until an operator touches the tenant |
| MailOutcomes.ActionsOutcome | apps/messages/services/message_actions.py:7-25 | exactly what retrying and cancelling change, for every status |
| MailOutcomes.SweepOutcome | apps/messages/tasks.py:101-110 | exactly which messages the sweep requeues: deferred, due, and with fewer than a hundred such newer ones |
| MailOutcomes.TargetIs | apps/providers/webhook_service.py:214-226 | a webhook is for the newest message with its identifier, unless that one has the event on record |
| MailOutcomes.WebhookOutcome | apps/providers/webhook_service.py:228-325 | the status and event each kind of webhook gives its message; nothing else of it, and no other message, changes |
| MailOutcomes.WebhookRecords | apps/providers/webhook_service.py:244-297 | bounces and complaints are put on record with tenant, address and reason; nothing else is |
| MailOutcomes.WebhookSuppresses | apps/providers/webhook_service.py:256-311 | hard bounces close both channels and complaints the marketing channel, with the delivery on file; nothing else touches the list |
| MailOutcomes.WebhookReviews | apps/providers/webhook_service.py:274-311 | hard bounces and complaints, and nothing else, have the tenant's pause reviewed |
| MailOutcomes.HookAddressIs | apps/providers/webhook_service.py:246-246 | which address a bounce or complaint is about |
| MailWebhooks.IngestMarks | apps/providers/webhook_service.py:213-325 | a webhook is without effect exactly when it names no known message, repeats an identified event or is of no known kind; otherwise it changes one message and records one event |
| MailWebhooks.AppliedOnce | apps/providers/webhook_service.py:225-226 | an applied identified event has no effect when it comes again |
| MailWebhooks.NoEffectStays | apps/providers/webhook_service.py:225-226 | no other webhook revives it |
| MailWebhooks.RepeatsDoNotMatter | apps/providers/webhook_service.py:213-325 | dropping every later repeat of identified events leaves the whole final database the same |
| MailWebhooks.PostalIsIdentified | apps/providers/normalizers.py:306-328 | every normalised Postal event that names a message is identified |
| MailWebhooks.PostalIsExactlyOnce | apps/providers/webhook_service.py:213-325 | for any Postal deliveries the final database is that of some of them, none repeating another and each represented |
| MailWebhooks.AppliedOnceIffIdentified | apps/providers/webhook_service.py:216-226 | an effective webhook of any kind is without effect when repeated if and only if it has an event identifier |
| MailWebhooks.EachEventIsRecordedOnce | apps/providers/webhook_service.py:54-79 | in every run no event identifier is on record twice for a message |
| MailWebhooks.RepeatIsIgnoredForever | apps/providers/webhook_service.py:218-226 | also among arbitrary other operations a repeat is ignored, if the provider does not reissue the message identifier |
| MailLifecycle.EveryHandoffIsMetered | apps/messages/tasks.py:41-69 | calls at most slots, SENT events equal accepted calls, accepted at most once plus once per reopening webhook |
| MailLifecycle.SuppressedIsFinal | apps/messages/services/send_pipeline.py:118-152 | a message created SUPPRESSED never changes and is never handed over |
| MailRevival.CancelIsFinalIffUnnameable | apps/messages/services/message_actions.py:17-25 | after cancelling, every run leaves the message alone if and only if webhooks cannot name its provider identifier |
| MailRevival.NeverResentIffUnnameable | apps/providers/webhook_service.py:218-223 | a message at rest, such as a sent one, is never accepted again in any run if and only if webhooks cannot name it |
| MailRevival.SecondSendIffReopened | apps/providers/webhook_service.py:228-325 | of the webhooks on a sent message exactly soft bounces and failure reports let a run without further webhooks have it accepted again |
| MailRevival.SendableIffNotSuppressed | apps/messages/services/send_pipeline.py:119-190 | a created message can be handed to a provider in some run if and only if it was not suppressed, rendered or not |
| MailRevival.UnrenderedIsSentOnlyByRetry | apps/messages/services/send_pipeline.py:154-168 | a message whose body failed to render is never handed over without a retry, and unless suppressed can be with one |
| MailLifecycle.FrozenForever | apps/messages/tasks.py:32-33 | no operation touches a message at rest that webhooks cannot name |
| MailLifecycle.RunKeeps | apps/messages/services/dispatch.py:69-102 | the accounting of calls, slots and events is kept by every operation |
| MailSuppression.ListIsAlwaysWellKept | apps/providers/webhook_service.py:112-137 | one row per tenant, address and reason; hard bounces block both channels, complaints the marketing channel; every removed row has one audit row |
| MailSuppression.RemovalIsAudited | apps/subscriptions/services/suppression_ops.py:91-117 | a removal takes exactly its row out, leaves all others in place, and adds its first and only audit row with the row's address, tenant, reason and metadata |
| MailSuppression.EntryDecides | apps/subscriptions/services/suppression.py:8-35 | a message is suppressed if and only if it is unsubscribed, a row of another key stops it, or the new entry does |
| MailSuppression.RemoveUndoesAdd | apps/subscriptions/services/suppression_ops.py:35-117 | removing what was just added restores the list and every lookup |
| MailSuppression.HardBounceHolds | apps/providers/webhook_service.py:256-273 | after a hard bounce every later message to the address, of any type and in any letter case, is created SUPPRESSED until its row is removed |
| MailSuppression.UnsubscribeHolds | apps/subscriptions/services/suppression.py:32-35 | after an unsubscribe every later marketing or lifecycle message of the tenant to the address, in any letter case, is created SUPPRESSED |
| MailSuppression.UnsubscribeStopsExactly | apps/messages/services/send_pipeline.py:45-60 | and it newly suppresses nothing else: no other tenant, address or type |
| Strings.LowerIgnoresExactlyCase | apps/subscriptions/services/suppression.py:9-35 | two addresses are the same to a lookup exactly when they differ in the case of letters only |
| MailSuppression.HoldForever | apps/subscriptions/services/suppression_ops.py:49-72 | no operation but its removal weakens a hard-bounce row |
| MailSuppression.HoldSuppresses | apps/subscriptions/services/suppression.py:16-29 | the lookups see such a row for every message type |
| Normalizer.PostalEventsAreIdentified | apps/providers/normalizers.py:140-162 | a Postal event that names a message has an event identifier |
| Normalizer.GenericEventsAreIdentifiedIff | apps/providers/normalizers.py:331-365 | which events of other providers have one |
| Normalizer.GenericEventsMayBeAnonymous | apps/providers/normalizers.py:331-365 | one that names a message and has none |
| Normalizer.MessageIdCandidates | apps/providers/normalizers.py:81-116 | the candidates in order of preference without repetition, the first of which is the pick |
| Normalizer.CanonicalOfShown | apps/providers/normalizers.py:29-38 | identifiers are the printed value stripped, booleans in lower case, null blank |
| Normalizer.IdentifierByPreference | apps/providers/normalizers.py:92-116 | which names are looked at first, at the top and inside the message |
| Normalizer.EventIdentifierByPreference | apps/providers/normalizers.py:140-162 | which identifier an event goes by, down to what it says of which message when |
| Normalizer.WrapperIsRemoved | apps/providers/normalizers.py:50-59 | a wrapped payload is read as its inner dictionary, completed with the outer keys |
| Normalizer.UnwrappedStays | apps/providers/normalizers.py:50-59 | any other payload is read as it is |
| Normalizer.MessageDictionaryByPreference | apps/providers/normalizers.py:62-78 | which dictionary a message is read from |
| Normalizer.GenericIdentifierByPreference | apps/providers/normalizers.py:331-355 | which identifiers other providers' events go by |
| Normalizer.CollectedIsDistinct | apps/providers/normalizers.py:83-90 | no candidate twice |
| Normalizer.CollectedIsComplete | apps/providers/normalizers.py:86-107 | no non-blank candidate missing |
| WorkflowEngine.NextIsNearest | apps/workflows/services/workflow_engine.py:36-37 | if any step lies beyond, the next one is the one of lowest order |
| WorkflowEngine.AdvanceMovesOn | apps/workflows/services/workflow_engine.py:96-167 | every recursive call is on a step of strictly higher order |
| WorkflowEngine.WorkflowExecution.ProcessOne | apps/workflows/services/workflow_engine.py:86-167 | terminates with the specified execution row, step runs, clock readings and exceptions |
| WorkflowEngine.FinishedIsFinal | apps/workflows/services/workflow_engine.py:58-83 | no schedule changes a completed or failed execution |
| WorkflowEngine.EnrollWorkflow | apps/workflows/services/workflow_engine.py:40-55 | starts at the first step, keeps an existing execution, refuses an empty workflow |
| WorkflowEngine.ProcessDueExecutions | apps/workflows/services/workflow_engine.py:58-74 | attempts exactly the first due executions up to the limit, leaves all others alone, and counts those without an exception |
| WorkflowEngine.RunsFollowTrace | apps/workflows/services/workflow_engine.py:58-167 | under every schedule the recorded runs are a prefix of the list's sends and waits up to the first END, and all of them on completion |
| WorkflowEngine.NoStepRunsTwice | apps/workflows/services/workflow_engine.py:86-167 | recorded runs have strictly ascending orders |
| WorkflowEngine.ScheduleDoesNotMatter | apps/workflows/services/workflow_engine.py:58-74 | any two schedules that complete have done the same |
| WorkflowEngine.WaitsAfterSendsAreHeld | apps/workflows/services/workflow_engine.py:141-148 | a wait directly after a send is crossed no earlier than the send plus its duration |
| WorkflowEngine.SuspendedForItsWait | apps/workflows/services/workflow_engine.py:141-148 | the interpreter suspends for exactly the seconds of the wait it stands at, counted from the send just made |
| WorkflowEngine.DueExactlyWhenWaitIsOver | apps/workflows/services/workflow_engine.py:58-63 | under every schedule a waiting execution is due if and only if its wait's seconds have passed since the last send |
| WorkflowEngine.RunsAreTrue | apps/workflows/services/workflow_engine.py:96-136 | every recorded run reports the result and time of what happened; exceptions come from failed sends only |
| WorkflowEngine.SweepOutcome | apps/workflows/services/workflow_engine.py:64-74 | an execution is marked FAILED exactly when the interpreter raised |
| WorkflowEngine.OnlyWaitsAfterSendsSuspend | apps/workflows/services/workflow_engine.py:96-153 | with sends that succeed, the interpreter suspends exactly at the first wait directly after a send, and otherwise completes |
| WorkflowEngine.OpeningWaitIsCrossed | apps/workflows/services/workflow_engine.py:96-107 | an opening wait of any length is crossed in the sweep that starts the workflow |
| WorkflowEngine.CompletesIffEnoughDueSweeps | apps/workflows/services/workflow_engine.py:58-74 | with sends that succeed, a schedule completes if and only if more sweeps find the execution due than there are waits directly after a send |
| WorkflowEngine.SomeScheduleCompletes | apps/workflows/services/workflow_engine.py:58-74 | sweeping when it is due, with each sweep reading the clock after its query, completes every workflow in one sweep more than there are waits directly after a send |
| JsonExtract.ExtractJsonObject | apps/llm/json_utils.py:4-36 | the shortest stretch from the first brace that balances outside strings, an error exactly when there is none |
| JsonExtract.ExtractionIsUnique | apps/llm/json_utils.py:4-36 | that promise has one answer |
| JsonExtract.ExtractionRecoversObject | apps/llm/json_utils.py:4-36 | a printed JSON object comes back whole from any surroundings without an earlier brace |
| JsonExtract.PrintIsNeutral | apps/llm/json_utils.py:9-34 | every printed JSON value is balanced outside strings, whatever its strings hold |
| JsonExtract.ScanSnoc | apps/llm/json_utils.py:13-34 | one character's effect on depth, string and escape state |
| JsonExtract.EscapedIsInvisible | apps/llm/json_utils.py:16-22 | a backslash hides the next character from the scanner, inside strings and outside |
| JsonExtract.PlainDepth | apps/llm/json_utils.py:28-34 | without quotes and backslashes the depth is opening minus closing braces |
| JsonExtract.ExtractedIffAtFirstBrace | apps/llm/json_utils.py:4-36 | out of any surroundings a printed object is returned if and only if its text stands at the first brace |
| JsonExtract.EarlierBracesWin | apps/llm/json_utils.py:5-5 | after a placeholder in braces no object is returned but the placeholder, which differs from it |
| JsonExtract.RepeatedObjectIsFound | apps/llm/json_utils.py:5-5 | an object after a copy of itself is returned although a brace precedes it |
| SlugSearch.UniqueTenantSlug | apps/ui/services/portal_default_tenant.py:10-22 | terminates within one try more than there are tenants, with the first free candidate, which fits the column |
| SlugSearch.BaseIs | apps/ui/services/portal_default_tenant.py:12-14 | the search starts from the account's slug, stripped, in lower case and cut to 64, or from "app" |
| SlugSearch.CandidateReads | apps/ui/services/portal_default_tenant.py:17-21 | a numbered candidate is as much of the base as leaves room, a dash and the number |
| SlugSearch.CandidatesDiffer | apps/ui/services/portal_default_tenant.py:17-21 | candidates with different counters differ, even ignoring case and after truncation |
| SlugSearch.TakenRunOut | apps/ui/services/portal_default_tenant.py:17-17 | n taken numbered candidates need n rows |
| StepOrder.StepTable.UpdateOrder | apps/workflows/models.py:76-80 | a write is refused exactly when another row holds the order |
| StepOrder.StepTable.Renumber | apps/workflows/services/workflow_steps.py:22-24 | numbers 1..n along the listing, and fails exactly when some row must take a number a later row still holds |
| StepOrder.StepTable.ApplyStepOrder | apps/workflows/services/workflow_steps.py:10-24 | on success the moved listing numbered 1..n; exactly when it succeeds; otherwise nothing changes |
| StepOrder.StepTable.DeleteStepAndRenumber | apps/workflows/services/workflow_steps.py:27-33 | the rest numbered 1..n in the same order; fails exactly when orders 0 and 1 both remain |
| StepOrder.MovedKeepsOthers | apps/workflows/services/workflow_steps.py:18-21 | a move changes the relative order of no other two steps |
| StepOrder.MovedRowsShift | apps/workflows/services/workflow_steps.py:18-21 | where every row ends up: the moved one at its position, those in between one place towards the gap, the rest where they were |
| StepOrder.ClampIsNearest | apps/workflows/services/workflow_steps.py:17-17 | the position asked for, or the nearest end of the list |
| StepOrder.MovedShows | apps/workflows/services/workflow_steps.py:18-21 | a move keeps every row exactly once |
| StepOrder.CompactMoveCollides | apps/workflows/services/workflow_steps.py:22-24 | on a list numbered 1..n only the move to its own position goes through |
| DomainDns.BuildDnsInstructions | apps/tenants/services/domain_dns_instructions.py:174-312 | the rows of the resolved plan, in order |
| DomainDns.EvaluateDnsInstructionRows | apps/tenants/services/domain_verification.py:181-309 | every instruction row once, in order, with its status |
| DomainDns.TenantDomain.CheckTenantDomainDns | apps/tenants/services/domain_verification.py:312-426 | status, flag and all three record fields are exact for every plan and answer; a blank domain keeps the old flag and fields |
| DomainDns.FieldsFollowRows | apps/tenants/services/domain_verification.py:335-377 | the record fields of the check say of SPF, DKIM and DMARC what the page's rows say |
| DomainDns.StatusFollowsRows | apps/tenants/services/domain_verification.py:379-414 | the whole verification status by which rows of the page pass |
| DomainDns.RowsByKind | apps/tenants/services/domain_dns_instructions.py:209-297 | at most one SPF, DKIM and DMARC row, and when there is one |
| DomainDns.OtherRowsShown | apps/tenants/services/domain_dns_instructions.py:184-279 | the domain-control, return-path and MX rows, and when there are any |
| DomainDns.ExpectationsByLayer | apps/tenants/services/domain_dns_instructions.py:105-171 | every expected value comes from the domain's row first, then the settings; which have defaults and which are derived |
| DomainDns.NormalizeFindsHost | apps/tenants/services/domain_dns_instructions.py:35-42 | a plain host is found in any case, with a trailing dot, or in a URL |
| DomainDns.RootIsLastTwo | apps/tenants/services/domain_dns_instructions.py:45-51 | the mailto apex is the last two labels |
| DomainDns.PublishingVerifies | apps/tenants/services/domain_verification.py:379-396 | publishing exactly what the page asks for verifies the domain |
| DomainDns.VerifiedMeans | apps/tenants/services/domain_verification.py:108-136 | a verified domain has the expected key, a DMARC record of the expected policy, and an SPF record with the expected text or includes |
| DomainDns.FailingRowsSayWhy | apps/tenants/services/domain_verification.py:226-261 | a failing authentication row is missing if nothing of its kind is published, else mismatched |
| DomainDns.OtherRowsPass | apps/tenants/services/domain_verification.py:212-276 | when the return-path and domain-control rows pass |
| DomainDns.MxRowPasses | apps/tenants/services/domain_verification.py:143-147 | an MX row's value gives its host back, and it passes exactly when that host is live |
| DomainDns.OwnsSubdomains | apps/tenants/services/domain_verification.py:448-459 | a domain row covers its host and every subdomain |
| DomainDns.GateIsOpen | apps/tenants/services/domain_verification.py:469-490 | when the gate does not look at verification at all |
| DomainDns.PlansAgree | apps/tenants/services/domain_verification.py:379-397 | for every resolved plan, the verdict is VERIFIED if and only if the three kinds of row show as passing |
| DomainDns.ChecksAgree | apps/tenants/services/domain_verification.py:198-261 | a check ends VERIFIED if and only if the page shows SPF, DKIM and DMARC, all passing |
| DomainDns.NoLibraryNoVerification | apps/tenants/services/domain_verification.py:418-423 | without the DNS library nothing is verified and nothing shows as passing |
| DomainDns.GateFollowsPage | apps/tenants/services/domain_verification.py:448-496 | after a check, mail passes the gate if and only if the page shows all three passing |
| SendingRisk.EvaluateAutomatedPauseTriggers | apps/tenants/services/sending_risk.py:124-179 | the scope is the join of all triggers that fire; every one is listed except an elevated complaint or failure rate under a high complaint rate |
| SendingRisk.EvaluationReviews | apps/tenants/services/sending_risk.py:191-210 | a review keeps a manual pause, lifts none, and pauses at least as strictly as every firing trigger demands |
| SendingRisk.JoinIsLeastBound | apps/tenants/services/sending_risk.py:124-128 | the join is at least as strict as every trigger and is reached by one |
| SendingRisk.DesiredScopeInNumbers | apps/tenants/services/sending_risk.py:138-175 | the scope by the thresholds' comparisons |
| SendingRisk.DefaultScope | apps/tenants/services/sending_risk.py:17-32 | and with the module's default thresholds |
| SendingRisk.JoinIsMonotone | apps/tenants/services/sending_risk.py:124-179 | worse metrics never weaken the pause |
| SendingRisk.AutomationRespectsPauses | apps/tenants/services/sending_risk.py:182-230 | no number of evaluations alters a manual pause or lifts any; any other pause ends up as the last evaluation that found a trigger wants it |
| SendingRisk.EvaluationUnblocksIff | apps/tenants/services/sending_risk.py:200-210 | an evaluation lets a blocked message type through if and only if it finds a lesser trigger alone under a pause of all but system mail that no operator set |
| SendingRisk.StricterBlocksMore | apps/tenants/services/sending_risk.py:233-247 | a stricter scope blocks everything a weaker one does, and system mail is never blocked |

## Left out

- SlugSearch.UniqueTenantSlug: the 64-character bound is stated for tables of fewer than 10^62 rows; beyond that
  the number alone would overflow the column.
- WorkflowEngine.ProcessDueExecutions: the table is a list in the order the query returns it; the enrollment's
  status, `completed_at` and `last_error` are not modelled.
- MailStore.Store.DispatchMessageTask: one atomic step. The code does not lock the message row, so races of two
  tasks on one message, and the SENDING status others could see during the provider call, are not covered.
- A dispatch task resolves the tenant's domain row once in the model, where the code resolves it again in each check;
  domain rows and sender addresses are assumed not to change during one task.
- A tenant's local calendar is fixed for a run; edits of its time zone are not modelled.
- Workflow sweeps of one execution are assumed not to overlap, for the same reason, and the step list stays fixed.
- `sweep_dispatch_queue`: which messages are tried, and in what order, is arbitrary here, so every order is covered.
- `calculate_next_send_time` is modelled as the code computes it; it is a best effort and no bound is claimed.
- The surroundings of the send API: plan quotas, account and tenant suspension (one flag of a request), template
  approval and rendering (two more), idempotency keys, sender profiles, rendered bodies.
- The message's `last_error`, `provider_name`, `priority` and `scheduled_for` fields, and event payloads other than
  the provider's event identifier; a provider's answer is assumed not to carry a key of that name.
- Classification of webhook payloads into kinds and bounce types, signatures, JSON decoding and the
  `ProviderWebhookEvent` row itself; a webhook arrives normalised.
- How the risk metrics are counted and rounded: an arbitrary function of the message table and the time, with exact
  rates; the risk score, the metrics cache and the reason text.
- Case folding and whitespace are those of ASCII.
- The syntax of the regular expressions for SPF, DKIM and DMARC, and the DNS lookups; both are parameters.
- Titles, purposes, host labels and notes of DNS rows, and the time of the last check.
- Local calendars are any strictly increasing sequence of day starts; how the time-zone database yields them is not modelled.
- Failures of the database other than the unique constraint on step order.
- Views, forms, HTTP clients, the Postal bridge, LLM prompts, invites, API keys, migrations and settings.
