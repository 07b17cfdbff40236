# Demo conversion: payment, onboarding, inbox and outbox

A Dafny model of the service that takes a tutoring demo from a payment request to a converted
learner, of the durable inbox and outbox underneath, and of the website gateway's mutations.

## The saga

`Store` holds the tables and rows, `Handlers` says what each writer does to them, and `Database`
is the object whose methods change the tables step by step and leave exactly that. A handler
finishes, raises, or adds a row that breaks a unique key. The inbox rolls a raise back; the
publisher commits what the recorder had changed. A run (`Handlers.Exec`) interleaves, in any
order: requests for a payment order, deliveries of outbox rows with any reply or none, inbox
events of every kind (any event, any time, any number of times), reconciliation, and registered
lifecycle edges taken elsewhere that are not the saga's own.

`Frames` says which tables each handler may touch, once per handler. `SagaInvariant`,
`SagaPreservation` and `SagaHistory` prove what every run keeps and never takes
back, `SchemaKeys` that the schema's unique keys hold throughout. On these stand the results: order and number of the saga's commands (`SagaTable`,
`SagaTheorems`), money from quote to activation (`SagaMoney`), replays (`SagaReplay`), order
independence of webhooks (`SagaOrderFree`, `SagaBetween`), completed handoffs (`SagaFallback`), backoff
(`OutboxHistory`), routing (`Router`), and two concrete runs from the empty database (`Scenario`).
`InboxQueue`, `OutboxPublisher` and `Reconciliation` are the loops that drive the database.
`PaymentRequests`, `RecorderOutcomes`, `OnboardingOutcomes`, `WebhookOutcomes`, `TalkOutcomes`,
`SnapshotOutcomes`, `DeliveryOutcomes` and `GatewayOutcomes` say of each writer when it succeeds
and what it stores, on the tables and the inputs alone, without the functions that specify it.
`Gateway` and `GatewayService` are the website's side. `Discount`, `Amounts` and `Slots` stand alone.

Digests, UUIDs of version 5 and key strings are symbolic terms, equal only when built alike;
request ids and event ids come from outside and may coincide with any of them. Encryption is
symbolic: a row opens under the associated data it was sealed with and no other. Webhook events
have passed their signature check. Times are integers; clocks, random ids and provider replies are parameters.
So is what handling a message finds (`Handlers.Turn`): what its text adds to the stored requirement,
whether that is complete, whether a stored candidate was picked, and the provider's answer to the
search. It is read anew at every try, so a replayed message comes with another turn.

## What the proofs found

- The verified-payment row is stored under the paid-outbox key while its payload carries the
  activation key, and the router wants them equal. Every such row is refused; with the routing
  transport no demo gets past PAID (`Router.RoutedRunStopsAtPaid`).
- Conversational state changes never consult the table. `SagaTable.TalkOnTable` gives the exact
  guard under which they keep to it, and `Scenario.PaidDemoLeavesTable` a run to a paid demo that
  leaves it. Replays stay inert, and counts stay ordered, even then.
- A completed handoff does not stay completed: a late acknowledgement turns it back to accepted
  (`Scenario.CompletedHandoffIsReopened` reaches one, with a transport that answers the
  verified-payment row). It stays completed exactly when its own row is never answered while due
  (`SagaFallback.CompletedThroughRunIff`); no event, retry or other row can undo it.
- The gateway compares an existing activation as an ordered, typed array whose order differs
  from that of the validated payload, so its already-applied answer is never given
  (`Gateway.ComparesOrderAndTypes`, `Gateway.ValidatedPayloadConflicts`); `Gateway.SamePayloadIsRefused`
  is such a run from the empty database. That the validated
  payload lists its fields in rule order is the framework's behaviour, which is not part of this
  model; the integer plan id alone already conflicts (`Gateway.IntegerPlanIdConflicts`).
- The webhook handler hands the verifier the two provider order ids the other way round. Nothing
  depends on it: they are only compared, and a decision to pay needs them equal.
- docs/architecture/payment-saga.md draws the website activation before the move to PAID and has
  a mismatch move the demo to PAYMENT_REVIEW; the code moves to PAID first and sends only the
  order to review. docs/adr/ADR-008-state-machine-and-sagas.md has every transition registered.
  The model follows the code.
- A reconciliation batch can reserve an order again that it just sent to review, and only such
  an order (`Reconciliation.ReservableAgainIffReviewed`).
- A projection's event key is made of the idempotency key alone, so once one demo has used a key
  no other demo can, although the scopes differ (`Gateway.KeyIsUsedUpByOneDemo`).
- A deployment whose status policy is not accepted pays for nothing: every webhook for a bound
  order raises (`Handlers.Decide`).

Dafny 4.11 checks the project with `dafny verify dfyconfig.toml`.

## Model

| member | source | states |
|---|---|---|
| Lifecycle.TerminalIffAbsorbing | src/demo_command_center/state/transitions/table.py:345-420 | a state has no registered way out if and only if it is terminal |
| Lifecycle.RunLeavesOnlyLiveStates | src/demo_command_center/state/transitions/table.py:361-420 | in every run of the table, of any length, only live states are left |
| Lifecycle.RunMeasure | src/demo_command_center/state/transitions/table.py:77-446 | a run is no longer than the rank of its end plus 9 per reopened negotiation and 2 per retried payment |
| Lifecycle.RunLengthBound | src/demo_command_center/state/transitions/table.py:77-446 | a run with r reopenings and p payment retries has at most 20(1+r+p) steps |
| Lifecycle.SagaInOrder | src/demo_command_center/state/transitions/table.py:77-446 | in every run the saga's commands are a prefix of request, verify, hand off, complete, as long as the end state says unless the demo was abandoned |
| Lifecycle.SagaCommandAtMostOnce | src/demo_command_center/state/transitions/table.py:77-446 | each saga command occurs once if the prefix contains it and otherwise never |
| Lifecycle.VerifiedAfterRequest | src/demo_command_center/state/transitions/table.py:77-446 | every VERIFY_PAYMENT of a run has a REQUEST_PAYMENT before it |
| Lifecycle.ConvertedWasVerifiedOnce | src/demo_command_center/state/transitions/table.py:77-446 | a run that reaches CONVERTED holds all four saga commands, exactly one VERIFY_PAYMENT, and that after a REQUEST_PAYMENT |
| Lifecycle.OnlyTheServicePays | src/demo_command_center/state/transitions/table.py:437-446 | no learner, guardian or tutor is allowed a command that leads to PAID, ONBOARDING_HANDOFF or CONVERTED |
| Lifecycle.NoShortcut | src/demo_command_center/state/transitions/table.py:77-446 | no run of the table reaches a state in fewer steps than its depth |
| Lifecycle.LiveStatesConvert | src/demo_command_center/state/transitions/table.py:77-446 | every state that has not ended can still be converted, by registered commands and in a stated number of steps |
| Lifecycle.ConvertsInEighteen | src/demo_command_center/state/transitions/table.py:77-446 | a demo is converted in 18 steps and no run converts one in fewer |
| Lifecycle.LearnerAndTutorMay | src/demo_command_center/state/transitions/table.py:437-446 | the exact commands that learner and tutor may take from each state |
| Lifecycle.ServiceMay | src/demo_command_center/state/transitions/table.py:437-446 | the provider may report payments and nothing else, an admin all but that, the system all but what is a side's own |
| PaymentVerification.PolicyAcceptedIffDisjoint | src/demo_command_center/modules/paid_transition/domain/verification.py:70-83 | counting the flattened statuses accepts a policy exactly when the four groups are pairwise disjoint (and version and success group are not empty) |
| PaymentVerification.PaidExactlyOnBoundSuccess | src/demo_command_center/modules/paid_transition/domain/verification.py:99-220 | the decision is to move to paid if and only if the evidence is new, authoritative, agrees in every bound field, reports a success, and the order is not paid yet |
| PaymentVerification.DecisionsByFields | src/demo_command_center/modules/paid_transition/domain/verification.py:99-220 | which fields give each of the eight decisions, under an accepted policy; only a webhook is reconciled, and only the provider's own answer leaves a payment pending |
| PaymentVerification.ClassIsOrderFreeIffOneGroup | src/demo_command_center/modules/paid_transition/domain/verification.py:70-83 | a status has the same class under every order of the group tests if and only if at most one group has it, which is what the policy's check demands |
| PaymentVerification.GroupOrderIrrelevant | src/demo_command_center/modules/paid_transition/domain/verification.py:70-220 | under an accepted policy every order of the four group tests, with expiry turning review and unknown statuses into expired, decides as the code does |
| PaymentVerification.OperationKeysDiffer | src/demo_command_center/modules/paid_transition/domain/verification.py:94-96 | the activation key and the paid-outbox key never coincide, and each is the same for two bindings only if order, provider order and demo are |
| Database.Database.RequestPayment | src/demo_command_center/infrastructure/payments/order_jobs.py:73-222 | asking for a payment order answers and leaves the tables as its specification says, with every refusal; the invariant is kept |
| Database.Database.RecordVerifiedQuote | src/demo_command_center/infrastructure/payments/outbox_recorder.py:99-263 | recording a quote: the order, its Cashfree row, the logged move and the marked request, or what a raise or a key clash leaves |
| Database.Database.RecordProviderOrder | src/demo_command_center/infrastructure/payments/outbox_recorder.py:265-356 | recording Cashfree's acknowledgement, with the review status that a raise leaves behind |
| Database.Database.QueueHandoff | src/demo_command_center/infrastructure/outbox/lifecycle.py:67-172 | queueing the onboarding handoff once per paid transition, only from PAID |
| Database.Database.RecordHandoffAcceptance | src/demo_command_center/infrastructure/outbox/lifecycle.py:174-228 | recording the agent's acknowledgement, with the handoff fields that a raise leaves behind |
| Database.Database.LoadOnboardingContext | src/demo_command_center/infrastructure/inbox/processor.py:1304-1344 | finds the order of an onboarding event exactly when it is the user's only one on the demo and has a paid transition and a handoff |
| Database.Database.HandleAccepted | src/demo_command_center/infrastructure/inbox/processor.py:1172-1209 | an acceptance event, in every branch |
| Database.Database.HandleCompleted | src/demo_command_center/infrastructure/inbox/processor.py:1211-1301 | a completion event, in every branch |
| Database.Database.HandleCashfree | src/demo_command_center/infrastructure/inbox/processor.py:1346-1453 | a webhook, from the duplicate check to the decision's effect |
| Database.Database.ApplyPaidTransition | src/demo_command_center/infrastructure/inbox/processor.py:1475-1564 | applying a verified payment, or sending the order to review |
| Database.Database.ChangeState | src/demo_command_center/infrastructure/inbox/processor.py:1070-1105 | a conversational state change, which never consults the table |
| Database.Database.AdvanceDemo | src/demo_command_center/infrastructure/inbox/processor.py:879-1015 | what follows the collected requirements: a reply, an escalation or a shortlist |
| Database.Database.HandleMessage | src/demo_command_center/infrastructure/inbox/processor.py:665-877 | a message: starting or continuing a demo, picking a tutor |
| Database.Database.ProcessInboxEvent | src/demo_command_center/infrastructure/inbox/processor.py:1649-1662 | the handler's effect is committed if and only if it finishes; every other one is rolled back |
| Database.Database.PublishRow | src/demo_command_center/infrastructure/outbox/publisher.py:95-127 | a delivered row is marked published; a failed one is put off together with whatever its recorder had changed; a row that does not wait for delivery, or whose target is blocked, is left alone |
| Database.Database.RecordSnapshot | src/demo_command_center/cli/reconcile_payments.py:100-160 | a fetched order status leaves the order in the state that goes with it and the result, and stores each snapshot once |
| Database.Database.Take | src/demo_command_center/infrastructure/inbox/processor.py:647-663 | every step of the object is the specification's step and keeps the invariant, so its runs have all the properties below |
| PaymentRequests.QueuedIff | src/demo_command_center/infrastructure/payments/order_jobs.py:79-200 | a request is queued if and only if hashing is configured, its id is new, the demo is the tenant's, bound to the command's user and in CONVERSION_FOLLOW_UP, no order of it is open, no request of it waits, and its outbox row is free; it then stores the request and the quote row, and otherwise nothing changes |
| PaymentRequests.RefusedWhy | src/demo_command_center/infrastructure/payments/order_jobs.py:112-164 | a new request id gets each refusal exactly when that refusal's condition is the first to fail |
| PaymentRequests.KnownIsAnswered | src/demo_command_center/infrastructure/payments/order_jobs.py:79-111 | without hashing the answer is not configured; a known request id is replayed exactly for the same input and refused for another |
| RecorderOutcomes.QuoteRecordedIff | src/demo_command_center/infrastructure/payments/outbox_recorder.py:99-236 | a quote for a request without an order is recorded if and only if row, request and quote are in order, the quote eligible and open, and the demo waits for it with every key free; the order, its Cashfree row, the log entry and the marked request are given field by field |
| RecorderOutcomes.RepeatedQuote | src/demo_command_center/infrastructure/payments/outbox_recorder.py:130-141 | for a request that has its order a quote changes nothing, and finishes exactly when order, request and quote agree |
| RecorderOutcomes.AcknowledgedIff | src/demo_command_center/infrastructure/payments/outbox_recorder.py:265-356 | an acknowledgement binds exactly its own order, stored as asked, when it is active and no provider order stands against it; a well-bound one that is not active leaves the order in review; any other changes nothing |
| OnboardingOutcomes.HandoffQueuedIff | src/demo_command_center/infrastructure/outbox/lifecycle.py:67-172 | an activation queues the handoff of its order once, exactly from PAID with a paid transition and free keys; the handoff and the agent's event are given field by field |
| OnboardingOutcomes.UnboundActivationRaises | src/demo_command_center/infrastructure/outbox/lifecycle.py:75-91 | an activation without provider order, evidence or a stored order raises and changes nothing |
| OnboardingOutcomes.AcknowledgedHandoff | src/demo_command_center/infrastructure/outbox/lifecycle.py:174-228 | an acknowledgement accepts its handoff in every state, hands the demo off exactly from PAID, and raises outside PAID and ONBOARDING_HANDOFF |
| OnboardingOutcomes.NoContextRaises | src/demo_command_center/infrastructure/inbox/processor.py:1304-1344 | without configuration, or without a single paid and handed over order of the user, an onboarding event raises and changes nothing |
| OnboardingOutcomes.AcceptedOutcome | src/demo_command_center/infrastructure/inbox/processor.py:1172-1209 | an acceptance finishes exactly in ONBOARDING_HANDOFF, and in PAID with a settled order and a free log key; what it leaves is given field by field |
| OnboardingOutcomes.CompletedOutcome | src/demo_command_center/infrastructure/inbox/processor.py:1211-1301 | a completion converts exactly an accepted handoff in ONBOARDING_HANDOFF with free keys and queues one welcome to the demo's conversation; a completed one of a converted demo changes nothing; every other raises |
| WebhookOutcomes.ProcessedIff | src/demo_command_center/infrastructure/inbox/processor.py:1346-1564 | a webhook that names an order is processed if and only if the policy gives each status one meaning, the webhook is readable and new, the order is bound, and, if it pays, the keys of the paid transition are free |
| WebhookOutcomes.WebhookOutcome | src/demo_command_center/infrastructure/inbox/processor.py:1391-1564 | what a processed webhook leaves, by its fields: disagreement gives review; a failed status failed; an expired status, or an undecided one past the order's time, expired; a review status review; an unknown one reconciliation required; a success leaves a paid order alone and settles a waiting one, with event, attempt, log entry, paid transition and outbox row |
| WebhookOutcomes.UnnamedIsRefused | src/demo_command_center/infrastructure/inbox/processor.py:1370-1377 | a webhook that names no stored order is refused and changes nothing |
| WebhookOutcomes.ProviderEventStoredIff | src/demo_command_center/infrastructure/inbox/processor.py:1151-1170 | another provider's event is stored exactly when its sender sent neither its id nor its payload before, and nothing else changes |
| WebhookOutcomes.OutsideReference | src/demo_command_center/infrastructure/inbox/processor.py:1577-1590 | a reference from outside is its text without surrounding blanks, and missing when nothing is left |
| WebhookOutcomes.OthersRaise | src/demo_command_center/infrastructure/inbox/processor.py:647-663 | an event of unknown type, or an invalid message, raises and changes nothing |
| TalkOutcomes.KnownConversation | src/demo_command_center/infrastructure/inbox/processor.py:782-1105 | a message of a known conversation is handled exactly when its log keys and its reply's row are free; it walks the demo, leaves the conversation's step and queues one reply as the picked tutor, the requirements and the search say |
| TalkOutcomes.NewConversation | src/demo_command_center/infrastructure/inbox/processor.py:665-780 | a first message starts one qualifying demo, walks it as its requirements and search say, and is handled exactly when its reply's row is free |
| TalkOutcomes.RecipientFields | src/demo_command_center/infrastructure/inbox/processor.py:82-100 | a reply goes to the actor's stripped id exactly when that is 8 to 15 digits, with or without a plus sign, and otherwise to the conversation |
| SnapshotOutcomes.EachAnswerHasItsState | src/demo_command_center/cli/reconcile_payments.py:100-160 | an agreeing answer makes the order expired exactly on EXPIRED, pending with the next time exactly on ACTIVE, sends it to review on PAID and asks again on any other status; a disagreeing one sends it to review; the first answer of its kind is stored with its result, and no other order is touched |
| SnapshotOutcomes.SameKindIff | src/demo_command_center/cli/reconcile_payments.py:34-45 | two answers count as the same exactly when they agree in provider order, amount, and, whatever the case, status and currency |
| SnapshotOutcomes.ReservedIff | src/demo_command_center/cli/reconcile_payments.py:48-84 | an order is reserved exactly when it is the tenant's, bound, in an open status, and its time has come |
| SnapshotOutcomes.FailedFetchAsksAgain | src/demo_command_center/cli/reconcile_payments.py:87-97 | a failed fetch requires reconciliation at the next time and changes nothing else |
| DeliveryOutcomes.OnlyWaitingRowsAreTried | src/demo_command_center/infrastructure/outbox/publisher.py:71-85 | a delivery changes something only if its row is unpublished, available, below the limit and of a target that is not blocked |
| DeliveryOutcomes.UnansweredIsPutOff | src/demo_command_center/infrastructure/outbox/publisher.py:95-126 | a waiting row that does not open or gets no answer counts one failure, is put off by the backoff, and nothing else changes |
| DeliveryOutcomes.WaitAfter | src/demo_command_center/infrastructure/outbox/publisher.py:124-125 | the waits are 2, 4, 8 seconds and so on to 256 after the eighth failure, and 300 from the ninth on |
| DeliveryOutcomes.BlockedRowStays | src/demo_command_center/infrastructure/outbox/publisher.py:76-79 | through every step of every writer a row of a blocked target stays exactly as it is |
| DeliveryOutcomes.BlockedRowStaysThroughRun | src/demo_command_center/infrastructure/outbox/publisher.py:76-79 | and so through every run |
| DeliveryOutcomes.BlockedRowsAreUntried | src/demo_command_center/infrastructure/outbox/publisher.py:76-79 | in every reachable outbox a row of a blocked target has no attempt and is unpublished |
| GatewayOutcomes.ActivatedIff | integrations/nxtutors-laravel-adapter/app/Application/SubscriptionActivationService.php:58-110 | the first activation of a demo and an order is carried out if and only if the plan has an eligible quote with the payload's amount, currency and version, the user is known, the subscription row is there and every unique key is free; it then stores the payload's fields, the subscription and one event |
| GatewayOutcomes.ActivationRefusedWhy | integrations/nxtutors-laravel-adapter/app/Application/SubscriptionActivationService.php:58-76 | each reason to refuse a first activation has its own failure, given exactly for it |
| GatewayOutcomes.ConfirmedIff | integrations/nxtutors-laravel-adapter/app/Application/SubscriptionActivationService.php:31-57 | an activation whose demo or order has one already is confirmed exactly when the payload repeats it field by field, type by type and in order, and is a conflict otherwise |
| GatewayOutcomes.ActivationsWereQuoted | integrations/nxtutors-laravel-adapter/app/Application/SubscriptionActivationService.php:58-110 | after any sequence of calls the stored activations are, in order, those of the calls answered with a new one, each with the amount, currency and version of the eligible quote its call found |
| GatewayOutcomes.UpdatedIff | integrations/nxtutors-laravel-adapter/app/Application/DemoProjectionService.php:33-80 | an update is carried out exactly from the stored version, or zero without one, with its lead and event free; the projection, its event and the answer are given field by field |
| GatewayOutcomes.OnboardedIff | integrations/nxtutors-laravel-adapter/app/Application/DemoProjectionService.php:88-114 | an onboarding status is recorded exactly on a stored projection whose event is free, and nothing else of it changes |
| GatewayOutcomes.SameScopeIff | integrations/nxtutors-laravel-adapter/app/Application/IdempotentMutation.php:16-24 | two mutations share a scope exactly when both are updates, or both onboarding records, of the same demo, or both are activations |
| GatewayOutcomes.SameHashIff | integrations/nxtutors-laravel-adapter/app/Support/RequestHash.php:1-30 | within a scope two payloads have the same hash exactly when they agree in every field, whatever the order of the fields |
| GatewayOutcomes.CarriedOutIff | integrations/nxtutors-laravel-adapter/app/Application/DemoProjectionService.php:26-33 | a call is carried out exactly when an update's state is known, its scope and key are new and it applies; an unknown state changes nothing |
| SagaPreservation.ReachableInv | src/demo_command_center/infrastructure/payments/outbox_recorder.py:99-356 | the table-by-table invariant (log chain, bound orders, rows that agree with their payloads, paid and handed off evidence, counts) holds after every run of all writers |
| SagaPreservation.PaidDecisionFacts | src/demo_command_center/infrastructure/inbox/processor.py:1391-1442 | a webhook that moves an order to paid repeats the order's provider id, amount and currency with a success status, and brings the order's two keys |
| SagaHistory.NextKept | src/demo_command_center/infrastructure/payments/outbox_recorder.py:289-327 | no step removes or changes a log entry, an order's quote and provider id, a queued payload, a provider event, an attempt, a paid transition or a request hash |
| SagaTheorems.LogIsChain | src/demo_command_center/infrastructure/inbox/processor.py:1082-1105 | every demo's log is a chain from NEW to its current state, and its version counts the entries, across all writers |
| SagaTheorems.SagaIsPrefix | src/demo_command_center/infrastructure/inbox/processor.py:1172-1301 | a demo whose log is on the table has a prefix of the saga's commands, as long as its state says |
| SagaTheorems.OneOrderPerDemo | src/demo_command_center/infrastructure/payments/order_jobs.py:100-164 | such a demo never has a second payment order or paid transition, and has one where its state says so |
| SagaTheorems.StateHasEvidence | src/demo_command_center/infrastructure/inbox/processor.py:1187-1273 | PAID, ONBOARDING_HANDOFF or CONVERTED implies a paid order of the demo; the last two also a handoff on it |
| SagaTheorems.OrderStatusHasEvidence | src/demo_command_center/cli/reconcile_payments.py:111-141 | an order with status paid has a paid transition, one with status pending a bound provider order |
| SagaTheorems.OneVerifiedRowPerPaid | src/demo_command_center/infrastructure/inbox/processor.py:1529-1564 | the verified-payment outbox rows are exactly one per paid transition |
| SagaTheorems.OneVerifyPerPaid | src/demo_command_center/infrastructure/inbox/processor.py:1493-1527 | a demo's log verifies a payment exactly as often as its orders have paid transitions |
| SagaTheorems.PlanErrorsNeverFire | src/demo_command_center/infrastructure/inbox/processor.py:1529-1534 | every stored order's plan is a positive number, so the numeric-plan errors cannot occur |
| SagaTheorems.LocalBindingNeverFails | src/demo_command_center/infrastructure/payments/outbox_recorder.py:275-309 | the recorder's local order check accepts every Cashfree row ever queued |
| SagaTheorems.RequestRepeats | src/demo_command_center/infrastructure/payments/order_jobs.py:100-222 | asking again with the same id, any time later, changes nothing: same input is a replay, other input is refused |
| SagaTheorems.RefusedRequestChangesNothing | src/demo_command_center/infrastructure/payments/order_jobs.py:73-215 | a request changes the database if and only if it is newly queued |
| SagaTheorems.OneQueuedRequest | src/demo_command_center/infrastructure/payments/order_jobs.py:152-165 | at most one quote request per demo is queued at any time |
| SchemaKeys.NextKeepsKeys | src/demo_command_center/infrastructure/database/models/operational.py:62-136 | no step of any writer, finishing or raising, breaks a unique key of a table it writes |
| SchemaKeys.ReachableKeys | src/demo_command_center/infrastructure/database/models/conversion.py:90-230 | in every reachable database every unique key holds: of logs, outbox rows, orders, attempts, paid transitions, handoffs, provider events and messages; and every conversation is about a stored demo |
| SagaMoney.NewOrderCarriesQuote | src/demo_command_center/infrastructure/payments/outbox_recorder.py:115-177 | only the delivery of an eligible, unexpired quote creates an order; the order repeats its amount, currency, user, plan and version, is for the delivered request's demo and purpose, and expires no later |
| SagaMoney.OnlyActiveAcknowledgementBinds | src/demo_command_center/infrastructure/payments/outbox_recorder.py:310-340 | an order's provider id is written only by an active acknowledgement delivered for the order's own Cashfree request row, from unbound, with the checkout session stored |
| SagaMoney.HandoffCarriesOrder | src/demo_command_center/infrastructure/outbox/lifecycle.py:125-172 | every handoff's onboarding row names its own paid order's demo, user, plan, payment and correlation |
| SagaMoney.MoneyEndToEnd | src/demo_command_center/infrastructure/inbox/processor.py:1499-1564 | whatever happens in between, the quoted amount is that of the order, the Cashfree request, the evidence, the paid transition and the activation; user, plan and demo stay those of the quote and of the request it answered, the Cashfree request is for that request, and the activated provider order is the bound one |
| SagaMoney.OrderBindingsAreFixed | src/demo_command_center/infrastructure/payments/outbox_recorder.py:318-327 | an order's bound fields never change, its provider id is written once, and its paid transition stays |
| SagaTable.MoveOnTable | src/demo_command_center/state/transitions/table.py:418-446 | a logged move keeps a log on the table if and only if its edge is registered |
| SagaTable.TalkOnTable | src/demo_command_center/infrastructure/inbox/processor.py:782-1105 | a conversational message keeps every log on the table exactly under a guard on the demo's state and the conversation's step |
| SagaTable.PaidDemoIsShortlistedAgain | src/demo_command_center/infrastructure/inbox/processor.py:1082-1105 | from any paid demo whose conversation collects requirements, a complete message with unused keys leads back to TUTOR_SHORTLISTED, off the table |
| Scenario.PaidDemoLeavesTable | src/demo_command_center/infrastructure/inbox/processor.py:665-1105 | every configured deployment has a run from the empty database to such a paid demo, all logs on the table, and one message that takes it off |
| SagaTable.NextOnTable | src/demo_command_center/infrastructure/inbox/processor.py:1189-1527 | every other step, of every writer, keeps all logs on the table |
| SagaTable.SagaOnce | src/demo_command_center/infrastructure/inbox/processor.py:1172-1301 | in runs whose messages meet the guard: saga commands in order and at most once, one order and one paid transition per demo, whichever acknowledgement or event comes first |
| SagaReplay.SagaBudget | src/demo_command_center/infrastructure/outbox/lifecycle.py:204-228 | even off the table, in every log the handoffs use up verifications and the completions use up handoffs |
| SagaReplay.CountsHoldOffTheTable | src/demo_command_center/infrastructure/inbox/processor.py:1172-1527 | in every reachable database, conversations or not: completions, handoffs, verifications, paid orders, orders and requests are ordered by count |
| SagaReplay.TracedIsInert | src/demo_command_center/infrastructure/inbox/processor.py:1455-1473 | an event whose trace is in the database is refused by a key or a guard, or is an acceptance that sets one handoff's status to accepted and its acknowledgement, and nothing else |
| SagaReplay.ReplayIsInert | src/demo_command_center/cli/replay_event.py:63-77 | replaying an event processed at any earlier time, whatever handling it finds this time, leaves the whole database as it was; only an acceptance may set one handoff's status to accepted and its acknowledgement again |
| SagaOrderFree.DecidesPaidExactly | src/demo_command_center/infrastructure/inbox/processor.py:1391-1420 | a webhook moves an unpaid order to paid if and only if the status policy is accepted and it is a success that agrees in order, provider order, amount, currency, customer, purpose and environment |
| SagaOrderFree.PaidIffSomeBoundSuccess | src/demo_command_center/infrastructure/inbox/processor.py:1346-1564 | under duplicates, retries, failures, reconciliation and any other step that leaves the order waiting, a waiting order ends up paid if and only if some delivery was a bound success |
| SagaOrderFree.PaidWhateverLiesBetween | src/demo_command_center/infrastructure/inbox/processor.py:1346-1564 | two runs with the same webhooks about the order, in any order and with different business in between, give the same verdict |
| SagaOrderFree.PaidInEveryOrder | src/demo_command_center/infrastructure/inbox/processor.py:1346-1453 | every permutation of the order's webhooks and of reconciliation gives the same verdict |
| SagaBetween.DeliveryLeavesWaiting | src/demo_command_center/infrastructure/outbox/publisher.py:95-127 | delivering any outbox row, with any answer, leaves an unpaid order waiting unless it moves the order's demo |
| SagaBetween.OtherWebhookLeavesWaiting | src/demo_command_center/infrastructure/inbox/processor.py:1346-1564 | a webhook of another demo's order that shares no event id, payment or new id leaves the order waiting, even when it pays |
| SagaBetween.PaidAmongOthers | src/demo_command_center/infrastructure/inbox/processor.py:1346-1564 | so among such deliveries and webhooks its own webhooks alone decide whether the order ends up paid |
| SagaFallback.AcknowledgementIsCommitted | src/demo_command_center/infrastructure/outbox/lifecycle.py:189-207 | an answered onboarding row is published exactly in PAID and ONBOARDING_HANDOFF; in every other state it fails and the handoff is accepted all the same |
| SagaFallback.CompletedHandoffFallsBack | src/demo_command_center/infrastructure/outbox/lifecycle.py:200-207 | a late acknowledgement turns a completed handoff back to accepted, and completing it again raises |
| SagaFallback.CompletedWasConverted | src/demo_command_center/infrastructure/inbox/processor.py:1227-1274 | in every reachable database the demo of a completed handoff has COMPLETE_ONBOARDING in its log |
| SagaFallback.StatusAfterConversion | src/demo_command_center/infrastructure/inbox/processor.py:1172-1241 | once its demo was converted, a handoff's status changes by no step of any writer but the answer to its own row, to accepted |
| SagaFallback.CompletedStaysIff | src/demo_command_center/infrastructure/outbox/lifecycle.py:181-207 | in every reachable database a completed handoff is completed after the next step if and only if that step is not the answer to its own onboarding row while the row is due |
| SagaFallback.CompletedThroughRunIff | src/demo_command_center/infrastructure/outbox/lifecycle.py:181-207 | over whole runs a completed handoff is completed at the end if and only if no step answered its own due row; once fallen back it is never completed again |
| Scenario.CompletedHandoffIsReopened | src/demo_command_center/infrastructure/outbox/lifecycle.py:174-207 | every configured deployment has a run from the empty database to a converted demo whose completed handoff's row is still due, and whose answer reopens it |
| Router.RoutedIff | src/demo_command_center/integrations/outbox_router.py:64-238 | each owner is asked exactly when the target names it, its gateway is configured, the payload is well formed and every column agrees with it |
| Router.EveryRowOpens | src/demo_command_center/infrastructure/outbox/publisher.py:62-88 | every row of every reachable outbox decrypts under its own associated data |
| Router.OwnRowsMatch | src/demo_command_center/integrations/outbox_router.py:85-238 | a row whose columns agree with its payload reaches its owner: quote, Cashfree, onboarding and delivery rows |
| Router.ActivatedIffKeysAgree | src/demo_command_center/integrations/outbox_router.py:116-124 | an activation is let through if and only if the row's key is the payload's activation key |
| Router.VerifiedRowRefused | src/demo_command_center/infrastructure/inbox/processor.py:1535-1564 | every verified-payment row is refused, because it is stored under the paid-outbox key |
| Router.OutboxRoutes | src/demo_command_center/integrations/outbox_router.py:64-238 | in every reachable outbox only verified-payment rows fail a metadata check |
| Router.RoutedRunStopsAtPaid | src/demo_command_center/integrations/outbox_router.py:116-124 | with the routing transport no handoff is ever made and no demo is ever handed off or converted |
| OutboxHistory.OthersStay | src/demo_command_center/infrastructure/outbox/publisher.py:66-128 | no step but a row's own delivery touches its attempts, its due time or its publication |
| OutboxHistory.MarksTellFailures | src/demo_command_center/infrastructure/outbox/publisher.py:122-126 | over every run a row's attempts count the due deliveries of it that raised, and its due time is the last of them plus the backoff of that count |
| OutboxHistory.AttemptsRiseIffRaised | src/demo_command_center/infrastructure/outbox/publisher.py:95-127 | in one step a row's attempts rise if and only if the step delivers that row while it is due and the delivery raises |
| OutboxHistory.FailuresBackOff | src/demo_command_center/infrastructure/outbox/publisher.py:122-126 | a row fails at most as often as the limit, and between its k-th failure and the next at least min(300, 2^k) seconds pass |
| OutboxHistory.LateTriesWait | src/demo_command_center/infrastructure/outbox/publisher.py:71-75 | the try after n failures comes no sooner than all n backoffs after the first, and only below the limit |
| OutboxHistory.EighthTryWaits254Seconds | src/demo_command_center/infrastructure/outbox/publisher.py:60-126 | in every run the try after seven failures, the last of eight, comes no sooner than 254 seconds after the first |
| OutboxHistory.LateFailuresWait300Seconds | src/demo_command_center/infrastructure/outbox/publisher.py:122-126 | in every run failures from the ninth on are at least 300 seconds apart |
| OutboxPublisher.Claim | src/demo_command_center/infrastructure/outbox/publisher.py:71-92 | the claimed rows are exactly the oldest ones that are unpublished, available, below the limit and of a target that is not blocked, as many as the batch takes |
| OutboxPublisher.PublishBatch | src/demo_command_center/infrastructure/outbox/publisher.py:66-128 | a batch delivers each claimed row once; published and failed count the rows by outcome and add up to the rows claimed; a refused flush takes all of it back; rows of blocked targets stay exactly as they are |
| InboxQueue.InboxProcessor.Accept | src/demo_command_center/infrastructure/inbox/durable_ingress.py:24-67 | an event is stored once per source, id and schema, and once per tenant and idempotency key |
| InboxQueue.InboxProcessor.ProcessOne | src/demo_command_center/infrastructure/inbox/processor.py:1623-1663 | the oldest row that is not processed, has tries left and a type that is not blocked is handled; its effects are committed if and only if it is marked processed; a row once processed is inert, whatever a later try finds |
| InboxQueue.InboxProcessor.ProcessBatch | src/demo_command_center/infrastructure/inbox/processor.py:1610-1621 | the remaining attempts of the open rows fall with every outcome; with fewer outcomes than the batch size nothing is open; closed and blocked rows are untouched |
| InboxQueue.WorkAfter | src/demo_command_center/infrastructure/inbox/processor.py:1623-1663 | rewriting one row changes the sum of remaining attempts by that row's share |
| InboxQueue.DrainedMeansDone | src/demo_command_center/infrastructure/inbox/processor.py:1625-1642 | nothing is open if and only if every unblocked row was processed or used up its attempts |
| InboxQueue.InboxProcessor.Replay | src/demo_command_center/cli/replay_event.py:31-103 | a row is reopened exactly under the operator's confirmation, a reason code and a finished attempt, processed ones only with the flag; at once reopening it again is refused |
| Reconciliation.OnlyMatchingAnswersDecide | src/demo_command_center/cli/reconcile_payments.py:113-141 | a fetched status never settles an order, sends a paid one to review, and decides on one only when order, amount and currency agree |
| Reconciliation.DueAgainIffReviewed | src/demo_command_center/cli/reconcile_payments.py:116-141 | an answered order is due again at once if and only if the answer sent it to review without a new time |
| Reconciliation.ReservableAgainIffReviewed | src/demo_command_center/cli/reconcile_payments.py:48-141 | so within one batch exactly those orders can be reserved a second time |
| Reconciliation.ReconcileBatch | src/demo_command_center/cli/reconcile_payments.py:163-236 | every inspection reserves one order and leaves it in the state its own answer has; the summary counts the results by kind and they add up to the orders inspected; each inspection takes one order off those due unless it went to review; a short batch leaves none due |
| GatewayService.Service.ExecuteOnce | integrations/nxtutors-laravel-adapter/app/Application/IdempotentMutation.php:16-65 | the wrapper on the object: replay, refusal, or one run with the processing record completed or rolled back |
| GatewayService.Service.UpdateProjection | integrations/nxtutors-laravel-adapter/app/Application/DemoProjectionService.php:33-80 | advancing a projection from the expected version, with its event |
| GatewayService.Service.RecordOnboarding | integrations/nxtutors-laravel-adapter/app/Application/DemoProjectionService.php:88-114 | recording an onboarding status on an existing projection, with its event |
| GatewayService.Service.ActivateSubscription | integrations/nxtutors-laravel-adapter/app/Application/SubscriptionActivationService.php:30-115 | comparing an existing activation, or checking the quote and inserting a new one with its event |
| GatewayService.Service.Append | integrations/nxtutors-laravel-adapter/app/Application/OutboxWriter.php:13-36 | an event is appended unless its unique key or id is taken |
| Gateway.NothingStaysProcessing | integrations/nxtutors-laravel-adapter/app/Application/IdempotentMutation.php:37-61 | after any sequence of calls every record is completed and has its response |
| Gateway.CarriedOutOnce | integrations/nxtutors-laravel-adapter/app/Application/IdempotentMutation.php:19-61 | the records are those of the calls carried out, and no two of these share scope and key |
| Gateway.TablesAreCarriedOutCalls | integrations/nxtutors-laravel-adapter/app/Application/IdempotentMutation.php:16-65 | the domain tables are those of the calls carried out, each applied once, in order, with no wrapper at all |
| Gateway.ReplaysTheFirstResponse | integrations/nxtutors-laravel-adapter/app/Application/IdempotentMutation.php:24-35 | however much later, the same scope, key and payload gets the first response and another payload is refused; nothing changes |
| Gateway.ProjectionVersionsAreExact | integrations/nxtutors-laravel-adapter/app/Application/DemoProjectionService.php:33-71 | in every reachable state a demo's update events have the versions 1 to n, each once, and the last one has the projection's state |
| Gateway.UpdateEventIffCarriedOut | integrations/nxtutors-laravel-adapter/app/Application/DemoProjectionService.php:62-72 | in every reachable state an update event stands under a key if and only if an update with that key was carried out |
| Gateway.KeyIsUsedUpByOneDemo | integrations/nxtutors-laravel-adapter/app/Application/DemoProjectionService.php:62-72 | once an update of one demo was carried out, an update of another demo with the same key is refused and changes nothing, however many calls lie between |
| Gateway.NewUpdateRefusedIff | integrations/nxtutors-laravel-adapter/app/Application/DemoProjectionService.php:33-72 | an update new to its scope, from the right version, is refused if and only if its key was used for an update of some demo, its event id is taken, or its lead is another demo's |
| Gateway.ActivatedAtMostOnce | integrations/nxtutors-laravel-adapter/app/Application/SubscriptionActivationService.php:30-100 | in every reachable state activations differ in demo, provider order, key and evidence, and each has exactly its event |
| Gateway.SecondActivationAddsNothing | integrations/nxtutors-laravel-adapter/app/Application/SubscriptionActivationService.php:31-57 | a second activation of a demo or order changes no table, whatever its key and payload |
| Gateway.ComparesOrderAndTypes | integrations/nxtutors-laravel-adapter/app/Application/SubscriptionActivationService.php:36-49 | an existing activation is confirmed if and only if the payload repeats its bindings, type by type, in the order in which the code lists them |
| Gateway.IntegerPlanIdConflicts | integrations/nxtutors-laravel-adapter/app/Application/SubscriptionActivationService.php:36-49 | an integer plan id is always a conflict with an existing activation |
| Gateway.ValidatedPayloadConflicts | integrations/nxtutors-laravel-adapter/app/Http/Requests/ActivationRequest.php:10-24 | a payload in the order of the validation rules never confirms an existing activation, so the already-applied answer is not given |
| Gateway.WhicheverIsFound | integrations/nxtutors-laravel-adapter/app/Application/SubscriptionActivationService.php:31-35 | in every reachable state it makes no difference which of the matching activations the unordered query returns |
| Gateway.ActivatedThenRefused | integrations/nxtutors-laravel-adapter/app/Application/SubscriptionActivationService.php:30-49 | once an activation was carried out, however long ago, the same demo's and order's activation under a fresh key is refused on the gateway's own route and changes nothing |
| Gateway.SamePayloadIsRefused | integrations/nxtutors-laravel-adapter/app/Application/SubscriptionActivationService.php:30-104 | from the empty database one payload is activated, and the same payload under a second key is a conflict |
| GatewayService.Service.InsertActivation | integrations/nxtutors-laravel-adapter/app/Application/SubscriptionActivationService.php:75-104 | an insertion succeeds exactly when no unique key of the activation or its event is taken, and then the subscription, the activation and the event are written |
| Discount.DiscountedIsLeastCover | src/demo_command_center/modules/demo_core/domain/money.py:31-36 | the charge is the least whole amount not below the exact discounted price |
| Discount.FloorBoundIsLargest | src/demo_command_center/modules/discount_suggestions/domain/policy.py:104-111 | the floor bound is the largest basis-point value whose exact price stays at or above the minimum |
| Discount.PriceIsAntitone | src/demo_command_center/modules/demo_core/domain/money.py:31-36 | a larger discount never costs more |
| Discount.PriceStaysInBounds | src/demo_command_center/modules/discount_suggestions/domain/policy.py:104-155 | within the floor bound the charge lies between the minimum and the list price |
| Discount.ApprovalFor | src/demo_command_center/modules/discount_suggestions/domain/policy.py:135-139 | the level is that of the smallest tier that covers the request, or rejection when none does |
| Discount.CollectReasons | src/demo_command_center/modules/discount_suggestions/domain/policy.py:121-141 | the reasons are exactly those that hold, and there are none if and only if nothing refuses the request |
| Discount.DecideDiscount | src/demo_command_center/modules/discount_suggestions/domain/policy.py:114-181 | approved if and only if no reason holds, and then at a price between minimum and list; the price-floor error does not occur |
| Discount.ApprovedIff | src/demo_command_center/modules/discount_suggestions/domain/policy.py:114-155 | a request is approved exactly for an eligible learner with an offer to spare, no cooldown, no unstackable coupon, a price that keeps the minimum, a discount within the policy and a tier that covers it |
| Discount.RefusedRedemptionWhy | src/demo_command_center/modules/discount_suggestions/domain/policy.py:203-231 | each refusal of a redemption is given exactly when its condition fails first |
| Discount.BoundOfferRedeems | src/demo_command_center/modules/discount_suggestions/domain/policy.py:184-231 | an offer is redeemed exactly by its own demo, user, plan and currency, before it expires, and once unless reusable |
| Amounts.PrintThenParse | src/demo_command_center/integrations/cashfree/client.py:72-130 | parsing the printed amount gives back the minor units, for every amount within decimal precision |
| Amounts.RoundsHalfUp | src/demo_command_center/infrastructure/inbox/processor.py:1567-1574 | more than two fraction digits are rounded to the nearest unit, a half going up |
| Amounts.ParsersAgreeIffPhpShape | integrations/nxtutors-laravel-adapter/app/Legacy/PlanRepository.php:97-106 | where the service reads an amount, the gateway reads the same if and only if the text, as PHP trims it, is digits with at most two after a point |
| Amounts.ParsersDisagree | integrations/nxtutors-laravel-adapter/app/Legacy/PlanRepository.php:97-106 | 1.005, .5 and +1 are read by the service and refused by the gateway; a 1 followed by NUL is read by the gateway and refused by the service |
| Amounts.PhpAmountIsPythonAmount | integrations/nxtutors-laravel-adapter/app/Legacy/PlanRepository.php:97-106 | what the gateway reads the service reads if and only if both trim it to the same text, and then as the same amount, within its precision |
| Amounts.OwnParsersDifferOnVanishingNegatives | src/demo_command_center/integrations/cashfree/client.py:125-142 | the service's two amount parsers differ exactly on negative amounts that round to zero or exceed the precision |
| Slots.OverlapIsSharedInstant | src/demo_command_center/modules/scheduling/domain/policy.py:77-78 | two windows overlap if and only if some instant lies in both |
| Slots.FeasibleIff | src/demo_command_center/modules/scheduling/domain/policy.py:162-204 | a start is feasible exactly when it keeps the lead time, every instant of the demo lies in one availability window, and no instant of it with its buffers is busy |
| Slots.ProposeSlots | src/demo_command_center/modules/scheduling/domain/policy.py:162-204 | the proposed starts are the earliest feasible candidates, in order, up to the limit |
| Slots.EarliestFeasibleIsUnique | src/demo_command_center/modules/scheduling/domain/policy.py:162-204 | there is only one such list |

## Left out

- Retention and row deletion: rows are never purged.
- Columns that no writer of the model reads: a reconciliation's mismatch codes and provider status, reason codes, actors and side effects of log entries, templates, message categories and service windows of deliveries, consents, regions and locales.
- Message text, requirements, candidates, identity mappings and reply wording: a step is given what handling its message finds, in any combination, and the rows that only carry these are not stored.
- The publisher's claim by locking: one worker; rows locked by another are not skipped.
- A reservation's staleness: an order being reconciled may be reserved at any time, which allows more runs than the code; the first of several due orders is any of them.
- Blanks around a derived id or key, which has none: only outside texts are stripped.
- Length limits and truncation of references, and length bounds on text columns.
- Unicode: digits, letters and blanks are ASCII, and a plan that `int` accepts only with other digits, signs or blanks is refused.
- The hexadecimal form of a plan version, and the first half of an id's hexadecimal form, which is an arbitrary function.
- Decimal texts in exponent notation, with underscores, or naming infinities, and arithmetic beyond 28 digits or the largest PHP integer, which is only marked as beyond.
- The status view of a payment job, checkout decryption, audit events and metrics.
- Deadlock retries of the gateway's transactions, and the encoding of a stored response as JSON.
- The legacy tables of the gateway: plan, user and subscription row are inputs of an activation, as is which of the matching activations its query returns; columns are not probed. Strings cast to integers are digits or count as zero.
- Expiry of idempotency records and of replay nonces.
- The offer's and the slot's identifiers, both digests of the other fields; time zones.
- Holds and confirmations of slots, which would only add easy members.
- HTTP, queues, settings, adapters, forecasting, quality, ranking, reminders and alerts.
- Gateway.ReplaysTheFirstResponse: assumes that a repeated projection update names a known state, because an unknown one is refused before the wrapper is entered.
- SagaOrderFree.PaidIffSomeBoundSuccess: assumes that no outbox row already has the order's paid key or event id, because outside request ids could coincide with them, and that no step in between moves the order's demo or takes these keys, an unseen webhook's event, payment or log key, or its new id; conversations, which may move the demo, decide otherwise.
- SagaFallback.AcknowledgementIsCommitted: assumes that a paid demo's log does not hold the acceptance under the handoff's own key already; otherwise the batch fails on that key and nothing changes, as `SagaFallback.CompletedStaysIff` counts it.
- Scenario.CompletedHandoffIsReopened: its transport answers the verified-payment row, which the routing transport never does.
