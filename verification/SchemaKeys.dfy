/**
 The unique keys of the schema and the conversations' reference to their demos hold in every
 reachable database, whichever writers wrote it.
 */
module SchemaKeys {
  import opened Identifiers
  import opened Lifecycle
  import opened Monetary
  import opened PaymentVerification
  import opened Store
  import opened Handlers
  import opened Frames
  import opened SagaInvariant
  import opened SagaPreservation
  import opened SagaOrderFree
  import opened PaymentRequests
  import opened RecorderOutcomes
  import opened OnboardingOutcomes
  import opened SnapshotOutcomes
  import opened DeliveryOutcomes
  import opened TalkOutcomes
  import WebhookOutcomes

  // ---------------------------------------------------------------- the keys

  /** No two entries of a demo's log share a key. */
  ghost predicate LogKeys(log: map<Uuid, seq<LogEntry>>) {
    forall d :: d in log ==> DistinctKeys(log[d])
  }

  ghost predicate DistinctKeys(run: seq<LogEntry>) { forall i, j :: 0 <= i < j < |run| ==> run[i].key != run[j].key }

  /** No two outbox rows of a tenant share a key. */
  ghost predicate RowKeys(outbox: map<Uuid, OutboxRow>) {
    forall a, b :: a in outbox && b in outbox && a != b && outbox[a].tenant == outbox[b].tenant ==> outbox[a].key != outbox[b].key
  }

  /** No two orders share a provider order, nor within a tenant their reference or their creation key. */
  ghost predicate OrderKeys(orders: map<Uuid, Order>) {
    forall a, b :: a in orders && b in orders && a != b ==>
      && (orders[a].providerId.Some? ==> orders[a].providerId != orders[b].providerId)
      && (orders[a].tenant == orders[b].tenant ==>
            orders[a].domainId != orders[b].domainId && orders[a].creationKey != orders[b].creationKey)
  }

  /** No two paid transitions share their id, their payment or their activation key. */
  ghost predicate PaidKeys(paid: map<Uuid, Paid>) {
    forall a, b :: a in paid && b in paid && a != b ==>
      paid[a].id != paid[b].id && paid[a].paymentId != paid[b].paymentId && paid[a].activationKey != paid[b].activationKey
  }

  /** No two handoffs share their id, nor within a tenant their key. */
  ghost predicate HandoffKeys(handoffs: map<Uuid, Handoff>) {
    forall a, b :: a in handoffs && b in handoffs && a != b ==>
      handoffs[a].id != handoffs[b].id && (handoffs[a].tenant == handoffs[b].tenant ==> handoffs[a].key != handoffs[b].key)
  }

  /** No two events of a source share their payload. */
  ghost predicate EventKeys(events: map<(Source, Uuid), ProviderEvent>) {
    forall a, b :: a in events && b in events && a != b && a.0 == b.0 ==> events[a].payload != events[b].payload
  }

  /** No two payment attempts share their webhook, and that is stored. */
  ghost predicate AttemptKeys(attempts: map<Text, Attempt>, events: map<(Source, Uuid), ProviderEvent>) {
    && (forall a, b :: a in attempts && b in attempts && a != b ==> attempts[a].event != attempts[b].event)
    && (forall a :: a in attempts ==> (FromCashfree, attempts[a].event) in events)
  }

  /** No two messages of a tenant share their key. */
  ghost predicate MessageKeys(messages: map<Uuid, Message>) {
    forall a, b :: a in messages && b in messages && a != b && messages[a].tenant == messages[b].tenant ==>
      messages[a].key != messages[b].key
  }

  /** Every conversation is about a stored demo. */
  ghost predicate TalksAboutDemos(db: Db) {
    forall k :: k in db.conversations ==> db.conversations[k].demo in db.demos
  }

  ghost predicate Keys(db: Db) {
    && LogKeys(db.log) && RowKeys(db.outbox) && OrderKeys(db.orders) && PaidKeys(db.paid) && HandoffKeys(db.handoffs)
    && EventKeys(db.events) && AttemptKeys(db.attempts, db.events) && MessageKeys(db.messages) && TalksAboutDemos(db)
  }

  // ---------------------------------------------------------------- single writes

  lemma MovedKeys(a: Db, b: Db, demo: Uuid, command: Command, after: DemoState, key: Text)
    requires demo in a.demos && LogKeys(a.log) && Moved(a, b, demo, command, after, key) && !Logged(a, demo, key)
    ensures LogKeys(b.log) && a.demos.Keys <= b.demos.Keys
  {
    var run, e := LogOf(a, demo), LogEntry(a.demos[demo].state, command, after, key);
    forall i | 0 <= i < |run| ensures run[i].key != key {
      assert run[i] in run;
    }
    assert DistinctKeys(run + [e]);
  }

  lemma AnnouncedKeys(a: Db, b: Db, id: Uuid, tenant: Text, target: Text, key: Text, correlation: Text, p: Payload, now: int)
    requires RowKeys(a.outbox) && Announces(a, b, id, tenant, target, key, correlation, p, now) && !RowTaken(a, id, tenant, key)
    ensures RowKeys(b.outbox)
  {
  }

  /** Marks and statuses leave tenants and keys alone. */
  lemma MarkedRowKeys(a: map<Uuid, OutboxRow>, id: Uuid, row: OutboxRow)
    requires RowKeys(a) && id in a && row.tenant == a[id].tenant && row.key == a[id].key
    ensures RowKeys(a[id := row])
  {
  }

  lemma RewrittenOrderKeys(a: map<Uuid, Order>, o: Uuid, order: Order)
    requires OrderKeys(a) && o in a
    requires order.tenant == a[o].tenant && order.domainId == a[o].domainId && order.creationKey == a[o].creationKey
    requires order.providerId != a[o].providerId ==> forall x :: x in a && x != o ==> a[x].providerId != order.providerId
    ensures OrderKeys(a[o := order])
  {
  }

  lemma RewrittenHandoffKeys(a: map<Uuid, Handoff>, o: Uuid, h: Handoff)
    requires HandoffKeys(a) && o in a && h.id == a[o].id && h.tenant == a[o].tenant && h.key == a[o].key
    ensures HandoffKeys(a[o := h])
  {
  }

  // ---------------------------------------------------------------- requests and recorders

  lemma RequestKeepsKeys(cfg: Config, db: Db, tenant: Text, c: OrderCommand, correlation: Text, now: int)
    requires Keys(db)
    ensures Keys(RequestOrder(cfg, db, tenant, c, correlation, now).1)
  {
    hide RequestOrder, LogKeys, OrderKeys, PaidKeys, HandoffKeys, EventKeys, AttemptKeys, MessageKeys, TalksAboutDemos, RowKeys, Queues;
    QueuedIff(cfg, db, tenant, c, correlation, now);
    var (answer, after) := RequestOrder(cfg, db, tenant, c, correlation, now);
    if answer == QuotePending {
      QueuedRowKeys(db, after, tenant, c, correlation, now);
    }
  }

  lemma QueuedRowKeys(a: Db, b: Db, tenant: Text, c: OrderCommand, correlation: Text, now: int)
    requires RowKeys(a.outbox) && Queues(a, b, tenant, c, correlation, now) && RowIsFree(a, tenant, c)
    ensures RowKeys(b.outbox) && b == a.(requests := b.requests, outbox := b.outbox)
    ensures TalksAboutDemos(a) ==> TalksAboutDemos(b)
  {
  }

  /** The effect of a writer keeps the keys, whether it finished or raised. */
  ghost predicate EffectKeepsKeys(e: Effect) { !e.Violation? ==> Keys(e.db) }

  lemma NewOrderKeys(cfg: Config, a: Db, b: Db, row: OutboxRow, p: Payload, q: Quote, now: int)
    requires Keys(a) && p.QuotePayload? && p.demo in a.demos && Orders(cfg, a, b, row, p, q, now) && !OrderKeyTaken(cfg, a, row, p)
    ensures Keys(b)
  {
    hide LogKeys, RowKeys, PaidKeys, HandoffKeys, EventKeys, AttemptKeys, MessageKeys, RowTaken, Logged, Moved, Announces;
    MovedKeys(a, b, p.demo, REQUEST_PAYMENT, PAYMENT_PENDING, Labelled("payment-request", UuidText(p.request)));
    AnnouncedKeys(a, b, CashfreeEventId(p.request), row.tenant, CASHFREE, UuidText(CashfreeEventId(p.request)), row.correlation,
                  CashfreeOrderPayload(p.request, PaymentOrderId(p.request), DomainOrder(p.demo, cfg.hex16(p.request)), q.amount, q.currency,
                                       p.user, p.phone, p.purpose, row.correlation, b.orders[PaymentOrderId(p.request)].expiresAt), now);
  }

  lemma QuoteKeepsKeys(cfg: Config, db: Db, id: Uuid, row: OutboxRow, p: Payload, d: Details, now: int)
    requires Inv(cfg, db) && Keys(db)
    ensures EffectKeepsKeys(RecordQuote(cfg, db, id, row, p, d, now))
  {
    hide Inv, Keys, RecordQuote, Orders, OrderKeyTaken, IsQuoteRequest, IsOpenQuote, SameAsked;
    if o :| o in db.orders && db.orders[o].tenant == row.tenant && db.orders[o].creationKey == row.key {
      RepeatedQuote(cfg, db, id, row, p, d, now, o);
    } else {
      QuoteRecordedIff(cfg, db, id, row, p, d, now);
      if RecordQuote(cfg, db, id, row, p, d, now).Done? {
        RequestIsQuote(id, row, p, d, now);
        NewOrderKeys(cfg, db, RecordQuote(cfg, db, id, row, p, d, now).db, row, p, d.quote, now);
      }
    }
  }

  lemma RequestIsQuote(id: Uuid, row: OutboxRow, p: Payload, d: Details, now: int)
    requires IsQuoteRequest(id, row, p) && (p.QuotePayload? ==> IsOpenQuote(d, p, now))
    ensures p.QuotePayload? && d.QuoteDetails?
  {
    hide NumericPlan, E164;
  }

  lemma AcknowledgementKeepsKeys(db: Db, id: Uuid, row: OutboxRow, p: Payload, reference: Text, d: Details, now: int)
    requires Keys(db)
    ensures EffectKeepsKeys(RecordCashfree(db, id, row, p, reference, d, now))
  {
    hide RecordCashfree, LogKeys, RowKeys, OrderKeys, PaidKeys, HandoffKeys, EventKeys, AttemptKeys, MessageKeys, IsCashfreeAnswer, Upper;
    AcknowledgedIff(db, id, row, p, reference, d, now);
    var e := RecordCashfree(db, id, row, p, reference, d, now);
    if IsCashfreeAnswer(id, row, p, reference, d) {
      AnswerIsCashfree(id, row, p, reference, d);
      if OrderIsAsAsked(db, row, p) {
        var x := db.orders[p.order];
        RewrittenOrderKeys(db.orders, p.order, x.(status := UnderReview));
        if e.Done? {
          RewrittenOrderKeys(db.orders, p.order, x.(providerId := Some(d.ack.providerId), status := Pending, reconcileAfter := Some(now),
                                                    version := x.version + 1));
        }
      }
    }
  }

  lemma AnswerIsCashfree(id: Uuid, row: OutboxRow, p: Payload, reference: Text, d: Details)
    requires IsCashfreeAnswer(id, row, p, reference, d)
    ensures p.CashfreeOrderPayload? && d.AckDetails?
  {
    hide E164, IsoCurrency;
  }

  lemma HandoffKeepsKeys(cfg: Config, db: Db, row: OutboxRow, p: Payload, activation: Text, newId: Uuid, now: int)
    requires Inv(cfg, db) && Keys(db)
    ensures EffectKeepsKeys(QueueOnboarding(db, row, p, activation, newId, now))
  {
    hide Inv, Keys, QueueOnboarding, HandsOver, HandoffTaken;
    if p.VerifiedPayload? && p.providerOrder != Str("") && p.evidence != Str("") {
      if o :| o in db.orders && db.orders[o].tenant == row.tenant && db.orders[o].providerId == Some(p.providerOrder)
              && db.orders[o].demo == p.demo {
        HandoffQueuedIff(cfg, db, row, p, activation, newId, now, o);
        var e := QueueOnboarding(db, row, p, activation, newId, now);
        if e.Done? && e.db != db {
          NewHandoffKeys(db, e.db, row, o, p, activation, newId, now);
        }
      } else {
        UnboundActivationRaises(db, row, p, activation, newId, now);
      }
    } else {
      UnboundActivationRaises(db, row, p, activation, newId, now);
    }
  }

  lemma NewHandoffKeys(a: Db, b: Db, row: OutboxRow, o: Uuid, p: Payload, activation: Text, newId: Uuid, now: int)
    requires Keys(a) && o in a.orders && o in a.paid && p.VerifiedPayload?
    requires HandsOver(a, b, row.tenant, o, row.correlation, p, activation, newId, now)
    requires !HandoffTaken(a, row.tenant, o, newId) && !AlreadyQueued(a, row.tenant, a.paid[o].id)
    ensures Keys(b)
  {
    hide LogKeys, RowKeys, OrderKeys, PaidKeys, EventKeys, AttemptKeys, MessageKeys, RowTaken, Announces;
    var order, key := a.orders[o], Labelled("onboarding-paid", UuidText(a.paid[o].id));
    AnnouncedKeys(a, b, OnboardingEventId(a.paid[o].id), row.tenant, ONBOARDING, key, row.correlation,
                  OnboardingPayload(ONBOARDING, key, row.correlation, order.demo, order.user, activation, p.evidence, order.plan), now);
  }

  /** Accepting a handoff keeps the keys, as the demo moves or stays. */
  lemma AcceptingKeepsKeys(db: Db, e: Effect, o: Uuid, accepted: Handoff, demo: Uuid, mayMove: bool, key: Text)
    requires Keys(db) && demo in db.demos && o in db.handoffs && AcceptedAs(db, e, o, accepted, demo, mayMove, key)
    requires accepted.id == db.handoffs[o].id && accepted.tenant == db.handoffs[o].tenant && accepted.key == db.handoffs[o].key
    ensures EffectKeepsKeys(e)
  {
    hide LogKeys, RowKeys, OrderKeys, PaidKeys, HandoffKeys, EventKeys, AttemptKeys, MessageKeys, Logged, Moved;
    RewrittenHandoffKeys(db.handoffs, o, accepted);
    if e.Done? && db.demos[demo].state == PAID {
      MovedKeys(db, e.db, demo, HANDOFF_ONBOARDING, ONBOARDING_HANDOFF, key);
    }
  }

  lemma AcceptanceKeepsKeys(cfg: Config, db: Db, row: OutboxRow, reference: Text)
    requires Inv(cfg, db) && Keys(db)
    ensures EffectKeepsKeys(RecordAcceptance(db, row, reference))
  {
    hide Inv, Keys, RecordAcceptance, AcceptedAs;
    if o :| o in db.handoffs && db.handoffs[o].tenant == row.tenant && db.handoffs[o].key == row.key {
      AcknowledgedHandoff(cfg, db, row, reference, o);
      var h := db.handoffs[o];
      AcceptingKeepsKeys(db, RecordAcceptance(db, row, reference), o,
                         h.(status := HandoffAccepted, acknowledgement := Some(reference), attempts := h.attempts + 1),
                         db.orders[o].demo, true, Labelled("onboarding-accepted", UuidText(h.id)));
    } else {
      UnknownHandoffRaises(db, row, reference);
    }
  }

  lemma RecordKeepsKeys(cfg: Config, db: Db, id: Uuid, row: OutboxRow, p: Payload, reply: Reply, newId: Uuid, now: int)
    requires Inv(cfg, db) && Keys(db)
    ensures EffectKeepsKeys(Record(cfg, db, id, row, p, reply, newId, now))
  {
    hide Inv, Keys, RecordQuote, RecordCashfree, QueueOnboarding, RecordAcceptance;
    match row.kind
    case PlanQuoteRequested => QuoteKeepsKeys(cfg, db, id, row, p, reply.details, now);
    case CashfreeOrderRequested => AcknowledgementKeepsKeys(db, id, row, p, reply.reference, reply.details, now);
    case PaymentVerified => HandoffKeepsKeys(cfg, db, row, p, reply.reference, newId, now);
    case OnboardingRequested => AcceptanceKeepsKeys(cfg, db, row, reply.reference);
    case DeliveryRequested =>
  }

  // ---------------------------------------------------------------- inbox events

  lemma AcceptedKeepsKeys(cfg: Config, db: Db, meta: Envelope, demo: Uuid, user: Text, onboarding: Text)
    requires Keys(db)
    ensures EffectKeepsKeys(AcceptOnboarding(cfg, db, meta, demo, user, onboarding))
  {
    hide Keys, AcceptOnboarding, IsContext, AcceptedAs;
    NoContextRaises(cfg, db, meta, demo, user, onboarding, 0);
    if o :| cfg.onboardingConfigured && IsContext(db, meta.tenant, demo, user, o) {
      AcceptedOutcome(cfg, db, meta, demo, user, onboarding, o);
      ContextStored(db, meta.tenant, demo, user, o);
      AcceptingKeepsKeys(db, AcceptOnboarding(cfg, db, meta, demo, user, onboarding), o,
                         db.handoffs[o].(status := HandoffAccepted, acknowledgement := Some(onboarding)), demo,
                         db.orders[o].status == Settled, meta.key);
    }
  }

  lemma ContextStored(db: Db, tenant: Text, demo: Uuid, user: Text, o: Uuid)
    requires IsContext(db, tenant, demo, user, o)
    ensures o in db.orders && o in db.handoffs && demo in db.demos
  {
  }

  lemma CompletedKeepsKeys(cfg: Config, db: Db, meta: Envelope, demo: Uuid, user: Text, now: int)
    requires Keys(db)
    ensures EffectKeepsKeys(CompleteOnboarding(cfg, db, meta, demo, user, now))
  {
    hide Keys, CompleteOnboarding, IsContext, Welcomes, WelcomeTaken;
    NoContextRaises(cfg, db, meta, demo, user, Str(""), now);
    if o :| cfg.welcomeConfigured && IsContext(db, meta.tenant, demo, user, o) {
      CompletedOutcome(cfg, db, meta, demo, user, now, o);
      ContextStored(db, meta.tenant, demo, user, o);
      var e := CompleteOnboarding(cfg, db, meta, demo, user, now);
      if e.Done? && e.db != db {
        WelcomedKeys(db, e.db, meta, demo, o, now);
      }
    }
  }

  lemma WelcomedKeys(a: Db, b: Db, meta: Envelope, demo: Uuid, o: Uuid, now: int)
    requires Keys(a) && demo in a.demos && o in a.handoffs && Welcomes(a, b, meta, demo, o, now)
    requires !WelcomeTaken(a, meta, demo, a.handoffs[o].id)
    ensures Keys(b)
  {
    hide LogKeys, RowKeys, OrderKeys, PaidKeys, HandoffKeys, EventKeys, AttemptKeys, RowTaken, Logged, Moved, Announces;
    var h, key := a.handoffs[o], Labelled("welcome", UuidText(a.handoffs[o].id));
    RewrittenHandoffKeys(a.handoffs, o, h.(status := HandoffCompleted, welcome := Some(WelcomeMessageId(h.id))));
    MovedKeys(a, b, demo, COMPLETE_ONBOARDING, CONVERTED, meta.key);
    AnnouncedKeys(a, b, WelcomeEventId(h.id), meta.tenant, LEAD_INTAKE_AGENT, key, meta.correlation,
                  DeliveryPayload(WelcomeEventId(h.id), demo, a.demos[demo].conversation, key), now);
  }

  /** The new event, its attempt's payment and the order's status. */
  lemma StatusKeys(a: Db, b: Db, o: Uuid, meta: Envelope, body: CashfreeBody, kind: DecisionKind, status: OrderStatus)
    requires Keys(a) && WebhookOutcomes.Readable(body) && o in a.orders && WebhookOutcomes.Unrecorded(a, meta, body)
    requires WebhookOutcomes.Leaves(a, b, o, meta, body, kind, status)
    ensures Keys(b)
  {
    hide LogKeys, RowKeys, OrderKeys, PaidKeys, HandoffKeys, MessageKeys, WebhookOutcomes.Readable, WebhookOutcomes.StatusOf,
         WebhookOutcomes.CurrencyOf, RequiredReference;
    RewrittenOrderKeys(a.orders, o, a.orders[o].(status := status));
  }

  lemma SettledKeys(cfg: Config, a: Db, b: Db, o: Uuid, meta: Envelope, body: CashfreeBody, newId: Uuid, now: int)
    requires Inv(cfg, a) && Keys(a) && WebhookOutcomes.Readable(body) && o in a.orders && WebhookOutcomes.Unrecorded(a, meta, body)
    requires a.orders[o].providerId.Some? && a.orders[o].demo in a.demos && o !in a.paid
    requires WebhookOutcomes.Settles(a, b, o, meta, body, newId, now) && WebhookOutcomes.KeysFree(a, meta, o, newId)
    ensures Keys(b)
  {
    hide Inv, OrderKeys, MessageKeys, HandoffKeys, RowKeys, LogKeys, PaidKeys, WebhookOutcomes.StatusOf, WebhookOutcomes.CurrencyOf,
         RequiredReference, OrderPaidKey, OrderActivationKey, WebhookOutcomes.TellsWebsite;
    var order := a.orders[o];
    RewrittenOrderKeys(a.orders, o, order.(status := Settled, paidAt := Some(meta.occurredAt), version := order.version + 1));
    SettledLogKeys(a, b, order.demo, meta.key);
    SettledRowKeys(a, b, o, order, b.paid[o], now);
    SettledPaidKeys(cfg, a, o, b.paid[o]);
  }

  lemma SettledLogKeys(a: Db, b: Db, demo: Uuid, key: Text)
    requires demo in a.demos && LogKeys(a.log) && (forall e :: e in LogOf(a, demo) ==> e.key != key)
    requires b.log == a.log[demo := LogOf(a, demo) + [LogEntry(a.demos[demo].state, VERIFY_PAYMENT, PAID, key)]]
    ensures LogKeys(b.log)
  {
    var run := LogOf(a, demo);
    forall i | 0 <= i < |run| ensures run[i].key != key {
      assert run[i] in run;
    }
    assert DistinctKeys(run + [LogEntry(a.demos[demo].state, VERIFY_PAYMENT, PAID, key)]);
  }

  lemma SettledRowKeys(a: Db, b: Db, o: Uuid, order: Order, paid: Paid, now: int)
    requires RowKeys(a.outbox) && order.providerId.Some? && PaidEventId(o) !in a.outbox
    requires forall r :: r in a.outbox && a.outbox[r].tenant == order.tenant ==> a.outbox[r].key != OrderPaidKey(order)
    requires PaidEventId(o) in b.outbox && b.outbox == a.outbox[PaidEventId(o) := b.outbox[PaidEventId(o)]]
    requires WebhookOutcomes.TellsWebsite(o, order, paid, b.outbox[PaidEventId(o)], now)
    ensures RowKeys(b.outbox)
  {
    hide OrderPaidKey, ParsePlan;
  }

  lemma SettledPaidKeys(cfg: Config, db: Db, o: Uuid, row: Paid)
    requires Inv(cfg, db) && PaidKeys(db.paid) && o in db.orders && db.orders[o].providerId.Some? && o !in db.paid
    requires row.paymentId !in db.attempts && row.activationKey == OrderActivationKey(db.orders[o])
    requires forall p :: p in db.paid ==> db.paid[p].id != row.id
    ensures PaidKeys(db.paid[o := row])
  {
    hide Inv, OrderActivationKey;
    NewPaidUnclashed(cfg, db, o, row);
  }

  lemma WebhookKeepsKeys(cfg: Config, db: Db, meta: Envelope, b: CashfreeBody, turn: Turn, newId: Uuid, now: int)
    requires Inv(cfg, db) && Keys(db)
    ensures Keys(HandleInbox(cfg, db, CashfreeWebhook(meta, b), turn, newId, now))
  {
    hide Inv, Keys, HandleInbox, Handle, WebhookOutcomes.Readable, WebhookOutcomes.OutcomeByFields, WebhookOutcomes.Unrecorded,
         WebhookOutcomes.KeysFree, WebhookOutcomes.Pays, WebhookOutcomes.UsablePolicy, WebhookOutcomes.Names;
    if o :| o in db.orders && WebhookOutcomes.Names(b, db.orders[o]) {
      WebhookOutcomes.ProcessedIff(cfg, db, meta, b, turn, newId, now, o);
      if Handle(cfg, db, CashfreeWebhook(meta, b), turn, newId, now).Done? {
        WebhookOutcomes.WebhookOutcome(cfg, db, meta, b, turn, newId, now, o);
        OutcomeKeepsKeys(cfg, db, HandleInbox(cfg, db, CashfreeWebhook(meta, b), turn, newId, now), o, meta, b, newId, now);
      } else {
        UnfinishedChangesNothing(cfg, db, CashfreeWebhook(meta, b), turn, newId, now);
      }
    } else {
      WebhookOutcomes.UnnamedIsRefused(cfg, db, meta, b, turn, newId, now);
    }
  }

  lemma UnfinishedChangesNothing(cfg: Config, db: Db, event: InboxEvent, turn: Turn, newId: Uuid, now: int)
    requires !Handle(cfg, db, event, turn, newId, now).Done?
    ensures HandleInbox(cfg, db, event, turn, newId, now) == db
  {
    hide Handle;
  }

  lemma OutcomeKeepsKeys(cfg: Config, db: Db, after: Db, o: Uuid, meta: Envelope, b: CashfreeBody, newId: Uuid, now: int)
    requires Inv(cfg, db) && Keys(db) && o in db.orders && WebhookOutcomes.Readable(b) && WebhookOutcomes.Unrecorded(db, meta, b)
    requires db.orders[o].providerId.Some? && (WebhookOutcomes.Pays(cfg, db, o, b) ==> WebhookOutcomes.KeysFree(db, meta, o, newId))
    requires WebhookOutcomes.OutcomeByFields(cfg, db, after, o, meta, b, newId, now)
    ensures Keys(after)
  {
    hide Inv, Keys, WebhookOutcomes.Readable, WebhookOutcomes.Unrecorded, WebhookOutcomes.KeysFree, WebhookOutcomes.Agrees,
         WebhookOutcomes.StatusOf, WebhookOutcomes.Leaves, WebhookOutcomes.Settles;
    if WebhookOutcomes.Pays(cfg, db, o, b) {
      SettledKeys(cfg, db, after, o, meta, b, newId, now);
    } else {
      var kind, status :| WebhookOutcomes.Leaves(db, after, o, meta, b, kind, status);
      StatusKeys(db, after, o, meta, b, kind, status);
    }
  }

  // ---------------------------------------------------------------- messages

  /** The legs of a message have keys of their own. */
  lemma {:induction false} LegsOfMessage(cfg: Config, step: ConversationStep, turn: Turn, state: DemoState, key: Text)
    ensures DistinctKeys(Walk(state, LegsOf(cfg, step, turn), key))
  {
    assert |PICKED| == 1 && |ESCALATED| == 1 && |FOUND| == 2;
    assert PICKED[1..] == [] && ESCALATED[1..] == [] && FOUND[1..] == [FOUND[1]] && [FOUND[1]][1..] == [];
    assert |FOUND[0].suffix| != |FOUND[1].suffix|;
  }

  lemma WalkedKeys(cfg: Config, a: Db, b: Db, demo: Uuid, step: ConversationStep, turn: Turn, key: Text)
    requires demo in a.demos && LogKeys(a.log) && Walked(a, b, demo, LegsOf(cfg, step, turn), key)
    requires WalkIsFree(a, demo, LegsOf(cfg, step, turn), key)
    ensures LogKeys(b.log) && a.demos.Keys <= b.demos.Keys && demo in b.demos
  {
    hide Walk, LegsOf;
    var run, entries := LogOf(a, demo), Walk(a.demos[demo].state, LegsOf(cfg, step, turn), key);
    LegsOfMessage(cfg, step, turn, a.demos[demo].state, key);
    forall i, j | 0 <= i < |run| && 0 <= j < |entries| ensures run[i].key != entries[j].key {
      assert run[i] in run && entries[j] in entries;
    }
    JoinedDistinct(run, entries);
  }

  lemma JoinedDistinct(a: seq<LogEntry>, b: seq<LogEntry>)
    requires DistinctKeys(a) && DistinctKeys(b) && forall i, j :: 0 <= i < |a| && 0 <= j < |b| ==> a[i].key != b[j].key
    ensures DistinctKeys(a + b)
  {
  }

  lemma RepliedKeys(a: Db, b: Db, meta: Envelope, demo: Uuid, now: int)
    requires RowKeys(a.outbox) && Replies(a, b, meta, demo, now) && !ReplyTaken(a, meta)
    ensures RowKeys(b.outbox)
  {
    hide RowKeys, RowTaken, Announces, IsRecipient;
    var id, key := ReplyEventId(meta.id), Labelled("demo-reply", UuidText(meta.id));
    var recipient :|
      Announces(a, b, id, meta.tenant, meta.source, key, meta.correlation, DeliveryPayload(id, demo, recipient, key), now)
      && IsRecipient(meta, recipient);
    AnnouncedKeys(a, b, id, meta.tenant, meta.source, key, meta.correlation, DeliveryPayload(id, demo, recipient, key), now);
  }

  lemma MessageKeepsKeys(cfg: Config, db: Db, meta: Envelope, sender: Option<Text>, turn: Turn, now: int)
    requires Keys(db) && db.demos.Keys == db.log.Keys
    ensures
      var e := StartDemo(cfg, db, meta, sender, turn, now);
      e.Done? ==> Keys(e.db)
  {
    hide StartDemo, LogKeys, RowKeys, OrderKeys, PaidKeys, HandoffKeys, EventKeys, AttemptKeys, MessageKeys, Walked, WalkIsFree, Replies, ReplyTaken,
         LegsOf, StepLeft;
    var here := (meta.tenant, meta.conversation);
    var e := StartDemo(cfg, db, meta, sender, turn, now);
    if here in db.conversations {
      var c := db.conversations[here];
      KnownConversation(cfg, db, meta, sender, turn, now);
      if e.Done? {
        WalkedKeys(cfg, db, e.db, c.demo, StepFound(c.step, turn.changed), turn, meta.key);
        RepliedKeys(db, e.db, meta, c.demo, now);
      }
    } else {
      var started := NewConversation(cfg, db, meta, sender, turn, now);
      var demo := DemoIdOf(meta.id);
      if e.Done? && demo !in db.demos {
        StartedKeys(db, started, meta, sender);
        NewWalkIsFree(started, demo, LegsOf(cfg, Collecting, turn), meta.key);
        WalkedKeys(cfg, started, e.db, demo, Collecting, turn, meta.key);
        RepliedKeys(db, e.db, meta, demo, now);
      }
    }
  }

  lemma StartedKeys(a: Db, b: Db, meta: Envelope, sender: Option<Text>)
    requires LogKeys(a.log) && Starts(a, b, meta, sender)
    ensures LogKeys(b.log) && DemoIdOf(meta.id) in b.demos && DemoIdOf(meta.id) in b.log && a.demos.Keys <= b.demos.Keys
    ensures |b.log[DemoIdOf(meta.id)]| == 1 && b.log[DemoIdOf(meta.id)][0].key == meta.key
  {
  }

  // ---------------------------------------------------------------- every step

  lemma ProviderEventKeepsKeys(cfg: Config, db: Db, meta: Envelope, payload: WebhookPayload, turn: Turn, newId: Uuid, now: int)
    requires Keys(db)
    ensures Keys(HandleInbox(cfg, db, MetaWebhook(meta, payload), turn, newId, now))
  {
    hide Handle, LogKeys, RowKeys, OrderKeys, PaidKeys, HandoffKeys, MessageKeys;
    WebhookOutcomes.ProviderEventStoredIff(cfg, db, meta, payload, turn, newId, now);
  }

  lemma InboxKeepsKeys(cfg: Config, db: Db, event: InboxEvent, turn: Turn, newId: Uuid, now: int)
    requires Inv(cfg, db) && Keys(db)
    ensures Keys(HandleInbox(cfg, db, event, turn, newId, now))
  {
    hide Inv, Keys, ProcessCashfree, RecordMetaEvent, AcceptOnboarding, CompleteOnboarding, StartDemo;
    match event
    case CashfreeWebhook(meta, body) => WebhookKeepsKeys(cfg, db, meta, body, turn, newId, now);
    case MetaWebhook(meta, payload) => ProviderEventKeepsKeys(cfg, db, meta, payload, turn, newId, now);
    case OnboardingAccepted(meta, demo, user, onboarding) => AcceptedKeepsKeys(cfg, db, meta, demo, user, onboarding);
    case OnboardingCompleted(meta, demo, user, onboarding) => CompletedKeepsKeys(cfg, db, meta, demo, user, now);
    case WhatsappHandoff(meta, sender, valid) =>
      SameDemoKeys(cfg, db);
      MessageKeepsKeys(cfg, db, meta, sender, turn, now);
    case UnsupportedEvent(_) =>
  }

  lemma SameDemoKeys(cfg: Config, db: Db)
    requires Inv(cfg, db)
    ensures db.demos.Keys == db.log.Keys
  {
    hide OrdersInv, RowsInv, CashfreeInv, PaidInv, SettledInv, HandoffInv, EvidenceInv, CountInv, RequestsInv, StartedInv;
  }

  lemma DeliveryKeepsKeys(cfg: Config, db: Db, id: Uuid, reply: Option<Reply>, newId: Uuid, now: int)
    requires Inv(cfg, db) && Keys(db)
    ensures Keys(Publish(cfg, db, id, reply, newId, now))
  {
    hide Inv, Keys, Record, Backoff, MarkPublished, MarkFailed;
    if Eligible(cfg, db, id, now) {
      var p := Open(db.outbox[id], id);
      if p.Some? && reply.Some? {
        RecordKeepsKeys(cfg, db, id, db.outbox[id], p.value, reply.value, newId, now);
      }
      var e := PublishEffect(cfg, db, id, reply, newId, now);
      if !e.Violation? && id in e.db.outbox {
        MarksKeepKeys(e.db, id, if reply.Some? then reply.value.reference else Str(""), now);
      }
    }
  }

  lemma MarksKeepKeys(db: Db, id: Uuid, reference: Text, now: int)
    requires Keys(db) && id in db.outbox
    ensures Keys(MarkPublished(db, id, reference)) && Keys(MarkFailed(db, id, now))
  {
    hide LogKeys, RowKeys, OrderKeys, PaidKeys, HandoffKeys, EventKeys, AttemptKeys, MessageKeys, Backoff;
    var row := db.outbox[id];
    MarkedRowKeys(db.outbox, id, row.(published := true, providerReference := Some(reference)));
    MarkedRowKeys(db.outbox, id, row.(attempts := row.attempts + 1, availableAt := now + Backoff(row.attempts + 1)));
  }

  lemma StatusKeepsKeys(db: Db, after: Db, o: Uuid)
    requires Keys(db) && o in db.orders && o in after.orders && after.orders == db.orders[o := after.orders[o]] && SameOrder(db.orders[o], after.orders[o])
    requires after.orders[o].providerId == db.orders[o].providerId
    requires after == db.(orders := after.orders, reconciliations := after.reconciliations)
    ensures Keys(after)
  {
    hide LogKeys, RowKeys, OrderKeys, PaidKeys, HandoffKeys, EventKeys, AttemptKeys, MessageKeys;
    RewrittenOrderKeys(db.orders, o, after.orders[o]);
  }

  lemma ReconciliationKeepsKeys(cfg: Config, db: Db, s: Step)
    requires Keys(db) && IsReconciliation(s)
    ensures Keys(Next(cfg, db, s))
  {
    hide Keys, Reservable, ApplySnapshot, ReserveOrder, RecordProviderFailure, AnsweredAs, StoresAnswer;
    match s
    case Reserve(tenant, o, at) =>
      ReservedIff(db, tenant, o, at);
      if Reservable(db, tenant, o, at) { StatusKeepsKeys(db, ReserveOrder(db, tenant, o, at), o); }
    case ProviderFailed(o, next) =>
      if o in db.orders {
        FailedFetchAsksAgain(db, o, next);
        StatusKeepsKeys(db, RecordProviderFailure(db, o, next), o);
      } else {
        NothingToFail(db, o, next);
      }
    case ProviderAnswered(o, before, snapshot, next) =>
      if o in db.orders && db.orders[o].providerId.Some? {
        EachAnswerHasItsState(db, o, before, snapshot, next);
        var after := ApplySnapshot(db, o, before, snapshot, next);
        var result :| AnsweredAs(db.orders[o], after.orders[o], snapshot, next, result) && StoresAnswer(db, after, o, before, snapshot, result);
        AnswerKeepsBinding(db.orders[o], after.orders[o], snapshot, next, result);
        StatusKeepsKeys(db, after, o);
      } else {
        NothingToAnswer(db, o, before, snapshot, next);
      }
  }

  lemma NothingToFail(db: Db, o: Uuid, next: int)
    requires o !in db.orders
    ensures RecordProviderFailure(db, o, next) == db
  {
  }

  lemma NothingToAnswer(db: Db, o: Uuid, before: OrderStatus, s: Snapshot, next: int)
    requires o !in db.orders || db.orders[o].providerId.None?
    ensures ApplySnapshot(db, o, before, s, next) == db
  {
    hide SnapshotHash;
  }

  lemma AnswerKeepsBinding(order: Order, after: Order, s: Snapshot, next: int, result: SnapshotResult)
    requires AnsweredAs(order, after, s, next, result)
    ensures SameOrder(order, after) && after.providerId == order.providerId
  {
    hide Upper;
  }

  lemma EdgeKeepsKeys(db: Db, demo: Uuid, command: Command, after: DemoState, key: Text)
    requires Keys(db)
    ensures Keys(TakeEdge(db, demo, command, after, key))
  {
    hide LogKeys, RowKeys, OrderKeys, PaidKeys, HandoffKeys, EventKeys, AttemptKeys, MessageKeys, LogClash, Logged, Registered;
    LoggedIff(db, demo, key);
    if demo in db.demos && !LogClash(db, demo, key) {
      MovedKeys(db, Move(db, demo, command, after, key), demo, command, after, key);
    }
  }

  lemma NextKeepsKeys(cfg: Config, db: Db, s: Step)
    requires Inv(cfg, db) && Keys(db)
    ensures Keys(Next(cfg, db, s))
  {
    hide Inv, Keys, RequestOrder, Publish, HandleInbox, TakeEdge, ReserveOrder, RecordProviderFailure, ApplySnapshot;
    match s
    case Request(tenant, command, correlation, at) => RequestKeepsKeys(cfg, db, tenant, command, correlation, at);
    case Deliver(row, reply, newId, at) => DeliveryKeepsKeys(cfg, db, row, reply, newId, at);
    case Inbox(event, turn, newId, at) => InboxKeepsKeys(cfg, db, event, turn, newId, at);
    case OtherEdge(demo, command, after, key) => EdgeKeepsKeys(db, demo, command, after, key);
    case _ => ReconciliationKeepsKeys(cfg, db, s);
  }

  /** After every run of all writers from the empty database every unique key of the schema holds. */
  lemma {:induction false} ReachableKeys(cfg: Config, steps: seq<Step>)
    ensures Keys(Exec(cfg, EMPTY, steps))
  {
    hide Inv, Keys, Next;
    if steps == [] {
      NoKeys();
    } else {
      var front := steps[..|steps| - 1];
      ReachableInv(cfg, front);
      ReachableKeys(cfg, front);
      NextKeepsKeys(cfg, Exec(cfg, EMPTY, front), steps[|steps| - 1]);
    }
  }

  lemma NoKeys()
    ensures Keys(EMPTY)
  {
  }
}
