/**
 What one step, and so a whole run, never takes back: log entries, an order's bound fields,
 queued payloads, provider events, attempts, paid transitions and request hashes.
 */
module SagaHistory {
  import opened Identifiers
  import opened Lifecycle
  import opened Monetary
  import opened PaymentVerification
  import opened Store
  import opened Handlers
  import opened Frames
  import opened SagaInvariant
  import opened SagaPreservation

  // ---------------------------------------------------------------- relations between two databases

  ghost predicate LogGrows(a: map<Uuid, seq<LogEntry>>, b: map<Uuid, seq<LogEntry>>) {
    forall d :: d in a ==> d in b && a[d] <= b[d]
  }

  ghost predicate OrdersKept(a: map<Uuid, Order>, b: map<Uuid, Order>) {
    forall o :: o in a ==> o in b && SameOrder(a[o], b[o])
  }

  ghost predicate RequestsKept(a: map<(Text, Text), ProviderRequest>, b: map<(Text, Text), ProviderRequest>) {
    forall k :: k in a ==> k in b && a[k].hash == b[k].hash
  }

  ghost predicate EventsKept(a: map<(Source, Uuid), ProviderEvent>, b: map<(Source, Uuid), ProviderEvent>) {
    forall k :: k in a ==> k in b && a[k] == b[k]
  }

  ghost predicate AttemptsKept(a: map<Text, Attempt>, b: map<Text, Attempt>) {
    forall k :: k in a ==> k in b && a[k] == b[k]
  }

  ghost predicate PaidKept(a: map<Uuid, Paid>, b: map<Uuid, Paid>) {
    forall o :: o in a ==> o in b && a[o] == b[o]
  }

  ghost predicate Kept(a: Db, b: Db) {
    && LogGrows(a.log, b.log)
    && OrdersKept(a.orders, b.orders)
    && RequestsKept(a.requests, b.requests)
    && OutboxKept(a.outbox, b.outbox)
    && EventsKept(a.events, b.events)
    && AttemptsKept(a.attempts, b.attempts)
    && PaidKept(a.paid, b.paid)
  }

  lemma KeptRefl(a: Db)
    ensures Kept(a, a)
  {
  }

  lemma OrdersKeptTrans(a: map<Uuid, Order>, b: map<Uuid, Order>, c: map<Uuid, Order>)
    requires OrdersKept(a, b) && OrdersKept(b, c)
    ensures OrdersKept(a, c)
  {
  }

  lemma OutboxKeptTrans(a: map<Uuid, OutboxRow>, b: map<Uuid, OutboxRow>, c: map<Uuid, OutboxRow>)
    requires OutboxKept(a, b) && OutboxKept(b, c)
    ensures OutboxKept(a, c)
  {
  }

  lemma LogGrowsTrans(a: map<Uuid, seq<LogEntry>>, b: map<Uuid, seq<LogEntry>>, c: map<Uuid, seq<LogEntry>>)
    requires LogGrows(a, b) && LogGrows(b, c)
    ensures LogGrows(a, c)
  {
  }

  lemma SmallTablesTrans(a: Db, b: Db, c: Db)
    requires RequestsKept(a.requests, b.requests) && RequestsKept(b.requests, c.requests)
    requires EventsKept(a.events, b.events) && EventsKept(b.events, c.events)
    requires AttemptsKept(a.attempts, b.attempts) && AttemptsKept(b.attempts, c.attempts)
    requires PaidKept(a.paid, b.paid) && PaidKept(b.paid, c.paid)
    ensures RequestsKept(a.requests, c.requests) && EventsKept(a.events, c.events)
    ensures AttemptsKept(a.attempts, c.attempts) && PaidKept(a.paid, c.paid)
  {
  }

  lemma KeptTrans(a: Db, b: Db, c: Db)
    requires Kept(a, b) && Kept(b, c)
    ensures Kept(a, c)
  {
    hide LogGrows, OrdersKept, RequestsKept, OutboxKept, EventsKept, AttemptsKept, PaidKept;
    LogGrowsTrans(a.log, b.log, c.log);
    OrdersKeptTrans(a.orders, b.orders, c.orders);
    OutboxKeptTrans(a.outbox, b.outbox, c.outbox);
    SmallTablesTrans(a, b, c);
  }

  // ---------------------------------------------------------------- single writes

  lemma MoveKept(db: Db, demo: Uuid, command: Command, after: DemoState, key: Text)
    requires demo in db.demos
    ensures Kept(db, Move(db, demo, command, after, key))
  {
  }

  lemma SetOrderKept(db: Db, o: Uuid, order: Order)
    requires o in db.orders ==> SameOrder(db.orders[o], order)
    ensures Kept(db, SetOrder(db, o, order))
  {
  }

  lemma NewRowKeepsAll(db: Db, id: Uuid, row: OutboxRow)
    requires id !in db.outbox
    ensures Kept(db, AddOutbox(db, id, row))
  {
  }

  lemma MarkKept(db: Db, id: Uuid, row: OutboxRow)
    requires id in db.outbox
    requires row == db.outbox[id].(availableAt := row.availableAt, attempts := row.attempts,
                                   published := row.published, providerReference := row.providerReference)
    ensures Kept(db, AddOutbox(db, id, row))
  {
  }

  lemma OtherTablesKept(db: Db, after: Db)
    requires after == db.(conversations := after.conversations, checkouts := after.checkouts, handoffs := after.handoffs,
                          messages := after.messages, reconciliations := after.reconciliations)
    ensures Kept(db, after)
  {
    KeptRefl(db);
  }

  lemma SetRequestKept(db: Db, k: (Text, Text), r: ProviderRequest)
    requires k in db.requests ==> db.requests[k].hash == r.hash
    ensures Kept(db, db.(requests := db.requests[k := r]))
  {
  }

  // ---------------------------------------------------------------- the handlers

  lemma RequestKept(cfg: Config, db: Db, tenant: Text, c: OrderCommand, correlation: Text, now: int)
    ensures Kept(db, RequestOrder(cfg, db, tenant, c, correlation, now).1)
  {
    hide Kept, HasActiveOrder, HasActiveRequest;
    var (answer, after) := RequestOrder(cfg, db, tenant, c, correlation, now);
    KeptRefl(db);
    if answer.QuotePending? {
      var k := (tenant, UuidText(c.request));
      var p := QuotePayload(c.request, c.demo, c.user, c.plan, c.phone, DEMO_CONVERSION, correlation);
      var db1 := AddOutbox(db, c.request, NewRow(c.request, tenant, WEBSITE, k.1, correlation, p, now));
      NewRowKeepsAll(db, c.request, NewRow(c.request, tenant, WEBSITE, k.1, correlation, p, now));
      SetRequestKept(db1, k, ProviderRequest(c, UuidText(c.demo), Queued, correlation));
      KeptTrans(db, db1, after);
    }
  }

  lemma OrderedKept(cfg: Config, db: Db, row: OutboxRow, p: Payload, order: Order, q: Quote, now: int)
    requires p.QuotePayload? && p.demo in db.demos
    requires PaymentOrderId(p.request) !in db.orders && CashfreeEventId(p.request) !in db.outbox
    ensures Kept(db, OrderedDb(db, row, p, order, q, now))
  {
    hide Kept, CashfreeRow;
    var db1 := SetOrder(db, PaymentOrderId(p.request), order);
    var db2 := AddOutbox(db1, CashfreeEventId(p.request), CashfreeRow(p, order, now));
    var db3 := Move(db2, p.demo, REQUEST_PAYMENT, PAYMENT_PENDING, RequestLogKey(p.request));
    SetOrderKept(db, PaymentOrderId(p.request), order);
    NewRowKeepsAll(db1, CashfreeEventId(p.request), CashfreeRow(p, order, now));
    MoveKept(db2, p.demo, REQUEST_PAYMENT, PAYMENT_PENDING, RequestLogKey(p.request));
    KeptTrans(db, db1, db2);
    KeptTrans(db, db2, db3);
    QuoteVerifiedKept(db3, row.tenant, row.key, q.planVersion);
    KeptTrans(db, db3, MarkQuoteVerified(db3, row.tenant, row.key, q.planVersion));
  }

  lemma QuoteVerifiedKept(db: Db, tenant: Text, key: Text, planVersion: Text)
    ensures Kept(db, MarkQuoteVerified(db, tenant, key, planVersion))
  {
    hide Kept;
    KeptRefl(db);
    if (tenant, key) in db.requests {
      SetRequestKept(db, (tenant, key), db.requests[(tenant, key)].(status := QuoteVerified, reference := planVersion));
    }
  }

  lemma RecordQuoteKept(cfg: Config, db: Db, id: Uuid, row: OutboxRow, p: Payload, d: Details, now: int)
    ensures
      var e := RecordQuote(cfg, db, id, row, p, d, now);
      !e.Violation? ==> Kept(db, e.db)
  {
    hide Kept, ValidQuote, QuoteBound, MatchesExisting, LogClash, OrdersByCreationKey, OrderedDb, NewOrder;
    KeptRefl(db);
    var e := RecordQuote(cfg, db, id, row, p, d, now);
    if e.Done? && e.db != db {
      OrderedKept(cfg, db, row, p, NewOrder(cfg, row, p, d.quote, now), d.quote, now);
    }
  }

  lemma RecordCashfreeKept(db: Db, id: Uuid, row: OutboxRow, p: Payload, reference: Text, d: Details, now: int)
    ensures
      var e := RecordCashfree(db, id, row, p, reference, d, now);
      !e.Violation? ==> Kept(db, e.db)
  {
    hide Kept, CashfreeBound, ProviderOrderClash, MarkReady;
    KeptRefl(db);
    var e := RecordCashfree(db, id, row, p, reference, d, now);
    if !e.Violation? && e.db != db {
      var order := db.orders[p.order];
      if e.Raised? {
        SetOrderKept(db, p.order, order.(status := UnderReview));
      } else {
        var db1 := SetOrder(db, p.order, BoundOrder(order, d.ack.providerId, now));
        var db2 := db1.(checkouts := db1.checkouts[p.order := Checkout(d.ack.secret, order.expiresAt)]);
        SetOrderKept(db, p.order, BoundOrder(order, d.ack.providerId, now));
        OtherTablesKept(db1, db2);
        KeptTrans(db, db1, db2);
        ReadyKept(db2, row.tenant, UuidText(p.request), d.ack.providerId);
        KeptTrans(db, db2, e.db);
      }
    }
  }

  lemma ReadyKept(db: Db, tenant: Text, key: Text, providerId: Text)
    ensures Kept(db, MarkReady(db, tenant, key, providerId))
  {
    hide Kept;
    KeptRefl(db);
    if (tenant, key) in db.requests {
      SetRequestKept(db, (tenant, key), db.requests[(tenant, key)].(status := Ready, reference := providerId));
    }
  }

  lemma QueueOnboardingKept(db: Db, row: OutboxRow, p: Payload, activation: Text, newId: Uuid, now: int)
    ensures
      var e := QueueOnboarding(db, row, p, activation, newId, now);
      !e.Violation? ==> Kept(db, e.db)
  {
    hide Kept, HandoffQueued, HandoffClash;
    KeptRefl(db);
    var e := QueueOnboarding(db, row, p, activation, newId, now);
    if e.Done? && e.db != db {
      var db1 := db.(handoffs := e.db.handoffs);
      OtherTablesKept(db, db1);
      var o := Pick(OrdersByProviderId(db, row.tenant, p.providerOrder, p.demo)).value;
      NewRowKeepsAll(db1, OnboardingEventId(db.paid[o].id), OnboardingRow(db, row.tenant, o, row.correlation, p, activation, now));
      KeptTrans(db, db1, e.db);
    }
  }

  lemma HandoffThenMoveKept(db: Db, o: Uuid, h: Handoff, demo: Uuid, command: Command, after: DemoState, key: Text)
    requires demo in db.demos
    ensures Kept(db, SetHandoff(db, o, h))
    ensures Kept(db, Move(SetHandoff(db, o, h), demo, command, after, key))
  {
    hide Kept;
    OtherTablesKept(db, SetHandoff(db, o, h));
    MoveKept(SetHandoff(db, o, h), demo, command, after, key);
    KeptTrans(db, SetHandoff(db, o, h), Move(SetHandoff(db, o, h), demo, command, after, key));
  }

  lemma RecordAcceptanceKept(db: Db, row: OutboxRow, reference: Text)
    ensures
      var e := RecordAcceptance(db, row, reference);
      !e.Violation? ==> Kept(db, e.db)
  {
    hide Kept, LogClash;
    KeptRefl(db);
    var e := RecordAcceptance(db, row, reference);
    if !e.Violation? && e.db != db {
      var o := Pick(HandoffsByKey(db, row.tenant, row.key)).value;
      var h := db.handoffs[o];
      HandoffThenMoveKept(db, o, h.(status := HandoffAccepted, acknowledgement := Some(reference), attempts := h.attempts + 1),
                          db.orders[o].demo, HANDOFF_ONBOARDING, ONBOARDING_HANDOFF, AcceptedLogKey(h.id));
    }
  }

  lemma AcceptKept(cfg: Config, db: Db, meta: Envelope, demo: Uuid, user: Text, onboarding: Text)
    ensures
      var e := AcceptOnboarding(cfg, db, meta, demo, user, onboarding);
      e.Done? ==> Kept(db, e.db)
  {
    hide Kept, LogClash, OnboardingContext;
    ContextFacts(db, meta.tenant, demo, user);
    var c := OnboardingContext(db, meta.tenant, demo, user);
    if AcceptOnboarding(cfg, db, meta, demo, user, onboarding).Done? {
      HandoffThenMoveKept(db, c.value, db.handoffs[c.value].(status := HandoffAccepted, acknowledgement := Some(onboarding)),
                          demo, HANDOFF_ONBOARDING, ONBOARDING_HANDOFF, meta.key);
    }
  }

  lemma CompleteKept(cfg: Config, db: Db, meta: Envelope, demo: Uuid, user: Text, now: int)
    ensures
      var e := CompleteOnboarding(cfg, db, meta, demo, user, now);
      e.Done? ==> Kept(db, e.db)
  {
    hide Kept, LogClash, OnboardingContext, MessageClash;
    KeptRefl(db);
    ContextFacts(db, meta.tenant, demo, user);
    var e := CompleteOnboarding(cfg, db, meta, demo, user, now);
    if e.Done? && e.db != db {
      var h := db.handoffs[OnboardingContext(db, meta.tenant, demo, user).value];
      var db1 := db.(handoffs := e.db.handoffs, messages := e.db.messages);
      var db2 := Move(db1, demo, COMPLETE_ONBOARDING, CONVERTED, meta.key);
      OtherTablesKept(db, db1);
      MoveKept(db1, demo, COMPLETE_ONBOARDING, CONVERTED, meta.key);
      KeptTrans(db, db1, db2);
      NewRowKeepsAll(db2, WelcomeEventId(h.id), WelcomeRow(meta, demo, db.demos[demo].conversation, h.id, now));
      KeptTrans(db, db2, e.db);
    }
  }

  lemma EventKept(db: Db, source: Source, id: Uuid, payload: WebhookPayload, decision: Option<DecisionKind>)
    requires (source, id) !in db.events
    ensures Kept(db, RecordEvent(db, source, id, payload, decision))
  {
  }

  lemma AttemptKept(db: Db, paymentId: Text, attempt: Attempt)
    requires paymentId !in db.attempts
    ensures Kept(db, RecordAttempt(db, paymentId, attempt))
  {
  }

  lemma PaidAddedKept(db: Db, o: Uuid, row: Paid)
    requires o !in db.paid
    ensures Kept(db, db.(paid := db.paid[o := row]))
  {
  }

  lemma ApplyPaidKept(db: Db, meta: Envelope, o: Uuid, paymentId: Text, activationKey: Text, outboxKey: Text, newId: Uuid, now: int)
    requires o in db.orders && db.orders[o].providerId.Some?
    ensures
      var e := ApplyPaid(db, meta, o, paymentId, activationKey, outboxKey, newId, now);
      e.Done? ==> Kept(db, e.db)
  {
    hide Kept, LogClash, ParsePlan, VerifiedRow;
    var order := db.orders[o];
    var e := ApplyPaid(db, meta, o, paymentId, activationKey, outboxKey, newId, now);
    if e.Done? {
      if order.demo !in db.demos || !Payable(db.demos[order.demo].state) {
        SetOrderKept(db, o, order.(status := UnderReview));
      } else {
        var row := Paid(newId, paymentId, activationKey, order.amount, order.currency, meta.occurredAt);
        var settled := order.(status := Settled, paidAt := Some(meta.occurredAt), version := order.version + 1);
        var db0 := SetOrder(db, o, settled);
        var db1 := Move(db0, order.demo, VERIFY_PAYMENT, PAID, meta.key);
        var db2 := db1.(paid := db1.paid[o := row]);
        SetOrderKept(db, o, settled);
        MoveKept(db0, order.demo, VERIFY_PAYMENT, PAID, meta.key);
        KeptTrans(db, db0, db1);
        PaidAddedKept(db1, o, row);
        KeptTrans(db, db1, db2);
        NewRowKeepsAll(db2, PaidEventId(o), VerifiedRow(o, order, ParsePlan(order.plan).value, paymentId, activationKey, outboxKey, meta.occurredAt, now));
        KeptTrans(db, db2, e.db);
      }
    }
  }

  lemma CashfreeKept(cfg: Config, db: Db, meta: Envelope, b: CashfreeBody, newId: Uuid, now: int)
    ensures
      var e := ProcessCashfree(cfg, db, meta, b, newId, now);
      e.Done? ==> Kept(db, e.db)
  {
    hide Kept, ApplyPaid, Mismatches, Authoritative, OperationKey, WebhookBinding, WebhookEvidence, MakeMoney;
    var e := ProcessCashfree(cfg, db, meta, b, newId, now);
    if e.Done? {
      var w := ParseWebhook(b).value;
      var o := Pick(OrdersByDomainId(db, w.orderId)).value;
      var decision := Decide(cfg, db, meta, b, o, now).value;
      var attempt := Attempt(o, meta.id, w.status, b.amountMinor.value, w.currency, meta.occurredAt);
      var db0 := RecordEvent(db, FromCashfree, meta.id, CashfreePayload(b), Some(decision.kind));
      var db1 := RecordAttempt(db0, w.paymentId, attempt);
      EventKept(db, FromCashfree, meta.id, CashfreePayload(b), Some(decision.kind));
      AttemptKept(db0, w.paymentId, attempt);
      KeptTrans(db, db0, db1);
      if decision.kind == TransitionPaid {
        ApplyPaidKept(db1, meta, o, w.paymentId, decision.activationKey.value, decision.outboxKey.value, newId, now);
      } else {
        SetOrderKept(db1, o, db.orders[o].(status := StatusAfter(decision.kind, db.orders[o].status)));
      }
      KeptTrans(db, db1, e.db);
    }
  }

  lemma TransitionKept(db: Db, meta: Envelope, demo: Uuid, command: Command, after: DemoState)
    ensures
      var e := TransitionDemo(db, meta, demo, command, after);
      e.Done? ==> Kept(db, e.db)
  {
    hide Kept, LogClash, TransitionKey;
    KeptRefl(db);
    if demo in db.demos {
      MoveKept(db, demo, command, after, TransitionKey(meta, command));
    }
  }

  lemma SetStepKept(db: Db, meta: Envelope, demo: Uuid, step: ConversationStep)
    ensures Kept(db, SetStep(db, meta, demo, step))
  {
    hide Kept;
    OtherTablesKept(db, SetStep(db, meta, demo, step));
  }

  lemma AddReplyKept(db: Db, e: Effect, meta: Envelope, demo: Uuid, now: int)
    requires e.Done? ==> Kept(db, e.db)
    ensures
      var r := AddReply(e, meta, demo, now);
      r.Done? ==> Kept(db, r.db)
  {
    hide Kept;
    var r := AddReply(e, meta, demo, now);
    if r.Done? {
      var id, key := ReplyEventId(meta.id), ReplyKey(meta.id);
      NewRowKeepsAll(e.db, id, NewRow(id, meta.tenant, meta.source, key, meta.correlation, DeliveryPayload(id, demo, Recipient(meta), key), now));
      KeptTrans(db, e.db, r.db);
    }
  }

  lemma ShortlistKept(db: Db, meta: Envelope, demo: Uuid)
    ensures
      var e := Shortlist(db, meta, demo);
      e.Done? ==> Kept(db, e.db)
  {
    hide Kept, TransitionDemo, SetStep;
    TransitionKept(db, meta, demo, COMPLETE_QUALIFICATION, TUTOR_MATCHING);
    var e := TransitionDemo(db, meta, demo, COMPLETE_QUALIFICATION, TUTOR_MATCHING);
    if e.Done? {
      var db1 := SetStep(e.db, meta, demo, SelectTutor);
      SetStepKept(e.db, meta, demo, SelectTutor);
      KeptTrans(db, e.db, db1);
      TransitionKept(db1, meta, demo, COMPLETE_MATCHING, TUTOR_SHORTLISTED);
      var f := TransitionDemo(db1, meta, demo, COMPLETE_MATCHING, TUTOR_SHORTLISTED);
      if f.Done? {
        KeptTrans(db, db1, f.db);
      }
    }
  }

  lemma AdvanceKept(cfg: Config, db: Db, meta: Envelope, demo: Uuid, step: ConversationStep, turn: Turn, now: int)
    ensures
      var r := Advance(cfg, db, meta, demo, step, turn, now);
      r.Done? ==> Kept(db, r.db)
  {
    hide Kept, TransitionDemo, Shortlist, AddReply;
    KeptRefl(db);
    TransitionKept(db, meta, demo, ESCALATE_HUMAN, HUMAN_HANDOFF);
    ShortlistKept(db, meta, demo);
    AddReplyKept(db, Done(db), meta, demo, now);
    AddReplyKept(db, TransitionDemo(db, meta, demo, ESCALATE_HUMAN, HUMAN_HANDOFF), meta, demo, now);
    AddReplyKept(db, Shortlist(db, meta, demo), meta, demo, now);
  }

  lemma ContinueKept(cfg: Config, db: Db, meta: Envelope, turn: Turn, now: int)
    requires (meta.tenant, meta.conversation) in db.conversations
    ensures
      var r := ContinueDemo(cfg, db, meta, turn, now);
      r.Done? ==> Kept(db, r.db)
  {
    hide Kept, TransitionDemo, AddReply, Advance, StepAfter, SetStep;
    var c := db.conversations[(meta.tenant, meta.conversation)];
    var db1, db2 := SetStep(db, meta, c.demo, AwaitingTutor), SetStep(db, meta, c.demo, StepAfter(c, turn));
    SetStepKept(db, meta, c.demo, AwaitingTutor);
    SetStepKept(db, meta, c.demo, StepAfter(c, turn));
    var e := TransitionDemo(db1, meta, c.demo, ACCEPT_SHORTLIST, SLOT_NEGOTIATING);
    TransitionKept(db1, meta, c.demo, ACCEPT_SHORTLIST, SLOT_NEGOTIATING);
    if e.Done? {
      KeptTrans(db, db1, e.db);
    }
    AddReplyKept(db, e, meta, c.demo, now);
    AdvanceKept(cfg, db2, meta, c.demo, StepAfter(c, turn), turn, now);
    var r := Advance(cfg, db2, meta, c.demo, StepAfter(c, turn), turn, now);
    if r.Done? {
      KeptTrans(db, db2, r.db);
    }
  }

  lemma NewDemoKept(db: Db, d: Uuid, demo: Demo, e: LogEntry)
    requires d !in db.log
    ensures Kept(db, db.(demos := db.demos[d := demo], log := db.log[d := [e]]))
  {
  }

  lemma StartKept(cfg: Config, db: Db, meta: Envelope, sender: Option<Text>, turn: Turn, now: int)
    requires db.demos.Keys == db.log.Keys
    ensures
      var r := StartDemo(cfg, db, meta, sender, turn, now);
      r.Done? ==> Kept(db, r.db)
  {
    hide Kept, Advance, ContinueDemo, SetStep;
    KeptRefl(db);
    var r := StartDemo(cfg, db, meta, sender, turn, now);
    if r.Done? && r.db != db {
      if (meta.tenant, meta.conversation) in db.conversations {
        ContinueKept(cfg, db, meta, turn, now);
      } else {
        var demo := DemoIdOf(meta.id);
        var d, e := Demo(meta.tenant, sender, meta.conversation, QUALIFYING, 1), LogEntry(NEW, START_QUALIFICATION, QUALIFYING, meta.key);
        var db1 := db.(demos := db.demos[demo := d], log := db.log[demo := [e]]);
        assert demo !in db.demos.Keys;
        NewDemoKept(db, demo, d, e);
        var db2 := SetStep(db1, meta, demo, Collecting);
        SetStepKept(db1, meta, demo, Collecting);
        KeptTrans(db, db1, db2);
        AdvanceKept(cfg, db2, meta, demo, Collecting, turn, now);
        KeptTrans(db, db2, r.db);
      }
    }
  }

  lemma HandleKept(cfg: Config, db: Db, event: InboxEvent, turn: Turn, newId: Uuid, now: int)
    requires db.demos.Keys == db.log.Keys
    ensures
      var e := Handle(cfg, db, event, turn, newId, now);
      e.Done? ==> Kept(db, e.db)
  {
    hide Kept, ProcessCashfree, AcceptOnboarding, CompleteOnboarding, StartDemo;
    match event
    case CashfreeWebhook(meta, body) => CashfreeKept(cfg, db, meta, body, newId, now);
    case MetaWebhook(meta, payload) =>
      if (ProviderOf(meta), meta.id) !in db.events {
        EventKept(db, ProviderOf(meta), meta.id, payload, None);
      }
    case OnboardingAccepted(meta, demo, user, onboarding) => AcceptKept(cfg, db, meta, demo, user, onboarding);
    case OnboardingCompleted(meta, demo, user, onboarding) => CompleteKept(cfg, db, meta, demo, user, now);
    case WhatsappHandoff(meta, sender, valid) => StartKept(cfg, db, meta, sender, turn, now);
    case UnsupportedEvent(_) =>
  }

  lemma RecordKept(cfg: Config, db: Db, id: Uuid, row: OutboxRow, p: Payload, reply: Reply, newId: Uuid, now: int)
    ensures
      var e := Record(cfg, db, id, row, p, reply, newId, now);
      !e.Violation? ==> Kept(db, e.db)
  {
    hide Kept, RecordQuote, RecordCashfree, QueueOnboarding, RecordAcceptance;
    match row.kind
    case PlanQuoteRequested => RecordQuoteKept(cfg, db, id, row, p, reply.details, now);
    case CashfreeOrderRequested => RecordCashfreeKept(db, id, row, p, reply.reference, reply.details, now);
    case PaymentVerified => QueueOnboardingKept(db, row, p, reply.reference, newId, now);
    case OnboardingRequested => RecordAcceptanceKept(db, row, reply.reference);
    case DeliveryRequested => KeptRefl(db);
  }

  lemma PublishKept(cfg: Config, db: Db, id: Uuid, reply: Option<Reply>, newId: Uuid, now: int)
    ensures Kept(db, Publish(cfg, db, id, reply, newId, now))
  {
    hide Kept, Record, Backoff;
    KeptRefl(db);
    if Eligible(cfg, db, id, now) {
      var p, row := Open(db.outbox[id], id), db.outbox[id];
      if p.Some? && reply.Some? {
        RecordKept(cfg, db, id, row, p.value, reply.value, newId, now);
      }
      var e := PublishEffect(cfg, db, id, reply, newId, now);
      if !e.Violation? && id in e.db.outbox {
        var r := e.db.outbox[id];
        MarkKept(e.db, id, r.(attempts := r.attempts + 1, availableAt := now + Backoff(r.attempts + 1)));
        KeptTrans(db, e.db, MarkFailed(e.db, id, now));
        if e.Done? {
          MarkKept(e.db, id, r.(published := true, providerReference := Some(reply.value.reference)));
          KeptTrans(db, e.db, MarkPublished(e.db, id, reply.value.reference));
        }
      }
    }
  }

  lemma NextKept(cfg: Config, db: Db, step: Step)
    requires db.demos.Keys == db.log.Keys
    ensures Kept(db, Next(cfg, db, step))
  {
    hide Kept, RequestOrder, Publish, Handle, LogClash, Registered, SetOrder, Move, ApplySnapshot;
    KeptRefl(db);
    match step
    case Request(tenant, command, correlation, at) => RequestKept(cfg, db, tenant, command, correlation, at);
    case Deliver(row, reply, newId, at) => PublishKept(cfg, db, row, reply, newId, at);
    case Inbox(event, turn, newId, at) => HandleKept(cfg, db, event, turn, newId, at);
    case Reserve(tenant, o, at) =>
      if o in db.orders {
        SetOrderKept(db, o, db.orders[o].(status := Reconciling));
      }
    case ProviderFailed(o, next) =>
      if o in db.orders {
        SetOrderKept(db, o, db.orders[o].(status := ReconciliationRequired, reconcileAfter := Some(next)));
      }
    case ProviderAnswered(o, before, snapshot, next) => AnswerKept(db, o, before, snapshot, next);
    case OtherEdge(demo, command, after, key) =>
      if demo in db.demos {
        MoveKept(db, demo, command, after, key);
      }
  }

  lemma AnswerKept(db: Db, o: Uuid, before: OrderStatus, snapshot: Snapshot, next: int)
    ensures Kept(db, ApplySnapshot(db, o, before, snapshot, next))
  {
    hide Kept, SnapshotHash, Upper;
    KeptRefl(db);
    if o in db.orders && db.orders[o].providerId.Some? {
      var db1 := SetOrder(db, o, SnapshotOutcome(db.orders[o], snapshot, next).0);
      SetOrderKept(db, o, SnapshotOutcome(db.orders[o], snapshot, next).0);
      OtherTablesKept(db1, ApplySnapshot(db, o, before, snapshot, next));
      KeptTrans(db, db1, ApplySnapshot(db, o, before, snapshot, next));
    }
  }

  /** A whole run keeps them too. */
  lemma {:induction false} RunKept(cfg: Config, db: Db, steps: seq<Step>)
    requires Inv(cfg, db)
    ensures Inv(cfg, Exec(cfg, db, steps)) && Kept(db, Exec(cfg, db, steps))
  {
    hide Core, Kept, Next, StartedInv;
    if steps == [] {
      KeptRefl(db);
    } else {
      var middle := Exec(cfg, db, steps[..|steps| - 1]);
      RunKept(cfg, db, steps[..|steps| - 1]);
      SameDemos(cfg, middle);
      NextKept(cfg, middle, steps[|steps| - 1]);
      NextKeepsInv(cfg, middle, steps[|steps| - 1]);
      KeptTrans(db, middle, Exec(cfg, db, steps));
    }
  }

  lemma SameDemos(cfg: Config, db: Db)
    requires Inv(cfg, db)
    ensures db.demos.Keys == db.log.Keys
  {
  }
}
