/**
 Where a payment order comes from, and what becomes of its amount and its bindings.
 */
module SagaMoney {
  import opened Identifiers
  import opened Lifecycle
  import opened Monetary
  import opened PaymentVerification
  import opened Store
  import opened Handlers
  import opened Frames
  import opened SagaInvariant
  import opened SagaPreservation
  import opened SagaHistory
  import opened SagaTheorems

  // ---------------------------------------------------------------- orders that a step leaves alone

  /** The order is there as before and bound to the same provider order, or still not there. */
  predicate Untouched(a: Db, b: Db, x: Uuid) {
    if x in a.orders then x in b.orders && b.orders[x].providerId == a.orders[x].providerId else x !in b.orders
  }

  lemma SetOrderUntouched(db: Db, o: Uuid, order: Order, x: Uuid)
    requires o in db.orders && order.providerId == db.orders[o].providerId
    ensures Untouched(db, SetOrder(db, o, order), x)
  {
  }

  lemma PaidUntouched(db: Db, meta: Envelope, o: Uuid, paymentId: Text, activationKey: Text, outboxKey: Text, newId: Uuid, now: int, x: Uuid)
    requires o in db.orders && db.orders[o].providerId.Some?
    ensures
      var e := ApplyPaid(db, meta, o, paymentId, activationKey, outboxKey, newId, now);
      e.Done? ==> Untouched(db, e.db, x)
  {
    hide LogClash, OutboxClash, PaidClash, ParsePlan, VerifiedRow, SetOrder, Payable;
    var order := db.orders[o];
    SetOrderUntouched(db, o, order.(status := UnderReview), x);
    SetOrderUntouched(db, o, order.(status := Settled, paidAt := Some(meta.occurredAt), version := order.version + 1), x);
  }

  lemma CashfreeUntouched(cfg: Config, db: Db, meta: Envelope, b: CashfreeBody, newId: Uuid, now: int, x: Uuid)
    ensures
      var e := ProcessCashfree(cfg, db, meta, b, newId, now);
      e.Done? ==> Untouched(db, e.db, x)
  {
    hide EventClash, ParseWebhook, Mismatches, WebhookBinding, WebhookEvidence, MakeMoney, ApplyPaid, StatusAfter, SetOrder;
    var e := ProcessCashfree(cfg, db, meta, b, newId, now);
    if e.Done? {
      var w := ParseWebhook(b).value;
      var o := Pick(OrdersByDomainId(db, w.orderId)).value;
      var decision := Decide(cfg, db, meta, b, o, now).value;
      var attempt := Attempt(o, meta.id, w.status, b.amountMinor.value, w.currency, meta.occurredAt);
      var db1 := RecordAttempt(RecordEvent(db, FromCashfree, meta.id, CashfreePayload(b), Some(decision.kind)), w.paymentId, attempt);
      SetOrderUntouched(db1, o, db.orders[o].(status := StatusAfter(decision.kind, db.orders[o].status)), x);
      if decision.kind == TransitionPaid {
        PaidUntouched(db1, meta, o, w.paymentId, decision.activationKey.value, decision.outboxKey.value, newId, now, x);
      }
    }
  }

  lemma InboxUntouched(cfg: Config, db: Db, event: InboxEvent, turn: Turn, newId: Uuid, now: int, x: Uuid)
    ensures Untouched(db, HandleInbox(cfg, db, event, turn, newId, now), x)
  {
    hide ProcessCashfree, AcceptOnboarding, CompleteOnboarding, StartDemo, EventClash, Untouched;
    var after := HandleInbox(cfg, db, event, turn, newId, now);
    match event
    case CashfreeWebhook(meta, body) =>
      CashfreeUntouched(cfg, db, meta, body, newId, now, x);
      SameOrdersUntouched(db, db, x);
    case MetaWebhook(meta, payload) => SameOrdersUntouched(db, after, x);
    case OnboardingAccepted(meta, demo, user, onboarding) =>
      AcceptFrame(cfg, db, meta, demo, user, onboarding);
      SameOrdersUntouched(db, after, x);
    case OnboardingCompleted(meta, demo, user, onboarding) =>
      CompleteFrame(cfg, db, meta, demo, user, now);
      SameOrdersUntouched(db, after, x);
    case WhatsappHandoff(meta, sender, valid) =>
      TalkFrame(cfg, db, meta, sender, turn, now);
      SameOrdersUntouched(db, after, x);
    case UnsupportedEvent(_) => SameOrdersUntouched(db, db, x);
  }

  lemma SameOrdersUntouched(a: Db, b: Db, x: Uuid)
    requires b.orders == a.orders
    ensures Untouched(a, b, x)
  {
  }

  lemma ReconciliationUntouched(db: Db, o: Uuid, before: OrderStatus, s: Snapshot, next: int, x: Uuid)
    ensures Untouched(db, ApplySnapshot(db, o, before, s, next), x)
  {
    hide SnapshotHash, Upper, SetOrder;
    if o in db.orders && db.orders[o].providerId.Some? {
      SetOrderUntouched(db, o, SnapshotOutcome(db.orders[o], s, next).0, x);
    }
  }

  // ---------------------------------------------------------------- the two ways an order comes about

  /** The order repeats an eligible quote that is still open, and expires no later than it. */
  predicate CarriesQuote(cfg: Config, order: Order, q: Quote, now: int) {
    && order.amount == q.amount && order.currency == q.currency && order.user == q.user
    && order.plan == q.plan && order.planVersion == q.planVersion && order.customer == q.user
    && q.eligible && now < q.expiresAt && order.expiresAt <= q.expiresAt && order.expiresAt <= now + cfg.paymentExpiry
    && order.status == Creating && order.providerId == None
  }

  /** The order is for the demo, user, plan and purpose of the request that asked for the quote. */
  predicate AnswersRequest(x: Uuid, order: Order, p: Payload) {
    && p.QuotePayload? && x == PaymentOrderId(p.request) && order.creationKey == UuidText(p.request)
    && order.demo == p.demo && order.user == p.user && order.plan == p.plan && order.purpose == p.purpose
  }

  predicate Created(cfg: Config, a: Db, b: Db, x: Uuid, p: Payload, d: Details, now: int) {
    && x !in a.orders && x in b.orders && d.QuoteDetails?
    && CarriesQuote(cfg, b.orders[x], d.quote, now) && AnswersRequest(x, b.orders[x], p)
  }

  /**
   The delivered row is the order's own Cashfree request, and its acknowledgement, an active one,
   binds the order: it was unbound before, or bound to the same provider order.
   */
  predicate BoundNow(a: Db, b: Db, x: Uuid, id: Uuid, row: OutboxRow, p: Payload, reply: Reply) {
    && x.V5? && x == PaymentOrderId(x.space) && id == CashfreeEventId(x.space) && row.target == CASHFREE
    && p.CashfreeOrderPayload? && p.request == x.space && p.order == x
    && x in a.orders && x in b.orders && reply.details.AckDetails?
    && var ack := reply.details.ack;
    && (a.orders[x].providerId == None || a.orders[x].providerId == Some(ack.providerId))
    && b.orders[x].providerId == Some(ack.providerId) && ack.providerId == reply.reference
    && Upper(ack.status) == "ACTIVE" && b.orders[x].status == Pending
    && x in b.checkouts && b.checkouts[x].secret == ack.secret && b.checkouts[x].expiresAt == a.orders[x].expiresAt
  }

  lemma QuoteCreates(cfg: Config, db: Db, id: Uuid, row: OutboxRow, p: Payload, d: Details, now: int, x: Uuid)
    ensures
      var e := RecordQuote(cfg, db, id, row, p, d, now);
      !e.Violation? ==> Untouched(db, e.db, x) || Created(cfg, db, e.db, x, p, d, now)
  {
    hide LogClash, OutboxClash, OrdersByCreationKey, NumericPlan, E164, ValidQuote, MatchesExisting, CashfreeRow, Move, SetOrder, OrderClash;
    var e := RecordQuote(cfg, db, id, row, p, d, now);
    if e.Done? && e.db != db {
      var order := NewOrder(cfg, row, p, d.quote, now);
      var db2 := AddOutbox(SetOrder(db, PaymentOrderId(p.request), order), CashfreeEventId(p.request), CashfreeRow(p, order, now));
      SetOne(db, PaymentOrderId(p.request), order, x);
      MoveFrame(db2, p.demo, REQUEST_PAYMENT, PAYMENT_PENDING, RequestLogKey(p.request));
      UnclashedOrder(db, PaymentOrderId(p.request), order);
      assert e.db.orders == SetOrder(db, PaymentOrderId(p.request), order).orders;
    }
  }

  lemma UnclashedOrder(db: Db, o: Uuid, order: Order)
    requires !OrderClash(db, o, order)
    ensures o !in db.orders
  {
  }

  lemma AcknowledgementBinds(db: Db, id: Uuid, row: OutboxRow, p: Payload, reply: Reply, now: int, x: Uuid)
    ensures
      var e := RecordCashfree(db, id, row, p, reply.reference, reply.details, now);
      !e.Violation? ==> Untouched(db, e.db, x) || (e.Done? && BoundNow(db, e.db, x, id, row, p, reply))
  {
    hide E164, IsoCurrency, ProviderOrderClash, Upper, SetOrder;
    var d := reply.details;
    var e := RecordCashfree(db, id, row, p, reply.reference, d, now);
    if !e.Violation? && e.db != db {
      var order := db.orders[p.order];
      SetOrderUntouched(db, p.order, order.(status := UnderReview), x);
      if e.Done? {
        var db1 := SetOrder(db, p.order, BoundOrder(order, d.ack.providerId, now));
        SetOne(db, p.order, BoundOrder(order, d.ack.providerId, now), x);
        var db2 := db1.(checkouts := db1.checkouts[p.order := Checkout(d.ack.secret, order.expiresAt)]);
        assert e.db == MarkReady(db2, row.tenant, UuidText(p.request), d.ack.providerId);
        assert e.db.orders == db1.orders && e.db.checkouts == db2.checkouts;
      }
    }
  }

  lemma SetOne(db: Db, o: Uuid, order: Order, x: Uuid)
    ensures SetOrder(db, o, order).checkouts == db.checkouts && SetOrder(db, o, order).demos == db.demos
    ensures x == o ==> x in SetOrder(db, o, order).orders && SetOrder(db, o, order).orders[x] == order
    ensures x != o ==> Untouched(db, SetOrder(db, o, order), x)
  {
  }

  lemma RecordedOrders(cfg: Config, db: Db, id: Uuid, row: OutboxRow, p: Payload, reply: Reply, newId: Uuid, now: int, x: Uuid)
    ensures
      var e := Record(cfg, db, id, row, p, reply, newId, now);
      !e.Violation? ==>
        Untouched(db, e.db, x) || Created(cfg, db, e.db, x, p, reply.details, now) || (e.Done? && BoundNow(db, e.db, x, id, row, p, reply))
  {
    hide Created, BoundNow, RecordQuote, RecordCashfree, QueueOnboarding, RecordAcceptance;
    QuoteCreates(cfg, db, id, row, p, reply.details, now, x);
    AcknowledgementBinds(db, id, row, p, reply, now, x);
    QueueFrame(db, row, p, reply.reference, newId, now);
    AcceptanceFrame(db, row, reply.reference);
  }

  /** What a delivery may do to an order: leave it, create it from its quote request, or bind it. */
  predicate DeliveredOrder(cfg: Config, a: Db, b: Db, id: Uuid, reply: Option<Reply>, x: Uuid, now: int) {
    Untouched(a, b, x)
    || (reply.Some? && id in a.outbox
        && (Created(cfg, a, b, x, a.outbox[id].cipher.plain, reply.value.details, now) ||
            BoundNow(a, b, x, id, a.outbox[id], a.outbox[id].cipher.plain, reply.value)))
  }

  lemma PublishedOrders(cfg: Config, db: Db, id: Uuid, reply: Option<Reply>, newId: Uuid, now: int, x: Uuid)
    ensures DeliveredOrder(cfg, db, Publish(cfg, db, id, reply, newId, now), id, reply, x, now)
  {
    hide CarriesQuote, AnswersRequest, Record, MarkPublished, MarkFailed, Upper;
    if Eligible(cfg, db, id, now) {
      var p := Open(db.outbox[id], id);
      if p.Some? && reply.Some? {
        RecordedOrders(cfg, db, id, db.outbox[id], p.value, reply.value, newId, now, x);
      }
      var e := PublishEffect(cfg, db, id, reply, newId, now);
      if !e.Violation? && id in e.db.outbox {
        MarksFrame(e.db, id, if reply.Some? then reply.value.reference else Str(""), now);
      }
    }
  }

  lemma OtherStepUntouched(cfg: Config, db: Db, step: Step, x: Uuid)
    requires !step.Deliver?
    ensures Untouched(db, Next(cfg, db, step), x)
  {
    hide Publish, HandleInbox, RequestOrder, ApplySnapshot, TakeEdge, SetOrder;
    match step
    case Request(tenant, command, correlation, at) => RequestFrame(cfg, db, tenant, command, correlation, at);
    case Inbox(event, turn, newId, at) => InboxUntouched(cfg, db, event, turn, newId, at, x);
    case Reserve(_, o, _) =>
      if o in db.orders { SetOrderUntouched(db, o, db.orders[o].(status := Reconciling), x); }
    case ProviderFailed(o, next) =>
      if o in db.orders {
        SetOrderUntouched(db, o, db.orders[o].(status := ReconciliationRequired, reconcileAfter := Some(next)), x);
      }
    case ProviderAnswered(o, before, snapshot, next) => ReconciliationUntouched(db, o, before, snapshot, next, x);
    case OtherEdge(demo, command, after, key) => EdgeFrame(db, demo, command, after, key);
  }

  /** Only a delivered quote, eligible and unexpired, creates an order: it repeats the quote and its request. */
  lemma NewOrderCarriesQuote(cfg: Config, db: Db, step: Step, o: Uuid)
    requires o !in db.orders && o in Next(cfg, db, step).orders
    ensures step.Deliver? && step.reply.Some? && step.reply.value.details.QuoteDetails? && step.row in db.outbox
    ensures CarriesQuote(cfg, Next(cfg, db, step).orders[o], step.reply.value.details.quote, step.at)
    ensures AnswersRequest(o, Next(cfg, db, step).orders[o], db.outbox[step.row].cipher.plain)
  {
    hide CarriesQuote, AnswersRequest, Publish, Next, Upper;
    if step.Deliver? {
      DeliveredOrders(cfg, db, step, o);
    } else {
      OtherStepUntouched(cfg, db, step, o);
    }
  }

  /** An order is bound to a provider order by an active acknowledgement of its own request, and once. */
  lemma OnlyActiveAcknowledgementBinds(cfg: Config, db: Db, step: Step, o: Uuid)
    requires o in db.orders && o in Next(cfg, db, step).orders
    requires Next(cfg, db, step).orders[o].providerId != db.orders[o].providerId
    ensures step.Deliver? && step.reply.Some? && db.orders[o].providerId == None
    ensures o.V5? && step.row == CashfreeEventId(o.space) && step.row in db.outbox
    ensures BoundNow(db, Next(cfg, db, step), o, step.row, db.outbox[step.row], db.outbox[step.row].cipher.plain, step.reply.value)
  {
    hide CarriesQuote, Publish, Next, Upper;
    if step.Deliver? {
      DeliveredOrders(cfg, db, step, o);
    } else {
      OtherStepUntouched(cfg, db, step, o);
    }
  }

  lemma DeliveredOrders(cfg: Config, db: Db, step: Step, x: Uuid)
    requires step.Deliver?
    ensures DeliveredOrder(cfg, db, Next(cfg, db, step), step.row, step.reply, x, step.at)
  {
    hide Publish, DeliveredOrder;
    PublishedOrders(cfg, db, step.row, step.reply, step.newId, step.at, x);
  }

  // ---------------------------------------------------------------- money, end to end

  /** What a database records about a paid order. */
  ghost predicate AllAmountsAre(db: Db, o: Uuid, amount: int, currency: string)
    requires o in db.orders && o in db.paid && o.V5? && CashfreeEventId(o.space) in db.outbox
    requires db.outbox[CashfreeEventId(o.space)].cipher.plain.CashfreeOrderPayload?
    requires PaidEventId(o) in db.outbox && db.outbox[PaidEventId(o)].cipher.plain.VerifiedPayload?
    requires db.paid[o].paymentId in db.attempts
  {
    var asked, told := db.outbox[CashfreeEventId(o.space)].cipher.plain, db.outbox[PaidEventId(o)].cipher.plain;
    var attempt := db.attempts[db.paid[o].paymentId];
    && db.orders[o].amount == amount && db.orders[o].currency == currency
    && asked.amount == amount && asked.currency == currency
    && attempt.amount == amount && attempt.currency == currency
    && db.paid[o].amount == amount && db.paid[o].currency == currency
    && told.amount == amount && told.currency == currency
  }

  ghost predicate PaidTrail(db: Db, o: Uuid) {
    && o in db.orders && o in db.paid && o.V5? && CashfreeEventId(o.space) in db.outbox
    && db.outbox[CashfreeEventId(o.space)].cipher.plain.CashfreeOrderPayload?
    && PaidEventId(o) in db.outbox && db.outbox[PaidEventId(o)].cipher.plain.VerifiedPayload?
    && db.paid[o].paymentId in db.attempts
  }

  /** The Cashfree request and the activation are the order's own: request, demo, user, plan and provider order. */
  ghost predicate TrailIsOrders(db: Db, o: Uuid)
    requires PaidTrail(db, o)
  {
    var order, paid := db.orders[o], db.paid[o];
    var asked, told := db.outbox[CashfreeEventId(o.space)].cipher.plain, db.outbox[PaidEventId(o)].cipher.plain;
    && asked.request == o.space && asked.order == o && asked.reference == order.domainId && asked.customer == order.customer
    && told.user == order.user && told.demo == order.demo && told.planVersion == order.planVersion
    && Some(told.planId) == ParsePlan(order.plan) && Some(told.providerOrder) == order.providerId
    && told.evidence == paid.paymentId && told.activationKey == paid.activationKey
  }

  lemma PaidTrailAmounts(cfg: Config, db: Db, o: Uuid)
    requires Inv(cfg, db) && o in db.paid
    ensures PaidTrail(db, o) && AllAmountsAre(db, o, db.orders[o].amount, db.orders[o].currency) && TrailIsOrders(db, o)
  {
    hide Inv, ValidCashfreePayload;
    PaidFacts(cfg, db, o);
    OrderFacts(cfg, db, o);
    OrderHasCashfreeRow(cfg, db, o);
    CashfreeRowFacts(cfg, db, CashfreeEventId(o.space));
    CashfreeRowRequest(cfg, db, CashfreeEventId(o.space));
  }

  lemma CashfreeRowRequest(cfg: Config, db: Db, id: Uuid)
    requires Inv(cfg, db) && id in db.outbox && db.outbox[id].cipher.plain.CashfreeOrderPayload?
    ensures id == CashfreeEventId(db.outbox[id].cipher.plain.request)
  {
    hide LogInv, OrdersInv, CashfreeInv, PaidInv, SettledInv, HandoffInv, EvidenceInv, CountInv, RequestsInv, StartedInv;
  }

  /**
   The amount the website quoted is the amount of the order, of the Cashfree request, of the
   payment evidence, of the paid transition and of the activation, whatever happens in between;
   user, plan and demo stay those of the quote and of the request it answered, and the provider
   order activated is the one the order was bound to.
   */
  lemma MoneyEndToEnd(cfg: Config, before: seq<Step>, step: Step, later: seq<Step>, o: Uuid)
    requires o !in Exec(cfg, EMPTY, before).orders
    requires o in Next(cfg, Exec(cfg, EMPTY, before), step).orders
    requires o in Exec(cfg, Next(cfg, Exec(cfg, EMPTY, before), step), later).paid
    ensures step.Deliver? && step.reply.Some? && step.reply.value.details.QuoteDetails?
    ensures step.row in Exec(cfg, EMPTY, before).outbox
    ensures
      var db, q := Exec(cfg, Next(cfg, Exec(cfg, EMPTY, before), step), later), step.reply.value.details.quote;
      var p := Exec(cfg, EMPTY, before).outbox[step.row].cipher.plain;
      && PaidTrail(db, o) && AllAmountsAre(db, o, q.amount, q.currency) && TrailIsOrders(db, o)
      && AnswersRequest(o, db.orders[o], p)
      && db.orders[o].user == q.user && db.orders[o].plan == q.plan && db.orders[o].planVersion == q.planVersion
      && db.outbox[CashfreeEventId(o.space)].cipher.plain.request == p.request
      && db.outbox[PaidEventId(o)].cipher.plain.demo == p.demo
      && db.outbox[PaidEventId(o)].cipher.plain.user == q.user == p.user
      && Some(db.outbox[PaidEventId(o)].cipher.plain.planId) == ParsePlan(q.plan)
      && db.outbox[PaidEventId(o)].cipher.plain.planVersion == q.planVersion
      && Some(db.outbox[PaidEventId(o)].cipher.plain.providerOrder) == db.orders[o].providerId
  {
    hide Inv, Next, ParsePlan;
    var db0 := Exec(cfg, EMPTY, before);
    var db1 := Next(cfg, db0, step);
    var db := Exec(cfg, db1, later);
    ReachableInv(cfg, before);
    NextKeepsInv(cfg, db0, step);
    NewOrderCarriesQuote(cfg, db0, step, o);
    RunKept(cfg, db1, later);
    PaidTrailAmounts(cfg, db, o);
    assert SameOrder(db1.orders[o], db.orders[o]);
  }

  /** Every handoff was announced for its own paid order: demo, user, plan, payment and correlation agree. */
  lemma HandoffCarriesOrder(cfg: Config, steps: seq<Step>, o: Uuid)
    requires o in Exec(cfg, EMPTY, steps).handoffs
    ensures
      var db := Exec(cfg, EMPTY, steps);
      && o in db.paid && o in db.orders && db.handoffs[o].paidId == db.paid[o].id
      && OnboardingEventId(db.paid[o].id) in db.outbox
      && OnboardingRowFor(db.orders[o], db.paid[o], db.outbox[OnboardingEventId(db.paid[o].id)])
  {
    hide Inv, Next, OnboardingRowFor;
    ReachableInv(cfg, steps);
    HandoffFacts(cfg, Exec(cfg, EMPTY, steps), o);
  }

  /** Once an order exists its bound fields stay, and its provider's id is written once. */
  lemma OrderBindingsAreFixed(cfg: Config, steps: seq<Step>, later: seq<Step>, o: Uuid)
    requires o in Exec(cfg, EMPTY, steps).orders
    ensures
      var a, b := Exec(cfg, EMPTY, steps), Exec(cfg, Exec(cfg, EMPTY, steps), later);
      && o in b.orders
      && SameOrder(a.orders[o], b.orders[o])
      && (o in a.paid ==> o in b.paid && b.paid[o] == a.paid[o])
  {
    hide Inv, Next;
    ReachableInv(cfg, steps);
    RunKept(cfg, Exec(cfg, EMPTY, steps), later);
  }
}
