/**
 The service's database as an object: every handler changes its tables step by step, in one
 session, and leaves what its specification function says.
 */
module Database {
  import opened Identifiers
  import opened Lifecycle
  import opened Monetary
  import opened PaymentVerification
  import opened Store
  import opened Handlers
  import opened Frames
  import opened SagaInvariant
  import opened SagaPreservation
  import opened SagaOrderFree
  import opened SnapshotOutcomes
  import opened OutboxHistory
  import opened DeliveryOutcomes

  /** How a handler leaves its session: finished, raised, or with a row the flush refuses. */
  datatype Outcome = Finished | Threw | KeyClash

  /** The session is left as the effect says; after a refused flush its content does not matter. */
  predicate Leaves(outcome: Outcome, db: Db, effect: Effect) {
    match outcome
    case Finished => effect == Done(db)
    case Threw => effect == Raised(db)
    case KeyClash => effect == Violation
  }

  // ---------------------------------------------------------------- rows that a query finds alone

  lemma PickOnly(matches: set<Uuid>, o: Uuid)
    requires o in matches && forall x :: x in matches ==> x == o
    ensures Pick(matches) == Some(o)
  {
  }

  lemma OneByCreationKey(cfg: Config, db: Db, tenant: Text, key: Text, o: Uuid)
    requires Inv(cfg, db) && o in OrdersByCreationKey(db, tenant, key)
    ensures Pick(OrdersByCreationKey(db, tenant, key)) == Some(o)
  {
    hide Inv, NumericPlan, IsoCurrency;
    forall x | x in OrdersByCreationKey(db, tenant, key) ensures x == o {
      OrderFacts(cfg, db, x);
      OrderFacts(cfg, db, o);
    }
    PickOnly(OrdersByCreationKey(db, tenant, key), o);
  }

  lemma OneByProviderId(cfg: Config, db: Db, tenant: Text, providerId: Text, demo: Uuid, o: Uuid)
    requires Inv(cfg, db) && o in OrdersByProviderId(db, tenant, providerId, demo)
    ensures Pick(OrdersByProviderId(db, tenant, providerId, demo)) == Some(o)
  {
    hide LogInv, RowsInv, CashfreeInv, PaidInv, SettledInv, HandoffInv, EvidenceInv, CountInv, RequestsInv, StartedInv, OrderOk;
    PickOnly(OrdersByProviderId(db, tenant, providerId, demo), o);
  }

  lemma PaidIdsDiffer(cfg: Config, db: Db, a: Uuid, b: Uuid)
    requires Inv(cfg, db) && a in db.paid && b in db.paid && db.paid[a].id == db.paid[b].id
    ensures a == b
  {
    hide LogInv, OrdersInv, RowsInv, CashfreeInv, SettledInv, HandoffInv, EvidenceInv, CountInv, RequestsInv, StartedInv, PaidOk;
  }

  lemma OneByHandoffKey(cfg: Config, db: Db, tenant: Text, key: Text, o: Uuid)
    requires Inv(cfg, db) && o in HandoffsByKey(db, tenant, key)
    ensures Pick(HandoffsByKey(db, tenant, key)) == Some(o)
  {
    hide Inv;
    forall x | x in HandoffsByKey(db, tenant, key) ensures x == o {
      HandoffFacts(cfg, db, x);
      HandoffFacts(cfg, db, o);
      PaidIdsDiffer(cfg, db, x, o);
    }
    PickOnly(HandoffsByKey(db, tenant, key), o);
  }

  lemma OneOfUser(db: Db, tenant: Text, demo: Uuid, user: Text, matches: set<Uuid>, o: Uuid)
    requires matches == OrdersOfUser(db, tenant, demo, user) && |matches| == 1 && o in matches
    ensures OnboardingContext(db, tenant, demo, user)
      == if o in db.paid && o in db.handoffs && demo in db.demos then Some(o) else None
  {
    forall x | x in matches ensures x == o {
      assert |matches - {o}| == 0;
      assert x !in matches - {o};
    }
  }

  class Database {
    const cfg: Config
    var demos: map<Uuid, Demo>
    var log: map<Uuid, seq<LogEntry>>
    var conversations: map<(Text, Text), Conversation>
    var orders: map<Uuid, Order>
    var checkouts: map<Uuid, Checkout>
    var requests: map<(Text, Text), ProviderRequest>
    var outbox: map<Uuid, OutboxRow>
    var events: map<(Source, Uuid), ProviderEvent>
    var attempts: map<Text, Attempt>
    var paid: map<Uuid, Paid>
    var handoffs: map<Uuid, Handoff>
    var messages: map<Uuid, Message>
    var reconciliations: map<(Uuid, Text), Reconciliation>

    function Snapshot(): Db
      reads this
    {
      Db(demos, log, conversations, orders, checkouts, requests, outbox, events, attempts, paid,
         handoffs, messages, reconciliations)
    }

    ghost predicate Valid()
      reads this
    {
      Inv(cfg, Snapshot())
    }

    constructor (cfg: Config)
      ensures this.cfg == cfg && Snapshot() == EMPTY && Valid()
    {
      this.cfg := cfg;
      demos, log, conversations, orders, checkouts := map[], map[], map[], map[], map[];
      requests, outbox, events, attempts, paid := map[], map[], map[], map[], map[];
      handoffs, messages, reconciliations := map[], map[], map[];
      new;
      EmptyInv(cfg);
    }

    method RestoreDemos(saved: Db)
      modifies this`demos, this`log, this`conversations, this`outbox, this`events, this`messages
      ensures demos == saved.demos && log == saved.log && conversations == saved.conversations
      ensures outbox == saved.outbox && events == saved.events && messages == saved.messages
    {
      demos, log, conversations := saved.demos, saved.log, saved.conversations;
      outbox, events, messages := saved.outbox, saved.events, saved.messages;
    }

    method RestorePayments(saved: Db)
      modifies this`orders, this`checkouts, this`requests, this`attempts, this`paid, this`handoffs, this`reconciliations
      ensures orders == saved.orders && checkouts == saved.checkouts && requests == saved.requests
      ensures attempts == saved.attempts && paid == saved.paid && handoffs == saved.handoffs
      ensures reconciliations == saved.reconciliations
    {
      orders, checkouts, requests := saved.orders, saved.checkouts, saved.requests;
      attempts, paid, handoffs, reconciliations := saved.attempts, saved.paid, saved.handoffs, saved.reconciliations;
    }

    /** Takes every table back to an earlier state. */
    method Rollback(saved: Db)
      modifies this
      ensures Snapshot() == saved
    {
      RestoreDemos(saved);
      RestorePayments(saved);
    }

    method PutOrder(o: Uuid, order: Order)
      modifies this`orders
      ensures Snapshot() == SetOrder(old(Snapshot()), o, order)
    {
      orders := orders[o := order];
    }

    method PutHandoff(o: Uuid, h: Handoff)
      modifies this`handoffs
      ensures Snapshot() == SetHandoff(old(Snapshot()), o, h)
    {
      handoffs := handoffs[o := h];
    }

    method PutOutbox(id: Uuid, row: OutboxRow)
      modifies this`outbox
      ensures Snapshot() == AddOutbox(old(Snapshot()), id, row)
    {
      outbox := outbox[id := row];
    }

    /** Sets a demo's state, counts its version up and appends the log row. */
    method MoveDemo(demo: Uuid, command: Command, after: DemoState, key: Text)
      requires demo in demos
      modifies this`demos, this`log
      ensures Snapshot() == Move(old(Snapshot()), demo, command, after, key)
    {
      var d := demos[demo];
      var before := d.state;
      demos := demos[demo := d.(state := after, version := d.version + 1)];
      var run := if demo in log then log[demo] else [];
      log := log[demo := run + [LogEntry(before, command, after, key)]];
    }

    // -------------------------------------------------------------- asking for a payment order

    method RequestPayment(tenant: Text, c: OrderCommand, correlation: Text, now: int) returns (answer: Answer)
      requires Valid()
      modifies this`requests, this`outbox
      ensures (answer, Snapshot()) == RequestOrder(cfg, old(Snapshot()), tenant, c, correlation, now)
      ensures Valid()
    {
      hide Inv, HasActiveOrder, HasActiveRequest, OutboxClash;
      RequestKeepsInv(cfg, Snapshot(), tenant, c, correlation, now);
      var key := UuidText(c.request);
      if !cfg.hashingConfigured {
        return NotConfigured;
      }
      if (tenant, key) in requests {
        return if requests[(tenant, key)].hash == c then Replayed else KeyReused;
      }
      if c.demo !in demos || demos[c.demo].tenant != tenant {
        return NoSuchDemo;
      }
      if demos[c.demo].user != Some(c.user) {
        return UserMismatch;
      }
      if HasActiveOrder(Snapshot(), tenant, c.demo) {
        return ActiveOrder;
      }
      if demos[c.demo].state != CONVERSION_FOLLOW_UP {
        return WrongState;
      }
      if HasActiveRequest(Snapshot(), tenant, c.demo) {
        return ActiveRequest;
      }
      if OutboxClash(Snapshot(), c.request, tenant, key) {
        return Collided;
      }
      requests := requests[(tenant, key) := ProviderRequest(c, UuidText(c.demo), Queued, correlation)];
      var p := QuotePayload(c.request, c.demo, c.user, c.plan, c.phone, DEMO_CONVERSION, correlation);
      outbox := outbox[c.request := NewRow(c.request, tenant, WEBSITE, key, correlation, p, now)];
      return QuotePending;
    }

    // -------------------------------------------------------------- recorders of the publisher

    /** Stores the order, queues its Cashfree request, moves the demo and marks the request. */
    method AddOrder(row: OutboxRow, p: Payload, order: Order, q: Quote, now: int)
      requires p.QuotePayload? && p.demo in demos
      modifies this`demos, this`log, this`orders, this`requests, this`outbox
      ensures Snapshot() == OrderedDb(old(Snapshot()), row, p, order, q, now)
    {
      hide CashfreeRow, Move;
      PutOrder(PaymentOrderId(p.request), order);
      PutOutbox(CashfreeEventId(p.request), CashfreeRow(p, order, now));
      MoveDemo(p.demo, REQUEST_PAYMENT, PAYMENT_PENDING, RequestLogKey(p.request));
      if (row.tenant, row.key) in requests {
        var r := requests[(row.tenant, row.key)];
        requests := requests[(row.tenant, row.key) := r.(status := QuoteVerified, reference := q.planVersion)];
      }
    }

    method RecordVerifiedQuote(id: Uuid, row: OutboxRow, p: Payload, d: Details, now: int) returns (out: Outcome)
      requires Valid()
      modifies this`demos, this`log, this`orders, this`requests, this`outbox
      ensures Leaves(out, Snapshot(), RecordQuote(cfg, old(Snapshot()), id, row, p, d, now))
    {
      hide Inv, ValidQuote, QuoteBound, MatchesExisting, OrderClash, OutboxClash, LogClash, NewOrder, CashfreeRow, NumericPlan, E164, OrderedDb;
      if !ValidQuotePayload(p) || !d.QuoteDetails? || !ValidQuote(d.quote) || !QuoteBound(id, row, p, d.quote)
         || d.quote.expiresAt <= now {
        return Threw;
      }
      if o :| o in orders && orders[o].tenant == row.tenant && orders[o].creationKey == row.key {
        OneByCreationKey(cfg, Snapshot(), row.tenant, row.key, o);
        return if MatchesExisting(orders[o], p, d.quote) then Finished else Threw;
      }
      assert OrdersByCreationKey(Snapshot(), row.tenant, row.key) == {};
      if p.demo !in demos || demos[p.demo].tenant != row.tenant || demos[p.demo].user != Some(p.user)
         || demos[p.demo].state != CONVERSION_FOLLOW_UP {
        return Threw;
      }
      var before, order := Snapshot(), NewOrder(cfg, row, p, d.quote, now);
      var o, cashfreeId := PaymentOrderId(p.request), CashfreeEventId(p.request);
      AddOrder(row, p, order, d.quote, now);
      if OrderClash(before, o, order) || OutboxClash(before, cashfreeId, row.tenant, UuidText(cashfreeId))
         || LogClash(before, p.demo, RequestLogKey(p.request)) {
        return KeyClash;
      }
      return Finished;
    }

    /** Writes the provider's id and the checkout session, and marks the request ready. */
    method BindOrder(tenant: Text, p: Payload, a: Acknowledgement, now: int)
      requires p.CashfreeOrderPayload? && p.order in orders
      modifies this`orders, this`checkouts, this`requests
      ensures
        var db1 := SetOrder(old(Snapshot()), p.order, BoundOrder(old(orders)[p.order], a.providerId, now));
        var db2 := db1.(checkouts := db1.checkouts[p.order := Checkout(a.secret, old(orders)[p.order].expiresAt)]);
        Snapshot() == MarkReady(db2, tenant, UuidText(p.request), a.providerId)
    {
      var order := orders[p.order];
      orders := orders[p.order := order.(providerId := Some(a.providerId), status := Pending,
                                         reconcileAfter := Some(now), version := order.version + 1)];
      checkouts := checkouts[p.order := Checkout(a.secret, order.expiresAt)];
      var key := (tenant, UuidText(p.request));
      if key in requests {
        requests := requests[key := requests[key].(status := Ready, reference := a.providerId)];
      }
    }

    method RecordProviderOrder(id: Uuid, row: OutboxRow, p: Payload, reference: Text, d: Details, now: int) returns (out: Outcome)
      modifies this`orders, this`checkouts, this`requests
      ensures Leaves(out, Snapshot(), RecordCashfree(old(Snapshot()), id, row, p, reference, d, now))
    {
      hide E164, IsoCurrency, CashfreeBound, ProviderOrderClash, Upper, LocallyBound;
      if !ValidCashfreePayload(p) || !d.AckDetails? || !ValidAck(d.ack) || !CashfreeBound(id, row, p, reference, d.ack)
         || !LocallyBound(Snapshot(), row.tenant, p) {
        return Threw;
      }
      BoundIsStored(Snapshot(), row.tenant, p);
      var before, order := Snapshot(), orders[p.order];
      if Upper(d.ack.status) != "ACTIVE" {
        orders := orders[p.order := order.(status := UnderReview)];
        return Threw;
      }
      if order.providerId != None && order.providerId != Some(d.ack.providerId) {
        return Threw;
      }
      BindOrder(row.tenant, p, d.ack, now);
      return if ProviderOrderClash(before, p.order, d.ack.providerId) then KeyClash else Finished;
    }

    method QueueHandoff(row: OutboxRow, p: Payload, activation: Text, newId: Uuid, now: int) returns (out: Outcome)
      requires Valid()
      modifies this`handoffs, this`outbox
      ensures Leaves(out, Snapshot(), QueueOnboarding(old(Snapshot()), row, p, activation, newId, now))
    {
      hide Inv, HandoffQueued, HandoffClash, OutboxClash, OnboardingRow;
      if !p.VerifiedPayload? || p.providerOrder == Str("") || p.evidence == Str("") {
        return Threw;
      }
      if o :| o in orders && orders[o].tenant == row.tenant && orders[o].providerId == Some(p.providerOrder)
              && orders[o].demo == p.demo {
        OneByProviderId(cfg, Snapshot(), row.tenant, p.providerOrder, p.demo, o);
        if o !in paid {
          return Threw;
        }
        var key, id := OnboardingKey(paid[o].id), OnboardingEventId(paid[o].id);
        if HandoffQueued(Snapshot(), row.tenant, key) {
          return Finished;
        }
        if p.demo !in demos || demos[p.demo].state != PAID {
          return Threw;
        }
        var before, handoff := Snapshot(), Handoff(newId, row.tenant, paid[o].id, key, HandoffPending, None, 0, None);
        PutHandoff(o, handoff);
        PutOutbox(id, OnboardingRow(before, row.tenant, o, row.correlation, p, activation, now));
        return if HandoffClash(before, o, handoff) || OutboxClash(before, id, row.tenant, key) then KeyClash else Finished;
      }
      assert OrdersByProviderId(Snapshot(), row.tenant, p.providerOrder, p.demo) == {};
      return Threw;
    }

    method RecordHandoffAcceptance(row: OutboxRow, reference: Text) returns (out: Outcome)
      requires Valid()
      modifies this`handoffs, this`demos, this`log
      ensures Leaves(out, Snapshot(), RecordAcceptance(old(Snapshot()), row, reference))
    {
      hide Inv, LogClash, Move;
      if o :| o in handoffs && handoffs[o].tenant == row.tenant && handoffs[o].key == row.key {
        OneByHandoffKey(cfg, Snapshot(), row.tenant, row.key, o);
        if o !in paid || o !in orders || orders[o].demo !in demos {
          return Threw;
        }
        var h, demo, before := handoffs[o], orders[o].demo, Snapshot();
        handoffs := handoffs[o := h.(status := HandoffAccepted, acknowledgement := Some(reference), attempts := h.attempts + 1)];
        if demos[demo].state == ONBOARDING_HANDOFF {
          return Finished;
        }
        if demos[demo].state != PAID {
          return Threw;
        }
        MoveDemo(demo, HANDOFF_ONBOARDING, ONBOARDING_HANDOFF, AcceptedLogKey(h.id));
        return if LogClash(before, demo, AcceptedLogKey(h.id)) then KeyClash else Finished;
      }
      assert HandoffsByKey(Snapshot(), row.tenant, row.key) == {};
      return Threw;
    }

    // -------------------------------------------------------------- onboarding events

    /** The one order of the user on the demo, with its paid transition and its handoff. */
    method LoadOnboardingContext(tenant: Text, demo: Uuid, user: Text) returns (c: Option<Uuid>)
      ensures c == OnboardingContext(Snapshot(), tenant, demo, user)
    {
      var matches := set o | o in orders && orders[o].tenant == tenant && orders[o].demo == demo && orders[o].user == user;
      if |matches| != 1 {
        return None;
      }
      var o :| o in matches;
      OneOfUser(Snapshot(), tenant, demo, user, matches, o);
      return if o in paid && o in handoffs && demo in demos then Some(o) else None;
    }

    method HandleAccepted(meta: Envelope, demo: Uuid, user: Text, onboarding: Text) returns (out: Outcome)
      modifies this`handoffs, this`demos, this`log
      ensures Leaves(out, Snapshot(), AcceptOnboarding(cfg, old(Snapshot()), meta, demo, user, onboarding))
    {
      hide LogClash, OnboardingContext, Move;
      ContextFacts(Snapshot(), meta.tenant, demo, user);
      if !cfg.onboardingConfigured {
        return Threw;
      }
      var before := Snapshot();
      var c := LoadOnboardingContext(meta.tenant, demo, user);
      if c.None? {
        return Threw;
      }
      var o := c.value;
      var accepted := handoffs[o].(status := HandoffAccepted, acknowledgement := Some(onboarding));
      PutHandoff(o, accepted);
      if demos[demo].state == ONBOARDING_HANDOFF {
        return Finished;
      }
      if demos[demo].state != PAID || orders[o].status != Settled {
        return Threw;
      }
      MoveDemo(demo, HANDOFF_ONBOARDING, ONBOARDING_HANDOFF, meta.key);
      return if LogClash(before, demo, meta.key) then KeyClash else Finished;
    }

    /** Closes the handoff, converts the demo and queues the welcome message. */
    method Convert(meta: Envelope, o: Uuid, demo: Uuid, now: int)
      requires o in handoffs && demo in demos
      modifies this`handoffs, this`messages, this`demos, this`log, this`outbox
      ensures Snapshot() == ConvertedDb(old(Snapshot()), meta, o, demo, now)
    {
      hide WelcomeRow, Move;
      var h := handoffs[o];
      PutHandoff(o, h.(status := HandoffCompleted, welcome := Some(WelcomeMessageId(h.id))));
      messages := messages[WelcomeMessageId(h.id) := Message(meta.tenant, WelcomeKey(h.id), demo)];
      var recipient := demos[demo].conversation;
      MoveDemo(demo, COMPLETE_ONBOARDING, CONVERTED, meta.key);
      PutOutbox(WelcomeEventId(h.id), WelcomeRow(meta, demo, recipient, h.id, now));
    }

    method HandleCompleted(meta: Envelope, demo: Uuid, user: Text, now: int) returns (out: Outcome)
      modifies this`handoffs, this`messages, this`demos, this`log, this`outbox
      ensures Leaves(out, Snapshot(), CompleteOnboarding(cfg, old(Snapshot()), meta, demo, user, now))
    {
      hide LogClash, OutboxClash, MessageClash, OnboardingContext, ConvertedDb;
      ContextFacts(Snapshot(), meta.tenant, demo, user);
      if !cfg.welcomeConfigured {
        return Threw;
      }
      var before := Snapshot();
      var c := LoadOnboardingContext(meta.tenant, demo, user);
      if c.None? {
        return Threw;
      }
      var h := handoffs[c.value];
      if h.status == HandoffCompleted && demos[demo].state == CONVERTED {
        return Finished;
      }
      if h.status != HandoffAccepted || demos[demo].state != ONBOARDING_HANDOFF {
        return Threw;
      }
      Convert(meta, c.value, demo, now);
      if MessageClash(before, WelcomeMessageId(h.id), meta.tenant, WelcomeKey(h.id))
         || OutboxClash(before, WelcomeEventId(h.id), meta.tenant, WelcomeKey(h.id)) || LogClash(before, demo, meta.key) {
        return KeyClash;
      }
      return Finished;
    }

    // -------------------------------------------------------------- Cashfree webhooks

    method AddWebhook(id: Uuid, b: CashfreeBody, kind: DecisionKind, paymentId: Text, attempt: Attempt)
      modifies this`events, this`attempts
      ensures Snapshot() == RecordAttempt(RecordEvent(old(Snapshot()), FromCashfree, id, CashfreePayload(b), Some(kind)), paymentId, attempt)
    {
      events := events[(FromCashfree, id) := ProviderEvent(CashfreePayload(b), Some(kind))];
      attempts := attempts[paymentId := attempt];
    }

    method HandleCashfree(meta: Envelope, b: CashfreeBody, newId: Uuid, now: int) returns (out: Outcome)
      requires Valid()
      modifies this`events, this`attempts, this`orders, this`demos, this`log, this`paid, this`outbox
      ensures Leaves(out, Snapshot(), ProcessCashfree(cfg, old(Snapshot()), meta, b, newId, now))
    {
      hide Inv, EventClash, ParseWebhook, ProcessBound;
      if EventClash(Snapshot(), FromCashfree, meta.id, CashfreePayload(b)) {
        return KeyClash;
      }
      var w := ParseWebhook(b);
      if w.None? {
        return Threw;
      }
      if o :| o in orders && orders[o].domainId == w.value.orderId {
        OnlyOrderWithDomainId(cfg, Snapshot(), o);
        out := HandleBound(meta, b, w.value, o, newId, now);
        return;
      }
      assert OrdersByDomainId(Snapshot(), w.value.orderId) == {};
      return Threw;
    }

    method HandleBound(meta: Envelope, b: CashfreeBody, w: ParsedWebhook, o: Uuid, newId: Uuid, now: int) returns (out: Outcome)
      requires o in orders
      modifies this`events, this`attempts, this`orders, this`demos, this`log, this`paid, this`outbox
      ensures Leaves(out, Snapshot(), ProcessBound(cfg, old(Snapshot()), meta, b, w, o, newId, now))
    {
      hide Decide, ApplyPaid, StatusAfter, SetOrder;
      var decision := Decide(cfg, Snapshot(), meta, b, o, now);
      DecidedFacts(cfg, Snapshot(), meta, b, o, now);
      if decision.None? {
        return Threw;
      }
      if w.paymentId in attempts {
        return KeyClash;
      }
      var kind := decision.value.kind;
      AddWebhook(meta.id, b, kind, w.paymentId,
                 Attempt(o, meta.id, w.status, b.amountMinor.value, w.currency, meta.occurredAt));
      if kind == TransitionPaid {
        out := ApplyPaidTransition(meta, o, w.paymentId, decision.value.activationKey.value,
                                   decision.value.outboxKey.value, newId, now);
        return;
      }
      PutOrder(o, orders[o].(status := StatusAfter(kind, orders[o].status)));
      return Finished;
    }

    /** A verified payment settles its order, moves the demo and queues the activation. */
    method ApplyPaidTransition(meta: Envelope, o: Uuid, paymentId: Text, activationKey: Text, outboxKey: Text,
                               newId: Uuid, now: int) returns (out: Outcome)
      requires o in orders && orders[o].providerId.Some?
      modifies this`orders, this`demos, this`log, this`paid, this`outbox
      ensures Leaves(out, Snapshot(), ApplyPaid(old(Snapshot()), meta, o, paymentId, activationKey, outboxKey, newId, now))
    {
      hide LogClash, OutboxClash, PaidClash, ParsePlan, VerifiedRow, Move, Payable;
      var order, before := orders[o], Snapshot();
      if order.demo !in demos || !Payable(demos[order.demo].state) {
        orders := orders[o := order.(status := UnderReview)];
        return Finished;
      }
      orders := orders[o := order.(status := Settled, paidAt := Some(meta.occurredAt), version := order.version + 1)];
      MoveDemo(order.demo, VERIFY_PAYMENT, PAID, meta.key);
      var row := Paid(newId, paymentId, activationKey, order.amount, order.currency, meta.occurredAt);
      paid := paid[o := row];
      var plan := ParsePlan(order.plan);
      if plan.None? || plan.value <= 0 {
        return Threw;
      }
      outbox := outbox[PaidEventId(o) :=
        VerifiedRow(o, order, plan.value, paymentId, activationKey, outboxKey, meta.occurredAt, now)];
      if PaidClash(before, o, row) || LogClash(before, order.demo, meta.key)
         || OutboxClash(before, PaidEventId(o), order.tenant, outboxKey) {
        return KeyClash;
      }
      return Finished;
    }

    // -------------------------------------------------------------- conversations

    method ChangeState(meta: Envelope, demo: Uuid, command: Command, after: DemoState) returns (out: Outcome)
      modifies this`demos, this`log
      ensures Leaves(out, Snapshot(), TransitionDemo(old(Snapshot()), meta, demo, command, after))
    {
      hide LogClash, TransitionKey, Move;
      if demo !in demos || demos[demo].state == after {
        return Finished;
      }
      var before := Snapshot();
      MoveDemo(demo, command, after, TransitionKey(meta, command));
      if LogClash(before, demo, TransitionKey(meta, command)) {
        return KeyClash;
      }
      return Finished;
    }

    method QueueReply(meta: Envelope, demo: Uuid, now: int) returns (out: Outcome)
      modifies this`outbox
      ensures Leaves(out, Snapshot(), AddReply(Done(old(Snapshot())), meta, demo, now))
    {
      hide OutboxClash;
      var id, key, before := ReplyEventId(meta.id), ReplyKey(meta.id), Snapshot();
      outbox := outbox[id := NewRow(id, meta.tenant, meta.source, key, meta.correlation,
                                    DeliveryPayload(id, demo, Recipient(meta), key), now)];
      return if OutboxClash(before, id, meta.tenant, key) then KeyClash else Finished;
    }

    method AdvanceDemo(meta: Envelope, demo: Uuid, step: ConversationStep, turn: Turn, now: int) returns (out: Outcome)
      modifies this`demos, this`log, this`conversations, this`outbox
      ensures Leaves(out, Snapshot(), Advance(cfg, old(Snapshot()), meta, demo, step, turn, now))
    {
      hide TransitionDemo, OutboxClash;
      if turn.complete && step == Collecting && cfg.websiteConfigured {
        if turn.search != Tutors {
          out := ChangeState(meta, demo, ESCALATE_HUMAN, HUMAN_HANDOFF);
        } else {
          out := ChangeState(meta, demo, COMPLETE_QUALIFICATION, TUTOR_MATCHING);
          if out.Finished? {
            conversations := conversations[(meta.tenant, meta.conversation) := Conversation(demo, SelectTutor)];
            out := ChangeState(meta, demo, COMPLETE_MATCHING, TUTOR_SHORTLISTED);
          }
        }
        if !out.Finished? {
          return;
        }
      }
      out := QueueReply(meta, demo, now);
    }

    method HandleMessage(meta: Envelope, sender: Option<Text>, turn: Turn, now: int) returns (out: Outcome)
      modifies this`demos, this`log, this`conversations, this`outbox
      ensures Leaves(out, Snapshot(), StartDemo(cfg, old(Snapshot()), meta, sender, turn, now))
    {
      hide TransitionDemo, Advance, OutboxClash;
      var here := (meta.tenant, meta.conversation);
      if here in conversations {
        var c := conversations[here];
        var step := StepAfter(c, turn);
        if step == SelectTutor && turn.picked {
          conversations := conversations[here := Conversation(c.demo, AwaitingTutor)];
          out := ChangeState(meta, c.demo, ACCEPT_SHORTLIST, SLOT_NEGOTIATING);
          if out.Finished? {
            out := QueueReply(meta, c.demo, now);
          }
          return;
        }
        conversations := conversations[here := Conversation(c.demo, step)];
        out := AdvanceDemo(meta, c.demo, step, turn, now);
        return;
      }
      var demo := DemoIdOf(meta.id);
      if demo in demos {
        return Finished;
      }
      demos := demos[demo := Demo(meta.tenant, sender, meta.conversation, QUALIFYING, 1)];
      log := log[demo := [LogEntry(NEW, START_QUALIFICATION, QUALIFYING, meta.key)]];
      conversations := conversations[here := Conversation(demo, Collecting)];
      out := AdvanceDemo(meta, demo, Collecting, turn, now);
    }

    // -------------------------------------------------------------- inbox, publisher, reconciliation

    method Dispatch(event: InboxEvent, turn: Turn, newId: Uuid, now: int) returns (out: Outcome)
      requires Valid()
      modifies this
      ensures Leaves(out, Snapshot(), Handle(cfg, old(Snapshot()), event, turn, newId, now))
    {
      hide Inv, ProcessCashfree, AcceptOnboarding, CompleteOnboarding, StartDemo, EventClash;
      match event
      case CashfreeWebhook(meta, body) => out := HandleCashfree(meta, body, newId, now);
      case MetaWebhook(meta, payload) =>
        if EventClash(Snapshot(), ProviderOf(meta), meta.id, payload) {
          return KeyClash;
        }
        events := events[(ProviderOf(meta), meta.id) := ProviderEvent(payload, None)];
        out := Finished;
      case OnboardingAccepted(meta, demo, user, onboarding) => out := HandleAccepted(meta, demo, user, onboarding);
      case OnboardingCompleted(meta, demo, user, onboarding) => out := HandleCompleted(meta, demo, user, now);
      case WhatsappHandoff(meta, sender, valid) =>
        if !valid {
          return Threw;
        }
        out := HandleMessage(meta, sender, turn, now);
      case UnsupportedEvent(_) => out := Threw;
    }

    /** Commits a handler that finishes, rolls back every other one. */
    method ProcessInboxEvent(event: InboxEvent, turn: Turn, newId: Uuid, now: int) returns (processed: bool)
      requires Valid()
      modifies this
      ensures Snapshot() == HandleInbox(cfg, old(Snapshot()), event, turn, newId, now)
      ensures processed <==> Handle(cfg, old(Snapshot()), event, turn, newId, now).Done?
      ensures Valid()
    {
      hide Inv, Handle;
      HandleKeepsInv(cfg, Snapshot(), event, turn, newId, now);
      var saved := Snapshot();
      var out := Dispatch(event, turn, newId, now);
      processed := out.Finished?;
      if !processed {
        Rollback(saved);
      }
    }

    method RecordDelivery(id: Uuid, row: OutboxRow, p: Payload, reply: Reply, newId: Uuid, now: int) returns (out: Outcome)
      requires Valid()
      modifies this
      ensures Leaves(out, Snapshot(), Record(cfg, old(Snapshot()), id, row, p, reply, newId, now))
    {
      hide Inv, RecordQuote, RecordCashfree, QueueOnboarding, RecordAcceptance;
      match row.kind
      case PlanQuoteRequested => out := RecordVerifiedQuote(id, row, p, reply.details, now);
      case CashfreeOrderRequested => out := RecordProviderOrder(id, row, p, reply.reference, reply.details, now);
      case PaymentVerified => out := QueueHandoff(row, p, reply.reference, newId, now);
      case OnboardingRequested => out := RecordHandoffAcceptance(row, reply.reference);
      case DeliveryRequested => out := Finished;
    }

    /** Publishes one row; what a raising recorder changed is kept together with the failure mark. */
    method PublishRow(id: Uuid, reply: Option<Reply>, newId: Uuid, now: int) returns (out: Outcome)
      requires Valid()
      modifies this
      ensures Snapshot() == Publish(cfg, old(Snapshot()), id, reply, newId, now)
      ensures id !in old(outbox) || !Waits(cfg, old(outbox)[id], now) ==> Snapshot() == old(Snapshot()) && out.Threw?
      ensures id in old(outbox) && Waits(cfg, old(outbox)[id], now) ==>
        (out.KeyClash? <==> PublishEffect(cfg, old(Snapshot()), id, reply, newId, now).Violation?)
        && (out.Finished? ==> id in outbox && outbox[id].published)
        && (out.Threw? && id in outbox ==> !outbox[id].published)
      ensures Valid()
    {
      hide Inv, Record, Backoff, Waits;
      PublishKeepsInv(cfg, Snapshot(), id, reply, newId, now);
      EligibleIffWaits(cfg, Snapshot(), id, now);
      if !Eligible(cfg, Snapshot(), id, now) {
        return Threw;
      }
      var saved, p := Snapshot(), Open(outbox[id], id);
      RecorderKeepsRow(cfg, saved, id, reply, newId, now);
      out := Threw;
      if p.Some? && reply.Some? {
        out := RecordDelivery(id, outbox[id], p.value, reply.value, newId, now);
      }
      if out.KeyClash? {
        Rollback(saved);
      } else if out.Finished? {
        outbox := outbox[id := outbox[id].(published := true, providerReference := Some(reply.value.reference))];
      } else {
        var attempts := outbox[id].attempts + 1;
        outbox := outbox[id := outbox[id].(attempts := attempts, availableAt := now + Backoff(attempts))];
      }
    }

    method ReserveForReconciliation(tenant: Text, o: Uuid, now: int) returns (reserved: bool)
      modifies this`orders
      ensures Snapshot() == ReserveOrder(old(Snapshot()), tenant, o, now)
      ensures reserved == Reservable(old(Snapshot()), tenant, o, now)
    {
      reserved := Reservable(Snapshot(), tenant, o, now);
      if reserved {
        orders := orders[o := orders[o].(status := Reconciling)];
      }
    }

    method RecordFailedFetch(o: Uuid, next: int)
      modifies this`orders
      ensures Snapshot() == RecordProviderFailure(old(Snapshot()), o, next)
    {
      if o in orders {
        orders := orders[o := orders[o].(status := ReconciliationRequired, reconcileAfter := Some(next))];
      }
    }

    method JudgeSnapshot(o: Uuid, s: Snapshot, next: int) returns (result: SnapshotResult)
      requires o in orders
      modifies this`orders
      ensures orders == old(orders)[o := SnapshotOutcome(old(orders)[o], s, next).0]
      ensures result == SnapshotOutcome(old(orders)[o], s, next).1
    {
      hide Upper;
      var order := orders[o];
      if order.providerId != Some(s.providerId) || s.amount != order.amount || Upper(s.currency) != Upper(order.currency) {
        result := SnapshotReview;
        orders := orders[o := order.(status := UnderReview)];
      } else if Upper(s.status) == "PAID" {
        result := SnapshotReview;
        orders := orders[o := order.(status := UnderReview)];
      } else if Upper(s.status) == "EXPIRED" {
        result := SnapshotExpired;
        orders := orders[o := order.(status := Lapsed)];
      } else if Upper(s.status) == "ACTIVE" {
        result := SnapshotPending;
        orders := orders[o := order.(status := Pending, reconcileAfter := Some(next))];
      } else {
        result := SnapshotReview;
        orders := orders[o := order.(status := ReconciliationRequired, reconcileAfter := Some(next))];
      }
    }

    method RecordSnapshot(o: Uuid, before: OrderStatus, s: Snapshot, next: int) returns (result: Option<SnapshotResult>)
      requires Valid()
      modifies this`orders, this`reconciliations
      ensures Snapshot() == ApplySnapshot(old(Snapshot()), o, before, s, next)
      ensures result.Some? ==> o in old(orders) && result.value == SnapshotOutcome(old(orders)[o], s, next).1
      ensures result.Some? ==>
        && o in orders && AnsweredAs(old(orders)[o], orders[o], s, next, result.value)
        && StoresAnswer(old(Snapshot()), Snapshot(), o, before, s, result.value)
      ensures result.None? <==> o !in old(orders) || old(orders)[o].providerId.None?
      ensures Valid()
    {
      hide SnapshotHash, SnapshotOutcome, AnsweredAs, Inv, ApplySnapshot, Matches;
      ReconcileKeepsInv(cfg, Snapshot(), o, before, s, next);
      if o !in orders || orders[o].providerId.None? {
        UnboundAnswerIsDropped(Snapshot(), o, before, s, next);
        return None;
      }
      AnswerOnTables(Snapshot(), o, before, s, next);
      var verdict := JudgeSnapshot(o, s, next);
      result := Some(verdict);
      var key := (o, SnapshotHash(s));
      if key !in reconciliations {
        reconciliations := reconciliations[key := Reconciliation(before, verdict)];
      }
    }

    /** A state change made elsewhere: any registered edge that is not one of the saga's. */
    method TakeOtherEdge(demo: Uuid, command: Command, after: DemoState, key: Text)
      modifies this`demos, this`log
      ensures Snapshot() == TakeEdge(old(Snapshot()), demo, command, after, key)
    {
      hide TakeEdge, LogClash, Registered;
      EdgeTaken(Snapshot(), demo, command, after, key);
      if demo in demos && !IsSaga(command) && !LogClash(Snapshot(), demo, key)
         && Registered(LogEntry(demos[demo].state, command, after, key)) {
        MoveDemo(demo, command, after, key);
      }
    }

    /** One step of a run; every run of the object is a run of the specification. */
    method Take(step: Step)
      requires Valid()
      modifies this
      ensures Snapshot() == Next(cfg, old(Snapshot()), step)
      ensures Valid()
    {
      hide Inv, RequestOrder, HandleInbox, Publish, ReserveOrder, RecordProviderFailure, ApplySnapshot, TakeEdge;
      NextKeepsInv(cfg, Snapshot(), step);
      match step
      case Request(tenant, command, correlation, at) => var _ := RequestPayment(tenant, command, correlation, at);
      case Deliver(row, reply, newId, at) => var _ := PublishRow(row, reply, newId, at);
      case Inbox(event, turn, newId, at) => var _ := ProcessInboxEvent(event, turn, newId, at);
      case Reserve(tenant, order, at) => var _ := ReserveForReconciliation(tenant, order, at);
      case ProviderFailed(order, next) => RecordFailedFetch(order, next);
      case ProviderAnswered(order, before, snapshot, next) => var _ := RecordSnapshot(order, before, snapshot, next);
      case OtherEdge(demo, command, after, key) => TakeOtherEdge(demo, command, after, key);
    }
  }

  /** A recorder leaves the row that is being published in place. */
  lemma RecorderKeepsRow(cfg: Config, db: Db, id: Uuid, reply: Option<Reply>, newId: Uuid, now: int)
    requires id in db.outbox
    ensures
      var e := PublishEffect(cfg, db, id, reply, newId, now);
      !e.Violation? ==> id in e.db.outbox && e.db.outbox[id] == db.outbox[id]
  {
    hide Record;
    var p := Open(db.outbox[id], id);
    if p.Some? && reply.Some? {
      RecordStays(cfg, db, id, db.outbox[id], p.value, reply.value, newId, now, id);
    }
  }

  lemma EdgeTaken(db: Db, demo: Uuid, command: Command, after: DemoState, key: Text)
    ensures
      var free := demo in db.demos && !IsSaga(command) && !LogClash(db, demo, key)
        && Registered(LogEntry(db.demos[demo].state, command, after, key));
      (free ==> TakeEdge(db, demo, command, after, key) == Move(db, demo, command, after, key))
      && (!free ==> TakeEdge(db, demo, command, after, key) == db)
  {
    hide LogClash, Registered, Move;
  }

  lemma BoundIsStored(db: Db, tenant: Text, p: Payload)
    requires p.CashfreeOrderPayload? && LocallyBound(db, tenant, p)
    ensures p.order in db.orders
  {
  }

  /** A decided webhook has its amount; a decision to move to paid carries both operation keys. */
  lemma DecidedFacts(cfg: Config, db: Db, meta: Envelope, b: CashfreeBody, o: Uuid, now: int)
    requires o in db.orders
    ensures
      var d := Decide(cfg, db, meta, b, o, now);
      d.Some? ==> b.amountMinor.Some? && db.orders[o].providerId.Some?
                  && (d.value.kind == TransitionPaid ==> d.value.activationKey.Some? && d.value.outboxKey.Some?)
  {
    hide Mismatches, WebhookBinding, WebhookEvidence, MakeMoney;
  }
}
