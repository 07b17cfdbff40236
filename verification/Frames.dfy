/**
 Which tables a handler may touch, one lemma per handler: all the others stay as they were.
 */
module Frames {
  import opened Identifiers
  import opened Lifecycle
  import opened Monetary
  import opened PaymentVerification
  import opened Store
  import opened Handlers

  // ---------------------------------------------------------------- shared writes

  lemma MoveFrame(db: Db, demo: Uuid, command: Command, after: DemoState, key: Text)
    requires demo in db.demos
    ensures
      var moved := Move(db, demo, command, after, key);
      moved == db.(demos := moved.demos, log := moved.log) && moved.demos.Keys == db.demos.Keys
  {
  }

  lemma SetOrderFrame(db: Db, o: Uuid, order: Order)
    ensures
      var after := SetOrder(db, o, order);
      && after.demos == db.demos && after.log == db.log && after.conversations == db.conversations
      && after.checkouts == db.checkouts && after.requests == db.requests && after.outbox == db.outbox
      && after.events == db.events && after.attempts == db.attempts && after.paid == db.paid
      && after.handoffs == db.handoffs && after.messages == db.messages && after.reconciliations == db.reconciliations
  {
  }

  lemma SetOrderWrites(db: Db, o: Uuid, order: Order)
    ensures SetOrder(db, o, order) == db.(orders := SetOrder(db, o, order).orders)
  {
  }

  lemma HandoffMoveFrame(db: Db, o: Uuid, h: Handoff, demo: Uuid, command: Command, after: DemoState, key: Text)
    requires demo in db.demos
    ensures SetHandoff(db, o, h) == db.(handoffs := db.handoffs[o := h])
    ensures
      var moved := Move(SetHandoff(db, o, h), demo, command, after, key);
      moved == db.(handoffs := db.handoffs[o := h], demos := moved.demos, log := moved.log)
  {
  }

  // ---------------------------------------------------------------- requests and recorders

  lemma RequestFrame(cfg: Config, db: Db, tenant: Text, c: OrderCommand, correlation: Text, now: int)
    ensures
      var after := RequestOrder(cfg, db, tenant, c, correlation, now).1;
      after == db.(requests := after.requests, outbox := after.outbox)
  {
    hide HasActiveOrder, HasActiveRequest, OutboxClash, RequestedDb;
    RequestedFrame(db, tenant, c, correlation, now);
  }

  lemma RequestedFrame(db: Db, tenant: Text, c: OrderCommand, correlation: Text, now: int)
    ensures
      var after := RequestedDb(db, tenant, c, correlation, now);
      after == db.(requests := after.requests, outbox := after.outbox)
  {
  }

  lemma QuoteFrame(cfg: Config, db: Db, id: Uuid, row: OutboxRow, p: Payload, d: Details, now: int)
    ensures
      var e := RecordQuote(cfg, db, id, row, p, d, now);
      !e.Violation? ==>
        e.db == db.(demos := e.db.demos, log := e.db.log, orders := e.db.orders, requests := e.db.requests, outbox := e.db.outbox)
  {
    hide LogClash, OutboxClash, OrderClash, OrdersByCreationKey, NumericPlan, E164, ValidQuote, QuoteBound, MatchesExisting;
    hide CashfreeRow, NewOrder, Move, SetOrder;
    var e := RecordQuote(cfg, db, id, row, p, d, now);
    if e.Done? && e.db != db {
      var order := NewOrder(cfg, row, p, d.quote, now);
      SetOrderWrites(db, PaymentOrderId(p.request), order);
      var db2 := AddOutbox(SetOrder(db, PaymentOrderId(p.request), order), CashfreeEventId(p.request), CashfreeRow(p, order, now));
      MoveFrame(db2, p.demo, REQUEST_PAYMENT, PAYMENT_PENDING, RequestLogKey(p.request));
    }
  }

  lemma CashfreeRecorderFrame(db: Db, id: Uuid, row: OutboxRow, p: Payload, reference: Text, d: Details, now: int)
    ensures
      var e := RecordCashfree(db, id, row, p, reference, d, now);
      !e.Violation? ==> e.db == db.(orders := e.db.orders, checkouts := e.db.checkouts, requests := e.db.requests)
  {
    hide E164, IsoCurrency, CashfreeBound, ProviderOrderClash, BoundOrder, Upper, SetOrder;
    var e := RecordCashfree(db, id, row, p, reference, d, now);
    if !e.Violation? && e.db != db {
      SetOrderWrites(db, p.order, db.orders[p.order].(status := UnderReview));
      SetOrderWrites(db, p.order, BoundOrder(db.orders[p.order], d.ack.providerId, now));
    }
  }

  lemma QueueFrame(db: Db, row: OutboxRow, p: Payload, activation: Text, newId: Uuid, now: int)
    ensures
      var e := QueueOnboarding(db, row, p, activation, newId, now);
      !e.Violation? ==> e.db == db.(handoffs := e.db.handoffs, outbox := e.db.outbox)
  {
    hide HandoffQueued, HandoffClash, OutboxClash, OnboardingRow;
  }

  lemma AcceptanceFrame(db: Db, row: OutboxRow, reference: Text)
    ensures
      var e := RecordAcceptance(db, row, reference);
      !e.Violation? ==> e.db == db.(handoffs := e.db.handoffs, demos := e.db.demos, log := e.db.log)
  {
    hide LogClash, SetHandoff, Move;
    var e := RecordAcceptance(db, row, reference);
    if !e.Violation? && e.db != db {
      var o := Pick(HandoffsByKey(db, row.tenant, row.key)).value;
      var h := db.handoffs[o];
      HandoffMoveFrame(db, o, h.(status := HandoffAccepted, acknowledgement := Some(reference), attempts := h.attempts + 1),
                       db.orders[o].demo, HANDOFF_ONBOARDING, ONBOARDING_HANDOFF, AcceptedLogKey(h.id));
    }
  }

  /** All tables but the outbox are the same. */
  predicate OnlyOutbox(a: Db, b: Db) {
    && b.demos == a.demos && b.log == a.log && b.conversations == a.conversations && b.orders == a.orders
    && b.checkouts == a.checkouts && b.requests == a.requests && b.events == a.events && b.attempts == a.attempts
    && b.paid == a.paid && b.handoffs == a.handoffs && b.messages == a.messages && b.reconciliations == a.reconciliations
  }

  lemma MarksFrame(db: Db, id: Uuid, reference: Text, now: int)
    requires id in db.outbox
    ensures OnlyOutbox(db, MarkPublished(db, id, reference)) && OnlyOutbox(db, MarkFailed(db, id, now))
  {
    hide Backoff;
  }

  // ---------------------------------------------------------------- inbox handlers

  /** The context an onboarding event finds is an order of that demo with its handoff. */
  lemma ContextFacts(db: Db, tenant: Text, demo: Uuid, user: Text)
    ensures
      var c := OnboardingContext(db, tenant, demo, user);
      c.Some? ==> c.value in db.orders && db.orders[c.value].demo == demo && c.value in db.paid
                  && c.value in db.handoffs && demo in db.demos
  {
  }

  lemma AcceptFrame(cfg: Config, db: Db, meta: Envelope, demo: Uuid, user: Text, onboarding: Text)
    ensures
      var e := AcceptOnboarding(cfg, db, meta, demo, user, onboarding);
      !e.Violation? ==> e.db == db.(handoffs := e.db.handoffs, demos := e.db.demos, log := e.db.log)
  {
    hide LogClash, OnboardingContext, SetHandoff, Move;
    ContextFacts(db, meta.tenant, demo, user);
    var c := OnboardingContext(db, meta.tenant, demo, user);
    if c.Some? {
      HandoffMoveFrame(db, c.value, db.handoffs[c.value].(status := HandoffAccepted, acknowledgement := Some(onboarding)),
                       demo, HANDOFF_ONBOARDING, ONBOARDING_HANDOFF, meta.key);
    }
  }

  lemma CompleteFrame(cfg: Config, db: Db, meta: Envelope, demo: Uuid, user: Text, now: int)
    ensures
      var e := CompleteOnboarding(cfg, db, meta, demo, user, now);
      !e.Violation? ==>
        e.db == db.(handoffs := e.db.handoffs, messages := e.db.messages, demos := e.db.demos, log := e.db.log, outbox := e.db.outbox)
  {
    hide LogClash, OutboxClash, MessageClash, OnboardingContext, ConvertedDb;
    ContextFacts(db, meta.tenant, demo, user);
    var e := CompleteOnboarding(cfg, db, meta, demo, user, now);
    if e.Done? && e.db != db {
      ConvertedFrame(db, meta, OnboardingContext(db, meta.tenant, demo, user).value, demo, now);
    }
  }

  lemma ConvertedFrame(db: Db, meta: Envelope, o: Uuid, demo: Uuid, now: int)
    requires o in db.handoffs && demo in db.demos
    ensures
      var after := ConvertedDb(db, meta, o, demo, now);
      after == db.(handoffs := after.handoffs, messages := after.messages, demos := after.demos, log := after.log, outbox := after.outbox)
  {
    hide WelcomeRow;
  }

  lemma PaidFrame(db: Db, meta: Envelope, o: Uuid, paymentId: Text, activationKey: Text, outboxKey: Text, newId: Uuid, now: int)
    requires o in db.orders && db.orders[o].providerId.Some?
    ensures
      var e := ApplyPaid(db, meta, o, paymentId, activationKey, outboxKey, newId, now);
      e.Done? ==> e.db == db.(orders := e.db.orders, demos := e.db.demos, log := e.db.log, paid := e.db.paid, outbox := e.db.outbox)
  {
    hide LogClash, OutboxClash, PaidClash, ParsePlan, VerifiedRow, SetOrder, Payable, Move;
    var order := db.orders[o];
    if order.demo !in db.demos || !Payable(db.demos[order.demo].state) {
      SetOrderWrites(db, o, order.(status := UnderReview));
    } else {
      var settled := order.(status := Settled, paidAt := Some(meta.occurredAt), version := order.version + 1);
      SetOrderWrites(db, o, settled);
      MoveFrame(SetOrder(db, o, settled), order.demo, VERIFY_PAYMENT, PAID, meta.key);
    }
  }

  lemma BoundFrame(cfg: Config, db: Db, meta: Envelope, b: CashfreeBody, w: ParsedWebhook, o: Uuid, newId: Uuid, now: int)
    requires o in db.orders
    ensures
      var e := ProcessBound(cfg, db, meta, b, w, o, newId, now);
      e.Done? ==>
        e.db == db.(events := e.db.events, attempts := e.db.attempts, orders := e.db.orders, demos := e.db.demos,
                    log := e.db.log, paid := e.db.paid, outbox := e.db.outbox)
  {
    hide Mismatches, WebhookBinding, WebhookEvidence, MakeMoney, ApplyPaid, StatusAfter, SetOrder;
    var e := ProcessBound(cfg, db, meta, b, w, o, newId, now);
    if e.Done? {
      var decision := Decide(cfg, db, meta, b, o, now).value;
      var attempt := Attempt(o, meta.id, w.status, b.amountMinor.value, w.currency, meta.occurredAt);
      var db1 := RecordAttempt(RecordEvent(db, FromCashfree, meta.id, CashfreePayload(b), Some(decision.kind)), w.paymentId, attempt);
      SetOrderWrites(db1, o, db.orders[o].(status := StatusAfter(decision.kind, db.orders[o].status)));
      if decision.kind == TransitionPaid {
        PaidFrame(db1, meta, o, w.paymentId, decision.activationKey.value, decision.outboxKey.value, newId, now);
      }
    }
  }

  lemma CashfreeFrame(cfg: Config, db: Db, meta: Envelope, b: CashfreeBody, newId: Uuid, now: int)
    ensures
      var e := ProcessCashfree(cfg, db, meta, b, newId, now);
      e.Done? ==>
        e.db == db.(events := e.db.events, attempts := e.db.attempts, orders := e.db.orders, demos := e.db.demos,
                    log := e.db.log, paid := e.db.paid, outbox := e.db.outbox)
  {
    hide EventClash, ParseWebhook, ProcessBound;
    var e := ProcessCashfree(cfg, db, meta, b, newId, now);
    if e.Done? {
      var w := ParseWebhook(b).value;
      BoundFrame(cfg, db, meta, b, w, Pick(OrdersByDomainId(db, w.orderId)).value, newId, now);
    }
  }

  lemma TransitionFrame(db: Db, meta: Envelope, demo: Uuid, command: Command, after: DemoState)
    ensures
      var e := TransitionDemo(db, meta, demo, command, after);
      !e.Raised? && (e.Done? ==> e.db == db.(demos := e.db.demos, log := e.db.log) && e.db.demos.Keys == db.demos.Keys)
  {
    hide LogClash, TransitionKey, Move;
    if demo in db.demos {
      MoveFrame(db, demo, command, after, TransitionKey(meta, command));
    }
  }

  lemma StepFrame(db: Db, meta: Envelope, demo: Uuid, step: ConversationStep)
    ensures
      var after := SetStep(db, meta, demo, step);
      after.outbox == db.outbox && after.demos == db.demos && after.log == db.log
  {
  }

  lemma ReplyFrame(e: Effect, meta: Envelope, demo: Uuid, now: int)
    ensures
      var r := AddReply(e, meta, demo, now);
      (r.Done? ==> e.Done? && r.db == e.db.(outbox := r.db.outbox)) && (r.Raised? ==> e.Raised?)
  {
    hide OutboxClash;
  }

  lemma ShortlistFrame(db: Db, meta: Envelope, demo: Uuid)
    ensures
      var e := Shortlist(db, meta, demo);
      !e.Raised?
      && (e.Done? ==> e.db == db.(demos := e.db.demos, log := e.db.log, conversations := e.db.conversations)
                      && e.db.demos.Keys == db.demos.Keys)
  {
    hide TransitionDemo;
    TransitionFrame(db, meta, demo, COMPLETE_QUALIFICATION, TUTOR_MATCHING);
    var e := TransitionDemo(db, meta, demo, COMPLETE_QUALIFICATION, TUTOR_MATCHING);
    if e.Done? {
      TransitionFrame(SetStep(e.db, meta, demo, SelectTutor), meta, demo, COMPLETE_MATCHING, TUTOR_SHORTLISTED);
    }
  }

  lemma AdvanceFrame(cfg: Config, db: Db, meta: Envelope, demo: Uuid, step: ConversationStep, turn: Turn, now: int)
    ensures
      var r := Advance(cfg, db, meta, demo, step, turn, now);
      !r.Raised?
      && (r.Done? ==> r.db == db.(demos := r.db.demos, log := r.db.log, conversations := r.db.conversations, outbox := r.db.outbox)
                      && r.db.demos.Keys == db.demos.Keys)
  {
    hide TransitionDemo, Shortlist, AddReply;
    TransitionFrame(db, meta, demo, ESCALATE_HUMAN, HUMAN_HANDOFF);
    ShortlistFrame(db, meta, demo);
    ReplyFrame(Done(db), meta, demo, now);
    ReplyFrame(TransitionDemo(db, meta, demo, ESCALATE_HUMAN, HUMAN_HANDOFF), meta, demo, now);
    ReplyFrame(Shortlist(db, meta, demo), meta, demo, now);
  }

  lemma ContinueFrame(cfg: Config, db: Db, meta: Envelope, turn: Turn, now: int)
    requires (meta.tenant, meta.conversation) in db.conversations
    ensures
      var r := ContinueDemo(cfg, db, meta, turn, now);
      !r.Raised?
      && (r.Done? ==> r.db == db.(demos := r.db.demos, log := r.db.log, conversations := r.db.conversations, outbox := r.db.outbox)
                      && r.db.demos.Keys == db.demos.Keys)
  {
    hide TransitionDemo, AddReply, Advance, StepAfter;
    var c := db.conversations[(meta.tenant, meta.conversation)];
    var db1 := SetStep(db, meta, c.demo, AwaitingTutor);
    TransitionFrame(db1, meta, c.demo, ACCEPT_SHORTLIST, SLOT_NEGOTIATING);
    ReplyFrame(TransitionDemo(db1, meta, c.demo, ACCEPT_SHORTLIST, SLOT_NEGOTIATING), meta, c.demo, now);
    AdvanceFrame(cfg, SetStep(db, meta, c.demo, StepAfter(c, turn)), meta, c.demo, StepAfter(c, turn), turn, now);
  }

  lemma TalkFrame(cfg: Config, db: Db, meta: Envelope, sender: Option<Text>, turn: Turn, now: int)
    ensures
      var r := StartDemo(cfg, db, meta, sender, turn, now);
      r.Done? ==> r.db == db.(demos := r.db.demos, log := r.db.log, conversations := r.db.conversations, outbox := r.db.outbox)
  {
    hide Advance, ContinueDemo;
    if (meta.tenant, meta.conversation) in db.conversations {
      ContinueFrame(cfg, db, meta, turn, now);
    } else if DemoIdOf(meta.id) !in db.demos {
      var demo := DemoIdOf(meta.id);
      var db1 := db.(demos := db.demos[demo := Demo(meta.tenant, sender, meta.conversation, QUALIFYING, 1)],
                     log := db.log[demo := [LogEntry(NEW, START_QUALIFICATION, QUALIFYING, meta.key)]]);
      AdvanceFrame(cfg, SetStep(db1, meta, demo, Collecting), meta, demo, Collecting, turn, now);
    }
  }

  // ---------------------------------------------------------------- reconciliation

  lemma AnswerFrame(db: Db, o: Uuid, before: OrderStatus, s: Snapshot, next: int)
    ensures
      var after := ApplySnapshot(db, o, before, s, next);
      after == db.(orders := after.orders, reconciliations := after.reconciliations)
  {
    hide SnapshotHash, SnapshotOutcome, SetOrder;
    if o in db.orders && db.orders[o].providerId.Some? {
      var db1 := SetOrder(db, o, SnapshotOutcome(db.orders[o], s, next).0);
      var after := ApplySnapshot(db, o, before, s, next);
      assert after == db1.(reconciliations := after.reconciliations);
      SetOrderFrame(db, o, SnapshotOutcome(db.orders[o], s, next).0);
      assert db1 == db.(orders := db1.orders);
    }
  }

  /** The steps of reconciliation rewrite orders and store snapshots, and touch nothing else. */
  lemma ReconciliationFrame(cfg: Config, db: Db, s: Step)
    requires s.Reserve? || s.ProviderFailed? || s.ProviderAnswered?
    ensures Next(cfg, db, s) == db.(orders := Next(cfg, db, s).orders, reconciliations := Next(cfg, db, s).reconciliations)
  {
    hide SetOrder, ApplySnapshot;
    match s
    case Reserve(_, o, _) =>
      if o in db.orders { SetOrderWrites(db, o, db.orders[o].(status := Reconciling)); }
    case ProviderFailed(o, next) =>
      if o in db.orders {
        SetOrderWrites(db, o, db.orders[o].(status := ReconciliationRequired, reconcileAfter := Some(next)));
      }
    case ProviderAnswered(o, before, snapshot, next) => AnswerFrame(db, o, before, snapshot, next);
  }

  lemma EdgeFrame(db: Db, demo: Uuid, command: Command, after: DemoState, key: Text)
    ensures
      var moved := TakeEdge(db, demo, command, after, key);
      moved == db.(demos := moved.demos, log := moved.log)
  {
    hide LogClash, Registered, Move;
    if demo in db.demos {
      MoveFrame(db, demo, command, after, key);
    }
  }
}
