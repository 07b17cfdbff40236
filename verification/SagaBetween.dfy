/**
 Other business that an order awaiting its payment may be interleaved with: webhooks of other
 demos' orders, and deliveries of outbox rows that do not move its demo.
 */
module SagaBetween {
  import opened Identifiers
  import opened Lifecycle
  import opened Monetary
  import opened PaymentVerification
  import opened Store
  import opened Handlers
  import opened Frames
  import opened SagaInvariant
  import opened SagaPreservation
  import opened SagaHistory
  import opened SagaOrderFree

  // ---------------------------------------------------------------- deliveries

  predicate SameEvidence(a: Db, b: Db) { b.events == a.events && b.attempts == a.attempts && b.paid == a.paid }

  /** No new row could be mistaken for that of a verified payment. */
  ghost predicate PlainRows(a: map<Uuid, OutboxRow>, b: map<Uuid, OutboxRow>) {
    forall id :: id in b && id !in a ==> !b[id].key.Digest? && forall o :: id != PaidEventId(o)
  }

  /** The evidence is untouched and new rows are plain. */
  ghost predicate Harmless(a: Db, e: Effect) {
    !e.Violation? ==> SameEvidence(a, e.db) && PlainRows(a.outbox, e.db.outbox)
  }

  lemma RecordedRows(cfg: Config, db: Db, id: Uuid, row: OutboxRow, p: Payload, reply: Reply, newId: Uuid, now: int)
    ensures Harmless(db, Record(cfg, db, id, row, p, reply, newId, now))
  {
    hide RecordQuote, RecordCashfree, QueueOnboarding, RecordAcceptance, Harmless;
    match row.kind
    case PlanQuoteRequested => QuoteIsHarmless(cfg, db, id, row, p, reply.details, now);
    case CashfreeOrderRequested => CashfreeIsHarmless(db, id, row, p, reply.reference, reply.details, now);
    case PaymentVerified => QueueIsHarmless(db, row, p, reply.reference, newId, now);
    case OnboardingRequested => AcceptanceIsHarmless(db, row, reply.reference);
    case DeliveryRequested => NothingIsHarmless(db);
  }

  lemma NothingIsHarmless(db: Db)
    ensures Harmless(db, Done(db))
  {
  }

  lemma QuoteIsHarmless(cfg: Config, db: Db, id: Uuid, row: OutboxRow, p: Payload, d: Details, now: int)
    ensures Harmless(db, RecordQuote(cfg, db, id, row, p, d, now))
  {
    hide RecordQuote, PlainRows;
    QuoteFrame(cfg, db, id, row, p, d, now);
    QuoteRows(cfg, db, id, row, p, d, now);
  }

  lemma CashfreeIsHarmless(db: Db, id: Uuid, row: OutboxRow, p: Payload, reference: Text, d: Details, now: int)
    ensures Harmless(db, RecordCashfree(db, id, row, p, reference, d, now))
  {
    hide RecordCashfree, PlainRows;
    CashfreeRecorderFrame(db, id, row, p, reference, d, now);
    NoNewRows(db.outbox);
  }

  lemma QueueIsHarmless(db: Db, row: OutboxRow, p: Payload, activation: Text, newId: Uuid, now: int)
    ensures Harmless(db, QueueOnboarding(db, row, p, activation, newId, now))
  {
    hide QueueOnboarding, PlainRows;
    QueueFrame(db, row, p, activation, newId, now);
    QueuedRows(db, row, p, activation, newId, now);
  }

  lemma AcceptanceIsHarmless(db: Db, row: OutboxRow, reference: Text)
    ensures Harmless(db, RecordAcceptance(db, row, reference))
  {
    hide RecordAcceptance, PlainRows;
    AcceptanceFrame(db, row, reference);
    NoNewRows(db.outbox);
  }

  lemma NoNewRows(outbox: map<Uuid, OutboxRow>)
    ensures PlainRows(outbox, outbox)
  {
  }

  lemma QuoteRows(cfg: Config, db: Db, id: Uuid, row: OutboxRow, p: Payload, d: Details, now: int)
    ensures
      var e := RecordQuote(cfg, db, id, row, p, d, now);
      !e.Violation? ==> PlainRows(db.outbox, e.db.outbox)
  {
    hide LogClash, OutboxClash, OrderClash, OrdersByCreationKey, NumericPlan, E164, ValidQuote, QuoteBound, MatchesExisting;
    hide NewOrder, SetOrder, PlainRows, OrderedDb;
    var e := RecordQuote(cfg, db, id, row, p, d, now);
    NoNewRows(db.outbox);
    if e.Done? && e.db != db {
      OrderedRows(db, row, p, NewOrder(cfg, row, p, d.quote, now), d.quote, now);
    }
  }

  lemma OrderedRows(db: Db, row: OutboxRow, p: Payload, order: Order, q: Quote, now: int)
    requires p.QuotePayload? && p.demo in db.demos
    ensures PlainRows(db.outbox, OrderedDb(db, row, p, order, q, now).outbox)
  {
    hide SetOrder;
    SetOrderFrame(db, PaymentOrderId(p.request), order);
  }

  lemma QueuedRows(db: Db, row: OutboxRow, p: Payload, activation: Text, newId: Uuid, now: int)
    ensures
      var e := QueueOnboarding(db, row, p, activation, newId, now);
      !e.Violation? ==> PlainRows(db.outbox, e.db.outbox)
  {
    hide HandoffQueued, HandoffClash, OutboxClash;
    assert |"nxtutors"| != |"nxtutors:paid"|;
  }

  lemma PublishedRows(cfg: Config, db: Db, id: Uuid, reply: Option<Reply>, newId: Uuid, now: int)
    ensures
      var after := Publish(cfg, db, id, reply, newId, now);
      SameEvidence(db, after) && PlainRows(db.outbox, after.outbox)
  {
    hide Record, PlainRows, Backoff, MarkPublished, MarkFailed;
    NoNewRows(db.outbox);
    if Eligible(cfg, db, id, now) {
      var p := Open(db.outbox[id], id);
      if p.Some? && reply.Some? {
        RecordedRows(cfg, db, id, db.outbox[id], p.value, reply.value, newId, now);
      }
      var e := PublishEffect(cfg, db, id, reply, newId, now);
      if !e.Violation? && id in e.db.outbox {
        MarksFrame(e.db, id, if reply.Some? then reply.value.reference else Str(""), now);
        MarkedRows(db.outbox, e.db, id, if reply.Some? then reply.value.reference else Str(""), now);
      }
    }
  }

  lemma MarkedRows(outbox: map<Uuid, OutboxRow>, db: Db, id: Uuid, reference: Text, now: int)
    requires id in db.outbox && PlainRows(outbox, db.outbox)
    ensures PlainRows(outbox, MarkPublished(db, id, reference).outbox) && PlainRows(outbox, MarkFailed(db, id, now).outbox)
  {
    hide Backoff;
  }

  /** Old rows keep their keys and new ones are no verified payments, so the keys stay free. */
  lemma KeysStayFree(a: map<Uuid, OutboxRow>, b: map<Uuid, OutboxRow>, before: Db, after: Db, o: Uuid, order: Order)
    requires a == before.outbox && b == after.outbox && OutboxKept(a, b) && PlainRows(a, b) && order.providerId.Some?
    requires !OutboxClash(before, PaidEventId(o), order.tenant, OrderPaidKey(order))
    ensures !OutboxClash(after, PaidEventId(o), order.tenant, OrderPaidKey(order))
  {
  }

  lemma UnseenWithSameEvidence(a: Db, b: Db, o: Uuid, s: Step)
    requires SameEvidence(a, b) && o in a.orders && o in b.orders && SameOrder(a.orders[o], b.orders[o])
    requires LogOf(b, b.orders[o].demo) == LogOf(a, a.orders[o].demo)
    requires IsWebhook(s) && UnseenWebhook(a, o, s)
    ensures UnseenWebhook(b, o, s)
  {
    hide RequiredReference;
  }

  /** Delivering any row, with any answer, leaves the order waiting unless it moves the order's demo. */
  lemma DeliveryLeavesWaiting(cfg: Config, db: Db, o: Uuid, steps: seq<Step>, s: Step)
    requires Awaiting(cfg, db, o) && s.Deliver?
    requires LogOf(Next(cfg, db, s), db.orders[o].demo) == LogOf(db, db.orders[o].demo)
    ensures LeavesWaiting(db, Next(cfg, db, s), o, db.orders[o], steps)
  {
    hide Inv, Publish, UnseenWebhook, OutboxClash, OrderPaidKey, Payable, PlainRows, Kept, RequiredReference;
    var after, order := Next(cfg, db, s), db.orders[o];
    PublishedRows(cfg, db, s.row, s.reply, s.newId, s.at);
    OrderIsKept(cfg, db, s, o);
    SameDemos(cfg, db);
    NextKept(cfg, db, s);
    assert OutboxKept(db.outbox, after.outbox) by {
      KeptOutbox(db, after);
    }
    KeysStayFree(db.outbox, after.outbox, db, after, o, order);
    forall i | 0 <= i < |steps| && IsAbout(steps[i], order) && UnseenWebhook(db, o, steps[i]) ensures UnseenWebhook(after, o, steps[i]) {
      UnseenWithSameEvidence(db, after, o, steps[i]);
    }
  }

  lemma KeptOutbox(a: Db, b: Db)
    requires Kept(a, b)
    ensures OutboxKept(a.outbox, b.outbox)
  {
    hide LogGrows, OrdersKept, RequestsKept, EventsKept, AttemptsKept, PaidKept, OutboxKept;
  }

  // ---------------------------------------------------------------- other orders' webhooks

  /** A webhook that shares no event id, payment and new id with those about the order. */
  predicate SharesNothing(order: Order, steps: seq<Step>, s: Step)
    requires IsWebhook(s)
  {
    forall i :: 0 <= i < |steps| && IsAbout(steps[i], order) ==>
      && s.event.meta.id != steps[i].event.meta.id && s.newId != steps[i].newId
      && (PaymentOf(s).Some? ==> PaymentOf(s) != PaymentOf(steps[i]))
  }

  /** What a webhook writes that is about an order of another demo. */
  ghost predicate WroteElsewhere(a: Db, b: Db, o: Uuid, s: Step)
    requires IsWebhook(s) && o in a.orders
  {
    && (b.events == a.events || NotedEvent(a.events, b.events, (FromCashfree, s.event.meta.id), CashfreePayload(s.event.body)))
    && (b.attempts == a.attempts || (PaymentOf(s).Some? && NotedAttempt(a.attempts, b.attempts, PaymentOf(s).value)))
    && (forall p :: p in b.paid ==> (p in a.paid && b.paid[p] == a.paid[p]) || b.paid[p].id == s.newId)
    && LogOf(b, a.orders[o].demo) == LogOf(a, a.orders[o].demo)
  }

  lemma UnseenElsewhere(a: Db, b: Db, o: Uuid, s: Step, other: Step)
    requires IsWebhook(s) && o in a.orders && o in b.orders && WroteElsewhere(a, b, o, s)
    requires SameOrder(a.orders[o], b.orders[o])
    requires IsAbout(other, a.orders[o]) && !IsAbout(s, a.orders[o]) && UnseenWebhook(a, o, other)
    requires s.event.meta.id != other.event.meta.id && s.newId != other.newId
    requires PaymentOf(s).Some? ==> PaymentOf(s) != PaymentOf(other)
    ensures UnseenWebhook(b, o, other)
  {
    hide RequiredReference;
    assert s.event.body.orderId != other.event.body.orderId;
  }

  /** A payment of another demo's order, and at most one event and one attempt before it. */
  ghost predicate PaidElsewhere(a: Db, b: Db, o: Uuid, newId: Uuid)
    requires o in a.orders && a.orders[o].providerId.Some?
  {
    && b.events == a.events && b.attempts == a.attempts
    && (forall p :: p in b.paid ==> (p in a.paid && b.paid[p] == a.paid[p]) || b.paid[p].id == newId)
    && LogOf(b, a.orders[o].demo) == LogOf(a, a.orders[o].demo)
    && !OutboxClash(b, PaidEventId(o), a.orders[o].tenant, OrderPaidKey(a.orders[o]))
  }

  lemma ApplyPaidElsewhere(db: Db, meta: Envelope, q: Uuid, paymentId: Text, activationKey: Text, newId: Uuid, now: int, o: Uuid)
    requires q in db.orders && db.orders[q].providerId.Some? && o in db.orders && db.orders[o].providerId.Some?
    requires db.orders[q].demo != db.orders[o].demo && db.orders[q].domainId != db.orders[o].domainId
    requires !OutboxClash(db, PaidEventId(o), db.orders[o].tenant, OrderPaidKey(db.orders[o]))
    ensures
      var e := ApplyPaid(db, meta, q, paymentId, activationKey, OrderPaidKey(db.orders[q]), newId, now);
      e.Done? ==> PaidElsewhere(db, e.db, o, newId)
  {
    hide LogClash, PaidClash, ParsePlan, Payable, SetOrder, OrderPaidKey, OutboxClash, Move, PaidElsewhere, VerifiedRow;
    var x := db.orders[q];
    var e := ApplyPaid(db, meta, q, paymentId, activationKey, OrderPaidKey(x), newId, now);
    if e.Done? {
      if x.demo !in db.demos || !Payable(db.demos[x.demo].state) {
        ReviewedElsewhere(db, q, x.(status := UnderReview), o, newId);
      } else {
        var settled := x.(status := Settled, paidAt := Some(meta.occurredAt), version := x.version + 1);
        var row := Paid(newId, paymentId, activationKey, x.amount, x.currency, meta.occurredAt);
        SetOrderFrame(db, q, settled);
        SettledElsewhere(db, q, settled, row, meta.key, o, newId);
        var db1 := Move(SetOrder(db, q, settled), x.demo, VERIFY_PAYMENT, PAID, meta.key);
        var verified := VerifiedRow(q, x, ParsePlan(x.plan).value, paymentId, activationKey, OrderPaidKey(x), meta.occurredAt, now);
        PaidKeysDiffer(x, db.orders[o]);
        assert verified.key == OrderPaidKey(x) by {
          VerifiedRowKey(q, x, ParsePlan(x.plan).value, paymentId, activationKey, OrderPaidKey(x), meta.occurredAt, now);
        }
        RowElsewhere(db, db1.(paid := db1.paid[q := row]), q, verified, o, newId);
      }
    }
  }

  lemma VerifiedRowKey(q: Uuid, x: Order, planId: int, paymentId: Text, activationKey: Text, outboxKey: Text, at: int, now: int)
    requires x.providerId.Some?
    ensures VerifiedRow(q, x, planId, paymentId, activationKey, outboxKey, at, now).key == outboxKey
  {
  }

  lemma ReviewedElsewhere(db: Db, q: Uuid, order: Order, o: Uuid, newId: Uuid)
    requires o in db.orders && db.orders[o].providerId.Some?
    requires !OutboxClash(db, PaidEventId(o), db.orders[o].tenant, OrderPaidKey(db.orders[o]))
    ensures PaidElsewhere(db, SetOrder(db, q, order), o, newId)
  {
    hide SetOrder, OrderPaidKey;
    SetOrderFrame(db, q, order);
  }

  lemma SettledElsewhere(db: Db, q: Uuid, settled: Order, row: Paid, key: Text, o: Uuid, newId: Uuid)
    requires o in db.orders && db.orders[o].providerId.Some? && settled.demo in db.demos && row.id == newId
    requires settled.demo != db.orders[o].demo
    requires !OutboxClash(db, PaidEventId(o), db.orders[o].tenant, OrderPaidKey(db.orders[o]))
    ensures
      var db1 := Move(SetOrder(db, q, settled), settled.demo, VERIFY_PAYMENT, PAID, key);
      PaidElsewhere(db, db1.(paid := db1.paid[q := row]), o, newId)
  {
    hide SetOrder, OrderPaidKey;
    SetOrderFrame(db, q, settled);
  }

  lemma RowElsewhere(a: Db, b: Db, q: Uuid, row: OutboxRow, o: Uuid, newId: Uuid)
    requires o in a.orders && a.orders[o].providerId.Some? && PaidElsewhere(a, b, o, newId)
    requires q != o && row.key != OrderPaidKey(a.orders[o])
    ensures PaidElsewhere(a, AddOutbox(b, PaidEventId(q), row), o, newId)
  {
    hide OrderPaidKey;
  }

  lemma PaidKeysDiffer(x: Order, y: Order)
    requires x.providerId.Some? && y.providerId.Some? && x.domainId != y.domainId
    ensures OrderPaidKey(x) != OrderPaidKey(y)
  {
    var kx := [Str("paid-outbox"), x.domainId, x.providerId.value, UuidText(x.demo)];
    var ky := [Str("paid-outbox"), y.domainId, y.providerId.value, UuidText(y.demo)];
    assert kx[1] != ky[1];
  }

  /** The webhook's order, if there is one, belongs to another demo. */
  ghost predicate OfAnotherDemo(db: Db, demo: Uuid, s: Step)
    requires IsWebhook(s)
  {
    forall q :: q in db.orders && RequiredReference(s.event.body.orderId) == Some(db.orders[q].domainId) ==> db.orders[q].demo != demo
  }

  lemma WebhookWritesElsewhere(cfg: Config, db: Db, o: Uuid, s: Step)
    requires Awaiting(cfg, db, o) && IsWebhook(s) && OfAnotherDemo(db, db.orders[o].demo, s)
    ensures
      var after, order := Next(cfg, db, s), db.orders[o];
      WroteElsewhere(db, after, o, s) && !OutboxClash(after, PaidEventId(o), order.tenant, OrderPaidKey(order))
  {
    hide Inv, EventClash, OutboxClash, OrderPaidKey, Payable, Strip, Upper, ProcessBound, WroteElsewhere;
    var meta, body := s.event.meta, s.event.body;
    var e := ProcessCashfree(cfg, db, meta, body, s.newId, s.at);
    NothingElsewhere(db, o, s);
    if e.Done? {
      var w := ParseWebhook(body).value;
      BoundWritesElsewhere(cfg, db, o, s, Pick(OrdersByDomainId(db, w.orderId)).value);
    }
  }

  lemma BoundWritesElsewhere(cfg: Config, db: Db, o: Uuid, s: Step, q: Uuid)
    requires Awaiting(cfg, db, o) && IsWebhook(s) && q in db.orders && db.orders[q].demo != db.orders[o].demo
    requires ParseWebhook(s.event.body).Some?
    ensures
      var e := ProcessBound(cfg, db, s.event.meta, s.event.body, ParseWebhook(s.event.body).value, q, s.newId, s.at);
      e.Done? ==>
        WroteElsewhere(db, e.db, o, s)
        && !OutboxClash(e.db, PaidEventId(o), db.orders[o].tenant, OrderPaidKey(db.orders[o]))
  {
    hide Inv, EventClash, VerifyPayment, MakeMoney, WebhookBinding, WebhookEvidence, OutboxClash, OrderPaidKey,
         OrderActivationKey, Payable, StatusAfter, Strip, Upper, ApplyPaid, SetOrder, PaidElsewhere, WroteElsewhere;
    var meta, body := s.event.meta, s.event.body;
    var w := ParseWebhook(body).value;
    var e := ProcessBound(cfg, db, meta, body, w, q, s.newId, s.at);
    if e.Done? {
      var kind := Decide(cfg, db, meta, body, q, s.at).value.kind;
      var attempt := Attempt(q, meta.id, w.status, body.amountMinor.value, w.currency, meta.occurredAt);
      var db1 := RecordAttempt(RecordEvent(db, FromCashfree, meta.id, CashfreePayload(body), Some(kind)), w.paymentId, attempt);
      SameClash(db, db1, PaidEventId(o), db.orders[o].tenant, OrderPaidKey(db.orders[o]));
      PaidDecisionFacts(cfg, db, meta, body, q, s.at);
      DomainIdsDiffer(cfg, db, o, q);
      if kind == TransitionPaid {
        ApplyPaidElsewhere(db1, meta, q, w.paymentId, OrderActivationKey(db.orders[q]), s.newId, s.at, o);
      } else {
        ReviewedElsewhere(db1, q, db.orders[q].(status := StatusAfter(kind, db.orders[q].status)), o, s.newId);
      }
      EvidenceElsewhere(db, db1, e.db, o, s);
    }
  }

  lemma NothingElsewhere(db: Db, o: Uuid, s: Step)
    requires IsWebhook(s) && o in db.orders
    ensures WroteElsewhere(db, db, o, s)
  {
  }

  lemma EvidenceElsewhere(a: Db, b: Db, c: Db, o: Uuid, s: Step)
    requires IsWebhook(s) && o in a.orders && a.orders[o].providerId.Some? && PaymentOf(s).Some?
    requires b == a.(events := b.events, attempts := b.attempts) && PaidElsewhere(b, c, o, s.newId)
    requires NotedEvent(a.events, b.events, (FromCashfree, s.event.meta.id), CashfreePayload(s.event.body))
    requires NotedAttempt(a.attempts, b.attempts, PaymentOf(s).value)
    ensures WroteElsewhere(a, c, o, s) && !OutboxClash(c, PaidEventId(o), a.orders[o].tenant, OrderPaidKey(a.orders[o]))
  {
    hide RequiredReference, OrderPaidKey, OutboxClash;
  }

  /** Another demo's webhook leaves the order waiting, even when it pays. */
  lemma OtherWebhookLeavesWaiting(cfg: Config, db: Db, o: Uuid, steps: seq<Step>, s: Step)
    requires Awaiting(cfg, db, o) && IsWebhook(s) && OfAnotherDemo(db, db.orders[o].demo, s)
    requires SharesNothing(db.orders[o], steps, s)
    ensures LeavesWaiting(db, Next(cfg, db, s), o, db.orders[o], steps)
  {
    hide Inv, Next, UnseenWebhook, OutboxClash, OrderPaidKey, Payable, RequiredReference;
    var after, order := Next(cfg, db, s), db.orders[o];
    OrderIsKept(cfg, db, s, o);
    WebhookWritesElsewhere(cfg, db, o, s);
    forall i | 0 <= i < |steps| && IsAbout(steps[i], order) && UnseenWebhook(db, o, steps[i]) ensures UnseenWebhook(after, o, steps[i]) {
      UnseenElsewhere(db, after, o, s, steps[i]);
    }
  }

  // ---------------------------------------------------------------- whole runs

  /** The delivery of a row that does not move the order's demo, or a webhook of another demo's order. */
  ghost predicate OtherBusiness(cfg: Config, db: Db, order: Order, steps: seq<Step>, s: Step) {
    || (s.Deliver? && LogOf(Next(cfg, db, s), order.demo) == LogOf(db, order.demo))
    || (IsWebhook(s) && OfAnotherDemo(db, order.demo, s) && SharesNothing(order, steps, s))
  }

  lemma BusinessLeavesWaiting(cfg: Config, db: Db, o: Uuid, order: Order, steps: seq<Step>, s: Step)
    requires Awaiting(cfg, db, o) && SameOrder(order, db.orders[o]) && order.providerId.Some?
    requires OtherBusiness(cfg, db, order, steps, s)
    ensures LeavesWaiting(db, Next(cfg, db, s), o, order, steps)
  {
    hide Inv, Next, UnseenWebhook, OutboxClash, OrderPaidKey, Payable, RequiredReference;
    SameComparison(cfg, order, db.orders[o], s);
    if s.Deliver? {
      DeliveryLeavesWaiting(cfg, db, o, steps, s);
    } else {
      OtherWebhookLeavesWaiting(cfg, db, o, steps, s);
    }
  }

  /** Between the webhooks about the order lie reconciliation and, while it is unpaid, other business. */
  ghost predicate AmongOthers(cfg: Config, db: Db, o: Uuid, steps: seq<Step>)
    requires o in db.orders
  {
    forall i | 0 <= i < |steps| && !IsAbout(steps[i], db.orders[o]) && !IsReconciliation(steps[i]) ::
      o in Exec(cfg, db, steps[..i]).paid || OtherBusiness(cfg, Exec(cfg, db, steps[..i]), db.orders[o], steps, steps[i])
  }

  lemma {:induction false} OthersInterleave(cfg: Config, db: Db, o: Uuid, steps: seq<Step>, n: nat)
    requires n <= |steps| && Awaiting(cfg, db, o) && ItsWebhooks(db, o, steps) && AmongOthers(cfg, db, o, steps)
    ensures Interleaved(cfg, db, o, steps, n)
  {
    hide Inv, Next, ItsWebhooks, LeavesWaiting, SucceedsIn, StillUnseen, OtherBusiness, OutboxClash, Payable, IsAbout;
    if n > 0 {
      var i, order := n - 1, db.orders[o];
      OthersInterleave(cfg, db, o, steps, i);
      VerdictAfter(cfg, db, o, steps, i);
      var middle, front := Exec(cfg, db, steps[..i]), steps[..n];
      assert front[..i] == steps[..i] && front[i] == steps[i];
      if !IsAbout(steps[i], order) && !IsReconciliation(steps[i]) && o !in middle.paid {
        BusinessLeavesWaiting(cfg, middle, o, order, steps, steps[i]);
      }
    }
  }

  /** So its webhooks alone decide the order, among deliveries and other demos' webhooks. */
  lemma PaidAmongOthers(cfg: Config, db: Db, o: Uuid, steps: seq<Step>)
    requires Awaiting(cfg, db, o) && ItsWebhooks(db, o, steps) && AmongOthers(cfg, db, o, steps)
    ensures o in Exec(cfg, db, steps).paid <==> SucceedsIn(cfg, db.orders[o], steps)
  {
    hide Inv, Exec, ItsWebhooks, Interleaved, AmongOthers, SucceedsIn, OutboxClash, Payable;
    OthersInterleave(cfg, db, o, steps, |steps|);
    PaidIffSomeBoundSuccess(cfg, db, o, steps);
  }
}
