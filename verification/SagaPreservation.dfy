/**
 Every step keeps the invariant, so it holds of every reachable database.
 */
module SagaPreservation {
  import opened Identifiers
  import opened Lifecycle
  import opened Monetary
  import opened PaymentVerification
  import opened Store
  import opened Handlers
  import opened SagaInvariant
  import opened Frames
  import Digits

  // ---------------------------------------------------------------- shared pieces

  /** Tables the invariant does not mention may change freely. */
  lemma OtherTablesKeepInv(cfg: Config, db: Db, after: Db)
    requires Inv(cfg, db)
    requires after == db.(conversations := after.conversations, checkouts := after.checkouts, events := after.events,
                          messages := after.messages, reconciliations := after.reconciliations)
    ensures Inv(cfg, after)
  {
    hide LogInv, OrdersInv, RowsInv, CashfreeInv, PaidInv, SettledInv, HandoffInv, EvidenceInv, CountInv, RequestsInv, StartedInv;
  }

  lemma SetHandoffKeepsHandoffs(orders: map<Uuid, Order>, paid: map<Uuid, Paid>, outbox: map<Uuid, OutboxRow>,
                                handoffs: map<Uuid, Handoff>, o: Uuid, h: Handoff)
    requires HandoffInv(orders, paid, outbox, handoffs) && HandoffOk(orders, paid, outbox, o, h)
    ensures HandoffInv(orders, paid, outbox, handoffs[o := h])
  {
  }

  lemma SetHandoffKeepsEvidence(demos: map<Uuid, Demo>, orders: map<Uuid, Order>, paid: map<Uuid, Paid>,
                                handoffs: map<Uuid, Handoff>, o: Uuid, h: Handoff)
    requires EvidenceInv(demos, orders, paid, handoffs)
    ensures EvidenceInv(demos, orders, paid, handoffs[o := h])
  {
    forall d | HasHandoff(orders, paid, handoffs, d) ensures HasHandoff(orders, paid, handoffs[o := h], d) {
    }
  }

  lemma SetHandoffKeepsInv(cfg: Config, db: Db, o: Uuid, h: Handoff)
    requires Inv(cfg, db) && HandoffOk(db.orders, db.paid, db.outbox, o, h)
    ensures Inv(cfg, SetHandoff(db, o, h))
  {
    hide LogInv, OrdersInv, RowsInv, CashfreeInv, PaidInv, SettledInv, HandoffInv, EvidenceInv, CountInv, RequestsInv, StartedInv, HandoffOk;
    SetHandoffKeepsHandoffs(db.orders, db.paid, db.outbox, db.handoffs, o, h);
    SetHandoffKeepsEvidence(db.demos, db.orders, db.paid, db.handoffs, o, h);
  }

  lemma AddAttemptKeepsInv(cfg: Config, db: Db, paymentId: Text, attempt: Attempt)
    requires Inv(cfg, db) && paymentId !in db.attempts
    ensures Inv(cfg, RecordAttempt(db, paymentId, attempt))
  {
    hide LogInv, OrdersInv, RowsInv, CashfreeInv, SettledInv, HandoffInv, EvidenceInv, CountInv, RequestsInv, StartedInv;
    forall p | p in db.paid ensures PaidOk(cfg, db.orders, RecordAttempt(db, paymentId, attempt).attempts, db.outbox, p, db.paid[p]) {
      assert PaidOk(cfg, db.orders, db.attempts, db.outbox, p, db.paid[p]);
    }
  }

  lemma SetRequestKeepsInv(cfg: Config, db: Db, k: (Text, Text), r: ProviderRequest)
    requires Inv(cfg, db) && k in db.requests && !r.status.Queued? && r.hash == db.requests[k].hash
    ensures Inv(cfg, db.(requests := db.requests[k := r]))
  {
    hide LogInv, OrdersInv, RowsInv, CashfreeInv, PaidInv, SettledInv, HandoffInv, EvidenceInv, CountInv, StartedInv;
  }

  // ---------------------------------------------------------------- Request

  lemma NewRequestKept(db: Db, tenant: Text, c: OrderCommand, correlation: Text)
    requires RequestsInv(db.requests) && !HasActiveRequest(db, tenant, c.demo)
    ensures RequestsInv(db.requests[(tenant, UuidText(c.request)) := ProviderRequest(c, UuidText(c.demo), Queued, correlation)])
  {
    forall k | k in db.requests && k.0 == tenant && db.requests[k].status.Queued? ensures db.requests[k].hash.demo != c.demo {
      assert RequestOk(k, db.requests[k]);
      assert !QuoteInFlight(tenant, c.demo, k, db.requests[k]);
    }
  }

  lemma RequestKeepsInv(cfg: Config, db: Db, tenant: Text, c: OrderCommand, correlation: Text, now: int)
    requires Inv(cfg, db)
    ensures Inv(cfg, RequestOrder(cfg, db, tenant, c, correlation, now).1)
  {
    hide LogInv, OrdersInv, RowsInv, CashfreeInv, PaidInv, SettledInv, HandoffInv, EvidenceInv, CountInv, RequestsInv, StartedInv;
    hide HasActiveOrder, HasActiveRequest;
    var (answer, after) := RequestOrder(cfg, db, tenant, c, correlation, now);
    if answer.QuotePending? {
      var p := QuotePayload(c.request, c.demo, c.user, c.plan, c.phone, DEMO_CONVERSION, correlation);
      var row := NewRow(c.request, tenant, WEBSITE, UuidText(c.request), correlation, p, now);
      AddRowKeepsInv(cfg, db, c.request, row);
      NewRequestKept(db, tenant, c, correlation);
      assert after == AddOutbox(db, c.request, row).(requests := after.requests);
    }
  }

  // ---------------------------------------------------------------- RecordQuote

  lemma NewOrderOk(cfg: Config, db: Db, id: Uuid, row: OutboxRow, p: Payload, q: Quote, now: int)
    requires ValidQuotePayload(p) && ValidQuote(q) && QuoteBound(id, row, p, q)
    requires p.demo in db.demos && db.demos[p.demo].tenant == row.tenant && db.demos[p.demo].user == Some(p.user)
    requires db.demos[p.demo].state == CONVERSION_FOLLOW_UP
    ensures OrderOk(cfg, db.demos, PaymentOrderId(p.request), NewOrder(cfg, row, p, q, now))
  {
  }

  lemma AddOrderKeepsOrders(cfg: Config, demos: map<Uuid, Demo>, orders: map<Uuid, Order>, o: Uuid, order: Order)
    requires OrdersInv(cfg, demos, orders) && OrderOk(cfg, demos, o, order) && order.providerId.None?
    requires forall p :: p in orders && orders[p].tenant == order.tenant ==> orders[p].domainId != order.domainId
    ensures OrdersInv(cfg, demos, orders[o := order])
  {
    forall p | p in orders ensures orders[p].domainId != order.domainId {
      assert OrderOk(cfg, demos, p, orders[p]);
    }
  }

  lemma AddOrderKeepsCashfree(cfg: Config, orders: map<Uuid, Order>, outbox: map<Uuid, OutboxRow>, request: Uuid, order: Order, row: OutboxRow)
    requires CashfreeInv(orders, outbox)
    requires PaymentOrderId(request) !in orders && CashfreeEventId(request) !in outbox
    requires row.cipher.plain.CashfreeOrderPayload? && row.cipher.plain.order == PaymentOrderId(request)
    requires CashfreeRowOk(map[PaymentOrderId(request) := order], row)
    ensures CashfreeInv(orders[PaymentOrderId(request) := order], outbox[CashfreeEventId(request) := row])
  {
    var o, id := PaymentOrderId(request), CashfreeEventId(request);
    forall e | e in outbox && outbox[e].cipher.plain.CashfreeOrderPayload? ensures CashfreeRowOk(orders[o := order], outbox[e]) {
      assert CashfreeRowOk(orders, outbox[e]);
    }
  }

  /** A new order that has no paid transition leaves every paid one as it was. */
  lemma AddOrderKeepsPaid(cfg: Config, orders: map<Uuid, Order>, attempts: map<Text, Attempt>,
                          outbox: map<Uuid, OutboxRow>, paid: map<Uuid, Paid>, o: Uuid, order: Order)
    requires PaidInv(cfg, orders, attempts, outbox, paid) && o !in orders
    ensures PaidInv(cfg, orders[o := order], attempts, outbox, paid)
  {
    forall p | p in paid ensures PaidOk(cfg, orders[o := order], attempts, outbox, p, paid[p]) {
      assert PaidOk(cfg, orders, attempts, outbox, p, paid[p]);
    }
  }

  lemma AddOrderKeepsHandoffs(orders: map<Uuid, Order>, paid: map<Uuid, Paid>, outbox: map<Uuid, OutboxRow>,
                              handoffs: map<Uuid, Handoff>, o: Uuid, order: Order)
    requires HandoffInv(orders, paid, outbox, handoffs) && o !in orders
    ensures HandoffInv(orders[o := order], paid, outbox, handoffs)
  {
  }

  lemma AddOrderKeepsEvidence(demos: map<Uuid, Demo>, orders: map<Uuid, Order>, paid: map<Uuid, Paid>,
                              handoffs: map<Uuid, Handoff>, o: Uuid, order: Order)
    requires EvidenceInv(demos, orders, paid, handoffs) && o !in orders
    ensures EvidenceInv(demos, orders[o := order], paid, handoffs)
  {
    forall d ensures HasPaidOrder(orders, paid, d) ==> HasPaidOrder(orders[o := order], paid, d) {
    }
    forall d ensures HasHandoff(orders, paid, handoffs, d) ==> HasHandoff(orders[o := order], paid, handoffs, d) {
    }
  }

  lemma AddOrderGroups(orders: map<Uuid, Order>, o: Uuid, order: Order, d: Uuid)
    requires o !in orders
    ensures |OrdersOf(orders[o := order], d)| == |OrdersOf(orders, d)| + if d == order.demo then 1 else 0
  {
    var before, after := OrdersOf(orders, d), OrdersOf(orders[o := order], d);
    if d == order.demo {
      assert after == before + {o};
    } else {
      assert after == before;
    }
  }

  lemma AddOrderPaidGroups(orders: map<Uuid, Order>, paid: map<Uuid, Paid>, o: Uuid, order: Order, d: Uuid)
    requires o !in orders && o !in paid
    ensures PaidOrdersOf(orders[o := order], paid, d) == PaidOrdersOf(orders, paid, d)
  {
  }

  /** A new order is counted by the REQUEST_PAYMENT that is logged with it. */
  lemma AddOrderCounted(db: Db, key: Text, o: Uuid, order: Order)
    requires LogInv(db.demos, db.log) && CountInv(db.log, db.orders, db.paid) && order.demo in db.demos
    requires o !in db.orders && o !in db.paid
    ensures CountInv(Move(db, order.demo, REQUEST_PAYMENT, PAYMENT_PENDING, key).log, db.orders[o := order], db.paid)
  {
    hide LogInv, OrdersOf, PaidOrdersOf, Count, Move;
    MoveCounts(db, order.demo, REQUEST_PAYMENT, PAYMENT_PENDING, key, REQUEST_PAYMENT);
    MoveCounts(db, order.demo, REQUEST_PAYMENT, PAYMENT_PENDING, key, VERIFY_PAYMENT);
    forall d | d in db.log
      ensures |OrdersOf(db.orders[o := order], d)| == |OrdersOf(db.orders, d)| + if d == order.demo then 1 else 0
      ensures PaidOrdersOf(db.orders[o := order], db.paid, d) == PaidOrdersOf(db.orders, db.paid, d)
    {
      AddOrderGroups(db.orders, o, order, d);
      AddOrderPaidGroups(db.orders, db.paid, o, order, d);
    }
    MoveInLog(db, order.demo, REQUEST_PAYMENT, PAYMENT_PENDING, key);
  }

  lemma PaidHasOrder(cfg: Config, orders: map<Uuid, Order>, attempts: map<Text, Attempt>,
                     outbox: map<Uuid, OutboxRow>, paid: map<Uuid, Paid>)
    requires PaidInv(cfg, orders, attempts, outbox, paid)
    ensures paid.Keys <= orders.Keys
  {
    forall o | o in paid ensures o in orders {
      assert PaidOk(cfg, orders, attempts, outbox, o, paid[o]);
    }
  }

  lemma CashfreeRowFits(cfg: Config, id: Uuid, row: OutboxRow, p: Payload, q: Quote, now: int)
    requires ValidQuotePayload(p) && ValidQuote(q) && QuoteBound(id, row, p, q)
    ensures
      var order := NewOrder(cfg, row, p, q, now);
      var cashfree := CashfreeRow(p, order, now);
      RowOk(CashfreeEventId(p.request), cashfree) && CashfreeRowOk(map[PaymentOrderId(p.request) := order], cashfree)
  {
  }

  /** A new order with its Cashfree request row, before the move is logged. */
  ghost predicate OrderWrite(cfg: Config, db: Db, request: Uuid, order: Order, cashfree: OutboxRow) {
    && OrderOk(cfg, db.demos, PaymentOrderId(request), order)
    && order.demo in db.demos && db.demos[order.demo].state == CONVERSION_FOLLOW_UP && order.providerId.None? && !order.status.Settled?
    && PaymentOrderId(request) !in db.orders && CashfreeEventId(request) !in db.outbox
    && (forall x :: x in db.orders && db.orders[x].tenant == order.tenant ==> db.orders[x].domainId != order.domainId)
    && RowOk(CashfreeEventId(request), cashfree)
    && cashfree.cipher.plain.CashfreeOrderPayload? && cashfree.cipher.plain.order == PaymentOrderId(request)
    && CashfreeRowOk(map[PaymentOrderId(request) := order], cashfree)
  }

  lemma AddOrderKeepsTables(cfg: Config, db: Db, request: Uuid, order: Order, cashfree: OutboxRow)
    requires Inv(cfg, db) && OrderWrite(cfg, db, request, order, cashfree)
    ensures
      var o := PaymentOrderId(request);
      var orders, outbox := db.orders[o := order], db.outbox[CashfreeEventId(request) := cashfree];
      && o !in db.paid
      && OrdersInv(cfg, db.demos, orders)
      && RowsInv(outbox)
      && CashfreeInv(orders, outbox)
      && PaidInv(cfg, orders, db.attempts, outbox, db.paid)
      && SettledInv(orders, db.paid)
      && HandoffInv(orders, db.paid, outbox, db.handoffs)
      && EvidenceInv(db.demos, orders, db.paid, db.handoffs)
      && StartedInv(db.demos, outbox)
  {
    hide LogInv, OrdersInv, RowsInv, CashfreeInv, PaidInv, SettledInv, HandoffInv, EvidenceInv, CountInv, RequestsInv, StartedInv;
    hide OrderOk, CashfreeRowOk, RowOk, OutboxKept;
    var o, cashfreeId := PaymentOrderId(request), CashfreeEventId(request);
    var orders, outbox := db.orders[o := order], db.outbox[cashfreeId := cashfree];
    PaidHasOrder(cfg, db.orders, db.attempts, db.outbox, db.paid);
    AddOrderKeepsOrders(cfg, db.demos, db.orders, o, order);
    AddOrderKeepsCashfree(cfg, db.orders, db.outbox, request, order, cashfree);
    AddOrderKeepsPaid(cfg, db.orders, db.attempts, db.outbox, db.paid, o, order);
    NewRowKept(db.outbox, cashfreeId, cashfree);
    KeptRowsKeepPaid(cfg, orders, db.attempts, db.outbox, outbox, db.paid);
    KeptRowsKeepRows(db.outbox, outbox);
    AddOrderKeepsHandoffs(db.orders, db.paid, db.outbox, db.handoffs, o, order);
    KeptRowsKeepHandoffs(orders, db.paid, db.outbox, outbox, db.handoffs);
    AddOrderKeepsEvidence(db.demos, db.orders, db.paid, db.handoffs, o, order);
    SetOrderKeepsSettled(db.orders, db.paid, o, order);
    KeptRowsKeepStarted(db.demos, db.outbox, outbox);
  }

  lemma RequestEdge(key: Text)
    ensures SagaEdge(LogEntry(CONVERSION_FOLLOW_UP, REQUEST_PAYMENT, PAYMENT_PENDING, key))
  {
  }

  /** The order, its Cashfree request row and the logged move, added together. */
  lemma AddOrderKeepsInv(cfg: Config, db: Db, request: Uuid, order: Order, cashfree: OutboxRow, key: Text)
    requires Inv(cfg, db) && OrderWrite(cfg, db, request, order, cashfree)
    ensures
      Inv(cfg, Move(AddOutbox(SetOrder(db, PaymentOrderId(request), order), CashfreeEventId(request), cashfree),
                    order.demo, REQUEST_PAYMENT, PAYMENT_PENDING, key))
  {
    hide LogInv, OrdersInv, RowsInv, CashfreeInv, PaidInv, SettledInv, HandoffInv, EvidenceInv, CountInv, RequestsInv, StartedInv;
    AddOrderKeepsTables(cfg, db, request, order, cashfree);
    RequestEdge(key);
    assert order.demo in db.demos && db.demos[order.demo].state == CONVERSION_FOLLOW_UP && PaymentOrderId(request) !in db.orders;
    hide OrderWrite, SagaEdge, Move;
    var db1 := AddOutbox(SetOrder(db, PaymentOrderId(request), order), CashfreeEventId(request), cashfree);
    MoveFrame(db1, order.demo, REQUEST_PAYMENT, PAYMENT_PENDING, key);
    MoveKeepsLog(db1, order.demo, REQUEST_PAYMENT, PAYMENT_PENDING, key);
    MoveKeepsOwners(cfg, db1, order.demo, REQUEST_PAYMENT, PAYMENT_PENDING, key);
    MoveKeepsEvidence(db1, order.demo, REQUEST_PAYMENT, PAYMENT_PENDING, key);
    AddOrderCounted(db, key, PaymentOrderId(request), order);
    MoveKeepsStarted(db1, order.demo, REQUEST_PAYMENT, PAYMENT_PENDING, key);
  }

  lemma OrderedKeepsInv(cfg: Config, db: Db, id: Uuid, row: OutboxRow, p: Payload, q: Quote, now: int)
    requires Inv(cfg, db)
    requires ValidQuotePayload(p) && ValidQuote(q) && QuoteBound(id, row, p, q)
    requires p.demo in db.demos && db.demos[p.demo].tenant == row.tenant && db.demos[p.demo].user == Some(p.user)
    requires db.demos[p.demo].state == CONVERSION_FOLLOW_UP
    requires !OrderClash(db, PaymentOrderId(p.request), NewOrder(cfg, row, p, q, now))
    requires CashfreeEventId(p.request) !in db.outbox
    ensures Inv(cfg, OrderedDb(db, row, p, NewOrder(cfg, row, p, q, now), q, now))
  {
    hide Inv, OrderOk, CashfreeRowOk, RowOk, ValidQuote;
    var order := NewOrder(cfg, row, p, q, now);
    NewOrderOk(cfg, db, id, row, p, q, now);
    CashfreeRowFits(cfg, id, row, p, q, now);
    AddOrderKeepsInv(cfg, db, p.request, order, CashfreeRow(p, order, now), RequestLogKey(p.request));
    var moved := Move(AddOutbox(SetOrder(db, PaymentOrderId(p.request), order), CashfreeEventId(p.request), CashfreeRow(p, order, now)),
                      p.demo, REQUEST_PAYMENT, PAYMENT_PENDING, RequestLogKey(p.request));
    QuoteVerifiedKeepsInv(cfg, moved, row.tenant, row.key, q.planVersion);
  }

  lemma QuoteVerifiedKeepsInv(cfg: Config, db: Db, tenant: Text, key: Text, planVersion: Text)
    requires Inv(cfg, db)
    ensures Inv(cfg, MarkQuoteVerified(db, tenant, key, planVersion))
  {
    hide Inv;
    if (tenant, key) in db.requests {
      SetRequestKeepsInv(cfg, db, (tenant, key), db.requests[(tenant, key)].(status := QuoteVerified, reference := planVersion));
    }
  }

  lemma RecordQuoteKeepsInv(cfg: Config, db: Db, id: Uuid, row: OutboxRow, p: Payload, d: Details, now: int)
    requires Inv(cfg, db)
    ensures RecordQuote(cfg, db, id, row, p, d, now).Done? ==> Inv(cfg, RecordQuote(cfg, db, id, row, p, d, now).db)
    ensures RecordQuote(cfg, db, id, row, p, d, now).Raised? ==> RecordQuote(cfg, db, id, row, p, d, now).db == db
  {
    hide Inv, ValidQuote, QuoteBound, MatchesExisting, OrderClash, LogClash, OrdersByCreationKey, OrderedDb, NewOrder;
    var effect := RecordQuote(cfg, db, id, row, p, d, now);
    if effect.Done? && effect.db != db {
      assert ValidQuotePayload(p) && d.QuoteDetails? && ValidQuote(d.quote) && QuoteBound(id, row, p, d.quote);
      OrderedKeepsInv(cfg, db, id, row, p, d.quote, now);
    }
  }

  // ---------------------------------------------------------------- RecordCashfree

  lemma RecordCashfreeKeepsInv(cfg: Config, db: Db, id: Uuid, row: OutboxRow, p: Payload, reference: Text, d: Details, now: int)
    requires Inv(cfg, db)
    ensures !RecordCashfree(db, id, row, p, reference, d, now).Violation? ==> Inv(cfg, RecordCashfree(db, id, row, p, reference, d, now).db)
  {
    hide Inv, CashfreeBound, ProviderOrderClash, BoundOrder, MarkReady;
    var effect := RecordCashfree(db, id, row, p, reference, d, now);
    if !effect.Violation? && effect.db != db {
      var order := db.orders[p.order];
      if effect.Raised? {
        SetStatusKeepsInv(cfg, db, p.order, order.(status := UnderReview));
      } else {
        BindOrderKeepsInv(cfg, db, p, d.ack, now);
        var db1 := SetOrder(db, p.order, BoundOrder(order, d.ack.providerId, now));
        var db2 := db1.(checkouts := db1.checkouts[p.order := Checkout(d.ack.secret, order.expiresAt)]);
        OtherTablesKeepInv(cfg, db1, db2);
        ReadyKeepsInv(cfg, db2, row.tenant, UuidText(p.request), d.ack.providerId);
      }
    }
  }

  lemma BindOrderKeepsInv(cfg: Config, db: Db, p: Payload, a: Acknowledgement, now: int)
    requires Inv(cfg, db) && p.CashfreeOrderPayload? && p.order in db.orders && a.providerId != Str("")
    requires db.orders[p.order].providerId == None || db.orders[p.order].providerId == Some(a.providerId)
    requires !ProviderOrderClash(db, p.order, a.providerId)
    ensures Inv(cfg, SetOrder(db, p.order, BoundOrder(db.orders[p.order], a.providerId, now)))
  {
    hide Inv;
    SetOrderKeepsInv(cfg, db, p.order, BoundOrder(db.orders[p.order], a.providerId, now));
  }

  lemma ReadyKeepsInv(cfg: Config, db: Db, tenant: Text, key: Text, providerId: Text)
    requires Inv(cfg, db)
    ensures Inv(cfg, MarkReady(db, tenant, key, providerId))
  {
    hide Inv;
    if (tenant, key) in db.requests {
      SetRequestKeepsInv(cfg, db, (tenant, key), db.requests[(tenant, key)].(status := Ready, reference := providerId));
    }
  }

  // ---------------------------------------------------------------- onboarding

  lemma PaidFacts(cfg: Config, db: Db, o: Uuid)
    requires Inv(cfg, db) && o in db.paid
    ensures PaidOk(cfg, db.orders, db.attempts, db.outbox, o, db.paid[o])
  {
    hide LogInv, OrdersInv, RowsInv, CashfreeInv, SettledInv, HandoffInv, EvidenceInv, CountInv, RequestsInv, StartedInv, PaidOk;
  }

  lemma RowFacts(cfg: Config, db: Db, id: Uuid)
    requires Inv(cfg, db) && id in db.outbox
    ensures RowOk(id, db.outbox[id])
  {
    hide LogInv, OrdersInv, CashfreeInv, PaidInv, SettledInv, HandoffInv, EvidenceInv, CountInv, RequestsInv, StartedInv, RowOk;
  }

  lemma VerifiedRowIsPaid(cfg: Config, db: Db, id: Uuid)
    requires Inv(cfg, db) && id in db.outbox && db.outbox[id].cipher.plain.VerifiedPayload?
    ensures exists o :: o in db.paid && id == PaidEventId(o)
  {
    hide LogInv, OrdersInv, RowsInv, CashfreeInv, SettledInv, HandoffInv, EvidenceInv, CountInv, RequestsInv, StartedInv, PaidOk;
  }

  lemma ProviderIdsDiffer(cfg: Config, db: Db, a: Uuid, b: Uuid)
    requires Inv(cfg, db) && a in db.orders && b in db.orders
    requires db.orders[a].providerId.Some? && db.orders[a].providerId == db.orders[b].providerId
    ensures a == b
  {
    hide LogInv, RowsInv, CashfreeInv, PaidInv, SettledInv, HandoffInv, EvidenceInv, CountInv, RequestsInv, StartedInv, OrderOk;
  }

  /** The order that an activation's acknowledgement finds is the one its verified row was queued for. */
  lemma AcknowledgedOrderFacts(cfg: Config, db: Db, id: Uuid, o: Uuid)
    requires Inv(cfg, db) && id in db.outbox && db.outbox[id].cipher.plain.VerifiedPayload?
    requires o in db.orders && db.orders[o].providerId == Some(db.outbox[id].cipher.plain.providerOrder)
    ensures o in db.paid && db.outbox[id].tenant == db.orders[o].tenant && db.outbox[id].correlation == db.orders[o].correlation
    ensures db.outbox[id].cipher.plain.evidence == db.paid[o].paymentId
  {
    hide Inv, AttemptSupports, OrderPaidKey, OrderActivationKey, ParsePlan;
    VerifiedRowIsPaid(cfg, db, id);
    var x :| x in db.paid && id == PaidEventId(x);
    PaidFacts(cfg, db, x);
    ProviderIdsDiffer(cfg, db, o, x);
  }

  lemma QueueOnboardingKeepsInv(cfg: Config, db: Db, id: Uuid, row: OutboxRow, p: Payload, activation: Text, newId: Uuid, now: int)
    requires Inv(cfg, db) && id in db.outbox && row == db.outbox[id] && p == row.cipher.plain
    ensures QueueOnboarding(db, row, p, activation, newId, now).Done? ==> Inv(cfg, QueueOnboarding(db, row, p, activation, newId, now).db)
    ensures QueueOnboarding(db, row, p, activation, newId, now).Raised? ==> QueueOnboarding(db, row, p, activation, newId, now).db == db
  {
    hide Inv, HandoffQueued, HandoffClash;
    var effect := QueueOnboarding(db, row, p, activation, newId, now);
    if effect.Done? && effect.db != db {
      var o := Pick(OrdersByProviderId(db, row.tenant, p.providerOrder, p.demo)).value;
      var paidId := db.paid[o].id;
      var key, queuedId := OnboardingKey(paidId), OnboardingEventId(paidId);
      AcknowledgedOrderFacts(cfg, db, id, o);
      var queued := OnboardingRow(db, row.tenant, o, row.correlation, p, activation, now);
      var handoff := Handoff(newId, row.tenant, paidId, key, HandoffPending, None, 0, None);
      AddRowKeepsInv(cfg, db, queuedId, queued);
      SetHandoffKeepsInv(cfg, AddOutbox(db, queuedId, queued), o, handoff);
      assert effect.db == SetHandoff(AddOutbox(db, queuedId, queued), o, handoff);
    }
  }

  lemma HandoffFacts(cfg: Config, db: Db, o: Uuid)
    requires Inv(cfg, db) && o in db.handoffs
    ensures HandoffOk(db.orders, db.paid, db.outbox, o, db.handoffs[o])
  {
    hide LogInv, OrdersInv, RowsInv, CashfreeInv, PaidInv, SettledInv, EvidenceInv, CountInv, RequestsInv, StartedInv, HandoffOk;
  }

  /** A handoff may change its status and acknowledgement; its order stays paid. */
  lemma UpdateHandoffKeepsInv(cfg: Config, db: Db, o: Uuid, h: Handoff)
    requires Inv(cfg, db) && o in db.handoffs
    requires h == db.handoffs[o].(status := h.status, acknowledgement := h.acknowledgement, attempts := h.attempts, welcome := h.welcome)
    ensures Inv(cfg, SetHandoff(db, o, h))
    ensures o in db.orders && HasHandoff(db.orders, db.paid, SetHandoff(db, o, h).handoffs, db.orders[o].demo)
  {
    hide Inv;
    HandoffFacts(cfg, db, o);
    SetHandoffKeepsInv(cfg, db, o, h);
  }

  lemma RecordAcceptanceKeepsInv(cfg: Config, db: Db, row: OutboxRow, reference: Text)
    requires Inv(cfg, db)
    ensures !RecordAcceptance(db, row, reference).Violation? ==> Inv(cfg, RecordAcceptance(db, row, reference).db)
  {
    hide Inv, HasHandoff, LogClash;
    var effect := RecordAcceptance(db, row, reference);
    if !effect.Violation? && effect.db != db {
      var o := Pick(HandoffsByKey(db, row.tenant, row.key)).value;
      var h := db.handoffs[o];
      var accepted := h.(status := HandoffAccepted, acknowledgement := Some(reference), attempts := h.attempts + 1);
      UpdateHandoffKeepsInv(cfg, db, o, accepted);
      var db1 := SetHandoff(db, o, accepted);
      if effect.db != db1 {
        PlainMoveKeepsInv(cfg, db1, db.orders[o].demo, HANDOFF_ONBOARDING, ONBOARDING_HANDOFF, AcceptedLogKey(h.id));
      }
    }
  }

  lemma AcceptKeepsInv(cfg: Config, db: Db, meta: Envelope, demo: Uuid, user: Text, onboarding: Text)
    requires Inv(cfg, db)
    ensures AcceptOnboarding(cfg, db, meta, demo, user, onboarding).Done? ==> Inv(cfg, AcceptOnboarding(cfg, db, meta, demo, user, onboarding).db)
  {
    hide Inv, HasHandoff, LogClash, OnboardingContext;
    var effect := AcceptOnboarding(cfg, db, meta, demo, user, onboarding);
    ContextFacts(db, meta.tenant, demo, user);
    if effect.Done? {
      var o := OnboardingContext(db, meta.tenant, demo, user).value;
      var accepted := db.handoffs[o].(status := HandoffAccepted, acknowledgement := Some(onboarding));
      UpdateHandoffKeepsInv(cfg, db, o, accepted);
      var db1 := SetHandoff(db, o, accepted);
      if effect.db != db1 {
        PlainMoveKeepsInv(cfg, db1, demo, HANDOFF_ONBOARDING, ONBOARDING_HANDOFF, meta.key);
      }
    }
  }

  lemma ConvertedKeepsInv(cfg: Config, db: Db, meta: Envelope, o: Uuid, demo: Uuid, now: int)
    requires Inv(cfg, db) && o in db.handoffs && o in db.orders && demo in db.demos && db.orders[o].demo == demo
    requires db.demos[demo].state == ONBOARDING_HANDOFF && WelcomeEventId(db.handoffs[o].id) !in db.outbox
    ensures Inv(cfg, ConvertedDb(db, meta, o, demo, now))
  {
    hide Inv, HasHandoff, Move, WelcomeRow, RowOk;
    var h := db.handoffs[o];
    var completed := h.(status := HandoffCompleted, welcome := Some(WelcomeMessageId(h.id)));
    var row := WelcomeRow(meta, demo, db.demos[demo].conversation, h.id, now);
    UpdateHandoffKeepsInv(cfg, db, o, completed);
    var db1 := SetHandoff(db, o, completed);
    var db2 := db1.(messages := db1.messages[WelcomeMessageId(h.id) := Message(meta.tenant, WelcomeKey(h.id), demo)]);
    OtherTablesKeepInv(cfg, db1, db2);
    MoveFrame(db2, demo, COMPLETE_ONBOARDING, CONVERTED, meta.key);
    WelcomeRowFits(meta, demo, db.demos[demo].conversation, h.id, now);
    PlainMoveKeepsInv(cfg, db2, demo, COMPLETE_ONBOARDING, CONVERTED, meta.key);
    AddRowKeepsInv(cfg, Move(db2, demo, COMPLETE_ONBOARDING, CONVERTED, meta.key), WelcomeEventId(h.id), row);
  }

  lemma WelcomeRowFits(meta: Envelope, demo: Uuid, recipient: Text, handoff: Uuid, now: int)
    ensures
      var row := WelcomeRow(meta, demo, recipient, handoff, now);
      RowOk(WelcomeEventId(handoff), row) && row.cipher.plain.DeliveryPayload?
  {
  }

  lemma CompleteKeepsInv(cfg: Config, db: Db, meta: Envelope, demo: Uuid, user: Text, now: int)
    requires Inv(cfg, db)
    ensures CompleteOnboarding(cfg, db, meta, demo, user, now).Done? ==> Inv(cfg, CompleteOnboarding(cfg, db, meta, demo, user, now).db)
  {
    hide Inv, LogClash, OnboardingContext, MessageClash, ConvertedDb;
    var effect := CompleteOnboarding(cfg, db, meta, demo, user, now);
    ContextFacts(db, meta.tenant, demo, user);
    if effect.Done? && effect.db != db {
      ConvertedKeepsInv(cfg, db, meta, OnboardingContext(db, meta.tenant, demo, user).value, demo, now);
    }
  }

  // ---------------------------------------------------------------- Cashfree webhooks

  lemma OrderFacts(cfg: Config, db: Db, o: Uuid)
    requires Inv(cfg, db) && o in db.orders
    ensures OrderOk(cfg, db.demos, o, db.orders[o])
  {
    hide LogInv, RowsInv, CashfreeInv, PaidInv, SettledInv, HandoffInv, EvidenceInv, CountInv, RequestsInv, StartedInv, OrderOk;
  }

  /** The plan of a stored order is a positive number, so the numeric-plan errors cannot occur. */
  lemma PlanIsNumeric(order: Order)
    requires NumericPlan(order.plan)
    ensures ParsePlan(order.plan).Some? && ParsePlan(order.plan).value > 0
  {
    Digits.ValuePositive(order.plan);
  }

  /** What a webhook that moves an order to paid has shown. */
  lemma PaidDecisionFacts(cfg: Config, db: Db, meta: Envelope, b: CashfreeBody, o: Uuid, now: int)
    requires Inv(cfg, db) && o in db.orders
    ensures
      var d := Decide(cfg, db, meta, b, o, now);
      d.Some? && d.value.kind == TransitionPaid ==>
        var order, w := db.orders[o], ParseWebhook(b).value;
        && order.providerId == Some(w.cfOrderId)
        && b.amountMinor == Some(order.amount)
        && w.currency == order.currency
        && w.status in cfg.policy.success
        && o !in db.paid
        && d.value.activationKey == Some(OrderActivationKey(order))
        && d.value.outboxKey == Some(OrderPaidKey(order))
  {
    hide Inv;
    var d := Decide(cfg, db, meta, b, o, now);
    if d.Some? && d.value.kind == TransitionPaid {
      OrderFacts(cfg, db, o);
      var order, w := db.orders[o], ParseWebhook(b).value;
      IsoCurrencyIsNormal(order.currency);
      var bound, paid := MakeMoney(order.amount, order.currency).value, MakeMoney(b.amountMinor.value, w.currency).value;
      PaidExactlyOnBoundSuccess(
        WebhookBinding(order, w, bound), WebhookEvidence(cfg, meta.id, order.providerId.value, b, w, paid),
        cfg.policy, {}, o in db.paid, now);
      ParsedCurrencyIsNormal(b);
    }
  }

  lemma {:induction false} UpperTwice(s: string)
    ensures Upper(Upper(s)) == Upper(s)
  {
    if s != [] {
      UpperTwice(s[1..]);
      assert Upper(s)[1..] == Upper(s[1..]);
      assert UpperChar(UpperChar(s[0])) == UpperChar(s[0]);
    }
  }

  lemma {:induction false} StripLeftEnds(s: string)
    ensures StripLeft(s) == [] || !IsBlank(StripLeft(s)[0])
    ensures s == [] || IsBlank(s[|s| - 1]) || (StripLeft(s) != [] && StripLeft(s)[|StripLeft(s)| - 1] == s[|s| - 1])
  {
    if s != [] && IsBlank(s[0]) {
      StripLeftEnds(s[1..]);
    }
  }

  lemma {:induction false} StripRightEnds(s: string)
    ensures StripRight(s) == [] || !IsBlank(StripRight(s)[|StripRight(s)| - 1])
    ensures StripRight(s) == [] || StripRight(s)[0] == s[0]
  {
    if s != [] && IsBlank(s[|s| - 1]) {
      StripRightEnds(s[..|s| - 1]);
    }
  }

  /** A parsed currency is stripped and upper case already. */
  lemma ParsedCurrencyIsNormal(b: CashfreeBody)
    requires ParseWebhook(b).Some?
    ensures Upper(Strip(ParseWebhook(b).value.currency)) == ParseWebhook(b).value.currency
  {
    var raw := b.currency.value;
    var s := Strip(raw);
    var u := Upper(s);
    StripLeftEnds(raw);
    StripRightEnds(StripLeft(raw));
    assert u != [] && !IsBlank(u[0]) && !IsBlank(u[|u| - 1]);
    assert StripLeft(u) == u && StripRight(u) == u;
    UpperTwice(s);
  }

  lemma AddPaidKeepsPaid(cfg: Config, orders: map<Uuid, Order>, attempts: map<Text, Attempt>,
                         outbox: map<Uuid, OutboxRow>, paid: map<Uuid, Paid>, o: Uuid, row: Paid, verified: OutboxRow)
    requires PaidInv(cfg, orders, attempts, outbox, paid)
    requires o !in paid && PaidEventId(o) !in outbox
    requires forall p :: p in paid ==> paid[p].id != row.id
    requires PaidOk(cfg, orders, attempts, map[PaidEventId(o) := verified], o, row)
    ensures PaidInv(cfg, orders, attempts, outbox[PaidEventId(o) := verified], paid[o := row])
  {
    var rows, all := outbox[PaidEventId(o) := verified], paid[o := row];
    forall p | p in all ensures PaidOk(cfg, orders, attempts, rows, p, all[p]) {
      if p != o {
        assert PaidOk(cfg, orders, attempts, outbox, p, paid[p]);
      }
    }
    forall id | id in rows && rows[id].cipher.plain.VerifiedPayload? ensures exists p :: p in all && id == PaidEventId(p) {
      if id == PaidEventId(o) {
        assert o in all;
      } else {
        var p :| p in paid && id == PaidEventId(p);
        assert p in all;
      }
    }
  }

  lemma AddPaidKeepsHandoffs(orders: map<Uuid, Order>, paid: map<Uuid, Paid>, outbox: map<Uuid, OutboxRow>,
                             handoffs: map<Uuid, Handoff>, o: Uuid, row: Paid)
    requires HandoffInv(orders, paid, outbox, handoffs) && o !in paid
    ensures HandoffInv(orders, paid[o := row], outbox, handoffs)
  {
  }

  lemma AddPaidKeepsEvidence(demos: map<Uuid, Demo>, orders: map<Uuid, Order>, paid: map<Uuid, Paid>,
                             handoffs: map<Uuid, Handoff>, o: Uuid, row: Paid)
    requires EvidenceInv(demos, orders, paid, handoffs)
    ensures EvidenceInv(demos, orders, paid[o := row], handoffs)
  {
    forall d ensures HasPaidOrder(orders, paid, d) ==> HasPaidOrder(orders, paid[o := row], d) {
    }
    forall d ensures HasHandoff(orders, paid, handoffs, d) ==> HasHandoff(orders, paid[o := row], handoffs, d) {
    }
  }

  lemma AddPaidGroups(orders: map<Uuid, Order>, paid: map<Uuid, Paid>, o: Uuid, row: Paid, d: Uuid)
    requires o in orders && o !in paid
    ensures |PaidOrdersOf(orders, paid[o := row], d)| == |PaidOrdersOf(orders, paid, d)| + if d == orders[o].demo then 1 else 0
  {
    var before, after := PaidOrdersOf(orders, paid, d), PaidOrdersOf(orders, paid[o := row], d);
    if d == orders[o].demo {
      assert after == before + {o};
    } else {
      assert after == before;
    }
  }

  /** A new paid transition is counted by the VERIFY_PAYMENT that is logged with it. */
  lemma AddPaidCounted(db: Db, o: Uuid, row: Paid, key: Text)
    requires LogInv(db.demos, db.log) && CountInv(db.log, db.orders, db.paid)
    requires o in db.orders && o !in db.paid && db.orders[o].demo in db.demos
    ensures CountInv(Move(db, db.orders[o].demo, VERIFY_PAYMENT, PAID, key).log, db.orders, db.paid[o := row])
  {
    hide LogInv, OrdersOf, PaidOrdersOf, Count, Move;
    var demo := db.orders[o].demo;
    MoveCounts(db, demo, VERIFY_PAYMENT, PAID, key, REQUEST_PAYMENT);
    MoveCounts(db, demo, VERIFY_PAYMENT, PAID, key, VERIFY_PAYMENT);
    forall d | d in db.log
      ensures |PaidOrdersOf(db.orders, db.paid[o := row], d)| == |PaidOrdersOf(db.orders, db.paid, d)| + if d == demo then 1 else 0
    {
      AddPaidGroups(db.orders, db.paid, o, row, d);
    }
    MoveInLog(db, demo, VERIFY_PAYMENT, PAID, key);
  }

  lemma SettleOrderKeepsSettled(orders: map<Uuid, Order>, paid: map<Uuid, Paid>, o: Uuid, order: Order, row: Paid)
    requires SettledInv(orders, paid)
    ensures SettledInv(orders[o := order], paid[o := row])
  {
  }

  /** What is added with a paid transition, on top of an order that is already rewritten. */
  predicate PaidWrite(cfg: Config, db: Db, o: Uuid, row: Paid, verified: OutboxRow) {
    && o in db.orders && db.orders[o].demo in db.demos && db.orders[o].providerId.Some?
    && Payable(db.demos[db.orders[o].demo].state)
    && o !in db.paid && PaidEventId(o) !in db.outbox
    && (forall p :: p in db.paid ==> db.paid[p].id != row.id)
    && ParsePlan(db.orders[o].plan).Some?
  }

  /** The tables beside the log, once the order is settled and its rows are in. */
  lemma AddPaidKeepsTables(cfg: Config, db: Db, o: Uuid, settled: Order, row: Paid, verified: OutboxRow)
    requires Inv(cfg, db) && PaidWrite(cfg, db, o, row, verified)
    requires SameOrder(db.orders[o], settled) && settled.providerId == db.orders[o].providerId
    requires PaidOk(cfg, db.orders, db.attempts, map[PaidEventId(o) := verified], o, row)
    requires RowOk(PaidEventId(o), verified) && verified.cipher.plain.VerifiedPayload?
    ensures
      var orders, outbox, paid := db.orders[o := settled], db.outbox[PaidEventId(o) := verified], db.paid[o := row];
      && OrdersInv(cfg, db.demos, orders)
      && RowsInv(outbox)
      && CashfreeInv(orders, outbox)
      && PaidInv(cfg, orders, db.attempts, outbox, paid)
      && SettledInv(orders, paid)
      && HandoffInv(orders, paid, outbox, db.handoffs)
      && EvidenceInv(db.demos, orders, paid, db.handoffs)
      && StartedInv(db.demos, outbox)
  {
    SettledFits(cfg, db, o, settled, row, verified);
    hide LogInv, OrdersInv, RowsInv, CashfreeInv, PaidInv, SettledInv, HandoffInv, EvidenceInv, CountInv, RequestsInv, StartedInv;
    hide PaidOk, RowOk, OutboxKept, SameOrder;
    var orders, outbox := db.orders[o := settled], db.outbox[PaidEventId(o) := verified];
    NewRowKept(db.outbox, PaidEventId(o), verified);
    KeptRowsKeepRows(db.outbox, outbox);
    SetOrderKeepsCashfree(db.orders, db.outbox, o, settled);
    KeptRowsKeepCashfree(orders, db.outbox, outbox);
    SetOrderKeepsPaid(cfg, db.orders, db.attempts, db.outbox, db.paid, o, settled);
    AddPaidKeepsPaid(cfg, orders, db.attempts, db.outbox, db.paid, o, row, verified);
    SettleOrderKeepsSettled(db.orders, db.paid, o, settled, row);
    SetOrderKeepsHandoffs(db.orders, db.paid, db.outbox, db.handoffs, o, settled);
    KeptRowsKeepHandoffs(orders, db.paid, db.outbox, outbox, db.handoffs);
    AddPaidKeepsHandoffs(orders, db.paid, outbox, db.handoffs, o, row);
    SetOrderKeepsEvidence(db.demos, db.orders, db.paid, db.handoffs, o, settled);
    AddPaidKeepsEvidence(db.demos, orders, db.paid, db.handoffs, o, row);
    KeptRowsKeepStarted(db.demos, db.outbox, outbox);
  }

  /** The logged move to PAID, on tables that hold its paid transition. */
  lemma MoveToPaidKeepsInv(cfg: Config, db: Db, o: Uuid, paidBefore: map<Uuid, Paid>, key: Text)
    requires o in db.orders && db.orders[o].demo in db.demos && o in db.paid && o !in paidBefore
    requires Payable(db.demos[db.orders[o].demo].state)
    requires db.paid == paidBefore[o := db.paid[o]]
    requires LogInv(db.demos, db.log)
    requires OrdersInv(cfg, db.demos, db.orders)
    requires RowsInv(db.outbox)
    requires CashfreeInv(db.orders, db.outbox)
    requires PaidInv(cfg, db.orders, db.attempts, db.outbox, db.paid)
    requires SettledInv(db.orders, db.paid)
    requires HandoffInv(db.orders, db.paid, db.outbox, db.handoffs)
    requires EvidenceInv(db.demos, db.orders, db.paid, db.handoffs)
    requires CountInv(db.log, db.orders, paidBefore)
    requires RequestsInv(db.requests)
    requires StartedInv(db.demos, db.outbox)
    ensures Inv(cfg, Move(db, db.orders[o].demo, VERIFY_PAYMENT, PAID, key))
  {
    hide LogInv, OrdersInv, RowsInv, CashfreeInv, PaidInv, SettledInv, HandoffInv, EvidenceInv, CountInv, RequestsInv, StartedInv;
    var demo := db.orders[o].demo;
    MoveKeepsLog(db, demo, VERIFY_PAYMENT, PAID, key);
    MoveKeepsOwners(cfg, db, demo, VERIFY_PAYMENT, PAID, key);
    assert HasPaidOrder(db.orders, db.paid, demo);
    MoveKeepsEvidence(db, demo, VERIFY_PAYMENT, PAID, key);
    AddPaidCounted(db.(paid := paidBefore), o, db.paid[o], key);
    MoveKeepsStarted(db, demo, VERIFY_PAYMENT, PAID, key);
  }

  lemma AddPaidKeepsInv(cfg: Config, db: Db, o: Uuid, settled: Order, row: Paid, verified: OutboxRow, key: Text)
    requires Inv(cfg, db) && PaidWrite(cfg, db, o, row, verified)
    requires SameOrder(db.orders[o], settled) && settled.providerId == db.orders[o].providerId
    requires PaidOk(cfg, db.orders, db.attempts, map[PaidEventId(o) := verified], o, row)
    requires RowOk(PaidEventId(o), verified) && verified.cipher.plain.VerifiedPayload?
    ensures Inv(cfg, AddOutbox(Move(SetOrder(db, o, settled), settled.demo, VERIFY_PAYMENT, PAID, key).(paid := db.paid[o := row]),
                               PaidEventId(o), verified))
  {
    hide LogInv, OrdersInv, RowsInv, CashfreeInv, PaidInv, SettledInv, HandoffInv, EvidenceInv, CountInv, RequestsInv, StartedInv;
    hide PaidOk, RowOk;
    AddPaidKeepsTables(cfg, db, o, settled, row, verified);
    SetOrderKeepsCounts(db.log, db.orders, db.paid, o, settled);
    var db1 := db.(orders := db.orders[o := settled], outbox := db.outbox[PaidEventId(o) := verified], paid := db.paid[o := row]);
    MoveToPaidKeepsInv(cfg, db1, o, db.paid, key);
    assert AddOutbox(Move(SetOrder(db, o, settled), settled.demo, VERIFY_PAYMENT, PAID, key).(paid := db.paid[o := row]), PaidEventId(o), verified)
        == Move(db1, settled.demo, VERIFY_PAYMENT, PAID, key);
  }

  lemma SettledFits(cfg: Config, db: Db, o: Uuid, settled: Order, row: Paid, verified: OutboxRow)
    requires OrdersInv(cfg, db.demos, db.orders) && PaidWrite(cfg, db, o, row, verified)
    requires SameOrder(db.orders[o], settled) && settled.providerId == db.orders[o].providerId
    requires PaidOk(cfg, db.orders, db.attempts, map[PaidEventId(o) := verified], o, row)
    ensures settled.demo == db.orders[o].demo
    ensures OrdersInv(cfg, db.demos, db.orders[o := settled])
    ensures PaidOk(cfg, db.orders[o := settled], db.attempts, map[PaidEventId(o) := verified], o, row)
  {
    assert OrderOk(cfg, db.demos, o, db.orders[o]);
    SetOrderKeepsOrders(cfg, db.demos, db.orders, o, settled);
  }

  lemma ApplyPaidKeepsInv(cfg: Config, db: Db, meta: Envelope, o: Uuid, paymentId: Text, newId: Uuid, now: int)
    requires Inv(cfg, db) && o in db.orders && db.orders[o].providerId.Some? && o !in db.paid
    requires paymentId != Str("") && paymentId in db.attempts && AttemptSupports(cfg, db.orders[o], o, db.attempts[paymentId])
    ensures
      var order := db.orders[o];
      var effect := ApplyPaid(db, meta, o, paymentId, OrderActivationKey(order), OrderPaidKey(order), newId, now);
      !effect.Raised? && (effect.Done? ==> Inv(cfg, effect.db))
  {
    hide Inv, AttemptSupports, LogClash, OutboxClash, PaidClash, OrderOk, RowOk, OrderActivationKey, OrderPaidKey;
    var order := db.orders[o];
    OrderPlanFacts(cfg, db, o);
    if order.demo !in db.demos || !Payable(db.demos[order.demo].state) {
      SetStatusKeepsInv(cfg, db, o, order.(status := UnderReview));
    } else {
      var row := Paid(newId, paymentId, OrderActivationKey(order), order.amount, order.currency, meta.occurredAt);
      if !PaidClash(db, o, row) && !OutboxClash(db, PaidEventId(o), order.tenant, OrderPaidKey(order)) {
        PayableApplied(cfg, db, meta, o, row, now);
      }
    }
  }

  lemma PayableApplied(cfg: Config, db: Db, meta: Envelope, o: Uuid, row: Paid, now: int)
    requires Inv(cfg, db) && o in db.orders && db.orders[o].providerId.Some? && db.orders[o].demo in db.demos
    requires Payable(db.demos[db.orders[o].demo].state)
    requires row.paymentId != Str("") && row.paymentId in db.attempts
    requires AttemptSupports(cfg, db.orders[o], o, db.attempts[row.paymentId])
    requires row == Paid(row.id, row.paymentId, OrderActivationKey(db.orders[o]), db.orders[o].amount, db.orders[o].currency, meta.occurredAt)
    requires !PaidClash(db, o, row) && !OutboxClash(db, PaidEventId(o), db.orders[o].tenant, OrderPaidKey(db.orders[o]))
    requires ParsePlan(db.orders[o].plan).Some?
    ensures
      var order := db.orders[o];
      var settled := order.(status := Settled, paidAt := Some(meta.occurredAt), version := order.version + 1);
      var verified := VerifiedRow(o, order, ParsePlan(order.plan).value, row.paymentId, OrderActivationKey(order), OrderPaidKey(order), meta.occurredAt, now);
      Inv(cfg, AddOutbox(Move(SetOrder(db, o, settled), order.demo, VERIFY_PAYMENT, PAID, meta.key).(paid := db.paid[o := row]),
                         PaidEventId(o), verified))
  {
    hide Inv, AttemptSupports, OutboxClash, PaidClash, RowOk, OrderActivationKey, OrderPaidKey, VerifiedRow, VerifiedRowFor, ParsePlan;
    var order := db.orders[o];
    var settled := order.(status := Settled, paidAt := Some(meta.occurredAt), version := order.version + 1);
    var verified := VerifiedRow(o, order, ParsePlan(order.plan).value, row.paymentId, OrderActivationKey(order), OrderPaidKey(order), meta.occurredAt, now);
    PaidUnclashed(db, o, row, order.tenant, OrderPaidKey(order));
    VerifiedRowFits(o, order, row, verified, now);
    AddPaidKeepsInv(cfg, db, o, settled, row, verified, meta.key);
  }

  lemma OrderPlanFacts(cfg: Config, db: Db, o: Uuid)
    requires Inv(cfg, db) && o in db.orders
    ensures ParsePlan(db.orders[o].plan).Some? && ParsePlan(db.orders[o].plan).value > 0
  {
    hide Inv;
    OrderFacts(cfg, db, o);
    PlanIsNumeric(db.orders[o]);
  }

  lemma PaidUnclashed(db: Db, o: Uuid, row: Paid, tenant: Text, key: Text)
    requires !PaidClash(db, o, row) && !OutboxClash(db, PaidEventId(o), tenant, key)
    ensures o !in db.paid && PaidEventId(o) !in db.outbox && forall p :: p in db.paid ==> db.paid[p].id != row.id
  {
  }

  lemma VerifiedRowFits(o: Uuid, order: Order, row: Paid, verified: OutboxRow, now: int)
    requires order.providerId.Some? && ParsePlan(order.plan).Some?
    requires verified == VerifiedRow(o, order, ParsePlan(order.plan).value, row.paymentId, row.activationKey, OrderPaidKey(order), row.at, now)
    ensures RowOk(PaidEventId(o), verified) && verified.cipher.plain.VerifiedPayload? && VerifiedRowFor(o, order, row, verified)
  {
  }

  lemma CashfreeKeepsInv(cfg: Config, db: Db, meta: Envelope, b: CashfreeBody, newId: Uuid, now: int)
    requires Inv(cfg, db)
    ensures ProcessCashfree(cfg, db, meta, b, newId, now).Done? ==> Inv(cfg, ProcessCashfree(cfg, db, meta, b, newId, now).db)
  {
    hide Inv, EventClash, ApplyPaid, OrderActivationKey, OrderPaidKey, VerifyPayment, WebhookBinding, WebhookEvidence, MakeMoney;
    var effect := ProcessCashfree(cfg, db, meta, b, newId, now);
    if effect.Done? {
      var w := ParseWebhook(b).value;
      var o := Pick(OrdersByDomainId(db, w.orderId)).value;
      var decision := Decide(cfg, db, meta, b, o, now).value;
      var attempt := Attempt(o, meta.id, w.status, b.amountMinor.value, w.currency, meta.occurredAt);
      var db0 := RecordEvent(db, FromCashfree, meta.id, CashfreePayload(b), Some(decision.kind));
      var db1 := RecordAttempt(db0, w.paymentId, attempt);
      OtherTablesKeepInv(cfg, db, db0);
      AddAttemptKeepsInv(cfg, db0, w.paymentId, attempt);
      if decision.kind == TransitionPaid {
        PaidDecisionFacts(cfg, db, meta, b, o, now);
        ApplyPaidKeepsInv(cfg, db1, meta, o, w.paymentId, newId, now);
      } else {
        var order := db.orders[o];
        StatusAfterKeepsInv(cfg, db1, o, decision.kind);
      }
    }
  }

  lemma StatusAfterKeepsInv(cfg: Config, db: Db, o: Uuid, kind: DecisionKind)
    requires Inv(cfg, db) && o in db.orders
    ensures Inv(cfg, SetOrder(db, o, db.orders[o].(status := StatusAfter(kind, db.orders[o].status))))
  {
    hide Inv;
    OrderFacts(cfg, db, o);
    if db.orders[o].status.Settled? {
      SettledFacts(cfg, db, o);
    }
    SetStatusKeepsInv(cfg, db, o, db.orders[o].(status := StatusAfter(kind, db.orders[o].status)));
  }

  lemma SettledFacts(cfg: Config, db: Db, o: Uuid)
    requires Inv(cfg, db) && o in db.orders && db.orders[o].status.Settled?
    ensures o in db.paid
  {
    hide LogInv, OrdersInv, RowsInv, CashfreeInv, PaidInv, HandoffInv, EvidenceInv, CountInv, RequestsInv, StartedInv;
  }

  // ---------------------------------------------------------------- conversations

  lemma StepKeepsCore(cfg: Config, db: Db, after: Db)
    requires Core(cfg, db) && after == db.(conversations := after.conversations)
    ensures Core(cfg, after)
  {
    hide LogInv, OrdersInv, RowsInv, CashfreeInv, PaidInv, SettledInv, HandoffInv, EvidenceInv, CountInv, RequestsInv;
  }

  predicate Conversational(command: Command, after: DemoState) {
    !IsSaga(command) && !PaidFor(after)
  }

  lemma TransitionKeepsCore(cfg: Config, db: Db, meta: Envelope, demo: Uuid, command: Command, after: DemoState)
    requires Core(cfg, db) && Conversational(command, after)
    ensures
      var e := TransitionDemo(db, meta, demo, command, after);
      !e.Raised? && (e.Done? ==> Core(cfg, e.db) && e.db.outbox == db.outbox)
  {
    hide Core, LogClash, TransitionKey;
    var e := TransitionDemo(db, meta, demo, command, after);
    if e.Done? && e.db != db {
      PlainMoveKeepsCore(cfg, db, demo, command, after, TransitionKey(meta, command));
    }
  }

  lemma ShortlistKeepsCore(cfg: Config, db: Db, meta: Envelope, demo: Uuid)
    requires Core(cfg, db)
    ensures
      var e := Shortlist(db, meta, demo);
      !e.Raised? && (e.Done? ==> Core(cfg, e.db) && e.db.outbox == db.outbox)
  {
    hide Core, TransitionDemo;
    TransitionKeepsCore(cfg, db, meta, demo, COMPLETE_QUALIFICATION, TUTOR_MATCHING);
    var e := TransitionDemo(db, meta, demo, COMPLETE_QUALIFICATION, TUTOR_MATCHING);
    if e.Done? {
      StepKeepsCore(cfg, e.db, SetStep(e.db, meta, demo, SelectTutor));
      TransitionKeepsCore(cfg, SetStep(e.db, meta, demo, SelectTutor), meta, demo, COMPLETE_MATCHING, TUTOR_SHORTLISTED);
    }
  }

  lemma AddReplyKeepsCore(cfg: Config, e: Effect, meta: Envelope, demo: Uuid, now: int)
    requires e.Done? ==> Core(cfg, e.db)
    ensures
      var r := AddReply(e, meta, demo, now);
      r.Done? ==> e.Done? && Core(cfg, r.db) && ReplyEventId(meta.id) in r.db.outbox
                  && r.db.demos == e.db.demos && e.db.outbox.Keys <= r.db.outbox.Keys
  {
    hide Core;
    if AddReply(e, meta, demo, now).Done? {
      var id, key := ReplyEventId(meta.id), ReplyKey(meta.id);
      var row := NewRow(id, meta.tenant, meta.source, key, meta.correlation, DeliveryPayload(id, demo, Recipient(meta), key), now);
      AddRowKeepsCore(cfg, e.db, id, row);
    }
  }

  lemma AdvanceKeepsCore(cfg: Config, db: Db, meta: Envelope, demo: Uuid, step: ConversationStep, turn: Turn, now: int)
    requires Core(cfg, db)
    ensures
      var r := Advance(cfg, db, meta, demo, step, turn, now);
      !r.Raised? && (r.Done? ==> Core(cfg, r.db) && ReplyEventId(meta.id) in r.db.outbox && db.outbox.Keys <= r.db.outbox.Keys)
  {
    hide Core, TransitionDemo, Shortlist, AddReply;
    TransitionKeepsCore(cfg, db, meta, demo, ESCALATE_HUMAN, HUMAN_HANDOFF);
    ShortlistKeepsCore(cfg, db, meta, demo);
    var moved :=
      if !turn.complete || step != Collecting || !cfg.websiteConfigured then Done(db)
      else if turn.search != Tutors then
        TransitionDemo(db, meta, demo, ESCALATE_HUMAN, HUMAN_HANDOFF)
      else Shortlist(db, meta, demo);
    AddReplyKeepsCore(cfg, moved, meta, demo, now);
    ReplyFrame(moved, meta, demo, now);
  }

  lemma AcceptTutorKeepsCore(cfg: Config, db: Db, meta: Envelope, demo: Uuid, now: int)
    requires Core(cfg, db)
    ensures
      var r := AcceptTutor(db, meta, demo, now);
      !r.Raised? && (r.Done? ==> Core(cfg, r.db) && ReplyEventId(meta.id) in r.db.outbox && db.outbox.Keys <= r.db.outbox.Keys
                                 && r.db.demos.Keys == db.demos.Keys)
  {
    hide Core, TransitionDemo, AddReply;
    var db1 := SetStep(db, meta, demo, AwaitingTutor);
    StepKeepsCore(cfg, db, db1);
    TransitionKeepsCore(cfg, db1, meta, demo, ACCEPT_SHORTLIST, SLOT_NEGOTIATING);
    TransitionFrame(db1, meta, demo, ACCEPT_SHORTLIST, SLOT_NEGOTIATING);
    var e := TransitionDemo(db1, meta, demo, ACCEPT_SHORTLIST, SLOT_NEGOTIATING);
    AddReplyKeepsCore(cfg, e, meta, demo, now);
    ReplyFrame(e, meta, demo, now);
  }

  lemma ContinueKeepsCore(cfg: Config, db: Db, meta: Envelope, turn: Turn, now: int)
    requires Core(cfg, db) && (meta.tenant, meta.conversation) in db.conversations
    ensures
      var r := ContinueDemo(cfg, db, meta, turn, now);
      !r.Raised? && (r.Done? ==> Core(cfg, r.db) && ReplyEventId(meta.id) in r.db.outbox && db.outbox.Keys <= r.db.outbox.Keys
                                 && r.db.demos.Keys == db.demos.Keys)
  {
    hide Core, AcceptTutor, Advance, StepAfter;
    var c := db.conversations[(meta.tenant, meta.conversation)];
    var db1 := SetStep(db, meta, c.demo, StepAfter(c, turn));
    AcceptTutorKeepsCore(cfg, db, meta, c.demo, now);
    StepKeepsCore(cfg, db, db1);
    AdvanceKeepsCore(cfg, db1, meta, c.demo, StepAfter(c, turn), turn, now);
    AdvanceFrame(cfg, db1, meta, c.demo, StepAfter(c, turn), turn, now);
  }

  lemma AddDemoKeepsOrders(cfg: Config, demos: map<Uuid, Demo>, orders: map<Uuid, Order>, d: Uuid, demo: Demo)
    requires OrdersInv(cfg, demos, orders) && d !in demos
    ensures OrdersInv(cfg, demos[d := demo], orders)
    ensures OrdersOf(orders, d) == {}
  {
    forall o | o in orders ensures OrderOk(cfg, demos[d := demo], o, orders[o]) && orders[o].demo != d {
      assert OrderOk(cfg, demos, o, orders[o]);
    }
  }

  lemma AddDemoCounted(log: map<Uuid, seq<LogEntry>>, orders: map<Uuid, Order>, paid: map<Uuid, Paid>, d: Uuid, e: LogEntry)
    requires CountInv(log, orders, paid) && OrdersOf(orders, d) == {}
    requires e.command != REQUEST_PAYMENT && e.command != VERIFY_PAYMENT
    ensures CountInv(log[d := [e]], orders, paid)
  {
    hide OrdersOf, PaidOrdersOf, Count;
    NoPaidOrders(orders, paid, d);
    NoneCounted(e, REQUEST_PAYMENT);
    NoneCounted(e, VERIFY_PAYMENT);
  }

  lemma NoPaidOrders(orders: map<Uuid, Order>, paid: map<Uuid, Paid>, d: Uuid)
    requires OrdersOf(orders, d) == {}
    ensures PaidOrdersOf(orders, paid, d) == {}
  {
    assert PaidOrdersOf(orders, paid, d) <= OrdersOf(orders, d);
  }

  lemma NoneCounted(e: LogEntry, command: Command)
    requires e.command != command
    ensures Count([e], command) == 0
  {
    assert [e][..0] == [];
  }

  lemma AddDemoKeepsCore(cfg: Config, db: Db, d: Uuid, demo: Demo, e: LogEntry)
    requires Core(cfg, db) && d !in db.demos
    requires demo.state == QUALIFYING && demo.version == 1 && e.before == NEW && e.after == QUALIFYING && e.command == START_QUALIFICATION
    ensures Core(cfg, db.(demos := db.demos[d := demo], log := db.log[d := [e]]))
  {
    hide OrdersInv, RowsInv, CashfreeInv, PaidInv, SettledInv, HandoffInv, CountInv, RequestsInv, OrdersOf, HasPaidOrder, HasHandoff;
    AddDemoKeepsOrders(cfg, db.demos, db.orders, d, demo);
    AddDemoCounted(db.log, db.orders, db.paid, d, e);
  }

  lemma StartKeepsInv(cfg: Config, db: Db, meta: Envelope, sender: Option<Text>, turn: Turn, now: int)
    requires Inv(cfg, db)
    ensures StartDemo(cfg, db, meta, sender, turn, now).Done? ==> Inv(cfg, StartDemo(cfg, db, meta, sender, turn, now).db)
  {
    hide Core, Advance, ContinueDemo;
    var r := StartDemo(cfg, db, meta, sender, turn, now);
    if r.Done? && r.db != db {
      if (meta.tenant, meta.conversation) in db.conversations {
        ContinueKeepsCore(cfg, db, meta, turn, now);
      } else {
        var demo := DemoIdOf(meta.id);
        var d, e := Demo(meta.tenant, sender, meta.conversation, QUALIFYING, 1), LogEntry(NEW, START_QUALIFICATION, QUALIFYING, meta.key);
        var db1 := db.(demos := db.demos[demo := d], log := db.log[demo := [e]]);
        AddDemoKeepsCore(cfg, db, demo, d, e);
        var db2 := SetStep(db1, meta, demo, Collecting);
        StepKeepsCore(cfg, db1, db2);
        AdvanceKeepsCore(cfg, db2, meta, demo, Collecting, turn, now);
        AdvanceFrame(cfg, db2, meta, demo, Collecting, turn, now);
      }
    }
  }

  // ---------------------------------------------------------------- every step

  lemma HandleKeepsInv(cfg: Config, db: Db, event: InboxEvent, turn: Turn, newId: Uuid, now: int)
    requires Inv(cfg, db)
    ensures Inv(cfg, HandleInbox(cfg, db, event, turn, newId, now))
  {
    hide Inv, ProcessCashfree, AcceptOnboarding, CompleteOnboarding, StartDemo;
    match event
    case CashfreeWebhook(meta, body) => CashfreeKeepsInv(cfg, db, meta, body, newId, now);
    case MetaWebhook(meta, payload) =>
      OtherTablesKeepInv(cfg, db, RecordEvent(db, ProviderOf(meta), meta.id, payload, None));
    case OnboardingAccepted(meta, demo, user, onboarding) => AcceptKeepsInv(cfg, db, meta, demo, user, onboarding);
    case OnboardingCompleted(meta, demo, user, onboarding) => CompleteKeepsInv(cfg, db, meta, demo, user, now);
    case WhatsappHandoff(meta, sender, valid) => StartKeepsInv(cfg, db, meta, sender, turn, now);
    case UnsupportedEvent(_) =>
  }

  lemma RecordKeepsInv(cfg: Config, db: Db, id: Uuid, row: OutboxRow, p: Payload, reply: Reply, newId: Uuid, now: int)
    requires Inv(cfg, db) && id in db.outbox && row == db.outbox[id] && p == row.cipher.plain
    ensures
      var e := Record(cfg, db, id, row, p, reply, newId, now);
      !e.Violation? ==> Inv(cfg, e.db)
  {
    hide Inv, RecordQuote, RecordCashfree, QueueOnboarding, RecordAcceptance;
    match row.kind
    case PlanQuoteRequested => RecordQuoteKeepsInv(cfg, db, id, row, p, reply.details, now);
    case CashfreeOrderRequested => RecordCashfreeKeepsInv(cfg, db, id, row, p, reply.reference, reply.details, now);
    case PaymentVerified => QueueOnboardingKeepsInv(cfg, db, id, row, p, reply.reference, newId, now);
    case OnboardingRequested => RecordAcceptanceKeepsInv(cfg, db, row, reply.reference);
    case DeliveryRequested =>
  }

  lemma PublishKeepsInv(cfg: Config, db: Db, id: Uuid, reply: Option<Reply>, newId: Uuid, now: int)
    requires Inv(cfg, db)
    ensures Inv(cfg, Publish(cfg, db, id, reply, newId, now))
  {
    hide Inv, Record, Backoff;
    if Eligible(cfg, db, id, now) {
      var p := Open(db.outbox[id], id);
      if p.Some? && reply.Some? {
        RecordKeepsInv(cfg, db, id, db.outbox[id], p.value, reply.value, newId, now);
      }
      var e := PublishEffect(cfg, db, id, reply, newId, now);
      if !e.Violation? && id in e.db.outbox {
        var row := e.db.outbox[id];
        if e.Done? {
          MarkRowKeepsInv(cfg, e.db, id, row.(published := true, providerReference := Some(reply.value.reference)));
        } else {
          MarkRowKeepsInv(cfg, e.db, id, row.(attempts := row.attempts + 1, availableAt := now + Backoff(row.attempts + 1)));
        }
      }
    }
  }

  lemma ReconcileKeepsInv(cfg: Config, db: Db, o: Uuid, before: OrderStatus, s: Snapshot, next: int)
    requires Inv(cfg, db)
    ensures Inv(cfg, ApplySnapshot(db, o, before, s, next))
  {
    hide Inv, SnapshotHash, Upper;
    if o in db.orders && db.orders[o].providerId.Some? {
      var (order, result) := SnapshotOutcome(db.orders[o], s, next);
      SetStatusKeepsInv(cfg, db, o, order);
      OtherTablesKeepInv(cfg, SetOrder(db, o, order), ApplySnapshot(db, o, before, s, next));
    }
  }

  lemma NextKeepsInv(cfg: Config, db: Db, step: Step)
    requires Inv(cfg, db)
    ensures Inv(cfg, Next(cfg, db, step))
  {
    hide Inv, RequestOrder, Publish, HandleInbox, ApplySnapshot, LogClash, Registered;
    match step
    case Request(tenant, command, correlation, at) => RequestKeepsInv(cfg, db, tenant, command, correlation, at);
    case Deliver(row, reply, newId, at) => PublishKeepsInv(cfg, db, row, reply, newId, at);
    case Inbox(event, turn, newId, at) => HandleKeepsInv(cfg, db, event, turn, newId, at);
    case Reserve(tenant, o, at) =>
      if Reservable(db, tenant, o, at) {
        SetStatusKeepsInv(cfg, db, o, db.orders[o].(status := Reconciling));
      }
    case ProviderFailed(o, next) =>
      if o in db.orders {
        SetStatusKeepsInv(cfg, db, o, db.orders[o].(status := ReconciliationRequired, reconcileAfter := Some(next)));
      }
    case ProviderAnswered(o, before, snapshot, next) => ReconcileKeepsInv(cfg, db, o, before, snapshot, next);
    case OtherEdge(demo, command, after, key) => EdgeKeepsInv(cfg, db, demo, command, after, key);
  }

  lemma EdgeKeepsInv(cfg: Config, db: Db, demo: Uuid, command: Command, after: DemoState, key: Text)
    requires Inv(cfg, db)
    ensures Inv(cfg, TakeEdge(db, demo, command, after, key))
  {
    hide Inv, LogClash, Lookup;
    if TakeEdge(db, demo, command, after, key) != db {
      if PaidFor(after) {
        PaidForBySaga(db.demos[demo].state, command);
      }
      PlainMoveKeepsInv(cfg, db, demo, command, after, key);
    }
  }

  /** The invariant holds after every run. */
  lemma {:induction false} ReachableInv(cfg: Config, steps: seq<Step>)
    ensures Inv(cfg, Exec(cfg, EMPTY, steps))
  {
    hide Inv, Next;
    if steps == [] {
      EmptyInv(cfg);
    } else {
      ReachableInv(cfg, steps[..|steps| - 1]);
      NextKeepsInv(cfg, Exec(cfg, EMPTY, steps[..|steps| - 1]), steps[|steps| - 1]);
    }
  }
}
