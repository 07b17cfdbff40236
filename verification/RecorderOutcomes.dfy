/**
 What the publisher's recorders make of an answer: when each finishes, raises or clashes, and
 what it then leaves, told on the tables, the row and the answer.
 */
module RecorderOutcomes {
  import opened Identifiers
  import opened Lifecycle
  import opened Monetary
  import opened Store
  import opened Handlers
  import opened Frames
  import opened SagaInvariant
  import opened SagaPreservation
  import opened Database

  // ---------------------------------------------------------------- shared

  /** A row with this id, or of the tenant with this key, is in the outbox. */
  ghost predicate RowTaken(db: Db, id: Uuid, tenant: Text, key: Text) {
    id in db.outbox || exists r :: r in db.outbox && db.outbox[r].tenant == tenant && db.outbox[r].key == key
  }

  /** The demo's log has an entry under the key. */
  ghost predicate Logged(db: Db, demo: Uuid, key: Text) { exists e :: e in LogOf(db, demo) && e.key == key }

  lemma TakenIff(db: Db, id: Uuid, tenant: Text, key: Text)
    ensures RowTaken(db, id, tenant, key) <==> OutboxClash(db, id, tenant, key)
  {
  }

  lemma LoggedIff(db: Db, demo: Uuid, key: Text)
    ensures Logged(db, demo, key) <==> LogClash(db, demo, key)
  {
    var run := LogOf(db, demo);
    if Logged(db, demo, key) {
      var e :| e in run && e.key == key;
      var i :| 0 <= i < |run| && run[i] == e;
    }
  }

  /** The demo moved on and its log tells of it; its owner stays. */
  ghost predicate Moved(a: Db, b: Db, demo: Uuid, command: Command, after: DemoState, key: Text)
    requires demo in a.demos
  {
    var d := a.demos[demo];
    && b.demos == a.demos[demo := d.(state := after, version := d.version + 1)]
    && b.log == a.log[demo := LogOf(a, demo) + [LogEntry(d.state, command, after, key)]]
  }

  /** A new row of the outbox that opens to the payload and was not tried yet. */
  ghost predicate Announces(a: Db, b: Db, id: Uuid, tenant: Text, target: Text, key: Text, correlation: Text, p: Payload, now: int) {
    && id in b.outbox && b.outbox == a.outbox[id := b.outbox[id]]
    && var row := b.outbox[id];
    && Open(row, id) == Some(p) && row.kind == KindOf(p) && row.tenant == tenant && row.target == target && row.key == key
    && row.correlation == correlation && row.availableAt == now && row.attempts == 0 && !row.published
  }

  // ---------------------------------------------------------------- the quote

  /** The row is a well-formed quote request under its own id and key. */
  predicate IsQuoteRequest(id: Uuid, row: OutboxRow, p: Payload) {
    && p.QuotePayload? && p.user != Str("") && NumericPlan(p.plan) && E164(p.phone)
    && p.purpose == "demo_conversion" && p.correlation != Str("") && p.correlation == row.correlation
    && id == p.request && row.target == WEBSITE && row.key == UuidText(p.request)
  }

  /** The answer is an eligible, open quote for the request's plan and user. */
  predicate IsOpenQuote(d: Details, p: Payload, now: int)
    requires p.QuotePayload?
  {
    && d.QuoteDetails?
    && var q := d.quote;
    && q.eligible && now < q.expiresAt && q.plan == p.plan && q.user == p.user
    && q.amount > 0 && IsoCurrency(q.currency)
  }

  predicate SameAsked(order: Order, p: Payload, q: Quote)
    requires p.QuotePayload?
  {
    && order.demo == p.demo && order.user == p.user && order.customer == p.user && order.plan == p.plan
    && order.planVersion == q.planVersion && order.amount == q.amount && order.currency == q.currency
    && order.purpose == p.purpose
  }

  ghost predicate DemoWaits(db: Db, row: OutboxRow, p: Payload)
    requires p.QuotePayload?
  {
    && p.demo in db.demos && db.demos[p.demo].tenant == row.tenant && db.demos[p.demo].user == Some(p.user)
    && db.demos[p.demo].state == CONVERSION_FOLLOW_UP
  }

  /** The order, its Cashfree row or the log entry would take a key that is in use. */
  ghost predicate OrderKeyTaken(cfg: Config, db: Db, row: OutboxRow, p: Payload)
    requires p.QuotePayload?
  {
    || PaymentOrderId(p.request) in db.orders
    || (exists o :: o in db.orders && db.orders[o].tenant == row.tenant
          && (db.orders[o].domainId == DomainOrder(p.demo, cfg.hex16(p.request)) || db.orders[o].creationKey == row.key))
    || RowTaken(db, CashfreeEventId(p.request), row.tenant, UuidText(CashfreeEventId(p.request)))
    || Logged(db, p.demo, Labelled("payment-request", UuidText(p.request)))
  }

  /** The order repeats request and quote, Cashfree is asked for it, the demo waits for the payment. */
  ghost predicate Orders(cfg: Config, a: Db, b: Db, row: OutboxRow, p: Payload, q: Quote, now: int)
    requires p.QuotePayload? && p.demo in a.demos
  {
    var o := PaymentOrderId(p.request);
    var key := (row.tenant, row.key);
    && o in b.orders && b.orders == a.orders[o := b.orders[o]]
    && IsNewOrder(cfg, b.orders[o], row, p, q, now)
    && Announces(a, b, CashfreeEventId(p.request), row.tenant, CASHFREE, UuidText(CashfreeEventId(p.request)), row.correlation,
                 CashfreeOrderPayload(p.request, o, DomainOrder(p.demo, cfg.hex16(p.request)), q.amount, q.currency, p.user, p.phone,
                                      p.purpose, row.correlation, b.orders[o].expiresAt), now)
    && Moved(a, b, p.demo, REQUEST_PAYMENT, PAYMENT_PENDING, Labelled("payment-request", UuidText(p.request)))
    && b.requests == (if key in a.requests
                      then a.requests[key := a.requests[key].(status := QuoteVerified, reference := q.planVersion)] else a.requests)
    && b == a.(orders := b.orders, outbox := b.outbox, demos := b.demos, log := b.log, requests := b.requests)
  }

  /** It expires with the quote, or after the payment's own time if that is sooner. */
  predicate IsNewOrder(cfg: Config, order: Order, row: OutboxRow, p: Payload, q: Quote, now: int)
    requires p.QuotePayload?
  {
    && order.tenant == row.tenant && order.demo == p.demo && order.user == p.user && order.customer == p.user
    && order.plan == p.plan && order.planVersion == q.planVersion && order.amount == q.amount && order.currency == q.currency
    && order.purpose == p.purpose && order.environment == cfg.environment
    && order.domainId == DomainOrder(p.demo, cfg.hex16(p.request)) && order.creationKey == row.key
    && order.correlation == row.correlation
    && order.providerId == None && order.status == Creating && order.version == 1
    && order.reconcileAfter == None && order.paidAt == None
    && (order.expiresAt == q.expiresAt || order.expiresAt == now + cfg.paymentExpiry)
    && order.expiresAt <= q.expiresAt && order.expiresAt <= now + cfg.paymentExpiry
  }

  lemma QuoteChecks(id: Uuid, row: OutboxRow, p: Payload, d: Details, now: int)
    ensures IsQuoteRequest(id, row, p) && IsOpenQuote(d, p, now) <==>
      ValidQuotePayload(p) && d.QuoteDetails? && ValidQuote(d.quote) && QuoteBound(id, row, p, d.quote) && !(d.quote.expiresAt <= now)
  {
    hide NumericPlan, E164;
  }

  lemma OrderKeys(cfg: Config, db: Db, row: OutboxRow, p: Payload, q: Quote, now: int)
    requires p.QuotePayload?
    ensures OrderKeyTaken(cfg, db, row, p) <==>
      || OrderClash(db, PaymentOrderId(p.request), NewOrder(cfg, row, p, q, now))
      || OutboxClash(db, CashfreeEventId(p.request), row.tenant, UuidText(CashfreeEventId(p.request)))
      || LogClash(db, p.demo, RequestLogKey(p.request))
  {
    hide RowTaken, OutboxClash, LogClash, Logged;
    TakenIff(db, CashfreeEventId(p.request), row.tenant, UuidText(CashfreeEventId(p.request)));
    LoggedIff(db, p.demo, RequestLogKey(p.request));
  }

  lemma OrderedFields(cfg: Config, db: Db, row: OutboxRow, p: Payload, q: Quote, now: int)
    requires p.QuotePayload? && p.demo in db.demos
    ensures Orders(cfg, db, OrderedDb(db, row, p, NewOrder(cfg, row, p, q, now), q, now), row, p, q, now)
  {
    hide NewOrder, CashfreeRow, IsNewOrder, Announces, OrderedDb, Moved;
    var order := NewOrder(cfg, row, p, q, now);
    var after := OrderedDb(db, row, p, order, q, now);
    NewOrderFields(cfg, row, p, q, now);
    OrderedTables(db, row, p, order, q, now);
    assert after.orders[PaymentOrderId(p.request)] == order;
    CashfreeRowFields(cfg, db, after, row, p, q, now);
  }

  lemma OrderedTables(db: Db, row: OutboxRow, p: Payload, order: Order, q: Quote, now: int)
    requires p.QuotePayload? && p.demo in db.demos
    ensures
      var after, key := OrderedDb(db, row, p, order, q, now), (row.tenant, row.key);
      && after.orders == db.orders[PaymentOrderId(p.request) := order]
      && after.outbox == db.outbox[CashfreeEventId(p.request) := CashfreeRow(p, order, now)]
      && Moved(db, after, p.demo, REQUEST_PAYMENT, PAYMENT_PENDING, Labelled("payment-request", UuidText(p.request)))
      && after.requests == (if key in db.requests
                            then db.requests[key := db.requests[key].(status := QuoteVerified, reference := q.planVersion)]
                            else db.requests)
      && after == db.(orders := after.orders, outbox := after.outbox, demos := after.demos, log := after.log, requests := after.requests)
  {
    hide CashfreeRow;
  }

  lemma NewOrderFields(cfg: Config, row: OutboxRow, p: Payload, q: Quote, now: int)
    requires p.QuotePayload?
    ensures IsNewOrder(cfg, NewOrder(cfg, row, p, q, now), row, p, q, now)
  {
  }

  lemma CashfreeRowFields(cfg: Config, db: Db, after: Db, row: OutboxRow, p: Payload, q: Quote, now: int)
    requires p.QuotePayload?
    requires after.outbox == db.outbox[CashfreeEventId(p.request) := CashfreeRow(p, NewOrder(cfg, row, p, q, now), now)]
    ensures Announces(db, after, CashfreeEventId(p.request), row.tenant, CASHFREE, UuidText(CashfreeEventId(p.request)), row.correlation,
                      CashfreeOrderPayload(p.request, PaymentOrderId(p.request), DomainOrder(p.demo, cfg.hex16(p.request)), q.amount,
                                           q.currency, p.user, p.phone, p.purpose, row.correlation,
                                           NewOrder(cfg, row, p, q, now).expiresAt), now)
  {
  }

  /**
   A quote whose request has no order yet is recorded exactly when request and quote are in order
   and the demo waits for it; a key in use refuses the whole, and everything else raises and
   leaves the tables alone.
   */
  lemma QuoteRecordedIff(cfg: Config, db: Db, id: Uuid, row: OutboxRow, p: Payload, d: Details, now: int)
    requires forall o :: o in db.orders ==> db.orders[o].tenant != row.tenant || db.orders[o].creationKey != row.key
    ensures
      var e := RecordQuote(cfg, db, id, row, p, d, now);
      var good := IsQuoteRequest(id, row, p) && IsOpenQuote(d, p, now) && DemoWaits(db, row, p);
      && (e.Done? <==> good && !OrderKeyTaken(cfg, db, row, p))
      && (e.Violation? <==> good && OrderKeyTaken(cfg, db, row, p))
      && (e.Raised? ==> e.db == db)
      && (e.Done? ==> Orders(cfg, db, e.db, row, p, d.quote, now))
  {
    hide IsQuoteRequest, IsOpenQuote, ValidQuotePayload, ValidQuote, QuoteBound, OrderKeyTaken, OrderClash, OutboxClash, LogClash,
         NewOrder, OrderedDb, Orders;
    QuoteChecks(id, row, p, d, now);
    assert OrdersByCreationKey(db, row.tenant, row.key) == {};
    if ValidQuotePayload(p) && d.QuoteDetails? {
      assert p.QuotePayload? by {
        IsRequest(p);
      }
      OrderKeys(cfg, db, row, p, d.quote, now);
      if p.demo in db.demos {
        OrderedFields(cfg, db, row, p, d.quote, now);
      }
    }
  }

  lemma IsRequest(p: Payload)
    requires ValidQuotePayload(p)
    ensures p.QuotePayload?
  {
    hide NumericPlan, E164;
  }

  /** For a request that has its order a repeated quote changes nothing: it finishes if order, request and quote agree. */
  lemma RepeatedQuote(cfg: Config, db: Db, id: Uuid, row: OutboxRow, p: Payload, d: Details, now: int, o: Uuid)
    requires Inv(cfg, db) && o in db.orders && db.orders[o].tenant == row.tenant && db.orders[o].creationKey == row.key
    ensures RecordQuote(cfg, db, id, row, p, d, now) ==
      if IsQuoteRequest(id, row, p) && IsOpenQuote(d, p, now) && SameAsked(db.orders[o], p, d.quote) then Done(db) else Raised(db)
  {
    hide Inv, IsQuoteRequest, IsOpenQuote, ValidQuotePayload, ValidQuote, QuoteBound;
    QuoteChecks(id, row, p, d, now);
    assert o in OrdersByCreationKey(db, row.tenant, row.key);
    OneByCreationKey(cfg, db, row.tenant, row.key, o);
  }

  // ---------------------------------------------------------------- the acknowledgement

  /** The row is the order's own Cashfree request, and the answer names the provider order it refers to. */
  predicate IsCashfreeAnswer(id: Uuid, row: OutboxRow, p: Payload, reference: Text, d: Details) {
    && p.CashfreeOrderPayload? && p.amount > 0 && IsoCurrency(p.currency) && p.customer != Str("") && E164(p.phone)
    && p.purpose == "demo_conversion" && p.correlation != Str("") && p.correlation == row.correlation
    && p.order == PaymentOrderId(p.request) && id == CashfreeEventId(p.request) && row.key == UuidText(id) && row.target == CASHFREE
    && d.AckDetails? && d.ack.providerId != Str("") && d.ack.providerId == reference && d.ack.secret != "" && 1 <= |d.ack.status| <= 32
  }

  /** The order is stored as the request describes it. */
  ghost predicate OrderIsAsAsked(db: Db, row: OutboxRow, p: Payload)
    requires p.CashfreeOrderPayload?
  {
    && p.order in db.orders
    && var x := db.orders[p.order];
    && x.tenant == row.tenant && x.domainId == p.reference && x.creationKey == UuidText(p.request)
    && x.amount == p.amount && x.currency == p.currency && x.customer == p.customer && x.purpose == p.purpose
    && x.expiresAt == p.expiresAt
  }

  ghost predicate Bound(a: Db, b: Db, row: OutboxRow, p: Payload, ack: Acknowledgement, now: int)
    requires p.CashfreeOrderPayload? && p.order in a.orders
  {
    var x, key := a.orders[p.order], (row.tenant, UuidText(p.request));
    && b.orders == a.orders[p.order := x.(providerId := Some(ack.providerId), status := Pending, reconcileAfter := Some(now),
                                          version := x.version + 1)]
    && b.checkouts == a.checkouts[p.order := Checkout(ack.secret, x.expiresAt)]
    && b.requests == (if key in a.requests
                      then a.requests[key := a.requests[key].(status := Ready, reference := ack.providerId)] else a.requests)
    && b == a.(orders := b.orders, checkouts := b.checkouts, requests := b.requests)
  }

  /**
   An acknowledgement binds its order exactly when the row is the order's own request, the order
   is stored as asked, the answer is active, the order has no other provider order and no other
   order has this one.  A well-bound answer that is not active raises and leaves the order in
   review; every other refusal leaves the tables alone.
   */
  lemma AcknowledgedIff(db: Db, id: Uuid, row: OutboxRow, p: Payload, reference: Text, d: Details, now: int)
    ensures
      var e := RecordCashfree(db, id, row, p, reference, d, now);
      var own := IsCashfreeAnswer(id, row, p, reference, d) && OrderIsAsAsked(db, row, p);
      var active := own && Upper(d.ack.status) == "ACTIVE";
      var free := own && (db.orders[p.order].providerId == None || db.orders[p.order].providerId == Some(d.ack.providerId));
      var taken := own && exists o :: o in db.orders && o != p.order && db.orders[o].providerId == Some(d.ack.providerId);
      && (e.Done? <==> active && free && !taken)
      && (e.Violation? <==> active && free && taken)
      && (e.Done? ==> Bound(db, e.db, row, p, d.ack, now))
      && (e.Raised? ==>
            if own && !active then e.db == db.(orders := db.orders[p.order := db.orders[p.order].(status := UnderReview)])
            else e.db == db)
  {
    hide E164, IsoCurrency, Upper;
  }
}
