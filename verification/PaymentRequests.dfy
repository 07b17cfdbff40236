/**
 When asking for a payment order is answered how, and what a queued request stores, told on the
 tables.
 */
module PaymentRequests {
  import opened Identifiers
  import opened Lifecycle
  import opened Store
  import opened Handlers

  /** The request id was used in the tenant before. */
  predicate Known(db: Db, tenant: Text, c: OrderCommand) { (tenant, UuidText(c.request)) in db.requests }

  /** The demo is the tenant's. */
  predicate DemoIsThere(db: Db, tenant: Text, c: OrderCommand) { c.demo in db.demos && db.demos[c.demo].tenant == tenant }

  /** The demo is bound to the website user of the command. */
  predicate UserIsBound(db: Db, c: OrderCommand) { c.demo in db.demos && db.demos[c.demo].user == Some(c.user) }

  /** No order of the demo is still being worked on. */
  predicate NoOpenOrder(db: Db, tenant: Text, demo: Uuid) {
    forall o :: o in db.orders && db.orders[o].tenant == tenant && db.orders[o].demo == demo ==>
      db.orders[o].status in {Settled, NotPaid, Lapsed}
  }

  /** No earlier request for the demo waits for its quote or its order. */
  predicate NoOpenRequest(db: Db, tenant: Text, demo: Uuid) {
    forall k :: k in db.requests && k.0 == tenant && db.requests[k].reference == UuidText(demo) ==> db.requests[k].status == Ready
  }

  /** Neither the outbox row's event id nor its key in the tenant is taken. */
  predicate RowIsFree(db: Db, tenant: Text, c: OrderCommand) {
    c.request !in db.outbox
    && forall r :: r in db.outbox && db.outbox[r].tenant == tenant ==> db.outbox[r].key != UuidText(c.request)
  }

  /** The request is stored with its hash and the row that asks the website for a quote; nothing else changes. */
  predicate Queues(a: Db, b: Db, tenant: Text, c: OrderCommand, correlation: Text, now: int) {
    && b.requests == a.requests[(tenant, UuidText(c.request)) := ProviderRequest(c, UuidText(c.demo), Queued, correlation)]
    && c.request in b.outbox && b.outbox == a.outbox[c.request := b.outbox[c.request]]
    && AsksForQuote(b.outbox[c.request], tenant, c, correlation, now)
    && b == a.(requests := b.requests, outbox := b.outbox)
  }

  predicate AsksForQuote(row: OutboxRow, tenant: Text, c: OrderCommand, correlation: Text, now: int) {
    && Open(row, c.request) == Some(QuotePayload(c.request, c.demo, c.user, c.plan, c.phone, "demo_conversion", correlation))
    && row.kind == PlanQuoteRequested && row.tenant == tenant && row.target == WEBSITE && row.key == UuidText(c.request)
    && row.correlation == correlation && row.availableAt == now && row.attempts == 0 && !row.published
  }

  lemma GuardsOnTables(db: Db, tenant: Text, c: OrderCommand)
    ensures NoOpenOrder(db, tenant, c.demo) <==> !HasActiveOrder(db, tenant, c.demo)
    ensures NoOpenRequest(db, tenant, c.demo) <==> !HasActiveRequest(db, tenant, c.demo)
    ensures RowIsFree(db, tenant, c) <==> !OutboxClash(db, c.request, tenant, UuidText(c.request))
  {
  }

  /** A request is queued exactly when every one of these holds, and otherwise changes nothing. */
  lemma QueuedIff(cfg: Config, db: Db, tenant: Text, c: OrderCommand, correlation: Text, now: int)
    ensures
      var (answer, after) := RequestOrder(cfg, db, tenant, c, correlation, now);
      && (answer == QuotePending <==>
            && cfg.hashingConfigured && !Known(db, tenant, c)
            && DemoIsThere(db, tenant, c) && UserIsBound(db, c) && db.demos[c.demo].state == CONVERSION_FOLLOW_UP
            && NoOpenOrder(db, tenant, c.demo) && NoOpenRequest(db, tenant, c.demo) && RowIsFree(db, tenant, c))
      && (if answer == QuotePending then Queues(db, after, tenant, c, correlation, now) else after == db)
  {
    hide NoOpenOrder, NoOpenRequest, RowIsFree, HasActiveOrder, HasActiveRequest, OutboxClash;
    GuardsOnTables(db, tenant, c);
  }

  /** The refusals of a new request id: each is given exactly when its condition fails first. */
  lemma RefusedWhy(cfg: Config, db: Db, tenant: Text, c: OrderCommand, correlation: Text, now: int)
    requires cfg.hashingConfigured && !Known(db, tenant, c)
    ensures
      var answer := RequestOrder(cfg, db, tenant, c, correlation, now).0;
      && (answer == NoSuchDemo <==> !DemoIsThere(db, tenant, c))
      && (answer == UserMismatch <==> DemoIsThere(db, tenant, c) && !UserIsBound(db, c))
      && (answer == ActiveOrder <==>
            DemoIsThere(db, tenant, c) && UserIsBound(db, c) && !NoOpenOrder(db, tenant, c.demo))
      && (answer == WrongState <==>
            && DemoIsThere(db, tenant, c) && UserIsBound(db, c) && NoOpenOrder(db, tenant, c.demo)
            && db.demos[c.demo].state != CONVERSION_FOLLOW_UP)
      && (answer == ActiveRequest <==>
            && DemoIsThere(db, tenant, c) && UserIsBound(db, c) && NoOpenOrder(db, tenant, c.demo)
            && db.demos[c.demo].state == CONVERSION_FOLLOW_UP && !NoOpenRequest(db, tenant, c.demo))
      && (answer == Collided <==>
            && DemoIsThere(db, tenant, c) && UserIsBound(db, c) && NoOpenOrder(db, tenant, c.demo)
            && db.demos[c.demo].state == CONVERSION_FOLLOW_UP && NoOpenRequest(db, tenant, c.demo)
            && !RowIsFree(db, tenant, c))
  {
    hide NoOpenOrder, NoOpenRequest, RowIsFree, HasActiveOrder, HasActiveRequest, OutboxClash;
    GuardsOnTables(db, tenant, c);
  }

  /** Without hashing nothing is looked up; a known request id is a replay exactly for the same input. */
  lemma KnownIsAnswered(cfg: Config, db: Db, tenant: Text, c: OrderCommand, correlation: Text, now: int)
    ensures
      var answer := RequestOrder(cfg, db, tenant, c, correlation, now).0;
      && (answer == NotConfigured <==> !cfg.hashingConfigured)
      && (answer == Replayed <==>
            cfg.hashingConfigured && Known(db, tenant, c) && db.requests[(tenant, UuidText(c.request))].hash == c)
      && (answer == KeyReused <==>
            cfg.hashingConfigured && Known(db, tenant, c) && db.requests[(tenant, UuidText(c.request))].hash != c)
  {
    hide HasActiveOrder, HasActiveRequest, OutboxClash;
  }
}
