/**
 What holds of every reachable database, table by table, and how each kind of write keeps it.
 */
module SagaInvariant {
  import opened Identifiers
  import opened Lifecycle
  import opened Monetary
  import opened PaymentVerification
  import opened Store
  import opened Handlers
  import Digits

  // ---------------------------------------------------------------- the transition log

  /** The log is a chain from NEW to the current state and the version counts its entries. */
  predicate LogOk(run: seq<LogEntry>, demo: Demo) {
    run != [] && Chained(run) && StartsAtNew(run) && EndState(run) == demo.state && demo.version == |run|
    && SagaSound(run)
  }

  ghost predicate LogInv(demos: map<Uuid, Demo>, log: map<Uuid, seq<LogEntry>>) {
    demos.Keys == log.Keys && forall d :: d in demos ==> LogOk(log[d], demos[d])
  }

  // ---------------------------------------------------------------- orders

  predicate NeedsProvider(s: OrderStatus) { s.Pending? || s.Settled? || s.Reconciling? }

  ghost predicate OrderOk(cfg: Config, demos: map<Uuid, Demo>, o: Uuid, order: Order) {
    && o.V5? && o == PaymentOrderId(o.space)
    && order.creationKey == UuidText(o.space)
    && order.domainId == DomainOrder(order.demo, cfg.hex16(o.space))
    && order.demo in demos
    && demos[order.demo].tenant == order.tenant
    && demos[order.demo].user == Some(order.user)
    && order.customer == order.user
    && order.user != Str("")
    && order.correlation != Str("")
    && NumericPlan(order.plan)
    && order.amount > 0
    && IsoCurrency(order.currency)
    && order.purpose == DEMO_CONVERSION
    && order.environment == cfg.environment
    && (NeedsProvider(order.status) ==> order.providerId.Some?)
    && order.providerId != Some(Str(""))
  }

  ghost predicate OrdersInv(cfg: Config, demos: map<Uuid, Demo>, orders: map<Uuid, Order>) {
    && (forall o :: o in orders ==> OrderOk(cfg, demos, o, orders[o]))
    && (forall a, b :: a in orders && b in orders && a != b ==>
          orders[a].domainId != orders[b].domainId
          && (orders[a].providerId.Some? ==> orders[a].providerId != orders[b].providerId))
  }

  // ---------------------------------------------------------------- outbox rows

  /** The row opens under its own associated data and its columns agree with its payload. */
  ghost predicate RowOk(id: Uuid, row: OutboxRow) {
    && Open(row, id).Some?
    && row.kind == KindOf(row.cipher.plain)
    && match row.cipher.plain
       case QuotePayload(request, _, _, _, _, purpose, correlation) =>
         request == id && row.key == UuidText(id) && row.target == WEBSITE
         && correlation == row.correlation && purpose == DEMO_CONVERSION
       case CashfreeOrderPayload(request, order, _, _, _, _, _, _, correlation, _) =>
         id == CashfreeEventId(request) && order == PaymentOrderId(request)
         && row.key == UuidText(id) && row.target == CASHFREE && correlation == row.correlation
       case VerifiedPayload(_, _, _, _, _, _, _, _, _, correlation, _) =>
         row.target == WEBSITE && correlation == row.correlation
       case OnboardingPayload(target, key, correlation, _, _, _, _, _) =>
         row.target == ONBOARDING && target == ONBOARDING && key == row.key && correlation == row.correlation
         && id == V5(NAMESPACE_URL, Labelled("nxtutors", key))
       case DeliveryPayload(event, _, _, sendKey) => event == id && sendKey == row.key
  }

  ghost predicate RowsInv(outbox: map<Uuid, OutboxRow>) {
    forall id :: id in outbox ==> RowOk(id, outbox[id])
  }

  /** The Cashfree request row repeats its order, and every order has its row. */
  ghost predicate CashfreeRowOk(orders: map<Uuid, Order>, row: OutboxRow)
    requires row.cipher.plain.CashfreeOrderPayload?
  {
    var p := row.cipher.plain;
    && ValidCashfreePayload(p)
    && p.order in orders
    && var order := orders[p.order];
    && order.tenant == row.tenant && order.domainId == p.reference
    && order.creationKey == UuidText(p.request)
    && order.amount == p.amount && order.currency == p.currency && order.customer == p.customer
    && order.purpose == p.purpose && order.correlation == p.correlation && order.expiresAt == p.expiresAt
  }

  ghost predicate CashfreeInv(orders: map<Uuid, Order>, outbox: map<Uuid, OutboxRow>) {
    && (forall id :: id in outbox && outbox[id].cipher.plain.CashfreeOrderPayload? ==> CashfreeRowOk(orders, outbox[id]))
    && (forall o :: o in orders && o.V5? ==>
          CashfreeEventId(o.space) in outbox && outbox[CashfreeEventId(o.space)].cipher.plain.CashfreeOrderPayload?
          && outbox[CashfreeEventId(o.space)].cipher.plain.order == o)
  }

  // ---------------------------------------------------------------- paid transitions

  function OrderActivationKey(order: Order): Text
    requires order.providerId.Some?
  {
    Digest([Str("activation"), order.domainId, order.providerId.value, UuidText(order.demo)])
  }

  function OrderPaidKey(order: Order): Text
    requires order.providerId.Some?
  {
    Digest([Str("paid-outbox"), order.domainId, order.providerId.value, UuidText(order.demo)])
  }

  ghost predicate AttemptSupports(cfg: Config, order: Order, o: Uuid, a: Attempt) {
    a.order == o && a.amount == order.amount && a.currency == order.currency && a.status in cfg.policy.success
  }

  ghost predicate VerifiedRowFor(o: Uuid, order: Order, paid: Paid, row: OutboxRow)
    requires order.providerId.Some?
  {
    && row.tenant == order.tenant
    && row.key == OrderPaidKey(order)
    && row.correlation == order.correlation
    && ParsePlan(order.plan).Some?
    && row.cipher.plain == VerifiedPayload(
         order.demo, order.user, ParsePlan(order.plan).value, order.planVersion, order.amount,
         order.currency, order.providerId.value, paid.paymentId, paid.at, order.correlation,
         paid.activationKey)
  }

  ghost predicate PaidOk(cfg: Config, orders: map<Uuid, Order>, attempts: map<Text, Attempt>,
                         outbox: map<Uuid, OutboxRow>, o: Uuid, paid: Paid) {
    && o in orders
    && orders[o].providerId.Some?
    && paid.amount == orders[o].amount
    && paid.currency == orders[o].currency
    && paid.activationKey == OrderActivationKey(orders[o])
    && paid.paymentId in attempts
    && paid.paymentId != Str("")
    && AttemptSupports(cfg, orders[o], o, attempts[paid.paymentId])
    && PaidEventId(o) in outbox
    && VerifiedRowFor(o, orders[o], paid, outbox[PaidEventId(o)])
  }

  ghost predicate PaidInv(cfg: Config, orders: map<Uuid, Order>, attempts: map<Text, Attempt>,
                          outbox: map<Uuid, OutboxRow>, paid: map<Uuid, Paid>) {
    && (forall o :: o in paid ==> PaidOk(cfg, orders, attempts, outbox, o, paid[o]))
    && (forall a, b :: a in paid && b in paid && a != b ==> paid[a].id != paid[b].id)
    && (forall id :: id in outbox && outbox[id].cipher.plain.VerifiedPayload? ==>
          exists o :: o in paid && id == PaidEventId(o))
  }

  ghost predicate SettledInv(orders: map<Uuid, Order>, paid: map<Uuid, Paid>) {
    forall o :: o in orders && orders[o].status.Settled? ==> o in paid
  }

  // ---------------------------------------------------------------- handoffs

  /** The onboarding row tells the agent about the paid order: its demo, user, plan and payment. */
  ghost predicate OnboardingRowFor(order: Order, paid: Paid, row: OutboxRow) {
    && row.tenant == order.tenant && row.correlation == order.correlation
    && row.cipher.plain.OnboardingPayload?
    && row.cipher.plain.demo == order.demo && row.cipher.plain.user == order.user && row.cipher.plain.plan == order.plan
    && row.cipher.plain.payment == paid.paymentId
  }

  ghost predicate HandoffOk(orders: map<Uuid, Order>, paid: map<Uuid, Paid>, outbox: map<Uuid, OutboxRow>,
                            o: Uuid, h: Handoff) {
    && o in paid && o in orders
    && h.paidId == paid[o].id
    && h.key == OnboardingKey(h.paidId)
    && h.tenant == orders[o].tenant
    && OnboardingEventId(h.paidId) in outbox
    && OnboardingRowFor(orders[o], paid[o], outbox[OnboardingEventId(h.paidId)])
  }

  ghost predicate HandoffInv(orders: map<Uuid, Order>, paid: map<Uuid, Paid>,
                             outbox: map<Uuid, OutboxRow>, handoffs: map<Uuid, Handoff>) {
    forall o :: o in handoffs ==> HandoffOk(orders, paid, outbox, o, handoffs[o])
  }

  // ---------------------------------------------------------------- a state has its evidence

  ghost predicate HasPaidOrder(orders: map<Uuid, Order>, paid: map<Uuid, Paid>, demo: Uuid) {
    exists o :: o in paid && o in orders && orders[o].demo == demo
  }

  ghost predicate HasHandoff(orders: map<Uuid, Order>, paid: map<Uuid, Paid>, handoffs: map<Uuid, Handoff>, demo: Uuid) {
    exists o :: o in handoffs && o in paid && o in orders && orders[o].demo == demo
  }

  ghost predicate EvidenceInv(demos: map<Uuid, Demo>, orders: map<Uuid, Order>, paid: map<Uuid, Paid>,
                              handoffs: map<Uuid, Handoff>) {
    forall d :: d in demos ==>
      (demos[d].state == PAID ==> HasPaidOrder(orders, paid, d))
      && (demos[d].state == ONBOARDING_HANDOFF || demos[d].state == CONVERTED ==>
            HasHandoff(orders, paid, handoffs, d))
  }

  // ---------------------------------------------------------------- counting orders in the log

  ghost function OrdersOf(orders: map<Uuid, Order>, demo: Uuid): set<Uuid> {
    set o | o in orders && orders[o].demo == demo
  }

  ghost function PaidOrdersOf(orders: map<Uuid, Order>, paid: map<Uuid, Paid>, demo: Uuid): set<Uuid> {
    set o | o in orders && o in paid && orders[o].demo == demo
  }

  /** One REQUEST_PAYMENT per order and one VERIFY_PAYMENT per paid transition of a demo. */
  ghost predicate CountInv(log: map<Uuid, seq<LogEntry>>, orders: map<Uuid, Order>, paid: map<Uuid, Paid>) {
    forall d :: d in log ==>
      Count(log[d], REQUEST_PAYMENT) == |OrdersOf(orders, d)|
      && Count(log[d], VERIFY_PAYMENT) == |PaidOrdersOf(orders, paid, d)|
  }

  // ---------------------------------------------------------------- quote requests

  ghost predicate RequestOk(k: (Text, Text), r: ProviderRequest) {
    k.1 == UuidText(r.hash.request) && (r.status.Queued? ==> r.reference == UuidText(r.hash.demo))
  }

  ghost predicate RequestsInv(requests: map<(Text, Text), ProviderRequest>) {
    && (forall k :: k in requests ==> RequestOk(k, requests[k]))
    && (forall a, b | a in requests && b in requests && a != b && a.0 == b.0
          && requests[a].status.Queued? && requests[b].status.Queued? ::
          requests[a].hash.demo != requests[b].hash.demo)
  }

  // ---------------------------------------------------------------- started demos

  /** A demo derived from an event was started by it, so its reply was queued with it. */
  ghost predicate StartedInv(demos: map<Uuid, Demo>, outbox: map<Uuid, OutboxRow>) {
    forall e: Uuid :: DemoIdOf(e) in demos ==> ReplyEventId(e) in outbox
  }

  ghost predicate Core(cfg: Config, db: Db) {
    && LogInv(db.demos, db.log)
    && OrdersInv(cfg, db.demos, db.orders)
    && RowsInv(db.outbox)
    && CashfreeInv(db.orders, db.outbox)
    && PaidInv(cfg, db.orders, db.attempts, db.outbox, db.paid)
    && SettledInv(db.orders, db.paid)
    && HandoffInv(db.orders, db.paid, db.outbox, db.handoffs)
    && EvidenceInv(db.demos, db.orders, db.paid, db.handoffs)
    && CountInv(db.log, db.orders, db.paid)
    && RequestsInv(db.requests)
  }

  ghost predicate Inv(cfg: Config, db: Db) {
    Core(cfg, db) && StartedInv(db.demos, db.outbox)
  }

  lemma EmptyInv(cfg: Config)
    ensures Inv(cfg, EMPTY)
  {
  }

  // ---------------------------------------------------------------- moving a demo

  lemma CountAppend(run: seq<LogEntry>, e: LogEntry, command: Command)
    ensures Count(run + [e], command) == Count(run, command) + if e.command == command then 1 else 0
  {
    assert (run + [e])[..|run|] == run;
  }

  lemma SagaSoundAppend(run: seq<LogEntry>, e: LogEntry)
    requires SagaSound(run) && SagaEdge(e)
    ensures SagaSound(run + [e])
  {
    hide SagaEdge;
  }

  lemma MoveKeepsLog(db: Db, demo: Uuid, command: Command, after: DemoState, key: Text)
    requires LogInv(db.demos, db.log) && demo in db.demos
    requires SagaEdge(LogEntry(db.demos[demo].state, command, after, key))
    ensures LogInv(Move(db, demo, command, after, key).demos, Move(db, demo, command, after, key).log)
  {
    hide SagaSound, SagaEdge;
    var run, e := db.log[demo], LogEntry(db.demos[demo].state, command, after, key);
    assert LogOf(db, demo) == run;
    assert (run + [e])[0] == run[0];
    SagaSoundAppend(run, e);
  }

  /** A move leaves who the demo belongs to alone. */
  lemma MoveKeepsOwners(cfg: Config, db: Db, demo: Uuid, command: Command, after: DemoState, key: Text)
    requires demo in db.demos && OrdersInv(cfg, db.demos, db.orders)
    ensures OrdersInv(cfg, Move(db, demo, command, after, key).demos, db.orders)
  {
  }

  lemma MoveCounts(db: Db, demo: Uuid, command: Command, after: DemoState, key: Text, counted: Command)
    requires demo in db.demos && LogInv(db.demos, db.log)
    ensures forall d :: d in db.log ==>
      Count(Move(db, demo, command, after, key).log[d], counted)
      == Count(db.log[d], counted) + if d == demo && command == counted then 1 else 0
  {
    CountAppend(db.log[demo], LogEntry(db.demos[demo].state, command, after, key), counted);
  }

  lemma MoveInLog(db: Db, demo: Uuid, command: Command, after: DemoState, key: Text)
    requires LogInv(db.demos, db.log) && demo in db.demos
    ensures Move(db, demo, command, after, key).log.Keys == db.log.Keys
  {
  }

  lemma PlainMoveKeepsCounts(db: Db, demo: Uuid, command: Command, after: DemoState, key: Text)
    requires LogInv(db.demos, db.log) && CountInv(db.log, db.orders, db.paid) && demo in db.demos
    requires command != REQUEST_PAYMENT && command != VERIFY_PAYMENT
    ensures CountInv(Move(db, demo, command, after, key).log, db.orders, db.paid)
  {
    hide LogInv, OrdersOf, PaidOrdersOf, Count, Move;
    MoveInLog(db, demo, command, after, key);
    MoveCounts(db, demo, command, after, key, REQUEST_PAYMENT);
    MoveCounts(db, demo, command, after, key, VERIFY_PAYMENT);
  }

  /** A move that is neither a payment request nor a verification, to a state whose evidence is there. */
  lemma PlainMoveKeepsCore(cfg: Config, db: Db, demo: Uuid, command: Command, after: DemoState, key: Text)
    requires Core(cfg, db) && demo in db.demos
    requires SagaEdge(LogEntry(db.demos[demo].state, command, after, key))
    requires command != REQUEST_PAYMENT && command != VERIFY_PAYMENT
    requires after == PAID ==> HasPaidOrder(db.orders, db.paid, demo)
    requires after == ONBOARDING_HANDOFF || after == CONVERTED ==> HasHandoff(db.orders, db.paid, db.handoffs, demo)
    ensures Core(cfg, Move(db, demo, command, after, key))
  {
    hide LogInv, OrdersInv, RowsInv, CashfreeInv, PaidInv, SettledInv, HandoffInv, EvidenceInv, CountInv, RequestsInv, SagaEdge;
    MoveKeepsLog(db, demo, command, after, key);
    MoveKeepsOwners(cfg, db, demo, command, after, key);
    PlainMoveKeepsCounts(db, demo, command, after, key);
    MoveKeepsEvidence(db, demo, command, after, key);
  }

  lemma PlainMoveKeepsInv(cfg: Config, db: Db, demo: Uuid, command: Command, after: DemoState, key: Text)
    requires Inv(cfg, db) && demo in db.demos
    requires SagaEdge(LogEntry(db.demos[demo].state, command, after, key))
    requires command != REQUEST_PAYMENT && command != VERIFY_PAYMENT
    requires after == PAID ==> HasPaidOrder(db.orders, db.paid, demo)
    requires after == ONBOARDING_HANDOFF || after == CONVERTED ==> HasHandoff(db.orders, db.paid, db.handoffs, demo)
    ensures Inv(cfg, Move(db, demo, command, after, key))
  {
    hide Core, StartedInv, SagaEdge;
    MoveKeepsStarted(db, demo, command, after, key);
    PlainMoveKeepsCore(cfg, db, demo, command, after, key);
  }

  lemma MoveKeepsStarted(db: Db, demo: Uuid, command: Command, after: DemoState, key: Text)
    requires StartedInv(db.demos, db.outbox) && demo in db.demos
    ensures StartedInv(Move(db, demo, command, after, key).demos, db.outbox)
  {
  }

  lemma MoveKeepsEvidence(db: Db, demo: Uuid, command: Command, after: DemoState, key: Text)
    requires EvidenceInv(db.demos, db.orders, db.paid, db.handoffs) && demo in db.demos
    requires after == PAID ==> HasPaidOrder(db.orders, db.paid, demo)
    requires after == ONBOARDING_HANDOFF || after == CONVERTED ==> HasHandoff(db.orders, db.paid, db.handoffs, demo)
    ensures EvidenceInv(Move(db, demo, command, after, key).demos, db.orders, db.paid, db.handoffs)
  {
  }

  // ---------------------------------------------------------------- rewriting an order

  /** Everything of an order that its quote and its provider fixed. */
  predicate SameOrder(a: Order, b: Order) {
    b == a.(providerId := b.providerId, status := b.status, reconcileAfter := b.reconcileAfter,
            paidAt := b.paidAt, version := b.version)
    && (a.providerId.Some? ==> b.providerId == a.providerId)
  }

  lemma SetOrderKeepsOrders(cfg: Config, demos: map<Uuid, Demo>, orders: map<Uuid, Order>, o: Uuid, order: Order)
    requires OrdersInv(cfg, demos, orders) && o in orders && SameOrder(orders[o], order)
    requires NeedsProvider(order.status) ==> order.providerId.Some?
    requires order.providerId != Some(Str(""))
    requires order.providerId.Some? ==> forall p :: p in orders && p != o ==> orders[p].providerId != order.providerId
    ensures OrdersInv(cfg, demos, orders[o := order])
  {
  }

  lemma SetOrderKeepsCashfree(orders: map<Uuid, Order>, outbox: map<Uuid, OutboxRow>, o: Uuid, order: Order)
    requires CashfreeInv(orders, outbox) && o in orders && SameOrder(orders[o], order)
    ensures CashfreeInv(orders[o := order], outbox)
  {
  }

  lemma SetOrderKeepsPaid(cfg: Config, orders: map<Uuid, Order>, attempts: map<Text, Attempt>,
                          outbox: map<Uuid, OutboxRow>, paid: map<Uuid, Paid>, o: Uuid, order: Order)
    requires PaidInv(cfg, orders, attempts, outbox, paid) && o in orders && SameOrder(orders[o], order)
    ensures PaidInv(cfg, orders[o := order], attempts, outbox, paid)
  {
    var after := orders[o := order];
    forall p | p in paid ensures PaidOk(cfg, after, attempts, outbox, p, paid[p]) {
      assert PaidOk(cfg, orders, attempts, outbox, p, paid[p]);
    }
  }

  lemma SetOrderKeepsHandoffs(orders: map<Uuid, Order>, paid: map<Uuid, Paid>, outbox: map<Uuid, OutboxRow>,
                              handoffs: map<Uuid, Handoff>, o: Uuid, order: Order)
    requires HandoffInv(orders, paid, outbox, handoffs) && o in orders && SameOrder(orders[o], order)
    ensures HandoffInv(orders[o := order], paid, outbox, handoffs)
  {
  }

  lemma SetOrderKeepsEvidence(demos: map<Uuid, Demo>, orders: map<Uuid, Order>, paid: map<Uuid, Paid>,
                              handoffs: map<Uuid, Handoff>, o: Uuid, order: Order)
    requires EvidenceInv(demos, orders, paid, handoffs) && o in orders && SameOrder(orders[o], order)
    ensures EvidenceInv(demos, orders[o := order], paid, handoffs)
  {
    forall d | d in demos
      ensures HasPaidOrder(orders, paid, d) ==> HasPaidOrder(orders[o := order], paid, d)
      ensures HasHandoff(orders, paid, handoffs, d) ==> HasHandoff(orders[o := order], paid, handoffs, d) {
    }
  }

  lemma SetOrderKeepsCounts(log: map<Uuid, seq<LogEntry>>, orders: map<Uuid, Order>, paid: map<Uuid, Paid>, o: Uuid, order: Order)
    requires CountInv(log, orders, paid) && o in orders && SameOrder(orders[o], order)
    ensures CountInv(log, orders[o := order], paid)
  {
    forall d | d in log ensures OrdersOf(orders[o := order], d) == OrdersOf(orders, d)
      && PaidOrdersOf(orders[o := order], paid, d) == PaidOrdersOf(orders, paid, d) {
    }
  }

  lemma SetOrderKeepsSettled(orders: map<Uuid, Order>, paid: map<Uuid, Paid>, o: Uuid, order: Order)
    requires SettledInv(orders, paid) && (order.status.Settled? ==> o in paid)
    ensures SettledInv(orders[o := order], paid)
  {
  }

  lemma SetOrderKeepsInv(cfg: Config, db: Db, o: Uuid, order: Order)
    requires Inv(cfg, db) && o in db.orders && SameOrder(db.orders[o], order)
    requires NeedsProvider(order.status) ==> order.providerId.Some?
    requires order.status.Settled? ==> o in db.paid
    requires order.providerId != Some(Str(""))
    requires order.providerId.Some? ==> !ProviderOrderClash(db, o, order.providerId.value)
    ensures Inv(cfg, SetOrder(db, o, order))
  {
    hide LogInv, OrdersInv, RowsInv, CashfreeInv, PaidInv, SettledInv, HandoffInv, EvidenceInv, CountInv, RequestsInv, StartedInv;
    SetOrderKeepsOrders(cfg, db.demos, db.orders, o, order);
    SetOrderKeepsCashfree(db.orders, db.outbox, o, order);
    SetOrderKeepsPaid(cfg, db.orders, db.attempts, db.outbox, db.paid, o, order);
    SetOrderKeepsHandoffs(db.orders, db.paid, db.outbox, db.handoffs, o, order);
    SetOrderKeepsEvidence(db.demos, db.orders, db.paid, db.handoffs, o, order);
    SetOrderKeepsCounts(db.log, db.orders, db.paid, o, order);
    SetOrderKeepsSettled(db.orders, db.paid, o, order);
  }

  /** A rewrite of status and times alone, the provider's id untouched. */
  lemma SetStatusKeepsInv(cfg: Config, db: Db, o: Uuid, order: Order)
    requires Inv(cfg, db) && o in db.orders && SameOrder(db.orders[o], order)
    requires order.providerId == db.orders[o].providerId
    requires NeedsProvider(order.status) ==> order.providerId.Some?
    requires order.status.Settled? ==> o in db.paid
    ensures Inv(cfg, SetOrder(db, o, order))
  {
    hide Inv, SameOrder;
    OrderSafe(cfg, db, o);
    SetOrderKeepsInv(cfg, db, o, order);
  }

  lemma OrderSafe(cfg: Config, db: Db, o: Uuid)
    requires Inv(cfg, db) && o in db.orders
    ensures db.orders[o].providerId != Some(Str(""))
    ensures db.orders[o].providerId.Some? ==> !ProviderOrderClash(db, o, db.orders[o].providerId.value)
  {
    hide LogInv, RowsInv, CashfreeInv, PaidInv, SettledInv, HandoffInv, EvidenceInv, CountInv, RequestsInv, StartedInv;
  }

  // ---------------------------------------------------------------- adding or marking an outbox row

  /** The outbox only grew, or a row's delivery columns changed. */
  ghost predicate OutboxKept(before: map<Uuid, OutboxRow>, after: map<Uuid, OutboxRow>) {
    forall id :: id in before ==>
      id in after
      && after[id] == before[id].(availableAt := after[id].availableAt, attempts := after[id].attempts,
                                  published := after[id].published, providerReference := after[id].providerReference)
  }

  lemma KeptRowsKeepPaid(cfg: Config, orders: map<Uuid, Order>, attempts: map<Text, Attempt>,
                         before: map<Uuid, OutboxRow>, after: map<Uuid, OutboxRow>, paid: map<Uuid, Paid>)
    requires PaidInv(cfg, orders, attempts, before, paid) && OutboxKept(before, after)
    requires forall id :: id in after && id !in before ==> !after[id].cipher.plain.VerifiedPayload?
    ensures PaidInv(cfg, orders, attempts, after, paid)
  {
    forall p | p in paid ensures PaidOk(cfg, orders, attempts, after, p, paid[p]) {
      assert PaidOk(cfg, orders, attempts, before, p, paid[p]);
    }
  }

  lemma KeptRowsKeepCashfree(orders: map<Uuid, Order>, before: map<Uuid, OutboxRow>, after: map<Uuid, OutboxRow>)
    requires CashfreeInv(orders, before) && OutboxKept(before, after)
    requires forall id :: id in after && id !in before ==> !after[id].cipher.plain.CashfreeOrderPayload?
    ensures CashfreeInv(orders, after)
  {
  }

  lemma KeptRowsKeepRows(before: map<Uuid, OutboxRow>, after: map<Uuid, OutboxRow>)
    requires RowsInv(before) && OutboxKept(before, after)
    requires forall id :: id in after && id !in before ==> RowOk(id, after[id])
    ensures RowsInv(after)
  {
  }

  lemma KeptRowsKeepHandoffs(orders: map<Uuid, Order>, paid: map<Uuid, Paid>, before: map<Uuid, OutboxRow>,
                             after: map<Uuid, OutboxRow>, handoffs: map<Uuid, Handoff>)
    requires HandoffInv(orders, paid, before, handoffs) && OutboxKept(before, after)
    ensures HandoffInv(orders, paid, after, handoffs)
  {
  }

  lemma KeptRowsKeepStarted(demos: map<Uuid, Demo>, before: map<Uuid, OutboxRow>, after: map<Uuid, OutboxRow>)
    requires StartedInv(demos, before) && OutboxKept(before, after)
    ensures StartedInv(demos, after)
  {
  }

  lemma NewRowKept(before: map<Uuid, OutboxRow>, id: Uuid, row: OutboxRow)
    requires id !in before
    ensures OutboxKept(before, before[id := row])
  {
  }

  lemma MarkedRowKept(before: map<Uuid, OutboxRow>, id: Uuid, row: OutboxRow)
    requires id in before
    requires row == before[id].(availableAt := row.availableAt, attempts := row.attempts,
                                published := row.published, providerReference := row.providerReference)
    ensures OutboxKept(before, before[id := row])
  {
  }

  /** New rows that are neither Cashfree requests nor verified payments, and marks on old rows. */
  lemma KeptRowsKeepCore(cfg: Config, db: Db, after: map<Uuid, OutboxRow>)
    requires Core(cfg, db) && OutboxKept(db.outbox, after)
    requires forall id :: id in after && id !in db.outbox ==>
      RowOk(id, after[id]) && !after[id].cipher.plain.VerifiedPayload? && !after[id].cipher.plain.CashfreeOrderPayload?
    ensures Core(cfg, db.(outbox := after))
  {
    hide LogInv, OrdersInv, RowsInv, CashfreeInv, PaidInv, SettledInv, HandoffInv, EvidenceInv, CountInv, RequestsInv, OutboxKept, RowOk;
    KeptRowsKeepRows(db.outbox, after);
    KeptRowsKeepCashfree(db.orders, db.outbox, after);
    KeptRowsKeepPaid(cfg, db.orders, db.attempts, db.outbox, after, db.paid);
    KeptRowsKeepHandoffs(db.orders, db.paid, db.outbox, after, db.handoffs);
  }

  lemma AddRowKeepsCore(cfg: Config, db: Db, id: Uuid, row: OutboxRow)
    requires Core(cfg, db) && id !in db.outbox && RowOk(id, row)
    requires !row.cipher.plain.VerifiedPayload? && !row.cipher.plain.CashfreeOrderPayload?
    ensures Core(cfg, AddOutbox(db, id, row))
  {
    hide Core, RowOk, OutboxKept;
    NewRowKept(db.outbox, id, row);
    KeptRowsKeepCore(cfg, db, db.outbox[id := row]);
  }

  lemma AddRowKeepsInv(cfg: Config, db: Db, id: Uuid, row: OutboxRow)
    requires Inv(cfg, db) && id !in db.outbox && RowOk(id, row)
    requires !row.cipher.plain.VerifiedPayload? && !row.cipher.plain.CashfreeOrderPayload?
    ensures Inv(cfg, AddOutbox(db, id, row))
  {
    hide Core, StartedInv, RowOk, OutboxKept;
    NewRowKept(db.outbox, id, row);
    AddRowKeepsCore(cfg, db, id, row);
    KeptRowsKeepStarted(db.demos, db.outbox, db.outbox[id := row]);
  }

  lemma MarkRowKeepsInv(cfg: Config, db: Db, id: Uuid, row: OutboxRow)
    requires Inv(cfg, db) && id in db.outbox
    requires row == db.outbox[id].(availableAt := row.availableAt, attempts := row.attempts,
                                   published := row.published, providerReference := row.providerReference)
    ensures Inv(cfg, AddOutbox(db, id, row))
  {
    hide Core, StartedInv, RowOk, OutboxKept;
    MarkedRowKept(db.outbox, id, row);
    KeptRowsKeepCore(cfg, db, db.outbox[id := row]);
    KeptRowsKeepStarted(db.demos, db.outbox, db.outbox[id := row]);
  }
}
