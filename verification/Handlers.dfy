/**
 What each writer of the saga does to the database, as functions.

 A handler either finishes, raises (keeping the changes its session already holds), or adds a
 row that breaks a unique key.  What becomes of a raised change is the caller's choice: the
 inbox rolls it back, the publisher commits it.
 */
module Handlers {
  import opened Identifiers
  import opened Lifecycle
  import opened Monetary
  import opened PaymentVerification
  import opened Store
  import Digits

  datatype Effect = Done(db: Db) | Raised(db: Db) | Violation

  /** The row a query returns: none, or any one of the rows that match. */
  ghost function Pick(matches: set<Uuid>): (r: Option<Uuid>)
    ensures r.None? <==> matches == {}
    ensures r.Some? ==> r.value in matches
  {
    if matches == {} then None else var x :| x in matches; Some(x)
  }

  // ---------------------------------------------------------------- unique keys

  /** A new outbox row would break its unique event id or its unique (tenant, key). */
  predicate OutboxClash(db: Db, id: Uuid, tenant: Text, key: Text) {
    id in db.outbox || exists r :: r in db.outbox && db.outbox[r].tenant == tenant && db.outbox[r].key == key
  }

  predicate LogClash(db: Db, demo: Uuid, key: Text) {
    exists i :: 0 <= i < |LogOf(db, demo)| && LogOf(db, demo)[i].key == key
  }

  predicate OrderClash(db: Db, id: Uuid, order: Order) {
    id in db.orders
    || exists o :: o in db.orders && db.orders[o].tenant == order.tenant
         && (db.orders[o].domainId == order.domainId || db.orders[o].creationKey == order.creationKey)
  }

  predicate ProviderOrderClash(db: Db, id: Uuid, providerId: Text) {
    exists o :: o in db.orders && o != id && db.orders[o].providerId == Some(providerId)
  }

  predicate PaidClash(db: Db, order: Uuid, row: Paid) {
    order in db.paid
    || exists o :: o in db.paid
         && (db.paid[o].id == row.id || db.paid[o].paymentId == row.paymentId
             || db.paid[o].activationKey == row.activationKey)
  }

  predicate HandoffClash(db: Db, order: Uuid, row: Handoff) {
    order in db.handoffs
    || exists o :: o in db.handoffs
         && (db.handoffs[o].id == row.id
             || (db.handoffs[o].tenant == row.tenant && db.handoffs[o].key == row.key))
  }

  predicate EventClash(db: Db, source: Source, id: Uuid, payload: WebhookPayload) {
    (source, id) in db.events
    || exists e :: e in db.events && e.0 == source && db.events[e].payload == payload
  }

  predicate MessageClash(db: Db, id: Uuid, tenant: Text, key: Text) {
    id in db.messages
    || exists m :: m in db.messages && db.messages[m].tenant == tenant && db.messages[m].key == key
  }

  // ---------------------------------------------------------------- shared writes

  /** Sets the state, counts the version up and appends the log row. */
  function Move(db: Db, demo: Uuid, command: Command, after: DemoState, key: Text): Db
    requires demo in db.demos
  {
    var d := db.demos[demo];
    db.(demos := db.demos[demo := d.(state := after, version := d.version + 1)],
        log := db.log[demo := LogOf(db, demo) + [LogEntry(d.state, command, after, key)]])
  }

  function AddOutbox(db: Db, id: Uuid, row: OutboxRow): Db {
    db.(outbox := db.outbox[id := row])
  }

  function SetOrder(db: Db, id: Uuid, order: Order): Db {
    db.(orders := db.orders[id := order])
  }

  function SetHandoff(db: Db, order: Uuid, handoff: Handoff): Db {
    db.(handoffs := db.handoffs[order := handoff])
  }

  // ---------------------------------------------------------------- asking for a payment order

  datatype Answer =
    | QuotePending | Replayed | NotConfigured | KeyReused | NoSuchDemo | UserMismatch
    | ActiveOrder | WrongState | ActiveRequest | Collided

  predicate BlocksRequest(s: OrderStatus) {
    s.Creating? || s.Pending? || s.Reconciling? || s.ReconciliationRequired? || s.UnderReview?
  }

  predicate HasActiveOrder(db: Db, tenant: Text, demo: Uuid) {
    exists o :: o in db.orders && db.orders[o].tenant == tenant && db.orders[o].demo == demo
      && BlocksRequest(db.orders[o].status)
  }

  predicate QuoteInFlight(tenant: Text, demo: Uuid, k: (Text, Text), r: ProviderRequest) {
    k.0 == tenant && r.reference == UuidText(demo) && (r.status.Queued? || r.status.QuoteVerified?)
  }

  predicate HasActiveRequest(db: Db, tenant: Text, demo: Uuid) {
    exists k :: k in db.requests && QuoteInFlight(tenant, demo, k, db.requests[k])
  }

  function RequestedDb(db: Db, tenant: Text, c: OrderCommand, correlation: Text, now: int): Db {
    var key := UuidText(c.request);
    var p := QuotePayload(c.request, c.demo, c.user, c.plan, c.phone, DEMO_CONVERSION, correlation);
    db.(requests := db.requests[(tenant, key) := ProviderRequest(c, UuidText(c.demo), Queued, correlation)],
        outbox := db.outbox[c.request := NewRow(c.request, tenant, WEBSITE, key, correlation, p, now)])
  }

  function RequestOrder(cfg: Config, db: Db, tenant: Text, c: OrderCommand, correlation: Text, now: int): (Answer, Db) {
    var key := UuidText(c.request);
    if !cfg.hashingConfigured then (NotConfigured, db)
    else if (tenant, key) in db.requests then
      (if db.requests[(tenant, key)].hash == c then Replayed else KeyReused, db)
    else if c.demo !in db.demos || db.demos[c.demo].tenant != tenant then (NoSuchDemo, db)
    else if db.demos[c.demo].user != Some(c.user) then (UserMismatch, db)
    else if HasActiveOrder(db, tenant, c.demo) then (ActiveOrder, db)
    else if db.demos[c.demo].state != CONVERSION_FOLLOW_UP then (WrongState, db)
    else if HasActiveRequest(db, tenant, c.demo) then (ActiveRequest, db)
    else if OutboxClash(db, c.request, tenant, key) then (Collided, db)
    else (QuotePending, RequestedDb(db, tenant, c, correlation, now))
  }

  // ---------------------------------------------------------------- the quote becomes an order

  datatype Quote = Quote(
    plan: string, amount: int, currency: string, eligible: bool, planVersion: Text, user: Text,
    expiresAt: int)

  datatype Acknowledgement = Acknowledgement(providerId: Text, secret: string, status: string)

  datatype Details = NoDetails | QuoteDetails(quote: Quote) | AckDetails(ack: Acknowledgement)

  predicate ValidQuotePayload(p: Payload) {
    p.QuotePayload? && p.user != Str("") && NumericPlan(p.plan) && E164(p.phone)
    && p.purpose == DEMO_CONVERSION && p.correlation != Str("")
  }

  predicate ValidQuote(q: Quote) {
    NumericPlan(q.plan) && q.amount > 0 && IsoCurrency(q.currency) && q.user != Str("")
  }

  predicate QuoteBound(id: Uuid, row: OutboxRow, p: Payload, q: Quote)
    requires p.QuotePayload?
  {
    && id == p.request
    && row.target == WEBSITE
    && UuidText(p.request) == row.key
    && p.correlation == row.correlation
    && q.plan == p.plan
    && q.user == p.user
    && q.eligible
  }

  predicate MatchesExisting(order: Order, p: Payload, q: Quote)
    requires p.QuotePayload?
  {
    && order.demo == p.demo && order.user == p.user && order.customer == p.user
    && order.plan == p.plan && order.planVersion == q.planVersion
    && order.amount == q.amount && order.currency == q.currency && order.purpose == p.purpose
  }

  function NewOrder(cfg: Config, row: OutboxRow, p: Payload, q: Quote, now: int): Order
    requires p.QuotePayload?
  {
    var expires := if q.expiresAt <= now + cfg.paymentExpiry then q.expiresAt else now + cfg.paymentExpiry;
    Order(row.tenant, p.demo, DomainOrder(p.demo, cfg.hex16(p.request)), None, p.user, p.user,
          p.plan, q.planVersion, q.amount, q.currency, p.purpose, cfg.environment, Creating,
          row.key, row.correlation, expires, None, None, 1)
  }

  function CashfreeRow(p: Payload, order: Order, now: int): OutboxRow
    requires p.QuotePayload?
  {
    var id := CashfreeEventId(p.request);
    NewRow(id, order.tenant, CASHFREE, UuidText(id), order.correlation,
           CashfreeOrderPayload(p.request, PaymentOrderId(p.request), order.domainId, order.amount,
                                order.currency, order.customer, p.phone, order.purpose,
                                order.correlation, order.expiresAt), now)
  }

  function MarkQuoteVerified(db: Db, tenant: Text, key: Text, planVersion: Text): Db {
    if (tenant, key) in db.requests then
      var r := db.requests[(tenant, key)];
      db.(requests := db.requests[(tenant, key) := r.(status := QuoteVerified, reference := planVersion)])
    else db
  }

  ghost function OrdersByCreationKey(db: Db, tenant: Text, key: Text): set<Uuid> {
    set o | o in db.orders && db.orders[o].tenant == tenant && db.orders[o].creationKey == key
  }

  ghost function RecordQuote(cfg: Config, db: Db, id: Uuid, row: OutboxRow, p: Payload, d: Details, now: int): Effect {
    if !ValidQuotePayload(p) || !d.QuoteDetails? || !ValidQuote(d.quote) then Raised(db)
    else if !QuoteBound(id, row, p, d.quote) then Raised(db)
    else if d.quote.expiresAt <= now then Raised(db)
    else match Pick(OrdersByCreationKey(db, row.tenant, row.key))
      case Some(o) => if MatchesExisting(db.orders[o], p, d.quote) then Done(db) else Raised(db)
      case None =>
        if p.demo !in db.demos || db.demos[p.demo].tenant != row.tenant then Raised(db)
        else if db.demos[p.demo].user != Some(p.user) then Raised(db)
        else if db.demos[p.demo].state != CONVERSION_FOLLOW_UP then Raised(db)
        else
          var order := NewOrder(cfg, row, p, d.quote, now);
          var cashfreeId := CashfreeEventId(p.request);
          if OrderClash(db, PaymentOrderId(p.request), order)
             || OutboxClash(db, cashfreeId, row.tenant, UuidText(cashfreeId))
             || LogClash(db, p.demo, RequestLogKey(p.request))
          then Violation
          else Done(OrderedDb(db, row, p, order, d.quote, now))
  }

  function OrderedDb(db: Db, row: OutboxRow, p: Payload, order: Order, q: Quote, now: int): Db
    requires p.QuotePayload? && p.demo in db.demos
  {
    var db1 := SetOrder(db, PaymentOrderId(p.request), order);
    var db2 := AddOutbox(db1, CashfreeEventId(p.request), CashfreeRow(p, order, now));
    var db3 := Move(db2, p.demo, REQUEST_PAYMENT, PAYMENT_PENDING, RequestLogKey(p.request));
    MarkQuoteVerified(db3, row.tenant, row.key, q.planVersion)
  }

  // ---------------------------------------------------------------- the provider order is bound

  predicate ValidCashfreePayload(p: Payload) {
    p.CashfreeOrderPayload? && p.amount > 0 && IsoCurrency(p.currency) && p.customer != Str("")
    && E164(p.phone) && p.purpose == DEMO_CONVERSION && p.correlation != Str("")
  }

  predicate ValidAck(a: Acknowledgement) {
    a.providerId != Str("") && a.secret != "" && 1 <= |a.status| <= 32
  }

  predicate CashfreeBound(id: Uuid, row: OutboxRow, p: Payload, reference: Text, a: Acknowledgement)
    requires p.CashfreeOrderPayload?
  {
    && p.order == PaymentOrderId(p.request)
    && id == CashfreeEventId(p.request)
    && row.key == UuidText(CashfreeEventId(p.request))
    && row.target == CASHFREE
    && p.correlation == row.correlation
    && a.providerId == reference
  }

  /** The recorder's local binding check between the stored order and its own request. */
  predicate LocallyBound(db: Db, tenant: Text, p: Payload)
    requires p.CashfreeOrderPayload?
  {
    && p.order in db.orders
    && var order := db.orders[p.order];
    && order.tenant == tenant
    && order.domainId == p.reference
    && order.creationKey == UuidText(p.request)
    && order.amount == p.amount
    && order.currency == p.currency
    && order.customer == p.customer
    && order.purpose == p.purpose
    && order.expiresAt == p.expiresAt
  }

  function MarkReady(db: Db, tenant: Text, key: Text, providerId: Text): Db {
    if (tenant, key) in db.requests then
      var r := db.requests[(tenant, key)];
      db.(requests := db.requests[(tenant, key) := r.(status := Ready, reference := providerId)])
    else db
  }

  function BoundOrder(order: Order, providerId: Text, now: int): Order {
    order.(providerId := Some(providerId), status := Pending, reconcileAfter := Some(now),
           version := order.version + 1)
  }

  function RecordCashfree(db: Db, id: Uuid, row: OutboxRow, p: Payload, reference: Text, d: Details, now: int): Effect {
    if !ValidCashfreePayload(p) || !d.AckDetails? || !ValidAck(d.ack) then Raised(db)
    else if !CashfreeBound(id, row, p, reference, d.ack) then Raised(db)
    else if !LocallyBound(db, row.tenant, p) then Raised(db)
    else
      var order := db.orders[p.order];
      if Upper(d.ack.status) != "ACTIVE" then
        Raised(SetOrder(db, p.order, order.(status := UnderReview)))
      else if order.providerId != None && order.providerId != Some(d.ack.providerId) then Raised(db)
      else if ProviderOrderClash(db, p.order, d.ack.providerId) then Violation
      else
        var db1 := SetOrder(db, p.order, BoundOrder(order, d.ack.providerId, now));
        var db2 := db1.(checkouts := db1.checkouts[p.order := Checkout(d.ack.secret, order.expiresAt)]);
        Done(MarkReady(db2, row.tenant, UuidText(p.request), d.ack.providerId))
  }

  // ---------------------------------------------------------------- onboarding is queued

  ghost function OrdersByProviderId(db: Db, tenant: Text, providerId: Text, demo: Uuid): set<Uuid> {
    set o | o in db.orders && db.orders[o].tenant == tenant
      && db.orders[o].providerId == Some(providerId) && db.orders[o].demo == demo
  }

  predicate HandoffQueued(db: Db, tenant: Text, key: Text) {
    exists o :: o in db.handoffs && db.handoffs[o].tenant == tenant && db.handoffs[o].key == key
  }

  function OnboardingRow(db: Db, tenant: Text, o: Uuid, correlation: Text, p: Payload, activation: Text, now: int): OutboxRow
    requires o in db.orders && o in db.paid && p.VerifiedPayload?
  {
    var key := OnboardingKey(db.paid[o].id);
    NewRow(OnboardingEventId(db.paid[o].id), tenant, ONBOARDING, key, correlation,
           OnboardingPayload(ONBOARDING, key, correlation, db.orders[o].demo, db.orders[o].user,
                             activation, p.evidence, db.orders[o].plan), now)
  }

  ghost function QueueOnboarding(db: Db, row: OutboxRow, p: Payload, activation: Text, newId: Uuid, now: int): Effect {
    if !p.VerifiedPayload? || p.providerOrder == Str("") || p.evidence == Str("") then Raised(db)
    else match Pick(OrdersByProviderId(db, row.tenant, p.providerOrder, p.demo))
      case None => Raised(db)
      case Some(o) =>
        if o !in db.paid then Raised(db)
        else
          var key, id := OnboardingKey(db.paid[o].id), OnboardingEventId(db.paid[o].id);
          if HandoffQueued(db, row.tenant, key) then Done(db)
          else if p.demo !in db.demos || db.demos[p.demo].state != PAID then Raised(db)
          else
            var handoff := Handoff(newId, row.tenant, db.paid[o].id, key, HandoffPending, None, 0, None);
            if HandoffClash(db, o, handoff) || OutboxClash(db, id, row.tenant, key) then Violation
            else Done(AddOutbox(SetHandoff(db, o, handoff), id,
                                OnboardingRow(db, row.tenant, o, row.correlation, p, activation, now)))
  }

  ghost function HandoffsByKey(db: Db, tenant: Text, key: Text): set<Uuid> {
    set o | o in db.handoffs && db.handoffs[o].tenant == tenant && db.handoffs[o].key == key
  }

  /** The onboarding agent acknowledged the queued event. */
  ghost function RecordAcceptance(db: Db, row: OutboxRow, reference: Text): Effect {
    match Pick(HandoffsByKey(db, row.tenant, row.key))
    case None => Raised(db)
    case Some(o) =>
      if o !in db.paid || o !in db.orders || db.orders[o].demo !in db.demos then Raised(db)
      else
        var h, demo := db.handoffs[o], db.orders[o].demo;
        var db1 := SetHandoff(db, o, h.(status := HandoffAccepted, acknowledgement := Some(reference),
                                        attempts := h.attempts + 1));
        if db.demos[demo].state == ONBOARDING_HANDOFF then Done(db1)
        else if db.demos[demo].state != PAID then Raised(db1)
        else if LogClash(db, demo, AcceptedLogKey(h.id)) then Violation
        else Done(Move(db1, demo, HANDOFF_ONBOARDING, ONBOARDING_HANDOFF, AcceptedLogKey(h.id)))
  }

  // ---------------------------------------------------------------- inbox events

  datatype Envelope = Envelope(
    id: Uuid, tenant: Text, key: Text, correlation: Text, occurredAt: int, source: Text,
    conversation: Text, actor: string)

  datatype Search = SearchFails | NoTutors | Tutors

  /**
   What handling a message finds this time: whether its text changed the requirement, whether the
   requirement is complete, whether a stored candidate was picked, and what the search answered.
   It is read anew at each try, so it is an input of the step, like a new id.
   */
  datatype Turn = Turn(changed: bool, complete: bool, picked: bool, search: Search)

  datatype InboxEvent =
    | CashfreeWebhook(meta: Envelope, body: CashfreeBody)
    | MetaWebhook(meta: Envelope, payload: WebhookPayload)
    | OnboardingAccepted(meta: Envelope, demo: Uuid, user: Text, onboarding: Text)
    | OnboardingCompleted(meta: Envelope, demo: Uuid, user: Text, onboarding: Text)
    | WhatsappHandoff(meta: Envelope, sender: Option<Text>, valid: bool)
    | UnsupportedEvent(meta: Envelope)

  ghost function OrdersOfUser(db: Db, tenant: Text, demo: Uuid, user: Text): set<Uuid> {
    set o | o in db.orders && db.orders[o].tenant == tenant && db.orders[o].demo == demo
      && db.orders[o].user == user
  }

  /** The one order with a paid transition and a handoff that an onboarding event is about. */
  ghost function OnboardingContext(db: Db, tenant: Text, demo: Uuid, user: Text): Option<Uuid> {
    var orders := OrdersOfUser(db, tenant, demo, user);
    if |orders| != 1 then None
    else
      var o :| o in orders;
      if o in db.paid && o in db.handoffs && demo in db.demos then Some(o) else None
  }

  ghost function AcceptOnboarding(cfg: Config, db: Db, meta: Envelope, demo: Uuid, user: Text, onboarding: Text): Effect {
    if !cfg.onboardingConfigured then Raised(db)
    else match OnboardingContext(db, meta.tenant, demo, user)
      case None => Raised(db)
      case Some(o) =>
        var h := db.handoffs[o];
        var db1 := SetHandoff(db, o, h.(status := HandoffAccepted, acknowledgement := Some(onboarding)));
        if db.demos[demo].state == ONBOARDING_HANDOFF then Done(db1)
        else if db.demos[demo].state != PAID || db.orders[o].status != Settled then Raised(db1)
        else if LogClash(db, demo, meta.key) then Violation
        else Done(Move(db1, demo, HANDOFF_ONBOARDING, ONBOARDING_HANDOFF, meta.key))
  }

  function WelcomeRow(meta: Envelope, demo: Uuid, recipient: Text, handoff: Uuid, now: int): OutboxRow {
    NewRow(WelcomeEventId(handoff), meta.tenant, LEAD_INTAKE_AGENT, WelcomeKey(handoff), meta.correlation,
           DeliveryPayload(WelcomeEventId(handoff), demo, recipient, WelcomeKey(handoff)), now)
  }

  ghost function CompleteOnboarding(cfg: Config, db: Db, meta: Envelope, demo: Uuid, user: Text, now: int): Effect {
    if !cfg.welcomeConfigured then Raised(db)
    else match OnboardingContext(db, meta.tenant, demo, user)
      case None => Raised(db)
      case Some(o) =>
        var h := db.handoffs[o];
        if h.status == HandoffCompleted && db.demos[demo].state == CONVERTED then Done(db)
        else if h.status != HandoffAccepted || db.demos[demo].state != ONBOARDING_HANDOFF then Raised(db)
        else if MessageClash(db, WelcomeMessageId(h.id), meta.tenant, WelcomeKey(h.id))
                || OutboxClash(db, WelcomeEventId(h.id), meta.tenant, WelcomeKey(h.id))
                || LogClash(db, demo, meta.key)
        then Violation
        else Done(ConvertedDb(db, meta, o, demo, now))
  }

  function ConvertedDb(db: Db, meta: Envelope, o: Uuid, demo: Uuid, now: int): Db
    requires o in db.handoffs && demo in db.demos
  {
    var h := db.handoffs[o];
    var db1 := SetHandoff(db, o, h.(status := HandoffCompleted, welcome := Some(WelcomeMessageId(h.id))));
    var db2 := db1.(messages := db1.messages[WelcomeMessageId(h.id) := Message(meta.tenant, WelcomeKey(h.id), demo)]);
    var db3 := Move(db2, demo, COMPLETE_ONBOARDING, CONVERTED, meta.key);
    AddOutbox(db3, WelcomeEventId(h.id), WelcomeRow(meta, demo, db.demos[demo].conversation, h.id, now))
  }

  // ---------------------------------------------------------------- Cashfree webhooks

  function RequiredString(s: Option<string>): Option<string> {
    if s.Some? && Strip(s.value) != "" then Some(Strip(s.value)) else None
  }

  /** Strips an outside text; a derived key or id has no blanks around it. */
  function Trimmed(t: Text): Text {
    match t
    case Str(s) => Str(Strip(s))
    case _ => t
  }

  function RequiredReference(t: Option<Text>): Option<Text> {
    if t.Some? && Trimmed(t.value) != Str("") then Some(Trimmed(t.value)) else None
  }

  /** The webhook's fields once all the required ones are present and well formed. */
  datatype ParsedWebhook = ParsedWebhook(
    orderId: Text, cfOrderId: Text, paymentId: Text, status: string, currency: string)

  function ParseWebhook(b: CashfreeBody): Option<ParsedWebhook> {
    var orderId, cf, payment := RequiredReference(b.orderId), RequiredReference(b.cfOrderId), RequiredReference(b.paymentId);
    var status, currency := RequiredString(b.status), RequiredString(b.currency);
    if orderId.None? || cf.None? || payment.None? || status.None? || currency.None? then None
    else Some(ParsedWebhook(orderId.value, cf.value, payment.value, Upper(status.value), Upper(currency.value)))
  }

  ghost function OrdersByDomainId(db: Db, domainId: Text): set<Uuid> {
    set o | o in db.orders && db.orders[o].domainId == domainId
  }

  // the handler passes the two provider order ids the other way round
  function WebhookBinding(order: Order, w: ParsedWebhook, amount: Money): Binding {
    Binding(order.domainId, w.cfOrderId, order.demo, order.customer, amount, order.purpose,
            order.environment, order.expiresAt)
  }

  function WebhookEvidence(cfg: Config, id: Uuid, providerId: Text, b: CashfreeBody, w: ParsedWebhook, amount: Money): Evidence {
    Evidence(id, providerId, SignedWebhook, w.status, amount, b.customer, b.purpose,
             if b.environment.Some? then b.environment.value else cfg.environment, true, true, false)
  }

  function StatusAfter(kind: DecisionKind, before: OrderStatus): OrderStatus {
    match kind
    case Review | RejectedEvidence => UnderReview
    case PaymentFailed => NotPaid
    case PaymentExpired => Lapsed
    case Reconcile => ReconciliationRequired
    case _ => before
  }

  function RecordEvent(db: Db, source: Source, id: Uuid, payload: WebhookPayload, decision: Option<DecisionKind>): Db {
    db.(events := db.events[(source, id) := ProviderEvent(payload, decision)])
  }

  function RecordAttempt(db: Db, paymentId: Text, attempt: Attempt): Db {
    db.(attempts := db.attempts[paymentId := attempt])
  }

  /** The decision on a webhook for a bound order, or nothing when an amount or the policy is refused. */
  function Decide(cfg: Config, db: Db, meta: Envelope, b: CashfreeBody, o: Uuid, now: int): Option<Decision>
    requires o in db.orders
  {
    var order, w := db.orders[o], ParseWebhook(b);
    if w.None? || order.providerId.None? || b.amountMinor.None? || !PolicyAccepted(cfg.policy) then None
    else
      var bound, paid := MakeMoney(order.amount, order.currency), MakeMoney(b.amountMinor.value, w.value.currency);
      if bound.None? || paid.None? then None
      else
        Some(VerifyPayment(WebhookBinding(order, w.value, bound.value),
                           WebhookEvidence(cfg, meta.id, order.providerId.value, b, w.value, paid.value),
                           cfg.policy, {}, o in db.paid, now))
  }

  function ProcessBound(cfg: Config, db: Db, meta: Envelope, b: CashfreeBody, w: ParsedWebhook, o: Uuid, newId: Uuid, now: int): Effect
    requires o in db.orders
  {
    match Decide(cfg, db, meta, b, o, now)
    case None => Raised(db)
    case Some(decision) =>
      if w.paymentId in db.attempts then Violation
      else
        var attempt := Attempt(o, meta.id, w.status, b.amountMinor.value, w.currency, meta.occurredAt);
        var db1 := RecordAttempt(
          RecordEvent(db, FromCashfree, meta.id, CashfreePayload(b), Some(decision.kind)), w.paymentId, attempt);
        if decision.kind == TransitionPaid then
          ApplyPaid(db1, meta, o, w.paymentId, decision.activationKey.value, decision.outboxKey.value, newId, now)
        else
          var order := db.orders[o];
          Done(SetOrder(db1, o, order.(status := StatusAfter(decision.kind, order.status))))
  }

  ghost function ProcessCashfree(cfg: Config, db: Db, meta: Envelope, b: CashfreeBody, newId: Uuid, now: int): Effect {
    if EventClash(db, FromCashfree, meta.id, CashfreePayload(b)) then Violation
    else match ParseWebhook(b)
      case None => Raised(db)
      case Some(w) =>
        match Pick(OrdersByDomainId(db, w.orderId))
        case None => Raised(db)
        case Some(o) => ProcessBound(cfg, db, meta, b, w, o, newId, now)
  }

  predicate Payable(s: DemoState) {
    s == PAYMENT_PENDING || s == PAYMENT_REVIEW
  }

  function VerifiedRow(o: Uuid, order: Order, planId: int, paymentId: Text, activationKey: Text, outboxKey: Text, at: int, now: int): OutboxRow
    requires order.providerId.Some?
  {
    NewRow(PaidEventId(o), order.tenant, WEBSITE, outboxKey, order.correlation,
           VerifiedPayload(order.demo, order.user, planId, order.planVersion, order.amount, order.currency,
                           order.providerId.value, paymentId, at, order.correlation, activationKey), now)
  }

  function ApplyPaid(db: Db, meta: Envelope, o: Uuid, paymentId: Text, activationKey: Text, outboxKey: Text, newId: Uuid, now: int): Effect
    requires o in db.orders && db.orders[o].providerId.Some?
  {
    var order := db.orders[o];
    if order.demo !in db.demos || !Payable(db.demos[order.demo].state) then
      Done(SetOrder(db, o, order.(status := UnderReview)))
    else
      var row := Paid(newId, paymentId, activationKey, order.amount, order.currency, meta.occurredAt);
      var settled := order.(status := Settled, paidAt := Some(meta.occurredAt), version := order.version + 1);
      var db1 := Move(SetOrder(db, o, settled), order.demo, VERIFY_PAYMENT, PAID, meta.key);
      var db2 := db1.(paid := db1.paid[o := row]);
      match ParsePlan(order.plan)
      case None => Raised(db2)
      case Some(planId) =>
        if planId <= 0 then Raised(db2)
        else if PaidClash(db, o, row) || LogClash(db, order.demo, meta.key)
                || OutboxClash(db, PaidEventId(o), order.tenant, outboxKey)
        then Violation
        else Done(AddOutbox(db2, PaidEventId(o),
                            VerifiedRow(o, order, planId, paymentId, activationKey, outboxKey, meta.occurredAt, now)))
  }

  /** The provider under which a recorded event is filed: whoever sent it. */
  function ProviderOf(meta: Envelope): Source { if meta.source == CASHFREE then FromCashfree else FromMeta }

  function RecordMetaEvent(db: Db, meta: Envelope, payload: WebhookPayload): Effect {
    if EventClash(db, ProviderOf(meta), meta.id, payload) then Violation
    else Done(RecordEvent(db, ProviderOf(meta), meta.id, payload, None))
  }

  // ---------------------------------------------------------------- conversations

  // `command:after`, for the four commands conversations issue
  function CommandSuffix(command: Command): string {
    match command
    case COMPLETE_QUALIFICATION => "COMPLETE_QUALIFICATION:TUTOR_MATCHING"
    case COMPLETE_MATCHING => "COMPLETE_MATCHING:TUTOR_SHORTLISTED"
    case ACCEPT_SHORTLIST => "ACCEPT_SHORTLIST:SLOT_NEGOTIATING"
    case _ => "ESCALATE_HUMAN:HUMAN_HANDOFF"
  }

  function TransitionKey(meta: Envelope, command: Command): Text { Suffixed(meta.key, CommandSuffix(command)) }

  /** Changes the state without consulting the transition table. */
  function TransitionDemo(db: Db, meta: Envelope, demo: Uuid, command: Command, after: DemoState): Effect {
    if demo !in db.demos || db.demos[demo].state == after then Done(db)
    else if LogClash(db, demo, TransitionKey(meta, command)) then Violation
    else Done(Move(db, demo, command, after, TransitionKey(meta, command)))
  }

  /** Eight to fifteen digits, after a plus sign or without one. */
  predicate LooksLikeNumber(s: string) {
    var digits := Strip(if s != "" && s[0] == '+' then s[1..] else s);
    8 <= |digits| <= 15 && Digits.AllDigits(digits)
  }

  /** A reply goes to the actor's own number if that is one, and otherwise to the conversation. */
  function Recipient(meta: Envelope): Text {
    if LooksLikeNumber(Strip(meta.actor)) then Str(Strip(meta.actor)) else meta.conversation
  }

  function AddReply(e: Effect, meta: Envelope, demo: Uuid, now: int): Effect {
    match e
    case Done(db) =>
      var id, key := ReplyEventId(meta.id), ReplyKey(meta.id);
      if OutboxClash(db, id, meta.tenant, key) then Violation
      else Done(AddOutbox(db, id, NewRow(id, meta.tenant, meta.source, key, meta.correlation,
                                         DeliveryPayload(id, demo, Recipient(meta), key), now)))
    case _ => e
  }

  function SetStep(db: Db, meta: Envelope, demo: Uuid, step: ConversationStep): Db {
    db.(conversations := db.conversations[(meta.tenant, meta.conversation) := Conversation(demo, step)])
  }

  function Shortlist(db: Db, meta: Envelope, demo: Uuid): Effect {
    match TransitionDemo(db, meta, demo, COMPLETE_QUALIFICATION, TUTOR_MATCHING)
    case Done(db1) =>
      TransitionDemo(SetStep(db1, meta, demo, SelectTutor), meta, demo, COMPLETE_MATCHING, TUTOR_SHORTLISTED)
    case e => e
  }

  function Advance(cfg: Config, db: Db, meta: Envelope, demo: Uuid, step: ConversationStep, turn: Turn, now: int): Effect {
    var moved :=
      if !turn.complete || step != Collecting || !cfg.websiteConfigured then Done(db)
      else if turn.search != Tutors then
        TransitionDemo(db, meta, demo, ESCALATE_HUMAN, HUMAN_HANDOFF)
      else Shortlist(db, meta, demo);
    AddReply(moved, meta, demo, now)
  }

  /** The learner picked one of the offered tutors. */
  function AcceptTutor(db: Db, meta: Envelope, demo: Uuid, now: int): Effect {
    AddReply(TransitionDemo(SetStep(db, meta, demo, AwaitingTutor), meta, demo, ACCEPT_SHORTLIST, SLOT_NEGOTIATING),
             meta, demo, now)
  }

  function StepAfter(c: Conversation, turn: Turn): ConversationStep {
    if c.step != Collecting && !turn.changed then c.step else Collecting
  }

  function ContinueDemo(cfg: Config, db: Db, meta: Envelope, turn: Turn, now: int): Effect
    requires (meta.tenant, meta.conversation) in db.conversations
  {
    var c := db.conversations[(meta.tenant, meta.conversation)];
    if StepAfter(c, turn) == SelectTutor && turn.picked then AcceptTutor(db, meta, c.demo, now)
    else Advance(cfg, SetStep(db, meta, c.demo, StepAfter(c, turn)), meta, c.demo, StepAfter(c, turn), turn, now)
  }

  function StartDemo(cfg: Config, db: Db, meta: Envelope, sender: Option<Text>, turn: Turn, now: int): Effect {
    if (meta.tenant, meta.conversation) in db.conversations then ContinueDemo(cfg, db, meta, turn, now)
    else if DemoIdOf(meta.id) in db.demos then Done(db)
    else
      var demo := DemoIdOf(meta.id);
      var db1 := db.(demos := db.demos[demo := Demo(meta.tenant, sender, meta.conversation, QUALIFYING, 1)],
                     log := db.log[demo := [LogEntry(NEW, START_QUALIFICATION, QUALIFYING, meta.key)]]);
      Advance(cfg, SetStep(db1, meta, demo, Collecting), meta, demo, Collecting, turn, now)
  }

  ghost function Handle(cfg: Config, db: Db, event: InboxEvent, turn: Turn, newId: Uuid, now: int): Effect {
    match event
    case CashfreeWebhook(meta, body) => ProcessCashfree(cfg, db, meta, body, newId, now)
    case MetaWebhook(meta, payload) => RecordMetaEvent(db, meta, payload)
    case OnboardingAccepted(meta, demo, user, onboarding) => AcceptOnboarding(cfg, db, meta, demo, user, onboarding)
    case OnboardingCompleted(meta, demo, user, onboarding) => CompleteOnboarding(cfg, db, meta, demo, user, now)
    case WhatsappHandoff(meta, sender, valid) => if valid then StartDemo(cfg, db, meta, sender, turn, now) else Raised(db)
    case UnsupportedEvent(_) => Raised(db)
  }

  /** The inbox commits a handler that finishes and rolls back every other one. */
  ghost function HandleInbox(cfg: Config, db: Db, event: InboxEvent, turn: Turn, newId: Uuid, now: int): Db {
    match Handle(cfg, db, event, turn, newId, now)
    case Done(after) => after
    case _ => db
  }

  // ---------------------------------------------------------------- publishing an outbox row

  datatype Reply = Reply(reference: Text, details: Details)

  predicate Eligible(cfg: Config, db: Db, id: Uuid, now: int) {
    && id in db.outbox
    && !db.outbox[id].published
    && db.outbox[id].availableAt <= now
    && db.outbox[id].attempts < cfg.maximumAttempts
    && db.outbox[id].target !in cfg.blockedTargets
  }

  ghost function Record(cfg: Config, db: Db, id: Uuid, row: OutboxRow, p: Payload, reply: Reply, newId: Uuid, now: int): Effect {
    match row.kind
    case PlanQuoteRequested => RecordQuote(cfg, db, id, row, p, reply.details, now)
    case CashfreeOrderRequested => RecordCashfree(db, id, row, p, reply.reference, reply.details, now)
    case PaymentVerified => QueueOnboarding(db, row, p, reply.reference, newId, now)
    case OnboardingRequested => RecordAcceptance(db, row, reply.reference)
    case DeliveryRequested => Done(db)
  }

  function Power2(k: nat): (p: nat) ensures p >= 1 { if k == 0 then 1 else 2 * Power2(k - 1) }

  /** Seconds to wait after the given number of failures. */
  function Backoff(attempts: nat): nat {
    if Power2(attempts) <= 300 then Power2(attempts) else 300
  }

  function MarkPublished(db: Db, id: Uuid, reference: Text): Db
    requires id in db.outbox
  {
    db.(outbox := db.outbox[id := db.outbox[id].(published := true, providerReference := Some(reference))])
  }

  function MarkFailed(db: Db, id: Uuid, now: int): Db
    requires id in db.outbox
  {
    var attempts := db.outbox[id].attempts + 1;
    db.(outbox := db.outbox[id := db.outbox[id].(attempts := attempts, availableAt := now + Backoff(attempts))])
  }

  /** No reply means the transport raised. */
  ghost function PublishEffect(cfg: Config, db: Db, id: Uuid, reply: Option<Reply>, newId: Uuid, now: int): Effect
    requires id in db.outbox
  {
    var p := Open(db.outbox[id], id);
    if p.None? || reply.None? then Raised(db)
    else Record(cfg, db, id, db.outbox[id], p.value, reply.value, newId, now)
  }

  /** The publisher commits what a raising recorder changed, together with the failure mark. */
  ghost function Publish(cfg: Config, db: Db, id: Uuid, reply: Option<Reply>, newId: Uuid, now: int): Db {
    if !Eligible(cfg, db, id, now) then db
    else match PublishEffect(cfg, db, id, reply, newId, now)
      case Done(after) => if id in after.outbox then MarkPublished(after, id, reply.value.reference) else db
      case Raised(after) => if id in after.outbox then MarkFailed(after, id, now) else db
      case Violation => db
  }

  // ---------------------------------------------------------------- reconciliation

  /** The order is bound to the provider and due to be asked about. */
  predicate Due(order: Order, tenant: Text, now: int) {
    && order.tenant == tenant
    && order.providerId.Some?
    && (order.status.Pending? || order.status.ReconciliationRequired? || order.status.UnderReview?
        || order.status.Reconciling?)
    && (order.reconcileAfter.None? || order.reconcileAfter.value <= now)
  }

  predicate Reservable(db: Db, tenant: Text, o: Uuid, now: int) {
    o in db.orders && Due(db.orders[o], tenant, now)
  }

  function ReserveOrder(db: Db, tenant: Text, o: Uuid, now: int): Db {
    if Reservable(db, tenant, o, now) then SetOrder(db, o, db.orders[o].(status := Reconciling)) else db
  }

  function RecordProviderFailure(db: Db, o: Uuid, next: int): Db {
    if o in db.orders then
      SetOrder(db, o, db.orders[o].(status := ReconciliationRequired, reconcileAfter := Some(next)))
    else db
  }

  datatype Snapshot = Snapshot(providerId: Text, status: string, amount: int, currency: string)

  function SnapshotHash(s: Snapshot): Text {
    Labelled("snapshot", Labelled(Upper(s.status), Labelled(Upper(s.currency),
      Digest([s.providerId, Str(if s.amount >= 0 then Digits.Show(s.amount) else "-" + Digits.Show(-s.amount))]))))
  }

  function SnapshotOutcome(order: Order, s: Snapshot, next: int): (Order, SnapshotResult) {
    if order.providerId != Some(s.providerId) || s.amount != order.amount || Upper(s.currency) != Upper(order.currency)
    then (order.(status := UnderReview), SnapshotReview)
    else if Upper(s.status) == "PAID" then (order.(status := UnderReview), SnapshotReview)
    else if Upper(s.status) == "EXPIRED" then (order.(status := Lapsed), SnapshotExpired)
    else if Upper(s.status) == "ACTIVE" then
      (order.(status := Pending, reconcileAfter := Some(next)), SnapshotPending)
    else (order.(status := ReconciliationRequired, reconcileAfter := Some(next)), SnapshotReview)
  }

  function ApplySnapshot(db: Db, o: Uuid, before: OrderStatus, s: Snapshot, next: int): Db {
    if o !in db.orders || db.orders[o].providerId.None? then db
    else
      var (order, result) := SnapshotOutcome(db.orders[o], s, next);
      var key := (o, SnapshotHash(s));
      var db1 := SetOrder(db, o, order);
      if key in db.reconciliations then db1
      else db1.(reconciliations := db1.reconciliations[key := Reconciliation(before, result)])
  }

  // ---------------------------------------------------------------- runs

  datatype Step =
    | Request(tenant: Text, command: OrderCommand, correlation: Text, at: int)
    | Deliver(row: Uuid, reply: Option<Reply>, newId: Uuid, at: int)
    | Inbox(event: InboxEvent, turn: Turn, newId: Uuid, at: int)
    | Reserve(tenant: Text, order: Uuid, at: int)
    | ProviderFailed(order: Uuid, next: int)
    | ProviderAnswered(order: Uuid, before: OrderStatus, snapshot: Snapshot, next: int)
    | OtherEdge(demo: Uuid, edge: Command, after: DemoState, key: Text)

  /** Any other registered edge, taken outside the saga. */
  function TakeEdge(db: Db, demo: Uuid, command: Command, after: DemoState, key: Text): Db {
    if demo in db.demos && !IsSaga(command) && !LogClash(db, demo, key)
       && Registered(LogEntry(db.demos[demo].state, command, after, key))
    then Move(db, demo, command, after, key) else db
  }

  ghost function Next(cfg: Config, db: Db, step: Step): Db {
    match step
    case Request(tenant, command, correlation, at) => RequestOrder(cfg, db, tenant, command, correlation, at).1
    case Deliver(row, reply, newId, at) => Publish(cfg, db, row, reply, newId, at)
    case Inbox(event, turn, newId, at) => HandleInbox(cfg, db, event, turn, newId, at)
    case Reserve(tenant, order, at) => ReserveOrder(db, tenant, order, at)
    case ProviderFailed(order, next) => RecordProviderFailure(db, order, next)
    case ProviderAnswered(order, before, snapshot, next) => ApplySnapshot(db, order, before, snapshot, next)
    case OtherEdge(demo, command, after, key) => TakeEdge(db, demo, command, after, key)
  }

  ghost function Exec(cfg: Config, db: Db, steps: seq<Step>): Db {
    if steps == [] then db else Next(cfg, Exec(cfg, db, steps[..|steps| - 1]), steps[|steps| - 1])
  }
}
