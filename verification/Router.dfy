/**
 The production transport: each outbox row goes to the one owner its target names, after the
 row's columns are compared with its decrypted payload.
 */
module Router {
  import opened Identifiers
  import opened Lifecycle
  import opened Monetary
  import opened PaymentVerification
  import opened Store
  import opened Handlers
  import opened Frames
  import opened SagaInvariant
  import opened SagaPreservation
  import opened SagaTheorems

  /** Which gateways are configured. */
  datatype Owners = Owners(website: bool, leadIntake: bool, onboarding: bool, cashfree: bool)

  datatype Refusal = NoGateway | Malformed | MetadataMismatch | UnknownTarget

  datatype Routing =
    | AskQuote | Activate | SendMessage | HandOff | CreateProviderOrder
    | Refused(reason: Refusal)

  predicate WellFormedActivation(p: Payload) {
    p.VerifiedPayload? && p.planId > 0 && p.planVersion != Str("") && p.amount > 0 && IsoCurrency(p.currency)
  }

  function RouteWebsite(owners: Owners, p: Payload, key: Text, correlation: Text): Routing {
    if !owners.website then Refused(NoGateway)
    else if p.QuotePayload? then
      if !ValidQuotePayload(p) then Refused(Malformed)
      else if UuidText(p.request) != key || p.correlation != correlation then Refused(MetadataMismatch)
      else AskQuote
    else if !WellFormedActivation(p) then Refused(Malformed)
    else if p.correlation != correlation || p.activationKey != key then Refused(MetadataMismatch)
    else Activate
  }

  function RouteCashfree(owners: Owners, p: Payload, key: Text, correlation: Text): Routing {
    if !owners.cashfree then Refused(NoGateway)
    else if !ValidCashfreePayload(p) then Refused(Malformed)
    else if !key.UuidText? then Refused(MetadataMismatch)
    else if p.order != PaymentOrderId(p.request) || key.id != CashfreeEventId(p.request) || p.correlation != correlation
    then Refused(MetadataMismatch)
    else CreateProviderOrder
  }

  // a delivery request carries no correlation of its own: the row's is put in
  function RouteMessage(owners: Owners, p: Payload, key: Text): Routing {
    if !owners.leadIntake then Refused(NoGateway)
    else if !p.DeliveryPayload? then Refused(Malformed)
    else if p.sendKey != key then Refused(MetadataMismatch)
    else SendMessage
  }

  function RouteOnboarding(owners: Owners, p: Payload, key: Text, correlation: Text): Routing {
    if !owners.onboarding then Refused(NoGateway)
    else if !p.OnboardingPayload? then Refused(Malformed)
    else if p.target != ONBOARDING || p.key != key || p.correlation != correlation then Refused(MetadataMismatch)
    else HandOff
  }

  function Route(owners: Owners, target: Text, p: Payload, key: Text, correlation: Text): Routing {
    if target == WEBSITE then RouteWebsite(owners, p, key, correlation)
    else if target == LEAD_INTAKE || target == LEAD_INTAKE_AGENT then RouteMessage(owners, p, key)
    else if target == ONBOARDING then RouteOnboarding(owners, p, key, correlation)
    else if target == CASHFREE then RouteCashfree(owners, p, key, correlation)
    else Refused(UnknownTarget)
  }

  /** What the publisher gets for a row: decryption under the row's own columns, then the route. */
  function RouteRow(owners: Owners, id: Uuid, row: OutboxRow): Routing {
    match Open(row, id)
    case None => Refused(Malformed)
    case Some(p) => Route(owners, row.target, p, row.key, row.correlation)
  }

  /**
   Whatever the row: each owner is asked exactly when the target names it, its gateway is there,
   the payload is well formed and every column agrees with it.
   */
  lemma RoutedIff(owners: Owners, target: Text, p: Payload, key: Text, correlation: Text)
    ensures
      var route := Route(owners, target, p, key, correlation);
      && (route == AskQuote <==>
            && target == WEBSITE && owners.website && ValidQuotePayload(p)
            && key == UuidText(p.request) && p.correlation == correlation)
      && (route == Activate <==>
            && target == WEBSITE && owners.website && WellFormedActivation(p)
            && key == p.activationKey && p.correlation == correlation)
      && (route == CreateProviderOrder <==>
            && target == CASHFREE && owners.cashfree && ValidCashfreePayload(p)
            && p.order == PaymentOrderId(p.request) && key == UuidText(CashfreeEventId(p.request)) && p.correlation == correlation)
      && (route == HandOff <==>
            && target == ONBOARDING && owners.onboarding && p.OnboardingPayload?
            && p.target == ONBOARDING && key == p.key && p.correlation == correlation)
      && (route == SendMessage <==>
            && (target == LEAD_INTAKE || target == LEAD_INTAKE_AGENT) && owners.leadIntake && p.DeliveryPayload? && key == p.sendKey)
      && (route == Refused(UnknownTarget) <==> target !in {WEBSITE, CASHFREE, ONBOARDING, LEAD_INTAKE, LEAD_INTAKE_AGENT})
  {
    hide ValidQuotePayload, ValidCashfreePayload, WellFormedActivation, RouteWebsite, RouteCashfree, RouteMessage, RouteOnboarding;
    DistinctTargets();
    WebsiteRoutes(owners, p, key, correlation);
    CashfreeRoutes(owners, p, key, correlation);
    AgentRoutes(owners, p, key, correlation);
  }

  lemma WebsiteRoutes(owners: Owners, p: Payload, key: Text, correlation: Text)
    ensures ValidQuotePayload(p) ==> p.QuotePayload?
    ensures WellFormedActivation(p) ==> p.VerifiedPayload?
    ensures
      var route := RouteWebsite(owners, p, key, correlation);
      && (route == AskQuote <==> owners.website && ValidQuotePayload(p) && key == UuidText(p.request) && p.correlation == correlation)
      && (route == Activate <==> owners.website && WellFormedActivation(p) && key == p.activationKey && p.correlation == correlation)
      && route !in {HandOff, SendMessage, CreateProviderOrder, Refused(UnknownTarget)}
  {
    hide E164, NumericPlan, IsoCurrency;
  }

  lemma CashfreeRoutes(owners: Owners, p: Payload, key: Text, correlation: Text)
    ensures ValidCashfreePayload(p) ==> p.CashfreeOrderPayload?
    ensures
      var route := RouteCashfree(owners, p, key, correlation);
      && (route == CreateProviderOrder <==>
            && owners.cashfree && ValidCashfreePayload(p)
            && p.order == PaymentOrderId(p.request) && key == UuidText(CashfreeEventId(p.request)) && p.correlation == correlation)
      && (route.Refused? ==> route.reason != UnknownTarget) && (route.Refused? || route == CreateProviderOrder)
  {
    hide E164, IsoCurrency;
  }

  lemma AgentRoutes(owners: Owners, p: Payload, key: Text, correlation: Text)
    ensures
      var route := RouteOnboarding(owners, p, key, correlation);
      && (route == HandOff <==>
            owners.onboarding && p.OnboardingPayload? && p.target == ONBOARDING && key == p.key && p.correlation == correlation)
      && (route.Refused? ==> route.reason != UnknownTarget) && (route.Refused? || route == HandOff)
    ensures
      var route := RouteMessage(owners, p, key);
      && (route == SendMessage <==> owners.leadIntake && p.DeliveryPayload? && key == p.sendKey)
      && (route.Refused? ==> route.reason != UnknownTarget) && (route.Refused? || route == SendMessage)
  {
  }

  // ---------------------------------------------------------------- the service's own rows

  /** Every row of every reachable database decrypts under its own associated data. */
  lemma EveryRowOpens(cfg: Config, steps: seq<Step>, id: Uuid)
    requires id in Exec(cfg, EMPTY, steps).outbox
    ensures Open(Exec(cfg, EMPTY, steps).outbox[id], id) == Some(Exec(cfg, EMPTY, steps).outbox[id].cipher.plain)
  {
    hide Inv, Next;
    ReachableInv(cfg, steps);
    RowFacts(cfg, Exec(cfg, EMPTY, steps), id);
  }

  lemma DistinctTargets()
    ensures WEBSITE != CASHFREE && WEBSITE != ONBOARDING && WEBSITE != LEAD_INTAKE && WEBSITE != LEAD_INTAKE_AGENT
    ensures CASHFREE != ONBOARDING && CASHFREE != LEAD_INTAKE && CASHFREE != LEAD_INTAKE_AGENT
    ensures ONBOARDING != LEAD_INTAKE && ONBOARDING != LEAD_INTAKE_AGENT
  {
    assert WEBSITE.s[0] != CASHFREE.s[0] && WEBSITE.s[0] != ONBOARDING.s[0] && WEBSITE.s[0] != LEAD_INTAKE.s[0];
    assert WEBSITE.s[0] != LEAD_INTAKE_AGENT.s[0] && CASHFREE.s[0] != ONBOARDING.s[0];
    assert CASHFREE.s[0] != LEAD_INTAKE.s[0] && CASHFREE.s[0] != LEAD_INTAKE_AGENT.s[0];
    assert ONBOARDING.s[0] != LEAD_INTAKE.s[0] && ONBOARDING.s[0] != LEAD_INTAKE_AGENT.s[0];
  }

  /** A row whose columns agree with its payload passes every metadata check but the activation's. */
  lemma OwnRowsMatch(owners: Owners, id: Uuid, row: OutboxRow)
    requires RowOk(id, row) && !row.cipher.plain.VerifiedPayload?
    ensures RouteRow(owners, id, row) != Refused(MetadataMismatch)
    ensures row.cipher.plain.QuotePayload? && owners.website && ValidQuotePayload(row.cipher.plain) ==>
      RouteRow(owners, id, row) == AskQuote
    ensures row.cipher.plain.CashfreeOrderPayload? && owners.cashfree && ValidCashfreePayload(row.cipher.plain) ==>
      RouteRow(owners, id, row) == CreateProviderOrder
    ensures row.cipher.plain.OnboardingPayload? && owners.onboarding ==> RouteRow(owners, id, row) == HandOff
    ensures row.cipher.plain.DeliveryPayload? && owners.leadIntake && (row.target == LEAD_INTAKE || row.target == LEAD_INTAKE_AGENT)
      ==> RouteRow(owners, id, row) == SendMessage
  {
    hide E164, NumericPlan, IsoCurrency;
    DistinctTargets();
  }

  /** An activation is let through exactly when the row's key is the payload's activation key. */
  lemma ActivatedIffKeysAgree(owners: Owners, id: Uuid, row: OutboxRow)
    requires RowOk(id, row) && row.cipher.plain.VerifiedPayload? && owners.website && WellFormedActivation(row.cipher.plain)
    ensures RouteRow(owners, id, row) == Activate <==> row.key == row.cipher.plain.activationKey
    ensures RouteRow(owners, id, row) == Refused(MetadataMismatch) <==> row.key != row.cipher.plain.activationKey
  {
    hide IsoCurrency;
  }

  lemma OrderKeysDiffer(order: Order)
    requires order.providerId.Some?
    ensures OrderPaidKey(order) != OrderActivationKey(order)
  {
    var a := [Str("activation"), order.domainId, order.providerId.value, UuidText(order.demo)];
    var p := [Str("paid-outbox"), order.domainId, order.providerId.value, UuidText(order.demo)];
    assert "activation"[0] != "paid-outbox"[0];
    assert a[0] != p[0];
  }

  /** Every verified-payment row is refused: it is stored under the paid key, not the activation key. */
  lemma VerifiedRowRefused(cfg: Config, db: Db, owners: Owners, id: Uuid)
    requires Inv(cfg, db) && id in db.outbox && db.outbox[id].cipher.plain.VerifiedPayload?
    ensures RouteRow(owners, id, db.outbox[id]).Refused?
    ensures db.outbox[id].key != db.outbox[id].cipher.plain.activationKey
  {
    hide Inv, OrderPaidKey, OrderActivationKey, AttemptSupports;
    RowFacts(cfg, db, id);
    VerifiedArePaid(cfg, db);
    assert id in VerifiedRows(db);
    var o :| o in db.paid && id == PaidEventId(o);
    PaidFacts(cfg, db, o);
    OrderKeysDiffer(db.orders[o]);
  }

  /** The metadata checks over every reachable outbox: all rows pass but the verified payments. */
  lemma OutboxRoutes(cfg: Config, steps: seq<Step>, owners: Owners, id: Uuid)
    requires id in Exec(cfg, EMPTY, steps).outbox
    ensures
      var row := Exec(cfg, EMPTY, steps).outbox[id];
      var route := RouteRow(owners, id, row);
      && (route == Refused(MetadataMismatch) ==> row.cipher.plain.VerifiedPayload?)
      && (row.cipher.plain.CashfreeOrderPayload? && owners.cashfree ==> route == CreateProviderOrder)
      && (row.cipher.plain.OnboardingPayload? && owners.onboarding ==> route == HandOff)
      && (row.cipher.plain.VerifiedPayload? ==> route.Refused?)
  {
    hide Inv, Next, ValidCashfreePayload, ValidQuotePayload, RouteRow, RowOk;
    var db := Exec(cfg, EMPTY, steps);
    ReachableInv(cfg, steps);
    RowFacts(cfg, db, id);
    if db.outbox[id].cipher.plain.VerifiedPayload? {
      VerifiedRowRefused(cfg, db, owners, id);
    } else {
      OwnRowsMatch(owners, id, db.outbox[id]);
      if db.outbox[id].cipher.plain.CashfreeOrderPayload? {
        LocalBindingNeverFails(cfg, steps, id);
      }
    }
  }

  // ---------------------------------------------------------------- what the refusal leads to

  /** Deliveries are answered only where the router found an owner to ask. */
  predicate StepRouted(owners: Owners, db: Db, s: Step) {
    s.Deliver? && s.reply.Some? && s.row in db.outbox ==> !RouteRow(owners, s.row, db.outbox[s.row]).Refused?
  }

  ghost predicate RunRouted(cfg: Config, owners: Owners, db: Db, steps: seq<Step>) {
    steps == []
    || (RunRouted(cfg, owners, db, steps[..|steps| - 1])
        && StepRouted(owners, Exec(cfg, db, steps[..|steps| - 1]), steps[|steps| - 1]))
  }

  /** Without a handoff no onboarding event finds its order, and no acknowledgement its handoff. */
  lemma HandleAddsNoHandoff(cfg: Config, db: Db, event: InboxEvent, turn: Turn, newId: Uuid, now: int)
    requires db.handoffs == map[]
    ensures HandleInbox(cfg, db, event, turn, newId, now).handoffs == map[]
  {
    hide ProcessCashfree, AcceptOnboarding, CompleteOnboarding, StartDemo, EventClash;
    match event
    case CashfreeWebhook(meta, body) => CashfreeFrame(cfg, db, meta, body, newId, now);
    case MetaWebhook(meta, payload) =>
    case OnboardingAccepted(meta, demo, user, onboarding) => NoContextNoAccept(cfg, db, meta, demo, user, onboarding);
    case OnboardingCompleted(meta, demo, user, onboarding) => NoContextNoComplete(cfg, db, meta, demo, user, now);
    case WhatsappHandoff(meta, sender, valid) => TalkFrame(cfg, db, meta, sender, turn, now);
    case UnsupportedEvent(_) =>
  }

  lemma NoContextNoAccept(cfg: Config, db: Db, meta: Envelope, demo: Uuid, user: Text, onboarding: Text)
    requires db.handoffs == map[]
    ensures AcceptOnboarding(cfg, db, meta, demo, user, onboarding).Raised?
  {
    hide OnboardingContext;
    ContextFacts(db, meta.tenant, demo, user);
  }

  lemma NoContextNoComplete(cfg: Config, db: Db, meta: Envelope, demo: Uuid, user: Text, now: int)
    requires db.handoffs == map[]
    ensures CompleteOnboarding(cfg, db, meta, demo, user, now).Raised?
  {
    hide OnboardingContext;
    ContextFacts(db, meta.tenant, demo, user);
  }

  lemma RecordAddsNoHandoff(cfg: Config, db: Db, id: Uuid, row: OutboxRow, p: Payload, reply: Reply, newId: Uuid, now: int)
    requires db.handoffs == map[] && row.kind != PaymentVerified
    ensures
      var e := Record(cfg, db, id, row, p, reply, newId, now);
      !e.Violation? ==> e.db.handoffs == map[]
  {
    hide RecordQuote, RecordCashfree, QueueOnboarding;
    match row.kind
    case PlanQuoteRequested => QuoteFrame(cfg, db, id, row, p, reply.details, now);
    case CashfreeOrderRequested => CashfreeRecorderFrame(db, id, row, p, reply.reference, reply.details, now);
    case OnboardingRequested => assert HandoffsByKey(db, row.tenant, row.key) == {};
    case DeliveryRequested =>
  }

  lemma PublishAddsNoHandoff(cfg: Config, db: Db, owners: Owners, id: Uuid, reply: Option<Reply>, newId: Uuid, now: int)
    requires Inv(cfg, db) && db.handoffs == map[]
    requires reply.Some? && id in db.outbox ==> !RouteRow(owners, id, db.outbox[id]).Refused?
    ensures Publish(cfg, db, id, reply, newId, now).handoffs == map[]
  {
    hide Inv, Record, Backoff, RouteRow;
    if Eligible(cfg, db, id, now) && reply.Some? {
      RowFacts(cfg, db, id);
      if db.outbox[id].cipher.plain.VerifiedPayload? {
        VerifiedRowRefused(cfg, db, owners, id);
      }
      var p := Open(db.outbox[id], id);
      RecordAddsNoHandoff(cfg, db, id, db.outbox[id], p.value, reply.value, newId, now);
    }
  }

  lemma NextAddsNoHandoff(cfg: Config, db: Db, owners: Owners, s: Step)
    requires Inv(cfg, db) && db.handoffs == map[] && StepRouted(owners, db, s)
    ensures Next(cfg, db, s).handoffs == map[]
  {
    hide Inv, RequestOrder, Publish, HandleInbox, RouteRow, ReserveOrder, RecordProviderFailure, ApplySnapshot, TakeEdge;
    match s
    case Request(tenant, command, correlation, at) => RequestFrame(cfg, db, tenant, command, correlation, at);
    case Deliver(row, reply, newId, at) => PublishAddsNoHandoff(cfg, db, owners, row, reply, newId, at);
    case Inbox(event, turn, newId, at) => HandleAddsNoHandoff(cfg, db, event, turn, newId, at);
    case OtherEdge(demo, command, after, key) => EdgeFrame(db, demo, command, after, key);
    case _ => ReconciliationFrame(cfg, db, s);
  }

  lemma {:induction false} RoutedRunHasNoHandoff(cfg: Config, owners: Owners, steps: seq<Step>)
    requires RunRouted(cfg, owners, EMPTY, steps)
    ensures Exec(cfg, EMPTY, steps).handoffs == map[]
  {
    hide Inv, Next, StepRouted;
    if steps != [] {
      var front := steps[..|steps| - 1];
      RoutedRunHasNoHandoff(cfg, owners, front);
      ReachableInv(cfg, front);
      NextAddsNoHandoff(cfg, Exec(cfg, EMPTY, front), owners, steps[|steps| - 1]);
    }
  }

  /**
   With the routing transport a paid demo gets no further: its verified-payment row is refused
   each time, so there is never a handoff and never a demo handed off or converted.
   */
  lemma RoutedRunStopsAtPaid(cfg: Config, owners: Owners, steps: seq<Step>, d: Uuid)
    requires RunRouted(cfg, owners, EMPTY, steps) && d in Exec(cfg, EMPTY, steps).demos
    ensures
      var db := Exec(cfg, EMPTY, steps);
      db.handoffs == map[] && db.demos[d].state != ONBOARDING_HANDOFF && db.demos[d].state != CONVERTED
  {
    hide Inv, Next, StepRouted;
    var db := Exec(cfg, EMPTY, steps);
    RoutedRunHasNoHandoff(cfg, owners, steps);
    ReachableInv(cfg, steps);
    EvidenceFacts(cfg, db, d);
  }
}
