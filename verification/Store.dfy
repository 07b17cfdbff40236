/**
 The rows of the service's database that the payment-to-onboarding saga reads and writes.
 Tables are maps from their key; `paid` and `handoffs` are keyed by the order, which the
 schema's unique foreign keys make a key of both.
 */
module Store {
  import opened Identifiers
  import opened Lifecycle
  import opened Monetary
  import opened PaymentVerification
  import opened Digits

  const WEBSITE := Str("nxtutors-website-gateway")
  const CASHFREE := Str("cashfree")
  const ONBOARDING := Str("onboarding-agent")
  const LEAD_INTAKE := Str("lead-intake")
  const LEAD_INTAKE_AGENT := Str("lead-intake-agent")
  const DEMO_CONVERSION := "demo_conversion"

  // ---------------------------------------------------------------- demos and the log

  datatype Demo = Demo(
    tenant: Text, user: Option<Text>, conversation: Text, state: DemoState, version: nat)

  datatype ConversationStep = Collecting | SelectTutor | AwaitingTutor

  datatype Conversation = Conversation(demo: Uuid, step: ConversationStep)

  // ---------------------------------------------------------------- payment rows

  datatype OrderStatus =
    | Creating | Pending | Reconciling | ReconciliationRequired | UnderReview | Settled
    | NotPaid | Lapsed

  datatype Order = Order(
    tenant: Text, demo: Uuid, domainId: Text, providerId: Option<Text>, user: Text,
    customer: Text, plan: string, planVersion: Text, amount: int, currency: string,
    purpose: string, environment: string, status: OrderStatus, creationKey: Text,
    correlation: Text, expiresAt: int, reconcileAfter: Option<int>, paidAt: Option<int>,
    version: nat)

  datatype Checkout = Checkout(secret: string, expiresAt: int)

  datatype Attempt = Attempt(
    order: Uuid, event: Uuid, status: string, amount: int, currency: string, at: int)

  datatype Paid = Paid(
    id: Uuid, paymentId: Text, activationKey: Text, amount: int, currency: string, at: int)

  datatype HandoffStatus = HandoffPending | HandoffAccepted | HandoffCompleted

  datatype Handoff = Handoff(
    id: Uuid, tenant: Text, paidId: Uuid, key: Text, status: HandoffStatus,
    acknowledgement: Option<Text>, attempts: nat, welcome: Option<Uuid>)

  datatype Reconciliation = Reconciliation(before: OrderStatus, result: SnapshotResult)

  datatype SnapshotResult = SnapshotPending | SnapshotExpired | SnapshotReview

  // ---------------------------------------------------------------- requests and events

  datatype OrderCommand = OrderCommand(request: Uuid, demo: Uuid, user: Text, plan: string, phone: string)

  datatype RequestStatus = Queued | QuoteVerified | Ready

  // `hash` is the keyed hash of the command; symbolically, the command itself
  datatype ProviderRequest = ProviderRequest(
    hash: OrderCommand, reference: Text, status: RequestStatus, correlation: Text)

  datatype CashfreeBody = CashfreeBody(
    orderId: Option<Text>, cfOrderId: Option<Text>, paymentId: Option<Text>,
    status: Option<string>, currency: Option<string>, amountMinor: Option<int>,
    customer: Text, purpose: string, environment: Option<string>, rest: nat)

  datatype Source = FromCashfree | FromMeta

  // the payload hash is injective, so the payload stands for it
  datatype WebhookPayload = CashfreePayload(body: CashfreeBody) | OtherPayload(content: nat)

  datatype ProviderEvent = ProviderEvent(payload: WebhookPayload, decision: Option<DecisionKind>)

  datatype Message = Message(tenant: Text, key: Text, demo: Uuid)

  // ---------------------------------------------------------------- outbox rows

  datatype EventKind =
    | PlanQuoteRequested | CashfreeOrderRequested | PaymentVerified | OnboardingRequested
    | DeliveryRequested

  datatype Payload =
    | QuotePayload(request: Uuid, demo: Uuid, user: Text, plan: string, phone: string,
                   purpose: string, correlation: Text)
    | CashfreeOrderPayload(request: Uuid, order: Uuid, reference: Text, amount: int,
                           currency: string, customer: Text, phone: string, purpose: string,
                           correlation: Text, expiresAt: int)
    | VerifiedPayload(demo: Uuid, user: Text, planId: int, planVersion: Text, amount: int,
                      currency: string, providerOrder: Text, evidence: Text, verifiedAt: int,
                      correlation: Text, activationKey: Text)
    | OnboardingPayload(target: Text, key: Text, correlation: Text, demo: Uuid, user: Text,
                        activation: Text, payment: Text, plan: string)
    | DeliveryPayload(event: Uuid, demo: Uuid, recipient: Text, sendKey: Text)

  function KindOf(p: Payload): EventKind {
    match p
    case QuotePayload(_, _, _, _, _, _, _) => PlanQuoteRequested
    case CashfreeOrderPayload(_, _, _, _, _, _, _, _, _, _) => CashfreeOrderRequested
    case VerifiedPayload(_, _, _, _, _, _, _, _, _, _, _) => PaymentVerified
    case OnboardingPayload(_, _, _, _, _, _, _, _) => OnboardingRequested
    case DeliveryPayload(_, _, _, _) => DeliveryRequested
  }

  // authenticated encryption: opens only under the associated data it was sealed with
  datatype Sealed = Sealed(plain: Payload, tenant: Text, target: Text, event: Uuid)

  datatype OutboxRow = OutboxRow(
    kind: EventKind, tenant: Text, target: Text, key: Text, correlation: Text, cipher: Sealed,
    availableAt: int, attempts: nat, published: bool, providerReference: Option<Text>)

  function Open(row: OutboxRow, id: Uuid): Option<Payload> {
    if row.cipher.tenant == row.tenant && row.cipher.target == row.target && row.cipher.event == id
    then Some(row.cipher.plain) else None
  }

  function NewRow(id: Uuid, tenant: Text, target: Text, key: Text, correlation: Text, p: Payload, now: int): OutboxRow {
    OutboxRow(KindOf(p), tenant, target, key, correlation, Sealed(p, tenant, target, id), now, 0, false, None)
  }

  // ---------------------------------------------------------------- the database

  datatype Db = Db(
    demos: map<Uuid, Demo>,
    log: map<Uuid, seq<LogEntry>>,
    conversations: map<(Text, Text), Conversation>,
    orders: map<Uuid, Order>,
    checkouts: map<Uuid, Checkout>,
    requests: map<(Text, Text), ProviderRequest>,
    outbox: map<Uuid, OutboxRow>,
    events: map<(Source, Uuid), ProviderEvent>,
    attempts: map<Text, Attempt>,
    paid: map<Uuid, Paid>,
    handoffs: map<Uuid, Handoff>,
    messages: map<Uuid, Message>,
    reconciliations: map<(Uuid, Text), Reconciliation>)

  const EMPTY: Db :=
    Db(map[], map[], map[], map[], map[], map[], map[], map[], map[], map[], map[], map[], map[])

  /** Deployment settings; `hex16` is the first half of an id's hexadecimal form. */
  datatype Config = Config(
    hex16: Uuid -> nat, environment: string, paymentExpiry: int, sourceAgent: Text,
    hashingConfigured: bool, onboardingConfigured: bool, welcomeConfigured: bool,
    websiteConfigured: bool, policy: Policy, maximumAttempts: nat, blockedTargets: set<Text>)

  // ---------------------------------------------------------------- field formats

  /** `^[1-9][0-9]{0,18}$` */
  predicate NumericPlan(s: string) {
    1 <= |s| <= 19 && AllDigits(s) && s[0] != '0'
  }

  /** `int(plan_ref)` on ASCII digits; anything else is refused. */
  function ParsePlan(s: string): Option<int> {
    if s != "" && AllDigits(s) then Some(Value(s)) else None
  }

  predicate E164(s: string) {
    9 <= |s| <= 16 && s[0] == '+' && AllDigits(s[1..]) && s[1] != '0'
  }

  function LogOf(db: Db, demo: Uuid): seq<LogEntry> {
    if demo in db.log then db.log[demo] else []
  }
}
