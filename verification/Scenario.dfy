/**
 One demo's way through the saga as concrete runs from the empty database: to a paid demo whose
 conversation still collects requirements, and to a completed handoff whose row is still due.
 */
module Scenario {
  import opened Identifiers
  import opened Lifecycle
  import opened Monetary
  import opened PaymentVerification
  import opened Store
  import opened Digits
  import opened Handlers
  import opened Frames
  import opened SagaInvariant
  import opened SagaPreservation
  import opened SagaTheorems
  import opened SagaTable
  import opened SagaOrderFree
  import opened OutboxHistory
  import opened SagaFallback
  import opened Database

  // ---------------------------------------------------------------- names

  const TENANT := Str("tenant")
  const TALK := Str("conversation")
  const LEARNER := Str("learner")
  const TRACE := Str("correlation")
  const PROVIDER_ORDER := Str("provider-order")

  const MESSAGE := Plain(1)
  const REQUEST := Plain(2)
  const PAID_ID := Plain(11)
  const HANDOFF_ID := Plain(12)

  const NO_TURN := Turn(false, false, false, NoTutors)

  const DEMO := DemoIdOf(MESSAGE)
  const ORDER := PaymentOrderId(REQUEST)

  const COMMAND := OrderCommand(REQUEST, DEMO, LEARNER, "1", "+12345678")

  function Meta(n: nat): Envelope { Envelope(Plain(n), TENANT, UuidText(Plain(n)), TRACE, 0, LEAD_INTAKE, TALK, "") }

  function QuoteAsked(): Payload {
    QuotePayload(REQUEST, DEMO, LEARNER, "1", "+12345678", DEMO_CONVERSION, TRACE)
  }

  const QUOTE := Quote("1", 100, "INR", true, Str("version"), LEARNER, 1)

  /** A deployment that can take a payment and hand a learner over. */
  predicate Configured(cfg: Config) {
    && cfg.hashingConfigured && cfg.onboardingConfigured && cfg.welcomeConfigured && cfg.websiteConfigured
    && cfg.paymentExpiry > 0 && cfg.maximumAttempts > 0
    && WEBSITE !in cfg.blockedTargets && CASHFREE !in cfg.blockedTargets && ONBOARDING !in cfg.blockedTargets
    && PolicyAccepted(cfg.policy) && "SUCCESS" in cfg.policy.success
  }

  // ---------------------------------------------------------------- facts that a stage of the run leaves

  /** The keys in a log are labelled, or are event ids out of the given numbers. */
  predicate KeysIn(run: seq<LogEntry>, numbers: set<nat>) {
    forall i :: 0 <= i < |run| ==>
      run[i].key.Labelled? || (run[i].key.UuidText? && run[i].key.id.Plain? && run[i].key.id.number in numbers)
  }

  predicate DemoAt(db: Db, state: DemoState, numbers: set<nat>) {
    && DEMO in db.demos && db.demos[DEMO] == Demo(TENANT, Some(LEARNER), TALK, state, db.demos[DEMO].version)
    && DEMO in db.log && KeysIn(db.log[DEMO], numbers)
  }

  /** No key in the demo's log is labelled yet. */
  predicate Unlabelled(db: Db) {
    DEMO in db.log && forall i :: 0 <= i < |db.log[DEMO]| ==> !db.log[DEMO][i].key.Labelled?
  }

  predicate OutboxIn(db: Db, ids: set<Uuid>, keys: set<Text>) {
    db.outbox.Keys <= ids && forall id :: id in db.outbox ==> db.outbox[id].key in keys
  }

  predicate Talking(db: Db) {
    (TENANT, TALK) in db.conversations && db.conversations[(TENANT, TALK)] == Conversation(DEMO, Collecting)
  }

  lemma FreshKey(db: Db, state: DemoState, numbers: set<nat>, n: nat)
    requires DemoAt(db, state, numbers) && n !in numbers
    ensures !LogClash(db, DEMO, UuidText(Plain(n)))
  {
  }

  lemma NoOutboxClash(db: Db, ids: set<Uuid>, keys: set<Text>, id: Uuid, key: Text)
    requires OutboxIn(db, ids, keys) && id !in ids && key !in keys
    ensures !OutboxClash(db, id, TENANT, key)
  {
  }

  lemma MovedDemo(db: Db, state: DemoState, numbers: set<nat>, command: Command, after: DemoState, n: nat)
    requires DemoAt(db, state, numbers)
    ensures DemoAt(Move(db, DEMO, command, after, UuidText(Plain(n))), after, numbers + {n})
    ensures Unlabelled(db) ==> Unlabelled(Move(db, DEMO, command, after, UuidText(Plain(n))))
  {
  }

  lemma ExecOne(cfg: Config, steps: seq<Step>, s: Step)
    ensures Exec(cfg, EMPTY, steps + [s]) == Next(cfg, Exec(cfg, EMPTY, steps), s)
  {
    hide Next;
    assert (steps + [s])[..|steps|] == steps;
  }

  // ---------------------------------------------------------------- a message starts the demo

  const FIRST_IDS: set<Uuid> := {ReplyEventId(MESSAGE)}
  const FIRST_KEYS: set<Text> := {ReplyKey(MESSAGE)}

  /** No payment has been asked for yet. */
  predicate NothingBought(db: Db) {
    db.orders == map[] && db.requests == map[] && db.events == map[] && db.attempts == map[]
    && db.paid == map[] && db.handoffs == map[] && db.messages == map[]
  }

  ghost predicate Started(db: Db, state: DemoState, numbers: set<nat>) {
    DemoAt(db, state, numbers) && Unlabelled(db) && Talking(db) && NothingBought(db) && OutboxIn(db, FIRST_IDS, FIRST_KEYS)
    && AllOnTable(db.log)
  }

  function FirstMessage(): Step {
    Inbox(WhatsappHandoff(Meta(1), Some(LEARNER), true), Turn(false, false, false, NoTutors), Plain(0), 0)
  }

  lemma MessageStarts(cfg: Config)
    ensures Started(Next(cfg, EMPTY, FirstMessage()), QUALIFYING, {1})
  {
    hide AllOnTable, OutboxClash;
    assert !OutboxClash(EMPTY, ReplyEventId(MESSAGE), TENANT, ReplyKey(MESSAGE)) by {
      EmptyOutboxClash(ReplyEventId(MESSAGE), TENANT, ReplyKey(MESSAGE));
    }
    EmptyOnTable();
    MessageDone(cfg);
    NextOnTable(cfg, EMPTY, FirstMessage());
  }

  lemma EmptyOnTable()
    ensures AllOnTable(EMPTY.log)
  {
  }

  lemma EmptyOutboxClash(id: Uuid, tenant: Text, key: Text)
    ensures !OutboxClash(EMPTY, id, tenant, key)
  {
  }

  lemma MessageDone(cfg: Config)
    ensures
      var after := Next(cfg, EMPTY, FirstMessage());
      DemoAt(after, QUALIFYING, {1}) && Unlabelled(after) && Talking(after) && NothingBought(after) && OutboxIn(after, FIRST_IDS, FIRST_KEYS)
  {
  }

  // ---------------------------------------------------------------- the way to the follow-up

  const WAY: seq<(Command, DemoState)> := [
    (COMPLETE_QUALIFICATION, TUTOR_MATCHING), (COMPLETE_MATCHING, TUTOR_SHORTLISTED),
    (ACCEPT_SHORTLIST, SLOT_NEGOTIATING), (HOLD_SLOT, SLOT_HELD), (REQUEST_CONFIRMATIONS, AWAITING_CONFIRMATIONS),
    (CONFIRM_ALL, SCHEDULED), (ACTIVATE_REMINDERS, REMINDERS_ACTIVE), (MARK_READY, READY), (START_DEMO, IN_PROGRESS),
    (COMPLETE_DEMO, COMPLETED), (QUEUE_ANALYSIS, ANALYSIS_PENDING), (COMPLETE_ANALYSIS, ANALYZED),
    (START_CONVERSION, CONVERSION_FOLLOW_UP)]

  function StateOnWay(k: nat): DemoState
    requires k <= |WAY|
  {
    if k == 0 then QUALIFYING else WAY[k - 1].1
  }

  function WayNumbers(k: nat): (numbers: set<nat>)
    ensures forall n :: n in numbers ==> n < 100 + k
  {
    if k == 0 then {1} else WayNumbers(k - 1) + {100 + k - 1}
  }

  function WayStep(k: nat): Step
    requires k < |WAY|
  {
    OtherEdge(DEMO, WAY[k].0, WAY[k].1, UuidText(Plain(100 + k)))
  }

  lemma WayIsRegistered(k: nat)
    requires k < |WAY|
    ensures !IsSaga(WAY[k].0) && Registered(LogEntry(StateOnWay(k), WAY[k].0, WAY[k].1, UuidText(Plain(100 + k))))
  {
    if k < 7 {
      assert k == 0 || k == 1 || k == 2 || k == 3 || k == 4 || k == 5 || k == 6;
    } else {
      assert k == 7 || k == 8 || k == 9 || k == 10 || k == 11 || k == 12;
    }
  }

  lemma WalkOne(cfg: Config, db: Db, k: nat)
    requires k < |WAY| && Started(db, StateOnWay(k), WayNumbers(k))
    ensures Started(Next(cfg, db, WayStep(k)), StateOnWay(k + 1), WayNumbers(k + 1))
  {
    hide AllOnTable, LogClash, Registered, Move, IsSaga, KeysIn, Unlabelled;
    WayIsRegistered(k);
    FreshKey(db, StateOnWay(k), WayNumbers(k), 100 + k);
    MovedDemo(db, StateOnWay(k), WayNumbers(k), WAY[k].0, WAY[k].1, 100 + k);
    MoveFrame(db, DEMO, WAY[k].0, WAY[k].1, UuidText(Plain(100 + k)));
    assert WayNumbers(k + 1) == WayNumbers(k) + {100 + k};
    NextOnTable(cfg, db, WayStep(k));
  }

  lemma {:induction false} WalkTo(cfg: Config, k: nat) returns (steps: seq<Step>)
    requires k <= |WAY|
    ensures Started(Exec(cfg, EMPTY, steps), StateOnWay(k), WayNumbers(k))
  {
    hide Started, Next;
    if k == 0 {
      steps := [FirstMessage()];
      ExecOne(cfg, [], FirstMessage());
      assert [] + [FirstMessage()] == steps;
      MessageStarts(cfg);
      assert WayNumbers(0) == {1};
    } else {
      var front := WalkTo(cfg, k - 1);
      steps := front + [WayStep(k - 1)];
      ExecOne(cfg, front, WayStep(k - 1));
      WalkOne(cfg, Exec(cfg, EMPTY, front), k - 1);
    }
  }

  // ---------------------------------------------------------------- ids and keys of the run's rows

  const ASKED_IDS: set<Uuid> := FIRST_IDS + {REQUEST}
  const ASKED_KEYS: set<Text> := FIRST_KEYS + {UuidText(REQUEST)}
  const ORDERED_IDS: set<Uuid> := ASKED_IDS + {CashfreeEventId(REQUEST)}
  const ORDERED_KEYS: set<Text> := ASKED_KEYS + {UuidText(CashfreeEventId(REQUEST))}
  const PAID_IDS: set<Uuid> := ORDERED_IDS + {PaidEventId(ORDER)}
  const QUEUED_IDS: set<Uuid> := PAID_IDS + {OnboardingEventId(PAID_ID)}

  function PaidKeys(cfg: Config): set<Text> { ORDERED_KEYS + {OrderPaidKey(BoundOne(cfg))} }

  function QueuedKeys(cfg: Config): set<Text> { PaidKeys(cfg) + {OnboardingKey(PAID_ID)} }

  lemma PrefixesDiffer()
    ensures "nxtutors:demo-reply" != "nxtutors:paid" && "nxtutors:demo-reply" != "nxtutors" && "nxtutors:demo-reply" != "nxtutors:outbox"
    ensures "nxtutors:paid" != "nxtutors" && "nxtutors:paid" != "nxtutors:outbox" && "nxtutors" != "nxtutors:outbox"
    ensures "demo-reply" != "onboarding-paid" && "demo-reply" != "welcome" && "onboarding-paid" != "welcome"
  {
    assert |"nxtutors:demo-reply"| == 19 && |"nxtutors:paid"| == 13 && |"nxtutors"| == 8 && |"nxtutors:outbox"| == 15;
    assert |"demo-reply"| == 10 && |"onboarding-paid"| == 15 && |"welcome"| == 7;
  }

  lemma NewIds()
    ensures REQUEST !in FIRST_IDS && CashfreeEventId(REQUEST) !in ASKED_IDS && PaidEventId(ORDER) !in ORDERED_IDS
    ensures OnboardingEventId(PAID_ID) !in PAID_IDS && WelcomeEventId(HANDOFF_ID) !in QUEUED_IDS
    ensures ReplyEventId(Plain(203)) !in PAID_IDS
  {
    PrefixesDiffer();
  }

  lemma NewKeys(cfg: Config)
    ensures UuidText(REQUEST) !in FIRST_KEYS && UuidText(CashfreeEventId(REQUEST)) !in ASKED_KEYS
    ensures OrderPaidKey(BoundOne(cfg)) !in ORDERED_KEYS
    ensures OnboardingKey(PAID_ID) !in PaidKeys(cfg) && WelcomeKey(HANDOFF_ID) !in QueuedKeys(cfg)
    ensures ReplyKey(Plain(203)) !in PaidKeys(cfg)
  {
    hide NewOne;
    PrefixesDiffer();
  }

  lemma AddedRow(db: Db, ids: set<Uuid>, keys: set<Text>, id: Uuid, row: OutboxRow)
    requires OutboxIn(db, ids, keys)
    ensures OutboxIn(AddOutbox(db, id, row), ids + {id}, keys + {row.key})
  {
  }

  lemma LabelledMove(db: Db, state: DemoState, numbers: set<nat>, command: Command, after: DemoState, key: Text)
    requires DemoAt(db, state, numbers) && key.Labelled?
    ensures DemoAt(Move(db, DEMO, command, after, key), after, numbers)
  {
  }

  // ---------------------------------------------------------------- the payment is asked for

  function AskedRow(): OutboxRow { NewRow(REQUEST, TENANT, WEBSITE, UuidText(REQUEST), TRACE, QuoteAsked(), 0) }

  ghost predicate Asked(db: Db) {
    && DemoAt(db, CONVERSION_FOLLOW_UP, WayNumbers(|WAY|)) && Unlabelled(db) && Talking(db) && AllOnTable(db.log)
    && db.orders == map[] && db.events == map[] && db.attempts == map[] && db.paid == map[] && db.handoffs == map[] && db.messages == map[]
    && OutboxIn(db, ASKED_IDS, ASKED_KEYS) && REQUEST in db.outbox && db.outbox[REQUEST] == AskedRow()
  }

  const ASKING: Step := Request(TENANT, COMMAND, TRACE, 0)

  lemma AskIsQueued(cfg: Config, db: Db)
    requires Configured(cfg) && Started(db, CONVERSION_FOLLOW_UP, WayNumbers(|WAY|))
    ensures RequestOrder(cfg, db, TENANT, COMMAND, TRACE, 0) == (QuotePending, RequestedDb(db, TENANT, COMMAND, TRACE, 0))
  {
    hide AllOnTable, OutboxClash, KeysIn, WayNumbers, OutboxIn, PolicyAccepted, RequestedDb, Unlabelled;
    NewIds();
    NewKeys(cfg);
    NoOutboxClash(db, FIRST_IDS, FIRST_KEYS, REQUEST, UuidText(REQUEST));
    assert !HasActiveOrder(db, TENANT, DEMO) && !HasActiveRequest(db, TENANT, DEMO);
  }

  lemma AskOne(cfg: Config, db: Db)
    requires Configured(cfg) && Started(db, CONVERSION_FOLLOW_UP, WayNumbers(|WAY|))
    ensures Asked(Next(cfg, db, ASKING))
  {
    hide AllOnTable, DemoAt, WayNumbers, OutboxIn, Unlabelled, RequestOrder, PolicyAccepted;
    AskIsQueued(cfg, db);
    AddedRow(db, FIRST_IDS, FIRST_KEYS, REQUEST, AskedRow());
    var after := RequestedDb(db, TENANT, COMMAND, TRACE, 0);
    SameOutboxIn(AddOutbox(db, REQUEST, AskedRow()), after, ASKED_IDS, ASKED_KEYS);
    SameDemoAt(db, after, CONVERSION_FOLLOW_UP, WayNumbers(|WAY|));
    SameUnlabelled(db, after);
    NextOnTable(cfg, db, ASKING);
  }

  lemma SameUnlabelled(a: Db, b: Db)
    requires Unlabelled(a) && b.log == a.log
    ensures Unlabelled(b)
  {
  }

  lemma SameOutboxIn(a: Db, b: Db, ids: set<Uuid>, keys: set<Text>)
    requires OutboxIn(a, ids, keys) && b.outbox == a.outbox
    ensures OutboxIn(b, ids, keys)
  {
  }

  // ---------------------------------------------------------------- the quote makes the order

  function NewOne(cfg: Config): Order { NewOrder(cfg, AskedRow(), QuoteAsked(), QUOTE, 0) }

  function BoundOne(cfg: Config): Order { BoundOrder(NewOne(cfg), PROVIDER_ORDER, 0) }

  const QUOTED: Step := Deliver(REQUEST, Some(Reply(Str("quote"), QuoteDetails(QUOTE))), Plain(0), 0)

  /** One order, no payment for it yet. */
  ghost predicate OrderStands(db: Db, order: Order) {
    && DemoAt(db, PAYMENT_PENDING, WayNumbers(|WAY|)) && Talking(db) && AllOnTable(db.log)
    && db.orders == map[ORDER := order]
    && db.paid == map[] && db.handoffs == map[] && db.messages == map[]
    && OutboxIn(db, ORDERED_IDS, ORDERED_KEYS)
  }

  ghost predicate OneOrder(db: Db, order: Order) {
    OrderStands(db, order) && db.events == map[] && db.attempts == map[]
  }

  ghost predicate Ordered(cfg: Config, db: Db) {
    && OneOrder(db, NewOne(cfg))
    && CashfreeEventId(REQUEST) in db.outbox && db.outbox[CashfreeEventId(REQUEST)] == CashfreeRow(QuoteAsked(), NewOne(cfg), 0)
  }

  lemma QuoteIsValid()
    ensures ValidQuotePayload(QuoteAsked()) && ValidQuote(QUOTE) && QuoteBound(REQUEST, AskedRow(), QuoteAsked(), QUOTE)
    ensures Open(AskedRow(), REQUEST) == Some(QuoteAsked()) && AskedRow().kind == PlanQuoteRequested
  {
    assert "+12345678"[1..] == "12345678" && AllDigits("12345678");
    assert LEARNER.s[0] == 'l' && TRACE.s[0] == 'c';
  }

  lemma NoOrderClash(db: Db, o: Uuid, order: Order)
    requires db.orders == map[]
    ensures !OrderClash(db, o, order)
  {
  }

  lemma LabelledIsFresh(db: Db, state: DemoState, numbers: set<nat>, key: Text)
    requires DemoAt(db, state, numbers) && key.Labelled? && Unlabelled(db)
    ensures !LogClash(db, DEMO, key)
  {
  }

  lemma QuoteIsRecorded(cfg: Config, db: Db)
    requires Configured(cfg) && Asked(db)
    ensures RecordQuote(cfg, db, REQUEST, AskedRow(), QuoteAsked(), QuoteDetails(QUOTE), 0)
         == Done(OrderedDb(db, AskedRow(), QuoteAsked(), NewOne(cfg), QUOTE, 0))
  {
    hide AllOnTable, KeysIn, WayNumbers, OutboxIn, OutboxClash, LogClash, OrderClash, ValidQuotePayload, ValidQuote, QuoteBound;
    hide PolicyAccepted, OrderedDb, Unlabelled;
    QuoteIsValid();
    NewIds();
    NewKeys(cfg);
    assert OrdersByCreationKey(db, TENANT, UuidText(REQUEST)) == {};
    NoOrderClash(db, ORDER, NewOne(cfg));
    NoOutboxClash(db, ASKED_IDS, ASKED_KEYS, CashfreeEventId(REQUEST), UuidText(CashfreeEventId(REQUEST)));
    LabelledIsFresh(db, CONVERSION_FOLLOW_UP, WayNumbers(|WAY|), RequestLogKey(REQUEST));
  }

  lemma OrderedFacts(cfg: Config, db: Db)
    requires Asked(db)
    ensures
      var after := OrderedDb(db, AskedRow(), QuoteAsked(), NewOne(cfg), QUOTE, 0);
      && DemoAt(after, PAYMENT_PENDING, WayNumbers(|WAY|)) && Talking(after)
      && after.orders == map[ORDER := NewOne(cfg)]
      && after.events == map[] && after.attempts == map[] && after.paid == map[] && after.handoffs == map[] && after.messages == map[]
      && after.outbox == db.outbox[CashfreeEventId(REQUEST) := CashfreeRow(QuoteAsked(), NewOne(cfg), 0)]
  {
    hide AllOnTable, KeysIn, WayNumbers, OutboxIn, Unlabelled, CashfreeRow, NewOne, Move;
    var db1 := SetOrder(db, ORDER, NewOne(cfg));
    var db2 := AddOutbox(db1, CashfreeEventId(REQUEST), CashfreeRow(QuoteAsked(), NewOne(cfg), 0));
    LabelledMove(db2, CONVERSION_FOLLOW_UP, WayNumbers(|WAY|), REQUEST_PAYMENT, PAYMENT_PENDING, RequestLogKey(REQUEST));
    MoveFrame(db2, DEMO, REQUEST_PAYMENT, PAYMENT_PENDING, RequestLogKey(REQUEST));
  }

  /** Marking a row published changes neither the ids nor the keys, nor another row. */
  lemma PublishedRow(db: Db, id: Uuid, reference: Text, ids: set<Uuid>, keys: set<Text>)
    requires id in db.outbox && OutboxIn(db, ids, keys)
    ensures OutboxIn(MarkPublished(db, id, reference), ids, keys)
    ensures forall x :: x in db.outbox && x != id ==>
      x in MarkPublished(db, id, reference).outbox && MarkPublished(db, id, reference).outbox[x] == db.outbox[x]
  {
  }

  lemma OrderOne(cfg: Config, db: Db)
    requires Configured(cfg) && Asked(db)
    ensures Ordered(cfg, Next(cfg, db, QUOTED))
  {
    hide AllOnTable, KeysIn, WayNumbers, OutboxIn, Unlabelled, CashfreeRow, NewOne, RecordQuote, OrderedDb, PolicyAccepted, MarkPublished;
    var after := OrderedDb(db, AskedRow(), QuoteAsked(), NewOne(cfg), QUOTE, 0);
    QuoteIsValid();
    NewIds();
    QuoteIsRecorded(cfg, db);
    OrderedFacts(cfg, db);
    CashfreeRowKey(cfg);
    AddedRow(db, ASKED_IDS, ASKED_KEYS, CashfreeEventId(REQUEST), CashfreeRow(QuoteAsked(), NewOne(cfg), 0));
    SameOutboxIn(AddOutbox(db, CashfreeEventId(REQUEST), CashfreeRow(QuoteAsked(), NewOne(cfg), 0)), after, ORDERED_IDS, ORDERED_KEYS);
    MarksFrame(after, REQUEST, Str("quote"), 0);
    PublishedRow(after, REQUEST, Str("quote"), ORDERED_IDS, ORDERED_KEYS);
    assert Next(cfg, db, QUOTED) == MarkPublished(after, REQUEST, Str("quote"));
    NextOnTable(cfg, db, QUOTED);
  }

  lemma CashfreeRowKey(cfg: Config)
    ensures CashfreeRow(QuoteAsked(), NewOne(cfg), 0).key == UuidText(CashfreeEventId(REQUEST))
  {
  }

  // ---------------------------------------------------------------- the provider order is bound

  const ACKNOWLEDGEMENT := Acknowledgement(PROVIDER_ORDER, "session", "ACTIVE")

  const ACKNOWLEDGED: Step :=
    Deliver(CashfreeEventId(REQUEST), Some(Reply(PROVIDER_ORDER, AckDetails(ACKNOWLEDGEMENT))), Plain(0), 0)

  lemma UpperCaseIsNormal(s: string)
    requires s != "" && forall i :: 0 <= i < |s| ==> IsUpper(s[i])
    ensures Strip(s) == s && Upper(s) == s
  {
    assert StripLeft(s) == s && StripRight(s) == s;
    assert |Upper(s)| == |s| && forall i :: 0 <= i < |s| ==> Upper(s)[i] == s[i];
  }

  lemma AcknowledgementIsValid(cfg: Config)
    ensures
      var row := CashfreeRow(QuoteAsked(), NewOne(cfg), 0);
      var p := row.cipher.plain;
      && Open(row, CashfreeEventId(REQUEST)) == Some(p) && row.kind == CashfreeOrderRequested && p.CashfreeOrderPayload?
      && ValidCashfreePayload(p) && ValidAck(ACKNOWLEDGEMENT)
      && CashfreeBound(CashfreeEventId(REQUEST), row, p, PROVIDER_ORDER, ACKNOWLEDGEMENT)
      && p.order == ORDER && p.request == REQUEST && row.tenant == TENANT
      && row.target == CASHFREE && row.availableAt == 0 && row.attempts == 0 && !row.published
  {
    assert "+12345678"[1..] == "12345678" && AllDigits("12345678");
    assert LEARNER.s[0] == 'l' && TRACE.s[0] == 'c' && PROVIDER_ORDER.s[0] == 'p';
  }

  lemma StoredOrderFits(cfg: Config, db: Db)
    requires db.orders == map[ORDER := NewOne(cfg)]
    ensures LocallyBound(db, TENANT, CashfreeRow(QuoteAsked(), NewOne(cfg), 0).cipher.plain)
  {
  }

  /** The tables an acknowledgement may not touch, and the bound order. */
  lemma AcknowledgementIsRecorded(cfg: Config, db: Db)
    requires Ordered(cfg, db)
    ensures
      var row := CashfreeRow(QuoteAsked(), NewOne(cfg), 0);
      var e := RecordCashfree(db, CashfreeEventId(REQUEST), row, row.cipher.plain, PROVIDER_ORDER, AckDetails(ACKNOWLEDGEMENT), 0);
      && e.Done? && e.db.orders == map[ORDER := BoundOne(cfg)]
      && e.db == db.(orders := e.db.orders, checkouts := e.db.checkouts, requests := e.db.requests)
  {
    hide AllOnTable, DemoAt, OutboxIn, CashfreeRow, NewOne, BoundOrder, ValidCashfreePayload, CashfreeBound, LocallyBound, Upper, SetOrder;
    var row := CashfreeRow(QuoteAsked(), NewOne(cfg), 0);
    AcknowledgementIsValid(cfg);
    StoredOrderFits(cfg, db);
    UpperCaseIsNormal("ACTIVE");
    UnboundOrder(cfg);
    OnlyOrderIsNoClash(db, NewOne(cfg));
    ReplacedOrder(db, NewOne(cfg), BoundOne(cfg));
    CashfreeRecorderFrame(db, CashfreeEventId(REQUEST), row, row.cipher.plain, PROVIDER_ORDER, AckDetails(ACKNOWLEDGEMENT), 0);
  }

  lemma UnboundOrder(cfg: Config)
    ensures NewOne(cfg).providerId == None
  {
  }

  lemma OnlyOrderIsNoClash(db: Db, order: Order)
    requires db.orders == map[ORDER := order]
    ensures !ProviderOrderClash(db, ORDER, PROVIDER_ORDER)
  {
  }

  lemma ReplacedOrder(db: Db, before: Order, after: Order)
    requires db.orders == map[ORDER := before]
    ensures SetOrder(db, ORDER, after).orders == map[ORDER := after]
  {
  }

  lemma BindOne(cfg: Config, db: Db)
    requires Configured(cfg) && Ordered(cfg, db)
    ensures OneOrder(Next(cfg, db, ACKNOWLEDGED), BoundOne(cfg))
  {
    hide AllOnTable, DemoAt, OutboxIn, CashfreeRow, NewOne, BoundOne, RecordCashfree, PolicyAccepted, MarkPublished;
    var row := CashfreeRow(QuoteAsked(), NewOne(cfg), 0);
    var e := RecordCashfree(db, CashfreeEventId(REQUEST), row, row.cipher.plain, PROVIDER_ORDER, AckDetails(ACKNOWLEDGEMENT), 0);
    AcknowledgementIsValid(cfg);
    AcknowledgementIsRecorded(cfg, db);
    MarksFrame(e.db, CashfreeEventId(REQUEST), PROVIDER_ORDER, 0);
    SameOutboxIn(db, e.db, ORDERED_IDS, ORDERED_KEYS);
    PublishedRow(e.db, CashfreeEventId(REQUEST), PROVIDER_ORDER, ORDERED_IDS, ORDERED_KEYS);
    var after := MarkPublished(e.db, CashfreeEventId(REQUEST), PROVIDER_ORDER);
    assert Next(cfg, db, ACKNOWLEDGED) == after;
    NextOnTable(cfg, db, ACKNOWLEDGED);
    SameDemoAt(db, after, PAYMENT_PENDING, WayNumbers(|WAY|));
  }

  lemma SameDemoAt(a: Db, b: Db, state: DemoState, numbers: set<nat>)
    requires DemoAt(a, state, numbers) && b.demos == a.demos && b.log == a.log
    ensures DemoAt(b, state, numbers)
  {
  }

  // ---------------------------------------------------------------- the payment is verified

  function WebhookBody(cfg: Config): CashfreeBody {
    CashfreeBody(Some(NewOne(cfg).domainId), Some(PROVIDER_ORDER), Some(Str("payment")), Some("SUCCESS"), Some("INR"), Some(100),
                 LEARNER, DEMO_CONVERSION, None, 0)
  }

  function PaidStep(cfg: Config): Step { Inbox(CashfreeWebhook(Meta(200), WebhookBody(cfg)), NO_TURN, PAID_ID, 0) }

  lemma BodyIsBoundSuccess(cfg: Config)
    requires Configured(cfg)
    ensures BoundSuccess(cfg, BoundOne(cfg), WebhookBody(cfg))
    ensures RequiredReference(WebhookBody(cfg).orderId) == Some(BoundOne(cfg).domainId)
    ensures ParseWebhook(WebhookBody(cfg)) == Some(ParsedWebhook(NewOne(cfg).domainId, PROVIDER_ORDER, Str("payment"), "SUCCESS", "INR"))
  {
    hide PolicyAccepted, Upper, Strip;
    UpperCaseIsNormal("SUCCESS");
    UpperCaseIsNormal("INR");
    PlainTextIsTrimmed("payment");
    PlainTextIsTrimmed(PROVIDER_ORDER.s);
  }

  lemma PlainTextIsTrimmed(s: string)
    requires s != "" && !IsBlank(s[0]) && !IsBlank(s[|s| - 1])
    ensures Strip(s) == s
  {
    assert StripLeft(s) == s;
  }

  lemma AwaitsPayment(cfg: Config, db: Db)
    requires Inv(cfg, db) && OneOrder(db, BoundOne(cfg))
    ensures Awaiting(cfg, db, ORDER)
  {
    hide Inv, AllOnTable, WayNumbers, KeysIn, OutboxIn, OutboxClash, OrderPaidKey;
    NewIds();
    NewKeys(cfg);
    NoOutboxClash(db, ORDERED_IDS, ORDERED_KEYS, PaidEventId(ORDER), OrderPaidKey(BoundOne(cfg)));
  }

  lemma WebhookIsNew(cfg: Config, db: Db)
    requires Configured(cfg) && OneOrder(db, BoundOne(cfg))
    ensures UnseenWebhook(db, ORDER, PaidStep(cfg))
  {
    hide AllOnTable, WayNumbers, OutboxIn, DemoAt, LogClash, BoundSuccess, PolicyAccepted, RequiredReference;
    BodyIsBoundSuccess(cfg);
    assert 200 !in WayNumbers(|WAY|);
    FreshKey(db, PAYMENT_PENDING, WayNumbers(|WAY|), 200);
    OrdersDemo(cfg);
  }

  lemma OrdersDemo(cfg: Config)
    ensures BoundOne(cfg).demo == DEMO && BoundOne(cfg).providerId == Some(PROVIDER_ORDER) && BoundOne(cfg).tenant == TENANT
    ensures BoundOne(cfg).user == LEARNER && BoundOne(cfg).plan == "1"
  {
  }

  const PAID_NUMBERS: set<nat> := WayNumbers(|WAY|) + {200}

  /** The demo is paid for; nothing is handed over yet. */
  ghost predicate Bought(cfg: Config, db: Db) {
    && DemoAt(db, PAID, PAID_NUMBERS) && Talking(db) && AllOnTable(db.log)
    && db.orders.Keys == {ORDER} && SameOrder(BoundOne(cfg), db.orders[ORDER]) && db.orders[ORDER].status == Settled
    && db.paid.Keys == {ORDER} && db.paid[ORDER].id == PAID_ID && db.handoffs == map[] && db.messages == map[]
    && OutboxIn(db, PAID_IDS, PaidKeys(cfg))
    && PaidEventId(ORDER) in db.outbox && Untried(db.outbox[PaidEventId(ORDER)])
  }

  predicate Untried(row: OutboxRow) { row.availableAt == 0 && row.attempts == 0 && !row.published }

  lemma PaidDbFacts(cfg: Config, db: Db, row: Paid)
    requires OrderStands(db, BoundOne(cfg)) && ParsePlan(BoundOne(cfg).plan).Some? && row.id == PAID_ID
    ensures db.orders[ORDER].demo in db.demos && db.orders[ORDER].providerId.Some?
    ensures
      var after := PaidDb(db, Meta(200), ORDER, row, OrderPaidKey(BoundOne(cfg)), 0);
      && DemoAt(after, PAID, PAID_NUMBERS) && Talking(after)
      && after.orders.Keys == {ORDER} && SameOrder(BoundOne(cfg), after.orders[ORDER]) && after.orders[ORDER].status == Settled
      && after.paid == map[ORDER := row] && after.handoffs == map[] && after.messages == map[]
      && OutboxIn(after, PAID_IDS, PaidKeys(cfg))
      && PaidEventId(ORDER) in after.outbox && Untried(after.outbox[PaidEventId(ORDER)])
  {
    hide AllOnTable, KeysIn, WayNumbers, OutboxIn, ParsePlan, Move, SetOrder, BoundOne, OrderPaidKey;
    OrdersDemo(cfg);
    var order := db.orders[ORDER];
    var settled := order.(status := Settled, paidAt := Some(0), version := order.version + 1);
    var db1 := SetOrder(db, ORDER, settled);
    SetOrderFrame(db, ORDER, settled);
    ReplacedOrder(db, order, settled);
    MovedDemo(db1, PAYMENT_PENDING, WayNumbers(|WAY|), VERIFY_PAYMENT, PAID, 200);
    MoveFrame(db1, DEMO, VERIFY_PAYMENT, PAID, UuidText(Plain(200)));
    var db2 := Move(db1, DEMO, VERIFY_PAYMENT, PAID, UuidText(Plain(200))).(paid := db.paid[ORDER := row]);
    var verified := VerifiedRow(ORDER, order, ParsePlan(order.plan).value, row.paymentId, row.activationKey, OrderPaidKey(BoundOne(cfg)), 0, 0);
    SameOutboxIn(db, db2, ORDERED_IDS, ORDERED_KEYS);
    AddedRow(db2, ORDERED_IDS, ORDERED_KEYS, PaidEventId(ORDER), verified);
  }

  lemma PayOne(cfg: Config, db: Db)
    requires Configured(cfg) && Inv(cfg, db) && OneOrder(db, BoundOne(cfg))
    ensures Bought(cfg, Next(cfg, db, PaidStep(cfg)))
  {
    hide Inv, AllOnTable, DemoAt, WayNumbers, OutboxIn, BoundOne, OrderPaidKey, OrderActivationKey, PolicyAccepted, BoundSuccess;
    hide ParseWebhook, ParsePlan, UnseenWebhook, PaidDb, Next, WebhookBody, Awaiting;
    AwaitsPayment(cfg, db);
    WebhookIsNew(cfg, db);
    BodyIsBoundSuccess(cfg);
    OrdersDemo(cfg);
    BoundSuccessPays(cfg, db, ORDER, PaidStep(cfg));
    var after := Next(cfg, db, PaidStep(cfg));
    var db1 := db.(events := after.events, attempts := after.attempts);
    var w := ParseWebhook(WebhookBody(cfg)).value;
    SameDemoAt(db, db1, PAYMENT_PENDING, WayNumbers(|WAY|));
    SameOutboxIn(db, db1, ORDERED_IDS, ORDERED_KEYS);
    PaidDbFacts(cfg, db1, NewPaid(BoundOne(cfg), Meta(200), w, PAID_ID));
    NextOnTable(cfg, db, PaidStep(cfg));
  }

  // ---------------------------------------------------------------- a run to the paid demo

  lemma ReachBought(cfg: Config) returns (steps: seq<Step>)
    requires Configured(cfg)
    ensures Bought(cfg, Exec(cfg, EMPTY, steps))
  {
    hide Next, Started, Asked, Ordered, OneOrder, Bought, Inv, Configured;
    steps := WalkTo(cfg, |WAY|);
    AskOne(cfg, Exec(cfg, EMPTY, steps));
    ExecOne(cfg, steps, ASKING);
    steps := steps + [ASKING];
    OrderOne(cfg, Exec(cfg, EMPTY, steps));
    ExecOne(cfg, steps, QUOTED);
    steps := steps + [QUOTED];
    BindOne(cfg, Exec(cfg, EMPTY, steps));
    ExecOne(cfg, steps, ACKNOWLEDGED);
    steps := steps + [ACKNOWLEDGED];
    ReachableInv(cfg, steps);
    PayOne(cfg, Exec(cfg, EMPTY, steps));
    ExecOne(cfg, steps, PaidStep(cfg));
    steps := steps + [PaidStep(cfg)];
  }

  function SecondMessage(): Step {
    Inbox(WhatsappHandoff(Meta(203), None, true), Turn(false, true, false, Tutors), Plain(0), 0)
  }

  lemma SecondMessageShortlists(cfg: Config, db: Db)
    requires Configured(cfg) && Bought(cfg, db)
    ensures
      var after := Next(cfg, db, SecondMessage());
      !AllOnTable(after.log) && DEMO in after.demos && after.demos[DEMO].state == TUTOR_SHORTLISTED
  {
    hide AllOnTable, OutboxIn, OutboxClash, StartDemo, PolicyAccepted, SameOrder, BoundOne;
    NewIds();
    NewKeys(cfg);
    NoOutboxClash(db, PAID_IDS, PaidKeys(cfg), ReplyEventId(Plain(203)), ReplyKey(Plain(203)));
    PaidDemoIsShortlistedAgain(cfg, db, Meta(203), DEMO, 0);
  }

  /**
   In every configured deployment a run reaches a paid demo, all logs on the table, from which one
   more message takes the demo back to TUTOR_SHORTLISTED and its log off the table.
   */
  lemma PaidDemoLeavesTable(cfg: Config) returns (steps: seq<Step>, message: Step)
    requires Configured(cfg)
    ensures
      var db := Exec(cfg, EMPTY, steps);
      var after := Exec(cfg, EMPTY, steps + [message]);
      && AllOnTable(db.log) && DEMO in db.demos && db.demos[DEMO].state == PAID && ORDER in db.paid
      && !AllOnTable(after.log) && DEMO in after.demos && after.demos[DEMO].state == TUTOR_SHORTLISTED
  {
    hide Next, Configured, AllOnTable, OutboxIn, KeysIn, SameOrder, BoundOne;
    steps := ReachBought(cfg);
    message := SecondMessage();
    SecondMessageShortlists(cfg, Exec(cfg, EMPTY, steps));
    ExecOne(cfg, steps, message);
  }

  // ---------------------------------------------------------------- onboarding

  const ACTIVATED: Step := Deliver(PaidEventId(ORDER), Some(Reply(Str("activation"), NoDetails)), HANDOFF_ID, 0)

  const PENDING := Handoff(HANDOFF_ID, TENANT, PAID_ID, OnboardingKey(PAID_ID), HandoffPending, None, 0, None)

  const OWN_ROW: Uuid := OnboardingEventId(PAID_ID)

  /** The order is paid for and has the handoff, whose row nobody has tried to deliver. */
  ghost predicate HandedOver(cfg: Config, db: Db, state: DemoState, numbers: set<nat>, h: Handoff) {
    && DemoAt(db, state, numbers)
    && db.orders.Keys == {ORDER} && SameOrder(BoundOne(cfg), db.orders[ORDER]) && db.orders[ORDER].status == Settled
    && db.paid.Keys == {ORDER} && db.handoffs == map[ORDER := h] && db.messages == map[]
    && OutboxIn(db, QUEUED_IDS, QueuedKeys(cfg))
    && OWN_ROW in db.outbox && Untried(db.outbox[OWN_ROW])
  }

  lemma VerifiedRowReads(cfg: Config, db: Db)
    requires Inv(cfg, db) && Bought(cfg, db)
    ensures
      var row := db.outbox[PaidEventId(ORDER)];
      && Open(row, PaidEventId(ORDER)) == Some(row.cipher.plain) && row.kind == PaymentVerified && row.target == WEBSITE
      && row.cipher.plain.VerifiedPayload? && row.tenant == TENANT
      && row.cipher.plain.providerOrder == PROVIDER_ORDER && row.cipher.plain.demo == DEMO && row.cipher.plain.evidence != Str("")
  {
    hide Inv, AllOnTable, DemoAt, OutboxIn, BoundOne, AttemptSupports, OrderPaidKey, OrderActivationKey, ParsePlan;
    OrdersDemo(cfg);
    PaidFacts(cfg, db, ORDER);
    RowFacts(cfg, db, PaidEventId(ORDER));
  }

  lemma HandoffIsQueued(cfg: Config, db: Db)
    requires Inv(cfg, db) && Bought(cfg, db)
    ensures
      var row := db.outbox[PaidEventId(ORDER)];
      QueueOnboarding(db, row, row.cipher.plain, Str("activation"), HANDOFF_ID, 0)
      == Done(AddOutbox(SetHandoff(db, ORDER, PENDING), OWN_ROW,
                        OnboardingRow(db, TENANT, ORDER, row.correlation, row.cipher.plain, Str("activation"), 0)))
  {
    hide Inv, AllOnTable, OutboxIn, OutboxClash, BoundOne, OnboardingRow, KeysIn;
    var row := db.outbox[PaidEventId(ORDER)];
    VerifiedRowReads(cfg, db);
    OrdersDemo(cfg);
    NewIds();
    NewKeys(cfg);
    assert PROVIDER_ORDER.s[0] == 'p';
    assert ORDER in OrdersByProviderId(db, TENANT, PROVIDER_ORDER, DEMO);
    OneByProviderId(cfg, db, TENANT, PROVIDER_ORDER, DEMO, ORDER);
    NoOutboxClash(db, PAID_IDS, PaidKeys(cfg), OWN_ROW, OnboardingKey(PAID_ID));
    assert !HandoffQueued(db, TENANT, OnboardingKey(PAID_ID)) && !HandoffClash(db, ORDER, PENDING);
  }

  lemma OnboardingRowIsUntried(db: Db, correlation: Text, p: Payload)
    requires ORDER in db.orders && ORDER in db.paid && p.VerifiedPayload? && db.paid[ORDER].id == PAID_ID
    ensures
      var row := OnboardingRow(db, TENANT, ORDER, correlation, p, Str("activation"), 0);
      Untried(row) && row.key == OnboardingKey(PAID_ID)
  {
  }

  lemma QueueOne(cfg: Config, db: Db)
    requires Configured(cfg) && Inv(cfg, db) && Bought(cfg, db)
    ensures HandedOver(cfg, Next(cfg, db, ACTIVATED), PAID, PAID_NUMBERS, PENDING)
  {
    hide Inv, AllOnTable, DemoAt, OutboxIn, BoundOne, SameOrder, OnboardingRow, QueueOnboarding, PolicyAccepted, MarkPublished, AddOutbox;
    var row := db.outbox[PaidEventId(ORDER)];
    VerifiedRowReads(cfg, db);
    HandoffIsQueued(cfg, db);
    var queued := OnboardingRow(db, TENANT, ORDER, row.correlation, row.cipher.plain, Str("activation"), 0);
    OnboardingRowIsUntried(db, row.correlation, row.cipher.plain);
    var db1 := SetHandoff(db, ORDER, PENDING);
    var db2 := AddOutbox(db1, OWN_ROW, queued);
    SameOutboxIn(db, db1, PAID_IDS, PaidKeys(cfg));
    AddedRow(db1, PAID_IDS, PaidKeys(cfg), OWN_ROW, queued);
    NewIds();
    RowsAfterAdding(db1, OWN_ROW, queued, PaidEventId(ORDER));
    MarksFrame(db2, PaidEventId(ORDER), Str("activation"), 0);
    PublishedRow(db2, PaidEventId(ORDER), Str("activation"), QUEUED_IDS, QueuedKeys(cfg));
    var after := MarkPublished(db2, PaidEventId(ORDER), Str("activation"));
    assert Next(cfg, db, ACTIVATED) == after;
    SameDemoAt(db, after, PAID, PAID_NUMBERS);
  }

  lemma RowsAfterAdding(db: Db, id: Uuid, row: OutboxRow, other: Uuid)
    requires other in db.outbox && other != id
    ensures OnlyOutbox(db, AddOutbox(db, id, row))
    ensures
      var after := AddOutbox(db, id, row);
      id in after.outbox && after.outbox[id] == row && other in after.outbox && after.outbox[other] == db.outbox[other]
  {
  }

  lemma FindsContext(cfg: Config, db: Db, state: DemoState, numbers: set<nat>, h: Handoff)
    requires HandedOver(cfg, db, state, numbers, h)
    ensures OnboardingContext(db, TENANT, DEMO, LEARNER) == Some(ORDER)
  {
    hide OutboxIn, KeysIn, BoundOne;
    OrdersDemo(cfg);
    var matches := OrdersOfUser(db, TENANT, DEMO, LEARNER);
    assert matches == {ORDER};
    OneOfUser(db, TENANT, DEMO, LEARNER, matches, ORDER);
  }

  const ACCEPTED: Step := Inbox(OnboardingAccepted(Meta(201), DEMO, LEARNER, Str("onboarding")), NO_TURN, Plain(0), 0)

  const ACCEPTED_HANDOFF := PENDING.(status := HandoffAccepted, acknowledgement := Some(Str("onboarding")))

  lemma AcceptOne(cfg: Config, db: Db)
    requires Configured(cfg) && HandedOver(cfg, db, PAID, PAID_NUMBERS, PENDING)
    ensures HandedOver(cfg, Next(cfg, db, ACCEPTED), ONBOARDING_HANDOFF, PAID_NUMBERS + {201}, ACCEPTED_HANDOFF)
  {
    hide KeysIn, OutboxIn, WayNumbers, BoundOne, SameOrder, OnboardingContext, LogClash, Move, PolicyAccepted, Next;
    FindsContext(cfg, db, PAID, PAID_NUMBERS, PENDING);
    NumbersBelow();
    FreshKey(db, PAID, PAID_NUMBERS, 201);
    var db1 := SetHandoff(db, ORDER, ACCEPTED_HANDOFF);
    MovedDemo(db1, PAID, PAID_NUMBERS, HANDOFF_ONBOARDING, ONBOARDING_HANDOFF, 201);
    HandoffMoveFrame(db, ORDER, ACCEPTED_HANDOFF, DEMO, HANDOFF_ONBOARDING, ONBOARDING_HANDOFF, UuidText(Plain(201)));
    var after := Move(db1, DEMO, HANDOFF_ONBOARDING, ONBOARDING_HANDOFF, UuidText(Plain(201)));
    Accepts(cfg, db);
    SameOutboxIn(db, after, QUEUED_IDS, QueuedKeys(cfg));
  }

  lemma Accepts(cfg: Config, db: Db)
    requires Configured(cfg) && HandedOver(cfg, db, PAID, PAID_NUMBERS, PENDING)
    requires OnboardingContext(db, TENANT, DEMO, LEARNER) == Some(ORDER) && !LogClash(db, DEMO, UuidText(Plain(201)))
    ensures Next(cfg, db, ACCEPTED)
      == Move(SetHandoff(db, ORDER, ACCEPTED_HANDOFF), DEMO, HANDOFF_ONBOARDING, ONBOARDING_HANDOFF, UuidText(Plain(201)))
  {
    hide KeysIn, OutboxIn, WayNumbers, BoundOne, SameOrder, OnboardingContext, LogClash, Move, PolicyAccepted;
  }

  lemma NumbersBelow()
    ensures 201 !in PAID_NUMBERS && 202 !in PAID_NUMBERS + {201}
  {
    assert 201 !in WayNumbers(|WAY|) && 202 !in WayNumbers(|WAY|);
  }

  const CONVERTING: Step := Inbox(OnboardingCompleted(Meta(202), DEMO, LEARNER, Str("onboarding")), NO_TURN, Plain(0), 0)

  /** The demo is converted, its handoff completed, and the handoff's own row still due. */
  ghost predicate DoneButDue(cfg: Config, db: Db) {
    && DEMO in db.demos && db.demos[DEMO].state == CONVERTED
    && ORDER in db.orders && db.orders[ORDER].demo == DEMO
    && Completed(db, ORDER) && db.handoffs[ORDER].paidId == PAID_ID
    && OWN_ROW in db.outbox && Untried(db.outbox[OWN_ROW])
  }

  lemma CompleteOne(cfg: Config, db: Db)
    requires Configured(cfg) && HandedOver(cfg, db, ONBOARDING_HANDOFF, PAID_NUMBERS + {201}, ACCEPTED_HANDOFF)
    ensures DoneButDue(cfg, Next(cfg, db, CONVERTING))
  {
    hide KeysIn, OutboxIn, WayNumbers, BoundOne, OnboardingContext, LogClash, OutboxClash, PolicyAccepted, ConvertedDb, Next;
    var numbers := PAID_NUMBERS + {201};
    FindsContext(cfg, db, ONBOARDING_HANDOFF, numbers, ACCEPTED_HANDOFF);
    NumbersBelow();
    FreshKey(db, ONBOARDING_HANDOFF, numbers, 202);
    NewIds();
    NewKeys(cfg);
    NoOutboxClash(db, QUEUED_IDS, QueuedKeys(cfg), WelcomeEventId(HANDOFF_ID), WelcomeKey(HANDOFF_ID));
    OrdersDemo(cfg);
    ConvertedFacts(db, Meta(202));
    Converts(cfg, db);
  }

  lemma Converts(cfg: Config, db: Db)
    requires Configured(cfg) && HandedOver(cfg, db, ONBOARDING_HANDOFF, PAID_NUMBERS + {201}, ACCEPTED_HANDOFF)
    requires OnboardingContext(db, TENANT, DEMO, LEARNER) == Some(ORDER) && !LogClash(db, DEMO, UuidText(Plain(202)))
    requires !OutboxClash(db, WelcomeEventId(HANDOFF_ID), TENANT, WelcomeKey(HANDOFF_ID))
    ensures Next(cfg, db, CONVERTING) == ConvertedDb(db, Meta(202), ORDER, DEMO, 0)
  {
    hide KeysIn, OutboxIn, WayNumbers, BoundOne, OnboardingContext, LogClash, OutboxClash, PolicyAccepted, ConvertedDb;
    assert !MessageClash(db, WelcomeMessageId(HANDOFF_ID), TENANT, WelcomeKey(HANDOFF_ID));
  }

  lemma ConvertedFacts(db: Db, meta: Envelope)
    requires ORDER in db.handoffs && db.handoffs[ORDER].id == HANDOFF_ID && DEMO in db.demos
    ensures
      var after := ConvertedDb(db, meta, ORDER, DEMO, 0);
      && DEMO in after.demos && after.demos[DEMO].state == CONVERTED && after.orders == db.orders
      && ORDER in after.handoffs && after.handoffs[ORDER].status == HandoffCompleted
      && after.handoffs[ORDER].paidId == db.handoffs[ORDER].paidId
      && forall id :: id in db.outbox && id != WelcomeEventId(HANDOFF_ID) ==> id in after.outbox && after.outbox[id] == db.outbox[id]
  {
    hide WelcomeRow;
  }

  const LATE: Step := Deliver(OWN_ROW, Some(Reply(Str("late"), NoDetails)), Plain(0), 0)

  lemma LateAnswerIsOwn(cfg: Config, db: Db)
    requires Configured(cfg) && Inv(cfg, db) && DoneButDue(cfg, db)
    ensures OwnRowAnswered(cfg, db, LATE, ORDER)
  {
    hide Inv, PolicyAccepted, LogClash;
    RowFacts(cfg, db, OWN_ROW);
    OwnRow(cfg, db, ORDER);
  }

  /**
   In every configured deployment a run reaches a converted demo with its handoff completed while
   the handoff's own row is still due, and answering that row takes the handoff back to accepted.
   */
  lemma CompletedHandoffIsReopened(cfg: Config) returns (steps: seq<Step>)
    requires Configured(cfg)
    ensures
      var db := Exec(cfg, EMPTY, steps);
      var after := Exec(cfg, EMPTY, steps + [LATE]);
      && DEMO in db.demos && db.demos[DEMO].state == CONVERTED && Completed(db, ORDER)
      && OWN_ROW in db.outbox && !db.outbox[OWN_ROW].published
      && ORDER in after.handoffs && after.handoffs[ORDER].status == HandoffAccepted
  {
    hide Next, Configured, Inv, Bought, HandedOver, OwnRowAnswered;
    steps := ReachBought(cfg);
    ReachableInv(cfg, steps);
    QueueOne(cfg, Exec(cfg, EMPTY, steps));
    ExecOne(cfg, steps, ACTIVATED);
    steps := steps + [ACTIVATED];
    AcceptOne(cfg, Exec(cfg, EMPTY, steps));
    ExecOne(cfg, steps, ACCEPTED);
    steps := steps + [ACCEPTED];
    CompleteOne(cfg, Exec(cfg, EMPTY, steps));
    ExecOne(cfg, steps, CONVERTING);
    steps := steps + [CONVERTING];
    ReachableInv(cfg, steps);
    LateAnswerIsOwn(cfg, Exec(cfg, EMPTY, steps));
    ExecOne(cfg, steps, LATE);
    CompletedStaysIff(cfg, steps, LATE, ORDER);
  }
}
