/**
 One outbox row over a whole run: only its own delivery touches its marks, its failures are
 spaced by the backoff, and there are never more of them than the limit.
 */
module OutboxHistory {
  import opened Identifiers
  import opened Lifecycle
  import opened Monetary
  import opened PaymentVerification
  import opened Store
  import opened Handlers
  import opened Frames
  import opened SagaInvariant
  import opened SagaPreservation

  // ---------------------------------------------------------------- rows stay as they are

  /** Row `id` stays exactly as it was, or, where it was not yet, is new and undelivered. */
  predicate RowStays(a: Db, b: Db, id: Uuid) {
    if id in a.outbox then id in b.outbox && b.outbox[id] == a.outbox[id]
    else id in b.outbox ==> b.outbox[id].attempts == 0 && !b.outbox[id].published
  }

  lemma UnclashedIsNew(db: Db, id: Uuid, tenant: Text, key: Text)
    requires !OutboxClash(db, id, tenant, key)
    ensures id !in db.outbox
  {
  }

  /** Adding a row that was never tried leaves every other row. */
  lemma UntriedRowStays(db: Db, after: Db, id: Uuid, row: OutboxRow, x: Uuid)
    requires id !in db.outbox && row.attempts == 0 && !row.published && after.outbox == db.outbox[id := row]
    ensures RowStays(db, after, x)
  {
  }

  lemma RequestStays(cfg: Config, db: Db, tenant: Text, c: OrderCommand, correlation: Text, now: int, id: Uuid)
    ensures RowStays(db, RequestOrder(cfg, db, tenant, c, correlation, now).1, id)
  {
    hide HasActiveOrder, HasActiveRequest, OutboxClash, RowStays;
    var (answer, after) := RequestOrder(cfg, db, tenant, c, correlation, now);
    if answer.QuotePending? {
      UnclashedIsNew(db, c.request, tenant, UuidText(c.request));
      UntriedRowStays(db, after, c.request, after.outbox[c.request], id);
    } else {
      UnchangedStays(db, id);
    }
  }

  lemma UnchangedStays(db: Db, x: Uuid)
    ensures RowStays(db, db, x)
  {
  }

  lemma QuoteStays(cfg: Config, db: Db, id: Uuid, row: OutboxRow, p: Payload, d: Details, now: int, x: Uuid)
    ensures
      var e := RecordQuote(cfg, db, id, row, p, d, now);
      !e.Violation? ==> RowStays(db, e.db, x)
  {
    hide LogClash, OrderClash, OrdersByCreationKey, ValidQuote, QuoteBound, MatchesExisting, NewOrder, SetOrder, E164, NumericPlan, Move;
    var e := RecordQuote(cfg, db, id, row, p, d, now);
    if e.Done? && e.db != db {
      var order, cashfreeId := NewOrder(cfg, row, p, d.quote, now), CashfreeEventId(p.request);
      var db1 := SetOrder(db, PaymentOrderId(p.request), order);
      var db2 := AddOutbox(db1, cashfreeId, CashfreeRow(p, order, now));
      SetOrderFrame(db, PaymentOrderId(p.request), order);
      MoveFrame(db2, p.demo, REQUEST_PAYMENT, PAYMENT_PENDING, RequestLogKey(p.request));
    }
  }

  lemma QueueStays(db: Db, row: OutboxRow, p: Payload, reference: Text, newId: Uuid, now: int, x: Uuid)
    ensures
      var e := QueueOnboarding(db, row, p, reference, newId, now);
      !e.Violation? ==> RowStays(db, e.db, x)
  {
    hide HandoffQueued, HandoffClash;
  }

  lemma RecordStays(cfg: Config, db: Db, id: Uuid, row: OutboxRow, p: Payload, reply: Reply, newId: Uuid, now: int, x: Uuid)
    ensures
      var e := Record(cfg, db, id, row, p, reply, newId, now);
      !e.Violation? ==> RowStays(db, e.db, x)
  {
    hide RecordQuote, RecordCashfree, QueueOnboarding, RecordAcceptance;
    match row.kind
    case PlanQuoteRequested => QuoteStays(cfg, db, id, row, p, reply.details, now, x);
    case CashfreeOrderRequested => CashfreeRecorderFrame(db, id, row, p, reply.reference, reply.details, now);
    case PaymentVerified => QueueStays(db, row, p, reply.reference, newId, now, x);
    case OnboardingRequested => AcceptanceFrame(db, row, reply.reference);
    case DeliveryRequested =>
  }

  lemma PaidStays(db: Db, meta: Envelope, o: Uuid, paymentId: Text, activationKey: Text, outboxKey: Text, newId: Uuid, now: int, x: Uuid)
    requires o in db.orders && db.orders[o].providerId.Some?
    ensures
      var e := ApplyPaid(db, meta, o, paymentId, activationKey, outboxKey, newId, now);
      e.Done? ==> RowStays(db, e.db, x)
  {
    hide LogClash, OutboxClash, PaidClash, ParsePlan, SetOrder, Payable, Move, VerifiedRow, RowStays;
    var order := db.orders[o];
    var e := ApplyPaid(db, meta, o, paymentId, activationKey, outboxKey, newId, now);
    if order.demo !in db.demos || !Payable(db.demos[order.demo].state) {
      SetOrderFrame(db, o, order.(status := UnderReview));
      UnchangedOutboxStays(db, SetOrder(db, o, order.(status := UnderReview)), x);
    } else if e.Done? {
      var settled := order.(status := Settled, paidAt := Some(meta.occurredAt), version := order.version + 1);
      SetOrderFrame(db, o, settled);
      MoveFrame(SetOrder(db, o, settled), order.demo, VERIFY_PAYMENT, PAID, meta.key);
      var verified := VerifiedRow(o, order, ParsePlan(order.plan).value, paymentId, activationKey, outboxKey, meta.occurredAt, now);
      VerifiedIsUntried(o, order, ParsePlan(order.plan).value, paymentId, activationKey, outboxKey, meta.occurredAt, now);
      UnclashedIsNew(db, PaidEventId(o), order.tenant, outboxKey);
      UntriedRowStays(db, e.db, PaidEventId(o), verified, x);
    }
  }

  lemma UnchangedOutboxStays(a: Db, b: Db, x: Uuid)
    requires b.outbox == a.outbox
    ensures RowStays(a, b, x)
  {
  }

  lemma VerifiedIsUntried(o: Uuid, order: Order, planId: int, paymentId: Text, activationKey: Text, outboxKey: Text, at: int, now: int)
    requires order.providerId.Some?
    ensures
      var row := VerifiedRow(o, order, planId, paymentId, activationKey, outboxKey, at, now);
      row.attempts == 0 && !row.published
  {
  }

  lemma CashfreeStays(cfg: Config, db: Db, meta: Envelope, b: CashfreeBody, newId: Uuid, now: int, x: Uuid)
    ensures
      var e := ProcessCashfree(cfg, db, meta, b, newId, now);
      e.Done? ==> RowStays(db, e.db, x)
  {
    hide EventClash, ParseWebhook, Mismatches, WebhookBinding, WebhookEvidence, MakeMoney, ApplyPaid, StatusAfter, SetOrder;
    var e := ProcessCashfree(cfg, db, meta, b, newId, now);
    if e.Done? {
      var w := ParseWebhook(b).value;
      var o := Pick(OrdersByDomainId(db, w.orderId)).value;
      var decision := Decide(cfg, db, meta, b, o, now).value;
      var attempt := Attempt(o, meta.id, w.status, b.amountMinor.value, w.currency, meta.occurredAt);
      var db1 := RecordAttempt(RecordEvent(db, FromCashfree, meta.id, CashfreePayload(b), Some(decision.kind)), w.paymentId, attempt);
      SetOrderFrame(db1, o, db.orders[o].(status := StatusAfter(decision.kind, db.orders[o].status)));
      if decision.kind == TransitionPaid {
        PaidStays(db1, meta, o, w.paymentId, decision.activationKey.value, decision.outboxKey.value, newId, now, x);
      }
    }
  }

  lemma CompleteStays(cfg: Config, db: Db, meta: Envelope, demo: Uuid, user: Text, now: int, x: Uuid)
    ensures
      var e := CompleteOnboarding(cfg, db, meta, demo, user, now);
      e.Done? ==> RowStays(db, e.db, x)
  {
    hide LogClash, MessageClash, OutboxClash, OnboardingContext, ConvertedDb, RowStays;
    ContextFacts(db, meta.tenant, demo, user);
    UnchangedStays(db, x);
    var e := CompleteOnboarding(cfg, db, meta, demo, user, now);
    if e.Done? && e.db != db {
      var o := OnboardingContext(db, meta.tenant, demo, user).value;
      var h := db.handoffs[o];
      UnclashedIsNew(db, WelcomeEventId(h.id), meta.tenant, WelcomeKey(h.id));
      ConvertedAddsRow(db, meta, o, demo, now);
      UntriedRowStays(db, e.db, WelcomeEventId(h.id), WelcomeRow(meta, demo, db.demos[demo].conversation, h.id, now), x);
    }
  }

  lemma ConvertedAddsRow(db: Db, meta: Envelope, o: Uuid, demo: Uuid, now: int)
    requires o in db.handoffs && demo in db.demos
    ensures
      var id := db.handoffs[o].id;
      ConvertedDb(db, meta, o, demo, now).outbox
      == db.outbox[WelcomeEventId(id) := WelcomeRow(meta, demo, db.demos[demo].conversation, id, now)]
  {
    hide WelcomeRow;
  }

  lemma ReplyStays(db: Db, e: Effect, meta: Envelope, demo: Uuid, now: int, x: Uuid)
    requires e.Done? ==> e.db.outbox == db.outbox
    ensures
      var r := AddReply(e, meta, demo, now);
      r.Done? ==> RowStays(db, r.db, x)
  {
  }

  lemma AdvanceStays(cfg: Config, db: Db, meta: Envelope, demo: Uuid, step: ConversationStep, turn: Turn, now: int, x: Uuid)
    ensures
      var r := Advance(cfg, db, meta, demo, step, turn, now);
      r.Done? ==> RowStays(db, r.db, x)
  {
    hide TransitionDemo, Shortlist, AddReply;
    TransitionFrame(db, meta, demo, ESCALATE_HUMAN, HUMAN_HANDOFF);
    ShortlistFrame(db, meta, demo);
    ReplyStays(db, Done(db), meta, demo, now, x);
    ReplyStays(db, TransitionDemo(db, meta, demo, ESCALATE_HUMAN, HUMAN_HANDOFF), meta, demo, now, x);
    ReplyStays(db, Shortlist(db, meta, demo), meta, demo, now, x);
  }

  /** The outbox a later write starts from is the one of before. */
  lemma StaysFrom(a: Db, b: Db, c: Db, x: Uuid)
    requires b.outbox == a.outbox && RowStays(b, c, x)
    ensures RowStays(a, c, x)
  {
  }

  lemma AcceptTutorStays(db: Db, meta: Envelope, demo: Uuid, now: int, x: Uuid)
    ensures
      var r := AcceptTutor(db, meta, demo, now);
      r.Done? ==> RowStays(db, r.db, x)
  {
    hide TransitionDemo, AddReply, RowStays, SetStep;
    var db1 := SetStep(db, meta, demo, AwaitingTutor);
    StepFrame(db, meta, demo, AwaitingTutor);
    TransitionFrame(db1, meta, demo, ACCEPT_SHORTLIST, SLOT_NEGOTIATING);
    ReplyStays(db, TransitionDemo(db1, meta, demo, ACCEPT_SHORTLIST, SLOT_NEGOTIATING), meta, demo, now, x);
  }

  lemma ContinueStays(cfg: Config, db: Db, meta: Envelope, turn: Turn, now: int, x: Uuid)
    requires (meta.tenant, meta.conversation) in db.conversations
    ensures
      var r := ContinueDemo(cfg, db, meta, turn, now);
      r.Done? ==> RowStays(db, r.db, x)
  {
    hide Advance, AcceptTutor, RowStays, SetStep, StepAfter;
    var c := db.conversations[(meta.tenant, meta.conversation)];
    var db1 := SetStep(db, meta, c.demo, StepAfter(c, turn));
    StepFrame(db, meta, c.demo, StepAfter(c, turn));
    AcceptTutorStays(db, meta, c.demo, now, x);
    AdvanceStays(cfg, db1, meta, c.demo, StepAfter(c, turn), turn, now, x);
    var r := Advance(cfg, db1, meta, c.demo, StepAfter(c, turn), turn, now);
    if r.Done? {
      StaysFrom(db, db1, r.db, x);
    }
  }

  lemma TalkStays(cfg: Config, db: Db, meta: Envelope, sender: Option<Text>, turn: Turn, now: int, x: Uuid)
    ensures
      var r := StartDemo(cfg, db, meta, sender, turn, now);
      r.Done? ==> RowStays(db, r.db, x)
  {
    hide Advance, ContinueDemo, RowStays, SetStep;
    UnchangedStays(db, x);
    if (meta.tenant, meta.conversation) in db.conversations {
      ContinueStays(cfg, db, meta, turn, now, x);
    } else {
      var demo := DemoIdOf(meta.id);
      var db1 := db.(demos := db.demos[demo := Demo(meta.tenant, sender, meta.conversation, QUALIFYING, 1)],
                     log := db.log[demo := [LogEntry(NEW, START_QUALIFICATION, QUALIFYING, meta.key)]]);
      var db2 := SetStep(db1, meta, demo, Collecting);
      StepFrame(db1, meta, demo, Collecting);
      AdvanceStays(cfg, db2, meta, demo, Collecting, turn, now, x);
      var r := Advance(cfg, db2, meta, demo, Collecting, turn, now);
      if r.Done? {
        StaysFrom(db, db2, r.db, x);
      }
    }
  }

  lemma HandleStays(cfg: Config, db: Db, event: InboxEvent, turn: Turn, newId: Uuid, now: int, x: Uuid)
    ensures RowStays(db, HandleInbox(cfg, db, event, turn, newId, now), x)
  {
    hide ProcessCashfree, AcceptOnboarding, CompleteOnboarding, StartDemo, EventClash;
    match event
    case CashfreeWebhook(meta, body) => CashfreeStays(cfg, db, meta, body, newId, now, x);
    case MetaWebhook(meta, payload) =>
    case OnboardingAccepted(meta, demo, user, onboarding) => AcceptFrame(cfg, db, meta, demo, user, onboarding);
    case OnboardingCompleted(meta, demo, user, onboarding) => CompleteStays(cfg, db, meta, demo, user, now, x);
    case WhatsappHandoff(meta, sender, valid) => TalkStays(cfg, db, meta, sender, turn, now, x);
    case UnsupportedEvent(_) =>
  }

  // ---------------------------------------------------------------- delivering a row

  /** The delivery of a due row raises: in the transport, in decrypting, or in the recorder. */
  ghost predicate FailedDelivery(cfg: Config, db: Db, id: Uuid, reply: Option<Reply>, newId: Uuid, now: int) {
    Eligible(cfg, db, id, now) && PublishEffect(cfg, db, id, reply, newId, now).Raised?
  }

  ghost predicate GoodDelivery(cfg: Config, db: Db, id: Uuid, reply: Option<Reply>, newId: Uuid, now: int) {
    Eligible(cfg, db, id, now) && PublishEffect(cfg, db, id, reply, newId, now).Done?
  }

  function Failed(row: OutboxRow, now: int): OutboxRow {
    row.(attempts := row.attempts + 1, availableAt := now + Backoff(row.attempts + 1))
  }

  /** The two marks on a row, and every other row as it was. */
  lemma MarkedRows(row: OutboxRow, db: Db, id: Uuid, reference: Text, now: int)
    requires id in db.outbox && db.outbox[id] == row
    ensures
      var p, f := MarkPublished(db, id, reference), MarkFailed(db, id, now);
      && id in p.outbox && p.outbox[id] == row.(published := true, providerReference := Some(reference))
      && id in f.outbox && f.outbox[id] == Failed(row, now)
      && p.outbox.Keys == db.outbox.Keys && f.outbox.Keys == db.outbox.Keys
      && forall x :: x in db.outbox && x != id ==> p.outbox[x] == db.outbox[x] && f.outbox[x] == db.outbox[x]
  {
    hide Backoff;
  }

  /** A failed delivery counts and puts the row off, a good one publishes it, and nothing else touches it. */
  lemma PublishMarksItsRow(cfg: Config, db: Db, id: Uuid, reply: Option<Reply>, newId: Uuid, now: int, x: Uuid)
    ensures
      var after := Publish(cfg, db, id, reply, newId, now);
      && (x != id ==> RowStays(db, after, x))
      && (FailedDelivery(cfg, db, id, reply, newId, now) ==> id in after.outbox && after.outbox[id] == Failed(db.outbox[id], now))
      && (GoodDelivery(cfg, db, id, reply, newId, now) ==>
            reply.Some? && id in after.outbox
            && after.outbox[id] == db.outbox[id].(published := true, providerReference := Some(reply.value.reference)))
      && (!FailedDelivery(cfg, db, id, reply, newId, now) && !GoodDelivery(cfg, db, id, reply, newId, now) ==> after == db)
  {
    hide Record, MarkPublished, MarkFailed, Failed;
    if Eligible(cfg, db, id, now) {
      var p := Open(db.outbox[id], id);
      if p.Some? && reply.Some? {
        RecordStays(cfg, db, id, db.outbox[id], p.value, reply.value, newId, now, x);
        RecordStays(cfg, db, id, db.outbox[id], p.value, reply.value, newId, now, id);
      }
      var e := PublishEffect(cfg, db, id, reply, newId, now);
      if !e.Violation? {
        MarkedRows(db.outbox[id], e.db, id, if reply.Some? then reply.value.reference else Str(""), now);
      }
    }
  }

  /** A row's attempts rise if and only if the row was due and its delivery raised. */
  lemma AttemptsRiseIffRaised(cfg: Config, db: Db, s: Step, id: Uuid)
    requires id in db.outbox
    ensures
      var after := Next(cfg, db, s);
      id in after.outbox
      && (after.outbox[id].attempts > db.outbox[id].attempts <==>
            s.Deliver? && s.row == id && FailedDelivery(cfg, db, id, s.reply, s.newId, s.at))
  {
    hide Publish, FailedDelivery, GoodDelivery, Backoff, Next;
    if s.Deliver? && s.row == id {
      DeliverStep(cfg, db, s);
    } else {
      OthersStay(cfg, db, s, id);
    }
  }

  lemma OthersStay(cfg: Config, db: Db, step: Step, x: Uuid)
    requires step.Deliver? ==> step.row != x
    ensures RowStays(db, Next(cfg, db, step), x)
  {
    hide RequestOrder, Publish, HandleInbox, ReserveOrder, RecordProviderFailure, ApplySnapshot, TakeEdge;
    match step
    case Request(tenant, command, correlation, at) => RequestStays(cfg, db, tenant, command, correlation, at, x);
    case Deliver(row, reply, newId, at) => PublishMarksItsRow(cfg, db, row, reply, newId, at, x);
    case Inbox(event, turn, newId, at) => HandleStays(cfg, db, event, turn, newId, at, x);
    case OtherEdge(demo, command, after, key) => EdgeFrame(db, demo, command, after, key);
    case _ => ReconciliationFrame(cfg, db, step);
  }

  // ---------------------------------------------------------------- whole runs

  /** The times at which a delivery of the row raised while it was due, in the order of the run. */
  ghost function FailureTimes(cfg: Config, steps: seq<Step>, id: Uuid): seq<int> {
    if steps == [] then []
    else
      var front, s := steps[..|steps| - 1], steps[|steps| - 1];
      var times := FailureTimes(cfg, front, id);
      if s.Deliver? && s.row == id && FailedDelivery(cfg, Exec(cfg, EMPTY, front), id, s.reply, s.newId, s.at)
      then times + [s.at] else times
  }

  predicate SpacedOut(times: seq<int>) {
    forall k :: 0 < k < |times| ==> times[k] >= times[k - 1] + Backoff(k)
  }

  /** The row's marks tell exactly how often and when last it failed. */
  predicate MarksAgree(cfg: Config, db: Db, id: Uuid, times: seq<int>) {
    && SpacedOut(times)
    && |times| <= cfg.maximumAttempts
    && (id !in db.outbox ==> times == [])
    && (id in db.outbox ==>
          db.outbox[id].attempts == |times|
          && (|times| > 0 ==> db.outbox[id].availableAt == times[|times| - 1] + Backoff(|times|)))
  }

  lemma {:induction false} MarksTellFailures(cfg: Config, steps: seq<Step>, id: Uuid)
    ensures MarksAgree(cfg, Exec(cfg, EMPTY, steps), id, FailureTimes(cfg, steps, id))
  {
    hide Next, Backoff, PublishEffect;
    if steps != [] {
      var front, s := steps[..|steps| - 1], steps[|steps| - 1];
      var before := Exec(cfg, EMPTY, front);
      MarksTellFailures(cfg, front, id);
      if s.Deliver? && s.row == id {
        DeliverStep(cfg, before, s);
      } else {
        OthersStay(cfg, before, s, id);
      }
    }
  }

  lemma DeliverStep(cfg: Config, db: Db, s: Step)
    requires s.Deliver?
    ensures
      var after := Next(cfg, db, s);
      && (FailedDelivery(cfg, db, s.row, s.reply, s.newId, s.at) ==>
            s.row in after.outbox && after.outbox[s.row] == Failed(db.outbox[s.row], s.at))
      && (!FailedDelivery(cfg, db, s.row, s.reply, s.newId, s.at) ==>
            after == db
            || (s.row in db.outbox && s.row in after.outbox
                && after.outbox[s.row].attempts == db.outbox[s.row].attempts
                && after.outbox[s.row].availableAt == db.outbox[s.row].availableAt))
  {
    hide Publish, Failed, FailedDelivery;
    PublishMarksItsRow(cfg, db, s.row, s.reply, s.newId, s.at, s.row);
  }

  /**
   Over any run a row fails at most as often as the limit allows, and between its k-th failure
   and the next at least `min(300, 2^k)` seconds pass.
   */
  lemma FailuresBackOff(cfg: Config, steps: seq<Step>, id: Uuid, k: nat)
    ensures |FailureTimes(cfg, steps, id)| <= cfg.maximumAttempts
    ensures 1 <= k < |FailureTimes(cfg, steps, id)| ==>
      FailureTimes(cfg, steps, id)[k] - FailureTimes(cfg, steps, id)[k - 1] >= (if Power2(k) < 300 then Power2(k) else 300)
  {
    hide Next, FailureTimes;
    MarksTellFailures(cfg, steps, id);
  }

  /** Seconds that the first k backoffs take together. */
  function TotalBackoff(k: nat): nat {
    if k == 0 then 0 else TotalBackoff(k - 1) + Backoff(k)
  }

  lemma {:induction false} SpacedSum(times: seq<int>, k: nat)
    requires SpacedOut(times) && k < |times|
    ensures times[k] >= times[0] + TotalBackoff(k)
  {
    hide Backoff;
    if k > 0 {
      SpacedSum(times, k - 1);
    }
  }

  /** The try after the n-th failure, whatever comes of it, waits out all n backoffs. */
  lemma LateTriesWait(cfg: Config, steps: seq<Step>, s: Step)
    requires s.Deliver? && Eligible(cfg, Exec(cfg, EMPTY, steps), s.row, s.at)
    ensures
      var times := FailureTimes(cfg, steps, s.row);
      |times| < cfg.maximumAttempts && (times != [] ==> s.at >= times[0] + TotalBackoff(|times|))
  {
    hide Backoff;
    var times := FailureTimes(cfg, steps, s.row);
    MarksTellFailures(cfg, steps, s.row);
    if times != [] {
      SpacedSum(times, |times| - 1);
    }
  }

  /** The try after seven failures, the last of eight, comes no sooner than 254 seconds after the first. */
  lemma EighthTryWaits254Seconds(cfg: Config, steps: seq<Step>, s: Step)
    requires s.Deliver? && Eligible(cfg, Exec(cfg, EMPTY, steps), s.row, s.at)
    requires |FailureTimes(cfg, steps, s.row)| == 7
    ensures s.at >= FailureTimes(cfg, steps, s.row)[0] + 254
  {
    hide Next, FailureTimes, TotalBackoff, Eligible;
    LateTriesWait(cfg, steps, s);
    SevenBackoffs();
  }

  /** From the ninth failure on each wait is 300 seconds. */
  lemma LateFailuresWait300Seconds(cfg: Config, steps: seq<Step>, id: Uuid, k: nat)
    requires 9 <= k < |FailureTimes(cfg, steps, id)|
    ensures FailureTimes(cfg, steps, id)[k] - FailureTimes(cfg, steps, id)[k - 1] >= 300
  {
    hide Next, FailureTimes;
    FailuresBackOff(cfg, steps, id, k);
    PowersGrow(9, k);
    NinthPower();
  }

  lemma NinthPower()
    ensures Power2(9) == 512
  {
    assert Power2(1) == 2 && Power2(2) == 4 && Power2(3) == 8 && Power2(4) == 16;
    assert Power2(5) == 32 && Power2(6) == 64 && Power2(7) == 128 && Power2(8) == 256;
  }

  lemma SevenBackoffs()
    ensures TotalBackoff(7) == 254
  {
    assert Power2(1) == 2 && Power2(2) == 4 && Power2(3) == 8 && Power2(4) == 16;
    assert Power2(5) == 32 && Power2(6) == 64 && Power2(7) == 128;
    assert TotalBackoff(1) == 2 && TotalBackoff(2) == 6 && TotalBackoff(3) == 14 && TotalBackoff(4) == 30;
    assert TotalBackoff(5) == 62 && TotalBackoff(6) == 126;
  }

  lemma {:induction false} PowersGrow(j: nat, k: nat)
    requires j <= k
    ensures Power2(j) <= Power2(k)
  {
    if j < k {
      PowersGrow(j, k - 1);
    }
  }
}
