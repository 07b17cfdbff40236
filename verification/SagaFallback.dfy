/**
 What the publisher commits when the acceptance recorder raises: the handoff is accepted even
 where its demo has moved on, so a completed handoff can fall back.
 */
module SagaFallback {
  import opened Identifiers
  import opened Lifecycle
  import opened Monetary
  import opened Store
  import opened Handlers
  import opened Frames
  import opened SagaInvariant
  import opened SagaPreservation
  import opened SagaHistory
  import opened SagaTheorems
  import opened SagaReplay
  import opened OutboxHistory
  import opened Database

  /** The acceptance would be logged a second time under the handoff's own key. */
  predicate AcceptanceClash(db: Db, o: Uuid)
    requires o in db.handoffs && o in db.orders && db.orders[o].demo in db.demos
  {
    db.demos[db.orders[o].demo].state == PAID && LogClash(db, db.orders[o].demo, AcceptedLogKey(db.handoffs[o].id))
  }

  predicate AcknowledgementDue(cfg: Config, db: Db, id: Uuid, o: Uuid, now: int) {
    && Eligible(cfg, db, id, now) && db.outbox[id].kind == OnboardingRequested && Open(db.outbox[id], id).Some?
    && o in db.handoffs && db.handoffs[o].tenant == db.outbox[id].tenant && db.handoffs[o].key == db.outbox[id].key
    && o in db.paid && o in db.orders && db.orders[o].demo in db.demos
    && !AcceptanceClash(db, o)
  }

  lemma AcknowledgementEffect(cfg: Config, db: Db, id: Uuid, o: Uuid, reply: Reply, newId: Uuid, now: int)
    requires Inv(cfg, db) && AcknowledgementDue(cfg, db, id, o, now)
    ensures
      var e := PublishEffect(cfg, db, id, Some(reply), newId, now);
      var state := db.demos[db.orders[o].demo].state;
      && !e.Violation? && (e.Done? <==> state == PAID || state == ONBOARDING_HANDOFF)
      && o in e.db.handoffs && e.db.handoffs[o].status == HandoffAccepted && e.db.outbox == db.outbox
  {
    hide Inv, LogClash, Move;
    var row := db.outbox[id];
    assert o in HandoffsByKey(db, row.tenant, row.key);
    OneByHandoffKey(cfg, db, row.tenant, row.key, o);
    var h := db.handoffs[o];
    HandoffMoveFrame(db, o, h.(status := HandoffAccepted, acknowledgement := Some(reply.reference), attempts := h.attempts + 1),
                     db.orders[o].demo, HANDOFF_ONBOARDING, ONBOARDING_HANDOFF, AcceptedLogKey(h.id));
  }

  /**
   An answered onboarding row is marked published exactly in the two states that may accept; in
   every other state it fails, and its handoff is set to accepted all the same.
   */
  lemma AcknowledgementIsCommitted(cfg: Config, db: Db, id: Uuid, o: Uuid, reply: Reply, newId: Uuid, now: int)
    requires Inv(cfg, db) && AcknowledgementDue(cfg, db, id, o, now)
    ensures
      var after := Publish(cfg, db, id, Some(reply), newId, now);
      var state := db.demos[db.orders[o].demo].state;
      && o in after.handoffs && after.handoffs[o].status == HandoffAccepted
      && id in after.outbox && (after.outbox[id].published <==> state == PAID || state == ONBOARDING_HANDOFF)
  {
    hide Inv, PublishEffect, LogClash, Backoff;
    AcknowledgementEffect(cfg, db, id, o, reply, newId, now);
  }

  /** So a late acknowledgement reopens the handoff of a converted demo, and completing it again raises. */
  lemma CompletedHandoffFallsBack(cfg: Config, db: Db, id: Uuid, o: Uuid, reply: Reply, newId: Uuid, now: int, meta: Envelope, user: Text)
    requires Inv(cfg, db) && AcknowledgementDue(cfg, db, id, o, now)
    requires db.handoffs[o].status == HandoffCompleted && db.demos[db.orders[o].demo].state == CONVERTED
    requires OnboardingContext(db, meta.tenant, db.orders[o].demo, user) == Some(o) && cfg.welcomeConfigured
    ensures CompleteOnboarding(cfg, db, meta, db.orders[o].demo, user, now) == Done(db)
    ensures
      var after := Publish(cfg, db, id, Some(reply), newId, now);
      o in after.handoffs && after.handoffs[o].status == HandoffAccepted
      && CompleteOnboarding(cfg, after, meta, db.orders[o].demo, user, now) == Raised(after)
  {
    hide Inv, PublishEffect, LogClash, Backoff, OnboardingContext;
    AcknowledgementIsCommitted(cfg, db, id, o, reply, newId, now);
    RaisedLeavesRest(cfg, db, id, o, reply, newId, now);
    SameContext(db, Publish(cfg, db, id, Some(reply), newId, now), meta.tenant, db.orders[o].demo, user);
  }

  lemma RaisedLeavesRest(cfg: Config, db: Db, id: Uuid, o: Uuid, reply: Reply, newId: Uuid, now: int)
    requires Inv(cfg, db) && AcknowledgementDue(cfg, db, id, o, now) && db.demos[db.orders[o].demo].state == CONVERTED
    ensures
      var after := Publish(cfg, db, id, Some(reply), newId, now);
      after.orders == db.orders && after.paid == db.paid && after.demos == db.demos && after.handoffs.Keys == db.handoffs.Keys
  {
    hide Inv, LogClash, Move, Backoff;
    var row := db.outbox[id];
    assert o in HandoffsByKey(db, row.tenant, row.key);
    OneByHandoffKey(cfg, db, row.tenant, row.key, o);
  }

  lemma SameContext(a: Db, b: Db, tenant: Text, demo: Uuid, user: Text)
    requires b.orders == a.orders && b.paid == a.paid && b.demos == a.demos && b.handoffs.Keys == a.handoffs.Keys
    ensures OnboardingContext(b, tenant, demo, user) == OnboardingContext(a, tenant, demo, user)
  {
    var orders := OrdersOfUser(a, tenant, demo, user);
    assert OrdersOfUser(b, tenant, demo, user) == orders;
    if |orders| == 1 {
      var o :| o in orders;
      OneOfUser(a, tenant, demo, user, orders, o);
      OneOfUser(b, tenant, demo, user, orders, o);
      assert o in b.handoffs.Keys <==> o in a.handoffs.Keys;
    }
  }

  // ---------------------------------------------------------------- what changes a handoff's status

  /**
   The step is an answered delivery of the handoff's own onboarding row, which is due, and the
   acceptance does not clash in the log.
   */
  predicate OwnRowAnswered(cfg: Config, db: Db, s: Step, o: Uuid) {
    && s.Deliver? && s.reply.Some? && Eligible(cfg, db, s.row, s.at)
    && o in db.handoffs && o in db.orders && db.orders[o].demo in db.demos
    && s.row == OnboardingEventId(db.handoffs[o].paidId)
    && !AcceptanceClash(db, o)
  }

  /** The demo of the handoff was converted at some time. */
  ghost predicate ConvertedOnce(db: Db, o: Uuid) {
    && o in db.handoffs && o in db.orders && db.orders[o].demo in db.log
    && Count(db.log[db.orders[o].demo], COMPLETE_ONBOARDING) >= 1
  }

  /** The handoff is there, with the status it had. */
  predicate SameStatus(a: Db, b: Db, o: Uuid) {
    o in a.handoffs && o in b.handoffs && b.handoffs[o].status == a.handoffs[o].status
  }

  lemma SameHandoffsSameStatus(a: Db, b: Db, o: Uuid)
    requires b.handoffs == a.handoffs && o in a.handoffs
    ensures SameStatus(a, b, o)
  {
  }

  /** A handoff's own row is the one onboarding row with its key, and its order and demo are stored. */
  lemma OwnRow(cfg: Config, db: Db, o: Uuid)
    requires Inv(cfg, db) && o in db.handoffs
    ensures o in db.paid && o in db.orders && db.orders[o].demo in db.demos
    ensures
      var id := OnboardingEventId(db.handoffs[o].paidId);
      && id in db.outbox && db.outbox[id].kind == OnboardingRequested && Open(db.outbox[id], id).Some?
      && db.outbox[id].tenant == db.handoffs[o].tenant && db.outbox[id].key == db.handoffs[o].key
  {
    hide Inv, NumericPlan, IsoCurrency;
    HandoffFacts(cfg, db, o);
    OrderFacts(cfg, db, o);
    RowFacts(cfg, db, OnboardingEventId(db.handoffs[o].paidId));
  }

  lemma OtherOnboardingRow(cfg: Config, db: Db, id: Uuid, o: Uuid)
    requires Inv(cfg, db) && o in db.handoffs && id in db.outbox && db.outbox[id].kind == OnboardingRequested
    requires db.outbox[id].key == db.handoffs[o].key
    ensures id == OnboardingEventId(db.handoffs[o].paidId)
  {
    hide Inv;
    HandoffFacts(cfg, db, o);
    RowFacts(cfg, db, id);
  }

  /** An acknowledgement under another row leaves the handoff's status. */
  lemma OtherAcknowledgement(cfg: Config, db: Db, id: Uuid, o: Uuid, reference: Text)
    requires Inv(cfg, db) && o in db.handoffs && id in db.outbox && db.outbox[id].kind == OnboardingRequested
    requires id != OnboardingEventId(db.handoffs[o].paidId)
    ensures
      var e := RecordAcceptance(db, db.outbox[id], reference);
      !e.Violation? ==> SameStatus(db, e.db, o)
  {
    hide Inv, LogClash, Move;
    var row := db.outbox[id];
    var e := RecordAcceptance(db, row, reference);
    if !e.Violation? && e.db != db {
      var x := Pick(HandoffsByKey(db, row.tenant, row.key)).value;
      if x == o {
        OtherOnboardingRow(cfg, db, id, o);
      }
      var h := db.handoffs[x];
      HandoffMoveFrame(db, x, h.(status := HandoffAccepted, acknowledgement := Some(reference), attempts := h.attempts + 1),
                       db.orders[x].demo, HANDOFF_ONBOARDING, ONBOARDING_HANDOFF, AcceptedLogKey(h.id));
    }
  }

  lemma QueueKeepsStatus(db: Db, row: OutboxRow, p: Payload, activation: Text, newId: Uuid, now: int, o: Uuid)
    requires o in db.handoffs
    ensures
      var e := QueueOnboarding(db, row, p, activation, newId, now);
      !e.Violation? ==> SameStatus(db, e.db, o)
  {
    hide HandoffQueued, OutboxClash, OnboardingRow;
  }

  lemma OtherRowKeepsStatus(cfg: Config, db: Db, id: Uuid, p: Payload, reply: Reply, newId: Uuid, now: int, o: Uuid)
    requires Inv(cfg, db) && o in db.handoffs && id in db.outbox && id != OnboardingEventId(db.handoffs[o].paidId)
    ensures
      var e := Record(cfg, db, id, db.outbox[id], p, reply, newId, now);
      !e.Violation? ==> SameStatus(db, e.db, o)
  {
    hide Inv, SameStatus, RecordQuote, RecordCashfree, QueueOnboarding, RecordAcceptance;
    var row := db.outbox[id];
    var e := Record(cfg, db, id, row, p, reply, newId, now);
    match row.kind
    case PlanQuoteRequested =>
      QuoteFrame(cfg, db, id, row, p, reply.details, now);
      if !e.Violation? { SameHandoffsSameStatus(db, e.db, o); }
    case CashfreeOrderRequested =>
      CashfreeRecorderFrame(db, id, row, p, reply.reference, reply.details, now);
      if !e.Violation? { SameHandoffsSameStatus(db, e.db, o); }
    case PaymentVerified => QueueKeepsStatus(db, row, p, reply.reference, newId, now, o);
    case OnboardingRequested => OtherAcknowledgement(cfg, db, id, o, reply.reference);
    case DeliveryRequested => SameHandoffsSameStatus(db, db, o);
  }

  lemma ClashedAcknowledgement(cfg: Config, db: Db, o: Uuid, reply: Reply, newId: Uuid, now: int)
    requires Inv(cfg, db) && o in db.handoffs && o in db.orders && db.orders[o].demo in db.demos && AcceptanceClash(db, o)
    requires OnboardingEventId(db.handoffs[o].paidId) in db.outbox
    ensures PublishEffect(cfg, db, OnboardingEventId(db.handoffs[o].paidId), Some(reply), newId, now).Violation?
  {
    hide Inv, LogClash, Move;
    OwnRow(cfg, db, o);
    var row := db.outbox[OnboardingEventId(db.handoffs[o].paidId)];
    assert o in HandoffsByKey(db, row.tenant, row.key);
    OneByHandoffKey(cfg, db, row.tenant, row.key, o);
  }

  lemma UnansweredStatus(cfg: Config, db: Db, s: Step, o: Uuid)
    requires Inv(cfg, db) && s.Deliver? && o in db.handoffs && !OwnRowAnswered(cfg, db, s, o)
    ensures SameStatus(db, Publish(cfg, db, s.row, s.reply, s.newId, s.at), o)
  {
    hide Inv, Record, MarkPublished, MarkFailed, AcceptanceClash, SameStatus, PublishEffect;
    OwnRow(cfg, db, o);
    SameHandoffsSameStatus(db, db, o);
    if Eligible(cfg, db, s.row, s.at) {
      UnansweredEffect(cfg, db, s, o);
      var e := PublishEffect(cfg, db, s.row, s.reply, s.newId, s.at);
      if !e.Violation? && s.row in e.db.outbox {
        MarksFrame(e.db, s.row, if s.reply.Some? then s.reply.value.reference else Str(""), s.at);
        StatusMarked(db, e.db, MarkFailed(e.db, s.row, s.at), o);
        if e.Done? {
          RaisedUnlessAnswered(cfg, db, s);
          StatusMarked(db, e.db, MarkPublished(e.db, s.row, s.reply.value.reference), o);
        }
      }
    }
  }

  lemma RaisedUnlessAnswered(cfg: Config, db: Db, s: Step)
    requires s.Deliver? && s.row in db.outbox && PublishEffect(cfg, db, s.row, s.reply, s.newId, s.at).Done?
    ensures s.reply.Some?
  {
    hide Record;
  }

  lemma StatusMarked(a: Db, b: Db, c: Db, o: Uuid)
    requires SameStatus(a, b, o) && c.handoffs == b.handoffs
    ensures SameStatus(a, c, o)
  {
  }

  lemma UnansweredEffect(cfg: Config, db: Db, s: Step, o: Uuid)
    requires Inv(cfg, db) && s.Deliver? && o in db.handoffs && !OwnRowAnswered(cfg, db, s, o) && Eligible(cfg, db, s.row, s.at)
    ensures
      var e := PublishEffect(cfg, db, s.row, s.reply, s.newId, s.at);
      !e.Violation? ==> SameStatus(db, e.db, o)
  {
    hide Inv, Record, AcceptanceClash;
    OwnRow(cfg, db, o);
    var p := Open(db.outbox[s.row], s.row);
    if p.Some? && s.reply.Some? {
      if s.row == OnboardingEventId(db.handoffs[o].paidId) {
        ClashedAcknowledgement(cfg, db, o, s.reply.value, s.newId, s.at);
      } else {
        OtherRowKeepsStatus(cfg, db, s.row, p.value, s.reply.value, s.newId, s.at, o);
      }
    }
  }

  lemma DeliveryStatus(cfg: Config, db: Db, s: Step, o: Uuid)
    requires Inv(cfg, db) && s.Deliver? && o in db.handoffs
    ensures
      var after := Next(cfg, db, s);
      && (OwnRowAnswered(cfg, db, s, o) ==> o in after.handoffs && after.handoffs[o].status == HandoffAccepted)
      && (!OwnRowAnswered(cfg, db, s, o) ==> SameStatus(db, after, o))
  {
    hide Inv, Publish, AcceptanceClash, SameStatus;
    OwnRow(cfg, db, o);
    if OwnRowAnswered(cfg, db, s, o) {
      AcknowledgementIsCommitted(cfg, db, s.row, o, s.reply.value, s.newId, s.at);
    } else {
      UnansweredStatus(cfg, db, s, o);
    }
  }

  /** Past its conversion a demo's onboarding events change no handoff's status. */
  lemma AcceptKeepsStatus(cfg: Config, db: Db, meta: Envelope, demo: Uuid, user: Text, onboarding: Text, o: Uuid)
    requires Inv(cfg, db) && ConvertedOnce(db, o)
    ensures
      var e := AcceptOnboarding(cfg, db, meta, demo, user, onboarding);
      e.Done? ==> SameStatus(db, e.db, o)
  {
    hide Inv, Count, OnboardingContext, LogClash, Move;
    ContextFacts(db, meta.tenant, demo, user);
    var c := OnboardingContext(db, meta.tenant, demo, user);
    if c.Some? {
      if c.value == o {
        ConvertedIsPast(cfg, db, meta.tenant, demo, user);
      }
      HandoffMoveFrame(db, c.value, db.handoffs[c.value].(status := HandoffAccepted, acknowledgement := Some(onboarding)),
                       demo, HANDOFF_ONBOARDING, ONBOARDING_HANDOFF, meta.key);
    }
  }

  lemma ConvertedIsPast(cfg: Config, db: Db, tenant: Text, demo: Uuid, user: Text)
    requires Inv(cfg, db) && demo in db.log && Count(db.log[demo], COMPLETE_ONBOARDING) >= 1
    requires OnboardingContext(db, tenant, demo, user).Some?
    ensures demo in db.demos && db.demos[demo].state != PAID && db.demos[demo].state != ONBOARDING_HANDOFF
  {
    hide Inv, Count, OnboardingContext, SagaSound;
    SameDemos(cfg, db);
    assert demo in db.demos.Keys;
    LogFacts(cfg, db, demo);
    SagaBudget(db.log[demo]);
    TracedIsPast(cfg, db, tenant, demo, user);
  }

  lemma CompleteKeepsStatus(cfg: Config, db: Db, meta: Envelope, demo: Uuid, user: Text, now: int, o: Uuid)
    requires Inv(cfg, db) && ConvertedOnce(db, o)
    ensures
      var e := CompleteOnboarding(cfg, db, meta, demo, user, now);
      e.Done? ==> SameStatus(db, e.db, o)
  {
    hide Inv, Count, OnboardingContext, LogClash, OutboxClash, MessageClash, ConvertedDb;
    ContextFacts(db, meta.tenant, demo, user);
    var c := OnboardingContext(db, meta.tenant, demo, user);
    if c.Some? {
      if c.value == o {
        ConvertedIsPast(cfg, db, meta.tenant, demo, user);
      }
      ConvertedHandoffs(db, meta, c.value, demo, now);
    }
  }

  lemma ConvertedHandoffs(db: Db, meta: Envelope, o: Uuid, demo: Uuid, now: int)
    requires o in db.handoffs && demo in db.demos
    ensures
      var h := db.handoffs[o];
      ConvertedDb(db, meta, o, demo, now).handoffs
      == db.handoffs[o := h.(status := HandoffCompleted, welcome := Some(WelcomeMessageId(h.id)))]
  {
    hide WelcomeRow;
  }

  lemma InboxStatus(cfg: Config, db: Db, event: InboxEvent, turn: Turn, newId: Uuid, now: int, o: Uuid)
    requires Inv(cfg, db) && ConvertedOnce(db, o)
    ensures SameStatus(db, HandleInbox(cfg, db, event, turn, newId, now), o)
  {
    hide Inv, Count, SameStatus, ProcessCashfree, AcceptOnboarding, CompleteOnboarding, StartDemo, EventClash;
    var after := HandleInbox(cfg, db, event, turn, newId, now);
    SameHandoffsSameStatus(db, db, o);
    match event
    case CashfreeWebhook(meta, body) =>
      CashfreeFrame(cfg, db, meta, body, newId, now);
      SameHandoffsSameStatus(db, after, o);
    case MetaWebhook(meta, payload) => SameHandoffsSameStatus(db, after, o);
    case OnboardingAccepted(meta, demo, user, onboarding) => AcceptKeepsStatus(cfg, db, meta, demo, user, onboarding, o);
    case OnboardingCompleted(meta, demo, user, onboarding) => CompleteKeepsStatus(cfg, db, meta, demo, user, now, o);
    case WhatsappHandoff(meta, sender, valid) =>
      TalkFrame(cfg, db, meta, sender, turn, now);
      SameHandoffsSameStatus(db, after, o);
    case UnsupportedEvent(_) =>
  }

  /** Once its demo was converted, a handoff's status changes only by the answer to its own row, to accepted. */
  lemma StatusAfterConversion(cfg: Config, db: Db, s: Step, o: Uuid)
    requires Inv(cfg, db) && ConvertedOnce(db, o)
    ensures
      var after := Next(cfg, db, s);
      && (OwnRowAnswered(cfg, db, s, o) ==> o in after.handoffs && after.handoffs[o].status == HandoffAccepted)
      && (!OwnRowAnswered(cfg, db, s, o) ==> SameStatus(db, after, o))
  {
    hide Inv, Count, SameStatus, RequestOrder, Publish, HandleInbox, ReserveOrder, RecordProviderFailure, ApplySnapshot, TakeEdge;
    match s
    case Deliver(_, _, _, _) => DeliveryStatus(cfg, db, s, o);
    case Inbox(event, turn, newId, at) => InboxStatus(cfg, db, event, turn, newId, at, o);
    case Request(tenant, command, correlation, at) =>
      RequestFrame(cfg, db, tenant, command, correlation, at);
      SameHandoffsSameStatus(db, Next(cfg, db, s), o);
    case OtherEdge(demo, command, after, key) =>
      EdgeFrame(db, demo, command, after, key);
      SameHandoffsSameStatus(db, Next(cfg, db, s), o);
    case _ =>
      ReconciliationFrame(cfg, db, s);
      SameHandoffsSameStatus(db, Next(cfg, db, s), o);
  }

  // ---------------------------------------------------------------- completed handoffs

  predicate Completed(db: Db, o: Uuid) { o in db.handoffs && db.handoffs[o].status == HandoffCompleted }

  /** A completed handoff's demo was converted: its log says so. */
  ghost predicate CompletedLogged(db: Db) {
    forall o :: Completed(db, o) ==> ConvertedOnce(db, o)
  }

  lemma ConvertedStays(a: Db, b: Db, o: Uuid)
    requires ConvertedOnce(a, o) && Kept(a, b) && o in b.handoffs
    ensures ConvertedOnce(b, o)
  {
    hide Count, RequestsKept, OutboxKept, EventsKept, AttemptsKept, PaidKept;
    CountGrows(a.log[a.orders[o].demo], b.log[a.orders[o].demo], COMPLETE_ONBOARDING);
  }

  /** A handoff that is newly completed is so by the completion that is logged with it. */
  lemma CompletionIsLogged(cfg: Config, db: Db, meta: Envelope, demo: Uuid, user: Text, now: int, o: Uuid)
    requires Inv(cfg, db)
    ensures
      var e := CompleteOnboarding(cfg, db, meta, demo, user, now);
      e.Done? && Completed(e.db, o) ==> Completed(db, o) || ConvertedOnce(e.db, o)
  {
    hide Inv, Count, OnboardingContext, LogClash, OutboxClash, MessageClash, ConvertedDb;
    ContextFacts(db, meta.tenant, demo, user);
    var e := CompleteOnboarding(cfg, db, meta, demo, user, now);
    if e.Done? && e.db != db {
      var c := OnboardingContext(db, meta.tenant, demo, user).value;
      ConvertedHandoffs(db, meta, c, demo, now);
      ConvertedLog(db, meta, c, demo, now);
      ConvertedFrame(db, meta, c, demo, now);
    }
  }

  lemma ConvertedLog(db: Db, meta: Envelope, o: Uuid, demo: Uuid, now: int)
    requires o in db.handoffs && demo in db.demos
    ensures
      var log := ConvertedDb(db, meta, o, demo, now).log;
      demo in log && Count(log[demo], COMPLETE_ONBOARDING) >= 1
  {
    hide WelcomeRow;
    CountAppend(LogOf(db, demo), LogEntry(db.demos[demo].state, COMPLETE_ONBOARDING, CONVERTED, meta.key), COMPLETE_ONBOARDING);
  }

  lemma AcceptCompletesNone(cfg: Config, db: Db, meta: Envelope, demo: Uuid, user: Text, onboarding: Text, o: Uuid)
    ensures
      var e := AcceptOnboarding(cfg, db, meta, demo, user, onboarding);
      e.Done? && Completed(e.db, o) ==> Completed(db, o)
  {
    hide OnboardingContext, LogClash, Move;
    ContextFacts(db, meta.tenant, demo, user);
    var c := OnboardingContext(db, meta.tenant, demo, user);
    if c.Some? {
      HandoffMoveFrame(db, c.value, db.handoffs[c.value].(status := HandoffAccepted, acknowledgement := Some(onboarding)),
                       demo, HANDOFF_ONBOARDING, ONBOARDING_HANDOFF, meta.key);
    }
  }

  lemma InboxCompletions(cfg: Config, db: Db, event: InboxEvent, turn: Turn, newId: Uuid, now: int, o: Uuid)
    requires Inv(cfg, db)
    ensures
      var after := HandleInbox(cfg, db, event, turn, newId, now);
      Completed(after, o) ==> Completed(db, o) || ConvertedOnce(after, o)
  {
    hide Inv, ConvertedOnce, ProcessCashfree, AcceptOnboarding, CompleteOnboarding, StartDemo, EventClash;
    match event
    case CashfreeWebhook(meta, body) => CashfreeFrame(cfg, db, meta, body, newId, now);
    case MetaWebhook(meta, payload) =>
    case OnboardingAccepted(meta, demo, user, onboarding) => AcceptCompletesNone(cfg, db, meta, demo, user, onboarding, o);
    case OnboardingCompleted(meta, demo, user, onboarding) => CompletionIsLogged(cfg, db, meta, demo, user, now, o);
    case WhatsappHandoff(meta, sender, valid) => TalkFrame(cfg, db, meta, sender, turn, now);
    case UnsupportedEvent(_) =>
  }

  lemma RecordCompletesNone(cfg: Config, db: Db, id: Uuid, row: OutboxRow, p: Payload, reply: Reply, newId: Uuid, now: int, o: Uuid)
    ensures
      var e := Record(cfg, db, id, row, p, reply, newId, now);
      !e.Violation? && Completed(e.db, o) ==> Completed(db, o)
  {
    hide RecordQuote, RecordCashfree, QueueOnboarding, RecordAcceptance;
    match row.kind
    case PlanQuoteRequested => QuoteFrame(cfg, db, id, row, p, reply.details, now);
    case CashfreeOrderRequested => CashfreeRecorderFrame(db, id, row, p, reply.reference, reply.details, now);
    case PaymentVerified => QueueCompletesNone(db, row, p, reply.reference, newId, now, o);
    case OnboardingRequested => AcceptanceCompletesNone(db, row, reply.reference, o);
    case DeliveryRequested =>
  }

  lemma QueueCompletesNone(db: Db, row: OutboxRow, p: Payload, activation: Text, newId: Uuid, now: int, o: Uuid)
    ensures
      var e := QueueOnboarding(db, row, p, activation, newId, now);
      !e.Violation? && Completed(e.db, o) ==> Completed(db, o)
  {
    hide HandoffQueued, OutboxClash, OnboardingRow;
  }

  lemma AcceptanceCompletesNone(db: Db, row: OutboxRow, reference: Text, o: Uuid)
    ensures
      var e := RecordAcceptance(db, row, reference);
      !e.Violation? && Completed(e.db, o) ==> Completed(db, o)
  {
    hide LogClash, Move;
    var e := RecordAcceptance(db, row, reference);
    if !e.Violation? && e.db != db {
      var x := Pick(HandoffsByKey(db, row.tenant, row.key)).value;
      var h := db.handoffs[x];
      HandoffMoveFrame(db, x, h.(status := HandoffAccepted, acknowledgement := Some(reference), attempts := h.attempts + 1),
                       db.orders[x].demo, HANDOFF_ONBOARDING, ONBOARDING_HANDOFF, AcceptedLogKey(h.id));
    }
  }

  lemma PublishCompletesNone(cfg: Config, db: Db, id: Uuid, reply: Option<Reply>, newId: Uuid, now: int, o: Uuid)
    ensures Completed(Publish(cfg, db, id, reply, newId, now), o) ==> Completed(db, o)
  {
    hide Record, MarkPublished, MarkFailed;
    if Eligible(cfg, db, id, now) {
      var p := Open(db.outbox[id], id);
      if p.Some? && reply.Some? {
        RecordCompletesNone(cfg, db, id, db.outbox[id], p.value, reply.value, newId, now, o);
      }
      var e := PublishEffect(cfg, db, id, reply, newId, now);
      if !e.Violation? && id in e.db.outbox {
        MarksFrame(e.db, id, if reply.Some? then reply.value.reference else Str(""), now);
      }
    }
  }

  lemma NextCompletions(cfg: Config, db: Db, s: Step, o: Uuid)
    requires Inv(cfg, db)
    ensures Completed(Next(cfg, db, s), o) ==> Completed(db, o) || ConvertedOnce(Next(cfg, db, s), o)
  {
    hide Inv, ConvertedOnce, RequestOrder, Publish, HandleInbox, ReserveOrder, RecordProviderFailure, ApplySnapshot, TakeEdge;
    match s
    case Request(tenant, command, correlation, at) => RequestFrame(cfg, db, tenant, command, correlation, at);
    case Deliver(row, reply, newId, at) => PublishCompletesNone(cfg, db, row, reply, newId, at, o);
    case Inbox(event, turn, newId, at) => InboxCompletions(cfg, db, event, turn, newId, at, o);
    case OtherEdge(demo, command, after, key) => EdgeFrame(db, demo, command, after, key);
    case _ => ReconciliationFrame(cfg, db, s);
  }

  lemma NextKeepsCompletedLogged(cfg: Config, db: Db, s: Step)
    requires Inv(cfg, db) && CompletedLogged(db)
    ensures CompletedLogged(Next(cfg, db, s))
  {
    hide Inv, ConvertedOnce, Next, Kept;
    SameDemos(cfg, db);
    NextKept(cfg, db, s);
    forall o | Completed(Next(cfg, db, s), o) ensures ConvertedOnce(Next(cfg, db, s), o) {
      NextCompletions(cfg, db, s, o);
      if Completed(db, o) {
        ConvertedStays(db, Next(cfg, db, s), o);
      }
    }
  }

  /** In every reachable database the demo of a completed handoff was converted. */
  lemma {:induction false} CompletedWasConverted(cfg: Config, steps: seq<Step>)
    ensures CompletedLogged(Exec(cfg, EMPTY, steps))
  {
    hide Inv, Next, ConvertedOnce;
    if steps != [] {
      var front := steps[..|steps| - 1];
      CompletedWasConverted(cfg, front);
      ReachableInv(cfg, front);
      NextKeepsCompletedLogged(cfg, Exec(cfg, EMPTY, front), steps[|steps| - 1]);
    }
  }

  /**
   A completed handoff of a reachable database is completed after the next step if and only if
   that step is not the answer to its own onboarding row while that row is still due.
   */
  lemma CompletedStaysIff(cfg: Config, steps: seq<Step>, s: Step, o: Uuid)
    requires Completed(Exec(cfg, EMPTY, steps), o)
    ensures
      var db := Exec(cfg, EMPTY, steps);
      && o in Next(cfg, db, s).handoffs
      && (Completed(Next(cfg, db, s), o) <==> !OwnRowAnswered(cfg, db, s, o))
      && (!Completed(Next(cfg, db, s), o) ==> Next(cfg, db, s).handoffs[o].status == HandoffAccepted)
  {
    hide Inv, Next, ConvertedOnce, OwnRowAnswered;
    ReachableInv(cfg, steps);
    CompletedWasConverted(cfg, steps);
    StatusAfterConversion(cfg, Exec(cfg, EMPTY, steps), s, o);
  }

  /** Some step of the run answers the handoff's own row while it is due. */
  ghost predicate AnsweredIn(cfg: Config, db: Db, later: seq<Step>, o: Uuid) {
    exists k :: 0 <= k < |later| && OwnRowAnswered(cfg, Exec(cfg, db, later[..k]), later[k], o)
  }

  lemma AnsweredInLonger(cfg: Config, db: Db, front: seq<Step>, s: Step, o: Uuid)
    ensures AnsweredIn(cfg, db, front + [s], o) <==> AnsweredIn(cfg, db, front, o) || OwnRowAnswered(cfg, Exec(cfg, db, front), s, o)
  {
    hide OwnRowAnswered, Exec;
    var all := front + [s];
    assert all[..|front|] == front && all[|front|] == s;
    forall k | 0 <= k < |front| ensures all[..k] == front[..k] && all[k] == front[k] {
    }
  }

  lemma {:induction false} RunOfConverted(cfg: Config, db: Db, later: seq<Step>, o: Uuid)
    requires Inv(cfg, db) && ConvertedOnce(db, o) && Completed(db, o)
    ensures
      var after := Exec(cfg, db, later);
      && Inv(cfg, after) && ConvertedOnce(after, o)
      && (Completed(after, o) <==> !AnsweredIn(cfg, db, later, o))
  {
    hide Inv, Next, ConvertedOnce, OwnRowAnswered, AnsweredIn, Kept;
    if later == [] {
      NoAnswerYet(cfg, db, o);
    } else {
      var front, s := later[..|later| - 1], later[|later| - 1];
      var middle := Exec(cfg, db, front);
      assert front + [s] == later;
      RunOfConverted(cfg, db, front, o);
      AnsweredInLonger(cfg, db, front, s, o);
      StatusAfterConversion(cfg, middle, s, o);
      NextKeepsInv(cfg, middle, s);
      SameDemos(cfg, middle);
      NextKept(cfg, middle, s);
      ConvertedStays(middle, Next(cfg, middle, s), o);
    }
  }

  lemma NoAnswerYet(cfg: Config, db: Db, o: Uuid)
    ensures !AnsweredIn(cfg, db, [], o)
  {
  }

  /**
   Over whole runs: a completed handoff is completed at the end if and only if no step on the way
   answered its own row while it was due.  Once fallen back it is never completed again.
   */
  lemma CompletedThroughRunIff(cfg: Config, steps: seq<Step>, later: seq<Step>, o: Uuid)
    requires Completed(Exec(cfg, EMPTY, steps), o)
    ensures
      var db := Exec(cfg, EMPTY, steps);
      Completed(Exec(cfg, db, later), o) <==> !AnsweredIn(cfg, db, later, o)
  {
    hide Inv, Next, ConvertedOnce, OwnRowAnswered, AnsweredIn;
    ReachableInv(cfg, steps);
    CompletedWasConverted(cfg, steps);
    RunOfConverted(cfg, Exec(cfg, EMPTY, steps), later, o);
  }
}
