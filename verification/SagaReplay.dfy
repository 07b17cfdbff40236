/**
 Running an inbox event again after it was once processed, at any later time.
 */
module SagaReplay {
  import opened Identifiers
  import opened Lifecycle
  import opened Monetary
  import opened PaymentVerification
  import opened Store
  import opened Handlers
  import opened Frames
  import opened SagaInvariant
  import opened SagaPreservation
  import opened SagaHistory
  import opened SagaTheorems

  // ---------------------------------------------------------------- counting in the log

  function At(s: DemoState, t: DemoState): nat { if s == t then 1 else 0 }

  /** Even off the table, handing off uses up a verification and completing uses up a handoff. */
  lemma {:induction false} SagaBudget(run: seq<LogEntry>)
    requires Chained(run) && StartsAtNew(run) && SagaSound(run)
    ensures Count(run, HANDOFF_ONBOARDING) + At(EndState(run), PAID) <= Count(run, VERIFY_PAYMENT)
    ensures Count(run, COMPLETE_ONBOARDING) + At(EndState(run), ONBOARDING_HANDOFF) <= Count(run, HANDOFF_ONBOARDING)
  {
    hide SagaEdge;
    if run != [] {
      var front, last := run[..|run| - 1], run[|run| - 1];
      SagaBudget(front);
      assert last.before == EndState(front);
      SagaEdgeBudget(last);
    }
  }

  lemma SagaEdgeBudget(e: LogEntry)
    requires SagaEdge(e)
    ensures e.command == HANDOFF_ONBOARDING ==> e.before == PAID && e.after == ONBOARDING_HANDOFF
    ensures e.command == COMPLETE_ONBOARDING ==> e.before == ONBOARDING_HANDOFF && e.after == CONVERTED
    ensures e.after == PAID ==> e.command == VERIFY_PAYMENT && e.before != PAID
    ensures e.after == ONBOARDING_HANDOFF ==> e.command == HANDOFF_ONBOARDING
  {
  }

  /**
   Whatever conversations do to the table: every order was requested once and every paid
   transition verified once, and handoffs and completions in the log never outnumber them.
   */
  lemma CountsHoldOffTheTable(cfg: Config, steps: seq<Step>, d: Uuid)
    requires d in Exec(cfg, EMPTY, steps).demos
    ensures
      var db := Exec(cfg, EMPTY, steps);
      var run := LogOf(db, d);
      && Count(run, COMPLETE_ONBOARDING) <= Count(run, HANDOFF_ONBOARDING) <= Count(run, VERIFY_PAYMENT)
      && Count(run, VERIFY_PAYMENT) == |PaidOrdersOf(db.orders, db.paid, d)|
      && |PaidOrdersOf(db.orders, db.paid, d)| <= |OrdersOf(db.orders, d)| == Count(run, REQUEST_PAYMENT)
  {
    hide Inv, Next, Count, SagaSound, PaidOrdersOf, OrdersOf;
    var db := Exec(cfg, EMPTY, steps);
    ReachableInv(cfg, steps);
    LogFacts(cfg, db, d);
    CountFacts(cfg, db, d);
    SagaBudget(db.log[d]);
    PaidOrdersAreOrders(db, d);
    SmallerSet(PaidOrdersOf(db.orders, db.paid, d), OrdersOf(db.orders, d));
  }

  /** A state the saga pays for is only entered by its command. */
  lemma {:induction false} EnteredByCommand(run: seq<LogEntry>)
    requires SagaSound(run)
    ensures EndState(run) == ONBOARDING_HANDOFF ==> Count(run, HANDOFF_ONBOARDING) >= 1
    ensures EndState(run) == CONVERTED ==> Count(run, COMPLETE_ONBOARDING) >= 1
  {
    if run != [] {
      assert SagaEdge(run[|run| - 1]);
    }
  }

  lemma {:induction false} CountGrows(a: seq<LogEntry>, b: seq<LogEntry>, command: Command)
    requires a <= b
    ensures Count(a, command) <= Count(b, command)
  {
    if |b| > |a| {
      CountGrows(a, b[..|b| - 1], command);
    } else {
      assert a == b;
    }
  }

  /** Two verifications mean two orders, and then no onboarding event finds its order. */
  lemma TwoOrdersNoContext(cfg: Config, db: Db, tenant: Text, demo: Uuid, user: Text)
    requires Inv(cfg, db) && demo in db.demos && demo in db.log && Count(db.log[demo], VERIFY_PAYMENT) >= 2
    ensures OnboardingContext(db, tenant, demo, user).None?
  {
    hide Inv, Count, PaidOrdersOf;
    PaidOrdersAreOrders(db, demo);
    CountFacts(cfg, db, demo);
    var ofUser, all := OrdersOfUser(db, tenant, demo, user), OrdersOf(db.orders, demo);
    SmallerSet(PaidOrdersOf(db.orders, db.paid, demo), all);
    forall o | o in db.orders && db.orders[o].demo == demo
      ensures db.orders[o].tenant == db.demos[demo].tenant && db.demos[demo].user == Some(db.orders[o].user)
    {
      OrderOwner(cfg, db, o);
    }
    if db.demos[demo].tenant == tenant && db.demos[demo].user == Some(user) {
      assert ofUser == all;
    } else {
      assert ofUser == {};
    }
  }

  lemma PaidOrdersAreOrders(db: Db, demo: Uuid)
    ensures PaidOrdersOf(db.orders, db.paid, demo) <= OrdersOf(db.orders, demo)
  {
  }

  lemma OrderOwner(cfg: Config, db: Db, o: Uuid)
    requires Inv(cfg, db) && o in db.orders && db.orders[o].demo in db.demos
    ensures db.orders[o].tenant == db.demos[db.orders[o].demo].tenant
    ensures db.demos[db.orders[o].demo].user == Some(db.orders[o].user)
  {
    hide Inv, NumericPlan, IsoCurrency;
    OrderFacts(cfg, db, o);
  }

  lemma SmallerSet(a: set<Uuid>, b: set<Uuid>)
    requires a <= b
    ensures |a| <= |b|
  {
    assert b == a + (b - a);
  }

  // ---------------------------------------------------------------- what a processed event leaves

  /** A trace of a processed event that no later step removes. */
  ghost predicate Trace(db: Db, event: InboxEvent) {
    match event
    case CashfreeWebhook(meta, _) => (FromCashfree, meta.id) in db.events
    case MetaWebhook(meta, _) => (ProviderOf(meta), meta.id) in db.events
    case OnboardingAccepted(_, demo, _, _) => demo in db.log && Count(db.log[demo], HANDOFF_ONBOARDING) >= 1
    case OnboardingCompleted(_, demo, _, _) => demo in db.log && Count(db.log[demo], COMPLETE_ONBOARDING) >= 1
    case WhatsappHandoff(meta, _, _) => ReplyEventId(meta.id) in db.outbox
    case UnsupportedEvent(_) => true
  }

  lemma TraceStays(a: Db, b: Db, event: InboxEvent)
    requires Trace(a, event) && Kept(a, b)
    ensures Trace(b, event)
  {
    hide Count, OrdersKept, RequestsKept, AttemptsKept, PaidKept;
    match event
    case OnboardingAccepted(_, demo, _, _) => CountGrows(a.log[demo], b.log[demo], HANDOFF_ONBOARDING);
    case OnboardingCompleted(_, demo, _, _) => CountGrows(a.log[demo], b.log[demo], COMPLETE_ONBOARDING);
    case _ =>
  }

  lemma AcceptEndsHandedOff(cfg: Config, db: Db, meta: Envelope, demo: Uuid, user: Text, onboarding: Text)
    ensures
      var e := AcceptOnboarding(cfg, db, meta, demo, user, onboarding);
      e.Done? ==> demo in e.db.demos && e.db.demos[demo].state == ONBOARDING_HANDOFF
  {
    hide LogClash, OnboardingContext, SetHandoff, Move;
    ContextFacts(db, meta.tenant, demo, user);
    var c := OnboardingContext(db, meta.tenant, demo, user);
    if c.Some? {
      var h := db.handoffs[c.value].(status := HandoffAccepted, acknowledgement := Some(onboarding));
      MovedHandoff(db, c.value, h, demo, HANDOFF_ONBOARDING, ONBOARDING_HANDOFF, meta.key);
    }
  }

  lemma MovedHandoff(db: Db, o: Uuid, h: Handoff, demo: Uuid, command: Command, after: DemoState, key: Text)
    requires demo in db.demos
    ensures SetHandoff(db, o, h).demos == db.demos
    ensures
      var moved := Move(SetHandoff(db, o, h), demo, command, after, key);
      demo in moved.demos && moved.demos[demo].state == after
  {
  }

  lemma CompleteEndsConverted(cfg: Config, db: Db, meta: Envelope, demo: Uuid, user: Text, now: int)
    ensures
      var e := CompleteOnboarding(cfg, db, meta, demo, user, now);
      e.Done? ==> demo in e.db.demos && e.db.demos[demo].state == CONVERTED
  {
    hide LogClash, OutboxClash, MessageClash, OnboardingContext, WelcomeRow;
    ContextFacts(db, meta.tenant, demo, user);
  }

  lemma TalkLeavesReply(cfg: Config, db: Db, meta: Envelope, sender: Option<Text>, turn: Turn, now: int)
    requires Inv(cfg, db)
    ensures
      var e := StartDemo(cfg, db, meta, sender, turn, now);
      e.Done? ==> ReplyEventId(meta.id) in e.db.outbox
  {
    hide Core, Advance, ContinueDemo, SetStep;
    if (meta.tenant, meta.conversation) in db.conversations {
      ContinueLeavesReply(cfg, db, meta, turn, now);
    } else {
      var demo := DemoIdOf(meta.id);
      var db1 := db.(demos := db.demos[demo := Demo(meta.tenant, sender, meta.conversation, QUALIFYING, 1)],
                     log := db.log[demo := [LogEntry(NEW, START_QUALIFICATION, QUALIFYING, meta.key)]]);
      AdvanceLeavesReply(cfg, SetStep(db1, meta, demo, Collecting), meta, demo, Collecting, turn, now);
    }
  }

  /** A reply is queued by every message that finishes, and only where none was queued for it before. */
  lemma AddReplyOnce(db: Db, e: Effect, meta: Envelope, demo: Uuid, now: int)
    requires e.Done? ==> e.db.outbox == db.outbox
    ensures
      var r := AddReply(e, meta, demo, now);
      r.Done? ==> ReplyEventId(meta.id) in r.db.outbox && ReplyEventId(meta.id) !in db.outbox
  {
  }

  lemma AdvanceLeavesReply(cfg: Config, db: Db, meta: Envelope, demo: Uuid, step: ConversationStep, turn: Turn, now: int)
    ensures
      var r := Advance(cfg, db, meta, demo, step, turn, now);
      r.Done? ==> ReplyEventId(meta.id) in r.db.outbox && ReplyEventId(meta.id) !in db.outbox
  {
    hide TransitionDemo, Shortlist, AddReply;
    TransitionFrame(db, meta, demo, ESCALATE_HUMAN, HUMAN_HANDOFF);
    ShortlistFrame(db, meta, demo);
    AddReplyOnce(db, Done(db), meta, demo, now);
    AddReplyOnce(db, TransitionDemo(db, meta, demo, ESCALATE_HUMAN, HUMAN_HANDOFF), meta, demo, now);
    AddReplyOnce(db, Shortlist(db, meta, demo), meta, demo, now);
  }

  lemma AcceptTutorLeavesReply(db: Db, meta: Envelope, demo: Uuid, now: int)
    ensures
      var r := AcceptTutor(db, meta, demo, now);
      r.Done? ==> ReplyEventId(meta.id) in r.db.outbox && ReplyEventId(meta.id) !in db.outbox
  {
    hide TransitionDemo, AddReply, SetStep;
    var db1 := SetStep(db, meta, demo, AwaitingTutor);
    StepFrame(db, meta, demo, AwaitingTutor);
    TransitionFrame(db1, meta, demo, ACCEPT_SHORTLIST, SLOT_NEGOTIATING);
    AddReplyOnce(db, TransitionDemo(db1, meta, demo, ACCEPT_SHORTLIST, SLOT_NEGOTIATING), meta, demo, now);
  }

  lemma ContinueLeavesReply(cfg: Config, db: Db, meta: Envelope, turn: Turn, now: int)
    requires (meta.tenant, meta.conversation) in db.conversations
    ensures
      var r := ContinueDemo(cfg, db, meta, turn, now);
      r.Done? ==> ReplyEventId(meta.id) in r.db.outbox && ReplyEventId(meta.id) !in db.outbox
  {
    hide AcceptTutor, Advance, StepAfter, SetStep;
    var c := db.conversations[(meta.tenant, meta.conversation)];
    AcceptTutorLeavesReply(db, meta, c.demo, now);
    StepFrame(db, meta, c.demo, StepAfter(c, turn));
    AdvanceLeavesReply(cfg, SetStep(db, meta, c.demo, StepAfter(c, turn)), meta, c.demo, StepAfter(c, turn), turn, now);
  }

  lemma CashfreeLeavesEvent(cfg: Config, db: Db, meta: Envelope, b: CashfreeBody, newId: Uuid, now: int)
    ensures
      var e := ProcessCashfree(cfg, db, meta, b, newId, now);
      e.Done? ==> (FromCashfree, meta.id) in e.db.events && (FromCashfree, meta.id) !in db.events
  {
    hide ParseWebhook, Mismatches, WebhookBinding, WebhookEvidence, MakeMoney, ApplyPaid, StatusAfter, SetOrder;
    var e := ProcessCashfree(cfg, db, meta, b, newId, now);
    if e.Done? {
      var w := ParseWebhook(b).value;
      var o := Pick(OrdersByDomainId(db, w.orderId)).value;
      var decision := Decide(cfg, db, meta, b, o, now).value;
      var attempt := Attempt(o, meta.id, w.status, b.amountMinor.value, w.currency, meta.occurredAt);
      var db1 := RecordAttempt(RecordEvent(db, FromCashfree, meta.id, CashfreePayload(b), Some(decision.kind)), w.paymentId, attempt);
      SetOrderFrame(db1, o, db.orders[o].(status := StatusAfter(decision.kind, db.orders[o].status)));
      if decision.kind == TransitionPaid {
        PaidFrame(db1, meta, o, w.paymentId, decision.activationKey.value, decision.outboxKey.value, newId, now);
      }
    }
  }

  lemma DoneLeavesTrace(cfg: Config, db: Db, event: InboxEvent, turn: Turn, newId: Uuid, now: int)
    requires Inv(cfg, db)
    ensures
      var e := Handle(cfg, db, event, turn, newId, now);
      e.Done? ==> Trace(e.db, event)
  {
    hide Inv, ProcessCashfree, AcceptOnboarding, CompleteOnboarding, StartDemo, Count;
    var e := Handle(cfg, db, event, turn, newId, now);
    HandleKeepsInv(cfg, db, event, turn, newId, now);
    match event
    case CashfreeWebhook(meta, body) => CashfreeLeavesEvent(cfg, db, meta, body, newId, now);
    case MetaWebhook(meta, payload) =>
    case OnboardingAccepted(meta, demo, user, onboarding) =>
      AcceptEndsHandedOff(cfg, db, meta, demo, user, onboarding);
      if e.Done? { ReachedInLog(cfg, e.db, demo); }
    case OnboardingCompleted(meta, demo, user, onboarding) =>
      CompleteEndsConverted(cfg, db, meta, demo, user, now);
      if e.Done? { ReachedInLog(cfg, e.db, demo); }
    case WhatsappHandoff(meta, sender, valid) => TalkLeavesReply(cfg, db, meta, sender, turn, now);
    case UnsupportedEvent(_) =>
  }

  lemma ReachedInLog(cfg: Config, db: Db, d: Uuid)
    requires Inv(cfg, db) && d in db.demos
    ensures d in db.log
    ensures db.demos[d].state == ONBOARDING_HANDOFF ==> Count(db.log[d], HANDOFF_ONBOARDING) >= 1
    ensures db.demos[d].state == CONVERTED ==> Count(db.log[d], COMPLETE_ONBOARDING) >= 1
  {
    hide Inv, Count, SagaSound;
    LogFacts(cfg, db, d);
    EnteredByCommand(db.log[d]);
  }

  // ---------------------------------------------------------------- processing it again

  /** An onboarding event whose trace is in the log finds its demo past the state it would move. */
  lemma TracedIsPast(cfg: Config, db: Db, tenant: Text, demo: Uuid, user: Text)
    requires Inv(cfg, db) && demo in db.log && OnboardingContext(db, tenant, demo, user).Some?
    ensures demo in db.demos
    ensures Count(db.log[demo], HANDOFF_ONBOARDING) >= 1 ==> db.demos[demo].state != PAID
    ensures Count(db.log[demo], COMPLETE_ONBOARDING) >= 1 ==> db.demos[demo].state != ONBOARDING_HANDOFF
  {
    hide Inv, Count, OnboardingContext, SagaSound;
    SameDemos(cfg, db);
    assert demo in db.demos.Keys;
    LogFacts(cfg, db, demo);
    SagaBudget(db.log[demo]);
    if Count(db.log[demo], VERIFY_PAYMENT) >= 2 {
      TwoOrdersNoContext(cfg, db, tenant, demo, user);
    }
  }

  /** No handoff changed, or one did: it is accepted, with a new acknowledgement. */
  predicate Reaccepted(a: map<Uuid, Handoff>, b: map<Uuid, Handoff>) {
    b == a
    || exists o :: o in a && o in b
         && b == a[o := a[o].(status := HandoffAccepted, acknowledgement := b[o].acknowledgement)]
  }

  /**
   All that running a processed event again may still write: an acceptance, the status and the
   acknowledgement of one handoff; every other event nothing.
   */
  predicate Inert(db: Db, event: InboxEvent, e: Effect) {
    e.Done? ==>
      if event.OnboardingAccepted? then e.db == db.(handoffs := e.db.handoffs) && Reaccepted(db.handoffs, e.db.handoffs)
      else e.db == db
  }

  lemma AcceptAgain(cfg: Config, db: Db, meta: Envelope, demo: Uuid, user: Text, onboarding: Text)
    requires Inv(cfg, db) && demo in db.log && Count(db.log[demo], HANDOFF_ONBOARDING) >= 1
    ensures
      var e := AcceptOnboarding(cfg, db, meta, demo, user, onboarding);
      e.Done? ==> e.db == db.(handoffs := e.db.handoffs) && Reaccepted(db.handoffs, e.db.handoffs)
  {
    hide Inv, Count, OnboardingContext, LogClash, Move;
    ContextFacts(db, meta.tenant, demo, user);
    if OnboardingContext(db, meta.tenant, demo, user).Some? {
      TracedIsPast(cfg, db, meta.tenant, demo, user);
      var o := OnboardingContext(db, meta.tenant, demo, user).value;
      AcceptedAgain(db.handoffs, o, onboarding);
    }
  }

  lemma AcceptedAgain(handoffs: map<Uuid, Handoff>, o: Uuid, onboarding: Text)
    requires o in handoffs
    ensures Reaccepted(handoffs, handoffs[o := handoffs[o].(status := HandoffAccepted, acknowledgement := Some(onboarding))])
  {
    var after := handoffs[o := handoffs[o].(status := HandoffAccepted, acknowledgement := Some(onboarding))];
    assert o in after && after[o].acknowledgement == Some(onboarding);
  }

  lemma CompleteAgain(cfg: Config, db: Db, meta: Envelope, demo: Uuid, user: Text, now: int)
    requires Inv(cfg, db) && demo in db.log && Count(db.log[demo], COMPLETE_ONBOARDING) >= 1
    ensures
      var e := CompleteOnboarding(cfg, db, meta, demo, user, now);
      e.Done? ==> e.db == db
  {
    hide Inv, Count, OnboardingContext, LogClash, OutboxClash, MessageClash, ConvertedDb;
    ContextFacts(db, meta.tenant, demo, user);
    if OnboardingContext(db, meta.tenant, demo, user).Some? {
      TracedIsPast(cfg, db, meta.tenant, demo, user);
    }
  }

  lemma TalkAgain(cfg: Config, db: Db, meta: Envelope, sender: Option<Text>, turn: Turn, now: int)
    requires ReplyEventId(meta.id) in db.outbox
    ensures
      var e := StartDemo(cfg, db, meta, sender, turn, now);
      e.Done? ==> e.db == db
  {
    hide Advance, ContinueDemo, SetStep;
    if (meta.tenant, meta.conversation) in db.conversations {
      ContinueLeavesReply(cfg, db, meta, turn, now);
    } else {
      var demo := DemoIdOf(meta.id);
      var db1 := db.(demos := db.demos[demo := Demo(meta.tenant, sender, meta.conversation, QUALIFYING, 1)],
                     log := db.log[demo := [LogEntry(NEW, START_QUALIFICATION, QUALIFYING, meta.key)]]);
      StepFrame(db1, meta, demo, Collecting);
      AdvanceLeavesReply(cfg, SetStep(db1, meta, demo, Collecting), meta, demo, Collecting, turn, now);
    }
  }

  lemma TracedIsInert(cfg: Config, db: Db, event: InboxEvent, turn: Turn, newId: Uuid, now: int)
    requires Inv(cfg, db) && Trace(db, event)
    ensures Inert(db, event, Handle(cfg, db, event, turn, newId, now))
  {
    hide Inv, ProcessCashfree, AcceptOnboarding, CompleteOnboarding, StartDemo, Count, Reaccepted;
    match event
    case CashfreeWebhook(meta, body) => CashfreeLeavesEvent(cfg, db, meta, body, newId, now);
    case MetaWebhook(meta, payload) =>
    case OnboardingAccepted(meta, demo, user, onboarding) => AcceptAgain(cfg, db, meta, demo, user, onboarding);
    case OnboardingCompleted(meta, demo, user, onboarding) => CompleteAgain(cfg, db, meta, demo, user, now);
    case WhatsappHandoff(meta, sender, valid) => TalkAgain(cfg, db, meta, sender, turn, now);
    case UnsupportedEvent(_) =>
  }

  /**
   Replaying an event that was once processed, whatever happened since and whatever it finds this
   time, changes nothing: no paid transition, log entry, outbox row, order, provider event or
   attempt is added and no demo moves.  Only an acceptance may accept one handoff again.
   */
  lemma ReplayIsInert(cfg: Config, steps: seq<Step>, event: InboxEvent, turn: Turn, newId: Uuid, at: int,
                      later: seq<Step>, turn2: Turn, newId2: Uuid, at2: int)
    requires Handle(cfg, Exec(cfg, EMPTY, steps), event, turn, newId, at).Done?
    ensures
      var db := Exec(cfg, HandleInbox(cfg, Exec(cfg, EMPTY, steps), event, turn, newId, at), later);
      var again := HandleInbox(cfg, db, event, turn2, newId2, at2);
      if event.OnboardingAccepted? then again == db.(handoffs := again.handoffs) && Reaccepted(db.handoffs, again.handoffs)
      else again == db
  {
    hide Inv, Next, Handle, Trace, Kept, Reaccepted;
    var db0 := Exec(cfg, EMPTY, steps);
    var db1 := HandleInbox(cfg, db0, event, turn, newId, at);
    ReachableInv(cfg, steps);
    HandleKeepsInv(cfg, db0, event, turn, newId, at);
    DoneLeavesTrace(cfg, db0, event, turn, newId, at);
    RunKept(cfg, db1, later);
    TraceStays(db1, Exec(cfg, db1, later), event);
    TracedIsInert(cfg, Exec(cfg, db1, later), event, turn2, newId2, at2);
    NothingReaccepted(Exec(cfg, db1, later).handoffs);
  }

  lemma NothingReaccepted(handoffs: map<Uuid, Handoff>)
    ensures Reaccepted(handoffs, handoffs)
  {
  }
}
