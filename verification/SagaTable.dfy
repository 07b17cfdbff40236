/**
 Which writers keep to the lifecycle table.  The saga's own writers always do; the
 conversational ones never look at the table, and keep to it exactly under a guard.
 */
module SagaTable {
  import opened Identifiers
  import opened Lifecycle
  import opened Monetary
  import opened PaymentVerification
  import opened Store
  import opened Handlers
  import opened Frames
  import opened SagaInvariant
  import opened SagaPreservation
  import opened SagaTheorems

  ghost predicate AllOnTable(log: map<Uuid, seq<LogEntry>>) {
    forall d :: d in log ==> OnTable(log[d])
  }

  lemma OnTableAppend(run: seq<LogEntry>, e: LogEntry)
    ensures OnTable(run + [e]) <==> OnTable(run) && Registered(e)
  {
    hide Registered;
    if OnTable(run + [e]) {
      assert Registered((run + [e])[|run|]);
      forall i | 0 <= i < |run| ensures Registered(run[i]) {
        assert Registered((run + [e])[i]);
      }
    }
  }

  lemma NothingOffTable()
    ensures OnTable([])
  {
  }

  /** A move stays on the table exactly when its edge is registered. */
  lemma MoveOnTable(db: Db, demo: Uuid, command: Command, after: DemoState, key: Text)
    requires demo in db.demos && AllOnTable(db.log)
    ensures AllOnTable(Move(db, demo, command, after, key).log)
      <==> Registered(LogEntry(db.demos[demo].state, command, after, key))
  {
    hide Registered, OnTable;
    var moved := Move(db, demo, command, after, key).log;
    OnTableAppend(LogOf(db, demo), LogEntry(db.demos[demo].state, command, after, key));
    NothingOffTable();
    assert demo in moved;
  }

  // ---------------------------------------------------------------- the saga's writers

  lemma OrderedLog(db: Db, row: OutboxRow, p: Payload, order: Order, q: Quote, now: int)
    requires p.QuotePayload? && p.demo in db.demos
    ensures OrderedDb(db, row, p, order, q, now).log == Move(db, p.demo, REQUEST_PAYMENT, PAYMENT_PENDING, RequestLogKey(p.request)).log
  {
    hide CashfreeRow;
  }

  lemma QuoteOnTable(cfg: Config, db: Db, id: Uuid, row: OutboxRow, p: Payload, d: Details, now: int)
    requires AllOnTable(db.log)
    ensures
      var e := RecordQuote(cfg, db, id, row, p, d, now);
      !e.Violation? ==> AllOnTable(e.db.log)
  {
    hide AllOnTable, LogClash, OutboxClash, OrderClash, OrdersByCreationKey, ValidQuote, QuoteBound, MatchesExisting, NewOrder, OrderedDb, Move, E164;
    var e := RecordQuote(cfg, db, id, row, p, d, now);
    if e.Done? && e.db != db {
      OrderedLog(db, row, p, NewOrder(cfg, row, p, d.quote, now), d.quote, now);
      MoveOnTable(db, p.demo, REQUEST_PAYMENT, PAYMENT_PENDING, RequestLogKey(p.request));
    }
  }

  lemma HandoffMoveOnTable(db: Db, o: Uuid, h: Handoff, demo: Uuid, key: Text)
    requires AllOnTable(db.log) && demo in db.demos
    ensures AllOnTable(SetHandoff(db, o, h).log) && SetHandoff(db, o, h).demos == db.demos
    ensures db.demos[demo].state == PAID ==>
      AllOnTable(Move(SetHandoff(db, o, h), demo, HANDOFF_ONBOARDING, ONBOARDING_HANDOFF, key).log)
  {
    hide AllOnTable;
    MoveOnTable(SetHandoff(db, o, h), demo, HANDOFF_ONBOARDING, ONBOARDING_HANDOFF, key);
  }

  lemma AcceptanceOnTable(db: Db, row: OutboxRow, reference: Text)
    requires AllOnTable(db.log)
    ensures
      var e := RecordAcceptance(db, row, reference);
      !e.Violation? ==> AllOnTable(e.db.log)
  {
    hide AllOnTable, LogClash, SetHandoff, Move;
    var e := RecordAcceptance(db, row, reference);
    if !e.Violation? && e.db != db {
      var o := Pick(HandoffsByKey(db, row.tenant, row.key)).value;
      var h := db.handoffs[o];
      HandoffMoveOnTable(db, o, h.(status := HandoffAccepted, acknowledgement := Some(reference), attempts := h.attempts + 1),
                         db.orders[o].demo, AcceptedLogKey(h.id));
    }
  }

  lemma AcceptOnTable(cfg: Config, db: Db, meta: Envelope, demo: Uuid, user: Text, onboarding: Text)
    requires AllOnTable(db.log)
    ensures
      var e := AcceptOnboarding(cfg, db, meta, demo, user, onboarding);
      e.Done? ==> AllOnTable(e.db.log)
  {
    hide AllOnTable, LogClash, OnboardingContext, SetHandoff, Move;
    ContextFacts(db, meta.tenant, demo, user);
    var c := OnboardingContext(db, meta.tenant, demo, user);
    if c.Some? {
      HandoffMoveOnTable(db, c.value, db.handoffs[c.value].(status := HandoffAccepted, acknowledgement := Some(onboarding)), demo, meta.key);
    }
  }

  lemma CompleteOnTable(cfg: Config, db: Db, meta: Envelope, demo: Uuid, user: Text, now: int)
    requires AllOnTable(db.log)
    ensures
      var e := CompleteOnboarding(cfg, db, meta, demo, user, now);
      e.Done? ==> AllOnTable(e.db.log)
  {
    hide AllOnTable, LogClash, OutboxClash, MessageClash, OnboardingContext, WelcomeRow, Move, SetHandoff;
    ContextFacts(db, meta.tenant, demo, user);
    var e := CompleteOnboarding(cfg, db, meta, demo, user, now);
    if e.Done? && e.db != db {
      var o := OnboardingContext(db, meta.tenant, demo, user).value;
      var h := db.handoffs[o];
      var completed := h.(status := HandoffCompleted, welcome := Some(WelcomeMessageId(h.id)));
      HandoffMoveOnTable(db, o, completed, demo, meta.key);
      var db1 := SetHandoff(db, o, completed);
      var db2 := db1.(messages := db1.messages[WelcomeMessageId(h.id) := Message(meta.tenant, WelcomeKey(h.id), demo)]);
      MoveOnTable(db2, demo, COMPLETE_ONBOARDING, CONVERTED, meta.key);
    }
  }

  lemma PayableEdge(s: DemoState, key: Text)
    requires Payable(s)
    ensures Registered(LogEntry(s, VERIFY_PAYMENT, PAID, key))
  {
  }

  lemma ApplyPaidOnTable(db: Db, meta: Envelope, o: Uuid, paymentId: Text, activationKey: Text, outboxKey: Text, newId: Uuid, now: int)
    requires o in db.orders && db.orders[o].providerId.Some? && AllOnTable(db.log)
    ensures
      var e := ApplyPaid(db, meta, o, paymentId, activationKey, outboxKey, newId, now);
      e.Done? ==> AllOnTable(e.db.log)
  {
    hide AllOnTable, LogClash, OutboxClash, PaidClash, ParsePlan, VerifiedRow, Move, SetOrder, Payable, Registered;
    var order := db.orders[o];
    if order.demo !in db.demos || !Payable(db.demos[order.demo].state) {
      SetOrderFrame(db, o, order.(status := UnderReview));
    } else {
      var settled := order.(status := Settled, paidAt := Some(meta.occurredAt), version := order.version + 1);
      SetOrderFrame(db, o, settled);
      PayableEdge(db.demos[order.demo].state, meta.key);
      MoveOnTable(SetOrder(db, o, settled), order.demo, VERIFY_PAYMENT, PAID, meta.key);
    }
  }

  lemma CashfreeOnTable(cfg: Config, db: Db, meta: Envelope, b: CashfreeBody, newId: Uuid, now: int)
    requires AllOnTable(db.log)
    ensures
      var e := ProcessCashfree(cfg, db, meta, b, newId, now);
      e.Done? ==> AllOnTable(e.db.log)
  {
    hide AllOnTable, EventClash, ParseWebhook, Mismatches, WebhookBinding, WebhookEvidence, MakeMoney, ApplyPaid, StatusAfter, Move;
    var e := ProcessCashfree(cfg, db, meta, b, newId, now);
    if e.Done? {
      var w := ParseWebhook(b).value;
      var o := Pick(OrdersByDomainId(db, w.orderId)).value;
      var decision := Decide(cfg, db, meta, b, o, now).value;
      var attempt := Attempt(o, meta.id, w.status, b.amountMinor.value, w.currency, meta.occurredAt);
      var db1 := RecordAttempt(RecordEvent(db, FromCashfree, meta.id, CashfreePayload(b), Some(decision.kind)), w.paymentId, attempt);
      if decision.kind == TransitionPaid {
        ApplyPaidOnTable(db1, meta, o, w.paymentId, decision.activationKey.value, decision.outboxKey.value, newId, now);
      }
    }
  }

  lemma RecordOnTable(cfg: Config, db: Db, id: Uuid, row: OutboxRow, p: Payload, reply: Reply, newId: Uuid, now: int)
    requires AllOnTable(db.log)
    ensures
      var e := Record(cfg, db, id, row, p, reply, newId, now);
      !e.Violation? ==> AllOnTable(e.db.log)
  {
    hide AllOnTable, RecordQuote, RecordCashfree, QueueOnboarding, RecordAcceptance;
    match row.kind
    case PlanQuoteRequested => QuoteOnTable(cfg, db, id, row, p, reply.details, now);
    case CashfreeOrderRequested => CashfreeRecorderFrame(db, id, row, p, reply.reference, reply.details, now);
    case PaymentVerified => QueueFrame(db, row, p, reply.reference, newId, now);
    case OnboardingRequested => AcceptanceOnTable(db, row, reply.reference);
    case DeliveryRequested =>
  }

  lemma PublishOnTable(cfg: Config, db: Db, id: Uuid, reply: Option<Reply>, newId: Uuid, now: int)
    requires AllOnTable(db.log)
    ensures AllOnTable(Publish(cfg, db, id, reply, newId, now).log)
  {
    hide AllOnTable, Record, MarkPublished, MarkFailed;
    if Eligible(cfg, db, id, now) {
      var p := Open(db.outbox[id], id);
      if p.Some? && reply.Some? {
        RecordOnTable(cfg, db, id, db.outbox[id], p.value, reply.value, newId, now);
      }
      var e := PublishEffect(cfg, db, id, reply, newId, now);
      if !e.Violation? && id in e.db.outbox {
        MarksFrame(e.db, id, if reply.Some? then reply.value.reference else Str(""), now);
      }
    }
  }

  // ---------------------------------------------------------------- the conversational writers

  /** The demo's state allows the picked tutor to be logged as ACCEPT_SHORTLIST. */
  predicate MayAccept(s: DemoState) { s == TUTOR_SHORTLISTED || s == SLOT_NEGOTIATING }

  predicate MayShortlist(s: DemoState) { s == QUALIFYING || s == TUTOR_MATCHING }

  predicate MayEscalate(s: DemoState) { !Terminal(s) || s == HUMAN_HANDOFF }

  predicate MayAdvance(cfg: Config, s: DemoState, step: ConversationStep, turn: Turn) {
    turn.complete && step == Collecting && cfg.websiteConfigured ==>
      if turn.search == Tutors then MayShortlist(s) else MayEscalate(s)
  }

  /**
   The messages that keep to the table, by the conversation and its demo as they are before the
   message and by the turn.  The turn is an input of the step like a new id: the provider's
   search answer in it is known only once the handler has called the provider.
   */
  predicate TalkFitsTable(cfg: Config, db: Db, meta: Envelope, turn: Turn) {
    (meta.tenant, meta.conversation) in db.conversations ==>
      var c := db.conversations[(meta.tenant, meta.conversation)];
      c.demo in db.demos ==>
        if StepAfter(c, turn) == SelectTutor && turn.picked then MayAccept(db.demos[c.demo].state)
        else MayAdvance(cfg, db.demos[c.demo].state, StepAfter(c, turn), turn)
  }

  lemma TransitionOnTable(db: Db, meta: Envelope, demo: Uuid, command: Command, after: DemoState)
    requires AllOnTable(db.log)
    ensures
      var e := TransitionDemo(db, meta, demo, command, after);
      e.Done? ==> (AllOnTable(e.db.log) <==>
        (demo in db.demos && db.demos[demo].state != after ==>
           Registered(LogEntry(db.demos[demo].state, command, after, TransitionKey(meta, command)))))
  {
    hide AllOnTable, LogClash, TransitionKey, Move, Registered;
    if demo in db.demos {
      MoveOnTable(db, demo, command, after, TransitionKey(meta, command));
    }
  }

  /** A move off the table stays in the log, whatever is appended after it. */
  lemma OffTableStays(db: Db, meta: Envelope, demo: Uuid, command: Command, after: DemoState)
    requires demo in db.log && !OnTable(db.log[demo])
    ensures
      var e := TransitionDemo(db, meta, demo, command, after);
      e.Done? ==> !AllOnTable(e.db.log)
  {
    hide LogClash, TransitionKey, OnTable;
    if demo in db.demos {
      OnTableAppend(db.log[demo], LogEntry(db.demos[demo].state, command, after, TransitionKey(meta, command)));
      assert demo in Move(db, demo, command, after, TransitionKey(meta, command)).log;
    }
  }

  lemma TransitionReaches(db: Db, meta: Envelope, demo: Uuid, command: Command, after: DemoState)
    ensures
      var e := TransitionDemo(db, meta, demo, command, after);
      e.Done? ==> (demo in e.db.demos <==> demo in db.demos) && (demo in db.demos ==> e.db.demos[demo].state == after)
  {
    hide LogClash, TransitionKey;
  }

  lemma QualifyingEdges(meta: Envelope)
    ensures forall s, key :: Registered(LogEntry(s, COMPLETE_QUALIFICATION, TUTOR_MATCHING, key)) <==> s == QUALIFYING
    ensures forall s, key :: Registered(LogEntry(s, COMPLETE_MATCHING, TUTOR_SHORTLISTED, key)) <==> s == TUTOR_MATCHING
  {
  }

  lemma ShortlistOnTable(db: Db, meta: Envelope, demo: Uuid)
    requires AllOnTable(db.log)
    ensures
      var e := Shortlist(db, meta, demo);
      e.Done? ==> (AllOnTable(e.db.log) <==> (demo in db.demos ==> MayShortlist(db.demos[demo].state)))
  {
    hide AllOnTable, TransitionDemo, TransitionKey, OnTable, Lookup;
    QualifyingEdges(meta);
    TransitionReaches(db, meta, demo, COMPLETE_QUALIFICATION, TUTOR_MATCHING);
    var e1 := TransitionDemo(db, meta, demo, COMPLETE_QUALIFICATION, TUTOR_MATCHING);
    TransitionOnTable(db, meta, demo, COMPLETE_QUALIFICATION, TUTOR_MATCHING);
    if e1.Done? {
      var db1 := SetStep(e1.db, meta, demo, SelectTutor);
      if AllOnTable(e1.db.log) {
        TransitionOnTable(db1, meta, demo, COMPLETE_MATCHING, TUTOR_SHORTLISTED);
      } else {
        MovedOffTable(db, e1.db, meta, demo, COMPLETE_QUALIFICATION, TUTOR_MATCHING);
        OffTableStays(db1, meta, demo, COMPLETE_MATCHING, TUTOR_SHORTLISTED);
      }
    }
  }

  lemma MovedOffTable(db: Db, after: Db, meta: Envelope, demo: Uuid, command: Command, state: DemoState)
    requires AllOnTable(db.log) && TransitionDemo(db, meta, demo, command, state) == Done(after)
    requires !AllOnTable(after.log)
    ensures demo in after.log && !OnTable(after.log[demo])
  {
    hide LogClash, TransitionKey, OnTable;
  }

  lemma EscalationOnTable(db: Db, meta: Envelope, demo: Uuid)
    requires AllOnTable(db.log)
    ensures
      var e := TransitionDemo(db, meta, demo, ESCALATE_HUMAN, HUMAN_HANDOFF);
      e.Done? ==> (AllOnTable(e.db.log) <==> (demo in db.demos ==> MayEscalate(db.demos[demo].state)))
  {
    hide AllOnTable, TransitionDemo, TransitionKey;
    TransitionOnTable(db, meta, demo, ESCALATE_HUMAN, HUMAN_HANDOFF);
  }

  lemma AdvanceOnTable(cfg: Config, db: Db, meta: Envelope, demo: Uuid, step: ConversationStep, turn: Turn, now: int)
    requires AllOnTable(db.log)
    ensures
      var r := Advance(cfg, db, meta, demo, step, turn, now);
      r.Done? ==> (AllOnTable(r.db.log) <==> (demo in db.demos ==> MayAdvance(cfg, db.demos[demo].state, step, turn)))
  {
    hide AllOnTable, TransitionDemo, Shortlist, AddReply, MayEscalate, MayShortlist;
    EscalationOnTable(db, meta, demo);
    ShortlistOnTable(db, meta, demo);
    ReplyFrame(Done(db), meta, demo, now);
    ReplyFrame(TransitionDemo(db, meta, demo, ESCALATE_HUMAN, HUMAN_HANDOFF), meta, demo, now);
    ReplyFrame(Shortlist(db, meta, demo), meta, demo, now);
  }

  lemma AcceptTutorOnTable(db: Db, meta: Envelope, demo: Uuid, now: int)
    requires AllOnTable(db.log)
    ensures
      var r := AcceptTutor(db, meta, demo, now);
      r.Done? ==> (AllOnTable(r.db.log) <==> (demo in db.demos ==> MayAccept(db.demos[demo].state)))
  {
    hide AllOnTable, TransitionDemo, AddReply;
    var db1 := SetStep(db, meta, demo, AwaitingTutor);
    TransitionOnTable(db1, meta, demo, ACCEPT_SHORTLIST, SLOT_NEGOTIATING);
    ReplyFrame(TransitionDemo(db1, meta, demo, ACCEPT_SHORTLIST, SLOT_NEGOTIATING), meta, demo, now);
  }

  lemma NewDemoOnTable(db: Db, d: Uuid, demo: Demo, key: Text)
    requires AllOnTable(db.log)
    ensures AllOnTable(db.(demos := db.demos[d := demo], log := db.log[d := [LogEntry(NEW, START_QUALIFICATION, QUALIFYING, key)]]).log)
  {
    assert Registered(LogEntry(NEW, START_QUALIFICATION, QUALIFYING, key));
  }

  /** A conversational message that is committed keeps the logs on the table exactly under the guard. */
  lemma TalkOnTable(cfg: Config, db: Db, meta: Envelope, sender: Option<Text>, turn: Turn, now: int)
    requires AllOnTable(db.log)
    ensures
      var r := StartDemo(cfg, db, meta, sender, turn, now);
      r.Done? ==> (AllOnTable(r.db.log) <==> TalkFitsTable(cfg, db, meta, turn))
  {
    hide AllOnTable, Advance, AcceptTutor, StepAfter, MayAccept;
    if (meta.tenant, meta.conversation) in db.conversations {
      var c := db.conversations[(meta.tenant, meta.conversation)];
      AcceptTutorOnTable(db, meta, c.demo, now);
      AdvanceOnTable(cfg, SetStep(db, meta, c.demo, StepAfter(c, turn)), meta, c.demo, StepAfter(c, turn), turn, now);
    } else {
      var demo := DemoIdOf(meta.id);
      var d := Demo(meta.tenant, sender, meta.conversation, QUALIFYING, 1);
      var db1 := db.(demos := db.demos[demo := d], log := db.log[demo := [LogEntry(NEW, START_QUALIFICATION, QUALIFYING, meta.key)]]);
      NewDemoOnTable(db, demo, d, meta.key);
      AdvanceOnTable(cfg, SetStep(db1, meta, demo, Collecting), meta, demo, Collecting, turn, now);
    }
  }

  lemma FreshMoveIsDone(db: Db, meta: Envelope, demo: Uuid, command: Command, after: DemoState)
    requires demo in db.demos && demo in db.log && db.demos[demo].state != after
    requires forall i :: 0 <= i < |db.log[demo]| ==> db.log[demo][i].key != TransitionKey(meta, command)
    ensures
      var e := TransitionDemo(db, meta, demo, command, after);
      && e.Done? && e.db.outbox == db.outbox && demo in e.db.demos && demo in e.db.log && e.db.demos[demo].state == after
      && e.db.log[demo] == db.log[demo] + [LogEntry(db.demos[demo].state, command, after, TransitionKey(meta, command))]
  {
    hide TransitionKey;
  }

  lemma SuffixesDiffer(meta: Envelope)
    ensures TransitionKey(meta, COMPLETE_QUALIFICATION) != TransitionKey(meta, COMPLETE_MATCHING)
  {
    assert CommandSuffix(COMPLETE_QUALIFICATION)[9] != CommandSuffix(COMPLETE_MATCHING)[9];
  }

  lemma ShortlistGoesThrough(db: Db, meta: Envelope, d: Uuid)
    requires d in db.demos && d in db.log && db.demos[d].state == PAID
    requires forall i :: 0 <= i < |db.log[d]| ==>
      db.log[d][i].key != TransitionKey(meta, COMPLETE_QUALIFICATION) && db.log[d][i].key != TransitionKey(meta, COMPLETE_MATCHING)
    ensures
      var e := Shortlist(db, meta, d);
      e.Done? && e.db.outbox == db.outbox && d in e.db.demos && e.db.demos[d].state == TUTOR_SHORTLISTED
  {
    hide TransitionDemo, TransitionKey;
    FreshMoveIsDone(db, meta, d, COMPLETE_QUALIFICATION, TUTOR_MATCHING);
    SuffixesDiffer(meta);
    var db1 := SetStep(TransitionDemo(db, meta, d, COMPLETE_QUALIFICATION, TUTOR_MATCHING).db, meta, d, SelectTutor);
    FreshMoveIsDone(db1, meta, d, COMPLETE_MATCHING, TUTOR_SHORTLISTED);
  }

  /** Without the guard the table is left: a complete message searches tutors for a paid demo again. */
  lemma PaidDemoIsShortlistedAgain(cfg: Config, db: Db, meta: Envelope, d: Uuid, now: int)
    requires AllOnTable(db.log) && cfg.websiteConfigured
    requires d in db.demos && d in db.log && db.demos[d].state == PAID
    requires (meta.tenant, meta.conversation) in db.conversations
    requires db.conversations[(meta.tenant, meta.conversation)] == Conversation(d, Collecting)
    requires !OutboxClash(db, ReplyEventId(meta.id), meta.tenant, ReplyKey(meta.id))
    requires forall i :: 0 <= i < |db.log[d]| ==>
      db.log[d][i].key != TransitionKey(meta, COMPLETE_QUALIFICATION) && db.log[d][i].key != TransitionKey(meta, COMPLETE_MATCHING)
    ensures
      var r := StartDemo(cfg, db, meta, None, Turn(false, true, false, Tutors), now);
      r.Done? && !AllOnTable(r.db.log) && d in r.db.demos && r.db.demos[d].state == TUTOR_SHORTLISTED
  {
    hide AllOnTable, Shortlist, TransitionKey;
    var turn := Turn(false, true, false, Tutors);
    var db1 := SetStep(db, meta, d, Collecting);
    ShortlistGoesThrough(db1, meta, d);
    assert !OutboxClash(Shortlist(db1, meta, d).db, ReplyEventId(meta.id), meta.tenant, ReplyKey(meta.id));
    TalkOnTable(cfg, db, meta, None, turn, now);
  }

  // ---------------------------------------------------------------- whole runs

  predicate StepFitsTable(cfg: Config, db: Db, step: Step) {
    step.Inbox? && step.event.WhatsappHandoff? && step.event.valid ==> TalkFitsTable(cfg, db, step.event.meta, step.turn)
  }

  ghost predicate RunFitsTable(cfg: Config, db: Db, steps: seq<Step>) {
    steps == []
    || (RunFitsTable(cfg, db, steps[..|steps| - 1])
        && StepFitsTable(cfg, Exec(cfg, db, steps[..|steps| - 1]), steps[|steps| - 1]))
  }

  lemma HandleOnTable(cfg: Config, db: Db, event: InboxEvent, turn: Turn, newId: Uuid, now: int)
    requires AllOnTable(db.log)
    requires event.WhatsappHandoff? && event.valid ==> TalkFitsTable(cfg, db, event.meta, turn)
    ensures AllOnTable(HandleInbox(cfg, db, event, turn, newId, now).log)
  {
    hide AllOnTable, ProcessCashfree, AcceptOnboarding, CompleteOnboarding, StartDemo, EventClash, TalkFitsTable;
    match event
    case CashfreeWebhook(meta, body) => CashfreeOnTable(cfg, db, meta, body, newId, now);
    case MetaWebhook(meta, payload) =>
    case OnboardingAccepted(meta, demo, user, onboarding) => AcceptOnTable(cfg, db, meta, demo, user, onboarding);
    case OnboardingCompleted(meta, demo, user, onboarding) => CompleteOnTable(cfg, db, meta, demo, user, now);
    case WhatsappHandoff(meta, sender, valid) => if valid { TalkOnTable(cfg, db, meta, sender, turn, now); }
    case UnsupportedEvent(_) =>
  }

  /** Every step but an unguarded message keeps every log on the table. */
  lemma NextOnTable(cfg: Config, db: Db, step: Step)
    requires AllOnTable(db.log) && StepFitsTable(cfg, db, step)
    ensures AllOnTable(Next(cfg, db, step).log)
  {
    hide AllOnTable, RequestOrder, Publish, HandleInbox, ReserveOrder, RecordProviderFailure, ApplySnapshot, TalkFitsTable;
    hide LogClash, Move, Registered;
    match step
    case Request(tenant, command, correlation, at) => RequestFrame(cfg, db, tenant, command, correlation, at);
    case Deliver(row, reply, newId, at) => PublishOnTable(cfg, db, row, reply, newId, at);
    case Inbox(event, turn, newId, at) => HandleOnTable(cfg, db, event, turn, newId, at);
    case OtherEdge(demo, command, after, key) =>
      if demo in db.demos {
        MoveOnTable(db, demo, command, after, key);
      }
    case _ => ReconciliationFrame(cfg, db, step);
  }

  lemma {:induction false} RunOnTable(cfg: Config, db: Db, steps: seq<Step>)
    requires AllOnTable(db.log) && RunFitsTable(cfg, db, steps)
    ensures AllOnTable(Exec(cfg, db, steps).log)
  {
    hide AllOnTable, Next, StepFitsTable;
    if steps != [] {
      RunOnTable(cfg, db, steps[..|steps| - 1]);
      NextOnTable(cfg, Exec(cfg, db, steps[..|steps| - 1]), steps[|steps| - 1]);
    }
  }

  /**
   Under duplicates, retries and any order of acknowledgements and events: when conversations
   keep to the table, each demo's saga commands are a prefix of request, verify, hand off and
   complete, and it never has a second order or a second paid transition.
   */
  lemma SagaOnce(cfg: Config, steps: seq<Step>, d: Uuid)
    requires RunFitsTable(cfg, EMPTY, steps) && d in Exec(cfg, EMPTY, steps).demos
    ensures
      var db := Exec(cfg, EMPTY, steps);
      && SagaCommands(LogOf(db, d)) <= SAGA
      && (!Abandoned(db.demos[d].state) ==> |SagaCommands(LogOf(db, d))| == Stage(db.demos[d].state))
      && |PaidOrdersOf(db.orders, db.paid, d)| <= |OrdersOf(db.orders, d)| <= 1
      && (Stage(db.demos[d].state) >= 1 ==> |OrdersOf(db.orders, d)| == 1)
      && (Stage(db.demos[d].state) >= 2 ==> |PaidOrdersOf(db.orders, db.paid, d)| == 1)
  {
    hide Next, StepFitsTable, SagaCommands, OrdersOf, PaidOrdersOf, OnTable;
    RunOnTable(cfg, EMPTY, steps);
    LogIsChain(cfg, steps, d);
    assert OnTable(LogOf(Exec(cfg, EMPTY, steps), d));
    SagaIsPrefix(cfg, steps, d);
    OneOrderPerDemo(cfg, steps, d);
  }
}
