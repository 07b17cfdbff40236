/**
 How a paid demo is handed over, accepted and completed: when each writer finishes, raises or
 clashes, and what it then leaves, told on the tables.
 */
module OnboardingOutcomes {
  import opened Identifiers
  import opened Lifecycle
  import opened Store
  import opened Handlers
  import opened Frames
  import opened SagaInvariant
  import opened SagaPreservation
  import opened Database
  import opened RecorderOutcomes

  /** Only this handoff is written. */
  ghost predicate OnlyHandoff(a: Db, b: Db, o: Uuid, h: Handoff) { b == a.(handoffs := a.handoffs[o := h]) }

  // ---------------------------------------------------------------- queueing the handoff

  /** A handoff of the tenant has the key of this paid transition. */
  ghost predicate AlreadyQueued(db: Db, tenant: Text, paidId: Uuid) {
    exists o :: o in db.handoffs && db.handoffs[o].tenant == tenant && db.handoffs[o].key == Labelled("onboarding-paid", UuidText(paidId))
  }

  ghost predicate HandoffTaken(db: Db, tenant: Text, o: Uuid, newId: Uuid)
    requires o in db.paid
  {
    var key := Labelled("onboarding-paid", UuidText(db.paid[o].id));
    || o in db.handoffs || (exists x :: x in db.handoffs && db.handoffs[x].id == newId)
    || RowTaken(db, OnboardingEventId(db.paid[o].id), tenant, key)
  }

  /** A pending handoff of the paid order, and the event that tells the onboarding agent of it. */
  ghost predicate HandsOver(a: Db, b: Db, tenant: Text, o: Uuid, correlation: Text, p: Payload, activation: Text, newId: Uuid, now: int)
    requires o in a.orders && o in a.paid && p.VerifiedPayload?
  {
    var order, key, id := a.orders[o], Labelled("onboarding-paid", UuidText(a.paid[o].id)), OnboardingEventId(a.paid[o].id);
    && b.handoffs == a.handoffs[o := Handoff(newId, tenant, a.paid[o].id, key, HandoffPending, None, 0, None)]
    && Announces(a, b, id, tenant, ONBOARDING, key, correlation,
                 OnboardingPayload(ONBOARDING, key, correlation, order.demo, order.user, activation, p.evidence, order.plan), now)
    && b == a.(handoffs := b.handoffs, outbox := b.outbox)
  }

  /**
   An activation answered for a stored order queues its handoff exactly once, and only while the
   demo is PAID; without a paid transition, or from another state, it raises and changes nothing.
   */
  lemma HandoffQueuedIff(cfg: Config, db: Db, row: OutboxRow, p: Payload, activation: Text, newId: Uuid, now: int, o: Uuid)
    requires Inv(cfg, db) && p.VerifiedPayload? && p.providerOrder != Str("") && p.evidence != Str("")
    requires o in db.orders && db.orders[o].tenant == row.tenant && db.orders[o].providerId == Some(p.providerOrder)
    requires db.orders[o].demo == p.demo
    ensures
      var e := QueueOnboarding(db, row, p, activation, newId, now);
      var queued := o in db.paid && AlreadyQueued(db, row.tenant, db.paid[o].id);
      var wanted := o in db.paid && !queued && p.demo in db.demos && db.demos[p.demo].state == PAID;
      && (queued ==> e == Done(db))
      && (!queued && !wanted ==> e == Raised(db))
      && (wanted ==> if HandoffTaken(db, row.tenant, o, newId) then e == Violation
                     else e.Done? && HandsOver(db, e.db, row.tenant, o, row.correlation, p, activation, newId, now))
  {
    hide Inv, OutboxClash, RowTaken, OnboardingRow, HandsOver;
    assert o in OrdersByProviderId(db, row.tenant, p.providerOrder, p.demo);
    OneByProviderId(cfg, db, row.tenant, p.providerOrder, p.demo, o);
    if o in db.paid {
      TakenIff(db, OnboardingEventId(db.paid[o].id), row.tenant, OnboardingKey(db.paid[o].id));
      HandedOver(db, row, p, activation, newId, now, o);
    }
  }

  lemma HandedOver(db: Db, row: OutboxRow, p: Payload, activation: Text, newId: Uuid, now: int, o: Uuid)
    requires o in db.orders && o in db.paid && p.VerifiedPayload?
    ensures
      var key, id := OnboardingKey(db.paid[o].id), OnboardingEventId(db.paid[o].id);
      var handoff := Handoff(newId, row.tenant, db.paid[o].id, key, HandoffPending, None, 0, None);
      HandsOver(db, AddOutbox(SetHandoff(db, o, handoff), id, OnboardingRow(db, row.tenant, o, row.correlation, p, activation, now)),
                row.tenant, o, row.correlation, p, activation, newId, now)
  {
  }

  /** An activation that names no payment, or no stored order of the demo, raises and changes nothing. */
  lemma UnboundActivationRaises(db: Db, row: OutboxRow, p: Payload, activation: Text, newId: Uuid, now: int)
    requires
      || !p.VerifiedPayload? || p.providerOrder == Str("") || p.evidence == Str("")
      || forall o :: o in db.orders ==>
           db.orders[o].tenant != row.tenant || db.orders[o].providerId != Some(p.providerOrder) || db.orders[o].demo != p.demo
    ensures QueueOnboarding(db, row, p, activation, newId, now) == Raised(db)
  {
    if p.VerifiedPayload? && p.providerOrder != Str("") && p.evidence != Str("") {
      assert OrdersByProviderId(db, row.tenant, p.providerOrder, p.demo) == {};
    }
  }

  // ---------------------------------------------------------------- the agent's acknowledgement

  /** The handoff is accepted and its demo handed off. */
  ghost predicate HandsOff(a: Db, b: Db, o: Uuid, accepted: Handoff, demo: Uuid, key: Text)
    requires demo in a.demos
  {
    && b.handoffs == a.handoffs[o := accepted]
    && Moved(a, b, demo, HANDOFF_ONBOARDING, ONBOARDING_HANDOFF, key)
    && b == a.(handoffs := b.handoffs, demos := b.demos, log := b.log)
  }

  /** What accepting a handoff comes to, by the state of its demo; `mayMove` is the writer's own condition in PAID. */
  ghost predicate AcceptedAs(db: Db, e: Effect, o: Uuid, accepted: Handoff, demo: Uuid, mayMove: bool, key: Text)
    requires demo in db.demos
  {
    if db.demos[demo].state == ONBOARDING_HANDOFF then e.Done? && OnlyHandoff(db, e.db, o, accepted)
    else if db.demos[demo].state != PAID || !mayMove then e.Raised? && OnlyHandoff(db, e.db, o, accepted)
    else if Logged(db, demo, key) then e == Violation
    else e.Done? && HandsOff(db, e.db, o, accepted, demo, key)
  }

  lemma HandsOffFields(db: Db, o: Uuid, accepted: Handoff, demo: Uuid, key: Text)
    requires demo in db.demos
    ensures OnlyHandoff(db, SetHandoff(db, o, accepted), o, accepted)
    ensures HandsOff(db, Move(SetHandoff(db, o, accepted), demo, HANDOFF_ONBOARDING, ONBOARDING_HANDOFF, key), o, accepted, demo, key)
  {
  }

  /**
   The acknowledgement of a stored handoff always accepts it.  From PAID the demo is handed off
   too, in ONBOARDING_HANDOFF it stays, and from any other state the recorder raises all the same.
   */
  lemma AcknowledgedHandoff(cfg: Config, db: Db, row: OutboxRow, reference: Text, o: Uuid)
    requires Inv(cfg, db) && o in db.handoffs && db.handoffs[o].tenant == row.tenant && db.handoffs[o].key == row.key
    ensures o in db.orders && db.orders[o].demo in db.demos
    ensures
      var h := db.handoffs[o];
      AcceptedAs(db, RecordAcceptance(db, row, reference), o,
                 h.(status := HandoffAccepted, acknowledgement := Some(reference), attempts := h.attempts + 1),
                 db.orders[o].demo, true, Labelled("onboarding-accepted", UuidText(h.id)))
  {
    hide Inv, LogClash, Logged, Move, SetHandoff, OnlyHandoff, HandsOff, HandoffsByKey, Pick, AcceptedLogKey;
    HandoffIsPicked(cfg, db, row.tenant, row.key, o);
    HandoffOwner(cfg, db, o);
    var h, demo := db.handoffs[o], db.orders[o].demo;
    AcceptedKeyIs(h.id);
    LoggedIff(db, demo, AcceptedLogKey(h.id));
    HandsOffFields(db, o, h.(status := HandoffAccepted, acknowledgement := Some(reference), attempts := h.attempts + 1), demo, AcceptedLogKey(h.id));
  }

  lemma HandoffIsPicked(cfg: Config, db: Db, tenant: Text, key: Text, o: Uuid)
    requires Inv(cfg, db) && o in db.handoffs && db.handoffs[o].tenant == tenant && db.handoffs[o].key == key
    ensures Pick(HandoffsByKey(db, tenant, key)) == Some(o)
  {
    hide Inv;
    assert o in HandoffsByKey(db, tenant, key);
    OneByHandoffKey(cfg, db, tenant, key, o);
  }

  lemma AcceptedKeyIs(id: Uuid)
    ensures AcceptedLogKey(id) == Labelled("onboarding-accepted", UuidText(id))
  {
  }

  lemma HandoffOwner(cfg: Config, db: Db, o: Uuid)
    requires Inv(cfg, db) && o in db.handoffs
    ensures o in db.paid && o in db.orders && db.orders[o].demo in db.demos
  {
    hide Inv;
    HandoffFacts(cfg, db, o);
    OrderFacts(cfg, db, o);
  }

  lemma UnknownHandoffRaises(db: Db, row: OutboxRow, reference: Text)
    requires forall o :: o in db.handoffs ==> db.handoffs[o].tenant != row.tenant || db.handoffs[o].key != row.key
    ensures RecordAcceptance(db, row, reference) == Raised(db)
  {
    assert HandoffsByKey(db, row.tenant, row.key) == {};
  }

  // ---------------------------------------------------------------- events of the onboarding agent

  /** The one order that the user has on the demo, paid and handed over. */
  ghost predicate IsContext(db: Db, tenant: Text, demo: Uuid, user: Text, o: Uuid) {
    && o in db.orders && db.orders[o].tenant == tenant && db.orders[o].demo == demo && db.orders[o].user == user
    && (forall x :: x in db.orders && db.orders[x].tenant == tenant && db.orders[x].demo == demo && db.orders[x].user == user ==> x == o)
    && o in db.paid && o in db.handoffs && demo in db.demos
  }

  lemma ContextIff(db: Db, tenant: Text, demo: Uuid, user: Text, o: Uuid)
    ensures IsContext(db, tenant, demo, user, o) <==> OnboardingContext(db, tenant, demo, user) == Some(o)
  {
    hide OnboardingContext;
    var matches := OrdersOfUser(db, tenant, demo, user);
    if IsContext(db, tenant, demo, user, o) {
      assert matches == {o};
      OneOfUser(db, tenant, demo, user, matches, o);
    } else if OnboardingContext(db, tenant, demo, user) == Some(o) {
      ContextIsAlone(db, tenant, demo, user);
      var x :| x in matches;
      OneOfUser(db, tenant, demo, user, matches, x);
      assert x == o;
      forall y | y in db.orders && db.orders[y].tenant == tenant && db.orders[y].demo == demo && db.orders[y].user == user
        ensures y == o
      {
        assert y in matches && |matches - {x}| == 0;
        assert y !in matches - {x};
      }
    }
  }

  lemma ContextIsAlone(db: Db, tenant: Text, demo: Uuid, user: Text)
    requires OnboardingContext(db, tenant, demo, user).Some?
    ensures |OrdersOfUser(db, tenant, demo, user)| == 1
  {
  }

  /** Without configuration, or without a single paid and handed over order, both events raise and change nothing. */
  lemma NoContextRaises(cfg: Config, db: Db, meta: Envelope, demo: Uuid, user: Text, onboarding: Text, now: int)
    ensures !cfg.onboardingConfigured || (forall o :: !IsContext(db, meta.tenant, demo, user, o)) ==>
      AcceptOnboarding(cfg, db, meta, demo, user, onboarding) == Raised(db)
    ensures !cfg.welcomeConfigured || (forall o :: !IsContext(db, meta.tenant, demo, user, o)) ==>
      CompleteOnboarding(cfg, db, meta, demo, user, now) == Raised(db)
  {
    hide OnboardingContext, IsContext;
    var c := OnboardingContext(db, meta.tenant, demo, user);
    if c.Some? {
      ContextIff(db, meta.tenant, demo, user, c.value);
    }
  }

  /**
   An acceptance finishes exactly in ONBOARDING_HANDOFF, where it only accepts the handoff, and in
   PAID with a settled order and a free log key, where it hands the demo off as well.
   */
  lemma AcceptedOutcome(cfg: Config, db: Db, meta: Envelope, demo: Uuid, user: Text, onboarding: Text, o: Uuid)
    requires cfg.onboardingConfigured && IsContext(db, meta.tenant, demo, user, o)
    ensures AcceptedAs(db, AcceptOnboarding(cfg, db, meta, demo, user, onboarding), o,
                       db.handoffs[o].(status := HandoffAccepted, acknowledgement := Some(onboarding)),
                       demo, db.orders[o].status == Settled, meta.key)
  {
    hide OnboardingContext, Logged, LogClash, Move, SetHandoff, OnlyHandoff, HandsOff;
    ContextIff(db, meta.tenant, demo, user, o);
    LoggedIff(db, demo, meta.key);
    HandsOffFields(db, o, db.handoffs[o].(status := HandoffAccepted, acknowledgement := Some(onboarding)), demo, meta.key);
  }

  /** The welcome message, its row or the log entry would take a key that is in use. */
  ghost predicate WelcomeTaken(db: Db, meta: Envelope, demo: Uuid, handoff: Uuid) {
    var key := Labelled("welcome", UuidText(handoff));
    || WelcomeMessageId(handoff) in db.messages
    || (exists m :: m in db.messages && db.messages[m].tenant == meta.tenant && db.messages[m].key == key)
    || RowTaken(db, WelcomeEventId(handoff), meta.tenant, key) || Logged(db, demo, meta.key)
  }

  /** The handoff is completed, the demo converted, and the learner's conversation welcomed once. */
  ghost predicate Welcomes(a: Db, b: Db, meta: Envelope, demo: Uuid, o: Uuid, now: int)
    requires demo in a.demos && o in a.handoffs
  {
    var h, key := a.handoffs[o], Labelled("welcome", UuidText(a.handoffs[o].id));
    && b.handoffs == a.handoffs[o := h.(status := HandoffCompleted, welcome := Some(WelcomeMessageId(h.id)))]
    && b.messages == a.messages[WelcomeMessageId(h.id) := Message(meta.tenant, key, demo)]
    && Moved(a, b, demo, COMPLETE_ONBOARDING, CONVERTED, meta.key)
    && Announces(a, b, WelcomeEventId(h.id), meta.tenant, LEAD_INTAKE_AGENT, key, meta.correlation,
                 DeliveryPayload(WelcomeEventId(h.id), demo, a.demos[demo].conversation, key), now)
    && b == a.(handoffs := b.handoffs, messages := b.messages, demos := b.demos, log := b.log, outbox := b.outbox)
  }

  /** A completion converts exactly an accepted handoff in ONBOARDING_HANDOFF; a completed one of a converted demo changes nothing. */
  lemma CompletedOutcome(cfg: Config, db: Db, meta: Envelope, demo: Uuid, user: Text, now: int, o: Uuid)
    requires cfg.welcomeConfigured && IsContext(db, meta.tenant, demo, user, o)
    ensures
      var e, h, state := CompleteOnboarding(cfg, db, meta, demo, user, now), db.handoffs[o], db.demos[demo].state;
      if h.status == HandoffCompleted && state == CONVERTED then e == Done(db)
      else if h.status == HandoffAccepted && state == ONBOARDING_HANDOFF then
        if WelcomeTaken(db, meta, demo, h.id) then e == Violation else e.Done? && Welcomes(db, e.db, meta, demo, o, now)
      else e == Raised(db)
  {
    hide OnboardingContext, Logged, LogClash, RowTaken, OutboxClash, ConvertedDb, Welcomes;
    ContextIff(db, meta.tenant, demo, user, o);
    LoggedIff(db, demo, meta.key);
    TakenIff(db, WelcomeEventId(db.handoffs[o].id), meta.tenant, WelcomeKey(db.handoffs[o].id));
    WelcomedFields(db, meta, demo, o, now);
  }

  lemma WelcomedFields(db: Db, meta: Envelope, demo: Uuid, o: Uuid, now: int)
    requires demo in db.demos && o in db.handoffs
    ensures Welcomes(db, ConvertedDb(db, meta, o, demo, now), meta, demo, o, now)
  {
  }
}
