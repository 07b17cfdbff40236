/**
 When a webhook about an order is processed, and what it then leaves behind, told on the tables
 and the webhook's own fields.
 */
module WebhookOutcomes {
  import opened Identifiers
  import opened Lifecycle
  import opened Monetary
  import opened PaymentVerification
  import opened Store
  import opened Handlers
  import opened Frames
  import opened SagaInvariant
  import opened SagaPreservation
  import opened SagaOrderFree

  /** The webhook's status as the policy's groups are searched for it. */
  function StatusOf(b: CashfreeBody): string { if b.status.Some? then Upper(Strip(b.status.value)) else "" }

  function CurrencyOf(b: CashfreeBody): string { if b.currency.Some? then Upper(Strip(b.currency.value)) else "" }

  /** The webhook repeats the order in provider order, amount, currency, customer, purpose and environment. */
  predicate Agrees(cfg: Config, order: Order, b: CashfreeBody) {
    && order.providerId.Some? && RequiredReference(b.cfOrderId) == order.providerId
    && b.amountMinor == Some(order.amount)
    && CurrencyOf(b) == order.currency
    && b.customer == order.customer
    && b.purpose == order.purpose
    && (if b.environment.Some? then b.environment.value == order.environment else cfg.environment == order.environment)
  }

  /** The policy names a version and a success, and gives no status two meanings. */
  predicate UsablePolicy(p: Policy) {
    Strip(p.version) != "" && p.success != {} && p.success !! p.failed !! p.expired !! p.review
  }

  /** Every required field is there, and the amount is one of a currency. */
  predicate Readable(b: CashfreeBody) {
    && RequiredReference(b.cfOrderId).Some? && RequiredReference(b.paymentId).Some?
    && b.status.Some? && Strip(b.status.value) != ""
    && b.currency.Some? && ThreeLetters(CurrencyOf(b))
    && b.amountMinor.Some? && b.amountMinor.value >= 0
  }

  /** Neither the event, nor its payload, nor its payment was recorded before. */
  ghost predicate Unrecorded(db: Db, meta: Envelope, b: CashfreeBody) {
    && (FromCashfree, meta.id) !in db.events
    && (forall e :: e in db.events && e.0 == FromCashfree ==> db.events[e].payload != CashfreePayload(b))
    && (RequiredReference(b.paymentId).Some? ==> RequiredReference(b.paymentId).value !in db.attempts)
  }

  /** An agreeing success for an order not paid yet, whose demo waits for a payment. */
  predicate Pays(cfg: Config, db: Db, o: Uuid, b: CashfreeBody)
    requires o in db.orders
  {
    && Agrees(cfg, db.orders[o], b) && StatusOf(b) in cfg.policy.success && o !in db.paid
    && db.orders[o].demo in db.demos
    && (db.demos[db.orders[o].demo].state == PAYMENT_PENDING || db.demos[db.orders[o].demo].state == PAYMENT_REVIEW)
  }

  /** The new paid transition, its log entry and its outbox row break no unique key. */
  ghost predicate KeysFree(db: Db, meta: Envelope, o: Uuid, newId: Uuid)
    requires o in db.orders && db.orders[o].providerId.Some?
  {
    && (forall p :: p in db.paid ==> db.paid[p].id != newId)
    && (forall e :: e in LogOf(db, db.orders[o].demo) ==> e.key != meta.key)
    && PaidEventId(o) !in db.outbox
    && (forall r :: r in db.outbox && db.outbox[r].tenant == db.orders[o].tenant ==> db.outbox[r].key != OrderPaidKey(db.orders[o]))
  }

  /** A reference from outside is its text without the blanks around it, and missing when nothing is left; derived ones stay. */
  lemma OutsideReference(s: string, derived: Text)
    requires !derived.Str?
    ensures RequiredReference(Some(Str(s))) == if Strip(s) == "" then None else Some(Str(Strip(s)))
    ensures RequiredReference(Some(derived)) == Some(derived) && RequiredReference(None) == None
  {
    hide Strip;
  }

  /** Stripping takes the blanks from both ends and nothing else. */
  lemma StrippedBetween(s: string) returns (i: nat, j: nat)
    ensures i <= j <= |s| && Strip(s) == s[i..j]
    ensures forall k :: 0 <= k < i || j <= k < |s| ==> IsBlank(s[k])
    ensures i < j ==> !IsBlank(s[i]) && !IsBlank(s[j - 1])
  {
    i := LeftBlanks(s);
    var t := s[i..];
    var n := RightBlanks(t);
    j := if n == 0 then i else i + n;
    assert t[..n] == s[i..i + n];
    forall k | i + n <= k < |s| ensures IsBlank(s[k]) {
      assert s[k] == t[k - i];
    }
  }

  lemma {:induction false} LeftBlanks(s: string) returns (i: nat)
    ensures i <= |s| && StripLeft(s) == s[i..] && (forall k :: 0 <= k < i ==> IsBlank(s[k])) && (i < |s| ==> !IsBlank(s[i]))
  {
    if s != [] && IsBlank(s[0]) {
      var n := LeftBlanks(s[1..]);
      i := n + 1;
      assert s[1..][n..] == s[i..];
      forall k | 0 < k < i ensures IsBlank(s[k]) {
        assert s[k] == s[1..][k - 1];
      }
    } else {
      i := 0;
    }
  }

  lemma {:induction false} RightBlanks(s: string) returns (n: nat)
    ensures n <= |s| && StripRight(s) == s[..n] && (forall k :: n <= k < |s| ==> IsBlank(s[k])) && (n > 0 ==> !IsBlank(s[n - 1]))
  {
    if s != [] && IsBlank(s[|s| - 1]) {
      n := RightBlanks(s[..|s| - 1]);
      assert s[..|s| - 1][..n] == s[..n];
    } else {
      n := |s|;
      assert s[..n] == s;
    }
  }

  // ---------------------------------------------------------------- when a webhook is processed

  lemma ReadableParses(b: CashfreeBody)
    ensures Readable(b) && RequiredReference(b.orderId).Some? <==>
      ParseWebhook(b).Some? && b.amountMinor.Some? && MakeMoney(b.amountMinor.value, ParseWebhook(b).value.currency).Some?
    ensures ParseWebhook(b).Some? ==>
      ParseWebhook(b).value.status == StatusOf(b) && ParseWebhook(b).value.currency == CurrencyOf(b)
    ensures Readable(b) && RequiredReference(b.orderId).Some? ==>
      MakeMoney(b.amountMinor.value, CurrencyOf(b)) == Some(Money(b.amountMinor.value, CurrencyOf(b)))
  {
    hide Strip, Upper, RequiredReference;
    if ParseWebhook(b).Some? {
      ParsedCurrencyIsNormal(b);
      assert RequiredString(b.currency) == Some(Strip(b.currency.value));
    }
  }

  /** What is decided about a readable webhook of a bound order. */
  lemma DecidesByFields(cfg: Config, db: Db, meta: Envelope, b: CashfreeBody, o: Uuid, now: int)
    requires Inv(cfg, db) && o in db.orders && RequiredReference(b.orderId) == Some(db.orders[o].domainId)
    ensures
      var order, policy, status, d := db.orders[o], cfg.policy, StatusOf(b), Decide(cfg, db, meta, b, o, now);
      && (d.Some? <==> UsablePolicy(policy) && Readable(b) && order.providerId.Some?)
      && (d.Some? && !Agrees(cfg, order, b) ==> d.value.kind == Review)
      && (d.Some? && Agrees(cfg, order, b) ==>
            && (status in policy.success && o in db.paid ==> d.value.kind == Duplicate)
            && (status in policy.success && o !in db.paid ==> d.value.kind == TransitionPaid)
            && (status in policy.failed ==> d.value.kind == PaymentFailed)
            && (status in policy.expired ==> d.value.kind == PaymentExpired)
            && (status !in policy.success + policy.failed && now >= order.expiresAt ==> d.value.kind == PaymentExpired)
            && (status in policy.review && now < order.expiresAt ==> d.value.kind == Review)
            && (status !in policy.success + policy.failed + policy.expired + policy.review && now < order.expiresAt ==>
                  d.value.kind == Reconcile))
  {
    hide Inv, Strip, Upper, RequiredReference, ParseWebhook, PolicyAccepted, Readable, MakeMoney, StatusOf, CurrencyOf, Mismatches;
    var order := db.orders[o];
    OrderFacts(cfg, db, o);
    ReadableParses(b);
    PolicyAcceptedIffDisjoint(cfg.policy);
    IsoMoney(order.amount, order.currency);
    if Decide(cfg, db, meta, b, o, now).Some? {
      var w, amount := ParseWebhook(b).value, b.amountMinor.value;
      var binding := WebhookBinding(order, w, Money(order.amount, order.currency));
      var evidence := WebhookEvidence(cfg, meta.id, order.providerId.value, b, w, Money(amount, CurrencyOf(b)));
      NoMismatchIffFullyBound(binding, evidence);
      ParsedReferences(b);
    }
  }

  lemma IsoMoney(amount: int, currency: string)
    requires amount > 0 && IsoCurrency(currency)
    ensures MakeMoney(amount, currency) == Some(Money(amount, currency))
  {
    IsoCurrencyIsNormal(currency);
  }

  lemma ParsedReferences(b: CashfreeBody)
    requires ParseWebhook(b).Some?
    ensures RequiredReference(b.orderId) == Some(ParseWebhook(b).value.orderId)
    ensures RequiredReference(b.cfOrderId) == Some(ParseWebhook(b).value.cfOrderId)
    ensures RequiredReference(b.paymentId) == Some(ParseWebhook(b).value.paymentId)
  {
    hide RequiredReference, Strip, Upper;
  }

  // ---------------------------------------------------------------- what it leaves behind

  /** The event with its decision, and the payment attempt, are stored. */
  ghost predicate Recorded(a: Db, after: Db, o: Uuid, meta: Envelope, b: CashfreeBody, kind: DecisionKind)
    requires Readable(b)
  {
    && after.events == a.events[(FromCashfree, meta.id) := ProviderEvent(CashfreePayload(b), Some(kind))]
    && after.attempts == a.attempts[RequiredReference(b.paymentId).value :=
         Attempt(o, meta.id, StatusOf(b), b.amountMinor.value, CurrencyOf(b), meta.occurredAt)]
  }

  /** Beside the record only the order's status is written. */
  ghost predicate Leaves(a: Db, after: Db, o: Uuid, meta: Envelope, b: CashfreeBody, kind: DecisionKind, status: OrderStatus)
    requires Readable(b) && o in a.orders
  {
    && Recorded(a, after, o, meta, b, kind)
    && after.orders == a.orders[o := a.orders[o].(status := status)]
    && after == a.(events := after.events, attempts := after.attempts, orders := after.orders)
  }

  /** The order is settled, its demo paid, the payment on record and the website told. */
  ghost predicate Settles(a: Db, after: Db, o: Uuid, meta: Envelope, b: CashfreeBody, newId: Uuid, now: int)
    requires Readable(b) && o in a.orders && a.orders[o].providerId.Some? && a.orders[o].demo in a.demos
  {
    var order, demo := a.orders[o], a.demos[a.orders[o].demo];
    var payment := RequiredReference(b.paymentId).value;
    && Recorded(a, after, o, meta, b, TransitionPaid)
    && after.orders == a.orders[o := order.(status := Settled, paidAt := Some(meta.occurredAt), version := order.version + 1)]
    && after.demos == a.demos[order.demo := demo.(state := PAID, version := demo.version + 1)]
    && after.log == a.log[order.demo := LogOf(a, order.demo) + [LogEntry(demo.state, VERIFY_PAYMENT, PAID, meta.key)]]
    && after.paid == a.paid[o := Paid(newId, payment, OrderActivationKey(order), order.amount, order.currency, meta.occurredAt)]
    && PaidEventId(o) in after.outbox && after.outbox == a.outbox[PaidEventId(o) := after.outbox[PaidEventId(o)]]
    && TellsWebsite(o, order, after.paid[o], after.outbox[PaidEventId(o)], now)
    && after == a.(events := after.events, attempts := after.attempts, orders := after.orders, demos := after.demos,
                   log := after.log, paid := after.paid, outbox := after.outbox)
  }

  ghost predicate TellsWebsite(o: Uuid, order: Order, paid: Paid, row: OutboxRow, now: int)
    requires order.providerId.Some?
  {
    && VerifiedRowFor(o, order, paid, row) && Open(row, PaidEventId(o)) == Some(row.cipher.plain)
    && row.target == WEBSITE && row.kind == PaymentVerified && row.availableAt == now && row.attempts == 0 && !row.published
  }

  lemma StatusWritten(db: Db, meta: Envelope, b: CashfreeBody, o: Uuid, kind: DecisionKind, attempt: Attempt, status: OrderStatus)
    requires Readable(b) && o in db.orders
    requires attempt == Attempt(o, meta.id, StatusOf(b), b.amountMinor.value, CurrencyOf(b), meta.occurredAt)
    ensures
      var db1 := RecordAttempt(RecordEvent(db, FromCashfree, meta.id, CashfreePayload(b), Some(kind)),
                               RequiredReference(b.paymentId).value, attempt);
      Leaves(db, SetOrder(db1, o, db.orders[o].(status := status)), o, meta, b, kind, status)
  {
    hide Readable, StatusOf, CurrencyOf, RequiredReference;
  }

  lemma PaymentApplied(cfg: Config, db: Db, db1: Db, meta: Envelope, b: CashfreeBody, o: Uuid, newId: Uuid, now: int)
    requires Inv(cfg, db) && o in db.orders && db.orders[o].providerId.Some? && o !in db.paid && Readable(b)
    requires db1 == db.(events := db1.events, attempts := db1.attempts) && Recorded(db, db1, o, meta, b, TransitionPaid)
    requires RequiredReference(b.paymentId).value !in db.attempts
    ensures
      var order, payment := db.orders[o], RequiredReference(b.paymentId).value;
      var e := ApplyPaid(db1, meta, o, payment, OrderActivationKey(order), OrderPaidKey(order), newId, now);
      if order.demo in db.demos
         && (db.demos[order.demo].state == PAYMENT_PENDING || db.demos[order.demo].state == PAYMENT_REVIEW)
      then
        if KeysFree(db, meta, o, newId) then e.Done? && Settles(db, e.db, o, meta, b, newId, now) else !e.Done?
      else e.Done? && Leaves(db, e.db, o, meta, b, TransitionPaid, UnderReview)
  {
    hide Inv, StatusOf, CurrencyOf, RequiredReference, ParsePlan, OrderActivationKey, OrderPaidKey, Settles, Move,
         VerifiedRow, SetOrder;
    var order, payment := db.orders[o], RequiredReference(b.paymentId).value;
    OrderPlanFacts(cfg, db, o);
    SetOrderFrame(db1, o, order.(status := Settled, paidAt := Some(meta.occurredAt), version := order.version + 1));
    PaidClashIff(cfg, db, db1, o, Paid(newId, payment, OrderActivationKey(order), order.amount, order.currency, meta.occurredAt));
    KeysFreeIff(db, db1, meta, o, newId);
    if order.demo in db.demos && Payable(db.demos[order.demo].state) {
      SettledFields(db, db1, meta, b, o, newId, now);
    } else {
      ReviewedFields(db, db1, meta, b, o);
    }
  }

  lemma PaidClashIff(cfg: Config, db: Db, db1: Db, o: Uuid, row: Paid)
    requires Inv(cfg, db) && o in db.orders && db.orders[o].providerId.Some? && o !in db.paid
    requires row.paymentId !in db.attempts && row.activationKey == OrderActivationKey(db.orders[o])
    requires db1 == db.(events := db1.events, attempts := db1.attempts)
    ensures PaidClash(db1, o, row) <==> exists p :: p in db.paid && db.paid[p].id == row.id
  {
    hide Inv, OrderActivationKey;
    if forall p :: p in db.paid ==> db.paid[p].id != row.id {
      NewPaidUnclashed(cfg, db, o, row);
    }
  }

  lemma KeysFreeIff(db: Db, db1: Db, meta: Envelope, o: Uuid, newId: Uuid)
    requires o in db.orders && db.orders[o].providerId.Some?
    requires db1 == db.(events := db1.events, attempts := db1.attempts)
    ensures KeysFree(db, meta, o, newId) <==>
      && !(exists p :: p in db.paid && db.paid[p].id == newId) && !LogClash(db1, db.orders[o].demo, meta.key)
      && !OutboxClash(db1, PaidEventId(o), db.orders[o].tenant, OrderPaidKey(db.orders[o]))
  {
    hide OrderPaidKey;
    assert LogOf(db1, db.orders[o].demo) == LogOf(db, db.orders[o].demo);
  }

  lemma ReviewedFields(db: Db, db1: Db, meta: Envelope, b: CashfreeBody, o: Uuid)
    requires Readable(b) && o in db.orders && Recorded(db, db1, o, meta, b, TransitionPaid)
    requires db1 == db.(events := db1.events, attempts := db1.attempts)
    ensures Leaves(db, SetOrder(db1, o, db1.orders[o].(status := UnderReview)), o, meta, b, TransitionPaid, UnderReview)
  {
    hide Readable, StatusOf, CurrencyOf, RequiredReference;
  }

  lemma SettledFields(db: Db, db1: Db, meta: Envelope, b: CashfreeBody, o: Uuid, newId: Uuid, now: int)
    requires Readable(b) && o in db.orders && db.orders[o].providerId.Some? && db.orders[o].demo in db.demos
    requires Recorded(db, db1, o, meta, b, TransitionPaid) && db1 == db.(events := db1.events, attempts := db1.attempts)
    requires ParsePlan(db.orders[o].plan).Some?
    ensures
      var order, payment := db.orders[o], RequiredReference(b.paymentId).value;
      var row := Paid(newId, payment, OrderActivationKey(order), order.amount, order.currency, meta.occurredAt);
      var settled := order.(status := Settled, paidAt := Some(meta.occurredAt), version := order.version + 1);
      var db2 := Move(SetOrder(db1, o, settled), order.demo, VERIFY_PAYMENT, PAID, meta.key);
      var verified := VerifiedRow(o, order, ParsePlan(order.plan).value, payment, OrderActivationKey(order), OrderPaidKey(order), meta.occurredAt, now);
      Settles(db, AddOutbox(db2.(paid := db2.paid[o := row]), PaidEventId(o), verified), o, meta, b, newId, now)
  {
    hide StatusOf, CurrencyOf, RequiredReference, ParsePlan, OrderActivationKey, OrderPaidKey, Recorded, TellsWebsite, VerifiedRow;
    var order, payment := db.orders[o], RequiredReference(b.paymentId).value;
    var row := Paid(newId, payment, OrderActivationKey(order), order.amount, order.currency, meta.occurredAt);
    VerifiedTells(order, o, row, ParsePlan(order.plan).value, now);
    assert LogOf(db1, order.demo) == LogOf(db, order.demo);
    SameRecord(db, db1, o, meta, b);
  }

  /** Recording looks at the two tables of evidence alone. */
  lemma SameRecord(db: Db, db1: Db, o: Uuid, meta: Envelope, b: CashfreeBody)
    requires Readable(b) && Recorded(db, db1, o, meta, b, TransitionPaid)
    ensures forall after: Db :: after.events == db1.events && after.attempts == db1.attempts ==>
      Recorded(db, after, o, meta, b, TransitionPaid)
  {
    hide Readable, StatusOf, CurrencyOf, RequiredReference;
  }

  lemma VerifiedTells(order: Order, o: Uuid, paid: Paid, planId: int, now: int)
    requires order.providerId.Some? && ParsePlan(order.plan) == Some(planId)
    ensures TellsWebsite(o, order, paid,
      VerifiedRow(o, order, planId, paid.paymentId, paid.activationKey, OrderPaidKey(order), paid.at, now), now)
  {
    hide ParsePlan, OrderPaidKey;
  }

  // ---------------------------------------------------------------- the two results

  /** The webhook's order reference is the order's own. */
  predicate Names(b: CashfreeBody, order: Order) { RequiredReference(b.orderId) == Some(order.domainId) }

  /**
   A webhook that names an order is processed exactly when the policy gives every status one
   meaning, the webhook is readable and new, the order is bound, and, if it pays, the keys of the
   paid transition are free.
   */
  lemma ProcessedIff(cfg: Config, db: Db, meta: Envelope, b: CashfreeBody, turn: Turn, newId: Uuid, now: int, o: Uuid)
    requires Inv(cfg, db) && o in db.orders && Names(b, db.orders[o])
    ensures Handle(cfg, db, CashfreeWebhook(meta, b), turn, newId, now).Done? <==>
      && UsablePolicy(cfg.policy) && Readable(b) && Unrecorded(db, meta, b) && db.orders[o].providerId.Some?
      && (Pays(cfg, db, o, b) ==> KeysFree(db, meta, o, newId))
  {
    hide Inv, Readable, StatusOf, CurrencyOf, RequiredReference, UsablePolicy, KeysFree, Settles, Leaves, Agrees, ParseWebhook, Decide;
    NamedOrderIsFound(cfg, db, b, o);
    NewIffUnrecorded(db, meta, b);
    ReadableParses(b);
    DecidesByFields(cfg, db, meta, b, o, now);
    if ParseWebhook(b).Some? {
      ParsedReferences(b);
      BoundOutcome(cfg, db, meta, b, newId, now, o);
    }
  }

  lemma NewIffUnrecorded(db: Db, meta: Envelope, b: CashfreeBody)
    ensures Unrecorded(db, meta, b) <==>
      !EventClash(db, FromCashfree, meta.id, CashfreePayload(b))
      && (RequiredReference(b.paymentId).Some? ==> RequiredReference(b.paymentId).value !in db.attempts)
  {
    hide RequiredReference;
  }

  lemma NamedOrderIsFound(cfg: Config, db: Db, b: CashfreeBody, o: Uuid)
    requires Inv(cfg, db) && o in db.orders && Names(b, db.orders[o])
    ensures ParseWebhook(b).Some? ==> Pick(OrdersByDomainId(db, ParseWebhook(b).value.orderId)) == Some(o)
  {
    hide Inv, RequiredReference, ParseWebhook;
    if ParseWebhook(b).Some? {
      ParsedReferences(b);
      OnlyOrderWithDomainId(cfg, db, o);
    }
  }

  /** The outcome of a readable, new webhook of a bound order, by its fields. */
  ghost predicate OutcomeByFields(cfg: Config, db: Db, after: Db, o: Uuid, meta: Envelope, b: CashfreeBody, newId: Uuid, now: int)
    requires o in db.orders && Readable(b)
  {
    var order, policy, status := db.orders[o], cfg.policy, StatusOf(b);
    if !Agrees(cfg, order, b) then Leaves(db, after, o, meta, b, Review, UnderReview)
    else
      && (status in policy.success && o in db.paid ==> Leaves(db, after, o, meta, b, Duplicate, order.status))
      && (Pays(cfg, db, o, b) ==> Settles(db, after, o, meta, b, newId, now))
      && (status in policy.success && o !in db.paid && !Pays(cfg, db, o, b) ==>
            Leaves(db, after, o, meta, b, TransitionPaid, UnderReview))
      && (status in policy.failed ==> Leaves(db, after, o, meta, b, PaymentFailed, NotPaid))
      && (status in policy.expired ==> Leaves(db, after, o, meta, b, PaymentExpired, Lapsed))
      && (status !in policy.success + policy.failed && now >= order.expiresAt ==> Leaves(db, after, o, meta, b, PaymentExpired, Lapsed))
      && (status in policy.review && now < order.expiresAt ==> Leaves(db, after, o, meta, b, Review, UnderReview))
      && (status !in policy.success + policy.failed + policy.expired + policy.review && now < order.expiresAt ==>
            Leaves(db, after, o, meta, b, Reconcile, ReconciliationRequired))
  }

  lemma BoundOutcome(cfg: Config, db: Db, meta: Envelope, b: CashfreeBody, newId: Uuid, now: int, o: Uuid)
    requires Inv(cfg, db) && o in db.orders && Names(b, db.orders[o]) && ParseWebhook(b).Some?
    ensures
      var d := Decide(cfg, db, meta, b, o, now);
      var e := ProcessBound(cfg, db, meta, b, ParseWebhook(b).value, o, newId, now);
      && (d.Some? ==> Readable(b) && db.orders[o].providerId.Some?)
      && (e.Done? <==> d.Some? && RequiredReference(b.paymentId).value !in db.attempts
                       && (Pays(cfg, db, o, b) ==> KeysFree(db, meta, o, newId)))
      && (e.Done? ==> OutcomeByFields(cfg, db, e.db, o, meta, b, newId, now))
  {
    hide Inv, Readable, StatusOf, CurrencyOf, RequiredReference, UsablePolicy, KeysFree, Settles, Leaves, Agrees, ParseWebhook, Decide,
         ApplyPaid, SetOrder, Recorded;
    var w := ParseWebhook(b).value;
    DecidesByFields(cfg, db, meta, b, o, now);
    ReadableParses(b);
    ParsedReferences(b);
    var d := Decide(cfg, db, meta, b, o, now);
    if d.Some? && w.paymentId !in db.attempts {
      var kind := d.value.kind;
      var attempt := Attempt(o, meta.id, w.status, b.amountMinor.value, w.currency, meta.occurredAt);
      StatusWritten(db, meta, b, o, kind, attempt, StatusAfter(kind, db.orders[o].status));
      if kind == TransitionPaid {
        var db1 := RecordAttempt(RecordEvent(db, FromCashfree, meta.id, CashfreePayload(b), Some(kind)), w.paymentId, attempt);
        PaidDecisionFacts(cfg, db, meta, b, o, now);
        JustRecorded(db, meta, b, o, attempt);
        PaymentApplied(cfg, db, db1, meta, b, o, newId, now);
      }
    }
  }

  lemma JustRecorded(db: Db, meta: Envelope, b: CashfreeBody, o: Uuid, attempt: Attempt)
    requires Readable(b) && attempt == Attempt(o, meta.id, StatusOf(b), b.amountMinor.value, CurrencyOf(b), meta.occurredAt)
    ensures
      var db1 := RecordAttempt(RecordEvent(db, FromCashfree, meta.id, CashfreePayload(b), Some(TransitionPaid)),
                               RequiredReference(b.paymentId).value, attempt);
      Recorded(db, db1, o, meta, b, TransitionPaid) && db1 == db.(events := db1.events, attempts := db1.attempts)
  {
    hide Readable, StatusOf, CurrencyOf, RequiredReference;
  }

  /**
   What a processed webhook leaves: a disagreeing one sends the order to review, a failure leaves
   it failed, an expiry or an undecided status past the order's time leaves it expired, a review
   status in time sends it to review, an unknown one asks for reconciliation, a success for a paid
   order changes nothing of it, and one that pays settles it.
   */
  lemma WebhookOutcome(cfg: Config, db: Db, meta: Envelope, b: CashfreeBody, turn: Turn, newId: Uuid, now: int, o: Uuid)
    requires Inv(cfg, db) && o in db.orders && Names(b, db.orders[o])
    requires Handle(cfg, db, CashfreeWebhook(meta, b), turn, newId, now).Done?
    ensures Readable(b)
    ensures OutcomeByFields(cfg, db, HandleInbox(cfg, db, CashfreeWebhook(meta, b), turn, newId, now), o, meta, b, newId, now)
  {
    hide Inv, Readable, OutcomeByFields, RequiredReference, ParseWebhook, ProcessBound, KeysFree, Pays;
    NamedOrderIsFound(cfg, db, b, o);
    BoundOutcome(cfg, db, meta, b, newId, now, o);
  }

  // ---------------------------------------------------------------- webhooks that settle nothing

  /** A webhook that names no stored order is refused and rolled back. */
  lemma UnnamedIsRefused(cfg: Config, db: Db, meta: Envelope, b: CashfreeBody, turn: Turn, newId: Uuid, now: int)
    requires forall o :: o in db.orders ==> !Names(b, db.orders[o])
    ensures !Handle(cfg, db, CashfreeWebhook(meta, b), turn, newId, now).Done?
    ensures HandleInbox(cfg, db, CashfreeWebhook(meta, b), turn, newId, now) == db
  {
    hide RequiredReference, ParseWebhook, ProcessBound, EventClash;
    if ParseWebhook(b).Some? {
      ParsedReferences(b);
      assert OrdersByDomainId(db, ParseWebhook(b).value.orderId) == {};
    }
  }

  /** Any other provider event is stored exactly once by its sender's id and payload, undecided, and does nothing else. */
  lemma ProviderEventStoredIff(cfg: Config, db: Db, meta: Envelope, payload: WebhookPayload, turn: Turn, newId: Uuid, now: int)
    ensures
      var source := if meta.source == Str("cashfree") then FromCashfree else FromMeta;
      var e := Handle(cfg, db, MetaWebhook(meta, payload), turn, newId, now);
      && (e.Done? <==> (source, meta.id) !in db.events
                       && forall k :: k in db.events && k.0 == source ==> db.events[k].payload != payload)
      && (e.Done? ==> e.db == db.(events := db.events[(source, meta.id) := ProviderEvent(payload, None)]))
  {
  }

  /** An event of an unknown type, and a message whose content is not valid, raise and change nothing. */
  lemma OthersRaise(cfg: Config, db: Db, meta: Envelope, sender: Option<Text>, turn: Turn, newId: Uuid, now: int)
    ensures Handle(cfg, db, UnsupportedEvent(meta), turn, newId, now) == Raised(db)
    ensures Handle(cfg, db, WhatsappHandoff(meta, sender, false), turn, newId, now) == Raised(db)
  {
  }
}
