/**
 Webhooks about one bound order, in any order, with duplicates and with reconciliation in
 between: whether the order ends up paid depends only on which webhooks there were.
 */
module SagaOrderFree {
  import opened Identifiers
  import opened Lifecycle
  import opened Monetary
  import opened PaymentVerification
  import opened Store
  import opened Handlers
  import opened Frames
  import opened SagaInvariant
  import opened SagaPreservation
  import opened SagaHistory
  import opened SagaTheorems
  import opened SagaReplay

  predicate IsWebhook(s: Step) { s.Inbox? && s.event.CashfreeWebhook? }

  predicate IsReconciliation(s: Step) { s.Reserve? || s.ProviderFailed? || s.ProviderAnswered? }

  /** Under an accepted policy the webhook reports a success that agrees with the order in every bound field. */
  predicate BoundSuccess(cfg: Config, order: Order, b: CashfreeBody) {
    var w := ParseWebhook(b);
    && PolicyAccepted(cfg.policy)
    && w.Some?
    && w.value.orderId == order.domainId
    && order.providerId == Some(w.value.cfOrderId)
    && b.amountMinor == Some(order.amount)
    && w.value.currency == order.currency
    && b.customer == order.customer
    && b.purpose == order.purpose
    && (if b.environment.Some? then b.environment.value else cfg.environment) == order.environment
    && w.value.status in cfg.policy.success
  }

  /** The payment that a webhook is about, if it names one. */
  function PaymentOf(s: Step): Option<Text>
    requires IsWebhook(s)
  {
    RequiredReference(s.event.body.paymentId)
  }

  // ---------------------------------------------------------------- what decides one webhook

  /** The stored order's currency is normal already, so the amounts the handler compares are these. */
  lemma DecidesPaidExactly(cfg: Config, db: Db, meta: Envelope, b: CashfreeBody, o: Uuid, now: int)
    requires Inv(cfg, db) && o in db.orders && o !in db.paid
    requires ParseWebhook(b).Some? && ParseWebhook(b).value.orderId == db.orders[o].domainId
    ensures
      var d := Decide(cfg, db, meta, b, o, now);
      (d.Some? && d.value.kind == TransitionPaid) <==> BoundSuccess(cfg, db.orders[o], b)
  {
    hide Inv, VerifyPayment, ParseWebhook;
    var order, w := db.orders[o], ParseWebhook(b).value;
    OrderFacts(cfg, db, o);
    IsoCurrencyIsNormal(order.currency);
    ParsedCurrencyIsNormal(b);
    if order.providerId.Some? && b.amountMinor.Some? {
      var bound, paid := MakeMoney(order.amount, order.currency), MakeMoney(b.amountMinor.value, w.currency);
      if bound.Some? && paid.Some? {
        PaidExactlyOnBoundSuccess(
          WebhookBinding(order, w, bound.value), WebhookEvidence(cfg, meta.id, order.providerId.value, b, w, paid.value),
          cfg.policy, {}, false, now);
      }
    }
  }

  lemma OnlyOrderWithDomainId(cfg: Config, db: Db, o: Uuid)
    requires Inv(cfg, db) && o in db.orders
    ensures Pick(OrdersByDomainId(db, db.orders[o].domainId)) == Some(o)
  {
    hide LogInv, RowsInv, CashfreeInv, PaidInv, SettledInv, HandoffInv, EvidenceInv, CountInv, RequestsInv, StartedInv, OrderOk;
    assert o in OrdersByDomainId(db, db.orders[o].domainId);
  }

  // ---------------------------------------------------------------- the setting

  /** The order is bound and unpaid, its demo can be paid for, and its outbox keys are free. */
  ghost predicate Awaiting(cfg: Config, db: Db, o: Uuid) {
    && Inv(cfg, db)
    && o in db.orders && db.orders[o].providerId.Some? && o !in db.paid
    && db.orders[o].demo in db.demos && Payable(db.demos[db.orders[o].demo].state)
    && !OutboxClash(db, PaidEventId(o), db.orders[o].tenant, OrderPaidKey(db.orders[o]))
  }

  /** The webhook is about the order, and nothing it brings is in the database yet. */
  ghost predicate UnseenWebhook(db: Db, o: Uuid, s: Step)
    requires o in db.orders && IsWebhook(s)
  {
    var meta, b := s.event.meta, s.event.body;
    && RequiredReference(b.orderId) == Some(db.orders[o].domainId)
    && !EventClash(db, FromCashfree, meta.id, CashfreePayload(b))
    && (PaymentOf(s).Some? ==> PaymentOf(s).value !in db.attempts)
    && !LogClash(db, db.orders[o].demo, meta.key)
    && (forall p :: p in db.paid ==> db.paid[p].id != s.newId)
  }

  /** Two deliveries are of the same event, or differ in event id, payload and payment id. */
  predicate Apart(a: Step, b: Step) {
    IsWebhook(a) && IsWebhook(b) && a.event != b.event ==>
      && a.event.meta.id != b.event.meta.id
      && a.event.body != b.event.body
      && (PaymentOf(a).Some? ==> PaymentOf(a) != PaymentOf(b))
  }

  /** The webhook names the order. */
  predicate IsAbout(s: Step, order: Order) {
    IsWebhook(s) && RequiredReference(s.event.body.orderId) == Some(order.domainId)
  }

  /**
   A step, of any writer and about anything, that does not move the order's demo and takes neither
   the outbox keys of the order's payment nor anything that its webhooks bring.
   */
  ghost predicate LeavesWaiting(a: Db, b: Db, o: Uuid, order: Order, steps: seq<Step>) {
    && o in a.orders && o in b.orders && order.providerId.Some?
    && LogOf(b, order.demo) == LogOf(a, order.demo)
    && !OutboxClash(b, PaidEventId(o), order.tenant, OrderPaidKey(order))
    && (forall i :: 0 <= i < |steps| && IsAbout(steps[i], order) && UnseenWebhook(a, o, steps[i]) ==>
          UnseenWebhook(b, o, steps[i]))
  }

  /** Webhooks about the order that are new at first, any of them repeated any number of times. */
  ghost predicate ItsWebhooks(db: Db, o: Uuid, steps: seq<Step>)
    requires o in db.orders
  {
    var order := db.orders[o];
    && (forall i :: 0 <= i < |steps| && IsAbout(steps[i], order) ==> UnseenWebhook(db, o, steps[i]))
    && (forall i, j :: 0 <= i < j < |steps| && IsAbout(steps[i], order) && IsAbout(steps[j], order) ==> Apart(steps[i], steps[j]))
  }

  /**
   Between the first n of them lie reconciliation and, while the order is unpaid, any steps that
   leave it waiting; once it is paid, any steps at all.
   */
  ghost predicate Interleaved(cfg: Config, db: Db, o: Uuid, steps: seq<Step>, n: nat)
    requires o in db.orders && n <= |steps|
  {
    forall i | 0 <= i < n && !IsAbout(steps[i], db.orders[o]) && !IsReconciliation(steps[i]) ::
      o in Exec(cfg, db, steps[..i]).paid
      || LeavesWaiting(Exec(cfg, db, steps[..i]), Exec(cfg, db, steps[..i + 1]), o, db.orders[o], steps)
  }

  ghost predicate Deliveries(cfg: Config, db: Db, o: Uuid, steps: seq<Step>)
    requires o in db.orders
  {
    ItsWebhooks(db, o, steps) && Interleaved(cfg, db, o, steps, |steps|)
  }

  predicate SucceedsIn(cfg: Config, order: Order, steps: seq<Step>) {
    exists i :: 0 <= i < |steps| && IsAbout(steps[i], order) && BoundSuccess(cfg, order, steps[i].event.body)
  }

  /** None of the first n deliveries is of the same event. */
  predicate IsNew(order: Order, steps: seq<Step>, n: nat, s: Step)
    requires n <= |steps| && IsWebhook(s)
  {
    forall j :: 0 <= j < n && IsAbout(steps[j], order) ==> steps[j].event != s.event
  }

  /** After the first n deliveries, whatever was not among them is unseen. */
  ghost predicate StillUnseen(db: Db, o: Uuid, order: Order, steps: seq<Step>, n: nat)
    requires o in db.orders && n <= |steps|
  {
    forall i :: 0 <= i < |steps| && IsAbout(steps[i], order) && IsNew(order, steps, n, steps[i]) ==> UnseenWebhook(db, o, steps[i])
  }

  // ---------------------------------------------------------------- steps that leave the order waiting

  /** The comparison reads only what never changes of a bound order. */
  lemma SameComparison(cfg: Config, a: Order, b: Order, s: Step)
    requires SameOrder(a, b) && a.providerId.Some?
    ensures IsAbout(s, a) <==> IsAbout(s, b)
    ensures IsWebhook(s) ==> (BoundSuccess(cfg, a, s.event.body) <==> BoundSuccess(cfg, b, s.event.body))
    ensures OrderPaidKey(a) == OrderPaidKey(b)
  {
    hide ParseWebhook;
  }

  /** Only the two tables of reconciliation change, so nothing that a webhook meets does. */
  lemma UnseenElsewhere(a: Db, b: Db, o: Uuid, s: Step)
    requires b == a.(orders := b.orders, reconciliations := b.reconciliations)
    requires o in a.orders && o in b.orders && SameOrder(a.orders[o], b.orders[o])
    requires IsWebhook(s) && UnseenWebhook(a, o, s)
    ensures UnseenWebhook(b, o, s)
  {
    assert LogOf(b, b.orders[o].demo) == LogOf(a, a.orders[o].demo);
    assert b.events == a.events && b.attempts == a.attempts && b.paid == a.paid;
  }

  lemma ReconciliationWaits(cfg: Config, db: Db, o: Uuid, order: Order, steps: seq<Step>, n: nat)
    requires n < |steps| && IsReconciliation(steps[n])
    requires Awaiting(cfg, db, o) && SameOrder(order, db.orders[o]) && StillUnseen(db, o, order, steps, n)
    ensures
      var after := Next(cfg, db, steps[n]);
      Awaiting(cfg, after, o) && StillUnseen(after, o, order, steps, n + 1)
  {
    hide Inv, Next, UnseenWebhook, Apart, OutboxClash, Payable, Kept;
    var after := Next(cfg, db, steps[n]);
    ReconciliationFrame(cfg, db, steps[n]);
    OrderIsKept(cfg, db, steps[n], o);
    NextKeepsInv(cfg, db, steps[n]);
    SameClash(db, after, PaidEventId(o), db.orders[o].tenant, OrderPaidKey(db.orders[o]));
    forall i | 0 <= i < |steps| && IsAbout(steps[i], order) && IsNew(order, steps, n + 1, steps[i])
      ensures UnseenWebhook(after, o, steps[i])
    {
      assert IsNew(order, steps, n, steps[i]);
      UnseenElsewhere(db, after, o, steps[i]);
    }
  }

  lemma SameClash(a: Db, b: Db, id: Uuid, tenant: Text, key: Text)
    requires a.outbox == b.outbox
    ensures OutboxClash(a, id, tenant, key) <==> OutboxClash(b, id, tenant, key)
  {
  }

  lemma OrderIsKept(cfg: Config, db: Db, s: Step, o: Uuid)
    requires Inv(cfg, db) && o in db.orders
    ensures o in Next(cfg, db, s).orders && SameOrder(db.orders[o], Next(cfg, db, s).orders[o])
    ensures o in db.paid ==> o in Next(cfg, db, s).paid
  {
    hide Inv, Next, LogGrows, RequestsKept, OutboxKept, EventsKept, AttemptsKept;
    SameDemos(cfg, db);
    NextKept(cfg, db, s);
  }

  /** What a webhook that is no bound success leaves behind. */
  ghost predicate Noted(a: Db, b: Db, o: Uuid, s: Step)
    requires IsWebhook(s) && o in a.orders
  {
    b == a
    || (o in b.orders && SameOrder(a.orders[o], b.orders[o]) && PaymentOf(s).Some?
        && b == a.(events := b.events, attempts := b.attempts, orders := b.orders)
        && NotedEvent(a.events, b.events, (FromCashfree, s.event.meta.id), CashfreePayload(s.event.body))
        && NotedAttempt(a.attempts, b.attempts, PaymentOf(s).value))
  }

  predicate NotedEvent(a: map<(Source, Uuid), ProviderEvent>, b: map<(Source, Uuid), ProviderEvent>, k: (Source, Uuid), payload: WebhookPayload) {
    k in b && b[k].payload == payload && b == a[k := b[k]]
  }

  predicate NotedAttempt(a: map<Text, Attempt>, b: map<Text, Attempt>, t: Text) { t in b && b == a[t := b[t]] }

  lemma OtherWebhookIsNoted(cfg: Config, db: Db, o: Uuid, s: Step)
    requires Awaiting(cfg, db, o) && IsAbout(s, db.orders[o]) && !BoundSuccess(cfg, db.orders[o], s.event.body)
    ensures Noted(db, Next(cfg, db, s), o, s)
  {
    hide Inv, BoundSuccess, EventClash, VerifyPayment, MakeMoney, WebhookBinding, WebhookEvidence, OutboxClash, OrderPaidKey, OrdersByDomainId, Payable, StatusAfter, Strip, Upper, Noted;
    var meta, body := s.event.meta, s.event.body;
    OnlyOrderWithDomainId(cfg, db, o);
    var e := ProcessCashfree(cfg, db, meta, body, s.newId, s.at);
    if e.Done? {
      DecidesPaidExactly(cfg, db, meta, body, o, s.at);
      var kind := Decide(cfg, db, meta, body, o, s.at).value.kind;
      var w := ParseWebhook(body).value;
      var attempt := Attempt(o, meta.id, w.status, body.amountMinor.value, w.currency, meta.occurredAt);
      NotedWrite(db, o, s, Some(kind), w.paymentId, attempt, StatusAfter(kind, db.orders[o].status));
    } else {
      NothingNoted(db, o, s);
    }
  }

  lemma NotedWrite(db: Db, o: Uuid, s: Step, decision: Option<DecisionKind>, paymentId: Text, attempt: Attempt, status: OrderStatus)
    requires IsWebhook(s) && o in db.orders && PaymentOf(s) == Some(paymentId)
    ensures
      var db1 := RecordAttempt(RecordEvent(db, FromCashfree, s.event.meta.id, CashfreePayload(s.event.body), decision), paymentId, attempt);
      Noted(db, SetOrder(db1, o, db.orders[o].(status := status)), o, s)
  {
    hide RequiredReference;
  }

  lemma NothingNoted(db: Db, o: Uuid, s: Step)
    requires IsWebhook(s) && o in db.orders
    ensures Noted(db, db, o, s)
  {
  }

  lemma NotedIsUnseen(a: Db, b: Db, o: Uuid, s: Step, other: Step)
    requires IsWebhook(s) && o in a.orders && Noted(a, b, o, s)
    requires IsWebhook(other) && s.event != other.event && (Apart(s, other) || Apart(other, s)) && UnseenWebhook(a, o, other)
    ensures o in b.orders && UnseenWebhook(b, o, other)
  {
    hide RequiredReference;
    assert LogOf(b, b.orders[o].demo) == LogOf(a, a.orders[o].demo);
    assert b.paid == a.paid;
  }

  lemma OtherWebhookWaits(cfg: Config, db: Db, o: Uuid, order: Order, steps: seq<Step>, n: nat)
    requires n < |steps| && Awaiting(cfg, db, o) && SameOrder(order, db.orders[o]) && StillUnseen(db, o, order, steps, n)
    requires IsAbout(steps[n], db.orders[o]) && !BoundSuccess(cfg, db.orders[o], steps[n].event.body)
    requires forall i, j :: 0 <= i < j < |steps| && IsAbout(steps[i], order) && IsAbout(steps[j], order) ==> Apart(steps[i], steps[j])
    ensures
      var after := Next(cfg, db, steps[n]);
      Awaiting(cfg, after, o) && StillUnseen(after, o, order, steps, n + 1)
  {
    hide Inv, Next, UnseenWebhook, Apart, OutboxClash, Payable, BoundSuccess, Noted, OrderPaidKey;
    var after := Next(cfg, db, steps[n]);
    OtherWebhookIsNoted(cfg, db, o, steps[n]);
    NextKeepsInv(cfg, db, steps[n]);
    NotedWaits(cfg, db, after, o, steps[n]);
    forall i | 0 <= i < |steps| && IsAbout(steps[i], order) && IsNew(order, steps, n + 1, steps[i])
      ensures UnseenWebhook(after, o, steps[i])
    {
      assert IsNew(order, steps, n, steps[i]);
      assert IsAbout(steps[n], order) && steps[n].event != steps[i].event;
      assert i < n ==> Apart(steps[i], steps[n]);
      assert n < i ==> Apart(steps[n], steps[i]);
      NotedIsUnseen(db, after, o, steps[n], steps[i]);
    }
  }

  lemma NotedWaits(cfg: Config, a: Db, b: Db, o: Uuid, s: Step)
    requires Awaiting(cfg, a, o) && Inv(cfg, b) && IsWebhook(s) && Noted(a, b, o, s)
    ensures Awaiting(cfg, b, o)
  {
    hide Inv, Payable, RequiredReference;
  }

  // ---------------------------------------------------------------- steps elsewhere

  /** An unmoved demo is in the same state and none of its orders was paid. */
  lemma UnmovedIsUnpaid(cfg: Config, db: Db, s: Step, o: Uuid)
    requires Inv(cfg, db) && o in db.orders && o !in db.paid
    requires LogOf(Next(cfg, db, s), db.orders[o].demo) == LogOf(db, db.orders[o].demo)
    ensures
      var d, after := db.orders[o].demo, Next(cfg, db, s);
      o !in after.paid && d in db.demos && d in after.demos && after.demos[d].state == db.demos[d].state
  {
    hide Inv, Next, Kept, Count;
    var d, after := db.orders[o].demo, Next(cfg, db, s);
    SameDemos(cfg, db);
    NextKept(cfg, db, s);
    NextKeepsInv(cfg, db, s);
    OrderFacts(cfg, db, o);
    UnmovedState(cfg, db, after, d);
    CountFacts(cfg, db, d);
    CountFacts(cfg, after, d);
    PaidOrdersGrow(db, after, d);
    if o in after.paid {
      assert o in PaidOrdersOf(after.orders, after.paid, d) by {
        KeptOrder(db, after, o);
      }
      SubsetOfSameSize(PaidOrdersOf(db.orders, db.paid, d), PaidOrdersOf(after.orders, after.paid, d));
    }
  }

  lemma KeptOrder(a: Db, b: Db, o: Uuid)
    requires Kept(a, b) && o in a.orders
    ensures o in b.orders && SameOrder(a.orders[o], b.orders[o])
  {
    hide LogGrows, RequestsKept, OutboxKept, EventsKept, AttemptsKept, PaidKept;
  }

  lemma PaidOrdersGrow(a: Db, b: Db, d: Uuid)
    requires Kept(a, b)
    ensures PaidOrdersOf(a.orders, a.paid, d) <= PaidOrdersOf(b.orders, b.paid, d)
  {
    hide LogGrows, RequestsKept, OutboxKept, EventsKept, AttemptsKept;
  }

  lemma SubsetOfSameSize(a: set<Uuid>, b: set<Uuid>)
    requires a <= b && |a| == |b|
    ensures a == b
  {
    assert |b - a| == |b| - |a|;
    if x :| x in b && x !in a {
      assert x in b - a;
    }
  }

  lemma UnmovedState(cfg: Config, a: Db, b: Db, d: Uuid)
    requires Inv(cfg, a) && Inv(cfg, b) && d in a.demos && LogOf(b, d) == LogOf(a, d)
    ensures d in b.demos && b.demos[d].state == a.demos[d].state
  {
    hide OrdersInv, RowsInv, CashfreeInv, PaidInv, SettledInv, HandoffInv, EvidenceInv, CountInv, RequestsInv, StartedInv, Chained, SagaSound;
    assert LogOk(a.log[d], a.demos[d]);
    assert d in b.log;
    assert LogOk(b.log[d], b.demos[d]);
  }

  lemma ElsewhereWaits(cfg: Config, db: Db, o: Uuid, order: Order, steps: seq<Step>, n: nat)
    requires n < |steps| && Awaiting(cfg, db, o) && SameOrder(order, db.orders[o]) && order.providerId.Some?
    requires StillUnseen(db, o, order, steps, n)
    requires LeavesWaiting(db, Next(cfg, db, steps[n]), o, order, steps)
    ensures
      var after := Next(cfg, db, steps[n]);
      Awaiting(cfg, after, o) && StillUnseen(after, o, order, steps, n + 1)
  {
    hide Inv, Next, UnseenWebhook, OutboxClash, Payable, BoundSuccess, OrderPaidKey;
    var after := Next(cfg, db, steps[n]);
    OrderIsKept(cfg, db, steps[n], o);
    NextKeepsInv(cfg, db, steps[n]);
    UnmovedIsUnpaid(cfg, db, steps[n], o);
    SameComparison(cfg, order, db.orders[o], steps[n]);
    SameComparison(cfg, db.orders[o], after.orders[o], steps[n]);
    forall i | 0 <= i < |steps| && IsAbout(steps[i], order) && IsNew(order, steps, n + 1, steps[i])
      ensures UnseenWebhook(after, o, steps[i])
    {
      assert IsNew(order, steps, n, steps[i]);
    }
  }

  // ---------------------------------------------------------------- a bound success pays

  lemma PaidPaymentKnown(cfg: Config, db: Db, o: Uuid, p: Uuid)
    requires Inv(cfg, db) && o in db.orders && db.orders[o].providerId.Some? && p in db.paid && p != o
    ensures db.paid[p].paymentId in db.attempts
    ensures db.paid[p].activationKey != OrderActivationKey(db.orders[o])
  {
    hide Inv, AttemptSupports, VerifiedRowFor;
    PaidFacts(cfg, db, p);
    DomainIdsDiffer(cfg, db, o, p);
    var x, y := db.orders[o], db.orders[p];
    var kx := [Str("activation"), x.domainId, x.providerId.value, UuidText(x.demo)];
    var ky := [Str("activation"), y.domainId, y.providerId.value, UuidText(y.demo)];
    assert kx[1] != ky[1];
  }

  lemma DomainIdsDiffer(cfg: Config, db: Db, o: Uuid, p: Uuid)
    requires Inv(cfg, db) && o in db.orders && p in db.orders && o != p
    ensures db.orders[o].domainId != db.orders[p].domainId
  {
    hide LogInv, RowsInv, CashfreeInv, PaidInv, SettledInv, HandoffInv, EvidenceInv, CountInv, RequestsInv, StartedInv, OrderOk;
  }

  /** Nothing stands in the way of the new paid transition. */
  lemma NewPaidUnclashed(cfg: Config, db: Db, o: Uuid, row: Paid)
    requires Inv(cfg, db) && o in db.orders && db.orders[o].providerId.Some? && o !in db.paid
    requires row.paymentId !in db.attempts && row.activationKey == OrderActivationKey(db.orders[o])
    requires forall p :: p in db.paid ==> db.paid[p].id != row.id
    ensures !PaidClash(db, o, row)
  {
    hide Inv, OrderActivationKey;
    forall p | p in db.paid ensures db.paid[p].paymentId != row.paymentId && db.paid[p].activationKey != row.activationKey {
      PaidPaymentKnown(cfg, db, o, p);
    }
  }

  /** The database once the verified payment of the order is applied. */
  function PaidDb(db: Db, meta: Envelope, o: Uuid, row: Paid, outboxKey: Text, now: int): Db
    requires o in db.orders && db.orders[o].providerId.Some? && db.orders[o].demo in db.demos && ParsePlan(db.orders[o].plan).Some?
  {
    var order := db.orders[o];
    var settled := order.(status := Settled, paidAt := Some(meta.occurredAt), version := order.version + 1);
    var db1 := Move(SetOrder(db, o, settled), order.demo, VERIFY_PAYMENT, PAID, meta.key);
    AddOutbox(db1.(paid := db.paid[o := row]), PaidEventId(o),
              VerifiedRow(o, order, ParsePlan(order.plan).value, row.paymentId, row.activationKey, outboxKey, meta.occurredAt, now))
  }

  function NewPaid(order: Order, meta: Envelope, w: ParsedWebhook, newId: Uuid): Paid
    requires order.providerId.Some?
  {
    Paid(newId, w.paymentId, OrderActivationKey(order), order.amount, order.currency, meta.occurredAt)
  }

  lemma BoundSuccessPays(cfg: Config, db: Db, o: Uuid, s: Step)
    requires Awaiting(cfg, db, o) && IsWebhook(s) && UnseenWebhook(db, o, s)
    requires BoundSuccess(cfg, db.orders[o], s.event.body)
    ensures o in Next(cfg, db, s).paid
    ensures ParsePlan(db.orders[o].plan).Some?
    ensures
      var meta, w, after := s.event.meta, ParseWebhook(s.event.body).value, Next(cfg, db, s);
      after == PaidDb(db.(events := after.events, attempts := after.attempts), meta, o, NewPaid(db.orders[o], meta, w, s.newId),
                      OrderPaidKey(db.orders[o]), s.at)
  {
    hide Inv, EventClash, Decide, OrderPaidKey, OrderActivationKey, OrdersByDomainId, ApplyPaid, Strip, Upper, PaidDb, ParsePlan;
    var meta, body := s.event.meta, s.event.body;
    var w := ParseWebhook(body).value;
    OnlyOrderWithDomainId(cfg, db, o);
    DecidesPaidExactly(cfg, db, meta, body, o, s.at);
    PaidDecisionFacts(cfg, db, meta, body, o, s.at);
    var kind := Decide(cfg, db, meta, body, o, s.at).value.kind;
    var attempt := Attempt(o, meta.id, w.status, body.amountMinor.value, w.currency, meta.occurredAt);
    var db1 := RecordAttempt(RecordEvent(db, FromCashfree, meta.id, CashfreePayload(body), Some(kind)), w.paymentId, attempt);
    NewPaidUnclashed(cfg, db, o, NewPaid(db.orders[o], meta, w, s.newId));
    OrderPlanFacts(cfg, db, o);
    PaysIn(db, db1, meta, o, NewPaid(db.orders[o], meta, w, s.newId), OrderPaidKey(db.orders[o]), s.at);
    PaidDbKeepsEvents(db1, meta, o, NewPaid(db.orders[o], meta, w, s.newId), OrderPaidKey(db.orders[o]), s.at);
    assert db1 == db.(events := db1.events, attempts := db1.attempts);
  }

  lemma PaidDbKeepsEvents(db: Db, meta: Envelope, o: Uuid, row: Paid, outboxKey: Text, now: int)
    requires o in db.orders && db.orders[o].providerId.Some? && db.orders[o].demo in db.demos && ParsePlan(db.orders[o].plan).Some?
    ensures
      var after := PaidDb(db, meta, o, row, outboxKey, now);
      after.events == db.events && after.attempts == db.attempts && o in after.paid
  {
    hide ParsePlan, VerifiedRow;
  }

  lemma PaysIn(db: Db, db1: Db, meta: Envelope, o: Uuid, row: Paid, outboxKey: Text, now: int)
    requires db1 == db.(events := db1.events, attempts := db1.attempts)
    requires o in db.orders && db.orders[o].providerId.Some? && db.orders[o].demo in db.demos
    requires Payable(db.demos[db.orders[o].demo].state)
    requires ParsePlan(db.orders[o].plan).Some? && ParsePlan(db.orders[o].plan).value > 0
    requires row == Paid(row.id, row.paymentId, row.activationKey, db.orders[o].amount, db.orders[o].currency, meta.occurredAt)
    requires !PaidClash(db, o, row)
    requires !LogClash(db, db.orders[o].demo, meta.key)
    requires !OutboxClash(db, PaidEventId(o), db.orders[o].tenant, outboxKey)
    ensures ApplyPaid(db1, meta, o, row.paymentId, row.activationKey, outboxKey, row.id, now) == Done(PaidDb(db1, meta, o, row, outboxKey, now))
  {
    hide ParsePlan, VerifiedRow, SetOrder, Payable, Move, AddOutbox;
    SetOrderFrame(db1, o, db.orders[o].(status := Settled, paidAt := Some(meta.occurredAt), version := db.orders[o].version + 1));
    assert !PaidClash(db1, o, row);
    assert !OutboxClash(db1, PaidEventId(o), db.orders[o].tenant, outboxKey);
    assert LogOf(db1, db.orders[o].demo) == LogOf(db, db.orders[o].demo);
    assert !LogClash(db1, db.orders[o].demo, meta.key);
    MoveFrame(SetOrder(db1, o, db.orders[o].(status := Settled, paidAt := Some(meta.occurredAt), version := db.orders[o].version + 1)),
              db.orders[o].demo, VERIFY_PAYMENT, PAID, meta.key);
  }

  // ---------------------------------------------------------------- whole runs

  lemma SucceedsLonger(cfg: Config, order: Order, steps: seq<Step>, s: Step)
    ensures SucceedsIn(cfg, order, steps + [s]) <==>
      SucceedsIn(cfg, order, steps) || (IsAbout(s, order) && BoundSuccess(cfg, order, s.event.body))
  {
    hide BoundSuccess, RequiredReference;
    var all := steps + [s];
    assert all[|steps|] == s;
    forall i | 0 <= i < |steps| ensures all[i] == steps[i] {
    }
  }

  /** A success that was delivered before has paid already, so one that finds the order unpaid is new. */
  lemma FirstSuccessIsNew(cfg: Config, order: Order, steps: seq<Step>, n: nat)
    requires n < |steps| && IsAbout(steps[n], order) && BoundSuccess(cfg, order, steps[n].event.body)
    requires !SucceedsIn(cfg, order, steps[..n])
    ensures IsNew(order, steps, n, steps[n])
  {
    hide BoundSuccess, RequiredReference;
    var front := steps[..n];
    forall j | 0 <= j < n && IsAbout(steps[j], order) ensures steps[j].event != steps[n].event {
      assert front[j] == steps[j];
      assert !BoundSuccess(cfg, order, front[j].event.body);
    }
  }

  /** The verdict after the first n deliveries, and what still waits when there is none. */
  ghost predicate Verdict(cfg: Config, db: Db, o: Uuid, order: Order, steps: seq<Step>, n: nat)
    requires n <= |steps|
  {
    && Inv(cfg, db) && o in db.orders && SameOrder(order, db.orders[o])
    && (o in db.paid <==> SucceedsIn(cfg, order, steps[..n]))
    && (o !in db.paid ==> Awaiting(cfg, db, o) && StillUnseen(db, o, order, steps, n))
  }

  lemma UnpaidStep(cfg: Config, start: Db, db: Db, o: Uuid, steps: seq<Step>, n: nat)
    requires n < |steps| && o in start.orders && start.orders[o].providerId.Some?
    requires ItsWebhooks(start, o, steps) && Interleaved(cfg, start, o, steps, n + 1)
    requires db == Exec(cfg, start, steps[..n]) && Next(cfg, db, steps[n]) == Exec(cfg, start, steps[..n + 1])
    requires Verdict(cfg, db, o, start.orders[o], steps, n) && o !in db.paid
    ensures Verdict(cfg, Next(cfg, db, steps[n]), o, start.orders[o], steps, n + 1)
  {
    hide Inv, Next, Exec, UnseenWebhook, BoundSuccess, Apart, SucceedsIn, OutboxClash, Payable, IsNew, SameOrder, LeavesWaiting, IsAbout;
    var order, s := start.orders[o], steps[n];
    assert steps[..n] + [s] == steps[..n + 1];
    SucceedsLonger(cfg, order, steps[..n], s);
    SameComparison(cfg, order, db.orders[o], s);
    OrderIsKept(cfg, db, s, o);
    SameOrderTrans(order, db.orders[o], Next(cfg, db, s).orders[o]);
    NextKeepsInv(cfg, db, s);
    if IsAbout(s, order) {
      assert IsWebhook(s) by {
        AboutIsWebhook(s, order);
      }
      if BoundSuccess(cfg, order, s.event.body) {
        FirstSuccessIsNew(cfg, order, steps, n);
        BoundSuccessPays(cfg, db, o, s);
      } else {
        OtherWebhookWaits(cfg, db, o, order, steps, n);
      }
    } else if IsReconciliation(s) {
      ReconciliationWaits(cfg, db, o, order, steps, n);
    } else {
      ElsewhereWaits(cfg, db, o, order, steps, n);
    }
  }

  lemma AboutIsWebhook(s: Step, order: Order)
    requires IsAbout(s, order)
    ensures IsWebhook(s)
  {
  }

  lemma SameOrderTrans(a: Order, b: Order, c: Order)
    requires SameOrder(a, b) && SameOrder(b, c)
    ensures SameOrder(a, c)
  {
  }

  lemma PaidStep(cfg: Config, db: Db, o: Uuid, order: Order, steps: seq<Step>, n: nat)
    requires n < |steps| && Verdict(cfg, db, o, order, steps, n) && o in db.paid
    ensures Verdict(cfg, Next(cfg, db, steps[n]), o, order, steps, n + 1)
  {
    hide Inv, Next, BoundSuccess, SucceedsIn, IsAbout, SameOrder, StillUnseen;
    assert steps[..n] + [steps[n]] == steps[..n + 1];
    SucceedsLonger(cfg, order, steps[..n], steps[n]);
    OrderIsKept(cfg, db, steps[n], o);
    SameOrderTrans(order, db.orders[o], Next(cfg, db, steps[n]).orders[o]);
    NextKeepsInv(cfg, db, steps[n]);
  }

  lemma NothingDelivered(cfg: Config, db: Db, o: Uuid, steps: seq<Step>)
    requires Awaiting(cfg, db, o) && ItsWebhooks(db, o, steps)
    ensures Verdict(cfg, db, o, db.orders[o], steps, 0)
  {
    hide Inv, UnseenWebhook, Apart, OutboxClash, Payable;
  }

  lemma {:induction false} VerdictAfter(cfg: Config, db: Db, o: Uuid, steps: seq<Step>, n: nat)
    requires n <= |steps| && Awaiting(cfg, db, o) && ItsWebhooks(db, o, steps) && Interleaved(cfg, db, o, steps, n)
    ensures Verdict(cfg, Exec(cfg, db, steps[..n]), o, db.orders[o], steps, n)
  {
    hide Inv, Next, ItsWebhooks, LeavesWaiting, Verdict, OutboxClash, Payable;
    if n == 0 {
      NothingDelivered(cfg, db, o, steps);
    } else {
      VerdictAfter(cfg, db, o, steps, n - 1);
      var front, middle := steps[..n], Exec(cfg, db, steps[..n - 1]);
      assert front[..n - 1] == steps[..n - 1] && front[n - 1] == steps[n - 1];
      if o in middle.paid {
        PaidStep(cfg, middle, o, db.orders[o], steps, n - 1);
      } else {
        UnpaidStep(cfg, db, middle, o, steps, n - 1);
      }
    }
  }

  /**
   An order that awaits its payment ends up paid exactly when some delivery was a success that
   agrees with it in every bound field: duplicates, retries, failures, malformed webhooks,
   reconciliation and other orders' business make no difference, whatever their order.
   */
  lemma PaidIffSomeBoundSuccess(cfg: Config, db: Db, o: Uuid, steps: seq<Step>)
    requires Awaiting(cfg, db, o) && Deliveries(cfg, db, o, steps)
    ensures o in Exec(cfg, db, steps).paid <==> SucceedsIn(cfg, db.orders[o], steps)
    ensures o !in Exec(cfg, db, steps).paid ==> Awaiting(cfg, Exec(cfg, db, steps), o)
  {
    hide Inv, Exec, ItsWebhooks, Interleaved, SucceedsIn, StillUnseen, SameOrder, OutboxClash, Payable;
    assert steps[..|steps|] == steps;
    VerdictAfter(cfg, db, o, steps, |steps|);
  }

  // ---------------------------------------------------------------- permutations

  /** Two runs that deliver the same webhooks about the order give the same verdict, whatever else lies in between. */
  lemma PaidWhateverLiesBetween(cfg: Config, db: Db, o: Uuid, a: seq<Step>, b: seq<Step>)
    requires Awaiting(cfg, db, o) && Deliveries(cfg, db, o, a) && Deliveries(cfg, db, o, b)
    requires forall s: Step :: IsAbout(s, db.orders[o]) ==> (s in a <==> s in b)
    ensures o in Exec(cfg, db, a).paid <==> o in Exec(cfg, db, b).paid
  {
    hide Inv, Exec, Deliveries, SucceedsIn, OutboxClash, Payable;
    PaidIffSomeBoundSuccess(cfg, db, o, a);
    PaidIffSomeBoundSuccess(cfg, db, o, b);
    if SucceedsIn(cfg, db.orders[o], a) {
      SucceedsIfIncluded(cfg, db.orders[o], a, b);
    } else if SucceedsIn(cfg, db.orders[o], b) {
      SucceedsIfIncluded(cfg, db.orders[o], b, a);
    }
  }

  lemma SucceedsIfIncluded(cfg: Config, order: Order, a: seq<Step>, b: seq<Step>)
    requires SucceedsIn(cfg, order, a) && forall s: Step :: IsAbout(s, order) && s in a ==> s in b
    ensures SucceedsIn(cfg, order, b)
  {
    hide BoundSuccess, RequiredReference;
    var i :| 0 <= i < |a| && IsAbout(a[i], order) && BoundSuccess(cfg, order, a[i].event.body);
    assert a[i] in b;
    var j :| 0 <= j < |b| && b[j] == a[i];
  }

  /** Nothing but webhooks about the order and reconciliation. */
  predicate OnlyItsOwn(order: Order, steps: seq<Step>) {
    forall i :: 0 <= i < |steps| ==> IsAbout(steps[i], order) || IsReconciliation(steps[i])
  }

  lemma InBoth(a: seq<Step>, b: seq<Step>, i: nat) returns (j: nat)
    requires multiset(a) == multiset(b) && i < |a|
    ensures j < |b| && b[j] == a[i]
  {
    assert a[i] in multiset(b);
    j :| j < |b| && b[j] == a[i];
  }

  lemma DeliveriesPermuted(cfg: Config, db: Db, o: Uuid, a: seq<Step>, b: seq<Step>)
    requires o in db.orders && Deliveries(cfg, db, o, a) && OnlyItsOwn(db.orders[o], a) && multiset(a) == multiset(b)
    ensures Deliveries(cfg, db, o, b)
  {
    hide UnseenWebhook, RequiredReference, LeavesWaiting, IsReconciliation;
    var order := db.orders[o];
    forall i | 0 <= i < |b| ensures IsAbout(b[i], order) || IsReconciliation(b[i])
      ensures IsAbout(b[i], order) ==> UnseenWebhook(db, o, b[i])
    {
      var k := InBoth(b, a, i);
    }
    forall i, j | 0 <= i < j < |b| && IsAbout(b[i], order) && IsAbout(b[j], order) ensures Apart(b[i], b[j]) {
      var k := InBoth(b, a, i);
      var l := InBoth(b, a, j);
      if k < l {
        assert Apart(a[k], a[l]);
      } else if l < k {
        assert Apart(a[l], a[k]);
      }
    }
  }

  /** Every permutation of the order's webhooks and of reconciliation gives the same verdict. */
  lemma PaidInEveryOrder(cfg: Config, db: Db, o: Uuid, a: seq<Step>, b: seq<Step>)
    requires Awaiting(cfg, db, o) && Deliveries(cfg, db, o, a) && OnlyItsOwn(db.orders[o], a) && multiset(a) == multiset(b)
    ensures o in Exec(cfg, db, a).paid <==> o in Exec(cfg, db, b).paid
  {
    hide Inv, Exec, Deliveries, OnlyItsOwn, OutboxClash, Payable, IsAbout;
    DeliveriesPermuted(cfg, db, o, a, b);
    forall s: Step ensures s in a <==> s in b {
      assert s in a <==> s in multiset(a);
      assert s in b <==> s in multiset(b);
    }
    PaidWhateverLiesBetween(cfg, db, o, a, b);
  }
}
