/**
 What the saga promises over whole runs.
 */
module SagaTheorems {
  import opened Identifiers
  import opened Lifecycle
  import opened Monetary
  import opened PaymentVerification
  import opened Store
  import opened Handlers
  import opened SagaInvariant
  import opened SagaPreservation
  import opened SagaHistory

  // ---------------------------------------------------------------- the log and the saga's order

  /** In every reachable database each demo's log is a chain to its state, counted by its version. */
  lemma LogIsChain(cfg: Config, steps: seq<Step>, d: Uuid)
    requires d in Exec(cfg, EMPTY, steps).demos
    ensures d in Exec(cfg, EMPTY, steps).log
    ensures LogOk(Exec(cfg, EMPTY, steps).log[d], Exec(cfg, EMPTY, steps).demos[d])
  {
    hide Inv, Next, LogOk;
    ReachableInv(cfg, steps);
    LogFacts(cfg, Exec(cfg, EMPTY, steps), d);
  }

  lemma LogFacts(cfg: Config, db: Db, d: Uuid)
    requires Inv(cfg, db) && d in db.demos
    ensures d in db.log && LogOk(db.log[d], db.demos[d])
  {
    hide OrdersInv, RowsInv, CashfreeInv, PaidInv, SettledInv, HandoffInv, EvidenceInv, CountInv, RequestsInv, StartedInv, LogOk;
  }

  /** A demo whose log follows the table has its saga commands in order, as far as its state says. */
  lemma SagaIsPrefix(cfg: Config, steps: seq<Step>, d: Uuid)
    requires d in Exec(cfg, EMPTY, steps).demos
    requires OnTable(LogOf(Exec(cfg, EMPTY, steps), d))
    ensures
      var db := Exec(cfg, EMPTY, steps);
      && SagaCommands(LogOf(db, d)) <= SAGA
      && (!Abandoned(db.demos[d].state) ==> |SagaCommands(LogOf(db, d))| == Stage(db.demos[d].state))
  {
    LogIsChain(cfg, steps, d);
    SagaInOrder(LogOf(Exec(cfg, EMPTY, steps), d));
  }

  /** Such a demo never has a second payment order, nor a second paid transition. */
  lemma OneOrderPerDemo(cfg: Config, steps: seq<Step>, d: Uuid)
    requires d in Exec(cfg, EMPTY, steps).demos
    requires OnTable(LogOf(Exec(cfg, EMPTY, steps), d))
    ensures
      var db := Exec(cfg, EMPTY, steps);
      && |PaidOrdersOf(db.orders, db.paid, d)| <= |OrdersOf(db.orders, d)| <= 1
      && (Stage(db.demos[d].state) >= 1 ==> |OrdersOf(db.orders, d)| == 1)
      && (Stage(db.demos[d].state) >= 2 ==> |PaidOrdersOf(db.orders, db.paid, d)| == 1)
  {
    hide Inv, Next, LogOk, OrdersOf, PaidOrdersOf;
    var db := Exec(cfg, EMPTY, steps);
    ReachableInv(cfg, steps);
    LogIsChain(cfg, steps, d);
    CountFacts(cfg, db, d);
    OrdersAsCounted(db.log[d], db.demos[d]);
  }

  lemma OrdersAsCounted(run: seq<LogEntry>, demo: Demo)
    requires LogOk(run, demo) && OnTable(run)
    ensures Count(run, VERIFY_PAYMENT) <= Count(run, REQUEST_PAYMENT) <= 1
    ensures Stage(demo.state) >= 1 ==> Count(run, REQUEST_PAYMENT) == 1
    ensures Stage(demo.state) >= 2 ==> Count(run, VERIFY_PAYMENT) == 1
  {
    hide Count, SagaCommands, OnTable;
    assert LifecycleRun(run);
    SagaInOrder(run);
    SagaCommandAtMostOnce(run, 0);
    SagaCommandAtMostOnce(run, 1);
  }

  lemma CountFacts(cfg: Config, db: Db, d: Uuid)
    requires Inv(cfg, db) && d in db.demos
    ensures d in db.log
    ensures Count(db.log[d], REQUEST_PAYMENT) == |OrdersOf(db.orders, d)|
    ensures Count(db.log[d], VERIFY_PAYMENT) == |PaidOrdersOf(db.orders, db.paid, d)|
  {
    hide OrdersInv, RowsInv, CashfreeInv, PaidInv, SettledInv, HandoffInv, EvidenceInv, RequestsInv, StartedInv;
  }

  // ---------------------------------------------------------------- a state has its evidence

  lemma StateHasEvidence(cfg: Config, steps: seq<Step>, d: Uuid)
    requires d in Exec(cfg, EMPTY, steps).demos
    ensures
      var db := Exec(cfg, EMPTY, steps);
      var s := db.demos[d].state;
      && (s == PAID || s == ONBOARDING_HANDOFF || s == CONVERTED ==>
            exists o :: o in db.paid && o in db.orders && db.orders[o].demo == d)
      && (s == ONBOARDING_HANDOFF || s == CONVERTED ==>
            exists o :: o in db.handoffs && o in db.paid && o in db.orders && db.orders[o].demo == d)
  {
    hide Inv, Next;
    var db := Exec(cfg, EMPTY, steps);
    ReachableInv(cfg, steps);
    EvidenceFacts(cfg, db, d);
    if HasHandoff(db.orders, db.paid, db.handoffs, d) {
      var o :| o in db.handoffs && o in db.paid && o in db.orders && db.orders[o].demo == d;
    }
  }

  lemma EvidenceFacts(cfg: Config, db: Db, d: Uuid)
    requires Inv(cfg, db) && d in db.demos
    ensures db.demos[d].state == PAID ==> HasPaidOrder(db.orders, db.paid, d)
    ensures db.demos[d].state == ONBOARDING_HANDOFF || db.demos[d].state == CONVERTED ==>
      HasHandoff(db.orders, db.paid, db.handoffs, d)
  {
    hide LogInv, OrdersInv, RowsInv, CashfreeInv, PaidInv, SettledInv, HandoffInv, CountInv, RequestsInv, StartedInv, HasPaidOrder, HasHandoff;
  }

  /** Settled orders are paid for; orders waiting at the provider are bound to it. */
  lemma OrderStatusHasEvidence(cfg: Config, steps: seq<Step>, o: Uuid)
    requires o in Exec(cfg, EMPTY, steps).orders
    ensures
      var db := Exec(cfg, EMPTY, steps);
      && (db.orders[o].status.Settled? ==> o in db.paid)
      && (db.orders[o].status.Pending? ==> db.orders[o].providerId.Some?)
  {
    hide Inv, Next, NumericPlan, IsoCurrency;
    var db := Exec(cfg, EMPTY, steps);
    ReachableInv(cfg, steps);
    OrderFacts(cfg, db, o);
    if db.orders[o].status.Settled? {
      SettledFacts(cfg, db, o);
    }
  }

  // ---------------------------------------------------------------- paid once, recorded once

  ghost function VerifiedRows(db: Db): set<Uuid> {
    set id | id in db.outbox && db.outbox[id].cipher.plain.VerifiedPayload?
  }

  ghost function PaidRows(db: Db): set<Uuid> {
    set o | o in db.paid :: PaidEventId(o)
  }

  /** The verified-payment rows are exactly one per paid transition. */
  lemma OneVerifiedRowPerPaid(cfg: Config, steps: seq<Step>)
    ensures
      var db := Exec(cfg, EMPTY, steps);
      && VerifiedRows(db) == PaidRows(db)
      && (forall a, b :: a in db.paid && b in db.paid && PaidEventId(a) == PaidEventId(b) ==> a == b)
  {
    hide Inv, Next;
    var db := Exec(cfg, EMPTY, steps);
    ReachableInv(cfg, steps);
    forall o | o in db.paid ensures PaidEventId(o) in VerifiedRows(db) {
      PaidFacts(cfg, db, o);
    }
    VerifiedArePaid(cfg, db);
  }

  lemma VerifiedArePaid(cfg: Config, db: Db)
    requires Inv(cfg, db)
    ensures VerifiedRows(db) <= PaidRows(db)
  {
    hide LogInv, OrdersInv, RowsInv, CashfreeInv, SettledInv, HandoffInv, EvidenceInv, CountInv, RequestsInv, StartedInv, PaidOk;
    forall id | id in VerifiedRows(db) ensures id in PaidRows(db) {
      var o :| o in db.paid && id == PaidEventId(o);
    }
  }

  /** A demo's log verifies a payment exactly as often as its orders have paid transitions. */
  lemma OneVerifyPerPaid(cfg: Config, steps: seq<Step>, d: Uuid)
    requires d in Exec(cfg, EMPTY, steps).demos
    ensures
      var db := Exec(cfg, EMPTY, steps);
      Count(LogOf(db, d), VERIFY_PAYMENT) == |PaidOrdersOf(db.orders, db.paid, d)|
  {
    hide Inv, Next;
    ReachableInv(cfg, steps);
    CountFacts(cfg, Exec(cfg, EMPTY, steps), d);
  }

  /** A webhook never fails on the order's plan: every stored plan is a positive number. */
  lemma PlanErrorsNeverFire(cfg: Config, steps: seq<Step>, o: Uuid)
    requires o in Exec(cfg, EMPTY, steps).orders
    ensures
      var plan := ParsePlan(Exec(cfg, EMPTY, steps).orders[o].plan);
      plan.Some? && plan.value > 0
  {
    hide Inv, Next;
    ReachableInv(cfg, steps);
    OrderPlanFacts(cfg, Exec(cfg, EMPTY, steps), o);
  }

  /** The recorder's local binding check accepts every Cashfree row the service ever queued. */
  lemma LocalBindingNeverFails(cfg: Config, steps: seq<Step>, id: Uuid)
    requires id in Exec(cfg, EMPTY, steps).outbox
    requires Exec(cfg, EMPTY, steps).outbox[id].cipher.plain.CashfreeOrderPayload?
    ensures
      var db := Exec(cfg, EMPTY, steps);
      var row := db.outbox[id];
      ValidCashfreePayload(row.cipher.plain) && LocallyBound(db, row.tenant, row.cipher.plain)
  {
    hide Inv, Next;
    ReachableInv(cfg, steps);
    CashfreeRowFacts(cfg, Exec(cfg, EMPTY, steps), id);
  }

  lemma CashfreeRowFacts(cfg: Config, db: Db, id: Uuid)
    requires Inv(cfg, db) && id in db.outbox && db.outbox[id].cipher.plain.CashfreeOrderPayload?
    ensures CashfreeRowOk(db.orders, db.outbox[id])
  {
    hide LogInv, OrdersInv, RowsInv, PaidInv, SettledInv, HandoffInv, EvidenceInv, CountInv, RequestsInv, StartedInv, CashfreeRowOk;
  }

  lemma OrderHasCashfreeRow(cfg: Config, db: Db, o: Uuid)
    requires Inv(cfg, db) && o in db.orders && o.V5?
    ensures CashfreeEventId(o.space) in db.outbox
    ensures db.outbox[CashfreeEventId(o.space)].cipher.plain.CashfreeOrderPayload?
    ensures db.outbox[CashfreeEventId(o.space)].cipher.plain.order == o
  {
    hide LogInv, OrdersInv, RowsInv, PaidInv, SettledInv, HandoffInv, EvidenceInv, CountInv, RequestsInv, StartedInv, CashfreeRowOk;
  }

  // ---------------------------------------------------------------- asking twice

  /** Asking again with the same id and input, any time later, changes nothing. */
  lemma RequestRepeats(cfg: Config, steps: seq<Step>, tenant: Text, c: OrderCommand, correlation: Text, at: int,
                       later: seq<Step>, again: OrderCommand, correlation2: Text, at2: int)
    requires RequestOrder(cfg, Exec(cfg, EMPTY, steps), tenant, c, correlation, at).0.QuotePending?
    requires again.request == c.request
    ensures
      var db := Exec(cfg, RequestOrder(cfg, Exec(cfg, EMPTY, steps), tenant, c, correlation, at).1, later);
      RequestOrder(cfg, db, tenant, again, correlation2, at2)
      == (if again == c then Replayed else KeyReused, db)
  {
    hide Inv, Next;
    ReachableInv(cfg, steps);
    var db0 := Exec(cfg, EMPTY, steps);
    var db1 := RequestOrder(cfg, db0, tenant, c, correlation, at).1;
    RequestKeepsInv(cfg, db0, tenant, c, correlation, at);
    RunKept(cfg, db1, later);
    assert (tenant, UuidText(c.request)) in db1.requests;
  }

  /** A request that is not newly queued changes nothing. */
  lemma RefusedRequestChangesNothing(cfg: Config, db: Db, tenant: Text, c: OrderCommand, correlation: Text, at: int)
    ensures
      var (answer, after) := RequestOrder(cfg, db, tenant, c, correlation, at);
      (answer.QuotePending? <==> after != db)
  {
    var (answer, after) := RequestOrder(cfg, db, tenant, c, correlation, at);
    if answer.QuotePending? {
      assert (tenant, UuidText(c.request)) in after.requests && (tenant, UuidText(c.request)) !in db.requests;
    }
  }

  ghost function QueuedRequests(db: Db, tenant: Text, demo: Uuid): set<(Text, Text)> {
    set k | k in db.requests && k.0 == tenant && db.requests[k].status.Queued? && db.requests[k].hash.demo == demo
  }

  /** At most one quote request per demo is queued at any time. */
  lemma OneQueuedRequest(cfg: Config, steps: seq<Step>, tenant: Text, demo: Uuid)
    ensures |QueuedRequests(Exec(cfg, EMPTY, steps), tenant, demo)| <= 1
  {
    hide Inv, Next;
    var db := Exec(cfg, EMPTY, steps);
    ReachableInv(cfg, steps);
    var queued := QueuedRequests(db, tenant, demo);
    if queued != {} {
      var a :| a in queued;
      forall b | b in queued ensures b == a {
        QueuedApart(cfg, db, a, b);
      }
      assert queued == {a};
    }
  }

  lemma QueuedApart(cfg: Config, db: Db, a: (Text, Text), b: (Text, Text))
    requires Inv(cfg, db) && a in db.requests && b in db.requests && a.0 == b.0
    requires db.requests[a].status.Queued? && db.requests[b].status.Queued?
    requires db.requests[a].hash.demo == db.requests[b].hash.demo
    ensures a == b
  {
    hide LogInv, OrdersInv, RowsInv, CashfreeInv, PaidInv, SettledInv, HandoffInv, EvidenceInv, CountInv, StartedInv;
  }
}
