/**
 The scheduled batch that asks Cashfree about bound orders and rewrites their status.
 */
module Reconciliation {
  import opened Identifiers
  import opened Monetary
  import opened Store
  import opened Handlers
  import opened SagaInvariant
  import opened SagaPreservation
  import opened SagaOrderFree
  import opened SnapshotOutcomes
  import opened Database

  datatype Summary = Summary(inspected: nat, pending: nat, expired: nat, review: nat, failed: nat)

  function Count(s: Summary, result: SnapshotResult): Summary {
    match result
    case SnapshotPending => s.(pending := s.pending + 1)
    case SnapshotExpired => s.(expired := s.expired + 1)
    case SnapshotReview => s.(review := s.review + 1)
  }

  function Tally(s: Summary, result: Option<SnapshotResult>): Summary {
    var more := s.(inspected := s.inspected + 1);
    if result.None? then more.(failed := s.failed + 1) else Count(more, result.value)
  }

  ghost function Reservables(db: Db, tenant: Text, now: int): set<Uuid> {
    set o | o in db.orders && Reservable(db, tenant, o, now)
  }

  /** The answer sends the order to review without setting a new time to ask again. */
  predicate ReviewedNow(order: Order, s: Snapshot) {
    order.providerId != Some(s.providerId) || s.amount != order.amount || Upper(s.currency) != Upper(order.currency)
    || Upper(s.status) == "PAID"
  }

  /** An answer never settles an order, and decides on one only when it agrees in order, amount and currency. */
  lemma OnlyMatchingAnswersDecide(order: Order, s: Snapshot, next: int)
    requires !order.status.Settled?
    ensures
      var after := SnapshotOutcome(order, s, next).0;
      && !after.status.Settled? && SameOrder(order, after) && after.providerId == order.providerId
      && (after.status.Pending? || after.status.Lapsed? || after.status.ReconciliationRequired? ==>
            Some(s.providerId) == order.providerId && s.amount == order.amount && Upper(s.currency) == Upper(order.currency))
      && (Upper(s.status) == "PAID" ==> after.status.UnderReview?)
  {
    hide Upper;
    assert "PAID" != "EXPIRED" && "PAID" != "ACTIVE";
  }

  /** Answering an order that was due: it is due again at once exactly when it went to review so. */
  lemma DueAgainIffReviewed(order: Order, tenant: Text, s: Snapshot, now: int, next: int)
    requires Due(order, tenant, now) && next > now
    ensures Due(SnapshotOutcome(order.(status := Reconciling), s, next).0, tenant, now) <==> ReviewedNow(order, s)
    ensures ReviewedNow(order, s) ==> SnapshotOutcome(order.(status := Reconciling), s, next).1 == SnapshotReview
  {
    hide Upper;
  }

  /** The same within a batch: only a reviewed order can be reserved a second time. */
  lemma ReservableAgainIffReviewed(db: Db, tenant: Text, o: Uuid, before: OrderStatus, s: Snapshot, now: int, next: int)
    requires Reservable(db, tenant, o, now) && next > now
    ensures
      var after := ApplySnapshot(ReserveOrder(db, tenant, o, now), o, before, s, next);
      Reservable(after, tenant, o, now) <==> ReviewedNow(db.orders[o], s)
  {
    hide SnapshotOutcome, ReviewedNow;
    DueAgainIffReviewed(db.orders[o], tenant, s, now, next);
    ReserveThenAnswerOrders(db, tenant, o, before, s, now, next);
  }

  /** A failed fetch puts the order off to the next time. */
  lemma FailedIsPutOff(db: Db, tenant: Text, o: Uuid, now: int, next: int)
    requires Reservable(db, tenant, o, now) && next > now
    ensures !Reservable(RecordProviderFailure(ReserveOrder(db, tenant, o, now), o, next), tenant, o, now)
  {
  }

  lemma OthersStayReservable(db: Db, after: Db, tenant: Text, o: Uuid, now: int)
    requires o in db.orders && after.orders.Keys == db.orders.Keys
    requires forall x :: x in db.orders && x != o ==> after.orders[x] == db.orders[x]
    ensures Reservables(after, tenant, now) - {o} == Reservables(db, tenant, now) - {o}
  {
  }

  lemma ExecTwo(cfg: Config, db: Db, steps: seq<Step>, a: Step, b: Step)
    ensures Exec(cfg, db, steps + [a, b]) == Next(cfg, Next(cfg, Exec(cfg, db, steps), a), b)
  {
    hide Next;
    var all := steps + [a, b];
    assert all[..|all| - 1] == steps + [a];
    assert (steps + [a])[..|steps|] == steps;
  }

  /** Fewer orders are left to reserve, unless this one went to review. */
  lemma FewerLeft(db: Db, after: Db, tenant: Text, o: Uuid, now: int, again: bool)
    requires Reservable(db, tenant, o, now) && after.orders.Keys == db.orders.Keys
    requires forall x :: x in db.orders && x != o ==> after.orders[x] == db.orders[x]
    requires Reservable(after, tenant, o, now) <==> again
    ensures |Reservables(after, tenant, now)| == |Reservables(db, tenant, now)| - if again then 0 else 1
  {
    OthersStayReservable(db, after, tenant, o, now);
    var a, b := Reservables(db, tenant, now), Reservables(after, tenant, now);
    assert a == (a - {o}) + {o};
    if again {
      assert b == (a - {o}) + {o};
    } else {
      assert b == a - {o};
    }
  }

  lemma ReserveThenAnswerOrders(db: Db, tenant: Text, o: Uuid, before: OrderStatus, s: Snapshot, now: int, next: int)
    requires Reservable(db, tenant, o, now)
    ensures
      var after := ApplySnapshot(ReserveOrder(db, tenant, o, now), o, before, s, next);
      && after.orders.Keys == db.orders.Keys
      && (forall x :: x in db.orders && x != o ==> after.orders[x] == db.orders[x])
      && after.orders[o] == SnapshotOutcome(db.orders[o].(status := Reconciling), s, next).0
  {
    hide SnapshotHash, SnapshotOutcome;
    var order := db.orders[o].(status := Reconciling);
    var db1 := SetOrder(db, o, order);
    assert ReserveOrder(db, tenant, o, now) == db1;
    SetOneOrder(db, o, order);
    SetOneOrder(db1, o, SnapshotOutcome(order, s, next).0);
    AnsweredOrders(db1, o, before, s, next);
  }

  lemma SetOneOrder(db: Db, o: Uuid, order: Order)
    requires o in db.orders
    ensures SetOrder(db, o, order).orders.Keys == db.orders.Keys
    ensures SetOrder(db, o, order).orders[o] == order
    ensures forall x :: x in db.orders && x != o ==> SetOrder(db, o, order).orders[x] == db.orders[x]
  {
  }

  lemma AnsweredOrders(db: Db, o: Uuid, before: OrderStatus, s: Snapshot, next: int)
    requires o in db.orders && db.orders[o].providerId.Some?
    ensures ApplySnapshot(db, o, before, s, next).orders == SetOrder(db, o, SnapshotOutcome(db.orders[o], s, next).0).orders
  {
    hide SnapshotHash, SnapshotOutcome, SetOrder;
  }

  lemma ReserveThenFailOrders(db: Db, tenant: Text, o: Uuid, now: int, next: int)
    requires Reservable(db, tenant, o, now)
    ensures
      var after := RecordProviderFailure(ReserveOrder(db, tenant, o, now), o, next);
      after.orders.Keys == db.orders.Keys && forall x :: x in db.orders && x != o ==> after.orders[x] == db.orders[x]
  {
  }

  lemma ReservableFacts(db: Db, tenant: Text, o: Uuid, now: int)
    requires Reservable(db, tenant, o, now)
    ensures o in db.orders && db.orders[o].providerId.Some?
    ensures
      var after := ReserveOrder(db, tenant, o, now);
      o in after.orders && after.orders[o] == db.orders[o].(status := Reconciling)
  {
  }

  /** The two steps of one inspection, from the order's reservation to what the answer made of it. */
  ghost predicate Inspected(cfg: Config, db: Db, tenant: Text, now: int, next: int, answer: Option<Snapshot>,
                            two: seq<Step>, result: Option<SnapshotResult>)
  {
    && |two| == 2 && two[0].Reserve? && two[0] == Reserve(tenant, two[0].order, now)
    && Reservable(db, tenant, two[0].order, now)
    && var o := two[0].order;
    && var reserved := Next(cfg, db, two[0]);
    && var after := Next(cfg, reserved, two[1]);
    && o in reserved.orders && o in after.orders
    && match answer
       case None => result.None? && two[1] == ProviderFailed(o, next)
       case Some(s) =>
         && two[1] == ProviderAnswered(o, db.orders[o].status, s, next)
         && result.Some? && AnsweredAs(reserved.orders[o], after.orders[o], s, next, result.value)
  }

  /** One inspection after the other, each with its own answer. */
  ghost predicate AllInspected(cfg: Config, start: Db, tenant: Text, now: int, next: int, answers: nat -> Option<Snapshot>,
                               steps: seq<Step>, results: seq<Option<SnapshotResult>>)
  {
    && |steps| == 2 * |results|
    && forall i | 0 <= i < |results| ::
         Inspected(cfg, Exec(cfg, start, steps[..2 * i]), tenant, now, next, answers(i), steps[2 * i..2 * i + 2], results[i])
  }

  lemma OneMoreInspected(cfg: Config, start: Db, tenant: Text, now: int, next: int, answers: nat -> Option<Snapshot>,
                         steps: seq<Step>, results: seq<Option<SnapshotResult>>, two: seq<Step>, result: Option<SnapshotResult>)
    requires AllInspected(cfg, start, tenant, now, next, answers, steps, results)
    requires Inspected(cfg, Exec(cfg, start, steps), tenant, now, next, answers(|results|), two, result)
    ensures AllInspected(cfg, start, tenant, now, next, answers, steps + two, results + [result])
  {
    hide Exec, Inspected;
    var more := steps + two;
    assert |two| == 2 by {
      TwoSteps(cfg, Exec(cfg, start, steps), tenant, now, next, answers(|results|), two, result);
    }
    forall i | 0 <= i < |results| + 1
      ensures Inspected(cfg, Exec(cfg, start, more[..2 * i]), tenant, now, next, answers(i), more[2 * i..2 * i + 2], (results + [result])[i])
    {
      if i < |results| {
        assert more[..2 * i] == steps[..2 * i] && more[2 * i..2 * i + 2] == steps[2 * i..2 * i + 2];
      } else {
        assert more[..2 * i] == steps && more[2 * i..2 * i + 2] == two;
      }
    }
  }

  lemma TwoSteps(cfg: Config, db: Db, tenant: Text, now: int, next: int, answer: Option<Snapshot>, two: seq<Step>, result: Option<SnapshotResult>)
    requires Inspected(cfg, db, tenant, now, next, answer, two, result)
    ensures |two| == 2
  {
    hide Next, Reservable, AnsweredAs;
  }

  lemma NoneInspected(cfg: Config, start: Db, tenant: Text, now: int, next: int, answers: nat -> Option<Snapshot>)
    ensures AllInspected(cfg, start, tenant, now, next, answers, [], []) && Exec(cfg, start, []) == start
  {
  }

  /** The summary counts the results by kind. */
  predicate Counts(s: Summary, results: seq<Option<SnapshotResult>>) {
    && s.inspected == |results|
    && s.pending == multiset(results)[Some(SnapshotPending)]
    && s.expired == multiset(results)[Some(SnapshotExpired)]
    && s.review == multiset(results)[Some(SnapshotReview)]
    && s.failed == multiset(results)[None]
  }

  /** Reserves one due order and records the gateway's answer about it. */
  method ReconcileOne(db: Database, tenant: Text, o: Uuid, now: int, next: int, answer: Option<Snapshot>)
    returns (result: Option<SnapshotResult>, ghost steps: seq<Step>, ghost again: bool)
    requires db.Valid() && Reservable(db.Snapshot(), tenant, o, now) && next > now
    modifies db
    ensures db.Valid()
    ensures |steps| == 2 && IsReconciliation(steps[0]) && IsReconciliation(steps[1])
    ensures db.Snapshot() == Next(db.cfg, Next(db.cfg, old(db.Snapshot()), steps[0]), steps[1])
    ensures Inspected(db.cfg, old(db.Snapshot()), tenant, now, next, answer, steps, result)
    ensures again ==> result == Some(SnapshotReview)
    ensures again <==> answer.Some? && ReviewedNow(old(db.orders)[o], answer.value)
    ensures |Reservables(db.Snapshot(), tenant, now)| == |Reservables(old(db.Snapshot()), tenant, now)| - if again then 0 else 1
  {
    hide Inv, Due, ReviewedNow, ReserveOrder, RecordProviderFailure, ApplySnapshot, AnsweredAs, StoresAnswer, Reservable;
    ghost var here := db.Snapshot();
    ReservableFacts(here, tenant, o, now);
    var before := db.orders[o].status;
    db.Take(Reserve(tenant, o, now));
    match answer {
      case None =>
        ReserveThenFailOrders(here, tenant, o, now, next);
        FailedIsPutOff(here, tenant, o, now, next);
        db.Take(ProviderFailed(o, next));
        result, steps, again := None, [Reserve(tenant, o, now), ProviderFailed(o, next)], false;
      case Some(snapshot) =>
        result := db.RecordSnapshot(o, before, snapshot, next);
        steps, again := [Reserve(tenant, o, now), ProviderAnswered(o, before, snapshot, next)], ReviewedNow(here.orders[o], snapshot);
        AnsweredFacts(here, tenant, o, before, snapshot, now, next, db.Snapshot());
        ReviewIsTheResult(here, tenant, o, snapshot, now, next, db.orders[o], result.value);
    }
    FewerLeft(here, db.Snapshot(), tenant, o, now, again);
  }

  lemma AnsweredFacts(db: Db, tenant: Text, o: Uuid, before: OrderStatus, s: Snapshot, now: int, next: int, after: Db)
    requires Reservable(db, tenant, o, now) && next > now
    requires after == ApplySnapshot(ReserveOrder(db, tenant, o, now), o, before, s, next)
    ensures after.orders.Keys == db.orders.Keys && forall x :: x in db.orders && x != o ==> after.orders[x] == db.orders[x]
    ensures Reservable(after, tenant, o, now) <==> ReviewedNow(db.orders[o], s)
  {
    hide SnapshotOutcome, ReviewedNow, ApplySnapshot, ReserveOrder, Reservable;
    ReserveThenAnswerOrders(db, tenant, o, before, s, now, next);
    ReservableAgainIffReviewed(db, tenant, o, before, s, now, next);
  }

  lemma ReviewIsTheResult(db: Db, tenant: Text, o: Uuid, s: Snapshot, now: int, next: int, after: Order, result: SnapshotResult)
    requires Reservable(db, tenant, o, now) && AnsweredAs(db.orders[o].(status := Reconciling), after, s, next, result)
    ensures ReviewedNow(db.orders[o], s) ==> result == SnapshotReview
  {
    hide Upper, Reservable;
    assert "PAID" != "EXPIRED" && "PAID" != "ACTIVE";
  }

  lemma NothingCounted()
    ensures Counts(Summary(0, 0, 0, 0, 0), [])
  {
  }

  lemma CountsOneMore(s: Summary, results: seq<Option<SnapshotResult>>, result: Option<SnapshotResult>)
    requires Counts(s, results)
    ensures Counts(Tally(s, result), results + [result])
    ensures Tally(s, result).inspected == s.inspected + 1
    ensures s.inspected == s.pending + s.expired + s.review + s.failed ==>
      var t := Tally(s, result);
      t.inspected == t.pending + t.expired + t.review + t.failed
    ensures Tally(s, result).review == s.review + if result == Some(SnapshotReview) then 1 else 0
  {
    assert multiset(results + [result]) == multiset(results) + multiset{result};
  }

  /**
   Reserves, asks and records, until the batch is full or nothing is left.  The answers are the
   gateway's, in the order of asking; none means the call failed.  `again` counts the answers
   that leave their order reservable.
   */
  method ReconcileBatch(db: Database, tenant: Text, batchSize: int, delay: int, now: int, answers: nat -> Option<Snapshot>)
    returns (summary: Option<Summary>, ghost steps: seq<Step>, ghost results: seq<Option<SnapshotResult>>, ghost again: nat)
    requires db.Valid()
    modifies db
    ensures db.Valid()
    ensures summary.None? <==> !(1 <= batchSize <= 1000 && delay > 0)
    ensures db.Snapshot() == Exec(db.cfg, old(db.Snapshot()), steps)
    ensures forall i :: 0 <= i < |steps| ==> IsReconciliation(steps[i])
    ensures AllInspected(db.cfg, old(db.Snapshot()), tenant, now, now + delay, answers, steps, results)
    ensures summary.Some? ==>
      var s := summary.value;
      && Counts(s, results)
      && s.inspected == s.pending + s.expired + s.review + s.failed <= batchSize
      && |steps| == 2 * s.inspected
      && again <= s.review
      && |Reservables(db.Snapshot(), tenant, now)| == |Reservables(old(db.Snapshot()), tenant, now)| - s.inspected + again
      && (s.inspected < batchSize ==> Reservables(db.Snapshot(), tenant, now) == {})
    ensures summary.None? ==> steps == []
  {
    hide Inv, Due, ReviewedNow, Next, Exec, AllInspected, Inspected, Counts, Tally;
    steps, results, again := [], [], 0;
    NoneInspected(db.cfg, db.Snapshot(), tenant, now, now + delay, answers);
    assert Counts(Summary(0, 0, 0, 0, 0), []) by {
      NothingCounted();
    }
    if !(1 <= batchSize <= 1000 && delay > 0) {
      return None, steps, results, again;
    }
    var s, next, i := Summary(0, 0, 0, 0, 0), now + delay, 0;
    ghost var start := db.Snapshot();
    while i < batchSize
      invariant 0 <= i <= batchSize && s.inspected == i == |results|
      invariant db.Valid()
      invariant db.Snapshot() == Exec(db.cfg, start, steps)
      invariant forall k :: 0 <= k < |steps| ==> IsReconciliation(steps[k])
      invariant AllInspected(db.cfg, start, tenant, now, next, answers, steps, results) && Counts(s, results)
      invariant s.inspected == s.pending + s.expired + s.review + s.failed
      invariant |steps| == 2 * i && again <= s.review
      invariant |Reservables(db.Snapshot(), tenant, now)| == |Reservables(start, tenant, now)| - i + again
    {
      if o :| o in db.orders && Reservable(db.Snapshot(), tenant, o, now) {
        var result, two, reviewed := ReconcileOne(db, tenant, o, now, next, answers(i));
        ExecTwo(db.cfg, start, steps, two[0], two[1]);
        assert [two[0], two[1]] == two;
        OneMoreInspected(db.cfg, start, tenant, now, next, answers, steps, results, two, result);
        CountsOneMore(s, results, result);
        results := results + [result];
        steps := steps + two;
        again := again + if reviewed then 1 else 0;
        s := Tally(s, result);
        i := i + 1;
      } else {
        assert Reservables(db.Snapshot(), tenant, now) == {};
        break;
      }
    }
    return Some(s), steps, results, again;
  }
}
