/**
 Which orders reconciliation asks about, and what each answer makes of its order.
 */
module SnapshotOutcomes {
  import opened Identifiers
  import opened Monetary
  import opened Store
  import opened Handlers
  import opened Frames
  import Digits

  /** The answer is about the order's provider order, amount and currency. */
  predicate Matches(order: Order, s: Snapshot) {
    order.providerId == Some(s.providerId) && s.amount == order.amount && Upper(s.currency) == Upper(order.currency)
  }

  /** The result and the order's new state that an answer must have. */
  predicate AnsweredAs(order: Order, after: Order, s: Snapshot, next: int, result: SnapshotResult) {
    var status := Upper(s.status);
    && (result == SnapshotExpired <==> Matches(order, s) && status == "EXPIRED")
    && (result == SnapshotPending <==> Matches(order, s) && status == "ACTIVE")
    && (result == SnapshotExpired ==> after == order.(status := Lapsed))
    && (result == SnapshotPending ==> after == order.(status := Pending, reconcileAfter := Some(next)))
    && (!Matches(order, s) || status == "PAID" ==> after == order.(status := UnderReview))
    && (Matches(order, s) && status !in {"PAID", "EXPIRED", "ACTIVE"} ==>
          after == order.(status := ReconciliationRequired, reconcileAfter := Some(next)))
  }

  /** The first answer of its kind about the order is stored with its result; a repeated one adds nothing. */
  predicate StoresAnswer(a: Db, b: Db, o: Uuid, before: OrderStatus, s: Snapshot, result: SnapshotResult) {
    b.reconciliations ==
      if (o, SnapshotHash(s)) in a.reconciliations then a.reconciliations
      else a.reconciliations[(o, SnapshotHash(s)) := Reconciliation(before, result)]
  }

  /** Each answer leaves its order in the one state that goes with it, and no other order is touched. */
  lemma EachAnswerHasItsState(db: Db, o: Uuid, before: OrderStatus, s: Snapshot, next: int)
    requires o in db.orders && db.orders[o].providerId.Some?
    ensures
      var after := ApplySnapshot(db, o, before, s, next);
      && o in after.orders && after.orders == db.orders[o := after.orders[o]]
      && (exists result :: AnsweredAs(db.orders[o], after.orders[o], s, next, result) && StoresAnswer(db, after, o, before, s, result))
      && after == db.(orders := after.orders, reconciliations := after.reconciliations)
  {
    hide SnapshotHash, ApplySnapshot, AnsweredAs, SnapshotOutcome, StoresAnswer;
    AnswerOnTables(db, o, before, s, next);
    var after, answer := ApplySnapshot(db, o, before, s, next), SnapshotOutcome(db.orders[o], s, next);
    assert AnsweredAs(db.orders[o], after.orders[o], s, next, answer.1) && StoresAnswer(db, after, o, before, s, answer.1);
  }

  lemma UnboundAnswerIsDropped(db: Db, o: Uuid, before: OrderStatus, s: Snapshot, next: int)
    ensures o !in db.orders || db.orders[o].providerId.None? ==> ApplySnapshot(db, o, before, s, next) == db
  {
  }

  /** What an answer does to an order that can be asked about, in the two tables it changes. */
  lemma AnswerOnTables(db: Db, o: Uuid, before: OrderStatus, s: Snapshot, next: int)
    requires o in db.orders && db.orders[o].providerId.Some?
    ensures
      var after, (order, result) := ApplySnapshot(db, o, before, s, next), SnapshotOutcome(db.orders[o], s, next);
      && after == db.(orders := db.orders[o := order], reconciliations := after.reconciliations)
      && StoresAnswer(db, after, o, before, s, result) && AnsweredAs(db.orders[o], order, s, next, result)
  {
    hide Upper, SnapshotHash, SetOrder, AnsweredAs, SnapshotOutcome;
    OutcomeAnswers(db.orders[o], s, next);
    AnswerFrame(db, o, before, s, next);
    OneOrderSet(db, o, SnapshotOutcome(db.orders[o], s, next).0);
  }

  lemma OneOrderSet(db: Db, o: Uuid, order: Order)
    ensures SetOrder(db, o, order).orders == db.orders[o := order] && SetOrder(db, o, order).reconciliations == db.reconciliations
  {
  }

  lemma OutcomeAnswers(order: Order, s: Snapshot, next: int)
    ensures
      var (after, result) := SnapshotOutcome(order, s, next);
      AnsweredAs(order, after, s, next, result)
  {
    hide Upper;
    assert "PAID" != "EXPIRED" && "PAID" != "ACTIVE";
    assert "EXPIRED"[0] != "ACTIVE"[0];
  }

  /** An order is reserved exactly when it is the tenant's, bound, in an open status, and its time has come. */
  lemma ReservedIff(db: Db, tenant: Text, o: Uuid, now: int)
    ensures Reservable(db, tenant, o, now) <==>
      && o in db.orders && db.orders[o].tenant == tenant && db.orders[o].providerId != None
      && db.orders[o].status !in {Creating, Settled, NotPaid, Lapsed}
      && (db.orders[o].reconcileAfter == None || db.orders[o].reconcileAfter.value <= now)
    ensures ReserveOrder(db, tenant, o, now) ==
      if Reservable(db, tenant, o, now) then db.(orders := db.orders[o := db.orders[o].(status := Reconciling)]) else db
  {
  }

  /** A fetch that fails asks again at the given time. */
  lemma FailedFetchAsksAgain(db: Db, o: Uuid, next: int)
    requires o in db.orders
    ensures RecordProviderFailure(db, o, next)
      == db.(orders := db.orders[o := db.orders[o].(status := ReconciliationRequired, reconcileAfter := Some(next))])
  {
  }

  /** Two answers are of the same kind exactly when they agree in provider order, amount, and, whatever the case, status and currency. */
  lemma SameKindIff(a: Snapshot, b: Snapshot)
    ensures SnapshotHash(a) == SnapshotHash(b) <==>
      a.providerId == b.providerId && a.amount == b.amount && Upper(a.status) == Upper(b.status) && Upper(a.currency) == Upper(b.currency)
  {
    hide Upper;
    var x, y := [a.providerId, Str(Signed(a.amount))], [b.providerId, Str(Signed(b.amount))];
    assert x == y ==> x[0] == y[0] && x[1] == y[1];
    SignedIsOneToOne(a.amount, b.amount);
  }

  function Signed(n: int): string { if n >= 0 then Digits.Show(n) else "-" + Digits.Show(-n) }

  lemma SignedIsOneToOne(a: int, b: int)
    ensures Signed(a) == Signed(b) ==> a == b
  {
    hide Digits.Show;
    ShownDigits(a);
    ShownDigits(b);
    if a < 0 && b < 0 {
      assert Signed(a)[1..] == Digits.Show(-a) && Signed(b)[1..] == Digits.Show(-b);
    }
  }

  lemma ShownDigits(n: int)
    ensures n >= 0 ==> Digits.Show(n) != "" && Digits.Show(n)[0] != '-' && Digits.AllDigits(Digits.Show(n)) && Digits.Value(Digits.Show(n)) == n
    ensures n < 0 ==> Digits.AllDigits(Digits.Show(-n)) && Digits.Value(Digits.Show(-n)) == -n
  {
    if n >= 0 {
      Digits.ShowThenValue(n);
    } else {
      Digits.ShowThenValue(-n);
    }
  }
}
