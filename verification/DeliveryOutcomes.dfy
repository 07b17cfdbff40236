/**
 Which outbox rows a delivery touches and how, told on the row's own columns; rows of a blocked
 target are never tried.
 */
module DeliveryOutcomes {
  import opened Identifiers
  import opened Store
  import opened Handlers
  import opened SagaInvariant
  import opened SagaPreservation
  import opened SagaHistory
  import opened OutboxHistory

  /** The row waits for delivery: not published, its time come, tries left, and its target not blocked. */
  predicate Waits(cfg: Config, row: OutboxRow, now: int) {
    !row.published && row.availableAt <= now && row.attempts < cfg.maximumAttempts && row.target !in cfg.blockedTargets
  }

  lemma EligibleIffWaits(cfg: Config, db: Db, id: Uuid, now: int)
    ensures Eligible(cfg, db, id, now) <==> id in db.outbox && Waits(cfg, db.outbox[id], now)
  {
  }

  /** The wait after the n-th failure: 2, 4, 8, ... 256 seconds, and 300 from the ninth on. */
  lemma WaitAfter(n: nat)
    ensures Backoff(1) == 2 && Backoff(2) == 4 && Backoff(8) == 256
    ensures n >= 9 ==> Backoff(n) == 300
    ensures 1 <= n < 8 ==> Backoff(n + 1) == 2 * Backoff(n)
  {
    assert Power2(4) == 16 && Power2(8) == 256 && Power2(9) == 512;
    PowersRise(n);
    assert n < 8 ==> Power2(n + 1) <= 256 by {
      if n < 8 {
        PowersBelow(n + 1);
      }
    }
  }

  lemma {:induction false} PowersRise(n: nat)
    ensures n >= 9 ==> Power2(n) >= 512
  {
    if n > 9 {
      PowersRise(n - 1);
    } else if n == 9 {
      assert Power2(4) == 16 && Power2(8) == 256;
    }
  }

  lemma PowersBelow(n: nat)
    requires n <= 8
    ensures Power2(n) <= 256
  {
    assert Power2(4) == 16 && Power2(8) == 256;
    if n == 7 {
      assert Power2(8) == 2 * Power2(7);
    } else if n == 6 {
      assert Power2(8) == 2 * Power2(7) && Power2(7) == 2 * Power2(6);
    }
  }

  /** Delivering a row that does not wait changes nothing. */
  lemma OnlyWaitingRowsAreTried(cfg: Config, db: Db, s: Step)
    requires s.Deliver? && Next(cfg, db, s) != db
    ensures s.row in db.outbox && Waits(cfg, db.outbox[s.row], s.at)
  {
    hide PublishEffect, MarkPublished, MarkFailed;
  }

  /** A waiting row without an answer, or that does not open, only counts a failure and is put off. */
  lemma UnansweredIsPutOff(cfg: Config, db: Db, s: Step)
    requires s.Deliver? && s.row in db.outbox && Waits(cfg, db.outbox[s.row], s.at)
    requires s.reply.None? || Open(db.outbox[s.row], s.row).None?
    ensures
      var row := db.outbox[s.row];
      Next(cfg, db, s) == db.(outbox := db.outbox[s.row :=
        row.(attempts := row.attempts + 1, availableAt := s.at + Backoff(row.attempts + 1))])
  {
    hide Backoff, Record;
  }

  // ---------------------------------------------------------------- blocked targets

  /** Through every step a row of a blocked target keeps its attempts, its due time and its publication. */
  lemma BlockedRowStays(cfg: Config, db: Db, s: Step, id: Uuid)
    requires id in db.outbox && db.outbox[id].target in cfg.blockedTargets
    ensures id in Next(cfg, db, s).outbox && Next(cfg, db, s).outbox[id] == db.outbox[id]
  {
    hide Next;
    if s.Deliver? && s.row == id {
      if Next(cfg, db, s) != db {
        OnlyWaitingRowsAreTried(cfg, db, s);
      }
    } else {
      OthersStay(cfg, db, s, id);
    }
  }

  /** In every run a row of a blocked target was never tried: no attempt and no publication. */
  lemma {:induction false} BlockedRowsAreUntried(cfg: Config, steps: seq<Step>, id: Uuid)
    ensures
      var outbox := Exec(cfg, EMPTY, steps).outbox;
      id in outbox && outbox[id].target in cfg.blockedTargets ==> outbox[id].attempts == 0 && !outbox[id].published
  {
    hide Next;
    if steps != [] {
      var front, s := steps[..|steps| - 1], steps[|steps| - 1];
      var before := Exec(cfg, EMPTY, front);
      BlockedRowsAreUntried(cfg, front, id);
      if id in before.outbox {
        TargetStays(cfg, front, s, id);
        if before.outbox[id].target in cfg.blockedTargets {
          BlockedRowStays(cfg, before, s, id);
        }
      } else if s.Deliver? && s.row == id {
        UnstoredIsNotDelivered(cfg, before, s);
      } else {
        OthersStay(cfg, before, s, id);
      }
    }
  }

  lemma UnstoredIsNotDelivered(cfg: Config, db: Db, s: Step)
    requires s.Deliver? && s.row !in db.outbox
    ensures Next(cfg, db, s) == db
  {
  }

  lemma TargetStays(cfg: Config, front: seq<Step>, s: Step, id: Uuid)
    requires id in Exec(cfg, EMPTY, front).outbox
    ensures
      var a, b := Exec(cfg, EMPTY, front), Next(cfg, Exec(cfg, EMPTY, front), s);
      id in b.outbox && b.outbox[id].target == a.outbox[id].target
  {
    hide Inv, Next, LogGrows, OrdersKept, RequestsKept, EventsKept, AttemptsKept, PaidKept;
    ReachableInv(cfg, front);
    SameDemos(cfg, Exec(cfg, EMPTY, front));
    NextKept(cfg, Exec(cfg, EMPTY, front), s);
  }

  /** Nor does any run change one that is there. */
  lemma {:induction false} BlockedRowStaysThroughRun(cfg: Config, db: Db, steps: seq<Step>, id: Uuid)
    requires id in db.outbox && db.outbox[id].target in cfg.blockedTargets
    ensures id in Exec(cfg, db, steps).outbox && Exec(cfg, db, steps).outbox[id] == db.outbox[id]
  {
    hide Next;
    if steps != [] {
      var front := steps[..|steps| - 1];
      BlockedRowStaysThroughRun(cfg, db, front, id);
      BlockedRowStays(cfg, Exec(cfg, db, front), steps[|steps| - 1], id);
    }
  }
}
