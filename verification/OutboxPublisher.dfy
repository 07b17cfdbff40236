/**
 The publisher's batch: claims the due rows, oldest first, delivers each, counts, and commits
 all of it or, when the flush refuses a row, none.
 */
module OutboxPublisher {
  import opened Identifiers
  import opened Store
  import opened Handlers
  import opened SagaInvariant
  import opened SagaPreservation
  import opened OutboxHistory
  import opened DeliveryOutcomes
  import opened Database

  datatype BatchResult = BatchResult(published: nat, failed: nat)

  function EligibleRows(cfg: Config, db: Db, now: int): set<Uuid> {
    set id | id in db.outbox && Eligible(cfg, db, id, now)
  }

  // ---------------------------------------------------------------- claiming

  /** The claimed rows are due, all different, oldest first, and no due row left out is older. */
  ghost predicate Claimed(cfg: Config, db: Db, now: int, ids: seq<Uuid>) {
    && (forall i :: 0 <= i < |ids| ==> ids[i] in EligibleRows(cfg, db, now))
    && (forall i, j :: 0 <= i < j < |ids| ==> ids[i] != ids[j])
    && (forall i, j :: 0 <= i < j < |ids| ==> db.outbox[ids[i]].availableAt <= db.outbox[ids[j]].availableAt)
    && (forall id, i :: id in EligibleRows(cfg, db, now) && id !in ids && 0 <= i < |ids| ==>
          db.outbox[ids[i]].availableAt <= db.outbox[id].availableAt)
  }

  method EarliestRow(outbox: map<Uuid, OutboxRow>, candidates: set<Uuid>) returns (first: Uuid)
    requires candidates != {} && candidates <= outbox.Keys
    ensures first in candidates && forall id :: id in candidates ==> outbox[first].availableAt <= outbox[id].availableAt
  {
    first :| first in candidates;
    var left := candidates - {first};
    while left != {}
      invariant left <= candidates && first in candidates
      invariant forall id :: id in candidates && id !in left ==> outbox[first].availableAt <= outbox[id].availableAt
      decreases |left|
    {
      var id :| id in left;
      if outbox[id].availableAt < outbox[first].availableAt {
        first := id;
      }
      left := left - {id};
    }
  }

  /**
   Exactly the oldest rows that are unpublished, available, below the limit and of a target that
   is not blocked, as many as the batch takes.
   */
  ghost predicate OldestWaiting(cfg: Config, outbox: map<Uuid, OutboxRow>, batchSize: nat, now: int, ids: seq<Uuid>) {
    && |ids| <= batchSize
    && (forall i :: 0 <= i < |ids| ==>
          && ids[i] in outbox && !outbox[ids[i]].published && outbox[ids[i]].availableAt <= now
          && outbox[ids[i]].attempts < cfg.maximumAttempts && outbox[ids[i]].target !in cfg.blockedTargets)
    && (forall i, j :: 0 <= i < j < |ids| ==> ids[i] != ids[j] && outbox[ids[i]].availableAt <= outbox[ids[j]].availableAt)
    && (forall id | id in outbox && id !in ids
          && !outbox[id].published && outbox[id].availableAt <= now && outbox[id].attempts < cfg.maximumAttempts
          && outbox[id].target !in cfg.blockedTargets ::
          |ids| == batchSize && forall i :: 0 <= i < |ids| ==> outbox[ids[i]].availableAt <= outbox[id].availableAt)
  }

  method Claim(cfg: Config, db: Db, batchSize: nat, now: int) returns (ids: seq<Uuid>)
    ensures OldestWaiting(cfg, db.outbox, batchSize, now, ids)
    ensures Claimed(cfg, db, now, ids)
  {
    ids := ClaimEligible(cfg, db, batchSize, now);
    ClaimedAreOldest(cfg, db, batchSize, now, ids);
  }

  lemma ClaimedAreOldest(cfg: Config, db: Db, batchSize: nat, now: int, ids: seq<Uuid>)
    requires Claimed(cfg, db, now, ids) && |ids| <= batchSize
    requires |ids| < batchSize ==> forall id :: id in EligibleRows(cfg, db, now) ==> id in ids
    ensures OldestWaiting(cfg, db.outbox, batchSize, now, ids)
  {
    hide Eligible, Waits;
    forall id ensures id in EligibleRows(cfg, db, now) <==> id in db.outbox && Waits(cfg, db.outbox[id], now) {
      EligibleIffWaits(cfg, db, id, now);
    }
    WaitsOnColumns(cfg, db.outbox, now);
    forall i | 0 <= i < |ids| ensures ids[i] in db.outbox && Waits(cfg, db.outbox[ids[i]], now) {
      assert ids[i] in EligibleRows(cfg, db, now);
    }
  }

  lemma WaitsOnColumns(cfg: Config, outbox: map<Uuid, OutboxRow>, now: int)
    ensures forall id :: id in outbox ==>
      (Waits(cfg, outbox[id], now) <==>
         !outbox[id].published && outbox[id].availableAt <= now && outbox[id].attempts < cfg.maximumAttempts
         && outbox[id].target !in cfg.blockedTargets)
  {
  }

  method ClaimEligible(cfg: Config, db: Db, batchSize: nat, now: int) returns (ids: seq<Uuid>)
    ensures Claimed(cfg, db, now, ids)
    ensures |ids| <= batchSize
    ensures |ids| < batchSize ==> forall id :: id in EligibleRows(cfg, db, now) ==> id in ids
  {
    hide Eligible;
    ids := [];
    var left := EligibleRows(cfg, db, now);
    while |ids| < batchSize && left != {}
      invariant |ids| <= batchSize && left <= EligibleRows(cfg, db, now)
      invariant Claimed(cfg, db, now, ids)
      invariant forall id :: id in EligibleRows(cfg, db, now) ==> (id in ids <==> id !in left)
      decreases |left|
    {
      var first := EarliestRow(db.outbox, left);
      assert forall i :: 0 <= i < |ids| ==> ids[i] !in left;
      ids := ids + [first];
      left := left - {first};
    }
  }

  // ---------------------------------------------------------------- delivering

  ghost function Deliveries(ids: seq<Uuid>, replies: Uuid -> Option<Reply>, newIds: Uuid -> Uuid, now: int): seq<Step> {
    seq(|ids|, i requires 0 <= i < |ids| => Deliver(ids[i], replies(ids[i]), newIds(ids[i]), now))
  }

  lemma ExecLonger(cfg: Config, db: Db, ids: seq<Uuid>, i: nat, replies: Uuid -> Option<Reply>, newIds: Uuid -> Uuid, now: int)
    requires i < |ids|
    ensures Exec(cfg, db, Deliveries(ids[..i + 1], replies, newIds, now))
      == Publish(cfg, Exec(cfg, db, Deliveries(ids[..i], replies, newIds, now)), ids[i], replies(ids[i]), newIds(ids[i]), now)
  {
    hide Publish;
    var all := Deliveries(ids[..i + 1], replies, newIds, now);
    assert all[..|all| - 1] == Deliveries(ids[..i], replies, newIds, now);
  }

  /** Delivering one row leaves another due row due. */
  lemma StillEligible(cfg: Config, db: Db, id: Uuid, reply: Option<Reply>, newId: Uuid, now: int, other: Uuid)
    requires other != id && Eligible(cfg, db, other, now)
    ensures
      var after := Publish(cfg, db, id, reply, newId, now);
      Eligible(cfg, after, other, now) && after.outbox[other] == db.outbox[other]
  {
    hide Publish;
    PublishMarksItsRow(cfg, db, id, reply, newId, now, other);
  }

  /** How many of the rows are published. */
  ghost function PublishedAmong(db: Db, ids: seq<Uuid>): nat {
    if ids == [] then 0
    else
      var last := ids[|ids| - 1];
      PublishedAmong(db, ids[..|ids| - 1]) + if last in db.outbox && db.outbox[last].published then 1 else 0
  }

  lemma {:induction false} DeliveredRowsStay(cfg: Config, db: Db, ids: seq<Uuid>, id: Uuid, reply: Option<Reply>, newId: Uuid, now: int)
    requires id !in ids && forall i :: 0 <= i < |ids| ==> ids[i] in db.outbox
    ensures
      var after := Publish(cfg, db, id, reply, newId, now);
      PublishedAmong(after, ids) == PublishedAmong(db, ids) && forall i :: 0 <= i < |ids| ==> ids[i] in after.outbox
  {
    hide Publish;
    if ids != [] {
      DeliveredRowsStay(cfg, db, ids[..|ids| - 1], id, reply, newId, now);
      PublishMarksItsRow(cfg, db, id, reply, newId, now, ids[|ids| - 1]);
    }
  }

  /**
   Publishes a batch.  Without a result the whole batch was taken back: a row it added broke a
   unique key, and the commit failed.
   */
  method PublishBatch(db: Database, batchSize: nat, now: int, replies: Uuid -> Option<Reply>, newIds: Uuid -> Uuid)
    returns (result: Option<BatchResult>, ids: seq<Uuid>)
    requires db.Valid()
    modifies db
    ensures db.Valid()
    ensures OldestWaiting(db.cfg, old(db.outbox), batchSize, now, ids)
    ensures forall id :: id in old(db.outbox) && old(db.outbox)[id].target in db.cfg.blockedTargets ==>
      id in db.outbox && db.outbox[id] == old(db.outbox)[id]
    ensures result.Some? ==> db.Snapshot() == Exec(db.cfg, old(db.Snapshot()), Deliveries(ids, replies, newIds, now))
    ensures result.Some? ==>
      result.value.published == PublishedAmong(db.Snapshot(), ids) && result.value.failed == |ids| - result.value.published
    ensures result.None? ==> db.Snapshot() == old(db.Snapshot())
  {
    hide Inv, Publish, Eligible, Next, PublishEffect, Claimed, OldestWaiting, Waits;
    var saved := db.Snapshot();
    ids := Claim(db.cfg, saved, batchSize, now);
    ClaimFacts(db.cfg, saved, now, ids);
    var published, failed, i := 0, 0, 0;
    while i < |ids|
      invariant 0 <= i <= |ids| && db.Valid()
      invariant published + failed == i && published == PublishedAmong(db.Snapshot(), ids[..i])
      invariant forall k :: 0 <= k < i ==> ids[k] in db.outbox
      invariant db.Snapshot() == Exec(db.cfg, saved, Deliveries(ids[..i], replies, newIds, now))
      invariant forall k :: i <= k < |ids| ==> Eligible(db.cfg, db.Snapshot(), ids[k], now)
    {
      ghost var before := db.Snapshot();
      forall k | i < k < |ids|
        ensures Eligible(db.cfg, Publish(db.cfg, before, ids[i], replies(ids[i]), newIds(ids[i]), now), ids[k], now)
      {
        StillEligible(db.cfg, before, ids[i], replies(ids[i]), newIds(ids[i]), now, ids[k]);
      }
      assert ids[..i + 1][..i] == ids[..i];
      DeliveredRowsStay(db.cfg, before, ids[..i], ids[i], replies(ids[i]), newIds(ids[i]), now);
      PublishMarksItsRow(db.cfg, before, ids[i], replies(ids[i]), newIds(ids[i]), now, ids[i]);
      EligibleIsStored(db.cfg, before, ids[i], now);
      EligibleIffWaits(db.cfg, before, ids[i], now);
      ExecLonger(db.cfg, saved, ids, i, replies, newIds, now);
      var out := db.PublishRow(ids[i], replies(ids[i]), newIds(ids[i]), now);
      if out.KeyClash? {
        db.Rollback(saved);
        return None, ids;
      }
      if out.Finished? {
        published := published + 1;
      } else {
        failed := failed + 1;
      }
      i := i + 1;
    }
    assert ids[..i] == ids;
    BlockedStayed(db.cfg, saved, Deliveries(ids, replies, newIds, now));
    return Some(BatchResult(published, failed)), ids;
  }

  lemma BlockedStayed(cfg: Config, db: Db, steps: seq<Step>)
    ensures
      var after := Exec(cfg, db, steps);
      forall id :: id in db.outbox && db.outbox[id].target in cfg.blockedTargets ==>
        id in after.outbox && after.outbox[id] == db.outbox[id]
  {
    hide Exec;
    forall id | id in db.outbox && db.outbox[id].target in cfg.blockedTargets
      ensures id in Exec(cfg, db, steps).outbox && Exec(cfg, db, steps).outbox[id] == db.outbox[id]
    {
      BlockedRowStaysThroughRun(cfg, db, steps, id);
    }
  }

  lemma EligibleIsStored(cfg: Config, db: Db, id: Uuid, now: int)
    requires Eligible(cfg, db, id, now)
    ensures id in db.outbox && !db.outbox[id].published
  {
  }

  lemma ClaimFacts(cfg: Config, db: Db, now: int, ids: seq<Uuid>)
    requires Claimed(cfg, db, now, ids)
    ensures forall i :: 0 <= i < |ids| ==> Eligible(cfg, db, ids[i], now)
    ensures forall i, j :: 0 <= i < j < |ids| ==> ids[i] != ids[j]
  {
    hide Eligible;
    forall i | 0 <= i < |ids| ensures Eligible(cfg, db, ids[i], now) {
      assert ids[i] in EligibleRows(cfg, db, now);
    }
  }
}
