/**
 The durable inbox: one worker drains its open rows, oldest first, and an operator may reopen a
 row that failed or was processed.
 */
module InboxQueue {
  import opened Identifiers
  import opened Store
  import opened Handlers
  import opened SagaInvariant
  import opened SagaPreservation
  import opened SagaHistory
  import opened SagaReplay
  import opened Database

  datatype InboxKey = InboxKey(source: Text, event: Uuid, schema: string)

  // `event` is what the ciphertext opens to under the row's own associated data, if it does; what
  // a message finds when it is handled is no part of it
  datatype InboxRow = InboxRow(
    tenant: Text, idempotency: Text, eventType: string, event: Option<InboxEvent>, receivedAt: int, processed: bool,
    attempts: nat, failed: bool)

  datatype Limits = Limits(maximumAttempts: nat, blocked: set<string>)

  /** The event is stored already, or another one of the tenant has its idempotency key. */
  predicate Duplicate(rows: map<InboxKey, InboxRow>, key: InboxKey, tenant: Text, idempotency: Text) {
    key in rows || exists k :: k in rows && rows[k].tenant == tenant && rows[k].idempotency == idempotency
  }

  predicate IsOpen(q: Limits, r: InboxRow) {
    !r.processed && r.attempts < q.maximumAttempts && r.eventType !in q.blocked
  }

  function OpenKeys(q: Limits, rows: map<InboxKey, InboxRow>): set<InboxKey> {
    set k | k in rows && IsOpen(q, rows[k])
  }

  /** No open row was received earlier. */
  predicate Earliest(q: Limits, rows: map<InboxKey, InboxRow>, k: InboxKey) {
    k in rows && IsOpen(q, rows[k])
    && forall other :: other in rows && IsOpen(q, rows[other]) ==> rows[k].receivedAt <= rows[other].receivedAt
  }

  /** Not processed, tries left, its type not blocked; and no such row was received earlier. */
  predicate OldestOpen(q: Limits, rows: map<InboxKey, InboxRow>, k: InboxKey) {
    && k in rows && !rows[k].processed && rows[k].attempts < q.maximumAttempts && rows[k].eventType !in q.blocked
    && forall i | i in rows && !rows[i].processed && rows[i].attempts < q.maximumAttempts && rows[i].eventType !in q.blocked ::
         rows[k].receivedAt <= rows[i].receivedAt
  }

  lemma EarliestIsOldest(q: Limits, rows: map<InboxKey, InboxRow>, k: InboxKey)
    ensures Earliest(q, rows, k) <==> OldestOpen(q, rows, k)
  {
  }

  lemma {:induction false} EarliestAmong(rows: map<InboxKey, InboxRow>, keys: set<InboxKey>) returns (k: InboxKey)
    requires keys != {} && keys <= rows.Keys
    ensures k in keys && forall other :: other in keys ==> rows[k].receivedAt <= rows[other].receivedAt
    decreases |keys|
  {
    k :| k in keys;
    var rest := keys - {k};
    assert keys == rest + {k};
    if rest != {} {
      var m := EarliestAmong(rows, rest);
      if rows[m].receivedAt < rows[k].receivedAt {
        k := m;
      }
    }
  }

  // ---------------------------------------------------------------- remaining attempts

  function Remaining(q: Limits, r: InboxRow): nat {
    if IsOpen(q, r) then q.maximumAttempts - r.attempts else 0
  }

  ghost function WorkOver(q: Limits, rows: map<InboxKey, InboxRow>, keys: set<InboxKey>): nat
    requires keys <= rows.Keys
    decreases |keys|
  {
    if keys == {} then 0
    else
      var k :| k in keys;
      Remaining(q, rows[k]) + WorkOver(q, rows, keys - {k})
  }

  /** The attempts that the open rows have left, together. */
  ghost function Work(q: Limits, rows: map<InboxKey, InboxRow>): nat {
    WorkOver(q, rows, rows.Keys)
  }

  lemma {:induction false} WorkWithout(q: Limits, rows: map<InboxKey, InboxRow>, keys: set<InboxKey>, k: InboxKey)
    requires keys <= rows.Keys && k in keys
    ensures WorkOver(q, rows, keys) == Remaining(q, rows[k]) + WorkOver(q, rows, keys - {k})
    decreases |keys|
  {
    hide Remaining;
    var first :| first in keys && WorkOver(q, rows, keys) == Remaining(q, rows[first]) + WorkOver(q, rows, keys - {first});
    if first != k {
      WorkWithout(q, rows, keys - {first}, k);
      WorkWithout(q, rows, keys - {k}, first);
      assert keys - {first} - {k} == keys - {k} - {first};
    }
  }

  lemma {:induction false} WorkAgrees(q: Limits, a: map<InboxKey, InboxRow>, b: map<InboxKey, InboxRow>, keys: set<InboxKey>)
    requires keys <= a.Keys && keys <= b.Keys && forall k :: k in keys ==> a[k] == b[k]
    ensures WorkOver(q, a, keys) == WorkOver(q, b, keys)
    decreases |keys|
  {
    hide Remaining;
    if keys != {} {
      var k :| k in keys;
      WorkWithout(q, a, keys, k);
      WorkWithout(q, b, keys, k);
      WorkAgrees(q, a, b, keys - {k});
    }
  }

  /** Rewriting one row changes the work by what that row has left. */
  lemma WorkAfter(q: Limits, rows: map<InboxKey, InboxRow>, k: InboxKey, r: InboxRow)
    requires k in rows
    ensures Work(q, rows[k := r]) + Remaining(q, rows[k]) == Work(q, rows) + Remaining(q, r)
  {
    hide Remaining;
    var after := rows[k := r];
    assert after.Keys == rows.Keys;
    WorkWithout(q, rows, rows.Keys, k);
    WorkWithout(q, after, rows.Keys, k);
    WorkAgrees(q, rows, after, rows.Keys - {k});
  }

  // ---------------------------------------------------------------- reopening a row

  datatype ReplayAnswer =
    | Reopened(previousAttempts: nat, wasProcessed: bool)
    | BadConfirmation | BadReason | MissingReference | NotFound | StillPending | NeedsProcessedFlag

  predicate CodeChar(c: char) { 'A' <= c <= 'Z' || '0' <= c <= '9' || c == '_' || c == ':' || c == '-' }

  /** `^[A-Z0-9][A-Z0-9_:-]{2,99}$` */
  predicate ReasonCode(s: string) {
    3 <= |s| <= 100 && s[0] != '_' && s[0] != ':' && s[0] != '-' && forall i :: 0 <= i < |s| ==> CodeChar(s[i])
  }

  /** A reason code is a letter or a digit, followed by 2 to 99 further characters of a code. */
  lemma ReasonCodeIff(head: char, tail: string)
    ensures ReasonCode([head] + tail) <==>
      ('A' <= head <= 'Z' || '0' <= head <= '9') && 2 <= |tail| <= 99 && forall c :: c in tail ==> CodeChar(c)
  {
    var s := [head] + tail;
    assert s[0] == head && s[1..] == tail;
    assert forall i :: 0 < i < |s| ==> s[i] == tail[i - 1];
    assert forall i :: 0 <= i < |tail| ==> tail[i] == s[i + 1];
  }

  /** The row shows a finished attempt: it was processed, or its last attempt failed. */
  predicate Attempted(r: InboxRow) { r.processed || r.failed }

  predicate MayReopen(rows: map<InboxKey, InboxRow>, tenant: Text, key: InboxKey, includeProcessed: bool) {
    key in rows && rows[key].tenant == tenant && Attempted(rows[key]) && (rows[key].processed ==> includeProcessed)
  }

  class InboxProcessor {
    const database: Database
    const limits: Limits
    var rows: map<InboxKey, InboxRow>
    /** Rows whose event was processed at some time, reopened since or not. */
    ghost var settled: set<InboxKey>

    ghost predicate Valid()
      reads this, database
    {
      && database.Valid()
      && settled <= rows.Keys
      && (forall k :: k in settled ==> rows[k].event.Some? && Trace(database.Snapshot(), rows[k].event.value))
      && (forall k :: k in rows && rows[k].processed ==> k in settled)
      && (forall k :: k in rows && rows[k].attempts > 0 ==> Attempted(rows[k]))
    }

    constructor (database: Database, limits: Limits)
      requires database.Valid()
      ensures Valid() && rows == map[] && settled == {} && this.database == database && this.limits == limits
    {
      this.database, this.limits, rows, settled := database, limits, map[], {};
    }

    /** Stores an event as a new pending row, unless it or its idempotency key was received before. */
    method Accept(key: InboxKey, tenant: Text, idempotency: Text, eventType: string, event: Option<InboxEvent>, now: int)
      returns (accepted: bool)
      requires Valid()
      modifies this`rows
      ensures Valid()
      ensures accepted <==>
        key !in old(rows) && forall k :: k in old(rows) && old(rows)[k].tenant == tenant ==> old(rows)[k].idempotency != idempotency
      ensures rows == if accepted then old(rows)[key := InboxRow(tenant, idempotency, eventType, event, now, false, 0, false)] else old(rows)
      ensures Duplicate(rows, key, tenant, idempotency)
    {
      hide Inv, Trace;
      accepted := !Duplicate(rows, key, tenant, idempotency);
      if accepted {
        rows := rows[key := InboxRow(tenant, idempotency, eventType, event, now, false, 0, false)];
      }
    }

    /** Opens the row's event and handles it in one transaction. */
    method HandleRow(k: InboxKey, turn: Turn, newId: Uuid, now: int) returns (processed: bool)
      requires Valid() && k in rows
      modifies database
      ensures database.Valid()
      ensures processed <==> rows[k].event.Some? && Handle(database.cfg, old(database.Snapshot()), rows[k].event.value, turn, newId, now).Done?
      ensures processed ==> database.Snapshot() == HandleInbox(database.cfg, old(database.Snapshot()), rows[k].event.value, turn, newId, now)
      ensures !processed ==> database.Snapshot() == old(database.Snapshot())
      ensures processed ==> Trace(database.Snapshot(), rows[k].event.value)
      ensures forall s :: s in settled ==> Trace(database.Snapshot(), rows[s].event.value)
      ensures k in settled ==> Inert(old(database.Snapshot()), rows[k].event.value, Done(database.Snapshot()))
    {
      hide Inv, Handle, Trace, Inert;
      ghost var before := database.Snapshot();
      if rows[k].event.None? {
        return false;
      }
      var event := rows[k].event.value;
      EventStep(database.cfg, before, event, turn, newId, now);
      forall s | s in settled ensures Trace(HandleInbox(database.cfg, before, event, turn, newId, now), rows[s].event.value) {
        StepKeepsTrace(database.cfg, before, event, turn, newId, now, rows[s].event.value);
      }
      if k in settled {
        TracedIsInert(database.cfg, before, event, turn, newId, now);
        InertHandled(database.cfg, before, event, turn, newId, now);
      }
      processed := database.ProcessInboxEvent(event, turn, newId, now);
    }

    /** Counts the attempt and stores how it ended. */
    method Mark(k: InboxKey, ok: bool)
      requires k in rows && database.Valid() && settled <= rows.Keys
      requires forall s :: s in settled ==> rows[s].event.Some? && Trace(database.Snapshot(), rows[s].event.value)
      requires forall s :: s in rows && s != k && rows[s].processed ==> s in settled
      requires forall s :: s in rows && rows[s].attempts > 0 ==> Attempted(rows[s])
      requires ok ==> rows[k].event.Some? && Trace(database.Snapshot(), rows[k].event.value)
      modifies this`rows, this`settled
      ensures Valid()
      ensures rows == old(rows)[k := old(rows)[k].(processed := ok, failed := !ok, attempts := old(rows)[k].attempts + 1)]
      ensures settled == old(settled) + (if ok then {k} else {})
    {
      hide Inv, Trace;
      rows := rows[k := rows[k].(processed := ok, failed := !ok, attempts := rows[k].attempts + 1)];
      settled := settled + (if ok then {k} else {});
    }

    /** Handles the oldest open row in one transaction; a failed one is rolled back and counted. */
    method ProcessOne(turn: Turn, newId: Uuid, now: int) returns (outcome: Option<bool>, ghost k: InboxKey)
      requires Valid()
      modifies this`rows, this`settled, database
      ensures Valid()
      ensures outcome.None? <==> OpenKeys(limits, old(rows)) == {}
      ensures outcome.None? <==>
        forall i :: i in old(rows) ==>
          old(rows)[i].processed || old(rows)[i].attempts >= limits.maximumAttempts || old(rows)[i].eventType in limits.blocked
      ensures outcome.Some? ==> OldestOpen(limits, old(rows), k)
      ensures outcome.None? ==> rows == old(rows) && settled == old(settled) && database.Snapshot() == old(database.Snapshot())
      ensures outcome.Some? ==>
        && Earliest(limits, old(rows), k)
        && rows == old(rows)[k := old(rows)[k].(processed := outcome.value, failed := !outcome.value, attempts := old(rows)[k].attempts + 1)]
        && (outcome.value <==> rows[k].event.Some? && Handle(database.cfg, old(database.Snapshot()), rows[k].event.value, turn, newId, now).Done?)
        && (outcome.value ==> database.Snapshot() == HandleInbox(database.cfg, old(database.Snapshot()), rows[k].event.value, turn, newId, now))
        && (!outcome.value ==> database.Snapshot() == old(database.Snapshot()))
        && settled == old(settled) + (if outcome.value then {k} else {})
        && (k in old(settled) ==> Inert(old(database.Snapshot()), old(rows)[k].event.value, Done(database.Snapshot())))
    {
      hide Inv, Handle, Trace, Inert, IsOpen, HandleInbox, OldestOpen;
      EarliestExists(limits, rows);
      NothingOpenIff(limits, rows);
      if next :| next in rows && Earliest(limits, rows, next) {
        k := next;
        EarliestIsOldest(limits, rows, next);
        assert next in OpenKeys(limits, rows);
        var ok := HandleRow(next, turn, newId, now);
        Mark(next, ok);
        outcome := Some(ok);
      } else {
        k := InboxKey(Str(""), Plain(0), "");
        outcome := None;
      }
    }

    /** Processes up to the batch size of open rows. */
    method ProcessBatch(batchSize: nat, turns: nat -> Turn, newIds: nat -> Uuid, clock: nat -> int) returns (processed: nat, failed: nat)
      requires Valid()
      modifies this`rows, this`settled, database
      ensures Valid()
      ensures processed + failed <= batchSize
      ensures Work(limits, rows) + processed + failed <= Work(limits, old(rows))
      ensures processed + failed < batchSize ==> OpenKeys(limits, rows) == {}
      ensures Work(limits, old(rows)) < batchSize ==> OpenKeys(limits, rows) == {}
      ensures rows.Keys == old(rows).Keys
      ensures forall k :: k in old(rows) && !IsOpen(limits, old(rows)[k]) ==> rows[k] == old(rows)[k]
      ensures forall k :: k in old(rows) ==> rows[k].event == old(rows)[k].event && rows[k].eventType == old(rows)[k].eventType
      ensures settled >= old(settled)
    {
      hide Inv, Handle, Trace, Inert, HandleInbox;
      processed, failed := 0, 0;
      while processed + failed < batchSize
        invariant processed + failed <= batchSize
        invariant Valid()
        invariant Work(limits, rows) + processed + failed <= Work(limits, old(rows))
        invariant rows.Keys == old(rows).Keys
        invariant forall k :: k in old(rows) && !IsOpen(limits, old(rows)[k]) ==> rows[k] == old(rows)[k]
        invariant forall k :: k in old(rows) ==> rows[k].event == old(rows)[k].event && rows[k].eventType == old(rows)[k].eventType
        invariant settled >= old(settled)
      {
        ghost var before := rows;
        var outcome, k := ProcessOne(turns(processed + failed), newIds(processed + failed), clock(processed + failed));
        if outcome.None? {
          return;
        }
        WorkAfter(limits, before, k, rows[k]);
        if outcome.value {
          processed := processed + 1;
        } else {
          failed := failed + 1;
        }
      }
    }

    /** Reopens a row whose attempt is over; a processed one only when that is asked for. */
    method Replay(tenant: Text, key: InboxKey, reason: string, operator: Text, confirmation: Text, includeProcessed: bool)
      returns (answer: ReplayAnswer)
      requires Valid()
      modifies this`rows
      ensures Valid()
      ensures answer.Reopened? <==>
        && confirmation == Labelled("REPLAY", UuidText(key.event)) && ReasonCode(reason)
        && key.source != Str("") && key.schema != "" && operator != Str("")
        && MayReopen(old(rows), tenant, key, includeProcessed)
      ensures answer.Reopened? ==>
        && rows == old(rows)[key := old(rows)[key].(processed := false, attempts := 0, failed := false)]
        && answer == Reopened(old(rows)[key].attempts, old(rows)[key].processed)
        && forall flag :: !MayReopen(rows, tenant, key, flag)
      ensures !answer.Reopened? ==> rows == old(rows)
      ensures answer == BadConfirmation <==> confirmation != Labelled("REPLAY", UuidText(key.event))
      ensures answer == NotFound ==> !(key in rows && rows[key].tenant == tenant)
      ensures answer == StillPending ==> key in rows && !rows[key].processed && !rows[key].failed
      ensures answer == NeedsProcessedFlag ==> key in rows && rows[key].processed && !includeProcessed
    {
      hide Inv, Trace;
      if confirmation != Labelled("REPLAY", UuidText(key.event)) {
        return BadConfirmation;
      }
      if !ReasonCode(reason) {
        return BadReason;
      }
      if key.source == Str("") || key.schema == "" || operator == Str("") {
        return MissingReference;
      }
      if key !in rows || rows[key].tenant != tenant {
        return NotFound;
      }
      if !Attempted(rows[key]) {
        return StillPending;
      }
      if rows[key].processed && !includeProcessed {
        return NeedsProcessedFlag;
      }
      var r := rows[key];
      rows := rows[key := r.(processed := false, attempts := 0, failed := false)];
      return Reopened(r.attempts, r.processed);
    }
  }

  lemma NothingOpenIff(q: Limits, rows: map<InboxKey, InboxRow>)
    ensures OpenKeys(q, rows) == {} <==>
      forall i :: i in rows ==> rows[i].processed || rows[i].attempts >= q.maximumAttempts || rows[i].eventType in q.blocked
  {
    forall i | i in rows ensures i in OpenKeys(q, rows) <==> IsOpen(q, rows[i]) {
    }
  }

  lemma EarliestExists(q: Limits, rows: map<InboxKey, InboxRow>)
    ensures OpenKeys(q, rows) != {} ==> exists k :: k in rows && Earliest(q, rows, k)
  {
    hide IsOpen;
    if OpenKeys(q, rows) != {} {
      var k := EarliestAmong(rows, OpenKeys(q, rows));
      assert Earliest(q, rows, k);
    }
  }

  lemma InertHandled(cfg: Config, db: Db, event: InboxEvent, turn: Turn, newId: Uuid, now: int)
    requires Inert(db, event, Handle(cfg, db, event, turn, newId, now))
    ensures Inert(db, event, Done(HandleInbox(cfg, db, event, turn, newId, now)))
  {
    hide Handle, Reaccepted;
    NothingReaccepted(db.handoffs);
  }

  /** A handled event leaves its trace, and a rolled back one leaves the database as it was. */
  lemma EventStep(cfg: Config, db: Db, event: InboxEvent, turn: Turn, newId: Uuid, now: int)
    requires Inv(cfg, db)
    ensures
      var e := Handle(cfg, db, event, turn, newId, now);
      (e.Done? ==> Trace(HandleInbox(cfg, db, event, turn, newId, now), event))
      && (!e.Done? ==> HandleInbox(cfg, db, event, turn, newId, now) == db)
  {
    hide Inv, Handle, Trace;
    DoneLeavesTrace(cfg, db, event, turn, newId, now);
  }

  lemma StepKeepsTrace(cfg: Config, db: Db, event: InboxEvent, turn: Turn, newId: Uuid, now: int, traced: InboxEvent)
    requires Inv(cfg, db) && Trace(db, traced)
    ensures Trace(HandleInbox(cfg, db, event, turn, newId, now), traced)
  {
    hide Inv, Handle, Trace, Kept;
    SameDemos(cfg, db);
    HandleKept(cfg, db, event, turn, newId, now);
    if Handle(cfg, db, event, turn, newId, now).Done? {
      TraceStays(db, HandleInbox(cfg, db, event, turn, newId, now), traced);
    }
  }

  /** When nothing is open, every row that is not blocked was processed or used up its attempts. */
  lemma DrainedMeansDone(q: Limits, rows: map<InboxKey, InboxRow>)
    ensures OpenKeys(q, rows) == {} <==>
      forall k :: k in rows && rows[k].eventType !in q.blocked ==> rows[k].processed || rows[k].attempts >= q.maximumAttempts
  {
    if OpenKeys(q, rows) == {} {
      forall k | k in rows && rows[k].eventType !in q.blocked ensures rows[k].processed || rows[k].attempts >= q.maximumAttempts {
        assert k !in OpenKeys(q, rows);
      }
    }
  }
}
