/**
 What a message does: where it leads the demo and the conversation, and the reply it queues, told
 on the tables and what handling the message found.
 */
module TalkOutcomes {
  import opened Identifiers
  import opened Lifecycle
  import opened Monetary
  import opened Digits
  import opened Store
  import opened Handlers
  import opened Frames
  import opened SagaInvariant
  import opened SagaPreservation
  import opened RecorderOutcomes

  /** One state change of a conversation: its command, where it leads, and the suffix of its log key. */
  datatype Leg = Leg(command: Command, after: DemoState, suffix: string)

  const PICKED := [Leg(ACCEPT_SHORTLIST, SLOT_NEGOTIATING, "ACCEPT_SHORTLIST:SLOT_NEGOTIATING")]
  const ESCALATED := [Leg(ESCALATE_HUMAN, HUMAN_HANDOFF, "ESCALATE_HUMAN:HUMAN_HANDOFF")]
  const FOUND := [Leg(COMPLETE_QUALIFICATION, TUTOR_MATCHING, "COMPLETE_QUALIFICATION:TUTOR_MATCHING"),
                  Leg(COMPLETE_MATCHING, TUTOR_SHORTLISTED, "COMPLETE_MATCHING:TUTOR_SHORTLISTED")]

  /** The log entries of the legs that change the state; a leg to the state the demo is in is left out. */
  function Walk(state: DemoState, legs: seq<Leg>, key: Text): seq<LogEntry>
    decreases legs
  {
    if legs == [] then []
    else if legs[0].after == state then Walk(state, legs[1..], key)
    else [LogEntry(state, legs[0].command, legs[0].after, Suffixed(key, legs[0].suffix))] + Walk(legs[0].after, legs[1..], key)
  }

  /** Where a message finds the conversation: text that changes the requirement takes it back to collecting. */
  function StepFound(before: ConversationStep, changed: bool): ConversationStep {
    match before
    case Collecting => Collecting
    case SelectTutor => if changed then Collecting else SelectTutor
    case AwaitingTutor => if changed then Collecting else AwaitingTutor
  }

  /** A search is made for complete requirements while they are collected, if the website is configured. */
  predicate Searches(cfg: Config, step: ConversationStep, turn: Turn) {
    step == Collecting && turn.complete && cfg.websiteConfigured
  }

  function LegsOf(cfg: Config, step: ConversationStep, turn: Turn): seq<Leg> {
    if step == SelectTutor && turn.picked then PICKED
    else if !Searches(cfg, step, turn) then []
    else if turn.search == Tutors then FOUND else ESCALATED
  }

  /** A pick leads on to the tutor's confirmation, a shortlist to the pick. */
  function StepLeft(cfg: Config, step: ConversationStep, turn: Turn): ConversationStep {
    if step == SelectTutor && turn.picked then AwaitingTutor
    else if Searches(cfg, step, turn) && turn.search == Tutors then SelectTutor else step
  }

  /** The demo has walked the legs; its tenant, user and conversation stay. */
  ghost predicate Walked(a: Db, b: Db, demo: Uuid, legs: seq<Leg>, key: Text)
    requires demo in a.demos
  {
    var d, entries := a.demos[demo], Walk(a.demos[demo].state, legs, key);
    var state := if entries == [] then d.state else entries[|entries| - 1].after;
    && b.demos == a.demos[demo := d.(state := state, version := d.version + |entries|)]
    && b.log == a.log[demo := LogOf(a, demo) + entries]
  }

  /** The reply to the message: to the actor's own number, or to the conversation. */
  ghost predicate Replies(a: Db, b: Db, meta: Envelope, demo: Uuid, now: int) {
    var id, key := ReplyEventId(meta.id), Labelled("demo-reply", UuidText(meta.id));
    exists recipient ::
      && Announces(a, b, id, meta.tenant, meta.source, key, meta.correlation, DeliveryPayload(id, demo, recipient, key), now)
      && IsRecipient(meta, recipient)
  }

  /** The actor's stripped id if it is a number of 8 to 15 digits, with or without a plus sign, else the conversation. */
  predicate IsRecipient(meta: Envelope, recipient: Text) {
    var actor := Strip(meta.actor);
    var digits := Strip(if "+" <= actor then actor[1..] else actor);
    if AllDigits(digits) && |digits| >= 8 && |digits| < 16 then recipient == Str(actor) else recipient == meta.conversation
  }

  /** No entry of the walk takes a key that the demo's log has. */
  ghost predicate WalkIsFree(db: Db, demo: Uuid, legs: seq<Leg>, key: Text)
    requires demo in db.demos
  {
    forall e :: e in Walk(db.demos[demo].state, legs, key) ==> !Logged(db, demo, e.key)
  }

  ghost predicate ReplyTaken(db: Db, meta: Envelope) {
    RowTaken(db, ReplyEventId(meta.id), meta.tenant, Labelled("demo-reply", UuidText(meta.id)))
  }

  // ---------------------------------------------------------------- a known conversation

  ghost predicate Continues(cfg: Config, a: Db, b: Db, meta: Envelope, turn: Turn, now: int)
    requires (meta.tenant, meta.conversation) in a.conversations
    requires a.conversations[(meta.tenant, meta.conversation)].demo in a.demos
  {
    var here := (meta.tenant, meta.conversation);
    var c := a.conversations[here];
    var step := StepFound(c.step, turn.changed);
    && Walked(a, b, c.demo, LegsOf(cfg, step, turn), meta.key)
    && b.conversations == a.conversations[here := Conversation(c.demo, StepLeft(cfg, step, turn))]
    && Replies(a, b, meta, c.demo, now)
    && b == a.(demos := b.demos, log := b.log, conversations := b.conversations, outbox := b.outbox)
  }

  // ---------------------------------------------------------------- walking

  lemma NoLegs(db: Db, demo: Uuid, key: Text)
    requires demo in db.demos && demo in db.log
    ensures Walked(db, db, demo, [], key) && WalkIsFree(db, demo, [], key)
  {
    assert LogOf(db, demo) + [] == LogOf(db, demo);
  }

  lemma OneLeg(db: Db, meta: Envelope, demo: Uuid, command: Command, after: DemoState, suffix: string)
    requires demo in db.demos && demo in db.log && suffix == CommandSuffix(command)
    ensures
      var e, legs := TransitionDemo(db, meta, demo, command, after), [Leg(command, after, suffix)];
      && (e.Done? <==> WalkIsFree(db, demo, legs, meta.key)) && (!e.Done? ==> e == Violation)
      && (e.Done? ==> Walked(db, e.db, demo, legs, meta.key) && e.db == db.(demos := e.db.demos, log := e.db.log))
  {
    hide Logged, LogClash, CommandSuffix;
    var legs := [Leg(command, after, suffix)];
    LoggedIff(db, demo, TransitionKey(meta, command));
    assert legs[1..] == [];
    assert Walk(db.demos[demo].state, legs, meta.key)
      == if after == db.demos[demo].state then []
         else [LogEntry(db.demos[demo].state, command, after, Suffixed(meta.key, suffix))];
    if after == db.demos[demo].state {
      assert LogOf(db, demo) + [] == LogOf(db, demo);
    }
  }

  lemma TwoLegs(db: Db, meta: Envelope, demo: Uuid)
    requires demo in db.demos && demo in db.log
    ensures
      var e := Shortlist(db, meta, demo);
      var here := (meta.tenant, meta.conversation);
      && (e.Done? <==> WalkIsFree(db, demo, FOUND, meta.key)) && (!e.Done? ==> e == Violation)
      && (e.Done? ==>
            && Walked(db, e.db, demo, FOUND, meta.key)
            && e.db.conversations == db.conversations[here := Conversation(demo, SelectTutor)]
            && e.db == db.(demos := e.db.demos, log := e.db.log, conversations := e.db.conversations))
  {
    hide Logged, TransitionDemo, Walked, WalkIsFree;
    var first := TransitionDemo(db, meta, demo, COMPLETE_QUALIFICATION, TUTOR_MATCHING);
    OneLeg(db, meta, demo, COMPLETE_QUALIFICATION, TUTOR_MATCHING, FOUND[0].suffix);
    assert FOUND[..1] == [FOUND[0]];
    if first.Done? {
      var middle := SetStep(first.db, meta, demo, SelectTutor);
      WalkedKeeps(db, first.db, demo, [FOUND[0]], meta.key);
      OneLeg(middle, meta, demo, COMPLETE_MATCHING, TUTOR_SHORTLISTED, FOUND[1].suffix);
      Joined(db, first.db, middle, TransitionDemo(middle, meta, demo, COMPLETE_MATCHING, TUTOR_SHORTLISTED), meta, demo);
    } else {
      FirstLegTaken(db, demo, meta.key);
    }
  }

  lemma WalkedKeeps(a: Db, b: Db, demo: Uuid, legs: seq<Leg>, key: Text)
    requires demo in a.demos && Walked(a, b, demo, legs, key)
    ensures demo in b.demos && demo in b.log
  {
  }

  lemma FirstLegTaken(db: Db, demo: Uuid, key: Text)
    requires demo in db.demos && !WalkIsFree(db, demo, [FOUND[0]], key)
    ensures !WalkIsFree(db, demo, FOUND, key)
  {
    hide Logged, Walk;
    var state := db.demos[demo].state;
    WalkTwo(state, key);
    assert forall e :: e in Walk(state, [FOUND[0]], key) ==> e in Walk(state, FOUND, key);
  }

  lemma WalkTwo(state: DemoState, key: Text)
    ensures
      var first := Walk(state, [FOUND[0]], key);
      var middle := if first == [] then state else first[|first| - 1].after;
      middle == TUTOR_MATCHING && Walk(state, FOUND, key) == first + Walk(TUTOR_MATCHING, [FOUND[1]], key)
  {
    assert [FOUND[0]][1..] == [] && FOUND[1..] == [FOUND[1]];
  }

  /** The second leg's key differs from the first's, so it clashes only with an older entry. */
  lemma Joined(db: Db, first: Db, middle: Db, e: Effect, meta: Envelope, demo: Uuid)
    requires demo in db.demos && demo in db.log && Walked(db, first, demo, [FOUND[0]], meta.key) && WalkIsFree(db, demo, [FOUND[0]], meta.key)
    requires first == db.(demos := first.demos, log := first.log)
    requires middle == first.(conversations := middle.conversations) && demo in middle.demos && demo in middle.log
    requires e.Done? <==> WalkIsFree(middle, demo, [FOUND[1]], meta.key)
    requires e.Done? ==> Walked(middle, e.db, demo, [FOUND[1]], meta.key) && e.db == middle.(demos := e.db.demos, log := e.db.log)
    ensures e.Done? <==> WalkIsFree(db, demo, FOUND, meta.key)
    ensures e.Done? ==> Walked(db, e.db, demo, FOUND, meta.key)
    ensures e.Done? ==> e.db == db.(demos := e.db.demos, log := e.db.log, conversations := middle.conversations)
  {
    hide Walk, Logged;
    var state := db.demos[demo].state;
    var one, two := Walk(state, [FOUND[0]], meta.key), Walk(TUTOR_MATCHING, [FOUND[1]], meta.key);
    WalkTwo(state, meta.key);
    assert middle.demos[demo].state == TUTOR_MATCHING && LogOf(middle, demo) == LogOf(db, demo) + one;
    forall e | e in two ensures Logged(middle, demo, e.key) <==> Logged(db, demo, e.key) {
      LegKeysDiffer(state, meta.key);
      LoggedThroughWalk(db, middle, demo, one, e.key);
    }
    assert LogOf(db, demo) + (one + two) == LogOf(db, demo) + one + two;
  }

  lemma LegKeysDiffer(state: DemoState, key: Text)
    ensures forall d, e :: d in Walk(state, [FOUND[0]], key) && e in Walk(TUTOR_MATCHING, [FOUND[1]], key) ==> d.key != e.key
  {
    assert [FOUND[0]][1..] == [] && [FOUND[1]][1..] == [];
    assert |FOUND[0].suffix| != |FOUND[1].suffix|;
  }

  lemma LoggedThroughWalk(db: Db, middle: Db, demo: Uuid, one: seq<LogEntry>, key: Text)
    requires LogOf(middle, demo) == LogOf(db, demo) + one && forall e :: e in one ==> e.key != key
    ensures Logged(middle, demo, key) <==> Logged(db, demo, key)
  {
  }

  // ---------------------------------------------------------------- the message

  lemma RecipientFields(meta: Envelope)
    ensures IsRecipient(meta, Recipient(meta))
  {
    hide Strip;
  }

  /** Queueing the reply succeeds exactly when its row is free, and adds that row alone. */
  lemma ReplyQueued(a: Db, db: Db, meta: Envelope, demo: Uuid, now: int)
    requires db.outbox == a.outbox
    ensures
      var r := AddReply(Done(db), meta, demo, now);
      && (r.Done? <==> !ReplyTaken(a, meta)) && (!r.Done? ==> r == Violation)
      && (r.Done? ==> Replies(a, r.db, meta, demo, now) && r.db == db.(outbox := r.db.outbox))
  {
    hide Recipient, IsRecipient, OutboxClash;
    RecipientFields(meta);
    TakenIff(db, ReplyEventId(meta.id), meta.tenant, ReplyKey(meta.id));
    SameTaken(a, db, ReplyEventId(meta.id), meta.tenant, ReplyKey(meta.id));
    if !OutboxClash(db, ReplyEventId(meta.id), meta.tenant, ReplyKey(meta.id)) {
      var r := AddReply(Done(db), meta, demo, now);
      var id, key := ReplyEventId(meta.id), ReplyKey(meta.id);
      assert Announces(a, r.db, id, meta.tenant, meta.source, key, meta.correlation, DeliveryPayload(id, demo, Recipient(meta), key), now);
    }
  }

  lemma SameTaken(a: Db, b: Db, id: Uuid, tenant: Text, key: Text)
    requires a.outbox == b.outbox
    ensures RowTaken(a, id, tenant, key) <==> RowTaken(b, id, tenant, key)
  {
  }

  /** What the code does with a message that picked no tutor, before its reply. */
  function Moves(cfg: Config, db: Db, meta: Envelope, demo: Uuid, step: ConversationStep, turn: Turn): Effect {
    if !turn.complete || step != Collecting || !cfg.websiteConfigured then Done(db)
    else if turn.search != Tutors then TransitionDemo(db, meta, demo, ESCALATE_HUMAN, HUMAN_HANDOFF)
    else Shortlist(db, meta, demo)
  }

  /** The legs after the conversation's step was written: the walk is the one from before. */
  lemma LegsWalked(cfg: Config, a: Db, db: Db, meta: Envelope, demo: Uuid, step: ConversationStep, turn: Turn)
    requires demo in a.demos && demo in a.log && db == a.(conversations := db.conversations)
    requires !(step == SelectTutor && turn.picked)
    ensures
      var e := Moves(cfg, db, meta, demo, step, turn);
      var legs, here := LegsOf(cfg, step, turn), (meta.tenant, meta.conversation);
      && (e.Done? <==> WalkIsFree(a, demo, legs, meta.key)) && (!e.Done? ==> e == Violation)
      && (e.Done? ==>
            && Walked(a, e.db, demo, legs, meta.key)
            && e.db.conversations == (if legs == FOUND then db.conversations[here := Conversation(demo, SelectTutor)] else db.conversations)
            && e.db == a.(demos := e.db.demos, log := e.db.log, conversations := e.db.conversations))
  {
    hide TransitionDemo, Shortlist, Walked, WalkIsFree;
    LegsDiffer();
    SameWalk(a, db, demo, meta.key);
    if !turn.complete || step != Collecting || !cfg.websiteConfigured {
      NoLegs(db, demo, meta.key);
    } else if turn.search != Tutors {
      OneLeg(db, meta, demo, ESCALATE_HUMAN, HUMAN_HANDOFF, ESCALATED[0].suffix);
      assert ESCALATED == [Leg(ESCALATE_HUMAN, HUMAN_HANDOFF, ESCALATED[0].suffix)];
    } else {
      TwoLegs(db, meta, demo);
    }
  }

  lemma LegsDiffer()
    ensures FOUND != ESCALATED && FOUND != []
  {
    assert |FOUND| == 2 && |ESCALATED| == 1;
  }

  lemma SameWalk(a: Db, db: Db, demo: Uuid, key: Text)
    requires demo in a.demos && db == a.(conversations := db.conversations)
    ensures forall legs, after: Db :: Walked(db, after, demo, legs, key) <==> Walked(a, after, demo, legs, key)
    ensures forall legs :: WalkIsFree(db, demo, legs, key) <==> WalkIsFree(a, demo, legs, key)
  {
    hide Walk, Walked, WalkIsFree;
    forall legs, after: Db ensures Walked(db, after, demo, legs, key) <==> Walked(a, after, demo, legs, key) {
      SameWalked(a, db, after, demo, legs, key);
    }
    forall legs ensures WalkIsFree(db, demo, legs, key) <==> WalkIsFree(a, demo, legs, key) {
      SameFree(a, db, demo, legs, key);
    }
  }

  lemma SameWalked(a: Db, db: Db, after: Db, demo: Uuid, legs: seq<Leg>, key: Text)
    requires demo in a.demos && db == a.(conversations := db.conversations)
    ensures Walked(db, after, demo, legs, key) <==> Walked(a, after, demo, legs, key)
  {
    hide Walk;
    assert LogOf(db, demo) == LogOf(a, demo);
  }

  lemma SameFree(a: Db, db: Db, demo: Uuid, legs: seq<Leg>, key: Text)
    requires demo in a.demos && db == a.(conversations := db.conversations)
    ensures WalkIsFree(db, demo, legs, key) <==> WalkIsFree(a, demo, legs, key)
  {
    hide Walk;
    assert LogOf(db, demo) == LogOf(a, demo);
  }

  /**
   A message of a known conversation is handled exactly when no key of its log entries and its
   reply is in use; it then walks its demo, writes the conversation's step and queues one reply.
   */
  lemma KnownConversation(cfg: Config, db: Db, meta: Envelope, sender: Option<Text>, turn: Turn, now: int)
    requires (meta.tenant, meta.conversation) in db.conversations
    requires db.conversations[(meta.tenant, meta.conversation)].demo in db.demos && db.demos.Keys == db.log.Keys
    ensures
      var c := db.conversations[(meta.tenant, meta.conversation)];
      var e := StartDemo(cfg, db, meta, sender, turn, now);
      && (e.Done? <==>
            WalkIsFree(db, c.demo, LegsOf(cfg, StepFound(c.step, turn.changed), turn), meta.key) && !ReplyTaken(db, meta))
      && (!e.Done? ==> e == Violation)
      && (e.Done? ==> Continues(cfg, db, e.db, meta, turn, now))
  {
    hide TransitionDemo, Shortlist, Walked, WalkIsFree, ReplyTaken, Replies, AddReply, LegsOf;
    var here := (meta.tenant, meta.conversation);
    var c := db.conversations[here];
    var step := StepFound(c.step, turn.changed);
    assert StepAfter(c, turn) == step;
    assert c.demo in db.log.Keys;
    LegsDiffer();
    if step == SelectTutor && turn.picked {
      PickedLegs(cfg, turn);
      PickedWalk(cfg, db, meta, turn, now);
    } else {
      var db1 := SetStep(db, meta, c.demo, step);
      LegsWalked(cfg, db, db1, meta, c.demo, step, turn);
      AfterLegs(cfg, db, db1, meta, c.demo, step, turn, now);
      FoundIff(cfg, step, turn);
    }
  }

  lemma FoundIff(cfg: Config, step: ConversationStep, turn: Turn)
    requires !(step == SelectTutor && turn.picked)
    ensures LegsOf(cfg, step, turn) == FOUND <==> Searches(cfg, step, turn) && turn.search == Tutors
  {
    LegsDiffer();
  }

  lemma PickedLegs(cfg: Config, turn: Turn)
    requires turn.picked
    ensures LegsOf(cfg, SelectTutor, turn) == PICKED && StepLeft(cfg, SelectTutor, turn) == AwaitingTutor
  {
  }

  lemma PickedWalk(cfg: Config, db: Db, meta: Envelope, turn: Turn, now: int)
    requires (meta.tenant, meta.conversation) in db.conversations
    requires
      var c := db.conversations[(meta.tenant, meta.conversation)];
      c.demo in db.demos && c.demo in db.log && StepFound(c.step, turn.changed) == SelectTutor && turn.picked
    ensures
      var c := db.conversations[(meta.tenant, meta.conversation)];
      var e := AcceptTutor(db, meta, c.demo, now);
      && (e.Done? <==> WalkIsFree(db, c.demo, PICKED, meta.key) && !ReplyTaken(db, meta)) && (!e.Done? ==> e == Violation)
      && (e.Done? ==> Continues(cfg, db, e.db, meta, turn, now))
  {
    hide TransitionDemo, Walked, WalkIsFree, ReplyTaken, Replies, AddReply;
    var c := db.conversations[(meta.tenant, meta.conversation)];
    var db1 := SetStep(db, meta, c.demo, AwaitingTutor);
    SameWalk(db, db1, c.demo, meta.key);
    OneLeg(db1, meta, c.demo, ACCEPT_SHORTLIST, SLOT_NEGOTIATING, PICKED[0].suffix);
    assert PICKED == [Leg(ACCEPT_SHORTLIST, SLOT_NEGOTIATING, PICKED[0].suffix)];
    var e := TransitionDemo(db1, meta, c.demo, ACCEPT_SHORTLIST, SLOT_NEGOTIATING);
    if e.Done? {
      ReplyQueued(db, e.db, meta, c.demo, now);
      WalkedStays(db, e.db, c.demo, PICKED, meta.key);
    } else {
      RaisedStays(e, meta, c.demo, now);
    }
  }

  lemma RaisedStays(e: Effect, meta: Envelope, demo: Uuid, now: int)
    requires e == Violation
    ensures AddReply(e, meta, demo, now) == Violation
  {
  }

  lemma WalkedStays(a: Db, b: Db, demo: Uuid, legs: seq<Leg>, key: Text)
    requires demo in a.demos && Walked(a, b, demo, legs, key)
    ensures forall after: Db :: after.demos == b.demos && after.log == b.log ==> Walked(a, after, demo, legs, key)
  {
  }

  lemma AfterLegs(cfg: Config, a: Db, db: Db, meta: Envelope, demo: Uuid, step: ConversationStep, turn: Turn, now: int)
    requires demo in a.demos && demo in a.log && db == a.(conversations := db.conversations)
    requires !(step == SelectTutor && turn.picked)
    ensures
      var r := Advance(cfg, db, meta, demo, step, turn, now);
      var legs, here := LegsOf(cfg, step, turn), (meta.tenant, meta.conversation);
      && (r.Done? <==> WalkIsFree(a, demo, legs, meta.key) && !ReplyTaken(a, meta)) && (!r.Done? ==> r == Violation)
      && (r.Done? ==>
            && Walked(a, r.db, demo, legs, meta.key) && Replies(a, r.db, meta, demo, now)
            && r.db.conversations == (if legs == FOUND then db.conversations[here := Conversation(demo, SelectTutor)] else db.conversations)
            && r.db == a.(demos := r.db.demos, log := r.db.log, conversations := r.db.conversations, outbox := r.db.outbox))
  {
    hide Moves, Advance, Walked, WalkIsFree, ReplyTaken, Replies, AddReply, LegsOf;
    LegsWalked(cfg, a, db, meta, demo, step, turn);
    MovesThenReplies(cfg, db, meta, demo, step, turn, now);
    var e := Moves(cfg, db, meta, demo, step, turn);
    if e.Done? {
      ReplyQueued(a, e.db, meta, demo, now);
      TwoWrites(a, e.db, Advance(cfg, db, meta, demo, step, turn, now));
      WalkedStays(a, e.db, demo, LegsOf(cfg, step, turn), meta.key);
    } else {
      RaisedStays(e, meta, demo, now);
    }
  }

  lemma MovesThenReplies(cfg: Config, db: Db, meta: Envelope, demo: Uuid, step: ConversationStep, turn: Turn, now: int)
    ensures Advance(cfg, db, meta, demo, step, turn, now) == AddReply(Moves(cfg, db, meta, demo, step, turn), meta, demo, now)
  {
    hide TransitionDemo, Shortlist, AddReply;
  }

  lemma TwoWrites(a: Db, b: Db, r: Effect)
    requires b == a.(demos := b.demos, log := b.log, conversations := b.conversations)
    ensures r.Done? && r.db == b.(outbox := r.db.outbox) ==>
      && r.db == a.(demos := r.db.demos, log := r.db.log, conversations := r.db.conversations, outbox := r.db.outbox)
      && r.db.demos == b.demos && r.db.log == b.log && r.db.conversations == b.conversations
  {
  }

  // ---------------------------------------------------------------- a new conversation

  /** The database with the demo that the message starts, qualifying and under its start key. */
  ghost predicate Starts(a: Db, b: Db, meta: Envelope, sender: Option<Text>) {
    var demo := DemoIdOf(meta.id);
    && b.demos == a.demos[demo := Demo(meta.tenant, sender, meta.conversation, QUALIFYING, 1)]
    && b.log == a.log[demo := [LogEntry(NEW, START_QUALIFICATION, QUALIFYING, meta.key)]]
    && b == a.(demos := b.demos, log := b.log)
  }

  /** A new demo's own start key is no walk key, so only the reply's row can be in use. */
  lemma NewWalkIsFree(db: Db, demo: Uuid, legs: seq<Leg>, key: Text)
    requires demo in db.demos && demo in db.log && |db.log[demo]| == 1 && db.log[demo][0].key == key
    ensures WalkIsFree(db, demo, legs, key)
  {
    hide Walk;
    WalkKeys(db.demos[demo].state, legs, key);
    forall e | e in Walk(db.demos[demo].state, legs, key) ensures !Logged(db, demo, e.key) {
      var i :| 0 <= i < |Walk(db.demos[demo].state, legs, key)| && Walk(db.demos[demo].state, legs, key)[i] == e;
    }
  }

  lemma {:induction false} WalkKeys(state: DemoState, legs: seq<Leg>, key: Text)
    ensures forall i :: 0 <= i < |Walk(state, legs, key)| ==>
      Walk(state, legs, key)[i].key.Suffixed? && Walk(state, legs, key)[i].key.head == key && Walk(state, legs, key)[i].key != key
    decreases legs
  {
    if legs != [] {
      WalkKeys(state, legs[1..], key);
      WalkKeys(legs[0].after, legs[1..], key);
    }
  }

  /**
   The first message of a conversation starts a qualifying demo of its own, walks it as the turn
   says, and is handled exactly when its reply's row is free; a demo with that id already there
   makes it finish and change nothing.
   */
  lemma NewConversation(cfg: Config, db: Db, meta: Envelope, sender: Option<Text>, turn: Turn, now: int) returns (started: Db)
    requires (meta.tenant, meta.conversation) !in db.conversations
    ensures Starts(db, started, meta, sender)
    ensures
      var e, demo, here := StartDemo(cfg, db, meta, sender, turn, now), DemoIdOf(meta.id), (meta.tenant, meta.conversation);
      if demo in db.demos then e == Done(db)
      else
        && (e.Done? <==> !ReplyTaken(db, meta)) && (!e.Done? ==> e == Violation)
        && (e.Done? ==>
              && Walked(started, e.db, demo, LegsOf(cfg, Collecting, turn), meta.key) && Replies(db, e.db, meta, demo, now)
              && e.db.conversations == db.conversations[here := Conversation(demo, StepLeft(cfg, Collecting, turn))]
              && e.db == db.(demos := e.db.demos, log := e.db.log, conversations := e.db.conversations, outbox := e.db.outbox))
  {
    hide Walked, ReplyTaken, Replies, Advance, LegsOf, WalkIsFree, Walk;
    var demo := DemoIdOf(meta.id);
    started := db.(demos := db.demos[demo := Demo(meta.tenant, sender, meta.conversation, QUALIFYING, 1)],
                   log := db.log[demo := [LogEntry(NEW, START_QUALIFICATION, QUALIFYING, meta.key)]]);
    NewWalkIsFree(started, demo, LegsOf(cfg, Collecting, turn), meta.key);
    AfterLegs(cfg, started, SetStep(started, meta, demo, Collecting), meta, demo, Collecting, turn, now);
    SameReply(db, started, meta);
    FoundIff(cfg, Collecting, turn);
    if demo !in db.demos {
      WrittenFromStart(db, started, StartDemo(cfg, db, meta, sender, turn, now), meta);
    }
  }

  lemma WrittenFromStart(a: Db, b: Db, r: Effect, meta: Envelope)
    requires b == a.(demos := b.demos, log := b.log)
    ensures r.Done? && r.db == b.(demos := r.db.demos, log := r.db.log, conversations := r.db.conversations, outbox := r.db.outbox) ==>
      r.db == a.(demos := r.db.demos, log := r.db.log, conversations := r.db.conversations, outbox := r.db.outbox)
  {
  }

  lemma SameReply(a: Db, b: Db, meta: Envelope)
    requires a.outbox == b.outbox
    ensures ReplyTaken(a, meta) <==> ReplyTaken(b, meta)
    ensures forall after: Db, demo, now :: Replies(b, after, meta, demo, now) <==> Replies(a, after, meta, demo, now)
  {
    hide IsRecipient;
    SameTaken(a, b, ReplyEventId(meta.id), meta.tenant, ReplyKey(meta.id));
    forall after: Db, demo, now ensures Replies(b, after, meta, demo, now) <==> Replies(a, after, meta, demo, now) {
    }
  }
}
