/**
 The registered demo lifecycle: states, commands, the transition table, and its runs.
 */
module Lifecycle {
  import opened Identifiers

  datatype DemoState =
    | NEW | QUALIFYING | TUTOR_MATCHING | TUTOR_SHORTLISTED | SLOT_NEGOTIATING | SLOT_HELD
    | AWAITING_CONFIRMATIONS | SCHEDULED | REMINDERS_ACTIVE | READY | IN_PROGRESS | COMPLETED
    | ANALYSIS_PENDING | ANALYZED | CONVERSION_FOLLOW_UP | OFFER_PENDING | PAYMENT_PENDING | PAID
    | ONBOARDING_HANDOFF | CONVERTED | RESCHEDULE_REQUESTED | CANCELLED_BY_USER
    | CANCELLED_BY_TUTOR | SLOT_EXPIRED | NO_SHOW_USER | NO_SHOW_TUTOR | TECHNICAL_FAILURE
    | PAYMENT_FAILED | PAYMENT_EXPIRED | PAYMENT_REVIEW | HUMAN_HANDOFF | FAILED

  datatype Command =
    | START_QUALIFICATION | COMPLETE_QUALIFICATION | COMPLETE_MATCHING | ACCEPT_SHORTLIST
    | HOLD_SLOT | REQUEST_CONFIRMATIONS | CONFIRM_ALL | ACTIVATE_REMINDERS | MARK_READY
    | START_DEMO | COMPLETE_DEMO | QUEUE_ANALYSIS | COMPLETE_ANALYSIS | START_CONVERSION
    | PROPOSE_OFFER | REQUEST_PAYMENT | VERIFY_PAYMENT | HANDOFF_ONBOARDING
    | COMPLETE_ONBOARDING | REQUEST_RESCHEDULE | REOPEN_NEGOTIATION | EXPIRE_SLOT
    | REPORT_USER_NO_SHOW | REPORT_TUTOR_NO_SHOW | REPORT_TECHNICAL_FAILURE
    | REPORT_PAYMENT_FAILURE | EXPIRE_PAYMENT | REVIEW_PAYMENT | RETRY_PAYMENT
    | CANCEL_BY_USER | CANCEL_BY_TUTOR | ESCALATE_HUMAN | FAIL

  datatype Actor = User | Tutor | Admin | System | Provider

  const SYSTEM: set<Actor> := {System, Admin}
  const USER: set<Actor> := {User, Admin}
  const TUTOR: set<Actor> := {Tutor, Admin}
  const PROVIDER: set<Actor> := {Provider, System}
  const ANY_BUSINESS_ACTOR: set<Actor> := {User, Tutor, Admin, System}

  datatype Rule = Rule(after: DemoState, actors: set<Actor>)

  predicate Terminal(s: DemoState) {
    s.CONVERTED? || s.CANCELLED_BY_USER? || s.CANCELLED_BY_TUTOR? || s.HUMAN_HANDOFF? || s.FAILED?
  }

  predicate PaidFor(s: DemoState) { s.PAID? || s.ONBOARDING_HANDOFF? || s.CONVERTED? }

  predicate Cancellable(s: DemoState) {
    match s
    case QUALIFYING | TUTOR_MATCHING | TUTOR_SHORTLISTED | SLOT_NEGOTIATING | SLOT_HELD
       | AWAITING_CONFIRMATIONS | SCHEDULED | REMINDERS_ACTIVE | READY | RESCHEDULE_REQUESTED
       | SLOT_EXPIRED | NO_SHOW_USER | NO_SHOW_TUTOR | TECHNICAL_FAILURE => true
    case _ => false
  }

  /** The index from (state, command) to the registered rule. */
  function Lookup(before: DemoState, command: Command): Option<Rule> {
    match command
    case START_QUALIFICATION => if before == NEW then Some(Rule(QUALIFYING, ANY_BUSINESS_ACTOR)) else None
    case COMPLETE_QUALIFICATION => if before == QUALIFYING then Some(Rule(TUTOR_MATCHING, SYSTEM)) else None
    case COMPLETE_MATCHING => if before == TUTOR_MATCHING then Some(Rule(TUTOR_SHORTLISTED, SYSTEM)) else None
    case ACCEPT_SHORTLIST => if before == TUTOR_SHORTLISTED then Some(Rule(SLOT_NEGOTIATING, USER)) else None
    case HOLD_SLOT => if before == SLOT_NEGOTIATING then Some(Rule(SLOT_HELD, SYSTEM)) else None
    case REQUEST_CONFIRMATIONS => if before == SLOT_HELD then Some(Rule(AWAITING_CONFIRMATIONS, SYSTEM)) else None
    case EXPIRE_SLOT => if before == SLOT_HELD then Some(Rule(SLOT_EXPIRED, SYSTEM)) else None
    case CONFIRM_ALL => if before == AWAITING_CONFIRMATIONS then Some(Rule(SCHEDULED, SYSTEM)) else None
    case ACTIVATE_REMINDERS => if before == SCHEDULED then Some(Rule(REMINDERS_ACTIVE, SYSTEM)) else None
    case MARK_READY => if before == REMINDERS_ACTIVE then Some(Rule(READY, SYSTEM)) else None
    case START_DEMO => if before == READY then Some(Rule(IN_PROGRESS, ANY_BUSINESS_ACTOR)) else None
    case COMPLETE_DEMO => if before == IN_PROGRESS then Some(Rule(COMPLETED, ANY_BUSINESS_ACTOR)) else None
    case QUEUE_ANALYSIS => if before == COMPLETED then Some(Rule(ANALYSIS_PENDING, SYSTEM)) else None
    case COMPLETE_ANALYSIS => if before == ANALYSIS_PENDING then Some(Rule(ANALYZED, SYSTEM)) else None
    case START_CONVERSION => if before == ANALYZED then Some(Rule(CONVERSION_FOLLOW_UP, SYSTEM)) else None
    case PROPOSE_OFFER => if before == CONVERSION_FOLLOW_UP then Some(Rule(OFFER_PENDING, SYSTEM)) else None
    case REQUEST_PAYMENT =>
      if before == CONVERSION_FOLLOW_UP || before == OFFER_PENDING then Some(Rule(PAYMENT_PENDING, USER)) else None
    case VERIFY_PAYMENT =>
      if before == PAYMENT_PENDING || before == PAYMENT_REVIEW then Some(Rule(PAID, PROVIDER)) else None
    case REPORT_PAYMENT_FAILURE => if before == PAYMENT_PENDING then Some(Rule(PAYMENT_FAILED, PROVIDER)) else None
    case EXPIRE_PAYMENT => if before == PAYMENT_PENDING then Some(Rule(PAYMENT_EXPIRED, SYSTEM)) else None
    case REVIEW_PAYMENT => if before == PAYMENT_PENDING then Some(Rule(PAYMENT_REVIEW, SYSTEM)) else None
    case RETRY_PAYMENT =>
      if before == PAYMENT_FAILED || before == PAYMENT_EXPIRED then Some(Rule(PAYMENT_PENDING, USER)) else None
    case HANDOFF_ONBOARDING => if before == PAID then Some(Rule(ONBOARDING_HANDOFF, SYSTEM)) else None
    case COMPLETE_ONBOARDING => if before == ONBOARDING_HANDOFF then Some(Rule(CONVERTED, SYSTEM)) else None
    case REQUEST_RESCHEDULE =>
      if before == SCHEDULED || before == REMINDERS_ACTIVE || before == TECHNICAL_FAILURE then
        Some(Rule(RESCHEDULE_REQUESTED, ANY_BUSINESS_ACTOR))
      else if before == NO_SHOW_USER || before == NO_SHOW_TUTOR then Some(Rule(RESCHEDULE_REQUESTED, USER))
      else None
    case REOPEN_NEGOTIATION =>
      if before == RESCHEDULE_REQUESTED then Some(Rule(SLOT_NEGOTIATING, SYSTEM))
      else if before == SLOT_EXPIRED then Some(Rule(SLOT_NEGOTIATING, ANY_BUSINESS_ACTOR))
      else None
    case REPORT_USER_NO_SHOW => if before == READY then Some(Rule(NO_SHOW_USER, SYSTEM)) else None
    case REPORT_TUTOR_NO_SHOW => if before == READY then Some(Rule(NO_SHOW_TUTOR, SYSTEM)) else None
    case REPORT_TECHNICAL_FAILURE =>
      if before == IN_PROGRESS then Some(Rule(TECHNICAL_FAILURE, ANY_BUSINESS_ACTOR)) else None
    case CANCEL_BY_USER => if Cancellable(before) then Some(Rule(CANCELLED_BY_USER, USER)) else None
    case CANCEL_BY_TUTOR => if Cancellable(before) then Some(Rule(CANCELLED_BY_TUTOR, TUTOR)) else None
    case ESCALATE_HUMAN => if !Terminal(before) then Some(Rule(HUMAN_HANDOFF, SYSTEM)) else None
    case FAIL => if !Terminal(before) then Some(Rule(FAILED, SYSTEM)) else None
  }

  datatype Resolution = Allowed(rule: Rule) | NotAllowed | ActorRefused

  function Resolve(before: DemoState, command: Command, actor: Actor): Resolution {
    match Lookup(before, command)
    case None => NotAllowed
    case Some(rule) => if actor in rule.actors then Allowed(rule) else ActorRefused
  }

  /** Taking a demo that a side failed to join to another time is the learner's affair. */
  predicate ReschedulesNoShow(before: DemoState, command: Command) {
    command == REQUEST_RESCHEDULE && (before == NO_SHOW_USER || before == NO_SHOW_TUTOR)
  }

  /** The commands that learner, tutor, admin and system share. */
  predicate Shared(before: DemoState, command: Command) {
    match command
    case START_QUALIFICATION | START_DEMO | COMPLETE_DEMO | REPORT_TECHNICAL_FAILURE => true
    case REQUEST_RESCHEDULE => !ReschedulesNoShow(before, command)
    case REOPEN_NEGOTIATION => before == SLOT_EXPIRED
    case _ => false
  }

  predicate LearnersOwn(before: DemoState, command: Command) {
    ReschedulesNoShow(before, command)
    || command == ACCEPT_SHORTLIST || command == REQUEST_PAYMENT || command == RETRY_PAYMENT || command == CANCEL_BY_USER
  }

  /** Who may take a registered edge: the exact commands of learner and tutor. */
  lemma LearnerAndTutorMay(before: DemoState, command: Command)
    requires Lookup(before, command).Some?
    ensures Resolve(before, command, User).Allowed? <==> Shared(before, command) || LearnersOwn(before, command)
    ensures Resolve(before, command, Tutor).Allowed? <==> Shared(before, command) || command == CANCEL_BY_TUTOR
  {
    hide Lookup, BeforePayment, EndsEarly, Shared, LearnersOwn;
    if BeforePayment(command) {
      LearnerAndTutorMayEarly(before, command);
    } else if EndsEarly(command) {
      LearnerAndTutorMayEnding(before, command);
    } else {
      LearnerAndTutorMayLate(before, command);
    }
  }

  lemma LearnerAndTutorMayEarly(before: DemoState, command: Command)
    requires Lookup(before, command).Some? && BeforePayment(command)
    ensures Resolve(before, command, User).Allowed? <==> Shared(before, command) || LearnersOwn(before, command)
    ensures Resolve(before, command, Tutor).Allowed? <==> Shared(before, command) || command == CANCEL_BY_TUTOR
  {
    hide Cancellable, Terminal;
  }

  lemma EndingRule(before: DemoState, command: Command)
    requires Lookup(before, command).Some? && EndsEarly(command)
    ensures command == CANCEL_BY_USER ==> Lookup(before, command).value == Rule(CANCELLED_BY_USER, USER)
    ensures command == CANCEL_BY_TUTOR ==> Lookup(before, command).value == Rule(CANCELLED_BY_TUTOR, TUTOR)
    ensures command == ESCALATE_HUMAN ==> Lookup(before, command).value == Rule(HUMAN_HANDOFF, SYSTEM)
    ensures command == FAIL ==> Lookup(before, command).value == Rule(FAILED, SYSTEM)
  {
    hide Cancellable, Terminal;
  }

  lemma LearnerAndTutorMayEnding(before: DemoState, command: Command)
    requires Lookup(before, command).Some? && EndsEarly(command)
    ensures Resolve(before, command, User).Allowed? <==> Shared(before, command) || LearnersOwn(before, command)
    ensures Resolve(before, command, Tutor).Allowed? <==> Shared(before, command) || command == CANCEL_BY_TUTOR
  {
    hide Lookup;
    EndingRule(before, command);
  }

  lemma LearnerAndTutorMayLate(before: DemoState, command: Command)
    requires Lookup(before, command).Some? && !BeforePayment(command) && !EndsEarly(command)
    ensures Resolve(before, command, User).Allowed? <==> Shared(before, command) || LearnersOwn(before, command)
    ensures Resolve(before, command, Tutor).Allowed? <==> Shared(before, command) || command == CANCEL_BY_TUTOR
  {
    hide Cancellable, Terminal;
  }

  /** The provider reports payments and nothing else; an admin may do all but that; the system all but what is a side's own. */
  lemma ServiceMay(before: DemoState, command: Command)
    requires Lookup(before, command).Some?
    ensures Resolve(before, command, Provider).Allowed? <==> command == VERIFY_PAYMENT || command == REPORT_PAYMENT_FAILURE
    ensures Resolve(before, command, Admin).Allowed? <==> command != VERIFY_PAYMENT && command != REPORT_PAYMENT_FAILURE
    ensures Resolve(before, command, System).Allowed? <==> !LearnersOwn(before, command) && command != CANCEL_BY_TUTOR
  {
    hide Lookup, BeforePayment, EndsEarly, IsSaga, Shared, LearnersOwn;
    if BeforePayment(command) {
      ServiceMayEarly(before, command);
    } else if EndsEarly(command) {
      ServiceMayEnding(before, command);
    } else if IsSaga(command) {
      ServiceMaySaga(before, command);
    } else {
      ServiceMayLate(before, command);
    }
  }

  lemma ServiceMayEarly(before: DemoState, command: Command)
    requires Lookup(before, command).Some? && BeforePayment(command)
    ensures Resolve(before, command, Provider).Allowed? <==> command == VERIFY_PAYMENT || command == REPORT_PAYMENT_FAILURE
    ensures Resolve(before, command, Admin).Allowed? <==> command != VERIFY_PAYMENT && command != REPORT_PAYMENT_FAILURE
    ensures Resolve(before, command, System).Allowed? <==> !LearnersOwn(before, command) && command != CANCEL_BY_TUTOR
  {
    hide Cancellable, Terminal;
  }

  lemma ServiceMayEnding(before: DemoState, command: Command)
    requires Lookup(before, command).Some? && EndsEarly(command)
    ensures Resolve(before, command, Provider).Allowed? <==> command == VERIFY_PAYMENT || command == REPORT_PAYMENT_FAILURE
    ensures Resolve(before, command, Admin).Allowed? <==> command != VERIFY_PAYMENT && command != REPORT_PAYMENT_FAILURE
    ensures Resolve(before, command, System).Allowed? <==> !LearnersOwn(before, command) && command != CANCEL_BY_TUTOR
  {
    hide Lookup;
    EndingRule(before, command);
  }

  lemma ServiceMayLate(before: DemoState, command: Command)
    requires Lookup(before, command).Some? && !BeforePayment(command) && !EndsEarly(command) && !IsSaga(command)
    ensures Resolve(before, command, Provider).Allowed? <==> command == VERIFY_PAYMENT || command == REPORT_PAYMENT_FAILURE
    ensures Resolve(before, command, Admin).Allowed? <==> command != VERIFY_PAYMENT && command != REPORT_PAYMENT_FAILURE
    ensures Resolve(before, command, System).Allowed? <==> !LearnersOwn(before, command) && command != CANCEL_BY_TUTOR
  {
    hide Cancellable, Terminal;
  }

  lemma ServiceMaySaga(before: DemoState, command: Command)
    requires Lookup(before, command).Some? && IsSaga(command)
    ensures Resolve(before, command, Provider).Allowed? <==> command == VERIFY_PAYMENT || command == REPORT_PAYMENT_FAILURE
    ensures Resolve(before, command, Admin).Allowed? <==> command != VERIFY_PAYMENT && command != REPORT_PAYMENT_FAILURE
    ensures Resolve(before, command, System).Allowed? <==> !LearnersOwn(before, command) && command != CANCEL_BY_TUTOR
  {
    hide Cancellable, Terminal;
  }

  /** Only the saga's commands lead to a state that is paid for. */
  lemma PaidForBySaga(before: DemoState, command: Command)
    requires Lookup(before, command).Some? && PaidFor(Lookup(before, command).value.after)
    ensures command == VERIFY_PAYMENT || command == HANDOFF_ONBOARDING || command == COMPLETE_ONBOARDING
  {
  }

  /** No learner, guardian or tutor can move a demo into a state that is paid for. */
  lemma OnlyTheServicePays(before: DemoState, command: Command, actor: Actor)
    requires Resolve(before, command, actor).Allowed? && PaidFor(Resolve(before, command, actor).rule.after)
    ensures actor != User && actor != Tutor
    ensures command == VERIFY_PAYMENT ==> actor == Provider || actor == System
  {
    PaidForBySaga(before, command);
    match command
    case VERIFY_PAYMENT =>
    case HANDOFF_ONBOARDING =>
    case COMPLETE_ONBOARDING =>
  }

  /** One row of the transition log. */
  datatype LogEntry = LogEntry(before: DemoState, command: Command, after: DemoState, key: Text)

  predicate Registered(e: LogEntry) {
    Lookup(e.before, e.command).Some? && Lookup(e.before, e.command).value.after == e.after
  }

  predicate Chained(run: seq<LogEntry>) {
    forall i :: 0 < i < |run| ==> run[i].before == run[i - 1].after
  }

  predicate OnTable(run: seq<LogEntry>) {
    forall i :: 0 <= i < |run| ==> Registered(run[i])
  }

  predicate IsSaga(c: Command) {
    c.REQUEST_PAYMENT? || c.VERIFY_PAYMENT? || c.HANDOFF_ONBOARDING? || c.COMPLETE_ONBOARDING?
  }

  /** An edge that the saga issues or that leads to a state it pays for is registered. */
  predicate SagaEdge(e: LogEntry) {
    IsSaga(e.command) || PaidFor(e.after) ==> Registered(e)
  }

  predicate SagaSound(run: seq<LogEntry>) {
    forall i :: 0 <= i < |run| ==> SagaEdge(run[i])
  }

  /** A chained log that starts in NEW; `EndState` is where it has got to. */
  predicate StartsAtNew(run: seq<LogEntry>) {
    |run| > 0 ==> run[0].before == NEW
  }

  function EndState(run: seq<LogEntry>): DemoState {
    if run == [] then NEW else run[|run| - 1].after
  }

  predicate LifecycleRun(run: seq<LogEntry>) {
    Chained(run) && OnTable(run) && StartsAtNew(run)
  }

  function Count(run: seq<LogEntry>, command: Command): nat {
    if run == [] then 0
    else Count(run[..|run| - 1], command) + if run[|run| - 1].command == command then 1 else 0
  }

  // ---------------------------------------------------------------- the way to a conversion

  /** How far a state is from the start at least. */
  function Depth(s: DemoState): nat {
    match s
    case NEW => 0
    case QUALIFYING | HUMAN_HANDOFF | FAILED => 1
    case TUTOR_MATCHING | CANCELLED_BY_USER | CANCELLED_BY_TUTOR => 2
    case TUTOR_SHORTLISTED => 3
    case SLOT_NEGOTIATING => 4
    case SLOT_HELD => 5
    case AWAITING_CONFIRMATIONS | SLOT_EXPIRED => 6
    case SCHEDULED => 7
    case REMINDERS_ACTIVE | RESCHEDULE_REQUESTED => 8
    case READY => 9
    case IN_PROGRESS | NO_SHOW_USER | NO_SHOW_TUTOR => 10
    case COMPLETED | TECHNICAL_FAILURE => 11
    case ANALYSIS_PENDING => 12
    case ANALYZED => 13
    case CONVERSION_FOLLOW_UP => 14
    case OFFER_PENDING | PAYMENT_PENDING => 15
    case PAID | PAYMENT_FAILED | PAYMENT_EXPIRED | PAYMENT_REVIEW => 16
    case ONBOARDING_HANDOFF => 17
    case CONVERTED => 18
  }

  lemma EdgeGoesOneDeeper(before: DemoState, command: Command)
    requires Lookup(before, command).Some?
    ensures Depth(Lookup(before, command).value.after) <= Depth(before) + 1
  {
    hide Lookup, Depth, BeforePayment;
    if BeforePayment(command) {
      EarlyEdgeGoesOneDeeper(before, command);
    } else if EndsEarly(command) {
      EndingEdgeGoesOneDeeper(before, command);
    } else {
      LateEdgeGoesOneDeeper(before, command);
    }
  }

  /** The commands that end a demo before its conversion. */
  predicate EndsEarly(c: Command) { c == CANCEL_BY_USER || c == CANCEL_BY_TUTOR || c == ESCALATE_HUMAN || c == FAIL }

  lemma EndingEdgeGoesOneDeeper(before: DemoState, command: Command)
    requires Lookup(before, command).Some? && EndsEarly(command)
    ensures Depth(Lookup(before, command).value.after) <= Depth(before) + 1
  {
    hide Lookup;
    EndingRule(before, command);
    OnlyLiveStatesEnd(before, command);
  }

  lemma OnlyLiveStatesEnd(before: DemoState, command: Command)
    requires Lookup(before, command).Some? && EndsEarly(command)
    ensures !Terminal(before) && (command == CANCEL_BY_USER || command == CANCEL_BY_TUTOR ==> Cancellable(before))
  {
  }

  /** The commands that lead up to the conversion follow-up. */
  predicate BeforePayment(c: Command) {
    match c
    case START_QUALIFICATION | COMPLETE_QUALIFICATION | COMPLETE_MATCHING | ACCEPT_SHORTLIST | HOLD_SLOT
       | REQUEST_CONFIRMATIONS | CONFIRM_ALL | ACTIVATE_REMINDERS | MARK_READY | START_DEMO | COMPLETE_DEMO
       | QUEUE_ANALYSIS | COMPLETE_ANALYSIS | START_CONVERSION => true
    case _ => false
  }

  lemma EarlyEdgeGoesOneDeeper(before: DemoState, command: Command)
    requires Lookup(before, command).Some? && BeforePayment(command)
    ensures Depth(Lookup(before, command).value.after) <= Depth(before) + 1
  {
    hide Cancellable, Terminal;
  }

  lemma LateEdgeGoesOneDeeper(before: DemoState, command: Command)
    requires Lookup(before, command).Some? && !BeforePayment(command) && !EndsEarly(command)
    ensures Depth(Lookup(before, command).value.after) <= Depth(before) + 1
  {
    hide Lookup, Depth, BeforePayment, EndsEarly, IsSaga;
    if command == REQUEST_RESCHEDULE || command == REOPEN_NEGOTIATION {
      BackwardEdge(before, command);
    } else if IsSaga(command) {
      SagaEdgeGoesOneDeeper(before, command);
    } else {
      PaymentEdge(before, command);
    }
  }

  lemma BackwardEdge(before: DemoState, command: Command)
    requires Lookup(before, command).Some? && (command == REQUEST_RESCHEDULE || command == REOPEN_NEGOTIATION)
    ensures Depth(Lookup(before, command).value.after) <= Depth(before) + 1
  {
    hide Cancellable, Terminal;
  }

  lemma SagaEdgeGoesOneDeeper(before: DemoState, command: Command)
    requires Lookup(before, command).Some? && IsSaga(command)
    ensures Depth(Lookup(before, command).value.after) <= Depth(before) + 1
  {
    hide Cancellable, Terminal;
  }

  lemma PaymentEdge(before: DemoState, command: Command)
    requires Lookup(before, command).Some? && !BeforePayment(command) && !EndsEarly(command) && !IsSaga(command)
    requires command != REQUEST_RESCHEDULE && command != REOPEN_NEGOTIATION
    ensures Depth(Lookup(before, command).value.after) <= Depth(before) + 1
  {
    hide Cancellable, Terminal;
  }

  /** No run of the table reaches a state in fewer steps than its depth: there is no shortcut to a conversion. */
  lemma {:induction false} NoShortcut(run: seq<LogEntry>)
    requires LifecycleRun(run)
    ensures |run| >= Depth(EndState(run))
  {
    hide Lookup, Depth;
    if run == [] {
      NewIsNoDepth();
    } else {
      var front, last := run[..|run| - 1], run[|run| - 1];
      assert forall i :: 0 <= i < |front| ==> front[i] == run[i];
      NoShortcut(front);
      if |run| > 1 {
        assert last.before == EndState(front);
      }
      EdgeGoesOneDeeper(last.before, last.command);
    }
  }

  lemma NewIsNoDepth()
    ensures Depth(NEW) == 0
  {
  }

  /** The command that leads one deeper on the shortest way. */
  function NextCommand(s: DemoState): Command {
    match s
    case NEW => START_QUALIFICATION
    case QUALIFYING => COMPLETE_QUALIFICATION
    case TUTOR_MATCHING => COMPLETE_MATCHING
    case TUTOR_SHORTLISTED => ACCEPT_SHORTLIST
    case SLOT_NEGOTIATING => HOLD_SLOT
    case SLOT_HELD => REQUEST_CONFIRMATIONS
    case AWAITING_CONFIRMATIONS => CONFIRM_ALL
    case SCHEDULED => ACTIVATE_REMINDERS
    case REMINDERS_ACTIVE => MARK_READY
    case READY => START_DEMO
    case IN_PROGRESS => COMPLETE_DEMO
    case COMPLETED => QUEUE_ANALYSIS
    case ANALYSIS_PENDING => COMPLETE_ANALYSIS
    case ANALYZED => START_CONVERSION
    case CONVERSION_FOLLOW_UP | OFFER_PENDING => REQUEST_PAYMENT
    case PAYMENT_PENDING | PAYMENT_REVIEW => VERIFY_PAYMENT
    case PAYMENT_FAILED | PAYMENT_EXPIRED => RETRY_PAYMENT
    case PAID => HANDOFF_ONBOARDING
    case ONBOARDING_HANDOFF => COMPLETE_ONBOARDING
    case RESCHEDULE_REQUESTED | SLOT_EXPIRED => REOPEN_NEGOTIATION
    case NO_SHOW_USER | NO_SHOW_TUTOR | TECHNICAL_FAILURE => REQUEST_RESCHEDULE
    case CONVERTED | CANCELLED_BY_USER | CANCELLED_BY_TUTOR | HUMAN_HANDOFF | FAILED => FAIL
  }

  /** Steps that a live state still needs to a conversion on that way. */
  function StepsLeft(s: DemoState): nat {
    match s
    case OFFER_PENDING => 4
    case PAYMENT_REVIEW => 3
    case PAYMENT_FAILED | PAYMENT_EXPIRED => 4
    case RESCHEDULE_REQUESTED | SLOT_EXPIRED => 15
    case NO_SHOW_USER | NO_SHOW_TUTOR | TECHNICAL_FAILURE => 16
    case _ => 18 - Depth(s)
  }

  lemma WayGoesOn(s: DemoState)
    requires !Terminal(s)
    ensures Lookup(s, NextCommand(s)).Some? && StepsLeft(Lookup(s, NextCommand(s)).value.after) == StepsLeft(s) - 1
    ensures Terminal(Lookup(s, NextCommand(s)).value.after) ==> Lookup(s, NextCommand(s)).value.after == CONVERTED
  {
    hide Lookup, NextCommand, StepsLeft, Depth;
    if Depth(s) < 7 && BeforePayment(NextCommand(s)) {
      EarlyWayGoesOn(s);
    } else if BeforePayment(NextCommand(s)) {
      ScheduledWayGoesOn(s);
    } else {
      LateWayGoesOn(s);
    }
  }

  lemma EarlyWayGoesOn(s: DemoState)
    requires !Terminal(s) && Depth(s) < 7 && BeforePayment(NextCommand(s))
    ensures Lookup(s, NextCommand(s)).Some? && StepsLeft(Lookup(s, NextCommand(s)).value.after) == StepsLeft(s) - 1
    ensures !Terminal(Lookup(s, NextCommand(s)).value.after)
  {
  }

  lemma ScheduledWayGoesOn(s: DemoState)
    requires !Terminal(s) && Depth(s) >= 7 && BeforePayment(NextCommand(s))
    ensures Lookup(s, NextCommand(s)).Some? && StepsLeft(Lookup(s, NextCommand(s)).value.after) == StepsLeft(s) - 1
    ensures !Terminal(Lookup(s, NextCommand(s)).value.after)
  {
  }

  lemma LateWayGoesOn(s: DemoState)
    requires !Terminal(s) && !BeforePayment(NextCommand(s))
    ensures Lookup(s, NextCommand(s)).Some? && StepsLeft(Lookup(s, NextCommand(s)).value.after) == StepsLeft(s) - 1
    ensures Terminal(Lookup(s, NextCommand(s)).value.after) ==> Lookup(s, NextCommand(s)).value.after == CONVERTED
  {
  }

  /** The run that follows the way from a live state. */
  function WayFrom(s: DemoState, key: Text): (run: seq<LogEntry>)
    decreases StepsLeft(s)
  {
    if Terminal(s) then []
    else
      WayGoesOn(s);
      var rule := Lookup(s, NextCommand(s)).value;
      [LogEntry(s, NextCommand(s), rule.after, key)] + WayFrom(rule.after, key)
  }

  /** Every state that has not ended can still be converted, by registered commands and in so many steps. */
  lemma {:induction false} LiveStatesConvert(s: DemoState, key: Text)
    requires !Terminal(s)
    ensures
      var run := WayFrom(s, key);
      |run| == StepsLeft(s) && Chained(run) && OnTable(run) && run != [] && run[0].before == s && run[|run| - 1].after == CONVERTED
    decreases StepsLeft(s)
  {
    hide Lookup, NextCommand, StepsLeft;
    WayGoesOn(s);
    ConvertedIsDone();
    var after := Lookup(s, NextCommand(s)).value.after;
    var first := LogEntry(s, NextCommand(s), after, key);
    if !Terminal(after) {
      LiveStatesConvert(after, key);
      Prepended(first, WayFrom(after, key));
    } else {
      assert WayFrom(after, key) == [];
    }
  }

  lemma Prepended(first: LogEntry, run: seq<LogEntry>)
    requires Registered(first) && Chained(run) && OnTable(run) && run != [] && run[0].before == first.after
    ensures Chained([first] + run) && OnTable([first] + run)
    ensures ([first] + run)[|run|] == run[|run| - 1]
  {
    hide Registered;
  }

  lemma ConvertedIsDone()
    ensures StepsLeft(CONVERTED) == 0 && StepsLeft(NEW) == 18
  {
  }

  /** A demo is converted in 18 steps and no fewer. */
  lemma ConvertsInEighteen(key: Text, run: seq<LogEntry>)
    ensures LifecycleRun(WayFrom(NEW, key)) && EndState(WayFrom(NEW, key)) == CONVERTED && |WayFrom(NEW, key)| == 18
    ensures LifecycleRun(run) && EndState(run) == CONVERTED ==> |run| >= 18
  {
    hide WayFrom, Lookup;
    LiveStatesConvert(NEW, key);
    ConvertedIsDone();
    if LifecycleRun(run) {
      NoShortcut(run);
    }
  }

  // ---------------------------------------------------------------- terminal states

  /** A state has no way out exactly when it is terminal. */
  lemma TerminalIffAbsorbing(s: DemoState)
    ensures Terminal(s) <==> forall c :: Lookup(s, c).None?
  {
    if !Terminal(s) {
      assert Lookup(s, FAIL).Some?;
    }
  }

  /** Terminal states end a run: every state a run leaves is live. */
  lemma RunLeavesOnlyLiveStates(run: seq<LogEntry>, i: nat)
    requires LifecycleRun(run) && i + 1 < |run|
    ensures !Terminal(run[i].after)
  {
    TerminalIffAbsorbing(run[i].after);
    assert Registered(run[i + 1]);
  }

  // ---------------------------------------------------------------- a measure on runs

  /** Rises along every edge except REOPEN_NEGOTIATION and RETRY_PAYMENT. */
  function Rank(s: DemoState): nat {
    match s
    case NEW => 0
    case QUALIFYING => 1
    case TUTOR_MATCHING => 2
    case TUTOR_SHORTLISTED => 3
    case SLOT_NEGOTIATING => 4
    case SLOT_HELD => 5
    case AWAITING_CONFIRMATIONS | SLOT_EXPIRED => 6
    case SCHEDULED => 7
    case REMINDERS_ACTIVE => 8
    case READY => 9
    case NO_SHOW_USER | NO_SHOW_TUTOR | IN_PROGRESS => 10
    case TECHNICAL_FAILURE | COMPLETED => 11
    case RESCHEDULE_REQUESTED | ANALYSIS_PENDING => 12
    case ANALYZED => 13
    case CONVERSION_FOLLOW_UP => 14
    case OFFER_PENDING => 15
    case PAYMENT_PENDING => 16
    case PAYMENT_FAILED | PAYMENT_EXPIRED | PAYMENT_REVIEW => 17
    case PAID => 18
    case ONBOARDING_HANDOFF => 19
    case CONVERTED | CANCELLED_BY_USER | CANCELLED_BY_TUTOR | HUMAN_HANDOFF | FAILED => 20
  }

  lemma RankAlongEdge(e: LogEntry)
    requires Registered(e)
    ensures e.command == REOPEN_NEGOTIATION ==> Rank(e.before) <= Rank(e.after) + 8
    ensures e.command == RETRY_PAYMENT ==> Rank(e.before) <= Rank(e.after) + 1
    ensures e.command != REOPEN_NEGOTIATION && e.command != RETRY_PAYMENT ==> Rank(e.before) < Rank(e.after)
  {
    hide Lookup, Rank;
    if EndsEarly(e.command) {
      RankAlongEnding(e);
    } else {
      RankAlongOther(e);
    }
  }

  lemma RankAlongEnding(e: LogEntry)
    requires Registered(e) && EndsEarly(e.command)
    ensures Rank(e.before) < Rank(e.after)
  {
    hide Lookup;
    EndingRule(e.before, e.command);
    OnlyLiveStatesEnd(e.before, e.command);
  }

  lemma RankAlongOther(e: LogEntry)
    requires Registered(e) && !EndsEarly(e.command)
    ensures e.command == REOPEN_NEGOTIATION ==> Rank(e.before) <= Rank(e.after) + 8
    ensures e.command == RETRY_PAYMENT ==> Rank(e.before) <= Rank(e.after) + 1
    ensures e.command != REOPEN_NEGOTIATION && e.command != RETRY_PAYMENT ==> Rank(e.before) < Rank(e.after)
  {
    hide Cancellable, Terminal;
  }

  lemma {:induction false} RunMeasure(run: seq<LogEntry>)
    requires LifecycleRun(run)
    ensures |run| <= Rank(EndState(run)) + 9 * Count(run, REOPEN_NEGOTIATION) + 2 * Count(run, RETRY_PAYMENT)
  {
    if run != [] {
      var front, last := run[..|run| - 1], run[|run| - 1];
      RunMeasure(front);
      assert last.before == EndState(front);
      RankAlongEdge(last);
    }
  }

  /** A run can only be long by reopening the negotiation or retrying the payment. */
  lemma RunLengthBound(run: seq<LogEntry>)
    requires LifecycleRun(run)
    ensures |run| <= 20 * (1 + Count(run, REOPEN_NEGOTIATION) + Count(run, RETRY_PAYMENT))
  {
    RunMeasure(run);
  }

  // ---------------------------------------------------------------- the saga's commands

  const SAGA: seq<Command> := [REQUEST_PAYMENT, VERIFY_PAYMENT, HANDOFF_ONBOARDING, COMPLETE_ONBOARDING]

  function SagaCommands(run: seq<LogEntry>): seq<Command> {
    if run == [] then []
    else
      var last := run[|run| - 1].command;
      SagaCommands(run[..|run| - 1]) + if IsSaga(last) then [last] else []
  }

  /** How many saga commands a live state has behind it. */
  function Stage(s: DemoState): nat {
    match s
    case PAYMENT_PENDING | PAYMENT_FAILED | PAYMENT_EXPIRED | PAYMENT_REVIEW => 1
    case PAID => 2
    case ONBOARDING_HANDOFF => 3
    case CONVERTED => 4
    case _ => 0
  }

  predicate Abandoned(s: DemoState) {
    Terminal(s) && s != CONVERTED
  }

  lemma StageOfSagaEdge(e: LogEntry)
    requires Registered(e) && IsSaga(e.command)
    ensures !Abandoned(e.before) && !Abandoned(e.after)
    ensures Stage(e.before) < 4 && e.command == SAGA[Stage(e.before)] && Stage(e.after) == Stage(e.before) + 1
  {
    match e.command
    case REQUEST_PAYMENT =>
    case VERIFY_PAYMENT =>
    case HANDOFF_ONBOARDING =>
    case COMPLETE_ONBOARDING =>
  }

  lemma StageOfOtherEdge(e: LogEntry)
    requires Registered(e) && !IsSaga(e.command)
    ensures !Abandoned(e.before)
    ensures !Abandoned(e.after) ==> Stage(e.after) == Stage(e.before)
  {
  }

  lemma StageAlongEdge(e: LogEntry)
    requires Registered(e)
    ensures !Abandoned(e.before)
    ensures IsSaga(e.command) ==>
      Stage(e.before) < 4 && e.command == SAGA[Stage(e.before)]
      && !Abandoned(e.after) && Stage(e.after) == Stage(e.before) + 1
    ensures !IsSaga(e.command) && !Abandoned(e.after) ==> Stage(e.after) == Stage(e.before)
  {
    hide Lookup, Stage;
    if IsSaga(e.command) {
      StageOfSagaEdge(e);
    } else {
      StageOfOtherEdge(e);
    }
  }

  /** On the table the saga's commands come in order, each at most once. */
  lemma {:induction false} SagaInOrder(run: seq<LogEntry>)
    requires LifecycleRun(run)
    ensures SagaCommands(run) <= SAGA
    ensures !Abandoned(EndState(run)) ==> |SagaCommands(run)| == Stage(EndState(run))
  {
    if run != [] {
      var front, last := run[..|run| - 1], run[|run| - 1];
      SagaInOrder(front);
      assert last.before == EndState(front);
      StageAlongEdge(last);
    }
  }

  function CountIn(commands: seq<Command>, command: Command): nat {
    if commands == [] then 0
    else CountIn(commands[..|commands| - 1], command) + if commands[|commands| - 1] == command then 1 else 0
  }

  lemma CountInAppend(commands: seq<Command>, last: Command, command: Command)
    ensures CountIn(commands + [last], command) == CountIn(commands, command) + if last == command then 1 else 0
  {
    assert (commands + [last])[..|commands|] == commands;
  }

  lemma {:induction false} CountSaga(run: seq<LogEntry>, command: Command)
    requires IsSaga(command)
    ensures Count(run, command) == CountIn(SagaCommands(run), command)
  {
    hide CountIn;
    if run == [] {
      NoneCounted(command);
    } else {
      var c, done := run[|run| - 1].command, SagaCommands(run[..|run| - 1]);
      CountSaga(run[..|run| - 1], command);
      CountInAppend(done, c, command);
      assert SagaCommands(run) == if IsSaga(c) then done + [c] else done;
    }
  }

  lemma NoneCounted(command: Command)
    ensures CountIn([], command) == 0
  {
  }

  lemma CountInPrefix(commands: seq<Command>, i: nat)
    requires commands <= SAGA && i < 4
    ensures CountIn(commands, SAGA[i]) == if i < |commands| then 1 else 0
  {
    var c := SAGA[i];
    assert CountIn(SAGA[..0], c) == 0;
    assert SAGA[..1][..0] == SAGA[..0];
    assert SAGA[..2][..1] == SAGA[..1];
    assert SAGA[..3][..2] == SAGA[..2];
    assert SAGA[..4][..3] == SAGA[..3];
    assert commands == SAGA[..|commands|];
  }

  /** Each saga command occurs once or not at all, and once exactly when it is in the prefix. */
  lemma SagaCommandAtMostOnce(run: seq<LogEntry>, i: nat)
    requires LifecycleRun(run) && i < 4
    ensures Count(run, SAGA[i]) == if i < |SagaCommands(run)| then 1 else 0
  {
    SagaInOrder(run);
    CountSaga(run, SAGA[i]);
    CountInPrefix(SagaCommands(run), i);
  }

  lemma {:induction false} CountedSomewhere(run: seq<LogEntry>, command: Command)
    ensures Count(run, command) > 0 <==> exists i :: 0 <= i < |run| && run[i].command == command
  {
    if run != [] {
      var front := run[..|run| - 1];
      CountedSomewhere(front, command);
      if Count(front, command) > 0 {
        var i :| 0 <= i < |front| && front[i].command == command;
        assert run[i].command == command;
      }
    }
  }

  /** On the table no payment is verified that was not requested before. */
  lemma VerifiedAfterRequest(run: seq<LogEntry>, j: nat)
    requires LifecycleRun(run) && j < |run| && run[j].command == VERIFY_PAYMENT
    ensures exists i :: 0 <= i < j && run[i].command == REQUEST_PAYMENT
  {
    var before := run[..j];
    assert EndState(before) == run[j].before;
    SagaInOrder(before);
    assert Registered(run[j]);
    StageAlongEdge(run[j]);
    SagaCommandAtMostOnce(before, 0);
    CountedSomewhere(before, REQUEST_PAYMENT);
    var i :| 0 <= i < |before| && before[i].command == REQUEST_PAYMENT;
    assert run[i].command == REQUEST_PAYMENT;
  }

  /** A run that reaches CONVERTED verified one payment, and requested it before that. */
  lemma ConvertedWasVerifiedOnce(run: seq<LogEntry>)
    requires LifecycleRun(run) && EndState(run) == CONVERTED
    ensures SagaCommands(run) == SAGA
    ensures Count(run, VERIFY_PAYMENT) == 1
    ensures exists i, j :: 0 <= i < j < |run| && run[i].command == REQUEST_PAYMENT && run[j].command == VERIFY_PAYMENT
  {
    SagaInOrder(run);
    SagaCommandAtMostOnce(run, 1);
    CountedSomewhere(run, VERIFY_PAYMENT);
    var j :| 0 <= j < |run| && run[j].command == VERIFY_PAYMENT;
    VerifiedAfterRequest(run, j);
  }
}
