/** Deciding what one piece of payment evidence does to a bound order. */
module PaymentVerification {
  import opened Identifiers
  import opened Monetary

  datatype EvidenceSource =
    | SignedWebhook | AuthenticatedReconciliation | BrowserReturn | ClientCallback | UserMessage

  datatype DecisionKind =
    | TransitionPaid | Duplicate | Review | Reconcile | PaymentFailed | PaymentExpired
    | StillPending | RejectedEvidence

  datatype Mismatch =
    | OrderMismatch | CurrencyMismatch | AmountMismatch | CustomerMismatch | PurposeMismatch
    | EnvironmentMismatch

  datatype Binding = Binding(
    domainId: Text, providerId: Text, demo: Uuid, customer: Text, amount: Money,
    purpose: string, environment: string, expiresAt: int)

  datatype Evidence = Evidence(
    eventId: Uuid, providerId: Text, source: EvidenceSource, status: string, amount: Money,
    customer: Text, purpose: string, environment: string,
    signatureVerified: bool, replayWindowVerified: bool, providerAuthenticated: bool)

  datatype Policy = Policy(
    version: string, success: set<string>, failed: set<string>, expired: set<string>,
    review: set<string>)

  datatype Decision = Decision(
    kind: DecisionKind, mismatches: seq<Mismatch>, activationKey: Option<Text>,
    outboxKey: Option<Text>)

  /** The policy's own check: no status may occur twice in the flattened groups. */
  predicate PolicyAccepted(p: Policy) {
    && Strip(p.version) != ""
    && p.success != {}
    && |p.success| + |p.failed| + |p.expired| + |p.review|
       == |p.success + p.failed + p.expired + p.review|
  }

  lemma UnionSize<T>(a: set<T>, b: set<T>)
    ensures |a + b| == |a| + |b| - |a * b|
  {
    assert a + b == a + (b - a * b) && a !! (b - a * b);
    assert |b - a * b| == |b| - |a * b| by {
      assert b == (b - a * b) + (a * b);
    }
  }

  /** Counting the flattened list decides exactly whether some status has two meanings. */
  lemma PolicyAcceptedIffDisjoint(p: Policy)
    ensures PolicyAccepted(p) <==>
      Strip(p.version) != "" && p.success != {}
      && p.success !! p.failed !! p.expired !! p.review
  {
    var ab, abc := p.success + p.failed, p.success + p.failed + p.expired;
    UnionSize(p.success, p.failed);
    UnionSize(ab, p.expired);
    UnionSize(abc, p.review);
    var doubled := |p.success * p.failed| + |ab * p.expired| + |abc * p.review|;
    assert |p.success| + |p.failed| + |p.expired| + |p.review| == |abc + p.review| + doubled;
    EmptyIffDisjoint(p.success, p.failed);
    EmptyIffDisjoint(ab, p.expired);
    EmptyIffDisjoint(abc, p.review);
    assert doubled == 0 <==> p.success !! p.failed && ab !! p.expired && abc !! p.review;
  }

  lemma EmptyIffDisjoint<T>(a: set<T>, b: set<T>)
    ensures |a * b| == 0 <==> a !! b
  {
    if |a * b| == 0 {
      assert a * b == {};
      forall x | x in a ensures x !in b {
        assert x in b ==> x in a * b;
      }
    }
    if a !! b {
      assert a * b == {};
    }
  }

  function OperationKey(prefix: string, order: Binding): Text {
    Digest([Str(prefix), order.domainId, order.providerId, UuidText(order.demo)])
  }

  function ActivationKey(order: Binding): Text { OperationKey("activation", order) }

  function PaidOutboxKey(order: Binding): Text { OperationKey("paid-outbox", order) }

  predicate Authoritative(e: Evidence) {
    match e.source
    case SignedWebhook => e.signatureVerified && e.replayWindowVerified
    case AuthenticatedReconciliation => e.providerAuthenticated
    case _ => false
  }

  function Mismatches(order: Binding, e: Evidence): seq<Mismatch> {
    (if e.providerId != order.providerId then [OrderMismatch] else [])
    + (if e.amount.currency != order.amount.currency then [CurrencyMismatch]
       else if e.amount.amount != order.amount.amount then [AmountMismatch] else [])
    + (if e.customer != order.customer then [CustomerMismatch] else [])
    + (if e.purpose != order.purpose then [PurposeMismatch] else [])
    + (if e.environment != order.environment then [EnvironmentMismatch] else [])
  }

  function Plainly(kind: DecisionKind): Decision { Decision(kind, [], None, None) }

  function VerifyPayment(
    order: Binding, e: Evidence, policy: Policy, processed: set<Uuid>, alreadyPaid: bool, now: int
  ): Decision {
    if e.eventId in processed then Plainly(Duplicate)
    else if !Authoritative(e) then Plainly(RejectedEvidence)
    else if Mismatches(order, e) != [] then Decision(Review, Mismatches(order, e), None, None)
    else if e.status in policy.success then
      Decision(if alreadyPaid then Duplicate else TransitionPaid, [],
               Some(ActivationKey(order)), Some(PaidOutboxKey(order)))
    else if e.status in policy.failed then Plainly(PaymentFailed)
    else if e.status in policy.expired || now >= order.expiresAt then Plainly(PaymentExpired)
    else if e.status in policy.review then Plainly(Review)
    else if e.source == SignedWebhook then Plainly(Reconcile)
    else Plainly(StillPending)
  }

  /** Every field that ties the evidence to the order agrees. */
  predicate FullyBound(order: Binding, e: Evidence) {
    && e.providerId == order.providerId
    && e.amount == order.amount
    && e.customer == order.customer
    && e.purpose == order.purpose
    && e.environment == order.environment
  }

  lemma NoMismatchIffFullyBound(order: Binding, e: Evidence)
    ensures Mismatches(order, e) == [] <==> FullyBound(order, e)
  {
  }

  /** A payment moves to paid exactly on new, authoritative, fully bound success evidence. */
  lemma PaidExactlyOnBoundSuccess(
    order: Binding, e: Evidence, policy: Policy, processed: set<Uuid>, alreadyPaid: bool, now: int)
    ensures VerifyPayment(order, e, policy, processed, alreadyPaid, now).kind == TransitionPaid <==>
      && e.eventId !in processed
      && Authoritative(e)
      && FullyBound(order, e)
      && e.status in policy.success
      && !alreadyPaid
  {
    NoMismatchIffFullyBound(order, e);
  }

  /** The evidence proves where it comes from: a signed webhook in its window, or a provider's own answer. */
  predicate Proven(e: Evidence) {
    || (e.source == SignedWebhook && e.signatureVerified && e.replayWindowVerified)
    || (e.source == AuthenticatedReconciliation && e.providerAuthenticated)
  }

  /**
   When each decision is made, on the fields of the order, the evidence and an accepted policy.
   A pending answer comes from the provider only, and an unclassified webhook is reconciled.
   */
  lemma DecisionsByFields(
    order: Binding, e: Evidence, policy: Policy, processed: set<Uuid>, alreadyPaid: bool, now: int)
    requires PolicyAccepted(policy)
    ensures
      var kind := VerifyPayment(order, e, policy, processed, alreadyPaid, now).kind;
      var heard := e.eventId !in processed && Proven(e);
      var settles := heard && FullyBound(order, e);
      var open := settles && e.status !in policy.success && e.status !in policy.failed && e.status !in policy.expired;
      && (kind == RejectedEvidence <==> e.eventId !in processed && !Proven(e))
      && (kind == Duplicate <==> e.eventId in processed || (settles && e.status in policy.success && alreadyPaid))
      && (kind == TransitionPaid <==> settles && e.status in policy.success && !alreadyPaid)
      && (kind == PaymentFailed <==> settles && e.status in policy.failed)
      && (kind == PaymentExpired <==> (settles && e.status in policy.expired) || (open && now >= order.expiresAt))
      && (kind == Review <==>
            (heard && !FullyBound(order, e)) || (open && now < order.expiresAt && e.status in policy.review))
      && (kind == Reconcile <==>
            open && now < order.expiresAt && e.status !in policy.review && e.source == SignedWebhook)
      && (kind == StillPending <==>
            open && now < order.expiresAt && e.status !in policy.review && e.source == AuthenticatedReconciliation)
  {
    PolicyAcceptedIffDisjoint(policy);
    NoMismatchIffFullyBound(order, e);
  }

  // ---------------------------------------------------------------- the order of the group tests

  datatype Group = SuccessGroup | FailedGroup | ExpiredGroup | ReviewGroup

  function Members(p: Policy, g: Group): set<string> {
    match g
    case SuccessGroup => p.success
    case FailedGroup => p.failed
    case ExpiredGroup => p.expired
    case ReviewGroup => p.review
  }

  /** The first of the groups, tested in the given order, that has the status. */
  function Classify(p: Policy, status: string, tests: seq<Group>): Option<Group> {
    if tests == [] then None
    else if status in Members(p, tests[0]) then Some(tests[0])
    else Classify(p, status, tests[1..])
  }

  predicate TestsAll(tests: seq<Group>) { forall g: Group :: g in tests }

  lemma {:induction false} ClassifyFinds(p: Policy, status: string, tests: seq<Group>)
    ensures
      match Classify(p, status, tests)
      case Some(g) => g in tests && status in Members(p, g)
      case None => forall g :: g in tests ==> status !in Members(p, g)
  {
    if tests != [] {
      ClassifyFinds(p, status, tests[1..]);
    }
  }

  /**
   The class of a status is the same whatever the order of the tests if and only if no two
   groups have it: exactly what the policy's check demands of every status.
   */
  lemma ClassIsOrderFreeIffOneGroup(p: Policy, status: string)
    ensures
      (forall a, b :: TestsAll(a) && TestsAll(b) ==> Classify(p, status, a) == Classify(p, status, b))
      <==> (forall g, h :: status in Members(p, g) && status in Members(p, h) ==> g == h)
  {
    if forall g, h :: status in Members(p, g) && status in Members(p, h) ==> g == h {
      forall a, b | TestsAll(a) && TestsAll(b) ensures Classify(p, status, a) == Classify(p, status, b) {
        ClassifyFinds(p, status, a);
        ClassifyFinds(p, status, b);
      }
    } else {
      var g, h :| status in Members(p, g) && status in Members(p, h) && g != h;
      var rest := [SuccessGroup, FailedGroup, ExpiredGroup, ReviewGroup];
      assert rest[0] == SuccessGroup && rest[1] == FailedGroup && rest[2] == ExpiredGroup && rest[3] == ReviewGroup;
      forall x: Group ensures x in rest {
        match x
        case SuccessGroup =>
        case FailedGroup =>
        case ExpiredGroup =>
        case ReviewGroup =>
      }
      assert TestsAll([g] + rest) && TestsAll([h] + rest);
      assert Classify(p, status, [g] + rest) == Some(g) && Classify(p, status, [h] + rest) == Some(h);
    }
  }

  /** What a class decides; an expired order turns review and unknown statuses into expiry. */
  function DecideClass(c: Option<Group>, source: EvidenceSource, alreadyPaid: bool, expired: bool): DecisionKind {
    match c
    case Some(SuccessGroup) => if alreadyPaid then Duplicate else TransitionPaid
    case Some(FailedGroup) => PaymentFailed
    case Some(ExpiredGroup) => PaymentExpired
    case Some(ReviewGroup) => if expired then PaymentExpired else Review
    case None => if expired then PaymentExpired else if source == SignedWebhook then Reconcile else StillPending
  }

  /** Under an accepted policy every order of the four group tests decides as the code does. */
  lemma GroupOrderIrrelevant(
    order: Binding, e: Evidence, policy: Policy, processed: set<Uuid>, alreadyPaid: bool, now: int, tests: seq<Group>)
    requires PolicyAccepted(policy) && TestsAll(tests)
    requires e.eventId !in processed && Authoritative(e) && FullyBound(order, e)
    ensures VerifyPayment(order, e, policy, processed, alreadyPaid, now).kind
         == DecideClass(Classify(policy, e.status, tests), e.source, alreadyPaid, now >= order.expiresAt)
  {
    PolicyAcceptedIffDisjoint(policy);
    NoMismatchIffFullyBound(order, e);
    ClassifyFinds(policy, e.status, tests);
    assert SuccessGroup in tests && FailedGroup in tests && ExpiredGroup in tests && ReviewGroup in tests;
    assert Members(policy, SuccessGroup) == policy.success && Members(policy, FailedGroup) == policy.failed;
    assert Members(policy, ExpiredGroup) == policy.expired && Members(policy, ReviewGroup) == policy.review;
  }

  /** The two exactly-once keys of an order never coincide with each other. */
  lemma OperationKeysDiffer(a: Binding, b: Binding)
    ensures ActivationKey(a) != PaidOutboxKey(b)
    ensures ActivationKey(a) == ActivationKey(b) <==>
      a.domainId == b.domainId && a.providerId == b.providerId && a.demo == b.demo
    ensures PaidOutboxKey(a) == PaidOutboxKey(b) <==>
      a.domainId == b.domainId && a.providerId == b.providerId && a.demo == b.demo
  {
    assert "activation"[0] != "paid-outbox"[0];
    var ka := [Str("activation"), a.domainId, a.providerId, UuidText(a.demo)];
    var kb := [Str("paid-outbox"), b.domainId, b.providerId, UuidText(b.demo)];
    assert ka[0] != kb[0];
    var la := [Str("activation"), b.domainId, b.providerId, UuidText(b.demo)];
    assert ka == la ==> ka[1] == la[1] && ka[2] == la[2] && ka[3] == la[3];
    var ma := [Str("paid-outbox"), a.domainId, a.providerId, UuidText(a.demo)];
    assert ma == kb ==> ma[1] == kb[1] && ma[2] == kb[2] && ma[3] == kb[3];
  }
}
