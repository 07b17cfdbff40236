/**
 The website gateway: every mutation runs once per scope and key, demo projections advance by
 one version at a time, and a subscription is activated once per demo and provider order.
 */
module Gateway {
  import opened Identifiers
  import opened Digits

  // ---------------------------------------------------------------- tables

  datatype Projection = Projection(
    lead: Option<int>, user: Option<string>, state: string, version: nat, correlation: string,
    occurredAt: string, onboarding: Option<string>, onboardingRef: Option<string>)

  datatype Activation = Activation(
    key: Text, demo: string, user: string, plan: int, planVersion: string, amount: int, currency: string,
    order: string, evidence: string, verifiedAt: string, subscription: string, status: string)

  datatype Body =
    | ProjectionUpdated(demo: string, user: Option<string>, state: string, version: nat)
    | OnboardingRecorded(demo: string, status: string, onboardingRef: Option<string>)
    | SubscriptionActivated(activation: nat, demo: string, order: string, subscription: string)

  datatype OutEvent = OutEvent(id: Uuid, correlation: string, body: Body)

  /** The domain tables; the outbox is keyed by its unique idempotency key. */
  datatype Website = Website(
    projections: map<string, Projection>,
    activations: seq<Activation>,
    subscriptions: map<(string, int), string>,
    outbox: map<Text, OutEvent>)

  const EMPTY_WEBSITE := Website(map[], [], map[], map[])

  // ---------------------------------------------------------------- payloads

  datatype Field =
    | DemoRef | UserRef | PlanId | OrderRef | EvidenceRef | AmountMinor | CurrencyCode
    | PlanVersion | VerifiedAt | CorrelationId

  /** A decoded JSON scalar; integers and strings stay apart. */
  datatype Value = Number(n: int) | Words(s: string)

  /** An associative array keeps its entries in order. */
  type Entries = seq<(Field, Value)>

  function Get(p: Entries, f: Field): Value {
    if p == [] then Words("") else if p[0].0 == f then p[0].1 else Get(p[1..], f)
  }

  function Printed(n: int): string { if n >= 0 then Show(n) else "-" + Show(-n) }

  /** `(string) $value`. */
  function AsString(v: Value): string {
    match v
    case Number(n) => Printed(n)
    case Words(s) => s
  }

  /** `(int) $value` for an integer or a string of digits; other strings count as zero here. */
  function AsInt(v: Value): int {
    match v
    case Number(n) => n
    case Words(s) => if s != "" && AllDigits(s) then Digits.Value(s) else 0
  }

  function AsMap(p: Entries): map<Field, Value> {
    if p == [] then map[] else AsMap(p[1..])[p[0].0 := p[0].1]
  }

  datatype UpdatePayload = UpdatePayload(
    expected: nat, lead: Option<int>, user: Option<string>, state: string, correlation: string, occurredAt: string)

  datatype OnboardingPayload = OnboardingPayload(status: string, onboardingRef: Option<string>, correlation: string)

  /**
   What the tables say to an activation: which of the activations that its unordered query matches
   comes back, the plan, the user, and the subscription row's id.
   */
  datatype Legacy = Legacy(found: nat, quote: Option<PlanQuote>, known: bool, subscription: Option<string>)

  datatype PlanQuote = PlanQuote(amount: int, currency: string, version: string, eligible: bool)

  datatype Mutation =
    | Update(demo: string, update: UpdatePayload)
    | Onboarding(demo: string, onboarding: OnboardingPayload)
    | Activate(payload: Entries, legacy: Legacy)

  const STATES: set<string> := {
    "intake", "requirements_complete", "tutor_shortlisted", "slot_proposed", "slot_held",
    "awaiting_confirmation", "scheduled", "reschedule_pending", "cancelled", "completed",
    "no_show", "conversion_pending", "payment_pending", "paid", "onboarding_handoff",
    "onboarding_complete", "human_handoff", "failed"}

  function Scope(m: Mutation): Text {
    match m
    case Update(demo, _) => Labelled("demo_projection", Str(demo))
    case Onboarding(demo, _) => Labelled("onboarding_projection", Str(demo))
    case Activate(_, _) => Str("subscription_activation")
  }

  /** The request hash is injective on the payload, whatever the order of its fields. */
  datatype RequestHash =
    | UpdateHash(demo: string, update: UpdatePayload)
    | OnboardingHash(demo: string, onboarding: OnboardingPayload)
    | ActivationHash(fields: map<Field, Value>)

  function Hash(m: Mutation): RequestHash {
    match m
    case Update(demo, p) => UpdateHash(demo, p)
    case Onboarding(demo, p) => OnboardingHash(demo, p)
    case Activate(p, _) => ActivationHash(AsMap(p))
  }

  // ---------------------------------------------------------------- mutations

  datatype Failure =
    | StateInvalid | KeyReused | InProgress | RecordInvalid | VersionConflict(current: nat)
    | ProjectionNotFound | BindingConflict | PlanNotEligible | PlanBindingMismatch | UserNotFound
    | SubscriptionRefused | UniqueViolation

  datatype Response =
    | ProjectionResponse(status: int, demo: string, version: nat, state: string, event: Uuid)
    | OnboardingResponse(status: int, demo: string, onboarding: string, event: Uuid)
    | ActivationResponse(status: int, activation: nat, subscription: string, applied: string,
                         alreadyApplied: bool, announced: Option<Uuid>)

  datatype Outcome = Applied(website: Website, response: Response) | Failed(failure: Failure)

  function EventKey(m: Mutation, key: Text): Text {
    match m
    case Update(_, _) => Labelled("demo-projection", Digest([key]))
    case Onboarding(_, _) => Labelled("onboarding-status", Digest([key]))
    case Activate(_, _) => Labelled("subscription-activation", Digest([key]))
  }

  predicate EventClash(outbox: map<Text, OutEvent>, key: Text, id: Uuid) {
    key in outbox || exists k :: k in outbox && outbox[k].id == id
  }

  predicate LeadClash(projections: map<string, Projection>, demo: string, lead: Option<int>) {
    lead.Some? && exists d :: d in projections && d != demo && projections[d].lead == lead
  }

  function NewProjection(w: Website, demo: string, p: UpdatePayload): Projection {
    var onboarding := if demo in w.projections then w.projections[demo].onboarding else None;
    var onboardingRef := if demo in w.projections then w.projections[demo].onboardingRef else None;
    Projection(p.lead, p.user, p.state, p.expected + 1, p.correlation, p.occurredAt, onboarding, onboardingRef)
  }

  function CurrentVersion(w: Website, demo: string): nat {
    if demo in w.projections then w.projections[demo].version else 0
  }

  function ApplyUpdate(w: Website, key: Text, m: Mutation, event: Uuid): Outcome
    requires m.Update?
  {
    var demo, p := m.demo, m.update;
    if CurrentVersion(w, demo) != p.expected then Failed(VersionConflict(CurrentVersion(w, demo)))
    else if LeadClash(w.projections, demo, p.lead) || EventClash(w.outbox, EventKey(m, key), event)
    then Failed(UniqueViolation)
    else
      var status := if demo in w.projections then 200 else 201;
      Applied(w.(projections := w.projections[demo := NewProjection(w, demo, p)],
                 outbox := w.outbox[EventKey(m, key) :=
                   OutEvent(event, p.correlation, ProjectionUpdated(demo, p.user, p.state, p.expected + 1))]),
              ProjectionResponse(status, demo, p.expected + 1, p.state, event))
  }

  function ApplyOnboarding(w: Website, key: Text, m: Mutation, event: Uuid): Outcome
    requires m.Onboarding?
  {
    var demo, p := m.demo, m.onboarding;
    if demo !in w.projections then Failed(ProjectionNotFound)
    else if EventClash(w.outbox, EventKey(m, key), event) then Failed(UniqueViolation)
    else
      Applied(w.(projections := w.projections[demo := w.projections[demo].(onboarding := Some(p.status), onboardingRef := p.onboardingRef)],
                 outbox := w.outbox[EventKey(m, key) :=
                   OutEvent(event, p.correlation, OnboardingRecorded(demo, p.status, p.onboardingRef))]),
              OnboardingResponse(200, demo, p.status, event))
  }

  /** The fields an existing activation is compared in, in the order the code lists them. */
  predicate Bound(f: Field) {
    match f
    case DemoRef | UserRef | PlanId | OrderRef | EvidenceRef | AmountMinor | CurrencyCode => true
    case _ => false
  }

  function Bindings(a: Activation): Entries {
    [(DemoRef, Words(a.demo)), (UserRef, Words(a.user)), (PlanId, Words(Printed(a.plan))),
     (OrderRef, Words(a.order)), (EvidenceRef, Words(a.evidence)), (AmountMinor, Number(a.amount)),
     (CurrencyCode, Words(a.currency))]
  }

  /** `array_intersect_key($payload, $bindings)`: the payload's bound entries, in its own order. */
  function Restrict(p: Entries): Entries {
    if p == [] then [] else (if Bound(p[0].0) then [p[0]] else []) + Restrict(p[1..])
  }

  predicate Touches(a: Activation, order: string, demo: string) { a.order == order || a.demo == demo }

  /** The first activation of the order or of the demo. */
  function FirstTouching(activations: seq<Activation>, order: string, demo: string): (i: nat)
    ensures i <= |activations|
    ensures i < |activations| ==> Touches(activations[i], order, demo)
    ensures forall j :: 0 <= j < i ==> !Touches(activations[j], order, demo)
  {
    if activations == [] || Touches(activations[0], order, demo) then 0
    else 1 + FirstTouching(activations[1..], order, demo)
  }

  /** What the query for an existing activation comes back with: any one that matches. */
  function Existing(activations: seq<Activation>, order: string, demo: string, found: nat): (i: nat)
    ensures i <= |activations|
    ensures i < |activations| ==> Touches(activations[i], order, demo)
    ensures i == |activations| <==> forall j :: 0 <= j < |activations| ==> !Touches(activations[j], order, demo)
    ensures found < |activations| && Touches(activations[found], order, demo) ==> i == found
  {
    if found < |activations| && Touches(activations[found], order, demo) then found
    else FirstTouching(activations, order, demo)
  }

  function NewActivation(key: Text, p: Entries, subscription: string): Activation {
    Activation(key, AsString(Get(p, DemoRef)), AsString(Get(p, UserRef)), AsInt(Get(p, PlanId)),
               AsString(Get(p, PlanVersion)), AsInt(Get(p, AmountMinor)), AsString(Get(p, CurrencyCode)),
               AsString(Get(p, OrderRef)), AsString(Get(p, EvidenceRef)), AsString(Get(p, VerifiedAt)),
               subscription, "applied")
  }

  predicate ActivationClash(activations: seq<Activation>, a: Activation) {
    exists i :: 0 <= i < |activations|
      && (activations[i].key == a.key || activations[i].demo == a.demo || activations[i].order == a.order
          || activations[i].evidence == a.evidence)
  }

  predicate MatchesQuote(p: Entries, q: PlanQuote) {
    q.amount == AsInt(Get(p, AmountMinor)) && q.currency == AsString(Get(p, CurrencyCode))
    && q.version == AsString(Get(p, PlanVersion))
  }

  function ApplyActivation(w: Website, key: Text, m: Mutation, event: Uuid): Outcome
    requires m.Activate?
  {
    var p, legacy := m.payload, m.legacy;
    var demo, order := AsString(Get(p, DemoRef)), AsString(Get(p, OrderRef));
    var i := Existing(w.activations, order, demo, legacy.found);
    if i < |w.activations| then
      var a := w.activations[i];
      if Bindings(a) != Restrict(p) then Failed(BindingConflict)
      else Applied(w, ActivationResponse(200, i, a.subscription, a.status, true, None))
    else if legacy.quote.None? || !legacy.quote.value.eligible then Failed(PlanNotEligible)
    else if !MatchesQuote(p, legacy.quote.value) then Failed(PlanBindingMismatch)
    else if !legacy.known then Failed(UserNotFound)
    else if legacy.subscription.None? then Failed(SubscriptionRefused)
    else
      var a := NewActivation(key, p, legacy.subscription.value);
      if ActivationClash(w.activations, a) || EventClash(w.outbox, EventKey(m, key), event) then Failed(UniqueViolation)
      else
        Applied(ActivatedWebsite(w, key, m, a, event),
                ActivationResponse(201, |w.activations|, a.subscription, a.status, false, Some(event)))
  }

  function ActivatedWebsite(w: Website, key: Text, m: Mutation, a: Activation, event: Uuid): Website
    requires m.Activate?
  {
    w.(activations := w.activations + [a],
       subscriptions := w.subscriptions[(a.user, a.plan) := a.order],
       outbox := w.outbox[EventKey(m, key) :=
         OutEvent(event, AsString(Get(m.payload, CorrelationId)),
                  SubscriptionActivated(|w.activations|, a.demo, a.order, a.subscription))])
  }

  function Apply(w: Website, key: Text, m: Mutation, event: Uuid): Outcome {
    match m
    case Update(_, _) => ApplyUpdate(w, key, m, event)
    case Onboarding(_, _) => ApplyOnboarding(w, key, m, event)
    case Activate(_, _) => ApplyActivation(w, key, m, event)
  }

  // ---------------------------------------------------------------- the run-once wrapper

  datatype RecordState = Processing | Completed

  datatype Record = Record(hash: RequestHash, state: RecordState, response: Option<Response>)

  datatype Call = Call(key: Text, mutation: Mutation, event: Uuid)

  datatype Answer = FirstTime(response: Response) | Replayed(response: Response) | Rejected(failure: Failure)

  datatype State = State(records: map<(Text, Text), Record>, website: Website)

  const EMPTY_STATE := State(map[], EMPTY_WEBSITE)

  function At(c: Call): (Text, Text) { (Scope(c.mutation), c.key) }

  function Execute(g: State, c: Call): (State, Answer) {
    var at, hash := At(c), Hash(c.mutation);
    if at in g.records then
      var r := g.records[at];
      if r.hash != hash then (g, Rejected(KeyReused))
      else if r.state != Completed || r.response.None? then (g, Rejected(InProgress))
      else (g, Replayed(r.response.value))
    else
      match Apply(g.website, c.key, c.mutation, c.event)
      case Failed(failure) => (g, Rejected(failure))
      case Applied(w, response) =>
        (State(g.records[at := Record(hash, Completed, Some(response))], w), FirstTime(response))
  }

  /** One request: a projection's state is checked before the wrapper is entered. */
  function Serve(g: State, c: Call): (State, Answer) {
    if c.mutation.Update? && c.mutation.update.state !in STATES then (g, Rejected(StateInvalid))
    else Execute(g, c)
  }

  function Run(g: State, calls: seq<Call>): State {
    if calls == [] then g else Serve(Run(g, calls[..|calls| - 1]), calls[|calls| - 1]).0
  }

  // ---------------------------------------------------------------- run once

  /** The calls of a run that were carried out, in order. */
  function CarriedOut(calls: seq<Call>): seq<Call> {
    if calls == [] then []
    else
      var front, last := calls[..|calls| - 1], calls[|calls| - 1];
      CarriedOut(front) + if Serve(Run(EMPTY_STATE, front), last).1.FirstTime? then [last] else []
  }

  /** The mutations one after the other, with no wrapper at all. */
  function ApplyAll(w: Website, calls: seq<Call>): Option<Website> {
    if calls == [] then Some(w)
    else
      var last := calls[|calls| - 1];
      match ApplyAll(w, calls[..|calls| - 1])
      case None => None
      case Some(before) =>
        match Apply(before, last.key, last.mutation, last.event)
        case Applied(after, _) => Some(after)
        case Failed(_) => None
  }

  /** A call that was not carried out leaves records and tables alone. */
  lemma OnlyFirstTimeChanges(g: State, c: Call)
    ensures !Serve(g, c).1.FirstTime? ==> Serve(g, c).0 == g
    ensures Serve(g, c).1.FirstTime? <==> Serve(g, c).0.records != g.records
    ensures Serve(g, c).1.FirstTime? ==>
      At(c) !in g.records
      && Serve(g, c).0.records == g.records[At(c) := Record(Hash(c.mutation), Completed, Some(Serve(g, c).1.response))]
      && Apply(g.website, c.key, c.mutation, c.event) == Applied(Serve(g, c).0.website, Serve(g, c).1.response)
  {
    hide Apply, Hash, Scope;
    if Serve(g, c).1.FirstTime? {
      assert At(c) in Serve(g, c).0.records;
    }
  }

  /** No committed record is still processing, and each has the response it will replay. */
  lemma {:induction false} NothingStaysProcessing(calls: seq<Call>)
    ensures forall at :: at in Run(EMPTY_STATE, calls).records ==>
      Run(EMPTY_STATE, calls).records[at].state == Completed && Run(EMPTY_STATE, calls).records[at].response.Some?
  {
    hide Serve;
    if calls != [] {
      var front, last := calls[..|calls| - 1], calls[|calls| - 1];
      NothingStaysProcessing(front);
      OnlyFirstTimeChanges(Run(EMPTY_STATE, front), last);
    }
  }

  predicate AllApart(calls: seq<Call>) {
    forall i, j :: 0 <= i < j < |calls| ==> At(calls[i]) != At(calls[j])
  }

  function Places(calls: seq<Call>): set<(Text, Text)> { set i | 0 <= i < |calls| :: At(calls[i]) }

  /** The records are those of the calls carried out, and no two of these share scope and key. */
  lemma {:induction false} CarriedOutOnce(calls: seq<Call>)
    ensures AllApart(CarriedOut(calls))
    ensures Run(EMPTY_STATE, calls).records.Keys == Places(CarriedOut(calls))
  {
    hide Serve, At, AllApart, Places;
    if calls == [] {
      NoneCarriedOut();
    } else {
      var front, last := calls[..|calls| - 1], calls[|calls| - 1];
      CarriedOutOnce(front);
      OnlyFirstTimeChanges(Run(EMPTY_STATE, front), last);
      if Serve(Run(EMPTY_STATE, front), last).1.FirstTime? {
        OneMore(CarriedOut(front), last);
      } else {
        assert CarriedOut(calls) == CarriedOut(front);
      }
    }
  }

  lemma NoneCarriedOut()
    ensures AllApart([]) && Places([]) == {}
  {
  }

  lemma OneMore(done: seq<Call>, c: Call)
    requires AllApart(done) && At(c) !in Places(done)
    ensures AllApart(done + [c]) && Places(done + [c]) == Places(done) + {At(c)}
  {
    hide At;
    var more := done + [c];
    assert more[|done|] == c;
    forall i | 0 <= i < |done| ensures At(more[i]) in Places(done) && more[i] == done[i] {
    }
    forall at | at in Places(done) ensures at in Places(more) {
      var i :| 0 <= i < |done| && At(done[i]) == at;
      assert more[i] == done[i];
    }
  }

  /** The tables are those of the calls carried out, each applied once and in order. */
  lemma {:induction false} TablesAreCarriedOutCalls(calls: seq<Call>)
    ensures ApplyAll(EMPTY_WEBSITE, CarriedOut(calls)) == Some(Run(EMPTY_STATE, calls).website)
  {
    hide Serve, Apply;
    if calls != [] {
      var front, last := calls[..|calls| - 1], calls[|calls| - 1];
      TablesAreCarriedOutCalls(front);
      var before := Run(EMPTY_STATE, front);
      OnlyFirstTimeChanges(before, last);
      var done := CarriedOut(front);
      if Serve(before, last).1.FirstTime? {
        assert (done + [last])[..|done|] == done;
      } else {
        assert CarriedOut(calls) == done;
      }
    }
  }

  lemma {:induction false} RecordsStay(g: State, calls: seq<Call>, at: (Text, Text))
    requires at in g.records
    ensures at in Run(g, calls).records && Run(g, calls).records[at] == g.records[at]
  {
    hide Serve;
    if calls != [] {
      RecordsStay(g, calls[..|calls| - 1], at);
      OnlyFirstTimeChanges(Run(g, calls[..|calls| - 1]), calls[|calls| - 1]);
    }
  }

  /**
   A call with the scope and key of one that was carried out before, however long ago, changes
   nothing: with the same payload it gets the first response, with another one it is rejected.
   */
  lemma ReplaysTheFirstResponse(before: State, first: Call, between: seq<Call>, again: Call)
    requires Serve(before, first).1.FirstTime? && At(again) == At(first)
    requires again.mutation.Update? ==> again.mutation.update.state in STATES
    ensures
      var g := Run(Serve(before, first).0, between);
      Serve(g, again) ==
        (g, if Hash(again.mutation) == Hash(first.mutation) then Replayed(Serve(before, first).1.response) else Rejected(KeyReused))
  {
    hide Apply, Hash, Scope;
    OnlyFirstTimeChanges(before, first);
    RecordsStay(Serve(before, first).0, between, At(first));
  }

  // ---------------------------------------------------------------- projections

  predicate IsUpdateOf(e: OutEvent, demo: string, version: nat) {
    e.body.ProjectionUpdated? && e.body.demo == demo && e.body.version == version
  }

  ghost predicate Announced(outbox: map<Text, OutEvent>, demo: string, version: nat) {
    exists k :: k in outbox && IsUpdateOf(outbox[k], demo, version)
  }

  lemma AnnouncedStays(outbox: map<Text, OutEvent>, k: Text, e: OutEvent, demo: string, version: nat)
    requires k !in outbox && (Announced(outbox, demo, version) || IsUpdateOf(e, demo, version))
    ensures Announced(outbox[k := e], demo, version)
  {
    var after := outbox[k := e];
    if Announced(outbox, demo, version) {
      var x :| x in outbox && IsUpdateOf(outbox[x], demo, version);
      assert x in after && IsUpdateOf(after[x], demo, version);
    } else {
      assert k in after && IsUpdateOf(after[k], demo, version);
    }
  }

  /** For each demo there is one update event for every version up to its own, and none beyond. */
  ghost predicate VersionsExact(w: Website) {
    && (forall k :: k in w.outbox && w.outbox[k].body.ProjectionUpdated? ==>
          w.outbox[k].body.demo in w.projections
          && 1 <= w.outbox[k].body.version <= w.projections[w.outbox[k].body.demo].version)
    && (forall d, v: nat :: d in w.projections && 1 <= v <= w.projections[d].version ==> Announced(w.outbox, d, v))
    && (forall a, b | a in w.outbox && b in w.outbox && a != b
          && w.outbox[a].body.ProjectionUpdated? && w.outbox[b].body.ProjectionUpdated?
          && w.outbox[a].body.demo == w.outbox[b].body.demo ::
          w.outbox[a].body.version != w.outbox[b].body.version)
    && (forall d :: d in w.projections ==> w.projections[d].version >= 1)
    && (forall k | k in w.outbox && w.outbox[k].body.ProjectionUpdated?
          && w.outbox[k].body.demo in w.projections
          && w.outbox[k].body.version == w.projections[w.outbox[k].body.demo].version ::
          w.outbox[k].body.state == w.projections[w.outbox[k].body.demo].state
          && w.outbox[k].body.user == w.projections[w.outbox[k].body.demo].user)
  }

  lemma UpdateKeepsVersions(w: Website, key: Text, m: Mutation, event: Uuid)
    requires VersionsExact(w) && m.Update?
    ensures
      var o := ApplyUpdate(w, key, m, event);
      o.Applied? ==> VersionsExact(o.website)
  {
    hide LeadClash, EventKey;
    var o := ApplyUpdate(w, key, m, event);
    if o.Applied? {
      var after, demo := o.website, m.demo;
      var k := EventKey(m, key);
      assert k !in w.outbox;
      forall d, v: nat | d in after.projections && 1 <= v <= after.projections[d].version
        ensures Announced(after.outbox, d, v)
      {
        AnnouncedStays(w.outbox, k, after.outbox[k], d, v);
      }
    }
  }

  /** An event that is no projection update changes no version. */
  lemma OtherEventKeepsVersions(w: Website, after: Website, k: Text, e: OutEvent)
    requires VersionsExact(w) && k !in w.outbox && !e.body.ProjectionUpdated? && after.outbox == w.outbox[k := e]
    requires after.projections.Keys == w.projections.Keys
    requires forall d :: d in w.projections ==>
      after.projections[d].version == w.projections[d].version && after.projections[d].state == w.projections[d].state
      && after.projections[d].user == w.projections[d].user
    ensures VersionsExact(after)
  {
    hide IsUpdateOf;
    forall d, v: nat | d in after.projections && 1 <= v <= after.projections[d].version
      ensures Announced(after.outbox, d, v)
    {
      AnnouncedStays(w.outbox, k, e, d, v);
    }
  }

  lemma ApplyKeepsVersions(w: Website, key: Text, m: Mutation, event: Uuid)
    requires VersionsExact(w)
    ensures
      var o := Apply(w, key, m, event);
      o.Applied? ==> VersionsExact(o.website)
  {
    hide VersionsExact, Restrict, Bindings, Get, EventKey, ActivationClash, MatchesQuote, NewActivation;
    var o := Apply(w, key, m, event);
    if o.Applied? {
      match m
      case Update(_, _) => UpdateKeepsVersions(w, key, m, event);
      case Onboarding(_, _) => OtherEventKeepsVersions(w, o.website, EventKey(m, key), o.website.outbox[EventKey(m, key)]);
      case Activate(_, _) =>
        if o.website != w {
          OtherEventKeepsVersions(w, o.website, EventKey(m, key), o.website.outbox[EventKey(m, key)]);
        }
    }
  }

  /** In every reachable state a demo's update events are exactly its versions 1 to n. */
  lemma {:induction false} ProjectionVersionsAreExact(calls: seq<Call>)
    ensures VersionsExact(Run(EMPTY_STATE, calls).website)
  {
    hide Serve, Apply;
    if calls == [] {
      NoVersionsYet();
    } else {
      hide VersionsExact;
      var before, last := Run(EMPTY_STATE, calls[..|calls| - 1]), calls[|calls| - 1];
      ProjectionVersionsAreExact(calls[..|calls| - 1]);
      OnlyFirstTimeChanges(before, last);
      ApplyKeepsVersions(before.website, last.key, last.mutation, last.event);
    }
  }

  lemma NoVersionsYet()
    ensures VersionsExact(EMPTY_WEBSITE)
  {
  }

  // ---------------------------------------------------------------- one key, several demos

  function UpdateKey(key: Text): Text { Labelled("demo-projection", Digest([key])) }

  /** A projection update with this key was carried out, whichever demo it was for. */
  predicate KeyUpdated(done: seq<Call>, key: Text) {
    exists i :: 0 <= i < |done| && done[i].mutation.Update? && done[i].key == key
  }

  lemma UpdateKeysDiffer(m: Mutation, key: Text, other: Text)
    ensures EventKey(m, key) == UpdateKey(other) <==> m.Update? && key == other
  {
    assert |"demo-projection"| == 15 && |"onboarding-status"| == 17 && |"subscription-activation"| == 23;
    assert [key][0] == key && [other][0] == other;
  }

  /** Applying a mutation adds at most the event under its own key, and takes none away. */
  lemma ApplyAddsItsEvent(w: Website, key: Text, m: Mutation, event: Uuid)
    ensures
      var o := Apply(w, key, m, event);
      o.Applied? ==>
        && (forall k :: k in w.outbox ==> k in o.website.outbox && o.website.outbox[k] == w.outbox[k])
        && (forall k :: k in o.website.outbox && k !in w.outbox ==> k == EventKey(m, key))
        && (m.Update? ==> UpdateKey(key) !in w.outbox && UpdateKey(key) in o.website.outbox
                          && o.website.outbox[UpdateKey(key)].body.ProjectionUpdated?
                          && o.website.outbox[UpdateKey(key)].body.demo == m.demo)
  {
    hide Restrict, Bindings, Get, ActivationClash, MatchesQuote, NewActivation, LeadClash;
  }

  /** Every reachable outbox has an update event under a key exactly when an update with that key was carried out. */
  lemma {:induction false} UpdateEventIffCarriedOut(calls: seq<Call>, key: Text)
    ensures UpdateKey(key) in Run(EMPTY_STATE, calls).website.outbox <==> KeyUpdated(CarriedOut(calls), key)
  {
    hide Serve, Apply, UpdateKey, EventKey;
    if calls != [] {
      var front, last := calls[..|calls| - 1], calls[|calls| - 1];
      var before := Run(EMPTY_STATE, front);
      UpdateEventIffCarriedOut(front, key);
      OnlyFirstTimeChanges(before, last);
      if Serve(before, last).1.FirstTime? {
        ApplyAddsItsEvent(before.website, last.key, last.mutation, last.event);
        UpdateKeysDiffer(last.mutation, last.key, key);
        KeyUpdatedLonger(CarriedOut(front), last, key);
      } else {
        assert CarriedOut(calls) == CarriedOut(front);
      }
    }
  }

  lemma KeyUpdatedLonger(done: seq<Call>, c: Call, key: Text)
    ensures KeyUpdated(done + [c], key) <==> KeyUpdated(done, key) || (c.mutation.Update? && c.key == key)
  {
    var more := done + [c];
    assert more[|done|] == c;
    forall i | 0 <= i < |done| ensures more[i] == done[i] {
    }
  }

  predicate UpdateScope(scope: Text) { scope.Labelled? && scope.prefix == "demo_projection" && scope.body.Str? }

  /** Every record of a projection update has its event, for the demo of its scope. */
  predicate RecordsAnnounced(g: State) {
    forall at :: at in g.records && UpdateScope(at.0) ==>
      && UpdateKey(at.1) in g.website.outbox
      && g.website.outbox[UpdateKey(at.1)].body.ProjectionUpdated?
      && g.website.outbox[UpdateKey(at.1)].body.demo == at.0.body.s
  }

  lemma ScopesDiffer(m: Mutation)
    ensures UpdateScope(Scope(m)) <==> m.Update?
    ensures m.Update? ==> Scope(m).body.s == m.demo
  {
    assert |"demo_projection"| == 15 && |"onboarding_projection"| == 21;
  }

  lemma ServeKeepsAnnounced(g: State, c: Call)
    requires RecordsAnnounced(g)
    ensures RecordsAnnounced(Serve(g, c).0)
  {
    hide Serve, Apply, Scope, UpdateKey, UpdateScope;
    OnlyFirstTimeChanges(g, c);
    if Serve(g, c).1.FirstTime? {
      ApplyAddsItsEvent(g.website, c.key, c.mutation, c.event);
      ScopesDiffer(c.mutation);
    }
  }

  lemma {:induction false} RunKeepsAnnounced(g: State, calls: seq<Call>)
    requires RecordsAnnounced(g)
    ensures RecordsAnnounced(Run(g, calls))
  {
    hide Serve, RecordsAnnounced;
    if calls != [] {
      RunKeepsAnnounced(g, calls[..|calls| - 1]);
      ServeKeepsAnnounced(Run(g, calls[..|calls| - 1]), calls[|calls| - 1]);
    }
  }

  lemma {:induction false} EventsStay(g: State, calls: seq<Call>, k: Text)
    requires k in g.website.outbox
    ensures k in Run(g, calls).website.outbox && Run(g, calls).website.outbox[k] == g.website.outbox[k]
  {
    hide Serve, Apply, EventKey, UpdateKey;
    if calls != [] {
      var middle, last := Run(g, calls[..|calls| - 1]), calls[|calls| - 1];
      EventsStay(g, calls[..|calls| - 1], k);
      OnlyFirstTimeChanges(middle, last);
      if Serve(middle, last).1.FirstTime? {
        ApplyAddsItsEvent(middle.website, last.key, last.mutation, last.event);
      }
    }
  }

  /**
   Once an update of one demo was carried out, an update of another demo with the same key is
   refused and changes nothing, however many calls lie between: the event key is made of the
   idempotency key alone, although the two scopes differ.
   */
  lemma KeyIsUsedUpByOneDemo(calls: seq<Call>, first: Call, between: seq<Call>, second: Call)
    requires first.mutation.Update? && second.mutation.Update? && first.key == second.key
    requires first.mutation.demo != second.mutation.demo
    requires Serve(Run(EMPTY_STATE, calls), first).1.FirstTime?
    ensures
      var g := Run(Serve(Run(EMPTY_STATE, calls), first).0, between);
      Serve(g, second).0 == g && Serve(g, second).1.Rejected?
  {
    hide Serve, Apply, Scope, UpdateScope, UpdateKey, RecordsAnnounced;
    var before := Run(EMPTY_STATE, calls);
    var after := Serve(before, first).0;
    var g := Run(after, between);
    NothingAnnounced();
    RunKeepsAnnounced(EMPTY_STATE, calls);
    ServeKeepsAnnounced(before, first);
    RunKeepsAnnounced(after, between);
    OnlyFirstTimeChanges(before, first);
    ApplyAddsItsEvent(before.website, first.key, first.mutation, first.event);
    EventsStay(after, between, UpdateKey(first.key));
    RefusedForOtherDemo(g, second);
  }

  lemma NothingAnnounced()
    ensures RecordsAnnounced(EMPTY_STATE)
  {
  }

  lemma RefusedForOtherDemo(g: State, c: Call)
    requires RecordsAnnounced(g) && c.mutation.Update? && UpdateKey(c.key) in g.website.outbox
    requires g.website.outbox[UpdateKey(c.key)].body.ProjectionUpdated?
    requires g.website.outbox[UpdateKey(c.key)].body.demo != c.mutation.demo
    ensures Serve(g, c).0 == g && Serve(g, c).1.Rejected?
  {
    hide Apply;
    ScopesDiffer(c.mutation);
    ApplyAddsItsEvent(g.website, c.key, c.mutation, c.event);
    assert At(c) !in g.records;
  }

  /**
   An update that is new to its scope, from the right version and to a known state, is refused
   exactly when its key was used for an update of some demo, its event id is taken, or its lead
   belongs to another demo.
   */
  lemma NewUpdateRefusedIff(calls: seq<Call>, c: Call)
    requires c.mutation.Update? && c.mutation.update.state in STATES
    requires At(c) !in Run(EMPTY_STATE, calls).records
    requires c.mutation.update.expected == CurrentVersion(Run(EMPTY_STATE, calls).website, c.mutation.demo)
    ensures
      var g := Run(EMPTY_STATE, calls);
      var taken := exists k :: k in g.website.outbox && g.website.outbox[k].id == c.event;
      Serve(g, c).1.Rejected? <==>
        KeyUpdated(CarriedOut(calls), c.key) || taken
        || LeadClash(g.website.projections, c.mutation.demo, c.mutation.update.lead)
  {
    hide KeyUpdated, LeadClash, Scope, Hash;
    UpdateEventIffCarriedOut(calls, c.key);
  }

  // ---------------------------------------------------------------- activations

  /** Activations differ in demo, order, key and evidence, and each has the one event that tells of it. */
  ghost predicate ActivationsApart(w: Website) {
    && (forall i, j :: 0 <= i < j < |w.activations| ==>
          w.activations[i].demo != w.activations[j].demo && w.activations[i].order != w.activations[j].order
          && w.activations[i].key != w.activations[j].key && w.activations[i].evidence != w.activations[j].evidence)
    && (forall i | 0 <= i < |w.activations| ::
          var k := Labelled("subscription-activation", Digest([w.activations[i].key]));
          k in w.outbox && w.outbox[k].body
            == SubscriptionActivated(i, w.activations[i].demo, w.activations[i].order, w.activations[i].subscription))
    && (forall k :: k in w.outbox && w.outbox[k].body.SubscriptionActivated? ==>
          w.outbox[k].body.activation < |w.activations|
          && k == Labelled("subscription-activation", Digest([w.activations[w.outbox[k].body.activation].key])))
    && (forall i | 0 <= i < |w.activations| :: (w.activations[i].user, w.activations[i].plan) in w.subscriptions)
  }

  lemma ActivationStaysApart(w: Website, key: Text, m: Mutation, a: Activation, event: Uuid)
    requires ActivationsApart(w) && m.Activate? && a.key == key
    requires !ActivationClash(w.activations, a) && EventKey(m, key) !in w.outbox
    ensures ActivationsApart(ActivatedWebsite(w, key, m, a, event))
  {
    hide Get;
  }

  lemma OtherEventStaysApart(w: Website, after: Website, k: Text, e: OutEvent)
    requires ActivationsApart(w) && k !in w.outbox && !e.body.SubscriptionActivated?
    requires after.outbox == w.outbox[k := e] && after.activations == w.activations && after.subscriptions == w.subscriptions
    ensures ActivationsApart(after)
  {
  }

  lemma ApplyKeepsApart(w: Website, key: Text, m: Mutation, event: Uuid)
    requires ActivationsApart(w)
    ensures
      var o := Apply(w, key, m, event);
      o.Applied? ==> ActivationsApart(o.website)
  {
    hide ActivationsApart, Restrict, Bindings, Get, EventKey, ActivationClash, MatchesQuote, LeadClash, ActivatedWebsite;
    var o := Apply(w, key, m, event);
    if o.Applied? {
      match m
      case Update(_, _) => OtherEventStaysApart(w, o.website, EventKey(m, key), o.website.outbox[EventKey(m, key)]);
      case Onboarding(_, _) => OtherEventStaysApart(w, o.website, EventKey(m, key), o.website.outbox[EventKey(m, key)]);
      case Activate(p, legacy) =>
        if o.response.status == 201 {
          ActivationStaysApart(w, key, m, NewActivation(key, p, legacy.subscription.value), event);
        }
    }
  }

  /** In every reachable state a demo, and a provider order, is activated at most once. */
  lemma {:induction false} ActivatedAtMostOnce(calls: seq<Call>)
    ensures ActivationsApart(Run(EMPTY_STATE, calls).website)
  {
    hide Serve, Apply;
    if calls == [] {
      NothingActivatedYet();
    } else {
      hide ActivationsApart;
      var before, last := Run(EMPTY_STATE, calls[..|calls| - 1]), calls[|calls| - 1];
      ActivatedAtMostOnce(calls[..|calls| - 1]);
      OnlyFirstTimeChanges(before, last);
      ApplyKeepsApart(before.website, last.key, last.mutation, last.event);
    }
  }

  lemma NothingActivatedYet()
    ensures ActivationsApart(EMPTY_WEBSITE)
  {
  }

  /** A second activation of the demo or the order adds nothing, whatever its key and payload. */
  lemma SecondActivationAddsNothing(w: Website, key: Text, m: Mutation, event: Uuid, i: nat)
    requires m.Activate? && i < |w.activations|
    requires Touches(w.activations[i], AsString(Get(m.payload, OrderRef)), AsString(Get(m.payload, DemoRef)))
    ensures
      var o := Apply(w, key, m, event);
      o == Failed(BindingConflict) || (o.Applied? && o.website == w && o.response.alreadyApplied)
  {
    hide Restrict, Bindings, Get;
  }

  // ---------------------------------------------------------------- comparing an existing activation

  /** The position of a bound field in the code's own list. */
  function Rank(f: Field): nat {
    match f
    case DemoRef => 0
    case UserRef => 1
    case PlanId => 2
    case OrderRef => 3
    case EvidenceRef => 4
    case AmountMinor => 5
    case CurrencyCode => 6
    case _ => 7
  }

  predicate Ascending(p: Entries) {
    forall i, j :: 0 <= i < j < |p| ==> Rank(p[i].0) < Rank(p[j].0)
  }

  /** The payload lists its bound fields in the code's order. */
  predicate InBindingOrder(p: Entries) {
    forall i, j :: 0 <= i < j < |p| && Bound(p[i].0) && Bound(p[j].0) ==> Rank(p[i].0) < Rank(p[j].0)
  }

  /** Every binding occurs in the payload, with its value and its type, and no bound field otherwise. */
  predicate SameBindings(p: Entries, a: Activation) {
    && (forall e :: e in Bindings(a) ==> e in p)
    && (forall e :: e in p && Bound(e.0) ==> e in Bindings(a))
  }

  lemma {:induction false} RestrictKeeps(p: Entries)
    ensures forall e :: e in Restrict(p) <==> e in p && Bound(e.0)
  {
    if p != [] {
      RestrictKeeps(p[1..]);
      assert p == [p[0]] + p[1..];
    }
  }

  lemma {:induction false} RestrictInOrder(p: Entries)
    ensures InBindingOrder(p) <==> Ascending(Restrict(p))
  {
    hide Bound, Rank, InBindingOrder, Ascending, Restrict;
    if p == [] {
      NothingInOrder();
    } else {
      RestrictInOrder(p[1..]);
      if InBindingOrder(p) {
        OrderedAscends(p);
      } else if Ascending(Restrict(p)) {
        AscendingTail(p);
        AscendingIsOrdered(p);
      }
    }
  }

  lemma NothingInOrder()
    ensures InBindingOrder([]) && Ascending(Restrict([]))
  {
  }

  lemma OrderedAscends(p: Entries)
    requires p != [] && InBindingOrder(p) && (InBindingOrder(p[1..]) ==> Ascending(Restrict(p[1..])))
    ensures Ascending(Restrict(p))
  {
    hide Bound, Rank;
    var rest := p[1..];
    RestrictKeeps(rest);
    assert InBindingOrder(rest);
    forall j | 0 <= j < |Restrict(rest)| && Bound(p[0].0) ensures Rank(p[0].0) < Rank(Restrict(rest)[j].0) {
      assert Restrict(rest)[j] in rest;
      var k :| 0 <= k < |rest| && rest[k] == Restrict(rest)[j];
      assert p[k + 1] == rest[k];
    }
  }

  lemma AscendingIsOrdered(p: Entries)
    requires p != [] && Ascending(Restrict(p)) && InBindingOrder(p[1..])
    ensures InBindingOrder(p)
  {
    hide Bound, Rank, Ascending;
    var rest := p[1..];
    forall i, j | 0 <= i < j < |p| && Bound(p[i].0) && Bound(p[j].0) ensures Rank(p[i].0) < Rank(p[j].0) {
      assert p[j] == rest[j - 1];
      if i > 0 {
        assert p[i] == rest[i - 1];
      } else {
        HeadRanksFirst(p, j);
      }
    }
  }

  lemma HeadRanksFirst(p: Entries, j: nat)
    requires 0 < j < |p| && Ascending(Restrict(p)) && Bound(p[0].0) && Bound(p[j].0)
    ensures Rank(p[0].0) < Rank(p[j].0)
  {
    hide Bound, Rank;
    var rest := p[1..];
    RestrictKeeps(rest);
    assert p[j] == rest[j - 1] && p[j] in Restrict(rest);
    var k :| 0 <= k < |Restrict(rest)| && Restrict(rest)[k] == p[j];
    assert Restrict(p)[k + 1] == p[j] && Restrict(p)[0] == p[0];
  }

  lemma AscendingTail(p: Entries)
    requires p != [] && Ascending(Restrict(p))
    ensures Ascending(Restrict(p[1..]))
  {
    hide Bound, Rank, Ascending;
    var tail := Restrict(p[1..]);
    if Bound(p[0].0) {
      assert Restrict(p) == [p[0]] + tail;
      AscendingRest(p[0], tail);
    } else {
      assert Restrict(p) == tail;
    }
  }

  lemma AscendingRest(e: (Field, Value), tail: Entries)
    requires Ascending([e] + tail)
    ensures Ascending(tail)
  {
    hide Rank;
    var all := [e] + tail;
    forall i, j | 0 <= i < j < |tail| ensures Rank(tail[i].0) < Rank(tail[j].0) {
      assert all[i + 1] == tail[i] && all[j + 1] == tail[j];
    }
  }

  /** Two ascending lists of the same entries are the same list. */
  lemma {:induction false} AscendingUnique(a: Entries, b: Entries)
    requires Ascending(a) && Ascending(b) && forall e :: e in a <==> e in b
    ensures a == b
  {
    hide Rank;
    assert a != [] ==> a[0] in b;
    assert b != [] ==> b[0] in a;
    if a != [] {
      var x, y := a[|a| - 1], b[|b| - 1];
      assert x in a && y in b;
      var i :| 0 <= i < |b| && b[i] == x;
      var j :| 0 <= j < |a| && a[j] == y;
      assert Rank(x.0) <= Rank(y.0) && Rank(y.0) <= Rank(x.0);
      assert i == |b| - 1;
      var c, d := a[..|a| - 1], b[..|b| - 1];
      forall e ensures e in c <==> e in d {
        if e in c {
          var k :| 0 <= k < |c| && c[k] == e;
          assert a[k] == e && e in b;
        }
        if e in d {
          var k :| 0 <= k < |d| && d[k] == e;
          assert b[k] == e && e in a;
        }
      }
      AscendingUnique(c, d);
    }
  }

  /**
   The comparison is one of ordered, typed arrays: it accepts exactly the payloads that repeat
   the bindings, type by type, in the order in which the code lists them.
   */
  lemma ComparesOrderAndTypes(p: Entries, a: Activation)
    ensures Bindings(a) == Restrict(p) <==> SameBindings(p, a) && InBindingOrder(p)
  {
    hide Bound;
    RestrictKeeps(p);
    RestrictInOrder(p);
    BindingsAscend(a);
    if SameBindings(p, a) && InBindingOrder(p) {
      AscendingUnique(Bindings(a), Restrict(p));
    }
  }

  lemma BindingsAscend(a: Activation)
    ensures Ascending(Bindings(a))
    ensures forall e :: e in Bindings(a) ==> Bound(e.0)
  {
  }

  /** So an integer plan id, as the service sends it, is always a conflict with an existing activation. */
  lemma IntegerPlanIdConflicts(p: Entries, a: Activation, n: int)
    requires (PlanId, Number(n)) in p
    ensures Bindings(a) != Restrict(p)
  {
    RestrictKeeps(p);
    assert (PlanId, Number(n)) in Restrict(p);
  }

  /** The order in which the request's validation rules list the fields. */
  const RULE_ORDER: seq<Field> :=
    [DemoRef, UserRef, PlanId, PlanVersion, AmountMinor, CurrencyCode, OrderRef, EvidenceRef, VerifiedAt, CorrelationId]

  predicate InRuleOrder(p: Entries) {
    |p| == |RULE_ORDER| && forall i :: 0 <= i < |p| ==> p[i].0 == RULE_ORDER[i]
  }

  /**
   A payload in the order of the validation rules never matches, so over the gateway's own route
   the already-applied answer cannot be given: a second activation is always a conflict.
   */
  lemma ValidatedPayloadConflicts(w: Website, key: Text, m: Mutation, event: Uuid, i: nat)
    requires m.Activate? && InRuleOrder(m.payload) && i < |w.activations|
    requires Touches(w.activations[i], AsString(Get(m.payload, OrderRef)), AsString(Get(m.payload, DemoRef)))
    ensures Apply(w, key, m, event) == Failed(BindingConflict)
  {
    hide Get, Restrict, Bindings;
    var p := m.payload;
    var first := Existing(w.activations, AsString(Get(p, OrderRef)), AsString(Get(p, DemoRef)), m.legacy.found);
    assert first < |w.activations|;
    RuleOrderIsNoBindingOrder(p);
    ComparesOrderAndTypes(p, w.activations[first]);
  }

  lemma RuleOrderIsNoBindingOrder(p: Entries)
    requires InRuleOrder(p)
    ensures !InBindingOrder(p)
  {
    assert RULE_ORDER[4] == AmountMinor && RULE_ORDER[6] == OrderRef;
    assert p[4].0 == AmountMinor && p[6].0 == OrderRef;
  }

  // ---------------------------------------------------------------- which activation is found

  lemma {:induction false} GetRestricted(p: Entries, f: Field)
    requires Bound(f)
    ensures Get(Restrict(p), f) == Get(p, f)
  {
    if p != [] {
      GetRestricted(p[1..], f);
      var r := Restrict(p);
      if Bound(p[0].0) {
        assert r == [p[0]] + Restrict(p[1..]);
        assert r[0] == p[0] && r[1..] == Restrict(p[1..]);
      } else {
        assert r == Restrict(p[1..]) && p[0].0 != f;
      }
    }
  }

  /** The value of a field that occurs nowhere earlier. */
  lemma {:induction false} GetAt(p: Entries, i: nat)
    requires i < |p| && forall j :: 0 <= j < i ==> p[j].0 != p[i].0
    ensures Get(p, p[i].0) == p[i].1
  {
    if i > 0 {
      GetAt(p[1..], i - 1);
    }
  }

  /** A payload that matches an activation's bindings names its demo and its order. */
  lemma MatchNamesBoth(p: Entries, a: Activation)
    requires Bindings(a) == Restrict(p)
    ensures AsString(Get(p, DemoRef)) == a.demo && AsString(Get(p, OrderRef)) == a.order
  {
    hide Get, Restrict;
    GetRestricted(p, DemoRef);
    GetRestricted(p, OrderRef);
    GetAt(Bindings(a), 0);
    GetAt(Bindings(a), 3);
  }

  /**
   The query is unordered and up to two activations can match it, one by order and one by demo.
   In a reachable state it makes no difference which of them it returns.
   */
  lemma WhicheverIsFound(calls: seq<Call>, key: Text, m: Mutation, found: nat, event: Uuid)
    requires m.Activate?
    ensures
      var w := Run(EMPTY_STATE, calls).website;
      Apply(w, key, m.(legacy := m.legacy.(found := found)), event) == Apply(w, key, m, event)
  {
    hide Get, Restrict, Bindings, Run, NewActivation, MatchesQuote, ActivationClash, ActivationsApart, EventClash,
         EventKey, ActivatedWebsite, Touches;
    ActivatedAtMostOnce(calls);
    var w, p := Run(EMPTY_STATE, calls).website, m.payload;
    var demo, order := AsString(Get(p, DemoRef)), AsString(Get(p, OrderRef));
    var i, j := Existing(w.activations, order, demo, m.legacy.found), Existing(w.activations, order, demo, found);
    FoundIsNotStored(w, key, m, found, event);
    if i < |w.activations| && i != j {
      OneMatchIsAlone(w, p, i, j);
      OneMatchIsAlone(w, p, j, i);
    }
  }

  lemma FoundIsNotStored(w: Website, key: Text, m: Mutation, found: nat, event: Uuid)
    requires m.Activate?
    ensures
      var other := m.(legacy := m.legacy.(found := found));
      EventKey(other, key) == EventKey(m, key)
      && forall a :: ActivatedWebsite(w, key, other, a, event) == ActivatedWebsite(w, key, m, a, event)
  {
    hide Get;
  }

  lemma OneMatchIsAlone(w: Website, p: Entries, i: nat, j: nat)
    requires ActivationsApart(w) && i < |w.activations| && j < |w.activations| && i != j
    requires Touches(w.activations[j], AsString(Get(p, OrderRef)), AsString(Get(p, DemoRef)))
    ensures Bindings(w.activations[i]) != Restrict(p)
  {
    hide Get, Restrict, Bindings;
    if Bindings(w.activations[i]) == Restrict(p) {
      MatchNamesBoth(p, w.activations[i]);
    }
  }

  // ---------------------------------------------------------------- asked for again

  lemma {:induction false} ActivationsStay(g: State, calls: seq<Call>, i: nat)
    requires i < |g.website.activations|
    ensures i < |Run(g, calls).website.activations| && Run(g, calls).website.activations[i] == g.website.activations[i]
  {
    hide Serve, Apply;
    if calls != [] {
      var middle, last := Run(g, calls[..|calls| - 1]), calls[|calls| - 1];
      ActivationsStay(g, calls[..|calls| - 1], i);
      OnlyFirstTimeChanges(middle, last);
      if Serve(middle, last).1.FirstTime? {
        ApplyAddsActivation(middle.website, last.key, last.mutation, last.event);
      }
    }
  }

  predicate IsActivated(w: Website, order: string, demo: string) {
    exists i :: 0 <= i < |w.activations| && Touches(w.activations[i], order, demo)
  }

  /** A mutation adds at most one activation, and after an activation there is one of its demo or its order. */
  lemma ApplyAddsActivation(w: Website, key: Text, m: Mutation, event: Uuid)
    ensures
      var o := Apply(w, key, m, event);
      o.Applied? ==>
        && w.activations <= o.website.activations
        && (m.Activate? ==>
              IsActivated(o.website, AsString(Get(m.payload, OrderRef)), AsString(Get(m.payload, DemoRef))))
  {
    hide Get, Restrict, Bindings, ActivationClash, MatchesQuote, EventKey, LeadClash, EventClash, ActivatedWebsite, NewActivation, NewProjection;
    var o := Apply(w, key, m, event);
    if o.Applied? && m.Activate? && o.response.status == 201 {
      ActivatesIts(w, key, m, event);
    }
  }

  lemma ActivatesIts(w: Website, key: Text, m: Mutation, event: Uuid)
    requires m.Activate? && m.legacy.subscription.Some?
    ensures
      var after := ActivatedWebsite(w, key, m, NewActivation(key, m.payload, m.legacy.subscription.value), event);
      && w.activations <= after.activations
      && IsActivated(after, AsString(Get(m.payload, OrderRef)), AsString(Get(m.payload, DemoRef)))
  {
    hide Get, EventKey;
    var after := ActivatedWebsite(w, key, m, NewActivation(key, m.payload, m.legacy.subscription.value), event);
    assert Touches(after.activations[|w.activations|], AsString(Get(m.payload, OrderRef)), AsString(Get(m.payload, DemoRef)));
  }

  /**
   Once an activation was carried out, however long ago, the same demo's or order's activation
   asked for under a fresh key is refused on the gateway's own route, even with the same payload.
   */
  lemma ActivatedThenRefused(calls: seq<Call>, first: Call, between: seq<Call>, again: Call)
    requires first.mutation.Activate? && again.mutation.Activate? && InRuleOrder(again.mutation.payload)
    requires Serve(Run(EMPTY_STATE, calls), first).1.FirstTime?
    requires AsString(Get(again.mutation.payload, OrderRef)) == AsString(Get(first.mutation.payload, OrderRef))
    requires AsString(Get(again.mutation.payload, DemoRef)) == AsString(Get(first.mutation.payload, DemoRef))
    requires At(again) !in Run(Serve(Run(EMPTY_STATE, calls), first).0, between).records
    ensures
      var g := Run(Serve(Run(EMPTY_STATE, calls), first).0, between);
      Serve(g, again) == (g, Rejected(BindingConflict))
  {
    hide Apply, Get, Scope, Hash, Run, InRuleOrder;
    var before := Run(EMPTY_STATE, calls);
    var after := Serve(before, first).0;
    var g := Run(after, between);
    var demo, order := AsString(Get(first.mutation.payload, DemoRef)), AsString(Get(first.mutation.payload, OrderRef));
    OnlyFirstTimeChanges(before, first);
    ApplyAddsActivation(before.website, first.key, first.mutation, first.event);
    var i :| 0 <= i < |after.website.activations| && Touches(after.website.activations[i], order, demo);
    ActivationsStay(after, between, i);
    ValidatedPayloadConflicts(g.website, again.key, again.mutation, again.event, i);
  }

  // ---------------------------------------------------------------- one such run

  const PAID_PAYLOAD: Entries :=
    [(DemoRef, Words("demo-1")), (UserRef, Words("user-1")), (PlanId, Number(7)), (PlanVersion, Words("v1")),
     (AmountMinor, Number(250000)), (CurrencyCode, Words("INR")), (OrderRef, Words("order-1")),
     (EvidenceRef, Words("evidence-1")), (VerifiedAt, Words("2026-01-01T00:00:00Z")), (CorrelationId, Words("c-1"))]

  const PAID_LEGACY := Legacy(0, Some(PlanQuote(250000, "INR", "v1", true)), true, Some("subscription-1"))

  function PaidCall(key: Text, event: Uuid): Call { Call(key, Activate(PAID_PAYLOAD, PAID_LEGACY), event) }

  /** From the empty database: the payload is activated, and under a second key it is a conflict. */
  lemma SamePayloadIsRefused(key: Text, other: Text, event: Uuid, later: Uuid)
    requires key != other
    ensures
      var (g, answer) := Serve(EMPTY_STATE, PaidCall(key, event));
      && answer == FirstTime(ActivationResponse(201, 0, "subscription-1", "applied", false, Some(event)))
      && Serve(g, PaidCall(other, later)) == (g, Rejected(BindingConflict))
  {
    PaidIsActivated(key, event);
    hide Serve, PAID_PAYLOAD, PAID_LEGACY;
    var g := Serve(EMPTY_STATE, PaidCall(key, event)).0;
    OnlyFirstTimeChanges(EMPTY_STATE, PaidCall(key, event));
    assert Run(EMPTY_STATE, []) == EMPTY_STATE && Run(g, []) == g;
    assert InRuleOrder(PAID_PAYLOAD) by {
      PaidInRuleOrder();
    }
    ActivatedThenRefused([], PaidCall(key, event), [], PaidCall(other, later));
  }

  lemma PaidInRuleOrder()
    ensures InRuleOrder(PAID_PAYLOAD)
  {
  }

  lemma PaidIsActivated(key: Text, event: Uuid)
    ensures Serve(EMPTY_STATE, PaidCall(key, event)).1
      == FirstTime(ActivationResponse(201, 0, "subscription-1", "applied", false, Some(event)))
  {
    hide Get, EventKey, Scope, Hash;
    GetAt(PAID_PAYLOAD, 3);
    GetAt(PAID_PAYLOAD, 4);
    GetAt(PAID_PAYLOAD, 5);
  }
}
