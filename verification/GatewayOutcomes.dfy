/**
 When each mutation of the gateway is carried out, what it then stores and answers, and why it is
 refused otherwise, told on the tables, the payload and the plan's quote.
 */
module GatewayOutcomes {
  import opened Identifiers
  import opened Digits
  import opened Gateway

  // ---------------------------------------------------------------- the event

  /** Neither the event's unique key nor its id is in the outbox. */
  predicate EventFree(w: Website, key: Text, id: Uuid) {
    key !in w.outbox && forall k :: k in w.outbox ==> w.outbox[k].id != id
  }

  lemma EventFreeIff(w: Website, key: Text, id: Uuid)
    ensures EventFree(w, key, id) <==> !EventClash(w.outbox, key, id)
  {
  }

  // ---------------------------------------------------------------- activations

  /** No activation of the demo or of the order is stored. */
  predicate IsFirst(w: Website, p: Entries) {
    forall i :: 0 <= i < |w.activations| ==>
      w.activations[i].demo != AsString(Get(p, DemoRef)) && w.activations[i].order != AsString(Get(p, OrderRef))
  }

  predicate QuoteIsPayloads(q: PlanQuote, p: Entries) {
    && q.amount == AsInt(Get(p, AmountMinor))
    && q.currency == AsString(Get(p, CurrencyCode))
    && q.version == AsString(Get(p, PlanVersion))
  }

  /** The activation's key and evidence, and its event, are new. */
  predicate UniqueActivation(w: Website, key: Text, p: Entries, event: Uuid) {
    && (forall i :: 0 <= i < |w.activations| ==>
          w.activations[i].key != key && w.activations[i].evidence != AsString(Get(p, EvidenceRef)))
    && EventFree(w, Labelled("subscription-activation", Digest([key])), event)
  }

  /** The stored activation repeats the payload; the subscription and the one event name it. */
  predicate Stores(a: Website, b: Website, key: Text, p: Entries, subscription: string, event: Uuid) {
    var n, eventKey := |a.activations|, Labelled("subscription-activation", Digest([key]));
    && |b.activations| == n + 1 && b.activations[..n] == a.activations
    && var x := b.activations[n];
    && x.key == key && x.subscription == subscription && x.status == "applied"
    && x.demo == AsString(Get(p, DemoRef)) && x.user == AsString(Get(p, UserRef)) && x.plan == AsInt(Get(p, PlanId))
    && x.order == AsString(Get(p, OrderRef)) && x.evidence == AsString(Get(p, EvidenceRef))
    && x.amount == AsInt(Get(p, AmountMinor)) && x.currency == AsString(Get(p, CurrencyCode))
    && x.planVersion == AsString(Get(p, PlanVersion)) && x.verifiedAt == AsString(Get(p, VerifiedAt))
    && b.subscriptions == a.subscriptions[(x.user, x.plan) := x.order]
    && b.outbox == a.outbox[eventKey :=
         OutEvent(event, AsString(Get(p, CorrelationId)), SubscriptionActivated(n, x.demo, x.order, subscription))]
    && b.projections == a.projections
  }

  /**
   The first activation of a demo and an order is carried out exactly when the plan has an eligible
   quote with the payload's amount, currency and version, the user is known, the subscription row
   is there and every unique key is free; it then stores the payload and answers 201.
   */
  lemma ActivatedIff(w: Website, key: Text, m: Mutation, event: Uuid)
    requires m.Activate? && IsFirst(w, m.payload)
    ensures
      var p, legacy, o := m.payload, m.legacy, Apply(w, key, m, event);
      && (o.Applied? <==>
            && legacy.quote.Some? && legacy.quote.value.eligible && QuoteIsPayloads(legacy.quote.value, p)
            && legacy.known && legacy.subscription.Some? && UniqueActivation(w, key, p, event))
      && (o.Applied? ==>
            && Stores(w, o.website, key, p, legacy.subscription.value, event)
            && o.response == ActivationResponse(201, |w.activations|, legacy.subscription.value, "applied", false, Some(event)))
  {
    hide Get, Bindings, Restrict, UniqueActivation, Stores, EventKey, NewActivation, ActivationClash, ActivatedWebsite, EventClash, QuoteIsPayloads;
    var p, legacy := m.payload, m.legacy;
    QuoteOnFields(p, legacy);
    if legacy.subscription.Some? {
      UniqueOnTables(w, key, m, event, legacy.subscription.value);
      ActivationFields(w, key, m, event, legacy.subscription.value);
    }
  }

  lemma QuoteOnFields(p: Entries, legacy: Legacy)
    ensures legacy.quote.Some? ==> (MatchesQuote(p, legacy.quote.value) <==> QuoteIsPayloads(legacy.quote.value, p))
  {
    hide Get;
  }

  lemma UniqueOnTables(w: Website, key: Text, m: Mutation, event: Uuid, subscription: string)
    requires m.Activate? && IsFirst(w, m.payload)
    ensures UniqueActivation(w, key, m.payload, event) <==>
      !ActivationClash(w.activations, NewActivation(key, m.payload, subscription)) && !EventClash(w.outbox, EventKey(m, key), event)
  {
    hide Get;
  }

  lemma ActivationFields(w: Website, key: Text, m: Mutation, event: Uuid, subscription: string)
    requires m.Activate?
    ensures Stores(w, ActivatedWebsite(w, key, m, NewActivation(key, m.payload, subscription), event), key, m.payload, subscription, event)
    ensures NewActivation(key, m.payload, subscription).subscription == subscription
    ensures NewActivation(key, m.payload, subscription).status == "applied"
  {
    hide Get;
  }

  /** Each reason to refuse a first activation has its own failure. */
  lemma ActivationRefusedWhy(w: Website, key: Text, m: Mutation, event: Uuid)
    requires m.Activate? && IsFirst(w, m.payload)
    ensures
      var p, legacy, o := m.payload, m.legacy, Apply(w, key, m, event);
      var eligible := legacy.quote.Some? && legacy.quote.value.eligible;
      var quoted := eligible && QuoteIsPayloads(legacy.quote.value, p);
      && (o == Failed(PlanNotEligible) <==> !eligible)
      && (o == Failed(PlanBindingMismatch) <==> eligible && !quoted)
      && (o == Failed(UserNotFound) <==> quoted && !legacy.known)
      && (o == Failed(SubscriptionRefused) <==> quoted && legacy.known && legacy.subscription.None?)
      && (o == Failed(UniqueViolation) <==>
            quoted && legacy.known && legacy.subscription.Some? && !UniqueActivation(w, key, p, event))
  {
    hide Get, Bindings, Restrict, UniqueActivation, EventKey, NewActivation, ActivationClash, ActivatedWebsite, EventClash, QuoteIsPayloads;
    QuoteOnFields(m.payload, m.legacy);
    if m.legacy.subscription.Some? {
      UniqueOnTables(w, key, m, event, m.legacy.subscription.value);
    }
  }

  /** The value, with its type, that a payload must repeat of an activation. */
  function StoredValue(a: Activation, f: Field): Value
    requires f in {DemoRef, UserRef, PlanId, OrderRef, EvidenceRef, AmountMinor, CurrencyCode}
  {
    match f
    case DemoRef => Words(a.demo)
    case UserRef => Words(a.user)
    case PlanId => Words(Printed(a.plan))
    case OrderRef => Words(a.order)
    case EvidenceRef => Words(a.evidence)
    case AmountMinor => Number(a.amount)
    case CurrencyCode => Words(a.currency)
  }

  /** The payload gives each of the seven bound fields its stored value and no other. */
  ghost predicate Repeats(p: Entries, a: Activation) {
    forall e: (Field, Value) ::
      e.0 in {DemoRef, UserRef, PlanId, OrderRef, EvidenceRef, AmountMinor, CurrencyCode} ==>
        (e in p <==> e.1 == StoredValue(a, e.0))
  }

  /**
   An activation whose demo or order has one already is confirmed exactly when the payload repeats
   it, field by field and type by type, in the order of the code's list; otherwise it is a conflict.
   */
  lemma ConfirmedIff(w: Website, key: Text, m: Mutation, event: Uuid, i: nat)
    requires m.Activate? && i < |w.activations|
    requires
      var p := m.payload;
      forall j :: 0 <= j < |w.activations| ==>
        (j == i <==> w.activations[j].order == AsString(Get(p, OrderRef)) || w.activations[j].demo == AsString(Get(p, DemoRef)))
    ensures
      var a := w.activations[i];
      Apply(w, key, m, event) ==
        if Repeats(m.payload, a) && InBindingOrder(m.payload)
        then Applied(w, ActivationResponse(200, i, a.subscription, a.status, true, None)) else Failed(BindingConflict)
  {
    hide Get, Bindings, Restrict, InBindingOrder, SameBindings, Repeats;
    var p := m.payload;
    ComparesOrderAndTypes(p, w.activations[i]);
    SameIffRepeats(p, w.activations[i]);
    var found := Existing(w.activations, AsString(Get(p, OrderRef)), AsString(Get(p, DemoRef)), m.legacy.found);
    assert Touches(w.activations[i], AsString(Get(p, OrderRef)), AsString(Get(p, DemoRef)));
    assert found == i;
  }

  lemma SameIffRepeats(p: Entries, a: Activation)
    ensures SameBindings(p, a) <==> Repeats(p, a)
  {
    forall e: (Field, Value)
      ensures e in Bindings(a) <==>
        e.0 in {DemoRef, UserRef, PlanId, OrderRef, EvidenceRef, AmountMinor, CurrencyCode} && e.1 == StoredValue(a, e.0)
    {
      BindingsAreStored(a, e);
    }
  }

  lemma BindingsAreStored(a: Activation, e: (Field, Value))
    ensures e in Bindings(a) <==>
      e.0 in {DemoRef, UserRef, PlanId, OrderRef, EvidenceRef, AmountMinor, CurrencyCode} && e.1 == StoredValue(a, e.0)
  {
    hide Printed;
    var b := Bindings(a);
    assert b[0].0 == DemoRef && b[1].0 == UserRef && b[2].0 == PlanId && b[3].0 == OrderRef && b[4].0 == EvidenceRef;
    assert b[5].0 == AmountMinor && b[6].0 == CurrencyCode;
  }

  // ---------------------------------------------------------------- activations over whole runs

  /** The carried-out calls of a run that added an activation, in order. */
  function Activating(calls: seq<Call>): seq<Call> {
    if calls == [] then []
    else
      var front, last := calls[..|calls| - 1], calls[|calls| - 1];
      var answer := Serve(Run(EMPTY_STATE, front), last).1;
      Activating(front)
      + if answer.FirstTime? && answer.response.ActivationResponse? && !answer.response.alreadyApplied then [last] else []
  }

  /** The activation is the call's: its payload's order at the quote the call found. */
  predicate MadeBy(a: Activation, c: Call) {
    && c.mutation.Activate? && a.key == c.key
    && c.mutation.legacy.quote.Some?
    && var q, p := c.mutation.legacy.quote.value, c.mutation.payload;
    && q.eligible && a.amount == q.amount && a.currency == q.currency && a.planVersion == q.version
    && c.mutation.legacy.known && c.mutation.legacy.subscription == Some(a.subscription) && a.status == "applied"
    && a.demo == AsString(Get(p, DemoRef)) && a.user == AsString(Get(p, UserRef)) && a.plan == AsInt(Get(p, PlanId))
    && a.order == AsString(Get(p, OrderRef)) && a.evidence == AsString(Get(p, EvidenceRef))
  }

  /** Applying a mutation adds an activation exactly when the answer says so. */
  lemma AddsIfNew(w: Website, c: Call)
    ensures
      var o := Apply(w, c.key, c.mutation, c.event);
      o.Applied? ==>
        if o.response.ActivationResponse? && !o.response.alreadyApplied then
          |o.website.activations| == |w.activations| + 1 && o.website.activations[..|w.activations|] == w.activations
          && MadeBy(o.website.activations[|w.activations|], c)
        else o.website.activations == w.activations
  {
    hide Get, Bindings, Restrict, UniqueActivation, EventKey, NewActivation, ActivationClash, ActivatedWebsite, EventClash,
         QuoteIsPayloads, MatchesQuote, LeadClash, MadeBy, Stores;
    var o := Apply(w, c.key, c.mutation, c.event);
    if o.Applied? && o.response.ActivationResponse? && !o.response.alreadyApplied {
      NewIsFirst(w, c);
      ActivatedIff(w, c.key, c.mutation, c.event);
      StoredIsMade(w, o.website, c);
    }
  }

  lemma NewIsFirst(w: Website, c: Call)
    requires c.mutation.Activate?
    requires
      var o := Apply(w, c.key, c.mutation, c.event);
      o.Applied? && o.response.ActivationResponse? && !o.response.alreadyApplied
    ensures IsFirst(w, c.mutation.payload)
  {
    hide Get, Bindings, Restrict, EventKey, NewActivation, ActivationClash, ActivatedWebsite, EventClash, MatchesQuote;
  }

  lemma StoredIsMade(w: Website, after: Website, c: Call)
    requires c.mutation.Activate? && c.mutation.legacy.quote.Some? && c.mutation.legacy.quote.value.eligible
    requires QuoteIsPayloads(c.mutation.legacy.quote.value, c.mutation.payload)
    requires c.mutation.legacy.known && c.mutation.legacy.subscription.Some?
    requires Stores(w, after, c.key, c.mutation.payload, c.mutation.legacy.subscription.value, c.event)
    ensures |after.activations| == |w.activations| + 1 && after.activations[..|w.activations|] == w.activations
    ensures MadeBy(after.activations[|w.activations|], c)
  {
    hide Get;
  }

  /**
   After any sequence of calls the stored activations are those of the calls that were answered
   with a new one, in order, each with the amount, currency and version of the eligible quote
   that its call found.
   */
  lemma {:induction false} ActivationsWereQuoted(calls: seq<Call>)
    ensures
      var w, made := Run(EMPTY_STATE, calls).website, Activating(calls);
      |w.activations| == |made| && forall i :: 0 <= i < |made| ==> MadeBy(w.activations[i], made[i])
  {
    hide Serve, Apply, MadeBy, Hash, Scope, STATES;
    if calls != [] {
      var front, last := calls[..|calls| - 1], calls[|calls| - 1];
      var before := Run(EMPTY_STATE, front);
      ActivationsWereQuoted(front);
      OnlyFirstTimeChanges(before, last);
      if Serve(before, last).1.FirstTime? {
        AddsIfNew(before.website, last);
        var w, n := Serve(before, last).0.website, |before.website.activations|;
        assert forall i :: 0 <= i < n ==> w.activations[..n][i] == w.activations[i];
      }
    }
  }

  // ---------------------------------------------------------------- scopes and hashes

  /** Updates and onboarding records are scoped by their demo, activations all together. */
  lemma SameScopeIff(a: Mutation, b: Mutation)
    ensures Scope(a) == Scope(b) <==>
      || (a.Update? && b.Update? && a.demo == b.demo)
      || (a.Onboarding? && b.Onboarding? && a.demo == b.demo)
      || (a.Activate? && b.Activate?)
  {
    assert |"demo_projection"| == 15 && |"onboarding_projection"| == 21;
  }

  /** Within a scope two payloads have the same hash exactly when they agree in every field, in whatever order. */
  lemma SameHashIff(a: Mutation, b: Mutation)
    requires Scope(a) == Scope(b)
    ensures Hash(a) == Hash(b) <==>
      || (a.Update? && a.update == b.update)
      || (a.Onboarding? && a.onboarding == b.onboarding)
      || (a.Activate? && forall f: Field, v: Value :: Gives(a.payload, f, v) <==> Gives(b.payload, f, v))
  {
    SameScopeIff(a, b);
    if a.Activate? {
      forall f: Field, v: Value ensures Gives(a.payload, f, v) <==> Has(AsMap(a.payload), f, v) {
        MapGives(a.payload, f, v);
      }
      forall f: Field, v: Value ensures Gives(b.payload, f, v) <==> Has(AsMap(b.payload), f, v) {
        MapGives(b.payload, f, v);
      }
      SameMapsIff(AsMap(a.payload), AsMap(b.payload));
    }
  }

  /** The first entry of the field has the value. */
  predicate Gives(p: Entries, f: Field, v: Value) {
    exists i :: 0 <= i < |p| && p[i] == (f, v) && NotBefore(p, i, f)
  }

  predicate NotBefore(p: Entries, i: nat, f: Field)
    requires i <= |p|
  {
    forall j :: 0 <= j < i ==> p[j].0 != f
  }

  predicate Has(m: map<Field, Value>, f: Field, v: Value) { f in m && m[f] == v }

  lemma {:induction false} MapGives(p: Entries, f: Field, v: Value)
    ensures Gives(p, f, v) <==> Has(AsMap(p), f, v)
  {
    if p != [] {
      MapGives(p[1..], f, v);
      if p[0].0 == f {
        HeadGives(p, f, v);
      } else {
        TailGives(p, f, v);
      }
    }
  }

  lemma HeadGives(p: Entries, f: Field, v: Value)
    requires p != [] && p[0].0 == f
    ensures Gives(p, f, v) <==> p[0].1 == v
  {
    if p[0].1 == v {
      assert p[0] == (f, v) && NotBefore(p, 0, f);
    }
    if Gives(p, f, v) {
      var i :| 0 <= i < |p| && p[i] == (f, v) && NotBefore(p, i, f);
      assert i == 0;
    }
  }

  lemma TailGives(p: Entries, f: Field, v: Value)
    requires p != [] && p[0].0 != f
    ensures Gives(p, f, v) <==> Gives(p[1..], f, v)
  {
    var rest := p[1..];
    if Gives(rest, f, v) {
      var i :| 0 <= i < |rest| && rest[i] == (f, v) && NotBefore(rest, i, f);
      assert p[i + 1] == (f, v) && NotBefore(p, i + 1, f);
    }
    if Gives(p, f, v) {
      var i :| 0 <= i < |p| && p[i] == (f, v) && NotBefore(p, i, f);
      assert rest[i - 1] == (f, v) && NotBefore(rest, i - 1, f);
    }
  }

  lemma SameMapsIff(a: map<Field, Value>, b: map<Field, Value>)
    ensures a == b <==> forall f, v :: Has(a, f, v) <==> Has(b, f, v)
  {
    if forall f, v :: Has(a, f, v) <==> Has(b, f, v) {
      forall f | f in a ensures f in b && b[f] == a[f] {
        assert Has(a, f, a[f]);
      }
      forall f | f in b ensures f in a && a[f] == b[f] {
        assert Has(b, f, b[f]);
      }
    }
  }

  /** A call is carried out exactly when an update's state is known, its scope and key are new, and it applies. */
  lemma CarriedOutIff(g: State, c: Call)
    ensures Serve(g, c).1.FirstTime? <==>
      && (c.mutation.Update? ==> c.mutation.update.state in STATES)
      && (Scope(c.mutation), c.key) !in g.records && Apply(g.website, c.key, c.mutation, c.event).Applied?
    ensures c.mutation.Update? && c.mutation.update.state !in STATES ==> Serve(g, c) == (g, Rejected(StateInvalid))
  {
    hide Apply, Scope, Hash;
  }

  // ---------------------------------------------------------------- projections

  /** The demo's projection is rewritten from the payload, one version on, and one event tells of it. */
  predicate Projects(a: Website, b: Website, key: Text, demo: string, p: UpdatePayload, event: Uuid) {
    && demo in b.projections && b.projections == a.projections[demo := b.projections[demo]]
    && var x := b.projections[demo];
    && x.lead == p.lead && x.user == p.user && x.state == p.state && x.version == p.expected + 1
    && x.correlation == p.correlation && x.occurredAt == p.occurredAt
    && (if demo in a.projections
        then x.onboarding == a.projections[demo].onboarding && x.onboardingRef == a.projections[demo].onboardingRef
        else x.onboarding == None && x.onboardingRef == None)
    && b.outbox == a.outbox[Labelled("demo-projection", Digest([key])) :=
         OutEvent(event, p.correlation, ProjectionUpdated(demo, p.user, p.state, p.expected + 1))]
    && b.activations == a.activations && b.subscriptions == a.subscriptions
  }

  predicate LeadIsFree(w: Website, demo: string, lead: Option<int>) {
    lead.Some? ==> forall d :: d in w.projections && d != demo ==> w.projections[d].lead != lead
  }

  /** An update is carried out exactly from the stored version, or from none at zero, with its lead and event free. */
  lemma UpdatedIff(w: Website, key: Text, m: Mutation, event: Uuid)
    requires m.Update?
    ensures
      var demo, p, o := m.demo, m.update, Apply(w, key, m, event);
      var current := if demo in w.projections then w.projections[demo].version else 0;
      && (o.Applied? <==>
            current == p.expected && LeadIsFree(w, demo, p.lead) && EventFree(w, Labelled("demo-projection", Digest([key])), event))
      && (current != p.expected <==> o == Failed(VersionConflict(current)))
      && (o.Failed? && current == p.expected ==> o == Failed(UniqueViolation))
      && (o.Applied? ==>
            && Projects(w, o.website, key, demo, p, event)
            && o.response == ProjectionResponse(if demo in w.projections then 200 else 201, demo, p.expected + 1, p.state, event))
  {
    hide EventFree, EventClash;
    EventFreeIff(w, Labelled("demo-projection", Digest([key])), event);
  }

  /** The onboarding status is recorded exactly on a stored projection whose event is free; nothing else of it changes. */
  lemma OnboardedIff(w: Website, key: Text, m: Mutation, event: Uuid)
    requires m.Onboarding?
    ensures
      var demo, p, o := m.demo, m.onboarding, Apply(w, key, m, event);
      var eventKey := Labelled("onboarding-status", Digest([key]));
      && (o.Applied? <==> demo in w.projections && EventFree(w, eventKey, event))
      && (o == Failed(ProjectionNotFound) <==> demo !in w.projections)
      && (o.Failed? && demo in w.projections ==> o == Failed(UniqueViolation))
      && (o.Applied? ==>
            && o.website.projections
               == w.projections[demo := w.projections[demo].(onboarding := Some(p.status), onboardingRef := p.onboardingRef)]
            && o.website.outbox == w.outbox[eventKey := OutEvent(event, p.correlation, OnboardingRecorded(demo, p.status, p.onboardingRef))]
            && o.website.activations == w.activations && o.website.subscriptions == w.subscriptions
            && o.response == OnboardingResponse(200, demo, p.status, event))
  {
    hide EventFree, EventClash;
    EventFreeIff(w, Labelled("onboarding-status", Digest([key])), event);
  }
}
