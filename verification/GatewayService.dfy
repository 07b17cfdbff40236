/**
 The gateway as an object: each request runs in one transaction that stores a processing
 record, changes the tables step by step, completes the record, or takes everything back.
 */
module GatewayService {
  import opened Identifiers
  import opened Gateway

  class Service {
    var records: map<(Text, Text), Record>
    var projections: map<string, Projection>
    var activations: seq<Activation>
    var subscriptions: map<(string, int), string>
    var outbox: map<Text, OutEvent>

    function Tables(): Website
      reads this
    {
      Website(projections, activations, subscriptions, outbox)
    }

    function Contents(): State
      reads this
    {
      State(records, Tables())
    }

    constructor ()
      ensures Contents() == EMPTY_STATE
    {
      records, projections, activations, subscriptions, outbox := map[], map[], [], map[], map[];
    }

    method Rollback(saved: State)
      modifies this
      ensures Contents() == saved
    {
      records, projections, activations := saved.records, saved.website.projections, saved.website.activations;
      subscriptions, outbox := saved.website.subscriptions, saved.website.outbox;
    }

    /** Appends an event under its unique key, unless that or its id is taken. */
    method Append(key: Text, e: OutEvent) returns (ok: bool)
      modifies this`outbox
      ensures ok <==> !EventClash(old(outbox), key, e.id)
      ensures outbox == if ok then old(outbox)[key := e] else old(outbox)
    {
      ok := !EventClash(outbox, key, e.id);
      if ok {
        outbox := outbox[key := e];
      }
    }

    /** Advances a demo's projection by one version and announces it. */
    method UpdateProjection(key: Text, m: Mutation, event: Uuid) returns (response: Option<Response>, failure: Failure)
      requires m.Update?
      modifies this`projections, this`outbox
      ensures response.Some? ==> ApplyUpdate(old(Tables()), key, m, event) == Applied(Tables(), response.value)
      ensures response.None? ==> ApplyUpdate(old(Tables()), key, m, event) == Failed(failure)
    {
      hide EventKey, LeadClash, EventClash;
      var before, demo, p := Tables(), m.demo, m.update;
      var stored := demo in projections;
      if !stored && p.expected != 0 {
        return None, VersionConflict(0);
      }
      if stored && projections[demo].version != p.expected {
        return None, VersionConflict(projections[demo].version);
      }
      var version := p.expected + 1;
      if LeadClash(projections, demo, p.lead) {
        return None, UniqueViolation;
      }
      if stored {
        projections := projections[demo := projections[demo].(lead := p.lead, user := p.user, state := p.state,
          version := version, correlation := p.correlation, occurredAt := p.occurredAt)];
      } else {
        projections := projections[demo := Projection(p.lead, p.user, p.state, version, p.correlation, p.occurredAt, None, None)];
      }
      var ok := Append(EventKey(m, key), OutEvent(event, p.correlation, ProjectionUpdated(demo, p.user, p.state, version)));
      if !ok {
        return None, UniqueViolation;
      }
      return Some(ProjectionResponse(if stored then 200 else 201, demo, version, p.state, event)), UniqueViolation;
    }

    method RecordOnboarding(key: Text, m: Mutation, event: Uuid) returns (response: Option<Response>, failure: Failure)
      requires m.Onboarding?
      modifies this`projections, this`outbox
      ensures response.Some? ==> ApplyOnboarding(old(Tables()), key, m, event) == Applied(Tables(), response.value)
      ensures response.None? ==> ApplyOnboarding(old(Tables()), key, m, event) == Failed(failure)
    {
      hide EventKey, EventClash;
      var demo, p := m.demo, m.onboarding;
      if demo !in projections {
        return None, ProjectionNotFound;
      }
      projections := projections[demo := projections[demo].(onboarding := Some(p.status), onboardingRef := p.onboardingRef)];
      var ok := Append(EventKey(m, key), OutEvent(event, p.correlation, OnboardingRecorded(demo, p.status, p.onboardingRef)));
      if !ok {
        return None, UniqueViolation;
      }
      return Some(OnboardingResponse(200, demo, p.status, event)), UniqueViolation;
    }

    /** Upserts the subscription, inserts the activation and announces it. */
    method InsertActivation(key: Text, m: Mutation, a: Activation, event: Uuid) returns (ok: bool)
      requires m.Activate?
      modifies this`activations, this`subscriptions, this`outbox
      ensures ok <==> !ActivationClash(old(activations), a) && !EventClash(old(outbox), EventKey(m, key), event)
      ensures ok ==> Tables() == ActivatedWebsite(old(Tables()), key, m, a, event)
    {
      hide EventKey, EventClash, Get, ActivationClash;
      var id, clash := |activations|, ActivationClash(activations, a);
      subscriptions := subscriptions[(a.user, a.plan) := a.order];
      if clash {
        return false;
      }
      activations := activations + [a];
      ok := Append(EventKey(m, key), OutEvent(event, AsString(Get(m.payload, CorrelationId)),
                                              SubscriptionActivated(id, a.demo, a.order, a.subscription)));
    }

    /** Compares an existing activation, or checks the quote, upserts the subscription and inserts one. */
    method ActivateSubscription(key: Text, m: Mutation, event: Uuid) returns (response: Option<Response>, failure: Failure)
      requires m.Activate?
      modifies this`activations, this`subscriptions, this`outbox
      ensures response.Some? ==> ApplyActivation(old(Tables()), key, m, event) == Applied(Tables(), response.value)
      ensures response.None? ==> ApplyActivation(old(Tables()), key, m, event) == Failed(failure)
    {
      hide EventKey, EventClash, Restrict, Bindings, Get, ActivationClash, NewActivation, ActivatedWebsite, MatchesQuote;
      var p, legacy := m.payload, m.legacy;
      var i := Existing(activations, AsString(Get(p, OrderRef)), AsString(Get(p, DemoRef)), legacy.found);
      if i < |activations| {
        var a := activations[i];
        if Bindings(a) != Restrict(p) {
          return None, BindingConflict;
        }
        return Some(ActivationResponse(200, i, a.subscription, a.status, true, None)), UniqueViolation;
      }
      if legacy.quote.None? || !legacy.quote.value.eligible {
        return None, PlanNotEligible;
      }
      if !MatchesQuote(p, legacy.quote.value) {
        return None, PlanBindingMismatch;
      }
      if !legacy.known {
        return None, UserNotFound;
      }
      if legacy.subscription.None? {
        return None, SubscriptionRefused;
      }
      var a, id := NewActivation(key, p, legacy.subscription.value), |activations|;
      var ok := InsertActivation(key, m, a, event);
      if !ok {
        return None, UniqueViolation;
      }
      return Some(ActivationResponse(201, id, a.subscription, a.status, false, Some(event))), UniqueViolation;
    }

    /** The wrapper: replays a completed record, or runs the mutation inside the transaction. */
    method ExecuteOnce(c: Call) returns (answer: Answer)
      modifies this
      ensures Execute(old(Contents()), c) == (Contents(), answer)
    {
      hide Scope, Hash, ApplyUpdate, ApplyOnboarding, ApplyActivation;
      var at, hash, saved := At(c), Hash(c.mutation), Contents();
      if at in records {
        var r := records[at];
        if r.hash != hash {
          return Rejected(KeyReused);
        }
        if r.state != Completed || r.response.None? {
          return Rejected(InProgress);
        }
        return Replayed(r.response.value);
      }
      records := records[at := Record(hash, Processing, None)];
      var response: Option<Response>;
      var failure: Failure;
      match c.mutation {
        case Update(_, _) => response, failure := UpdateProjection(c.key, c.mutation, c.event);
        case Onboarding(_, _) => response, failure := RecordOnboarding(c.key, c.mutation, c.event);
        case Activate(_, _) => response, failure := ActivateSubscription(c.key, c.mutation, c.event);
      }
      if response.None? {
        Rollback(saved);
        return Rejected(failure);
      }
      records := records[at := records[at].(state := Completed, response := response)];
      assert records == saved.records[at := Record(hash, Completed, response)];
      return FirstTime(response.value);
    }

    /** One request; runs of the object are the runs of the specification. */
    method Request(c: Call) returns (answer: Answer)
      modifies this
      ensures Serve(old(Contents()), c) == (Contents(), answer)
    {
      hide Execute;
      if c.mutation.Update? && c.mutation.update.state !in STATES {
        return Rejected(StateInvalid);
      }
      answer := ExecuteOnce(c);
    }
  }
}
