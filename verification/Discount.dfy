/**
 Deciding one requested discount in basis points, and what becomes of the offer.
 */
module Discount {
  import opened Identifiers
  import opened Monetary

  const FULL: nat := 10_000

  datatype ApprovalLevel = Automatic | Operations | Finance | RejectedLevel

  datatype Tier = Tier(maximum: int, level: ApprovalLevel)

  datatype DiscountPolicy = DiscountPolicy(
    version: string, recommendedMinimum: int, recommendedMaximum: int, absoluteMaximum: int,
    tiers: seq<Tier>, ttl: int, maximumActiveOffers: int, cooldown: int, stacking: bool, reusable: bool)

  predicate PolicyAccepted(p: DiscountPolicy) {
    && Strip(p.version) != ""
    && 0 <= p.recommendedMinimum <= p.recommendedMaximum <= p.absoluteMaximum <= FULL
    && p.ttl > 0 && p.cooldown >= 0 && p.maximumActiveOffers > 0 && p.tiers != []
    && forall i, j :: 0 <= i < j < |p.tiers| ==> p.tiers[i].maximum < p.tiers[j].maximum
  }

  datatype DiscountContext = DiscountContext(
    demo: Text, user: Text, plan: Text, listPrice: Money, minimumPrice: Money, requested: int,
    activeOffers: int, latestOffer: Option<int>, overlappingCoupon: bool, eligible: bool)

  datatype Reason =
    | LearnerNotEligible | ActiveOfferLimit | CooldownActive | OverlappingDiscount
    | OutsidePolicy | StepUpUnavailable | PolicyApproved

  datatype DiscountDecision = DiscountDecision(
    approved: bool, maximum: int, band: (int, int), price: Option<Money>, discount: Option<int>,
    expiresAt: Option<int>, reusable: bool, level: ApprovalLevel, reasons: seq<Reason>, version: string)

  datatype Refusal = CurrencyDiffers | MinimumAboveList | FloorCrossed

  datatype Result<T> = Ok(value: T) | Err(refusal: Refusal)

  // ---------------------------------------------------------------- arithmetic

  /** `discounted_by_basis_points`: rounds the remaining charge up. */
  function Discounted(amount: nat, bp: nat): nat
    requires bp <= FULL
  {
    (amount * (FULL - bp) + (FULL - 1)) / FULL
  }

  function FloorBound(list: nat, minimum: nat): nat
    requires minimum <= list
  {
    if list == 0 then 0 else (list - minimum) * FULL / list
  }

  lemma DivFloor(a: nat, d: nat, q: nat)
    requires d > 0
    ensures q <= a / d <==> q * d <= a
  {
    if q <= a / d {
      assert q * d <= a / d * d;
    } else {
      assert (a / d + 1) * d <= q * d;
    }
  }

  /** The charge is the least whole amount that is not below the exact discounted price. */
  lemma DiscountedIsLeastCover(amount: nat, bp: nat, price: nat)
    requires bp <= FULL
    ensures Discounted(amount, bp) <= price <==> amount * (FULL - bp) <= price * FULL
  {
    var x := amount * (FULL - bp);
    if Discounted(amount, bp) > price {
      DivFloor(x + (FULL - 1), FULL, price + 1);
    } else {
      DivFloor(x + (FULL - 1), FULL, price + 1);
    }
  }

  /** The floor bound is the largest discount whose exact price stays at or above the minimum. */
  lemma FloorBoundIsLargest(list: nat, minimum: nat, bp: nat)
    requires minimum <= list && list > 0 && bp <= FULL
    ensures bp <= FloorBound(list, minimum) <==> minimum * FULL <= list * (FULL - bp)
    ensures FloorBound(list, minimum) <= FULL
  {
    DivFloor((list - minimum) * FULL, list, bp);
    assert (list - minimum) * FULL == list * FULL - minimum * FULL;
    assert list * (FULL - bp) == list * FULL - bp * list;
    DivFloor((list - minimum) * FULL, list, FULL + 1);
    assert (FULL + 1) * list == list * FULL + list;
  }

  /** A larger discount never costs more. */
  lemma PriceIsAntitone(amount: nat, a: nat, b: nat)
    requires a <= b <= FULL
    ensures Discounted(amount, b) <= Discounted(amount, a) <= amount
  {
    assert amount * (FULL - b) <= amount * (FULL - a) by {
      assert amount * (FULL - a) == amount * (FULL - b) + amount * (b - a);
    }
    DiscountedIsLeastCover(amount, a, Discounted(amount, a));
    DiscountedIsLeastCover(amount, b, Discounted(amount, a));
    assert amount * (FULL - a) <= amount * FULL by {
      assert amount * FULL == amount * (FULL - a) + amount * a;
    }
    DiscountedIsLeastCover(amount, a, amount);
  }

  /** Within the floor bound the charge lies between the minimum and the list price. */
  lemma PriceStaysInBounds(list: nat, minimum: nat, bp: nat)
    requires minimum <= list && bp <= FULL && bp <= FloorBound(list, minimum)
    ensures minimum <= Discounted(list, bp) <= list
  {
    PriceIsAntitone(list, 0, bp);
    if list > 0 && minimum > 0 {
      FloorBoundIsLargest(list, minimum, bp);
      DiscountedIsLeastCover(list, bp, minimum - 1);
      assert (minimum - 1) * FULL < minimum * FULL;
    }
  }

  // ---------------------------------------------------------------- the decision, stated apart from its loop

  function MaximumDiscount(c: DiscountContext, p: DiscountPolicy): int
    requires c.minimumPrice.amount <= c.listPrice.amount
  {
    var floor := FloorBound(c.listPrice.amount, c.minimumPrice.amount);
    if floor <= p.absoluteMaximum then floor else p.absoluteMaximum
  }

  /** The level of the smallest tier that covers the request. */
  ghost predicate Approves(tiers: seq<Tier>, requested: int, level: ApprovalLevel) {
    if exists i :: 0 <= i < |tiers| && requested <= tiers[i].maximum then
      exists i :: 0 <= i < |tiers| && requested <= tiers[i].maximum && level == tiers[i].level
        && forall j :: 0 <= j < |tiers| && requested <= tiers[j].maximum ==> tiers[i].maximum <= tiers[j].maximum
    else level == RejectedLevel
  }

  predicate CoolingDown(c: DiscountContext, p: DiscountPolicy, now: int) {
    c.latestOffer.Some? && now < c.latestOffer.value + p.cooldown
  }

  /** Whether a reason to refuse holds, reason by reason. */
  predicate Holds(r: Reason, c: DiscountContext, p: DiscountPolicy, level: ApprovalLevel, now: int)
    requires c.minimumPrice.amount <= c.listPrice.amount
  {
    match r
    case LearnerNotEligible => !c.eligible
    case ActiveOfferLimit => c.activeOffers >= p.maximumActiveOffers
    case CooldownActive => CoolingDown(c, p, now)
    case OverlappingDiscount => c.overlappingCoupon && !p.stacking
    case OutsidePolicy => !(0 <= c.requested <= MaximumDiscount(c, p))
    case StepUpUnavailable => level == RejectedLevel
    case PolicyApproved => false
  }

  predicate Refused(c: DiscountContext, p: DiscountPolicy, level: ApprovalLevel, now: int)
    requires c.minimumPrice.amount <= c.listPrice.amount
  {
    exists r :: Holds(r, c, p, level, now)
  }

  function Smaller(a: int, b: int): int { if a <= b then a else b }

  /** Walks the tiers upwards to the first that covers the request. */
  method ApprovalFor(tiers: seq<Tier>, requested: int) returns (level: ApprovalLevel)
    requires forall i, j :: 0 <= i < j < |tiers| ==> tiers[i].maximum < tiers[j].maximum
    ensures Approves(tiers, requested, level)
  {
    level := RejectedLevel;
    for i := 0 to |tiers|
      invariant level == RejectedLevel
      invariant forall j :: 0 <= j < i ==> requested > tiers[j].maximum
    {
      if requested <= tiers[i].maximum {
        level := tiers[i].level;
        break;
      }
    }
  }

  /** The place of a reason in the order in which they are checked. */
  function Place(r: Reason): nat {
    match r
    case LearnerNotEligible => 0
    case ActiveOfferLimit => 1
    case CooldownActive => 2
    case OverlappingDiscount => 3
    case OutsidePolicy => 4
    case StepUpUnavailable => 5
    case PolicyApproved => 6
  }

  /** Of the first k reasons the list has those that hold. */
  ghost predicate Gathered(reasons: seq<Reason>, k: nat, c: DiscountContext, p: DiscountPolicy, level: ApprovalLevel, now: int)
    requires c.minimumPrice.amount <= c.listPrice.amount
  {
    forall x :: x in reasons <==> Place(x) < k && Holds(x, c, p, level, now)
  }

  lemma GatherOne(reasons: seq<Reason>, r: Reason, c: DiscountContext, p: DiscountPolicy, level: ApprovalLevel, now: int)
    requires c.minimumPrice.amount <= c.listPrice.amount
    requires Gathered(reasons, Place(r), c, p, level, now)
    ensures Gathered(if Holds(r, c, p, level, now) then reasons + [r] else reasons, Place(r) + 1, c, p, level, now)
  {
    hide Holds;
    forall x | Place(x) == Place(r) ensures x == r {
    }
  }

  /** Gathers the reasons to refuse, in the order in which they are checked. */
  method CollectReasons(c: DiscountContext, p: DiscountPolicy, level: ApprovalLevel, now: int) returns (reasons: seq<Reason>)
    requires c.minimumPrice.amount <= c.listPrice.amount
    ensures forall x :: x in reasons <==> Holds(x, c, p, level, now)
    ensures reasons == [] <==> !Refused(c, p, level, now)
  {
    hide FloorBound, MaximumDiscount, Gathered, Refused;
    reasons := [];
    NoneGathered(c, p, level, now);
    GatherOne(reasons, LearnerNotEligible, c, p, level, now);
    if !c.eligible {
      reasons := reasons + [LearnerNotEligible];
    }
    GatherOne(reasons, ActiveOfferLimit, c, p, level, now);
    if c.activeOffers >= p.maximumActiveOffers {
      reasons := reasons + [ActiveOfferLimit];
    }
    GatherOne(reasons, CooldownActive, c, p, level, now);
    if c.latestOffer.Some? && now < c.latestOffer.value + p.cooldown {
      reasons := reasons + [CooldownActive];
    }
    GatherOne(reasons, OverlappingDiscount, c, p, level, now);
    if c.overlappingCoupon && !p.stacking {
      reasons := reasons + [OverlappingDiscount];
    }
    GatherOne(reasons, OutsidePolicy, c, p, level, now);
    if !(0 <= c.requested <= MaximumDiscount(c, p)) {
      reasons := reasons + [OutsidePolicy];
    }
    GatherOne(reasons, StepUpUnavailable, c, p, level, now);
    if level == RejectedLevel {
      reasons := reasons + [StepUpUnavailable];
    }
    AllGathered(reasons, c, p, level, now);
  }

  lemma NoneGathered(c: DiscountContext, p: DiscountPolicy, level: ApprovalLevel, now: int)
    requires c.minimumPrice.amount <= c.listPrice.amount
    ensures Gathered([], 0, c, p, level, now)
  {
  }

  lemma AllGathered(reasons: seq<Reason>, c: DiscountContext, p: DiscountPolicy, level: ApprovalLevel, now: int)
    requires c.minimumPrice.amount <= c.listPrice.amount && Gathered(reasons, 6, c, p, level, now)
    ensures forall x :: x in reasons <==> Holds(x, c, p, level, now)
    ensures reasons == [] <==> !Refused(c, p, level, now)
  {
    hide MaximumDiscount;
    assert reasons != [] ==> reasons[0] in reasons;
  }

  /** What an approval promises: the price, within its bounds, and until when. */
  predicate ApprovedAs(c: DiscountContext, p: DiscountPolicy, level: ApprovalLevel, now: int, d: DiscountDecision)
    requires c.minimumPrice.amount <= c.listPrice.amount && p.absoluteMaximum <= FULL
  {
    && 0 <= c.requested <= MaximumDiscount(c, p)
    && d.price == Some(Money(Discounted(c.listPrice.amount, c.requested), c.listPrice.currency))
    && c.minimumPrice.amount <= d.price.value.amount <= c.listPrice.amount
    && d.discount == Some(c.requested) && d.expiresAt == Some(now + p.ttl)
    && d.level == level && d.reasons == [PolicyApproved]
  }

  predicate RefusedAs(c: DiscountContext, p: DiscountPolicy, level: ApprovalLevel, now: int, d: DiscountDecision)
    requires c.minimumPrice.amount <= c.listPrice.amount
  {
    && d.price == None && d.discount == None && d.expiresAt == None && d.level == RejectedLevel
    && forall x :: x in d.reasons <==> Holds(x, c, p, level, now)
  }

  /** Decides; the price floor can never be crossed, so that error does not occur. */
  method DecideDiscount(c: DiscountContext, p: DiscountPolicy, now: int) returns (r: Result<DiscountDecision>, ghost level: ApprovalLevel)
    requires PolicyAccepted(p)
    ensures r == Err(CurrencyDiffers) <==> c.listPrice.currency != c.minimumPrice.currency
    ensures r == Err(MinimumAboveList) <==>
      c.listPrice.currency == c.minimumPrice.currency && c.minimumPrice.amount > c.listPrice.amount
    ensures r != Err(FloorCrossed)
    ensures r.Ok? ==>
      var d := r.value;
      && Approves(p.tiers, c.requested, level)
      && (d.approved <==> !Refused(c, p, level, now))
      && (if d.approved then ApprovedAs(c, p, level, now, d) else RefusedAs(c, p, level, now, d))
      && d.maximum == MaximumDiscount(c, p) && d.version == p.version && d.reusable == p.reusable
      && d.band.0 <= d.band.1 <= d.maximum
  {
    hide Discounted, Refused, Approves, RefusedAs;
    level := RejectedLevel;
    if c.listPrice.currency != c.minimumPrice.currency {
      return Err(CurrencyDiffers), level;
    }
    if c.minimumPrice.amount > c.listPrice.amount {
      return Err(MinimumAboveList), level;
    }
    var maximum := MaximumDiscount(c, p);
    var approval := ApprovalFor(p.tiers, c.requested);
    var reasons := CollectReasons(c, p, approval, now);
    var band := (Smaller(p.recommendedMinimum, maximum), Smaller(p.recommendedMaximum, maximum));
    level := approval;
    if reasons != [] {
      var d := DiscountDecision(false, maximum, band, None, None, None, p.reusable, RejectedLevel, reasons, p.version);
      RefusedSo(c, p, level, now, d);
      return Ok(d), level;
    }
    NotOutside(c, p, level, now);
    PriceStaysInBounds(c.listPrice.amount, c.minimumPrice.amount, c.requested);
    var selected := Discounted(c.listPrice.amount, c.requested);
    if selected < c.minimumPrice.amount {
      return Err(FloorCrossed), level;
    }
    return Ok(DiscountDecision(true, maximum, band, Some(Money(selected, c.listPrice.currency)), Some(c.requested),
                               Some(now + p.ttl), p.reusable, approval, [PolicyApproved], p.version)), level;
  }

  lemma RefusedSo(c: DiscountContext, p: DiscountPolicy, level: ApprovalLevel, now: int, d: DiscountDecision)
    requires c.minimumPrice.amount <= c.listPrice.amount
    requires d.price == None && d.discount == None && d.expiresAt == None && d.level == RejectedLevel
    requires forall x :: x in d.reasons <==> Holds(x, c, p, level, now)
    ensures RefusedAs(c, p, level, now, d)
  {
  }

  lemma NotOutside(c: DiscountContext, p: DiscountPolicy, level: ApprovalLevel, now: int)
    requires c.minimumPrice.amount <= c.listPrice.amount && !Refused(c, p, level, now)
    ensures 0 <= c.requested <= MaximumDiscount(c, p)
  {
    hide MaximumDiscount;
    assert !Holds(OutsidePolicy, c, p, level, now);
  }

  /**
   In amounts: a request is approved exactly for an eligible learner with an offer to spare, no
   cooldown, no coupon that may not be stacked, a price that keeps the minimum, a discount within
   the policy, and a tier that covers it.
   */
  lemma ApprovedIff(c: DiscountContext, p: DiscountPolicy, level: ApprovalLevel, now: int)
    requires PolicyAccepted(p) && 0 < c.listPrice.amount && c.minimumPrice.amount <= c.listPrice.amount
    ensures !Refused(c, p, level, now) <==>
      && c.eligible && c.activeOffers < p.maximumActiveOffers
      && (c.latestOffer.Some? ==> now - c.latestOffer.value >= p.cooldown)
      && !(c.overlappingCoupon && !p.stacking)
      && 0 <= c.requested <= p.absoluteMaximum
      && c.minimumPrice.amount * FULL <= c.listPrice.amount * (FULL - c.requested)
      && level != RejectedLevel
  {
    hide MaximumDiscount, FloorBound;
    EachReason(c, p, level, now);
    if 0 <= c.requested <= p.absoluteMaximum {
      FloorBoundIsLargest(c.listPrice.amount, c.minimumPrice.amount, c.requested);
    }
    SmallerBound(c, p);
  }

  lemma SmallerBound(c: DiscountContext, p: DiscountPolicy)
    requires c.minimumPrice.amount <= c.listPrice.amount
    ensures c.requested <= MaximumDiscount(c, p) <==>
      c.requested <= p.absoluteMaximum && c.requested <= FloorBound(c.listPrice.amount, c.minimumPrice.amount)
  {
    hide FloorBound;
  }

  lemma EachReason(c: DiscountContext, p: DiscountPolicy, level: ApprovalLevel, now: int)
    requires c.minimumPrice.amount <= c.listPrice.amount
    ensures !Refused(c, p, level, now) <==>
      && !Holds(LearnerNotEligible, c, p, level, now) && !Holds(ActiveOfferLimit, c, p, level, now)
      && !Holds(CooldownActive, c, p, level, now) && !Holds(OverlappingDiscount, c, p, level, now)
      && !Holds(OutsidePolicy, c, p, level, now) && !Holds(StepUpUnavailable, c, p, level, now)
  {
    hide MaximumDiscount;
  }

  // ---------------------------------------------------------------- offers

  // the offer's identifier, a digest of these fields, is left out
  datatype Offer = Offer(
    demo: Text, user: Text, plan: Text, price: Money, expiresAt: int, reusable: bool, redemptions: nat, version: string)

  function BindOffer(c: DiscountContext, d: DiscountDecision): Option<Offer> {
    if !d.approved || d.price.None? || d.expiresAt.None? then None
    else Some(Offer(c.demo, c.user, c.plan, d.price.value, d.expiresAt.value, d.reusable, 0, d.version))
  }

  datatype Redemption = OfferExpired | BindingMismatch | AlreadyRedeemed | OfferValid

  function ValidateRedemption(o: Offer, demo: Text, user: Text, plan: Text, currency: string, now: int): Redemption {
    if now >= o.expiresAt then OfferExpired
    else if o.demo != demo || o.user != user || o.plan != plan || o.price.currency != Upper(currency) then BindingMismatch
    else if o.redemptions > 0 && !o.reusable then AlreadyRedeemed
    else OfferValid
  }

  /**
   An offer bound from a decision is redeemed exactly by its own demo, user and plan, in its own
   currency in whatever letter case, before it expires, and once unless it is reusable.
   */
  lemma BoundOfferRedeems(c: DiscountContext, d: DiscountDecision, redemptions: nat, demo: Text, user: Text, plan: Text, currency: string, now: int)
    requires BindOffer(c, d).Some?
    ensures
      var o := BindOffer(c, d).value.(redemptions := redemptions);
      ValidateRedemption(o, demo, user, plan, currency, now) == OfferValid <==>
        && d.approved && now < d.expiresAt.value
        && demo == c.demo && user == c.user && plan == c.plan && Upper(currency) == d.price.value.currency
        && (redemptions == 0 || d.reusable)
  {
    hide Upper;
  }

  /** Each refusal of a redemption is given exactly when its condition fails first. */
  lemma RefusedRedemptionWhy(o: Offer, demo: Text, user: Text, plan: Text, currency: string, now: int)
    ensures
      var r := ValidateRedemption(o, demo, user, plan, currency, now);
      var own := demo == o.demo && user == o.user && plan == o.plan && Upper(currency) == o.price.currency;
      && (r == OfferExpired <==> o.expiresAt <= now)
      && (r == BindingMismatch <==> now < o.expiresAt && !own)
      && (r == AlreadyRedeemed <==> now < o.expiresAt && own && o.redemptions >= 1 && !o.reusable)
  {
    hide Upper;
  }
}
