/** The radius ladder: levels, the level a distance needs, automatic expansion, and what a cart then pays. */
module Discovery {
  import opened Reals
  import opened Results
  import opened Pricing

  datatype Policy = Policy(baseRadius: real, step: real, maxExpansions: int, minMerchants: int, autoExpand: bool)

  datatype PolicyError = RadiusNotPositive | StepNotPositive | ExpansionsNegative | ThresholdNegative | CeilingDisabled

  predicate Usable(p: Policy) { p.baseRadius > 0.0 && p.step > 0.0 && p.maxExpansions >= 0 && p.minMerchants >= 0 }

  function NewPolicy(baseRadius: real, step: real, maxExpansions: int, minMerchants: int, autoExpand: bool, ceiling: bool)
    : (r: Result<Policy, PolicyError>)
    ensures r.Success? <==> 0.0 < baseRadius && 0.0 < step && 0 <= maxExpansions && 0 <= minMerchants && ceiling
    ensures r.Success? ==> Usable(r.value)
    ensures r.Success? ==> r.value == Policy(baseRadius, step, maxExpansions, minMerchants, autoExpand)
  {
    if baseRadius <= 0.0 then Failure(RadiusNotPositive)
    else if step <= 0.0 then Failure(StepNotPositive)
    else if maxExpansions < 0 then Failure(ExpansionsNegative)
    else if minMerchants < 0 then Failure(ThresholdNegative)
    else if !ceiling then Failure(CeilingDisabled)
    else Success(Policy(baseRadius, step, maxExpansions, minMerchants, autoExpand))
  }

  function ClampLevel(p: Policy, level: int): (l: int)
    requires p.maxExpansions >= 0
    ensures 0 <= l <= p.maxExpansions
    ensures 0 <= level <= p.maxExpansions ==> l == level
  {
    if level < 0 then 0 else if level > p.maxExpansions then p.maxExpansions else level
  }

  function Radius(p: Policy, level: int): real
    requires p.maxExpansions >= 0
  {
    p.baseRadius + p.step * ClampLevel(p, level) as real
  }

  /** The ladder: the base radius at its foot, each rung one step further out, and levels off it read as its ends. */
  lemma LadderMeaning(p: Policy, level: int)
    requires p.maxExpansions >= 0
    ensures Radius(p, 0) == p.baseRadius
    ensures 0 <= level < p.maxExpansions ==> Radius(p, level + 1) == Radius(p, level) + p.step
    ensures level <= 0 ==> Radius(p, level) == p.baseRadius
    ensures level >= p.maxExpansions ==> Radius(p, level) == Radius(p, p.maxExpansions)
  {
    if 0 <= level < p.maxExpansions {
      Distributes(level as real, (level + 1) as real, p.step);
      Commutes(level as real, p.step);
      Commutes((level + 1) as real, p.step);
    }
  }

  predicate Enough(p: Policy, count: int) { count >= p.minMerchants }

  /** The level a distance needs, solved rather than searched for. */
  function LevelFor(p: Policy, distance: real): int
    requires Usable(p)
  {
    var over := distance - p.baseRadius;
    if over <= 0.0 then 0 else ClampLevel(p, Ceil(over / p.step))
  }

  datatype Unreachable = OutsideDivision | BeyondMaxRadius

  datatype Reach = Reachable(level: int, expanded: bool) | NotReachable(why: Unreachable)

  function ReachOf(p: Policy, distance: real, sameDivision: bool): Reach
    requires Usable(p)
  {
    if !sameDivision then NotReachable(OutsideDivision)
    else if distance > Radius(p, p.maxExpansions) then NotReachable(BeyondMaxRadius)
    else Reachable(LevelFor(p, distance), LevelFor(p, distance) > 0)
  }

  lemma StepsCover(over: real, step: real, n: int)
    requires step > 0.0
    ensures over <= step * n as real <==> over / step <= n as real
  {
    QuotientAtMost(over, step, n as real);
    Commutes(n as real, step);
  }

  lemma LevelCovers(p: Policy, distance: real, level: int)
    requires Usable(p) && 0 <= level <= p.maxExpansions
    requires distance <= Radius(p, p.maxExpansions)
    ensures distance <= Radius(p, level) <==> LevelFor(p, distance) <= level
  {
    var over := distance - p.baseRadius;
    if over <= 0.0 {
      TimesGrows(0.0, level as real, p.step);
    } else {
      StepsCover(over, p.step, p.maxExpansions);
      StepsCover(over, p.step, level);
      assert 0.0 < over / p.step;
    }
  }

  /** The solved level is the least one that reaches: a shop lies within a level's radius exactly when it needs no more. */
  lemma LevelForIsLeast(p: Policy, distance: real, sameDivision: bool)
    requires Usable(p)
    ensures ReachOf(p, distance, sameDivision).Reachable? <==>
            sameDivision && exists l :: 0 <= l <= p.maxExpansions && distance <= Radius(p, l)
    ensures ReachOf(p, distance, sameDivision).Reachable? ==>
              var required := LevelFor(p, distance);
              && 0 <= required <= p.maxExpansions
              && forall l :: 0 <= l <= p.maxExpansions ==> (distance <= Radius(p, l) <==> required <= l)
  {
    forall l | 0 <= l <= p.maxExpansions
      ensures distance <= Radius(p, l) ==> distance <= Radius(p, p.maxExpansions)
      ensures distance <= Radius(p, p.maxExpansions) ==> (distance <= Radius(p, l) <==> LevelFor(p, distance) <= l)
    {
      TimesGrows(l as real, p.maxExpansions as real, p.step);
      if distance <= Radius(p, p.maxExpansions) {
        LevelCovers(p, distance, l);
      }
    }
    if distance <= Radius(p, p.maxExpansions) {
      assert 0 <= p.maxExpansions <= p.maxExpansions && distance <= Radius(p, p.maxExpansions);
    }
  }

  /** A shop in reach is shown with the level it needs, and as an expansion exactly beyond the base radius. */
  lemma ReachMeaning(p: Policy, distance: real, sameDivision: bool)
    requires Usable(p)
    ensures var reach := ReachOf(p, distance, sameDivision);
            && (reach == NotReachable(OutsideDivision) <==> !sameDivision)
            && (reach.Reachable? ==> reach.level == LevelFor(p, distance) && (reach.expanded <==> distance > p.baseRadius))
  {
    LadderMeaning(p, 0);
    if distance <= Radius(p, p.maxExpansions) {
      LevelCovers(p, distance, 0);
    }
  }

  /** Counting fails at a level that every earlier level leads to. */
  ghost predicate FailsAt(p: Policy, requested: int, count: int -> Option<int>, level: int)
    requires p.maxExpansions >= 0
  {
    && count(level).None?
    && forall l :: ClampLevel(p, requested) <= l < level ==> count(l).Some? && !Enough(p, count(l).value)
  }

  /**
   Decides the level to search at: what was asked for, or with automatic expansion the first level from there on with
   enough shops, else the last. A failed count is passed on.
   */
  method Settle(p: Policy, requested: int, count: int -> Option<int>) returns (r: Option<int>)
    requires p.maxExpansions >= 0
    ensures r.Some? ==> ClampLevel(p, requested) <= r.value <= p.maxExpansions
    ensures r.Some? && !p.autoExpand ==> r.value == ClampLevel(p, requested)
    ensures r.Some? && p.autoExpand ==>
              && (r.value == p.maxExpansions || (count(r.value).Some? && count(r.value).value >= p.minMerchants))
              && forall l :: ClampLevel(p, requested) <= l < r.value ==> count(l).Some? && count(l).value < p.minMerchants
    ensures r.None? <==> p.autoExpand && exists l :: ClampLevel(p, requested) <= l < p.maxExpansions && FailsAt(p, requested, count, l)
  {
    var level := ClampLevel(p, requested);
    if !p.autoExpand {
      return Some(level);
    }
    while level < p.maxExpansions
      invariant ClampLevel(p, requested) <= level <= p.maxExpansions
      invariant forall l :: ClampLevel(p, requested) <= l < level ==> count(l).Some? && !Enough(p, count(l).value)
    {
      var found := count(level);
      if found.None? {
        assert FailsAt(p, requested, count, level);
        return None;
      }
      if Enough(p, found.value) {
        return Some(level);
      }
      level := level + 1;
    }
    r := Some(level);
  }

  // ---------------------------------------------------------------- what the cart pays

  /** The delivery a cart is charged: priced at the level its own distance needs. */
  function CartDelivery(p: Policy, t: Tariff, subtotal: int, distance: real): Result<int, QuoteError>
    requires Usable(p)
  {
    match Price(t, subtotal, distance, LevelFor(p, distance) > 0)
    case Failure(e) => Failure(e)
    case Success(q) => Success(q.delivery)
  }

  /** The fee on a search card: priced at the level of the search that showed the shop. */
  function CardFee(t: Tariff, distance: real, level: int): Result<int, QuoteError>
  {
    match DeliveryFee(t, distance, level > 0)
    case Failure(e) => Failure(e)
    case Success(fee) => Success(fee.amount)
  }

  /** A cart pays the plain fee, and is told so, out to the base radius, and the expanded one beyond it. */
  lemma CartPaysByItsOwnDistance(p: Policy, t: Tariff, subtotal: int, distance: real)
    requires Usable(p) && ReachOf(p, distance, true).Reachable?
    ensures CartDelivery(p, t, subtotal, distance) ==
            match Price(t, subtotal, distance, distance > p.baseRadius)
            case Failure(e) => Failure(e)
            case Success(q) => Success(q.delivery)
  {
    ReachMeaning(p, distance, true);
  }

  /** Of two shops in reach, the nearer never costs more to deliver from: bands, expansion, rounding and waiver included. */
  lemma DeliveryGrowsWithDistance(p: Policy, t: Tariff, subtotal: int, near: real, far: real)
    requires Usable(p) && Sound(t) && subtotal >= 0 && 0.0 <= near <= far
    requires ReachOf(p, far, true).Reachable?
    ensures CartDelivery(p, t, subtotal, near).Success? && CartDelivery(p, t, subtotal, far).Success?
    ensures CartDelivery(p, t, subtotal, near).value <= CartDelivery(p, t, subtotal, far).value
  {
    LevelForIsLeast(p, near, true);
    LevelForIsLeast(p, far, true);
    LevelCovers(p, near, 0);
    LevelCovers(p, far, 0);
    FeeGrows(t, near, far, LevelFor(p, near) > 0, LevelFor(p, far) > 0);
  }

  /** Checkout never charges more than the card of any search that showed the shop. */
  lemma CartNeverExceedsCard(p: Policy, t: Tariff, subtotal: int, distance: real, level: int)
    requires Usable(p) && Sound(t) && subtotal >= 0 && 0.0 <= distance
    requires 0 <= level <= p.maxExpansions && distance <= Radius(p, level)
    ensures CartDelivery(p, t, subtotal, distance).Success? && CardFee(t, distance, level).Success?
    ensures CartDelivery(p, t, subtotal, distance).value <= CardFee(t, distance, level).value
  {
    LevelForIsLeast(p, distance, true);
    FeeGrows(t, distance, distance, LevelFor(p, distance) > 0, level > 0);
  }
}
