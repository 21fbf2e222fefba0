/**
  What the limits and guardrails guarantee about every decision of the engine,
  whatever strategy produced it.
*/
module BidEngineSafety {
  import opened Numeric
  import opened Strategy
  import opened BidEngine

  ghost predicate Bounded(p: Params) {
    0 < p.minBid <= p.maxBid
  }

  ghost predicate InRange(p: Params, bid: int) {
    Bounded(p) && p.minBid <= bid <= p.maxBid
  }

  function Clamp(lo: int, hi: int, x: int): int
    requires lo <= hi
  {
    if x < lo then lo else if x > hi then hi else x
  }

  /** The lowest and highest bid one decision may reach from `oldBid`. */
  ghost function Lowest(p: Params, oldBid: int): int {
    if p.maxChangePercent <= 0.0 then p.minBid
    else Max(p.minBid, oldBid - MaxDelta(oldBid, p.maxChangePercent))
  }

  ghost function Highest(p: Params, oldBid: int): int {
    if p.maxChangePercent <= 0.0 then p.maxBid
    else Min(p.maxBid, oldBid + MaxDelta(oldBid, p.maxChangePercent))
  }

  lemma MaxDeltaPositive(oldBid: int, maxChangePercent: real)
    requires oldBid > 0 && maxChangePercent > 0.0
    ensures MaxDelta(oldBid, maxChangePercent) >= 1
    ensures (MaxDelta(oldBid, maxChangePercent) - 1) as real < oldBid as real * maxChangePercent / 100.0
                                                             <= MaxDelta(oldBid, maxChangePercent) as real
  {
    assert oldBid as real * maxChangePercent > 0.0;
  }

  /**
    From a bid inside the configured range the three branches of the limiter collapse to one
    clamp, so the "hold for operator review" branch is out of reach.
  */
  lemma LimitsAreAClamp(p: Params, oldBid: int, calculated: int)
    requires InRange(p, oldBid)
    ensures Lowest(p, oldBid) <= oldBid <= Highest(p, oldBid)
    ensures ApplyLimits(oldBid, calculated, p) == Clamp(Lowest(p, oldBid), Highest(p, oldBid), calculated)
  {
    if p.maxChangePercent > 0.0 {
      MaxDeltaPositive(oldBid, p.maxChangePercent);
    }
  }

  /** From any bid: the nearest bid inside range and change cap, and no change if the two do not meet. */
  lemma LimitsAreAClampOrHold(p: Params, oldBid: int, calculated: int)
    requires Bounded(p) && oldBid > 0
    ensures ApplyLimits(oldBid, calculated, p)
         == if Lowest(p, oldBid) > Highest(p, oldBid) then oldBid
            else Clamp(Lowest(p, oldBid), Highest(p, oldBid), calculated)
  {
    if p.maxChangePercent > 0.0 {
      MaxDeltaPositive(oldBid, p.maxChangePercent);
    }
  }

  ghost function DistanceToRange(p: Params, bid: int): int {
    if bid < p.minBid then p.minBid - bid else if bid > p.maxBid then bid - p.maxBid else 0
  }

  /**
    From outside the range the limiter moves the bid exactly when the nearest bound is within
    the change cap, and then it lands inside the range.
  */
  lemma OutOfRangeMovesIffReachable(p: Params, oldBid: int, calculated: int)
    requires Bounded(p) && oldBid > 0 && !InRange(p, oldBid) && p.maxChangePercent > 0.0
    ensures ApplyLimits(oldBid, calculated, p) != oldBid
            <==> DistanceToRange(p, oldBid) <= MaxDelta(oldBid, p.maxChangePercent)
    ensures ApplyLimits(oldBid, calculated, p) != oldBid
            ==> p.minBid <= ApplyLimits(oldBid, calculated, p) <= p.maxBid
  {
    MaxDeltaPositive(oldBid, p.maxChangePercent);
  }

  /** Every decision changes the bid it was computed for. */
  lemma DecisionChangesBid(kind: Kind, params: Params, ctx: BidContext)
    requires WellFormed(params, ctx)
    requires CalculateBid(kind, params, ctx).Some?
    ensures var d := CalculateBid(kind, params, ctx).value;
            d.oldBid == ctx.currentBid && d.newBid != d.oldBid
  {
  }

  /** The hard limits of unattended automation, from any current bid. */
  lemma DecisionWithinLimits(kind: Kind, params: Params, ctx: BidContext)
    requires WellFormed(params, ctx)
    requires Bounded(Merged(params)) && Merged(params).maxChangePercent > 0.0
    requires CalculateBid(kind, params, ctx).Some?
    ensures var p := Merged(params); var d := CalculateBid(kind, params, ctx).value;
            && p.minBid <= d.newBid <= p.maxBid
            && -MaxDelta(d.oldBid, p.maxChangePercent) <= d.newBid - d.oldBid
                                                       <= MaxDelta(d.oldBid, p.maxChangePercent)
  {
    var p := Merged(params);
    var calculated := CalculatedBid(kind, p, ctx);
    MaxDeltaPositive(ctx.currentBid, p.maxChangePercent);
    if InRange(p, ctx.currentBid) {
      LimitsAreAClamp(p, ctx.currentBid, calculated);
    } else {
      OutOfRangeMovesIffReachable(p, ctx.currentBid, calculated);
    }
  }

  /** A bid that starts in range moves the way the strategy asked, and moves unless a bound or guardrail stops it. */
  lemma DirectionIsKept(kind: Kind, params: Params, ctx: BidContext)
    requires WellFormed(params, ctx)
    requires InRange(Merged(params), ctx.currentBid)
    ensures var p := Merged(params); var calculated := CalculatedBid(kind, p, ctx);
            var result := ResultingBid(kind, params, ctx);
            && (result > ctx.currentBid ==> calculated > ctx.currentBid)
            && (result < ctx.currentBid <==> 0 != calculated < ctx.currentBid && ctx.currentBid > p.minBid)
  {
    var p := Merged(params);
    var calculated := CalculatedBid(kind, p, ctx);
    LimitsAreAClamp(p, ctx.currentBid, calculated);
    if p.maxChangePercent > 0.0 {
      MaxDeltaPositive(ctx.currentBid, p.maxChangePercent);
    }
  }

  /** Outside the range a bound can reverse the strategy: a cut becomes an increase to the minimum bid. */
  lemma BoundCanReverseDirection(params: Params, ctx: BidContext)
    requires params.minBid == 100 && params.maxBid == 200 && params.maxChangePercent == 50.0
    requires params.targetACoS == 0.0 && params.maxACoS == 10.0
    requires ctx.currentBid == 80 && ctx.clicks == 5 && ctx.revenue == 0.0 && ctx.spend == 0.0
    requires params.maxCPC == 0.0 && params.maxCPO == 0.0 && ctx.guardrail.None?
    ensures CalculatedBid(AntiSliv, Merged(params), ctx) == 40
    ensures CalculateBid(AntiSliv, params, ctx) == Some(Decision(80, 100))
  {
    assert MaxDelta(80, 50.0) == 40;
  }

  /**
    Spend stays within the unit-economics ceiling the raise was measured against, the strategy's own target
    does not ask for more than the ceiling, and without revenue there is enough evidence.
  */
  ghost predicate EconomicallySafe(p: Params, g: IncreaseGuardrail, ctx: BidContext, newBid: int) {
    && g.allowed
    && (ctx.revenue > 0.0 ==>
          && ctx.spend * 100.0 < g.maxAllowedDRRPercent * ctx.revenue
          && p.targetACoS <= g.maxAllowedDRRPercent
          && (p.targetROAS > 0.0 ==> p.targetROAS * g.maxAllowedDRRPercent >= 100.0))
    && (ctx.revenue == 0.0 ==>
          && ctx.orders >= 3 && ctx.clicks >= p.minClicks && g.maxAllowedCPO > 0.0
          && ctx.spend * newBid as real < 0.9 * g.maxAllowedCPO * (ctx.orders as real * ctx.currentBid as real))
  }

  ghost predicate WithinCostLimits(p: Params, ctx: BidContext) {
    && (p.maxACoS > 0.0 && ctx.revenue > 0.0 ==> ctx.spend * 100.0 < p.maxACoS * ctx.revenue)
    && (p.maxCPC > 0.0 ==> ctx.clicks > 0 && ctx.spend < p.maxCPC * ctx.clicks as real)
    && (p.maxCPO > 0.0 ==> ctx.orders > 0 && ctx.spend < p.maxCPO * ctx.orders as real)
  }

  /**
    An increase, also one that only the minimum bid forced, has passed every guardrail. Without
    attributed revenue the spend per order, scaled by the raise, stays below 90% of break-even.
  */
  lemma IncreasePassedGuardrails(kind: Kind, params: Params, ctx: BidContext)
    requires WellFormed(params, ctx)
    requires CalculateBid(kind, params, ctx).Some?
    requires CalculateBid(kind, params, ctx).value.newBid > ctx.currentBid
    ensures ctx.guardrail.Some? ==>
              EconomicallySafe(Merged(params), ctx.guardrail.value, ctx, CalculateBid(kind, params, ctx).value.newBid)
    ensures WithinCostLimits(Merged(params), ctx)
  {
    var newBid := IncreaseNotBlocked(kind, params, ctx);
    GuardrailsPassIff(Merged(params), ctx, newBid);
  }

  /** The guardrails let an increase through exactly if spend, revenue, clicks and orders meet every limit. */
  lemma GuardrailsPassIff(p: Params, ctx: BidContext, newBid: int)
    requires ctx.spend >= 0.0 && ctx.revenue >= 0.0 && 0 < ctx.currentBid < newBid
    ensures !IncreaseBlocked(p, ctx, newBid) <==>
              WithinCostLimits(p, ctx) && (ctx.guardrail.Some? ==> EconomicallySafe(p, ctx.guardrail.value, ctx, newBid))
  {
    hide EconomicsBlocks, MaxAcosBlocks, MaxCostBlocks, EconomicallySafe, WithinCostLimits;
    CostLimitsIff(p, ctx);
    if ctx.guardrail.Some? {
      EconomicsIff(p, ctx, newBid);
    } else {
      NoGuardrailNoBlock(p, ctx, newBid);
    }
  }

  lemma NoGuardrailNoBlock(p: Params, ctx: BidContext, newBid: int)
    requires ctx.guardrail.None?
    ensures !EconomicsBlocks(p, ctx, newBid) && !ReadinessBlocks(ctx)
  {
  }

  /**
    Exactly when a bid in range is raised: the calculator asks for more, there is room below the maximum, and
    the bid that the limits allow meets every guardrail.
  */
  lemma RaisesIff(kind: Kind, params: Params, ctx: BidContext)
    requires WellFormed(params, ctx) && InRange(Merged(params), ctx.currentBid)
    ensures var p := Merged(params); var calculated := CalculatedBid(kind, p, ctx);
            var newBid := Clamp(Lowest(p, ctx.currentBid), Highest(p, ctx.currentBid), calculated);
            var d := CalculateBid(kind, params, ctx);
            && Lowest(p, ctx.currentBid) <= Highest(p, ctx.currentBid)
            && (d.Some? && d.value.newBid > ctx.currentBid <==>
                  && calculated > ctx.currentBid && ctx.currentBid < p.maxBid
                  && WithinCostLimits(p, ctx)
                  && (ctx.guardrail.Some? ==> EconomicallySafe(p, ctx.guardrail.value, ctx, newBid)))
            && (d.Some? ==> d.value.newBid == newBid)
  {
    hide IncreaseBlocked, WithinCostLimits, EconomicallySafe, CalculatedBid;
    var p := Merged(params);
    var calculated := CalculatedBid(kind, p, ctx);
    LimitsAreAClamp(p, ctx.currentBid, calculated);
    if p.maxChangePercent > 0.0 {
      MaxDeltaPositive(ctx.currentBid, p.maxChangePercent);
    }
    if calculated > ctx.currentBid && ctx.currentBid < p.maxBid {
      GuardrailsPassIff(p, ctx, ApplyLimits(ctx.currentBid, calculated, p));
    }
  }

  lemma IncreaseNotBlocked(kind: Kind, params: Params, ctx: BidContext) returns (newBid: int)
    requires WellFormed(params, ctx)
    requires CalculateBid(kind, params, ctx).Some?
    requires CalculateBid(kind, params, ctx).value.newBid > ctx.currentBid
    ensures newBid == CalculateBid(kind, params, ctx).value.newBid
    ensures 0 < ctx.currentBid < newBid && !IncreaseBlocked(Merged(params), ctx, newBid)
  {
    newBid := CalculateBid(kind, params, ctx).value.newBid;
  }

  lemma EconomicsIff(p: Params, ctx: BidContext, newBid: int)
    requires ctx.spend >= 0.0 && ctx.revenue >= 0.0 && 0 < ctx.currentBid < newBid && ctx.guardrail.Some?
    ensures !EconomicsBlocks(p, ctx, newBid) && !ReadinessBlocks(ctx) <==>
              EconomicallySafe(p, ctx.guardrail.value, ctx, newBid)
  {
    var g := ctx.guardrail.value;
    if ctx.revenue > 0.0 {
      BelowAfterScaling(ctx.spend, ctx.revenue, g.maxAllowedDRRPercent);
      if ctx.spend * 100.0 < g.maxAllowedDRRPercent * ctx.revenue {
        PositiveLimit(ctx.spend, ctx.revenue, g.maxAllowedDRRPercent);
      }
      if g.maxAllowedDRRPercent > 0.0 {
        Quotient(100.0, g.maxAllowedDRRPercent, p.targetROAS);
      }
    } else if ctx.orders >= 3 {
      ProjectionBelowCeiling(ctx, newBid, g.maxAllowedCPO * PROFIT_SAFE_CPO_FACTOR);
    }
  }

  lemma PositiveLimit(spend: real, revenue: real, limit: real)
    requires spend >= 0.0 && revenue > 0.0 && spend * 100.0 < limit * revenue
    ensures limit > 0.0
  {
    Cancel(0.0, limit, revenue);
  }

  lemma CostLimitsIff(p: Params, ctx: BidContext)
    ensures !MaxAcosBlocks(p, ctx) && !MaxCostBlocks(p, ctx) <==> WithinCostLimits(p, ctx)
  {
    if p.maxACoS > 0.0 && ctx.revenue > 0.0 {
      BelowAfterScaling(ctx.spend, ctx.revenue, p.maxACoS);
    }
    if p.maxCPC > 0.0 && ctx.clicks > 0 {
      Quotient(ctx.spend, ctx.clicks as real, p.maxCPC);
    }
    if p.maxCPO > 0.0 && ctx.orders > 0 {
      Quotient(ctx.spend, ctx.orders as real, p.maxCPO);
    }
  }

  lemma BelowAfterScaling(spend: real, revenue: real, limit: real)
    requires revenue > 0.0
    ensures spend / revenue * 100.0 < limit <==> spend * 100.0 < limit * revenue
  {
    Quotient(spend, revenue, limit / 100.0);
  }

  lemma ProjectionBelowCeiling(ctx: BidContext, newBid: int, ceiling: real)
    requires ctx.orders > 0 && 0 < ctx.currentBid < newBid
    ensures ProjectedCPO(ctx, newBid) < ceiling <==>
              ctx.spend * newBid as real < ceiling * (ctx.orders as real * ctx.currentBid as real)
  {
    var o, b, n := ctx.orders as real, ctx.currentBid as real, newBid as real;
    var cpo, r := ctx.spend / o, n / b;
    assert ctx.spend == cpo * o && n == r * b;
    assert ctx.spend * n == cpo * r * (o * b) by {
      assert cpo * o * (r * b) == cpo * r * (o * b);
    }
    assert o * b > 0.0;
    Cancel(cpo * r, ceiling, o * b);
  }

  // -------------------------------------------------------------------- defaults

  /** The parameters with every default written out. */
  ghost function SpelledOut(params: Params): Params {
    params.(minBid := if params.minBid == 0 then 50 else params.minBid,
            maxBid := if params.maxBid == 0 then 5000 else params.maxBid,
            maxChangePercent := if params.maxChangePercent == 0.0 then 15.0 else params.maxChangePercent,
            minClicks := if params.minClicks == 0 then 10 else params.minClicks,
            baseMultiplier := if params.baseMultiplier == 0.0 then 1.0 else params.baseMultiplier,
            sacrificialSpendPricePct :=
              if params.sacrificialSpendPricePct == 0.0 then 100.0 else params.sacrificialSpendPricePct,
            flatImpressionsPct := if params.flatImpressionsPct == 0.0 then 20.0 else params.flatImpressionsPct,
            rollbackStepPercent := if params.rollbackStepPercent == 0.0 then 9.0 else params.rollbackStepPercent,
            cooldownMinutes := if params.cooldownMinutes == 0 then 120 else params.cooldownMinutes,
            maxChangesPerDay := if params.maxChangesPerDay == 0 then 3 else params.maxChangesPerDay)
  }

  /** A zero parameter decides as its default does: merging twice changes nothing. */
  lemma ZeroMeansDefault(kind: Kind, params: Params, ctx: BidContext)
    requires WellFormed(params, ctx)
    ensures WellFormed(SpelledOut(params), ctx)
    ensures CalculateBid(kind, params, ctx) == CalculateBid(kind, SpelledOut(params), ctx)
  {
    MergedTwice(params);
    hide CalculatedBid, Settle, Merged;
  }

  lemma MergedTwice(params: Params)
    ensures Merged(params) == Merged(SpelledOut(params))
  {
  }

  /** A strategy without limits of its own changes a bid of 50 to 5000 by at most 15% and keeps it there. */
  lemma DefaultLimits(kind: Kind, params: Params, ctx: BidContext)
    requires WellFormed(params, ctx) && params.minBid == 0 && params.maxBid == 0 && params.maxChangePercent == 0.0
    requires CalculateBid(kind, params, ctx).Some?
    ensures var newBid := CalculateBid(kind, params, ctx).value.newBid;
            && 50 <= newBid <= 5000
            && (newBid - ctx.currentBid - 1) as real < ctx.currentBid as real * 0.15
            && (ctx.currentBid - newBid - 1) as real < ctx.currentBid as real * 0.15
  {
    DecisionWithinLimits(kind, params, ctx);
    MaxDeltaPositive(ctx.currentBid, 15.0);
  }
}
