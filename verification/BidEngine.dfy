/**
  The bid engine (internal/service/bidengine.go): a calculator per strategy type, then
  the change cap and the absolute bounds, then the guardrails that only an increase
  has to pass. A calculated bid of zero means "hold".
*/
module BidEngine {
  import opened Numeric
  import opened Strategy

  const MIN_ORDERS_FOR_PROFIT_SAFE_INCREASE := 3
  const PROFIT_SAFE_CPO_FACTOR := 0.90

  datatype IncreaseGuardrail = IncreaseGuardrail(
    allowed: bool,
    maxAllowedDRRPercent: real,
    maxAllowedCPO: real
  )

  datatype BidContext = BidContext(
    currentBid: int,
    impressions: int,
    clicks: int,
    spend: real,
    revenue: real,
    orders: int,
    guardrail: Option<IncreaseGuardrail>,
    avgPosition: real,
    hasPosition: bool,
    prevImpressions: int,
    buyerPrice: real,
    daypartingBaselineBid: int,
    daypartingSlotApplied: bool,
    zoneKnown: bool, // the strategy's time zone could be loaded
    hour: int,       // decision time in that zone
    weekday: int
  )

  datatype Decision = Decision(oldBid: int, newBid: int)

  /** Saved parameters are validated as non-negative, and statistics are sums of counters. */
  ghost predicate WellFormed(p: Params, ctx: BidContext) {
    && p.targetACoS >= 0.0
    && p.maxACoS >= 0.0
    && ctx.currentBid >= 0
    && ctx.spend >= 0.0
    && ctx.revenue >= 0.0
  }

  // ---------------------------------------------------------------- calculators

  function Drr(ctx: BidContext): real
    requires ctx.revenue != 0.0
  {
    ctx.spend / ctx.revenue * 100.0
  }

  /** The ratio by which a bid may be raised: at most 1.3, also when the current ACoS is zero. */
  function CappedIncrease(target: real, current: real): real {
    if current == 0.0 then 1.3
    else if target / current > 1.3 then 1.3
    else target / current
  }

  function AcosBid(p: Params, ctx: BidContext): int
    requires WellFormed(p, ctx)
  {
    if ctx.clicks < p.minClicks || ctx.revenue == 0.0 || p.targetACoS == 0.0 then 0
    else
      var acos := Drr(ctx);
      if acos > p.targetACoS then Scaled(ctx.currentBid, p.targetACoS / acos)
      else if acos < p.targetACoS * 0.8 then
        Scaled(ctx.currentBid, CappedIncrease(p.targetACoS, acos))
      else 0
  }

  function RoasBid(p: Params, ctx: BidContext): int {
    if ctx.clicks < p.minClicks || ctx.spend == 0.0 || p.targetROAS == 0.0 then 0
    else
      var roas := ctx.revenue / ctx.spend;
      if roas < p.targetROAS then Scaled(ctx.currentBid, roas / p.targetROAS)
      else if roas > p.targetROAS * 1.2 then
        var ratio := roas / p.targetROAS;
        Scaled(ctx.currentBid, if ratio > 1.3 then 1.3 else ratio)
      else 0
  }

  function ReductionForWaste(clicks: int): real {
    if clicks > 50 then 0.15 else if clicks > 20 then 0.3 else 0.5
  }

  function AntiSlivBid(p: Params, ctx: BidContext): int
    requires WellFormed(p, ctx)
  {
    if p.maxACoS == 0.0 then 0
    else if ctx.revenue == 0.0 then
      if ctx.clicks > 0 then Scaled(ctx.currentBid, ReductionForWaste(ctx.clicks)) else 0
    else
      var acos := Drr(ctx);
      if acos > p.maxACoS then
        var ratio := p.maxACoS / acos;
        Scaled(ctx.currentBid, if ratio < 0.2 then 0.2 else ratio)
      else 0
  }

  function Multiplier(p: Params, hour: int, weekday: int): real {
    p.baseMultiplier
    * (if hour in p.hourlyMultipliers then p.hourlyMultipliers[hour] else 1.0)
    * (if weekday in p.weekdayMultipliers then p.weekdayMultipliers[weekday] else 1.0)
  }

  function DaypartingBid(p: Params, ctx: BidContext): int {
    if ctx.daypartingSlotApplied || !ctx.zoneKnown then 0
    else
      var baseline := if ctx.daypartingBaselineBid <= 0 then ctx.currentBid else ctx.daypartingBaselineBid;
      var bid := Scaled(baseline, Multiplier(p, ctx.hour, ctx.weekday));
      if bid == ctx.currentBid then 0 else bid
  }

  function TierPosition(tier: string): real {
    match tier
    case "high" => 4.0
    case "mid" => 3.0
    case "low" => 1.0
    case _ => 0.0
  }

  function SacrificialCap(p: Params, ctx: BidContext): real {
    if p.sacrificialSpendPricePct > 0.0 && ctx.buyerPrice > 0.0
    then ctx.buyerPrice * p.sacrificialSpendPricePct / 100.0
    else 0.0
  }

  /** The ratio that brings a cost down to a limit it is above. */
  function CutTo(limit: real, cost: real): Option<real>
    requires limit >= 0.0
  {
    if cost > limit then Some(limit / cost) else None
  }

  function CurrentCPO(ctx: BidContext): real
    requires ctx.orders > 0
  {
    ctx.spend / ctx.orders as real
  }

  /** The cost per order that the buyer's price and the ceiling allow. */
  function CeilingCPO(p: Params, ctx: BidContext): real {
    ctx.buyerPrice * p.maxACoS / 100.0
  }

  /** The profitability ceiling: the ratio to apply when spend is above it, by revenue or by price. */
  function CeilingRatio(p: Params, ctx: BidContext): Option<real> {
    if p.maxACoS <= 0.0 || ctx.orders <= 0 then None
    else if ctx.revenue > 0.0 then
      CutTo(p.maxACoS, Drr(ctx))
    else if ctx.buyerPrice > 0.0 then
      CutTo(CeilingCPO(p, ctx), CurrentCPO(ctx))
    else None
  }

  function SearchPlaybookBid(p: Params, ctx: BidContext): int {
    var target := if p.targetPosition == 0.0 then TierPosition(p.frequencyTier) else p.targetPosition;
    var cap := SacrificialCap(p, ctx);
    if !ctx.hasPosition || ctx.impressions == 0 || target <= 0.0 then 0
    else if cap > 0.0 && ctx.orders == 0 && ctx.spend >= cap then Scaled(ctx.currentBid, 0.7)
    else if CeilingRatio(p, ctx).Some? then Scaled(ctx.currentBid, CeilingRatio(p, ctx).value)
    else if ctx.avgPosition > target then
      if ctx.orders == 0 && cap > 0.0 && ctx.spend >= cap * 0.7 then 0
      else
        var step := if p.maxChangePercent <= 0.0 then 15.0 else p.maxChangePercent;
        Scaled(ctx.currentBid, 1.0 + step / 100.0)
    else if p.flatImpressionsPct > 0.0 && p.rollbackStepPercent > 0.0 && ctx.prevImpressions > 0 then
      var growth := (ctx.impressions as real - ctx.prevImpressions as real)
                    / ctx.prevImpressions as real * 100.0;
      if -p.flatImpressionsPct <= growth <= p.flatImpressionsPct
      then Scaled(ctx.currentBid, 1.0 - p.rollbackStepPercent / 100.0)
      else 0
    else 0
  }

  function CalculatedBid(kind: Kind, p: Params, ctx: BidContext): int
    requires WellFormed(p, ctx)
  {
    match kind
    case ACoS => AcosBid(p, ctx)
    case ROAS => RoasBid(p, ctx)
    case AntiSliv => AntiSlivBid(p, ctx)
    case Dayparting => DaypartingBid(p, ctx)
    case SearchPlaybook => SearchPlaybookBid(p, ctx)
    case OzonTargetDRR => AcosBid(p, ctx)
    case Other => 0
  }

  // --------------------------------------------------------------------- limits

  function MaxDelta(oldBid: int, maxChangePercent: real): int {
    Ceil(oldBid as real * maxChangePercent / 100.0)
  }

  function LimitChange(oldBid: int, newBid: int, maxChangePercent: real): int {
    if maxChangePercent <= 0.0 || oldBid == 0 then newBid
    else
      var maxDelta := MaxDelta(oldBid, maxChangePercent);
      if newBid - oldBid > maxDelta then oldBid + maxDelta
      else if newBid - oldBid < -maxDelta then oldBid - maxDelta
      else newBid
  }

  /** The change cap, then each bound where the cap lets the bid reach it; otherwise the old bid. */
  function ApplyLimits(oldBid: int, calculated: int, p: Params): int {
    var capped := LimitChange(oldBid, calculated, p.maxChangePercent);
    if p.minBid > 0 && capped < p.minBid
       && LimitChange(oldBid, p.minBid, p.maxChangePercent) != p.minBid then oldBid
    else
      var floored := if p.minBid > 0 && capped < p.minBid then p.minBid else capped;
      if p.maxBid > 0 && floored > p.maxBid then
        if LimitChange(oldBid, p.maxBid, p.maxChangePercent) != p.maxBid then oldBid else p.maxBid
      else floored
  }

  // ----------------------------------------------------------------- guardrails

  function ProjectedCPO(ctx: BidContext, proposed: int): real
    requires ctx.orders > 0
  {
    var cpo := ctx.spend / ctx.orders as real;
    if ctx.currentBid > 0 && proposed > ctx.currentBid
    then cpo * (proposed as real / ctx.currentBid as real)
    else cpo
  }

  predicate EconomicsBlocks(p: Params, ctx: BidContext, proposed: int) {
    match ctx.guardrail
    case None => false
    case Some(g) =>
      if ctx.revenue <= 0.0 then
        || g.maxAllowedCPO <= 0.0
        || ctx.orders < MIN_ORDERS_FOR_PROFIT_SAFE_INCREASE
        || ctx.clicks < p.minClicks
        || ProjectedCPO(ctx, proposed) >= g.maxAllowedCPO * PROFIT_SAFE_CPO_FACTOR
      else
        || g.maxAllowedDRRPercent <= 0.0
        || Drr(ctx) >= g.maxAllowedDRRPercent
        || (p.targetACoS > 0.0 && p.targetACoS > g.maxAllowedDRRPercent)
        || (p.targetROAS > 0.0 && p.targetROAS < 100.0 / g.maxAllowedDRRPercent)
  }

  predicate MaxAcosBlocks(p: Params, ctx: BidContext) {
    p.maxACoS > 0.0 && ctx.revenue > 0.0 && Drr(ctx) >= p.maxACoS
  }

  predicate MaxCostBlocks(p: Params, ctx: BidContext) {
    || (p.maxCPC > 0.0 && (ctx.clicks <= 0 || ctx.spend / ctx.clicks as real >= p.maxCPC))
    || (p.maxCPO > 0.0 && (ctx.orders <= 0 || ctx.spend / ctx.orders as real >= p.maxCPO))
  }

  predicate ReadinessBlocks(ctx: BidContext) {
    ctx.guardrail.Some? && !ctx.guardrail.value.allowed
  }

  predicate IncreaseBlocked(p: Params, ctx: BidContext, proposed: int) {
    EconomicsBlocks(p, ctx, proposed) || MaxAcosBlocks(p, ctx) || MaxCostBlocks(p, ctx) || ReadinessBlocks(ctx)
  }

  // ------------------------------------------------------------------- decision

  /** The part of the engine that follows the calculator, on merged parameters. */
  function Settle(p: Params, ctx: BidContext, calculated: int): Option<Decision> {
    if calculated == 0 || calculated == ctx.currentBid then None
    else
      var newBid := ApplyLimits(ctx.currentBid, calculated, p);
      if newBid == ctx.currentBid then None
      else if newBid > ctx.currentBid && IncreaseBlocked(p, ctx, newBid) then None
      else Some(Decision(ctx.currentBid, newBid))
  }

  function CalculateBid(kind: Kind, params: Params, ctx: BidContext): Option<Decision>
    requires WellFormed(params, ctx)
  {
    var p := Merged(params);
    if ctx.currentBid == 0 then None else Settle(p, ctx, CalculatedBid(kind, p, ctx))
  }

  /** The bid in force after a decision: no decision leaves the current bid. */
  function ResultingBid(kind: Kind, params: Params, ctx: BidContext): int
    requires WellFormed(params, ctx)
  {
    match CalculateBid(kind, params, ctx)
    case None => ctx.currentBid
    case Some(d) => d.newBid
  }
}
