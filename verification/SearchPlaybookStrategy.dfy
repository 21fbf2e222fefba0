/**
  The search playbook: which of its four rules may move the bid, and in which direction, stated on
  spend, price, revenue and position instead of on the ratios the calculator forms.
*/
module SearchPlaybookStrategy {
  import opened Numeric
  import opened Strategy
  import opened BidEngine
  import opened BidEngineSafety

  function TargetPosition(p: Params): real {
    if p.targetPosition == 0.0 then TierPosition(p.frequencyTier) else p.targetPosition
  }

  ghost predicate HasEvidence(p: Params, ctx: BidContext) {
    ctx.hasPosition && ctx.impressions != 0 && TargetPosition(p) > 0.0
  }

  /** Nothing sold, and spend has reached a share of the configured part of the buyer's price. */
  ghost predicate Burnt(p: Params, ctx: BidContext, share: real) {
    && ctx.orders == 0 && p.sacrificialSpendPricePct > 0.0 && ctx.buyerPrice > 0.0
    && ctx.spend * 100.0 >= share * (ctx.buyerPrice * p.sacrificialSpendPricePct)
  }

  /** Orders came in, but at a cost above the ceiling, measured on revenue or else on price. */
  ghost predicate TooDear(p: Params, ctx: BidContext) {
    && p.maxACoS > 0.0 && ctx.orders > 0
    && (if ctx.revenue > 0.0 then ctx.spend * 100.0 > p.maxACoS * ctx.revenue
        else ctx.buyerPrice > 0.0 && ctx.spend * 100.0 > ctx.buyerPrice * p.maxACoS * ctx.orders as real)
  }

  lemma BurntIsCap(p: Params, ctx: BidContext)
    ensures SacrificialCap(p, ctx) > 0.0 <==> p.sacrificialSpendPricePct > 0.0 && ctx.buyerPrice > 0.0
    ensures Burnt(p, ctx, 1.0) <==> SacrificialCap(p, ctx) > 0.0 && ctx.orders == 0 && ctx.spend >= SacrificialCap(p, ctx)
    ensures Burnt(p, ctx, 0.7) <==> SacrificialCap(p, ctx) > 0.0 && ctx.orders == 0 && ctx.spend >= SacrificialCap(p, ctx) * 0.7
  {
    if p.sacrificialSpendPricePct > 0.0 && ctx.buyerPrice > 0.0 {
      assert ctx.buyerPrice * p.sacrificialSpendPricePct > 0.0;
    }
  }

  /** A cost above a positive limit asks for a ratio below one. */
  lemma CutIsReal(limit: real, cost: real)
    requires limit > 0.0
    ensures CutTo(limit, cost).Some? <==> cost > limit
    ensures cost > limit ==> CutTo(limit, cost).value < 1.0
  {
    if cost > limit {
      Quotient(limit, cost, 1.0);
    }
  }

  lemma DearByRevenue(spend: real, revenue: real, limit: real)
    requires revenue > 0.0
    ensures spend / revenue * 100.0 > limit <==> spend * 100.0 > limit * revenue
  {
    Quotient(spend, revenue, limit / 100.0);
  }

  lemma DearByPrice(p: Params, ctx: BidContext)
    requires ctx.orders > 0 && ctx.buyerPrice > 0.0 && p.maxACoS > 0.0
    ensures CeilingCPO(p, ctx) > 0.0
    ensures CurrentCPO(ctx) > CeilingCPO(p, ctx) <==>
              ctx.spend * 100.0 > ctx.buyerPrice * p.maxACoS * ctx.orders as real
  {
    assert ctx.buyerPrice * p.maxACoS > 0.0;
    Quotient(ctx.spend, ctx.orders as real, CeilingCPO(p, ctx));
  }

  /** The ceiling asks for a cut exactly when orders are too dear, and for a real one. */
  lemma CeilingIsTooDear(p: Params, ctx: BidContext)
    requires ctx.revenue >= 0.0
    ensures CeilingRatio(p, ctx).Some? <==> TooDear(p, ctx)
    ensures CeilingRatio(p, ctx).Some? ==> CeilingRatio(p, ctx).value < 1.0
  {
    hide CutTo, CeilingCPO, CurrentCPO;
    if p.maxACoS > 0.0 && ctx.orders > 0 {
      if ctx.revenue > 0.0 {
        DearByRevenue(ctx.spend, ctx.revenue, p.maxACoS);
        CutIsReal(p.maxACoS, Drr(ctx));
      } else if ctx.buyerPrice > 0.0 {
        DearByPrice(p, ctx);
        CutIsReal(CeilingCPO(p, ctx), CurrentCPO(ctx));
      }
    }
  }

  lemma PlaybookSide(p: Params, ctx: BidContext)
    requires ctx.revenue >= 0.0 && ctx.currentBid > 0
    ensures !HasEvidence(p, ctx) ==> SearchPlaybookBid(p, ctx) == 0
    ensures HasEvidence(p, ctx) && Burnt(p, ctx, 1.0) ==> SearchPlaybookBid(p, ctx) == Scaled(ctx.currentBid, 0.7)
    ensures Burnt(p, ctx, 1.0) || TooDear(p, ctx) || ctx.avgPosition <= TargetPosition(p) ==>
              SearchPlaybookBid(p, ctx) <= ctx.currentBid
    ensures Burnt(p, ctx, 0.7) ==> SearchPlaybookBid(p, ctx) <= ctx.currentBid
  {
    BurntIsCap(p, ctx);
    CeilingIsTooDear(p, ctx);
    ScaledSide(ctx.currentBid, 0.7);
    ScaledSide(ctx.currentBid, 1.0 - p.rollbackStepPercent / 100.0);
    if CeilingRatio(p, ctx).Some? {
      ScaledSide(ctx.currentBid, CeilingRatio(p, ctx).value);
    }
  }

  /**
    For a bid in range: it rises only behind the target position, with nothing burnt to 70% of the cap
    and nothing too dear; a product burnt to the cap is cut unless the bid is already the minimum; and
    without evidence nothing happens.
  */
  lemma PlaybookMovesForAReason(params: Params, ctx: BidContext)
    requires WellFormed(params, ctx) && InRange(Merged(params), ctx.currentBid)
    ensures var p := Merged(params); var result := ResultingBid(SearchPlaybook, params, ctx);
            && (result > ctx.currentBid ==>
                  HasEvidence(p, ctx) && ctx.avgPosition > TargetPosition(p) && !Burnt(p, ctx, 0.7) && !TooDear(p, ctx))
            && (HasEvidence(p, ctx) && Burnt(p, ctx, 1.0) ==> (result < ctx.currentBid <==> ctx.currentBid > p.minBid))
            && (!HasEvidence(p, ctx) ==> result == ctx.currentBid)
  {
    var p := Merged(params);
    PlaybookSide(p, ctx);
    DirectionIsKept(SearchPlaybook, params, ctx);
    RealCut(ctx.currentBid);
  }

  lemma RealCut(bid: int)
    ensures bid >= 2 ==> 0 < Scaled(bid, 0.7) < bid
  {
  }

  // ----------------------------------------------------------- what the position decides

  /** All that the playbook learns from the measured position. */
  datatype Signal = NoPosition | Behind | AtTarget

  function SignalOf(p: Params, ctx: BidContext): Signal {
    if !ctx.hasPosition then NoPosition else if ctx.avgPosition > TargetPosition(p) then Behind else AtTarget
  }

  /** The same run with another measured position. */
  ghost predicate OnlyPositionDiffers(c1: BidContext, c2: BidContext) {
    c2 == c1.(hasPosition := c2.hasPosition, avgPosition := c2.avgPosition)
  }

  /** Burnt or too dear: the two rules that do not look at the position. */
  ghost predicate CostRule(p: Params, ctx: BidContext) {
    Burnt(p, ctx, 1.0) || TooDear(p, ctx)
  }

  ghost function CostTarget(p: Params, ctx: BidContext): int
    requires ctx.revenue >= 0.0 && CostRule(p, ctx)
  {
    CeilingIsTooDear(p, ctx);
    Scaled(ctx.currentBid, if Burnt(p, ctx, 1.0) then 0.7 else CeilingRatio(p, ctx).value)
  }

  ghost function ClimbTarget(p: Params, ctx: BidContext): int {
    Scaled(ctx.currentBid, 1.0 + (if p.maxChangePercent <= 0.0 then 15.0 else p.maxChangePercent) / 100.0)
  }

  ghost function PullbackTarget(p: Params, ctx: BidContext): int {
    Scaled(ctx.currentBid, 1.0 - p.rollbackStepPercent / 100.0)
  }

  /** Impressions moved by at most the configured percentage of the window before. */
  ghost predicate Flat(p: Params, ctx: BidContext) {
    && p.flatImpressionsPct > 0.0 && p.rollbackStepPercent > 0.0 && ctx.prevImpressions > 0
    && var growth := (ctx.impressions as real - ctx.prevImpressions as real) / ctx.prevImpressions as real * 100.0;
       -p.flatImpressionsPct <= growth <= p.flatImpressionsPct
  }

  ghost predicate Cuts(p: Params, bid: int, target: int) {
    0 != target < bid && bid > p.minBid
  }

  /** Behind the target: nothing speaks against climbing, and the climb is a whole step that limits and guardrails let through. */
  ghost predicate Climbs(p: Params, ctx: BidContext) {
    && !Burnt(p, ctx, 0.7) && ClimbTarget(p, ctx) > ctx.currentBid && ctx.currentBid < p.maxBid
    && !IncreaseBlocked(p, ctx, ApplyLimits(ctx.currentBid, ClimbTarget(p, ctx), p))
  }

  ghost predicate PullsBack(p: Params, ctx: BidContext) {
    Flat(p, ctx) && Cuts(p, ctx.currentBid, PullbackTarget(p, ctx))
  }

  /** The calculator, rule by rule. */
  lemma PlaybookByRule(p: Params, ctx: BidContext)
    requires ctx.revenue >= 0.0 && ctx.impressions != 0 && TargetPosition(p) > 0.0 && ctx.hasPosition
    ensures CostRule(p, ctx) ==> SearchPlaybookBid(p, ctx) == CostTarget(p, ctx)
    ensures !CostRule(p, ctx) && SignalOf(p, ctx).Behind? ==>
              SearchPlaybookBid(p, ctx) == if Burnt(p, ctx, 0.7) then 0 else ClimbTarget(p, ctx)
    ensures !CostRule(p, ctx) && SignalOf(p, ctx).AtTarget? ==>
              SearchPlaybookBid(p, ctx) == if Flat(p, ctx) then PullbackTarget(p, ctx) else 0
  {
    BurntIsCap(p, ctx);
    CeilingIsTooDear(p, ctx);
  }

  /** What the calculator asks for, as a function of the signal and of what is not the position. */
  ghost function RuleTarget(p: Params, ctx: BidContext, s: Signal): int
    requires ctx.revenue >= 0.0
  {
    if !Playable(p, ctx) || s.NoPosition? then 0
    else if CostRule(p, ctx) then CostTarget(p, ctx)
    else if s.Behind? then if Burnt(p, ctx, 0.7) then 0 else ClimbTarget(p, ctx)
    else if Flat(p, ctx) then PullbackTarget(p, ctx)
    else 0
  }

  /** For every bid, in range or not: the decision settles the target of its signal's rule. */
  lemma DecisionSettlesRuleTarget(params: Params, ctx: BidContext)
    requires WellFormed(params, ctx) && ctx.currentBid > 0
    ensures var p := Merged(params);
            CalculateBid(SearchPlaybook, params, ctx) == Settle(p, ctx, RuleTarget(p, ctx, SignalOf(p, ctx)))
  {
    var p := Merged(params);
    if Playable(p, ctx) && ctx.hasPosition {
      PlaybookByRule(p, ctx);
    }
  }

  /** Settling a raise: it goes through exactly with room and without a guardrail. */
  lemma RaiseSettles(p: Params, ctx: BidContext, calculated: int)
    requires InRange(p, ctx.currentBid) && calculated >= ctx.currentBid
    ensures Settle(p, ctx, calculated).Some? <==>
              && calculated > ctx.currentBid && ctx.currentBid < p.maxBid
              && !IncreaseBlocked(p, ctx, ApplyLimits(ctx.currentBid, calculated, p))
    ensures Settle(p, ctx, calculated).Some? ==> Settle(p, ctx, calculated).value.newBid > ctx.currentBid
  {
    hide IncreaseBlocked;
    LimitsAreAClamp(p, ctx.currentBid, calculated);
    if p.maxChangePercent > 0.0 {
      MaxDeltaPositive(ctx.currentBid, p.maxChangePercent);
    }
  }

  /** Settling a cut: it goes through exactly if it is not the hold value and there is room. */
  lemma CutSettles(p: Params, ctx: BidContext, calculated: int)
    requires InRange(p, ctx.currentBid) && calculated <= ctx.currentBid
    ensures Settle(p, ctx, calculated).Some? <==> Cuts(p, ctx.currentBid, calculated)
    ensures Settle(p, ctx, calculated).Some? ==> Settle(p, ctx, calculated).value.newBid < ctx.currentBid
  {
    hide IncreaseBlocked;
    LimitsAreAClamp(p, ctx.currentBid, calculated);
    if p.maxChangePercent > 0.0 {
      MaxDeltaPositive(ctx.currentBid, p.maxChangePercent);
    }
  }

  ghost predicate Raises(d: Option<Decision>) {
    d.Some? && d.value.newBid > d.value.oldBid
  }

  ghost predicate Lowers(d: Option<Decision>) {
    d.Some? && d.value.newBid < d.value.oldBid
  }

  ghost predicate Playable(p: Params, ctx: BidContext) {
    ctx.impressions != 0 && TargetPosition(p) > 0.0
  }

  /** What each signal leads to, for a bid in range. */
  lemma DecisionBySignal(params: Params, ctx: BidContext)
    requires WellFormed(params, ctx) && InRange(Merged(params), ctx.currentBid)
    ensures var p := Merged(params); var d := CalculateBid(SearchPlaybook, params, ctx);
            var b := ctx.currentBid;
            && (!Playable(p, ctx) || SignalOf(p, ctx).NoPosition? ==> d.None?)
            && (Playable(p, ctx) && !SignalOf(p, ctx).NoPosition? ==>
                  if CostRule(p, ctx) then !Raises(d) && (d.Some? <==> Cuts(p, b, CostTarget(p, ctx)))
                  else if SignalOf(p, ctx).Behind? then !Lowers(d) && (d.Some? <==> Climbs(p, ctx))
                  else !Raises(d) && (d.Some? <==> PullsBack(p, ctx)))
  {
    var p, b := Merged(params), ctx.currentBid;
    if Playable(p, ctx) && ctx.hasPosition {
      PlaybookByRule(p, ctx);
      if CostRule(p, ctx) {
        CeilingIsTooDear(p, ctx);
        ScaledSide(b, if Burnt(p, ctx, 1.0) then 0.7 else CeilingRatio(p, ctx).value);
        CutSettles(p, ctx, CostTarget(p, ctx));
      } else if SignalOf(p, ctx).Behind? {
        ScaledSide(b, 1.0 + (if p.maxChangePercent <= 0.0 then 15.0 else p.maxChangePercent) / 100.0);
        RaiseSettles(p, ctx, ClimbTarget(p, ctx));
      } else if Flat(p, ctx) {
        ScaledSide(b, 1.0 - p.rollbackStepPercent / 100.0);
        CutSettles(p, ctx, PullbackTarget(p, ctx));
      }
    }
  }

  /** What another position can change, given the two signals. */
  ghost predicate PositionMatters(p: Params, ctx: BidContext, s1: Signal, s2: Signal)
    requires ctx.revenue >= 0.0
  {
    && Playable(p, ctx) && s1 != s2
    && if CostRule(p, ctx) then (s1.NoPosition? || s2.NoPosition?) && Cuts(p, ctx.currentBid, CostTarget(p, ctx))
       else || ((s1.Behind? || s2.Behind?) && Climbs(p, ctx))
            || ((s1.AtTarget? || s2.AtTarget?) && PullsBack(p, ctx))
  }

  lemma CostIgnoresPosition(p: Params, c1: BidContext, c2: BidContext)
    requires OnlyPositionDiffers(c1, c2) && c1.revenue >= 0.0
    ensures CostRule(p, c1) == CostRule(p, c2)
    ensures CostRule(p, c1) ==> CostTarget(p, c1) == CostTarget(p, c2)
  {
    hide CutTo;
    assert CeilingCPO(p, c1) == CeilingCPO(p, c2);
    assert c1.orders > 0 ==> CurrentCPO(c1) == CurrentCPO(c2);
    assert c1.revenue > 0.0 ==> Drr(c1) == Drr(c2);
    assert CeilingRatio(p, c1) == CeilingRatio(p, c2) by {
      hide CeilingCPO, CurrentCPO, Drr;
    }
  }

  lemma GuardrailsIgnorePosition(p: Params, c1: BidContext, c2: BidContext, proposed: int)
    requires OnlyPositionDiffers(c1, c2)
    ensures IncreaseBlocked(p, c1, proposed) == IncreaseBlocked(p, c2, proposed)
  {
  }

  lemma SettleIgnoresPosition(p: Params, c1: BidContext, c2: BidContext, calculated: int)
    requires OnlyPositionDiffers(c1, c2)
    ensures Settle(p, c1, calculated) == Settle(p, c2, calculated)
  {
    hide IncreaseBlocked;
    GuardrailsIgnorePosition(p, c1, c2, ApplyLimits(c1.currentBid, calculated, p));
  }

  lemma RulesIgnorePosition(p: Params, c1: BidContext, c2: BidContext)
    requires OnlyPositionDiffers(c1, c2)
    ensures Playable(p, c1) == Playable(p, c2)
    ensures Climbs(p, c1) == Climbs(p, c2) && PullsBack(p, c1) == PullsBack(p, c2)
  {
    hide IncreaseBlocked;
    GuardrailsIgnorePosition(p, c1, c2, ApplyLimits(c1.currentBid, ClimbTarget(p, c1), p));
  }

  lemma RuleTargetIgnoresPosition(p: Params, c1: BidContext, c2: BidContext, s: Signal)
    requires OnlyPositionDiffers(c1, c2) && c1.revenue >= 0.0
    ensures RuleTarget(p, c1, s) == RuleTarget(p, c2, s)
  {
    CostIgnoresPosition(p, c1, c2);
    hide CostRule, CostTarget;
  }

  /** The decision of another run with another position, in terms of this run and the other signal. */
  lemma DecisionOfSignal(params: Params, c1: BidContext, c2: BidContext)
    requires WellFormed(params, c1) && OnlyPositionDiffers(c1, c2) && c1.currentBid > 0
    ensures var p := Merged(params);
            CalculateBid(SearchPlaybook, params, c2) == Settle(p, c1, RuleTarget(p, c1, SignalOf(p, c2)))
  {
    hide Settle, RuleTarget;
    var p := Merged(params);
    DecisionSettlesRuleTarget(params, c2);
    RuleTargetIgnoresPosition(p, c1, c2, SignalOf(p, c2));
    SettleIgnoresPosition(p, c1, c2, RuleTarget(p, c1, SignalOf(p, c2)));
  }

  lemma SameSignalSameDecision(params: Params, c1: BidContext, c2: BidContext)
    requires WellFormed(params, c1) && OnlyPositionDiffers(c1, c2)
    requires SignalOf(Merged(params), c1) == SignalOf(Merged(params), c2)
    ensures CalculateBid(SearchPlaybook, params, c1) == CalculateBid(SearchPlaybook, params, c2)
  {
    hide Settle, RuleTarget;
    if c1.currentBid > 0 {
      DecisionOfSignal(params, c1, c1);
      DecisionOfSignal(params, c1, c2);
    }
  }

  /** Without a current bid every rule asks for zero. */
  lemma ZeroBidStays(p: Params, ctx: BidContext, s: Signal)
    requires ctx.revenue >= 0.0 && ctx.currentBid == 0
    ensures RuleTarget(p, ctx, s) == 0
  {
    hide CostRule, Playable, Burnt, Flat, CeilingRatio;
  }

  lemma MattersIgnoresPosition(p: Params, c1: BidContext, c2: BidContext, s1: Signal, s2: Signal)
    requires OnlyPositionDiffers(c1, c2) && c1.revenue >= 0.0
    ensures PositionMatters(p, c1, s1, s2) == PositionMatters(p, c2, s1, s2)
  {
    hide Climbs, PullsBack, CostRule, Cuts, Playable;
    RulesIgnorePosition(p, c1, c2);
    CostIgnoresPosition(p, c1, c2);
  }

  lemma LandingIgnoresPosition(p: Params, c1: BidContext, c2: BidContext, target: int)
    requires OnlyPositionDiffers(c1, c2)
    ensures Landing(p, c1, target) == Landing(p, c2, target)
  {
    hide IncreaseBlocked;
    GuardrailsIgnorePosition(p, c1, c2, ApplyLimits(c1.currentBid, target, p));
  }

  /**
    Where a target leads: nowhere if it is the hold value or beyond reach of the range, else to the nearest
    bid inside range and change cap, unless that is an increase which a guardrail stops.
  */
  ghost function Landing(p: Params, ctx: BidContext, target: int): int {
    var b := ctx.currentBid;
    if target == 0 || target == b then b
    else
      var limited :=
        if Bounded(p) then if Lowest(p, b) > Highest(p, b) then b else Clamp(Lowest(p, b), Highest(p, b), target)
        else ApplyLimits(b, target, p);
      if limited > b && IncreaseBlocked(p, ctx, limited) then b else limited
  }

  lemma SettlesAtLanding(p: Params, ctx: BidContext, target: int)
    requires ctx.currentBid > 0
    ensures Settle(p, ctx, target)
         == if Landing(p, ctx, target) == ctx.currentBid then None else Some(Decision(ctx.currentBid, Landing(p, ctx, target)))
  {
    hide IncreaseBlocked, ApplyLimits;
    if Bounded(p) {
      LimitsAreAClampOrHold(p, ctx.currentBid, target);
    }
  }

  /** Outside the range every decision goes the same way: towards the range, or to the upper bound if there is no range. */
  lemma OutsideOneWay(p: Params, ctx: BidContext, t1: int, t2: int)
    requires p.minBid > 0 && p.maxBid > 0 && !InRange(p, ctx.currentBid) && ctx.currentBid > 0
    ensures !(Raises(Settle(p, ctx, t1)) && Lowers(Settle(p, ctx, t2)))
  {
    hide IncreaseBlocked;
    LimitedOneWay(p, ctx.currentBid, t1, t2);
  }

  lemma LimitedOneWay(p: Params, bid: int, t1: int, t2: int)
    requires p.minBid > 0 && p.maxBid > 0 && !InRange(p, bid) && bid > 0
    ensures !(ApplyLimits(bid, t1, p) > bid && ApplyLimits(bid, t2, p) < bid)
  {
    if p.maxChangePercent > 0.0 {
      MaxDeltaPositive(bid, p.maxChangePercent);
    }
  }

  /** One position says climb and the other pull back, and both go through. */
  ghost predicate PositionReverses(p: Params, ctx: BidContext, s1: Signal, s2: Signal) {
    && InRange(p, ctx.currentBid) && Playable(p, ctx) && s1.Behind? && s2.AtTarget? && !CostRule(p, ctx)
    && Climbs(p, ctx) && PullsBack(p, ctx)
  }

  /**
    The exact effect of the position on any bid: two positions give different decisions if and only if the
    targets of their signals lead to different bids, which for a bid in range means that the signals differ
    and a rule that tells them apart moves the bid. Opposite directions need a bid in range.
  */
  lemma PositionDecidesIff(params: Params, c1: BidContext, c2: BidContext)
    requires WellFormed(params, c1) && OnlyPositionDiffers(c1, c2)
    ensures var p := Merged(params); var s1, s2 := SignalOf(p, c1), SignalOf(p, c2);
            var d1, d2 := CalculateBid(SearchPlaybook, params, c1), CalculateBid(SearchPlaybook, params, c2);
            && (d1 != d2 <==> Landing(p, c1, RuleTarget(p, c1, s1)) != Landing(p, c1, RuleTarget(p, c1, s2)))
            && (InRange(p, c1.currentBid) ==> (d1 != d2 <==> PositionMatters(p, c1, s1, s2)))
            && (p.minBid > 0 && p.maxBid > 0 ==> (Raises(d1) && Lowers(d2) <==> PositionReverses(p, c1, s1, s2)))
  {
    hide Settle, RuleTarget, CalculateBid, Landing, PositionMatters, PositionReverses, Raises, Lowers;
    var p := Merged(params);
    var s1, s2 := SignalOf(p, c1), SignalOf(p, c2);
    if InRange(p, c1.currentBid) {
      PositionDecidesInRange(params, c1, c2);
    } else {
      NothingReversesOutside(p, c1, s1, s2);
    }
    if c1.currentBid > 0 {
      var t1, t2 := RuleTarget(p, c1, s1), RuleTarget(p, c1, s2);
      DecisionOfSignal(params, c1, c1);
      DecisionOfSignal(params, c1, c2);
      SettlesAtLanding(p, c1, t1);
      SettlesAtLanding(p, c1, t2);
      if !InRange(p, c1.currentBid) && p.minBid > 0 && p.maxBid > 0 {
        OutsideOneWay(p, c1, t1, t2);
      }
    } else {
      NoBidNoDecision(params, c1);
      NoBidNoDecision(params, c2);
      ZeroBidStays(p, c1, s1);
      ZeroBidStays(p, c1, s2);
    }
  }

  lemma NoBidNoDecision(params: Params, ctx: BidContext)
    requires WellFormed(params, ctx) && ctx.currentBid == 0
    ensures var d := CalculateBid(SearchPlaybook, params, ctx); d.None? && !Raises(d) && !Lowers(d)
  {
  }

  lemma NothingReversesOutside(p: Params, ctx: BidContext, s1: Signal, s2: Signal)
    requires !InRange(p, ctx.currentBid)
    ensures !PositionReverses(p, ctx, s1, s2)
  {
  }

  lemma PositionDecidesInRange(params: Params, c1: BidContext, c2: BidContext)
    requires WellFormed(params, c1) && OnlyPositionDiffers(c1, c2) && InRange(Merged(params), c1.currentBid)
    ensures var p := Merged(params); var s1, s2 := SignalOf(p, c1), SignalOf(p, c2);
            var d1, d2 := CalculateBid(SearchPlaybook, params, c1), CalculateBid(SearchPlaybook, params, c2);
            && (d1 != d2 <==> PositionMatters(p, c1, s1, s2))
            && (Raises(d1) && Lowers(d2) <==> PositionReverses(p, c1, s1, s2))
  {
    hide CalculateBid, Climbs, PullsBack, Cuts;
    var p := Merged(params);
    RulesIgnorePosition(p, c1, c2);
    CostIgnoresPosition(p, c1, c2);
    DecisionBySignal(params, c1);
    DecisionBySignal(params, c2);
    DecisionChangesIfAny(params, c1);
    DecisionChangesIfAny(params, c2);
    if SignalOf(p, c1) == SignalOf(p, c2) {
      SameSignalSameDecision(params, c1, c2);
    } else if CostRule(p, c1) && Playable(p, c1) && c1.hasPosition && c2.hasPosition {
      DecisionOfSignal(params, c1, c1);
      DecisionOfSignal(params, c1, c2);
    }
  }

  lemma DecisionChangesIfAny(params: Params, ctx: BidContext)
    requires WellFormed(params, ctx)
    ensures var d := CalculateBid(SearchPlaybook, params, ctx); d.Some? ==> Raises(d) || Lowers(d)
  {
    if CalculateBid(SearchPlaybook, params, ctx).Some? {
      DecisionChangesBid(SearchPlaybook, params, ctx);
    }
  }

  // ------------------------------------------------------------------- the position aimed at

  /** On the measured position itself: beyond `aim` the bid may only rise, up to it only fall, and exactly when. */
  ghost predicate Aims(p: Params, ctx: BidContext, d: Option<Decision>, aim: real) {
    && (Raises(d) ==> ctx.hasPosition && ctx.avgPosition > aim)
    && (Lowers(d) && !CostRule(p, ctx) ==> ctx.hasPosition && ctx.avgPosition <= aim)
    && (ctx.hasPosition && ctx.impressions != 0 && !CostRule(p, ctx) ==>
          if ctx.avgPosition > aim then d.Some? <==> Climbs(p, ctx) else d.Some? <==> PullsBack(p, ctx))
  }

  /**
    A strategy without a target position aims at the fourth place for frequent phrases, the third for middling and
    the first for rare ones, and does nothing for any other tier; one with a target aims at that.
  */
  lemma TierSetsAim(params: Params, ctx: BidContext)
    requires WellFormed(params, ctx) && InRange(Merged(params), ctx.currentBid)
    ensures var p := Merged(params); var d := CalculateBid(SearchPlaybook, params, ctx);
            && (params.targetPosition == 0.0 && params.frequencyTier == "high" ==> Aims(p, ctx, d, 4.0))
            && (params.targetPosition == 0.0 && params.frequencyTier == "mid" ==> Aims(p, ctx, d, 3.0))
            && (params.targetPosition == 0.0 && params.frequencyTier == "low" ==> Aims(p, ctx, d, 1.0))
            && (params.targetPosition == 0.0 && params.frequencyTier !in ["high", "mid", "low"] ==> d.None?)
            && (params.targetPosition > 0.0 ==> Aims(p, ctx, d, params.targetPosition))
  {
    hide CalculateBid, Climbs, PullsBack, CostRule, Cuts;
    DecisionBySignal(params, ctx);
    DecisionChangesIfAny(params, ctx);
  }

  // ------------------------------------------------------------------------- what the ceiling asks

  /** The ceiling asks for the share of the bid that would have brought the cost down to the limit. */
  lemma CeilingMeetsLimit(p: Params, ctx: BidContext)
    requires ctx.revenue >= 0.0 && CeilingRatio(p, ctx).Some?
    ensures var share := CeilingRatio(p, ctx).value;
            if ctx.revenue > 0.0 then share * (ctx.spend * 100.0) == p.maxACoS * ctx.revenue
            else share * (ctx.spend * 100.0) == ctx.buyerPrice * p.maxACoS * ctx.orders as real
  {
    var share := CeilingRatio(p, ctx).value;
    if ctx.revenue > 0.0 {
      var drr := Drr(ctx);
      assert share * drr == p.maxACoS;
      assert drr * ctx.revenue == ctx.spend * 100.0 by {
        Quotient(ctx.spend, ctx.revenue, drr / 100.0);
      }
      Associate(share, drr, ctx.revenue);
    } else {
      var orders := ctx.orders as real;
      assert ctx.buyerPrice * p.maxACoS > 0.0;
      var cpo := CurrentCPO(ctx);
      assert share * cpo == CeilingCPO(p, ctx);
      assert cpo * orders == ctx.spend;
      Associate(share, cpo, orders);
      assert share * ctx.spend == CeilingCPO(p, ctx) * orders;
      Associate(share, ctx.spend, 100.0);
      Spread(ctx.buyerPrice * p.maxACoS, orders);
    }
  }

  lemma Spread(x: real, y: real)
    ensures x / 100.0 * y * 100.0 == x * y
  {
  }
}
