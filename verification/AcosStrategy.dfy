/**
  Two laws of the target-ACoS strategy over pairs of runs: spending more for the same result
  never earns a higher bid, and the target-ROAS strategy is its mirror image.
*/
module AcosStrategy {
  import opened Numeric
  import opened Strategy
  import opened BidEngine
  import opened BidEngineSafety

  // ------------------------------------------------------------ monotonicity

  /** The same campaign after a higher spend for the same clicks, orders and revenue. */
  ghost predicate SpendsMore(c1: BidContext, c2: BidContext) {
    c1.spend <= c2.spend && c2 == c1.(spend := c2.spend)
  }

  /** The ratio the calculator asks for; holding is the ratio one. */
  ghost function AskedRatio(target: real, acos: real): real
    requires target > 0.0
  {
    if acos > target then target / acos
    else if acos < target * 0.8 then CappedIncrease(target, acos)
    else 1.0
  }

  ghost function Asked(bid: int, target: real, acos: real): int
    requires target > 0.0
  {
    Scaled(bid, AskedRatio(target, acos))
  }

  /** The cut is so deep that it rounds to zero, which the engine reads as "hold". */
  ghost predicate CutVanishes(p: Params, ctx: BidContext) {
    && ctx.clicks >= p.minClicks
    && p.targetACoS > 0.0
    && ctx.revenue > 0.0
    && Asked(ctx.currentBid, p.targetACoS, Drr(ctx)) == 0
  }

  /** Names the ratio: above the target it is below one, below the target it is not. */
  lemma RatioOf(bid: int, target: real, acos: real) returns (r: real)
    requires target > 0.0 && acos >= 0.0
    ensures r == AskedRatio(target, acos) && Asked(bid, target, acos) == Scaled(bid, r)
    ensures acos > target ==> 0.0 < r < 1.0
    ensures acos <= target ==> r >= 1.0
  {
    r := AskedRatio(target, acos);
    if acos > 0.0 {
      Quotient(target, acos, 0.0);
      Quotient(target, acos, 1.0);
    }
  }

  lemma RatioAntitone(target: real, acos1: real, acos2: real)
    requires target > 0.0 && 0.0 <= acos1 <= acos2
    ensures AskedRatio(target, acos2) <= AskedRatio(target, acos1)
  {
    var r1 := RatioOf(1, target, acos1);
    var r2 := RatioOf(1, target, acos2);
    if acos1 > 0.0 {
      QuotientAntitone(target, acos1, acos2);
    }
  }

  lemma AskedDecreases(bid: int, target: real, acos1: real, acos2: real)
    requires bid > 0 && target > 0.0 && 0.0 <= acos1 <= acos2
    ensures Asked(bid, target, acos2) <= Asked(bid, target, acos1)
  {
    RatioAntitone(target, acos1, acos2);
    var r1 := RatioOf(bid, target, acos1);
    var r2 := RatioOf(bid, target, acos2);
    ScaledMonotone(bid, r2, r1);
  }

  lemma AskedSide(bid: int, target: real, acos: real)
    requires bid > 0 && target > 0.0 && acos >= 0.0
    ensures acos > target ==> 0 <= Asked(bid, target, acos) <= bid
    ensures acos <= target ==> Asked(bid, target, acos) >= bid
    ensures Asked(bid, target, acos) == 0 <==> bid as real * AskedRatio(target, acos) < 0.5
  {
    var r := RatioOf(bid, target, acos);
    ScaledSide(bid, r);
    ScaledZeroIff(bid, r);
  }

  lemma DrrMonotone(c1: BidContext, c2: BidContext)
    requires SpendsMore(c1, c2) && c1.revenue > 0.0 && c1.spend >= 0.0
    ensures 0.0 <= Drr(c1) <= Drr(c2)
  {
    Quotient(c1.spend, c1.revenue, 0.0);
    QuotientMonotone(c1.spend, c2.spend, c1.revenue);
  }

  /** The bid in force once limits and guardrails have seen what the calculator asks for. */
  ghost function AfterLimits(p: Params, ctx: BidContext, asked: int): int
    requires InRange(p, ctx.currentBid)
  {
    LimitsAreAClamp(p, ctx.currentBid, asked);
    var limited := Clamp(Lowest(p, ctx.currentBid), Highest(p, ctx.currentBid), asked);
    if limited > ctx.currentBid && IncreaseBlocked(p, ctx, limited) then ctx.currentBid else limited
  }

  lemma AcosResult(params: Params, ctx: BidContext)
    requires WellFormed(params, ctx)
    requires InRange(Merged(params), ctx.currentBid)
    requires ctx.clicks >= Merged(params).minClicks && params.targetACoS > 0.0 && ctx.revenue > 0.0
    ensures CutVanishes(Merged(params), ctx) ==> ResultingBid(ACoS, params, ctx) == ctx.currentBid
    ensures !CutVanishes(Merged(params), ctx) ==>
              ResultingBid(ACoS, params, ctx)
              == AfterLimits(Merged(params), ctx, Asked(ctx.currentBid, params.targetACoS, Drr(ctx)))
  {
    var p := Merged(params);
    var b := ctx.currentBid;
    LimitsAreAClamp(p, b, Asked(b, p.targetACoS, Drr(ctx)));
    RoundOfInt(b);
  }

  lemma MoreSpendMoreBlocked(p: Params, c1: BidContext, c2: BidContext, n1: int, n2: int)
    requires SpendsMore(c1, c2) && c1.revenue > 0.0 && c1.spend >= 0.0
    requires IncreaseBlocked(p, c1, n1)
    ensures IncreaseBlocked(p, c2, n2)
  {
    DrrMonotone(c1, c2);
    if c1.clicks > 0 {
      QuotientMonotone(c1.spend, c2.spend, c1.clicks as real);
    }
    if c1.orders > 0 {
      QuotientMonotone(c1.spend, c2.spend, c1.orders as real);
    }
  }

  // The exception in terms of its inputs. Twice the bid at the target against the hundredfold spend
  // decides whether a cut rounds to zero, to the bid itself, or to something in between.

  /** Twice the bid, times target and revenue: the hundredfold spend at which a cut to one half unit is reached. */
  ghost function TwiceBidAtTarget(p: Params, ctx: BidContext): real {
    2.0 * ctx.currentBid as real * (p.targetACoS * ctx.revenue)
  }

  ghost predicate Measured(p: Params, ctx: BidContext) {
    ctx.clicks >= p.minClicks && p.targetACoS > 0.0 && ctx.revenue > 0.0
  }

  /** So much spend that the cut is below half a unit. */
  ghost predicate SpendHidesCut(p: Params, ctx: BidContext) {
    Measured(p, ctx) && TwiceBidAtTarget(p, ctx) < 100.0 * ctx.spend
  }

  /** A spend whose cut rounds to a bid between zero and the current one. */
  ghost predicate SpendCutsBid(p: Params, ctx: BidContext) {
    && Measured(p, ctx)
    && 100.0 * ctx.spend <= TwiceBidAtTarget(p, ctx) < (2.0 * ctx.currentBid as real - 1.0) * (100.0 * ctx.spend)
  }

  /** Comparing the scaled bid with any value is comparing inputs. */
  lemma CutAgainst(p: Params, ctx: BidContext, y: real)
    requires Measured(p, ctx) && ctx.currentBid > 0 && ctx.spend >= 0.0 && Drr(ctx) > p.targetACoS
    ensures ctx.currentBid as real * (p.targetACoS / Drr(ctx)) < y
            <==> TwiceBidAtTarget(p, ctx) < 2.0 * y * (100.0 * ctx.spend)
  {
    var b, t, q := ctx.currentBid as real, p.targetACoS, Drr(ctx);
    var r, s := t / q, ctx.spend / ctx.revenue;
    assert s * ctx.revenue == ctx.spend && q == s * 100.0;
    assert r * q == t;
    var w := q * ctx.revenue;
    assert w == 100.0 * ctx.spend by { assert w == 100.0 * (s * ctx.revenue); }
    assert w > 0.0;
    assert b * r * w == b * (t * ctx.revenue) by {
      assert b * r * w == b * (r * q * ctx.revenue);
    }
    Cancel(b * r, y, w);
    assert TwiceBidAtTarget(p, ctx) == 2.0 * (b * r * w);
    assert 2.0 * y * (100.0 * ctx.spend) == 2.0 * (y * w);
  }

  /** Below the target the hundredfold spend is at most target times revenue. */
  lemma BelowTarget(p: Params, ctx: BidContext)
    requires Measured(p, ctx) && ctx.currentBid > 0 && ctx.spend >= 0.0 && Drr(ctx) <= p.targetACoS
    ensures !SpendHidesCut(p, ctx) && !SpendCutsBid(p, ctx)
  {
    var b, x := ctx.currentBid as real, p.targetACoS * ctx.revenue;
    Quotient(ctx.spend, ctx.revenue, p.targetACoS / 100.0);
    assert 100.0 * ctx.spend <= x;
    TwiceBidIsEnough(b, x, 100.0 * ctx.spend);
  }

  lemma TwiceBidIsEnough(b: real, x: real, w: real)
    requires b >= 1.0 && 0.0 <= w <= x
    ensures 2.0 * b * x >= w && 2.0 * b * x >= (2.0 * b - 1.0) * w
  {
    ProductNonNegative(b, x - w);
    ProductNonNegative(b - 1.0, w);
    assert b * (x - w) == b * x - b * w && (b - 1.0) * w == b * w - w;
    assert (2.0 * b - 1.0) * w == 2.0 * (b * w) - w;
  }

  lemma RoundBelow(x: real, n: int)
    requires x >= 0.0
    ensures Round(x) < n <==> x < n as real - 0.5
  {
  }

  lemma ExceptionFromInputs(p: Params, ctx: BidContext)
    requires WellFormed(p, ctx) && ctx.currentBid > 0
    ensures CutVanishes(p, ctx) <==> SpendHidesCut(p, ctx)
    ensures 0 < AcosBid(p, ctx) < ctx.currentBid <==> SpendCutsBid(p, ctx)
  {
    if Measured(p, ctx) {
      var b, acos := ctx.currentBid, Drr(ctx);
      DrrMonotone(ctx, ctx);
      AskedSide(b, p.targetACoS, acos);
      if acos > p.targetACoS {
        var x := b as real * (p.targetACoS / acos);
        Quotient(p.targetACoS, acos, 0.0);
        assert x >= 0.0;
        RoundBelow(x, 1);
        RoundBelow(x, b);
        CutAgainst(p, ctx, 0.5);
        CutAgainst(p, ctx, b as real - 0.5);
        assert Scaled(b, p.targetACoS / acos) == Round(x);
        assert 2.0 * (b as real - 0.5) == 2.0 * b as real - 1.0;
      } else {
        BelowTarget(p, ctx);
      }
    }
  }

  /**
    Through calculator, limits and guardrails: more spend for the same result gives no higher
    bid, except exactly when the higher spend hides its cut while the lower one makes one take effect.
  */
  lemma MoreSpendNeverRaisesBid(params: Params, c1: BidContext, c2: BidContext)
    requires WellFormed(params, c1) && SpendsMore(c1, c2)
    requires InRange(Merged(params), c1.currentBid)
    ensures var p := Merged(params);
            ResultingBid(ACoS, params, c2) <= ResultingBid(ACoS, params, c1)
            <==> !(SpendHidesCut(p, c2) && SpendCutsBid(p, c1) && c1.currentBid > p.minBid)
  {
    ExceptionFromInputs(Merged(params), c1);
    ExceptionFromInputs(Merged(params), c2);
    hide SpendHidesCut, SpendCutsBid;
    MonotoneUnlessCutVanishes(params, c1, c2);
  }

  lemma MonotoneUnlessCutVanishes(params: Params, c1: BidContext, c2: BidContext)
    requires WellFormed(params, c1) && SpendsMore(c1, c2)
    requires InRange(Merged(params), c1.currentBid)
    ensures var p := Merged(params); var b := c1.currentBid;
            ResultingBid(ACoS, params, c2) <= ResultingBid(ACoS, params, c1)
            <==> !(CutVanishes(p, c2) && 0 < AcosBid(p, c1) < b && b > p.minBid)
  {
    var p := Merged(params);
    var b := c1.currentBid;
    if c1.clicks >= p.minClicks && params.targetACoS > 0.0 && c1.revenue > 0.0 {
      if CutVanishes(p, c2) {
        AcosResult(params, c2);
        CutTakesEffectIff(params, c1);
      } else {
        MonotoneWithoutVanishing(params, c1, c2);
      }
    }
  }

  lemma CutTakesEffectIff(params: Params, ctx: BidContext)
    requires WellFormed(params, ctx) && InRange(Merged(params), ctx.currentBid)
    requires ctx.clicks >= Merged(params).minClicks && params.targetACoS > 0.0 && ctx.revenue > 0.0
    ensures ResultingBid(ACoS, params, ctx) < ctx.currentBid
            <==> 0 < AcosBid(Merged(params), ctx) < ctx.currentBid && ctx.currentBid > Merged(params).minBid
  {
    DirectionIsKept(ACoS, params, ctx);
    DrrMonotone(ctx, ctx);
    AskedSide(ctx.currentBid, params.targetACoS, Drr(ctx));
  }

  lemma MonotoneWithoutVanishing(params: Params, c1: BidContext, c2: BidContext)
    requires WellFormed(params, c1) && SpendsMore(c1, c2)
    requires InRange(Merged(params), c1.currentBid) && !CutVanishes(Merged(params), c2)
    requires c1.clicks >= Merged(params).minClicks && params.targetACoS > 0.0 && c1.revenue > 0.0
    ensures ResultingBid(ACoS, params, c2) <= ResultingBid(ACoS, params, c1)
  {
    AcosResult(params, c1);
    AcosResult(params, c2);
    DrrMonotone(c1, c2);
    AskedDecreases(c1.currentBid, params.targetACoS, Drr(c1), Drr(c2));
    AskedSide(c1.currentBid, params.targetACoS, Drr(c1));
    AskedSide(c1.currentBid, params.targetACoS, Drr(c2));
    SettledMonotone(Merged(params), c1, c2,
      Asked(c1.currentBid, params.targetACoS, Drr(c1)), Asked(c1.currentBid, params.targetACoS, Drr(c2)));
  }

  lemma SettledMonotone(p: Params, c1: BidContext, c2: BidContext, asked1: int, asked2: int)
    requires SpendsMore(c1, c2) && c1.revenue > 0.0 && c1.spend >= 0.0
    requires InRange(p, c1.currentBid) && asked2 <= asked1
    ensures AfterLimits(p, c2, asked2) <= AfterLimits(p, c1, asked1)
  {
    var b := c1.currentBid;
    LimitsAreAClamp(p, b, asked1);
    var l1 := Clamp(Lowest(p, b), Highest(p, b), asked1);
    var l2 := Clamp(Lowest(p, b), Highest(p, b), asked2);
    if IncreaseBlocked(p, c1, l1) {
      MoreSpendMoreBlocked(p, c1, c2, l1, l2);
    }
  }

  /** The exception is real: at bid 60, a spend twenty thousand times the revenue is left alone. */
  lemma DeepestCutIsIgnored(params: Params, ctx: BidContext)
    requires params.targetACoS == 10.0 && params.maxACoS == 0.0 && params.minClicks == 10
    requires params.minBid == 50 && params.maxBid == 100 && params.maxChangePercent == 50.0
    requires ctx.currentBid == 60 && ctx.clicks == 10 && ctx.revenue == 1.0 && ctx.spend == 1.0
    ensures ResultingBid(ACoS, params, ctx) == 50
    ensures ResultingBid(ACoS, params, ctx.(spend := 20000.0)) == 60
  {
    var p := Merged(params);
    assert Drr(ctx) == 100.0;
    assert AcosBid(p, ctx) == 6;
    assert MaxDelta(60, 50.0) == 30;
    assert Drr(ctx.(spend := 20000.0)) == 2000000.0;
    assert AcosBid(p, ctx.(spend := 20000.0)) == 0;
  }

  // ------------------------------------------------------------ ACoS and ROAS

  /** A ROAS strategy whose target is the reciprocal of an ACoS strategy's, all else equal. */
  ghost predicate Mirror(acos: Params, roas: Params) {
    && acos.targetACoS > 0.0
    && acos.targetROAS == 0.0
    && roas == acos.(targetACoS := 0.0, targetROAS := 100.0 / acos.targetACoS)
  }

  /** ROAS between 120% and 125% of its target: good enough for the ROAS rule only. */
  ghost predicate InMirrorGap(roas: Params, ctx: BidContext)
    requires ctx.spend > 0.0
  {
    roas.targetROAS * 1.2 < ctx.revenue / ctx.spend <= roas.targetROAS * 1.25
  }

  lemma MirrorRatios(a: real, spend: real, revenue: real)
    requires a > 0.0 && spend > 0.0 && revenue > 0.0
    ensures var acos := spend / revenue * 100.0; var t := 100.0 / a; var roas := revenue / spend;
            && acos > 0.0 && t > 0.0 && roas > 0.0
            && a / acos == roas / t
            && (acos > a <==> roas < t)
            && (acos < a * 0.8 <==> roas > t * 1.25)
  {
    var acos, t, roas := spend / revenue * 100.0, 100.0 / a, revenue / spend;
    var q := spend / revenue;
    Quotient(spend, revenue, 0.0);
    Quotient(100.0, a, 0.0);
    Quotient(revenue, spend, 0.0);
    assert q * revenue == spend && roas * spend == revenue;
    Substitute(roas, q * revenue, spend);
    Associate(roas, q, revenue);
    Cancel(roas * q, 1.0, revenue);
    assert acos * roas == 100.0 by { assert acos * roas == roas * q * 100.0; }
    Reciprocal(acos, roas, a, t);
  }

  lemma Reciprocal(acos: real, roas: real, a: real, t: real)
    requires acos > 0.0 && roas > 0.0 && a > 0.0 && t > 0.0
    requires acos * roas == 100.0 && a * t == 100.0
    ensures a / acos == roas / t
    ensures acos > a <==> roas < t
    ensures acos < a * 0.8 <==> roas > t * 1.25
  {
    var v := roas / t;
    assert v * t == roas;
    assert v * acos * t == a * t by { assert v * acos * t == v * t * acos; }
    Cancel(v * acos, a, t);
    Quotient(a, acos, v);
    CompareProducts(acos, roas, a, t);
    assert (a * 0.8) * (t * 1.25) == 100.0 by { assert a * 0.8 * (t * 1.25) == a * t * (0.8 * 1.25); }
    CompareProducts(acos, roas, a * 0.8, t * 1.25);
  }

  lemma MirrorCalculators(acos: Params, roas: Params, ctx: BidContext)
    requires Mirror(acos, roas) && WellFormed(acos, ctx) && ctx.spend > 0.0
    ensures !InMirrorGap(roas, ctx) ==> AcosBid(acos, ctx) == RoasBid(roas, ctx)
    ensures InMirrorGap(roas, ctx) ==> AcosBid(acos, ctx) == 0
  {
    if ctx.revenue > 0.0 {
      MirrorRatios(acos.targetACoS, ctx.spend, ctx.revenue);
    } else {
      assert ctx.revenue / ctx.spend == 0.0;
      Quotient(100.0, acos.targetACoS, 0.0);
      assert 0.0 / roas.targetROAS == 0.0;
    }
  }

  /** The unit-economics guardrail reads the two targets the same way round. */
  lemma MirrorGuardrails(acos: Params, roas: Params, ctx: BidContext, proposed: int)
    requires Mirror(acos, roas)
    ensures IncreaseBlocked(acos, ctx, proposed) == IncreaseBlocked(roas, ctx, proposed)
  {
    if ctx.guardrail.Some? && ctx.guardrail.value.maxAllowedDRRPercent > 0.0 {
      var a, c := acos.targetACoS, ctx.guardrail.value.maxAllowedDRRPercent;
      var t, m := 100.0 / a, 100.0 / c;
      assert t * a == 100.0 && m * c == 100.0;
      Quotient(100.0, a, 0.0);
      Quotient(100.0, c, 0.0);
      CompareProducts(a, t, c, m);
    }
  }

  /**
    For positive spend the two strategies choose the same bid for every input outside the gap;
    inside it the ACoS rule holds, so they differ exactly when the ROAS rule raises the bid.
  */
  lemma RoasMirrorsAcos(acos: Params, roas: Params, ctx: BidContext)
    requires Mirror(acos, roas) && WellFormed(acos, ctx) && ctx.spend > 0.0
    ensures !InMirrorGap(roas, ctx) ==> CalculateBid(ACoS, acos, ctx) == CalculateBid(ROAS, roas, ctx)
    ensures InMirrorGap(roas, ctx) ==> CalculateBid(ACoS, acos, ctx) == None
  {
    var pa, pr := Merged(acos), Merged(roas);
    assert Mirror(pa, pr);
    MirrorCalculators(pa, pr, ctx);
    var newBid := ApplyLimits(ctx.currentBid, RoasBid(pr, ctx), pr);
    assert newBid == ApplyLimits(ctx.currentBid, RoasBid(pr, ctx), pa);
    MirrorGuardrails(pa, pr, ctx, newBid);
  }

  /** The exact disagreement, for a bid in range: the gap, a raise that survives rounding, room, and no guardrail. */
  lemma MirrorsDisagreeIff(acos: Params, roas: Params, ctx: BidContext)
    requires Mirror(acos, roas) && WellFormed(acos, ctx) && ctx.spend > 0.0
    requires InRange(Merged(acos), ctx.currentBid)
    ensures var p := Merged(roas);
            CalculateBid(ACoS, acos, ctx) != CalculateBid(ROAS, roas, ctx)
            <==> && InMirrorGap(roas, ctx)
                 && RoasBid(p, ctx) > ctx.currentBid
                 && ctx.currentBid < p.maxBid
                 && !IncreaseBlocked(p, ctx, ApplyLimits(ctx.currentBid, RoasBid(p, ctx), p))
  {
    RoasMirrorsAcos(acos, roas, ctx);
    var p := Merged(roas);
    LimitsAreAClamp(p, ctx.currentBid, RoasBid(p, ctx));
    if p.maxChangePercent > 0.0 {
      MaxDeltaPositive(ctx.currentBid, p.maxChangePercent);
    }
    if InMirrorGap(roas, ctx) {
      GapNeverCuts(p, ctx);
    }
  }

  lemma GapNeverCuts(p: Params, ctx: BidContext)
    requires ctx.spend > 0.0 && ctx.currentBid > 0 && p.targetROAS > 0.0 && InMirrorGap(p, ctx)
    ensures RoasBid(p, ctx) == 0 || RoasBid(p, ctx) >= ctx.currentBid
  {
    var roas := ctx.revenue / ctx.spend;
    Quotient(roas, p.targetROAS, 1.0);
    var ratio := roas / p.targetROAS;
    ScaledSide(ctx.currentBid, if ratio > 1.3 then 1.3 else ratio);
  }
}
