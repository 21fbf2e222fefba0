/**
  Convergence of the anti-waste strategy: while a campaign keeps collecting clicks without
  revenue, successive runs drive the bid down to the configured minimum and leave it there.
*/
module AntiSlivStrategy {
  import opened Numeric
  import opened Strategy
  import opened BidEngine
  import opened BidEngineSafety

  ghost predicate Wasteful(ctx: BidContext) {
    ctx.revenue == 0.0 && ctx.spend >= 0.0 && ctx.clicks > 0
  }

  ghost predicate Armed(params: Params) {
    params.maxACoS > 0.0 && params.targetACoS >= 0.0 && Bounded(Merged(params))
  }

  /** One run: the engine sees this run's statistics and the bid the previous run left. */
  ghost function NextBid(params: Params, bid: int, ctx: BidContext): int
    requires Armed(params) && Wasteful(ctx) && bid >= 0
  {
    ResultingBid(AntiSliv, params, ctx.(currentBid := bid))
  }

  /** The cut is a real cut from four up; at three the steepest one rounds to zero. */
  lemma CutOfBid(bid: int, clicks: int)
    requires bid >= 0
    ensures bid >= 4 ==> 1 <= Scaled(bid, ReductionForWaste(clicks)) < bid
    ensures 0 <= bid <= 3 && clicks > 50 ==> Scaled(bid, ReductionForWaste(clicks)) == 0
  {
  }

  lemma StepFalls(params: Params, bid: int, ctx: BidContext)
    requires Armed(params) && Wasteful(ctx)
    requires InRange(Merged(params), bid) && Merged(params).minBid >= 3
    ensures bid > Merged(params).minBid ==> Merged(params).minBid <= NextBid(params, bid, ctx) < bid
    ensures bid == Merged(params).minBid ==> NextBid(params, bid, ctx) == bid
  {
    var p, c := Merged(params), ctx.(currentBid := bid);
    CutOfBid(bid, ctx.clicks);
    DirectionIsKept(AntiSliv, params, c);
    LimitsAreAClamp(p, bid, CalculatedBid(AntiSliv, p, c));
  }

  lemma StepStaysInRange(params: Params, bid: int, ctx: BidContext)
    requires Armed(params) && Wasteful(ctx) && InRange(Merged(params), bid)
    ensures InRange(Merged(params), NextBid(params, bid, ctx))
  {
    LimitsAreAClamp(Merged(params), bid, CalculatedBid(AntiSliv, Merged(params), ctx.(currentBid := bid)));
  }

  /** The bid after a sequence of runs. */
  ghost function BidAfter(params: Params, start: int, runs: seq<BidContext>): (bid: int)
    requires Armed(params) && InRange(Merged(params), start)
    requires forall c | c in runs :: Wasteful(c)
    ensures InRange(Merged(params), bid)
    decreases |runs|
  {
    if runs == [] then start
    else
      var before := BidAfter(params, start, runs[..|runs| - 1]);
      StepStaysInRange(params, before, runs[|runs| - 1]);
      NextBid(params, before, runs[|runs| - 1])
  }

  /**
    Whatever positive click counts the runs see, the bid loses at least one unit a run until it
    is exactly the minimum bid, where it stays.
  */
  lemma {:induction false} ConvergesToMinimum(params: Params, start: int, runs: seq<BidContext>)
    requires Armed(params) && InRange(Merged(params), start) && Merged(params).minBid >= 3
    requires forall c | c in runs :: Wasteful(c)
    ensures Merged(params).minBid <= BidAfter(params, start, runs) <= Max(Merged(params).minBid, start - |runs|)
    ensures |runs| >= start - Merged(params).minBid ==> BidAfter(params, start, runs) == Merged(params).minBid
    decreases |runs|
  {
    if runs != [] {
      var earlier := runs[..|runs| - 1];
      ConvergesToMinimum(params, start, earlier);
      StepFalls(params, BidAfter(params, start, earlier), runs[|runs| - 1]);
    }
  }

  /** Above a minimum of one or two, the next higher bid is never cut by busy runs. */
  lemma {:induction false} StuckAboveSmallMinimum(params: Params, runs: seq<BidContext>)
    requires Armed(params) && Merged(params).minBid < 3 && Merged(params).minBid < Merged(params).maxBid
    requires forall c | c in runs :: Wasteful(c) && c.clicks > 50
    ensures BidAfter(params, Merged(params).minBid + 1, runs) == Merged(params).minBid + 1
    decreases |runs|
  {
    if runs != [] {
      var bid, last := Merged(params).minBid + 1, runs[|runs| - 1];
      StuckAboveSmallMinimum(params, runs[..|runs| - 1]);
      CutOfBid(bid, last.clicks);
      assert AntiSlivBid(Merged(params), last.(currentBid := bid)) == 0;
    }
  }

  /** A range of one bid leaves nothing to move to. */
  lemma {:induction false} SingleBidStays(params: Params, start: int, runs: seq<BidContext>)
    requires Armed(params) && InRange(Merged(params), start) && Merged(params).minBid == Merged(params).maxBid
    requires forall c | c in runs :: Wasteful(c)
    ensures BidAfter(params, start, runs) == Merged(params).minBid
  {
  }

  /** Every wasteful sequence of at least `n` runs ends at the minimum bid. */
  ghost predicate ReachesMinimum(params: Params, start: int, n: nat)
    requires Armed(params) && InRange(Merged(params), start)
  {
    forall runs: seq<BidContext> | |runs| >= n && (forall c | c in runs :: Wasteful(c)) ::
      BidAfter(params, start, runs) == Merged(params).minBid
  }

  function Busy(): BidContext {
    BidContext(0, 0, 51, 0.0, 0.0, 0, None, 0.0, false, 0, 0.0, 0, false, true, 0, 0)
  }

  lemma NeverReaches(params: Params, n: nat)
    requires Armed(params) && Merged(params).minBid < 3 && Merged(params).minBid < Merged(params).maxBid
    ensures !ReachesMinimum(params, Merged(params).minBid + 1, n)
  {
    var runs := seq(n, _ => Busy());
    StuckAboveSmallMinimum(params, runs);
  }

  lemma ReachesInTime(params: Params, start: int) returns (n: nat)
    requires Armed(params) && InRange(Merged(params), start)
    requires Merged(params).minBid >= 3 || Merged(params).minBid == Merged(params).maxBid
    ensures n == start - Merged(params).minBid && ReachesMinimum(params, start, n)
  {
    n := start - Merged(params).minBid;
    forall runs: seq<BidContext> | |runs| >= n && (forall c | c in runs :: Wasteful(c))
      ensures BidAfter(params, start, runs) == Merged(params).minBid
    {
      if Merged(params).minBid >= 3 {
        ConvergesToMinimum(params, start, runs);
      } else {
        SingleBidStays(params, start, runs);
      }
    }
  }

  /**
    The exact threshold: from every start the bid is driven to the minimum if and only if the minimum is
    three or more, or the only bid there is.
  */
  lemma ConvergesIff(params: Params)
    requires Armed(params)
    ensures (forall start | InRange(Merged(params), start) :: exists n: nat :: ReachesMinimum(params, start, n))
            <==> Merged(params).minBid >= 3 || Merged(params).minBid == Merged(params).maxBid
  {
    var p := Merged(params);
    if p.minBid >= 3 || p.minBid == p.maxBid {
      forall start | InRange(p, start) ensures exists n: nat :: ReachesMinimum(params, start, n) {
        var n := ReachesInTime(params, start);
      }
    } else {
      var start := p.minBid + 1;
      assert InRange(p, start);
      forall n: nat ensures !ReachesMinimum(params, start, n) {
        NeverReaches(params, n);
      }
    }
  }

  /** With revenue the ratio that is applied to the bid lies between a fifth and one. */
  lemma AskedSide(p: Params, ctx: BidContext)
    requires WellFormed(p, ctx) && ctx.currentBid > 0
    ensures AntiSlivBid(p, ctx) <= ctx.currentBid
    ensures AntiSlivBid(p, ctx) != 0 ==>
              p.maxACoS > 0.0 && (if ctx.revenue == 0.0 then ctx.clicks > 0 else ctx.spend * 100.0 > p.maxACoS * ctx.revenue)
  {
    ScaledSide(ctx.currentBid, 0.2);
    ScaledSide(ctx.currentBid, ReductionForWaste(ctx.clicks));
    if p.maxACoS > 0.0 && ctx.revenue > 0.0 && Drr(ctx) > p.maxACoS {
      Quotient(p.maxACoS, Drr(ctx), 1.0);
      ScaledSide(ctx.currentBid, p.maxACoS / Drr(ctx));
      Quotient(ctx.spend, ctx.revenue, p.maxACoS / 100.0);
    }
  }

  /** The strategy only ever lowers a bid in range, and only for clicks without revenue or an ACoS above the limit. */
  lemma OnlyWasteIsCut(params: Params, ctx: BidContext)
    requires WellFormed(params, ctx) && InRange(Merged(params), ctx.currentBid)
    ensures ResultingBid(AntiSliv, params, ctx) <= ctx.currentBid
    ensures ResultingBid(AntiSliv, params, ctx) < ctx.currentBid ==>
              && params.maxACoS > 0.0
              && (if ctx.revenue == 0.0 then ctx.clicks > 0 else ctx.spend * 100.0 > params.maxACoS * ctx.revenue)
  {
    AskedSide(Merged(params), ctx);
    DirectionIsKept(AntiSliv, params, ctx);
  }

  /**
    What the calculator asks for: with clicks and no revenue half, three tenths or fifteen hundredths of the bid,
    the more clicks the less; with an ACoS above the limit the share that brings spend down to the limit, but no
    less than a fifth.
  */
  lemma AskedShare(p: Params, ctx: BidContext) returns (share: real)
    requires WellFormed(p, ctx) && p.maxACoS > 0.0
    requires if ctx.revenue == 0.0 then ctx.clicks > 0 else ctx.spend * 100.0 > p.maxACoS * ctx.revenue
    ensures AntiSlivBid(p, ctx) == Scaled(ctx.currentBid, share)
    ensures ctx.revenue == 0.0 ==> share == (if ctx.clicks <= 20 then 0.5 else if ctx.clicks <= 50 then 0.3 else 0.15)
    ensures ctx.revenue > 0.0 ==>
              && 0.2 <= share < 1.0
              && (p.maxACoS * ctx.revenue >= 0.2 * (ctx.spend * 100.0) ==> share * (ctx.spend * 100.0) == p.maxACoS * ctx.revenue)
              && (p.maxACoS * ctx.revenue < 0.2 * (ctx.spend * 100.0) ==> share == 0.2)
  {
    if ctx.revenue == 0.0 {
      share := if ctx.clicks <= 20 then 0.5 else if ctx.clicks <= 50 then 0.3 else 0.15;
    } else {
      share := ShareOfAcos(p.maxACoS, ctx.spend, ctx.revenue);
      BelowAfterScaling(ctx.spend, ctx.revenue, p.maxACoS);
      DearerThan(p.maxACoS, ctx.spend, ctx.revenue);
    }
  }

  lemma DearerThan(limit: real, spend: real, revenue: real)
    requires revenue > 0.0
    ensures spend / revenue * 100.0 > limit <==> spend * 100.0 > limit * revenue
  {
    Quotient(spend, revenue, limit / 100.0);
  }

  lemma ShareOfAcos(limit: real, spend: real, revenue: real) returns (share: real)
    requires limit > 0.0 && revenue > 0.0 && spend * 100.0 > limit * revenue
    ensures var ratio := limit / (spend / revenue * 100.0); share == if ratio < 0.2 then 0.2 else ratio
    ensures 0.2 <= share < 1.0
    ensures limit * revenue >= 0.2 * (spend * 100.0) ==> share * (spend * 100.0) == limit * revenue
    ensures limit * revenue < 0.2 * (spend * 100.0) ==> share == 0.2
  {
    var acos := spend / revenue * 100.0;
    DearerThan(limit, spend, revenue);
    assert acos * revenue == spend * 100.0 by {
      Quotient(spend, revenue, acos / 100.0);
    }
    var ratio := limit / acos;
    assert ratio * acos == limit;
    assert ratio * (spend * 100.0) == limit * revenue by {
      Associate(ratio, acos, revenue);
    }
    Quotient(limit, acos, 1.0);
    assert limit * revenue > 0.0;
    Cancel(ratio, 0.2, spend * 100.0);
    share := if ratio < 0.2 then 0.2 else ratio;
  }
}
