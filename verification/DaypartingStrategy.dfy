/**
  Dayparting over whole sequences of runs (internal/service/bid_automation.go, the persisted
  dayparting state; internal/service/bidengine.go, the dayparting calculator). Each slot scales
  the remembered baseline, never the bid an earlier slot left, so multipliers do not compound.
*/
module DaypartingStrategy {
  import opened Numeric
  import opened Strategy
  import opened BidEngine
  import opened BidEngineSafety

  datatype SavedState = SavedState(baselineBid: int, lastTargetBid: int, lastSlot: int)
  datatype RunState = RunState(baselineBid: int, slotApplied: bool)

  /** The bid at the marketplace and the row kept for this strategy, campaign and placement. */
  datatype World = World(bid: int, saved: Option<SavedState>)

  /** One run: its slot, the statistics it sees, and whether the write and the save went through. */
  datatype Run = Run(slot: int, stats: BidContext, written: bool, saveSucceeds: bool)

  function LoadRunState(saved: Option<SavedState>, currentBid: int, slot: int): RunState {
    match saved
    case None => RunState(currentBid, false)
    case Some(s) =>
      if s.lastSlot == slot then RunState(s.baselineBid, true)
      else if s.lastTargetBid == currentBid then RunState(s.baselineBid, false)
      else RunState(currentBid, false)
  }

  function ContextOf(w: World, run: Run): BidContext {
    var state := LoadRunState(w.saved, w.bid, run.slot);
    run.stats.(currentBid := w.bid,
               daypartingBaselineBid := state.baselineBid,
               daypartingSlotApplied := state.slotApplied)
  }

  ghost predicate Runnable(params: Params, w: World, run: Run) {
    WellFormed(params, ContextOf(w, run))
  }

  function Proposed(params: Params, w: World, run: Run): Option<Decision>
    requires Runnable(params, w, run)
  {
    CalculateBid(Dayparting, params, ContextOf(w, run))
  }

  function Step(params: Params, w: World, run: Run): World
    requires Runnable(params, w, run)
  {
    match Proposed(params, w, run)
    case None => w
    case Some(d) =>
      if !run.written then w
      else World(d.newBid,
                 if run.saveSucceeds
                 then Some(SavedState(LoadRunState(w.saved, w.bid, run.slot).baselineBid, d.newBid, run.slot))
                 else w.saved)
  }

  ghost predicate Usable(params: Params, runs: seq<Run>) {
    && params.targetACoS >= 0.0
    && params.maxACoS >= 0.0
    && Bounded(Merged(params))
    && (forall r | r in runs :: r.stats.spend >= 0.0 && r.stats.revenue >= 0.0)
  }

  /** The two states a campaign can be in while nobody else touches its bid. */
  ghost predicate Anchored(w: World, first: int) {
    match w.saved
    case None => w.bid == first
    case Some(s) => s.baselineBid == first && s.lastTargetBid == w.bid
  }

  ghost function WorldAfter(params: Params, first: int, runs: seq<Run>): (w: World)
    requires Usable(params, runs) && InRange(Merged(params), first)
    ensures InRange(Merged(params), w.bid)
    decreases |runs|
  {
    if runs == [] then World(first, None)
    else
      var before := WorldAfter(params, first, runs[..|runs| - 1]);
      StepStaysInRange(params, before, runs[|runs| - 1]);
      Step(params, before, runs[|runs| - 1])
  }

  lemma StepStaysInRange(params: Params, w: World, run: Run)
    requires Runnable(params, w, run) && InRange(Merged(params), w.bid)
    ensures InRange(Merged(params), Step(params, w, run).bid)
  {
    var p := Merged(params);
    LimitsAreAClamp(p, w.bid, DaypartingBid(p, ContextOf(w, run)));
  }

  // ------------------------------------------------------------------ baseline

  /** Run `i` changed the bid. */
  ghost predicate Applies(params: Params, first: int, runs: seq<Run>, i: nat)
    requires Usable(params, runs) && InRange(Merged(params), first) && i < |runs|
  {
    runs[i].written && Proposed(params, WorldAfter(params, first, runs[..i]), runs[i]).Some?
  }

  /** Of the first `n` runs, those that changed the bid saved their state. */
  ghost predicate Saved(params: Params, first: int, runs: seq<Run>, n: nat)
    requires Usable(params, runs) && InRange(Merged(params), first) && n <= |runs|
  {
    forall i: nat | i < n && Applies(params, first, runs, i) :: runs[i].saveSucceeds
  }

  lemma WorldNext(params: Params, first: int, runs: seq<Run>, n: nat)
    requires Usable(params, runs) && InRange(Merged(params), first) && n < |runs|
    ensures Runnable(params, WorldAfter(params, first, runs[..n]), runs[n])
    ensures WorldAfter(params, first, runs[..n + 1]) == Step(params, WorldAfter(params, first, runs[..n]), runs[n])
  {
    assert runs[..n + 1][..n] == runs[..n];
  }

  /** A run that finds the baseline in place leaves it so exactly if it changed nothing or saved what it changed. */
  lemma StepKeepsAnchorIff(params: Params, first: int, w: World, run: Run)
    requires Runnable(params, w, run) && Anchored(w, first)
    ensures Anchored(Step(params, w, run), first) <==>
              !(run.written && Proposed(params, w, run).Some?) || run.saveSucceeds
  {
    if Proposed(params, w, run).Some? {
      DecisionChangesBid(Dayparting, params, ContextOf(w, run));
    }
  }

  lemma {:induction false} SavedRunsStayAnchored(params: Params, first: int, runs: seq<Run>, n: nat)
    requires Usable(params, runs) && InRange(Merged(params), first) && n <= |runs| && Saved(params, first, runs, n)
    ensures Anchored(WorldAfter(params, first, runs[..n]), first)
    decreases n
  {
    if n > 0 {
      SavedRunsStayAnchored(params, first, runs, n - 1);
      WorldNext(params, first, runs, n - 1);
      StepKeepsAnchorIff(params, first, WorldAfter(params, first, runs[..n - 1]), runs[n - 1]);
      assert Applies(params, first, runs, n - 1) ==> runs[n - 1].saveSucceeds;
    } else {
      assert runs[..0] == [];
    }
  }

  /**
    Over every sequence of runs the baseline stays the first bid throughout if and only if every run that
    changed the bid saved its state.
  */
  lemma BaselineKeptIff(params: Params, first: int, runs: seq<Run>)
    requires Usable(params, runs) && InRange(Merged(params), first)
    ensures (forall n: nat | n <= |runs| :: Anchored(WorldAfter(params, first, runs[..n]), first))
            <==> Saved(params, first, runs, |runs|)
  {
    if Saved(params, first, runs, |runs|) {
      forall n: nat | n <= |runs| ensures Anchored(WorldAfter(params, first, runs[..n]), first) {
        SavedRunsStayAnchored(params, first, runs, n);
      }
    }
    if forall n: nat | n <= |runs| :: Anchored(WorldAfter(params, first, runs[..n]), first) {
      forall i: nat | i < |runs| && Applies(params, first, runs, i) ensures runs[i].saveSucceeds {
        assert Anchored(WorldAfter(params, first, runs[..i + 1]), first);
        WorldNext(params, first, runs, i);
        StepKeepsAnchorIff(params, first, WorldAfter(params, first, runs[..i]), runs[i]);
      }
    }
  }

  /** The baseline every later slot scales is the first bid. */
  lemma BaselineStaysFirstBid(params: Params, first: int, runs: seq<Run>)
    requires Usable(params, runs) && InRange(Merged(params), first) && Saved(params, first, runs, |runs|)
    ensures var w := WorldAfter(params, first, runs);
            Anchored(w, first) && forall slot :: LoadRunState(w.saved, w.bid, slot).baselineBid == first
  {
    SavedRunsStayAnchored(params, first, runs, |runs|);
    assert runs[..|runs|] == runs;
  }

  // ---------------------------------------------------------------------- band

  ghost predicate MultipliersWithin(params: Params, runs: seq<Run>, low: real, high: real) {
    forall r | r in runs :: low <= Multiplier(Merged(params), r.stats.hour, r.stats.weekday) <= high
  }

  ghost function Target(p: Params, first: int, multiplier: real): int
    requires Bounded(p)
  {
    Clamp(p.minBid, p.maxBid, Scaled(first, multiplier))
  }

  ghost predicate InBand(p: Params, first: int, low: real, high: real, bid: int)
    requires Bounded(p)
  {
    Min(first, Target(p, first, low)) <= bid <= Max(first, Target(p, first, high))
  }

  lemma StepStaysInBand(params: Params, first: int, w: World, run: Run, low: real, high: real)
    requires Runnable(params, w, run) && InRange(Merged(params), first) && InRange(Merged(params), w.bid)
    requires Anchored(w, first) && InBand(Merged(params), first, low, high, w.bid)
    requires low <= Multiplier(Merged(params), run.stats.hour, run.stats.weekday) <= high
    ensures InBand(Merged(params), first, low, high, Step(params, w, run).bid)
  {
    var p := Merged(params);
    var m := Multiplier(p, run.stats.hour, run.stats.weekday);
    ScaledMonotone(first, low, m);
    ScaledMonotone(first, m, high);
    LimitsAreAClamp(p, w.bid, Scaled(first, m));
  }

  /**
    Over any sequence of runs the bid stays between the clamped extreme targets of the first bid, up to and
    including a last run whose save is lost.
  */
  lemma {:induction false} BidStaysInBand(params: Params, first: int, runs: seq<Run>, n: nat, low: real, high: real)
    requires Usable(params, runs) && InRange(Merged(params), first) && n <= |runs|
    requires n > 0 ==> Saved(params, first, runs, n - 1)
    requires MultipliersWithin(params, runs, low, high) && low <= high
    ensures InBand(Merged(params), first, low, high, WorldAfter(params, first, runs[..n]).bid)
    decreases n
  {
    if n > 0 {
      BidStaysInBand(params, first, runs, n - 1, low, high);
      SavedRunsStayAnchored(params, first, runs, n - 1);
      WorldNext(params, first, runs, n - 1);
      StepStaysInBand(params, first, WorldAfter(params, first, runs[..n - 1]), runs[n - 1], low, high);
    } else {
      assert runs[..0] == [];
    }
  }

  /** The bid, and the baseline that is remembered for it, on one side of the first bid. */
  ghost predicate OnOneSide(w: World, first: int, below: bool) {
    && (if below then w.bid <= first else w.bid >= first)
    && (w.saved.Some? ==> if below then 0 <= w.saved.value.baselineBid <= first else w.saved.value.baselineBid >= first)
  }

  lemma StepStaysOnOneSide(params: Params, first: int, w: World, run: Run, below: bool)
    requires Runnable(params, w, run) && InRange(Merged(params), first) && InRange(Merged(params), w.bid)
    requires OnOneSide(w, first, below)
    requires var m := Multiplier(Merged(params), run.stats.hour, run.stats.weekday); if below then m <= 1.0 else m >= 1.0
    ensures OnOneSide(Step(params, w, run), first, below)
  {
    var p, ctx := Merged(params), ContextOf(w, run);
    var m := Multiplier(p, run.stats.hour, run.stats.weekday);
    var baseline := if ctx.daypartingBaselineBid <= 0 then w.bid else ctx.daypartingBaselineBid;
    ScaledSide(baseline, m);
    LimitsAreAClamp(p, w.bid, DaypartingBid(p, ctx));
  }

  /** Whatever saves are lost: multipliers of at most one never lift the bid above the first, and of at least one never push it below. */
  lemma {:induction false} OneSidedEvenWithLostSaves(params: Params, first: int, runs: seq<Run>, n: nat, below: bool)
    requires Usable(params, runs) && InRange(Merged(params), first) && n <= |runs|
    requires forall r | r in runs ::
               var m := Multiplier(Merged(params), r.stats.hour, r.stats.weekday); if below then m <= 1.0 else m >= 1.0
    ensures OnOneSide(WorldAfter(params, first, runs[..n]), first, below)
    decreases n
  {
    if n > 0 {
      OneSidedEvenWithLostSaves(params, first, runs, n - 1, below);
      WorldNext(params, first, runs, n - 1);
      StepStaysOnOneSide(params, first, WorldAfter(params, first, runs[..n - 1]), runs[n - 1], below);
    } else {
      assert runs[..0] == [];
    }
  }

  // --------------------------------------------------------------------- slots

  ghost predicate SlotsAdvance(runs: seq<Run>) {
    forall i, j | 0 <= i <= j < |runs| :: runs[i].slot <= runs[j].slot
  }

  lemma {:induction false} LastSlotIsRemembered(params: Params, first: int, runs: seq<Run>, i: nat, j: nat)
    requires Usable(params, runs) && InRange(Merged(params), first) && Saved(params, first, runs, |runs|)
    requires SlotsAdvance(runs) && i < j <= |runs| && Applies(params, first, runs, i)
    ensures var saved := WorldAfter(params, first, runs[..j]).saved;
            saved.Some? && runs[i].slot <= saved.value.lastSlot <= runs[j - 1].slot
    decreases j
  {
    assert runs[..j][..j - 1] == runs[..j - 1];
    if i < j - 1 {
      LastSlotIsRemembered(params, first, runs, i, j - 1);
    }
  }

  /** A slot changes the bid at most once, however many runs fall into it. */
  lemma SlotAppliesOnce(params: Params, first: int, runs: seq<Run>, i: nat, j: nat)
    requires Usable(params, runs) && InRange(Merged(params), first) && Saved(params, first, runs, |runs|)
    requires SlotsAdvance(runs) && i < j < |runs|
    requires Applies(params, first, runs, i) && Applies(params, first, runs, j)
    ensures runs[i].slot < runs[j].slot
  {
    LastSlotIsRemembered(params, first, runs, i, j);
    var w := WorldAfter(params, first, runs[..j]);
    assert w.saved.value.lastSlot != runs[j].slot;
  }

  // ----------------------------------------------------------------- exception

  /** If a save is lost, the next slot takes the scaled bid for the baseline and multipliers do compound. */
  lemma LostSaveCompounds(params: Params, r: Run)
    requires params.minBid == 50 && params.maxBid == 5000 && params.maxChangePercent == 100.0
    requires params.baseMultiplier == 1.5 && params.hourlyMultipliers == map[] && params.weekdayMultipliers == map[]
    requires params.targetACoS == 0.0 && params.maxACoS == 0.0 && params.maxCPC == 0.0 && params.maxCPO == 0.0
    requires r.slot == 1 && r.written && !r.saveSucceeds
    requires r.stats.zoneKnown && r.stats.guardrail.None? && r.stats.spend == 0.0 && r.stats.revenue == 0.0
    ensures var runs := [r, r.(slot := 2)];
            && Usable(params, runs) && MultipliersWithin(params, runs, 1.5, 1.5)
            && WorldAfter(params, 100, runs).bid == 225
            && !InBand(Merged(params), 100, 1.5, 1.5, 225)
  {
    var p, runs := Merged(params), [r, r.(slot := 2)];
    assert Multiplier(p, r.stats.hour, r.stats.weekday) == 1.5;
    assert MaxDelta(100, 100.0) == 100 && MaxDelta(150, 100.0) == 150;
    assert Scaled(100, 1.5) == 150 && Scaled(150, 1.5) == 225;
    assert runs[..1][..0] == [] && runs[..1] == [r];
    assert WorldAfter(params, 100, []) == World(100, None);
    assert WorldAfter(params, 100, [r]) == Step(params, World(100, None), r) == World(150, None);
    assert WorldAfter(params, 100, runs) == Step(params, World(150, None), r.(slot := 2));
  }

  // ------------------------------------------------------------------- the two tables

  lemma SettleIgnoresTables(p1: Params, p2: Params, ctx: BidContext, calculated: int)
    requires p2 == p1.(baseMultiplier := p2.baseMultiplier, hourlyMultipliers := p2.hourlyMultipliers,
                       weekdayMultipliers := p2.weekdayMultipliers)
    ensures Settle(p1, ctx, calculated) == Settle(p2, ctx, calculated)
  {
  }

  /** Parameters that differ in their multipliers only, and give the same one now, decide the same. */
  lemma SameMultiplierSameDecision(p1: Params, p2: Params, ctx: BidContext)
    requires WellFormed(p1, ctx) && WellFormed(p2, ctx)
    requires p2 == p1.(baseMultiplier := p2.baseMultiplier, hourlyMultipliers := p2.hourlyMultipliers,
                       weekdayMultipliers := p2.weekdayMultipliers)
    requires Multiplier(Merged(p1), ctx.hour, ctx.weekday) == Multiplier(Merged(p2), ctx.hour, ctx.weekday)
    ensures CalculateBid(Dayparting, p1, ctx) == CalculateBid(Dayparting, p2, ctx)
  {
    hide Settle, Multiplier;
    SettleIgnoresTables(Merged(p1), Merged(p2), ctx, DaypartingBid(Merged(p1), ctx));
  }

  /** Entries for other hours and for other weekdays do not matter now. */
  lemma OtherEntriesAreSilent(params: Params, ctx: BidContext, hours: map<int, real>, weekdays: map<int, real>)
    requires WellFormed(params, ctx)
    requires ctx.hour in hours <==> ctx.hour in params.hourlyMultipliers
    requires ctx.hour in hours ==> hours[ctx.hour] == params.hourlyMultipliers[ctx.hour]
    requires ctx.weekday in weekdays <==> ctx.weekday in params.weekdayMultipliers
    requires ctx.weekday in weekdays ==> weekdays[ctx.weekday] == params.weekdayMultipliers[ctx.weekday]
    ensures CalculateBid(Dayparting, params.(hourlyMultipliers := hours, weekdayMultipliers := weekdays), ctx)
         == CalculateBid(Dayparting, params, ctx)
  {
    hide CalculateBid;
    SameMultiplierSameDecision(params, params.(hourlyMultipliers := hours, weekdayMultipliers := weekdays), ctx);
  }

  /** The entry of the current hour is a factor on the base multiplier. */
  lemma HourIsFactor(params: Params, ctx: BidContext, m: real)
    requires WellFormed(params, ctx) && params.baseMultiplier != 0.0 && m != 0.0
    ensures CalculateBid(Dayparting, params.(hourlyMultipliers := params.hourlyMultipliers[ctx.hour := m]), ctx)
         == CalculateBid(Dayparting, params.(hourlyMultipliers := params.hourlyMultipliers - {ctx.hour},
                                             baseMultiplier := params.baseMultiplier * m), ctx)
  {
    hide CalculateBid;
    SameMultiplierSameDecision(params.(hourlyMultipliers := params.hourlyMultipliers[ctx.hour := m]),
                               params.(hourlyMultipliers := params.hourlyMultipliers - {ctx.hour},
                                       baseMultiplier := params.baseMultiplier * m), ctx);
  }

  /** And so is the entry of the current weekday. */
  lemma WeekdayIsFactor(params: Params, ctx: BidContext, m: real)
    requires WellFormed(params, ctx) && params.baseMultiplier != 0.0 && m != 0.0
    ensures CalculateBid(Dayparting, params.(weekdayMultipliers := params.weekdayMultipliers[ctx.weekday := m]), ctx)
         == CalculateBid(Dayparting, params.(weekdayMultipliers := params.weekdayMultipliers - {ctx.weekday},
                                             baseMultiplier := params.baseMultiplier * m), ctx)
  {
    hide CalculateBid;
    var h := if ctx.hour in params.hourlyMultipliers then params.hourlyMultipliers[ctx.hour] else 1.0;
    assert params.baseMultiplier * h * m == params.baseMultiplier * m * h by {
      Associate(params.baseMultiplier, h, m);
      Associate(params.baseMultiplier, m, h);
    }
    SameMultiplierSameDecision(params.(weekdayMultipliers := params.weekdayMultipliers[ctx.weekday := m]),
                               params.(weekdayMultipliers := params.weekdayMultipliers - {ctx.weekday},
                                       baseMultiplier := params.baseMultiplier * m), ctx);
  }

  /** With both tables empty the base multiplier scales the baseline, and that is the bid if the limits allow it. */
  lemma BaseScalesBaseline(params: Params, ctx: BidContext)
    requires WellFormed(params, ctx) && InRange(Merged(params), ctx.currentBid) && params.baseMultiplier > 0.0
    requires params.hourlyMultipliers == map[] && params.weekdayMultipliers == map[]
    requires ctx.zoneKnown && !ctx.daypartingSlotApplied && ctx.daypartingBaselineBid > 0
    ensures var p := Merged(params); var target := Scaled(ctx.daypartingBaselineBid, params.baseMultiplier);
            var d := CalculateBid(Dayparting, params, ctx);
            && (target == ctx.currentBid || target == 0 ==> d.None?)
            && (target != 0 && Lowest(p, ctx.currentBid) <= target < ctx.currentBid ==> d == Some(Decision(ctx.currentBid, target)))
            && (d.Some? && ctx.currentBid < target <= Highest(p, ctx.currentBid) ==> d.value.newBid == target)
  {
    var p := Merged(params);
    AsksForBase(p, ctx);
    hide IncreaseBlocked, DaypartingBid, Scaled, MaxDelta;
    LimitsAreAClamp(p, ctx.currentBid, Scaled(ctx.daypartingBaselineBid, params.baseMultiplier));
  }

  lemma AsksForBase(p: Params, ctx: BidContext)
    requires p.hourlyMultipliers == map[] && p.weekdayMultipliers == map[]
    requires ctx.zoneKnown && !ctx.daypartingSlotApplied && ctx.daypartingBaselineBid > 0
    ensures var target := Scaled(ctx.daypartingBaselineBid, p.baseMultiplier);
            DaypartingBid(p, ctx) == if target == ctx.currentBid then 0 else target
  {
    hide Scaled;
    assert Multiplier(p, ctx.hour, ctx.weekday) == p.baseMultiplier;
  }

  // -------------------------------------------------------------- a bid changed by others

  /**
    If somebody else has changed the bid, the next slot forgets the remembered baseline and runs as if nothing had
    been saved, from the bid it finds; if nobody has, it scales the remembered baseline.
  */
  lemma ForeignBidRestarts(params: Params, bid: int, saved: SavedState, run: Run)
    requires Runnable(params, World(bid, Some(saved)), run) && saved.lastSlot != run.slot
    ensures saved.lastTargetBid != bid ==>
              && Proposed(params, World(bid, Some(saved)), run) == Proposed(params, World(bid, None), run)
              && (run.saveSucceeds && run.written && Proposed(params, World(bid, None), run).Some? ==>
                    Step(params, World(bid, Some(saved)), run) == Step(params, World(bid, None), run))
    ensures saved.lastTargetBid == bid ==> ContextOf(World(bid, Some(saved)), run).daypartingBaselineBid == saved.baselineBid
  {
    hide CalculateBid;
  }

  /** Without a time zone, and in a slot that has been applied, nothing is decided. */
  lemma NoSlotNoDecision(params: Params, ctx: BidContext)
    requires WellFormed(params, ctx) && (!ctx.zoneKnown || ctx.daypartingSlotApplied)
    ensures CalculateBid(Dayparting, params, ctx).None?
  {
  }
}
