/**
  Advertising metrics over a period (internal/service/ads_read_metrics.go): counters summed over the
  days of a range, over the campaigns of a workspace, and the position averaged by weight.
  Days are numbered; a range includes both of its ends.
*/
module Metrics {
  import opened Numeric

  datatype CampaignStat = CampaignStat(
    day: int, impressions: int, clicks: int, spend: int,
    orders: Option<int>, revenue: Option<int>, atbs: Option<int>, canceled: Option<int>, shks: Option<int>
  )

  datatype Counters = Counters(
    impressions: int, clicks: int, spend: int, orders: int, revenue: int, atbs: int, canceled: int, shks: int
  )

  const NOTHING := Counters(0, 0, 0, 0, 0, 0, 0, 0)

  function OrZero(x: Option<int>): int {
    match x case None => 0 case Some(v) => v
  }

  function Plus(a: Counters, b: Counters): Counters {
    Counters(a.impressions + b.impressions, a.clicks + b.clicks, a.spend + b.spend, a.orders + b.orders,
             a.revenue + b.revenue, a.atbs + b.atbs, a.canceled + b.canceled, a.shks + b.shks)
  }

  function CountersOf(s: CampaignStat): Counters {
    Counters(s.impressions, s.clicks, s.spend, OrZero(s.orders), OrZero(s.revenue), OrZero(s.atbs),
             OrZero(s.canceled), OrZero(s.shks))
  }

  lemma NothingAdded(a: Counters)
    ensures Plus(a, NOTHING) == a == Plus(NOTHING, a)
  {
  }

  lemma Associates(a: Counters, b: Counters, c: Counters)
    ensures Plus(Plus(a, b), c) == Plus(a, Plus(b, c))
  {
  }

  lemma Commutes(a: Counters, b: Counters)
    ensures Plus(a, b) == Plus(b, a)
  {
  }

  lemma Interchange(a: Counters, b: Counters, c: Counters, d: Counters)
    ensures Plus(Plus(a, b), Plus(c, d)) == Plus(Plus(a, c), Plus(b, d))
  {
  }

  predicate InRange(day: int, from: int, to: int) {
    from <= day <= to
  }

  // ---------------------------------------------------------------------- the ratios

  datatype Ratios = Ratios(
    ctr: real, cpm: real, cpc: real, conversionRate: real, cpo: real, roas: real, drr: real, cartRate: real
  )

  const NO_RATIOS := Ratios(0.0, 0.0, 0.0, 0.0, 0.0, 0.0, 0.0, 0.0)

  /** Counters with what is derived from them; without data the summary is not exact but unavailable. */
  datatype Summary = Summary(counters: Counters, ratios: Ratios, exact: bool)

  /** A quotient, or zero where the divisor is not positive. */
  function Over(x: int, d: int): real {
    if d > 0 then x as real / d as real else 0.0
  }

  function RatiosOf(c: Counters): Ratios {
    Ratios(Over(c.clicks, c.impressions), Over(c.spend, c.impressions) * 1000.0, Over(c.spend, c.clicks),
           Over(c.orders, c.clicks), Over(c.spend, c.orders), Over(c.revenue, c.spend), Over(c.spend, c.revenue) * 100.0,
           if c.atbs > 0 then Over(c.atbs, c.clicks) else 0.0)
  }

  function Finalized(c: Counters): Summary {
    Summary(c, RatiosOf(c), true)
  }

  lemma OverTimes(x: int, d: int)
    requires d > 0
    ensures Over(x, d) * d as real == x as real
  {
  }

  /** Two quotients in a row are the quotient of the ends. */
  lemma OverChains(x: int, y: int, z: int)
    requires y > 0 && z > 0
    ensures Over(x, y) * Over(y, z) == Over(x, z)
  {
    var a, b := Over(x, y), Over(y, z);
    OverTimes(x, y);
    OverTimes(y, z);
    assert a * b * z as real == x as real by {
      Associate(a, b, z as real);
    }
    Quotient(x as real, z as real, a * b);
  }

  /** The derived figures fit together: a click costs an order's cost times its chance, and DRR mirrors ROAS. */
  lemma RatiosFitTogether(c: Counters)
    ensures var r := RatiosOf(c);
            && (c.spend > 0 && c.revenue > 0 ==> r.drr * r.roas == 100.0)
            && (c.orders > 0 && c.clicks > 0 ==> r.cpo * r.conversionRate == r.cpc)
            && (c.clicks > 0 && c.impressions > 0 ==> r.cpc * r.ctr * 1000.0 == r.cpm)
  {
    if c.spend > 0 && c.revenue > 0 {
      OverChains(c.spend, c.revenue, c.spend);
      Quotient(c.spend as real, c.spend as real, 1.0);
    }
    if c.orders > 0 && c.clicks > 0 {
      OverChains(c.spend, c.orders, c.clicks);
    }
    if c.clicks > 0 && c.impressions > 0 {
      OverChains(c.spend, c.clicks, c.impressions);
    }
  }

  // ------------------------------------------------------------------ one campaign

  function RangeTotal(stats: seq<CampaignStat>, from: int, to: int): Counters {
    if stats == [] then NOTHING
    else
      var s := stats[|stats| - 1];
      Plus(RangeTotal(stats[..|stats| - 1], from, to), if InRange(s.day, from, to) then CountersOf(s) else NOTHING)
  }

  method AddStat(counters: Counters, s: CampaignStat) returns (result: Counters)
    ensures result == Plus(counters, CountersOf(s))
  {
    result := counters.(impressions := counters.impressions + s.impressions, clicks := counters.clicks + s.clicks,
                        spend := counters.spend + s.spend, orders := counters.orders + OrZero(s.orders),
                        revenue := counters.revenue + OrZero(s.revenue), atbs := counters.atbs + OrZero(s.atbs),
                        canceled := counters.canceled + OrZero(s.canceled), shks := counters.shks + OrZero(s.shks));
  }

  ghost predicate SomeDayInRange(stats: seq<CampaignStat>, from: int, to: int) {
    exists i | 0 <= i < |stats| :: InRange(stats[i].day, from, to)
  }

  /** Without a row in the range nothing is counted, and the summary is unavailable rather than exact. */
  method AggregateCampaignStats(stats: seq<CampaignStat>, from: int, to: int) returns (summary: Summary)
    ensures summary.counters == RangeTotal(stats, from, to)
    ensures summary.exact <==> SomeDayInRange(stats, from, to)
    ensures summary.ratios == if summary.exact then RatiosOf(summary.counters) else NO_RATIOS
  {
    hide Plus, RatiosOf;
    var result, matched := NOTHING, false;
    for i := 0 to |stats|
      invariant result == RangeTotal(stats[..i], from, to)
      invariant matched <==> exists j | 0 <= j < i :: InRange(stats[j].day, from, to)
      invariant !matched ==> result == NOTHING
    {
      assert stats[..i + 1][..i] == stats[..i];
      var s := stats[i];
      if !InRange(s.day, from, to) {
        NothingAdded(result);
        continue;
      }
      matched := true;
      result := AddStat(result, s);
    }
    assert stats[..|stats|] == stats;
    summary := if matched then Finalized(result) else Summary(NOTHING, NO_RATIOS, false);
  }

  /** A range split between any two of its days: the parts add up to the whole. */
  lemma {:induction false} SplitAddsUp(stats: seq<CampaignStat>, from: int, last: int, to: int)
    requires from - 1 <= last <= to
    ensures RangeTotal(stats, from, to) == Plus(RangeTotal(stats, from, last), RangeTotal(stats, last + 1, to))
    decreases |stats|
  {
    hide Plus, CountersOf;
    if stats == [] {
      NothingAdded(NOTHING);
    } else {
      var n := |stats| - 1;
      SplitAddsUp(stats[..n], from, last, to);
      var x := CountersOf(stats[n]);
      NothingAdded(x);
      NothingAdded(NOTHING);
      Interchange(RangeTotal(stats[..n], from, last), RangeTotal(stats[..n], last + 1, to),
                  if InRange(stats[n].day, from, last) then x else NOTHING,
                  if InRange(stats[n].day, last + 1, to) then x else NOTHING);
    }
  }

  // --------------------------------------------------------------------- a workspace

  /** The sum over all campaigns, in no order. */
  ghost function WorkspaceTotal(campaigns: map<nat, seq<CampaignStat>>, from: int, to: int): Counters
    decreases |campaigns|
  {
    if campaigns == map[] then NOTHING
    else
      var c :| c in campaigns;
      Plus(RangeTotal(campaigns[c], from, to), WorkspaceTotal(campaigns - {c}, from, to))
  }

  lemma {:induction false} AnyCampaignFirst(campaigns: map<nat, seq<CampaignStat>>, c: nat, from: int, to: int)
    requires c in campaigns
    ensures WorkspaceTotal(campaigns, from, to)
         == Plus(RangeTotal(campaigns[c], from, to), WorkspaceTotal(campaigns - {c}, from, to))
    decreases |campaigns|
  {
    hide Plus, RangeTotal;
    var d :| d in campaigns && WorkspaceTotal(campaigns, from, to)
                               == Plus(RangeTotal(campaigns[d], from, to), WorkspaceTotal(campaigns - {d}, from, to));
    if d != c {
      var a, b := campaigns - {d}, campaigns - {c};
      AnyCampaignFirst(a, c, from, to);
      AnyCampaignFirst(b, d, from, to);
      assert a - {c} == b - {d};
      var x, y := RangeTotal(campaigns[c], from, to), RangeTotal(campaigns[d], from, to);
      var rest := WorkspaceTotal(a - {c}, from, to);
      assert WorkspaceTotal(a, from, to) == Plus(x, rest) && WorkspaceTotal(b, from, to) == Plus(y, rest);
      Associates(x, y, rest);
      Associates(y, x, rest);
      Commutes(x, y);
    }
  }

  /** The campaigns come in an arbitrary order; the totals do not depend on it. */
  method AggregateWorkspaceMetrics(campaigns: map<nat, seq<CampaignStat>>, from: int, to: int) returns (summary: Summary)
    ensures summary == Finalized(WorkspaceTotal(campaigns, from, to))
  {
    hide Plus, RangeTotal, RatiosOf;
    var result := NOTHING;
    var remaining := campaigns;
    NothingAdded(WorkspaceTotal(campaigns, from, to));
    while remaining != map[]
      invariant Plus(result, WorkspaceTotal(remaining, from, to)) == WorkspaceTotal(campaigns, from, to)
      decreases |remaining|
    {
      var c :| c in remaining;
      var campaign := AggregateCampaignStats(remaining[c], from, to);
      AnyCampaignFirst(remaining, c, from, to);
      Associates(result, campaign.counters, WorkspaceTotal(remaining - {c}, from, to));
      result := Plus(result, campaign.counters);
      remaining := remaining - {c};
    }
    NothingAdded(result);
    summary := Finalized(result);
  }

  /** Workspace totals split like campaign totals. */
  lemma {:induction false} WorkspaceSplitAddsUp(campaigns: map<nat, seq<CampaignStat>>, from: int, last: int, to: int)
    requires from - 1 <= last <= to
    ensures WorkspaceTotal(campaigns, from, to)
         == Plus(WorkspaceTotal(campaigns, from, last), WorkspaceTotal(campaigns, last + 1, to))
    decreases |campaigns|
  {
    hide Plus, RangeTotal;
    if campaigns == map[] {
      NothingAdded(NOTHING);
    } else {
      var c :| c in campaigns;
      AnyCampaignFirst(campaigns, c, from, to);
      AnyCampaignFirst(campaigns, c, from, last);
      AnyCampaignFirst(campaigns, c, last + 1, to);
      SplitAddsUp(campaigns[c], from, last, to);
      WorkspaceSplitAddsUp(campaigns - {c}, from, last, to);
      Interchange(RangeTotal(campaigns[c], from, last), RangeTotal(campaigns[c], last + 1, to),
                  WorkspaceTotal(campaigns - {c}, from, last), WorkspaceTotal(campaigns - {c}, last + 1, to));
    }
  }

  // ------------------------------------------------------------- the period before

  function PreviousPeriod(from: int, to: int): (int, int) {
    var duration := to - from + 1;
    var previousTo := from - 1;
    (previousTo - duration + 1, previousTo)
  }

  /** The compared period ends the day before, is as long, and together with the period covers one range without overlap. */
  lemma PreviousPeriodIsAdjacent(campaigns: map<nat, seq<CampaignStat>>, from: int, to: int)
    requires from <= to
    ensures var (before, end) := PreviousPeriod(from, to);
            && end + 1 == from && end - before == to - from
            && (forall day: int :: !(InRange(day, before, end) && InRange(day, from, to)))
            && WorkspaceTotal(campaigns, before, to)
               == Plus(WorkspaceTotal(campaigns, before, end), WorkspaceTotal(campaigns, from, to))
  {
    var (before, end) := PreviousPeriod(from, to);
    WorkspaceSplitAddsUp(campaigns, before, end, to);
  }

  // ---------------------------------------------------------------- average position

  datatype PhraseStat = PhraseStat(day: int, impressions: int, clicks: int, avgPos: Option<real>)

  function Weight(s: PhraseStat): int {
    if s.impressions != 0 then s.impressions else if s.clicks != 0 then s.clicks else 1
  }

  predicate Positioned(s: PhraseStat, from: int, to: int) {
    InRange(s.day, from, to) && s.avgPos.Some?
  }

  function Part(s: PhraseStat): real
    requires s.avgPos.Some?
  {
    s.avgPos.value * Weight(s) as real
  }

  function WeightTotal(stats: seq<PhraseStat>, from: int, to: int): int {
    if stats == [] then 0
    else
      var s := stats[|stats| - 1];
      WeightTotal(stats[..|stats| - 1], from, to) + (if Positioned(s, from, to) then Weight(s) else 0)
  }

  function WeightedSum(stats: seq<PhraseStat>, from: int, to: int): real {
    if stats == [] then 0.0
    else
      var s := stats[|stats| - 1];
      WeightedSum(stats[..|stats| - 1], from, to)
      + (if Positioned(s, from, to) then Part(s) else 0.0)
  }

  method AveragePosition(stats: seq<PhraseStat>, from: int, to: int) returns (position: real)
    ensures position == if WeightTotal(stats, from, to) > 0
                        then WeightedSum(stats, from, to) / WeightTotal(stats, from, to) as real else 0.0
  {
    var sum, weight := 0.0, 0;
    for i := 0 to |stats|
      invariant sum == WeightedSum(stats[..i], from, to) && weight == WeightTotal(stats[..i], from, to)
    {
      assert stats[..i + 1][..i] == stats[..i];
      var s := stats[i];
      if !InRange(s.day, from, to) || s.avgPos.None? {
        continue;
      }
      sum := sum + Part(s);
      weight := weight + Weight(s);
    }
    assert stats[..|stats|] == stats;
    position := if weight > 0 then sum / weight as real else 0.0;
  }

  /** A weighted sum of values between two bounds. */
  ghost predicate Between(sum: real, weight: int, lo: real, hi: real) {
    weight >= 0 && lo * weight as real <= sum <= hi * weight as real
  }

  lemma BetweenNothing(lo: real, hi: real)
    ensures Between(0.0, 0, lo, hi)
  {
  }

  lemma BetweenGrows(sum: real, weight: int, lo: real, hi: real, s: PhraseStat)
    requires Between(sum, weight, lo, hi) && Weight(s) > 0 && s.avgPos.Some? && lo <= s.avgPos.value <= hi
    ensures Between(sum + Part(s), weight + Weight(s), lo, hi)
  {
    var x, w := s.avgPos.value, Weight(s);
    assert lo * w as real <= x * w as real <= hi * w as real;
    assert lo * (weight + w) as real == lo * weight as real + lo * w as real;
    assert hi * (weight + w) as real == hi * weight as real + hi * w as real;
  }

  lemma BetweenDivides(sum: real, weight: int, lo: real, hi: real)
    requires Between(sum, weight, lo, hi) && weight > 0
    ensures lo <= sum / weight as real <= hi
  {
  }

  lemma {:induction false} WeightedSumIsBounded(stats: seq<PhraseStat>, from: int, to: int, lo: real, hi: real)
    requires forall i | 0 <= i < |stats| :: stats[i].impressions >= 0 && stats[i].clicks >= 0
    requires forall i | 0 <= i < |stats| && Positioned(stats[i], from, to) :: lo <= stats[i].avgPos.value <= hi
    ensures Between(WeightedSum(stats, from, to), WeightTotal(stats, from, to), lo, hi)
    decreases |stats|
  {
    hide Between, Part;
    if stats == [] {
      BetweenNothing(lo, hi);
    } else {
      var n := |stats| - 1;
      var s, earlier := stats[n], stats[..n];
      WeightedSumIsBounded(earlier, from, to, lo, hi);
      if Positioned(s, from, to) {
        BetweenGrows(WeightedSum(earlier, from, to), WeightTotal(earlier, from, to), lo, hi, s);
        assert WeightedSum(stats, from, to) == WeightedSum(earlier, from, to) + Part(s);
        assert WeightTotal(stats, from, to) == WeightTotal(earlier, from, to) + Weight(s);
      } else {
        assert WeightedSum(stats, from, to) == WeightedSum(earlier, from, to);
        assert WeightTotal(stats, from, to) == WeightTotal(earlier, from, to);
      }
    }
  }

  lemma {:induction false} SomeWeight(stats: seq<PhraseStat>, from: int, to: int)
    requires forall i | 0 <= i < |stats| :: stats[i].impressions >= 0 && stats[i].clicks >= 0
    ensures WeightTotal(stats, from, to) >= 0
    ensures WeightTotal(stats, from, to) > 0 <==> exists i | 0 <= i < |stats| :: Positioned(stats[i], from, to)
    decreases |stats|
  {
    if stats != [] {
      var n := |stats| - 1;
      SomeWeight(stats[..n], from, to);
      assert forall i | 0 <= i < n :: stats[i] == stats[..n][i];
    }
  }

  /** With counts that are not negative the average lies between any bounds of the positions in the range. */
  lemma AverageIsBounded(stats: seq<PhraseStat>, from: int, to: int, lo: real, hi: real)
    requires forall i | 0 <= i < |stats| :: stats[i].impressions >= 0 && stats[i].clicks >= 0
    requires forall i | 0 <= i < |stats| && Positioned(stats[i], from, to) :: lo <= stats[i].avgPos.value <= hi
    requires exists i | 0 <= i < |stats| :: Positioned(stats[i], from, to)
    ensures WeightTotal(stats, from, to) > 0
    ensures lo <= WeightedSum(stats, from, to) / WeightTotal(stats, from, to) as real <= hi
  {
    hide Between, WeightedSum, WeightTotal;
    SomeWeight(stats, from, to);
    WeightedSumIsBounded(stats, from, to, lo, hi);
    BetweenDivides(WeightedSum(stats, from, to), WeightTotal(stats, from, to), lo, hi);
  }

  // ------------------------------------------------------------- columns, row by row

  /** The sum of a figure over the rows of the days from one to another. */
  ghost function ColumnSum(stats: seq<CampaignStat>, from: int, to: int, f: CampaignStat -> int): int {
    if stats == [] then 0
    else
      var s := stats[|stats| - 1];
      ColumnSum(stats[..|stats| - 1], from, to, f) + (if from <= s.day && s.day <= to then f(s) else 0)
  }

  /** A figure of each row for each counter; what a row leaves open counts as zero. */
  ghost predicate ReadsFields(f: Figures) {
    && (forall s :: f.impressions(s) == s.impressions && f.clicks(s) == s.clicks && f.spend(s) == s.spend)
    && (forall s :: f.orders(s) == if s.orders.Some? then s.orders.value else 0)
    && (forall s :: f.revenue(s) == if s.revenue.Some? then s.revenue.value else 0)
    && (forall s :: f.atbs(s) == if s.atbs.Some? then s.atbs.value else 0)
    && (forall s :: f.canceled(s) == if s.canceled.Some? then s.canceled.value else 0)
    && (forall s :: f.shks(s) == if s.shks.Some? then s.shks.value else 0)
  }

  datatype Figures = Figures(
    impressions: CampaignStat -> int, clicks: CampaignStat -> int, spend: CampaignStat -> int, orders: CampaignStat -> int,
    revenue: CampaignStat -> int, atbs: CampaignStat -> int, canceled: CampaignStat -> int, shks: CampaignStat -> int
  )

  /** Every counter is the sum of its own column over the days of the range. */
  lemma {:induction false} CountersAreColumnSums(stats: seq<CampaignStat>, from: int, to: int, f: Figures)
    requires ReadsFields(f)
    ensures var c := RangeTotal(stats, from, to);
            && c.impressions == ColumnSum(stats, from, to, f.impressions) && c.clicks == ColumnSum(stats, from, to, f.clicks)
            && c.spend == ColumnSum(stats, from, to, f.spend) && c.orders == ColumnSum(stats, from, to, f.orders)
            && c.revenue == ColumnSum(stats, from, to, f.revenue) && c.atbs == ColumnSum(stats, from, to, f.atbs)
            && c.canceled == ColumnSum(stats, from, to, f.canceled) && c.shks == ColumnSum(stats, from, to, f.shks)
    decreases |stats|
  {
    if stats != [] {
      CountersAreColumnSums(stats[..|stats| - 1], from, to, f);
    }
  }

  /** Each ratio times its divisor is its dividend, and without a divisor it is zero. */
  lemma RatiosAreQuotients(c: Counters)
    ensures var r := RatiosOf(c);
            && (if c.impressions > 0 then r.ctr * c.impressions as real == c.clicks as real
                     && r.cpm * c.impressions as real == 1000.0 * c.spend as real
                else r.ctr == 0.0 == r.cpm)
            && (if c.clicks > 0 then r.cpc * c.clicks as real == c.spend as real
                     && r.conversionRate * c.clicks as real == c.orders as real
                     && r.cartRate * c.clicks as real == (if c.atbs > 0 then c.atbs as real else 0.0)
                else r.cpc == 0.0 == r.conversionRate && r.cartRate == 0.0)
    ensures var r := RatiosOf(c);
            && (if c.orders > 0 then r.cpo * c.orders as real == c.spend as real else r.cpo == 0.0)
            && (if c.spend > 0 then r.roas * c.spend as real == c.revenue as real else r.roas == 0.0)
            && (if c.revenue > 0 then r.drr * c.revenue as real == 100.0 * c.spend as real else r.drr == 0.0)
  {
    RatiosPerShowOrClick(c);
    RatiosPerOrderOrRuble(c);
    hide RatiosOf;
  }

  lemma RatiosPerShowOrClick(c: Counters)
    ensures var r := RatiosOf(c);
            && (if c.impressions > 0 then r.ctr * c.impressions as real == c.clicks as real
                     && r.cpm * c.impressions as real == 1000.0 * c.spend as real
                else r.ctr == 0.0 == r.cpm)
            && (if c.clicks > 0 then r.cpc * c.clicks as real == c.spend as real
                     && r.conversionRate * c.clicks as real == c.orders as real
                     && r.cartRate * c.clicks as real == (if c.atbs > 0 then c.atbs as real else 0.0)
                else r.cpc == 0.0 == r.conversionRate && r.cartRate == 0.0)
  {
    hide Over;
    Divides(c.clicks, c.impressions, 1.0);
    Divides(c.spend, c.impressions, 1000.0);
    Divides(c.spend, c.clicks, 1.0);
    Divides(c.orders, c.clicks, 1.0);
    Divides(c.atbs, c.clicks, 1.0);
  }

  lemma RatiosPerOrderOrRuble(c: Counters)
    ensures var r := RatiosOf(c);
            && (if c.orders > 0 then r.cpo * c.orders as real == c.spend as real else r.cpo == 0.0)
            && (if c.spend > 0 then r.roas * c.spend as real == c.revenue as real else r.roas == 0.0)
            && (if c.revenue > 0 then r.drr * c.revenue as real == 100.0 * c.spend as real else r.drr == 0.0)
  {
    hide Over;
    Divides(c.spend, c.orders, 1.0);
    Divides(c.revenue, c.spend, 1.0);
    Divides(c.spend, c.revenue, 100.0);
  }

  lemma Divides(x: int, d: int, k: real)
    ensures if d > 0 then Over(x, d) * k * d as real == k * x as real else Over(x, d) * k == 0.0
    ensures d > 0 && k == 1.0 ==> Over(x, d) * d as real == x as real
    ensures d <= 0 ==> Over(x, d) == 0.0
  {
    if d > 0 {
      OverTimes(x, d);
      assert Over(x, d) * k * d as real == k * (Over(x, d) * d as real);
    }
  }

  // ---------------------------------------------------------------- the mean, row by row

  /** One more row enters the mean if it has a day in the range and a position, by impressions, else by clicks, else by one. */
  lemma RowEntersMean(stats: seq<PhraseStat>, s: PhraseStat, from: int, to: int)
    ensures var weight := if s.impressions != 0 then s.impressions else if s.clicks != 0 then s.clicks else 1;
            if from <= s.day && s.day <= to && s.avgPos.Some? then
              && WeightTotal(stats + [s], from, to) == WeightTotal(stats, from, to) + weight
              && WeightedSum(stats + [s], from, to) == WeightedSum(stats, from, to) + s.avgPos.value * weight as real
            else
              && WeightTotal(stats + [s], from, to) == WeightTotal(stats, from, to)
              && WeightedSum(stats + [s], from, to) == WeightedSum(stats, from, to)
  {
    assert (stats + [s])[..|stats|] == stats;
  }
}
