/**
  The statistics path in front of the engine (internal/service/bid_automation.go): efficiency is
  measured over completed Moscow days only, and campaign rows of the current day may do no more than
  veto an increase. The search playbook also reads the latest row of every phrase, whatever its day, so
  for that strategy a phrase row of the current day can steer the decision. Days and hours are integers;
  a row's date can be missing.
*/
module ClosedDayStats {
  import opened Numeric
  import opened Strategy
  import opened BidEngine
  import opened BidEngineSafety
  import opened SearchPlaybookStrategy

  const MIN_TODAY_CLICKS_FOR_BID_INCREASE := 20

  datatype StatRow = StatRow(
    day: Option<int>,
    impressions: int,
    clicks: int,
    spend: int,
    orders: Option<int>,
    revenue: Option<int>,
    createdAt: Option<int>
  )

  predicate IsClosed(row: StatRow, today: int) {
    row.day.Some? && row.day.value < today
  }

  ghost function Closed(stats: seq<StatRow>, today: int): seq<StatRow> {
    if stats == [] then []
    else
      var rest := Closed(stats[..|stats| - 1], today);
      var last := stats[|stats| - 1];
      if IsClosed(last, today) then rest + [last] else rest
  }

  /** Row by row: a row of an earlier day is kept as often as it is there, any other row is dropped. */
  lemma {:induction false} ClosedByDays(stats: seq<StatRow>, today: int)
    ensures forall row :: multiset(Closed(stats, today))[row]
                       == if row.day.Some? && row.day.value < today then multiset(stats)[row] else 0
    decreases |stats|
  {
    if stats != [] {
      var n := |stats| - 1;
      ClosedByDays(stats[..n], today);
      assert stats == stats[..n] + [stats[n]];
    }
  }

  /** The rows keep their order: what comes first stays first. */
  lemma {:induction false} ClosedInOrder(a: seq<StatRow>, b: seq<StatRow>, today: int)
    ensures Closed(a + b, today) == Closed(a, today) + Closed(b, today)
    decreases |b|
  {
    if b == [] {
      assert a + b == a;
    } else {
      assert (a + b)[..|a + b| - 1] == a + b[..|b| - 1];
      ClosedInOrder(a, b[..|b| - 1], today);
    }
  }

  method ClosedCampaignStats(stats: seq<StatRow>, today: int) returns (result: seq<StatRow>)
    ensures result == Closed(stats, today)
    ensures forall row :: multiset(result)[row] == if row.day.Some? && row.day.value < today then multiset(stats)[row] else 0
  {
    ClosedByDays(stats, today);
    result := [];
    for i := 0 to |stats|
      invariant result == Closed(stats[..i], today)
    {
      assert stats[..i + 1][..i] == stats[..i];
      if IsClosed(stats[i], today) {
        result := result + [stats[i]];
      }
    }
    assert stats[..|stats|] == stats;
  }

  // ------------------------------------------------------------------------ sums

  /** The columns that are summed, including impressions and counters restricted to some days. */
  datatype Column =
    | Impressions | Clicks | Orders | Spend | Revenue
    | RecentImpressions(twiceMid: int) | OlderImpressions(twiceMid: int)
    | ClicksOn(day: int) | SpendOn(day: int)

  function OrZero(x: Option<int>): int {
    match x case None => 0 case Some(v) => v
  }

  function Value(c: Column, row: StatRow): int {
    match c
    case Impressions => row.impressions
    case Clicks => row.clicks
    case Orders => OrZero(row.orders)
    case Spend => row.spend
    case Revenue => OrZero(row.revenue)
    case RecentImpressions(twiceMid) => if row.day.Some? && 2 * row.day.value >= twiceMid then row.impressions else 0
    case OlderImpressions(twiceMid) => if row.day.Some? && 2 * row.day.value < twiceMid then row.impressions else 0
    case ClicksOn(day) => if row.day == Some(day) then row.clicks else 0
    case SpendOn(day) => if row.day == Some(day) then row.spend else 0
  }

  ghost function Sum(stats: seq<StatRow>, c: Column): int {
    if stats == [] then 0 else Sum(stats[..|stats| - 1], c) + Value(c, stats[|stats| - 1])
  }

  datatype Totals = Totals(impressions: int, clicks: int, orders: int, spend: int, revenue: int)

  ghost function TotalsOf(stats: seq<StatRow>): Totals {
    Totals(Sum(stats, Impressions), Sum(stats, Clicks), Sum(stats, Orders), Sum(stats, Spend), Sum(stats, Revenue))
  }

  method AggregateBidPerformance(stats: seq<StatRow>) returns (t: Totals)
    ensures t == TotalsOf(stats)
  {
    t := Totals(0, 0, 0, 0, 0);
    for i := 0 to |stats|
      invariant t == TotalsOf(stats[..i])
    {
      assert stats[..i + 1][..i] == stats[..i];
      var row := stats[i];
      t := Totals(t.impressions + row.impressions, t.clicks + row.clicks, t.orders + OrZero(row.orders),
                  t.spend + row.spend, t.revenue + OrZero(row.revenue));
    }
    assert stats[..|stats|] == stats;
  }

  lemma {:induction false} SumWithout(stats: seq<StatRow>, c: Column, k: nat)
    requires k < |stats|
    ensures Sum(stats, c) == Value(c, stats[k]) + Sum(stats[..k] + stats[k + 1..], c)
    decreases |stats|
  {
    var n := |stats| - 1;
    if k == n {
      assert stats[..k] + stats[k + 1..] == stats[..n];
    } else {
      SumWithout(stats[..n], c, k);
      var without := stats[..k] + stats[k + 1..];
      assert without[..|without| - 1] == stats[..n][..k] + stats[..n][k + 1..];
    }
  }

  lemma RemovedAt(t: seq<StatRow>, k: nat)
    requires k < |t|
    ensures multiset(t[..k] + t[k + 1..]) == multiset(t) - multiset{t[k]}
  {
    assert t == t[..k] + [t[k]] + t[k + 1..];
  }

  /** A sum does not depend on the order in which the database returned the rows. */
  lemma {:induction false} SumOfPermutation(s: seq<StatRow>, t: seq<StatRow>, c: Column)
    requires multiset(s) == multiset(t)
    ensures Sum(s, c) == Sum(t, c)
    decreases |s|
  {
    if s == [] {
      assert |t| == |multiset(t)| == 0;
    } else {
      var n := |s| - 1;
      var k := IndexOf(t, s[n]);
      RemovedAt(s, n);
      RemovedAt(t, k);
      assert s[..n] + s[n + 1..] == s[..n];
      SumOfPermutation(s[..n], t[..k] + t[k + 1..], c);
      SumWithout(t, c, k);
    }
  }

  lemma IndexOf(t: seq<StatRow>, x: StatRow) returns (k: nat)
    requires x in multiset(t)
    ensures k < |t| && t[k] == x
  {
    k :| k < |t| && t[k] == x;
  }

  // -------------------------------------------------------------- extreme values

  /** The columns whose extreme value matters; `Age` turns the oldest day into a largest value. */
  datatype Stamp = CreatedAt | Day | Age

  function StampOf(s: Stamp, row: StatRow): Option<int> {
    match s
    case CreatedAt => row.createdAt
    case Day => row.day
    case Age => Negated(row.day)
  }

  function Negated(x: Option<int>): Option<int> {
    match x case None => None case Some(v) => Some(-v)
  }

  /** The largest value a partial column takes, and nothing when it has no value. */
  ghost predicate IsLargest(stats: seq<StatRow>, c: Stamp, m: Option<int>) {
    && (m.None? <==> forall r | r in stats :: StampOf(c, r).None?)
    && (m.Some? ==> (exists r | r in stats :: StampOf(c, r) == m) && forall r | r in stats && StampOf(c, r).Some? :: StampOf(c, r).value <= m.value)
  }

  method LargestValue(stats: seq<StatRow>, c: Stamp) returns (m: Option<int>)
    ensures IsLargest(stats, c, m)
  {
    m := None;
    for i := 0 to |stats|
      invariant IsLargest(stats[..i], c, m)
    {
      assert stats[..i + 1] == stats[..i] + [stats[i]];
      if StampOf(c, stats[i]).Some? && (m.None? || StampOf(c, stats[i]).value > m.value) {
        m := StampOf(c, stats[i]);
        assert stats[i] in stats[..i + 1];
      }
    }
    assert stats[..|stats|] == stats;
  }

  ghost function Largest(stats: seq<StatRow>, c: Stamp): (m: Option<int>)
    ensures IsLargest(stats, c, m)
  {
    if stats == [] then None
    else
      var n := |stats| - 1;
      var rest := Largest(stats[..n], c);
      assert stats == stats[..n] + [stats[n]];
      if StampOf(c, stats[n]).Some? && (rest.None? || StampOf(c, stats[n]).value > rest.value) then StampOf(c, stats[n]) else rest
  }

  lemma LargestOfPermutation(s: seq<StatRow>, t: seq<StatRow>, c: Stamp)
    requires multiset(s) == multiset(t)
    ensures Largest(s, c) == Largest(t, c)
  {
    forall r ensures r in s <==> r in t {
      assert r in s <==> r in multiset(s);
      assert r in t <==> r in multiset(t);
    }
    LargestIsUnique(s, t, c, Largest(s, c), Largest(t, c));
  }

  lemma LargestIsUnique(s: seq<StatRow>, t: seq<StatRow>, c: Stamp, a: Option<int>, b: Option<int>)
    requires forall r :: r in s <==> r in t
    requires IsLargest(s, c, a) && IsLargest(t, c, b)
    ensures a == b
  {
  }

  // ----------------------------------------------------------------- phrase positions

  datatype PhraseRow = PhraseRow(day: int, impressions: int, avgPos: Option<real>)

  /** The row of the latest day; the table has one row per phrase and day. */
  function LatestRow(rows: seq<PhraseRow>): Option<PhraseRow> {
    if rows == [] then None
    else
      var rest, last := LatestRow(rows[..|rows| - 1]), rows[|rows| - 1];
      if rest.None? || last.day > rest.value.day then Some(last) else rest
  }

  predicate HasPosition(row: Option<PhraseRow>) {
    row.Some? && row.value.avgPos.Some? && row.value.avgPos.value > 0.0
  }

  function Weight(row: PhraseRow): real {
    if row.impressions <= 0 then 1.0 else row.impressions as real
  }

  function Part(row: PhraseRow): real
    requires row.avgPos.Some?
  {
    row.avgPos.value * Weight(row)
  }

  function WeightTotal(phrases: seq<seq<PhraseRow>>): (r: real)
    ensures r >= 0.0
    ensures r == 0.0 <==> forall i | 0 <= i < |phrases| :: !HasPosition(LatestRow(phrases[i]))
  {
    if phrases == [] then 0.0
    else
      var n := |phrases| - 1;
      var row := LatestRow(phrases[n]);
      assert forall i | 0 <= i < n :: phrases[..n][i] == phrases[i];
      WeightTotal(phrases[..n]) + (if HasPosition(row) then Weight(row.value) else 0.0)
  }

  function WeightedSum(phrases: seq<seq<PhraseRow>>): real {
    if phrases == [] then 0.0
    else
      var n := |phrases| - 1;
      var row := LatestRow(phrases[n]);
      WeightedSum(phrases[..n]) + (if HasPosition(row) then Part(row.value) else 0.0)
  }

  /** The mean position over the phrases' latest rows, weighted by impressions; none without a positive position. */
  function Position(phrases: seq<seq<PhraseRow>>): (r: Option<real>)
    ensures r.None? <==> forall i | 0 <= i < |phrases| :: !HasPosition(LatestRow(phrases[i]))
  {
    if WeightTotal(phrases) == 0.0 then None else Some(WeightedSum(phrases) / WeightTotal(phrases))
  }

  method CampaignAvgPosition(phrases: seq<seq<PhraseRow>>) returns (r: Option<real>)
    ensures r == Position(phrases)
  {
    var weightedSum, weight := 0.0, 0.0;
    for i := 0 to |phrases|
      invariant weightedSum == WeightedSum(phrases[..i]) && weight == WeightTotal(phrases[..i])
    {
      assert phrases[..i + 1][..i] == phrases[..i];
      var row := LatestRow(phrases[i]);
      if row.None? || row.value.avgPos.None? || row.value.avgPos.value <= 0.0 {
        continue;
      }
      weightedSum := weightedSum + Part(row.value);
      weight := weight + Weight(row.value);
    }
    assert phrases[..|phrases|] == phrases;
    r := if weight == 0.0 then None else Some(weightedSum / weight);
  }

  ghost predicate IsLatest(rows: seq<PhraseRow>, row: PhraseRow) {
    row in rows && forall r | r in rows :: r.day <= row.day
  }

  lemma {:induction false} LatestIsLatest(rows: seq<PhraseRow>)
    ensures LatestRow(rows).None? <==> rows == []
    ensures LatestRow(rows).Some? ==> IsLatest(rows, LatestRow(rows).value)
    decreases |rows|
  {
    if rows != [] {
      var n := |rows| - 1;
      LatestIsLatest(rows[..n]);
      assert rows == rows[..n] + [rows[n]];
    }
  }

  // ---------------------------------------------------------------- the decision

  /** Stale when no row says when it was stored, or the newest one is too old. */
  ghost predicate Stale(stats: seq<StatRow>, maxAgeHours: int, now: int) {
    && maxAgeHours > 0
    && (Largest(stats, CreatedAt).None? || now - Largest(stats, CreatedAt).value > maxAgeHours)
  }

  /** Impressions of the recent and of the older half of the dated window, split at its midpoint. */
  ghost function HalfWindows(stats: seq<StatRow>): (int, int) {
    var newest := Largest(stats, Day);
    var oldest := Negated(Largest(stats, Age));
    if newest.None? || oldest.None? then (0, 0)
    else
      var twiceMid := newest.value + oldest.value;
      (Sum(stats, RecentImpressions(twiceMid)),
       Sum(stats, OlderImpressions(twiceMid)))
  }

  /** The engine's context: everything that is not a statistic comes from `base`. */
  ghost function ContextFrom(kind: Kind, base: BidContext, closed: seq<StatRow>, phrases: seq<seq<PhraseRow>>): BidContext {
    var t := TotalsOf(closed);
    var halves := HalfWindows(closed);
    var ctx := base.(impressions := t.impressions, clicks := t.clicks, orders := t.orders,
                     spend := t.spend as real, revenue := t.revenue as real);
    if kind != SearchPlaybook then ctx
    else
      var position := Position(phrases);
      var placed := ctx.(hasPosition := position.Some?,
                         avgPosition := if position.Some? then position.value else 0.0);
      if halves.0 > 0 || halves.1 > 0 then placed.(impressions := halves.0, prevImpressions := halves.1) else placed
  }

  ghost predicate Admissible(kind: Kind, params: Params, base: BidContext, stats: seq<StatRow>, today: int) {
    WellFormed(params, ContextFrom(kind, base, Closed(stats, today), []))
  }

  /** The engine's answer, or no answer when completed days are missing or stale. */
  ghost function EngineDecision(kind: Kind, params: Params, base: BidContext, stats: seq<StatRow>,
                                phrases: seq<seq<PhraseRow>>, today: int, maxAgeHours: int, now: int): Option<Decision>
    requires Admissible(kind, params, base, stats, today)
  {
    var closed := Closed(stats, today);
    if closed == [] || Stale(closed, maxAgeHours, now) then None
    else CalculateBid(kind, params, ContextFrom(kind, base, closed, phrases))
  }

  // ------------------------------------------------------- guards on the open day

  /** What the increase guards read besides the rows: the calendar day they call today, budgets and balance. */
  datatype OpenDay = OpenDay(
    day: int,
    hoursElapsed: real,
    dailyBudget: Option<int>,
    configuredLimit: Option<int>, // present when a limit is configured and enabled
    balance: Option<int>,         // the seller's balance, when captured within the last 24 hours
    minimumReached: bool          // the marketplace minimum bid forbids the decrease
  )

  /** A counter of one day, or nothing when no row carries that day. */
  ghost function OnDay(stats: seq<StatRow>, day: int, c: Column): Option<int> {
    if exists r | r in stats :: r.day == Some(day) then Some(Sum(stats, c)) else None
  }

  ghost predicate RecentClicksBlock(stats: seq<StatRow>, open: OpenDay) {
    var clicks := OnDay(stats, open.day, ClicksOn(open.day));
    clicks.None? || clicks.value < MIN_TODAY_CLICKS_FOR_BID_INCREASE
  }

  ghost predicate DailyBudgetBlocks(stats: seq<StatRow>, open: OpenDay) {
    && open.dailyBudget.Some? && open.dailyBudget.value > 0
    && var spend := OnDay(stats, open.day, SpendOn(open.day));
       || spend.None?
       || spend.value >= open.dailyBudget.value
       || (spend.value > 0 && open.hoursElapsed >= 1.0
           && Round(spend.value as real / open.hoursElapsed * 24.0) >= open.dailyBudget.value)
  }

  ghost predicate FinanceBlocks(stats: seq<StatRow>, open: OpenDay) {
    var limit := if open.configuredLimit.Some? then open.configuredLimit else open.dailyBudget;
    var spend := OnDay(stats, open.day, SpendOn(open.day));
    || limit.None? || limit.value <= 0
    || spend.None? || spend.value >= limit.value
    || open.balance.None? || open.balance.value <= 0
  }

  /** The decision that goes on to the action guard: `stats` decide, `campaignStats` are the campaign's own rows. */
  ghost function GuardedDecision(kind: Kind, params: Params, base: BidContext, stats: seq<StatRow>,
                                 campaignStats: seq<StatRow>, phrases: seq<seq<PhraseRow>>,
                                 today: int, maxAgeHours: int, now: int, open: OpenDay): Option<Decision>
    requires Admissible(kind, params, base, stats, today)
  {
    match EngineDecision(kind, params, base, stats, phrases, today, maxAgeHours, now)
    case None => None
    case Some(d) =>
      if d.newBid > d.oldBid && (RecentClicksBlock(stats, open) || DailyBudgetBlocks(campaignStats, open)
                                 || FinanceBlocks(campaignStats, open)) then None
      else if d.newBid < d.oldBid && open.minimumReached then None
      else Some(d)
  }

  // -------------------------------------------------------------------- theorem

  /** Two histories agree on the days before today: each row of such a day occurs as often in both. */
  ghost predicate SameClosedDays(s1: seq<StatRow>, s2: seq<StatRow>, today: int) {
    forall row: StatRow | row.day.Some? && row.day.value < today :: multiset(s1)[row] == multiset(s2)[row]
  }

  lemma SameDaysSameRows(s1: seq<StatRow>, s2: seq<StatRow>, today: int)
    requires SameClosedDays(s1, s2, today)
    ensures multiset(Closed(s1, today)) == multiset(Closed(s2, today))
  {
    ClosedByDays(s1, today);
    ClosedByDays(s2, today);
    forall row ensures multiset(Closed(s1, today))[row] == multiset(Closed(s2, today))[row] {
    }
  }

  lemma SameContext(kind: Kind, base: BidContext, s1: seq<StatRow>, s2: seq<StatRow>, phrases: seq<seq<PhraseRow>>)
    requires multiset(s1) == multiset(s2)
    ensures ContextFrom(kind, base, s1, phrases) == ContextFrom(kind, base, s2, phrases)
  {
    SumOfPermutation(s1, s2, Impressions);
    SumOfPermutation(s1, s2, Clicks);
    SumOfPermutation(s1, s2, Orders);
    SumOfPermutation(s1, s2, Spend);
    SumOfPermutation(s1, s2, Revenue);
    SameHalfWindows(s1, s2);
  }

  lemma SameHalfWindows(s1: seq<StatRow>, s2: seq<StatRow>)
    requires multiset(s1) == multiset(s2)
    ensures HalfWindows(s1) == HalfWindows(s2)
  {
    LargestOfPermutation(s1, s2, Day);
    LargestOfPermutation(s1, s2, Age);
    var newest := Largest(s1, Day);
    var oldest := Negated(Largest(s1, Age));
    if newest.Some? && oldest.Some? {
      var twiceMid := newest.value + oldest.value;
      SumOfPermutation(s1, s2, RecentImpressions(twiceMid));
      SumOfPermutation(s1, s2, OlderImpressions(twiceMid));
    }
  }

  /** What the phrases tell the playbook; the other strategies hear nothing. */
  ghost function PhraseSignal(kind: Kind, params: Params, phrases: seq<seq<PhraseRow>>): Signal {
    var position := Position(phrases);
    if kind != SearchPlaybook || position.None? then NoPosition
    else if position.value > TargetPosition(Merged(params)) then Behind
    else AtTarget
  }

  /** Phrase rows act only through their signal, and only on the playbook. */
  lemma PhrasesActThroughSignal(kind: Kind, params: Params, base: BidContext, closed: seq<StatRow>,
                                ph1: seq<seq<PhraseRow>>, ph2: seq<seq<PhraseRow>>)
    requires WellFormed(params, ContextFrom(kind, base, closed, []))
    requires PhraseSignal(kind, params, ph1) == PhraseSignal(kind, params, ph2)
    ensures CalculateBid(kind, params, ContextFrom(kind, base, closed, ph1))
         == CalculateBid(kind, params, ContextFrom(kind, base, closed, ph2))
  {
    hide CalculateBid, TotalsOf, HalfWindows, Position;
    if kind == SearchPlaybook {
      SameSignalSameDecision(params, ContextFrom(kind, base, closed, ph1), ContextFrom(kind, base, closed, ph2));
    }
  }

  /**
    Two histories that agree on completed days give the same engine decision, for every strategy other than
    the search playbook whatever the phrase rows are, and for the playbook whenever these give one signal.
  */
  lemma OpenDayCannotSteerEngine(kind: Kind, params: Params, base: BidContext, s1: seq<StatRow>, s2: seq<StatRow>,
                                 ph1: seq<seq<PhraseRow>>, ph2: seq<seq<PhraseRow>>,
                                 today: int, maxAgeHours: int, now: int)
    requires SameClosedDays(s1, s2, today)
    requires PhraseSignal(kind, params, ph1) == PhraseSignal(kind, params, ph2)
    requires Admissible(kind, params, base, s1, today)
    ensures Admissible(kind, params, base, s2, today)
    ensures EngineDecision(kind, params, base, s1, ph1, today, maxAgeHours, now)
            == EngineDecision(kind, params, base, s2, ph2, today, maxAgeHours, now)
  {
    SameDaysSameRows(s1, s2, today);
    var c1, c2 := Closed(s1, today), Closed(s2, today);
    SameContext(kind, base, c1, c2, []);
    SameContext(kind, base, c1, c2, ph2);
    PhrasesActThroughSignal(kind, params, base, c1, ph1, ph2);
    LargestOfPermutation(c1, c2, CreatedAt);
    assert |c1| == |multiset(c1)| == |multiset(c2)| == |c2|;
  }

  /** So rows of today, of later days or without a day can be added anywhere without changing the engine's decision. */
  lemma OpenRowsDoNotSteer(kind: Kind, params: Params, base: BidContext, stats: seq<StatRow>, open: seq<StatRow>, mixed: seq<StatRow>,
                           phrases: seq<seq<PhraseRow>>, today: int, maxAgeHours: int, now: int)
    requires multiset(mixed) == multiset(stats) + multiset(open)
    requires forall row | row in open :: row.day.None? || row.day.value >= today
    requires Admissible(kind, params, base, stats, today)
    ensures Admissible(kind, params, base, mixed, today)
    ensures EngineDecision(kind, params, base, mixed, phrases, today, maxAgeHours, now)
            == EngineDecision(kind, params, base, stats, phrases, today, maxAgeHours, now)
  {
    hide EngineDecision, Admissible;
    forall row: StatRow | row.day.Some? && row.day.value < today ensures multiset(mixed)[row] == multiset(stats)[row] {
      assert row !in multiset(open);
    }
    OpenDayCannotSteerEngine(kind, params, base, stats, mixed, phrases, phrases, today, maxAgeHours, now);
  }

  /**
    Of two histories equal on completed days and in their phrase signal, neither can turn the engine's
    decision into another one: decreases proceed identically, and campaign rows of the current day only
    veto an increase.
  */
  lemma OpenDayOnlyVetoesIncreases(kind: Kind, params: Params, base: BidContext,
                                   s1: seq<StatRow>, c1: seq<StatRow>, s2: seq<StatRow>, c2: seq<StatRow>,
                                   ph1: seq<seq<PhraseRow>>, ph2: seq<seq<PhraseRow>>,
                                   today: int, maxAgeHours: int, now: int, open: OpenDay)
    requires SameClosedDays(s1, s2, today)
    requires PhraseSignal(kind, params, ph1) == PhraseSignal(kind, params, ph2)
    requires Admissible(kind, params, base, s1, today)
    ensures Admissible(kind, params, base, s2, today)
    ensures var engine := EngineDecision(kind, params, base, s1, ph1, today, maxAgeHours, now);
            var g1 := GuardedDecision(kind, params, base, s1, c1, ph1, today, maxAgeHours, now, open);
            var g2 := GuardedDecision(kind, params, base, s2, c2, ph2, today, maxAgeHours, now, open);
            && g1 in {None, engine} && g2 in {None, engine}
            && (g1 != g2 ==> engine.Some? && engine.value.newBid > engine.value.oldBid)
  {
    OpenDayCannotSteerEngine(kind, params, base, s1, s2, ph1, ph2, today, maxAgeHours, now);
  }

  // ------------------------------------------------------ the open day of the playbook

  /**
    The exact effect of phrase rows on a playbook decision, for any bid: two sets of phrase rows give different
    decisions if and only if the targets of their signals lead to different bids, which for a bid in range
    means that the signals differ and a rule that tells them apart moves the bid. One raises what the other
    lowers exactly if the bid is in range, the first says climb, the second pull back, and both go through.
  */
  lemma PhraseRowsSteerIff(params: Params, base: BidContext, stats: seq<StatRow>,
                           ph1: seq<seq<PhraseRow>>, ph2: seq<seq<PhraseRow>>, today: int, maxAgeHours: int, now: int)
    requires Admissible(SearchPlaybook, params, base, stats, today)
    requires Closed(stats, today) != [] && !Stale(Closed(stats, today), maxAgeHours, now)
    ensures var p := Merged(params); var ctx := ContextFrom(SearchPlaybook, base, Closed(stats, today), []);
            var s1, s2 := PhraseSignal(SearchPlaybook, params, ph1), PhraseSignal(SearchPlaybook, params, ph2);
            var d1 := EngineDecision(SearchPlaybook, params, base, stats, ph1, today, maxAgeHours, now);
            var d2 := EngineDecision(SearchPlaybook, params, base, stats, ph2, today, maxAgeHours, now);
            && (d1 != d2 <==> Landing(p, ctx, RuleTarget(p, ctx, s1)) != Landing(p, ctx, RuleTarget(p, ctx, s2)))
            && (InRange(p, base.currentBid) ==> (d1 != d2 <==> PositionMatters(p, ctx, s1, s2)))
            && (p.minBid > 0 && p.maxBid > 0 ==> (Raises(d1) && Lowers(d2) <==> PositionReverses(p, ctx, s1, s2)))
  {
    hide CalculateBid, TotalsOf, HalfWindows, Position, Closed, Stale, PositionMatters, Climbs, PullsBack, CostRule, Playable;
    hide Landing, RuleTarget, InRange;
    var p, closed := Merged(params), Closed(stats, today);
    var ctx := ContextFrom(SearchPlaybook, base, closed, []);
    var c1, c2 := ContextFrom(SearchPlaybook, base, closed, ph1), ContextFrom(SearchPlaybook, base, closed, ph2);
    PositionDecidesIff(params, c1, c2);
    RulesIgnorePosition(p, ctx, c1);
    CostIgnoresPosition(p, ctx, c1);
    MattersIgnoresPosition(p, ctx, c1, SignalOf(p, c1), SignalOf(p, c2));
    LandsAlike(p, ctx, c1, SignalOf(p, c1));
    LandsAlike(p, ctx, c1, SignalOf(p, c2));
  }

  lemma LandsAlike(p: Params, c1: BidContext, c2: BidContext, s: Signal)
    requires OnlyPositionDiffers(c1, c2) && c1.revenue >= 0.0
    ensures Landing(p, c1, RuleTarget(p, c1, s)) == Landing(p, c2, RuleTarget(p, c2, s))
  {
    hide Landing, RuleTarget;
    RuleTargetIgnoresPosition(p, c1, c2, s);
    LandingIgnoresPosition(p, c1, c2, RuleTarget(p, c1, s));
  }

  // The case itself: completed days show a flat window and a phrase at position two; today's row of the phrase
  // says position five or position two.

  const FLAT_WINDOW := [StatRow(Some(1), 100, 15, 500, Some(1), None, None), StatRow(Some(2), 100, 15, 500, Some(1), None, None)]

  function PhraseToday(position: real): seq<seq<PhraseRow>> {
    [[PhraseRow(2, 10, Some(2.0)), PhraseRow(3, 10, Some(position))]]
  }

  const PLAYBOOK := Params(0.0, 0.0, 0.0, 0.0, map[], map[], "", 3.0, 0.0, 0.0, 0.0, 50, 5000, 0.0, 0.0, 15.0, 10, 120, 3)

  const AT_HUNDRED := BidContext(100, 0, 0, 0.0, 0.0, 0, None, 0.0, false, 0, 0.0, 0, false, true, 0, 0)

  /** Rows of completed days in each phrase. */
  ghost function ClosedPhrase(rows: seq<PhraseRow>, today: int): seq<PhraseRow> {
    if rows == [] then []
    else
      var rest, last := ClosedPhrase(rows[..|rows| - 1], today), rows[|rows| - 1];
      if last.day < today then rest + [last] else rest
  }

  ghost predicate SameClosedPhrases(ph1: seq<seq<PhraseRow>>, ph2: seq<seq<PhraseRow>>, today: int) {
    |ph1| == |ph2| && forall i | 0 <= i < |ph1| :: ClosedPhrase(ph1[i], today) == ClosedPhrase(ph2[i], today)
  }

  lemma LatestOfTwo(a: PhraseRow, b: PhraseRow)
    requires a.day < b.day
    ensures LatestRow([a, b]) == Some(b)
  {
    assert [a, b][..1] == [a] && [a][..0] == [];
    assert LatestRow([a]) == Some(a);
  }

  lemma PositionOfOne(rows: seq<PhraseRow>, row: PhraseRow)
    requires LatestRow(rows) == Some(row) && HasPosition(Some(row)) && row.impressions == 10
    ensures Position([rows]) == row.avgPos
  {
    assert [rows][..0] == [];
    assert WeightedSum([rows]) == WeightedSum([]) + Part(row) && WeightTotal([rows]) == WeightTotal([]) + Weight(row);
  }

  lemma FlatWindowSum(c: Column)
    ensures Sum(FLAT_WINDOW, c) == Value(c, FLAT_WINDOW[0]) + Value(c, FLAT_WINDOW[1])
  {
    assert FLAT_WINDOW[..1] == [FLAT_WINDOW[0]] && FLAT_WINDOW[..1][..0] == [];
    assert Sum(FLAT_WINDOW[..1], c) == Value(c, FLAT_WINDOW[0]);
  }

  lemma FlatWindowHalves()
    ensures Closed(FLAT_WINDOW, 3) == FLAT_WINDOW && HalfWindows(FLAT_WINDOW) == (100, 100)
  {
    var a := FLAT_WINDOW[0];
    assert FLAT_WINDOW[..1] == [a] && [a][..0] == [];
    assert Closed([a], 3) == [a];
    assert Largest([a], Day) == Some(1) && Largest([a], Age) == Some(-1);
    FlatWindowSum(RecentImpressions(3));
    FlatWindowSum(OlderImpressions(3));
  }

  lemma FlatWindowTotals()
    ensures TotalsOf(FLAT_WINDOW) == Totals(200, 30, 2, 1000, 0)
  {
    hide Sum;
    FlatWindowSum(Impressions);
    FlatWindowSum(Clicks);
    FlatWindowSum(Orders);
    FlatWindowSum(Spend);
    FlatWindowSum(Revenue);
  }

  lemma PhraseTodayPosition(position: real)
    requires position > 0.0
    ensures Position(PhraseToday(position)) == Some(position)
  {
    LatestOfTwo(PhraseRow(2, 10, Some(2.0)), PhraseRow(3, 10, Some(position)));
    PositionOfOne(PhraseToday(position)[0], PhraseRow(3, 10, Some(position)));
    assert PhraseToday(position) == [PhraseToday(position)[0]];
  }

  lemma FlatWindowContext(position: real)
    requires position > 0.0
    ensures Closed(FLAT_WINDOW, 3) == FLAT_WINDOW
    ensures ContextFrom(SearchPlaybook, AT_HUNDRED, FLAT_WINDOW, PhraseToday(position))
         == AT_HUNDRED.(impressions := 100, prevImpressions := 100, clicks := 30, orders := 2, spend := 1000.0,
                        hasPosition := true, avgPosition := position)
  {
    hide Position, TotalsOf, HalfWindows, Closed;
    FlatWindowHalves();
    FlatWindowTotals();
    PhraseTodayPosition(position);
  }

  lemma ClimbOrPullBack(ctx: BidContext)
    requires ctx == AT_HUNDRED.(impressions := 100, prevImpressions := 100, clicks := 30, orders := 2, spend := 1000.0,
                                hasPosition := true, avgPosition := ctx.avgPosition)
    ensures ctx.avgPosition > 3.0 ==> CalculateBid(SearchPlaybook, PLAYBOOK, ctx) == Some(Decision(100, 115))
    ensures ctx.avgPosition <= 3.0 ==> CalculateBid(SearchPlaybook, PLAYBOOK, ctx) == Some(Decision(100, 91))
  {
    assert MaxDelta(100, 15.0) == 15;
    assert Scaled(100, 1.0 + 15.0 / 100.0) == 115 && Scaled(100, 1.0 - 9.0 / 100.0) == 91;
  }

  /**
    A phrase row of the current day reverses the decision: the two histories have the same completed days, in
    campaign rows and in phrase rows, and one raises the bid that the other lowers.
  */
  lemma TodaysPhraseRowReverses()
    ensures SameClosedPhrases(PhraseToday(5.0), PhraseToday(2.0), 3)
    ensures Admissible(SearchPlaybook, PLAYBOOK, AT_HUNDRED, FLAT_WINDOW, 3)
    ensures EngineDecision(SearchPlaybook, PLAYBOOK, AT_HUNDRED, FLAT_WINDOW, PhraseToday(5.0), 3, 0, 0) == Some(Decision(100, 115))
    ensures EngineDecision(SearchPlaybook, PLAYBOOK, AT_HUNDRED, FLAT_WINDOW, PhraseToday(2.0), 3, 0, 0) == Some(Decision(100, 91))
  {
    FlatWindowContext(5.0);
    FlatWindowContext(2.0);
    hide CalculateBid, Position, TotalsOf, HalfWindows, Closed;
    ClimbOrPullBack(ContextFrom(SearchPlaybook, AT_HUNDRED, FLAT_WINDOW, PhraseToday(5.0)));
    ClimbOrPullBack(ContextFrom(SearchPlaybook, AT_HUNDRED, FLAT_WINDOW, PhraseToday(2.0)));
    ClosedPhraseToday(5.0);
    ClosedPhraseToday(2.0);
  }

  lemma ClosedPhraseToday(position: real)
    ensures ClosedPhrase(PhraseToday(position)[0], 3) == [PhraseRow(2, 10, Some(2.0))]
  {
    var rows := PhraseToday(position)[0];
    assert rows[..1] == [PhraseRow(2, 10, Some(2.0))] && rows[..1][..0] == [];
    assert ClosedPhrase(rows[..1], 3) == [PhraseRow(2, 10, Some(2.0))];
  }

  /** Without rows of the current day, equal completed days do fix the signal, and with it the decision. */
  lemma NoOpenRowsSameSignal(kind: Kind, params: Params, ph1: seq<seq<PhraseRow>>, ph2: seq<seq<PhraseRow>>, today: int)
    requires SameClosedPhrases(ph1, ph2, today)
    requires forall i, r | 0 <= i < |ph1| && r in ph1[i] :: r.day < today
    requires forall i, r | 0 <= i < |ph2| && r in ph2[i] :: r.day < today
    ensures ph1 == ph2 && PhraseSignal(kind, params, ph1) == PhraseSignal(kind, params, ph2)
  {
    forall i | 0 <= i < |ph1| ensures ph1[i] == ph2[i] {
      AllClosed(ph1[i], today);
      AllClosed(ph2[i], today);
    }
  }

  lemma {:induction false} AllClosed(rows: seq<PhraseRow>, today: int)
    requires forall r | r in rows :: r.day < today
    ensures ClosedPhrase(rows, today) == rows
    decreases |rows|
  {
    if rows != [] {
      AllClosed(rows[..|rows| - 1], today);
      assert rows == rows[..|rows| - 1] + [rows[|rows| - 1]];
    }
  }

  // ------------------------------------------------------------- columns, row by row

  /** The sum of a figure of each row. */
  ghost function Total(stats: seq<StatRow>, f: StatRow -> int): int {
    if stats == [] then 0 else Total(stats[..|stats| - 1], f) + f(stats[|stats| - 1])
  }

  lemma {:induction false} SumIsTotal(stats: seq<StatRow>, c: Column, f: StatRow -> int)
    requires forall row :: f(row) == Value(c, row)
    ensures Sum(stats, c) == Total(stats, f)
    decreases |stats|
  {
    if stats != [] {
      SumIsTotal(stats[..|stats| - 1], c, f);
    }
  }

  /** The figures on the rows' own fields: clicks and spend of one day, impressions of the two halves of a window. */
  function ClicksOf(day: int): StatRow -> int {
    (row: StatRow) => if row.day == Some(day) then row.clicks else 0
  }

  function SpendOf(day: int): StatRow -> int {
    (row: StatRow) => if row.day == Some(day) then row.spend else 0
  }

  function ImpressionsFrom(from: int, to: int): StatRow -> int {
    (row: StatRow) => if row.day.Some? && 2 * row.day.value >= from + to then row.impressions else 0
  }

  function ImpressionsBefore(from: int, to: int): StatRow -> int {
    (row: StatRow) => if row.day.Some? && 2 * row.day.value < from + to then row.impressions else 0
  }

  ghost predicate HasDay(stats: seq<StatRow>, day: int) {
    exists row | row in stats :: row.day == Some(day)
  }

  /** The days of a window reach from its first to its last. */
  ghost predicate Spans(stats: seq<StatRow>, first: int, last: int) {
    && HasDay(stats, first) && HasDay(stats, last)
    && forall row | row in stats && row.day.Some? :: first <= row.day.value <= last
  }

  lemma WindowEnds(stats: seq<StatRow>, first: int, last: int)
    requires Spans(stats, first, last)
    ensures Largest(stats, Day) == Some(last) && Negated(Largest(stats, Age)) == Some(first)
  {
    hide Spans, HasDay, Largest;
    LatestDay(stats, first, last);
    EarliestDay(stats, first, last);
  }

  lemma LatestDay(stats: seq<StatRow>, first: int, last: int)
    requires Spans(stats, first, last)
    ensures Largest(stats, Day) == Some(last)
  {
    hide Largest;
    var row :| row in stats && row.day == Some(last);
    LargestIs(stats, Day, row);
  }

  lemma EarliestDay(stats: seq<StatRow>, first: int, last: int)
    requires Spans(stats, first, last)
    ensures Largest(stats, Age) == Some(-first)
  {
    hide Largest;
    var row :| row in stats && row.day == Some(first);
    LargestIs(stats, Age, row);
  }

  lemma LargestIs(stats: seq<StatRow>, c: Stamp, row: StatRow)
    requires row in stats && StampOf(c, row).Some?
    requires forall r | r in stats && StampOf(c, r).Some? :: StampOf(c, r).value <= StampOf(c, row).value
    ensures Largest(stats, c) == StampOf(c, row)
  {
    hide StampOf, Largest;
    assert IsLargest(stats, c, Largest(stats, c));
  }

  /**
    What the playbook compares: the impressions from the middle of the window on with those before it; only when
    both are zero do the window's totals stand.
  */
  lemma PlaybookComparesHalves(base: BidContext, closed: seq<StatRow>, phrases: seq<seq<PhraseRow>>, first: int, last: int)
    requires Spans(closed, first, last)
    ensures var ctx := ContextFrom(SearchPlaybook, base, closed, phrases);
            var recent, older := Total(closed, ImpressionsFrom(first, last)), Total(closed, ImpressionsBefore(first, last));
            && (recent > 0 || older > 0 ==> ctx.impressions == recent && ctx.prevImpressions == older)
            && (recent <= 0 && older <= 0 ==>
                  ctx.impressions == Total(closed, (row: StatRow) => row.impressions) && ctx.prevImpressions == base.prevImpressions)
  {
    hide Position, Sum, Total;
    WindowEnds(closed, first, last);
    SumIsTotal(closed, RecentImpressions(last + first), ImpressionsFrom(first, last));
    SumIsTotal(closed, OlderImpressions(last + first), ImpressionsBefore(first, last));
    SumIsTotal(closed, Impressions, (row: StatRow) => row.impressions);
  }

  /** Completed days are fresh exactly if no age is configured or some row was stored within it. */
  lemma FreshIff(stats: seq<StatRow>, maxAgeHours: int, now: int)
    ensures !Stale(stats, maxAgeHours, now) <==>
              maxAgeHours <= 0 || exists row | row in stats :: row.createdAt.Some? && now - row.createdAt.value <= maxAgeHours
  {
    assert IsLargest(stats, CreatedAt, Largest(stats, CreatedAt));
    assert forall row :: StampOf(CreatedAt, row) == row.createdAt;
  }

  // ----------------------------------------------------------- when the open day vetoes

  /** Today's rows show at least twenty clicks. */
  ghost predicate EnoughClicks(stats: seq<StatRow>, day: int) {
    HasDay(stats, day) && Total(stats, ClicksOf(day)) >= 20
  }

  /** A limit that today's spend, which is known, has not reached. */
  ghost predicate Below(stats: seq<StatRow>, day: int, limit: Option<int>) {
    limit.Some? && limit.value > 0 && HasDay(stats, day) && Total(stats, SpendOf(day)) < limit.value
  }

  /** After the first hour of the day, spending on at the same pace does not reach the budget. */
  ghost predicate PacedBelow(spend: int, hours: real, budget: int) {
    spend > 0 && hours >= 1.0 ==> Round(spend as real / hours * 24.0) < budget
  }

  ghost predicate IncreaseMayPass(stats: seq<StatRow>, campaignStats: seq<StatRow>, open: OpenDay) {
    && EnoughClicks(stats, open.day)
    && Below(campaignStats, open.day, if open.configuredLimit.Some? then open.configuredLimit else open.dailyBudget)
    && open.balance.Some? && open.balance.value > 0
    && (open.dailyBudget.Some? && open.dailyBudget.value > 0 ==>
          && Below(campaignStats, open.day, open.dailyBudget)
          && PacedBelow(Total(campaignStats, SpendOf(open.day)), open.hoursElapsed, open.dailyBudget.value))
  }

  lemma OpenDayBlocksIff(stats: seq<StatRow>, campaignStats: seq<StatRow>, open: OpenDay)
    ensures RecentClicksBlock(stats, open) || DailyBudgetBlocks(campaignStats, open) || FinanceBlocks(campaignStats, open)
            <==> !IncreaseMayPass(stats, campaignStats, open)
  {
    hide Sum, Total, Round;
    SumIsTotal(stats, ClicksOn(open.day), ClicksOf(open.day));
    SumIsTotal(campaignStats, SpendOn(open.day), SpendOf(open.day));
  }

  /**
    Exactly when the open day vetoes: an increase passes if and only if today shows twenty clicks, a positive
    limit that today's known spend is below, a positive balance, and a daily budget, where there is one, that
    neither the spend nor its pace reaches; a decrease passes unless the marketplace minimum forbids it.
  */
  lemma OpenDayVetoesIff(kind: Kind, params: Params, base: BidContext, stats: seq<StatRow>, campaignStats: seq<StatRow>,
                         phrases: seq<seq<PhraseRow>>, today: int, maxAgeHours: int, now: int, open: OpenDay)
    requires Admissible(kind, params, base, stats, today)
    requires EngineDecision(kind, params, base, stats, phrases, today, maxAgeHours, now).Some?
    ensures var d := EngineDecision(kind, params, base, stats, phrases, today, maxAgeHours, now).value;
            var passes := if d.newBid > d.oldBid then IncreaseMayPass(stats, campaignStats, open)
                          else d.newBid < d.oldBid ==> !open.minimumReached;
            GuardedDecision(kind, params, base, stats, campaignStats, phrases, today, maxAgeHours, now, open)
            == if passes then Some(d) else None
  {
    hide EngineDecision, Admissible, RecentClicksBlock, DailyBudgetBlocks, FinanceBlocks, IncreaseMayPass;
    OpenDayBlocksIff(stats, campaignStats, open);
  }

  // ------------------------------------------------------------------ the mean, phrase by phrase

  /** The latest row of a phrase, if it shows a positive position. */
  ghost function Counting(rows: seq<PhraseRow>): Option<PhraseRow> {
    var last := LatestRow(rows);
    if last.Some? && last.value.avgPos.Some? && last.value.avgPos.value > 0.0 then last else None
  }

  /** One more phrase enters the mean with its latest positive position, by its impressions, or by one where there are none. */
  lemma PhraseEntersMean(phrases: seq<seq<PhraseRow>>, rows: seq<PhraseRow>)
    ensures var w, sum, last := WeightTotal(phrases), WeightedSum(phrases), Counting(rows);
            var share := if last.None? then 0.0 else if last.value.impressions > 0 then last.value.impressions as real else 1.0;
            && WeightTotal(phrases + [rows]) == w + share
            && WeightedSum(phrases + [rows]) == (if last.None? then sum else sum + last.value.avgPos.value * share)
            && (w + share > 0.0 ==> Position(phrases + [rows]) == Some(WeightedSum(phrases + [rows]) / (w + share)))
  {
    hide LatestRow, Position;
    var more := phrases + [rows];
    assert more[..|more| - 1] == phrases;
    MeanOf(more);
  }

  lemma MeanOf(phrases: seq<seq<PhraseRow>>)
    ensures WeightTotal(phrases) != 0.0 ==> Position(phrases) == Some(WeightedSum(phrases) / WeightTotal(phrases))
  {
  }
}
