/**
  Back-filling the SKU history of one campaign (cmd/ozon-campaign-sku-backfill/main.go): report rows
  are grouped by SKU and day in whole kopecks, checked against the campaign's spend and put in place
  of the old window.
*/
module SkuBackfill {
  import opened Numeric

  datatype ReportRow = ReportRow(
    campaign: int, sku: int, day: int, spendRub: real, views: int, clicks: int, orders: int, revenueRub: real
  )

  datatype Key = Key(sku: int, day: int)

  datatype Totals = Totals(spend: int, views: int, clicks: int, orders: int, revenue: int)

  const ZERO := Totals(0, 0, 0, 0, 0)

  function Plus(a: Totals, b: Totals): Totals {
    Totals(a.spend + b.spend, a.views + b.views, a.clicks + b.clicks, a.orders + b.orders, a.revenue + b.revenue)
  }

  function Kopecks(rub: real): int {
    Round(rub * 100.0)
  }

  function KeyOf(row: ReportRow): Key {
    Key(row.sku, row.day)
  }

  function TotalsOf(row: ReportRow): Totals {
    Totals(Kopecks(row.spendRub), row.views, row.clicks, row.orders, Kopecks(row.revenueRub))
  }

  predicate ValidRow(row: ReportRow, campaign: int, from: int, to: int) {
    row.campaign == campaign && row.sku > 0 && from <= row.day <= to && row.spendRub >= 0.0
  }

  // --------------------------------------------------------------------- grouping

  function Group(rows: seq<ReportRow>): map<Key, Totals> {
    if rows == [] then map[]
    else
      var m, row := Group(rows[..|rows| - 1]), rows[|rows| - 1];
      m[KeyOf(row) := Plus(if KeyOf(row) in m then m[KeyOf(row)] else ZERO, TotalsOf(row))]
  }

  /** The sum of all rows. */
  function RowTotal(rows: seq<ReportRow>): Totals {
    if rows == [] then ZERO else Plus(RowTotal(rows[..|rows| - 1]), TotalsOf(rows[|rows| - 1]))
  }

  /** The rows of one SKU and day. */
  function RowsOf(rows: seq<ReportRow>, key: Key): seq<ReportRow> {
    if rows == [] then []
    else
      var earlier, row := RowsOf(rows[..|rows| - 1], key), rows[|rows| - 1];
      if KeyOf(row) == key then earlier + [row] else earlier
  }

  /** The sum over a table of groups, in any order. */
  ghost function MapTotal(m: map<Key, Totals>): Totals
    decreases |m|
  {
    if m == map[] then ZERO
    else
      var k :| k in m;
      Plus(m[k], MapTotal(m - {k}))
  }

  lemma {:induction false} MapTotalWithout(m: map<Key, Totals>, k: Key)
    requires k in m
    ensures MapTotal(m) == Plus(m[k], MapTotal(m - {k}))
    decreases |m|
  {
    var j :| j in m && MapTotal(m) == Plus(m[j], MapTotal(m - {j}));
    if j != k {
      var a, b := m - {j}, m - {k};
      MapTotalWithout(a, k);
      MapTotalWithout(b, j);
      assert a - {k} == b - {j};
      var rest := MapTotal(a - {k});
      assert MapTotal(a) == Plus(m[k], rest) && MapTotal(b) == Plus(m[j], rest);
      assert Plus(m[j], Plus(m[k], rest)) == Plus(m[k], Plus(m[j], rest));
    }
  }

  lemma MapTotalAdds(m: map<Key, Totals>, k: Key, x: Totals)
    ensures MapTotal(m[k := Plus(if k in m then m[k] else ZERO, x)]) == Plus(MapTotal(m), x)
  {
    var n := m[k := Plus(if k in m then m[k] else ZERO, x)];
    MapTotalWithout(n, k);
    assert n - {k} == m - {k};
    if k in m {
      MapTotalWithout(m, k);
    } else {
      assert m - {k} == m;
    }
  }

  /** Grouping loses and invents nothing: the groups together are the rows together, in every column. */
  lemma {:induction false} GroupingConserves(rows: seq<ReportRow>)
    ensures MapTotal(Group(rows)) == RowTotal(rows)
    decreases |rows|
  {
    if rows != [] {
      var earlier, row := rows[..|rows| - 1], rows[|rows| - 1];
      GroupingConserves(earlier);
      MapTotalAdds(Group(earlier), KeyOf(row), TotalsOf(row));
    }
  }

  /** And it is a partition: a group is there exactly if it has rows, and holds the sum of exactly those. */
  lemma {:induction false} GroupIsSumOfItsRows(rows: seq<ReportRow>, key: Key)
    ensures key in Group(rows) <==> RowsOf(rows, key) != []
    ensures key in Group(rows) ==> Group(rows)[key] == RowTotal(RowsOf(rows, key))
    decreases |rows|
  {
    if rows != [] {
      var n := |rows| - 1;
      GroupIsSumOfItsRows(rows[..n], key);
      var earlier := RowsOf(rows[..n], key);
      assert (earlier + [rows[n]])[..|earlier|] == earlier;
    }
  }

  lemma {:induction false} GroupedInWindow(rows: seq<ReportRow>, campaign: int, from: int, to: int, key: Key)
    requires forall i | 0 <= i < |rows| :: ValidRow(rows[i], campaign, from, to)
    requires key in Group(rows)
    ensures key.sku > 0 && from <= key.day <= to
    decreases |rows|
  {
    var n := |rows| - 1;
    if KeyOf(rows[n]) != key {
      GroupedInWindow(rows[..n], campaign, from, to, key);
    }
  }

  function SpendRub(rows: seq<ReportRow>): real {
    if rows == [] then 0.0 else SpendRub(rows[..|rows| - 1]) + rows[|rows| - 1].spendRub
  }

  /** Rounding each row moves the total by at most half a kopeck per row. */
  lemma {:induction false} RoundingBound(rows: seq<ReportRow>)
    ensures -0.5 * |rows| as real <= RowTotal(rows).spend as real - SpendRub(rows) * 100.0 <= 0.5 * |rows| as real
    decreases |rows|
  {
    if rows != [] {
      var n := |rows| - 1;
      RoundingBound(rows[..n]);
      RoundNearest(rows[n].spendRub * 100.0);
    }
  }

  // ------------------------------------------------------------------- replacement

  datatype Entry = Entry(campaign: int, key: Key)

  /** The history with one campaign's window replaced by the groups. */
  function Replaced(table: map<Entry, Totals>, campaign: int, from: int, to: int, groups: map<Key, Totals>)
    : map<Entry, Totals>
  {
    map e | e in table.Keys + (set k | k in groups.Keys :: Entry(campaign, k))
            && (e.campaign == campaign && from <= e.key.day <= to ==> e.key in groups)
          :: if e.campaign == campaign && e.key in groups then groups[e.key] else table[e]
  }

  datatype Failure = NoCampaign | WrongKind | NoSpend | NoReport | InvalidRow | EmptyReport | ExceedsSpend | TransactionFailed

  datatype Result = Done | Error(failure: Failure)

  /** The campaign as stored: its kind and its spend in the window. */
  datatype Campaign = Campaign(isSku: bool, spendRub: real)

  ghost predicate Acceptable(stored: Option<Campaign>, report: Option<seq<ReportRow>>, campaign: int, from: int, to: int) {
    && stored.Some? && stored.value.isSku && stored.value.spendRub > 0.0
    && report.Some? && report.value != []
    && (forall i | 0 <= i < |report.value| :: ValidRow(report.value[i], campaign, from, to))
    && RowTotal(report.value).spend <= Kopecks(stored.value.spendRub) + 1
  }

  class History {
    var table: map<Entry, Totals>

    /** The transaction: the window is deleted and the groups inserted in no particular order. */
    method Replace(campaign: int, from: int, to: int, groups: map<Key, Totals>, commits: bool) returns (ok: bool)
      requires forall k | k in groups :: from <= k.day <= to
      modifies this
      ensures ok == commits
      ensures table == if ok then Replaced(old(table), campaign, from, to, groups) else old(table)
    {
      var work := map e | e in table && !(e.campaign == campaign && from <= e.key.day <= to) :: table[e];
      ghost var kept := work;
      var remaining := groups.Keys;
      while remaining != {}
        invariant remaining <= groups.Keys
        invariant forall e :: e in work <==> e in kept || (e.campaign == campaign && e.key in groups && e.key !in remaining)
        invariant forall e | e in work :: work[e] == if e.campaign == campaign && e.key in groups then groups[e.key] else table[e]
        decreases |remaining|
      {
        var k :| k in remaining;
        work := work[Entry(campaign, k) := groups[k]];
        remaining := remaining - {k};
      }
      ok := commits;
      if ok {
        assert work == Replaced(table, campaign, from, to, groups);
        table := work;
      }
    }

    method BackfillCampaign(stored: Option<Campaign>, report: Option<seq<ReportRow>>, campaign: int,
                            from: int, to: int, apply: bool, commits: bool)
      returns (r: Result)
      modifies this
      ensures r.Done? <==> Acceptable(stored, report, campaign, from, to) && (apply ==> commits)
      ensures table == if r.Done? && apply then Replaced(old(table), campaign, from, to, Group(report.value)) else old(table)
    {
      if stored.None? {
        return Error(NoCampaign);
      }
      if !stored.value.isSku {
        return Error(WrongKind);
      }
      if stored.value.spendRub <= 0.0 {
        return Error(NoSpend);
      }
      if report.None? {
        return Error(NoReport);
      }
      var rows := report.value;
      var grouped: map<Key, Totals> := map[];
      var reportCents := 0;
      for i := 0 to |rows|
        invariant forall j | 0 <= j < i :: ValidRow(rows[j], campaign, from, to)
        invariant grouped == Group(rows[..i]) && reportCents == RowTotal(rows[..i]).spend
        invariant i > 0 ==> grouped != map[]
      {
        assert rows[..i + 1][..i] == rows[..i];
        var row := rows[i];
        if row.campaign != campaign || row.sku <= 0 || row.day < from || row.day > to || row.spendRub < 0.0 {
          return Error(InvalidRow);
        }
        var item := if KeyOf(row) in grouped then grouped[KeyOf(row)] else ZERO;
        grouped := grouped[KeyOf(row) := Plus(item, TotalsOf(row))];
        reportCents := reportCents + Kopecks(row.spendRub);
      }
      assert rows[..|rows|] == rows;
      if |grouped| == 0 {
        return Error(EmptyReport);
      }
      if reportCents > Kopecks(stored.value.spendRub) + 1 {
        return Error(ExceedsSpend);
      }
      if !apply {
        return Done;
      }
      forall k | k in grouped ensures from <= k.day <= to {
        GroupedInWindow(rows, campaign, from, to, k);
      }
      var ok := Replace(campaign, from, to, grouped, commits);
      r := if ok then Done else Error(TransactionFailed);
    }
  }

  /** What a successful replacement leaves of the campaign's window, and of everything else. */
  lemma ReplacedContents(table: map<Entry, Totals>, campaign: int, from: int, to: int, groups: map<Key, Totals>, e: Entry)
    requires forall k | k in groups :: from <= k.day <= to
    ensures var after := Replaced(table, campaign, from, to, groups);
            if e.campaign == campaign && from <= e.key.day <= to
            then (e in after <==> e.key in groups) && (e in after ==> after[e] == groups[e.key])
            else (e in after <==> e in table) && (e in after ==> after[e] == table[e])
  {
  }

  /** The written window adds up to the report, to the kopeck, and to at most the campaign's spend plus one kopeck. */
  lemma WindowAddsUp(stored: Option<Campaign>, report: Option<seq<ReportRow>>, campaign: int, from: int, to: int)
    requires Acceptable(stored, report, campaign, from, to)
    ensures MapTotal(Group(report.value)) == RowTotal(report.value)
    ensures MapTotal(Group(report.value)).spend <= Kopecks(stored.value.spendRub) + 1
    ensures SpendRub(report.value) * 100.0
            <= Kopecks(stored.value.spendRub) as real + 1.0 + 0.5 * |report.value| as real
  {
    GroupingConserves(report.value);
    RoundingBound(report.value);
  }

  /** Running it again with the same report changes nothing. */
  lemma ReplacingAgainChangesNothing(table: map<Entry, Totals>, campaign: int, from: int, to: int, groups: map<Key, Totals>)
    requires forall k | k in groups :: from <= k.day <= to
    ensures var after := Replaced(table, campaign, from, to, groups);
            Replaced(after, campaign, from, to, groups) == after
  {
  }

  // ------------------------------------------------------------- columns, row by row

  /** The sum of a figure of each row. */
  ghost function ColumnSum(rows: seq<ReportRow>, f: ReportRow -> int): int {
    if rows == [] then 0 else ColumnSum(rows[..|rows| - 1], f) + f(rows[|rows| - 1])
  }

  /** The totals hold each column of the report: views, clicks and orders as they are, money rounded to kopecks row by row. */
  lemma {:induction false} TotalsAreColumnSums(rows: seq<ReportRow>, spend: ReportRow -> int, views: ReportRow -> int,
                                               clicks: ReportRow -> int, orders: ReportRow -> int, revenue: ReportRow -> int)
    requires forall r: ReportRow :: spend(r) == Round(r.spendRub * 100.0) && revenue(r) == Round(r.revenueRub * 100.0)
    requires forall r: ReportRow :: views(r) == r.views && clicks(r) == r.clicks && orders(r) == r.orders
    ensures var t := RowTotal(rows);
            && t.spend == ColumnSum(rows, spend) && t.views == ColumnSum(rows, views)
            && t.clicks == ColumnSum(rows, clicks) && t.orders == ColumnSum(rows, orders)
            && t.revenue == ColumnSum(rows, revenue)
    decreases |rows|
  {
    hide Round;
    if rows != [] {
      TotalsAreColumnSums(rows[..|rows| - 1], spend, views, clicks, orders, revenue);
    }
  }

  /**
    Exactly which reports are accepted: not empty, every row for the campaign, for a SKU, in the window and with
    no negative spend, and all together, in kopecks row by row, at most one kopeck above the stored spend.
  */
  lemma AcceptedIff(stored: Option<Campaign>, report: seq<ReportRow>, campaign: int, from: int, to: int, spend: ReportRow -> int)
    requires forall r: ReportRow :: spend(r) == Round(r.spendRub * 100.0)
    ensures Acceptable(stored, Some(report), campaign, from, to) <==>
              && stored.Some? && stored.value.isSku && stored.value.spendRub > 0.0 && report != []
              && (forall row | row in report ::
                    row.campaign == campaign && row.sku > 0 && from <= row.day && row.day <= to && row.spendRub >= 0.0)
              && ColumnSum(report, spend) <= Round(stored.value.spendRub * 100.0) + 1
  {
    SpendIsColumnSum(report, spend);
    hide RowTotal, ColumnSum, Round;
    if forall row | row in report ::
         row.campaign == campaign && row.sku > 0 && from <= row.day && row.day <= to && row.spendRub >= 0.0 {
      assert forall i | 0 <= i < |report| :: report[i] in report;
    }
  }

  lemma {:induction false} SpendIsColumnSum(rows: seq<ReportRow>, spend: ReportRow -> int)
    requires forall r: ReportRow :: spend(r) == Round(r.spendRub * 100.0)
    ensures RowTotal(rows).spend == ColumnSum(rows, spend)
    decreases |rows|
  {
    hide Round;
    if rows != [] {
      SpendIsColumnSum(rows[..|rows| - 1], spend);
    }
  }
}
