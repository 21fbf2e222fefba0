/**
  Back-filling pay-per-order history (cmd/ozon-cpo-backfill/main.go): the report's orders in the requested
  window, each order and SKU once, must add up to the campaign's spend to the kopeck before they replace the
  stored window.
*/
module CpoBackfill {
  import opened Numeric
  import opened SkuBackfill

  datatype OrderRow = OrderRow(orderId: string, sku: int, day: int, spendRub: real)

  datatype OrderKey = OrderKey(orderId: string, sku: int)

  /** A stored order; the table has one row per order and SKU. */
  datatype Stored = Stored(day: int, spendRub: real)

  function KeyOfOrder(row: OrderRow): OrderKey {
    OrderKey(row.orderId, row.sku)
  }

  predicate Within(day: int, from: int, to: int) {
    from <= day <= to
  }

  predicate ValidOrder(row: OrderRow) {
    row.orderId != "" && row.sku > 0 && row.spendRub >= 0.0
  }

  // --------------------------------------------------------------------- selection

  /** The rows of the report that lie in the window. */
  function Selected(rows: seq<OrderRow>, from: int, to: int): seq<OrderRow> {
    if rows == [] then []
    else
      var earlier, row := Selected(rows[..|rows| - 1], from, to), rows[|rows| - 1];
      if Within(row.day, from, to) then earlier + [row] else earlier
  }

  function KopecksOf(rows: seq<OrderRow>): int {
    if rows == [] then 0 else KopecksOf(rows[..|rows| - 1]) + Kopecks(rows[|rows| - 1].spendRub)
  }

  ghost predicate EachOnce(rows: seq<OrderRow>) {
    forall i, j | 0 <= i < j < |rows| :: KeyOfOrder(rows[i]) != KeyOfOrder(rows[j])
  }

  ghost predicate AllValid(rows: seq<OrderRow>) {
    forall i | 0 <= i < |rows| :: ValidOrder(rows[i])
  }

  datatype Promo = Promo(isAllSkuPromo: bool, spendRub: real)

  ghost predicate AcceptableOrders(stored: Option<Promo>, report: Option<seq<OrderRow>>, from: int, to: int) {
    && stored.Some? && stored.value.isAllSkuPromo && stored.value.spendRub > 0.0
    && report.Some?
    && var selected := Selected(report.value, from, to);
       && selected != [] && AllValid(selected) && EachOnce(selected)
       && KopecksOf(selected) == Kopecks(stored.value.spendRub)
  }

  lemma {:induction false} SelectedInWindow(rows: seq<OrderRow>, from: int, to: int, i: nat)
    requires i < |Selected(rows, from, to)|
    ensures Within(Selected(rows, from, to)[i].day, from, to)
    decreases |rows|
  {
    if i < |Selected(rows[..|rows| - 1], from, to)| {
      SelectedInWindow(rows[..|rows| - 1], from, to, i);
    }
  }

  /** A row that is selected later can only add to what is wrong. */
  lemma {:induction false} SelectedGrows(rows: seq<OrderRow>, from: int, to: int, k: nat)
    requires k <= |rows|
    ensures Selected(rows[..k], from, to) <= Selected(rows, from, to)
    decreases |rows|
  {
    if k < |rows| {
      assert rows[..|rows| - 1][..k] == rows[..k];
      SelectedGrows(rows[..|rows| - 1], from, to, k);
    } else {
      assert rows[..k] == rows;
    }
  }

  // ------------------------------------------------------------------- replacement

  function Upserted(table: map<OrderKey, Stored>, rows: seq<OrderRow>): map<OrderKey, Stored> {
    if rows == [] then table
    else
      var row := rows[|rows| - 1];
      Upserted(table, rows[..|rows| - 1])[KeyOfOrder(row) := Stored(row.day, row.spendRub)]
  }

  function Outside(table: map<OrderKey, Stored>, from: int, to: int): map<OrderKey, Stored> {
    map k | k in table && !Within(table[k].day, from, to) :: table[k]
  }

  function Window(table: map<OrderKey, Stored>, from: int, to: int): map<OrderKey, Stored> {
    map k | k in table && Within(table[k].day, from, to) :: table[k]
  }

  datatype CpoFailure =
    | NoCampaignFound | NotAllSkuPromo | NoCampaignSpend | ReportUnavailable | InvalidOrder | DuplicateOrder
    | NothingInWindow | DoesNotReconcile | NotCommitted

  datatype CpoResult = Replaced | Checked | Refused(failure: CpoFailure)

  lemma SelectedNext(rows: seq<OrderRow>, from: int, to: int, i: nat)
    requires i < |rows|
    ensures Selected(rows[..i + 1], from, to)
         == (if Within(rows[i].day, from, to) then Selected(rows[..i], from, to) + [rows[i]] else Selected(rows[..i], from, to))
    ensures Selected(rows[..i + 1], from, to) <= Selected(rows, from, to)
  {
    assert rows[..i + 1][..i] == rows[..i];
    SelectedGrows(rows, from, to, i + 1);
  }

  /** The keys of the selected rows, as the loop remembers them. */
  ghost predicate Remembers(seen: set<OrderKey>, rows: seq<OrderRow>) {
    forall k :: k in seen <==> exists j | 0 <= j < |rows| :: KeyOfOrder(rows[j]) == k
  }

  lemma RemembersNext(seen: set<OrderKey>, rows: seq<OrderRow>, row: OrderRow)
    requires Remembers(seen, rows) && EachOnce(rows) && KeyOfOrder(row) !in seen
    ensures Remembers(seen + {KeyOfOrder(row)}, rows + [row]) && EachOnce(rows + [row])
  {
    var next := rows + [row];
    assert forall j | 0 <= j < |rows| :: next[j] == rows[j];
    forall k ensures k in seen + {KeyOfOrder(row)} <==> exists j | 0 <= j < |next| :: KeyOfOrder(next[j]) == k {
      if k == KeyOfOrder(row) {
        assert KeyOfOrder(next[|rows|]) == k;
      }
    }
  }

  lemma RepeatedSomewhere(seen: set<OrderKey>, rows: seq<OrderRow>, row: OrderRow, all: seq<OrderRow>)
    requires Remembers(seen, rows) && KeyOfOrder(row) in seen && rows + [row] <= all
    ensures !EachOnce(all)
  {
    var j :| 0 <= j < |rows| && KeyOfOrder(rows[j]) == KeyOfOrder(row);
    assert all[j] == (rows + [row])[j] && all[|rows|] == (rows + [row])[|rows|];
  }

  /** The selection loop: it succeeds exactly if the rows in the window are valid and no order and SKU repeats. */
  method SelectOrders(rows: seq<OrderRow>, from: int, to: int)
    returns (selected: seq<OrderRow>, reportCents: int, failure: Option<CpoFailure>)
    ensures failure.None? <==> AllValid(Selected(rows, from, to)) && EachOnce(Selected(rows, from, to))
    ensures failure.None? ==> selected == Selected(rows, from, to) && reportCents == KopecksOf(selected)
  {
    hide Selected, Remembers, EachOnce;
    selected, reportCents, failure := [], 0, None;
    var seen: set<OrderKey> := {};
    NothingSelected(rows, from, to);
    for i := 0 to |rows|
      invariant selected == Selected(rows[..i], from, to) && reportCents == KopecksOf(selected) && failure.None?
      invariant AllValid(selected) && EachOnce(selected) && Remembers(seen, selected)
    {
      SelectedNext(rows, from, to, i);
      var row := rows[i];
      if !Within(row.day, from, to) {
        continue;
      }
      if row.orderId == "" || row.sku <= 0 || row.spendRub < 0.0 {
        assert Selected(rows, from, to)[|selected|] == (selected + [row])[|selected|];
        failure := Some(InvalidOrder);
        return;
      }
      if KeyOfOrder(row) in seen {
        RepeatedSomewhere(seen, selected, row, Selected(rows, from, to));
        failure := Some(DuplicateOrder);
        return;
      }
      RemembersNext(seen, selected, row);
      seen := seen + {KeyOfOrder(row)};
      reportCents := reportCents + Kopecks(row.spendRub);
      assert (selected + [row])[..|selected|] == selected;
      selected := selected + [row];
    }
    assert rows[..|rows|] == rows;
  }

  lemma NothingSelected(rows: seq<OrderRow>, from: int, to: int)
    ensures Selected(rows[..0], from, to) == [] && EachOnce([]) && Remembers({}, [])
  {
  }

  class Orders {
    var table: map<OrderKey, Stored>

    method Replace(selected: seq<OrderRow>, from: int, to: int, commits: bool) returns (ok: bool)
      modifies this
      ensures ok == commits
      ensures table == if ok then Upserted(Outside(old(table), from, to), selected) else old(table)
    {
      var work := Outside(table, from, to);
      for i := 0 to |selected|
        invariant work == Upserted(Outside(table, from, to), selected[..i])
      {
        assert selected[..i + 1][..i] == selected[..i];
        work := work[KeyOfOrder(selected[i]) := Stored(selected[i].day, selected[i].spendRub)];
      }
      assert selected[..|selected|] == selected;
      ok := commits;
      if ok {
        table := work;
      }
    }

    method Run(stored: Option<Promo>, report: Option<seq<OrderRow>>, from: int, to: int, apply: bool, commits: bool)
      returns (r: CpoResult)
      modifies this
      ensures !r.Refused? <==> AcceptableOrders(stored, report, from, to) && (apply ==> commits)
      ensures r.Replaced? <==> !r.Refused? && apply
      ensures table == if r.Replaced? then Upserted(Outside(old(table), from, to), Selected(report.value, from, to))
                       else old(table)
    {
      if stored.None? {
        return Refused(NoCampaignFound);
      }
      if !stored.value.isAllSkuPromo {
        return Refused(NotAllSkuPromo);
      }
      if stored.value.spendRub <= 0.0 {
        return Refused(NoCampaignSpend);
      }
      if report.None? {
        return Refused(ReportUnavailable);
      }
      var selected, reportCents, failure := SelectOrders(report.value, from, to);
      if failure.Some? {
        return Refused(failure.value);
      }
      if |selected| == 0 {
        return Refused(NothingInWindow);
      }
      if reportCents != Kopecks(stored.value.spendRub) {
        return Refused(DoesNotReconcile);
      }
      if !apply {
        return Checked;
      }
      var ok := Replace(selected, from, to, commits);
      r := if ok then Replaced else Refused(NotCommitted);
    }
  }

  // ------------------------------------------------------------------ what it writes

  /** The kopecks of a table of orders, in any order. */
  ghost function TotalKopecks(m: map<OrderKey, Stored>): int
    decreases |m|
  {
    if m == map[] then 0
    else
      var k :| k in m;
      Kopecks(m[k].spendRub) + TotalKopecks(m - {k})
  }

  lemma {:induction false} TotalWithout(m: map<OrderKey, Stored>, k: OrderKey)
    requires k in m
    ensures TotalKopecks(m) == Kopecks(m[k].spendRub) + TotalKopecks(m - {k})
    decreases |m|
  {
    var j :| j in m && TotalKopecks(m) == Kopecks(m[j].spendRub) + TotalKopecks(m - {j});
    if j != k {
      var a, b := m - {j}, m - {k};
      TotalWithout(a, k);
      TotalWithout(b, j);
      assert a - {k} == b - {j};
    }
  }

  lemma {:induction false} UpsertedKeys(table: map<OrderKey, Stored>, rows: seq<OrderRow>, k: OrderKey)
    ensures k in Upserted(table, rows) <==> k in table || exists i | 0 <= i < |rows| :: KeyOfOrder(rows[i]) == k
    ensures (forall i | 0 <= i < |rows| :: KeyOfOrder(rows[i]) != k) && k in table ==> Upserted(table, rows)[k] == table[k]
    decreases |rows|
  {
    if rows != [] {
      UpsertedKeys(table, rows[..|rows| - 1], k);
      assert rows == rows[..|rows| - 1] + [rows[|rows| - 1]];
    }
  }

  /** Because each order counts once, the stored rows hold every kopeck of the report. */
  lemma {:induction false} OnceKeepsEveryKopeck(rows: seq<OrderRow>)
    requires EachOnce(rows)
    ensures TotalKopecks(Upserted(map[], rows)) == KopecksOf(rows)
    decreases |rows|
  {
    if rows != [] {
      var n := |rows| - 1;
      var earlier, k := Upserted(map[], rows[..n]), KeyOfOrder(rows[n]);
      OnceKeepsEveryKopeck(rows[..n]);
      UpsertedKeys(map[], rows[..n], k);
      assert forall i | 0 <= i < n :: KeyOfOrder(rows[..n][i]) != k;
      var m := earlier[k := Stored(rows[n].day, rows[n].spendRub)];
      TotalWithout(m, k);
      assert m - {k} == earlier;
    }
  }

  /** What lies in the window afterwards is the report and nothing else; an order that was stored elsewhere has moved. */
  lemma {:induction false} WindowIsReport(table: map<OrderKey, Stored>, rows: seq<OrderRow>, from: int, to: int)
    requires forall i | 0 <= i < |rows| :: Within(rows[i].day, from, to)
    ensures Window(Upserted(Outside(table, from, to), rows), from, to) == Upserted(map[], rows)
    decreases |rows|
  {
    if rows != [] {
      var n := |rows| - 1;
      WindowIsReport(table, rows[..n], from, to);
      var before := Upserted(Outside(table, from, to), rows[..n]);
      var row := rows[n];
      assert Window(before[KeyOfOrder(row) := Stored(row.day, row.spendRub)], from, to)
          == Window(before, from, to)[KeyOfOrder(row) := Stored(row.day, row.spendRub)];
    }
  }

  /** Orders outside the window and not in the report stay as they were. */
  lemma OthersStay(table: map<OrderKey, Stored>, rows: seq<OrderRow>, from: int, to: int, k: OrderKey)
    requires forall i | 0 <= i < |rows| :: KeyOfOrder(rows[i]) != k
    ensures k in Upserted(Outside(table, from, to), rows) <==> k in table && !Within(table[k].day, from, to)
    ensures k in Upserted(Outside(table, from, to), rows) ==> Upserted(Outside(table, from, to), rows)[k] == table[k]
  {
    UpsertedKeys(Outside(table, from, to), rows, k);
  }

  /** After a replacement the stored window equals the campaign's spend to the kopeck. */
  lemma WindowEqualsSpend(table: map<OrderKey, Stored>, stored: Option<Promo>, report: Option<seq<OrderRow>>, from: int, to: int)
    requires AcceptableOrders(stored, report, from, to)
    ensures TotalKopecks(Window(Upserted(Outside(table, from, to), Selected(report.value, from, to)), from, to))
         == Kopecks(stored.value.spendRub)
  {
    var selected := Selected(report.value, from, to);
    forall i | 0 <= i < |selected| ensures Within(selected[i].day, from, to) {
      SelectedInWindow(report.value, from, to, i);
    }
    WindowIsReport(table, selected, from, to);
    OnceKeepsEveryKopeck(selected);
  }

  /** Duplicates have to be refused: stored twice under one key, an order would lose its first amount. */
  lemma DuplicateLosesKopecks(row: OrderRow)
    requires Kopecks(row.spendRub) > 0
    ensures TotalKopecks(Upserted(map[], [row, row])) < KopecksOf([row, row])
  {
    var k, v := KeyOfOrder(row), Stored(row.day, row.spendRub);
    assert [row, row][..1] == [row] && [row][..0] == [];
    assert Upserted(map[], [row]) == map[k := v];
    assert Upserted(map[], [row, row]) == map[k := v][k := v] == map[k := v];
    assert KopecksOf([row]) == Kopecks(row.spendRub);
    TotalWithout(map[k := v], k);
    assert map[k := v] - {k} == map[];
  }

  // --------------------------------------------------------------- on the rows themselves

  /** The report's rows in the window, row by row, in their order. */
  lemma {:induction false} SelectedByDays(rows: seq<OrderRow>, from: int, to: int)
    ensures forall row :: multiset(Selected(rows, from, to))[row] == if from <= row.day <= to then multiset(rows)[row] else 0
    decreases |rows|
  {
    if rows != [] {
      var n := |rows| - 1;
      SelectedByDays(rows[..n], from, to);
      assert rows == rows[..n] + [rows[n]];
    }
  }

  /** What an accepted report looks like: every row of the window names an order and a SKU, costs nothing negative, and is the only one of its order and SKU. */
  lemma AcceptedRows(stored: Option<Promo>, report: Option<seq<OrderRow>>, from: int, to: int, row: OrderRow)
    requires AcceptableOrders(stored, report, from, to) && row in report.value && from <= row.day <= to
    ensures row.orderId != "" && row.sku > 0 && row.spendRub >= 0.0 && multiset(report.value)[row] == 1
    ensures forall other | other in report.value && from <= other.day <= to && other != row ::
              other.orderId != row.orderId || other.sku != row.sku
  {
    var selected := Selected(report.value, from, to);
    SelectedByDays(report.value, from, to);
    assert row in multiset(selected);
    var i :| 0 <= i < |selected| && selected[i] == row;
    assert ValidOrder(selected[i]);
    OnceInSequence(selected, i);
    forall other | other in report.value && from <= other.day <= to && other != row
      ensures other.orderId != row.orderId || other.sku != row.sku
    {
      assert other in multiset(selected);
      var j :| 0 <= j < |selected| && selected[j] == other;
      assert KeyOfOrder(selected[i]) != KeyOfOrder(selected[j]);
    }
  }

  lemma OnceInSequence(rows: seq<OrderRow>, i: nat)
    requires i < |rows| && EachOnce(rows)
    ensures multiset(rows)[rows[i]] == 1
  {
    var a, b := rows[..i], rows[i + 1..];
    assert rows == a + [rows[i]] + b;
    forall j | 0 <= j < |a| ensures a[j] != rows[i] {
      assert KeyOfOrder(rows[j]) != KeyOfOrder(rows[i]);
    }
    forall j | 0 <= j < |b| ensures b[j] != rows[i] {
      assert KeyOfOrder(rows[i]) != KeyOfOrder(rows[i + 1 + j]);
    }
    assert rows[i] !in multiset(a) && rows[i] !in multiset(b);
  }
}
