/**
 * The four table metrics of the analyzer: revenue against budget, the gross margin trend, the
 * operating-expense breakdown and EBITDA. Amounts are exact reals; every division is guarded
 * the way the analyzer guards it, yielding 0 for a zero denominator.
 */
module Metrics {
  import opened Wrappers
  import opened Text
  import opened Tables
  import opened Currency
  import opened Dicts

  /** `(part / whole * 100) if whole != 0 else 0` */
  function Percent(part: real, whole: real): (p: real)
    ensures whole != 0.0 ==> p * whole == part * 100.0
    ensures whole == 0.0 ==> p == 0.0
  {
    if whole != 0.0 then part / whole * 100.0 else 0.0
  }

  const RevenueRows: Selector := Account("Revenue")
  const CogsRows: Selector := Account("COGS")

  // ---------------------------------------------------------------- revenue vs budget

  datatype RevenueReport = RevenueReport(
    month: string, actual: real, budget: real, variance: real, variancePct: real)

  /**
   * get_revenue_vs_budget: the Revenue rows of each table converted to USD and summed in the
   * month column. A blank month is an IndexError and a month column a table lacks a KeyError.
   */
  function RevenueVsBudget(actuals: Table, budget: Table, fx: seq<FxRow>, month: string): (r: Result<RevenueReport>)
    ensures r.Ok? <==> FirstWord(month).Some? && month in actuals.columns && month in budget.columns
    ensures r.Ok? ==>
      && r.value.month == month
      && r.value.variance == r.value.actual - r.value.budget
      && r.value.variancePct == Percent(r.value.variance, r.value.budget)
  {
    var ra := Converted(fx, Where(actuals, RevenueRows), month);
    var rb := Converted(fx, Where(budget, RevenueRows), month);
    if ra.Err? then Err(ra.error)
    else if rb.Err? then Err(rb.error)
    else if month !in ra.value.columns || month !in rb.value.columns then Err(MissingColumn(month))
    else
      var actual := ColumnSum(ra.value.rows, month);
      var budgeted := ColumnSum(rb.value.rows, month);
      Ok(RevenueReport(month, actual, budgeted, actual - budgeted, Percent(actual - budgeted, budgeted)))
  }

  /** Actual and budget are the USD values of the Revenue rows alone, whatever else the tables hold. */
  lemma RevenueTotals(actuals: Table, budget: Table, fx: seq<FxRow>, month: string)
    requires RevenueVsBudget(actuals, budget, fx, month).Ok?
    ensures FirstWord(month).Some?
    ensures RevenueVsBudget(actuals, budget, fx, month).value.actual
      == UsdTotal(Select(actuals.rows, RevenueRows), fx, month)
    ensures RevenueVsBudget(actuals, budget, fx, month).value.budget
      == UsdTotal(Select(budget.rows, RevenueRows), fx, month)
  {
    ConvertedTotal(fx, Where(actuals, RevenueRows), month);
    ConvertedTotal(fx, Where(budget, RevenueRows), month);
  }

  // ---------------------------------------------------------------- gross margin trend

  datatype MarginEntry = MarginEntry(
    month: string, revenue: real, cogs: real, grossProfit: real, grossMarginPct: real)

  /** One month's entry from actuals already in USD. */
  function MarginOf(u: Table, month: string): (e: MarginEntry)
    ensures e.month == month && e.grossProfit == e.revenue - e.cogs
    ensures e.grossMarginPct == Percent(e.grossProfit, e.revenue)
    ensures e.revenue == ColumnSum(Select(u.rows, RevenueRows), month)
    ensures e.cogs == ColumnSum(Select(u.rows, CogsRows), month)
  {
    var revenue := ColumnSum(Select(u.rows, RevenueRows), month);
    var cogs := ColumnSum(Select(u.rows, CogsRows), month);
    var grossProfit := revenue - cogs;
    MarginEntry(month, revenue, cogs, grossProfit, if revenue != 0.0 then grossProfit / revenue * 100.0 else 0.0)
  }

  /** One month of the trend computed from the converted actuals, or the exception raised. */
  function MarginComputed(actuals: Table, fx: seq<FxRow>, month: string): (r: Result<MarginEntry>)
    ensures r.Ok? <==> FirstWord(month).Some? && month in actuals.columns
    ensures r.Ok? ==>
      && r.value.month == month
      && r.value.grossProfit == r.value.revenue - r.value.cogs
      && r.value.grossMarginPct == Percent(r.value.grossProfit, r.value.revenue)
  {
    match Converted(fx, actuals, month)
    case Err(e) => Err(e)
    case Ok(u) =>
      if month !in u.columns then Err(MissingColumn(month)) else Ok(MarginOf(u, month))
  }

  /** Revenue and COGS of a computed month are the USD values of those rows alone. */
  lemma MarginTotals(actuals: Table, fx: seq<FxRow>, month: string)
    requires MarginComputed(actuals, fx, month).Ok?
    ensures MarginComputed(actuals, fx, month).value.revenue
      == UsdTotal(Select(actuals.rows, RevenueRows), fx, month)
    ensures MarginComputed(actuals, fx, month).value.cogs
      == UsdTotal(Select(actuals.rows, CogsRows), fx, month)
  {
    ConvertedWhere(fx, actuals, month, RevenueRows);
    ConvertedWhere(fx, actuals, month, CogsRows);
    ConvertedTotal(fx, Where(actuals, RevenueRows), month);
    ConvertedTotal(fx, Where(actuals, CogsRows), month);
  }

  /** The fixed entries the trend falls back to for a month whose computation raised. */
  function SampleMargin(month: string): (e: Option<MarginEntry>)
    ensures e.Some? <==> month in ["Apr 2025", "May 2025", "Jun 2025"]
    ensures e.Some? ==> e.value.month == month && e.value.grossProfit == e.value.revenue - e.value.cogs
  {
    if month == "Apr 2025" then Some(MarginEntry("Apr 2025", 2280000.0, 955000.0, 1325000.0, 58.1))
    else if month == "May 2025" then Some(MarginEntry("May 2025", 2315000.0, 968000.0, 1347000.0, 58.2))
    else if month == "Jun 2025" then Some(MarginEntry("Jun 2025", 2350000.0, 980000.0, 1370000.0, 58.3))
    else None
  }

  /** The entry the trend lists for one month: the computed one, else the sample one, else none. */
  function MarginFor(actuals: Table, fx: seq<FxRow>, month: string): (e: Option<MarginEntry>)
    ensures e.Some? ==> e.value.month == month && e.value.grossProfit == e.value.revenue - e.value.cogs
    ensures e.None? <==> MarginComputed(actuals, fx, month).Err? && month !in ["Apr 2025", "May 2025", "Jun 2025"]
  {
    match MarginComputed(actuals, fx, month)
    case Ok(entry) => Some(entry)
    case Err(_) => SampleMargin(month)
  }

  /** The entries that are present, in order. */
  function Present(entries: seq<Option<MarginEntry>>): (p: seq<MarginEntry>)
    ensures |p| <= |entries|
    decreases |entries|
  {
    if entries == [] then []
    else
      var last := entries[|entries| - 1];
      Present(entries[..|entries| - 1]) + (if last.Some? then [last.value] else [])
  }

  /** Each month's entry, if it has one. */
  function Entries(actuals: Table, fx: seq<FxRow>, months: seq<string>): seq<Option<MarginEntry>> {
    seq(|months|, i requires 0 <= i < |months| => MarginFor(actuals, fx, months[i]))
  }

  /** The trend over months: one entry per month that has one, in the order asked. */
  function Trend(actuals: Table, fx: seq<FxRow>, months: seq<string>): (t: seq<MarginEntry>)
    ensures |t| <= |months|
  {
    Present(Entries(actuals, fx, months))
  }

  /** get_gross_margin_trend: one pass over the months, appending each month's entry. */
  method GrossMarginTrend(actuals: Table, fx: seq<FxRow>, months: seq<string>) returns (results: seq<MarginEntry>)
    ensures results == Trend(actuals, fx, months)
  {
    results := [];
    var i := 0;
    while i < |months|
      invariant 0 <= i <= |months|
      invariant results == Trend(actuals, fx, months[..i])
    {
      var month := months[i];
      TrendStep(actuals, fx, months, i);
      var converted := ConvertToUsd(fx, actuals, month);
      MarginOfConverted(actuals, fx, month);
      if converted.Ok? && month in converted.value.columns {
        results := results + [MarginOf(converted.value, month)];
      } else {
        var sample := SampleMargin(month);
        if sample.Some? {
          results := results + [sample.value];
        }
      }
      i := i + 1;
    }
    assert months[..|months|] == months;
  }

  lemma MarginOfConverted(actuals: Table, fx: seq<FxRow>, month: string)
    ensures var c := Converted(fx, actuals, month);
      if c.Ok? && month in c.value.columns then MarginFor(actuals, fx, month) == Some(MarginOf(c.value, month))
      else MarginFor(actuals, fx, month) == SampleMargin(month)
  {
  }

  lemma TrendStep(actuals: Table, fx: seq<FxRow>, months: seq<string>, i: nat)
    requires i < |months|
    ensures Trend(actuals, fx, months[..i + 1]) ==
      Trend(actuals, fx, months[..i]) + (var e := MarginFor(actuals, fx, months[i]); if e.Some? then [e.value] else [])
  {
    assert Entries(actuals, fx, months[..i + 1])[..i] == Entries(actuals, fx, months[..i]);
  }

  /** Only present entries are kept, never more than there are entries. */
  lemma {:induction false} PresentEntries(entries: seq<Option<MarginEntry>>)
    ensures |Present(entries)| <= |entries|
    ensures forall e :: e in Present(entries) ==> Some(e) in entries
    decreases |entries|
  {
    if entries != [] {
      var init := entries[..|entries| - 1];
      PresentEntries(init);
      assert forall x :: x in init ==> x in entries;
    }
  }

  /** With every entry present, they are all kept, in order. */
  lemma {:induction false} PresentAll(entries: seq<Option<MarginEntry>>)
    requires forall k :: 0 <= k < |entries| ==> entries[k].Some?
    ensures |Present(entries)| == |entries|
    ensures forall k :: 0 <= k < |entries| ==> Present(entries)[k] == entries[k].value
    decreases |entries|
  {
    if entries != [] {
      var init := entries[..|entries| - 1];
      PresentAll(init);
    }
  }

  /** The trend never has more entries than months asked for, and every entry is consistent. */
  lemma TrendEntries(actuals: Table, fx: seq<FxRow>, months: seq<string>)
    ensures |Trend(actuals, fx, months)| <= |months|
    ensures forall e :: e in Trend(actuals, fx, months) ==>
      e.month in months && e.grossProfit == e.revenue - e.cogs
  {
    var entries := Entries(actuals, fx, months);
    PresentEntries(entries);
    forall e | e in Trend(actuals, fx, months)
      ensures e.month in months && e.grossProfit == e.revenue - e.cogs
    {
      var k :| 0 <= k < |entries| && entries[k] == Some(e);
      assert MarginFor(actuals, fx, months[k]) == Some(e);
    }
  }

  /** When no month raises, the trend is exactly one computed entry per month, in order. */
  lemma TrendWithoutFailures(actuals: Table, fx: seq<FxRow>, months: seq<string>)
    requires forall k :: 0 <= k < |months| ==> FirstWord(months[k]).Some? && months[k] in actuals.columns
    ensures |Trend(actuals, fx, months)| == |months|
    ensures forall k :: 0 <= k < |months| ==>
      Trend(actuals, fx, months)[k] == MarginComputed(actuals, fx, months[k]).value
  {
    var entries := Entries(actuals, fx, months);
    forall k | 0 <= k < |months|
      ensures entries[k] == Some(MarginComputed(actuals, fx, months[k]).value)
    {
    }
    PresentAll(entries);
  }

  /** A month that raises is replaced by its sample entry for April to June and dropped otherwise. */
  lemma TrendOfFailingMonth(actuals: Table, fx: seq<FxRow>, months: seq<string>, month: string)
    requires MarginComputed(actuals, fx, month).Err?
    ensures Trend(actuals, fx, months + [month]) ==
      Trend(actuals, fx, months) + (if SampleMargin(month).Some? then [SampleMargin(month).value] else [])
  {
    var all := months + [month];
    var e := MarginFor(actuals, fx, month);
    assert Trend(actuals, fx, all) == Trend(actuals, fx, months) + (if e.Some? then [e.value] else []) by {
      TrendStep(actuals, fx, all, |months|);
      assert all[..|months| + 1] == all;
      assert all[..|months|] == months;
      assert all[|months|] == month;
    }
    assert e == SampleMargin(month);
  }

  // ---------------------------------------------------------------- opex breakdown

  /** The category of an operating-expense account: the account with every "Opex:" removed. */
  function Category(account: string): (c: string)
    ensures |c| <= |account|
    ensures !Contains(account, OpexPrefix) ==> c == account
  {
    RemoveAll(account, OpexPrefix)
  }

  /** Each row's category paired with its amount for the month. */
  function CategoryAmounts(rows: seq<Row>, month: string): (e: seq<(string, real)>)
    ensures |e| == |rows|
  {
    seq(|rows|, i requires 0 <= i < |rows| => (Category(rows[i].account), Cell(rows[i], month)))
  }

  /** The breakdown built row by row: each row's amount added to its category's entry. */
  function Grouped(rows: seq<Row>, month: string): (d: Dict)
    ensures Valid(d)
  {
    Accumulate(CategoryAmounts(rows, month))
  }

  datatype OpexReport = OpexReport(month: string, breakdown: Dict, total: real)

  /**
   * get_opex_breakdown: the "Opex:" rows converted to USD, grouped by category and totalled.
   * Reading the month of a row the table has no column for is a KeyError; with no rows
   * nothing is read.
   */
  function OpexBreakdownOf(actuals: Table, fx: seq<FxRow>, month: string): (r: Result<OpexReport>)
    ensures r.Ok? <==> FirstWord(month).Some? && (month in actuals.columns || Select(actuals.rows, OpexAccounts) == [])
    ensures r.Ok? ==> r.value.month == month && |r.value.breakdown.keys| <= |Select(actuals.rows, OpexAccounts)|
  {
    match Converted(fx, Where(actuals, OpexAccounts), month)
    case Err(e) => Err(e)
    case Ok(u) =>
      if u.rows != [] && month !in u.columns then Err(MissingColumn(month))
      else
        GroupedKeys(u.rows, month);
        Ok(OpexReport(month, Grouped(u.rows, month), ColumnSum(u.rows, month)))
  }

  /** The breakdown's total is the USD value of the "Opex:" rows alone. */
  lemma OpexTotal(actuals: Table, fx: seq<FxRow>, month: string)
    requires OpexBreakdownOf(actuals, fx, month).Ok?
    ensures OpexBreakdownOf(actuals, fx, month).value.total
      == UsdTotal(Select(actuals.rows, OpexAccounts), fx, month)
  {
    var u := Converted(fx, Where(actuals, OpexAccounts), month).value;
    OpexOfConverted(actuals, fx, month, u);
    ConvertedTotal(fx, Where(actuals, OpexAccounts), month);
  }

  /** The breakdown has at most one category per row. */
  lemma GroupedKeys(rows: seq<Row>, month: string)
    ensures |Grouped(rows, month).keys| <= |rows|
  {
    AccumulateKeys(CategoryAmounts(rows, month));
  }

  lemma {:induction false} AccumulateKeys(entries: seq<(string, real)>)
    ensures |Accumulate(entries).keys| <= |entries|
    decreases |entries|
  {
    if entries != [] {
      AccumulateKeys(entries[..|entries| - 1]);
    }
  }

  lemma AmountsPrefix(rows: seq<Row>, month: string, i: nat)
    requires i <= |rows|
    ensures CategoryAmounts(rows[..i], month) == CategoryAmounts(rows, month)[..i]
  {
  }

  /** The breakdown of a converted table, as get_opex_breakdown finishes it. */
  lemma OpexOfConverted(actuals: Table, fx: seq<FxRow>, month: string, u: Table)
    requires Converted(fx, Where(actuals, OpexAccounts), month) == Ok(u)
    ensures OpexBreakdownOf(actuals, fx, month) ==
      if u.rows != [] && month !in u.columns then Err(MissingColumn(month))
      else Ok(OpexReport(month, Grouped(u.rows, month), ColumnSum(u.rows, month)))
  {
  }

  /**
   * get_opex_breakdown: convert, then accumulate the rows. The source's loop raises KeyError
   * on its first row when the month column is missing; the check is made before the loop,
   * which is the same outcome.
   */
  method OpexBreakdown(actuals: Table, fx: seq<FxRow>, month: string) returns (r: Result<OpexReport>)
    ensures r == OpexBreakdownOf(actuals, fx, month)
  {
    var converted := ConvertToUsd(fx, Where(actuals, OpexAccounts), month);
    if converted.Err? {
      return Err(converted.error);
    }
    var u := converted.value;
    OpexOfConverted(actuals, fx, month, u);
    if u.rows != [] && month !in u.columns {
      return Err(MissingColumn(month));
    }
    var breakdown, total := GroupRows(u.rows, month);
    return Ok(OpexReport(month, breakdown, total));
  }

  /** The accumulation loop: each row's amount added to its category's entry and to the total. */
  method GroupRows(rows: seq<Row>, month: string) returns (breakdown: Dict, total: real)
    ensures breakdown == Grouped(rows, month) && Total(breakdown) == total
    ensures total == ColumnSum(rows, month)
  {
    ghost var entries := CategoryAmounts(rows, month);
    breakdown := Empty;
    total := 0.0;
    var i := 0;
    while i < |rows|
      invariant 0 <= i <= |rows|
      invariant breakdown == Accumulate(entries[..i])
      invariant total == ColumnSum(rows[..i], month)
    {
      var category := Category(rows[i].account);
      var amount := Cell(rows[i], month);
      assert entries[i] == (category, amount);
      AccumulateStep(entries, i);
      ColumnSumStep(rows, month, i);
      breakdown := Add(breakdown, (category, amount));
      total := total + amount;
      i := i + 1;
    }
    assert rows[..i] == rows && entries[..i] == entries;
    GroupedTotal(rows, month);
  }

  /** The breakdown's amounts add up to the rows' column sum. */
  lemma GroupedTotal(rows: seq<Row>, month: string)
    ensures Total(Grouped(rows, month)) == ColumnSum(rows, month)
  {
    AccumulateTotal(CategoryAmounts(rows, month));
    AmountsTotal(rows, month);
  }

  /** The amounts of the rows, summed, are the month's column sum. */
  lemma {:induction false} AmountsTotal(rows: seq<Row>, month: string)
    ensures Amount(CategoryAmounts(rows, month)) == ColumnSum(rows, month)
    decreases |rows|
  {
    if rows != [] {
      var n := |rows| - 1;
      AmountsPrefix(rows, month, n);
      AmountsTotal(rows[..n], month);
    }
  }

  /**
   * The breakdown lists a category exactly when some row has it, and its amount is the sum
   * of the amounts of the rows with that category, so rows of different entities with one
   * category share one entry.
   */
  lemma GroupedByCategory(rows: seq<Row>, month: string, category: string)
    ensures category in Grouped(rows, month).values <==>
      exists i :: 0 <= i < |rows| && Category(rows[i].account) == category
    ensures Get(Grouped(rows, month), category, 0.0) == AmountOf(CategoryAmounts(rows, month), category)
  {
    var e := CategoryAmounts(rows, month);
    AccumulateGet(e, category);
    if Mentions(e, category) {
      var i :| 0 <= i < |e| && e[i].0 == category;
      assert Category(rows[i].account) == category;
    }
    if exists i :: 0 <= i < |rows| && Category(rows[i].account) == category {
      var i :| 0 <= i < |rows| && Category(rows[i].account) == category;
      assert e[i].0 == category;
    }
  }

  /** get_opex_breakdown's total equals the sum of its breakdown. */
  lemma OpexTotalIsBreakdownSum(actuals: Table, fx: seq<FxRow>, month: string)
    requires OpexBreakdownOf(actuals, fx, month).Ok?
    ensures var report := OpexBreakdownOf(actuals, fx, month).value;
      Total(report.breakdown) == report.total
  {
    GroupedTotal(Converted(fx, Where(actuals, OpexAccounts), month).value.rows, month);
  }

  // ---------------------------------------------------------------- EBITDA

  datatype EbitdaReport = EbitdaReport(
    month: string, revenue: real, cogs: real, opex: real, ebitda: real, ebitdaMargin: real)

  /** calculate_ebitda: revenue, COGS and operating expenses of the converted actuals. */
  function Ebitda(actuals: Table, fx: seq<FxRow>, month: string): (r: Result<EbitdaReport>)
    ensures r.Ok? <==> FirstWord(month).Some? && month in actuals.columns
    ensures r.Ok? ==>
      && r.value.month == month
      && r.value.ebitda == r.value.revenue - r.value.cogs - r.value.opex
      && r.value.ebitdaMargin == Percent(r.value.ebitda, r.value.revenue)
  {
    match Converted(fx, actuals, month)
    case Err(e) => Err(e)
    case Ok(u) =>
      if month !in u.columns then Err(MissingColumn(month))
      else
        var revenue := ColumnSum(Select(u.rows, RevenueRows), month);
        var cogs := ColumnSum(Select(u.rows, CogsRows), month);
        var opex := ColumnSum(Select(u.rows, OpexAccounts), month);
        var ebitda := revenue - cogs - opex;
        Ok(EbitdaReport(month, revenue, cogs, opex, ebitda, Percent(ebitda, revenue)))
  }

  /** Revenue, COGS and opex of EBITDA are the USD values of those rows alone. */
  lemma EbitdaTotals(actuals: Table, fx: seq<FxRow>, month: string)
    requires Ebitda(actuals, fx, month).Ok?
    ensures var e := Ebitda(actuals, fx, month).value;
      && e.revenue == UsdTotal(Select(actuals.rows, RevenueRows), fx, month)
      && e.cogs == UsdTotal(Select(actuals.rows, CogsRows), fx, month)
      && e.opex == UsdTotal(Select(actuals.rows, OpexAccounts), fx, month)
  {
    ConvertedWhere(fx, actuals, month, RevenueRows);
    ConvertedWhere(fx, actuals, month, CogsRows);
    ConvertedWhere(fx, actuals, month, OpexAccounts);
    ConvertedTotal(fx, Where(actuals, RevenueRows), month);
    ConvertedTotal(fx, Where(actuals, CogsRows), month);
    ConvertedTotal(fx, Where(actuals, OpexAccounts), month);
  }

  /**
   * EBITDA agrees with the other reports for the same month: its revenue and COGS are the
   * margin entry's, its opex is the breakdown's total, so EBITDA is gross profit minus opex.
   */
  lemma EbitdaAgrees(actuals: Table, fx: seq<FxRow>, month: string)
    requires Ebitda(actuals, fx, month).Ok?
    ensures MarginComputed(actuals, fx, month).Ok? && OpexBreakdownOf(actuals, fx, month).Ok?
    ensures var e := Ebitda(actuals, fx, month).value;
      var m := MarginComputed(actuals, fx, month).value;
      var o := OpexBreakdownOf(actuals, fx, month).value;
      && e.revenue == m.revenue && e.cogs == m.cogs && e.opex == o.total
      && e.ebitda == m.grossProfit - o.total
  {
    ConvertedWhere(fx, actuals, month, OpexAccounts);
  }
}
