/**
 * calculate_cash_runway: the month-end cash balances in USD over the reporting calendar, the
 * burns between consecutive balances, their average, and how many months the last balance
 * lasts at that average; with no balance at all, the fixed fallback record.
 */
module Runway {
  import opened Wrappers
  import opened Text
  import opened Tables
  import opened Currency
  import opened Calendar

  /** A float that may be NaN: None is NaN, and NaN absorbs every sum it enters. */
  function AddCash(a: Option<real>, b: Option<real>): (r: Option<real>)
    ensures r.Some? <==> a.Some? && b.Some?
    ensures r.Some? ==> r.value == a.value + b.value
  {
    if a.Some? && b.Some? then Some(a.value + b.value) else None
  }

  /**
   * What one cash row adds to the month's USD total: a USD cell as it is, a EUR cell times
   * the rate, nothing from a row in another currency. A USD or EUR row without a number for
   * the month adds NaN.
   */
  function RowCash(r: Row, month: string, rate: real): Option<real> {
    if r.currency == "USD" then
      if month in r.cells then Some(r.cells[month]) else None
    else if r.currency == "EUR" then
      if month in r.cells then Some(r.cells[month] * rate) else None
    else Some(0.0)
  }

  /** A USD or EUR row with no number for the month: the source reads NaN from it. */
  predicate NaNCell(r: Row, month: string) {
    (r.currency == "USD" || IsEur(r)) && month !in r.cells
  }

  /** The USD total of the rows for a month column the table has; NaN exactly when a row reads NaN. */
  function RowsCash(rows: seq<Row>, month: string, rate: real): (c: Option<real>)
    ensures c.None? <==> exists i :: 0 <= i < |rows| && NaNCell(rows[i], month)
    decreases |rows|
  {
    if rows == [] then Some(0.0)
    else
      assert forall i :: 0 <= i < |rows| - 1 ==> rows[..|rows| - 1][i] == rows[i];
      AddCash(RowsCash(rows[..|rows| - 1], month, rate), RowCash(rows[|rows| - 1], month, rate))
  }

  /**
   * Without NaN, the cash total is the rate-weighted sum of the USD and EUR cells: the same
   * sum the table conversion computes.
   */
  lemma {:induction false} RowsCashWeighted(rows: seq<Row>, month: string, rate: real)
    requires forall i :: 0 <= i < |rows| ==> (rows[i].currency == "USD" || IsEur(rows[i])) && month in rows[i].cells
    ensures RowsCash(rows, month, rate) == Some(WeightedSum(rows, month, rate))
    decreases |rows|
  {
    if rows != [] {
      assert forall i :: 0 <= i < |rows| - 1 ==> rows[..|rows| - 1][i] == rows[i];
      RowsCashWeighted(rows[..|rows| - 1], month, rate);
    }
  }

  /** The month's USD total; a month the table has no column for is skipped by every row. */
  function CashTotal(cash: Table, month: string, rate: real): Option<real> {
    if month !in cash.columns then Some(0.0) else RowsCash(cash.rows, month, rate)
  }

  /**
   * The month's balance, when it is included: an FX row matches the month's first word and
   * the USD total is a number above zero.
   */
  function Balance(cash: Table, fx: seq<FxRow>, month: string): (b: Option<real>)
    ensures b.Some? ==> b.value > 0.0
    ensures b.Some? ==> FirstWord(month).Some? && FxRate(fx, FirstWord(month).value).Some?
    ensures b.Some? ==> CashTotal(cash, month, FxRate(fx, FirstWord(month).value).value) == b
    ensures FirstWord(month).Some? && FxRate(fx, FirstWord(month).value).Some? ==>
      var t := CashTotal(cash, month, FxRate(fx, FirstWord(month).value).value);
      t.Some? && t.value > 0.0 ==> b.Some?
  {
    match FirstWord(month)
    case None => None
    case Some(token) =>
      match FxRate(fx, token)
      case None => None
      case Some(rate) =>
        match CashTotal(cash, month, rate)
        case None => None
        case Some(total) => if total > 0.0 then Some(total) else None
  }

  /**
   * For a cash table whose rows are all USD or EUR with a number for the month, the balance
   * is the month's USD total as the P&L metrics compute it, kept when it is above zero.
   */
  lemma BalanceIsUsdTotal(cash: Table, fx: seq<FxRow>, month: string)
    requires FirstWord(month).Some? && FxRate(fx, FirstWord(month).value).Some?
    requires month in cash.columns
    requires forall i :: 0 <= i < |cash.rows| ==>
      (cash.rows[i].currency == "USD" || IsEur(cash.rows[i])) && month in cash.rows[i].cells
    ensures var t := UsdTotal(cash.rows, fx, month);
      Balance(cash, fx, month) == if t > 0.0 then Some(t) else None
  {
    RowsCashWeighted(cash.rows, month, FxRate(fx, FirstWord(month).value).value);
  }

  /** The `cash_balances_usd` dict: the included months in the order scanned, with their balances. */
  function Balances(cash: Table, fx: seq<FxRow>, months: seq<string>): (bal: seq<(string, real)>)
    ensures |bal| <= |months|
    ensures forall i :: 0 <= i < |bal| ==> bal[i].1 > 0.0
    decreases |months|
  {
    if months == [] then []
    else
      var m := months[|months| - 1];
      Balances(cash, fx, months[..|months| - 1]) +
        match Balance(cash, fx, m) case Some(b) => [(m, b)] case None => []
  }

  /** The balances alone. */
  function BalanceValues(bal: seq<(string, real)>): (v: seq<real>)
    ensures |v| == |bal|
  {
    seq(|bal|, i requires 0 <= i < |bal| => bal[i].1)
  }

  /** `monthly_burns`: the drop from each balance to the next. */
  function Burns(v: seq<real>): (burns: seq<real>)
    ensures |v| > 0 ==> |burns| == |v| - 1
  {
    if |v| <= 1 then [] else seq(|v| - 1, i requires 0 <= i < |v| - 1 => v[i] - v[i + 1])
  }

  function Sum(v: seq<real>): real
    decreases |v|
  {
    if v == [] then 0.0 else Sum(v[..|v| - 1]) + v[|v| - 1]
  }

  /** The burn used when fewer than two months have a balance. */
  const DefaultBurn: real := 85000.0

  /** `np.mean(monthly_burns) if monthly_burns else 85000` */
  function AverageBurn(burns: seq<real>): real {
    if burns == [] then DefaultBurn else Sum(burns) / (|burns| as real)
  }

  /** Runway in months; Unbounded is `float('inf')`, when nothing is burnt on average. */
  datatype RunwayMonths = Finite(months: real) | Unbounded

  datatype RunwayReport = RunwayReport(
    currentCash: real, avgBurn: real, runway: RunwayMonths, balances: seq<(string, real)>)

  /** `_get_fallback_cash_runway` */
  const Fallback: RunwayReport := RunwayReport(
    3954000.0, 85000.0, Finite(46.5),
    [("Apr 2025", 4124000.0), ("May 2025", 4039000.0), ("Jun 2025", 3954000.0)])

  /** The fallback report: its cash is its last balance, above zero, and its runway is positive. */
  lemma FallbackPositive()
    ensures Fallback.balances != [] && Fallback.currentCash == Fallback.balances[|Fallback.balances| - 1].1
    ensures Fallback.currentCash > 0.0 && Fallback.runway.Finite? && Fallback.runway.months > 0.0
  {
  }

  /** The report computed from a non-empty balance series. */
  function ReportOf(bal: seq<(string, real)>): (r: RunwayReport)
    requires bal != []
    ensures r.balances == bal && r.currentCash == bal[|bal| - 1].1
    ensures r.runway.Unbounded? <==> r.avgBurn <= 0.0
    ensures r.runway.Finite? ==> r.runway.months * r.avgBurn == r.currentCash
    ensures bal[|bal| - 1].1 > 0.0 ==> r.runway.Finite? ==> r.runway.months > 0.0
  {
    var v := BalanceValues(bal);
    var avg := AverageBurn(Burns(v));
    var current := v[|v| - 1];
    RunwayReport(current, avg, if avg > 0.0 then Finite(current / avg) else Unbounded, bal)
  }

  /** calculate_cash_runway over the given month labels, which are distinct in every use. */
  function RunwayOver(cash: Table, fx: seq<FxRow>, months: seq<string>): (r: RunwayReport)
    ensures Balances(cash, fx, months) == [] ==> r == Fallback
    ensures Balances(cash, fx, months) != [] ==> r.balances == Balances(cash, fx, months)
    ensures r.balances != [] && r.currentCash == r.balances[|r.balances| - 1].1
    ensures r.currentCash > 0.0 && (r.runway.Finite? ==> r.runway.months > 0.0)
  {
    FallbackPositive();
    var bal := Balances(cash, fx, months);
    if bal == [] then Fallback else ReportOf(bal)
  }

  /** calculate_cash_runway: the scan runs over the twelve calendar months. */
  function CashRunwayOf(cash: Table, fx: seq<FxRow>): (r: RunwayReport)
    ensures r.balances != [] && r.currentCash == r.balances[|r.balances| - 1].1
    ensures r.currentCash > 0.0 && (r.runway.Finite? ==> r.runway.months > 0.0)
  {
    RunwayOver(cash, fx, Months)
  }

  // ---------------------------------------------------------------- the loops

  /** The inner loop: every cash row's contribution added to the month's total. */
  method MonthCash(cash: Table, month: string, rate: real) returns (total: Option<real>)
    ensures total == CashTotal(cash, month, rate)
  {
    total := Some(0.0);
    var i := 0;
    while i < |cash.rows|
      invariant 0 <= i <= |cash.rows|
      invariant total == (if month !in cash.columns then Some(0.0) else RowsCash(cash.rows[..i], month, rate))
    {
      assert cash.rows[..i + 1][..i] == cash.rows[..i];
      if month in cash.columns {
        total := AddCash(total, RowCash(cash.rows[i], month, rate));
      }
      i := i + 1;
    }
    assert cash.rows[..i] == cash.rows;
  }

  /** One month of the scan: the FX lookup, the inner loop and the positivity test. */
  method MonthBalance(cash: Table, fx: seq<FxRow>, month: string) returns (b: Option<real>)
    ensures b == Balance(cash, fx, month)
  {
    var token := FirstWord(month);
    if token.None? {
      return None;
    }
    var rate := FxRate(fx, token.value);
    if rate.None? {
      return None;
    }
    var total := MonthCash(cash, month, rate.value);
    if total.Some? && total.value > 0.0 {
      return Some(total.value);
    }
    return None;
  }

  lemma BalancesStep(cash: Table, fx: seq<FxRow>, months: seq<string>, i: nat)
    requires i < |months|
    ensures Balances(cash, fx, months[..i + 1]) == Balances(cash, fx, months[..i]) +
      match Balance(cash, fx, months[i]) case Some(b) => [(months[i], b)] case None => []
  {
    assert months[..i + 1][..i] == months[..i];
  }

  /**
   * The month scan and the burn loop of calculate_cash_runway, over the given months. The
   * balances are a dict keyed by month, so appending stands for the dict's insertion only
   * when no month label repeats.
   */
  method CashRunwayOver(cash: Table, fx: seq<FxRow>, months: seq<string>) returns (r: RunwayReport)
    requires forall i, j :: 0 <= i < j < |months| ==> months[i] != months[j]
    ensures r == RunwayOver(cash, fx, months)
  {
    var balances: seq<(string, real)> := [];
    var i := 0;
    while i < |months|
      invariant 0 <= i <= |months|
      invariant balances == Balances(cash, fx, months[..i])
    {
      BalancesStep(cash, fx, months, i);
      var b := MonthBalance(cash, fx, months[i]);
      if b.Some? {
        balances := balances + [(months[i], b.value)];
      }
      i := i + 1;
    }
    assert months[..i] == months;
    if balances == [] {
      return Fallback;
    }
    var burns := BurnsOf(balances);
    var avg := if burns == [] then DefaultBurn else Sum(burns) / (|burns| as real);
    var current := balances[|balances| - 1].1;
    var runway := if avg > 0.0 then Finite(current / avg) else Unbounded;
    return RunwayReport(current, avg, runway, balances);
  }

  /** The burn loop: the difference of each pair of consecutive balances, in order. */
  method BurnsOf(balances: seq<(string, real)>) returns (burns: seq<real>)
    ensures burns == Burns(BalanceValues(balances))
  {
    burns := [];
    var i := 0;
    while i + 1 < |balances|
      invariant 0 <= i <= Max(|balances| - 1, 0)
      invariant |burns| == i
      invariant forall k :: 0 <= k < i ==> burns[k] == balances[k].1 - balances[k + 1].1
    {
      burns := burns + [balances[i].1 - balances[i + 1].1];
      i := i + 1;
    }
  }

  /** calculate_cash_runway. */
  method CashRunway(cash: Table, fx: seq<FxRow>) returns (r: RunwayReport)
    ensures r == CashRunwayOf(cash, fx)
  {
    MonthsNumbered();
    r := CashRunwayOver(cash, fx, Months);
  }

  // ---------------------------------------------------------------- properties

  /** The burns telescope: together they are the drop from the first balance to the last. */
  lemma {:induction false} BurnsTelescope(v: seq<real>)
    requires v != []
    ensures Sum(Burns(v)) == v[0] - v[|v| - 1]
    decreases |v|
  {
    if |v| > 1 {
      var init := v[..|v| - 1];
      BurnsTelescope(init);
      var b := Burns(v);
      assert b[..|b| - 1] == Burns(init);
    }
  }

  /**
   * The report's numbers: the current cash is the last balance; with two or more balances the
   * average burn is the total drop over the number of gaps, with one it is the default burn;
   * a finite runway is the current cash over a positive average burn, and the runway is
   * unbounded exactly when the average burn is not positive.
   */
  lemma ReportNumbers(bal: seq<(string, real)>)
    requires bal != []
    ensures var r := ReportOf(bal);
      && r.currentCash == bal[|bal| - 1].1
      && r.balances == bal
      && (|bal| == 1 ==> r.avgBurn == DefaultBurn)
      && (|bal| > 1 ==> r.avgBurn * ((|bal| - 1) as real) == bal[0].1 - bal[|bal| - 1].1)
      && (r.runway.Unbounded? <==> r.avgBurn <= 0.0)
      && (r.runway.Finite? ==> r.runway.months * r.avgBurn == r.currentCash)
  {
    var v := BalanceValues(bal);
    if |bal| > 1 {
      BurnsTelescope(v);
    }
  }

  /** The runway is unbounded exactly when the last balance is at least the first of two or more. */
  lemma UnboundedWhenNotBurning(bal: seq<(string, real)>)
    requires |bal| > 1
    ensures ReportOf(bal).runway.Unbounded? <==> bal[|bal| - 1].1 >= bal[0].1
  {
    ReportNumbers(bal);
  }

  /** The position of the first occurrence of x in s. */
  function Position(s: seq<string>, x: string): (p: nat)
    requires x in s
    ensures p < |s| && s[p] == x
    decreases |s|
  {
    if x in s[..|s| - 1] then Position(s[..|s| - 1], x) else |s| - 1
  }

  lemma PositionAppend(s: seq<string>, m: string, x: string)
    requires x in s
    ensures Position(s + [m], x) == Position(s, x)
  {
    assert (s + [m])[..|s|] == s;
  }

  /** Every included month was scanned and has its balance. */
  lemma {:induction false} BalancesMembers(cash: Table, fx: seq<FxRow>, months: seq<string>)
    ensures forall i :: 0 <= i < |Balances(cash, fx, months)| ==>
      Balances(cash, fx, months)[i].0 in months &&
      Balance(cash, fx, Balances(cash, fx, months)[i].0) == Some(Balances(cash, fx, months)[i].1)
    decreases |months|
  {
    if months != [] {
      var init := months[..|months| - 1];
      BalancesMembers(cash, fx, init);
      var prev := Balances(cash, fx, init);
      var bal := Balances(cash, fx, months);
      forall i | 0 <= i < |bal|
        ensures bal[i].0 in months && Balance(cash, fx, bal[i].0) == Some(bal[i].1)
      {
        if i < |prev| {
          assert bal[i] == prev[i];
          assert prev[i].0 in init;
        }
      }
    }
  }

  /**
   * The included months keep the order of the scan, each once, when the scanned labels are
   * distinct: the calendar order for calculate_cash_runway.
   */
  lemma {:induction false} BalancesOrdered(cash: Table, fx: seq<FxRow>, months: seq<string>)
    requires forall i, j :: 0 <= i < j < |months| ==> months[i] != months[j]
    ensures forall i :: 0 <= i < |Balances(cash, fx, months)| ==> Balances(cash, fx, months)[i].0 in months
    ensures forall i, j :: 0 <= i < j < |Balances(cash, fx, months)| ==>
      Position(months, Balances(cash, fx, months)[i].0) < Position(months, Balances(cash, fx, months)[j].0)
    decreases |months|
  {
    BalancesMembers(cash, fx, months);
    if months != [] {
      var init := months[..|months| - 1];
      var m := months[|months| - 1];
      assert months == init + [m];
      BalancesOrdered(cash, fx, init);
      BalancesMembers(cash, fx, init);
      var prev := Balances(cash, fx, init);
      var bal := Balances(cash, fx, months);
      assert m !in init;
      forall i | 0 <= i < |prev|
        ensures bal[i] == prev[i] && prev[i].0 in init && Position(months, prev[i].0) == Position(init, prev[i].0)
      {
        assert prev[i].0 in init;
        PositionAppend(init, m, prev[i].0);
      }
      if |bal| > |prev| {
        assert bal[|prev|].0 == m;
        assert Position(months, m) == |init|;
      }
    }
  }

  /** Every scanned month with a balance is in the series. */
  lemma {:induction false} BalancesComplete(cash: Table, fx: seq<FxRow>, months: seq<string>, k: nat)
    requires k < |months| && Balance(cash, fx, months[k]).Some?
    ensures (months[k], Balance(cash, fx, months[k]).value) in Balances(cash, fx, months)
    decreases |months|
  {
    if k < |months| - 1 {
      var init := months[..|months| - 1];
      assert init[k] == months[k];
      BalancesComplete(cash, fx, init, k);
    }
  }

  /** The fallback record is used exactly when no scanned month has a balance. */
  lemma FallbackWhenNoBalance(cash: Table, fx: seq<FxRow>, months: seq<string>)
    ensures (forall k :: 0 <= k < |months| ==> Balance(cash, fx, months[k]).None?) ==>
      RunwayOver(cash, fx, months) == Fallback
    ensures (exists k :: 0 <= k < |months| && Balance(cash, fx, months[k]).Some?) ==>
      Balances(cash, fx, months) != [] && RunwayOver(cash, fx, months) == ReportOf(Balances(cash, fx, months))
  {
    if exists k :: 0 <= k < |months| && Balance(cash, fx, months[k]).Some? {
      var k :| 0 <= k < |months| && Balance(cash, fx, months[k]).Some?;
      BalancesComplete(cash, fx, months, k);
    } else {
      NoBalances(cash, fx, months);
    }
  }

  lemma {:induction false} NoBalances(cash: Table, fx: seq<FxRow>, months: seq<string>)
    requires forall k :: 0 <= k < |months| ==> Balance(cash, fx, months[k]).None?
    ensures Balances(cash, fx, months) == []
    decreases |months|
  {
    if months != [] {
      var init := months[..|months| - 1];
      assert forall k :: 0 <= k < |init| ==> init[k] == months[k];
      NoBalances(cash, fx, init);
    }
  }

  /**
   * The fallback record is a consistent runway report: its burns are 85,000 each, its current
   * cash is its last balance, and 46.5 is the runway rounded to one decimal.
   */
  lemma FallbackConsistent()
    ensures Burns(BalanceValues(Fallback.balances)) == [85000.0, 85000.0]
    ensures AverageBurn(Burns(BalanceValues(Fallback.balances))) == Fallback.avgBurn
    ensures Fallback.currentCash == Fallback.balances[2].1
    ensures 46.45 * Fallback.avgBurn <= Fallback.currentCash < 46.55 * Fallback.avgBurn
  {
    var v := BalanceValues(Fallback.balances);
    assert v == [4124000.0, 4039000.0, 3954000.0];
    var b := Burns(v);
    assert b == [85000.0, 85000.0];
    assert Sum(b) == Sum([85000.0]) + 85000.0;
  }

  /** calculate_cash_runway's balances are in calendar order, each month once. */
  lemma CashBalancesInCalendarOrder(cash: Table, fx: seq<FxRow>)
    ensures forall i, j :: 0 <= i < j < |Balances(cash, fx, Months)| ==>
      MonthNumber(Balances(cash, fx, Months)[i].0) < MonthNumber(Balances(cash, fx, Months)[j].0)
  {
    MonthsNumbered();
    BalancesOrdered(cash, fx, Months);
    var bal := Balances(cash, fx, Months);
    forall i | 0 <= i < |bal|
      ensures MonthNumber(bal[i].0) == Position(Months, bal[i].0)
    {
      var p := Position(Months, bal[i].0);
      assert Months[p] == bal[i].0;
    }
  }
}
