/**
 * The analyzer's figures on the built-in sample tables, the ones it falls back to when the
 * fixture files are missing.
 */
module Samples {
  import opened Wrappers
  import opened Text
  import opened Tables
  import opened Currency
  import opened Metrics
  import opened Loader
  import opened Calendar
  import opened Runway
  import opened Dicts
  import Planner
  import Formatter

  /** A "Mon YYYY" label's first word is its three-letter month. */
  lemma FirstWordOfLabel(s: string)
    requires |s| > 3 && !IsSpace(s[0]) && !IsSpace(s[1]) && !IsSpace(s[2]) && IsSpace(s[3])
    ensures FirstWord(s) == Some(s[..3])
  {
    assert Word(s[3..]) == [];
    assert s[2..][1..] == s[3..];
    assert Word(s[2..]) == [s[2]];
    assert s[1..][1..] == s[2..];
    assert Word(s[1..]) == [s[1], s[2]];
    assert Word(s) == [s[0], s[1], s[2]];
  }

  /** June's sample rate is the third FX row's: no earlier label contains "Jun". */
  lemma SampleJuneRate()
    ensures FxRate(SampleFx, "Jun") == Some(1.11)
  {
    Absent("Apr 2025", "Jun", 0);
    Absent("May 2025", "Jun", 0);
    assert OccursAt("Jun 2025", "Jun", 0);
    FxRateFirst(SampleFx, "Jun", 2);
  }

  lemma SampleActualRevenueRows()
    ensures Select(SampleActuals.rows, RevenueRows) == [SampleActuals.rows[0], SampleActuals.rows[4]]
  {
    var a := SampleActuals.rows;
    assert a[..1][..0] == [] && a[..1][0] == a[0];
    assert Select(a[..1], RevenueRows) == [a[0]];
    assert a[..2][..1] == a[..1] && a[..2][1] == a[1];
    assert Select(a[..2], RevenueRows) == [a[0]];
    assert a[..3][..2] == a[..2] && a[..3][2] == a[2];
    assert Select(a[..3], RevenueRows) == [a[0]];
    assert a[..4][..3] == a[..3] && a[..4][3] == a[3];
    assert Select(a[..4], RevenueRows) == [a[0]];
    assert a[..5][..4] == a[..4] && a[..5][4] == a[4];
    assert Select(a[..5], RevenueRows) == [a[0], a[4]];
    assert a[..5] == a[..|a| - 1];
  }

  lemma SampleBudgetRevenueRows()
    ensures Select(SampleBudget.rows, RevenueRows) == [SampleBudget.rows[0], SampleBudget.rows[2]]
  {
    var b := SampleBudget.rows;
    assert b[..1][..0] == [] && b[..1][0] == b[0];
    assert Select(b[..1], RevenueRows) == [b[0]];
    assert b[..2][..1] == b[..1] && b[..2][1] == b[1];
    assert Select(b[..2], RevenueRows) == [b[0]];
    assert b[..2] == b[..|b| - 1];
  }

  lemma SampleJuneSums()
    ensures WeightedSum([SampleActuals.rows[0], SampleActuals.rows[4]], "Jun 2025", 1.11) == 2449000.0
    ensures WeightedSum([SampleBudget.rows[0], SampleBudget.rows[2]], "Jun 2025", 1.11) == 2293500.0
  {
    var a := [SampleActuals.rows[0], SampleActuals.rows[4]];
    assert Cell(a[0], "Jun 2025") == 1450000.0 && !IsEur(a[0]);
    assert Cell(a[1], "Jun 2025") == 900000.0 && IsEur(a[1]);
    assert a[..1] == [a[0]] && a[..1][..0] == [];
    assert WeightedSum(a[..1], "Jun 2025", 1.11) == 1450000.0;
    var b := [SampleBudget.rows[0], SampleBudget.rows[2]];
    assert Cell(b[0], "Jun 2025") == 1350000.0 && !IsEur(b[0]);
    assert Cell(b[1], "Jun 2025") == 850000.0 && IsEur(b[1]);
    assert b[..1] == [b[0]] && b[..1][..0] == [];
    assert WeightedSum(b[..1], "Jun 2025", 1.11) == 1350000.0;
  }

  /**
   * On the sample tables, June's actual revenue is 1,450,000 + 900,000 x 1.11 = 2,449,000 and
   * its budget 1,350,000 + 850,000 x 1.11 = 2,293,500, so it beats budget by 155,500.
   */
  lemma SampleRevenueVsBudget()
    ensures RevenueVsBudget(SampleActuals, SampleBudget, SampleFx, "Jun 2025").Ok?
    ensures var r := RevenueVsBudget(SampleActuals, SampleBudget, SampleFx, "Jun 2025").value;
      r.actual == 2449000.0 && r.budget == 2293500.0 && r.variance == 155500.0
  {
    FirstWordOfLabel("Jun 2025");
    assert "Jun 2025"[..3] == "Jun";
    SampleJuneRate();
    RevenueTotals(SampleActuals, SampleBudget, SampleFx, "Jun 2025");
    SampleActualRevenueRows();
    SampleBudgetRevenueRows();
    SampleJuneSums();
  }

  /** A revenue answer on the sample tables carries the above-budget badge. */
  lemma SampleRevenueAnswer(plan: Planner.Plan)
    requires plan.intent == Planner.Intent.RevenueVsBudget
    ensures var report := RevenueVsBudget(SampleActuals, SampleBudget, SampleFx, "Jun 2025").value;
      Formatter.FormatResponse(plan, [Formatter.RevenueOutcome(report)]) ==
        Ok(Formatter.RevenueView(report, Formatter.AboveBudget))
  {
    SampleRevenueVsBudget();
  }

  // ---------------------------------------------------------------- opex breakdown

  lemma SampleOpexRows()
    ensures Select(SampleActuals.rows, OpexAccounts) == [SampleActuals.rows[2], SampleActuals.rows[3]]
  {
    var a := SampleActuals.rows;
    assert a[0].account[0] == 'R' && a[1].account[0] == 'C';
    assert !IsPrefix(OpexPrefix, a[0].account) && !IsPrefix(OpexPrefix, a[1].account);
    assert IsPrefix(OpexPrefix, a[2].account) && IsPrefix(OpexPrefix, a[3].account);
    assert a[4].account[0] == 'R' && a[5].account[0] == 'C';
    assert !IsPrefix(OpexPrefix, a[4].account) && !IsPrefix(OpexPrefix, a[5].account);
    assert a[..1][..0] == [] && a[..1][0] == a[0];
    assert Select(a[..1], OpexAccounts) == [];
    assert a[..2][..1] == a[..1] && a[..2][1] == a[1];
    assert Select(a[..2], OpexAccounts) == [];
    assert a[..3][..2] == a[..2] && a[..3][2] == a[2];
    assert Select(a[..3], OpexAccounts) == [a[2]];
    assert a[..4][..3] == a[..3] && a[..4][3] == a[3];
    assert Select(a[..4], OpexAccounts) == [a[2], a[3]];
    assert a[..5][..4] == a[..4] && a[..5][4] == a[4];
    assert Select(a[..5], OpexAccounts) == [a[2], a[3]];
    assert a[..5] == a[..|a| - 1];
  }

  /** An "Opex:" account whose rest holds no further "Opex:" has that rest as its category. */
  lemma CategoryAfterPrefix(account: string, rest: string)
    requires account == OpexPrefix + rest && !Contains(rest, OpexPrefix)
    ensures Category(account) == rest
  {
    RemoveLeading(OpexPrefix, rest);
  }

  /** The sample's categories are the accounts without their "Opex:" prefix. */
  lemma SampleSalesCategory()
    ensures Category("Opex:Sales") == "Sales"
  {
    Absent("Sales", OpexPrefix, 0);
    CategoryAfterPrefix("Opex:Sales", "Sales");
  }

  lemma SampleMarketingCategory()
    ensures Category("Opex:Marketing") == "Marketing"
  {
    Absent("Marketing", OpexPrefix, 0);
    CategoryAfterPrefix("Opex:Marketing", "Marketing");
  }

  lemma ColumnSumTwo(x: Row, y: Row, month: string)
    ensures ColumnSum([x, y], month) == Cell(x, month) + Cell(y, month)
  {
    var rows := [x, y];
    assert rows[..1] == [x] && [x][..0] == [];
    assert ColumnSum([x], month) == Cell(x, month);
  }

  /** Two rows of different categories give a two-entry breakdown in row order. */
  lemma GroupedTwo(x: Row, y: Row, month: string)
    requires Category(x.account) != Category(y.account)
    ensures Grouped([x, y], month) == Dict([Category(x.account), Category(y.account)],
      map[Category(x.account) := Cell(x, month), Category(y.account) := Cell(y, month)])
    ensures ColumnSum([x, y], month) == Cell(x, month) + Cell(y, month)
  {
    var e := CategoryAmounts([x, y], month);
    assert e == [(Category(x.account), Cell(x, month)), (Category(y.account), Cell(y, month))];
    AccumulateTwo(e[0], e[1]);
    ColumnSumTwo(x, y, month);
  }

  lemma SampleOpexConverted()
    ensures Converted(SampleFx, Where(SampleActuals, OpexAccounts), "Jun 2025") ==
      Ok(Table(SampleActuals.columns, [SampleActuals.rows[2], SampleActuals.rows[3]]))
  {
    SampleOpexRows();
    FirstWordOfLabel("Jun 2025");
    var rows := [SampleActuals.rows[2], SampleActuals.rows[3]];
    assert !IsEur(rows[0]) && !IsEur(rows[1]);
    assert !HasEur(rows);
    ConvertedNoOp(SampleFx, Where(SampleActuals, OpexAccounts), "Jun 2025");
  }

  /** The sample's June opex: Sales 145,000 and Marketing 100,000, in that order, 245,000 in all. */
  lemma SampleOpexBreakdown()
    ensures OpexBreakdownOf(SampleActuals, SampleFx, "Jun 2025") == Ok(OpexReport("Jun 2025",
      Dict(["Sales", "Marketing"], map["Sales" := 145000.0, "Marketing" := 100000.0]), 245000.0))
  {
    SampleOpexConverted();
    var x, y := SampleActuals.rows[2], SampleActuals.rows[3];
    assert x.account == "Opex:Sales" && y.account == "Opex:Marketing";
    assert Cell(x, "Jun 2025") == 145000.0 && Cell(y, "Jun 2025") == 100000.0;
    SampleSalesCategory();
    SampleMarketingCategory();
    GroupedTwo(x, y, "Jun 2025");
  }

  // ---------------------------------------------------------------- cash runway

  /** Only June has a column in the sample cash table, so no other month has a balance. */
  lemma SampleCashOnlyJune(fx: seq<FxRow>, month: string)
    requires month != "Jun 2025"
    ensures Balance(SampleCash, fx, month).None?
  {
  }

  /** June's sample balance: 2,400,000 + 1,400,000 x 1.11 = 3,954,000. */
  lemma SampleJuneBalance()
    ensures Balance(SampleCash, SampleFx, "Jun 2025") == Some(3954000.0)
  {
    FirstWordOfLabel("Jun 2025");
    assert "Jun 2025"[..3] == "Jun";
    SampleJuneRate();
    var c := SampleCash.rows;
    assert c[..1] == [c[0]] && c[..1][..0] == [];
    assert RowCash(c[0], "Jun 2025", 1.11) == Some(2400000.0);
    assert RowCash(c[1], "Jun 2025", 1.11) == Some(1554000.0);
    assert RowsCash(c[..1], "Jun 2025", 1.11) == Some(2400000.0);
  }

  /** A scan in which exactly one month has a balance yields that month alone. */
  lemma {:induction false} BalancesSingle(cash: Table, fx: seq<FxRow>, months: seq<string>, k: nat, b: real)
    requires k < |months| && Balance(cash, fx, months[k]) == Some(b)
    requires forall j :: 0 <= j < |months| && j != k ==> Balance(cash, fx, months[j]).None?
    ensures Balances(cash, fx, months) == [(months[k], b)]
    decreases |months|
  {
    var init := months[..|months| - 1];
    if k == |months| - 1 {
      NoBalances(cash, fx, init);
    } else {
      assert init[k] == months[k];
      BalancesSingle(cash, fx, init, k, b);
    }
  }

  /** A scan of distinct labels that includes June exactly once finds only June's balance. */
  lemma SampleBalancesOver(fx: seq<FxRow>, months: seq<string>, k: nat, b: real)
    requires k < |months| && months[k] == "Jun 2025"
    requires forall i :: 0 <= i < |months| ==> MonthNumber(months[i]) == i
    requires Balance(SampleCash, fx, "Jun 2025") == Some(b)
    ensures Balances(SampleCash, fx, months) == [("Jun 2025", b)]
  {
    forall j | 0 <= j < |months| && j != k
      ensures Balance(SampleCash, fx, months[j]).None?
    {
      assert MonthNumber(months[j]) != MonthNumber(months[k]);
      SampleCashOnlyJune(fx, months[j]);
    }
    BalancesSingle(SampleCash, fx, months, k, b);
  }

  lemma SampleBalances()
    ensures Balances(SampleCash, SampleFx, Months) == [("Jun 2025", 3954000.0)]
  {
    MonthsNumbered();
    SampleJuneBalance();
    DefaultMonthPosition();
    SampleBalancesOver(SampleFx, Months, DefaultIndex, 3954000.0);
  }

  /** One balance: the default burn, and a runway of the balance over it. */
  lemma RunwayOfOne(cash: Table, fx: seq<FxRow>, months: seq<string>, m: string, b: real)
    requires Balances(cash, fx, months) == [(m, b)]
    ensures RunwayOver(cash, fx, months) == RunwayReport(b, DefaultBurn, Finite(b / DefaultBurn), [(m, b)])
  {
    assert BalanceValues([(m, b)]) == [b];
  }

  /**
   * On the sample tables only June has a balance, so the burn is the 85,000 default and the
   * runway 3,954,000 / 85,000 months: the fallback record's cash and burn, whose 46.5 is
   * this runway rounded.
   */
  lemma SampleCashRunway()
    ensures CashRunwayOf(SampleCash, SampleFx) ==
      RunwayReport(3954000.0, 85000.0, Finite(3954000.0 / 85000.0), [("Jun 2025", 3954000.0)])
    ensures CashRunwayOf(SampleCash, SampleFx).currentCash == Fallback.currentCash
    ensures CashRunwayOf(SampleCash, SampleFx).avgBurn == Fallback.avgBurn
  {
    SampleBalances();
    RunwayOfOne(SampleCash, SampleFx, Months, "Jun 2025", 3954000.0);
  }
}
