/**
 * FinancialAnalyzer: each metric loads the tables it reads through the loader, which caches
 * them, and computes on the loaded tables.
 */
module Analyzer {
  import opened Wrappers
  import opened Tables
  import opened Metrics
  import opened Runway
  import opened Loader

  class FinancialAnalyzer {
    const loader: FinancialDataLoader

    constructor(loader: FinancialDataLoader)
      ensures this.loader == loader
    {
      this.loader := loader;
    }

    /** get_revenue_vs_budget: loads actuals and budget, and the FX table when converting. */
    method GetRevenueVsBudget(month: string) returns (r: Result<RevenueReport>)
      modifies loader
      ensures loader.actuals == Some(Settled(old(loader.actuals), loader.sources.actuals, SampleActuals))
      ensures loader.budget == Some(Settled(old(loader.budget), loader.sources.budget, SampleBudget))
      ensures loader.fx == Some(Settled(old(loader.fx), loader.sources.fx, SampleFx))
      ensures loader.cash == old(loader.cash)
      ensures r == RevenueVsBudget(loader.actuals.value, loader.budget.value, loader.fx.value, month)
    {
      var actuals := loader.LoadActuals();
      var budget := loader.LoadBudget();
      var fx := loader.LoadFx();
      r := RevenueVsBudget(actuals, budget, fx, month);
    }

    /** get_gross_margin_trend: the FX table is loaded only when some month is converted. */
    method GetGrossMarginTrend(months: seq<string>) returns (results: seq<MarginEntry>)
      modifies loader
      ensures loader.actuals == Some(Settled(old(loader.actuals), loader.sources.actuals, SampleActuals))
      ensures months != [] ==> loader.fx == Some(Settled(old(loader.fx), loader.sources.fx, SampleFx))
      ensures months == [] ==> loader.fx == old(loader.fx) && results == []
      ensures loader.budget == old(loader.budget) && loader.cash == old(loader.cash)
      ensures months != [] ==> results == Trend(loader.actuals.value, loader.fx.value, months)
    {
      var actuals := loader.LoadActuals();
      if months == [] {
        return [];
      }
      var fx := loader.LoadFx();
      results := GrossMarginTrend(actuals, fx, months);
    }

    /** get_opex_breakdown */
    method GetOpexBreakdown(month: string) returns (r: Result<OpexReport>)
      modifies loader
      ensures loader.actuals == Some(Settled(old(loader.actuals), loader.sources.actuals, SampleActuals))
      ensures loader.fx == Some(Settled(old(loader.fx), loader.sources.fx, SampleFx))
      ensures loader.budget == old(loader.budget) && loader.cash == old(loader.cash)
      ensures r == OpexBreakdownOf(loader.actuals.value, loader.fx.value, month)
    {
      var actuals := loader.LoadActuals();
      var fx := loader.LoadFx();
      r := OpexBreakdown(actuals, fx, month);
    }

    /** calculate_ebitda */
    method CalculateEbitda(month: string) returns (r: Result<EbitdaReport>)
      modifies loader
      ensures loader.actuals == Some(Settled(old(loader.actuals), loader.sources.actuals, SampleActuals))
      ensures loader.fx == Some(Settled(old(loader.fx), loader.sources.fx, SampleFx))
      ensures loader.budget == old(loader.budget) && loader.cash == old(loader.cash)
      ensures r == Ebitda(loader.actuals.value, loader.fx.value, month)
    {
      var actuals := loader.LoadActuals();
      var fx := loader.LoadFx();
      r := Ebitda(actuals, fx, month);
    }

    /** calculate_cash_runway: loads the cash table, then the FX table. */
    method CalculateCashRunway() returns (r: RunwayReport)
      modifies loader
      ensures loader.cash == Some(Settled(old(loader.cash), loader.sources.cash, SampleCash))
      ensures loader.fx == Some(Settled(old(loader.fx), loader.sources.fx, SampleFx))
      ensures loader.actuals == old(loader.actuals) && loader.budget == old(loader.budget)
      ensures r == CashRunwayOf(loader.cash.value, loader.fx.value)
    {
      var cash := loader.LoadCash();
      var fx := loader.LoadFx();
      r := CashRunway(cash, fx);
    }
  }
}
