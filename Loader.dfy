/**
 * FinancialDataLoader: each of the four tables is read from its file the first time it is
 * asked for and kept; a missing file is replaced by the built-in sample table. The file system
 * is a parameter: the content of each file, or None for a file that is not there.
 */
module Loader {
  import opened Wrappers
  import opened Tables

  /** What the fixtures directory holds: each file's table, or None when the file is missing. */
  datatype Sources = Sources(
    actuals: Option<Table>, budget: Option<Table>, fx: Option<seq<FxRow>>, cash: Option<Table>)

  /** `_get_sample_actuals`: two entities, three months, revenue, COGS and two opex accounts. */
  const SampleActuals: Table := Table({"Apr 2025", "May 2025", "Jun 2025"}, [
    Row("US", "Revenue", "USD", map["Apr 2025" := 1350000.0, "May 2025" := 1400000.0, "Jun 2025" := 1450000.0]),
    Row("US", "COGS", "USD", map["Apr 2025" := 540000.0, "May 2025" := 560000.0, "Jun 2025" := 580000.0]),
    Row("US", "Opex:Sales", "USD", map["Apr 2025" := 135000.0, "May 2025" := 140000.0, "Jun 2025" := 145000.0]),
    Row("US", "Opex:Marketing", "USD", map["Apr 2025" := 95000.0, "May 2025" := 98000.0, "Jun 2025" := 100000.0]),
    Row("EU", "Revenue", "EUR", map["Apr 2025" := 860000.0, "May 2025" := 880000.0, "Jun 2025" := 900000.0]),
    Row("EU", "COGS", "EUR", map["Apr 2025" := 344000.0, "May 2025" := 352000.0, "Jun 2025" := 360000.0])
  ])

  /** `_get_sample_budget`: June only. */
  const SampleBudget: Table := Table({"Jun 2025"}, [
    Row("US", "Revenue", "USD", map["Jun 2025" := 1350000.0]),
    Row("US", "COGS", "USD", map["Jun 2025" := 540000.0]),
    Row("EU", "Revenue", "EUR", map["Jun 2025" := 850000.0])
  ])

  /** `_get_sample_fx` */
  const SampleFx: seq<FxRow> := [
    FxRow("Apr 2025", 1.14, 0.88),
    FxRow("May 2025", 1.12, 0.89),
    FxRow("Jun 2025", 1.11, 0.90)
  ]

  /** `_get_sample_cash`: June balances; the cash table has no account column. */
  const SampleCash: Table := Table({"Jun 2025"}, [
    Row("US", "", "USD", map["Jun 2025" := 2400000.0]),
    Row("EU", "", "EUR", map["Jun 2025" := 1400000.0])
  ])

  /** Every row of t has a number for exactly t's month columns and is in USD or EUR. */
  predicate Complete(t: Table) {
    forall i :: 0 <= i < |t.rows| ==>
      t.rows[i].cells.Keys == t.columns && (t.rows[i].currency == "USD" || t.rows[i].currency == "EUR")
  }

  /** The sample actuals: six complete rows over April to June 2025, four US and two EU. */
  lemma SampleActualsComplete()
    ensures Complete(SampleActuals) && |SampleActuals.rows| == 6
    ensures SampleActuals.columns == {"Apr 2025", "May 2025", "Jun 2025"}
  {
  }

  /** The sample budget: complete rows for June only, a month the actuals also have. */
  lemma SampleBudgetComplete()
    ensures Complete(SampleBudget) && SampleBudget.columns == {"Jun 2025"} <= SampleActuals.columns
  {
  }

  /** The sample cash: complete rows for June only, one in USD and one in EUR. */
  lemma SampleCashComplete()
    ensures Complete(SampleCash) && SampleCash.columns == {"Jun 2025"}
    ensures |SampleCash.rows| == 2 && SampleCash.rows[0].currency == "USD" && SampleCash.rows[1].currency == "EUR"
  {
  }

  /** The sample FX table has one row per month of the sample actuals, each month once. */
  lemma SampleFxCoversActuals()
    ensures forall i :: 0 <= i < |SampleFx| ==> SampleFx[i].month in SampleActuals.columns
    ensures forall m :: m in SampleActuals.columns ==> exists i :: 0 <= i < |SampleFx| && SampleFx[i].month == m
    ensures forall i, j :: 0 <= i < j < |SampleFx| ==> SampleFx[i].month != SampleFx[j].month
  {
    assert SampleFx[0].month == "Apr 2025" && SampleFx[1].month == "May 2025" && SampleFx[2].month == "Jun 2025";
  }

  /** The table a load_* call settles on: the cached one, else the file's, else the sample. */
  function Settled<T>(cached: Option<T>, file: Option<T>, sample: T): (t: T)
    ensures cached.Some? ==> t == cached.value
    ensures cached.None? && file.Some? ==> t == file.value
    ensures cached.None? && file.None? ==> t == sample
  {
    match cached
    case Some(c) => c
    case None => file.GetOr(sample)
  }

  class FinancialDataLoader {
    const sources: Sources
    var actuals: Option<Table>
    var budget: Option<Table>
    var fx: Option<seq<FxRow>>
    var cash: Option<Table>

    /** Nothing is read before the first load. */
    constructor(sources: Sources)
      ensures this.sources == sources
      ensures actuals == None && budget == None && fx == None && cash == None
    {
      this.sources := sources;
      actuals := None;
      budget := None;
      fx := None;
      cash := None;
    }

    /** `load_actuals`: read once, fall back to the sample for a missing file. */
    method LoadActuals() returns (t: Table)
      modifies this
      ensures actuals == Some(Settled(old(actuals), sources.actuals, SampleActuals))
      ensures t == actuals.value
      ensures old(actuals).Some? ==> actuals == old(actuals)
      ensures budget == old(budget) && fx == old(fx) && cash == old(cash)
    {
      if actuals.None? {
        match sources.actuals
        case Some(file) => actuals := Some(file);
        case None => actuals := Some(SampleActuals);
      }
      t := actuals.value;
    }

    /** `load_budget` */
    method LoadBudget() returns (t: Table)
      modifies this
      ensures budget == Some(Settled(old(budget), sources.budget, SampleBudget))
      ensures t == budget.value
      ensures old(budget).Some? ==> budget == old(budget)
      ensures actuals == old(actuals) && fx == old(fx) && cash == old(cash)
    {
      if budget.None? {
        match sources.budget
        case Some(file) => budget := Some(file);
        case None => budget := Some(SampleBudget);
      }
      t := budget.value;
    }

    /** `load_fx` */
    method LoadFx() returns (t: seq<FxRow>)
      modifies this
      ensures fx == Some(Settled(old(fx), sources.fx, SampleFx))
      ensures t == fx.value
      ensures old(fx).Some? ==> fx == old(fx)
      ensures actuals == old(actuals) && budget == old(budget) && cash == old(cash)
    {
      if fx.None? {
        match sources.fx
        case Some(file) => fx := Some(file);
        case None => fx := Some(SampleFx);
      }
      t := fx.value;
    }

    /** `load_cash` */
    method LoadCash() returns (t: Table)
      modifies this
      ensures cash == Some(Settled(old(cash), sources.cash, SampleCash))
      ensures t == cash.value
      ensures old(cash).Some? ==> cash == old(cash)
      ensures actuals == old(actuals) && budget == old(budget) && fx == old(fx)
    {
      if cash.None? {
        match sources.cash
        case Some(file) => cash := Some(file);
        case None => cash := Some(SampleCash);
      }
      t := cash.value;
    }
  }
}
