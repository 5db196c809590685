/**
 * format_response: which answer template and which badge the planner chooses for a plan's
 * intent and the analyzer's results. The rendered text (number formatting, emoji) is not
 * modelled; the choice is.
 */
module Formatter {
  import opened Wrappers
  import opened Planner
  import opened Metrics
  import opened Runway

  /** One element of the results list handed to format_response. */
  datatype Outcome =
    | RevenueOutcome(revenue: RevenueReport)
    | TrendOutcome(entries: seq<MarginEntry>)
    | EntryOutcome(entry: MarginEntry)
    | OpexOutcome(opex: OpexReport)
    | EbitdaOutcome(ebitda: EbitdaReport)
    | RunwayOutcome(runway: RunwayReport)

  datatype VarianceBadge = AboveBudget | BelowBudget | OnBudget

  datatype Profitability = StrongProfitability | ModerateProfitability | LowProfitability

  datatype RunwayHealth = HealthyRunway | ModerateRunway | LowRunway

  datatype TrendInsight = Improvement | Decline | StableMargins | SingleMonth

  /** The template chosen, with the badge or insight it shows. */
  datatype Response =
    | RevenueView(revenue: RevenueReport, badge: VarianceBadge)
    | TrendView(entries: seq<MarginEntry>, insight: TrendInsight)
    | OpexView(opex: OpexReport)
    | EbitdaView(ebitda: EbitdaReport, profitability: Profitability)
    | RunwayView(runway: RunwayReport, health: RunwayHealth)
    | Help

  /** The variance badge: above exactly for a positive variance, below exactly for a negative one. */
  function BadgeOf(variance: real): (b: VarianceBadge)
    ensures b == AboveBudget <==> variance > 0.0
    ensures b == BelowBudget <==> variance < 0.0
    ensures b == OnBudget <==> variance == 0.0
  {
    if variance > 0.0 then AboveBudget else if variance < 0.0 then BelowBudget else OnBudget
  }

  /** Strong above a 20% EBITDA margin, moderate above 10% up to 20%, low at 10% or below. */
  function ProfitabilityOf(ebitdaMargin: real): (p: Profitability)
    ensures p == StrongProfitability <==> ebitdaMargin > 20.0
    ensures p == ModerateProfitability <==> 10.0 < ebitdaMargin <= 20.0
    ensures p == LowProfitability <==> ebitdaMargin <= 10.0
  {
    if ebitdaMargin > 20.0 then StrongProfitability
    else if ebitdaMargin > 10.0 then ModerateProfitability
    else LowProfitability
  }

  /**
   * Healthy above 12 months, moderate above 6 up to 12, low at 6 or below. An infinite runway
   * compares above 12, so it is healthy.
   */
  function HealthOf(runway: RunwayMonths): (h: RunwayHealth)
    ensures h == HealthyRunway <==> runway.Unbounded? || runway.months > 12.0
    ensures h == ModerateRunway <==> runway.Finite? && 6.0 < runway.months <= 12.0
    ensures h == LowRunway <==> runway.Finite? && runway.months <= 6.0
  {
    match runway
    case Unbounded => HealthyRunway
    case Finite(m) => if m > 12.0 then HealthyRunway else if m > 6.0 then ModerateRunway else LowRunway
  }

  /**
   * A single month (or none) has no trend; otherwise improvement, decline or stable exactly
   * as the last margin is above, below or equal to the first.
   */
  function InsightOf(entries: seq<MarginEntry>): (t: TrendInsight)
    ensures t == SingleMonth <==> |entries| <= 1
    ensures t == Improvement <==> |entries| > 1 && entries[|entries| - 1].grossMarginPct > entries[0].grossMarginPct
    ensures t == Decline <==> |entries| > 1 && entries[|entries| - 1].grossMarginPct < entries[0].grossMarginPct
    ensures t == StableMargins <==> |entries| > 1 && entries[|entries| - 1].grossMarginPct == entries[0].grossMarginPct
  {
    if |entries| <= 1 then SingleMonth
    else
      var first := entries[0].grossMarginPct;
      var last := entries[|entries| - 1].grossMarginPct;
      if last > first then Improvement else if last < first then Decline else StableMargins
  }

  /** The trend's entries: the first result when it is a list, else every result as an entry. */
  function TrendData(results: seq<Outcome>): (r: Option<seq<MarginEntry>>)
    requires results != []
    ensures results[0].TrendOutcome? ==> r == Some(results[0].entries)
    ensures !results[0].TrendOutcome? && r.Some? ==>
      |r.value| == |results| && forall i :: 0 <= i < |results| ==> results[i] == EntryOutcome(r.value[i])
    ensures !results[0].TrendOutcome? && r.None? ==> exists i :: 0 <= i < |results| && !results[i].EntryOutcome?
  {
    if results[0].TrendOutcome? then Some(results[0].entries) else Entries(results)
  }

  function Entries(results: seq<Outcome>): (r: Option<seq<MarginEntry>>)
    ensures r.Some? ==> |r.value| == |results| && forall i :: 0 <= i < |results| ==> results[i] == EntryOutcome(r.value[i])
    ensures r.None? ==> exists i :: 0 <= i < |results| && !results[i].EntryOutcome?
    decreases |results|
  {
    if results == [] then Some([])
    else
      var init := Entries(results[..|results| - 1]);
      var last := results[|results| - 1];
      if init.Some? && last.EntryOutcome? then Some(init.value + [last.entry])
      else
        assert forall i :: 0 <= i < |results| - 1 ==> results[..|results| - 1][i] == results[i];
        None
  }

  /**
   * format_response. With no results, or for an intent whose branch does not apply, the help
   * message. A result of the wrong kind is a KeyError in the source: Err(WrongResultShape).
   */
  function FormatResponse(plan: Plan, results: seq<Outcome>): (r: Result<Response>)
    ensures results == [] ==> r == Ok(Help)
    ensures r.Ok? && r.value.RevenueView? ==> plan.intent == RevenueVsBudget && results[0] == RevenueOutcome(r.value.revenue)
    ensures r.Ok? && r.value.OpexView? ==> plan.intent == OpexBreakdown && results[0] == OpexOutcome(r.value.opex)
    ensures r.Ok? && r.value.EbitdaView? ==> plan.intent == Ebitda && results[0] == EbitdaOutcome(r.value.ebitda)
    ensures r.Ok? && r.value.RunwayView? ==> plan.intent == CashRunway && results[0] == RunwayOutcome(r.value.runway)
    ensures r.Ok? && r.value.TrendView? ==> plan.intent == GrossMarginTrend && results != []
    ensures r.Ok? && results != [] ==> !r.value.Help?
    ensures r.Ok? && r.value.RevenueView? ==> r.value.badge == BadgeOf(r.value.revenue.variance)
    ensures r.Ok? && r.value.TrendView? ==>
      TrendData(results) == Some(r.value.entries) && r.value.insight == InsightOf(r.value.entries)
    ensures r.Ok? && r.value.EbitdaView? ==> r.value.profitability == ProfitabilityOf(r.value.ebitda.ebitdaMargin)
    ensures r.Ok? && r.value.RunwayView? ==> r.value.health == HealthOf(r.value.runway.runway)
    ensures r.Err? <==> results != [] && match plan.intent
      case RevenueVsBudget => !results[0].RevenueOutcome?
      case GrossMarginTrend => TrendData(results).None?
      case OpexBreakdown => !results[0].OpexOutcome?
      case Ebitda => !results[0].EbitdaOutcome?
      case CashRunway => !results[0].RunwayOutcome?
  {
    if results == [] then Ok(Help)
    else
      match plan.intent
      case RevenueVsBudget =>
        if results[0].RevenueOutcome? then
          var report := results[0].revenue;
          Ok(RevenueView(report, BadgeOf(report.variance)))
        else Err(WrongResultShape)
      case GrossMarginTrend =>
        (match TrendData(results)
         case Some(entries) => Ok(TrendView(entries, InsightOf(entries)))
         case None => Err(WrongResultShape))
      case OpexBreakdown =>
        if results[0].OpexOutcome? then Ok(OpexView(results[0].opex)) else Err(WrongResultShape)
      case Ebitda =>
        if results[0].EbitdaOutcome? then
          var report := results[0].ebitda;
          Ok(EbitdaView(report, ProfitabilityOf(report.ebitdaMargin)))
        else Err(WrongResultShape)
      case CashRunway =>
        if results[0].RunwayOutcome? then
          var report := results[0].runway;
          Ok(RunwayView(report, HealthOf(report.runway)))
        else Err(WrongResultShape)
  }

  // ---------------------------------------------------------------- the badges

  function ProfitabilityRank(p: Profitability): nat {
    match p case LowProfitability => 0 case ModerateProfitability => 1 case StrongProfitability => 2
  }

  /** A higher EBITDA margin never gets a worse badge; the boundaries 10 and 20 fall below. */
  lemma ProfitabilityMonotone(a: real, b: real)
    requires a <= b
    ensures ProfitabilityRank(ProfitabilityOf(a)) <= ProfitabilityRank(ProfitabilityOf(b))
    ensures ProfitabilityOf(20.0) == ModerateProfitability && ProfitabilityOf(10.0) == LowProfitability
  {
  }

  function HealthRank(h: RunwayHealth): nat {
    match h case LowRunway => 0 case ModerateRunway => 1 case HealthyRunway => 2
  }

  /** A longer runway never gets a worse badge, and an infinite one is healthy. */
  lemma HealthMonotone(a: real, b: real)
    requires a <= b
    ensures HealthRank(HealthOf(Finite(a))) <= HealthRank(HealthOf(Finite(b)))
    ensures HealthRank(HealthOf(Finite(a))) <= HealthRank(HealthOf(Unbounded))
    ensures HealthOf(Finite(12.0)) == ModerateRunway && HealthOf(Finite(6.0)) == LowRunway
  {
  }

  /**
   * The trend insight reads only the first and last margins: a trend with the same endpoints
   * gets the same insight whatever lies between.
   */
  lemma InsightEndpoints(a: seq<MarginEntry>, b: seq<MarginEntry>)
    requires |a| > 1 && |b| > 1
    requires a[0].grossMarginPct == b[0].grossMarginPct
    requires a[|a| - 1].grossMarginPct == b[|b| - 1].grossMarginPct
    ensures InsightOf(a) == InsightOf(b)
  {
  }

  /** Answering a plan with the result of the analyzer function it names always fits the template. */
  lemma AnalyzerResultsFit(plan: Plan, outcome: Outcome)
    requires match plan.intent
      case RevenueVsBudget => outcome.RevenueOutcome?
      case GrossMarginTrend => outcome.TrendOutcome?
      case OpexBreakdown => outcome.OpexOutcome?
      case Ebitda => outcome.EbitdaOutcome?
      case CashRunway => outcome.RunwayOutcome?
    ensures FormatResponse(plan, [outcome]).Ok? && FormatResponse(plan, [outcome]).value != Help
  {
  }
}
