/**
 * The query planner: free text to a month, a month range, one of five intents, and an
 * execution plan naming the analyzer function to call.
 */
module Planner {
  import opened Wrappers
  import opened Text
  import opened Patterns
  import opened Calendar

  /** The month names the planner looks for, in the order it tries them, with their labels. */
  const MonthPatterns: seq<(string, string)> := [
    ("january", "Jan 2025"), ("jan", "Jan 2025"),
    ("february", "Feb 2025"), ("feb", "Feb 2025"),
    ("march", "Mar 2025"), ("mar", "Mar 2025"),
    ("april", "Apr 2025"), ("apr", "Apr 2025"),
    ("may", "May 2025"),
    ("june", "Jun 2025"), ("jun", "Jun 2025"),
    ("july", "Jul 2025"), ("jul", "Jul 2025"),
    ("august", "Aug 2025"), ("aug", "Aug 2025"),
    ("september", "Sep 2025"), ("sep", "Sep 2025"),
    ("october", "Oct 2025"), ("oct", "Oct 2025"),
    ("november", "Nov 2025"), ("nov", "Nov 2025"),
    ("december", "Dec 2025"), ("dec", "Dec 2025")
  ]

  lemma MonthLabelsAreCalendarMonths()
    ensures forall k :: 0 <= k < |MonthPatterns| ==> MonthPatterns[k].1 in Months
  {
  }

  /** The label of the first month name at or after position k of the table that occurs in q. */
  function MonthFrom(q: string, k: nat): (month: string)
    ensures month in Months
    decreases |MonthPatterns| - k
  {
    if k >= |MonthPatterns| then DefaultMonth
    else if Contains(q, MonthPatterns[k].0) then
      MonthLabelsAreCalendarMonths();
      MonthPatterns[k].1
    else MonthFrom(q, k + 1)
  }

  /** extract_month: first month name (by substring) in the lower-cased query, else June. */
  function ExtractMonth(query: string): (month: string)
    ensures month in Months
  {
    MonthFrom(Lower(query), 0)
  }

  lemma {:induction false} MonthFromFirstMatch(q: string, k: nat, j: nat)
    requires k <= j < |MonthPatterns| && Contains(q, MonthPatterns[j].0)
    requires forall i :: k <= i < j ==> !Contains(q, MonthPatterns[i].0)
    ensures MonthFrom(q, k) == MonthPatterns[j].1
    decreases j - k
  {
    if k < j {
      MonthFromFirstMatch(q, k + 1, j);
    }
  }

  lemma {:induction false} MonthFromNoMatch(q: string, k: nat)
    requires forall i :: k <= i < |MonthPatterns| ==> !Contains(q, MonthPatterns[i].0)
    ensures MonthFrom(q, k) == DefaultMonth
    decreases |MonthPatterns| - k
  {
    if k < |MonthPatterns| {
      MonthFromNoMatch(q, k + 1);
    }
  }

  /** The month is the label of the first table entry, in declaration order, found in the query. */
  lemma ExtractMonthFirstMatch(query: string, j: nat)
    requires j < |MonthPatterns| && Contains(Lower(query), MonthPatterns[j].0)
    requires forall i :: 0 <= i < j ==> !Contains(Lower(query), MonthPatterns[i].0)
    ensures ExtractMonth(query) == MonthPatterns[j].1
  {
    MonthFromFirstMatch(Lower(query), 0, j);
  }

  /** With no month name in the query, the month is June 2025. */
  lemma ExtractMonthDefault(query: string)
    requires forall i :: 0 <= i < |MonthPatterns| ==> !Contains(Lower(query), MonthPatterns[i].0)
    ensures ExtractMonth(query) == DefaultMonth
  {
    MonthFromNoMatch(Lower(query), 0);
  }

  /** `last\s+(\d+)\s+months?` */
  const LastNMonths: Pattern := [Lit("last"), Spaces, Digits, Spaces, Lit("month"), Opt('s')]

  /**
   * The number `(\d+)` captures when LastNMonths matches at the start of t. Whitespace and
   * digits are disjoint, so the only split a match can use is the whole whitespace run after
   * "last" followed by the whole digit run.
   */
  function CapturedCount(t: string): (n: nat)
    ensures |t| >= 4 ==> exists i, j :: 4 <= i <= j <= |t| && NumberRun(t, i, j) && n == DigitsValue(t[i..j])
  {
    if |t| >= 4 then
      var i := 4 + SpaceRun(t[4..]);
      NumberRunAfterLast(t);
      DigitsValue(t[i..i + DigitRun(t[i..])])
    else 0
  }

  /**
   * After the four letters of "last", t[4..i] is the whole run of whitespace and t[i..j] the
   * whole run of digits that follows it.
   */
  predicate NumberRun(t: string, i: nat, j: nat)
    requires 4 <= i <= j <= |t|
  {
    && (forall k :: 4 <= k < i ==> IsSpace(t[k])) && (i == |t| || !IsSpace(t[i]))
    && (forall k :: i <= k < j ==> IsDigit(t[k])) && (j == |t| || !IsDigit(t[j]))
  }

  lemma NumberRunAfterLast(t: string)
    requires |t| >= 4
    ensures var i := 4 + SpaceRun(t[4..]); i <= |t| && NumberRun(t, i, i + DigitRun(t[i..]))
  {
    SpacesFrom(t, 4);
    DigitsFrom(t, 4 + SpaceRun(t[4..]));
  }

  /** t[a..] starts with SpaceRun(t[a..]) whitespace characters and no more. */
  lemma SpacesFrom(t: string, a: nat)
    requires a <= |t|
    ensures var i := a + SpaceRun(t[a..]);
      (forall k :: a <= k < i ==> IsSpace(t[k])) && (i == |t| || !IsSpace(t[i]))
  {
    var u := t[a..];
    forall k | a <= k < a + SpaceRun(u)
      ensures IsSpace(t[k])
    {
      assert t[k] == u[k - a];
    }
  }

  /** t[a..] starts with DigitRun(t[a..]) digits and no more. */
  lemma DigitsFrom(t: string, a: nat)
    requires a <= |t|
    ensures var j := a + DigitRun(t[a..]);
      (forall k :: a <= k < j ==> IsDigit(t[k])) && (j == |t| || !IsDigit(t[j]))
  {
    var u := t[a..];
    forall k | a <= k < a + DigitRun(u)
      ensures IsDigit(t[k])
    {
      assert t[k] == u[k - a];
    }
  }

  /** The N of the leftmost "last N months" in q, if there is one. */
  function LastMonthsCount(q: string): (n: Option<nat>)
    ensures n.Some? <==> Search(q, LastNMonths)
    decreases |q|
  {
    if MatchesFrom(q, LastNMonths) then Some(CapturedCount(q))
    else if |q| == 0 then None
    else LastMonthsCount(q[1..])
  }

  /** The count is the one captured at the leftmost position where "last N months" matches. */
  lemma {:induction false} LastMonthsCountLeftmost(q: string, i: nat)
    requires MatchesAt(q, LastNMonths, i)
    requires forall j :: 0 <= j < i ==> !MatchesAt(q, LastNMonths, j)
    ensures LastMonthsCount(q) == Some(CapturedCount(q[i..]))
    decreases i
  {
    if i > 0 {
      assert !MatchesAt(q, LastNMonths, 0);
      forall j | 0 <= j < i - 1
        ensures !MatchesAt(q[1..], LastNMonths, j)
      {
        assert q[1..][j..] == q[j + 1..];
        assert !MatchesAt(q, LastNMonths, j + 1);
      }
      assert q[1..][i - 1..] == q[i..];
      LastMonthsCountLeftmost(q[1..], i - 1);
    }
  }

  /**
   * extract_months_range: the N calendar months ending at June 2025 (clipped at January) for
   * "last N months", otherwise the single extracted month.
   */
  function ExtractMonthsRange(query: string): (r: seq<string>)
    ensures forall i :: 0 <= i < |r| ==> r[i] in Months
    ensures !Search(Lower(query), LastNMonths) ==> r == [ExtractMonth(query)]
    ensures Search(Lower(query), LastNMonths) ==>
      var n := LastMonthsCount(Lower(query)).value;
      && |r| == Min(n, DefaultIndex + 1)
      && (forall i :: 0 <= i < |r| ==> r[i] == Months[DefaultIndex + 1 - |r| + i])
      && (n >= 1 ==> r[|r| - 1] == DefaultMonth)
  {
    match LastMonthsCount(Lower(query))
    case Some(n) => Months[Max(0, DefaultIndex - n + 1)..DefaultIndex + 1]
    case None => [ExtractMonth(query)]
  }

  /** The source's three-month fallback is unreachable: the single month is never empty. */
  lemma MonthsRangeNeverEmptyWithoutLastN(query: string)
    requires !Search(Lower(query), LastNMonths)
    ensures |ExtractMonthsRange(query)| == 1 && ExtractMonthsRange(query)[0] != ""
  {
  }

  datatype Intent = RevenueVsBudget | GrossMarginTrend | OpexBreakdown | Ebitda | CashRunway

  /** The intents in the order they are tried, each with its patterns. */
  const IntentPatterns: seq<(Intent, seq<Pattern>)> := [
    (RevenueVsBudget, [
      [Lit("revenue"), Gap, Lit("vs"), Gap, Lit("budget")],
      [Lit("revenue"), Gap, Lit("budget")],
      [Lit("actual"), Gap, Lit("budget"), Gap, Lit("revenue")],
      [Lit("budget"), Gap, Lit("revenue")]]),
    (GrossMarginTrend, [
      [Lit("gross"), Spaces, Lit("margin"), Gap, Lit("trend")],
      [Lit("margin"), Gap, Lit("trend")],
      [Lit("gross"), Spaces, Lit("margin"), Gap, Lit("last"), Gap, Lit("month"), Opt('s')],
      [Lit("margin"), Gap, Lit("last"), Gap, Lit("month"), Opt('s')]]),
    (OpexBreakdown, [
      [Lit("opex"), Gap, Lit("breakdown")],
      [Lit("opex"), Gap, Lit("category")],
      [Lit("operating"), Gap, Lit("expense"), Gap, Lit("breakdown")],
      [Lit("break"), Gap, Lit("down"), Gap, Lit("opex")]]),
    (Ebitda, [
      [Lit("ebitda")],
      [Lit("earnings"), Gap, Lit("before")],
      [Lit("operating"), Gap, Lit("profit")]]),
    (CashRunway, [
      [Lit("cash"), Gap, Lit("runway")],
      [Lit("runway")],
      [Lit("cash"), Gap, Lit("burn")],
      [Lit("how"), Gap, Lit("long"), Gap, Lit("cash")]])
  ]

  /** Some pattern of ps is found in q. */
  predicate AnyMatch(q: string, ps: seq<Pattern>) {
    exists i :: 0 <= i < |ps| && Search(q, ps[i])
  }

  /** The first intent at or after position k of the table with a pattern found in q. */
  function IntentFrom(q: string, k: nat): (intent: Intent)
    ensures (forall j :: k <= j < |IntentPatterns| ==> !AnyMatch(q, IntentPatterns[j].1)) ==> intent == RevenueVsBudget
    ensures (exists j :: k <= j < |IntentPatterns| && AnyMatch(q, IntentPatterns[j].1)) ==>
      exists j :: k <= j < |IntentPatterns| && AnyMatch(q, IntentPatterns[j].1) && intent == IntentPatterns[j].0
        && forall i :: k <= i < j ==> !AnyMatch(q, IntentPatterns[i].1)
    decreases |IntentPatterns| - k
  {
    if k >= |IntentPatterns| then RevenueVsBudget
    else if AnyMatch(q, IntentPatterns[k].1) then IntentPatterns[k].0
    else IntentFrom(q, k + 1)
  }

  /** No pattern of ps is found in q when each starts with a literal q lacks. */
  lemma NoPatternMatches(q: string, ps: seq<Pattern>)
    requires forall i :: 0 <= i < |ps| ==> ps[i] != [] && ps[i][0].Lit? && !Contains(q, ps[i][0].text)
    ensures !AnyMatch(q, ps)
  {
    forall i | 0 <= i < |ps| ensures !Search(q, ps[i]) {
      if Search(q, ps[i]) {
        SearchFindsLit(q, ps[i]);
      }
    }
  }

  /** Without "revenue", "actual" or "budget", no revenue-vs-budget pattern is found. */
  lemma NotRevenueQuery(q: string)
    requires !Contains(q, "revenue") && !Contains(q, "actual") && !Contains(q, "budget")
    ensures !AnyMatch(q, IntentPatterns[0].1)
  {
    NoPatternMatches(q, IntentPatterns[0].1);
  }

  /** Without "gross" or "margin", no margin-trend pattern is found. */
  lemma NotMarginQuery(q: string)
    requires !Contains(q, "gross") && !Contains(q, "margin")
    ensures !AnyMatch(q, IntentPatterns[1].1)
  {
    NoPatternMatches(q, IntentPatterns[1].1);
  }

  /** Without "opex", "operating" or "break", no opex-breakdown pattern is found. */
  lemma NotOpexQuery(q: string)
    requires !Contains(q, "opex") && !Contains(q, "operating") && !Contains(q, "break")
    ensures !AnyMatch(q, IntentPatterns[2].1)
  {
    NoPatternMatches(q, IntentPatterns[2].1);
  }

  /** Without "ebitda", "earnings" or "operating", no EBITDA pattern is found. */
  lemma NotEbitdaQuery(q: string)
    requires !Contains(q, "ebitda") && !Contains(q, "earnings") && !Contains(q, "operating")
    ensures !AnyMatch(q, IntentPatterns[3].1)
  {
    NoPatternMatches(q, IntentPatterns[3].1);
  }

  /** Without "cash", "runway" or "how", no cash-runway pattern is found. */
  lemma NotRunwayQuery(q: string)
    requires !Contains(q, "cash") && !Contains(q, "runway") && !Contains(q, "how")
    ensures !AnyMatch(q, IntentPatterns[4].1)
  {
    NoPatternMatches(q, IntentPatterns[4].1);
  }

  /**
   * classify_intent: the intent of the first table entry, in table order, with a pattern found
   * in the lower-cased query; revenue against budget when none is found.
   */
  function ClassifyIntent(query: string): (intent: Intent)
    ensures (forall j :: 0 <= j < |IntentPatterns| ==> !AnyMatch(Lower(query), IntentPatterns[j].1)) ==>
      intent == RevenueVsBudget
    ensures (exists j :: 0 <= j < |IntentPatterns| && AnyMatch(Lower(query), IntentPatterns[j].1)) ==>
      exists j :: 0 <= j < |IntentPatterns| && AnyMatch(Lower(query), IntentPatterns[j].1) && intent == IntentPatterns[j].0
        && forall i :: 0 <= i < j ==> !AnyMatch(Lower(query), IntentPatterns[i].1)
  {
    IntentFrom(Lower(query), 0)
  }

  lemma {:induction false} IntentFromFirstMatch(q: string, k: nat, j: nat)
    requires k <= j < |IntentPatterns| && AnyMatch(q, IntentPatterns[j].1)
    requires forall i :: k <= i < j ==> !AnyMatch(q, IntentPatterns[i].1)
    ensures IntentFrom(q, k) == IntentPatterns[j].0
    decreases j - k
  {
    if k < j {
      IntentFromFirstMatch(q, k + 1, j);
    }
  }

  lemma {:induction false} IntentFromNoMatch(q: string, k: nat)
    requires forall i :: k <= i < |IntentPatterns| ==> !AnyMatch(q, IntentPatterns[i].1)
    ensures IntentFrom(q, k) == RevenueVsBudget
    decreases |IntentPatterns| - k
  {
    if k < |IntentPatterns| {
      IntentFromNoMatch(q, k + 1);
    }
  }

  /** The intent is the first, in declaration order, with a pattern found in the lower-cased query. */
  lemma ClassifyIntentFirstMatch(query: string, j: nat)
    requires j < |IntentPatterns| && AnyMatch(Lower(query), IntentPatterns[j].1)
    requires forall i :: 0 <= i < j ==> !AnyMatch(Lower(query), IntentPatterns[i].1)
    ensures ClassifyIntent(query) == IntentPatterns[j].0
  {
    IntentFromFirstMatch(Lower(query), 0, j);
  }

  /** A query no pattern matches is a revenue-vs-budget question. */
  lemma ClassifyIntentDefault(query: string)
    requires forall i :: 0 <= i < |IntentPatterns| ==> !AnyMatch(Lower(query), IntentPatterns[i].1)
    ensures ClassifyIntent(query) == RevenueVsBudget
  {
    IntentFromNoMatch(Lower(query), 0);
  }

  datatype Params = MonthParam(month: string) | MonthsParam(months: seq<string>) | NoParams

  datatype FunctionCall = FunctionCall(name: string, params: Params)

  datatype ChartType = Bar | Line | Pie | MetricChart | RunwayChart

  datatype Plan = Plan(
    query: string,
    intent: Intent,
    month: string,
    monthsRange: seq<string>,
    requiresChart: bool,
    functionCalls: seq<FunctionCall>,
    chartType: ChartType)

  /** The analyzer function a plan's call names, read back as the intent that asks for it. */
  function IntentOfFunction(name: string): Option<Intent> {
    if name == "get_revenue_vs_budget" then Some(RevenueVsBudget)
    else if name == "get_gross_margin_trend" then Some(GrossMarginTrend)
    else if name == "get_opex_breakdown" then Some(OpexBreakdown)
    else if name == "calculate_ebitda" then Some(Ebitda)
    else if name == "calculate_cash_runway" then Some(CashRunway)
    else None
  }

  /** create_plan */
  function CreatePlan(query: string): (plan: Plan)
    ensures plan.query == query && plan.intent == ClassifyIntent(query)
    ensures plan.month == ExtractMonth(query) && plan.monthsRange == ExtractMonthsRange(query)
    ensures plan.requiresChart && |plan.functionCalls| == 1
    ensures IntentOfFunction(plan.functionCalls[0].name) == Some(plan.intent)
    ensures plan.functionCalls[0].params ==
      match plan.intent
      case GrossMarginTrend => MonthsParam(plan.monthsRange)
      case CashRunway => NoParams
      case _ => MonthParam(plan.month)
    ensures plan.chartType ==
      match plan.intent
      case RevenueVsBudget => Bar
      case GrossMarginTrend => Line
      case OpexBreakdown => Pie
      case Ebitda => MetricChart
      case CashRunway => RunwayChart
  {
    var intent := ClassifyIntent(query);
    var month := ExtractMonth(query);
    var monthsRange := ExtractMonthsRange(query);
    var (call, chart) :=
      match intent
      case RevenueVsBudget => (FunctionCall("get_revenue_vs_budget", MonthParam(month)), Bar)
      case GrossMarginTrend => (FunctionCall("get_gross_margin_trend", MonthsParam(monthsRange)), Line)
      case OpexBreakdown => (FunctionCall("get_opex_breakdown", MonthParam(month)), Pie)
      case Ebitda => (FunctionCall("calculate_ebitda", MonthParam(month)), MetricChart)
      case CashRunway => (FunctionCall("calculate_cash_runway", NoParams), RunwayChart);
    Plan(query, intent, month, monthsRange, true, [call], chart)
  }
}
