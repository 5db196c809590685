# CFO Copilot core in Dafny

CFO Copilot answers a finance question in two steps.

- **Planning.** The `QueryPlanner` lower-cases the question. It picks a month by substring search over a table of month names. It reads "last N months" with a regular expression, and picks an intent by the first regular expression that matches. It then builds a plan naming one analyzer function and a chart type. Once results are in, it chooses the answer template and the badge it shows.
- **Analysis.** The `FinancialAnalyzer` runs that function over four tables: actuals, budget, FX rates and cash. The `FinancialDataLoader` reads each table once and keeps it; a missing file is replaced by a built-in sample table. EUR amounts are converted to USD with the rate of the FX row whose month contains the month's first word.

The functions are revenue against budget, a gross-margin trend with per-month sample fallbacks, an operating-expense breakdown by category, EBITDA, and a cash runway built from the month-by-month USD cash balances.

The model follows the program's structure:

- `Text`, `Patterns`, `Calendar`: `str.lower`, `in`, `split()[0]` and `replace`, and the fragment of `re` the patterns use. `re.search` is an existential match over a token pattern. `Calendar` holds the twelve month labels of 2025.
- `Planner`: month extraction, the "last N months" range, intent classification and `create_plan`, as pure functions. `PlannerExamples` proves what they return on concrete questions.
- `Tables`, `Currency`, `Dicts`: a table is its column header plus rows whose cells map month labels to amounts. Row selection (`df[mask]`), column sums, `convert_to_usd`, and Python's insertion-ordered dict.
- `Metrics`, `Runway`: the five analyses as specification functions. The loops of the source (the EUR scan and row rewrite, the margin trend, the opex grouping, the cash scan and the burns) are methods whose `ensures` ties them to those functions.
- `Loader`, `Analyzer`: classes. The loader's four cache fields are set once. Each analyzer method loads what the source loads and returns the specification function of the loaded tables.
- `Formatter`: `format_response`'s template and badge choice.
- `Samples`: the analyses on the built-in sample tables.

On the built-in sample tables, June 2025 revenue comes out as 1,450,000 + 900,000 × 1.11 = 2,449,000. The budget is 1,350,000 + 850,000 × 1.11 = 2,293,500, a variance of +155,500 (agent/tools.py:79-105; streamlit_demo.py:101-103 shows the same figures). `Samples.SampleRevenueVsBudget` proves these figures.

## Model

| member | source | states |
|---|---|---|
| Planner.MonthLabelsAreCalendarMonths | agent/planner.py:12-25 | every label in the month-name table is one of the twelve calendar labels |
| Planner.ExtractMonth | agent/planner.py:59-68 | the extracted month is always one of the twelve calendar labels |
| Planner.MonthFromFirstMatch | agent/planner.py:63-65 | the scan returns the label of the first table entry, in table order, that occurs in the lower-cased query |
| Planner.MonthFromNoMatch | agent/planner.py:67-68 | with no table entry in the query the scan returns Jun 2025 |
| Planner.ExtractMonthFirstMatch | agent/planner.py:59-65 | extract_month returns the label of the first month name that occurs in the lower-cased query |
| Planner.ExtractMonthDefault | agent/planner.py:67-68 | a query containing no month name gets Jun 2025 |
| Planner.LastMonthsCount | agent/planner.py:75-77 | a count exists exactly when `last\s+(\d+)\s+months?` is found in the query |
| Planner.LastMonthsCountLeftmost | agent/planner.py:75-77 | the count is the digits captured at the leftmost match |
| Planner.CapturedCount | agent/planner.py:75-77 | the captured count is the value of the whole digit run that follows "last" and the whole whitespace run after it |
| Planner.ExtractMonthsRange | agent/planner.py:70-91 | with "last N months": the min(N, 6) calendar months ending at Jun 2025, in order, the last one Jun 2025 for N ≥ 1; otherwise the single extracted month |
| Planner.MonthsRangeNeverEmptyWithoutLastN | agent/planner.py:88-94 | without "last N months" the range is one non-empty month, so the three-month default is unreachable |
| Planner.NoPatternMatches | agent/planner.py:100-103 | patterns whose leading literal is absent from the query do not match |
| Planner.NotRevenueQuery | agent/planner.py:28-33 | without "revenue", "actual" or "budget" no revenue pattern matches |
| Planner.NotMarginQuery | agent/planner.py:34-39 | without "gross" or "margin" no margin pattern matches |
| Planner.NotOpexQuery | agent/planner.py:40-45 | without "opex", "operating" or "break" no opex pattern matches |
| Planner.NotEbitdaQuery | agent/planner.py:46-50 | without "ebitda", "earnings" or "operating" no EBITDA pattern matches |
| Planner.NotRunwayQuery | agent/planner.py:51-56 | without "cash", "runway" or "how" no runway pattern matches |
| Planner.IntentFromFirstMatch | agent/planner.py:100-103 | the scan returns the first intent, in table order, one of whose patterns is found |
| Planner.IntentFromNoMatch | agent/planner.py:105-106 | with no pattern found the scan returns revenue_vs_budget |
| Planner.IntentFrom | agent/planner.py:100-106 | the scan from entry k returns the intent of the first entry with a pattern found in the query, or revenue against budget when none is found |
| Planner.ClassifyIntent | agent/planner.py:96-106 | classify_intent returns the intent of the first table entry with a pattern found in the lower-cased query, or revenue against budget when no pattern is found |
| Planner.ClassifyIntentFirstMatch | agent/planner.py:96-103 | classify_intent returns the first intent with a pattern found in the lower-cased query |
| Planner.ClassifyIntentDefault | agent/planner.py:105-106 | a query no pattern matches is a revenue-vs-budget question |
| Planner.CreatePlan | agent/planner.py:108-169 | the plan carries the query, its intent, month and months range, needs a chart, and holds one call to the analyzer function of its intent with the months range (trend), no parameters (runway) or the month (the rest), plus that intent's chart type |
| PlannerExamples.ExtractMonthJune | agent/planner.py:59-65 | "What was June revenue?" resolves to Jun 2025 |
| PlannerExamples.ExtractMonthShowRevenue | agent/planner.py:67-68 | "Show revenue" names no month and resolves to Jun 2025 |
| PlannerExamples.ExtractMonthMarginTrend | agent/planner.py:63-65 | month names are matched as substrings: "Gross margin trend" resolves to Mar 2025 through "mar" in "margin" |
| PlannerExamples.ClassifyEbitda | agent/planner.py:46-47 | "What is our EBITDA?" is an EBITDA question |
| PlannerExamples.ClassifyCashRunway | agent/planner.py:51-53 | "What is our cash runway?" is a cash-runway question |
| PlannerExamples.ClassifyMarginTrend | agent/planner.py:34-36 | "Gross margin trend" is a margin-trend question |
| PlannerExamples.MonthsRangeLastThree | agent/planner.py:75-86 | "Last 3 months" is April, May and June 2025 |
| Text.Lower | agent/planner.py:61 | lower-casing keeps the length, leaves no capital letter, turns each capital into its lower-case letter and keeps every other character |
| Text.LowerOfLowerCase | agent/planner.py:61 | text without capitals is unchanged by lower-casing |
| Text.LowerIdempotent | agent/planner.py:61 | lower-casing twice is lower-casing once |
| Text.FirstWord | agent/tools.py:135 | `split()[0]`: none exactly for an all-whitespace month, otherwise a non-empty whitespace-free word occurring in it |
| Text.FirstWordAfterSpaces | agent/tools.py:135 | the word found starts right after the leading whitespace and ends at the next whitespace or the end of the text, so it is the first token |
| Text.Absent | agent/planner.py:63-65 | a word with a character the query lacks does not occur in the query |
| Text.RemoveAll | agent/tools.py:244 | `replace` never lengthens the text and leaves text without the pattern unchanged |
| Text.RemoveLeading | agent/tools.py:244 | removing the pattern from pattern + rest gives rest when rest does not contain it |
| Text.DigitsValue | agent/planner.py:77 | `int()` of a digit run is below 10 to the power of its length |
| Text.DigitsValueLast | agent/planner.py:77 | the value's last decimal digit is the run's last digit and the rest of the value is the rest of the run |
| Text.DigitsValueLeadingZero | agent/planner.py:77 | a leading zero does not change the value |
| Patterns.SearchIff | agent/planner.py:75 | `re.search` succeeds exactly when the pattern matches at some position |
| Patterns.GapIff | agent/planner.py:29 | `.*` followed by the rest matches exactly when the rest matches after a newline-free stretch |
| Patterns.SearchFindsLit | agent/planner.py:102 | a pattern found in the query has its leading literal in the query |
| Calendar.MonthsNumbered | agent/tools.py:121-127 | the twelve month labels are in calendar order and all different |
| Calendar.DefaultMonthPosition | agent/planner.py:84 | Jun 2025 is at index 5 of the calendar |
| Calendar.SpringQuarter | agent/planner.py:94 | the three months ending at Jun 2025 are April, May and June |
| Tables.Select | agent/tools.py:155-156 | a filtered frame holds only rows satisfying the mask, never more rows than the frame |
| Tables.SelectCounts | agent/tools.py:155-156 | filtering keeps every selected row as often as it occurs and drops every other row |
| Tables.SelectAppend | agent/tools.py:234 | filtering distributes over concatenation |
| Tables.ColumnSumAppend | agent/tools.py:163 | the column sum of concatenated rows is the sum of the two column sums |
| Currency.FxRate | agent/tools.py:136-139 | no rate exactly when no FX month contains the month's first word |
| Currency.FxRateFirst | agent/tools.py:139 | the rate is the EUR_USD of the first FX row whose month contains the word |
| Currency.Converted | agent/tools.py:129-147 | a successful conversion keeps the table's month columns and its number of rows |
| Currency.ConvertToUsd | agent/tools.py:129-147 | the conversion loop returns the converted table or the error the source raises |
| Currency.AnyEur | agent/tools.py:142-143 | the scan finds a EUR row exactly when one exists |
| Currency.RewriteEur | agent/tools.py:144-145 | every EUR row gets its month cell times the rate and the USD label; other rows are untouched |
| Currency.ConvertedFails | agent/tools.py:135-145 | conversion fails exactly for a blank month (IndexError), or for a EUR row in a table without the month column (KeyError) when a rate exists |
| Currency.ConvertedNoOp | agent/tools.py:138-143 | with no rate, no rows or no EUR row the table comes back unchanged |
| Currency.ConvertedRows | agent/tools.py:142-145 | row by row: EUR rows become USD with the month cell scaled, others unchanged, entity and account kept, no EUR row left |
| Currency.ConvertedIdempotent | agent/tools.py:129-147 | converting an already converted table changes nothing |
| Currency.ConvertedSum | agent/tools.py:144 | the converted column sum is the rate-weighted sum of the original column |
| Currency.WeightedSumWithoutEur | agent/tools.py:143 | without EUR rows the weighted sum is the plain column sum |
| Currency.SelectAllToUsd | agent/tools.py:155-160 | filtering then converting equals converting then filtering, row by row |
| Currency.ConvertedWhere | agent/tools.py:257-267 | filtering a successfully converted table equals converting the filtered table |
| Currency.ConvertedTotal | agent/tools.py:159-164 | a successfully converted column sums to the USD total of the original rows |
| Dicts.SumOverUpdate | agent/tools.py:246 | reassigning one key changes the sum of the values by the difference |
| Dicts.PutTotal | agent/tools.py:246 | `d[k] = v` changes the total by v minus the old value of k |
| Dicts.AddGet | agent/tools.py:246 | `d[k] = d.get(k, 0) + v` creates or raises k's entry by v and changes no other key |
| Dicts.AddTotal | agent/tools.py:246 | adding an amount raises the dict's total by that amount |
| Dicts.AccumulateTotal | agent/tools.py:243-247 | the accumulated dict's values sum to the sum of all amounts |
| Dicts.AccumulateGet | agent/tools.py:243-246 | a key has an entry exactly when some pair names it, and its value is the sum of that key's amounts |
| Dicts.AccumulateTwo | agent/tools.py:243-246 | two pairs with different keys give those keys in insertion order |
| Metrics.Percent | agent/tools.py:166 | the percentage times the base is 100 times the part, and 0 when the base is 0 |
| Metrics.RevenueVsBudget | agent/tools.py:149-174 | a report exists exactly when the month has a first word and both tables have the month column; variance is actual minus budget and its percentage is relative to budget |
| Metrics.RevenueTotals | agent/tools.py:155-164 | actual and budget are the USD totals of the Revenue rows of each table |
| Metrics.MarginTotals | agent/tools.py:183-200 | a computed month's revenue and COGS are the USD totals of the Revenue and COGS rows alone |
| Metrics.MarginOf | agent/tools.py:188-192 | revenue and COGS are the sums of their rows' month column; gross profit is their difference and the margin its percentage of revenue |
| Metrics.MarginComputed | agent/tools.py:183-200 | the computed entry exists exactly when the month has a first word and the actuals have the month column |
| Metrics.MarginFor | agent/tools.py:183-217 | a month's entry is missing exactly when computing fails for a month outside April to June |
| Metrics.SampleMargin | agent/tools.py:201-217 | a fallback entry exists exactly for Apr, May and Jun 2025, for that month, with gross profit equal to revenue minus COGS |
| Metrics.Trend | agent/tools.py:176-219 | the trend has at most one entry per requested month |
| Metrics.GrossMarginTrend | agent/tools.py:176-219 | the loop returns one entry per month that has one, in the order asked |
| Metrics.MarginOfConverted | agent/tools.py:185-217 | a month's entry is computed from the converted actuals when conversion succeeds and the column exists, and is the sample entry otherwise |
| Metrics.TrendStep | agent/tools.py:182-217 | each month appends its entry, if it has one, to the trend so far |
| Metrics.PresentEntries | agent/tools.py:209-217 | the trend holds only entries that were produced, never more than asked |
| Metrics.PresentAll | agent/tools.py:194-200 | with every entry present, the trend is those entries in order |
| Metrics.TrendEntries | agent/tools.py:176-219 | the trend has at most one entry per month asked; each names a month asked and has gross profit = revenue − COGS |
| Metrics.TrendWithoutFailures | agent/tools.py:182-200 | when every month computes, the trend is the computed entries, one per month, in order |
| Metrics.TrendOfFailingMonth | agent/tools.py:201-217 | a month that raises adds its sample entry for April to June and nothing otherwise |
| Metrics.Category | agent/tools.py:244 | an account's category is no longer than the account, and is the account itself when it has no "Opex:" |
| Metrics.OpexBreakdownOf | agent/tools.py:229-253 | a breakdown exists exactly when the month has a first word and the actuals have the month column or no opex rows; it has at most one category per opex row |
| Metrics.OpexBreakdown | agent/tools.py:229-253 | the method returns the breakdown of the converted opex rows or the source's error |
| Metrics.GroupRows | agent/tools.py:240-247 | the loop builds the category dict and a running total equal to the month's column sum and to the dict's total |
| Metrics.GroupedTotal | agent/tools.py:246-247 | the categories' amounts add up to the total |
| Metrics.AmountsTotal | agent/tools.py:243-247 | the rows' (category, amount) pairs sum to the month's column sum |
| Metrics.GroupedKeys | agent/tools.py:243-246 | there are never more categories than rows |
| Metrics.OpexTotal | agent/tools.py:229-253 | the breakdown's total is the USD total of the "Opex:" rows alone |
| Metrics.AccumulateKeys | agent/tools.py:246 | grouping never yields more keys than pairs |
| Metrics.OpexOfConverted | agent/tools.py:234-253 | the report is the grouping of the converted opex rows, or a KeyError for rows without the month column |
| Metrics.GroupedByCategory | agent/tools.py:243-246 | a category is a key exactly when some opex row has it, and its amount is the sum of those rows' amounts |
| Metrics.OpexTotalIsBreakdownSum | agent/tools.py:240-252 | the reported total equals the sum of the breakdown's values |
| Metrics.Ebitda | agent/tools.py:255-280 | a report exists exactly when the month has a first word and the actuals have the month column; EBITDA is revenue − COGS − opex and its margin is relative to revenue |
| Metrics.EbitdaTotals | agent/tools.py:255-280 | revenue, COGS and opex of the EBITDA report are the USD totals of the Revenue, COGS and "Opex:" rows alone |
| Metrics.EbitdaAgrees | agent/tools.py:255-270 | EBITDA's revenue and COGS are the margin trend's, its opex is the opex breakdown's total, and EBITDA is gross profit minus that total |
| Runway.RowsCash | agent/tools.py:300-305 | the month's total is NaN exactly when some USD or EUR row has no number for the month |
| Runway.RowsCashWeighted | agent/tools.py:300-305 | without NaN, the total is the USD cells plus the EUR cells times the rate, the sum the table conversion computes |
| Runway.Balance | agent/tools.py:293-308 | a month is kept exactly when it has a first word, a matching FX row and a positive USD total (no NaN), and its balance is that total |
| Runway.BalanceIsUsdTotal | agent/tools.py:293-308 | for cash rows all in USD or EUR with the month filled, the balance is the month's USD total as the P&L metrics compute it, kept when positive |
| Runway.Balances | agent/tools.py:292-310 | the balance series has at most one entry per month, all positive |
| Runway.ReportOf | agent/tools.py:316-340 | the report keeps the balance series, its current cash is the last balance, the runway is unbounded exactly for a non-positive average burn, a finite runway times the burn is the current cash, and it is positive when the last balance is |
| Runway.RunwayOver | agent/tools.py:282-344 | no balance gives the fallback report; otherwise the report holds the scanned balances; either way the current cash is the last balance, above zero, and a finite runway is positive |
| Runway.CashRunwayOf | agent/tools.py:282-344 | calculate_cash_runway always reports a positive current cash equal to its last listed balance, and a runway that is positive or unbounded |
| Runway.FallbackPositive | agent/tools.py:346-357 | the fallback report's cash is its last balance, above zero, and its runway is a positive number of months |
| Runway.MonthCash | agent/tools.py:300-305 | the inner loop adds USD cells and rate-converted EUR cells |
| Runway.MonthBalance | agent/tools.py:293-310 | one month's balance as the source computes it, or none |
| Runway.BalancesStep | agent/tools.py:292-308 | each month appends its balance, if it has one, to the series so far |
| Runway.CashRunwayOver | agent/tools.py:284-340 | over distinct month labels, the scan, the burns and the report, or the fallback when no month has a balance |
| Runway.BurnsOf | agent/tools.py:321-327 | the burns are the drops between consecutive balances |
| Runway.CashRunway | agent/tools.py:282-344 | calculate_cash_runway scans the twelve calendar months |
| Runway.BurnsTelescope | agent/tools.py:321-329 | the burns add up to the first balance minus the last |
| Runway.ReportNumbers | agent/tools.py:329-340 | current cash is the last balance; the average burn is 85,000 for one month and (first − last)/(n − 1) otherwise; the runway is infinite exactly when the burn is ≤ 0, otherwise cash / burn |
| Runway.UnboundedWhenNotBurning | agent/tools.py:333 | with two or more months the runway is infinite exactly when cash did not fall |
| Runway.BalancesMembers | agent/tools.py:307-308 | every kept entry is a scanned month with its own balance |
| Runway.BalancesOrdered | agent/tools.py:317 | the series keeps the order of the scanned months |
| Runway.BalancesComplete | agent/tools.py:307-308 | every month with a balance is in the series |
| Runway.FallbackWhenNoBalance | agent/tools.py:313-314 | the fallback is returned exactly when no month has a balance |
| Runway.NoBalances | agent/tools.py:313 | with no month kept the series is empty |
| Runway.FallbackConsistent | agent/tools.py:346-357 | the fallback's burns are 85,000 twice, its current cash is its last balance, and 46.5 is its cash over burn to one decimal |
| Runway.CashBalancesInCalendarOrder | agent/tools.py:286-317 | the balances are in calendar order |
| Loader.Settled | agent/tools.py:39-45 | the table kept is the cached one, else the file's, else the sample |
| Loader.SampleActualsComplete | agent/tools.py:77-87 | the sample actuals are six rows, each in USD or EUR with a number for each of April, May and June 2025 |
| Loader.SampleBudgetComplete | agent/tools.py:89-96 | the sample budget's rows are in USD or EUR with a number for June 2025, a month the actuals also have |
| Loader.SampleFxCoversActuals | agent/tools.py:98-105 | the sample FX table has exactly one row per month of the sample actuals |
| Loader.SampleCashComplete | agent/tools.py:107-113 | the sample cash is one USD and one EUR row, each with a number for June 2025 |
| Loader.FinancialDataLoader.constructor | agent/tools.py:27-35 | nothing is loaded at construction |
| Loader.FinancialDataLoader.LoadActuals | agent/tools.py:37-45 | the actuals are read once and kept; a missing file gives the sample; no other table changes |
| Loader.FinancialDataLoader.LoadBudget | agent/tools.py:47-55 | the same for the budget |
| Loader.FinancialDataLoader.LoadFx | agent/tools.py:57-65 | the same for the FX rates |
| Loader.FinancialDataLoader.LoadCash | agent/tools.py:67-75 | the same for the cash table |
| Analyzer.FinancialAnalyzer.constructor | agent/tools.py:118-119 | the analyzer keeps its loader |
| Analyzer.FinancialAnalyzer.GetRevenueVsBudget | agent/tools.py:149-174 | loads actuals, budget and FX and returns the revenue report of the loaded tables |
| Analyzer.FinancialAnalyzer.GetGrossMarginTrend | agent/tools.py:176-219 | loads the actuals, loads FX only when some month is asked, and returns the trend of the loaded tables |
| Analyzer.FinancialAnalyzer.GetOpexBreakdown | agent/tools.py:229-253 | loads actuals and FX and returns the breakdown of the loaded tables |
| Analyzer.FinancialAnalyzer.CalculateEbitda | agent/tools.py:255-280 | loads actuals and FX and returns the EBITDA report of the loaded tables |
| Analyzer.FinancialAnalyzer.CalculateCashRunway | agent/tools.py:282-344 | loads cash and FX and returns the runway of the loaded tables |
| Formatter.TrendData | agent/planner.py:188 | the trend data is the first result when it is a list, else every result as an entry |
| Formatter.Entries | agent/planner.py:188-193 | the entries exist exactly when every result is one entry, and they are the results in order |
| Formatter.FormatResponse | agent/planner.py:171-253 | no results give the help text and results never do; each template is chosen only for its intent and shows the first result; the revenue badge, the trend insight over the trend data, the EBITDA profitability and the runway health are the ones their thresholds give; a result of the wrong shape is an error |
| Formatter.BadgeOf | agent/planner.py:183 | above budget exactly for a positive variance, below exactly for a negative one, on budget exactly for zero |
| Formatter.ProfitabilityOf | agent/planner.py:235 | strong exactly above a 20% EBITDA margin, moderate exactly above 10% up to 20%, low at 10% or below |
| Formatter.HealthOf | agent/planner.py:240-248 | healthy exactly for an infinite runway or one above 12 months, moderate above 6 up to 12, low at 6 or below |
| Formatter.ProfitabilityMonotone | agent/planner.py:235 | a higher EBITDA margin never gets a worse badge; 20 and 10 fall in the lower band |
| Formatter.HealthMonotone | agent/planner.py:240-248 | a longer runway never gets a worse badge, an infinite one is healthy, and 12 and 6 fall in the lower band |
| Formatter.InsightEndpoints | agent/planner.py:196-204 | the insight depends only on the first and last margins |
| Formatter.InsightOf | agent/planner.py:196-206 | a single month (or none) has no trend; otherwise improvement, decline or stable exactly as the last margin is above, below or equal to the first |
| Formatter.AnalyzerResultsFit | agent/planner.py:171-249 | the result of the function a plan names always fits that plan's template |
| Samples.SampleJuneRate | agent/tools.py:98-105 | the June rate of the sample FX table is 1.11 |
| Samples.SampleActualRevenueRows | agent/tools.py:155 | the sample actuals' Revenue rows are the US and EU revenue rows |
| Samples.SampleRevenueVsBudget | agent/tools.py:149-174 | on the sample tables June's actual revenue is 2,449,000, its budget 2,293,500 and the variance 155,500 |
| Samples.SampleRevenueAnswer | agent/planner.py:175-183 | the sample June revenue answer shows the above-budget badge |
| Samples.SampleOpexRows | agent/tools.py:234 | the sample opex rows are Opex:Sales and Opex:Marketing |
| Samples.CategoryAfterPrefix | agent/tools.py:244 | an "Opex:" account's category is the text after the prefix |
| Samples.GroupedTwo | agent/tools.py:243-247 | two rows with different categories give two keys in row order and their sum as total |
| Samples.SampleOpexBreakdown | agent/tools.py:229-253 | the sample June breakdown is Sales 145,000 then Marketing 100,000, total 245,000 |
| Samples.SampleCashOnlyJune | agent/tools.py:107-113 | the sample cash table has no balance outside June |
| Samples.SampleJuneBalance | agent/tools.py:300-308 | June's sample cash is 2,400,000 + 1,400,000 × 1.11 = 3,954,000 USD |
| Samples.BalancesSingle | agent/tools.py:292-308 | a scan with one month that has a balance yields that month alone |
| Samples.SampleBalances | agent/tools.py:292-310 | the sample balance series is June alone, 3,954,000 |
| Samples.RunwayOfOne | agent/tools.py:329-333 | a single balance gives the default burn and a runway of cash / 85,000 |
| Samples.SampleCashRunway | agent/tools.py:282-340 | the sample runway has the fallback's current cash and burn, a runway of 3,954,000 / 85,000 months, and June as its only balance |

## Left out

- The Streamlit interface and the global `get_planner` / `get_analyzer` singletons (agent/planner.py:256-264, agent/tools.py:360-370): they only cache one instance each.
- CSV parsing and the file system: the loader takes, for each fixture file, its table or None for a missing file. A read error other than a missing file is not modelled.
- The mock `pd` / `np` classes used when pandas is unavailable (agent/tools.py:3-18): a deployment concern, not part of the analyses.
- Number formatting, emoji and the rendered answer text of `format_response`: the model chooses the template and the badge only.
- Floating point: amounts are reals, so rounding of the FX products and of the averages is not modelled.
- Unicode in `str.lower` and `\d`: lower-casing covers ASCII letters and `\d` covers ASCII digits.
- Regular-expression metacharacters in the first word passed to `str.contains`: the word is matched literally.
- Copy semantics (`.copy()`, `df.copy()`): values in the model are immutable, so returning a copy and returning the table coincide.
- The cash table has no Account column; its rows are modelled with an empty account.
- Metrics.OpexTotal: the breakdown's total equals the USD total of the opex rows only when every opex row has a number for the month. In the source, a NaN cell in an opex row makes its category and the total NaN (the loop adds `row[month]` directly). The model reads the cell as 0, as `Metrics.GroupRows` does.
- Metrics.EbitdaAgrees: EBITDA's opex equals the breakdown's total only when every opex row has a number for the month. In the source, EBITDA's `.sum()` skips a NaN cell while the breakdown's loop carries it into the total.
- Metrics.GroupRows: an absent cell under an existing month column adds 0 to a category and to the total, where pandas would add NaN.
- Metrics.RevenueVsBudget: a NaN cell in a summed column counts as 0, which is what `sum()` does by skipping NaN.
- Metrics.OpexBreakdown: the month-column check is made once before the grouping loop, where the source raises KeyError on the first row. The outcome is the same.
- Metrics.GrossMarginTrend: the outer `except Exception` fallback to the three sample months is not modelled. Nothing inside that block raises in the model, because loading cannot fail and per-month errors are caught.
- Runway.CashRunway: the outer `except` fallback is not modelled for the same reason. The inner `except ... continue` is the month being skipped. The default of 3,954,000 for an empty series is unreachable, because the series is non-empty past the fallback check.
- Runway.CashRunwayOver: the balances dict is a sequence of pairs that the scan appends to, which matches the dict's insertion only for distinct month labels. The method requires distinct labels. The one caller passes the twelve calendar labels, which are distinct (Calendar.MonthsNumbered). Overwriting a repeated key is not modelled.
- Planner.ExtractMonthsRange: the three-month default is unreachable because `extract_month` never returns an empty label (Planner.MonthsRangeNeverEmptyWithoutLastN).
