/**
 * The planner on concrete queries. Each example first establishes which characters the
 * lower-cased query lacks or holds where, then derives which table words occur in it, and then
 * applies the first-match lemmas of the planner.
 */
module PlannerExamples {
  import opened Wrappers
  import opened Text
  import opened Patterns
  import opened Calendar
  import opened Planner

  // "What was June revenue?"

  lemma JuneChars(q: string)
    requires q == "what was june revenue?"
    ensures 'y' !in q && 'f' !in q
    ensures 'm' !in q && 'p' !in q
  {
  }

  lemma JunePositions(q: string)
    requires q == "what was june revenue?"
    ensures 'j' !in q[..9] && 'j' !in q[10..] && q[10] != 'a'
    ensures OccursAt(q, "june", 9)
  {
  }

  lemma JuneWords(q: string)
    requires 'y' !in q && 'f' !in q && 'm' !in q && 'p' !in q
    requires 10 < |q| && 'j' !in q[..9] && 'j' !in q[10..] && q[10] != 'a'
    ensures !Contains(q, "january") && !Contains(q, "jan") && !Contains(q, "february")
    ensures !Contains(q, "feb") && !Contains(q, "march") && !Contains(q, "mar")
    ensures !Contains(q, "april") && !Contains(q, "apr") && !Contains(q, "may")
  {
    Absent(q, "january", 6);
    HeadOccurrence(q, "jan", 9, 1);
    Absent(q, "february", 0);
    Absent(q, "feb", 0);
    Absent(q, "march", 0);
    Absent(q, "mar", 0);
    Absent(q, "april", 1);
    Absent(q, "apr", 1);
    Absent(q, "may", 0);
  }

  lemma LowerWhatWasJuneRevenue()
    ensures Lower("What was June revenue?") == "what was june revenue?"
  {
  }

  /** "What was June revenue?" asks about June 2025. */
  lemma ExtractMonthJune()
    ensures ExtractMonth("What was June revenue?") == "Jun 2025"
  {
    var q := "what was june revenue?";
    LowerWhatWasJuneRevenue();
    JuneChars(q);
    JunePositions(q);
    JuneWords(q);
    ExtractMonthFirstMatch("What was June revenue?", 9);
  }

  // "Show revenue"

  lemma ShowRevenueChars(q: string)
    requires q == "show revenue"
    ensures 'j' !in q && 'f' !in q && 'm' !in q && 'a' !in q && 'p' !in q && 'c' !in q && 'd' !in q
    ensures 'n' !in q[..9] && 'n' !in q[10..] && q[10] != 'o'
  {
  }

  lemma ShowRevenueWordsFirstHalf(q: string)
    requires 'j' !in q && 'f' !in q && 'm' !in q && 'a' !in q
    ensures !Contains(q, "january") && !Contains(q, "jan") && !Contains(q, "february")
    ensures !Contains(q, "feb") && !Contains(q, "march") && !Contains(q, "mar")
    ensures !Contains(q, "april") && !Contains(q, "apr") && !Contains(q, "may")
    ensures !Contains(q, "june") && !Contains(q, "jun") && !Contains(q, "july")
  {
    Absent(q, "january", 0);
    Absent(q, "jan", 0);
    Absent(q, "february", 0);
    Absent(q, "feb", 0);
    Absent(q, "march", 0);
    Absent(q, "mar", 0);
    Absent(q, "april", 0);
    Absent(q, "apr", 0);
    Absent(q, "may", 0);
    Absent(q, "june", 0);
    Absent(q, "jun", 0);
    Absent(q, "july", 0);
  }

  lemma ShowRevenueWordsSecondHalf(q: string)
    requires 'j' !in q && 'm' !in q && 'a' !in q && 'p' !in q && 'c' !in q && 'd' !in q
    requires 10 < |q| && 'n' !in q[..9] && 'n' !in q[10..] && q[10] != 'o'
    ensures !Contains(q, "jul") && !Contains(q, "august") && !Contains(q, "aug")
    ensures !Contains(q, "september") && !Contains(q, "sep") && !Contains(q, "october")
    ensures !Contains(q, "oct") && !Contains(q, "november") && !Contains(q, "nov")
    ensures !Contains(q, "december") && !Contains(q, "dec")
  {
    Absent(q, "jul", 0);
    Absent(q, "august", 0);
    Absent(q, "aug", 0);
    Absent(q, "september", 2);
    Absent(q, "sep", 2);
    Absent(q, "october", 1);
    Absent(q, "oct", 1);
    Absent(q, "november", 4);
    HeadOccurrence(q, "nov", 9, 1);
    Absent(q, "december", 0);
    Absent(q, "dec", 0);
  }

  lemma LowerShowRevenue()
    ensures Lower("Show revenue") == "show revenue"
  {
  }

  /** A query naming no month falls back to June 2025. */
  lemma ExtractMonthShowRevenue()
    ensures ExtractMonth("Show revenue") == DefaultMonth
  {
    var q := "show revenue";
    LowerShowRevenue();
    ShowRevenueChars(q);
    ShowRevenueWordsFirstHalf(q);
    ShowRevenueWordsSecondHalf(q);
    ExtractMonthDefault("Show revenue");
  }

  // "What is our EBITDA?"

  lemma EbitdaChars(q: string)
    requires q == "what is our ebitda?"
    ensures 'v' !in q && 'c' !in q && 'g' !in q
  {
  }

  lemma EbitdaMoreChars(q: string)
    requires q == "what is our ebitda?"
    ensures 'm' !in q && 'p' !in q && 'k' !in q && OccursAt(q, "ebitda", 12)
  {
  }

  lemma LowerWhatIsOurEbitda()
    ensures Lower("What is our EBITDA?") == "what is our ebitda?"
  {
  }

  lemma EbitdaMatches(q: string)
    requires q == "what is our ebitda?"
    ensures forall i :: 0 <= i < 3 ==> !AnyMatch(q, IntentPatterns[i].1)
    ensures AnyMatch(q, IntentPatterns[3].1)
  {
    EbitdaChars(q);
    EbitdaMoreChars(q);
    Absent(q, "revenue", 2);
    Absent(q, "actual", 1);
    Absent(q, "budget", 3);
    NotRevenueQuery(q);
    Absent(q, "gross", 0);
    Absent(q, "margin", 0);
    NotMarginQuery(q);
    Absent(q, "opex", 1);
    Absent(q, "operating", 1);
    Absent(q, "break", 4);
    NotOpexQuery(q);
    LitAt(q, "ebitda", 12);
    assert Search(q, IntentPatterns[3].1[0]);
  }

  /** "What is our EBITDA?" is an EBITDA question: no earlier intent has a pattern in it. */
  lemma ClassifyEbitda()
    ensures ClassifyIntent("What is our EBITDA?") == Ebitda
  {
    LowerWhatIsOurEbitda();
    EbitdaMatches("what is our ebitda?");
    ClassifyIntentFirstMatch("What is our EBITDA?", 3);
  }

  // "What is our cash runway?"

  lemma CashRunwayChars(q: string)
    requires q == "what is our cash runway?"
    ensures 'v' !in q && 'l' !in q && 'b' !in q
  {
  }

  lemma CashRunwayLetters(q: string)
    requires q == "what is our cash runway?"
    ensures 'g' !in q && 'm' !in q
  {
  }

  lemma CashRunwayMoreChars(q: string)
    requires q == "what is our cash runway?"
    ensures 'p' !in q && 'e' !in q && OccursAt(q, "runway", 17)
  {
  }

  lemma LowerWhatIsOurCashRunway()
    ensures Lower("What is our cash runway?") == "what is our cash runway?"
  {
  }

  lemma CashRunwayMatches(q: string)
    requires q == "what is our cash runway?"
    ensures forall i :: 0 <= i < 4 ==> !AnyMatch(q, IntentPatterns[i].1)
    ensures AnyMatch(q, IntentPatterns[4].1)
  {
    CashRunwayChars(q);
    CashRunwayLetters(q);
    CashRunwayMoreChars(q);
    Absent(q, "revenue", 1);
    Absent(q, "actual", 5);
    Absent(q, "budget", 0);
    NotRevenueQuery(q);
    Absent(q, "gross", 0);
    Absent(q, "margin", 0);
    NotMarginQuery(q);
    Absent(q, "opex", 1);
    Absent(q, "operating", 1);
    Absent(q, "break", 0);
    NotOpexQuery(q);
    Absent(q, "ebitda", 0);
    Absent(q, "earnings", 0);
    NotEbitdaQuery(q);
    LitAt(q, "runway", 17);
    assert Search(q, IntentPatterns[4].1[1]);
  }

  /** "What is our cash runway?" reaches the last intent through its bare `runway` pattern. */
  lemma ClassifyCashRunway()
    ensures ClassifyIntent("What is our cash runway?") == CashRunway
  {
    LowerWhatIsOurCashRunway();
    CashRunwayMatches("what is our cash runway?");
    ClassifyIntentFirstMatch("What is our cash runway?", 4);
  }

  // "Gross margin trend"

  lemma MarginTrendChars(q: string)
    requires q == "gross margin trend"
    ensures 'v' !in q && 'c' !in q && 'b' !in q
    ensures OccursAt(q, "margin", 6) && OccursAt(q, "trend", 13) && NoNewline(q[12..13])
  {
  }

  lemma LowerGrossMarginTrend()
    ensures Lower("Gross margin trend") == "gross margin trend"
  {
  }

  lemma MarginTrendMatches(q: string)
    requires q == "gross margin trend"
    ensures !AnyMatch(q, IntentPatterns[0].1) && AnyMatch(q, IntentPatterns[1].1)
  {
    MarginTrendChars(q);
    Absent(q, "revenue", 2);
    Absent(q, "actual", 1);
    Absent(q, "budget", 0);
    NotRevenueQuery(q);
    LitGapLitAt(q, "margin", "trend", 6, 13);
    assert Search(q, IntentPatterns[1].1[1]);
  }

  /** A margin-trend question is classified by `margin.*trend` once no revenue pattern applies. */
  lemma ClassifyMarginTrend()
    ensures ClassifyIntent("Gross margin trend") == GrossMarginTrend
  {
    LowerGrossMarginTrend();
    MarginTrendMatches("gross margin trend");
    ClassifyIntentFirstMatch("Gross margin trend", 1);
  }

  lemma MarginTrendMonthChars(q: string)
    requires q == "gross margin trend"
    ensures 'j' !in q && 'f' !in q && 'c' !in q && OccursAt(q, "mar", 6)
  {
  }

  lemma MarginTrendMonthWords(q: string)
    requires q == "gross margin trend"
    ensures forall i :: 0 <= i < 5 ==> !Contains(q, MonthPatterns[i].0)
    ensures Contains(q, MonthPatterns[5].0)
  {
    MarginTrendMonthChars(q);
    Absent(q, "january", 0);
    Absent(q, "jan", 0);
    Absent(q, "february", 0);
    Absent(q, "feb", 0);
    Absent(q, "march", 3);
  }

  /**
   * Month names are found as substrings, not words: "mar" inside "margin" makes a question
   * that names no month a March question.
   */
  lemma ExtractMonthMarginTrend()
    ensures ExtractMonth("Gross margin trend") == "Mar 2025"
  {
    LowerGrossMarginTrend();
    MarginTrendMonthWords("gross margin trend");
    ExtractMonthFirstMatch("Gross margin trend", 5);
  }

  // "Last 3 months"

  lemma LastThreeMonthsMatches(t: string)
    requires t == "last 3 months"
    ensures MatchesFrom(t, LastNMonths)
  {
    var p := LastNMonths;
    assert MatchesFrom("s", p[5..]);
    assert "months"[5..] == "s";
    assert MatchesFrom("months", p[4..]);
    assert " months"[1..] == "months";
    assert MatchesFrom(" months", p[3..]);
    assert "3 months"[1..] == " months";
    assert MatchesFrom("3 months", p[2..]);
    assert " 3 months"[1..] == "3 months";
    assert MatchesFrom(" 3 months", p[1..]);
    assert t[4..] == " 3 months";
  }

  lemma LastThreeMonthsCaptures(t: string)
    requires t == "last 3 months"
    ensures CapturedCount(t) == 3
  {
    assert t[4..] == " 3 months";
    assert " 3 months"[1..] == "3 months";
    assert SpaceRun("3 months") == 0;
    assert SpaceRun(" 3 months") == 1;
    assert "3 months"[1..] == " months";
    assert DigitRun(" months") == 0;
    assert DigitRun("3 months") == 1;
    assert "3 months"[..1] == "3";
    assert "3"[..0] == "";
    assert DigitsValue("3") == 3;
  }

  lemma LowerLast3Months()
    ensures Lower("Last 3 months") == "last 3 months"
  {
  }

  lemma LastThreeMonthsCount(q: string)
    requires q == "last 3 months"
    ensures LastMonthsCount(q) == Some(3)
  {
    LastThreeMonthsMatches(q);
    LastThreeMonthsCaptures(q);
    assert q[0..] == q;
    LastMonthsCountLeftmost(q, 0);
  }

  lemma RangeOfThree(query: string)
    requires LastMonthsCount(Lower(query)) == Some(3)
    ensures ExtractMonthsRange(query) == ["Apr 2025", "May 2025", "Jun 2025"]
  {
    assert ExtractMonthsRange(query) == Months[3..DefaultIndex + 1];
    SpringQuarter();
  }

  /** "Last 3 months" is the three months April to June 2025. */
  lemma MonthsRangeLastThree()
    ensures ExtractMonthsRange("Last 3 months") == ["Apr 2025", "May 2025", "Jun 2025"]
  {
    LowerLast3Months();
    LastThreeMonthsCount("last 3 months");
    RangeOfThree("Last 3 months");
  }
}
