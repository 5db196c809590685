/** The fixed 2025 reporting calendar shared by the planner and the analyzer. */
module Calendar {

  /** The twelve month column labels, in calendar order. */
  const Months: seq<string> := [
    "Jan 2025", "Feb 2025", "Mar 2025", "Apr 2025",
    "May 2025", "Jun 2025", "Jul 2025", "Aug 2025",
    "Sep 2025", "Oct 2025", "Nov 2025", "Dec 2025"
  ]

  /** The month a query without a month name refers to, and where "last N months" ends. */
  const DefaultMonth: string := "Jun 2025"

  /** The position of DefaultMonth in Months. */
  const DefaultIndex: nat := 5

  function Max(a: int, b: int): int { if a < b then b else a }

  function Min(a: int, b: int): int { if a < b then a else b }

  /** The calendar position of a label, read from its month abbreviation; -1 for anything else. */
  function MonthNumber(name: string): int {
    if |name| < 3 then -1
    else if name[0] == 'J' then (if name[1] == 'a' then 0 else if name[2] == 'n' then 5 else 6)
    else if name[0] == 'F' then 1
    else if name[0] == 'M' then (if name[2] == 'r' then 2 else 4)
    else if name[0] == 'A' then (if name[1] == 'p' then 3 else 7)
    else if name[0] == 'S' then 8
    else if name[0] == 'O' then 9
    else if name[0] == 'N' then 10
    else if name[0] == 'D' then 11
    else -1
  }

  /** Each calendar name sits at the position its abbreviation names, so no name repeats. */
  lemma MonthsNumbered()
    ensures forall i :: 0 <= i < |Months| ==> MonthNumber(Months[i]) == i
    ensures forall i, j :: 0 <= i < j < |Months| ==> Months[i] != Months[j]
  {
  }

  /** DefaultMonth is the calendar's sixth label. */
  lemma DefaultMonthPosition()
    ensures Months[DefaultIndex] == DefaultMonth
  {
  }

  /** The three months that end at DefaultMonth. */
  lemma SpringQuarter()
    ensures Months[3..DefaultIndex + 1] == ["Apr 2025", "May 2025", "Jun 2025"]
  {
  }
}
