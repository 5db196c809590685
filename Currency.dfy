/**
 * convert_to_usd: the rows of a table in euros are rescaled, in one month column, by the EUR/USD
 * rate of the first FX row whose month label contains the month's first word, and relabelled USD.
 */
module Currency {
  import opened Wrappers
  import opened Text
  import opened Tables

  /** The EUR_USD rate of the first FX row whose month label contains token. */
  function FxRate(fx: seq<FxRow>, token: string): (r: Option<real>)
    ensures r.None? <==> forall i :: 0 <= i < |fx| ==> !Contains(fx[i].month, token)
    decreases |fx|
  {
    if fx == [] then None
    else if Contains(fx[0].month, token) then Some(fx[0].eurUsd)
    else FxRate(fx[1..], token)
  }

  /** The rate found is that of the first row naming the token. */
  lemma {:induction false} FxRateFirst(fx: seq<FxRow>, token: string, i: nat)
    requires i < |fx| && Contains(fx[i].month, token)
    requires forall j :: 0 <= j < i ==> !Contains(fx[j].month, token)
    ensures FxRate(fx, token) == Some(fx[i].eurUsd)
    decreases i
  {
    if i > 0 {
      FxRateFirst(fx[1..], token, i - 1);
    }
  }

  predicate IsEur(r: Row) {
    r.currency == "EUR"
  }

  /** `(df['Currency'] == 'EUR').any()` */
  predicate HasEur(rows: seq<Row>) {
    exists i :: 0 <= i < |rows| && IsEur(rows[i])
  }

  /** One row after conversion: a EUR row gets its month cell times the rate and the USD label. */
  function ToUsd(r: Row, month: string, rate: real): Row {
    if IsEur(r) then
      r.(cells := if month in r.cells then r.cells[month := r.cells[month] * rate] else r.cells,
         currency := "USD")
    else r
  }

  /**
   * The table convert_to_usd returns: the month's first word must exist (IndexError otherwise);
   * with no FX row for it, no rows or no EUR row the table comes back as it was; a EUR row in
   * a table without the month column is a KeyError.
   */
  function Converted(fx: seq<FxRow>, t: Table, month: string): (r: Result<Table>)
    ensures r.Ok? ==> r.value.columns == t.columns && |r.value.rows| == |t.rows|
  {
    match FirstWord(month)
    case None => Err(NoMonthToken)
    case Some(token) =>
      match FxRate(fx, token)
      case None => Ok(t)
      case Some(rate) =>
        if t.rows == [] || !HasEur(t.rows) then Ok(t)
        else if month !in t.columns then Err(MissingColumn(month))
        else Ok(t.(rows := AllToUsd(t.rows, month, rate)))
  }

  /** Every row passed through ToUsd. */
  function AllToUsd(rows: seq<Row>, month: string, rate: real): (r: seq<Row>)
    ensures |r| == |rows| && forall i :: 0 <= i < |rows| ==> r[i] == ToUsd(rows[i], month, rate)
  {
    seq(|rows|, i requires 0 <= i < |rows| => ToUsd(rows[i], month, rate))
  }

  /** convert_to_usd on a copy of t: look for a EUR row, then rewrite the EUR rows one by one. */
  method ConvertToUsd(fx: seq<FxRow>, t: Table, month: string) returns (r: Result<Table>)
    ensures r == Converted(fx, t, month)
  {
    var token := FirstWord(month);
    if token.None? {
      return Err(NoMonthToken);
    }
    var rate := FxRate(fx, token.value);
    if rate.None? || t.rows == [] {
      return Ok(t);
    }
    var anyEur := AnyEur(t.rows);
    if !anyEur {
      return Ok(t);
    }
    if month !in t.columns {
      return Err(MissingColumn(month));
    }
    var rows := RewriteEur(t.rows, month, rate.value);
    r := Ok(t.(rows := rows));
  }

  /** `(df['Currency'] == 'EUR').any()` as a scan. */
  method AnyEur(rows: seq<Row>) returns (anyEur: bool)
    ensures anyEur == HasEur(rows)
  {
    anyEur := false;
    var k := 0;
    while k < |rows|
      invariant 0 <= k <= |rows|
      invariant anyEur <==> exists j :: 0 <= j < k && IsEur(rows[j])
    {
      if IsEur(rows[k]) {
        anyEur := true;
      }
      k := k + 1;
    }
  }

  /** The row loop of convert_to_usd: each EUR row is replaced by its converted copy. */
  method RewriteEur(original: seq<Row>, month: string, rate: real) returns (rows: seq<Row>)
    ensures rows == AllToUsd(original, month, rate)
  {
    rows := original;
    var i := 0;
    while i < |rows|
      invariant 0 <= i <= |rows| == |original|
      invariant forall j :: 0 <= j < i ==> rows[j] == ToUsd(original[j], month, rate)
      invariant forall j :: i <= j < |rows| ==> rows[j] == original[j]
    {
      assert rows[i] == original[i];
      if IsEur(rows[i]) {
        rows := rows[i := ToUsd(rows[i], month, rate)];
      }
      i := i + 1;
    }
  }

  /** A blank month is an IndexError; otherwise the only failure is a EUR row without the month column. */
  lemma ConvertedFails(fx: seq<FxRow>, t: Table, month: string)
    ensures Converted(fx, t, month).Err? <==>
      || FirstWord(month).None?
      || (FxRate(fx, FirstWord(month).value).Some? && HasEur(t.rows) && month !in t.columns)
    ensures Converted(fx, t, month).Err? && FirstWord(month).Some? ==>
      Converted(fx, t, month).error == MissingColumn(month)
  {
  }

  /** No matching FX row, no rows or no EUR row: the table is returned unchanged. */
  lemma ConvertedNoOp(fx: seq<FxRow>, t: Table, month: string)
    requires FirstWord(month).Some?
    requires FxRate(fx, FirstWord(month).value).None? || t.rows == [] || !HasEur(t.rows)
    ensures Converted(fx, t, month) == Ok(t)
  {
  }

  /**
   * A conversion that applies keeps the columns and the order, entity and account of every row;
   * each EUR row has its month cell multiplied by the rate and becomes USD; other rows and
   * other cells are untouched; no EUR row remains.
   */
  lemma ConvertedRows(fx: seq<FxRow>, t: Table, month: string, rate: real)
    requires FirstWord(month).Some? && FxRate(fx, FirstWord(month).value) == Some(rate)
    requires HasEur(t.rows) && month in t.columns
    ensures Converted(fx, t, month).Ok?
    ensures var u := Converted(fx, t, month).value;
      && u.columns == t.columns && |u.rows| == |t.rows|
      && (forall i :: 0 <= i < |t.rows| ==>
            && u.rows[i].entity == t.rows[i].entity && u.rows[i].account == t.rows[i].account
            && (IsEur(t.rows[i]) ==> u.rows[i].currency == "USD")
            && (!IsEur(t.rows[i]) ==> u.rows[i] == t.rows[i])
            && (IsEur(t.rows[i]) && month in t.rows[i].cells ==>
                  u.rows[i].cells == t.rows[i].cells[month := t.rows[i].cells[month] * rate])
            && (IsEur(t.rows[i]) && month !in t.rows[i].cells ==> u.rows[i].cells == t.rows[i].cells))
      && !HasEur(u.rows)
  {
  }

  /** Converting an already converted table changes nothing. */
  lemma ConvertedIdempotent(fx: seq<FxRow>, t: Table, month: string)
    requires Converted(fx, t, month).Ok?
    ensures Converted(fx, Converted(fx, t, month).value, month) == Converted(fx, t, month)
  {
    var u := Converted(fx, t, month).value;
    var rate := FxRate(fx, FirstWord(month).value);
    if rate.Some? && t.rows != [] && HasEur(t.rows) {
      ConvertedRows(fx, t, month, rate.value);
    }
  }

  /** The rate-weighted month total: USD and other rows at face value, EUR rows times the rate. */
  function WeightedSum(rows: seq<Row>, month: string, rate: real): real
    decreases |rows|
  {
    if rows == [] then 0.0
    else
      var r := rows[|rows| - 1];
      WeightedSum(rows[..|rows| - 1], month, rate) + Cell(r, month) * (if IsEur(r) then rate else 1.0)
  }

  /** Summing a converted month column gives the rate-weighted total of the original rows. */
  lemma {:induction false} ConvertedSum(rows: seq<Row>, month: string, rate: real)
    ensures ColumnSum(AllToUsd(rows, month, rate), month) == WeightedSum(rows, month, rate)
    decreases |rows|
  {
    if rows != [] {
      var init := rows[..|rows| - 1];
      assert AllToUsd(rows, month, rate)[..|rows| - 1] == AllToUsd(init, month, rate);
      ConvertedSum(init, month, rate);
    }
  }

  /** Without EUR rows, the weighted total is the plain column sum. */
  lemma {:induction false} WeightedSumWithoutEur(rows: seq<Row>, month: string, rate: real)
    requires !HasEur(rows)
    ensures WeightedSum(rows, month, rate) == ColumnSum(rows, month)
    decreases |rows|
  {
    if rows != [] {
      var init := rows[..|rows| - 1];
      assert !HasEur(init) by {
        forall i | 0 <= i < |init| ensures !IsEur(init[i]) {
          assert init[i] == rows[i];
        }
      }
      WeightedSumWithoutEur(init, month, rate);
    }
  }

  /** Rows of a selection are rows of the table. */
  lemma SelectedAreRows(rows: seq<Row>, f: Selector, i: nat)
    requires i < |Select(rows, f)|
    ensures Select(rows, f)[i] in rows
  {
    SelectCounts(rows, f);
    assert multiset(Select(rows, f))[Select(rows, f)[i]] > 0;
  }

  /** Converting row by row commutes with selecting rows by account. */
  lemma {:induction false} SelectAllToUsd(rows: seq<Row>, f: Selector, month: string, rate: real)
    ensures Select(AllToUsd(rows, month, rate), f) == AllToUsd(Select(rows, f), month, rate)
    decreases |rows|
  {
    if rows != [] {
      var init, last := rows[..|rows| - 1], rows[|rows| - 1];
      var conv := AllToUsd(rows, month, rate);
      assert conv[..|conv| - 1] == AllToUsd(init, month, rate);
      assert Selects(f, conv[|conv| - 1]) == Selects(f, last);
      SelectAllToUsd(init, f, month, rate);
      var tail := if Selects(f, last) then [last] else [];
      assert Select(rows, f) == Select(init, f) + tail;
      assert AllToUsd(Select(init, f) + tail, month, rate)
        == AllToUsd(Select(init, f), month, rate) + AllToUsd(tail, month, rate);
    }
  }

  /** ToUsd leaves a table without EUR rows as it is. */
  lemma AllToUsdWithoutEur(rows: seq<Row>, month: string, rate: real)
    requires !HasEur(rows)
    ensures AllToUsd(rows, month, rate) == rows
  {
  }

  /**
   * Converting a whole table and then selecting rows gives what selecting first and converting
   * the selection gives, whenever the whole-table conversion succeeds.
   */
  lemma ConvertedWhere(fx: seq<FxRow>, t: Table, month: string, f: Selector)
    requires Converted(fx, t, month).Ok?
    ensures Converted(fx, Where(t, f), month) == Ok(Where(Converted(fx, t, month).value, f))
  {
    var token := FirstWord(month).value;
    var s := Select(t.rows, f);
    if HasEur(s) {
      var i :| 0 <= i < |s| && IsEur(s[i]);
      SelectedAreRows(t.rows, f, i);
      var j :| 0 <= j < |t.rows| && t.rows[j] == s[i];
    }
    match FxRate(fx, token)
    case None =>
    case Some(rate) =>
      if t.rows != [] && HasEur(t.rows) {
        SelectAllToUsd(t.rows, f, month, rate);
        if !HasEur(s) {
          AllToUsdWithoutEur(s, month, rate);
        }
      }
  }

  /** The USD value of a month column: the rate-weighted total when an FX row names the month. */
  function UsdTotal(rows: seq<Row>, fx: seq<FxRow>, month: string): real
    requires FirstWord(month).Some?
  {
    match FxRate(fx, FirstWord(month).value)
    case None => ColumnSum(rows, month)
    case Some(rate) => WeightedSum(rows, month, rate)
  }

  /** Summing a successfully converted column gives the USD value of the original rows. */
  lemma ConvertedTotal(fx: seq<FxRow>, t: Table, month: string)
    requires Converted(fx, t, month).Ok?
    ensures FirstWord(month).Some?
    ensures ColumnSum(Converted(fx, t, month).value.rows, month) == UsdTotal(t.rows, fx, month)
  {
    match FxRate(fx, FirstWord(month).value)
    case None =>
    case Some(rate) =>
      if t.rows != [] && HasEur(t.rows) {
        ConvertedSum(t.rows, month, rate);
      } else {
        WeightedSumWithoutEur(t.rows, month, rate);
      }
  }
}
