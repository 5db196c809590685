/**
 * The analyzer's tables. A table is its set of month columns and its rows in file order; a row
 * carries its entity, account and currency and a number per month column it has a value for.
 * A month column a row has no number for is pandas' NaN, which column sums skip.
 */
module Tables {
  import opened Text

  datatype Row = Row(entity: string, account: string, currency: string, cells: map<string, real>)

  datatype Table = Table(columns: set<string>, rows: seq<Row>)

  /** One row of the FX table: the month label and the two conversion rates. */
  datatype FxRow = FxRow(month: string, eurUsd: real, usdEur: real)

  /** The account prefix of operating-expense rows; the rest of the account is the category. */
  const OpexPrefix: string := "Opex:"

  /** Which rows a metric reads: one account exactly, or every operating-expense account. */
  datatype Selector = Account(name: string) | OpexAccounts

  predicate Selects(f: Selector, r: Row) {
    match f
    case Account(name) => r.account == name
    case OpexAccounts => IsPrefix(OpexPrefix, r.account)
  }

  /** `rows[mask]`: the rows the selector picks, in their order. */
  function Select(rows: seq<Row>, f: Selector): (r: seq<Row>)
    ensures |r| <= |rows|
    ensures forall i :: 0 <= i < |r| ==> Selects(f, r[i])
    decreases |rows|
  {
    if rows == [] then []
    else Select(rows[..|rows| - 1], f) + (if Selects(f, rows[|rows| - 1]) then [rows[|rows| - 1]] else [])
  }

  /** Selection keeps every picked row as often as it occurs and drops every other row. */
  lemma {:induction false} SelectCounts(rows: seq<Row>, f: Selector)
    ensures forall x :: multiset(Select(rows, f))[x] == if Selects(f, x) then multiset(rows)[x] else 0
    decreases |rows|
  {
    if rows != [] {
      var init := rows[..|rows| - 1];
      assert rows == init + [rows[|rows| - 1]];
      SelectCounts(init, f);
    }
  }

  /** Boolean indexing keeps every column and the selected rows. */
  function Where(t: Table, f: Selector): Table {
    Table(t.columns, Select(t.rows, f))
  }

  lemma {:induction false} SelectAppend(a: seq<Row>, b: seq<Row>, f: Selector)
    ensures Select(a + b, f) == Select(a, f) + Select(b, f)
    decreases |b|
  {
    if b == [] {
      assert a + b == a;
    } else {
      var init, last := b[..|b| - 1], b[|b| - 1];
      var tail := if Selects(f, last) then [last] else [];
      assert (a + b)[..|a + b| - 1] == a + init && (a + b)[|a + b| - 1] == last;
      assert Select(a + b, f) == Select(a + init, f) + tail;
      assert Select(b, f) == Select(init, f) + tail;
      SelectAppend(a, init, f);
    }
  }

  /** The number a row contributes to its month column's sum: NaN and absent count as nothing. */
  function Cell(r: Row, month: string): real {
    if month in r.cells then r.cells[month] else 0.0
  }

  /** `df[month].sum()` with NaN skipped. */
  function ColumnSum(rows: seq<Row>, month: string): real
    decreases |rows|
  {
    if rows == [] then 0.0 else ColumnSum(rows[..|rows| - 1], month) + Cell(rows[|rows| - 1], month)
  }

  lemma ColumnSumStep(rows: seq<Row>, month: string, i: nat)
    requires i < |rows|
    ensures ColumnSum(rows[..i + 1], month) == ColumnSum(rows[..i], month) + Cell(rows[i], month)
  {
    assert rows[..i + 1][..i] == rows[..i];
  }

  /** A column sum splits over a concatenation of rows. */
  lemma {:induction false} ColumnSumAppend(a: seq<Row>, b: seq<Row>, month: string)
    ensures ColumnSum(a + b, month) == ColumnSum(a, month) + ColumnSum(b, month)
    decreases |b|
  {
    if b == [] {
      assert a + b == a;
    } else {
      var init := b[..|b| - 1];
      assert (a + b)[..|a + b| - 1] == a + init;
      ColumnSumAppend(a, init, month);
    }
  }
}
