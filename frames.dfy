/**
 * The part of a pandas DataFrame the screener uses: an ordered list of column
 * labels and a list of rows, each row a map from column label to cell.
 * Reading a column that is absent raises `KeyError`; using a column that
 * holds text where numbers are needed raises `TypeError`.
 */
module Frames {
  import opened Wrappers
  import opened Errors

  datatype Cell = Number(x: real) | Label(s: string)

  type Row = map<string, Cell>

  datatype Table = Table(columns: seq<string>, rows: seq<Row>)

  /** Column labels are distinct and every row holds exactly the table's columns. */
  predicate WellFormed(t: Table)
  {
    && (forall i, j :: 0 <= i < j < |t.columns| ==> t.columns[i] != t.columns[j])
    && (forall i :: 0 <= i < |t.rows| ==> t.rows[i].Keys == set c | c in t.columns)
  }

  /** The number in column `c` of row `r` (0.0 where there is none). */
  function Num(r: Row, c: string): real
  {
    if c in r && r[c].Number? then r[c].x else 0.0
  }

  /** Every row holds a number in column `c`. */
  predicate IsNumericColumn(rows: seq<Row>, c: string)
  {
    forall i :: 0 <= i < |rows| ==> c in rows[i] && rows[i][c].Number?
  }

  /** The text in column `c` of row `r` ("" where there is none). */
  function TextOf(r: Row, c: string): string
  {
    if c in r && r[c].Label? then r[c].s else ""
  }

  /** Every row holds text in column `c`. */
  predicate IsTextColumn(rows: seq<Row>, c: string)
  {
    forall i :: 0 <= i < |rows| ==> c in rows[i] && rows[i][c].Label?
  }

  /**
   * Reading column `c` for a numeric use: `KeyError` when the column is
   * absent, `TypeError` with `message` when some cell holds text, nothing
   * otherwise.
   */
  function ReadNumericColumn(t: Table, c: string, message: string): (e: Option<Error>)
    ensures e.None? <==> c in t.columns && IsNumericColumn(t.rows, c)
    ensures c !in t.columns ==> e == Some(KeyError(c))
    ensures c in t.columns && !IsNumericColumn(t.rows, c) ==> e == Some(TypeError(message))
  {
    if c !in t.columns then Some(KeyError(c))
    else if !IsNumericColumn(t.rows, c) then Some(TypeError(message))
    else None
  }

  /** Python's message for comparing text with a number using `op`. */
  function ComparisonError(op: string): string
  {
    "'" + op + "' not supported between instances of 'str' and 'float'"
  }

  /** The number in a row's score column. */
  function ScoreOf(r: Row): real { Num(r, "score") }

  /** The values of a numeric column, row by row. */
  function ColumnValues(rows: seq<Row>, c: string): (xs: seq<real>)
    ensures |xs| == |rows|
    ensures forall i :: 0 <= i < |rows| ==> xs[i] == Num(rows[i], c)
  {
    seq(|rows|, i requires 0 <= i < |rows| => Num(rows[i], c))
  }

  /** Rows drawn from a numeric column's rows keep that column numeric. */
  lemma NumericColumnSub(a: seq<Row>, b: seq<Row>, c: string)
    requires multiset(a) <= multiset(b) && IsNumericColumn(b, c)
    ensures IsNumericColumn(a, c)
  {
    forall i | 0 <= i < |a| ensures c in a[i] && a[i][c].Number? {
      assert a[i] in multiset(a);
      assert a[i] in b;
    }
  }

  /** Rows drawn from a well-formed table's rows hold exactly its columns. */
  lemma RowsFromTable(t: Table, rows: seq<Row>)
    requires WellFormed(t) && multiset(rows) <= multiset(t.rows)
    ensures forall i :: 0 <= i < |rows| ==> rows[i].Keys == set c | c in t.columns
  {
    forall i | 0 <= i < |rows| ensures rows[i].Keys == set c | c in t.columns {
      assert rows[i] in multiset(rows);
      assert rows[i] in t.rows;
    }
  }
}
