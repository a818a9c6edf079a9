/** Spreadsheet data as the scripts see it after `pandas.read_excel`: a workbook is a sequence
    of named sheets, a sheet a sequence of rows, a row a record of cells keyed by column
    header. Also the cell conversions of SummarizeAllData.py (`to_int`, `to_float`,
    `clean_str`) and Python's `str()` of a cell. */
module Sheets {
  import opened Wrappers
  import opened Strings

  /** One cell as pandas hands it over. */
  datatype Cell =
    | Missing                         // an empty cell: NaN or None
    | Int(i: int)                     // an integer cell (numpy int64)
    | Float(x: real, shown: string)   // a finite float cell; `shown` is Python's str() of it
    | Text(s: string)                 // a string cell

  /** A row: header -> cell. A header the row does not carry reads as missing. */
  type Row = map<string, Cell>

  datatype Sheet = Sheet(name: string, columns: set<string>, rows: seq<Row>)

  /** `row.get(col)` followed by `pd.isna` checks: an absent column reads as a missing cell. */
  function Get(r: Row, col: string): Cell {
    if col in r then r[col] else Missing
  }

  predicate IsNA(c: Cell) { c.Missing? }

  /** `int(x)` for a finite float: truncation toward zero. */
  function Trunc(x: real): (n: int)
    ensures 0.0 <= x ==> 0 <= n && n as real <= x < n as real + 1.0
    ensures x < 0.0 ==> n <= 0 && n as real - 1.0 < x <= n as real
  {
    if x >= 0.0 then x.Floor else -((-x).Floor)
  }

  /** `to_int(val)`: None for a missing cell or wherever `int(val)` raises. */
  function ToInt(c: Cell): (r: Option<int>)
    ensures c.Missing? ==> r.None?
    ensures c.Int? ==> r == Some(c.i)
  {
    match c
    case Missing => None
    case Int(i) => Some(i)
    case Float(x, _) => Some(Trunc(x))
    case Text(s) => ParseInt(s)
  }

  /** `to_float(val)`: None for a missing cell or wherever `float(val)` raises; a number keeps
      its value and a text is read as a decimal. */
  function ToFloat(c: Cell): (r: Option<real>)
    ensures c.Missing? ==> r.None?
    ensures c.Int? ==> r == Some(c.i as real)
    ensures c.Float? ==> r == Some(c.x)
    ensures c.Text? ==> r == ParseDecimal(c.s)
  {
    match c
    case Missing => None
    case Int(i) => Some(i as real)
    case Float(x, _) => Some(x)
    case Text(s) => ParseDecimal(s)
  }

  /** `str(val)` */
  function PyStr(c: Cell): string {
    match c
    case Missing => "nan"
    case Int(i) => IntToString(i)
    case Float(_, shown) => shown
    case Text(s) => s
  }

  /** `clean_str(val)`: None for a missing cell, the integer text of an integral float, and
      otherwise the stripped `str()` of the cell. */
  function CleanStr(c: Cell): (r: Option<string>)
    ensures r.None? <==> c.Missing?
    ensures r.Some? ==> Stripped(r.value)
  {
    match c
    case Missing => None
    case Float(x, shown) =>
      if x == x.Floor as real then
        var t := IntToString(x.Floor);
        assert Stripped(t);
        Some(t)
      else
        Some(Strip(shown))
    case _ =>
      Some(Strip(PyStr(c)))
  }

  /** A cell written from an integer reads back as that integer, whether the sheet kept the
      number or its text. */
  lemma ToIntRoundTrip(n: int)
    ensures ToInt(Int(n)) == Some(n)
    ensures ToInt(Text(IntToString(n))) == Some(n)
    ensures ToInt(Float(n as real, IntToString(n) + ".0")) == Some(n)
  {
    assert ToInt(Text(IntToString(n))) == Some(n) by {
      ParseIntOfIntToString(n);
    }
    assert Trunc(n as real) == n;
  }

  /** A cell written from an integer reads back through `to_float` as that integer, whether
      the sheet kept the number, its text or its float. */
  lemma ToFloatRoundTrip(n: int)
    ensures ToFloat(Int(n)) == Some(n as real)
    ensures ToFloat(Text(IntToString(n))) == Some(n as real)
    ensures ToFloat(Float(n as real, IntToString(n) + ".0")) == Some(n as real)
  {
    ParseDecimalOfIntToString(n);
  }

  /** `df[col].apply(to_int).dropna().sum()`: the sum of the column's integer readings,
      cells that do not read as an integer left out. */
  function VoteSum(rows: seq<Row>, col: string): int {
    if |rows| == 0 then 0
    else ToInt(Get(rows[0], col)).GetOr(0) + VoteSum(rows[1..], col)
  }

  lemma {:induction false} VoteSumAppend(a: seq<Row>, b: seq<Row>, col: string)
    ensures VoteSum(a + b, col) == VoteSum(a, col) + VoteSum(b, col)
  {
    if |a| > 0 {
      assert (a + b)[0] == a[0] && (a + b)[1..] == a[1..] + b;
      VoteSumAppend(a[1..], b, col);
    } else {
      assert a + b == b;
    }
  }

  /** `pd.to_numeric` reading of a vote cell: numeric cells give their value, anything else is
      missing. */
  function Num(c: Cell): (r: Option<real>)
    ensures r.Some? <==> (c.Int? || c.Float?)
  {
    match c
    case Int(i) => Some(i as real)
    case Float(x, _) => Some(x)
    case _ => None
  }

  /** `a == b` between two cells as pandas compares them element-wise: numbers by value,
      strings by text, a missing cell equal to nothing. */
  predicate CellEq(a: Cell, b: Cell) {
    match (a, b)
    case (Text(s), Text(t)) => s == t
    case (Int(_), Int(_)) | (Int(_), Float(_, _)) | (Float(_, _), Int(_)) | (Float(_, _), Float(_, _)) =>
      Num(a) == Num(b)
    case _ => false
  }

  /** Key equality used by `pd.merge`: as CellEq, except that a missing key matches a missing
      key. */
  predicate KeyEq(a: Cell, b: Cell) {
    (a.Missing? && b.Missing?) || CellEq(a, b)
  }
}
