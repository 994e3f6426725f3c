/**
 Values, rows and data frames shared by both variants of the hospital ETL job.

 A DataFrame is abstracted as its ordered column names plus a sequence of rows;
 a row maps a column name to a cell. A Spark or pandas null is the cell `Null`
 (for typed records, the option `None`).
 */
module Frames {

  /** A nullable field of a typed record; `None` is a null. */
  datatype Option<T> = None | Some(value: T)

  /** An instant produced by a clock read or by a date parser; never inspected. */
  datatype Timestamp = Timestamp(micros: int)

  /** One cell of a data frame. */
  datatype Value =
    | Null
    | Str(s: string)
    | Int(i: int)
    | Real(x: real)
    | Bool(b: bool)
    | Time(t: Timestamp)

  type Row = map<string, Value>

  /** A data frame: its column names, in order, and its rows. */
  datatype Frame = Frame(columns: seq<string>, rows: seq<Row>)

  /** The cell of column `c`, or `Null` when the row has no such column. */
  function Get(row: Row, c: string): (v: Value)
    ensures c in row ==> v == row[c]
    ensures c !in row ==> v == Null
  {
    if c in row then row[c] else Null
  }

  /** The set of names in a column list. */
  function ColumnSet(columns: seq<string>): (s: set<string>)
    ensures forall c :: c in s <==> c in columns
  {
    set c | c in columns
  }

  /** No column name occurs twice. */
  predicate DistinctColumns(columns: seq<string>)
  {
    forall i, j :: 0 <= i < j < |columns| ==> columns[i] != columns[j]
  }

  /** Every row holds exactly the frame's columns. */
  ghost predicate WellFormed(f: Frame)
  {
    DistinctColumns(f.columns) &&
    forall k :: 0 <= k < |f.rows| ==> f.rows[k].Keys == ColumnSet(f.columns)
  }

  /** A nullable string field as a cell. */
  function OfString(s: Option<string>): (v: Value)
    ensures v == Null <==> s.None?
    ensures s.Some? ==> v == Str(s.value)
  {
    match s
    case None => Null
    case Some(x) => Str(x)
  }

  /** A nullable instant as a cell. */
  function OfTime(t: Option<Timestamp>): (v: Value)
    ensures v == Null <==> t.None?
    ensures t.Some? ==> v == Time(t.value)
  {
    match t
    case None => Null
    case Some(x) => Time(x)
  }

  /** A nullable double as a cell. */
  function OfReal(x: Option<real>): (v: Value)
    ensures v == Null <==> x.None?
    ensures x.Some? ==> v == Real(x.value)
  {
    match x
    case None => Null
    case Some(r) => Real(r)
  }

  /** A nullable integer as a cell. */
  function OfInt(x: Option<int>): (v: Value)
    ensures v == Null <==> x.None?
    ensures x.Some? ==> v == Int(x.value)
  {
    match x
    case None => Null
    case Some(n) => Int(n)
  }
}
