/**
 The Cloud Run variant of the job (etl_cloud_run.py): pandas reads each CSV
 file into a DataFrame, and each `process_*` function then overwrites a few
 columns of that frame in place, one column at a time, before the frame is
 uploaded with truncate-and-replace.

 The frame is a class whose rows live in an array; a column assignment is a
 loop over that array. `datetime.now()` is read once per `process_*` call and
 is the parameter `now`; `pd.to_numeric` on a text goes through the number
 parser `parse`, which yields `None` where pandas would coerce to NaN.
 */
module CloudRun {
  import opened Frames

  /** `pd.to_numeric(_, errors="coerce")` on one cell; `None` is NaN. Booleans
      count as 1 and 0. No date cells come out of the CSV reader, since no
      column is parsed as a date; a date cell would be NaN here. */
  function ToNumeric(v: Value, parse: string -> Option<real>): (r: Option<real>)
    ensures v == Null ==> r.None?
    ensures v.Str? ==> r == parse(v.s)
    ensures v.Int? ==> r == Some(v.i as real)
    ensures v.Real? ==> r == Some(v.x)
  {
    match v
    case Null => None
    case Str(s) => parse(s)
    case Int(i) => Some(i as real)
    case Real(x) => Some(x)
    case Bool(b) => Some(if b then 1.0 else 0.0)
    case Time(_) => None
  }

  /** `pd.to_numeric(_, errors="coerce").fillna(d)` on one cell: always a
      number; a numeric value is kept whatever its sign; anything missing or
      non-numeric becomes `d`. */
  function CoerceOr(v: Value, d: real, parse: string -> Option<real>): (r: Value)
    ensures r.Real?
    ensures ToNumeric(v, parse).Some? ==> r.x == ToNumeric(v, parse).value
    ensures ToNumeric(v, parse).None? ==> r.x == d
  {
    match ToNumeric(v, parse)
    case Some(x) => Real(x)
    case None => Real(d)
  }

  /** `fillna(d)` on one cell: never null afterwards, and only a null changes. */
  function FillNa(v: Value, d: string): (r: Value)
    ensures r != Null
    ensures v != Null ==> r == v
    ensures v == Null ==> r == Str(d)
  {
    if v == Null then Str(d) else v
  }

  /** The column list after `df[name] = ...`: a new name goes last. */
  function WithColumn(columns: seq<string>, name: string): (r: seq<string>)
    ensures ColumnSet(r) == ColumnSet(columns) + {name}
    ensures name in columns ==> r == columns
    ensures name !in columns ==> r == columns + [name]
  {
    if name in columns then columns else columns + [name]
  }

  /** How a process_* function rewrites one column. */
  datatype Fix =
    | Numeric(zero: real)   // pd.to_numeric(col, errors="coerce").fillna(zero)
    | Text(fill: string)    // col.fillna(fill)

  /** The new cell a fix gives: never null. */
  function Fixed(fix: Fix, v: Value, parse: string -> Option<real>): (r: Value)
    ensures r != Null
    ensures fix.Numeric? ==> r.Real?
    ensures fix.Text? && v != Null ==> r == v
  {
    match fix
    case Numeric(d) => CoerceOr(v, d, parse)
    case Text(d) => FillNa(v, d)
  }

  /** The column assignments of one process_* function, in source order. */
  type Plan = seq<(string, Fix)>

  const PatientPlan: Plan :=
    [("age", Numeric(0.0)), ("gender", Text("Unknown")), ("condition", Text("Unknown"))]

  const TreatmentPlan: Plan :=
    [("cost", Numeric(0.0)), ("duration_days", Numeric(0.0)), ("treatment_type", Text("Unknown"))]

  /** The numeric columns of process_hospital_analysis_data, then its text columns. */
  const AnalysisNumbers: Plan :=
    [("age", Numeric(0.0)), ("cost", Numeric(0.0)), ("length_of_stay", Numeric(0.0)),
     ("satisfaction", Numeric(3.0))]

  const AnalysisText: Plan :=
    [("gender", Text("Unknown")), ("condition", Text("Unknown")), ("procedure", Text("Unknown")),
     ("outcome", Text("Unknown")), ("readmission", Text("No"))]

  const AnalysisPlan: Plan := AnalysisNumbers + AnalysisText

  /** Every column the plan reads is in the row. */
  predicate Covers(r: Row, plan: Plan)
  {
    forall j :: 0 <= j < |plan| ==> plan[j].0 in r
  }

  /** The plan rewrites no column twice. */
  predicate DistinctNames(plan: Plan)
  {
    forall i, j :: 0 <= i < j < |plan| ==> plan[i].0 != plan[j].0
  }

  /** The plan does not touch column `c`. */
  predicate Untouched(plan: Plan, c: string)
  {
    forall j :: 0 <= j < |plan| ==> plan[j].0 != c
  }

  /** `df[name] = fix(df[name])` on one row. */
  function Step(r: Row, name: string, fix: Fix, parse: string -> Option<real>): Row
  {
    r[name := Fixed(fix, Get(r, name), parse)]
  }

  /** `df[name] = fix(df[name])` on every row: the column gets the fixed
      cell, row by row, and nothing else changes. */
  function StepAll(rs: seq<Row>, name: string, fix: Fix, parse: string -> Option<real>): (o: seq<Row>)
    ensures |o| == |rs|
    ensures forall k :: 0 <= k < |rs| ==> o[k] == Step(rs[k], name, fix, parse)
  {
    seq(|rs|, k requires 0 <= k < |rs| => Step(rs[k], name, fix, parse))
  }

  /** `df[name] = v` with a scalar `v`, on every row. */
  function SetAll(rs: seq<Row>, name: string, v: Value): (o: seq<Row>)
    ensures |o| == |rs|
    ensures forall k :: 0 <= k < |rs| ==> o[k] == rs[k][name := v]
  {
    seq(|rs|, k requires 0 <= k < |rs| => rs[k][name := v])
  }

  /** One row after the plan's assignments, applied one after the other.
      Columns outside the plan keep their cells, and each column in it gets
      its fix applied to the cell it had before the call. */
  function Run(r: Row, plan: Plan, parse: string -> Option<real>): (o: Row)
    ensures Covers(r, plan) ==> o.Keys == r.Keys
    ensures forall c :: Untouched(plan, c) ==> Get(o, c) == Get(r, c)
    ensures DistinctNames(plan) ==>
              forall j :: 0 <= j < |plan| ==> Get(o, plan[j].0) == Fixed(plan[j].1, Get(r, plan[j].0), parse)
    decreases |plan|
  {
    if plan == [] then r
    else
      var rest := plan[1..];
      assert forall j :: 0 <= j < |rest| ==> rest[j] == plan[j + 1];
      assert forall c :: Untouched(plan, c) ==> Untouched(rest, c) && c != plan[0].0;
      assert DistinctNames(plan) ==> DistinctNames(rest) && Untouched(rest, plan[0].0);
      Run(Step(r, plan[0].0, plan[0].1, parse), rest, parse)
  }

  /** The plan's assignments on every row of a frame, in order. */
  function Fold(rs: seq<Row>, plan: Plan, parse: string -> Option<real>): (o: seq<Row>)
    ensures |o| == |rs|
    ensures forall k :: 0 <= k < |rs| ==> o[k] == Run(rs[k], plan, parse)
    decreases |plan|
  {
    if plan == [] then rs
    else Fold(StepAll(rs, plan[0].0, plan[0].1, parse), plan[1..], parse)
  }

  /** One row after a whole process_* call: the stamp first, then the plan. */
  function ProcessRow(r: Row, now: Timestamp, plan: Plan, parse: string -> Option<real>): (o: Row)
    ensures Untouched(plan, "created_at") ==> Get(o, "created_at") == Time(now)
    ensures Covers(r, plan) ==> o.Keys == r.Keys + {"created_at"}
  {
    assert Covers(r, plan) ==> Covers(r["created_at" := Time(now)], plan);
    Run(r["created_at" := Time(now)], plan, parse)
  }

  /** A pandas DataFrame: ordered column names and an array of rows, each row
      holding exactly those columns. */
  class DataFrame {
    var columns: seq<string>
    var rows: array<Row>

    ghost predicate Valid()
      reads this, rows
    {
      DistinctColumns(columns) &&
      forall k :: 0 <= k < rows.Length ==> rows[k].Keys == ColumnSet(columns)
    }

    /** `pd.read_csv`: the header and the records the reader produced. */
    constructor ReadCsv(header: seq<string>, records: seq<Row>)
      requires DistinctColumns(header)
      requires forall k :: 0 <= k < |records| ==> records[k].Keys == ColumnSet(header)
      ensures Valid() && fresh(rows)
      ensures columns == header && rows[..] == records
    {
      columns := header;
      rows := new Row[|records|](k requires 0 <= k < |records| => records[k]);
    }

    /** `df[name] = v` with a scalar `v`: every row gets `v` in that column,
        which is appended when it is new. */
    method Assign(name: string, v: Value)
      requires Valid()
      modifies this, rows
      ensures Valid() && rows == old(rows)
      ensures columns == WithColumn(old(columns), name)
      ensures rows[..] == SetAll(old(rows[..]), name, v)
    {
      var a := rows;
      var k := 0;
      while k < a.Length
        modifies a
        invariant 0 <= k <= a.Length
        invariant forall j :: 0 <= j < k ==> a[j] == old(a[j])[name := v]
        invariant forall j :: k <= j < a.Length ==> a[j] == old(a[j])
      {
        a[k] := a[k][name := v];
        k := k + 1;
      }
      if name !in columns {
        assert forall i :: 0 <= i < |columns| ==> (columns + [name])[i] == columns[i];
      }
      columns := WithColumn(columns, name);
    }

    /** `df[name] = fix(df[name])`: reading a missing column raises KeyError
        (`ok` is false and nothing has changed). */
    method Update(name: string, fix: Fix, parse: string -> Option<real>) returns (ok: bool)
      requires Valid()
      modifies rows
      ensures Valid()
      ensures ok <==> name in columns
      ensures !ok ==> rows[..] == old(rows[..])
      ensures ok ==> rows[..] == StepAll(old(rows[..]), name, fix, parse)
    {
      if name !in columns {
        return false;
      }
      var k := 0;
      while k < rows.Length
        invariant 0 <= k <= rows.Length
        invariant forall j :: 0 <= j < k ==> rows[j] == Step(old(rows[j]), name, fix, parse)
        invariant forall j :: k <= j < rows.Length ==> rows[j] == old(rows[j])
      {
        rows[k] := Step(rows[k], name, fix, parse);
        k := k + 1;
      }
      ok := true;
    }
  }

  // ---------------------------------------------------------------------------
  // The process_* functions: the stamp, then the column assignments in source
  // order, on the frame pd.read_csv returned. A KeyError on a missing column
  // ends the call with `ok` false; main then abandons the whole run.
  // ---------------------------------------------------------------------------

  /** One assignment of the plan moves from `rs` to the next frame. */
  lemma Unfold(rs: seq<Row>, plan: Plan, i: nat, name: string, fix: Fix, parse: string -> Option<real>)
    requires i < |plan| && plan[i] == (name, fix)
    ensures Fold(rs, plan[i..], parse) == Fold(StepAll(rs, name, fix, parse), plan[i + 1..], parse)
  {
    assert plan[i..][1..] == plan[i + 1..];
  }

  /** All rows after a whole process_* call. */
  function Processed(read: seq<Row>, now: Timestamp, plan: Plan, parse: string -> Option<real>): (o: seq<Row>)
    ensures |o| == |read|
    ensures forall k :: 0 <= k < |read| ==> o[k] == ProcessRow(read[k], now, plan, parse)
  {
    Fold(SetAll(read, "created_at", Time(now)), plan, parse)
  }

  method ProcessPatientData(df: DataFrame, now: Timestamp, parse: string -> Option<real>) returns (ok: bool)
    requires df.Valid()
    modifies df, df.rows
    ensures df.Valid() && df.rows == old(df.rows)
    ensures ok <==> "age" in old(df.columns) && "gender" in old(df.columns) && "condition" in old(df.columns)
    ensures ok ==> df.columns == WithColumn(old(df.columns), "created_at")
    ensures ok ==> df.rows[..] == Processed(old(df.rows[..]), now, PatientPlan, parse)
  {
    df.Assign("created_at", Time(now));
    ghost var goal := Processed(old(df.rows[..]), now, PatientPlan, parse);
    assert PatientPlan[0..] == PatientPlan;
    ghost var prev := df.rows[..];
    ok := df.Update("age", Numeric(0.0), parse);
    if !ok { return; }
    Unfold(prev, PatientPlan, 0, "age", Numeric(0.0), parse);
    prev := df.rows[..];
    ok := df.Update("gender", Text("Unknown"), parse);
    if !ok { return; }
    Unfold(prev, PatientPlan, 1, "gender", Text("Unknown"), parse);
    prev := df.rows[..];
    ok := df.Update("condition", Text("Unknown"), parse);
    if !ok { return; }
    Unfold(prev, PatientPlan, 2, "condition", Text("Unknown"), parse);
    prev := df.rows[..];
    assert PatientPlan[3..] == [];
  }

  method ProcessTreatmentData(df: DataFrame, now: Timestamp, parse: string -> Option<real>) returns (ok: bool)
    requires df.Valid()
    modifies df, df.rows
    ensures df.Valid() && df.rows == old(df.rows)
    ensures ok <==> "cost" in old(df.columns) && "duration_days" in old(df.columns) && "treatment_type" in old(df.columns)
    ensures ok ==> df.columns == WithColumn(old(df.columns), "created_at")
    ensures ok ==> df.rows[..] == Processed(old(df.rows[..]), now, TreatmentPlan, parse)
  {
    df.Assign("created_at", Time(now));
    ghost var goal := Processed(old(df.rows[..]), now, TreatmentPlan, parse);
    assert TreatmentPlan[0..] == TreatmentPlan;
    ghost var prev := df.rows[..];
    ok := df.Update("cost", Numeric(0.0), parse);
    if !ok { return; }
    Unfold(prev, TreatmentPlan, 0, "cost", Numeric(0.0), parse);
    prev := df.rows[..];
    ok := df.Update("duration_days", Numeric(0.0), parse);
    if !ok { return; }
    Unfold(prev, TreatmentPlan, 1, "duration_days", Numeric(0.0), parse);
    prev := df.rows[..];
    ok := df.Update("treatment_type", Text("Unknown"), parse);
    if !ok { return; }
    Unfold(prev, TreatmentPlan, 2, "treatment_type", Text("Unknown"), parse);
    prev := df.rows[..];
    assert TreatmentPlan[3..] == [];
  }

  /** The `pd.to_numeric(...).fillna(...)` block of process_hospital_analysis_data. */
  method CoerceAnalysisNumbers(df: DataFrame, parse: string -> Option<real>) returns (ok: bool)
    requires df.Valid()
    modifies df.rows
    ensures df.Valid()
    ensures ok <==> "age" in df.columns && "cost" in df.columns && "length_of_stay" in df.columns && "satisfaction" in df.columns
    ensures ok ==> df.rows[..] == Fold(old(df.rows[..]), AnalysisNumbers, parse)
  {
    assert AnalysisNumbers[0..] == AnalysisNumbers;
    ghost var prev := df.rows[..];
    ok := df.Update("age", Numeric(0.0), parse);
    if !ok { return; }
    Unfold(prev, AnalysisNumbers, 0, "age", Numeric(0.0), parse);
    prev := df.rows[..];
    ok := df.Update("cost", Numeric(0.0), parse);
    if !ok { return; }
    Unfold(prev, AnalysisNumbers, 1, "cost", Numeric(0.0), parse);
    prev := df.rows[..];
    ok := df.Update("length_of_stay", Numeric(0.0), parse);
    if !ok { return; }
    Unfold(prev, AnalysisNumbers, 2, "length_of_stay", Numeric(0.0), parse);
    prev := df.rows[..];
    ok := df.Update("satisfaction", Numeric(3.0), parse);
    if !ok { return; }
    Unfold(prev, AnalysisNumbers, 3, "satisfaction", Numeric(3.0), parse);
    prev := df.rows[..];
    assert AnalysisNumbers[4..] == [];
  }

  /** The `fillna(...)` block of process_hospital_analysis_data. */
  method FillAnalysisText(df: DataFrame, parse: string -> Option<real>) returns (ok: bool)
    requires df.Valid()
    modifies df.rows
    ensures df.Valid()
    ensures ok <==> "gender" in df.columns && "condition" in df.columns && "procedure" in df.columns && "outcome" in df.columns && "readmission" in df.columns
    ensures ok ==> df.rows[..] == Fold(old(df.rows[..]), AnalysisText, parse)
  {
    assert AnalysisText[0..] == AnalysisText;
    ghost var prev := df.rows[..];
    ok := df.Update("gender", Text("Unknown"), parse);
    if !ok { return; }
    Unfold(prev, AnalysisText, 0, "gender", Text("Unknown"), parse);
    prev := df.rows[..];
    ok := df.Update("condition", Text("Unknown"), parse);
    if !ok { return; }
    Unfold(prev, AnalysisText, 1, "condition", Text("Unknown"), parse);
    prev := df.rows[..];
    ok := df.Update("procedure", Text("Unknown"), parse);
    if !ok { return; }
    Unfold(prev, AnalysisText, 2, "procedure", Text("Unknown"), parse);
    prev := df.rows[..];
    ok := df.Update("outcome", Text("Unknown"), parse);
    if !ok { return; }
    Unfold(prev, AnalysisText, 3, "outcome", Text("Unknown"), parse);
    prev := df.rows[..];
    ok := df.Update("readmission", Text("No"), parse);
    if !ok { return; }
    Unfold(prev, AnalysisText, 4, "readmission", Text("No"), parse);
    prev := df.rows[..];
    assert AnalysisText[5..] == [];
  }

  /** Running two plans one after the other is running their concatenation. */
  lemma {:induction false} FoldAppend(rs: seq<Row>, p: Plan, q: Plan, parse: string -> Option<real>)
    ensures Fold(Fold(rs, p, parse), q, parse) == Fold(rs, p + q, parse)
    decreases |p|
  {
    if p != [] {
      FoldAppend(StepAll(rs, p[0].0, p[0].1, parse), p[1..], q, parse);
      assert (p + q)[0] == p[0] && (p + q)[1..] == p[1..] + q;
    } else {
      assert p + q == q;
    }
  }

  method ProcessHospitalAnalysisData(df: DataFrame, now: Timestamp, parse: string -> Option<real>) returns (ok: bool)
    requires df.Valid()
    modifies df, df.rows
    ensures df.Valid() && df.rows == old(df.rows)
    ensures ok <==> "age" in old(df.columns) && "cost" in old(df.columns) && "length_of_stay" in old(df.columns) &&
                    "satisfaction" in old(df.columns) && "gender" in old(df.columns) && "condition" in old(df.columns) &&
                    "procedure" in old(df.columns) && "outcome" in old(df.columns) && "readmission" in old(df.columns)
    ensures ok ==> df.columns == WithColumn(old(df.columns), "created_at")
    ensures ok ==> df.rows[..] == Processed(old(df.rows[..]), now, AnalysisPlan, parse)
  {
    df.Assign("created_at", Time(now));
    ghost var stamped := df.rows[..];
    ok := CoerceAnalysisNumbers(df, parse);
    if !ok { return; }
    ok := FillAnalysisText(df, parse);
    if !ok { return; }
    FoldAppend(stamped, AnalysisNumbers, AnalysisText, parse);
  }
}

/** What a process_* call promises about each row, and about running it again. */
module CloudRunFacts {
  import opened Frames
  import opened CloudRun

  /** No plan of the three functions rewrites a column twice or the stamp. */
  lemma PlansWellFormed()
    ensures DistinctNames(PatientPlan) && Untouched(PatientPlan, "created_at")
    ensures DistinctNames(TreatmentPlan) && Untouched(TreatmentPlan, "created_at")
    ensures DistinctNames(AnalysisPlan) && Untouched(AnalysisPlan, "created_at")
  {
  }

  /** One processed row: the stamp is `now`, every planned column holds its
      fixed cell and is never null, and every other column is as read. */
  lemma ProcessRowFacts(r: Row, now: Timestamp, plan: Plan, parse: string -> Option<real>)
    requires DistinctNames(plan) && Untouched(plan, "created_at")
    ensures Get(ProcessRow(r, now, plan, parse), "created_at") == Time(now)
    ensures forall j :: 0 <= j < |plan| ==>
              Get(ProcessRow(r, now, plan, parse), plan[j].0) == Fixed(plan[j].1, Get(r, plan[j].0), parse) &&
              Get(ProcessRow(r, now, plan, parse), plan[j].0) != Null
    ensures forall c :: c != "created_at" && Untouched(plan, c) ==> Get(ProcessRow(r, now, plan, parse), c) == Get(r, c)
    ensures Covers(r, plan) ==> ProcessRow(r, now, plan, parse).Keys == r.Keys + {"created_at"}
  {
    var stamped := r["created_at" := Time(now)];
    forall j | 0 <= j < |plan| ensures Get(stamped, plan[j].0) == Get(r, plan[j].0) {
    }
    if Covers(r, plan) {
      assert Covers(stamped, plan);
    }
  }

  /** A fix applied to its own result changes nothing. */
  lemma FixedIdempotent(fix: Fix, v: Value, parse: string -> Option<real>)
    ensures Fixed(fix, Fixed(fix, v, parse), parse) == Fixed(fix, v, parse)
  {
  }

  /** Processing a processed row again, with the same stamp, gives the same row:
      re-running the job over its own output is harmless. */
  lemma ProcessRowIdempotent(r: Row, now: Timestamp, plan: Plan, parse: string -> Option<real>)
    requires DistinctNames(plan) && Untouched(plan, "created_at") && Covers(r, plan)
    ensures ProcessRow(ProcessRow(r, now, plan, parse), now, plan, parse) == ProcessRow(r, now, plan, parse)
  {
    var once := ProcessRow(r, now, plan, parse);
    var twice := ProcessRow(once, now, plan, parse);
    ProcessRowFacts(r, now, plan, parse);
    assert Covers(once, plan);
    ProcessRowFacts(once, now, plan, parse);
    forall c | c in once ensures twice[c] == once[c] {
      assert Get(twice, c) == Get(once, c) by {
        if c == "created_at" {
        } else if !Untouched(plan, c) {
          var j :| 0 <= j < |plan| && plan[j].0 == c;
          FixedIdempotent(plan[j].1, Get(r, c), parse);
        }
      }
    }
  }

  /** process_hospital_analysis_data keeps any number it can read: a
      satisfaction of 9 or an age of -4 reaches BigQuery as read, and only
      a missing or unreadable value gets its default. */
  lemma AnalysisNumbersNotClamped(r: Row, now: Timestamp, parse: string -> Option<real>, c: string, d: real)
    requires (c, Numeric(d)) in AnalysisPlan
    ensures ToNumeric(Get(r, c), parse).Some? ==>
              Get(ProcessRow(r, now, AnalysisPlan, parse), c) == Real(ToNumeric(Get(r, c), parse).value)
    ensures ToNumeric(Get(r, c), parse).None? ==> Get(ProcessRow(r, now, AnalysisPlan, parse), c) == Real(d)
  {
    PlansWellFormed();
    ProcessRowFacts(r, now, AnalysisPlan, parse);
    var j :| 0 <= j < |AnalysisPlan| && AnalysisPlan[j] == (c, Numeric(d));
  }

  /** A text column of the analysis table only loses its nulls. */
  lemma AnalysisTextFilled(r: Row, now: Timestamp, parse: string -> Option<real>, c: string, d: string)
    requires (c, Text(d)) in AnalysisPlan
    ensures Get(ProcessRow(r, now, AnalysisPlan, parse), c) == FillNa(Get(r, c), d)
  {
    PlansWellFormed();
    ProcessRowFacts(r, now, AnalysisPlan, parse);
    var j :| 0 <= j < |AnalysisPlan| && AnalysisPlan[j] == (c, Text(d));
  }

  /** The defaults the analysis columns fall back to. */
  lemma AnalysisDefaults(r: Row, now: Timestamp, parse: string -> Option<real>)
    ensures Get(r, "satisfaction") == Null ==> Get(ProcessRow(r, now, AnalysisPlan, parse), "satisfaction") == Real(3.0)
    ensures Get(r, "age") == Null ==> Get(ProcessRow(r, now, AnalysisPlan, parse), "age") == Real(0.0)
    ensures Get(r, "readmission") == Null ==> Get(ProcessRow(r, now, AnalysisPlan, parse), "readmission") == Str("No")
    ensures Get(r, "gender") == Null ==> Get(ProcessRow(r, now, AnalysisPlan, parse), "gender") == Str("Unknown")
  {
    PlansWellFormed();
    ProcessRowFacts(r, now, AnalysisPlan, parse);
    assert AnalysisPlan[0] == ("age", Numeric(0.0));
    assert AnalysisPlan[3] == ("satisfaction", Numeric(3.0));
    assert AnalysisPlan[4] == ("gender", Text("Unknown"));
    assert AnalysisPlan[8] == ("readmission", Text("No"));
  }

  /** process_patient_data on one row. */
  lemma PatientRowFacts(r: Row, now: Timestamp, parse: string -> Option<real>)
    ensures Get(ProcessRow(r, now, PatientPlan, parse), "created_at") == Time(now)
    ensures Get(ProcessRow(r, now, PatientPlan, parse), "age") == CoerceOr(Get(r, "age"), 0.0, parse)
    ensures Get(ProcessRow(r, now, PatientPlan, parse), "gender") == FillNa(Get(r, "gender"), "Unknown")
    ensures Get(ProcessRow(r, now, PatientPlan, parse), "condition") == FillNa(Get(r, "condition"), "Unknown")
  {
    PlansWellFormed();
    ProcessRowFacts(r, now, PatientPlan, parse);
    assert PatientPlan[0] == ("age", Numeric(0.0));
    assert PatientPlan[1] == ("gender", Text("Unknown"));
    assert PatientPlan[2] == ("condition", Text("Unknown"));
  }

  /** process_treatment_data on one row. */
  lemma TreatmentRowFacts(r: Row, now: Timestamp, parse: string -> Option<real>)
    ensures Get(ProcessRow(r, now, TreatmentPlan, parse), "created_at") == Time(now)
    ensures Get(ProcessRow(r, now, TreatmentPlan, parse), "cost") == CoerceOr(Get(r, "cost"), 0.0, parse)
    ensures Get(ProcessRow(r, now, TreatmentPlan, parse), "duration_days") == CoerceOr(Get(r, "duration_days"), 0.0, parse)
    ensures Get(ProcessRow(r, now, TreatmentPlan, parse), "treatment_type") == FillNa(Get(r, "treatment_type"), "Unknown")
  {
    PlansWellFormed();
    ProcessRowFacts(r, now, TreatmentPlan, parse);
    assert TreatmentPlan[0] == ("cost", Numeric(0.0));
    assert TreatmentPlan[1] == ("duration_days", Numeric(0.0));
    assert TreatmentPlan[2] == ("treatment_type", Text("Unknown"));
  }

  /** Every row of one call carries the same stamp. */
  lemma StampShared(read: seq<Row>, now: Timestamp, plan: Plan, parse: string -> Option<real>, i: nat, j: nat)
    requires DistinctNames(plan) && Untouched(plan, "created_at")
    requires i < |read| && j < |read|
    ensures Get(Processed(read, now, plan, parse)[i], "created_at") == Get(Processed(read, now, plan, parse)[j], "created_at")
  {
    ProcessRowFacts(read[i], now, plan, parse);
    ProcessRowFacts(read[j], now, plan, parse);
  }
}
