/**
 The data-quality gate of the PySpark variant (validate_data in run_etl.py).

 For each known data type it counts nulls in a few columns and the key values
 that occur more than once (`groupBy(key).count().filter(count > 1).count()`),
 and it rejects the whole frame exactly when the key column holds a null or a
 repeated value. The other counts are only reported. Referring to a column the
 frame does not have makes Spark raise; that outcome is `None`.
 */
module SparkValidate {
  import opened Frames

  /** What one call reports: the row count, the null counts in the order they
      are logged, the number of repeated key values, and the decision. */
  datatype Report = Report(total: nat, nullCounts: seq<nat>, duplicateKeys: nat, passed: bool)

  /** The cells of column `c`, top to bottom. */
  function Column(f: Frame, c: string): (col: seq<Value>)
    ensures |col| == |f.rows|
    ensures forall i :: 0 <= i < |col| ==> col[i] == Get(f.rows[i], c)
  {
    seq(|f.rows|, i requires 0 <= i < |f.rows| => Get(f.rows[i], c))
  }

  /** Some listed column of the row is null (`c1.isNull() | c2.isNull()`). */
  predicate AnyNull(row: Row, cs: seq<string>)
  {
    exists c :: c in cs && Get(row, c) == Null
  }

  /** `df.filter(c1.isNull() | ...).count()`: the rows with a null in one of `cs`. */
  function CountNull(rows: seq<Row>, cs: seq<string>): (n: nat)
    ensures n <= |rows|
  {
    if rows == [] then 0
    else (if AnyNull(rows[0], cs) then 1 else 0) + CountNull(rows[1..], cs)
  }

  /** How often `v` occurs in `keys`: the size of its `groupBy` group. */
  function Occurrences(keys: seq<Value>, v: Value): (n: nat)
    ensures n <= |keys|
  {
    if keys == [] then 0
    else (if keys[0] == v then 1 else 0) + Occurrences(keys[1..], v)
  }

  /** The number of groups whose count exceeds one. A null key forms a group too. */
  function DuplicateKeyCount(keys: seq<Value>): (n: nat)
    ensures n == 0 <==> forall v :: v in keys ==> Occurrences(keys, v) <= 1
  {
    var groups := set v | v in keys && Occurrences(keys, v) > 1;
    assert groups == {} <==> forall v :: v in keys ==> Occurrences(keys, v) <= 1 by {
      if groups != {} {
        var v :| v in groups;
        assert v in keys && Occurrences(keys, v) > 1;
      } else {
        forall v | v in keys ensures Occurrences(keys, v) <= 1 {
          assert v !in groups;
        }
      }
    }
    |groups|
  }

  /** No two positions hold the same key. */
  ghost predicate Distinct(keys: seq<Value>)
  {
    forall i, j :: 0 <= i < j < |keys| ==> keys[i] != keys[j]
  }

  /** The reference condition for accepting a frame: every key present, no key repeated. */
  ghost predicate KeysValid(keys: seq<Value>)
  {
    (forall i :: 0 <= i < |keys| ==> keys[i] != Null) && Distinct(keys)
  }

  /** The data types validate_data has checks for. */
  predicate KnownDataType(dataType: string)
  {
    dataType == "patient" || dataType == "treatment" || dataType == "hospital_analysis"
  }

  /** The key column each known data type is checked on: the first of the
      columns its checks refer to. */
  function KeyColumn(dataType: string): (key: Option<string>)
    ensures key.Some? <==> KnownDataType(dataType)
    ensures key.Some? ==> CheckedColumns(dataType) != [] && key.value == CheckedColumns(dataType)[0]
  {
    if dataType == "patient" then Some("patient_id")
    else if dataType == "treatment" then Some("treatment_id")
    else if dataType == "hospital_analysis" then Some("patient_id")
    else None
  }

  /** Every column a data type's checks refer to. */
  function CheckedColumns(dataType: string): (cs: seq<string>)
    ensures cs != [] <==> KnownDataType(dataType)
    ensures DistinctColumns(cs)
  {
    if dataType == "patient" then
      ["patient_id", "first_name", "last_name", "admission_date", "discharge_date"]
    else if dataType == "treatment" then
      ["treatment_id", "patient_id", "treatment_type", "cost"]
    else if dataType == "hospital_analysis" then
      ["patient_id", "age", "gender", "condition"]
    else []
  }

  /** The null counts that a data type logs, in the order they are logged. */
  function NullCounts(f: Frame, dataType: string): (counts: seq<nat>)
    ensures forall i :: 0 <= i < |counts| ==> counts[i] <= |f.rows|
    ensures counts != [] <==> KnownDataType(dataType)
    ensures KnownDataType(dataType) ==> counts[0] == CountNull(f.rows, [KeyColumn(dataType).value])
  {
    if dataType == "patient" then
      [CountNull(f.rows, ["patient_id"]), CountNull(f.rows, ["first_name", "last_name"]),
       CountNull(f.rows, ["admission_date", "discharge_date"])]
    else if dataType == "treatment" then
      [CountNull(f.rows, ["treatment_id"]), CountNull(f.rows, ["patient_id"]),
       CountNull(f.rows, ["treatment_type"]), CountNull(f.rows, ["cost"])]
    else if dataType == "hospital_analysis" then
      [CountNull(f.rows, ["patient_id"]), CountNull(f.rows, ["age"]),
       CountNull(f.rows, ["gender"]), CountNull(f.rows, ["condition"])]
    else []
  }

  /** validate_data. An unknown data type is accepted without any check. */
  function ValidateData(f: Frame, dataType: string): (r: Option<Report>)
    ensures r.None? <==> KeyColumn(dataType).Some? && exists c :: c in CheckedColumns(dataType) && c !in f.columns
    ensures r.Some? ==> r.value.total == |f.rows|
    ensures KeyColumn(dataType).None? ==> r == Some(Report(|f.rows|, [], 0, true))
  {
    match KeyColumn(dataType)
    case None => Some(Report(|f.rows|, [], 0, true))
    case Some(key) =>
      if exists c :: c in CheckedColumns(dataType) && c !in f.columns then None
      else
        var nullKeys := CountNull(f.rows, [key]);
        var duplicates := DuplicateKeyCount(Column(f, key));
        Some(Report(|f.rows|, NullCounts(f, dataType), duplicates, !(nullKeys > 0 || duplicates > 0)))
  }

  // ---------------------------------------------------------------------------
  // The counting decision agrees with the reference condition.
  // ---------------------------------------------------------------------------

  lemma {:induction false} CountNullZero(rows: seq<Row>, key: string)
    ensures CountNull(rows, [key]) == 0 <==> forall i :: 0 <= i < |rows| ==> Get(rows[i], key) != Null
  {
    if rows != [] {
      CountNullZero(rows[1..], key);
      assert AnyNull(rows[0], [key]) <==> Get(rows[0], key) == Null by {
        if Get(rows[0], key) == Null { assert key in [key]; }
      }
      if forall i :: 0 <= i < |rows| ==> Get(rows[i], key) != Null {
        forall i | 0 <= i < |rows[1..]| ensures Get(rows[1..][i], key) != Null {
          assert rows[1..][i] == rows[i + 1];
        }
      } else if Get(rows[0], key) != Null {
        var i :| 0 <= i < |rows| && Get(rows[i], key) == Null;
        assert rows[1..][i - 1] == rows[i];
      }
    }
  }

  lemma {:induction false} OccurrencesPositive(keys: seq<Value>, v: Value)
    ensures Occurrences(keys, v) > 0 <==> v in keys
  {
    if keys != [] {
      OccurrencesPositive(keys[1..], v);
      assert keys == [keys[0]] + keys[1..];
    }
  }

  /** A key value counts as duplicated exactly when it sits at two positions. */
  lemma {:induction false} OccurrencesRepeated(keys: seq<Value>, v: Value)
    ensures Occurrences(keys, v) > 1 <==> exists i, j :: 0 <= i < j < |keys| && keys[i] == v && keys[j] == v
  {
    if keys != [] {
      var tail := keys[1..];
      OccurrencesRepeated(tail, v);
      OccurrencesPositive(tail, v);
      if Occurrences(keys, v) > 1 {
        if keys[0] == v {
          var j :| 0 <= j < |tail| && tail[j] == v;
          assert keys[0] == v && keys[j + 1] == v;
        } else {
          var i, j :| 0 <= i < j < |tail| && tail[i] == v && tail[j] == v;
          assert keys[i + 1] == v && keys[j + 1] == v;
        }
      }
      if exists i, j :: 0 <= i < j < |keys| && keys[i] == v && keys[j] == v {
        var i, j :| 0 <= i < j < |keys| && keys[i] == v && keys[j] == v;
        if i == 0 {
          assert tail[j - 1] == v;
        } else {
          assert tail[i - 1] == v && tail[j - 1] == v;
        }
      }
    }
  }

  /** No group of size two or more exists exactly when the keys are distinct. */
  lemma NoDuplicateGroups(keys: seq<Value>)
    ensures DuplicateKeyCount(keys) == 0 <==> Distinct(keys)
  {
    var groups := set v | v in keys && Occurrences(keys, v) > 1;
    if groups != {} {
      var v :| v in groups;
      OccurrencesRepeated(keys, v);
    }
    if !Distinct(keys) {
      var i, j :| 0 <= i < j < |keys| && keys[i] == keys[j];
      OccurrencesRepeated(keys, keys[i]);
      assert keys[i] in groups;
    }
  }

  /** For a known data type whose columns are all present, the frame passes
      exactly when its key column has no null and no repeated value. */
  lemma ValidateDataDecision(f: Frame, dataType: string)
    requires KeyColumn(dataType).Some?
    requires forall c :: c in CheckedColumns(dataType) ==> c in f.columns
    ensures ValidateData(f, dataType).Some?
    ensures ValidateData(f, dataType).value.passed <==> KeysValid(Column(f, KeyColumn(dataType).value))
  {
    var key := KeyColumn(dataType).value;
    CountNullZero(f.rows, key);
    NoDuplicateGroups(Column(f, key));
  }

  /** Nulls outside the key column never decide: two frames with the same
      columns and the same key column get the same verdict. */
  lemma OnlyKeysDecide(f: Frame, g: Frame, dataType: string)
    requires f.columns == g.columns
    requires KeyColumn(dataType).Some?
    requires Column(f, KeyColumn(dataType).value) == Column(g, KeyColumn(dataType).value)
    ensures ValidateData(f, dataType).Some? <==> ValidateData(g, dataType).Some?
    ensures ValidateData(f, dataType).Some? ==>
              ValidateData(f, dataType).value.passed == ValidateData(g, dataType).value.passed
  {
    if ValidateData(f, dataType).Some? {
      ValidateDataDecision(f, dataType);
      ValidateDataDecision(g, dataType);
    }
  }
}
