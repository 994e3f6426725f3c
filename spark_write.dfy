/**
 The column projection write_to_bigquery applies before handing a frame to
 the warehouse connector (run_etl.py). The connector write itself is not
 part of this model.
 */
module SparkWrite {
  import opened Frames

  const PatientsTableColumns: seq<string> :=
    ["patient_id", "first_name", "last_name", "date_of_birth", "gender", "admission_date",
     "discharge_date", "diagnosis", "created_at"]

  const TreatmentsTableColumns: seq<string> :=
    ["treatment_id", "patient_id", "treatment_type", "treatment_date", "doctor_name",
     "treatment_notes", "cost", "created_at"]

  const AnalysisTableColumns: seq<string> :=
    ["patient_id", "age", "gender", "condition", "procedure", "cost", "length_of_stay",
     "readmission", "outcome", "satisfaction", "created_at"]

  /** The column list selected for a table, or `None` when the table is written as is. */
  function TableColumns(tableId: string): (r: Option<seq<string>>)
    ensures r.Some? <==> tableId == "patients" || tableId == "treatments" || tableId == "hospital_analysis"
    ensures r.Some? ==> "patient_id" in r.value && |r.value| > 0 && r.value[|r.value| - 1] == "created_at"
  {
    if tableId == "patients" then Some(PatientsTableColumns)
    else if tableId == "treatments" then Some(TreatmentsTableColumns)
    else if tableId == "hospital_analysis" then Some(AnalysisTableColumns)
    else None
  }

  /** `df.select(names...)`: `None` when a name is not a column (Spark raises). */
  function Select(f: Frame, names: seq<string>): (r: Option<Frame>)
    ensures r.Some? <==> forall c :: c in names ==> c in f.columns
    ensures r.Some? ==> r.value.columns == names && |r.value.rows| == |f.rows|
    ensures r.Some? ==> forall k :: 0 <= k < |f.rows| ==> r.value.rows[k].Keys == ColumnSet(names)
    ensures r.Some? ==> forall k, c :: 0 <= k < |f.rows| && c in names ==> Get(r.value.rows[k], c) == Get(f.rows[k], c)
  {
    if forall c :: c in names ==> c in f.columns then
      Some(Frame(names, seq(|f.rows|, k requires 0 <= k < |f.rows| => map c | c in names :: Get(f.rows[k], c))))
    else None
  }

  /** The frame handed to the connector for `tableId`. */
  function ProjectForWrite(f: Frame, tableId: string): (r: Option<Frame>)
    ensures TableColumns(tableId).None? ==> r == Some(f)
    ensures TableColumns(tableId).Some? ==>
              (r.Some? <==> forall c :: c in TableColumns(tableId).value ==> c in f.columns)
    ensures TableColumns(tableId).Some? && r.Some? ==>
              r.value.columns == TableColumns(tableId).value && |r.value.rows| == |f.rows|
  {
    match TableColumns(tableId)
    case None => Some(f)
    case Some(names) => Select(f, names)
  }

  /** Projection keeps each row's listed cells and only those, in a well-formed frame. */
  lemma ProjectionWellFormed(f: Frame, tableId: string)
    requires TableColumns(tableId).Some?
    requires ProjectForWrite(f, tableId).Some?
    ensures WellFormed(ProjectForWrite(f, tableId).value)
  {
    var names := TableColumns(tableId).value;
    assert DistinctColumns(names);
  }

  /** Projecting twice to the same table is the same as projecting once. */
  lemma ProjectIdempotent(f: Frame, tableId: string)
    requires ProjectForWrite(f, tableId).Some?
    ensures ProjectForWrite(ProjectForWrite(f, tableId).value, tableId) == ProjectForWrite(f, tableId)
  {
    if TableColumns(tableId).Some? {
      var names := TableColumns(tableId).value;
      var g := ProjectForWrite(f, tableId).value;
      var h := ProjectForWrite(g, tableId).value;
      assert |h.rows| == |g.rows|;
      forall k | 0 <= k < |g.rows| ensures h.rows[k] == g.rows[k] {
        assert h.rows[k].Keys == g.rows[k].Keys;
        forall c | c in h.rows[k] ensures h.rows[k][c] == g.rows[k][c] {
          assert Get(h.rows[k], c) == Get(g.rows[k], c);
        }
      }
      assert h.rows == g.rows;
      assert h == g;
    }
  }
}

/** The transformed frames of run_etl.py meet validation and projection. */
module SparkPipeline {
  import opened Frames
  import opened SparkTransform
  import opened SparkValidate
  import opened SparkWrite

  /** A frame that has every column of a known table projects to exactly
      those columns, row for row. */
  lemma ProjectedTable(f: Frame, tableId: string, names: seq<string>)
    requires TableColumns(tableId) == Some(names)
    requires forall c :: c in names ==> c in f.columns
    ensures var w := ProjectForWrite(f, tableId);
            w.Some? && w.value.columns == names && |w.value.rows| == |f.rows|
  {
  }

  /** The patients table takes nine of the transformed columns, none of the
      enrichment ones. */
  lemma PatientColumnsFit()
    ensures forall c :: c in PatientsTableColumns ==> c in PatientOutColumns
    ensures "full_name" !in PatientsTableColumns && "has_valid_dates" !in PatientsTableColumns
  {
  }

  /** The treatments table takes eight of the transformed columns, none of the
      enrichment ones. */
  lemma TreatmentColumnsFit()
    ensures forall c :: c in TreatmentsTableColumns ==> c in TreatmentOutColumns
    ensures "cost_category" !in TreatmentsTableColumns && "has_valid_cost" !in TreatmentsTableColumns
  {
  }

  /** Projecting the transformed patients succeeds and writes only the nine
      source columns: the enrichment columns never reach the table. */
  lemma WritePatients(df: seq<PatientIn>, now: Timestamp, p: Parsers)
    ensures var f := PatientFrame(TransformPatientData(df, now, p));
            var w := ProjectForWrite(f, "patients");
            w.Some? && w.value.columns == PatientsTableColumns && |w.value.rows| == |df| &&
            "full_name" !in w.value.columns && "has_valid_dates" !in w.value.columns
  {
    var f := PatientFrame(TransformPatientData(df, now, p));
    PatientColumnsFit();
    ProjectedTable(f, "patients", PatientsTableColumns);
  }

  /** Projecting the transformed treatments succeeds; `cost_category` and the
      flags are dropped. */
  lemma WriteTreatments(df: seq<TreatmentIn>, now: Timestamp, p: Parsers)
    ensures var f := TreatmentFrame(TransformTreatmentData(df, now, p));
            var w := ProjectForWrite(f, "treatments");
            w.Some? && w.value.columns == TreatmentsTableColumns && |w.value.rows| == |df| &&
            "cost_category" !in w.value.columns && "has_valid_cost" !in w.value.columns
  {
    var f := TreatmentFrame(TransformTreatmentData(df, now, p));
    TreatmentColumnsFit();
    ProjectedTable(f, "treatments", TreatmentsTableColumns);
  }

  /** Projecting the cleaned analysis rows keeps every column, in order, and
      writes the clamped satisfaction scores. */
  lemma WriteAnalysis(df: seq<AnalysisIn>, now: Timestamp, k: nat)
    requires k < |df|
    ensures var f := AnalysisFrame(TransformHospitalAnalysisData(df, now));
            var w := ProjectForWrite(f, "hospital_analysis");
            w.Some? && w.value.columns == f.columns && |w.value.rows| == |df| &&
            Get(w.value.rows[k], "satisfaction") == Int(CleanSatisfaction(df[k].satisfaction)) &&
            Get(w.value.rows[k], "created_at") == Time(now)
  {
    var rows := TransformHospitalAnalysisData(df, now);
    var f := AnalysisFrame(rows);
    var o := CleanAnalysisRow(df[k], now);
    assert o.satisfaction == CleanSatisfaction(df[k].satisfaction) && o.created_at == now;
    assert f.rows[k] == AnalysisCells(o) by {
      assert rows[k] == o;
    }
    assert Get(f.rows[k], "satisfaction") == Int(o.satisfaction);
    assert Get(f.rows[k], "created_at") == Time(now);
    assert AnalysisOutColumns == AnalysisTableColumns;
    var w := Select(f, AnalysisTableColumns).value;
    assert Get(w.rows[k], "satisfaction") == Get(f.rows[k], "satisfaction");
    assert Get(w.rows[k], "created_at") == Get(f.rows[k], "created_at");
  }

  /** A key column built from nullable ids is valid exactly when the ids are
      all present and pairwise different. */
  lemma KeysValidOfIds(ids: seq<Option<string>>, keys: seq<Value>)
    requires |keys| == |ids|
    requires forall i :: 0 <= i < |ids| ==> keys[i] == OfString(ids[i])
    ensures KeysValid(keys) <==>
              (forall i :: 0 <= i < |ids| ==> ids[i].Some?) &&
              (forall i, j :: 0 <= i < j < |ids| ==> ids[i] != ids[j])
  {
    if forall i :: 0 <= i < |ids| ==> ids[i].Some? {
      forall i, j | 0 <= i < j < |ids| ensures keys[i] == keys[j] <==> ids[i] == ids[j] {
        assert keys[i] == Str(ids[i].value) && keys[j] == Str(ids[j].value);
      }
    } else {
      var i :| 0 <= i < |ids| && ids[i].None?;
      assert keys[i] == Null;
    }
  }

  /** A frame whose key cells are the ids of a sequence of records passes
      exactly when those ids are all present and pairwise different. */
  lemma KeysDecide<R>(f: Frame, dataType: string, records: seq<R>, id: R -> Option<string>)
    requires KeyColumn(dataType).Some?
    requires forall c :: c in CheckedColumns(dataType) ==> c in f.columns
    requires |f.rows| == |records|
    requires forall i :: 0 <= i < |records| ==> Get(f.rows[i], KeyColumn(dataType).value) == OfString(id(records[i]))
    ensures ValidateData(f, dataType).Some?
    ensures ValidateData(f, dataType).value.passed <==>
              (forall i :: 0 <= i < |records| ==> id(records[i]).Some?) &&
              (forall i, j :: 0 <= i < j < |records| ==> id(records[i]) != id(records[j]))
  {
    var ids := seq(|records|, i requires 0 <= i < |records| => id(records[i]));
    ValidateDataDecision(f, dataType);
    KeysValidOfIds(ids, Column(f, KeyColumn(dataType).value));
  }

  /** The key column of the transformed patient frame holds the patient ids. */
  lemma PatientKeys(df: seq<PatientIn>, now: Timestamp, p: Parsers, i: nat)
    requires i < |df|
    ensures |Column(PatientFrame(TransformPatientData(df, now, p)), "patient_id")| == |df|
    ensures Column(PatientFrame(TransformPatientData(df, now, p)), "patient_id")[i] == OfString(df[i].patient_id)
  {
    var rows := TransformPatientData(df, now, p);
    assert rows[i] == EnrichPatient(df[i], now, p);
    assert PatientFrame(rows).rows[i] == PatientCells(rows[i]);
  }

  /** The key column of the transformed treatment frame holds the treatment ids. */
  lemma TreatmentKeys(df: seq<TreatmentIn>, now: Timestamp, p: Parsers, i: nat)
    requires i < |df|
    ensures |Column(TreatmentFrame(TransformTreatmentData(df, now, p)), "treatment_id")| == |df|
    ensures Column(TreatmentFrame(TransformTreatmentData(df, now, p)), "treatment_id")[i] == OfString(df[i].treatment_id)
  {
    var rows := TransformTreatmentData(df, now, p);
    assert rows[i] == EnrichTreatment(df[i], now, p);
    assert TreatmentFrame(rows).rows[i] == TreatmentCells(rows[i]);
  }

  /** The transformed patient frame passes validation exactly when the
      patient ids are all present and pairwise different. */
  lemma ValidatePatients(df: seq<PatientIn>, now: Timestamp, p: Parsers)
    ensures ValidateData(PatientFrame(TransformPatientData(df, now, p)), "patient").Some?
    ensures ValidateData(PatientFrame(TransformPatientData(df, now, p)), "patient").value.passed <==>
              (forall i :: 0 <= i < |df| ==> df[i].patient_id.Some?) &&
              (forall i, j :: 0 <= i < j < |df| ==> df[i].patient_id != df[j].patient_id)
  {
    var f := PatientFrame(TransformPatientData(df, now, p));
    forall i | 0 <= i < |df| ensures Get(f.rows[i], "patient_id") == OfString(df[i].patient_id) {
      PatientKeys(df, now, p, i);
    }
    assert forall c :: c in CheckedColumns("patient") ==> c in f.columns;
    KeysDecide(f, "patient", df, (r: PatientIn) => r.patient_id);
  }

  /** The transformed treatment frame passes validation exactly when the
      treatment ids are all present and pairwise different. */
  lemma ValidateTreatments(df: seq<TreatmentIn>, now: Timestamp, p: Parsers)
    ensures ValidateData(TreatmentFrame(TransformTreatmentData(df, now, p)), "treatment").Some?
    ensures ValidateData(TreatmentFrame(TransformTreatmentData(df, now, p)), "treatment").value.passed <==>
              (forall i :: 0 <= i < |df| ==> df[i].treatment_id.Some?) &&
              (forall i, j :: 0 <= i < j < |df| ==> df[i].treatment_id != df[j].treatment_id)
  {
    var f := TreatmentFrame(TransformTreatmentData(df, now, p));
    forall i | 0 <= i < |df| ensures Get(f.rows[i], "treatment_id") == OfString(df[i].treatment_id) {
      TreatmentKeys(df, now, p, i);
    }
    assert forall c :: c in CheckedColumns("treatment") ==> c in f.columns;
    KeysDecide(f, "treatment", df, (r: TreatmentIn) => r.treatment_id);
  }

  /** The key column of the cleaned analysis frame holds the patient ids. */
  lemma AnalysisKeys(df: seq<AnalysisIn>, now: Timestamp, i: nat)
    requires i < |df|
    ensures |Column(AnalysisFrame(TransformHospitalAnalysisData(df, now)), "patient_id")| == |df|
    ensures Column(AnalysisFrame(TransformHospitalAnalysisData(df, now)), "patient_id")[i] == OfString(df[i].patient_id)
  {
    var rows := TransformHospitalAnalysisData(df, now);
    assert AnalysisFrame(rows).rows[i] == AnalysisCells(rows[i]);
  }

  /** The cleaned analysis frame is rejected as soon as one patient has two
      analysis rows: this data type is keyed on `patient_id` too. */
  lemma ValidateAnalysis(df: seq<AnalysisIn>, now: Timestamp)
    ensures ValidateData(AnalysisFrame(TransformHospitalAnalysisData(df, now)), "hospital_analysis").Some?
    ensures ValidateData(AnalysisFrame(TransformHospitalAnalysisData(df, now)), "hospital_analysis").value.passed <==>
              (forall i :: 0 <= i < |df| ==> df[i].patient_id.Some?) &&
              (forall i, j :: 0 <= i < j < |df| ==> df[i].patient_id != df[j].patient_id)
  {
    var f := AnalysisFrame(TransformHospitalAnalysisData(df, now));
    forall i | 0 <= i < |df| ensures Get(f.rows[i], "patient_id") == OfString(df[i].patient_id) {
      AnalysisKeys(df, now, i);
    }
    assert forall c :: c in CheckedColumns("hospital_analysis") ==> c in f.columns;
    KeysDecide(f, "hospital_analysis", df, (r: AnalysisIn) => r.patient_id);
  }
}
