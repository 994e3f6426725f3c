/**
 The two variants of the job side by side on the hospital analysis table.

 One CSV record is taken as read with the Spark schema (typed, nullable
 fields), and the pandas row is built from those same values (one cell per
 column). That assumes both readers read each field alike, which is not so
 for pandas' NA texts ("NA", "null", "None") or for a non-integer text in one
 of Spark's integer columns. Spark clamps the numeric columns into their
 ranges; the Cloud Run variant only coerces and fills them. For a record
 read alike, the lemmas below say where the two tables then agree.
 */
module Variants {
  import opened Frames
  import opened SparkTransform
  import opened CloudRun
  import opened CloudRunFacts

  /** The record as pandas holds it: integers as integer cells, the cost as a
      float cell, text as text, a missing field as a null. */
  function PandasRow(r: AnalysisIn): (row: Row)
    ensures Get(row, "satisfaction") == OfInt(r.satisfaction)
    ensures Get(row, "age") == OfInt(r.age)
    ensures Get(row, "cost") == OfReal(r.cost)
    ensures Get(row, "length_of_stay") == OfInt(r.length_of_stay)
    ensures Get(row, "gender") == OfString(r.gender) && Get(row, "condition") == OfString(r.condition)
    ensures Get(row, "procedure") == OfString(r.procedure) && Get(row, "outcome") == OfString(r.outcome)
    ensures Get(row, "readmission") == OfString(r.readmission)
  {
    map["patient_id" := OfString(r.patient_id), "age" := OfInt(r.age), "gender" := OfString(r.gender),
        "condition" := OfString(r.condition), "procedure" := OfString(r.procedure),
        "cost" := OfReal(r.cost), "length_of_stay" := OfInt(r.length_of_stay),
        "readmission" := OfString(r.readmission), "outcome" := OfString(r.outcome),
        "satisfaction" := OfInt(r.satisfaction)]
  }

  /** A column of the analysis table as the Cloud Run variant writes it. */
  function CloudCell(r: AnalysisIn, now: Timestamp, parse: string -> Option<real>, c: string): Value
  {
    Get(ProcessRow(PandasRow(r), now, AnalysisPlan, parse), c)
  }

  /** The numeric cell a Cloud Run column holds: the value read, or the default. */
  lemma CloudNumber(r: AnalysisIn, now: Timestamp, parse: string -> Option<real>, c: string, d: real)
    requires (c, Numeric(d)) in AnalysisPlan
    ensures ToNumeric(Get(PandasRow(r), c), parse).Some? ==>
              CloudCell(r, now, parse, c) == Real(ToNumeric(Get(PandasRow(r), c), parse).value)
    ensures ToNumeric(Get(PandasRow(r), c), parse).None? ==> CloudCell(r, now, parse, c) == Real(d)
  {
    AnalysisNumbersNotClamped(PandasRow(r), now, parse, c, d);
  }

  /** Satisfaction agrees exactly when it is missing or already between 1 and 5. */
  lemma SatisfactionAgrees(r: AnalysisIn, now: Timestamp, parse: string -> Option<real>)
    ensures CloudCell(r, now, parse, "satisfaction") == Real(CleanAnalysisRow(r, now).satisfaction as real)
            <==> r.satisfaction.None? || 1 <= r.satisfaction.value <= 5
  {
    assert AnalysisPlan[3] == ("satisfaction", Numeric(3.0));
    CloudNumber(r, now, parse, "satisfaction", 3.0);
  }

  /** Age agrees exactly when it is missing or already between 0 and 120. */
  lemma AgeAgrees(r: AnalysisIn, now: Timestamp, parse: string -> Option<real>)
    ensures CloudCell(r, now, parse, "age") == Real(CleanAnalysisRow(r, now).age as real)
            <==> r.age.None? || 0 <= r.age.value <= 120
  {
    assert AnalysisPlan[0] == ("age", Numeric(0.0));
    CloudNumber(r, now, parse, "age", 0.0);
  }

  /** Cost agrees exactly when it is missing or not negative. */
  lemma CostAgrees(r: AnalysisIn, now: Timestamp, parse: string -> Option<real>)
    ensures CloudCell(r, now, parse, "cost") == Real(CleanAnalysisRow(r, now).cost)
            <==> r.cost.None? || r.cost.value >= 0.0
  {
    assert AnalysisPlan[1] == ("cost", Numeric(0.0));
    CloudNumber(r, now, parse, "cost", 0.0);
  }

  /** Length of stay agrees exactly when it is missing or not negative. */
  lemma LengthOfStayAgrees(r: AnalysisIn, now: Timestamp, parse: string -> Option<real>)
    ensures CloudCell(r, now, parse, "length_of_stay") == Real(CleanAnalysisRow(r, now).length_of_stay as real)
            <==> r.length_of_stay.None? || r.length_of_stay.value >= 0
  {
    assert AnalysisPlan[2] == ("length_of_stay", Numeric(0.0));
    CloudNumber(r, now, parse, "length_of_stay", 0.0);
  }

  /** A text column of the Cloud Run table: the text read, or the default. */
  lemma CloudText(r: AnalysisIn, now: Timestamp, parse: string -> Option<real>, c: string, d: string)
    requires (c, Text(d)) in AnalysisPlan
    ensures CloudCell(r, now, parse, c) == FillNa(Get(PandasRow(r), c), d)
  {
    AnalysisTextFilled(PandasRow(r), now, parse, c, d);
  }

  /** One text column: Cloud Run writes what Spark's `when(isNull)` default gives. */
  lemma TextColumnAgrees(r: AnalysisIn, now: Timestamp, parse: string -> Option<real>, c: string, d: string, s: Option<string>)
    requires (c, Text(d)) in AnalysisText
    requires Get(PandasRow(r), c) == OfString(s)
    ensures CloudCell(r, now, parse, c) == Str(DefaultIfNull(s, d).value)
  {
    var k :| 0 <= k < |AnalysisText| && AnalysisText[k] == (c, Text(d));
    assert AnalysisPlan[|AnalysisNumbers| + k] == (c, Text(d));
    CloudText(r, now, parse, c, d);
  }

  /** The text fields of a cleaned analysis row are the `when(isNull)` defaults. */
  lemma CleanedText(r: AnalysisIn, now: Timestamp)
    ensures CleanAnalysisRow(r, now).gender == DefaultIfNull(r.gender, "Unknown").value
    ensures CleanAnalysisRow(r, now).condition == DefaultIfNull(r.condition, "Unknown").value
    ensures CleanAnalysisRow(r, now).procedure == DefaultIfNull(r.procedure, "Unknown").value
    ensures CleanAnalysisRow(r, now).outcome == DefaultIfNull(r.outcome, "Unknown").value
    ensures CleanAnalysisRow(r, now).readmission == DefaultIfNull(r.readmission, "No").value
  {
  }

  /** The text columns agree on every record both readers read alike: both
      variants fill the same defaults. */
  lemma TextColumnsAgree(r: AnalysisIn, now: Timestamp, parse: string -> Option<real>)
    ensures CloudCell(r, now, parse, "gender") == Str(CleanAnalysisRow(r, now).gender)
    ensures CloudCell(r, now, parse, "condition") == Str(CleanAnalysisRow(r, now).condition)
    ensures CloudCell(r, now, parse, "procedure") == Str(CleanAnalysisRow(r, now).procedure)
    ensures CloudCell(r, now, parse, "outcome") == Str(CleanAnalysisRow(r, now).outcome)
    ensures CloudCell(r, now, parse, "readmission") == Str(CleanAnalysisRow(r, now).readmission)
  {
    CleanedText(r, now);
    assert AnalysisText[0] == ("gender", Text("Unknown"));
    assert AnalysisText[1] == ("condition", Text("Unknown"));
    assert AnalysisText[2] == ("procedure", Text("Unknown"));
    assert AnalysisText[3] == ("outcome", Text("Unknown"));
    assert AnalysisText[4] == ("readmission", Text("No"));
    TextColumnAgrees(r, now, parse, "gender", "Unknown", r.gender);
    TextColumnAgrees(r, now, parse, "condition", "Unknown", r.condition);
    TextColumnAgrees(r, now, parse, "procedure", "Unknown", r.procedure);
    TextColumnAgrees(r, now, parse, "outcome", "Unknown", r.outcome);
    TextColumnAgrees(r, now, parse, "readmission", "No", r.readmission);
  }

  /** A satisfaction of 9 shows the difference: Spark writes 5, Cloud Run writes 9. */
  lemma SatisfactionNineDiffers(r: AnalysisIn, now: Timestamp, parse: string -> Option<real>)
    requires r.satisfaction == Some(9)
    ensures CleanAnalysisRow(r, now).satisfaction == 5
    ensures CloudCell(r, now, parse, "satisfaction") == Real(9.0)
  {
    assert AnalysisPlan[3] == ("satisfaction", Numeric(3.0));
    CloudNumber(r, now, parse, "satisfaction", 3.0);
  }
}
