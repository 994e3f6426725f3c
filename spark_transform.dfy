/**
 The row-level business rules of the PySpark variant (run_etl.py): cleaning of
 the analysis records, enrichment of treatments and patients.

 Every transform there is a chain of `withColumn` / `when ... otherwise`
 expressions, so each one is a total function of one row, lifted to a frame
 (a sequence of rows) that keeps the row count and the row order.

 Spark's `when(cond, a)` treats a null condition as false, so a null operand
 falls through to the next branch or to `otherwise`; the functions below spell
 that out. `current_timestamp()` is evaluated once per query, so it is the
 parameter `now`. The date parsers and the string-to-double cast are parameters
 too (`Parsers`): a text that does not parse becomes null.
 */
module SparkTransform {
  import opened Frames

  /** `to_date(_, "yyyy-MM-dd")`, `to_timestamp(_, "yyyy-MM-dd HH:mm:ss")` and
      `cast(DoubleType())` applied to one non-null text. */
  datatype Parsers = Parsers(
    date: string -> Option<Timestamp>,
    timestamp: string -> Option<Timestamp>,
    double: string -> Option<real>)

  /** Applies a parser to a nullable text: null stays null, and a text the
      parser rejects becomes null. */
  function ParseNullable<T>(parse: string -> Option<T>, s: Option<string>): (r: Option<T>)
    ensures s.None? ==> r.None?
    ensures s.Some? ==> r == parse(s.value)
  {
    if s.None? then None else parse(s.value)
  }

  // ---------------------------------------------------------------------------
  // Spark's three-valued conditions. A comparison with a null operand is
  // neither true nor false but unknown, `&` is SQL's AND, and `when(c, a)`
  // takes its branch only when `c` is true.
  // ---------------------------------------------------------------------------

  datatype Tri = T | F | U

  function OfBool(b: bool): Tri
  {
    if b then T else F
  }

  /** `col.isNull()`: never unknown. */
  function IsNull<X>(v: Option<X>): Tri
  {
    OfBool(v.None?)
  }

  /** `col.isNotNull()`: never unknown. */
  function IsNotNull<X>(v: Option<X>): Tri
  {
    OfBool(v.Some?)
  }

  /** `col >= c` on a double column. */
  function GeReal(v: Option<real>, c: real): Tri
  {
    if v.None? then U else OfBool(v.value >= c)
  }

  /** `col < c` on a double column. */
  function LtReal(v: Option<real>, c: real): Tri
  {
    if v.None? then U else OfBool(v.value < c)
  }

  /** `col < c` on an integer column. */
  function LtInt(v: Option<int>, c: int): Tri
  {
    if v.None? then U else OfBool(v.value < c)
  }

  /** `col > c` on an integer column. */
  function GtInt(v: Option<int>, c: int): Tri
  {
    if v.None? then U else OfBool(v.value > c)
  }

  /** `col != c` on a text column. */
  function NeText(v: Option<string>, c: string): Tri
  {
    if v.None? then U else OfBool(v.value != c)
  }

  /** `a & b`: false wins over unknown, unknown wins over true. */
  function And3(a: Tri, b: Tri): Tri
  {
    if a == F || b == F then F
    else if a == U || b == U then U
    else T
  }

  /** `when(c, a).otherwise(b)`. */
  function When<X>(c: Tri, a: X, b: X): X
  {
    if c == T then a else b
  }

  // ---------------------------------------------------------------------------
  // Hospital analysis records (transform_hospital_analysis_data)
  // ---------------------------------------------------------------------------

  /** A row as read with the analysis schema (integer, double and string columns). */
  datatype AnalysisIn = AnalysisIn(
    patient_id: Option<string>,
    age: Option<int>,
    gender: Option<string>,
    condition: Option<string>,
    procedure: Option<string>,
    cost: Option<real>,
    length_of_stay: Option<int>,
    readmission: Option<string>,
    outcome: Option<string>,
    satisfaction: Option<int>)

  /** A cleaned analysis row: every column but `patient_id` has been defaulted,
      and `created_at` has been appended. */
  datatype AnalysisOut = AnalysisOut(
    patient_id: Option<string>,
    age: int,
    gender: string,
    condition: string,
    procedure: string,
    cost: real,
    length_of_stay: int,
    readmission: string,
    outcome: string,
    satisfaction: int,
    created_at: Timestamp)

  /** `when(col.isNull(), d).otherwise(col)` on a string column: never null;
      a present text passes through and only a null becomes `d`. */
  function DefaultIfNull(s: Option<string>, d: string): (r: Option<string>)
    ensures r.Some?
    ensures s.Some? ==> r == s
    ensures s.None? ==> r == Some(d)
  {
    When(IsNull(s), Some(d), s)
  }

  /** The satisfaction score: null becomes 3, anything below 1 becomes 1,
      anything above 5 becomes 5. */
  function CleanSatisfaction(s: Option<int>): (r: int)
    ensures 1 <= r <= 5
    ensures s.None? ==> r == 3
    ensures s.Some? && 1 <= s.value <= 5 ==> r == s.value
    ensures s.Some? && s.value < 1 ==> r == 1
    ensures s.Some? && s.value > 5 ==> r == 5
  {
    When(IsNull(s), Some(3),
    When(LtInt(s, 1), Some(1),
    When(GtInt(s, 5), Some(5),
    s))).value
  }

  /** The age: null or negative becomes 0, above 120 becomes 120. */
  function CleanAge(a: Option<int>): (r: int)
    ensures 0 <= r <= 120
    ensures a.Some? && 0 <= a.value <= 120 ==> r == a.value
    ensures a.None? || a.value < 0 ==> r == 0
    ensures a.Some? && a.value > 120 ==> r == 120
  {
    When(IsNull(a), Some(0),
    When(LtInt(a, 0), Some(0),
    When(GtInt(a, 120), Some(120),
    a))).value
  }

  /** The cost: null or negative becomes 0.0. */
  function CleanCost(c: Option<real>): (r: real)
    ensures r >= 0.0
    ensures c.Some? && c.value >= 0.0 ==> r == c.value
    ensures c.None? || c.value < 0.0 ==> r == 0.0
  {
    When(IsNull(c), Some(0.0),
    When(LtReal(c, 0.0), Some(0.0),
    c)).value
  }

  /** The length of stay: null or negative becomes 0. */
  function CleanLengthOfStay(n: Option<int>): (r: int)
    ensures r >= 0
    ensures n.Some? && n.value >= 0 ==> r == n.value
    ensures n.None? || n.value < 0 ==> r == 0
  {
    When(IsNull(n), Some(0),
    When(LtInt(n, 0), Some(0),
    n)).value
  }

  /** Every cleaned value lies in its declared range. */
  predicate AnalysisInRange(o: AnalysisOut)
  {
    0 <= o.age <= 120 && o.cost >= 0.0 && o.length_of_stay >= 0 && 1 <= o.satisfaction <= 5
  }

  /** One analysis row after cleaning. */
  function CleanAnalysisRow(r: AnalysisIn, now: Timestamp): (o: AnalysisOut)
    ensures AnalysisInRange(o)
    ensures o.patient_id == r.patient_id && o.created_at == now
  {
    AnalysisOut(
      r.patient_id,
      CleanAge(r.age),
      DefaultIfNull(r.gender, "Unknown").value,
      DefaultIfNull(r.condition, "Unknown").value,
      DefaultIfNull(r.procedure, "Unknown").value,
      CleanCost(r.cost),
      CleanLengthOfStay(r.length_of_stay),
      DefaultIfNull(r.readmission, "No").value,
      DefaultIfNull(r.outcome, "Unknown").value,
      CleanSatisfaction(r.satisfaction),
      now)
  }

  /** transform_hospital_analysis_data: every row cleaned, one stamp for all. */
  function TransformHospitalAnalysisData(df: seq<AnalysisIn>, now: Timestamp): (r: seq<AnalysisOut>)
    ensures |r| == |df|
    ensures forall i :: 0 <= i < |r| ==> AnalysisInRange(r[i])
    ensures forall i :: 0 <= i < |r| ==> r[i].patient_id == df[i].patient_id && r[i].created_at == now
  {
    seq(|df|, i requires 0 <= i < |df| => CleanAnalysisRow(df[i], now))
  }

  /** The input row a cleaned row reads as when it is cleaned again. */
  function AsInput(o: AnalysisOut): (r: AnalysisIn)
    ensures r.patient_id == o.patient_id
  {
    AnalysisIn(o.patient_id, Some(o.age), Some(o.gender), Some(o.condition), Some(o.procedure),
               Some(o.cost), Some(o.length_of_stay), Some(o.readmission), Some(o.outcome),
               Some(o.satisfaction))
  }

  // ---------------------------------------------------------------------------
  // Treatment records (transform_treatment_data)
  // ---------------------------------------------------------------------------

  /** A row as read with the treatment schema: every column is text. */
  datatype TreatmentIn = TreatmentIn(
    treatment_id: Option<string>,
    patient_id: Option<string>,
    treatment_type: Option<string>,
    treatment_date: Option<string>,
    doctor_name: Option<string>,
    treatment_notes: Option<string>,
    cost: Option<string>,
    created_at: Option<string>)

  /** The four cost bands, from the most to the least expensive. */
  datatype CostBand = HighCost | MediumCost | LowCost | MinimalCost

  /** Reads a `cost_category` text back as its band. */
  function BandOfLabel(s: string): Option<CostBand>
  {
    if s == "High Cost" then Some(HighCost)
    else if s == "Medium Cost" then Some(MediumCost)
    else if s == "Low Cost" then Some(LowCost)
    else if s == "Minimal Cost" then Some(MinimalCost)
    else None
  }

  /** The text written to the `cost_category` column: each band has its own
      text, so the column can be read back. */
  function Label(b: CostBand): (s: string)
    ensures BandOfLabel(s) == Some(b)
  {
    match b
    case HighCost => "High Cost"
    case MediumCost => "Medium Cost"
    case LowCost => "Low Cost"
    case MinimalCost => "Minimal Cost"
  }

  /** 3 for the most expensive band down to 0 for the cheapest. */
  function Rank(b: CostBand): nat
  {
    match b
    case HighCost => 3
    case MediumCost => 2
    case LowCost => 1
    case MinimalCost => 0
  }

  /** A treatment row after enrichment. The year, month and weekday columns
      derived from `treatment_date` are not modelled. */
  datatype TreatmentOut = TreatmentOut(
    treatment_id: Option<string>,
    patient_id: Option<string>,
    treatment_type: Option<string>,
    treatment_date: Option<Timestamp>,
    doctor_name: Option<string>,
    treatment_notes: Option<string>,
    cost: Option<real>,
    created_at: Option<Timestamp>,
    cost_category: CostBand,
    has_valid_cost: bool,
    has_valid_doctor: bool,
    has_valid_treatment_type: bool,
    processed_at: Timestamp)

  /** The `cost_category` chain: the first threshold the cost reaches decides;
      a null cost matches no threshold. Each band is the interval it stands for. */
  function CostCategory(cost: Option<real>): (b: CostBand)
    ensures b == HighCost <==> cost.Some? && cost.value >= 5000.0
    ensures b == MediumCost <==> cost.Some? && 1000.0 <= cost.value < 5000.0
    ensures b == LowCost <==> cost.Some? && 100.0 <= cost.value < 1000.0
    ensures b == MinimalCost <==> cost.None? || cost.value < 100.0
  {
    When(GeReal(cost, 5000.0), HighCost,
    When(GeReal(cost, 1000.0), MediumCost,
    When(GeReal(cost, 100.0), LowCost,
    MinimalCost)))
  }

  /** `has_valid_cost`: a non-null, non-negative cost. */
  function HasValidCost(cost: Option<real>): (ok: bool)
    ensures ok <==> cost.Some? && cost.value >= 0.0
  {
    When(And3(IsNotNull(cost), GeReal(cost, 0.0)), true, false)
  }

  /** `has_valid_doctor`, `has_valid_treatment_type` and `has_valid_diagnosis`:
      a non-null, non-empty text. */
  function HasText(s: Option<string>): (ok: bool)
    ensures ok <==> s.Some? && s.value != ""
  {
    When(And3(IsNotNull(s), NeText(s, "")), true, false)
  }

  /** One treatment row after enrichment. */
  function EnrichTreatment(r: TreatmentIn, now: Timestamp, p: Parsers): (o: TreatmentOut)
    ensures o.treatment_id == r.treatment_id && o.patient_id == r.patient_id
    ensures o.treatment_type == r.treatment_type && o.doctor_name == r.doctor_name
    ensures o.treatment_notes == r.treatment_notes
    ensures o.treatment_date == ParseNullable(p.timestamp, r.treatment_date)
    ensures o.created_at == ParseNullable(p.timestamp, r.created_at)
    ensures o.cost.Some? <==> r.cost.Some? && p.double(r.cost.value).Some?
    ensures o.cost.Some? ==> o.cost == p.double(r.cost.value)
    ensures o.cost_category == CostCategory(o.cost)
    ensures o.has_valid_cost <==> o.cost.Some? && o.cost.value >= 0.0
    ensures o.has_valid_doctor <==> r.doctor_name.Some? && r.doctor_name.value != ""
    ensures o.has_valid_treatment_type <==> r.treatment_type.Some? && r.treatment_type.value != ""
    ensures o.processed_at == now
  {
    var cost := ParseNullable(p.double, r.cost);
    TreatmentOut(
      r.treatment_id,
      r.patient_id,
      r.treatment_type,
      ParseNullable(p.timestamp, r.treatment_date),
      r.doctor_name,
      r.treatment_notes,
      cost,
      ParseNullable(p.timestamp, r.created_at),
      CostCategory(cost),
      HasValidCost(cost),
      HasText(r.doctor_name),
      HasText(r.treatment_type),
      now)
  }

  /** transform_treatment_data: every row enriched, one stamp for all. */
  function TransformTreatmentData(df: seq<TreatmentIn>, now: Timestamp, p: Parsers): (r: seq<TreatmentOut>)
    ensures |r| == |df|
    ensures forall i :: 0 <= i < |r| ==> r[i].treatment_id == df[i].treatment_id && r[i].processed_at == now
  {
    seq(|df|, i requires 0 <= i < |df| => EnrichTreatment(df[i], now, p))
  }

  // ---------------------------------------------------------------------------
  // Patient records (transform_patient_data)
  // ---------------------------------------------------------------------------

  /** A row as read with the patient schema: every column is text. */
  datatype PatientIn = PatientIn(
    patient_id: Option<string>,
    first_name: Option<string>,
    last_name: Option<string>,
    date_of_birth: Option<string>,
    gender: Option<string>,
    admission_date: Option<string>,
    discharge_date: Option<string>,
    diagnosis: Option<string>,
    created_at: Option<string>)

  /** A patient row after enrichment. The columns computed by date arithmetic
      (`age_at_admission`, `length_of_stay_days`) are not modelled. */
  datatype PatientOut = PatientOut(
    patient_id: Option<string>,
    first_name: Option<string>,
    last_name: Option<string>,
    date_of_birth: Option<Timestamp>,
    gender: Option<string>,
    admission_date: Option<Timestamp>,
    discharge_date: Option<Timestamp>,
    diagnosis: Option<string>,
    created_at: Option<Timestamp>,
    full_name: Option<string>,
    has_valid_dates: bool,
    has_valid_diagnosis: bool,
    processed_at: Timestamp)

  /** `concat(first_name, " ", last_name)`: null as soon as one part is null. */
  function FullName(first: Option<string>, last: Option<string>): (r: Option<string>)
    ensures r.Some? <==> first.Some? && last.Some?
    ensures r.Some? ==> |r.value| == |first.value| + 1 + |last.value|
    ensures r.Some? ==> r.value[..|first.value|] == first.value && r.value[|first.value|] == ' '
    ensures r.Some? ==> r.value[|first.value| + 1..] == last.value
  {
    if first.Some? && last.Some? then Some(first.value + " " + last.value) else None
  }

  /** The index of the first blank in `s`, or `|s|` when there is none. */
  function FirstBlank(s: string): (k: nat)
    ensures k <= |s|
    ensures forall j :: 0 <= j < k ==> s[j] != ' '
    ensures k < |s| ==> s[k] == ' '
  {
    if s == [] then 0
    else if s[0] == ' ' then 0
    else 1 + FirstBlank(s[1..])
  }

  /** Splits a full name at its first blank: the inverse of `FullName` for
      first names without a blank. */
  function SplitFullName(full: string): (parts: (string, string))
  {
    var k := FirstBlank(full);
    if k < |full| then (full[..k], full[k + 1..]) else (full, "")
  }

  /** `has_valid_dates`: both converted dates are non-null. */
  function HasValidDates(admission: Option<Timestamp>, discharge: Option<Timestamp>): (ok: bool)
    ensures ok <==> admission.Some? && discharge.Some?
  {
    When(And3(IsNotNull(admission), IsNotNull(discharge)), true, false)
  }

  /** One patient row after enrichment. */
  function EnrichPatient(r: PatientIn, now: Timestamp, p: Parsers): (o: PatientOut)
    ensures o.patient_id == r.patient_id && o.first_name == r.first_name && o.last_name == r.last_name
    ensures o.gender == r.gender && o.diagnosis == r.diagnosis
    ensures o.date_of_birth == ParseNullable(p.date, r.date_of_birth)
    ensures o.created_at == ParseNullable(p.timestamp, r.created_at)
    ensures o.admission_date == ParseNullable(p.timestamp, r.admission_date)
    ensures o.discharge_date == ParseNullable(p.timestamp, r.discharge_date)
    ensures o.admission_date.Some? <==> r.admission_date.Some? && p.timestamp(r.admission_date.value).Some?
    ensures o.discharge_date.Some? <==> r.discharge_date.Some? && p.timestamp(r.discharge_date.value).Some?
    ensures o.has_valid_dates <==> o.admission_date.Some? && o.discharge_date.Some?
    ensures o.has_valid_diagnosis <==> r.diagnosis.Some? && r.diagnosis.value != ""
    ensures o.full_name == FullName(r.first_name, r.last_name)
    ensures o.processed_at == now
  {
    var admission := ParseNullable(p.timestamp, r.admission_date);
    var discharge := ParseNullable(p.timestamp, r.discharge_date);
    PatientOut(
      r.patient_id,
      r.first_name,
      r.last_name,
      ParseNullable(p.date, r.date_of_birth),
      r.gender,
      admission,
      discharge,
      r.diagnosis,
      ParseNullable(p.timestamp, r.created_at),
      FullName(r.first_name, r.last_name),
      HasValidDates(admission, discharge),
      HasText(r.diagnosis),
      now)
  }

  /** transform_patient_data: every row enriched, one stamp for all. */
  function TransformPatientData(df: seq<PatientIn>, now: Timestamp, p: Parsers): (r: seq<PatientOut>)
    ensures |r| == |df|
    ensures forall i :: 0 <= i < |r| ==> r[i].patient_id == df[i].patient_id && r[i].processed_at == now
  {
    seq(|df|, i requires 0 <= i < |df| => EnrichPatient(df[i], now, p))
  }

  // ---------------------------------------------------------------------------
  // The transformed frames as Spark lays them out: existing columns keep their
  // place and every `withColumn` of a new name appends it.
  // ---------------------------------------------------------------------------

  const AnalysisOutColumns: seq<string> :=
    ["patient_id", "age", "gender", "condition", "procedure", "cost", "length_of_stay",
     "readmission", "outcome", "satisfaction", "created_at"]

  function AnalysisCells(o: AnalysisOut): Row
  {
    map["patient_id" := OfString(o.patient_id), "age" := Int(o.age), "gender" := Str(o.gender),
        "condition" := Str(o.condition), "procedure" := Str(o.procedure), "cost" := Real(o.cost),
        "length_of_stay" := Int(o.length_of_stay), "readmission" := Str(o.readmission),
        "outcome" := Str(o.outcome), "satisfaction" := Int(o.satisfaction),
        "created_at" := Time(o.created_at)]
  }

  function AnalysisFrame(rows: seq<AnalysisOut>): Frame
  {
    Frame(AnalysisOutColumns, seq(|rows|, i requires 0 <= i < |rows| => AnalysisCells(rows[i])))
  }

  const TreatmentOutColumns: seq<string> :=
    ["treatment_id", "patient_id", "treatment_type", "treatment_date", "doctor_name",
     "treatment_notes", "cost", "created_at", "cost_category", "has_valid_cost",
     "has_valid_doctor", "has_valid_treatment_type", "processed_at"]

  function TreatmentCells(o: TreatmentOut): Row
  {
    map["treatment_id" := OfString(o.treatment_id), "patient_id" := OfString(o.patient_id),
        "treatment_type" := OfString(o.treatment_type), "treatment_date" := OfTime(o.treatment_date),
        "doctor_name" := OfString(o.doctor_name), "treatment_notes" := OfString(o.treatment_notes),
        "cost" := OfReal(o.cost), "created_at" := OfTime(o.created_at),
        "cost_category" := Str(Label(o.cost_category)), "has_valid_cost" := Bool(o.has_valid_cost),
        "has_valid_doctor" := Bool(o.has_valid_doctor),
        "has_valid_treatment_type" := Bool(o.has_valid_treatment_type),
        "processed_at" := Time(o.processed_at)]
  }

  function TreatmentFrame(rows: seq<TreatmentOut>): Frame
  {
    Frame(TreatmentOutColumns, seq(|rows|, i requires 0 <= i < |rows| => TreatmentCells(rows[i])))
  }

  const PatientOutColumns: seq<string> :=
    ["patient_id", "first_name", "last_name", "date_of_birth", "gender", "admission_date",
     "discharge_date", "diagnosis", "created_at", "full_name", "has_valid_dates",
     "has_valid_diagnosis", "processed_at"]

  function PatientCells(o: PatientOut): Row
  {
    map["patient_id" := OfString(o.patient_id), "first_name" := OfString(o.first_name),
        "last_name" := OfString(o.last_name), "date_of_birth" := OfTime(o.date_of_birth),
        "gender" := OfString(o.gender), "admission_date" := OfTime(o.admission_date),
        "discharge_date" := OfTime(o.discharge_date), "diagnosis" := OfString(o.diagnosis),
        "created_at" := OfTime(o.created_at), "full_name" := OfString(o.full_name),
        "has_valid_dates" := Bool(o.has_valid_dates),
        "has_valid_diagnosis" := Bool(o.has_valid_diagnosis),
        "processed_at" := Time(o.processed_at)]
  }

  function PatientFrame(rows: seq<PatientOut>): Frame
  {
    Frame(PatientOutColumns, seq(|rows|, i requires 0 <= i < |rows| => PatientCells(rows[i])))
  }
}

/** Properties of the PySpark row rules that relate several calls. */
module SparkTransformFacts {
  import opened Frames
  import opened SparkTransform

  /** Cleaning is idempotent: a cleaned analysis row, read back and cleaned
      again with the same stamp, is unchanged. */
  lemma CleanAnalysisIdempotent(r: AnalysisIn, now: Timestamp)
    ensures CleanAnalysisRow(AsInput(CleanAnalysisRow(r, now)), now) == CleanAnalysisRow(r, now)
  {
  }

  /** A more expensive treatment never lands in a cheaper band. */
  lemma CostCategoryMonotone(a: real, b: real)
    requires a <= b
    ensures Rank(CostCategory(Some(a))) <= Rank(CostCategory(Some(b)))
  {
  }

  lemma {:induction false} FirstBlankOfJoin(first: string, rest: string)
    requires forall j :: 0 <= j < |first| ==> first[j] != ' '
    ensures FirstBlank(first + " " + rest) == |first|
  {
    if first != [] {
      assert (first + " " + rest)[1..] == first[1..] + " " + rest;
      FirstBlankOfJoin(first[1..], rest);
    }
  }

  /** `full_name` loses nothing when the first name holds no blank: splitting
      it at its first blank gives back both parts. */
  lemma {:induction false} FullNameSplits(first: string, last: string)
    requires forall j :: 0 <= j < |first| ==> first[j] != ' '
    ensures FullName(Some(first), Some(last)) == Some(first + " " + last)
    ensures SplitFullName(first + " " + last) == (first, last)
  {
    var full := first + " " + last;
    FirstBlankOfJoin(first, last);
    assert full[..|first|] == first;
    assert full[|first| + 1..] == last;
  }

  /** Every row of one transformed analysis frame carries the same `created_at`. */
  lemma AnalysisStampShared(df: seq<AnalysisIn>, now: Timestamp, i: nat, j: nat)
    requires i < |df| && j < |df|
    ensures TransformHospitalAnalysisData(df, now)[i].created_at == TransformHospitalAnalysisData(df, now)[j].created_at
  {
  }
}
