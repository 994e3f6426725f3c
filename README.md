# Hospital ETL: the row rules of both pipeline variants, in Dafny

The hospital ETL job loads three CSV extracts (patients, treatments, hospital
analysis records) into BigQuery. It exists in two variants:

- `run_etl.py`, a PySpark job. It cleans the analysis records (defaults for
  nulls, clamping into ranges) and enriches treatments (`cost_category`,
  `has_valid_*` flags) and patients (flags, `full_name`). It accepts or rejects
  each whole dataset with `validate_data`. Before the write it projects each
  frame onto the table's columns.
- `etl_cloud_run.py`, a pandas job. Each `process_*` function stamps
  `created_at` and then overwrites a few columns of the frame in place. Numeric
  columns are coerced with `pd.to_numeric(..., errors="coerce")` and missing
  values filled; text nulls are filled. Nothing is clamped.

The model is split along those lines:

| file | module | what it holds |
|---|---|---|
| `frames.dfy` | `Frames` | cells (`Value`), rows (maps from column name to cell), frames (column list plus rows) |
| `spark_transform.dfy` | `SparkTransform`, `SparkTransformFacts` | the three Spark transforms as total functions of one typed row, lifted to frames; idempotence, monotonicity and `full_name` round trip |
| `spark_validate.dfy` | `SparkValidate` | `validate_data` as counting functions, proved equal to "no null key and no repeated key" |
| `spark_write.dfy` | `SparkWrite`, `SparkPipeline` | the projection of `write_to_bigquery`; the transformed frames meeting validation and projection |
| `cloud_run.dfy` | `CloudRun`, `CloudRunFacts` | a pandas `DataFrame` class whose rows live in an array, the column assignments as loops over it, and the three `process_*` methods proved against a row-level specification |
| `paths.dfy` | `Variants` | the two variants side by side on the analysis table, for a record both CSV readers read alike: where they agree and where they differ |

Spark functions are pure: every transform is a chain of `withColumn` and
`when ... otherwise`, so each is a function of one row. A null operand makes
a Spark condition null, and `when` then falls through to the next branch.
The rules are written in that three-valued logic: a condition is a `Tri`
(`T`, `F` or `U` for null), comparisons give `U` on a null operand, `And3` is
SQL's AND, and `When` takes its branch only on `T`. Each rule's contract is
its plain two-valued reading, proved from the three-valued definition.
`concat` is null as soon as one part is null.

The Cloud Run functions are imperative. `DataFrame.Assign` (`df[c] = scalar`)
and `DataFrame.Update` (`df[c] = fix(df[c])`) are loops over the row array.
The sequence of assignments a `process_*` function performs is a *plan*: a
list of columns with the fix applied to each. `Run` applies a plan to one
row, and `Fold` applies it to every row. Each `process_*` method ends with
its rows equal to `Processed(old rows, now, plan)`. The lemmas in
`CloudRunFacts` then state, per column, what that means.

Clock reads (`current_timestamp()`, `datetime.now()`) become the parameter
`now`. The date parsers, the string-to-double cast and `pd.to_numeric` on a
text become function parameters that return `None` where the library yields
null or NaN. Referring to a missing column raises in both libraries. In the
model that is `None` (Spark) or `ok == false` (pandas).

Behaviours of the code that the model keeps as written:

- `validate_data` keys the analysis data type on `patient_id`
  (`run_etl.py:377-396`), so a patient with two analysis rows makes the whole
  dataset fail. `SparkPipeline.ValidateAnalysis` states this.
- Age is clamped to 0..120 (`run_etl.py:300-304`).
- A failed validation rejects the whole dataset. The code gives no
  per-record reasons and no counts of accepted and rejected records.
- The Cloud Run variant clamps nothing. `Variants` states where its output
  differs from the Spark output.

## Model

| member | source | states |
|---|---|---|
| `SparkTransform.DefaultIfNull` | run_etl.py:254-285 | the three-valued `when(col.isNull(), d).otherwise(col)` is never null: a present text passes through unchanged and only a null becomes the default |
| `SparkTransform.CleanSatisfaction` | run_etl.py:288-297 | the three-valued `when` chain always lies in 1..5; null gives 3, below 1 gives 1, above 5 gives 5, anything in range is unchanged |
| `SparkTransform.CleanAge` | run_etl.py:300-304 | the three-valued `when` chain always lies in 0..120; null or negative gives 0, above 120 gives 120, in-range ages unchanged |
| `SparkTransform.CleanCost` | run_etl.py:307-310 | the three-valued `when` chain is at least 0.0; null or negative gives 0.0, other costs unchanged |
| `SparkTransform.CleanLengthOfStay` | run_etl.py:313-320 | the three-valued `when` chain is at least 0; null or negative gives 0, other values unchanged |
| `SparkTransform.CleanAnalysisRow` | run_etl.py:246-323 | every cleaned value lies in its range; `patient_id` is kept; `created_at` is the query's timestamp |
| `SparkTransform.TransformHospitalAnalysisData` | run_etl.py:246-323 | same row count; every row in range; each row keeps its `patient_id` and carries the one `created_at` |
| `SparkTransform.CostCategory` | run_etl.py:182-188 | under three-valued `when`, each band holds exactly its cost interval (>= 5000, 1000..5000, 100..1000, below 100 or null), so the bands are disjoint and exhaustive |
| `SparkTransform.Label` | run_etl.py:184-187 | each band's text reads back as that band, so the written `cost_category` determines the band |
| `SparkTransform.HasValidCost` | run_etl.py:191-196 | `when(cost.isNotNull() & (cost >= 0), true).otherwise(false)` is true exactly when the cost is non-null and not negative; a null cost gives false, not null |
| `SparkTransform.HasText` | run_etl.py:197-206 | `when(col.isNotNull() & (col != ""), true).otherwise(false)` is true exactly when the text is non-null and not empty (doctor, treatment type and diagnosis) |
| `SparkTransform.EnrichTreatment` | run_etl.py:156-215 | ids, type, doctor and notes pass through; `treatment_date` and `created_at` are the timestamp parser's reading of their texts; cost is non-null exactly when the text is present and parses; category and the three flags follow their rules; `processed_at` is the query's timestamp |
| `SparkTransform.TransformTreatmentData` | run_etl.py:156-215 | same row count; each row keeps its `treatment_id` and carries the one `processed_at` |
| `SparkTransform.FullName` | run_etl.py:129-132 | non-null exactly when both parts are; then it is the first name, one blank, the last name |
| `SparkTransform.HasValidDates` | run_etl.py:135-139 | `when(admission.isNotNull() & discharge.isNotNull(), true).otherwise(false)` is true exactly when both converted dates are non-null |
| `SparkTransform.EnrichPatient` | run_etl.py:103-153 | ids, names, gender and diagnosis pass through; `date_of_birth` is the date parser's reading of its text and `created_at`, `admission_date`, `discharge_date` the timestamp parser's, so each is non-null exactly when its text is present and parses; both flags and `full_name` follow their rules; `processed_at` is the query's timestamp |
| `SparkTransform.TransformPatientData` | run_etl.py:103-153 | same row count; each row keeps its `patient_id` and carries the one `processed_at` |
| `SparkTransformFacts.CleanAnalysisIdempotent` | run_etl.py:254-320 | cleaning an already cleaned row with the same timestamp changes nothing |
| `SparkTransformFacts.CostCategoryMonotone` | run_etl.py:183-187 | a higher cost never falls into a cheaper band |
| `SparkTransformFacts.FullNameSplits` | run_etl.py:129-132 | for a first name without a blank, splitting `full_name` at its first blank gives back both parts |
| `SparkTransformFacts.AnalysisStampShared` | run_etl.py:251 | every row of one transformed analysis frame has the same `created_at` |
| `SparkValidate.CountNull` | run_etl.py:335-339 | the number of rows with a null in one of the columns never exceeds the row count |
| `SparkValidate.DuplicateKeyCount` | run_etl.py:346-347 | the number of groups with a count above one is zero exactly when no key value occurs more than once |
| `SparkValidate.KeyColumn` | run_etl.py:333-391 | a key column exists exactly for `patient`, `treatment` and `hospital_analysis`, and it is the first of the columns that type's checks refer to |
| `SparkValidate.CheckedColumns` | run_etl.py:333-382 | the checks refer to some column exactly for the three known data types, and to no column twice |
| `SparkValidate.NullCounts` | run_etl.py:335-382 | a known data type logs at least one count and an unknown one none; the first count is the key column's null count; every count is at most the row count |
| `SparkValidate.ValidateData` | run_etl.py:326-399 | fails with an error exactly when a known data type refers to a missing column; reports the row count; an unknown data type passes with no checks |
| `SparkValidate.CountNullZero` | run_etl.py:335 | the null count of the key column is zero exactly when no row has a null key |
| `SparkValidate.OccurrencesRepeated` | run_etl.py:346-347 | a key's group has more than one row exactly when the key sits at two positions |
| `SparkValidate.NoDuplicateGroups` | run_etl.py:346-347 | no group of size two or more exists exactly when the keys are pairwise different |
| `SparkValidate.ValidateDataDecision` | run_etl.py:350-352 | with all columns present, the dataset passes exactly when its key column has no null and no repeated value |
| `SparkValidate.OnlyKeysDecide` | run_etl.py:326-399 | two frames with the same columns and the same key column get the same verdict, whatever their other nulls |
| `SparkWrite.TableColumns` | run_etl.py:409-447 | a column list exists exactly for `patients`, `treatments` and `hospital_analysis`; each list holds `patient_id` and ends with `created_at` |
| `SparkWrite.Select` | run_etl.py:411-420 | defined exactly when every name is a column; then the columns are the names in order, the row count is kept, each row holds exactly those cells with their values |
| `SparkWrite.ProjectForWrite` | run_etl.py:409-447 | the three known tables get exactly their listed columns in order and the same row count; any other table is written unchanged |
| `SparkWrite.ProjectionWellFormed` | run_etl.py:409-445 | a projected frame has distinct columns and every row holds exactly those columns |
| `SparkWrite.ProjectIdempotent` | run_etl.py:409-447 | projecting a projected frame again changes nothing |
| `SparkPipeline.WritePatients` | run_etl.py:409-420 | the transformed patients project to the nine table columns and keep every row; `full_name` and the flags are not written |
| `SparkPipeline.WriteTreatments` | run_etl.py:421-431 | the transformed treatments project to the eight table columns and keep every row; `cost_category` and the flags are not written |
| `SparkPipeline.WriteAnalysis` | run_etl.py:432-445 | the cleaned analysis frame projects onto its own columns; the written satisfaction is the clamped one and `created_at` the query's timestamp |
| `SparkPipeline.KeysDecide` | run_etl.py:346-352 | a frame whose key cells are the ids of a list of records passes exactly when the ids are all present and pairwise different |
| `SparkPipeline.ValidatePatients` | run_etl.py:333-352 | the transformed patients pass exactly when all patient ids are present and pairwise different |
| `SparkPipeline.ValidateTreatments` | run_etl.py:354-375 | the transformed treatments pass exactly when all treatment ids are present and pairwise different |
| `SparkPipeline.ValidateAnalysis` | run_etl.py:377-396 | the cleaned analysis records pass exactly when all patient ids are present and pairwise different, so a second row for a patient rejects the dataset |
| `CloudRun.CoerceOr` | etl_cloud_run.py:39 | always a number: the value read when there is one, whatever its sign, otherwise the default |
| `CloudRun.FillNa` | etl_cloud_run.py:40-41 | never null; a non-null cell is unchanged; a null becomes the fill text |
| `CloudRun.WithColumn` | etl_cloud_run.py:38 | assigning a column keeps the existing columns and their order and appends a new name at the end |
| `CloudRun.Fixed` | etl_cloud_run.py:71-81 | a fixed cell is never null; a numeric fix gives a number; a text fix keeps a non-null cell |
| `CloudRun.Run` | etl_cloud_run.py:71-81 | after a plan, a row has the same columns; unplanned columns keep their cells; each planned column holds its fix of the cell read |
| `CloudRun.Fold` | etl_cloud_run.py:71-81 | the plan on a frame keeps the row count and gives each row the plan applied to it |
| `CloudRun.FoldAppend` | etl_cloud_run.py:71-81 | running one block of assignments and then another is running both as one plan |
| `CloudRun.Processed` | etl_cloud_run.py:63-84 | a processed frame keeps its row count, and each row is the stamped row with the plan applied |
| `CloudRun.ProcessRow` | etl_cloud_run.py:70-81 | a processed row carries `now` in `created_at` when the plan leaves that column alone, and gains no column but `created_at` when every planned column is present |
| `CloudRun.DataFrame.ReadCsv` | etl_cloud_run.py:35 | the frame holds the header and the records read, in order |
| `CloudRun.DataFrame.Assign` | etl_cloud_run.py:38 | every row gets the scalar in that column; the column list gains the name if it is new; nothing else changes |
| `CloudRun.DataFrame.Update` | etl_cloud_run.py:39 | fails exactly when the column is missing, and then nothing changes; otherwise every row's cell in that column is replaced by its fix and nothing else changes |
| `CloudRun.ProcessPatientData` | etl_cloud_run.py:31-44 | succeeds exactly when `age`, `gender` and `condition` exist; then `created_at` is added and the rows are the processed rows, with no row added or dropped |
| `CloudRun.ProcessTreatmentData` | etl_cloud_run.py:47-60 | succeeds exactly when `cost`, `duration_days` and `treatment_type` exist; then `created_at` is added and the rows are the processed rows |
| `CloudRun.CoerceAnalysisNumbers` | etl_cloud_run.py:71-76 | succeeds exactly when the four numeric columns exist; then the rows are the numeric block applied to them |
| `CloudRun.FillAnalysisText` | etl_cloud_run.py:77-81 | succeeds exactly when the five text columns exist; then the rows are the text block applied to them |
| `CloudRun.ProcessHospitalAnalysisData` | etl_cloud_run.py:63-84 | succeeds exactly when all nine columns exist; then `created_at` is added and the rows are the processed rows |
| `CloudRunFacts.PlansWellFormed` | etl_cloud_run.py:38-81 | no function rewrites a column twice or overwrites the stamp |
| `CloudRunFacts.ProcessRowFacts` | etl_cloud_run.py:70-81 | a processed row carries `now`; every planned column holds its fixed, non-null cell; every other column is as read; no column is lost |
| `CloudRunFacts.FixedIdempotent` | etl_cloud_run.py:71-81 | fixing a fixed cell again changes nothing |
| `CloudRunFacts.ProcessRowIdempotent` | etl_cloud_run.py:70-81 | processing a processed row again with the same timestamp gives the same row |
| `CloudRunFacts.AnalysisNumbersNotClamped` | etl_cloud_run.py:71-76 | a numeric analysis column keeps any number it can read, negative or above 5 included; only a missing or unreadable value gets 0 (or 3 for satisfaction) |
| `CloudRunFacts.AnalysisTextFilled` | etl_cloud_run.py:77-81 | a text analysis column only loses its nulls |
| `CloudRunFacts.AnalysisDefaults` | etl_cloud_run.py:71-81 | a null satisfaction becomes 3, a null age 0, a null readmission "No", a null gender "Unknown" |
| `CloudRunFacts.PatientRowFacts` | etl_cloud_run.py:38-41 | the patient row carries `now`; age is coerced with default 0; gender and condition nulls become "Unknown" |
| `CloudRunFacts.TreatmentRowFacts` | etl_cloud_run.py:54-57 | the treatment row carries `now`; cost and duration are coerced with default 0; a null treatment type becomes "Unknown" |
| `CloudRunFacts.StampShared` | etl_cloud_run.py:70 | every row of one call carries the same `created_at` |
| `Variants.SatisfactionAgrees` | etl_cloud_run.py:76 | for a record both readers read alike, the two variants write the same satisfaction exactly when it is null or already in 1..5 |
| `Variants.AgeAgrees` | etl_cloud_run.py:71 | for a record both readers read alike, the two variants write the same age exactly when it is null or already in 0..120 |
| `Variants.CostAgrees` | etl_cloud_run.py:72 | for a record both readers read alike, the two variants write the same cost exactly when it is null or not negative |
| `Variants.LengthOfStayAgrees` | etl_cloud_run.py:73-75 | for a record both readers read alike, the two variants write the same length of stay exactly when it is null or not negative |
| `Variants.TextColumnsAgree` | etl_cloud_run.py:77-81 | for a record both readers read alike, the five text columns agree between the variants: both fill the same defaults |
| `Variants.SatisfactionNineDiffers` | run_etl.py:288-297 | a satisfaction of 9 is written as 5 by Spark and as 9 by Cloud Run |

## Left out

- Spark session setup and the `read_*_data` CSV readers: the typed input records stand for what the readers return.
- GCS download, the BigQuery upload of the Cloud Run variant and the connector write of `write_to_bigquery`: these are I/O. The write is modelled as its column projection only.
- Date arithmetic columns (`age_at_admission`, `length_of_stay_days`, `treatment_year`, `treatment_month`, `treatment_day_of_week`): they depend on Spark's calendar library. Dates are opaque timestamps produced by parser parameters.
- Floating point: costs and coerced numbers are mathematical reals. NaN is the `None` of the parser. The pandas int64/float64 distinction is not kept: every coerced cell is a real, booleans read as 1 and 0, and no date cell is coerced.
- `main` of both files: environment configuration, logging, stopping at the first failure and `sys.exit`. A failing step is only visible as the `None` / `ok == false` of the modelled operation.
- `current_timestamp()` and `datetime.now()` are the parameter `now`.
- `pd.read_csv` renaming duplicate header names: `DataFrame.ReadCsv` requires distinct headers.
- CloudRun.ProcessPatientData: on a KeyError the state of the frame is left unspecified. The source has already assigned some columns at that point, but `main` then abandons the whole run.
- CloudRun.ProcessTreatmentData: on a KeyError the state of the frame is left unspecified, for the same reason.
- CloudRun.ProcessHospitalAnalysisData: on a KeyError the state of the frame is left unspecified, for the same reason. Its nine assignments are grouped into the numeric block and the text block the source marks out, as two helper methods.
- SparkValidate.CountNull: its own contract only bounds the count; what a zero count means is `SparkValidate.CountNullZero`.
- Variants.PandasRow: both CSV readers are assumed to read each field as the same value, so the pandas cells are built from the Spark-typed record. Two cases fall outside that: pandas turns the texts "NA", "null", "None" or "n/a" into NaN while Spark keeps them as text, and a non-integer text such as "7.5" or "45.0" in one of Spark's integer columns is null for Spark but a number for pandas.
- Variants.SatisfactionAgrees: proved only for records both readers read alike; a satisfaction field "7.5" is null for Spark (written 3) but 7.5 for pandas.
- Variants.AgeAgrees: proved only for records both readers read alike; an age field "45.0" is null for Spark (written 0) but 45.0 for pandas.
- Variants.LengthOfStayAgrees: proved only for records both readers read alike; a non-integer length of stay is null for Spark (written 0) but a number for pandas.
- Variants.TextColumnsAgree: proved only for records both readers read alike; a gender field "NA" is written "Unknown" by Cloud Run but "NA" by Spark.
