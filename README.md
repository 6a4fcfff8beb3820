# Cobot telemetry: record shaping and scoring, modelled in Dafny

This project models the data path of the cobot telemetry repository. It
covers the four pieces of that path that compute something:

- **Historical replay** (`scripts/v1_replay.py`, modules `ReplayFields` and `Replay`).
  - Every CSV row is projected through the 57-entry rename table.
  - Every field is then cast by the casting table (`str`, `float`, `int`, `bool_to_int`).
  - The rows are then sent in file order. A row is skipped when its timestamp repeats the one sent just before it.
  - Each message is `{"agv_id": "AGV_1", "agv_type": "v1", **row}`.
  - Sending is appending to an output sequence. The CSV file is given as its sequence of rows.
  - The two tables list the same 57 payload fields in the same order. They are written as functions of one enumeration, `Field`. The rename table's positional order is recovered through `Ordinal`/`FieldAt`.
- **Overload regression scoring** (`src/online-model/mpc_200_score.py`, modules `MpcConstants`, `Tensor` and `MpcScore`).
  - The hand-installed StandardScaler statistics and feature weights are modelled, together with the preprocessing (reshape, standardise, reshape, weight).
  - `run` is modelled with its decode-or-degrade path and the affine map back to feature 0's unit.
  - The trained predictor is a function parameter. So is JSON decoding.
- **Wheel-problem classification** (`src/online-model/wheel_score.py`, modules `Tensor` and `WheelScore`).
  - Modelled: the preprocessing (standardisation only), the classifier wrapper with its three shape checks, `get_columns` and `run`'s feature order.
  - The loaded scaler is a pair of mean and scale vectors. The loaded model is a per-sample prediction function.
- **OPC UA record shaping** (`opcuaclient/index.js`, module `Opcua`).
  - Modelled: `zipArrays`, `parseResult`, `boolToInt`, `mapResult` and the `COLUMNS_MAPPING`/`castingMapping` lookups.
  - A JavaScript object is modelled as its own keys in insertion order plus a key-to-value map.
  - `parseResult` and `mapResult` build their objects by assignment in a loop. Each is modelled as a method with a loop, and the loop is proved against a recursive specification function.

Numbers are mathematical reals throughout, not IEEE doubles. Library behaviour the code relies on is passed in as function parameters and left abstract:

- Python's `float`/`int`;
- JavaScript's `parseFloat`/`parseInt`/number-to-text;
- `json.loads`;
- the trained models.

Where the code can raise, the model returns an error value (`Result`/`Option`).

## Model

| member | source | states |
|---|---|---|
| ReplayFields.FieldAtOrdinal | scripts/v1_replay.py:30-88 | Every payload field has a position in the rename table, and the field at that position is itself. |
| ReplayFields.OrdinalFieldAt | scripts/v1_replay.py:30-88 | The field at table position i has position i, so table positions and fields are in one-to-one correspondence. |
| ReplayFields.NoEnvelopeClash | scripts/v1_replay.py:164-168 | No payload key is `agv_id` or `agv_type`, so spreading a row never overwrites the envelope. |
| Replay.BoolToInt | scripts/v1_replay.py:22-23 | The result is 1 exactly when the text is `"true"`, and 0 otherwise. |
| Replay.BoolToIntIsExact | scripts/v1_replay.py:22-23 | `"true"` gives 1. `"True"`, `"TRUE"`, `"1"`, `"false"`, `""` and `" true"` all give 0. |
| Replay.Cast | scripts/v1_replay.py:17 | `str` keeps the text. `bool_to_int` always succeeds. `float`/`int` succeed exactly when the parser accepts the text, and they carry its value. |
| Replay.ColumnsMapping | scripts/v1_replay.py:30-88 | `columns_mapping.items()` has 57 pairs. Pair i maps field i's source column to field i. |
| Replay.ColumnsMappingCovers | scripts/v1_replay.py:30-88 | Every payload field has its rename entry at its own position. |
| Replay.ProjectSpec | scripts/v1_replay.py:12 | A dict comprehension over any rename list succeeds iff every source column is in the row. On success, the keys are exactly the targets, and the last entry for a target gives its text. On failure, the first missing column is reported. |
| Replay.ProjectOutcome | scripts/v1_replay.py:12 | Success iff every source column is present. Otherwise the error names the first missing column. |
| Replay.ProjectContents | scripts/v1_replay.py:12 | On success, the key set is the set of targets, and each target holds the text of its last source column. |
| Replay.ProjectRowSpec | scripts/v1_replay.py:11-12 | A row projects iff it has every mapped column. The result then has all 57 fields, each holding `row[col]`. Otherwise the first missing column in table order is raised. |
| Replay.ReadCsvToListOfDicts | scripts/v1_replay.py:7-14 | The loop yields one projected dict per row, in file order. It fails iff some row fails, and it reports the first failing row's error. |
| Replay.ProjectAllSpec | scripts/v1_replay.py:11-13 | Projecting a file succeeds iff every row projects. The k-th result is then row k's projection. |
| Replay.CastDictionaryValues | scripts/v1_replay.py:16-17 | Succeeds iff every key has a caster that accepts its text. The key set is kept, and each value is its key's caster applied to the text. Failure is `CastFailed`. |
| Replay.CastRowSpec | scripts/v1_replay.py:92-150 | Every projected field has a caster. Casting a row fails only through `float` or `int` rejecting a field, never for a missing caster. On success, the keys are kept and each value is the cast text. |
| Replay.CastAll | scripts/v1_replay.py:153 | The list comprehension succeeds iff every row casts. The k-th result is then row k's cast. |
| Replay.CastAllComplete | scripts/v1_replay.py:153 | Every prepared row carries all 57 fields. |
| Replay.PayloadKeys | scripts/v1_replay.py:30-88 | The keys of each row dict, in insertion order: position i holds field i's payload name. |
| Replay.MessageOfSpec | scripts/v1_replay.py:164-168 | A message has 59 entries. `agv_id = "AGV_1"` and `agv_type = "v1"` come first, then every field of the row unchanged, under its payload key, at its table position. No later entry reuses an envelope key. |
| Replay.MessageOfLayout | scripts/v1_replay.py:164-168 | The envelope comes first, followed by one entry per table position holding that field's value. |
| Replay.MessageOfFields | scripts/v1_replay.py:164-168 | Field f sits at position 2 + its ordinal, with its name and the row's value. |
| Replay.MessageOfNoClash | scripts/v1_replay.py:164-168 | No entry after the envelope is keyed `agv_id` or `agv_type`. |
| Replay.SentRowsSubsequence | scripts/v1_replay.py:158-173 | The sent rows are the input rows at strictly increasing positions. A position is used iff its row opens a run of equal timestamps. |
| Replay.SentPositionsMatch | scripts/v1_replay.py:158-173 | Each sent row is the input row at its recorded position. |
| Replay.SentPositionsOrdered | scripts/v1_replay.py:158-173 | The recorded positions increase, and they are exactly the kept rows. |
| Replay.LastSentStamp | scripts/v1_replay.py:160-171 | After reading n rows, the last sent row has the timestamp of row n - 1. |
| Replay.KeptIffNewStamp | scripts/v1_replay.py:160-171 | The loop's rule (send iff `ts` differs from the last *sent* row's `ts`) selects the same rows as comparing each row with its predecessor. |
| Replay.SentRowsNoRepeat | scripts/v1_replay.py:158-173 | No two consecutive sent rows share a timestamp. |
| Replay.SentRowsLength | scripts/v1_replay.py:158-173 | Never more rows are sent than were read. |
| Replay.ConsecutiveDuplicatesOnly | scripts/v1_replay.py:158-173 | Timestamps `t1, t1, t2, t1` send rows 0, 2 and 3: only the adjacent repeat is dropped. |
| Replay.SendLoop | scripts/v1_replay.py:158-173 | The loop with its `prev_row_ts` marker sends exactly the messages of the first row of every run of equal timestamps, in order. |
| Replay.ReplayFile | scripts/v1_replay.py:153-173 | A projection or cast failure anywhere in the file aborts with that error and nothing sent. Otherwise the deduplicated messages are sent in file order. |
| MpcConstants.TableLengths | src/online-model/mpc_200_score.py:14-118 | `selected_columns`, `ds_mean`, `ds_scale` and `weights` all have 56 entries. |
| MpcConstants.DsScalePositive | src/online-model/mpc_200_score.py:87-96 | Every `ds_scale` entry is positive, so standardisation never divides by zero. |
| MpcScore.NewPreprocessor | src/online-model/mpc_200_score.py:75-123 | The scaler's mean and scale are `ds_mean` and `ds_scale`, and the weights are `weights`. The scaler is fitted and has 56 features. |
| MpcScore.Preprocessing | src/online-model/mpc_200_score.py:125-130 | Succeeds iff the input is 3-D, holds at least one sample (B·H > 0) and has 56 features, with the numpy or scikit-learn error for every other case (no samples: `NoSamples`). The shape is kept. Each element is standardised by its column's statistics, then multiplied by that column's weight. |
| MpcScore.PreprocessingAt | src/online-model/mpc_200_score.py:127-130 | Element (b, h, f) is `((x[b,h,f] - mean[f]) / scale[f]) * weights[f]`. |
| MpcScore.PreprocessingOfMean | src/online-model/mpc_200_score.py:127-130 | A reading equal to its feature's mean becomes 0. |
| MpcScore.PreprocessingOfMeanPlusScale | src/online-model/mpc_200_score.py:127-130 | A reading one scale above its mean becomes that feature's weight. |
| MpcScore.Payload | src/online-model/mpc_200_score.py:164-165 | The guarded step fails exactly when `record` is missing or empty, record 0 has no `data`, decoding fails, or the matrix is not 50 × 56. Otherwise it is the decoded matrix. |
| MpcScore.Flatten | src/online-model/mpc_200_score.py:165 | The window's rows laid end to end: position h·56 + f holds `m[h][f]`. |
| MpcScore.InputTensor | src/online-model/mpc_200_score.py:163-165 | The buffer has shape [1, 50, 56], and slot 0 holds the window. |
| MpcScore.Run | src/online-model/mpc_200_score.py:158-176 | A failed decode answers `[0.0]`. Otherwise the answer is `[out[0][0] * 73.6188028 + 331.105838]`, or an error when the prediction is empty. It is always one element. |
| MpcScore.DegradedRunIgnoresPredictor | src/online-model/mpc_200_score.py:164-169 | On the degrade path, the answer is `[0.0]` whatever the predictor is. |
| MpcScore.PredictorSeesWindow | src/online-model/mpc_200_score.py:163-173 | The predictor receives a [1, 50, 56] tensor whose slot 0 is the decoded payload. |
| MpcScore.OutputMapIsFeatureZeroStatistics | src/online-model/mpc_200_score.py:176 | The factor and offset of `run` are `ds_scale[0]` and `ds_mean[0]`. |
| MpcScore.UnstandardizeInverts | src/online-model/mpc_200_score.py:176 | Mapping back a standardised feature-0 value gives the original reading. |
| MpcScore.StandardizeInverts | src/online-model/mpc_200_score.py:176 | Standardising a mapped-back value gives the model output back. |
| Tensor.Zeros | src/online-model/mpc_200_score.py:163 | `np.zeros(shape)`: a valid array of that shape, all zeros. |
| Tensor.ReshapeRows | src/online-model/mpc_200_score.py:127 | `reshape(-1, F)` succeeds iff F > 0 and F divides the element count. It keeps the data and has shape [_, F]. |
| Tensor.Transform | src/online-model/mpc_200_score.py:128 | `StandardScaler.transform` succeeds iff there is at least one row and the width is the scaler's (positive) width; otherwise it reports no samples, then no features, then the mismatch, in that order. Element i becomes `(x - mean[j]) / scale[j]` for its column j. |
| Tensor.StandardizeHistory | src/online-model/mpc_200_score.py:126-129 | Reports an error for a non-3-D array, for F = 0, for an array without samples (B·H = 0) and for a wrong width, in that order. Otherwise the shape is kept and each element is standardised by its column. |
| Tensor.StandardizeHistoryAt | src/online-model/wheel_score.py:17-20 | Element (b, h, f) of the result is `x[b,h,f]` standardised by column f's mean and scale. |
| Tensor.MultiplyLastAxis | src/online-model/mpc_200_score.py:130 | Broadcast multiplication: the shape is kept, and element i is multiplied by the weight of its column. |
| WheelScore.Preprocessing | src/online-model/wheel_score.py:16-21 | Succeeds iff the input is 3-D, holds at least one sample (B·H > 0) and has the scaler's (positive) width; an empty array is refused with `NoSamples`. The shape is kept. |
| WheelScore.PreprocessingAt | src/online-model/wheel_score.py:16-21 | Element (b, h, f) is `x[b,h,f]` standardised by column f, with no weighting. |
| WheelScore.NewClassifier | src/online-model/wheel_score.py:25-33 | The constructor keeps the model, columns and preprocessing. `feature_count` is the number of columns. |
| WheelScore.GetColumnsAfterNew | src/online-model/wheel_score.py:38-42 | `get_columns` returns exactly the columns given at construction, and there are `feature_count` of them. |
| WheelScore.Row | src/online-model/wheel_score.py:58 | Row n of a flat [N, F] array holds elements n·F … n·F + F - 1. |
| WheelScore.ScaleSample | src/online-model/wheel_score.py:19 | Scaling one sample standardises each feature by its own mean and scale. |
| WheelScore.Step | src/online-model/wheel_score.py:44-59 | Fails for a non-3-D input, then for F ≠ `feature_count`, then for a history other than 1, in that order. An empty batch (N = 0) fails in preprocessing with `NoSamples`. Succeeds iff 3-D, N > 0, history 1 and 0 < F = `feature_count` = scaler width. Then there is one output per batch element. |
| WheelScore.StepPredictsEachRow | src/online-model/wheel_score.py:57-58 | On success, output n is the model applied to input row n after scaling. |
| WheelScore.PredictionsOfScaled | src/online-model/wheel_score.py:57-58 | Predicting on the preprocessed [N, F] view gives, for each row, the prediction on that input row scaled. |
| WheelScore.Predictions | src/online-model/wheel_score.py:58 | `model.predict` on [N, F] gives N predictions. Prediction k is the model on row k. |
| WheelScore.StepRows | src/online-model/wheel_score.py:57-58 | Row k of the preprocessed [N, 1, F] array, viewed as [N, F], is input row k scaled. |
| WheelScore.ScaledRows | src/online-model/wheel_score.py:18-20 | Every row of a column-wise standardised flat array is the original row scaled. |
| WheelScore.ServiceFeatureCount | src/online-model/wheel_score.py:62-75 | The service's classifier expects 2 features. |
| WheelScore.InputTensor | src/online-model/wheel_score.py:95-96 | Builds a [1, 1, 2] array with the heading correction at feature 0 and the distance correction at feature 1. |
| WheelScore.Run | src/online-model/wheel_score.py:91-103 | A missing record or key fails. Otherwise the answer is `step` on the [1, 1, 2] array, returned unchanged (no inverse scaling), or `step`'s error. |
| WheelScore.ServiceStep | src/online-model/wheel_score.py:95-100 | For the service's classifier, one prediction results, made on [scaled heading, scaled distance] in that order. |
| WheelScore.ServiceRun | src/online-model/wheel_score.py:91-103 | A well-formed request yields one prediction on the scaled heading correction (feature 0) and the scaled distance correction (feature 1). |
| Opcua.ZipArrays | opcuaclient/index.js:38 | One pair per element of `a`. Pair i is `[a[i], b[i]]`, with undefined past the end of `b`. |
| Opcua.UnzipZip | opcuaclient/index.js:38 | Unzipping gives back `a`, and `b` cut to `a`'s length. |
| Opcua.PutSpec | opcuaclient/index.js:68-70 | `obj[k] = v` sets k to v and leaves other keys alone. A new key goes last in key order, and an existing key keeps its place. |
| Opcua.PutWellFormed | opcuaclient/index.js:68-70 | Assignment keeps the key list and the value map in agreement, with each key listed once. |
| Opcua.EnvOr | opcuaclient/index.js:30-31 | `process.env.X \|\| fallback`: an unset or empty variable gives the fallback. |
| Opcua.AgvIdentity | opcuaclient/index.js:30-31 | The identity defaults to `"AGV_1"`/`"v2"` when the variable is unset or empty, and a non-empty environment value wins. |
| Opcua.SeedSpec | opcuaclient/index.js:56-61 | The seed lists `timestamp`, `isoTimestamp`, `agv_id`, `agv_type` in that order. They hold the first entry's time, its ISO text and the identity. |
| Opcua.StoreAllWellFormed | opcuaclient/index.js:63-77 | The copy loop keeps the object well formed. |
| Opcua.StoreAllSpec | opcuaclient/index.js:63-77 | After the loop, existing keys keep their front places. A key is present iff it was before or some entry was copied under it. It then holds the last such entry's text, or else its old value. |
| Opcua.ParseResult | opcuaclient/index.js:55-80 | An empty poll, or a first entry without a source time, throws. Otherwise the object is the seed followed by the copy loop over all entries. It is well formed, with the four seeded keys first. |
| Opcua.ParsedSpec | opcuaclient/index.js:55-80 | In the parsed object, the seeded keys come first. A key holds the text of the last entry copied under it. A key with no such entry is present only if seeded, and then holds its seeded value. |
| Opcua.ParsedLayout | opcuaclient/index.js:55-80 | The parsed object is well formed and lists the seeded keys first. |
| Opcua.ParsedContents | opcuaclient/index.js:55-80 | The parsed object's values, key by key, as ParsedSpec states them. |
| Opcua.Node61NeverCopied | opcuaclient/index.js:65 | If only entries named 61 carry a key, nothing is copied under it. |
| Opcua.NullStoredAsText | opcuaclient/index.js:67-71 | A null or undefined value is stored as the text `"null"`. |
| Opcua.BoolToInt | opcuaclient/index.js:82-84 | The result is 1 iff the value is truthy. The empty string, 0 and NaN are falsy. |
| Opcua.BoolToIntOnText | opcuaclient/index.js:82-84 | On stored texts only `""` gives 0, while `"false"`, `"null"` and `"0"` give 1. The replay script's rule gives 0 for all of them. |
| Opcua.SeedKeysWithoutCaster | opcuaclient/index.js:86-149 | `timestamp`, `agv_id` and `agv_type` are not renamed and have no caster. `isoTimestamp` becomes `ts`, cast with `String`. |
| Opcua.NotRenamed | opcuaclient/index.js:234 | A key that is not `isoTimestamp` and does not start like a node name has no `COLUMNS_MAPPING` entry and keeps its name. |
| Opcua.TsCastToText | opcuaclient/index.js:86-149 | `COLUMNS_MAPPING.isoTimestamp` is `ts`, and `castingMapping.ts` is `String`. |
| Opcua.MapEntriesSpec | opcuaclient/index.js:231-239 | The mapping loop succeeds iff every key has a caster after renaming. Otherwise it throws on the first key without one. On success, the result holds exactly the new names, each with the cast value of the last key renamed to it. |
| Opcua.MapEntriesOutcome | opcuaclient/index.js:231-239 | Success iff every renamed key has a caster. Otherwise the error names the first that has none. |
| Opcua.MapEntriesContents | opcuaclient/index.js:231-239 | On success, the result holds exactly the new names, each with the cast value of its last key. |
| Opcua.CastableAgrees | opcuaclient/index.js:231-239 | When every renamed key has a caster, the loop's result is the corrected mapping's. |
| Opcua.MapResult | opcuaclient/index.js:231-239 | The method's loop computes the mapping loop over all keys, and it succeeds iff every renamed key has a caster. |
| Opcua.MapEntriesShape | opcuaclient/index.js:231-239 | The outcome of the loop, the first failing key and, on success, the set of names. |
| Opcua.MapEntriesStep | opcuaclient/index.js:233-236 | One more key either throws on its new name or puts its cast value under that name. |
| Opcua.PrefixFails | opcuaclient/index.js:236 | Once the loop has thrown, the result stays that error. |
| Opcua.MappedOutcome | opcuaclient/index.js:231-239 | For a well-formed object, success iff every key's new name has a caster. The result then holds every new name and is well formed. |
| Opcua.MapResultOfParsedThrows | opcuaclient/index.js:231-236 | As written, mapResult throws `NotAFunction("timestamp")` on every object parseResult returns. |
| Opcua.MapEntriesCorrectedSpec | opcuaclient/index.js:231-239 | The corrected mapping holds exactly the new names, each with the last key's value, cast when a caster exists and unchanged otherwise. It equals mapResult's result wherever mapResult succeeds. |
| Opcua.MapEntriesCorrectedContents | opcuaclient/index.js:231-239 | The corrected mapping's names and values. |
| Opcua.CorrectedValueAt | opcuaclient/index.js:231-239 | The value under the new name of a key that no later key renames to the same name. |
| Opcua.CorrectedWellFormed | opcuaclient/index.js:231-239 | The corrected mapping is a well-formed object. |
| Opcua.MapEntriesCorrectedKeys | opcuaclient/index.js:231-239 | The corrected mapping holds exactly the new names. |
| Opcua.CorrectedAgrees | opcuaclient/index.js:231-239 | Wherever mapResult succeeds, its result is the corrected mapping's. |
| Opcua.CorrectedAt | opcuaclient/index.js:231-239 | The corrected value under the new name of the last key renamed to it. |
| Opcua.CorrectedPayloadKeepsEnvelope | opcuaclient/index.js:311-312 | With the corrected mapping, a poll whose nodes are not copied under the envelope names yields a payload with the source time, the identity and `ts` = the ISO time. |
| Opcua.EnvelopeKept | opcuaclient/index.js:311-312 | The same, for any tables that treat the seeded keys as this client's tables do. |
| Opcua.ParsedFront | opcuaclient/index.js:56-77 | When no entry overwrites a seeded key, the seeded keys keep their places and values. |
| Opcua.FrontKeysLastOfName | opcuaclient/index.js:234 | The four seeded keys are each the last key renamed to their new name. |
| Opcua.LaterKeysRenamedElsewhere | opcuaclient/index.js:63-77 | Every key after the seeded four was copied from an entry, so under the hypothesis it is renamed away from the envelope names. |

## Left out

- Network and device plumbing. Out of scope: OPC UA session connect/browse/read, the `while (true)` poll loop, the Azure IoT client and `sendEvent`/`send_message`, and the 500 ms and 1 s cadence. `getChildrenNodeList`, `timeout`, `processResult` and `main` in `opcuaclient/index.js` are not part of this model. A replay send is modelled as appending a message to the output sequence.
- Opening the CSV file and `csv.DictReader`: the file is given as its sequence of rows.
- Model loading and invocation are out of scope: `init`, `AZUREML_MODEL_DIR`, torch device choice, `joblib.load` and `StepByStepPredictor`. The predictor and the classifier's model are function parameters, and the loaded scaler is given by its mean and scale vectors.
- Library behaviour the code relies on is abstract and passed in as parameters:
  - `json.loads` with `np.array`;
  - Python's `float`/`int`;
  - JavaScript's `parseFloat`/`parseInt`;
  - the text of a JavaScript number;
  - `toString` of OPC UA values.
- IEEE floating point: all arithmetic is over reals. `ds_var` is left out because it does not affect the transform.
- numpy broadcasting: a decoded payload that is not exactly 50 × 56 is treated as a failed assignment (the `[0.0]` answer). numpy would broadcast some other shapes instead of raising.
- `json.dumps` formatting: a message is its sequence of key/value entries in order.
- Logging (`print`, `console.log`) and the `inference_schema` decorators are left out.
- JavaScript property order: `Object.entries` lists integer-like keys first in ascending order. The model enumerates keys in insertion order, so a numeric node name is not moved to the front.
- JavaScript inherited properties: `castingMapping["constructor"]` and similar prototype names would find a function. The model treats every name not in the table as having no caster.
- Node names: a node id value is either numeric (converted to decimal text) or a string. GUID and opaque node ids are treated as strings.
- Lookups in `Opcua.SignalColumn`: the `COLUMNS_MAPPING` table is written entry by entry, but only lookups of names outside the table are proved. Proving the result of a lookup of each individual long signal name is not attempted.
- Sliding window: no per-vehicle window buffer exists in the code; the scoring request carries the whole window. There is nothing to model.
- WheelScore.Preprocessing: its contract states only the success condition, the no-sample error and the shape. The values are stated by WheelScore.PreprocessingAt, and the error values by Tensor.StandardizeHistory, whose result it returns unchanged.
- Replay.SentRows: its own contract states only that sent rows keep their timestamp field. What it selects is stated by Replay.SentRowsSubsequence, Replay.KeptIffNewStamp and Replay.SentRowsNoRepeat.

Behaviour the model keeps as the code has it:

- A replay row that fails to project or cast aborts the whole script before the first send. The row is not skipped.
- The scoring service's degraded answer is a plain `[0.0]`, not a tagged result.
- No zero-scale check is made at preprocessing time. The scaler is required to be fitted (no zero scale), and the hand-installed scales are proved positive.
- The overload service has no window buffer, as noted above.

## Findings

| source | as written | input that shows it | evidently intended | confidence | as-written member | corrected member |
|---|---|---|---|---|---|---|
| opcuaclient/index.js:231-236 | `mapResult` calls `castingMapping[newKey](value)` for every key. `parseResult` always seeds `timestamp` (and `agv_id`, `agv_type`) first, and these keys are neither renamed nor in `castingMapping`, so `castFunction` is undefined and the call throws a TypeError. | Any poll whose first entry has a source timestamp, e.g. a single entry for the string node `FH.6000.[ENS] - Energy Signals.Battery cell voltage` with value null: the first key, `timestamp`, throws. With a numeric node id the JavaScript engine lists the integer-like key first, so that key throws instead; the poll fails either way. | A key without a caster passes through with its value unchanged, so the payload keeps `timestamp`, `agv_id`, `agv_type` and `ts`. | high (not executed) | Opcua.MapResultOfParsedThrows | Opcua.CorrectedPayloadKeepsEnvelope |
