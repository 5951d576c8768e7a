# Threat detection ingestion path, modelled in Dafny

This project models the backend's ingestion-to-persistence path of the threat
detection system:

- **Canonical vector builders.** `DataPreprocessor.preprocess_network_data`
  builds a six-slot vector. `extract_ip_features` parses a dotted address.
  `preprocess_log_data` returns an empty dict. `FeatureExtractor` builds the
  network vector (length 4 or 7), the log vector (severity ordinal, then the
  message embedding) and the concatenation of vectors.
- **Log severity aggregation** in `LogAnalyzer`. The argmax label per log
  line (the first maximum on ties), the label-to-score maps, the per-label
  counts and `critical_count`, and the model info.
- **`MockMongoClient`**, the in-memory document store. `__getattr__` returns
  the client itself, so every insert lands in one shared collection under
  sequential ids "0", "1", ...; `find_one` returns the first match.
- **`ThreatDetectionPipeline`.** A network event becomes a threat only when
  its anomaly score is strictly above 0.8. A log batch becomes a threat only
  when some line is predicted CRITICAL. The result is returned either way. A
  threat is written raw-document-first, then as one Threat+Alert transaction.
- **The ingestion endpoints.** The single-event endpoints wrap the pipeline
  result. The batch endpoint runs the network items in order, then the logs,
  and stops at the first exception without undoing earlier writes.

Files:

- `values.dfy` holds the JSON-like values and the Python built-ins used on
  them (`dict.get`, truthiness, `float()`, `==`).
- `decimal.dfy` holds `str(n)`, `int(s)`, `float(s)` and dot split/join.
- `preprocessing.dfy`, `feature_extraction.dfy`, `log_analyzer.dfy`,
  `session.dfy`, `records.dfy` (the `threats`/`alerts` rows and their atomic
  commit), `pipeline.dfy` and `ingestion.dfy` follow the source files.

Code that changes state step by step is a method, or a class over the state
it changes: the feature builders, `predict`, `predict_proba`, the client,
the pipeline and the endpoints. Each such method is proved equal to a pure
function of its inputs and the old state. The properties are proved about
those functions as lemmas.

The scoring models, the BERT classifier, the TF-IDF vectorizer and
`datetime.fromisoformat` are parameters. They are functions that answer
`None` where the call raises. Clock readings and store failures come in per
call as a `CallEnv`. Exceptions are an explicit `Failed(error)` outcome or an
`HttpException` response.

## Model

| member | source | states |
|---|---|---|
| Values.ToFloat | backend/app/ml/preprocessing.py:23 | `float(v)`: a bool, int or float converts to its numeric value; None, a list or a dict raises; a string converts exactly when `float()` parses it, to the parsed value; every failure is a validation error |
| Values.ToFloatOfIntString | backend/app/ml/preprocessing.py:23 | a field holding the decimal string of an int converts to that number (`float("5000") == 5000.0`) |
| Values.ToFloatRejectsOtherCharacters | backend/app/ml/preprocessing.py:23 | a string with any character other than digits, sign, dot or white space raises (`float("abc")`) |
| Values.PyEqReflexive | backend/app/db/session.py:38 | Python `==` on stored values is reflexive, so a document equals itself field by field |
| Decimal.NatToString | backend/app/db/session.py:31 | `str(n)` of a size is a non-empty string of digits with no leading zero |
| Decimal.NatToStringInjective | backend/app/db/session.py:31 | different collection sizes give different ids |
| Decimal.ParseInt | backend/app/ml/preprocessing.py:40 | `int(s)` accepts a string only if it holds a digit |
| Decimal.ParseIntChars | backend/app/ml/preprocessing.py:40 | `int(s)` accepts a string only if every character is a digit, sign, underscore or white space (`int("1a")` raises) |
| Decimal.ParseIntOfDigits | backend/app/ml/preprocessing.py:40 | a non-empty run of ASCII digits, leading zeros allowed, is read as the number it writes (`int("007") == 7`) |
| Decimal.ParseIntOfNegativeDigits | backend/app/ml/preprocessing.py:40 | a minus sign followed by ASCII digits is read as the negated number |
| Decimal.ParseIntOfIntToString | backend/app/ml/preprocessing.py:40 | `int(str(i)) == i` for every integer |
| Decimal.ParseFloat | backend/app/ml/preprocessing.py:23 | `float(s)` accepts a string only if it holds a digit and every character is a digit, sign, dot or white space |
| Decimal.ParseFloatOfDigits | backend/app/ml/preprocessing.py:23 | a non-empty run of ASCII digits is read as the number it writes |
| Decimal.ParseFloatOfIntToString | backend/app/ml/preprocessing.py:23 | `float(str(i)) == i` for every integer |
| Decimal.JoinSplit | backend/app/ml/preprocessing.py:40 | `'.'.join(s.split('.')) == s` for every string |
| Decimal.SplitJoin | backend/app/ml/preprocessing.py:40 | splitting the dot-join of dot-free parts gives back exactly those parts |
| Preprocessing.PreprocessColumns | backend/app/ml/preprocessing.py:21-26 | succeeds iff every column's slot converts; one entry per column, in column order, each entry that column's slot |
| Preprocessing.PreprocessNetworkData | backend/app/ml/preprocessing.py:18-26 | the loop yields exactly six entries in the fixed column order: 0.0 for an absent column, `float(value)` for a present one; it raises iff some present column does not convert |
| Preprocessing.PreprocessReadsOnlyColumns | backend/app/ml/preprocessing.py:21-26 | two inputs that agree on the six columns give the same output, whatever their other keys |
| Preprocessing.PreprocessTotalOnNumbers | backend/app/ml/preprocessing.py:22-25 | when every present column is numeric the call never raises, and each entry is the field's value or 0.0 |
| Preprocessing.PreprocessLogData | backend/app/ml/preprocessing.py:28-31 | the result is the empty dict for every log entry |
| Preprocessing.ParseAll | backend/app/ml/preprocessing.py:40 | `map(int, parts)` succeeds iff every component is an integer literal, giving one int per component in order |
| Preprocessing.ExtractIpFeatures | backend/app/ml/preprocessing.py:37-41 | on success there is one integer per dot-separated component, with no count or range check, and every character of the address is a dot or one `int()` reads |
| Preprocessing.IpWithForeignCharacterRaises | backend/app/ml/preprocessing.py:40 | an address with any other character raises (`"10.0.0.1a"`) |
| Preprocessing.IpFeaturesOfDottedForm | backend/app/ml/preprocessing.py:40-41 | parsing the dot-join of any non-empty list of integers returns that list |
| Preprocessing.DottedFormOfIpFeatures | backend/app/ml/preprocessing.py:40-41 | when every component is canonical decimal, parsing succeeds and the dot-join of the result reproduces the input |
| FeatureExtraction.NetworkFeatures | backend/app/ml/feature_extraction.py:12-32 | length 7 when `timestamp` is truthy and 4 otherwise; the first four entries are the basic counters; any failure is a validation error |
| FeatureExtraction.ExtractNetworkFeatures | backend/app/ml/feature_extraction.py:12-32 | the step-by-step builder: bytes_sent, bytes_received, duration, protocol_type, each defaulting to 0, then hour, minute, weekday; it raises iff the timestamp is truthy and not a string `fromisoformat` accepts |
| FeatureExtraction.NetworkFeaturesIgnoreUnusedCounters | backend/app/ml/feature_extraction.py:15-20 | packet_count and port_number never affect the network vector |
| FeatureExtraction.TimeFeaturesInRange | backend/app/ml/feature_extraction.py:23-30 | in a 7-entry vector, hour is 0-23, minute 0-59 and weekday 0-6 |
| FeatureExtraction.SeverityOrdinal | backend/app/ml/feature_extraction.py:39-40 | the ordinal from {INFO:0, WARNING:1, ERROR:2, CRITICAL:3}; a missing or unknown severity is 0; an unhashable list or dict raises |
| FeatureExtraction.ExtractLogFeatures | backend/app/ml/feature_extraction.py:34-47 | the first entry is the severity ordinal; without `message` the vector has exactly one entry; with it, the rest is the message's embedding |
| FeatureExtraction.CombineFeatures | backend/app/ml/feature_extraction.py:49-51 | `np.concatenate` raises iff the list is empty; the length is the sum of the input lengths |
| FeatureExtraction.CombineFeaturesKeepsOrder | backend/app/ml/feature_extraction.py:49-51 | entry j of vector i lands at the sum of the earlier vectors' lengths plus j |
| LogAnalyzer.TopIndex | backend/app/ml/models/log_analyzer.py:33 | `max(result, key=score)`: the picked entry has the highest score, and every earlier entry scores strictly less |
| LogAnalyzer.Predict | backend/app/ml/models/log_analyzer.py:27-35 | one label per classifier result, in order, each the label of the first highest-scoring entry; an empty result raises |
| LogAnalyzer.ScoreMapHoldsEveryLabel | backend/app/ml/models/log_analyzer.py:42 | the dict comprehension has exactly the result's labels as keys; a label maps to the score of its last entry |
| LogAnalyzer.PredictProba | backend/app/ml/models/log_analyzer.py:37-44 | one label-to-score map per classifier result, in order; it fails iff the model call fails |
| LogAnalyzer.Analyze | backend/app/ml/models/log_analyzer.py:49-57 | the distribution has exactly the keys NORMAL, WARNING, CRITICAL; each value counts the predictions equal to that label; the three counts equal their distribution entries |
| LogAnalyzer.AnalyzeLogPattern | backend/app/ml/models/log_analyzer.py:46-58 | the analysis of the predicted labels; it raises exactly when `predict` does |
| LogAnalyzer.CountsAtMostPredictions | backend/app/ml/models/log_analyzer.py:49-52 | the three counts sum to at most the number of predictions |
| LogAnalyzer.CountsCoverKnownLabels | backend/app/ml/models/log_analyzer.py:49-52 | when every prediction is a label-map key, the three counts sum to exactly the number of predictions |
| LogAnalyzer.CountPositiveIff | backend/app/ml/models/log_analyzer.py:50 | a label's count is positive iff some prediction is that label |
| LogAnalyzer.GetModelInfo | backend/app/ml/models/log_analyzer.py:60-67 | model_type is "BERT-based Log Analyzer"; supported_severities lists the label-map keys in order NORMAL, WARNING, CRITICAL |
| Session.GetAttr | backend/app/db/session.py:24-27 | `__getattr__` adds an empty entry under the name only if absent and leaves every other entry unchanged |
| Session.FreshId | backend/app/db/session.py:30-31 | in a well-formed collection, `str(len(collection))` is not yet a key, so the assignment appends |
| Session.InsertOneAppends | backend/app/db/session.py:29-33 | an insert appends exactly the document to the one shared collection, under id `str(n)` for the n documents before it, and keeps the store well formed |
| Session.FirstMatchIsEarliest | backend/app/db/session.py:37-40 | the match found is the earliest inserted document that agrees with every query pair; no match means no document agrees |
| Session.FindOneKeepsDocuments | backend/app/db/session.py:35-40 | `find_one` changes no stored document |
| Session.FindOneEmptyQuery | backend/app/db/session.py:36-40 | an empty query returns the first inserted document, or None when the store is empty |
| Session.FindOneFindsStoredDocument | backend/app/db/session.py:35-40 | querying with all fields of a stored document always finds a document |
| Session.MockMongoClient.constructor | backend/app/db/session.py:18-19 | a new client holds no entries and no documents |
| Session.MockMongoClient.GetDefaultDatabase | backend/app/db/session.py:21-22 | returns the client itself |
| Session.MockMongoClient.GetAttribute | backend/app/db/session.py:24-27 | returns the client itself and registers the name, leaving the documents unchanged |
| Session.MockMongoClient.InsertOne | backend/app/db/session.py:29-33 | appends the document and returns `str(n)`, where n is the number of documents before the insert |
| Session.MockMongoClient.FindOne | backend/app/db/session.py:35-40 | the scan returns the first matching document oldest first, or None, and changes no document |
| Records.CommitIsAtomic | backend/app/ml/pipeline.py:108-117 | the intended commit either appends exactly the given Threat and the given Alert, each with the next row id and the alert pointing at the new threat's id, or changes neither table; the tables stay consistent |
| Records.CommitAsWrittenRaisesAfterStoring | backend/app/ml/pipeline.py:112-115 | as written, a commit that stores the pair still raises |
| Records.ThreatRecordStore.AddAndCommit | backend/app/ml/pipeline.py:108-117 | add, add, commit, with rollback on failure: the tables and returned id follow the atomic commit |
| Pipeline.MaxOf | backend/app/ml/pipeline.py:39 | `max(row)` is an entry of the row and at least every entry |
| Pipeline.ScoreEvent | backend/app/ml/pipeline.py:29-39 | scoring succeeds iff preprocessing, feature extraction and the three model calls succeed and the probability row is non-empty; the score and type are the models' answers; the confidence is the row's maximum |
| Pipeline.NetworkThreatIffAboveThreshold | backend/app/ml/pipeline.py:41-57 | a network threat is stored iff scoring succeeds, the score is strictly above 0.8 and both stores accept; a score of exactly 0.8 is rejected with no store touched; every non-raising outcome returns the result carrying the scores and the input unchanged; scoring errors re-raise with no write |
| Pipeline.DeriveThreatOfNetworkResult | backend/app/ml/pipeline.py:89-97 | for a network result, severity is the anomaly score, confidence the result's confidence, the IPs come from the event, and status is "detected" |
| Pipeline.DeriveThreatOfLogResult | backend/app/ml/pipeline.py:89-97 | for a log result, severity falls back to 0.9, confidence to 0.8, and both IPs are None |
| Pipeline.AlertWording | backend/app/ml/pipeline.py:100-106 | the alert built for a network threat is typed "network_based_threat" with message "Potential network_based threat detected", the one for a log threat "log_based_threat" with "Potential log_based threat detected"; both have status "new", the row timestamp and the whole result as metadata |
| Pipeline.AlertAsWrittenDropsMetadata | backend/app/ml/pipeline.py:105 | as written, the stored alert metadata is NULL, never the result |
| Pipeline.CreateThreatStoresPair | backend/app/ml/pipeline.py:86-112 | with both stores accepting, `_create_threat` stores the result and then commits exactly the derived pair |
| Pipeline.CreateThreatKeepsStoresValid | backend/app/ml/pipeline.py:81-117 | `_create_threat` keeps ids sequential and every alert linked to an existing threat; it only appends; when every threat's `mongo_id` named a stored document before, it still does after |
| Pipeline.CreateThreatWriteOrder | backend/app/ml/pipeline.py:86-117 | the raw document is written before any row; a failed insert adds nothing anywhere; a new threat refers to the just-stored document and its alert to it; a refused commit adds no row, re-raises and leaves the document as an orphan |
| Pipeline.NetworkThreatRecord | backend/app/ml/pipeline.py:86-106 | the stored Threat and Alert rows for a network threat, field by field: the scores, the event's IPs, "detected", the `mongo_id` reference, the linked alert typed "network_based_threat", status "new", metadata the whole result |
| Pipeline.LogThreatIffCritical | backend/app/ml/pipeline.py:59-79 | a log threat is stored iff the analysis succeeds, `critical_count > 0` and both stores accept; with no critical line no store is touched; the result carries the analysis and the logs unchanged |
| Pipeline.CriticalCountIffCriticalLine | backend/app/ml/pipeline.py:72 | `critical_count > 0` iff some log line's predicted label is CRITICAL |
| Pipeline.LogThreatRecord | backend/app/ml/pipeline.py:86-106 | the stored rows for a log threat: type "log_based", severity 0.9, confidence 0.8, no IPs, "detected", the `mongo_id` reference, the linked "log_based_threat" alert with the result as metadata |
| Pipeline.ProcessNetworkKeepsStoresValid | backend/app/ml/pipeline.py:25-57 | processing a network event keeps both stores valid, only appends and creates no dangling `mongo_id` |
| Pipeline.ProcessLogKeepsStoresValid | backend/app/ml/pipeline.py:59-79 | processing a log batch keeps both stores valid, only appends and creates no dangling `mongo_id` |
| Pipeline.ThreatDetectionPipeline.constructor | backend/app/ml/pipeline.py:18-23 | the pipeline holds its collaborators and both stores |
| Pipeline.ThreatDetectionPipeline.CreateThreat | backend/app/ml/pipeline.py:81-117 | the ordered writes, insert then add and commit, leave the stores and outcome as `_create_threat` specifies, keeping the stores valid |
| Pipeline.ThreatDetectionPipeline.ProcessNetworkData | backend/app/ml/pipeline.py:25-57 | the step-by-step network path ends with the stores and outcome of the network decision |
| Pipeline.ThreatDetectionPipeline.ProcessLogData | backend/app/ml/pipeline.py:59-79 | the step-by-step log path ends with the stores and outcome of the log decision |
| Ingestion.SingleEndpointsWrapResult | backend/app/api/endpoints/ingestion.py:11-41 | both single endpoints answer "success" with the pipeline result unchanged under "result" iff the pipeline returns; otherwise a 500 carrying the pipeline's error |
| Ingestion.StoppedStaysStopped | backend/app/api/endpoints/ingestion.py:49-51 | once an item raises, later items change neither the outcome nor the stores |
| Ingestion.RunItemsInOrder | backend/app/api/endpoints/ingestion.py:48-51 | a loop that completes has one result per item, in input order; result k is item k's result in the stores left by the items before it |
| Ingestion.RunItemsStopsAtFirstFailure | backend/app/api/endpoints/ingestion.py:49-51 | a stopped loop stopped at an item j: every earlier item completed, item j raised that error, and the stores are as item j left them |
| Ingestion.RunItemsOnlyAppends | backend/app/api/endpoints/ingestion.py:48-51 | the loop keeps the stores valid, never undoes an earlier write and creates no dangling `mongo_id` |
| Ingestion.BatchResults | backend/app/api/endpoints/ingestion.py:44-61 | on success, one result per network item in input order, then exactly one for `logs` processed after all items; with neither key, "success" with no results and nothing stored |
| Ingestion.BatchStopsAtFirstFailure | backend/app/api/endpoints/ingestion.py:47-66 | the first failing item ends the batch with a 500 carrying its error; later items and the logs never run |
| Ingestion.BatchOnlyAppends | backend/app/api/endpoints/ingestion.py:44-66 | whatever the batch answers, earlier threats and documents stay stored, the stores stay valid and no dangling `mongo_id` appears |
| Ingestion.IngestNetworkData | backend/app/api/endpoints/ingestion.py:11-25 | the endpoint's answer and stores follow the wrapped network path |
| Ingestion.IngestLogs | backend/app/api/endpoints/ingestion.py:27-41 | the endpoint's answer and stores follow the wrapped log path |
| Ingestion.RunNetworkItems | backend/app/api/endpoints/ingestion.py:48-51 | the loop over network items ends in the loop state the batch specification gives, stopping at the first raising item |
| Ingestion.IngestBatchData | backend/app/api/endpoints/ingestion.py:43-66 | the batch endpoint's answer and stores follow the batch specification |

## Left out

- Async and concurrency: the path has no real concurrency, so every call is sequential and `await` is not modelled.
- The scoring internals (`AnomalyDetector`, `NetworkClassifier`, the BERT pipeline) and the train/save/load wrappers: scores, labels and probabilities are uninterpreted parameters, and `None` stands for a call that raises.
- The TF-IDF `fit_transform` in `extract_log_features`: it is a parameter, and the shared mutable vectorizer state it updates is not modelled.
- `normalize_features`: the `StandardScaler` transform is foreign float numerics and is not called on this path.
- `datetime.fromisoformat`: it is a parameter returning hour, minute and weekday, or `None`.
- Floating point: scores, confidences and `float()` results are exact reals, so rounding, overflow, `inf` and `nan` are not modelled.
- Values.ToFloat: `float()` on a string accepts only the plain decimal forms (`ddd`, `ddd.`, `.ddd`, `ddd.ddd` with sign and surrounding white space); exponents, `inf`, `nan` and underscores are treated as errors.
- Decimal.ParseInt: only ASCII digits are accepted; Python's `int()` also accepts other Unicode decimal digits.
- Decimal.ParseFloat: the same restriction as `Values.ToFloat`, and only ASCII digits; its contract states the characters an accepted string may hold and the value of digit strings and int renderings, not the value of every fractional form.
- FeatureExtraction.ExtractNetworkFeatures: the vector keeps the raw values; the dtype coercion of `np.array` is not modelled.
- Cross-store references across restarts: the relational file outlives the in-memory document store, so no lemma assumes that an existing threat's `mongo_id` names a stored document; the store invariant is well-formed documents plus consistent rows, and resolvable references are only carried forward when they held before.
- The SQLAlchemy engine, session and ORM: the relational store is an abstract atomic "pair or nothing" commit; row ids are assigned as 1, 2, 3, ... in commit order.
- `timestamp` defaults (`datetime.now()`, `utcnow`): clock readings are inputs, and both rows of a pair share one reading.
- Store failures: the document store's failure and the commit's refusal are per-call inputs; the mock itself never fails.
- Error messages: an exception is modelled by its kind, and the `str(e)` text in the HTTP detail and the log line is not modelled.
- Logging: `logger.error` has no observable effect in the model.
- Iterating a non-empty dict as `network_data`: the model fails at once, because its first key is a string item that raises before touching a store.
- The frontend, the mock and random endpoints, the app wiring and the configuration; `MODEL_THRESHOLD` is not read by the pipeline, so the threshold is the constant 0.8.

## Findings

| source | as written | input that shows it | evidently intended | confidence | as-written member | corrected member |
|---|---|---|---|---|---|---|
| backend/app/ml/pipeline.py:112 | `await db.commit()` on a synchronous session: the commit runs, then awaiting its `None` raises `TypeError`; the awaited `rollback()` in the handler raises the same way | a network event with anomaly score 0.9 and both stores working: the Threat and Alert are committed, yet the call raises and the endpoint answers 500 | the call succeeds when the commit does, and a failed commit is rolled back and re-raised, so no row persists | high, not executed | Records.CommitAsWrittenRaisesAfterStoring | Records.CommitIsAtomic |
| backend/app/ml/pipeline.py:105 | `metadata=data` names no mapped column (the column is `alert_metadata`, backend/app/models/alert.py:16), so the keyword only sets an instance attribute | any created threat: the stored alert's metadata column is NULL | the alert's metadata column holds the whole result | medium, not executed | Pipeline.AlertAsWrittenDropsMetadata | Pipeline.NetworkThreatRecord |
