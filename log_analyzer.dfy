/**
 * `LogAnalyzer`: turns the text classifier's per-line label scores into one
 * predicted label per log line, per-line label-to-score maps, and the
 * severity distribution whose `critical_count` drives the log decision.
 */
module LogAnalyzer {

  import opened Wrappers
  import opened Values

  /** One `{'label': ..., 'score': ...}` entry of the classifier's output for a log line. */
  datatype LabelScore = LabelScore(name: string, score: real)

  /**
   * The text-classification pipeline called with `top_k=None`: for each log
   * line, every label with its score; `None` where the call raises.
   */
  type TextClassifier = Value -> Option<seq<seq<LabelScore>>>

  /** `label_map`. */
  const LabelMap: map<string, nat> := map["NORMAL" := 0, "WARNING" := 1, "CRITICAL" := 2]

  /** The keys of `label_map` in the order the dict literal lists them. */
  const LabelOrder: seq<string> := ["NORMAL", "WARNING", "CRITICAL"]

  /** The entry `max(result, key=lambda x: x['score'])` picks: the first one with the highest score. */
  function TopIndex(result: seq<LabelScore>): (k: nat)
    requires |result| > 0
    ensures k < |result|
    ensures forall j :: 0 <= j < |result| ==> result[j].score <= result[k].score
    ensures forall j :: 0 <= j < k ==> result[j].score < result[k].score
  {
    if |result| == 1 then 0
    else
      var k := TopIndex(result[..|result| - 1]);
      if result[|result| - 1].score > result[k].score then |result| - 1 else k
  }

  /** The labels `predict` returns for the classifier's output; `max` of an empty entry raises. */
  function Labels(results: seq<seq<LabelScore>>): Result<seq<string>> {
    if forall i :: 0 <= i < |results| ==> |results[i]| > 0 then
      Ok(seq(|results|, i requires 0 <= i < |results| && |results[i]| > 0 => results[i][TopIndex(results[i])].name))
    else Err(ScoringError)
  }

  /**
   * `predict`: one label per classifier result, in order, each the label of
   * the highest-scoring entry, the first one on ties.
   */
  method Predict(model: TextClassifier, logs: Value) returns (r: Result<seq<string>>)
    ensures model(logs).None? ==> r == Err(ScoringError)
    ensures model(logs).Some? ==> r == Labels(model(logs).value)
    ensures r.Ok? ==> model(logs).Some? && |r.value| == |model(logs).value|
    ensures r.Ok? ==> forall i :: 0 <= i < |r.value| ==>
      |model(logs).value[i]| > 0 && r.value[i] == model(logs).value[i][TopIndex(model(logs).value[i])].name
  {
    var results := model(logs);
    if results.None? {
      return Err(ScoringError);
    }
    var predictions: seq<string> := [];
    for n := 0 to |results.value|
      invariant |predictions| == n
      invariant forall i :: 0 <= i < n ==> |results.value[i]| > 0
      invariant forall i :: 0 <= i < n ==> predictions[i] == results.value[i][TopIndex(results.value[i])].name
    {
      var result := results.value[n];
      if |result| == 0 {
        return Err(ScoringError);
      }
      var top := TopIndex(result);
      predictions := predictions + [result[top].name];
    }
    r := Ok(predictions);
    assert predictions == Labels(results.value).value;
  }

  /** `{pred['label']: pred['score'] for pred in result}`, entry by entry. */
  function ScoreMap(result: seq<LabelScore>): map<string, real> {
    if result == [] then map[]
    else
      var last := result[|result| - 1];
      ScoreMap(result[..|result| - 1])[last.name := last.score]
  }

  /**
   * Each label of the result is a key, nothing else is, and a label maps to
   * its score; when a label repeats, its last entry wins.
   */
  lemma {:induction false} ScoreMapHoldsEveryLabel(result: seq<LabelScore>)
    ensures forall j :: 0 <= j < |result| ==> result[j].name in ScoreMap(result)
    ensures forall name :: name in ScoreMap(result) ==> exists j :: 0 <= j < |result| && result[j].name == name
    ensures forall j :: 0 <= j < |result| && (forall k :: j < k < |result| ==> result[k].name != result[j].name)
              ==> ScoreMap(result)[result[j].name] == result[j].score
  {
    if result != [] {
      var prefix := result[..|result| - 1];
      ScoreMapHoldsEveryLabel(prefix);
      assert forall j :: 0 <= j < |prefix| ==> prefix[j] == result[j];
      forall name | name in ScoreMap(result)
        ensures exists j :: 0 <= j < |result| && result[j].name == name
      {
        if name != result[|result| - 1].name {
          var j :| 0 <= j < |prefix| && prefix[j].name == name;
          assert result[j].name == name;
        }
      }
    }
  }

  /** `predict_proba`: one label-to-score map per classifier result, in order. */
  method PredictProba(model: TextClassifier, logs: Value) returns (r: Result<seq<map<string, real>>>)
    ensures r.Ok? <==> model(logs).Some?
    ensures r.Ok? ==> |r.value| == |model(logs).value|
    ensures r.Ok? ==> forall i :: 0 <= i < |r.value| ==> r.value[i] == ScoreMap(model(logs).value[i])
  {
    var results := model(logs);
    if results.None? {
      return Err(ScoringError);
    }
    var probabilities: seq<map<string, real>> := [];
    for n := 0 to |results.value|
      invariant |probabilities| == n
      invariant forall i :: 0 <= i < n ==> probabilities[i] == ScoreMap(results.value[i])
    {
      probabilities := probabilities + [ScoreMap(results.value[n])];
    }
    r := Ok(probabilities);
  }

  /** `predictions.count(label)`. */
  function Count(predictions: seq<string>, lbl: string): nat {
    if predictions == [] then 0
    else Count(predictions[..|predictions| - 1], lbl) + (if predictions[|predictions| - 1] == lbl then 1 else 0)
  }

  /** The result of `analyze_log_pattern`. */
  datatype SeverityAnalysis = SeverityAnalysis(
    distribution: map<string, nat>,
    criticalCount: nat,
    warningCount: nat,
    normalCount: nat)

  /** The analysis of a list of predicted labels. */
  function Analyze(predictions: seq<string>): (a: SeverityAnalysis)
    ensures a.distribution.Keys == LabelMap.Keys
    ensures forall lbl :: lbl in a.distribution ==> a.distribution[lbl] == Count(predictions, lbl)
    ensures a.criticalCount == a.distribution["CRITICAL"]
    ensures a.warningCount == a.distribution["WARNING"]
    ensures a.normalCount == a.distribution["NORMAL"]
  {
    var counts := map lbl | lbl in LabelMap :: Count(predictions, lbl);
    SeverityAnalysis(counts, counts["CRITICAL"], counts["WARNING"], counts["NORMAL"])
  }

  /** The analysis of the labels the classifier's output yields, or why `predict` raised. */
  function AnalysisOf(model: TextClassifier, logs: Value): Result<SeverityAnalysis> {
    match model(logs)
    case None => Err(ScoringError)
    case Some(results) =>
      match Labels(results)
      case Err(e) => Err(e)
      case Ok(predictions) => Ok(Analyze(predictions))
  }

  /**
   * `analyze_log_pattern`: the labels predicted for the logs, counted per key
   * of `label_map`; it raises exactly when `predict` does.
   */
  method AnalyzeLogPattern(model: TextClassifier, logs: Value) returns (r: Result<SeverityAnalysis>)
    ensures r == AnalysisOf(model, logs)
    ensures r.Ok? ==> model(logs).Some? && Labels(model(logs).value).Ok?
    ensures r.Ok? ==> r.value == Analyze(Labels(model(logs).value).value)
  {
    var predictions := Predict(model, logs);
    if predictions.Err? {
      return Err(predictions.error);
    }
    r := Ok(Analyze(predictions.value));
  }

  /** Labels outside `label_map` are not counted, so the three counts add up to at most the number of predictions. */
  lemma {:induction false} CountsAtMostPredictions(predictions: seq<string>)
    ensures Count(predictions, "NORMAL") + Count(predictions, "WARNING") + Count(predictions, "CRITICAL")
            <= |predictions|
  {
    if predictions != [] {
      CountsAtMostPredictions(predictions[..|predictions| - 1]);
    }
  }

  /** The three counts add up to exactly the number of predictions when every label is a key of `label_map`. */
  lemma {:induction false} CountsCoverKnownLabels(predictions: seq<string>)
    requires forall i :: 0 <= i < |predictions| ==> predictions[i] in LabelMap
    ensures Count(predictions, "NORMAL") + Count(predictions, "WARNING") + Count(predictions, "CRITICAL")
            == |predictions|
  {
    if predictions != [] {
      CountsCoverKnownLabels(predictions[..|predictions| - 1]);
    }
  }

  /** A label's count is positive exactly when some prediction is that label. */
  lemma {:induction false} CountPositiveIff(predictions: seq<string>, lbl: string)
    ensures Count(predictions, lbl) > 0 <==> exists i :: 0 <= i < |predictions| && predictions[i] == lbl
  {
    if predictions != [] {
      var prefix := predictions[..|predictions| - 1];
      CountPositiveIff(prefix, lbl);
      if Count(prefix, lbl) > 0 {
        var i :| 0 <= i < |prefix| && prefix[i] == lbl;
        assert predictions[i] == lbl;
      }
      if exists i :: 0 <= i < |predictions| && predictions[i] == lbl {
        var i :| 0 <= i < |predictions| && predictions[i] == lbl;
        if i < |prefix| {
          assert prefix[i] == lbl;
        }
      }
    }
  }

  /** What `get_model_info` reports. */
  datatype ModelInfo = ModelInfo(
    modelType: string,
    lastTrainingTime: Option<string>,
    modelPath: Option<string>,
    supportedSeverities: seq<string>)

  /**
   * `get_model_info`: the base fields with `model_type` replaced, and the keys
   * of `label_map` in order; `train` is a no-op, so no training time is ever set.
   */
  function GetModelInfo(modelPath: Option<string>): (info: ModelInfo)
    ensures info.modelType == "BERT-based Log Analyzer"
    ensures info.lastTrainingTime == None && info.modelPath == modelPath
    ensures |info.supportedSeverities| == |LabelMap|
    ensures forall i :: 0 <= i < |info.supportedSeverities| ==>
      info.supportedSeverities[i] in LabelMap && LabelMap[info.supportedSeverities[i]] == i
  {
    assert |LabelMap.Keys| == 3 by {
      assert LabelMap.Keys == {"NORMAL", "WARNING", "CRITICAL"};
    }
    ModelInfo("BERT-based Log Analyzer", None, modelPath, LabelOrder)
  }
}
