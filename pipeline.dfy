/**
 * `ThreatDetectionPipeline`: scores a network event or a log batch, returns
 * the scoring result, and turns it into a stored threat when the decision
 * rule fires. A threat is written to two stores in a fixed order: the raw
 * result goes to the document store first, then one relational transaction
 * adds the Threat row and its Alert row.
 */
module Pipeline {

  import opened Wrappers
  import opened Values
  import Decimal
  import Preprocessing
  import FeatureExtraction
  import LogAnalyzer
  import Session
  import Records

  /** A network event with an anomaly score strictly above this becomes a threat. */
  const AnomalyThreshold: real := 0.8

  /** The severity a threat gets when the result has no `anomaly_score` (the log path). */
  const DefaultSeverity: real := 0.9

  /** The confidence a threat gets when the result has no `confidence` (the log path). */
  const DefaultConfidence: real := 0.8

  /**
   * The scoring models and parsers the pipeline calls, as functions of the
   * feature vector; `None` where the call raises.
   */
  datatype Collaborators = Collaborators(
    anomalyScore: seq<Value> -> Option<real>,             // AnomalyDetector.predict_proba(features)[0]
    classify: seq<Value> -> Option<string>,               // NetworkClassifier.predict(features)[0]
    classProbabilities: seq<Value> -> Option<seq<real>>,  // NetworkClassifier.predict_proba(features)[0]
    logModel: LogAnalyzer.TextClassifier,
    fromIsoFormat: FeatureExtraction.IsoParser)

  /** Whether a store refuses the write this call makes. */
  datatype Fault = NoFault | RawStoreDown | CommitRefused

  /**
   * What one call observes from outside: the clock reading for the result's
   * `timestamp`, the `utcnow` default the new rows get, and store failures.
   */
  datatype CallEnv = CallEnv(now: string, rowTime: string, fault: Fault)

  /** The document store's `data` and the committed relational tables. */
  datatype Stores = Stores(mongo: Session.MongoData, tables: Records.Tables)

  /**
   * How a call ends: the result was returned and a threat with this id was
   * stored; the result was returned and no threat was due; or the call raised.
   */
  datatype Outcome =
    | Persisted(result: Document, threatId: nat)
    | Rejected(result: Document)
    | Failed(error: Error)

  /** The scores of a network event. */
  datatype Scores = Scores(anomalyScore: real, trafficType: string, confidence: real)

  /** `max(row)`: the largest entry. */
  function MaxOf(row: seq<real>): (m: real)
    requires |row| > 0
    ensures m in row
    ensures forall x :: x in row ==> x <= m
  {
    if |row| == 1 then row[0]
    else
      var prefix := row[..|row| - 1];
      assert row == prefix + [row[|row| - 1]];
      var m := MaxOf(prefix);
      if row[|row| - 1] > m then row[|row| - 1] else m
  }

  /**
   * Preprocessing, feature extraction and the three model calls for a network
   * event; the anomaly score and traffic type are the models' answers and the
   * confidence is the largest class probability.
   */
  function ScoreEvent(c: Collaborators, data: Document): (r: Result<Scores>)
    ensures r.Ok? <==>
      && Preprocessing.PreprocessColumns(data, Preprocessing.FeatureColumns).Ok?
      && FeatureExtraction.NetworkFeatures(data, c.fromIsoFormat).Ok?
      && var f := FeatureExtraction.NetworkFeatures(data, c.fromIsoFormat).value;
         && c.anomalyScore(f).Some? && c.classify(f).Some?
         && c.classProbabilities(f).Some? && |c.classProbabilities(f).value| > 0
    ensures r.Ok? ==>
      var f := FeatureExtraction.NetworkFeatures(data, c.fromIsoFormat).value;
      && r.value.anomalyScore == c.anomalyScore(f).value
      && r.value.trafficType == c.classify(f).value
      && r.value.confidence in c.classProbabilities(f).value
      && forall x :: x in c.classProbabilities(f).value ==> x <= r.value.confidence
  {
    match Preprocessing.PreprocessColumns(data, Preprocessing.FeatureColumns)
    case Err(e) => Err(e)
    case Ok(_) =>
      match FeatureExtraction.NetworkFeatures(data, c.fromIsoFormat)
      case Err(e) => Err(e)
      case Ok(features) =>
        match c.anomalyScore(features)
        case None => Err(ScoringError)
        case Some(score) =>
          match c.classify(features)
          case None => Err(ScoringError)
          case Some(trafficType) =>
            match c.classProbabilities(features)
            case None => Err(ScoringError)
            case Some(row) =>
              if row == [] then Err(ScoringError)
              else Ok(Scores(score, trafficType, MaxOf(row)))
  }

  /** The dict `process_network_data` returns. */
  function NetworkResult(now: string, s: Scores, data: Document): Document {
    map[ "timestamp" := VStr(now)
       , "anomaly_score" := VFloat(s.anomalyScore)
       , "traffic_type" := VStr(s.trafficType)
       , "confidence" := VFloat(s.confidence)
       , "raw_data" := VDict(data) ]
  }

  /** The `severity_analysis` dict as it appears inside a result. */
  function AnalysisValue(a: LogAnalyzer.SeverityAnalysis): Value {
    VDict(map[ "severity_distribution" := VDict(map lbl | lbl in a.distribution :: VInt(a.distribution[lbl]))
             , "critical_count" := VInt(a.criticalCount)
             , "warning_count" := VInt(a.warningCount)
             , "normal_count" := VInt(a.normalCount) ])
  }

  /** The dict `process_log_data` returns. */
  function LogResult(now: string, a: LogAnalyzer.SeverityAnalysis, logs: Value): Document {
    map["timestamp" := VStr(now), "severity_analysis" := AnalysisValue(a), "raw_logs" := logs]
  }

  /** The `raw_data` column of a threat: the reference to its raw document. */
  function MongoRef(mongoId: string): Value {
    VDict(map["mongo_id" := VStr(mongoId)])
  }

  /**
   * The Threat built from a result: `float()` of `anomaly_score` and
   * `confidence` with their defaults, the IPs looked up in `raw_data` (whose
   * `.get` raises unless it is a dict), and status "detected". The id is
   * assigned by the commit.
   */
  function DeriveThreat(result: Document, threatType: string, mongoId: string, rowTime: string): Result<Records.Threat> {
    var raw := Get(result, "raw_data", VDict(map[]));
    match ToFloat(Get(result, "anomaly_score", VFloat(DefaultSeverity)))
    case Err(e) => Err(e)
    case Ok(severity) =>
      if !raw.VDict? then Err(ValidationError)
      else
        match ToFloat(Get(result, "confidence", VFloat(DefaultConfidence)))
        case Err(e) => Err(e)
        case Ok(confidence) =>
          Ok(Records.Threat(0, threatType, severity,
                            Get(raw.fields, "source_ip", VNone), Get(raw.fields, "destination_ip", VNone),
                            rowTime, MongoRef(mongoId), "detected", confidence))
  }

  /** The Alert for a threat, carrying the whole result as its metadata; linked to the threat by the commit. */
  function DeriveAlert(result: Document, threatType: string, rowTime: string): Records.Alert {
    Records.Alert(0, 0, threatType + "_threat", "Potential " + threatType + " threat detected",
                  rowTime, VDict(result), "new")
  }

  /**
   * The Alert as the source builds it: `metadata=` is not the mapped column
   * (`alert_metadata`), so the keyword only sets a plain attribute and the
   * stored column stays NULL.
   */
  function AlertAsWritten(result: Document, threatType: string, rowTime: string): Records.Alert {
    DeriveAlert(result, threatType, rowTime).(metadata := VNone)
  }

  /** As written, the result never reaches the alert's metadata column. */
  lemma AlertAsWrittenDropsMetadata(result: Document, threatType: string, rowTime: string)
    ensures AlertAsWritten(result, threatType, rowTime).metadata == VNone
    ensures AlertAsWritten(result, threatType, rowTime).metadata != DeriveAlert(result, threatType, rowTime).metadata
  {
  }

  /**
   * `_create_threat`: look up `raw_data` on the document store, insert the
   * result there, derive the rows, then add both and commit. A failed insert
   * raises before any row is built; a refused commit is rolled back and
   * raises, leaving the inserted document behind.
   */
  function CreateThreatOn(st: Stores, result: Document, threatType: string, env: CallEnv): (Stores, Outcome) {
    var m1 := Session.GetAttr(st.mongo, "raw_data");
    if env.fault == RawStoreDown then (Stores(m1, st.tables), Failed(RawStoreError))
    else
      var (m2, mongoId) := Session.InsertOneOn(m1, result);
      match DeriveThreat(result, threatType, mongoId, env.rowTime)
      case Err(e) => (Stores(m2, st.tables), Failed(e))
      case Ok(threat) =>
        var (t2, threatId) := Records.Commit(st.tables, threat, DeriveAlert(result, threatType, env.rowTime),
                                             env.fault == CommitRefused);
        (Stores(m2, t2), if threatId.Some? then Persisted(result, threatId.value) else Failed(CommitError(mongoId)))
  }

  /** `process_network_data`: score, build the result, create a threat when the score is above the threshold. */
  function ProcessNetworkOn(c: Collaborators, st: Stores, data: Document, env: CallEnv): (Stores, Outcome) {
    match ScoreEvent(c, data)
    case Err(e) => (st, Failed(e))
    case Ok(s) =>
      var result := NetworkResult(env.now, s, data);
      if s.anomalyScore > AnomalyThreshold then CreateThreatOn(st, result, "network_based", env)
      else (st, Rejected(result))
  }

  /** `process_log_data`: analyse, build the result, create a threat when some line is critical. */
  function ProcessLogOn(c: Collaborators, st: Stores, logs: Value, env: CallEnv): (Stores, Outcome) {
    match LogAnalyzer.AnalysisOf(c.logModel, logs)
    case Err(e) => (st, Failed(e))
    case Ok(a) =>
      var result := LogResult(env.now, a, logs);
      if a.criticalCount > 0 then CreateThreatOn(st, result, "log_based", env)
      else (st, Rejected(result))
  }

  /** `ref` is the reference to one of the first `n` documents. */
  ghost predicate Resolves(ref: Value, n: nat) {
    exists k :: 0 <= k < n && ref == MongoRef(Decimal.NatToString(k))
  }

  /** Every threat's `raw_data` names a document the document store holds. */
  ghost predicate RefsResolve(st: Stores) {
    forall i :: 0 <= i < |st.tables.threats| ==> Resolves(st.tables.threats[i].rawData, |Session.DocumentsOf(st.mongo)|)
  }

  /**
   * The invariant both stores keep between calls. Resolvable references are
   * not part of it: the relational file outlives the in-memory document
   * store, so after a restart old threats refer to documents that are gone.
   */
  ghost predicate StoresValid(st: Stores) {
    Session.WellFormed(st.mongo) && Records.Consistent(st.tables)
  }

  /** Nothing stored is removed or changed: documents and rows only get appended. */
  ghost predicate Grows(st: Stores, st': Stores) {
    && Session.DocumentsOf(st.mongo) <= Session.DocumentsOf(st'.mongo)
    && st.tables.threats <= st'.tables.threats
    && st.tables.alerts <= st'.tables.alerts
  }

  lemma GrowsTransitive(st1: Stores, st2: Stores, st3: Stores)
    requires Grows(st1, st2) && Grows(st2, st3)
    ensures Grows(st1, st3)
  {
  }

  lemma GetAttrKeepsDocuments(data: Session.MongoData, name: string)
    requires Session.WellFormed(data)
    ensures Session.WellFormed(Session.GetAttr(data, name))
    ensures Session.DocumentsOf(Session.GetAttr(data, name)) == Session.DocumentsOf(data)
  {
    assert Session.SharedCollection(Session.GetAttr(data, name)) == Session.SharedCollection(data);
  }

  /** References stay resolvable while documents are only appended. */
  lemma RefsSurviveAppend(st: Stores, mongo': Session.MongoData)
    requires RefsResolve(st)
    requires Session.DocumentsOf(st.mongo) <= Session.DocumentsOf(mongo')
    ensures RefsResolve(Stores(mongo', st.tables))
  {
    var n := |Session.DocumentsOf(st.mongo)|;
    forall i | 0 <= i < |st.tables.threats|
      ensures Resolves(st.tables.threats[i].rawData, |Session.DocumentsOf(mongo')|)
    {
      assert Resolves(st.tables.threats[i].rawData, n);
      var k :| 0 <= k < n && st.tables.threats[i].rawData == MongoRef(Decimal.NatToString(k));
    }
  }

  /** A new threat row that refers to an existing document keeps every reference resolvable. */
  lemma RefsSurviveNewThreat(st: Stores, tables': Records.Tables, k: nat)
    requires RefsResolve(st)
    requires |tables'.threats| == |st.tables.threats| + 1 && tables'.threats[..|st.tables.threats|] == st.tables.threats
    requires k < |Session.DocumentsOf(st.mongo)| && tables'.threats[|st.tables.threats|].rawData == MongoRef(Decimal.NatToString(k))
    ensures RefsResolve(Stores(st.mongo, tables'))
  {
    forall i | 0 <= i < |tables'.threats|
      ensures Resolves(tables'.threats[i].rawData, |Session.DocumentsOf(st.mongo)|)
    {
      if i < |st.tables.threats| {
        assert tables'.threats[i] == st.tables.threats[i];
      }
    }
  }

  /** The document-store half of `_create_threat`: the lookup, then the insert unless the store is down. */
  lemma CreateThreatRawWrite(st: Stores, result: Document, env: CallEnv)
    requires Session.WellFormed(st.mongo)
    ensures var m1 := Session.GetAttr(st.mongo, "raw_data");
      && Session.WellFormed(m1) && Session.DocumentsOf(m1) == Session.DocumentsOf(st.mongo)
      && Session.WellFormed(Session.InsertOneOn(m1, result).0)
      && Session.DocumentsOf(Session.InsertOneOn(m1, result).0) == Session.DocumentsOf(st.mongo) + [result]
      && Session.InsertOneOn(m1, result).1 == Decimal.NatToString(|Session.DocumentsOf(st.mongo)|)
  {
    var m1 := Session.GetAttr(st.mongo, "raw_data");
    GetAttrKeepsDocuments(st.mongo, "raw_data");
    Session.InsertOneAppends(m1, result);
  }

  /**
   * `_create_threat` keeps both stores valid, removes or changes nothing
   * already stored, and never makes a resolvable reference dangle.
   */
  lemma CreateThreatKeepsStoresValid(st: Stores, result: Document, threatType: string, env: CallEnv)
    requires StoresValid(st)
    ensures StoresValid(CreateThreatOn(st, result, threatType, env).0)
    ensures Grows(st, CreateThreatOn(st, result, threatType, env).0)
    ensures RefsResolve(st) ==> RefsResolve(CreateThreatOn(st, result, threatType, env).0)
  {
    var (st', o) := CreateThreatOn(st, result, threatType, env);
    var docs := Session.DocumentsOf(st.mongo);
    var m1 := Session.GetAttr(st.mongo, "raw_data");
    CreateThreatRawWrite(st, result, env);
    if env.fault == RawStoreDown {
      if RefsResolve(st) {
        RefsSurviveAppend(st, m1);
      }
    } else {
      var (m2, mongoId) := Session.InsertOneOn(m1, result);
      if RefsResolve(st) {
        RefsSurviveAppend(st, m2);
      }
      var derived := DeriveThreat(result, threatType, mongoId, env.rowTime);
      if derived.Ok? {
        var alert := DeriveAlert(result, threatType, env.rowTime);
        Records.CommitIsAtomic(st.tables, derived.value, alert, env.fault == CommitRefused);
        var (t2, threatId) := Records.Commit(st.tables, derived.value, alert, env.fault == CommitRefused);
        if threatId.Some? && RefsResolve(st) {
          assert t2.threats[..|st.tables.threats|] == st.tables.threats;
          RefsSurviveNewThreat(Stores(m2, st.tables), t2, |docs|);
        }
      }
    }
  }

  /**
   * The raw document is written before any row: a threat row appears only
   * together with the new document it refers to, a failed insert adds
   * nothing anywhere, and a refused commit leaves the inserted document as an
   * orphan, reports its id, and adds no row.
   */
  lemma CreateThreatWriteOrder(st: Stores, result: Document, threatType: string, env: CallEnv)
    requires StoresValid(st)
    ensures var (st', o) := CreateThreatOn(st, result, threatType, env);
      var docs := Session.DocumentsOf(st.mongo);
      && (env.fault == RawStoreDown ==>
            o == Failed(RawStoreError) && st'.tables == st.tables && Session.DocumentsOf(st'.mongo) == docs)
      && (env.fault != RawStoreDown ==> Session.DocumentsOf(st'.mongo) == docs + [result])
      && (o.Persisted? ==>
            && env.fault == NoFault
            && o.result == result
            && o.threatId == |st.tables.threats| + 1
            && |st'.tables.threats| == |st.tables.threats| + 1
            && st'.tables.threats[|st.tables.threats|].rawData == MongoRef(Decimal.NatToString(|docs|))
            && |st'.tables.alerts| == |st.tables.alerts| + 1
            && st'.tables.alerts[|st.tables.alerts|].threatId == o.threatId)
      && (!o.Persisted? ==> st'.tables == st.tables)
      && (env.fault == CommitRefused && DeriveThreat(result, threatType, Decimal.NatToString(|docs|), env.rowTime).Ok? ==>
            o == Failed(CommitError(Decimal.NatToString(|docs|))))
  {
    CreateThreatRawWrite(st, result, env);
    if env.fault != RawStoreDown {
      var (m2, mongoId) := Session.InsertOneOn(Session.GetAttr(st.mongo, "raw_data"), result);
      var derived := DeriveThreat(result, threatType, mongoId, env.rowTime);
      if derived.Ok? {
        Records.CommitIsAtomic(st.tables, derived.value, DeriveAlert(result, threatType, env.rowTime), env.fault == CommitRefused);
      }
    }
  }

  /**
   * The network decision: a threat is stored exactly when scoring succeeds,
   * the anomaly score is strictly above 0.8 and both stores accept the
   * writes; a score of exactly 0.8 is rejected and touches no store. Every
   * outcome that does not raise returns the result, carrying the models'
   * scores and the input event unchanged.
   */
  lemma NetworkThreatIffAboveThreshold(c: Collaborators, st: Stores, data: Document, env: CallEnv)
    requires StoresValid(st)
    ensures var (st', o) := ProcessNetworkOn(c, st, data, env);
      var sc := ScoreEvent(c, data);
      && (sc.Err? ==> o == Failed(sc.error) && st' == st)
      && (o.Persisted? <==> sc.Ok? && sc.value.anomalyScore > AnomalyThreshold && env.fault == NoFault)
      && (o.Rejected? <==> sc.Ok? && sc.value.anomalyScore <= AnomalyThreshold)
      && (o.Rejected? ==> st' == st)
      && (sc.Ok? && sc.value.anomalyScore == AnomalyThreshold ==> o.Rejected? && st' == st)
      && |st'.tables.threats| == |st.tables.threats| + (if o.Persisted? then 1 else 0)
      && (!o.Failed? ==>
            && o.result["anomaly_score"] == VFloat(sc.value.anomalyScore)
            && o.result["traffic_type"] == VStr(sc.value.trafficType)
            && o.result["confidence"] == VFloat(sc.value.confidence)
            && o.result["raw_data"] == VDict(data))
  {
    var sc := ScoreEvent(c, data);
    if sc.Ok? && sc.value.anomalyScore > AnomalyThreshold {
      var result := NetworkResult(env.now, sc.value, data);
      CreateThreatWriteOrder(st, result, "network_based", env);
      CreateThreatRawWrite(st, result, env);
      assert DeriveThreat(result, "network_based", Decimal.NatToString(|Session.DocumentsOf(st.mongo)|), env.rowTime).Ok?;
    }
  }

  /** A network result carries both scores and the event, so no default is used. */
  lemma DeriveThreatOfNetworkResult(now: string, sc: Scores, data: Document, mongoId: string, rowTime: string)
    ensures DeriveThreat(NetworkResult(now, sc, data), "network_based", mongoId, rowTime)
         == Ok(Records.Threat(0, "network_based", sc.anomalyScore,
                              Get(data, "source_ip", VNone), Get(data, "destination_ip", VNone),
                              rowTime, MongoRef(mongoId), "detected", sc.confidence))
  {
    var result := NetworkResult(now, sc, data);
    assert Get(result, "anomaly_score", VFloat(DefaultSeverity)) == VFloat(sc.anomalyScore);
    assert Get(result, "raw_data", VDict(map[])) == VDict(data);
    assert Get(result, "confidence", VFloat(DefaultConfidence)) == VFloat(sc.confidence);
  }

  /** A log result has no score, confidence or event, so every default is used. */
  lemma DeriveThreatOfLogResult(now: string, an: LogAnalyzer.SeverityAnalysis, logs: Value, mongoId: string, rowTime: string)
    ensures DeriveThreat(LogResult(now, an, logs), "log_based", mongoId, rowTime)
         == Ok(Records.Threat(0, "log_based", DefaultSeverity, VNone, VNone,
                              rowTime, MongoRef(mongoId), "detected", DefaultConfidence))
  {
    var result := LogResult(now, an, logs);
    assert "anomaly_score" !in result && "raw_data" !in result && "confidence" !in result;
  }

  /**
   * The alert type and message each threat type gets: a network threat is
   * alerted as "network_based_threat", a log threat as "log_based_threat";
   * both alerts start as "new" and carry the whole result.
   */
  lemma AlertWording(result: Document, rowTime: string)
    ensures var a := DeriveAlert(result, "network_based", rowTime);
      && a.alertType == "network_based_threat"
      && a.message == "Potential network_based threat detected"
      && a.status == "new" && a.metadata == VDict(result) && a.timestamp == rowTime
    ensures var a := DeriveAlert(result, "log_based", rowTime);
      && a.alertType == "log_based_threat"
      && a.message == "Potential log_based threat detected"
      && a.status == "new" && a.metadata == VDict(result) && a.timestamp == rowTime
  {
    assert "network_based" + "_threat" == "network_based_threat";
    assert "Potential " + "network_based" + " threat detected" == "Potential network_based threat detected";
    assert "log_based" + "_threat" == "log_based_threat";
    assert "Potential " + "log_based" + " threat detected" == "Potential log_based threat detected";
  }

  /** With both stores accepting, `_create_threat` stores the result and commits exactly the derived pair. */
  lemma CreateThreatStoresPair(st: Stores, result: Document, threatType: string, env: CallEnv, threat: Records.Threat)
    requires Session.WellFormed(st.mongo) && env.fault == NoFault
    requires DeriveThreat(result, threatType, Decimal.NatToString(|Session.DocumentsOf(st.mongo)|), env.rowTime) == Ok(threat)
    ensures var (st', o) := CreateThreatOn(st, result, threatType, env);
      && o == Persisted(result, |st.tables.threats| + 1)
      && Session.DocumentsOf(st'.mongo) == Session.DocumentsOf(st.mongo) + [result]
      && st'.tables == Records.InsertPair(st.tables, threat, DeriveAlert(result, threatType, env.rowTime)).0
  {
    CreateThreatRawWrite(st, result, env);
  }

  /**
   * The rows a network threat gets: severity and confidence are the scores,
   * the IPs come from the event, status "detected", `raw_data` refers to the
   * document just stored, which is the result; the alert belongs to that
   * threat, is typed and worded for "network_based", status "new", and
   * carries the whole result.
   */
  lemma NetworkThreatRecord(c: Collaborators, st: Stores, data: Document, env: CallEnv, sc: Scores)
    requires StoresValid(st) && env.fault == NoFault
    requires ScoreEvent(c, data) == Ok(sc) && sc.anomalyScore > AnomalyThreshold
    ensures var (st', o) := ProcessNetworkOn(c, st, data, env);
      var docs := Session.DocumentsOf(st.mongo);
      && o == Persisted(NetworkResult(env.now, sc, data), |st.tables.threats| + 1)
      && Session.DocumentsOf(st'.mongo) == docs + [o.result]
      && st'.tables.threats == st.tables.threats +
           [Records.Threat(o.threatId, "network_based", sc.anomalyScore,
                           Get(data, "source_ip", VNone), Get(data, "destination_ip", VNone),
                           env.rowTime, MongoRef(Decimal.NatToString(|docs|)), "detected", sc.confidence)]
      && st'.tables.alerts == st.tables.alerts +
           [Records.Alert(|st.tables.alerts| + 1, o.threatId, "network_based_threat",
                          "Potential network_based threat detected", env.rowTime, VDict(o.result), "new")]
  {
    var result := NetworkResult(env.now, sc, data);
    assert ProcessNetworkOn(c, st, data, env) == CreateThreatOn(st, result, "network_based", env);
    var mongoId := Decimal.NatToString(|Session.DocumentsOf(st.mongo)|);
    var threat := Records.Threat(0, "network_based", sc.anomalyScore,
                                 Get(data, "source_ip", VNone), Get(data, "destination_ip", VNone),
                                 env.rowTime, MongoRef(mongoId), "detected", sc.confidence);
    DeriveThreatOfNetworkResult(env.now, sc, data, mongoId, env.rowTime);
    CreateThreatStoresPair(st, result, "network_based", env, threat);
    var alert := DeriveAlert(result, "network_based", env.rowTime);
    AlertWording(result, env.rowTime);
    var (st', o) := CreateThreatOn(st, result, "network_based", env);
    assert o == Persisted(result, |st.tables.threats| + 1);
    assert st'.tables == Records.InsertPair(st.tables, threat, alert).0;
    assert st'.tables.threats == st.tables.threats + [threat.(id := o.threatId)];
    assert st'.tables.alerts == st.tables.alerts + [alert.(id := |st.tables.alerts| + 1, threatId := o.threatId)];
  }

  /**
   * The log decision: a threat is stored exactly when the analysis succeeds,
   * `critical_count` is positive and both stores accept the writes; with no
   * critical line no store is touched. The result is returned either way,
   * with the analysis and the logs unchanged.
   */
  lemma LogThreatIffCritical(c: Collaborators, st: Stores, logs: Value, env: CallEnv)
    requires StoresValid(st)
    ensures var (st', o) := ProcessLogOn(c, st, logs, env);
      var an := LogAnalyzer.AnalysisOf(c.logModel, logs);
      && (an.Err? ==> o == Failed(an.error) && st' == st)
      && (o.Persisted? <==> an.Ok? && an.value.criticalCount > 0 && env.fault == NoFault)
      && (o.Rejected? <==> an.Ok? && an.value.criticalCount == 0)
      && (o.Rejected? ==> st' == st)
      && |st'.tables.threats| == |st.tables.threats| + (if o.Persisted? then 1 else 0)
      && (!o.Failed? ==> o.result["severity_analysis"] == AnalysisValue(an.value) && o.result["raw_logs"] == logs)
  {
    var an := LogAnalyzer.AnalysisOf(c.logModel, logs);
    if an.Ok? {
      var result := LogResult(env.now, an.value, logs);
      if an.value.criticalCount > 0 {
        assert ProcessLogOn(c, st, logs, env) == CreateThreatOn(st, result, "log_based", env);
        CreateThreatWriteOrder(st, result, "log_based", env);
        var mongoId := Decimal.NatToString(|Session.DocumentsOf(st.mongo)|);
        DeriveThreatOfLogResult(env.now, an.value, logs, mongoId, env.rowTime);
        if env.fault == NoFault {
          CreateThreatStoresPair(st, result, "log_based", env, DeriveThreat(result, "log_based", mongoId, env.rowTime).value);
        }
      } else {
        assert ProcessLogOn(c, st, logs, env) == (st, Rejected(result));
      }
    }
  }

  /**
   * `critical_count` is positive exactly when the top label of some log line
   * is CRITICAL, so a log batch becomes a threat because of one such line.
   */
  lemma CriticalCountIffCriticalLine(model: LogAnalyzer.TextClassifier, logs: Value)
    requires LogAnalyzer.AnalysisOf(model, logs).Ok?
    ensures var predictions := LogAnalyzer.Labels(model(logs).value).value;
      (LogAnalyzer.AnalysisOf(model, logs).value.criticalCount > 0
       <==> exists i :: 0 <= i < |predictions| && predictions[i] == "CRITICAL")
  {
    LogAnalyzer.CountPositiveIff(LogAnalyzer.Labels(model(logs).value).value, "CRITICAL");
  }

  /**
   * The rows a log threat gets: the result has no `anomaly_score`,
   * `confidence` or `raw_data`, so severity falls back to 0.9, confidence to
   * 0.8 and both IPs are None.
   */
  lemma LogThreatRecord(c: Collaborators, st: Stores, logs: Value, env: CallEnv, an: LogAnalyzer.SeverityAnalysis)
    requires StoresValid(st) && env.fault == NoFault
    requires LogAnalyzer.AnalysisOf(c.logModel, logs) == Ok(an) && an.criticalCount > 0
    ensures var (st', o) := ProcessLogOn(c, st, logs, env);
      var docs := Session.DocumentsOf(st.mongo);
      && o == Persisted(LogResult(env.now, an, logs), |st.tables.threats| + 1)
      && Session.DocumentsOf(st'.mongo) == docs + [o.result]
      && st'.tables.threats == st.tables.threats +
           [Records.Threat(o.threatId, "log_based", DefaultSeverity, VNone, VNone,
                           env.rowTime, MongoRef(Decimal.NatToString(|docs|)), "detected", DefaultConfidence)]
      && st'.tables.alerts == st.tables.alerts +
           [Records.Alert(|st.tables.alerts| + 1, o.threatId, "log_based_threat",
                          "Potential log_based threat detected", env.rowTime, VDict(o.result), "new")]
  {
    var result := LogResult(env.now, an, logs);
    assert ProcessLogOn(c, st, logs, env) == CreateThreatOn(st, result, "log_based", env);
    var mongoId := Decimal.NatToString(|Session.DocumentsOf(st.mongo)|);
    var threat := Records.Threat(0, "log_based", DefaultSeverity, VNone, VNone,
                                 env.rowTime, MongoRef(mongoId), "detected", DefaultConfidence);
    DeriveThreatOfLogResult(env.now, an, logs, mongoId, env.rowTime);
    CreateThreatStoresPair(st, result, "log_based", env, threat);
    var alert := DeriveAlert(result, "log_based", env.rowTime);
    AlertWording(result, env.rowTime);
    var (st', o) := CreateThreatOn(st, result, "log_based", env);
    assert o == Persisted(result, |st.tables.threats| + 1);
    assert st'.tables == Records.InsertPair(st.tables, threat, alert).0;
    assert st'.tables.threats == st.tables.threats + [threat.(id := o.threatId)];
    assert st'.tables.alerts == st.tables.alerts + [alert.(id := |st.tables.alerts| + 1, threatId := o.threatId)];
  }

  /** Processing a network event keeps both stores valid, only appends, and leaves no new dangling reference. */
  lemma ProcessNetworkKeepsStoresValid(c: Collaborators, st: Stores, data: Document, env: CallEnv)
    requires StoresValid(st)
    ensures StoresValid(ProcessNetworkOn(c, st, data, env).0)
    ensures Grows(st, ProcessNetworkOn(c, st, data, env).0)
    ensures RefsResolve(st) ==> RefsResolve(ProcessNetworkOn(c, st, data, env).0)
  {
    var sc := ScoreEvent(c, data);
    if sc.Ok? && sc.value.anomalyScore > AnomalyThreshold {
      CreateThreatKeepsStoresValid(st, NetworkResult(env.now, sc.value, data), "network_based", env);
    }
  }

  /** Processing a log batch keeps both stores valid, only appends, and leaves no new dangling reference. */
  lemma ProcessLogKeepsStoresValid(c: Collaborators, st: Stores, logs: Value, env: CallEnv)
    requires StoresValid(st)
    ensures StoresValid(ProcessLogOn(c, st, logs, env).0)
    ensures Grows(st, ProcessLogOn(c, st, logs, env).0)
    ensures RefsResolve(st) ==> RefsResolve(ProcessLogOn(c, st, logs, env).0)
  {
    var an := LogAnalyzer.AnalysisOf(c.logModel, logs);
    if an.Ok? && an.value.criticalCount > 0 {
      CreateThreatKeepsStoresValid(st, LogResult(env.now, an.value, logs), "log_based", env);
    }
  }

  /** The pipeline object: its scoring collaborators and the two stores it writes. */
  class ThreatDetectionPipeline {
    const collaborators: Collaborators
    const mongo: Session.MockMongoClient
    const db: Records.ThreatRecordStore

    ghost predicate Valid()
      reads mongo, db
    {
      mongo.Valid() && db.Valid()
    }

    /** The contents of both stores. */
    function State(): Stores
      reads mongo, db
    {
      Stores(mongo.data, db.Contents())
    }

    constructor (collaborators: Collaborators, mongo: Session.MockMongoClient, db: Records.ThreatRecordStore)
      requires mongo.Valid() && db.Valid()
      ensures this.collaborators == collaborators && this.mongo == mongo && this.db == db
      ensures Valid()
    {
      this.collaborators := collaborators;
      this.mongo := mongo;
      this.db := db;
    }

    /** `_create_threat`: the raw document first, then the Threat and its Alert in one commit. */
    method CreateThreat(result: Document, threatType: string, env: CallEnv) returns (outcome: Outcome)
      requires Valid()
      modifies mongo, db
      ensures Valid()
      ensures (State(), outcome) == CreateThreatOn(old(State()), result, threatType, env)
    {
      CreateThreatKeepsStoresValid(State(), result, threatType, env);
      var mongoDb := mongo.GetDefaultDatabase();
      var collection := mongoDb.GetAttribute("raw_data");
      if env.fault == RawStoreDown {
        return Failed(RawStoreError);
      }
      var mongoId := collection.InsertOne(result);
      var threat := DeriveThreat(result, threatType, mongoId, env.rowTime);
      if threat.Err? {
        return Failed(threat.error);
      }
      var alert := DeriveAlert(result, threatType, env.rowTime);
      var threatId := db.AddAndCommit(threat.value, alert, env.fault == CommitRefused);
      if threatId.None? {
        return Failed(CommitError(mongoId));
      }
      outcome := Persisted(result, threatId.value);
    }

    /** `process_network_data`. */
    method ProcessNetworkData(data: Document, env: CallEnv) returns (outcome: Outcome)
      requires Valid()
      modifies mongo, db
      ensures Valid()
      ensures (State(), outcome) == ProcessNetworkOn(collaborators, old(State()), data, env)
    {
      var processed := Preprocessing.PreprocessNetworkData(data);
      if processed.Err? {
        return Failed(processed.error);
      }
      var features := FeatureExtraction.ExtractNetworkFeatures(data, collaborators.fromIsoFormat);
      if features.Err? {
        return Failed(features.error);
      }
      var anomalyScore := collaborators.anomalyScore(features.value);
      if anomalyScore.None? {
        return Failed(ScoringError);
      }
      var trafficType := collaborators.classify(features.value);
      if trafficType.None? {
        return Failed(ScoringError);
      }
      var row := collaborators.classProbabilities(features.value);
      if row.None? || row.value == [] {
        return Failed(ScoringError);
      }
      var result := NetworkResult(env.now, Scores(anomalyScore.value, trafficType.value, MaxOf(row.value)), data);
      if anomalyScore.value > AnomalyThreshold {
        outcome := CreateThreat(result, "network_based", env);
      } else {
        outcome := Rejected(result);
      }
    }

    /** `process_log_data`. */
    method ProcessLogData(logs: Value, env: CallEnv) returns (outcome: Outcome)
      requires Valid()
      modifies mongo, db
      ensures Valid()
      ensures (State(), outcome) == ProcessLogOn(collaborators, old(State()), logs, env)
    {
      var analysis := LogAnalyzer.AnalyzeLogPattern(collaborators.logModel, logs);
      if analysis.Err? {
        return Failed(analysis.error);
      }
      var result := LogResult(env.now, analysis.value, logs);
      if analysis.value.criticalCount > 0 {
        outcome := CreateThreat(result, "log_based", env);
      } else {
        outcome := Rejected(result);
      }
    }
  }
}
