/**
 * `FeatureExtractor`: the network vector (basic counters, then hour, minute
 * and weekday when a timestamp is given), the log vector (severity ordinal,
 * then the message's text embedding) and the concatenation of vectors.
 */
module FeatureExtraction {

  import opened Wrappers
  import opened Values

  /** The parts of a parsed timestamp the extractor reads: `dt.hour`, `dt.minute`, `dt.weekday()`. */
  datatype TimeParts = TimeParts(hour: nat, minute: nat, weekday: nat)

  /** A time of the week as `datetime` represents it: weekday 0 is Monday. */
  type Clock = t: TimeParts | t.hour < 24 && t.minute < 60 && t.weekday < 7 witness TimeParts(0, 0, 0)

  /** `datetime.fromisoformat`: the parsed time, or `None` where it raises `ValueError`. */
  type IsoParser = string -> Option<Clock>

  /** The text embedding `fit_transform` gives a message, or `None` where it raises. */
  type TextVectorizer = Value -> Option<seq<real>>

  /** bytes_sent, bytes_received, duration, protocol_type, each `0` when absent. */
  function BasicFeatures(d: Document): seq<Value> {
    [ Get(d, "bytes_sent", VInt(0)), Get(d, "bytes_received", VInt(0))
    , Get(d, "duration", VInt(0)), Get(d, "protocol_type", VInt(0)) ]
  }

  /**
   * The time components: none when `timestamp` is absent or falsy; hour,
   * minute, weekday when it parses; `fromisoformat` raises on a non-string
   * (`TypeError`) and on text it cannot parse (`ValueError`).
   */
  function TimeFeatures(d: Document, fromIsoFormat: IsoParser): Result<seq<Value>> {
    var ts := Get(d, "timestamp", VNone);
    if !Truthy(ts) then Ok([])
    else if !ts.VStr? then Err(ValidationError)
    else
      match fromIsoFormat(ts.s)
      case None => Err(ValidationError)
      case Some(c) => Ok([VInt(c.hour), VInt(c.minute), VInt(c.weekday)])
  }

  /** The network feature vector `extract_network_features` returns. */
  function NetworkFeatures(d: Document, fromIsoFormat: IsoParser): (r: Result<seq<Value>>)
    ensures r.Ok? ==> |r.value| == if Truthy(Get(d, "timestamp", VNone)) then 7 else 4
    ensures r.Ok? ==> r.value[..4] == BasicFeatures(d)
    ensures r.Err? ==> r.error == ValidationError
  {
    match TimeFeatures(d, fromIsoFormat)
    case Err(e) => Err(e)
    case Ok(time) => Ok(BasicFeatures(d) + time)
  }

  /**
   * `extract_network_features`: the four basic counters in order, each
   * defaulting to 0, followed by hour, minute and weekday exactly when the
   * timestamp is present and non-empty; a timestamp `fromisoformat` rejects
   * raises.
   */
  method ExtractNetworkFeatures(d: Document, fromIsoFormat: IsoParser) returns (r: Result<seq<Value>>)
    ensures r == NetworkFeatures(d, fromIsoFormat)
    ensures r.Err? <==>
      Truthy(Get(d, "timestamp", VNone))
      && (!Get(d, "timestamp", VNone).VStr? || fromIsoFormat(Get(d, "timestamp", VNone).s).None?)
    ensures r.Ok? ==> |r.value| == (if Truthy(Get(d, "timestamp", VNone)) then 7 else 4)
    ensures r.Ok? ==>
      && r.value[0] == Get(d, "bytes_sent", VInt(0))
      && r.value[1] == Get(d, "bytes_received", VInt(0))
      && r.value[2] == Get(d, "duration", VInt(0))
      && r.value[3] == Get(d, "protocol_type", VInt(0))
    ensures r.Ok? && |r.value| == 7 ==>
      var c := fromIsoFormat(d["timestamp"].s).value;
      r.value[4..] == [VInt(c.hour), VInt(c.minute), VInt(c.weekday)]
  {
    var features: seq<Value> := [];
    features := features + [ Get(d, "bytes_sent", VInt(0)), Get(d, "bytes_received", VInt(0))
                           , Get(d, "duration", VInt(0)), Get(d, "protocol_type", VInt(0)) ];
    assert features == BasicFeatures(d);
    var timestamp := Get(d, "timestamp", VNone);
    if Truthy(timestamp) {
      if !timestamp.VStr? {
        return Err(ValidationError);
      }
      var dt := fromIsoFormat(timestamp.s);
      if dt.None? {
        return Err(ValidationError);
      }
      features := features + [VInt(dt.value.hour), VInt(dt.value.minute), VInt(dt.value.weekday)];
      assert TimeFeatures(d, fromIsoFormat) == Ok(features[4..]);
    } else {
      assert features == features + [];
    }
    r := Ok(features);
  }

  /** packet_count and port_number never reach the network vector. */
  lemma NetworkFeaturesIgnoreUnusedCounters(d: Document, packets: Value, port: Value, fromIsoFormat: IsoParser)
    ensures NetworkFeatures(d["packet_count" := packets]["port_number" := port], fromIsoFormat)
         == NetworkFeatures(d, fromIsoFormat)
  {
  }

  /** Every time component lies in its range: hour 0-23, minute 0-59, weekday 0-6. */
  lemma TimeFeaturesInRange(d: Document, fromIsoFormat: IsoParser)
    requires NetworkFeatures(d, fromIsoFormat).Ok?
    requires |NetworkFeatures(d, fromIsoFormat).value| == 7
    ensures var v := NetworkFeatures(d, fromIsoFormat).value;
      && v[4].VInt? && 0 <= v[4].i < 24
      && v[5].VInt? && 0 <= v[5].i < 60
      && v[6].VInt? && 0 <= v[6].i < 7
  {
  }

  /** `severity_map`. */
  const SeverityOrdinals: map<string, nat> := map["INFO" := 0, "WARNING" := 1, "ERROR" := 2, "CRITICAL" := 3]

  /**
   * `severity_map.get(log_data.get('severity', 'INFO'), 0)`: the ordinal of a
   * known label, 0 for a missing or unknown one; a list or dict is unhashable
   * and raises `TypeError`.
   */
  function SeverityOrdinal(d: Document): (r: Result<nat>)
    ensures r.Ok? ==> r.value <= 3
    ensures "severity" !in d ==> r == Ok(0)
    ensures "severity" in d && d["severity"].VStr? && d["severity"].s in SeverityOrdinals
            ==> r == Ok(SeverityOrdinals[d["severity"].s])
    ensures ("severity" in d && !d["severity"].VList? && !d["severity"].VDict?
             && !(d["severity"].VStr? && d["severity"].s in SeverityOrdinals)) ==> r == Ok(0)
    ensures r.Err? <==> "severity" in d && (d["severity"].VList? || d["severity"].VDict?)
  {
    var severity := Get(d, "severity", VStr("INFO"));
    if severity.VList? || severity.VDict? then Err(ValidationError)
    else if severity.VStr? && severity.s in SeverityOrdinals then Ok(SeverityOrdinals[severity.s])
    else Ok(0)
  }

  /** The log feature vector `extract_log_features` returns. */
  function LogFeatures(d: Document, vectorize: TextVectorizer): Result<seq<real>> {
    match SeverityOrdinal(d)
    case Err(e) => Err(e)
    case Ok(ordinal) =>
      if "message" !in d then Ok([ordinal as real])
      else
        match vectorize(d["message"])
        case None => Err(ValidationError)
        case Some(embedding) => Ok([ordinal as real] + embedding)
  }

  /**
   * `extract_log_features`: the severity ordinal first, then the message's
   * embedding when there is a `message`; without one the vector has exactly
   * one entry.
   */
  method ExtractLogFeatures(d: Document, vectorize: TextVectorizer) returns (r: Result<seq<real>>)
    ensures r == LogFeatures(d, vectorize)
    ensures r.Ok? ==> |r.value| >= 1 && r.value[0] == SeverityOrdinal(d).value as real
    ensures r.Ok? && "message" !in d ==> |r.value| == 1
    ensures r.Ok? && "message" in d ==> r.value[1..] == vectorize(d["message"]).value
  {
    var features: seq<real> := [];
    var ordinal := SeverityOrdinal(d);
    if ordinal.Err? {
      return Err(ordinal.error);
    }
    features := features + [ordinal.value as real];
    assert features == [ordinal.value as real];
    if "message" in d {
      var embedding := vectorize(d["message"]);
      if embedding.None? {
        return Err(ValidationError);
      }
      features := features + embedding.value;
    }
    r := Ok(features);
  }

  function Flatten<T>(parts: seq<seq<T>>): seq<T> {
    if parts == [] then [] else parts[0] + Flatten(parts[1..])
  }

  function TotalLength<T>(parts: seq<seq<T>>): nat {
    if parts == [] then 0 else |parts[0]| + TotalLength(parts[1..])
  }

  /**
   * `combine_features` (`np.concatenate`): the vectors one after the other;
   * an empty list raises `ValueError`.
   */
  function CombineFeatures<T>(parts: seq<seq<T>>): (r: Result<seq<T>>)
    ensures r.Err? <==> parts == []
    ensures r.Ok? ==> |r.value| == TotalLength(parts)
  {
    if parts == [] then Err(ValidationError)
    else
      FlattenLength(parts);
      Ok(Flatten(parts))
  }

  lemma {:induction false} FlattenLength<T>(parts: seq<seq<T>>)
    ensures |Flatten(parts)| == TotalLength(parts)
  {
    if parts != [] {
      FlattenLength(parts[1..]);
    }
  }

  /** Order is preserved: entry `j` of vector `i` sits after all entries of the vectors before it. */
  lemma {:induction false} CombineFeaturesKeepsOrder<T>(parts: seq<seq<T>>, i: nat, j: nat)
    requires i < |parts| && j < |parts[i]|
    ensures CombineFeatures(parts).Ok?
    ensures TotalLength(parts[..i]) + j < |CombineFeatures(parts).value|
    ensures CombineFeatures(parts).value[TotalLength(parts[..i]) + j] == parts[i][j]
  {
    FlattenLength(parts);
    FlattenLength(parts[1..]);
    if i > 0 {
      CombineFeaturesKeepsOrder(parts[1..], i - 1, j);
      assert parts[1..][..i - 1] == parts[..i][1..];
      assert TotalLength(parts[..i]) == |parts[0]| + TotalLength(parts[1..][..i - 1]);
    }
  }
}
