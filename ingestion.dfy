/**
 * The ingestion endpoints: one network event, one log batch, and a batch
 * request that runs its network items in order and then its logs, stopping
 * at the first item that raises. Every exception becomes an HTTP 500; writes
 * made by earlier items stay in the stores.
 */
module Ingestion {

  import opened Values
  import Pipeline

  /** The endpoint's answer: the JSON body, or an `HTTPException` with its status code, detail prefix and cause. */
  datatype Response = Json(body: Document) | HttpException(statusCode: nat, detail: string, cause: Error)

  const NetworkError: string := "Error processing network data"
  const LogError: string := "Error processing log data"
  const BatchError: string := "Error processing batch data"

  /** `{"status": "success", "message": message, key: payload}`. */
  function SuccessBody(message: string, key: string, payload: Value): Document {
    map["status" := VStr("success"), "message" := VStr(message), key := payload]
  }

  /** The list of result dicts a batch answers with. */
  function ResultList(results: seq<Document>): (v: Value)
    ensures v.VList? && |v.items| == |results|
  {
    VList(seq(|results|, i requires 0 <= i < |results| => VDict(results[i])))
  }

  /** A pipeline outcome as an endpoint answers it: the result under `"result"`, or a 500. */
  function Wrap(o: Pipeline.Outcome, message: string, error: string): Response {
    if o.Failed? then HttpException(500, error, o.error)
    else Json(SuccessBody(message, "result", VDict(o.result)))
  }

  /** `ingest_network_data`. */
  function IngestNetworkOn(c: Pipeline.Collaborators, st: Pipeline.Stores, data: Document, env: Pipeline.CallEnv)
    : (Response, Pipeline.Stores)
  {
    var (st', o) := Pipeline.ProcessNetworkOn(c, st, data, env);
    (Wrap(o, "Network data processed successfully", NetworkError), st')
  }

  /** A `List[str]` request body as a value. */
  function LogsValue(logs: seq<string>): Value {
    VList(seq(|logs|, i requires 0 <= i < |logs| => VStr(logs[i])))
  }

  /** `ingest_logs`. */
  function IngestLogsOn(c: Pipeline.Collaborators, st: Pipeline.Stores, logs: seq<string>, env: Pipeline.CallEnv)
    : (Response, Pipeline.Stores)
  {
    var (st', o) := Pipeline.ProcessLogOn(c, st, LogsValue(logs), env);
    (Wrap(o, "Log data processed successfully", LogError), st')
  }

  /**
   * Both single-event endpoints answer "success" with the pipeline's result
   * unchanged under `"result"` exactly when the pipeline returns, and a 500
   * carrying the pipeline's error otherwise; the stores end as the pipeline
   * leaves them.
   */
  lemma SingleEndpointsWrapResult(c: Pipeline.Collaborators, st: Pipeline.Stores, data: Document,
                                  logs: seq<string>, env: Pipeline.CallEnv)
    ensures var (resp, st') := IngestNetworkOn(c, st, data, env);
      var (pst, o) := Pipeline.ProcessNetworkOn(c, st, data, env);
      && st' == pst
      && (resp.Json? <==> !o.Failed?)
      && (resp.Json? ==> resp.body["status"] == VStr("success") && resp.body["result"] == VDict(o.result))
      && (resp.HttpException? ==> resp.statusCode == 500 && resp.cause == o.error)
    ensures var (resp, st') := IngestLogsOn(c, st, logs, env);
      var (pst, o) := Pipeline.ProcessLogOn(c, st, LogsValue(logs), env);
      && st' == pst
      && (resp.Json? <==> !o.Failed?)
      && (resp.Json? ==> resp.body["status"] == VStr("success") && resp.body["result"] == VDict(o.result))
      && (resp.HttpException? ==> resp.statusCode == 500 && resp.cause == o.error)
  {
    assert "result" != "status" && "result" != "message";
  }

  /**
   * `for item in data["network_data"]`: a list yields its items, a string its
   * characters; a dict yields its keys, and since every key is a string, which
   * `process_network_data` rejects before touching a store, a non-empty dict
   * is modelled as failing at once. Anything else is not iterable.
   */
  function Iterate(v: Value): Result<seq<Value>> {
    match v
    case VList(items) => Ok(items)
    case VStr(s) => Ok(seq(|s|, i requires 0 <= i < |s| => VStr([s[i]])))
    case VDict(fields) => if fields == map[] then Ok([]) else Err(ValidationError)
    case _ => Err(ValidationError)
  }

  /** `process_network_data(item)`: an item that is not a dict raises before touching a store. */
  function ProcessItemOn(c: Pipeline.Collaborators, st: Pipeline.Stores, item: Value, env: Pipeline.CallEnv)
    : (Pipeline.Stores, Pipeline.Outcome)
  {
    if item.VDict? then Pipeline.ProcessNetworkOn(c, st, item.fields, env)
    else (st, Pipeline.Failed(ValidationError))
  }

  /** The state of the batch loop: still running with the results so far, or stopped by an exception. */
  datatype Run = Running(stores: Pipeline.Stores, results: seq<Document>) | Stopped(stores: Pipeline.Stores, error: Error)

  /** The batch loop over the network items; call `k` sees `env(k)`. */
  function RunItems(c: Pipeline.Collaborators, st: Pipeline.Stores, items: seq<Value>, env: nat -> Pipeline.CallEnv): Run {
    if items == [] then Running(st, [])
    else
      match RunItems(c, st, items[..|items| - 1], env)
      case Stopped(st', e) => Stopped(st', e)
      case Running(st', results) =>
        var (st'', o) := ProcessItemOn(c, st', items[|items| - 1], env(|items| - 1));
        if o.Failed? then Stopped(st'', o.error) else Running(st'', results + [o.result])
  }

  /** The network items of a batch request: none when the key is absent. */
  function NetworkItems(data: Document): Result<seq<Value>> {
    if "network_data" in data then Iterate(data["network_data"]) else Ok([])
  }

  /** `ingest_batch_data`: the network items in order, then the logs as one more call. */
  function BatchOn(c: Pipeline.Collaborators, st: Pipeline.Stores, data: Document, env: nat -> Pipeline.CallEnv)
    : (Response, Pipeline.Stores)
  {
    match NetworkItems(data)
    case Err(e) => (HttpException(500, BatchError, e), st)
    case Ok(items) =>
      match RunItems(c, st, items, env)
      case Stopped(st', e) => (HttpException(500, BatchError, e), st')
      case Running(st', results) =>
        if "logs" in data then
          var (st'', o) := Pipeline.ProcessLogOn(c, st', data["logs"], env(|items|));
          if o.Failed? then (HttpException(500, BatchError, o.error), st'')
          else (Json(SuccessBody("Batch data processed successfully", "results", ResultList(results + [o.result]))), st'')
        else (Json(SuccessBody("Batch data processed successfully", "results", ResultList(results))), st')
  }

  /** Once an item has raised, no later item changes the outcome or the stores. */
  lemma {:induction false} StoppedStaysStopped(c: Pipeline.Collaborators, st: Pipeline.Stores, items: seq<Value>,
                                               k: nat, env: nat -> Pipeline.CallEnv)
    requires k <= |items| && RunItems(c, st, items[..k], env).Stopped?
    ensures RunItems(c, st, items, env) == RunItems(c, st, items[..k], env)
    decreases |items| - k
  {
    if k < |items| {
      var next := items[..k + 1];
      assert next[..|next| - 1] == items[..k];
      StoppedStaysStopped(c, st, items, k + 1, env);
    } else {
      assert items[..k] == items;
    }
  }

  /**
   * A loop that did not stop produced one result per item, in input order:
   * result `k` is what item `k` returned in the stores the items before it
   * left.
   */
  lemma {:induction false} RunItemsInOrder(c: Pipeline.Collaborators, st: Pipeline.Stores, items: seq<Value>,
                                           env: nat -> Pipeline.CallEnv)
    requires RunItems(c, st, items, env).Running?
    ensures |RunItems(c, st, items, env).results| == |items|
    ensures forall k :: 0 <= k < |items| ==>
      RunItems(c, st, items[..k], env).Running? &&
      var o := ProcessItemOn(c, RunItems(c, st, items[..k], env).stores, items[k], env(k)).1;
      !o.Failed? && RunItems(c, st, items, env).results[k] == o.result
  {
    if items != [] {
      var prefix := items[..|items| - 1];
      RunItemsInOrder(c, st, prefix, env);
      forall k | 0 <= k < |items|
        ensures RunItems(c, st, items[..k], env).Running? &&
          var o := ProcessItemOn(c, RunItems(c, st, items[..k], env).stores, items[k], env(k)).1;
          !o.Failed? && RunItems(c, st, items, env).results[k] == o.result
      {
        if k < |prefix| {
          assert prefix[..k] == items[..k];
          assert prefix[k] == items[k];
        } else {
          assert items[..k] == prefix;
        }
      }
    }
  }

  /**
   * A loop that stopped stopped at some item `j`: every item before it ran to
   * completion, item `j` raised with the loop's error, and the stores are
   * exactly as item `j` left them, so no later item ran.
   */
  lemma {:induction false} RunItemsStopsAtFirstFailure(c: Pipeline.Collaborators, st: Pipeline.Stores, items: seq<Value>,
                                                       env: nat -> Pipeline.CallEnv)
    requires RunItems(c, st, items, env).Stopped?
    ensures exists j ::
              && 0 <= j < |items| && RunItems(c, st, items[..j], env).Running?
              && var (st', o) := ProcessItemOn(c, RunItems(c, st, items[..j], env).stores, items[j], env(j));
                 o == Pipeline.Failed(RunItems(c, st, items, env).error) && st' == RunItems(c, st, items, env).stores
  {
    var prefix := items[..|items| - 1];
    if RunItems(c, st, prefix, env).Stopped? {
      RunItemsStopsAtFirstFailure(c, st, prefix, env);
      var j :| 0 <= j < |prefix| && RunItems(c, st, prefix[..j], env).Running? &&
        var (st', o) := ProcessItemOn(c, RunItems(c, st, prefix[..j], env).stores, prefix[j], env(j));
        && o == Pipeline.Failed(RunItems(c, st, prefix, env).error)
        && st' == RunItems(c, st, prefix, env).stores;
      assert prefix[..j] == items[..j] && prefix[j] == items[j];
    } else {
      assert items[..|items| - 1] == prefix;
    }
  }

  /**
   * Earlier writes are never undone: the loop keeps the stores valid, only
   * appends to them and leaves no new dangling reference.
   */
  lemma {:induction false} RunItemsOnlyAppends(c: Pipeline.Collaborators, st: Pipeline.Stores, items: seq<Value>,
                                               env: nat -> Pipeline.CallEnv)
    requires Pipeline.StoresValid(st)
    ensures Pipeline.StoresValid(RunItems(c, st, items, env).stores)
    ensures Pipeline.Grows(st, RunItems(c, st, items, env).stores)
    ensures Pipeline.RefsResolve(st) ==> Pipeline.RefsResolve(RunItems(c, st, items, env).stores)
  {
    if items != [] {
      var prefix := items[..|items| - 1];
      RunItemsOnlyAppends(c, st, prefix, env);
      var run := RunItems(c, st, prefix, env);
      if run.Running? {
        var item := items[|items| - 1];
        if item.VDict? {
          Pipeline.ProcessNetworkKeepsStoresValid(c, run.stores, item.fields, env(|items| - 1));
          Pipeline.GrowsTransitive(st, run.stores, ProcessItemOn(c, run.stores, item, env(|items| - 1)).0);
        }
      }
    }
  }

  /**
   * What a successful batch answers: one result per network item, in input
   * order, then exactly one for the logs when `logs` is present, processed
   * after every network item; with neither key the answer is "success" with
   * no results and nothing is stored.
   */
  lemma BatchResults(c: Pipeline.Collaborators, st: Pipeline.Stores, data: Document, env: nat -> Pipeline.CallEnv)
    ensures var (resp, st') := BatchOn(c, st, data, env);
      && ("network_data" !in data && "logs" !in data ==>
            resp == Json(SuccessBody("Batch data processed successfully", "results", VList([]))) && st' == st)
      && (resp.Json? ==>
            var items := NetworkItems(data).value;
            var run := RunItems(c, st, items, env);
            && NetworkItems(data).Ok? && run.Running?
            && resp.body["status"] == VStr("success")
            && resp.body["results"].VList?
            && |resp.body["results"].items| == |items| + (if "logs" in data then 1 else 0)
            && (forall k :: 0 <= k < |items| ==> resp.body["results"].items[k] == VDict(run.results[k]))
            && ("logs" in data ==>
                  resp.body["results"].items[|items|]
                  == VDict(Pipeline.ProcessLogOn(c, run.stores, data["logs"], env(|items|)).1.result)))
  {
    var (resp, st') := BatchOn(c, st, data, env);
    if "network_data" !in data && "logs" !in data {
      assert ResultList([]) == VList([]);
    }
    if resp.Json? {
      var items := NetworkItems(data).value;
      var run := RunItems(c, st, items, env);
      RunItemsInOrder(c, st, items, env);
      assert "results" != "status";
    }
  }

  /**
   * The first failing network item ends the batch with a 500 carrying its
   * error; every item before it completed, and the stores are exactly as that
   * item left them: no later item and no log batch ran, and nothing earlier
   * was undone.
   */
  lemma BatchStopsAtFirstFailure(c: Pipeline.Collaborators, st: Pipeline.Stores, data: Document, env: nat -> Pipeline.CallEnv)
    requires NetworkItems(data).Ok? && RunItems(c, st, NetworkItems(data).value, env).Stopped?
    ensures var (resp, st') := BatchOn(c, st, data, env);
      var items := NetworkItems(data).value;
      && resp == HttpException(500, BatchError, RunItems(c, st, items, env).error)
      && exists j :: 0 <= j < |items| && RunItems(c, st, items[..j], env).Running? &&
           var (sj, o) := ProcessItemOn(c, RunItems(c, st, items[..j], env).stores, items[j], env(j));
           o.Failed? && st' == sj
  {
    RunItemsStopsAtFirstFailure(c, st, NetworkItems(data).value, env);
  }

  /** Whatever the batch answers, the stores stay valid, keep everything stored before it and gain no dangling reference. */
  lemma BatchOnlyAppends(c: Pipeline.Collaborators, st: Pipeline.Stores, data: Document, env: nat -> Pipeline.CallEnv)
    requires Pipeline.StoresValid(st)
    ensures Pipeline.StoresValid(BatchOn(c, st, data, env).1)
    ensures Pipeline.Grows(st, BatchOn(c, st, data, env).1)
    ensures Pipeline.RefsResolve(st) ==> Pipeline.RefsResolve(BatchOn(c, st, data, env).1)
  {
    if NetworkItems(data).Ok? {
      var items := NetworkItems(data).value;
      RunItemsOnlyAppends(c, st, items, env);
      var run := RunItems(c, st, items, env);
      if run.Running? && "logs" in data {
        Pipeline.ProcessLogKeepsStoresValid(c, run.stores, data["logs"], env(|items|));
        Pipeline.GrowsTransitive(st, run.stores, Pipeline.ProcessLogOn(c, run.stores, data["logs"], env(|items|)).0);
      }
    }
  }

  /** `ingest_network_data`. */
  method IngestNetworkData(p: Pipeline.ThreatDetectionPipeline, data: Document, env: Pipeline.CallEnv)
    returns (resp: Response)
    requires p.Valid()
    modifies p.mongo, p.db
    ensures p.Valid()
    ensures (resp, p.State()) == IngestNetworkOn(p.collaborators, old(p.State()), data, env)
  {
    var outcome := p.ProcessNetworkData(data, env);
    if outcome.Failed? {
      return HttpException(500, NetworkError, outcome.error);
    }
    resp := Json(SuccessBody("Network data processed successfully", "result", VDict(outcome.result)));
  }

  /** `ingest_logs`. */
  method IngestLogs(p: Pipeline.ThreatDetectionPipeline, logs: seq<string>, env: Pipeline.CallEnv)
    returns (resp: Response)
    requires p.Valid()
    modifies p.mongo, p.db
    ensures p.Valid()
    ensures (resp, p.State()) == IngestLogsOn(p.collaborators, old(p.State()), logs, env)
  {
    var outcome := p.ProcessLogData(LogsValue(logs), env);
    if outcome.Failed? {
      return HttpException(500, LogError, outcome.error);
    }
    resp := Json(SuccessBody("Log data processed successfully", "result", VDict(outcome.result)));
  }

  /** The `for item in data["network_data"]` loop: each item in order, stopping at the first that raises. */
  method RunNetworkItems(p: Pipeline.ThreatDetectionPipeline, items: seq<Value>, env: nat -> Pipeline.CallEnv)
    returns (run: Run)
    requires p.Valid()
    modifies p.mongo, p.db
    ensures p.Valid()
    ensures run == RunItems(p.collaborators, old(p.State()), items, env)
    ensures run.stores == p.State()
  {
    var results: seq<Document> := [];
    for k := 0 to |items|
      invariant p.Valid()
      invariant RunItems(p.collaborators, old(p.State()), items[..k], env) == Running(p.State(), results)
    {
      var item := items[k];
      var outcome;
      if item.VDict? {
        outcome := p.ProcessNetworkData(item.fields, env(k));
      } else {
        outcome := Pipeline.Failed(ValidationError);
      }
      assert items[..k + 1][..k] == items[..k];
      if outcome.Failed? {
        StoppedStaysStopped(p.collaborators, old(p.State()), items, k + 1, env);
        return Stopped(p.State(), outcome.error);
      }
      results := results + [outcome.result];
    }
    assert items[..|items|] == items;
    run := Running(p.State(), results);
  }

  /** `ingest_batch_data`: call `k` of the pipeline sees `env(k)`. */
  method IngestBatchData(p: Pipeline.ThreatDetectionPipeline, data: Document, env: nat -> Pipeline.CallEnv)
    returns (resp: Response)
    requires p.Valid()
    modifies p.mongo, p.db
    ensures p.Valid()
    ensures (resp, p.State()) == BatchOn(p.collaborators, old(p.State()), data, env)
  {
    var items: seq<Value> := [];
    if "network_data" in data {
      var iterated := Iterate(data["network_data"]);
      if iterated.Err? {
        return HttpException(500, BatchError, iterated.error);
      }
      items := iterated.value;
    }
    var run := RunNetworkItems(p, items, env);
    if run.Stopped? {
      return HttpException(500, BatchError, run.error);
    }
    var results := run.results;
    if "logs" in data {
      var outcome := p.ProcessLogData(data["logs"], env(|items|));
      if outcome.Failed? {
        return HttpException(500, BatchError, outcome.error);
      }
      results := results + [outcome.result];
    }
    resp := Json(SuccessBody("Batch data processed successfully", "results", ResultList(results)));
  }
}
