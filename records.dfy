/**
 * The relational side: the `threats` and `alerts` rows (their columns as
 * declared by the ORM models) and a store that commits a Threat with its
 * Alert in one transaction, so that both rows are stored or neither is.
 */
module Records {

  import opened Wrappers
  import opened Values

  /** A row of `threats`; `raw_data` is a JSON column. */
  datatype Threat = Threat(
    id: nat,
    threatType: string,
    severity: real,
    sourceIp: Value,
    destinationIp: Value,
    timestamp: string,
    rawData: Value,
    status: string,
    confidenceScore: real)

  /** A row of `alerts`; `alert_metadata` is a JSON column, `threat_id` the owning threat. */
  datatype Alert = Alert(
    id: nat,
    threatId: nat,
    alertType: string,
    message: string,
    timestamp: string,
    metadata: Value,
    status: string)

  /** The committed contents of both tables. */
  datatype Tables = Tables(threats: seq<Threat>, alerts: seq<Alert>)

  /**
   * Row ids are 1, 2, 3, ... in insertion order, and every alert refers to a
   * threat that exists: no Alert without its Threat.
   */
  ghost predicate Consistent(t: Tables) {
    && (forall i :: 0 <= i < |t.threats| ==> t.threats[i].id == i + 1)
    && (forall i :: 0 <= i < |t.alerts| ==> t.alerts[i].id == i + 1)
    && (forall i :: 0 <= i < |t.alerts| ==> 1 <= t.alerts[i].threatId <= |t.threats|)
  }

  /** Both rows added by one committed transaction; the alert is linked to the new threat's id. */
  function InsertPair(t: Tables, threat: Threat, alert: Alert): (Tables, nat) {
    var threatId := |t.threats| + 1;
    (Tables(t.threats + [threat.(id := threatId)],
            t.alerts + [alert.(id := |t.alerts| + 1, threatId := threatId)]),
     threatId)
  }

  /**
   * `db.add(threat); db.add(alert); db.commit()`, with `rollback()` when the
   * commit fails: the new threat's id, or `None` and the tables unchanged.
   */
  function Commit(t: Tables, threat: Threat, alert: Alert, refused: bool): (Tables, Option<nat>) {
    if refused then (t, None)
    else
      var (t', id) := InsertPair(t, threat, alert);
      (t', Some(id))
  }

  /**
   * The commit is atomic: it either adds exactly the pair, with the alert
   * pointing at the new threat, or leaves both tables as they were; and it
   * keeps the tables consistent.
   */
  lemma CommitIsAtomic(t: Tables, threat: Threat, alert: Alert, refused: bool)
    requires Consistent(t)
    ensures var (t', id) := Commit(t, threat, alert, refused);
      && Consistent(t')
      && (id.None? <==> refused)
      && (id.None? ==> t' == t)
      && (id.Some? ==>
            && t'.threats == t.threats + [threat.(id := id.value)]
            && t'.alerts == t.alerts + [alert.(id := |t.alerts| + 1, threatId := id.value)]
            && |t'.alerts| == |t.alerts| + 1 && t'.alerts[..|t.alerts|] == t.alerts
            && t'.alerts[|t.alerts|].threatId == id.value
            && t'.threats[id.value - 1].id == id.value)
  {
    var (t', id) := Commit(t, threat, alert, refused);
    if !refused {
      assert t'.alerts[..|t.alerts|] == t.alerts;
      forall i | 0 <= i < |t'.alerts| ensures 1 <= t'.alerts[i].threatId <= |t'.threats| {
        if i < |t.alerts| {
          assert t'.alerts[i] == t.alerts[i];
        }
      }
    }
  }

  /**
   * The commit as the source writes it: `await db.commit()` on a synchronous
   * session runs the commit, gets `None` back and then raises `TypeError`
   * (`None` cannot be awaited); the `rollback()` in the handler comes after
   * the commit and raises the same way. The result is whether the call raised.
   */
  function CommitAsWritten(t: Tables, threat: Threat, alert: Alert, refused: bool): (Tables, bool) {
    if refused then (t, true)
    else (InsertPair(t, threat, alert).0, true)
  }

  /** As written, every commit raises, also the one that stored the pair. */
  lemma CommitAsWrittenRaisesAfterStoring(t: Tables, threat: Threat, alert: Alert)
    ensures CommitAsWritten(t, threat, alert, false).1
    ensures |CommitAsWritten(t, threat, alert, false).0.threats| == |t.threats| + 1
  {
  }

  /** The store holding the committed rows. */
  class ThreatRecordStore {
    var threats: seq<Threat>
    var alerts: seq<Alert>

    ghost predicate Valid()
      reads this
    {
      Consistent(Tables(threats, alerts))
    }

    function Contents(): Tables
      reads this
    {
      Tables(threats, alerts)
    }

    constructor ()
      ensures Valid() && threats == [] && alerts == []
    {
      threats, alerts := [], [];
    }

    /** Adds the pair and commits; a refused commit is rolled back and stores nothing. */
    method AddAndCommit(threat: Threat, alert: Alert, refused: bool) returns (threatId: Option<nat>)
      requires Valid()
      modifies this
      ensures Valid()
      ensures (Contents(), threatId) == Commit(old(Contents()), threat, alert, refused)
    {
      CommitIsAtomic(Contents(), threat, alert, refused);
      if refused {
        return None;
      }
      var id := |threats| + 1;
      threats, alerts := threats + [threat.(id := id)], alerts + [alert.(id := |alerts| + 1, threatId := id)];
      threatId := Some(id);
    }
  }
}
