/**
  The learning-integrity alert panel of the dashboard: a list of alerts in
  component state, from which "dismiss" and "resolve" remove an alert by id,
  and a badge counting what is left.
 */
module IntegrityAlerts {
  import opened Seqs
  import opened Strings
  import opened Ui

  datatype Severity = Warning | Error

  /** An alert; its icon is presentation only and is not kept. */
  datatype Alert = Alert(id: int, severity: Severity, message: string, timestamp: string)

  const InitialAlerts: seq<Alert> := [
    Alert(1, Warning, "Low engagement in last assessment", "2 hours ago"),
    Alert(2, Error, "Plagiarism risk detected in assignment", "5 hours ago"),
    Alert(3, Warning, "Skill mismatch between resume and assessments", "1 day ago")
  ]

  /** No two alerts share an id. */
  ghost predicate DistinctIds(alerts: seq<Alert>)
  {
    forall i, j :: 0 <= i < j < |alerts| ==> alerts[i].id != alerts[j].id
  }

  function HasOtherId(id: int): Alert -> bool
  {
    (a: Alert) => a.id != id
  }

  /** `prev.filter((a) => a.id !== id)` */
  function Without(alerts: seq<Alert>, id: int): seq<Alert>
  {
    Filter(alerts, HasOtherId(id))
  }

  /** Removal keeps the other alerts in order, keeps none with the id, and drops none without it. */
  lemma WithoutSpec(alerts: seq<Alert>, id: int)
    ensures IsSubseq(Without(alerts, id), alerts)
    ensures forall i :: 0 <= i < |Without(alerts, id)| ==> Without(alerts, id)[i].id != id
    ensures forall i :: 0 <= i < |alerts| && alerts[i].id != id ==> alerts[i] in Without(alerts, id)
  {
    FilterIsSubseq(alerts, HasOtherId(id));
  }

  /** Removing an id that no alert carries leaves the list unchanged. */
  lemma WithoutAbsent(alerts: seq<Alert>, id: int)
    requires forall i :: 0 <= i < |alerts| ==> alerts[i].id != id
    ensures Without(alerts, id) == alerts
  {
    FilterAll(alerts, HasOtherId(id));
  }

  /** Removing the same id twice is removing it once. */
  lemma WithoutIdempotent(alerts: seq<Alert>, id: int)
    ensures Without(Without(alerts, id), id) == Without(alerts, id)
  {
    FilterIdempotent(alerts, HasOtherId(id));
  }

  /** With the id of the alert at `k` carried by no other alert, removing it cuts out exactly that alert. */
  lemma {:induction false} WithoutAt(alerts: seq<Alert>, k: nat)
    requires k < |alerts|
    requires forall i :: 0 <= i < |alerts| && i != k ==> alerts[i].id != alerts[k].id
    ensures Without(alerts, alerts[k].id) == alerts[..k] + alerts[k + 1..]
    decreases |alerts|
  {
    var id := alerts[k].id;
    var tail := alerts[1..];
    if k == 0 {
      forall i | 0 <= i < |tail|
        ensures tail[i].id != id
      {
        assert tail[i] == alerts[i + 1];
      }
      WithoutAbsent(tail, id);
      assert Without(alerts, id) == Without(tail, id);
      assert alerts[k + 1..] == tail;
    } else {
      assert tail[k - 1] == alerts[k];
      forall i | 0 <= i < |tail| && i != k - 1
        ensures tail[i].id != id
      {
        assert tail[i] == alerts[i + 1];
      }
      WithoutAt(tail, k - 1);
      assert alerts[0].id != id;
      assert Without(alerts, id) == [alerts[0]] + Without(tail, id);
      assert alerts[..k] == [alerts[0]] + tail[..k - 1];
      assert alerts[k + 1..] == tail[k..];
    }
  }

  /** Removing by id keeps the ids distinct. */
  lemma {:induction false} WithoutDistinct(alerts: seq<Alert>, id: int)
    requires DistinctIds(alerts)
    ensures DistinctIds(Without(alerts, id))
    decreases |alerts|
  {
    if alerts != [] {
      WithoutDistinct(alerts[1..], id);
      var rest := Without(alerts[1..], id);
      if alerts[0].id != id {
        assert Without(alerts, id) == [alerts[0]] + rest;
        forall j | 0 <= j < |rest|
          ensures alerts[0].id != rest[j].id
        {
          var m :| 0 <= m < |alerts[1..]| && alerts[1..][m] == rest[j];
          assert alerts[m + 1] == rest[j];
        }
      } else {
        assert Without(alerts, id) == rest;
      }
    }
  }

  lemma InitialDistinct()
    ensures DistinctIds(InitialAlerts)
  {
  }

  /** The badge text: the count, then "alert", pluralised unless the count is one. */
  function Badge(n: nat): (r: string)
    ensures r == NatToString(n) + " alert" || r == NatToString(n) + " alerts"
    ensures r[|r| - 1] == 's' <==> n != 1
  {
    NatToString(n) + " alert" + (if n != 1 then "s" else "")
  }

  /** The alert list held by the panel. */
  class AlertPanel {
    var alerts: seq<Alert>

    ghost predicate Valid()
      reads this
    {
      DistinctIds(alerts)
    }

    /** The panel starts with the three initial alerts. */
    constructor ()
      ensures alerts == InitialAlerts
      ensures Valid()
    {
      alerts := InitialAlerts;
      InitialDistinct();
    }

    /** The panel shows "All clear!" exactly when no alert is left. */
    predicate AllClear()
      reads this
    {
      |alerts| == 0
    }

    function BadgeText(): string
      reads this
    {
      Badge(|alerts|)
    }

    /** Removes the alert with `id` and reports the dismissal. */
    method DismissAlert(id: int) returns (toast: Toast)
      requires Valid()
      modifies this
      ensures Valid()
      ensures alerts == Without(old(alerts), id)
      ensures (exists k :: 0 <= k < |old(alerts)| && old(alerts)[k].id == id) ==> |alerts| == |old(alerts)| - 1
      ensures (forall k :: 0 <= k < |old(alerts)| ==> old(alerts)[k].id != id) ==> alerts == old(alerts)
      ensures toast == Toast("Alert dismissed", "The alert has been resolved.", false)
    {
      Remove(id);
      toast := Toast("Alert dismissed", "The alert has been resolved.", false);
    }

    /** Same effect on the list as dismissing; only the toast differs. */
    method ResolveAlert(id: int) returns (toast: Toast)
      requires Valid()
      modifies this
      ensures Valid()
      ensures alerts == Without(old(alerts), id)
      ensures (exists k :: 0 <= k < |old(alerts)| && old(alerts)[k].id == id) ==> |alerts| == |old(alerts)| - 1
      ensures (forall k :: 0 <= k < |old(alerts)| ==> old(alerts)[k].id != id) ==> alerts == old(alerts)
      ensures toast == Toast("Alert resolved", "Marked as resolved.", false)
    {
      Remove(id);
      toast := Toast("Alert resolved", "Marked as resolved.", false);
    }

    /** The state update both handlers share. */
    method Remove(id: int)
      requires Valid()
      modifies this
      ensures Valid()
      ensures alerts == Without(old(alerts), id)
      ensures (exists k :: 0 <= k < |old(alerts)| && old(alerts)[k].id == id) ==> |alerts| == |old(alerts)| - 1
      ensures (forall k :: 0 <= k < |old(alerts)| ==> old(alerts)[k].id != id) ==> alerts == old(alerts)
    {
      var prev := alerts;
      alerts := Without(prev, id);
      WithoutDistinct(prev, id);
      if k :| 0 <= k < |prev| && prev[k].id == id {
        forall i | 0 <= i < |prev| && i != k
          ensures prev[i].id != prev[k].id
        {
          if i < k {
            assert prev[i].id != prev[k].id;
          } else {
            assert prev[k].id != prev[i].id;
          }
        }
        WithoutAt(prev, k);
        assert |prev[..k] + prev[k + 1..]| == |prev| - 1;
      } else {
        WithoutAbsent(prev, id);
      }
    }
  }
}
