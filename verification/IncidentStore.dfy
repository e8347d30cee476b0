/** The Postgres tables in place; one method per statement. */
module IncidentStore {
  import opened Options
  import opened T = IncidentTables

  /** Nothing but the row of `i` differs. */
  predicate OnlyRow(before: map<IncidentId, Incident>, after: map<IncidentId, Incident>, i: IncidentId) {
    after.Keys == before.Keys && forall j :: j in before && j != i ==> after[j] == before[j]
  }

  class Database {
    var incidents: map<IncidentId, Incident>
    var alerts: seq<AlertRow>
    var links: seq<Link>
    var runs: map<RunId, RunStatus>
    var remediated: set<IncidentId>

    function View(): Tables
      reads this
    {
      Tables(incidents, alerts, links, runs, remediated)
    }

    constructor ()
      ensures View() == Tables(map[], [], [], map[], {})
    {
      incidents, alerts, links, runs, remediated := map[], [], [], map[], {};
    }

    method FindOpenIncidentByKey(key: string) returns (found: Option<IncidentId>)
      ensures T.Finds(View(), key, found)
      ensures found.None? ==> forall i :: i in incidents && incidents[i].status == Open ==> incidents[i].key != key
      ensures found.Some? ==> found.value in incidents && incidents[found.value].status == Open && incidents[found.value].key == key
    {
      var ids := set i | i in incidents && incidents[i].status == Open && incidents[i].key == key;
      if ids == {} {
        found := None;
        assert forall i :: i in incidents && incidents[i].status == Open && incidents[i].key == key ==> i in ids;
        assert forall i :: T.OpenWithKey(View(), i, key) ==> i in ids;
      } else {
        var i :| i in ids;
        found := Some(i);
      }
    }

    /** The unique index on open alert keys is the race guard. */
    method CreateIncident(i: IncidentId, key: string) returns (created: bool)
      requires i !in incidents
      modifies this`incidents
      ensures created <==> forall j :: j in old(incidents) && old(incidents)[j].status == Open ==> old(incidents)[j].key != key
      ensures incidents == if created then old(incidents)[i := Incident(key, Open, None, 0, false)] else old(incidents)
      ensures created <==> !T.KeyTaken(old(View()), key)
      ensures View() == T.CreateIncident(old(View()), i, key)
    {
      var holder := FindOpenIncidentByKey(key);
      created := holder.None?;
      if created {
        incidents := incidents[i := Incident(key, Open, None, 0, false)];
      }
    }

    method AttachAlert(row: AlertRow)
      modifies this`alerts
      ensures alerts == old(alerts) + [row] && View() == T.AttachAlert(old(View()), row)
    {
      alerts := alerts + [row];
    }

    method CreateRun(r: RunId)
      modifies this`runs
      ensures runs == if r in old(runs) then old(runs) else old(runs)[r := Queued]
      ensures View() == T.CreateRun(old(View()), r)
    {
      if r !in runs {
        runs := runs[r := Queued];
      }
    }

    method LinkRun(i: IncidentId, r: RunId, kind: LinkKind)
      modifies this`links
      ensures (exists k :: 0 <= k < |old(links)| && old(links)[k].incident == i && old(links)[k].run == r) ==> links == old(links)
      ensures (forall k :: 0 <= k < |old(links)| ==> old(links)[k].incident != i || old(links)[k].run != r) ==>
                links == old(links) + [Link(i, r, kind)]
      ensures View() == T.LinkRun(old(View()), i, r, kind)
    {
      if !T.Linked(View(), i, r) {
        links := links + [Link(i, r, kind)];
      }
    }

    method SetStatus(r: RunId, status: RunStatus)
      modifies this`runs
      ensures runs == if r in old(runs) then old(runs)[r := status] else old(runs)
      ensures View() == T.SetStatus(old(View()), r, status)
    {
      if r in runs {
        runs := runs[r := status];
      }
    }

    method CloseIncident(i: IncidentId)
      modifies this`incidents
      ensures OnlyRow(old(incidents), incidents, i)
      ensures i in incidents ==> incidents[i] == old(incidents)[i].(status := Resolved)
      ensures View() == T.CloseIncident(old(View()), i)
    {
      if i in incidents {
        incidents := incidents[i := incidents[i].(status := Resolved)];
      }
    }

    method MarkVerified(i: IncidentId)
      modifies this`incidents
      ensures OnlyRow(old(incidents), incidents, i)
      ensures i in incidents ==> incidents[i] == old(incidents)[i].(status := Resolved, verified := true)
      ensures View() == T.MarkVerified(old(View()), i)
    {
      if i in incidents {
        incidents := incidents[i := incidents[i].(status := Resolved, verified := true)];
      }
    }

    method SetVerifyDeadline(i: IncidentId, d: Time)
      modifies this`incidents
      ensures OnlyRow(old(incidents), incidents, i)
      ensures i in incidents ==> incidents[i] == old(incidents)[i].(deadline := Some(d))
      ensures View() == T.SetVerifyDeadline(old(View()), i, d)
    {
      if i in incidents {
        incidents := incidents[i := incidents[i].(deadline := Some(d))];
      }
    }

    method EnsureVerifyDeadline(i: IncidentId, d: Time)
      modifies this`incidents
      ensures OnlyRow(old(incidents), incidents, i)
      ensures i in incidents ==>
                incidents[i] == old(incidents)[i].(deadline := if old(incidents)[i].deadline.Some? then old(incidents)[i].deadline else Some(d))
      ensures View() == T.EnsureVerifyDeadline(old(View()), i, d)
    {
      if i in incidents && incidents[i].deadline.None? {
        incidents := incidents[i := incidents[i].(deadline := Some(d))];
      }
    }

    method BumpEscalations(i: IncidentId) returns (attempt: nat)
      modifies this`incidents
      ensures OnlyRow(old(incidents), incidents, i)
      ensures i in incidents ==> incidents[i] == old(incidents)[i].(escalations := old(incidents)[i].escalations + 1)
      ensures View() == T.BumpEscalations(old(View()), i)
      ensures attempt == if i in incidents then incidents[i].escalations else 0
    {
      attempt := 0;
      if i in incidents {
        attempt := incidents[i].escalations + 1;
        incidents := incidents[i := incidents[i].(escalations := attempt)];
      }
    }

    method AddRemediation(i: IncidentId)
      modifies this`remediated
      ensures remediated == old(remediated) + {i} && View() == T.AddRemediation(old(View()), i)
    {
      remediated := remediated + {i};
    }

    /** The incident of the newest link of a run, if it has one. */
    method IncidentForRun(r: RunId) returns (found: Option<IncidentId>)
      ensures found.None? <==> forall k :: 0 <= k < |links| ==> links[k].run != r
      ensures found.Some? ==>
        exists k :: 0 <= k < |links| && links[k].run == r && links[k].incident == found.value
                    && forall j :: k < j < |links| ==> links[j].run != r
    {
      found := T.IncidentOf(links, r);
      T.IncidentOfIsNewest(links, r);
    }

    /** The newest firing row of an incident, by its place in the table. */
    method LatestFiringAlert(i: IncidentId) returns (row: Option<nat>)
      ensures row.None? <==> T.LastSeen(alerts, i, "firing") == None
      ensures row.Some? ==> T.NewestFiring(alerts, i, row.value)
      ensures row.None? <==> forall j :: 0 <= j < |alerts| ==> alerts[j].incident != i || alerts[j].status != "firing"
      ensures row.Some? ==>
        && row.value < |alerts| && alerts[row.value].incident == i && alerts[row.value].status == "firing"
        && forall j :: 0 <= j < |alerts| && alerts[j].incident == i && alerts[j].status == "firing" ==> alerts[j].ts <= alerts[row.value].ts
    {
      var newest := T.LastSeen(alerts, i, "firing");
      T.LastSeenIsNewest(alerts, i, "firing");
      if newest.None? {
        row := None;
      } else {
        var k: nat :| k < |alerts| && alerts[k].incident == i && alerts[k].status == "firing" && alerts[k].ts == newest.value;
        row := Some(k);
      }
    }

    method AlertState(i: IncidentId) returns (lastFiring: Option<Time>, lastResolved: Option<Time>)
      ensures lastFiring == T.LastSeen(alerts, i, "firing") && lastResolved == T.LastSeen(alerts, i, "resolved")
    {
      lastFiring := T.LastSeen(alerts, i, "firing");
      lastResolved := T.LastSeen(alerts, i, "resolved");
    }
  }
}
