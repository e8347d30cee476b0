/** The incident tables of the agent service, and each SQL statement as a function on them. */
module IncidentTables {
  import opened Options
  import opened Ingress

  type IncidentId = nat
  type RunId = nat
  type Time = int

  datatype IncidentStatus = Open | Resolved
  datatype Incident = Incident(key: string, status: IncidentStatus, deadline: Option<Time>, escalations: nat, verified: bool)
  datatype AlertRow = AlertRow(incident: IncidentId, status: string, alertname: string, workload: string, ts: Time, payload: Raw)
  datatype LinkKind = Investigation | ReEscalation
  datatype Link = Link(incident: IncidentId, run: RunId, kind: LinkKind)
  datatype RunStatus = Queued | Running | AwaitingApproval | Completed | Failed | Denied

  datatype Tables = Tables(
    incidents: map<IncidentId, Incident>,
    alerts: seq<AlertRow>,
    links: seq<Link>,                 // in the order of incident_runs.created_at
    runs: map<RunId, RunStatus>,
    remediated: set<IncidentId>)      // incidents with a timeline row of source 'remediation'

  predicate InFlight(status: RunStatus) {
    status == Queued || status == Running || status == AwaitingApproval
  }

  predicate OpenWithKey(t: Tables, i: IncidentId, key: string) {
    i in t.incidents && t.incidents[i].status == Open && t.incidents[i].key == key
  }

  ghost predicate KeyTaken(t: Tables, key: string) {
    exists i :: OpenWithKey(t, i, key)
  }

  /** What `find_open_incident_by_key` may answer. */
  ghost predicate Finds(t: Tables, key: string, found: Option<IncidentId>) {
    match found
    case Some(i) => OpenWithKey(t, i, key)
    case None => !KeyTaken(t, key)
  }

  /** INSERT ... ON CONFLICT (alert_key) WHERE status = 'open' DO NOTHING. */
  ghost function CreateIncident(t: Tables, i: IncidentId, key: string): Tables {
    if KeyTaken(t, key) then t
    else t.(incidents := t.incidents[i := Incident(key, Open, None, 0, false)])
  }

  function AttachAlert(t: Tables, row: AlertRow): Tables {
    t.(alerts := t.alerts + [row])
  }

  function CreateRun(t: Tables, r: RunId): Tables {
    if r in t.runs then t else t.(runs := t.runs[r := Queued])
  }

  predicate Linked(t: Tables, i: IncidentId, r: RunId) {
    exists k :: 0 <= k < |t.links| && t.links[k].incident == i && t.links[k].run == r
  }

  function LinkRun(t: Tables, i: IncidentId, r: RunId, kind: LinkKind): Tables {
    if Linked(t, i, r) then t else t.(links := t.links + [Link(i, r, kind)])
  }

  function SetStatus(t: Tables, r: RunId, status: RunStatus): Tables {
    if r in t.runs then t.(runs := t.runs[r := status]) else t
  }

  /** An UPDATE ... WHERE id = i: without such a row nothing happens. */
  function Update(t: Tables, i: IncidentId, f: Incident -> Incident): Tables {
    if i in t.incidents then t.(incidents := t.incidents[i := f(t.incidents[i])]) else t
  }

  function CloseIncident(t: Tables, i: IncidentId): Tables {
    Update(t, i, (row: Incident) => row.(status := Resolved))
  }

  function MarkVerified(t: Tables, i: IncidentId): Tables {
    Update(t, i, (row: Incident) => row.(status := Resolved, verified := true))
  }

  function SetVerifyDeadline(t: Tables, i: IncidentId, d: Time): Tables {
    Update(t, i, (row: Incident) => row.(deadline := Some(d)))
  }

  /** COALESCE(verify_deadline, d): an armed deadline is never moved. */
  function EnsureVerifyDeadline(t: Tables, i: IncidentId, d: Time): Tables {
    Update(t, i, (row: Incident) => if row.deadline.None? then row.(deadline := Some(d)) else row)
  }

  function BumpEscalations(t: Tables, i: IncidentId): Tables {
    Update(t, i, (row: Incident) => row.(escalations := row.escalations + 1))
  }

  function AddRemediation(t: Tables, i: IncidentId): Tables {
    t.(remediated := t.remediated + {i})
  }

  /** `verify_deadline < now` is false for NULL. */
  predicate Due(row: Incident, now: Time) {
    row.status == Open && row.deadline.Some? && row.deadline.value < now
  }

  /** Newest observation of the given status: max(ts) FILTER (WHERE status = ...). */
  function LastSeen(alerts: seq<AlertRow>, i: IncidentId, status: string): Option<Time> {
    if alerts == [] then None
    else
      var rest := LastSeen(alerts[..|alerts| - 1], i, status);
      var a := alerts[|alerts| - 1];
      if a.incident == i && a.status == status && (rest.None? || rest.value < a.ts) then Some(a.ts) else rest
  }

  /** What `latest_firing_alert` may answer: a firing row of the incident that none is newer than. */
  predicate NewestFiring(alerts: seq<AlertRow>, i: IncidentId, n: nat) {
    && n < |alerts| && alerts[n].incident == i && alerts[n].status == "firing"
    && LastSeen(alerts, i, "firing") == Some(alerts[n].ts)
  }

  /** `max(ts)` is the time of an observation, and no observation is newer. */
  lemma {:induction false} LastSeenIsNewest(alerts: seq<AlertRow>, i: IncidentId, status: string)
    ensures LastSeen(alerts, i, status).None? <==>
            forall k :: 0 <= k < |alerts| ==> !(alerts[k].incident == i && alerts[k].status == status)
    ensures LastSeen(alerts, i, status).Some? ==>
            && (exists k :: 0 <= k < |alerts| && alerts[k].incident == i && alerts[k].status == status
                            && alerts[k].ts == LastSeen(alerts, i, status).value)
            && (forall k :: 0 <= k < |alerts| && alerts[k].incident == i && alerts[k].status == status ==>
                  alerts[k].ts <= LastSeen(alerts, i, status).value)
  {
    if alerts != [] {
      var init := alerts[..|alerts| - 1];
      LastSeenIsNewest(init, i, status);
      assert forall k :: 0 <= k < |init| ==> alerts[k] == init[k];
    }
  }

  /** The incident of the newest link of a run, None without one. */
  function IncidentOf(links: seq<Link>, r: RunId): Option<IncidentId> {
    if links == [] then None
    else if links[|links| - 1].run == r then Some(links[|links| - 1].incident)
    else IncidentOf(links[..|links| - 1], r)
  }

  lemma {:induction false} IncidentOfIsNewest(links: seq<Link>, r: RunId)
    ensures IncidentOf(links, r).None? <==> forall k :: 0 <= k < |links| ==> links[k].run != r
    ensures IncidentOf(links, r).Some? ==>
            exists k :: 0 <= k < |links| && links[k].run == r && links[k].incident == IncidentOf(links, r).value
                        && forall j :: k < j < |links| ==> links[j].run != r
  {
    if links != [] && links[|links| - 1].run != r {
      var init := links[..|links| - 1];
      IncidentOfIsNewest(init, r);
      assert forall k :: 0 <= k < |init| ==> links[k] == init[k];
    }
  }

  /** A linked run is in flight, and no newer link of the incident has a run. */
  ghost predicate AtWork(t: Tables, links: seq<Link>, i: IncidentId) {
    exists k :: 0 <= k < |links| && links[k].incident == i && links[k].run in t.runs
      && (t.runs[links[k].run] == Queued || t.runs[links[k].run] == Running || t.runs[links[k].run] == AwaitingApproval)
      && forall j :: k < j < |links| ==> links[j].incident != i || links[j].run !in t.runs
  }

  lemma {:induction false} LatestAtWork(t: Tables, links: seq<Link>, i: IncidentId)
    ensures var latest := LatestRunStatus(t, links, i);
      (latest.Some? && InFlight(latest.value)) <==> AtWork(t, links, i)
  {
    if links != [] {
      var n := |links| - 1;
      var init := links[..n];
      if links[n].incident == i && links[n].run in t.runs {
        if InFlight(t.runs[links[n].run]) {
          assert AtWork(t, links, i);
        }
      } else {
        LatestAtWork(t, init, i);
        assert forall k :: 0 <= k < n ==> init[k] == links[k];
        assert AtWork(t, init, i) <==> AtWork(t, links, i);
      }
    }
  }

  /** An observation that the alert fires is newer than all that it does not. */
  ghost predicate Firing(alerts: seq<AlertRow>, i: IncidentId) {
    exists k :: 0 <= k < |alerts| && alerts[k].incident == i && alerts[k].status == "firing"
      && forall j :: 0 <= j < |alerts| && alerts[j].incident == i && alerts[j].status == "resolved" ==> alerts[j].ts < alerts[k].ts
  }

  lemma FiringIs(alerts: seq<AlertRow>, i: IncidentId)
    ensures var f, r := LastSeen(alerts, i, "firing"), LastSeen(alerts, i, "resolved");
      Firing(alerts, i) <==> f.Some? && !(r.Some? && r.value >= f.value)
  {
    LastSeenIsNewest(alerts, i, "firing");
    LastSeenIsNewest(alerts, i, "resolved");
    hide LastSeen;
  }

  /** Status of the newest linked run, None without a link. */
  function LatestRunStatus(t: Tables, links: seq<Link>, i: IncidentId): Option<RunStatus> {
    if links == [] then None
    else
      var l := links[|links| - 1];
      if l.incident == i && l.run in t.runs then Some(t.runs[l.run])
      else LatestRunStatus(t, links[..|links| - 1], i)
  }
}
