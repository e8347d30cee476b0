/** Which alert a run investigates, and so which name its close-out asks Alertmanager about. */
module IncidentAlerts {
  import opened Options
  import opened Ingress
  import opened IncidentTables
  import opened IncidentProtocol
  import opened IncidentInvariants
  import opened IncidentKeys
  import opened IncidentRuns
  import opened Text

  /** The row stores an event that some webhook body normalised to. */
  ghost predicate RowOriginates(row: AlertRow) {
    exists ev :: Originates(ev) && row.status == ev.status && row.alertname == ev.alertname && row.workload == ev.workload && row.payload == ev.raw
  }

  /** The row of the incident that was attached for `ev`. */
  predicate RowOf(row: AlertRow, i: IncidentId, ev: AlertEvent) {
    row.incident == i && row.status == ev.status && row.alertname == ev.alertname && row.workload == ev.workload && row.payload == ev.raw
  }

  predicate FromEvent(t: Tables, i: IncidentId, ev: AlertEvent) {
    exists n :: 0 <= n < |t.alerts| && RowOf(t.alerts[n], i, ev)
  }

  /** `ev` is rebuilt from the payload of a firing row of the incident. */
  predicate FromRow(t: Tables, i: IncidentId, ev: AlertEvent) {
    exists n :: 0 <= n < |t.alerts| && t.alerts[n].incident == i && t.alerts[n].status == "firing"
      && RebuiltEvent(t.alerts[n].payload) == Some(ev)
  }

  /** A run of the incident looks into an event attached to it, or into one rebuilt from its rows. */
  predicate Investigates(t: Tables, i: IncidentId, ev: AlertEvent) {
    i in t.incidents && (FromEvent(t, i, ev) || FromRow(t, i, ev))
  }

  predicate AboutToLink(pc: Handler) {
    pc.Queueing? || pc.Linking?
  }

  predicate HasAlert(w: Watcher) {
    w.Loaded? || PastBump(w)
  }

  ghost predicate AlertsInv(s: System) {
    && (forall h :: h in s.handlers ==> Originates(s.handlers[h].ev))
    && (forall h :: h in s.handlers && AboutToLink(s.handlers[h]) ==> FromEvent(s.db, s.handlers[h].incident, s.handlers[h].ev))
    && (forall n :: 0 <= n < |s.db.alerts| ==> RowOriginates(s.db.alerts[n]))
    && (forall r :: r in s.tasks ==> Investigates(s.db, s.tasks[r].incident, s.tasks[r].alert))
    && (HasAlert(s.watcher) && s.watcher.todo != [] ==> FromRow(s.db, s.watcher.todo[0].id, s.watcher.alert))
  }

  // ---- every step keeps it ----

  lemma FromRowGrows(s: Tables, t: Tables)
    requires s.alerts <= t.alerts
    ensures forall i, ev :: FromRow(s, i, ev) ==> FromRow(t, i, ev)
    ensures forall i, ev :: FromEvent(s, i, ev) ==> FromEvent(t, i, ev)
  {
    forall i, ev | FromEvent(s, i, ev) ensures FromEvent(t, i, ev) {
      var n :| 0 <= n < |s.alerts| && RowOf(s.alerts[n], i, ev);
      assert t.alerts[n] == s.alerts[n];
    }
    forall i, ev | FromRow(s, i, ev) ensures FromRow(t, i, ev) {
      var n :| 0 <= n < |s.alerts| && s.alerts[n].incident == i && s.alerts[n].status == "firing"
               && RebuiltEvent(s.alerts[n].payload) == Some(ev);
      assert t.alerts[n] == s.alerts[n];
    }
  }

  lemma InvestigatesGrows(s: System, t: System)
    requires s.db.alerts <= t.db.alerts && forall i :: i in s.db.incidents ==> i in t.db.incidents
    ensures forall i, ev :: Investigates(s.db, i, ev) ==> Investigates(t.db, i, ev)
  {
    FromRowGrows(s.db, t.db);
  }

  /** A handler step attaches at most one row, and one with an origin. */
  lemma HandlerRows(s: System, h: nat, st: HandlerStep)
    requires HandlerEnabled(s, h, st) && (h in s.handlers ==> Originates(s.handlers[h].ev))
    ensures var t := HandlerNext(s, h, st);
      || t.db.alerts == s.db.alerts
      || (exists row :: t.db.alerts == s.db.alerts + [row] && RowOriginates(row))
  {
    if st.AttachRow? {
      OneRow(s, h);
      OriginOf(s.handlers[h].ev, s.handlers[h].incident, s.clock);
    } else {
      NoRow(s, h, st);
    }
  }

  lemma OneRow(s: System, h: nat)
    requires HandlerEnabled(s, h, AttachRow)
    ensures HandlerNext(s, h, AttachRow).db.alerts ==
            s.db.alerts + [AlertRowOf(s.handlers[h].ev, s.handlers[h].incident, s.clock)]
  {
    hide AlertRowOf;
  }

  lemma NoRow(s: System, h: nat, st: HandlerStep)
    requires HandlerEnabled(s, h, st) && !st.AttachRow?
    ensures HandlerNext(s, h, st).db.alerts == s.db.alerts
  {
    hide Finds, KeyTaken, Originates;
  }

  lemma OriginOf(ev: AlertEvent, i: IncidentId, now: Time)
    requires Originates(ev)
    ensures RowOriginates(AlertRowOf(ev, i, now))
  {
  }

  lemma AttachedRow(s: System, h: nat)
    requires HandlerEnabled(s, h, AttachRow)
    ensures FromEvent(HandlerNext(s, h, AttachRow).db, s.handlers[h].incident, s.handlers[h].ev)
  {
    var t := HandlerNext(s, h, AttachRow);
    assert RowOf(t.db.alerts[|s.db.alerts|], s.handlers[h].incident, s.handlers[h].ev);
  }

  /** A handler's event has an origin, and its row is attached before its run is queued. */
  lemma HandlerAlerts(s: System, h: nat, st: HandlerStep)
    requires HandlerEnabled(s, h, st) && (h in s.handlers ==> Originates(s.handlers[h].ev))
    requires h in s.handlers && AboutToLink(s.handlers[h]) ==> FromEvent(s.db, s.handlers[h].incident, s.handlers[h].ev)
    ensures var t := HandlerNext(s, h, st);
      && (h in t.handlers ==> Originates(t.handlers[h].ev))
      && (h in t.handlers && AboutToLink(t.handlers[h]) ==> FromEvent(t.db, t.handlers[h].incident, t.handlers[h].ev))
  {
    if st.AttachRow? {
      AttachedRow(s, h);
    }
  }

  lemma HandlersKeepAlerts(s: System, h: nat, st: HandlerStep)
    requires KeysInv(s) && LinksInv(s) && PendingInv(s) && AlertsInv(s) && HandlerEnabled(s, h, st)
    ensures AlertsInv(HandlerNext(s, h, st))
  {
    var t := HandlerNext(s, h, st);
    HandlerTouches(s, h, st);
    HandlerWritesOnly(s, h, st);
    HandlerRows(s, h, st);
    InvestigatesGrows(s, t);
    FromRowGrows(s.db, t.db);
    HandlerTasks(s, h, st);
    HandlerPcs(s, h, st);
    AlertsCarry(s, t);
  }

  /** The task a handler starts investigates the event whose row it attached. */
  lemma HandlerTasks(s: System, h: nat, st: HandlerStep)
    requires KeysInv(s) && LinksInv(s) && PendingInv(s) && AlertsInv(s) && HandlerEnabled(s, h, st)
    ensures var t := HandlerNext(s, h, st);
      forall r :: r in t.tasks && r !in s.tasks ==> Investigates(t.db, t.tasks[r].incident, t.tasks[r].alert)
  {
    HandlerWritesOnly(s, h, st);
    if st.LinkInvestigation? {
      assert HandlerKeyed(s, s.handlers[h]) && AboutToLink(s.handlers[h]);
      assert HandlerNext(s, h, st).db.alerts == s.db.alerts;
    }
  }

  lemma HandlerPcs(s: System, h: nat, st: HandlerStep)
    requires LinksInv(s) && PendingInv(s) && AlertsInv(s) && HandlerEnabled(s, h, st)
    ensures var t := HandlerNext(s, h, st);
      && (forall g :: g in t.handlers ==> Originates(t.handlers[g].ev))
      && (forall g :: g in t.handlers && AboutToLink(t.handlers[g]) ==> FromEvent(t.db, t.handlers[g].incident, t.handlers[g].ev))
  {
    hide HandlerNext, HandlerEnabled, LinksInv, PendingInv, Originates, RowOriginates, FromEvent, FromRow;
    HandlerLeavesOthers(s, h, st);
    HandlerAlerts(s, h, st);
    HandlerRows(s, h, st);
    FromRowGrows(s.db, HandlerNext(s, h, st).db);
  }

  lemma AlertsCarry(s: System, t: System)
    requires AlertsInv(s) && t.watcher == s.watcher && (forall g :: g in t.handlers ==> Originates(t.handlers[g].ev))
    requires t.db.alerts == s.db.alerts || exists row :: t.db.alerts == s.db.alerts + [row] && RowOriginates(row)
    requires forall i, ev :: Investigates(s.db, i, ev) ==> Investigates(t.db, i, ev)
    requires forall i, ev :: FromRow(s.db, i, ev) ==> FromRow(t.db, i, ev)
    requires forall g :: g in t.handlers && AboutToLink(t.handlers[g]) ==> FromEvent(t.db, t.handlers[g].incident, t.handlers[g].ev)
    requires forall r :: r in t.tasks && r in s.tasks ==> t.tasks[r].incident == s.tasks[r].incident && t.tasks[r].alert == s.tasks[r].alert
    requires forall r :: r in t.tasks && r !in s.tasks ==> Investigates(t.db, t.tasks[r].incident, t.tasks[r].alert)
    ensures AlertsInv(t)
  {
    forall r | r in t.tasks ensures Investigates(t.db, t.tasks[r].incident, t.tasks[r].alert) {
      assert r in s.tasks ==> Investigates(s.db, s.tasks[r].incident, s.tasks[r].alert);
    }
  }

  lemma RunsKeepAlerts(s: System, r: RunId, st: RunStep)
    requires AlertsInv(s) && RunEnabled(s, r, st)
    ensures AlertsInv(RunNext(s, r, st))
  {
    hide RunNext, Originates, RowOriginates;
    var t := RunNext(s, r, st);
    RunTouches(s, r, st);
    RunKeepsRows(s, r, st);
    InvestigatesGrows(s, t);
    FromRowGrows(s.db, t.db);
    AlertsCarry(s, t);
  }

  lemma WatcherAlert(s: System, st: WatcherStep)
    requires WatcherEnabled(s, st)
    requires HasAlert(s.watcher) && s.watcher.todo != [] ==> FromRow(s.db, s.watcher.todo[0].id, s.watcher.alert)
    ensures var w := WatcherNext(s, st).watcher; HasAlert(w) && w.todo != [] ==> FromRow(s.db, w.todo[0].id, w.alert)
  {
  }

  lemma WatcherKeepsAlerts(s: System, st: WatcherStep)
    requires LinksInv(s) && PendingInv(s) && WatcherInv(s) && AlertsInv(s) && WatcherEnabled(s, st)
    ensures AlertsInv(WatcherNext(s, st))
  {
    var t := WatcherNext(s, st);
    WatcherTouches(s, st);
    WatcherKeepsRows(s, st);
    WatcherAlert(s, st);
    InvestigatesGrows(s, t);
    FromRowGrows(s.db, t.db);
    if st.LinkReEscalation? {
      assert SnapshotOk(s, s.watcher.todo[0]);
      NotLinked(s, s.watcher.todo[0].id, s.watcher.run);
    }
    forall r | r in t.tasks ensures Investigates(t.db, t.tasks[r].incident, t.tasks[r].alert) {
      assert r in s.tasks ==> Investigates(s.db, s.tasks[r].incident, s.tasks[r].alert);
    }
  }

  lemma StepKeepsAlerts(s: System, e: Event)
    requires Inv(s) && AlertsInv(s) && Enabled(s, e)
    ensures AlertsInv(Next(s, e))
  {
    match e
    case Handle(h, hs) => HandlersKeepAlerts(s, h, hs);
    case Run(r, rs) => RunsKeepAlerts(s, r, rs);
    case Watch(ws) => WatcherKeepsAlerts(s, ws);
    case Tick(_, _) =>
      InvestigatesGrows(s, Next(s, e));
      FromRowGrows(s.db, s.db);
      AlertsCarry(s, Next(s, e));
  }

  // ---- the name a rebuilt alert is asked about ----

  /** Readable off the stored payload: a gitops body, an entry with its own alert name, or the name
      that every nameless entry falls back to. */
  predicate KeepsName(payload: Raw, alertname: string) {
    match payload
    case Whole(_) => true
    case Entry(a) => Or(Label(a.labels, "alertname"), "") != "" || alertname == FALLBACK_NAME
  }

  /** A row rebuilds to an alert of its own name exactly when it keeps the name. */
  lemma RowRebuilds(row: AlertRow)
    requires RowOriginates(row)
    ensures RebuiltEvent(row.payload).Some?
    ensures RebuiltEvent(row.payload).value.alertname == row.alertname <==> KeepsName(row.payload, row.alertname)
  {
    var ev :| Originates(ev) && row.status == ev.status && row.alertname == ev.alertname && row.workload == ev.workload && row.payload == ev.raw;
    var p: Payload, k :| 0 <= k < |Normalized(p)| && Normalized(p)[k] == ev;
    RebuildKeepsAlertname(p, k);
  }

  /** Where the name is lost, the fallback takes its place. */
  lemma LostName(payload: Raw, alertname: string)
    requires !KeepsName(payload, alertname)
    ensures RebuiltEvent(payload).Some? && RebuiltEvent(payload).value.alertname == FALLBACK_NAME
    ensures FALLBACK_NAME != alertname && Strip(FALLBACK_NAME) == FALLBACK_NAME
  {
    assert map[] + payload.alert.labels == payload.alert.labels;
  }

  /** The same for an event that has an origin. */
  lemma EventRebuilds(ev: AlertEvent)
    requires Originates(ev)
    ensures RebuiltEvent(ev.raw).Some?
    ensures RebuiltEvent(ev.raw).value.alertname == ev.alertname <==> KeepsName(ev.raw, ev.alertname)
  {
    var row := AlertRow(0, ev.status, ev.alertname, ev.workload, 0, ev.raw);
    assert RowOriginates(row);
    RowRebuilds(row);
  }

  /** A run investigates an alert with the name of a row of its incident, or the one that row
      rebuilds to: its own name in any case when the row keeps it. */
  lemma AskedName(s: System, i: IncidentId, alert: AlertEvent)
    requires AlertsInv(s) && Investigates(s.db, i, alert)
    ensures exists n ::
              && 0 <= n < |s.db.alerts| && s.db.alerts[n].incident == i
              && (alert.alertname == s.db.alerts[n].alertname || RebuiltEvent(s.db.alerts[n].payload) == Some(alert))
              && (KeepsName(s.db.alerts[n].payload, s.db.alerts[n].alertname) ==> alert.alertname == s.db.alerts[n].alertname)
  {
    if FromEvent(s.db, i, alert) {
      var n :| 0 <= n < |s.db.alerts| && RowOf(s.db.alerts[n], i, alert);
      assert s.db.alerts[n].incident == i;
    } else {
      var n :| 0 <= n < |s.db.alerts| && s.db.alerts[n].incident == i && s.db.alerts[n].status == "firing"
               && RebuiltEvent(s.db.alerts[n].payload) == Some(alert);
      RowRebuilds(s.db.alerts[n]);
      assert s.db.alerts[n].incident == i;
    }
  }
}
