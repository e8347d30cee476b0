/** Alert ingress: both webhook payload shapes are normalised to alert events, each event
    gets a dedupe key and a decision, and a stored alert payload can be normalised again
    when an incident is escalated. */
module Ingress {
  import opened Options

  /** One entry of a Grafana webhook's `alerts` list. */
  datatype GrafanaAlert = GrafanaAlert(labels: map<string, string>, status: Option<string>)

  /** A webhook body; an absent key is None. `app` is "" when absent, as in the source. */
  datatype Payload = Payload(
    event: Option<string>, app: string,
    alerts: Option<seq<GrafanaAlert>>, commonLabels: map<string, string>,
    title: Option<string>, status: Option<string>)

  /** What an alert row stores: a gitops body whole, a Grafana entry without its envelope. */
  datatype Raw = Whole(payload: Payload) | Entry(alert: GrafanaAlert)

  datatype AlertEvent = AlertEvent(status: string, alertname: string, workload: string, namespace: string, raw: Raw)

  datatype Decision = Spawn | Attach | Close | Ignore

  const FALLBACK_NAME := "Grafana alert"
  const WORKLOAD_LABELS: seq<string> := ["workload", "service", "deployment", "job"]
  const RESOLVED_EVENTS: set<string> := {"on-rollout-completed", "on-sync-succeeded", "on-deployed"}

  /** Python's `x or y` on an optional string: an absent or empty value falls through. */
  function Or(x: Option<string>, y: string): string {
    if x.Some? && x.value != "" then x.value else y
  }

  function Label(labels: map<string, string>, name: string): Option<string> {
    if name in labels then Some(labels[name]) else None
  }

  function WorkloadFrom(labels: map<string, string>, names: seq<string>): string {
    if names == [] then "" else Or(Label(labels, names[0]), WorkloadFrom(labels, names[1..]))
  }

  function GrafanaEvent(p: Payload, a: GrafanaAlert): AlertEvent {
    var labels := p.commonLabels + a.labels;
    AlertEvent(
      Or(a.status, Or(p.status, "firing")),
      Or(Label(labels, "alertname"), Or(p.title, FALLBACK_NAME)),
      WorkloadFrom(labels, WORKLOAD_LABELS),
      Or(Label(labels, "namespace"), ""),
      Entry(a))
  }

  function GrafanaEvents(p: Payload, alerts: seq<GrafanaAlert>): (events: seq<AlertEvent>)
  {
    seq(|alerts|, i requires 0 <= i < |alerts| => GrafanaEvent(p, alerts[i]))
  }

  function GitopsEvent(p: Payload): AlertEvent
    requires p.event.Some?
  {
    AlertEvent(if p.event.value in RESOLVED_EVENTS then "resolved" else "firing",
               p.event.value, p.app, "", Whole(p))
  }

  /** The events of a body: `event` wins over `alerts`, and an unknown shape yields none. */
  function Normalized(p: Payload): seq<AlertEvent> {
    if p.event.Some? then [GitopsEvent(p)]
    else if p.alerts.Some? then GrafanaEvents(p, p.alerts.value)
    else []
  }

  method Normalize(p: Payload) returns (events: seq<AlertEvent>)
    ensures events == Normalized(p)
  {
    events := [];
    if p.event.Some? {
      events := [GitopsEvent(p)];
    } else if p.alerts.Some? {
      var alerts := p.alerts.value;
      for i := 0 to |alerts|
        invariant events == GrafanaEvents(p, alerts[..i])
      {
        assert alerts[..i + 1] == alerts[..i] + [alerts[i]];
        events := events + [GrafanaEvent(p, alerts[i])];
      }
      assert alerts[..|alerts|] == alerts;
    }
  }

  /** A label of an entry: its own, else the group's. */
  function Merged(p: Payload, a: GrafanaAlert, name: string): Option<string> {
    if name in a.labels then Some(a.labels[name]) else Label(p.commonLabels, name)
  }

  predicate Filled(v: Option<string>) { v.Some? && v.value != "" }

  /** What each field of an entry's event is taken from, in the order of preference. */
  lemma GrafanaEntry(p: Payload, k: nat)
    requires p.event.None? && p.alerts.Some? && k < |p.alerts.value|
    ensures |Normalized(p)| == |p.alerts.value|
    ensures var ev, a := Normalized(p)[k], p.alerts.value[k];
      && ev.raw == Entry(a)
      && ev.status == (if Filled(a.status) then a.status.value else if Filled(p.status) then p.status.value else "firing")
      && ev.alertname == (if Filled(Merged(p, a, "alertname")) then Merged(p, a, "alertname").value
                          else if Filled(p.title) then p.title.value else "Grafana alert")
      && ev.namespace == (if Filled(Merged(p, a, "namespace")) then Merged(p, a, "namespace").value else "")
      && (Filled(Merged(p, a, "workload")) ==> ev.workload == Merged(p, a, "workload").value)
      && (!Filled(Merged(p, a, "workload")) && Filled(Merged(p, a, "service")) ==> ev.workload == Merged(p, a, "service").value)
      && (!Filled(Merged(p, a, "workload")) && !Filled(Merged(p, a, "service")) && Filled(Merged(p, a, "deployment")) ==>
            ev.workload == Merged(p, a, "deployment").value)
      && (!Filled(Merged(p, a, "workload")) && !Filled(Merged(p, a, "service")) && !Filled(Merged(p, a, "deployment")) ==>
            ev.workload == if Filled(Merged(p, a, "job")) then Merged(p, a, "job").value else "")
  {
    var a := p.alerts.value[k];
    var labels := p.commonLabels + a.labels;
    assert forall name :: Label(labels, name) == Merged(p, a, name);
    FirstFilled(labels, "workload", ["service", "deployment", "job"]);
    FirstFilled(labels, "service", ["deployment", "job"]);
    FirstFilled(labels, "deployment", ["job"]);
    FirstFilled(labels, "job", []);
    assert WORKLOAD_LABELS == ["workload"] + ["service", "deployment", "job"];
    assert ["service", "deployment", "job"] == ["service"] + ["deployment", "job"];
    assert ["deployment", "job"] == ["deployment"] + ["job"] && ["job"] == ["job"] + [];
  }

  lemma FirstFilled(labels: map<string, string>, name: string, names: seq<string>)
    ensures WorkloadFrom(labels, [name] + names) ==
            if Filled(Label(labels, name)) then Label(labels, name).value else WorkloadFrom(labels, names)
  {
    assert ([name] + names)[1..] == names;
  }

  /** A gitops notification is one event under its own name: its three good outcomes end an alert, and
      every other one starts it. */
  lemma GitopsEntry(p: Payload)
    requires p.event.Some?
    ensures Normalized(p) == [AlertEvent(
              if p.event.value == "on-rollout-completed" || p.event.value == "on-sync-succeeded" || p.event.value == "on-deployed"
              then "resolved" else "firing",
              p.event.value, p.app, "", Whole(p))]
  {
  }

  predicate IsActionable(ev: AlertEvent, namespaces: set<string>) {
    ev.namespace == "" || ev.namespace in namespaces
  }

  function AlertKey(alertname: string, workload: string): string {
    alertname + "/" + workload
  }

  function Key(ev: AlertEvent): string {
    AlertKey(ev.alertname, ev.workload)
  }

  /** Any status other than "firing" counts as the end of the alert. */
  function IngressDecision(status: string, hasOpenIncident: bool): Decision {
    if status == "firing" then (if hasOpenIncident then Attach else Spawn)
    else if hasOpenIncident then Close
    else Ignore
  }

  /** Two alerts of one name share a dedupe key only with the same workload. */
  lemma KeyFixesWorkload(a: string, w: string, v: string)
    requires AlertKey(a, w) == AlertKey(a, v)
    ensures w == v
  {
    assert AlertKey(a, w)[|a| + 1..] == w && AlertKey(a, v)[|a| + 1..] == v;
  }

  lemma KeysMeet(a: string, b: string)
    requires a + "/" <= b
    ensures AlertKey(a, b[|a| + 1..] + "/") == AlertKey(b, "")
  {
    assert b == a + "/" + b[|a| + 1..];
  }

  lemma PrefixOfKey(a: string, w: string, b: string, v: string)
    requires AlertKey(a, w) == AlertKey(b, v) && |a| < |b|
    ensures a + "/" <= b
  {
    var k := AlertKey(b, v);
    assert k[..|a| + 1] == a + "/";
    assert k[..|a| + 1] == b[..|a| + 1];
  }

  lemma NamesOfKey(a: string, w: string, b: string, v: string)
    requires AlertKey(a, w) == AlertKey(b, v) && |a| == |b|
    ensures a == b
  {
    assert AlertKey(a, w)[..|a|] == a && AlertKey(b, v)[..|b|] == b;
  }

  /** Alerts of two different names can share a dedupe key exactly when one name, with a slash after
      it, begins the other. */
  lemma KeysCollideIff(a: string, b: string)
    requires a != b
    ensures (exists w, v :: AlertKey(a, w) == AlertKey(b, v)) <==> a + "/" <= b || b + "/" <= a
  {
    if w, v :| AlertKey(a, w) == AlertKey(b, v) {
      if |a| < |b| {
        PrefixOfKey(a, w, b, v);
      } else if |b| < |a| {
        PrefixOfKey(b, v, a, w);
      } else {
        NamesOfKey(a, w, b, v);
      }
    }
    if a + "/" <= b {
      KeysMeet(a, b);
    } else if b + "/" <= a {
      KeysMeet(b, a);
    }
  }

  /** Two alerts the webhook would take for one. */
  lemma AlertKeyCollides()
    ensures AlertKey("a/b", "c") == AlertKey("a", "b/c")
  {
    assert AlertKey("a/b", "c") == "a/b/c";
    assert AlertKey("a", "b/c") == "a/b/c";
  }

  /** How an escalation turns a stored row payload back into events: a Grafana entry is
      wrapped again, but its envelope (common labels, title) is gone. */
  function Rebuilt(raw: Raw): seq<AlertEvent> {
    match raw
    case Whole(p) => Normalized(p)
    case Entry(a) => Normalized(Payload(None, "", Some([a]), map[], None, a.status))
  }

  /** The event an escalation investigates, None when nothing can be rebuilt. */
  function RebuiltEvent(raw: Raw): Option<AlertEvent> {
    if Rebuilt(raw) == [] then None else Some(Rebuilt(raw)[0])
  }

  /** Some webhook body normalises to this event, among others. */
  ghost predicate Originates(ev: AlertEvent) {
    exists p: Payload, k :: 0 <= k < |Normalized(p)| && Normalized(p)[k] == ev
  }

  /** A stored payload always rebuilds to exactly one event of a gitops or Grafana row, and a
      gitops row rebuilds to itself. A Grafana row keeps its alert name exactly when the entry
      itself carries a non-empty `alertname` label, or the name was the fallback anyway. */
  lemma RebuildKeepsAlertname(p: Payload, k: nat)
    requires k < |Normalized(p)|
    ensures var ev := Normalized(p)[k];
            && |Rebuilt(ev.raw)| == 1
            && (p.event.Some? ==> Rebuilt(ev.raw) == [ev])
            && (p.event.None? ==>
                 (Rebuilt(ev.raw)[0].alertname == ev.alertname <==>
                  Or(Label(p.alerts.value[k].labels, "alertname"), "") != "" || ev.alertname == FALLBACK_NAME))
  {
    if p.event.None? {
      var a := p.alerts.value[k];
      assert (p.commonLabels + a.labels).Keys == p.commonLabels.Keys + a.labels.Keys;
      assert map[] + a.labels == a.labels;
    }
  }
}
