/** When an incident is closed although nothing said that its alert stopped firing. */
module IncidentClosing {
  import opened Options
  import opened Ingress
  import opened IncidentTables
  import opened IncidentProtocol
  import opened IncidentInvariants
  import opened IncidentAlerts
  import opened IncidentSafety
  import opened IncidentScenarios
  import opened Text

  // ---- closed while it still fires ----

  /** A name Alertmanager can be asked about and holds no active alert of. */
  predicate Unheld(name: string, held: set<string>) {
    Strip(name) != "" && Strip(name) !in held
  }

  function Relinking(now: Time): seq<Event> {
    [Watch(RearmDeadline(now)), Watch(MakeRun(1)), Watch(LinkReEscalation)]
  }

  /** The re-escalated run is on its way. */
  function Escalated(window: nat, clock: Time, held: set<string>, ev: AlertEvent, alert: AlertEvent): System {
    var s := CountRaised(window, clock, held, ev, alert);
    s.(db := s.db.(incidents := map[0 := Incident(Key(ev), Open, Some(s.clock + window), 1, false)],
                   runs := map[0 := Completed, 1 := Queued], links := [Link(0, 0, Investigation), Link(0, 1, ReEscalation)]),
       tasks := s.tasks[1 := NewTask(0, alert)], watcher := Polling(s.clock, []))
  }

  function WholeRun(window: nat, clock: Time, held: set<string>, ev: AlertEvent, alert: AlertEvent): seq<Event> {
    var now := clock + window + 1;
    FirstHalf(window, clock, held, ev) + Relinking(now) + Session(1, Query(Strip(alert.alertname), false, false), now)
  }

  /** The deadline moved, and then the run made, on the way there. */
  function DeadlineMoved(window: nat, clock: Time, held: set<string>, ev: AlertEvent, alert: AlertEvent): System {
    var s := CountRaised(window, clock, held, ev, alert);
    s.(db := s.db.(incidents := map[0 := Incident(Key(ev), Open, Some(s.clock + window), 1, false)]),
       watcher := Rearmed(s.clock, s.watcher.todo, alert))
  }

  function Made(window: nat, clock: Time, held: set<string>, ev: AlertEvent, alert: AlertEvent): System {
    var s := DeadlineMoved(window, clock, held, ev, alert);
    s.(db := s.db.(runs := map[0 := Completed, 1 := Queued]), watcher := RunMade(s.clock, s.watcher.todo, alert, 1))
  }

  lemma MovesIt(window: nat, clock: Time, held: set<string>, ev: AlertEvent, alert: AlertEvent)
    ensures var s, now := CountRaised(window, clock, held, ev, alert), clock + window + 1;
      WatcherEnabled(s, RearmDeadline(now)) && WatcherNext(s, RearmDeadline(now)) == DeadlineMoved(window, clock, held, ev, alert)
  {
  }

  lemma MakesIt(window: nat, clock: Time, held: set<string>, ev: AlertEvent, alert: AlertEvent)
    ensures var s := DeadlineMoved(window, clock, held, ev, alert);
      WatcherEnabled(s, MakeRun(1)) && WatcherNext(s, MakeRun(1)) == Made(window, clock, held, ev, alert)
  {
    var runs: map<RunId, RunStatus> := map[0 := Completed];
    assert runs[1 := Queued] == map[0 := Completed, 1 := Queued];
  }

  lemma LinksIt(window: nat, clock: Time, held: set<string>, ev: AlertEvent, alert: AlertEvent)
    ensures var s := Made(window, clock, held, ev, alert);
      WatcherEnabled(s, LinkReEscalation) && WatcherNext(s, LinkReEscalation) == Escalated(window, clock, held, ev, alert)
  {
    var s := Made(window, clock, held, ev, alert);
    assert !Linked(s.db, 0, 1) && s.watcher.todo[0].id == 0 && s.watcher.todo[1..] == [];
    assert s.db.links + [Link(0, 1, ReEscalation)] == [Link(0, 0, Investigation), Link(0, 1, ReEscalation)];
  }

  lemma WholeParts(window: nat, clock: Time, held: set<string>, ev: AlertEvent, alert: AlertEvent)
    ensures var all, now := WholeRun(window, clock, held, ev, alert), clock + window + 1;
      && FirstHalf(window, clock, held, ev) <= all && Segment(all, 21, Relinking(now)) && |all| == 32
      && Segment(all, 24, Session(1, Query(Strip(alert.alertname), false, false), now))
  {
    hide Strip;
    HalfParts(window, clock, held, WholeRun(window, clock, held, ev, alert), ev);
    hide FirstHalf;
  }

  lemma EscalatedReached(window: nat, clock: Time, held: set<string>, all: seq<Event>, ev: AlertEvent, alert: AlertEvent)
    requires Originates(ev) && ev.status == "firing" && RebuiltEvent(ev.raw) == Some(alert)
    requires all == WholeRun(window, clock, held, ev, alert)
    ensures Reached(window, clock, held, Escalated(window, clock, held, ev, alert), all[..24])
  {
    hide Reached, RebuiltEvent, Originates, WholeRun, FirstHalf, CountRaised, DeadlineMoved, Made, Escalated, WatcherEnabled, WatcherNext;
    var s, now := CountRaised(window, clock, held, ev, alert), clock + window + 1;
    WholeParts(window, clock, held, ev, alert);
    CountRaisedReached(window, clock, held, all, ev, alert);
    SegmentAt(all, 21, Relinking(now), 0);
    SegmentAt(all, 21, Relinking(now), 1);
    SegmentAt(all, 21, Relinking(now), 2);
    MovesIt(window, clock, held, ev, alert);
    MoveWatch(window, clock, held, all, 21, s, RearmDeadline(now), DeadlineMoved(window, clock, held, ev, alert));
    MakesIt(window, clock, held, ev, alert);
    MoveWatch(window, clock, held, all, 22, DeadlineMoved(window, clock, held, ev, alert), MakeRun(1), Made(window, clock, held, ev, alert));
    LinksIt(window, clock, held, ev, alert);
    MoveWatch(window, clock, held, all, 23, Made(window, clock, held, ev, alert), LinkReEscalation, Escalated(window, clock, held, ev, alert));
  }

  lemma WholeRunReached(window: nat, clock: Time, held: set<string>, ev: AlertEvent, alert: AlertEvent)
    requires Originates(ev) && ev.status == "firing" && RebuiltEvent(ev.raw) == Some(alert) && Unheld(alert.alertname, held)
    ensures Reached(window, clock, held, AfterSession(Escalated(window, clock, held, ev, alert), 1, false), WholeRun(window, clock, held, ev, alert))
  {
    hide Reached, AfterSession, RebuiltEvent, Strip;
    var all, s := WholeRun(window, clock, held, ev, alert), Escalated(window, clock, held, ev, alert);
    EscalatedReached(window, clock, held, all, ev, alert);
    WholeParts(window, clock, held, ev, alert);
    SessionRuns(window, clock, held, all, 24, s, 1, Query(Strip(alert.alertname), false, false));
    assert all[..32] == all;
  }

  lemma {:induction false} HeldThroughout(window: nat, clock: Time, held: set<string>, ss: seq<System>, es: seq<Event>, k: nat)
    requires IsRun(window, clock, ss, es) && ss[0].held == held && Holding(es, held) && k < |ss|
    ensures ss[k].held == held
  {
    if k > 0 {
      HeldThroughout(window, clock, held, ss, es, k - 1);
      StepAt(window, clock, ss, es, k - 1);
      HeldStays(ss[k - 1], es[k - 1]);
    }
  }

  lemma HeldStays(s: System, e: Event)
    requires Enabled(s, e)
    ensures Next(s, e).held == if e.Tick? then e.held else s.held
  {
    if !e.Tick? {
      KeepsClock(s, e);
    }
  }

  predicate SomeResolved(s: System) {
    exists i :: i in s.db.incidents && s.db.incidents[i].status == Resolved
  }

  /** With Alertmanager holding exactly `held` throughout and no event but `ev` arriving, an incident
      is resolved in the end. */
  ghost predicate ResolvedUnder(window: nat, clock: Time, held: set<string>, s: System, es: seq<Event>, ev: AlertEvent) {
    Reached(window, clock, held, s, es) && OnlyArrives(es, ev) && Holding(es, held) && SomeResolved(s)
  }

  lemma WholeRunQuiet(window: nat, clock: Time, held: set<string>, ev: AlertEvent, alert: AlertEvent)
    ensures OnlyArrives(WholeRun(window, clock, held, ev, alert), ev) && Holding(WholeRun(window, clock, held, ev, alert), held)
  {
    var now := clock + window + 1;
    FirstHalfQuiet(window, clock, held, ev);
    Quiet(FirstHalf(window, clock, held, ev), Relinking(now), ev, held);
    Quiet(FirstHalf(window, clock, held, ev) + Relinking(now), Session(1, Query(Strip(alert.alertname), false, false), now), ev, held);
  }

  lemma WholeRunCloses(window: nat, clock: Time, held: set<string>, ev: AlertEvent, alert: AlertEvent)
    requires Originates(ev) && ev.status == "firing" && RebuiltEvent(ev.raw) == Some(alert) && Unheld(alert.alertname, held)
    ensures exists s, es :: ResolvedUnder(window, clock, held, s, es, ev)
  {
    WholeRunReached(window, clock, held, ev, alert);
    WholeRunQuiet(window, clock, held, ev, alert);
    var s := AfterSession(Escalated(window, clock, held, ev, alert), 1, false);
    assert 0 in s.db.incidents && s.db.incidents[0].status == Resolved;
    assert ResolvedUnder(window, clock, held, s, WholeRun(window, clock, held, ev, alert), ev);
  }

  /** The first close-out can do it too. */
  lemma FirstRunCloses(window: nat, clock: Time, held: set<string>, ev: AlertEvent)
    requires Originates(ev) && ev.status == "firing" && Unheld(ev.alertname, held)
    ensures exists s, es :: ResolvedUnder(window, clock, held, s, es, ev)
  {
    hide Reached, AfterSession, Strip, OnlyArrives, Holding;
    var q := Query(Strip(ev.alertname), false, false);
    var all, t := Opening(ev) + Session(0, q, clock), AfterSession(Opened(window, clock, held, ev), 0, false);
    FirstSession(window, clock, held, all, ev, q);
    assert all[..14] == all;
    FirstQuiet(ev, q, clock, held);
    WaitsAfter(window, clock, held, ev);
    assert 0 in t.db.incidents;
    assert ResolvedUnder(window, clock, held, t, all, ev);
  }

  // -- the other half: what else a run may ask about --

  predicate AllFrom(s: System, ev: AlertEvent) {
    && (forall h :: h in s.handlers ==> s.handlers[h].ev == ev)
    && (forall n :: 0 <= n < |s.db.alerts| ==> s.db.alerts[n].alertname == ev.alertname && s.db.alerts[n].payload == ev.raw)
  }

  lemma HandlerKeepsFrom(s: System, h: nat, st: HandlerStep, ev: AlertEvent)
    requires HandlerEnabled(s, h, st) && AllFrom(s, ev) && (st.Arrive? ==> st.ev == ev)
    ensures AllFrom(HandlerNext(s, h, st), ev)
  {
  }

  lemma StepKeepsFrom(s: System, e: Event, ev: AlertEvent)
    requires Enabled(s, e) && AllFrom(s, ev) && (e.Handle? && e.hs.Arrive? ==> e.hs.ev == ev)
    ensures AllFrom(Next(s, e), ev)
  {
    match e
    case Handle(h, hs) => HandlerKeepsFrom(s, h, hs, ev);
    case Run(r, rs) => RunTouches(s, r, rs);
    case Watch(ws) => WatcherKeepsFrom(s, ws, ev);
    case Tick(_, _) =>
  }

  lemma WatcherKeepsFrom(s: System, st: WatcherStep, ev: AlertEvent)
    requires WatcherEnabled(s, st) && AllFrom(s, ev)
    ensures AllFrom(WatcherNext(s, st), ev)
  {
  }

  lemma {:induction false} AllFromHolds(window: nat, clock: Time, ss: seq<System>, es: seq<Event>, ev: AlertEvent, k: nat)
    requires IsRun(window, clock, ss, es) && OnlyArrives(es, ev) && k < |ss|
    ensures AllFrom(ss[k], ev)
  {
    if k > 0 {
      AllFromHolds(window, clock, ss, es, ev, k - 1);
      StepKeepsFrom(ss[k - 1], es[k - 1], ev);
    }
  }

  /** Where nothing but `ev` arrives, an inactive answer is about its name or the name it rebuilds to. */
  lemma InactiveIsUnheld(window: nat, clock: Time, ss: seq<System>, es: seq<Event>, ev: AlertEvent, m: nat, r: RunId, i: IncidentId)
    requires IsRun(window, clock, ss, es) && OnlyArrives(es, ev) && InactiveAnswer(ss, es, m, r, i) && Originates(ev)
    ensures ss[m].db.alerts != [] && RebuiltEvent(ev.raw).Some?
    ensures Unheld(ev.alertname, ss[m].held) || Unheld(RebuiltEvent(ev.raw).value.alertname, ss[m].held)
  {
    hide Strip, RebuiltEvent;
    EventRebuilds(ev);
    InvHolds(window, clock, ss, es, m);
    AllFromHolds(window, clock, ss, es, ev, m);
    AskedName(ss[m], i, ss[m].tasks[r].alert);
  }

  lemma ResolvedMeansUnheld(window: nat, clock: Time, held: set<string>, s: System, es: seq<Event>, ev: AlertEvent)
    requires Originates(ev) && ev.status == "firing" && ResolvedUnder(window, clock, held, s, es, ev)
    ensures RebuiltEvent(ev.raw).Some?
    ensures Unheld(ev.alertname, held) || Unheld(RebuiltEvent(ev.raw).value.alertname, held)
  {
    hide Strip, RebuiltEvent, InactiveAnswer;
    var ss: seq<System> :| IsRun(window, clock, ss, es) && ss[0].held == held && ss[|es|] == s;
    var m, r, i := ResolvedByAnswer(window, clock, ss, es, ev);
    InactiveIsUnheld(window, clock, ss, es, ev, m, r, i);
    HeldThroughout(window, clock, held, ss, es, m);
  }

  lemma ResolvedByAnswer(window: nat, clock: Time, ss: seq<System>, es: seq<Event>, ev: AlertEvent) returns (m: nat, r: RunId, i: IncidentId)
    requires IsRun(window, clock, ss, es) && OnlyArrives(es, ev) && ev.status == "firing" && SomeResolved(ss[|es|])
    ensures m < |es| && InactiveAnswer(ss, es, m, r, i)
  {
    hide InactiveAnswer;
    i :| i in ss[|es|].db.incidents && ss[|es|].db.incidents[i].status == Resolved;
    ResolutionsHaveCause(window, clock, ss, es, |es|, i);
    m, r :| 0 <= m < |es| && InactiveAnswer(ss, es, m, r, i);
  }

  /** With Alertmanager holding exactly `held`, a firing event's incident can end up resolved although
      no resolved notification ever came, exactly when the event's own name, or the name that its
      stored payload rebuilds to, is one Alertmanager can be asked about and does not hold. */
  lemma ResolvedUnderIff(window: nat, clock: Time, held: set<string>, ev: AlertEvent)
    requires Originates(ev) && ev.status == "firing"
    ensures RebuiltEvent(ev.raw).Some?
    ensures (exists s, es :: ResolvedUnder(window, clock, held, s, es, ev)) <==>
            Unheld(ev.alertname, held) || Unheld(RebuiltEvent(ev.raw).value.alertname, held)
  {
    hide Unheld, ResolvedUnder;
    EventRebuilds(ev);
    if s, es :| ResolvedUnder(window, clock, held, s, es, ev) {
      ResolvedMeansUnheld(window, clock, held, s, es, ev);
    }
    if Unheld(ev.alertname, held) {
      FirstRunCloses(window, clock, held, ev);
    } else if Unheld(RebuiltEvent(ev.raw).value.alertname, held) {
      WholeRunCloses(window, clock, held, ev, RebuiltEvent(ev.raw).value);
    }
  }

  /** From the first row on Alertmanager holds the event's alert active, and yet an incident is
      resolved in the end, without any event but this one. */
  ghost predicate ClosedWhileFiring(window: nat, clock: Time, ss: seq<System>, es: seq<Event>, ev: AlertEvent) {
    && IsRun(window, clock, ss, es) && OnlyArrives(es, ev)
    && (forall k :: 0 <= k < |ss| && ss[k].db.alerts != [] ==> ev.alertname in ss[k].held)
    && SomeResolved(ss[|es|])
  }

  lemma NotHeldByItsName(ev: AlertEvent, held: set<string>)
    requires Originates(ev) && ev.alertname in held
    ensures RebuiltEvent(ev.raw).Some?
    ensures Unheld(ev.alertname, held) || Unheld(RebuiltEvent(ev.raw).value.alertname, held) ==>
              !KeepsName(ev.raw, ev.alertname) || (Strip(ev.alertname) != "" && Strip(ev.alertname) != ev.alertname)
  {
    EventRebuilds(ev);
  }

  lemma HeldByItsNameOnly(ev: AlertEvent)
    requires Originates(ev)
    requires !KeepsName(ev.raw, ev.alertname) || (Strip(ev.alertname) != "" && Strip(ev.alertname) != ev.alertname)
    ensures RebuiltEvent(ev.raw).Some?
    ensures Unheld(ev.alertname, {ev.alertname}) || Unheld(RebuiltEvent(ev.raw).value.alertname, {ev.alertname})
  {
    EventRebuilds(ev);
    if !KeepsName(ev.raw, ev.alertname) {
      LostName(ev.raw, ev.alertname);
    }
  }

  /** An incident can be closed although Alertmanager holds its alert active all the while exactly when
      the stored payload does not keep the alert's name, so that the re-escalated run asks about
      another one, or when the name has outer blanks, so that every run does. */
  lemma ClosedWhileFiringIff(window: nat, clock: Time, ev: AlertEvent)
    requires Originates(ev) && ev.status == "firing"
    ensures (exists ss, es :: ClosedWhileFiring(window, clock, ss, es, ev)) <==>
            !KeepsName(ev.raw, ev.alertname) || (Strip(ev.alertname) != "" && Strip(ev.alertname) != ev.alertname)
  {
    hide Strip, KeepsName, Unheld, RebuiltEvent;
    if ss: seq<System>, es :| ClosedWhileFiring(window, clock, ss, es, ev) {
      var m, r, i := ResolvedByAnswer(window, clock, ss, es, ev);
      InactiveIsUnheld(window, clock, ss, es, ev, m, r, i);
      NotHeldByItsName(ev, ss[m].held);
    }
    if !KeepsName(ev.raw, ev.alertname) || (Strip(ev.alertname) != "" && Strip(ev.alertname) != ev.alertname) {
      HeldByItsNameOnly(ev);
      ClosesOverItsName(window, clock, ev);
    }
  }

  lemma ClosesOverItsName(window: nat, clock: Time, ev: AlertEvent)
    requires Originates(ev) && ev.status == "firing" && RebuiltEvent(ev.raw).Some?
    requires Unheld(ev.alertname, {ev.alertname}) || Unheld(RebuiltEvent(ev.raw).value.alertname, {ev.alertname})
    ensures exists ss, es :: ClosedWhileFiring(window, clock, ss, es, ev)
  {
    var held := {ev.alertname};
    ResolvedUnderIff(window, clock, held, ev);
    var s, es :| ResolvedUnder(window, clock, held, s, es, ev);
    var ss: seq<System> :| IsRun(window, clock, ss, es) && ss[0].held == held && ss[|es|] == s;
    forall k | 0 <= k < |ss| ensures ss[k].held == held {
      HeldThroughout(window, clock, held, ss, es, k);
    }
    assert ClosedWhileFiring(window, clock, ss, es, ev);
  }

  /** One input: a Grafana webhook that names its alert in the common labels only. */
  const NAMELESS_ENTRY :=
    Payload(None, "", Some([GrafanaAlert(map[], Some("firing"))]), map["alertname" := "slo-avail-fast"], None, Some("firing"))

  lemma NamelessEntryIsClosed(window: nat, clock: Time)
    ensures |Normalized(NAMELESS_ENTRY)| == 1 && Normalized(NAMELESS_ENTRY)[0].alertname == "slo-avail-fast"
    ensures exists ss, es :: ClosedWhileFiring(window, clock, ss, es, Normalized(NAMELESS_ENTRY)[0])
  {
    var ev := Normalized(NAMELESS_ENTRY)[0];
    assert "alertname" in (NAMELESS_ENTRY.commonLabels + map[]);
    assert Originates(ev);
    assert |FALLBACK_NAME| == 13 && |ev.alertname| == 14;
    ClosedWhileFiringIff(window, clock, ev);
  }

  /** Another: an entry whose own alert name ends in a blank. */
  const BLANK_ENDED :=
    Payload(None, "", Some([GrafanaAlert(map["alertname" := "slo-avail-fast "], Some("firing"))]), map[], None, Some("firing"))

  lemma BlankEndedIsClosed(window: nat, clock: Time)
    ensures |Normalized(BLANK_ENDED)| == 1 && Normalized(BLANK_ENDED)[0].alertname == "slo-avail-fast "
    ensures KeepsName(Normalized(BLANK_ENDED)[0].raw, "slo-avail-fast ")
    ensures exists ss, es :: ClosedWhileFiring(window, clock, ss, es, Normalized(BLANK_ENDED)[0])
  {
    var ev := Normalized(BLANK_ENDED)[0];
    assert "alertname" in (map[] + map["alertname" := "slo-avail-fast "]);
    assert Originates(ev);
    StripsBlank("slo-avail-fast");
    ClosedWhileFiringIff(window, clock, ev);
  }

  lemma StripsBlank(name: string)
    requires name != "" && !IsSpace(name[0]) && !IsSpace(name[|name| - 1])
    ensures Strip(name + " ") == name && Strip(name) == name
  {
    var s := name + " ";
    assert LStrip(s) == s && s[..|s| - 1] == name && LStrip(name) == name && RStrip(name) == name;
  }

  // -- a gitops incident --

  /** An answer without an error resolves the incident, or confirms its recovery, exactly when no alert
      of the stripped name is held. */
  lemma AnswerDecides(s: System, r: RunId, q: RunStep)
    requires q.Query? && !q.error && RunEnabled(s, r, q)
    ensures AboutToResolve(RunNext(s, r, q).tasks[r].phase) <==> Unheld(s.tasks[r].alert.alertname, s.held)
    ensures var decision := RunNext(s, r, q).tasks[r].phase.decision;
      decision == VerifyIt || decision == KeepDeadline <==> s.tasks[r].phase.remediated
  {
    hide Strip;
  }

  /** Every run of a gitops incident asks about the name of the notification: as long as Alertmanager
      holds no such alert, the first close-out whose question does not fail closes the incident,
      whatever became of the cluster. */
  lemma GitopsCloses(window: nat, clock: Time, ss: seq<System>, es: seq<Event>, ev: AlertEvent, k: nat, r: RunId, q: RunStep)
    requires IsRun(window, clock, ss, es) && OnlyArrives(es, ev) && Originates(ev) && ev.raw.Whole?
    requires k < |es| && es[k] == Run(r, q) && q.Query? && !q.error
    ensures q.asked == Strip(ev.alertname)
    ensures r in ss[k + 1].tasks && (AboutToResolve(ss[k + 1].tasks[r].phase) <==> Strip(ev.alertname) !in ss[k].held)
  {
    hide Strip, RebuiltEvent;
    StepAt(window, clock, ss, es, k);
    EventRebuilds(ev);
    InvHolds(window, clock, ss, es, k);
    AllFromHolds(window, clock, ss, es, ev, k);
    AskedName(ss[k], ss[k].tasks[r].incident, ss[k].tasks[r].alert);
    AnswerDecides(ss[k], r, q);
  }

  /** The input: a failed sync, and Alertmanager without any alert. */
  const FAILED_SYNC := Payload(Some("on-sync-failed"), "gateway", None, map[], None, None)

  lemma FailedSyncIsClosed(window: nat, clock: Time)
    ensures |Normalized(FAILED_SYNC)| == 1 && Normalized(FAILED_SYNC)[0].status == "firing"
    ensures exists s, es :: ResolvedUnder(window, clock, {}, s, es, Normalized(FAILED_SYNC)[0])
  {
    var ev := Normalized(FAILED_SYNC)[0];
    assert Originates(ev);
    assert ev.alertname == "on-sync-failed" && !IsSpace(ev.alertname[0]) && !IsSpace(ev.alertname[13]);
    StripsBlank(ev.alertname);
    ResolvedUnderIff(window, clock, {}, ev);
  }
}
