/** The approval endpoint's own write: a decision that reaches no parked waiter marks the run as ended,
    whether or not it still works. When that is harmless, and when it lets a second run join. */
module IncidentEndpoint {
  import opened Options
  import opened Ingress
  import opened IncidentTables
  import opened IncidentProtocol
  import opened IncidentInvariants
  import opened IncidentRuns
  import opened IncidentTiming
  import opened IncidentAlerts
  import opened IncidentSafety
  import opened IncidentScenarios
  import opened IncidentClosing
  import opened IncidentGaps

  /** The run got far enough to ask for an approval, and the operator has decided. */
  predicate MayReflect(s: System, r: RunId, status: RunStatus) {
    && r in s.tasks && !s.tasks[r].phase.Spawned? && !s.tasks[r].phase.Preparing?
    && (status == Completed || status == Denied)
  }

  function Reflected(s: System, r: RunId, status: RunStatus): System {
    s.(db := SetStatus(s.db, r, status))
  }

  predicate Live(s: System, r: RunId) {
    r in s.tasks && s.tasks[r].phase != Over
  }

  /** Two runs are at work on one incident. */
  ghost predicate TwoLive(s: System, i: IncidentId) {
    exists a, b :: 0 <= a < b < |s.db.links| && s.db.links[a].incident == i && s.db.links[b].incident == i
      && Live(s, s.db.links[a].run) && Live(s, s.db.links[b].run)
  }

  lemma NeverTwoLive(s: System, i: IncidentId)
    requires LinksInv(s)
    ensures !TwoLive(s, i)
  {
    forall a, b | 0 <= a < b < |s.db.links| && s.db.links[a].incident == i && s.db.links[b].incident == i
      ensures !Live(s, s.db.links[a].run)
    {
      assert Ended(s, s.db.links[a].run);
    }
  }

  // ---- a run that is over ----

  datatype Act = Step(e: Event) | Reflect(r: RunId, status: RunStatus)

  ghost predicate CanAct(s: System, a: Act) {
    match a
    case Step(e) => Enabled(s, e)
    case Reflect(r, status) => MayReflect(s, r, status)
  }

  ghost function AfterAct(s: System, a: Act): System
    requires CanAct(s, a)
  {
    match a
    case Step(e) => Next(s, e)
    case Reflect(r, status) => Reflected(s, r, status)
  }

  /** A run of the protocol together with the endpoint. */
  ghost predicate IsActed(window: nat, clock: Time, ss: seq<System>, acts: seq<Act>) {
    && |ss| == |acts| + 1 && ss[0] == Init(window, clock, ss[0].held)
    && forall k :: 0 <= k < |acts| ==> CanAct(ss[k], acts[k]) && ss[k + 1] == AfterAct(ss[k], acts[k])
  }

  /** Only the status of one run that is over differs, and it says so before and after. */
  ghost predicate Restated(s: System, t: System, r: RunId) {
    && t == s.(db := s.db.(runs := t.db.runs)) && Ended(s, r)
    && t.db.runs.Keys == s.db.runs.Keys && (forall q :: q in s.db.runs && q != r ==> t.db.runs[q] == s.db.runs[q])
    && (r in t.db.runs ==> !InFlight(t.db.runs[r]))
  }

  lemma RestatedKeys(s: System, t: System)
    requires KeysInv(s) && t == s.(db := s.db.(runs := t.db.runs))
    ensures KeysInv(t)
  {
    assert forall h :: h in s.handlers ==> HandlerKeyed(s, s.handlers[h]);
    assert forall k :: 0 <= k < |s.db.alerts| ==> RowKeyed(s, s.db.alerts[k]);
    assert forall q :: q in s.tasks ==> TaskJustified(s, s.tasks[q]);
    assert forall i :: i in s.db.incidents ==> ResolutionJustified(s, i);
  }

  lemma RestatedLinks(s: System, t: System, r: RunId)
    requires LinksInv(s) && Restated(s, t, r)
    ensures LinksInv(t)
  {
    forall q | q in t.tasks ensures TaskKnown(t, q) {
      assert TaskKnown(s, q);
    }
    forall k | 0 <= k < |t.db.links| ensures LinkKnown(t, t.db.links[k]) {
      assert LinkKnown(s, s.db.links[k]);
    }
    forall k, l | 0 <= k < l < |t.db.links| && t.db.links[k].incident == t.db.links[l].incident ensures Ended(t, t.db.links[k].run) {
      assert Ended(s, s.db.links[k].run);
    }
  }

  lemma RestatedPending(s: System, t: System, r: RunId)
    requires PendingInv(s) && Restated(s, t, r)
    ensures PendingInv(t)
  {
    assert forall i :: HasLink(s.db, i) <==> HasLink(t.db, i);
    assert forall q :: Fresh(s, q) ==> Fresh(t, q);
  }

  lemma RestatedWatcher(s: System, t: System)
    requires WatcherInv(s) && t == s.(db := s.db.(runs := t.db.runs))
    ensures WatcherInv(t)
  {
    assert forall i :: AllEnded(s, i) ==> AllEnded(t, i) by {
      forall i | AllEnded(s, i) ensures AllEnded(t, i) {
        assert forall k :: 0 <= k < |t.db.links| && t.db.links[k].incident == i ==> Ended(s, t.db.links[k].run);
      }
    }
    WatcherInvCarry(s, t);
  }

  lemma RestatedCounts(s: System, t: System)
    requires CountsInv(s) && TimeInv(s) && t == s.(db := s.db.(runs := t.db.runs))
    ensures CountsInv(t) && TimeInv(t)
  {
    assert forall i :: i in s.db.incidents ==> Counted(s, i);
    assert forall k :: 0 <= k < |s.log| ==> Logged(s, s.log[k]) && Covered(s, k);
  }

  lemma RestatedAlerts(s: System, t: System)
    requires AlertsInv(s) && t == s.(db := s.db.(runs := t.db.runs))
    ensures AlertsInv(t)
  {
    InvestigatesGrows(s, t);
    FromRowGrows(s.db, t.db);
    AlertsCarry(s, t);
  }

  lemma ReflectKeepsInv(s: System, r: RunId, status: RunStatus)
    requires Inv(s) && AlertsInv(s) && Ended(s, r) && !InFlight(status)
    ensures Inv(Reflected(s, r, status)) && AlertsInv(Reflected(s, r, status))
  {
    var t := Reflected(s, r, status);
    hide Reflected, SettledInv, Restated, KeysInv, LinksInv, PendingInv, WatcherInv, CountsInv, TimeInv, AlertsInv;
    ReflectRestates(s, r, status);
    RestatedIs(s, t, r);
    RestatedKeys(s, t);
    RestatedLinks(s, t, r);
    RestatedPending(s, t, r);
    RestatedWatcher(s, t);
    RestatedCounts(s, t);
    RestatedAlerts(s, t);
    RestatedSettled(s, t);
  }

  lemma ReflectRestates(s: System, r: RunId, status: RunStatus)
    requires Ended(s, r) && !InFlight(status)
    ensures Restated(s, Reflected(s, r, status), r)
  {
  }

  lemma RestatedIs(s: System, t: System, r: RunId)
    requires Restated(s, t, r)
    ensures t == s.(db := s.db.(runs := t.db.runs))
  {
  }

  lemma RestatedSettled(s: System, t: System)
    requires SettledInv(s) && KeysInv(s) && t == s.(db := s.db.(runs := t.db.runs))
    ensures SettledInv(t)
  {
    hide KeysInv;
    SettledCarryOthers(s, t);
  }

  lemma ActKeepsInv(s: System, a: Act)
    requires Inv(s) && AlertsInv(s) && CanAct(s, a) && (a.Reflect? ==> Ended(s, a.r))
    ensures Inv(AfterAct(s, a)) && AlertsInv(AfterAct(s, a))
  {
    hide Inv, AlertsInv, Enabled, Next, Ended, Reflected;
    match a
    case Step(e) =>
      StepKeepsInv(s, e);
      StepKeepsAlerts(s, e);
    case Reflect(r, status) => ReflectKeepsInv(s, r, status);
  }

  lemma {:induction false} ActedInv(window: nat, clock: Time, ss: seq<System>, acts: seq<Act>, k: nat)
    requires IsActed(window, clock, ss, acts) && k < |ss|
    requires forall j :: 0 <= j < |acts| && acts[j].Reflect? ==> Ended(ss[j], acts[j].r)
    ensures Inv(ss[k]) && AlertsInv(ss[k])
  {
    hide Inv, AlertsInv, CanAct, AfterAct, Ended;
    if k == 0 {
      InitHolds(window, clock, ss[0].held);
    } else {
      ActedInv(window, clock, ss, acts, k - 1);
      ActKeepsInv(ss[k - 1], acts[k - 1]);
    }
  }

  lemma InitHolds(window: nat, clock: Time, held: set<string>)
    ensures Inv(Init(window, clock, held)) && AlertsInv(Init(window, clock, held))
  {
    InitInv(window, clock, held);
  }

  /** As long as the endpoint writes only for runs that are over, no two runs are ever at work on one
      incident, whatever else happens. */
  lemma LateDecisionsAreHarmless(window: nat, clock: Time, ss: seq<System>, acts: seq<Act>, k: nat, i: IncidentId)
    requires IsActed(window, clock, ss, acts) && k < |ss|
    requires forall j :: 0 <= j < |acts| && acts[j].Reflect? ==> Ended(ss[j], acts[j].r)
    ensures !TwoLive(ss[k], i)
  {
    ActedInv(window, clock, ss, acts, k);
    NeverTwoLive(ss[k], i);
  }

  // ---- a run at work ----

  /** From `s` to `t` by the watcher and the clock alone. */
  ghost predicate Alone(s: System, t: System) {
    exists ss, es :: AloneRun(ss, es, s, t)
  }

  ghost predicate AloneRun(ss: seq<System>, es: seq<Event>, s: System, t: System) {
    && |ss| == |es| + 1 && ss[0] == s && ss[|es|] == t
    && forall k :: 0 <= k < |es| ==> (es[k].Watch? || es[k].Tick?) && Enabled(ss[k], es[k]) && ss[k + 1] == Next(ss[k], es[k])
  }

  lemma AloneOn(s: System, t: System, e: Event, u: System)
    requires Alone(s, t) && (e.Watch? || e.Tick?) && Enabled(t, e) && u == Next(t, e)
    ensures Alone(s, u)
  {
    hide Enabled, Next;
    var ss, es :| AloneRun(ss, es, s, t);
    var longer, more := ss + [u], es + [e];
    forall k | 0 <= k < |more| ensures (more[k].Watch? || more[k].Tick?) && Enabled(longer[k], more[k]) && longer[k + 1] == Next(longer[k], more[k]) {
      if k < |es| {
        assert longer[k] == ss[k] && longer[k + 1] == ss[k + 1] && more[k] == es[k];
      } else {
        assert longer[k] == t && longer[k + 1] == u && more[k] == e;
      }
    }
    assert AloneRun(longer, more, s, u);
  }

  lemma WatchesOn(s: System, t: System, st: WatcherStep, u: System)
    requires Alone(s, t) && WatcherEnabled(t, st) && u == WatcherNext(t, st)
    ensures Alone(s, u)
  {
    AloneOn(s, t, Watch(st), u);
  }

  /** What the watcher goes by once the run is reported ended. */
  predicate Escalatable(t: Tables, i: IncidentId) {
    && i in t.incidents && t.incidents[i].status == Open && t.incidents[i].deadline.Some?
    && t.incidents[i].escalations < 3 && Fires(FeedOf(t, i))
  }

  lemma {:induction false} NewestStatus(t: Tables, links: seq<Link>, i: IncidentId, a: nat)
    requires a < |links| && links[a].incident == i && links[a].run in t.runs
    requires forall b :: a < b < |links| ==> links[b].incident != i
    ensures LatestRunStatus(t, links, i) == Some(t.runs[links[a].run])
  {
    if a < |links| - 1 {
      NewestStatus(t, links[..|links| - 1], i, a);
    }
  }

  /** Once it is reported ended, its incident's newest run is. */
  lemma ReportedEnded(s: System, r: RunId, status: RunStatus)
    requires LinksInv(s) && Live(s, r) && !InFlight(status)
    ensures var i := s.tasks[r].incident; var t := Reflected(s, r, status).db;
      && LatestRunStatus(t, t.links, i) == Some(status)
      && exists a :: 0 <= a < |s.db.links| && s.db.links[a] == Link(i, r, s.db.links[a].kind)
  {
    var i, t := s.tasks[r].incident, Reflected(s, r, status).db;
    assert TaskKnown(s, r);
    var a :| 0 <= a < |s.db.links| && s.db.links[a].incident == i && s.db.links[a].run == r;
    forall b | a < b < |t.links| ensures t.links[b].incident != i {
      assert t.links[b].incident == i ==> Ended(s, r);
    }
    NewestStatus(t, t.links, i, a);
    assert s.db.links[a] == Link(i, r, s.db.links[a].kind);
  }

  function Later(a: Time, b: Time): Time { if a < b then b else a }

  /** The watcher, left alone, comes to choose the incident. */
  lemma ComesBack(s: System, i: IncidentId) returns (t: System, todo: seq<Snapshot>)
    requires s.watcher.Idle? && Escalatable(s.db, i)
    requires var latest := LatestRunStatus(s.db, s.db.links, i); latest.Some? ==> !InFlight(latest.value)
    ensures Alone(s, t) && todo != [] && todo[0].id == i
    ensures t == s.(clock := t.clock, watcher := Chosen(t.clock, todo))
  {
    hide PollResult, LatestRunStatus, Fires;
    var now := Later(s.clock, s.db.incidents[i].deadline.value + 1);
    var s1 := s.(clock := now);
    assert AloneRun([s], [], s, s);
    hide Alone;
    AloneOn(s, s, Tick(now, s.held), s1);
    WatchesOn(s, s1, ReadClock, s1.(watcher := ClockRead(now)));
    todo := ListedFirst(s.db, now, i);
    var s2 := s1.(watcher := Polling(now, todo));
    WatchesOn(s, s1.(watcher := ClockRead(now)), WatcherStep.Poll(todo), s2);
    ChosenAgain(s2, i, todo);
    var s3 := s2.(watcher := FeedRead(now, todo, FeedOf(s2.db, i)));
    WatchesOn(s, s2, ReadFeed, s3);
    t := s2.(watcher := Chosen(now, todo));
    WatchesOn(s, s3, Choose, t);
  }

  lemma {:induction false} FreshRunId(runs: set<RunId>) returns (r: RunId)
    ensures forall q :: q in runs ==> q < r
    decreases runs
  {
    if runs == {} {
      r := 0;
    } else {
      var q :| q in runs;
      var above := FreshRunId(runs - {q});
      assert forall p :: p in runs && p != q ==> p in runs - {q};
      r := if q < above then above else q + 1;
    }
  }

  /** And counts the escalation. */
  lemma CountsAnother(s: System, t: System, i: IncidentId, todo: seq<Snapshot>, alert: AlertEvent, n: nat) returns (u: System)
    requires Alone(s, t) && todo != [] && todo[0].id == i && t.watcher == Chosen(t.clock, todo)
    requires NewestFiring(t.db.alerts, i, n) && RebuiltEvent(t.db.alerts[n].payload) == Some(alert)
    ensures Alone(s, u) && u.watcher == Rearmed(t.clock, todo, alert) && u.tasks == t.tasks
    ensures u.db.links == t.db.links && u.db.runs == t.db.runs
  {
    hide Alone, RebuiltEvent, NewestFiring;
    var u1 := t.(watcher := Loaded(t.clock, todo, alert));
    WatchesOn(s, t, Load(Some(n)), u1);
    var u2 := WatcherNext(u1, Bump);
    WatchesOn(s, u1, Bump, u2);
    u := WatcherNext(u2, RearmDeadline(t.clock));
    WatchesOn(s, u2, RearmDeadline(t.clock), u);
  }

  /** And links a new run to it. */
  lemma LinksAnother(s: System, t: System, i: IncidentId, todo: seq<Snapshot>) returns (u: System, r: RunId)
    requires Alone(s, t) && todo != [] && todo[0].id == i && t.watcher == Chosen(t.clock, todo)
    requires Fires(FeedOf(t.db, i)) && forall k :: 0 <= k < |t.db.alerts| ==> RowOriginates(t.db.alerts[k])
    ensures Alone(s, u) && r !in t.db.runs && u.db.links == LinkRun(t.db, i, r, ReEscalation).links
    ensures r in u.tasks && u.tasks[r].phase == Spawned && forall q :: q in t.tasks && q != r ==> q in u.tasks && u.tasks[q] == t.tasks[q]
  {
    hide Alone, NewestFiring, RebuiltEvent;
    var n := FiringRow(t.db, i);
    var alert := RebuiltEvent(t.db.alerts[n].payload).value;
    r := FreshRunId(t.db.runs.Keys);
    assert r !in t.db.runs.Keys;
    var v := CountsAnother(s, t, i, todo, alert, n);
    hide WatcherEnabled, WatcherNext;
    u := Joined(v, i, todo, alert, r);
    LinksFresh(v, i, todo, alert, r);
    SameLinks(t.db, v.db, i, r);
    WatchesOn(s, v, MakeRun(r), WatcherNext(v, MakeRun(r)));
    WatchesOn(s, WatcherNext(v, MakeRun(r)), LinkReEscalation, u);
  }

  function Joined(v: System, i: IncidentId, todo: seq<Snapshot>, alert: AlertEvent, r: RunId): System
    requires todo != [] && v.watcher.Rearmed?
  {
    v.(watcher := Polling(v.watcher.now, todo[1..]), db := LinkRun(CreateRun(v.db, r), i, r, ReEscalation),
       tasks := v.tasks[r := NewTask(i, alert)])
  }

  lemma LinksFresh(v: System, i: IncidentId, todo: seq<Snapshot>, alert: AlertEvent, r: RunId)
    requires todo != [] && todo[0].id == i && v.watcher.Rearmed? && v.watcher.todo == todo && v.watcher.alert == alert && r !in v.db.runs
    ensures WatcherEnabled(v, MakeRun(r)) && WatcherEnabled(WatcherNext(v, MakeRun(r)), LinkReEscalation)
    ensures WatcherNext(WatcherNext(v, MakeRun(r)), LinkReEscalation) == Joined(v, i, todo, alert, r)
    ensures Joined(v, i, todo, alert, r).db.links == LinkRun(v.db, i, r, ReEscalation).links
  {
  }

  lemma SameLinks(t: Tables, u: Tables, i: IncidentId, r: RunId)
    requires u.links == t.links
    ensures LinkRun(u, i, r, ReEscalation).links == LinkRun(t, i, r, ReEscalation).links
  {
  }

  lemma SecondJoins(s: System, r: RunId, status: RunStatus)
    requires Inv(s) && AlertsInv(s) && Live(s, r) && MayReflect(s, r, status) && s.watcher.Idle? && Escalatable(s.db, s.tasks[r].incident)
    ensures exists t :: Alone(Reflected(s, r, status), t) && TwoLive(t, s.tasks[r].incident)
  {
    hide Alone, Escalatable, AlertsInv, KeysInv, PendingInv, WatcherInv, CountsInv, TimeInv, SettledInv, FeedOf, Fires;
    var i, w := s.tasks[r].incident, Reflected(s, r, status);
    ReportedEnded(s, r, status);
    SameRows(s, w, i);
    var t, todo := ComesBack(w, i);
    var u, q := LinksAnother(w, t, i, todo);
    assert TaskKnown(s, r);
    TasksHaveRuns(s);
    NotLinked(s, i, q);
    JoinedAreLive(s, u, i, r, q);
  }

  lemma SameRows(s: System, w: System, i: IncidentId)
    requires AlertsInv(s) && Escalatable(s.db, i) && w.db == s.db.(runs := w.db.runs)
    ensures Escalatable(w.db, i) && Fires(FeedOf(w.db, i)) && forall k :: 0 <= k < |w.db.alerts| ==> RowOriginates(w.db.alerts[k])
  {
  }

  lemma JoinedAreLive(s: System, u: System, i: IncidentId, r: RunId, q: RunId)
    requires exists a :: 0 <= a < |s.db.links| && s.db.links[a] == Link(i, r, s.db.links[a].kind)
    requires u.db.links == s.db.links + [Link(i, q, ReEscalation)] && Live(u, r) && Live(u, q)
    ensures TwoLive(u, i)
  {
    var a :| 0 <= a < |s.db.links| && s.db.links[a] == Link(i, r, s.db.links[a].kind);
    assert u.db.links[a] == s.db.links[a] && u.db.links[|s.db.links|] == Link(i, q, ReEscalation);
  }

  // -- otherwise nobody joins --

  /** The incident as it was, and nothing underway that could escalate it. */
  ghost predicate LeftAlone(s: System, t: System, i: IncidentId) {
    && i in s.db.incidents && i in t.db.incidents && t.db.incidents[i] == s.db.incidents[i]
    && t.db.alerts == s.db.alerts && s.db.links <= t.db.links
    && (forall k :: |s.db.links| <= k < |t.db.links| ==> t.db.links[k].incident != i)
    && (forall q :: q in s.tasks ==> q in t.db.runs && q in t.tasks && t.tasks[q] == s.tasks[q])
    && UnheadedBy(s, t.watcher, i) && (t.watcher.RunMade? ==> t.watcher.run !in s.tasks)
  }

  predicate UnheadedBy(s: System, w: Watcher, i: IncidentId)
    requires i in s.db.incidents
  {
    w.Idle? || w.ClockRead? ||
    (&& (forall k :: 0 <= k < |w.todo| && w.todo[k].id == i ==> w.todo[k].row == s.db.incidents[i] && Due(w.todo[k].row, w.now))
     && (w.FeedRead? && w.todo != [] && w.todo[0].id == i ==> w.feed == FeedOf(s.db, i))
     && (Busy(w) && w.todo != [] ==> w.todo[0].id != i))
  }

  lemma WatcherLeavesAlone(s: System, t: System, i: IncidentId, st: WatcherStep)
    requires LeftAlone(s, t, i) && WatcherEnabled(t, st) && !Escalatable(s.db, i)
    ensures LeftAlone(s, WatcherNext(t, st), i)
  {
    WatcherUnheads(s, t, i, st);
    WatcherKeepsOthers(s, t, i, st);
    hide WatcherEnabled, WatcherNext, UnheadedBy, Escalatable;
  }

  lemma WatcherKeepsOthers(s: System, t: System, i: IncidentId, st: WatcherStep)
    requires LeftAlone(s, t, i) && WatcherEnabled(t, st)
    ensures var u := WatcherNext(t, st);
      && i in u.db.incidents && u.db.incidents[i] == s.db.incidents[i]
      && u.db.alerts == s.db.alerts && s.db.links <= u.db.links
      && (forall k :: |s.db.links| <= k < |u.db.links| ==> u.db.links[k].incident != i)
      && (forall q :: q in s.tasks ==> q in u.db.runs && q in u.tasks && u.tasks[q] == s.tasks[q])
      && (u.watcher.RunMade? ==> u.watcher.run !in s.tasks)
  {
    hide LatestRunStatus, LastSeen, RebuiltEvent, NewestFiring, EscalationDue, PollResult, FeedOf;
  }

  lemma WatcherUnheads(s: System, t: System, i: IncidentId, st: WatcherStep)
    requires LeftAlone(s, t, i) && WatcherEnabled(t, st) && !Escalatable(s.db, i)
    ensures UnheadedBy(s, WatcherNext(t, st).watcher, i)
  {
    hide LatestRunStatus, LastSeen, RebuiltEvent, NewestFiring;
  }

  lemma {:induction false} StaysAlone(s: System, ss: seq<System>, es: seq<Event>, w: System, t: System, i: IncidentId, k: nat)
    requires AloneRun(ss, es, w, t) && LeftAlone(s, w, i) && !Escalatable(s.db, i) && k < |ss|
    ensures LeftAlone(s, ss[k], i)
  {
    hide LeftAlone, Escalatable;
    if k > 0 {
      StaysAlone(s, ss, es, w, t, i, k - 1);
      match es[k - 1]
      case Watch(st) => WatcherLeavesAlone(s, ss[k - 1], i, st);
      case Tick(_, _) => TickLeavesAlone(s, ss[k - 1], ss[k], i);
    }
  }

  lemma TickLeavesAlone(s: System, t: System, u: System, i: IncidentId)
    requires LeftAlone(s, t, i) && u == t.(clock := u.clock, held := u.held)
    ensures LeftAlone(s, u, i)
  {
  }

  lemma NobodyJoins(s: System, t: System, i: IncidentId)
    requires LinksInv(s) && LeftAlone(s, t, i)
    ensures !TwoLive(t, i)
  {
    NeverTwoLive(s, i);
    forall a, b | 0 <= a < b < |t.db.links| && t.db.links[a].incident == i && t.db.links[b].incident == i
      ensures !(Live(t, t.db.links[a].run) && Live(t, t.db.links[b].run))
    {
      assert t.db.links[a] == s.db.links[a] && t.db.links[b] == s.db.links[b];
      assert LinkKnown(s, s.db.links[a]) && LinkKnown(s, s.db.links[b]);
    }
  }

  lemma ReflectLeavesAlone(s: System, r: RunId, status: RunStatus)
    requires Inv(s) && r in s.tasks && s.watcher.Idle?
    ensures LeftAlone(s, Reflected(s, r, status), s.tasks[r].incident)
  {
    assert TaskJustified(s, s.tasks[r]);
    assert forall q :: q in s.tasks ==> TaskKnown(s, q);
  }

  /** A decision that reaches a run at work outside its wait, while the watcher is between two rounds: it
      lets the watcher alone bring a second run to the incident exactly when the incident is open under a
      deadline, has an escalation left, and its newest firing observation is newer than its resolved ones. */
  lemma EarlyDecisionIff(window: nat, clock: Time, ss: seq<System>, es: seq<Event>, k: nat, r: RunId, status: RunStatus)
    requires IsRun(window, clock, ss, es) && k < |ss| && Live(ss[k], r) && MayReflect(ss[k], r, status) && ss[k].watcher.Idle?
    ensures var i := ss[k].tasks[r].incident;
      (exists t :: Alone(Reflected(ss[k], r, status), t) && TwoLive(t, i)) <==> Escalatable(ss[k].db, i)
  {
    hide Alone, TwoLive, Escalatable, Reflected;
    var s, i := ss[k], ss[k].tasks[r].incident;
    InvHolds(window, clock, ss, es, k);
    if Escalatable(s.db, i) {
      SecondJoins(s, r, status);
    } else {
      forall t | Alone(Reflected(s, r, status), t) ensures !TwoLive(t, i) {
        NoneJoins(s, r, status, t);
      }
    }
  }

  lemma NoneJoins(s: System, r: RunId, status: RunStatus, t: System)
    requires Inv(s) && r in s.tasks && s.watcher.Idle? && !Escalatable(s.db, s.tasks[r].incident) && Alone(Reflected(s, r, status), t)
    ensures !TwoLive(t, s.tasks[r].incident)
  {
    hide LeftAlone, Escalatable, Reflected, TwoLive;
    var run, steps :| AloneRun(run, steps, Reflected(s, r, status), t);
    ReflectLeavesAlone(s, r, status);
    StaysAlone(s, run, steps, Reflected(s, r, status), t, s.tasks[r].incident, |steps|);
    NobodyJoins(s, t, s.tasks[r].incident);
  }

  // -- and it is reached --

  /** The re-escalated run is in its session, and the watcher between two rounds. */
  function AtWork(window: nat, clock: Time, held: set<string>, ev: AlertEvent, alert: AlertEvent): System {
    var s := Escalated(window, clock, held, ev, alert);
    s.(db := s.db.(runs := map[0 := Completed, 1 := Running]), tasks := s.tasks[1 := NewTask(0, alert).(phase := InSession)],
       watcher := Idle)
  }

  lemma GetsToWork(window: nat, clock: Time, held: set<string>, ev: AlertEvent, alert: AlertEvent)
    ensures var s := Escalated(window, clock, held, ev, alert);
      && WatcherEnabled(s, EndPoll) && WatcherNext(s, EndPoll) == s.(watcher := Idle)
      && RunEnabled(s.(watcher := Idle), 1, Begin) && var t := RunNext(s.(watcher := Idle), 1, Begin);
      && RunEnabled(t, 1, StartSession) && RunNext(t, 1, StartSession) == AtWork(window, clock, held, ev, alert)
  {
    var runs: map<RunId, RunStatus> := map[0 := Completed, 1 := Queued];
    assert runs[1 := Running] == map[0 := Completed, 1 := Running];
  }

  lemma AtWorkReached(window: nat, clock: Time, held: set<string>, ev: AlertEvent, alert: AlertEvent) returns (es: seq<Event>)
    requires Originates(ev) && ev.status == "firing" && RebuiltEvent(ev.raw) == Some(alert)
    ensures Reached(window, clock, held, AtWork(window, clock, held, ev, alert), es)
  {
    hide Reached, RebuiltEvent, Originates, Escalated, AtWork, WatcherEnabled, WatcherNext, RunEnabled, RunNext;
    var whole, s := WholeRun(window, clock, held, ev, alert), Escalated(window, clock, held, ev, alert);
    EscalatedReached(window, clock, held, whole, ev, alert);
    es := whole[..24] + [Watch(EndPoll), Run(1, Begin), Run(1, StartSession)];
    assert es[..24] == whole[..24] && es[..27] == es;
    GetsToWork(window, clock, held, ev, alert);
    var t := RunNext(s.(watcher := Idle), 1, Begin);
    MoveWatch(window, clock, held, es, 24, s, EndPoll, s.(watcher := Idle));
    MoveRun(window, clock, held, es, 25, s.(watcher := Idle), 1, Begin, t);
    MoveRun(window, clock, held, es, 26, t, 1, StartSession, AtWork(window, clock, held, ev, alert));
  }

  lemma AtWorkEscalates(window: nat, clock: Time, held: set<string>, ev: AlertEvent, alert: AlertEvent, status: RunStatus)
    requires ev.status == "firing" && (status == Completed || status == Denied)
    ensures var s := AtWork(window, clock, held, ev, alert);
      Live(s, 1) && MayReflect(s, 1, status) && s.watcher.Idle? && s.tasks[1].incident == 0 && Escalatable(s.db, 0)
  {
    FeedOfOne(AtWork(window, clock, held, ev, alert).db, clock);
  }

  /** The run: for every firing event the incident's second run can be at work when an early decision
      has a third one join it. */
  lemma EarlyDecisionDoubles(window: nat, clock: Time, held: set<string>, ev: AlertEvent, status: RunStatus)
    requires Originates(ev) && ev.status == "firing" && (status == Completed || status == Denied)
    ensures exists s, es, t ::
              && Reached(window, clock, held, s, es) && Live(s, 1) && MayReflect(s, 1, status)
              && Alone(Reflected(s, 1, status), t) && TwoLive(t, s.tasks[1].incident)
  {
    hide RebuiltEvent, Originates, Alone, TwoLive, Reflected, Escalatable, AtWork;
    EventRebuilds(ev);
    var alert := RebuiltEvent(ev.raw).value;
    var s := AtWork(window, clock, held, ev, alert);
    var es := AtWorkReached(window, clock, held, ev, alert);
    AtWorkEscalates(window, clock, held, ev, alert, status);
    var ss: seq<System> :| IsRun(window, clock, ss, es) && ss[0].held == held && ss[|es|] == s;
    EarlyDecisionIff(window, clock, ss, es, |es|, 1, status);
  }
}
