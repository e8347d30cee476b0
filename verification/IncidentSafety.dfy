/** What the incident protocol guarantees over every run and every interleaving. */
module IncidentSafety {
  import opened Options
  import opened Ingress
  import opened IncidentTables
  import opened IncidentProtocol
  import opened IncidentInvariants
  import opened IncidentKeys
  import opened IncidentRuns
  import opened IncidentTiming
  import opened IncidentAlerts
  import opened Text

  lemma HandlersKeepInv(s: System, h: nat, st: HandlerStep)
    requires Inv(s) && HandlerEnabled(s, h, st)
    ensures Inv(HandlerNext(s, h, st))
  {
    HandlersKeepKeys(s, h, st);
    HandlersKeepLinks(s, h, st);
    HandlersKeepPending(s, h, st);
    HandlersKeepWatcher(s, h, st);
    HandlersKeepCounts(s, h, st);
    HandlersKeepTime(s, h, st);
    HandlerTouches(s, h, st);
    HandlerWritesOnly(s, h, st);
    SettledCarryOthers(s, HandlerNext(s, h, st));
  }

  lemma RunsKeepInv(s: System, r: RunId, st: RunStep)
    requires Inv(s) && RunEnabled(s, r, st)
    ensures Inv(RunNext(s, r, st))
  {
    RunsKeepKeys(s, r, st);
    RunsKeepLinks(s, r, st);
    RunsKeepPending(s, r, st);
    RunsKeepWatcher(s, r, st);
    RunsKeepCounts(s, r, st);
    RunsKeepTime(s, r, st);
    RunsKeepSettled(s, r, st);
  }

  lemma WatcherKeepsInv(s: System, st: WatcherStep)
    requires Inv(s) && WatcherEnabled(s, st)
    ensures Inv(WatcherNext(s, st))
  {
    WatcherKeepsKeys(s, st);
    WatcherKeepsLinks(s, st);
    WatcherKeepsPending(s, st);
    WatcherKeepsWatcher(s, st);
    WatcherKeepsCounts(s, st);
    WatcherKeepsTime(s, st);
    WatcherTouches(s, st);
    SettledCarryOthers(s, WatcherNext(s, st));
  }

  lemma TickKeepsKeys(s: System, t: System)
    requires KeysInv(s) && t == s.(clock := t.clock, held := t.held)
    ensures KeysInv(t)
  {
    assert forall h :: h in s.handlers ==> HandlerKeyed(s, s.handlers[h]);
    assert forall k :: 0 <= k < |s.db.alerts| ==> RowKeyed(s, s.db.alerts[k]);
    assert forall r :: r in s.tasks ==> TaskJustified(s, s.tasks[r]);
    assert forall i :: i in s.db.incidents ==> ResolutionJustified(s, i);
  }

  lemma TickKeepsRuns(s: System, t: System)
    requires LinksInv(s) && PendingInv(s) && t == s.(clock := t.clock, held := t.held)
    ensures LinksInv(t) && PendingInv(t)
    ensures forall i :: AllEnded(s, i) ==> AllEnded(t, i)
  {
    LinksCarryQuiet(s, t);
    assert forall r :: Fresh(s, r) ==> Fresh(t, r);
    assert forall r :: Ended(s, r) ==> Ended(t, r);
  }

  lemma TickKeepsTime(s: System, t: System)
    requires TimeInv(s) && t == s.(clock := t.clock, held := t.held) && s.clock <= t.clock
    ensures TimeInv(t)
  {
    assert forall k :: 0 <= k < |s.log| ==> Logged(s, s.log[k]) && Covered(s, k);
  }

  lemma TickKeepsInv(s: System, t: System)
    requires Inv(s) && s.clock <= t.clock && t == s.(clock := t.clock, held := t.held)
    ensures Inv(t)
  {
    TickKeepsKeys(s, t);
    TickKeepsRuns(s, t);
    WatcherInvCarry(s, t);
    TickKeepsTime(s, t);
    SettledCarryOthers(s, t);
    TickKeepsCounts(s, t);
  }

  lemma TickKeepsCounts(s: System, t: System)
    requires CountsInv(s) && t == s.(clock := t.clock, held := t.held)
    ensures CountsInv(t)
  {
    assert forall i :: i in s.db.incidents ==> Counted(s, i);
  }

  lemma StepKeepsInv(s: System, e: Event)
    requires Inv(s) && Enabled(s, e)
    ensures Inv(Next(s, e))
  {
    match e
    case Handle(h, hs) => HandlersKeepInv(s, h, hs);
    case Run(r, rs) => RunsKeepInv(s, r, rs);
    case Watch(ws) => WatcherKeepsInv(s, ws);
    case Tick(_, _) => TickKeepsInv(s, Next(s, e));
  }

  /** One step of a run. */
  lemma StepAt(window: nat, clock: Time, ss: seq<System>, es: seq<Event>, k: nat)
    requires IsRun(window, clock, ss, es) && k + 1 < |ss|
    ensures k < |es| && Enabled(ss[k], es[k]) && ss[k + 1] == Next(ss[k], es[k])
  {
  }

  /** One more. */
  lemma ExtendRun(window: nat, clock: Time, ss: seq<System>, es: seq<Event>, e: Event, t: System)
    requires IsRun(window, clock, ss, es) && Enabled(ss[|es|], e) && t == Next(ss[|es|], e)
    ensures IsRun(window, clock, ss + [t], es + [e])
  {
    forall k | 0 <= k < |es + [e]| ensures Enabled((ss + [t])[k], (es + [e])[k]) && (ss + [t])[k + 1] == Next((ss + [t])[k], (es + [e])[k]) {
      if k < |es| {
        assert (ss + [t])[k] == ss[k] && (ss + [t])[k + 1] == ss[k + 1] && (es + [e])[k] == es[k];
      } else {
        assert (ss + [t])[k] == ss[k] && (ss + [t])[k + 1] == t && (es + [e])[k] == e;
      }
    }
  }

  lemma {:induction false} InvHolds(window: nat, clock: Time, ss: seq<System>, es: seq<Event>, k: nat)
    requires IsRun(window, clock, ss, es) && k < |ss|
    ensures Inv(ss[k]) && AlertsInv(ss[k])
  {
    if k == 0 {
      InitInv(window, clock, ss[0].held);
    } else {
      InvHolds(window, clock, ss, es, k - 1);
      StepKeepsInv(ss[k - 1], es[k - 1]);
      StepKeepsAlerts(ss[k - 1], es[k - 1]);
    }
  }

  // ---- one alert, one incident, one investigation ----

  /** At every moment: one open incident per dedupe key, at most one investigation run per
      incident, and every attached alert row lies under an incident of its own key. */
  lemma OneAlertOneIncident(window: nat, clock: Time, ss: seq<System>, es: seq<Event>, k: nat)
    requires IsRun(window, clock, ss, es) && k < |ss|
    ensures var t := ss[k].db;
            && (forall i, j, key :: OpenWithKey(t, i, key) && OpenWithKey(t, j, key) ==> i == j)
            && (forall a, b :: (0 <= a < |t.links| && 0 <= b < |t.links| && t.links[a].kind == Investigation
                                && t.links[b].kind == Investigation && t.links[a].incident == t.links[b].incident) ==> a == b)
            && (forall n :: 0 <= n < |t.alerts| ==>
                  t.alerts[n].incident in t.incidents
                  && t.incidents[t.alerts[n].incident].key == AlertKey(t.alerts[n].alertname, t.alerts[n].workload))
  {
    InvHolds(window, clock, ss, es, k);
    var s := ss[k];
    forall a, b | 0 <= a < b < |s.db.links| && s.db.links[a].kind == Investigation && s.db.links[b].kind == Investigation
      ensures s.db.links[a].incident != s.db.links[b].incident
    {
      assert LinkKnown(s, s.db.links[a]) && Counted(s, s.db.links[a].incident);
      if s.db.links[a].incident == s.db.links[b].incident {
        CountTwo(s.db.links, a, b);
      }
    }
    assert forall n :: 0 <= n < |s.db.alerts| ==> RowKeyed(s, s.db.alerts[n]);
  }

  lemma {:induction false} CountTwo(links: seq<Link>, a: nat, b: nat)
    requires a < b < |links| && links[a].incident == links[b].incident && links[a].kind == links[b].kind
    ensures Count(links, links[a].incident, links[a].kind) >= 2
  {
    var init := links[..|links| - 1];
    if b < |init| {
      CountTwo(init, a, b);
    } else {
      CountOne(init, a);
    }
  }

  lemma {:induction false} CountOne(links: seq<Link>, a: nat)
    requires a < |links|
    ensures Count(links, links[a].incident, links[a].kind) >= 1
  {
    var init := links[..|links| - 1];
    if a < |init| {
      CountOne(init, a);
    }
  }

  // ---- one run in flight ----

  /** At every moment a linked run that is queued, running or awaiting approval is the newest
      link of its incident: so no two linked runs of one incident are ever in flight, although
      the watcher looks at the newest link only. */
  lemma OneRunInFlight(window: nat, clock: Time, ss: seq<System>, es: seq<Event>, k: nat)
    requires IsRun(window, clock, ss, es) && k < |ss|
    ensures var t := ss[k].db;
            forall a :: 0 <= a < |t.links| && t.links[a].run in t.runs && InFlight(t.runs[t.links[a].run]) ==>
              forall b :: a < b < |t.links| ==> t.links[b].incident != t.links[a].incident
  {
    InvHolds(window, clock, ss, es, k);
    var s := ss[k];
    forall a, b | 0 <= a < b < |s.db.links| && s.db.links[b].incident == s.db.links[a].incident
      ensures s.db.links[a].run in s.db.runs && !InFlight(s.db.runs[s.db.links[a].run])
    {
      assert LinkKnown(s, s.db.links[a]) && Ended(s, s.db.links[a].run);
      assert TaskKnown(s, s.db.links[a].run);
    }
  }

  // ---- bounded escalation ----

  function CountAll(links: seq<Link>, i: IncidentId): nat {
    if links == [] then 0 else CountAll(links[..|links| - 1], i) + (if links[|links| - 1].incident == i then 1 else 0)
  }

  lemma {:induction false} CountAllSplits(links: seq<Link>, i: IncidentId)
    ensures CountAll(links, i) == Count(links, i, Investigation) + Count(links, i, ReEscalation)
  {
    if links != [] {
      CountAllSplits(links[..|links| - 1], i);
    }
  }

  /** At most three escalations and four linked runs per incident, and the polls behind two
      escalations of one incident lie more than the verify window apart, unless the deadline write
      of the earlier one raised. */
  lemma EscalationsBounded(window: nat, clock: Time, ss: seq<System>, es: seq<Event>, k: nat)
    requires IsRun(window, clock, ss, es) && k < |ss|
    ensures forall i :: i in ss[k].db.incidents ==>
              ss[k].db.incidents[i].escalations <= 3 && CountAll(ss[k].db.links, i) <= 4
    ensures forall a, b :: 0 <= a < b < |ss[k].log| && ss[k].log[a].incident == ss[k].log[b].incident && a !in ss[k].failed ==>
              ss[k].log[a].polled + window < ss[k].log[b].polled
  {
    InvHolds(window, clock, ss, es, k);
    WindowConstant(window, clock, ss, es, k);
    forall i | i in ss[k].db.incidents
      ensures ss[k].db.incidents[i].escalations <= 3 && CountAll(ss[k].db.links, i) <= 4
    {
      assert Counted(ss[k], i);
      CountAllSplits(ss[k].db.links, i);
    }
  }

  lemma {:induction false} WindowConstant(window: nat, clock: Time, ss: seq<System>, es: seq<Event>, k: nat)
    requires IsRun(window, clock, ss, es) && k < |ss|
    ensures ss[k].window == window
  {
    if k > 0 {
      WindowConstant(window, clock, ss, es, k - 1);
      assert Enabled(ss[k - 1], es[k - 1]) && ss[k] == Next(ss[k - 1], es[k - 1]);
    }
  }

  function Remaining(t: Tables, i: IncidentId): int {
    if i in t.incidents then MAX_ESCALATIONS - t.incidents[i].escalations else MAX_ESCALATIONS
  }

  /** `3 - escalations` is a termination measure of the watcher: never negative, never raised by
      any step, and lowered by exactly the steps that log an escalation of the incident. */
  lemma EscalationMeasure(window: nat, clock: Time, ss: seq<System>, es: seq<Event>, k: nat, i: IncidentId)
    requires IsRun(window, clock, ss, es) && k < |es|
    ensures var a, b := ss[k], ss[k + 1];
            && 0 <= Remaining(b.db, i) <= Remaining(a.db, i)
            && (Remaining(b.db, i) < Remaining(a.db, i) <==>
                  |b.log| == |a.log| + 1 && b.log[|a.log|].incident == i)
  {
    InvHolds(window, clock, ss, es, k);
    InvHolds(window, clock, ss, es, k + 1);
    assert Enabled(ss[k], es[k]) && ss[k + 1] == Next(ss[k], es[k]);
    assert i in ss[k + 1].db.incidents ==> Counted(ss[k + 1], i);
    MeasureStep(ss[k], es[k], i);
  }

  /** The escalation count of `i` moves by the escalations the step logs for it. */
  predicate CountMoves(s: System, t: System, i: IncidentId) {
    && Remaining(t.db, i) <= Remaining(s.db, i)
    && (Remaining(t.db, i) < Remaining(s.db, i) <==> |t.log| == |s.log| + 1 && t.log[|s.log|].incident == i)
  }

  lemma HandlerMeasure(s: System, h: nat, st: HandlerStep, i: IncidentId)
    requires LinksInv(s) && PendingInv(s) && HandlerEnabled(s, h, st)
    ensures CountMoves(s, HandlerNext(s, h, st), i)
  {
    HandlerTouches(s, h, st);
    HandlerWritesOnly(s, h, st);
  }

  lemma RunMeasure(s: System, r: RunId, st: RunStep, i: IncidentId)
    requires RunEnabled(s, r, st)
    ensures CountMoves(s, RunNext(s, r, st), i)
  {
    RunTouches(s, r, st);
  }

  lemma WatcherMeasure(s: System, st: WatcherStep, i: IncidentId)
    requires WatcherEnabled(s, st) && (st.Bump? ==> s.watcher.todo[0].id in s.db.incidents)
    ensures CountMoves(s, WatcherNext(s, st), i)
  {
    match st
    case Bump =>
    case RearmDeadline(_) =>
    case _ => assert WatcherNext(s, st).db.incidents == s.db.incidents;
  }

  lemma MeasureStep(s: System, e: Event, i: IncidentId)
    requires Inv(s) && Enabled(s, e)
    ensures CountMoves(s, Next(s, e), i)
  {
    match e
    case Handle(h, hs) => HandlerMeasure(s, h, hs, i);
    case Run(r, rs) => RunMeasure(s, r, rs, i);
    case Watch(ws) =>
      if ws.Bump? {
        assert SnapshotOk(s, s.watcher.todo[0]);
      }
      WatcherMeasure(s, ws, i);
    case Tick(_, _) =>
  }

  // ---- only what still fires ----

  /** Some firing observation of the incident is newer than every resolved one. */
  ghost predicate StillFiring(t: Tables, i: IncidentId) {
    exists f :: 0 <= f < |t.alerts| && t.alerts[f].incident == i && t.alerts[f].status == "firing"
      && forall k :: 0 <= k < |t.alerts| && t.alerts[k].incident == i && t.alerts[k].status == "resolved" ==> t.alerts[k].ts < t.alerts[f].ts
  }

  ghost predicate FeedReadAt(ss: seq<System>, es: seq<Event>, m: nat, i: IncidentId) {
    && m < |es| && m < |ss| && es[m] == Watch(ReadFeed)
    && ss[m].watcher.Polling? && ss[m].watcher.todo != [] && ss[m].watcher.todo[0].id == i
  }

  /** What the watcher knows about the head of its list goes back to a reading of the feed. */
  ghost predicate Informed(ss: seq<System>, es: seq<Event>, k: nat, w: Watcher) {
    && (w.FeedRead? && w.todo != [] ==> exists m :: 0 <= m < k && FeedReadAt(ss, es, m, w.todo[0].id) && w.feed == FeedOf(ss[m].db, w.todo[0].id))
    && ((w.Chosen? || w.Loaded?) && w.todo != [] ==>
          exists m :: 0 <= m < k && FeedReadAt(ss, es, m, w.todo[0].id) && StillFiring(ss[m].db, w.todo[0].id))
  }

  function FeedOf(t: Tables, i: IncidentId): Feed {
    Feed(LastSeen(t.alerts, i, "firing"), LastSeen(t.alerts, i, "resolved"))
  }

  lemma FeedFires(t: Tables, i: IncidentId)
    requires var feed := FeedOf(t, i);
      feed.lastFiring.Some? && !(feed.lastResolved.Some? && feed.lastResolved.value >= feed.lastFiring.value)
    ensures StillFiring(t, i)
  {
    LastSeenIsNewest(t.alerts, i, "firing");
    LastSeenIsNewest(t.alerts, i, "resolved");
  }

  lemma OthersLeaveWatcher(s: System, e: Event)
    requires Enabled(s, e) && !e.Watch?
    ensures Next(s, e).watcher == s.watcher
  {
  }

  lemma InformedGrows(ss: seq<System>, es: seq<Event>, k: nat, w: Watcher)
    requires Informed(ss, es, k, w)
    ensures Informed(ss, es, k + 1, w)
  {
  }

  lemma WatcherInformed(ss: seq<System>, es: seq<Event>, k: nat, st: WatcherStep)
    requires k < |es| && k < |ss| && es[k] == Watch(st) && WatcherEnabled(ss[k], st) && Informed(ss, es, k, ss[k].watcher)
    ensures Informed(ss, es, k + 1, WatcherNext(ss[k], st).watcher)
  {
    var w := ss[k].watcher;
    match st
    case ReadFeed => assert FeedReadAt(ss, es, k, w.todo[0].id);
    case Choose =>
      var m :| 0 <= m < k && FeedReadAt(ss, es, m, w.todo[0].id) && w.feed == FeedOf(ss[m].db, w.todo[0].id);
      if WatcherNext(ss[k], st).watcher.Chosen? {
        FeedFires(ss[m].db, w.todo[0].id);
      }
    case Load(_) => InformedGrows(ss, es, k, w);
    case _ =>
  }

  lemma {:induction false} InformedHolds(window: nat, clock: Time, ss: seq<System>, es: seq<Event>, k: nat)
    requires IsRun(window, clock, ss, es) && k < |ss|
    ensures Informed(ss, es, k, ss[k].watcher)
  {
    if k > 0 {
      InformedHolds(window, clock, ss, es, k - 1);
      assert Enabled(ss[k - 1], es[k - 1]) && ss[k] == Next(ss[k - 1], es[k - 1]);
      match es[k - 1]
      case Watch(st) => WatcherInformed(ss, es, k - 1, st);
      case _ =>
        OthersLeaveWatcher(ss[k - 1], es[k - 1]);
        InformedGrows(ss, es, k - 1, ss[k - 1].watcher);
    }
  }

  /** Every escalation was decided on a reading of the feed, earlier in the run, in which a firing
      observation of the incident was newer than all its resolved ones. */
  lemma EscalatesOnlyWhatFires(window: nat, clock: Time, ss: seq<System>, es: seq<Event>, k: nat)
    requires IsRun(window, clock, ss, es) && k < |es| && es[k] == Watch(Bump)
    ensures |ss[k + 1].log| == |ss[k].log| + 1
    ensures var i := ss[k + 1].log[|ss[k].log|].incident;
      exists m :: 0 <= m < k && FeedReadAt(ss, es, m, i) && StillFiring(ss[m].db, i)
  {
    InformedHolds(window, clock, ss, es, k);
    assert Enabled(ss[k], es[k]) && ss[k + 1] == Next(ss[k], es[k]);
  }

  // ---- closing ----

  lemma RowKeptAt(window: nat, clock: Time, ss: seq<System>, es: seq<Event>, k: nat, i: IncidentId)
    requires IsRun(window, clock, ss, es) && k + 1 < |ss| && i in ss[k].db.incidents
    ensures RowKept(ss[k], ss[k + 1], i)
  {
    hide RowKept;
    StepAt(window, clock, ss, es, k);
    hide IsRun, Enabled, Next;
    StepKeepsRows(ss[k], es[k]);
  }

  lemma {:induction false} RowsKept(window: nat, clock: Time, ss: seq<System>, es: seq<Event>, k: nat, l: nat, i: IncidentId)
    requires IsRun(window, clock, ss, es) && k <= l < |ss| && i in ss[k].db.incidents
    ensures RowKept(ss[k], ss[l], i)
  {
    hide IsRun;
    if k < l {
      RowsKept(window, clock, ss, es, k, l - 1, i);
      RowKeptAt(window, clock, ss, es, l - 1, i);
    }
  }

  /** Once a close-out has settled, its incident is resolved or under a verify deadline, then
      and at every later moment; resolved never reopens and a deadline is never dropped. */
  lemma CloseOutSticks(window: nat, clock: Time, ss: seq<System>, es: seq<Event>, k: nat, l: nat, r: RunId)
    requires IsRun(window, clock, ss, es) && k <= l < |ss|
    requires r in ss[k].tasks && ss[k].tasks[r].settled
    ensures var i := ss[k].tasks[r].incident;
            && i in ss[k].db.incidents && i in ss[l].db.incidents
            && (ss[l].db.incidents[i].status == Resolved || ss[l].db.incidents[i].deadline.Some?)
            && (ss[k].db.incidents[i].status == Resolved ==> ss[l].db.incidents[i].status == Resolved)
            && (ss[k].db.incidents[i].deadline.Some? ==> ss[l].db.incidents[i].deadline.Some?)
  {
    InvHolds(window, clock, ss, es, k);
    assert TaskJustified(ss[k], ss[k].tasks[r]) && SettledOk(ss[k], ss[k].tasks[r]);
    RowsKept(window, clock, ss, es, k, l, ss[k].tasks[r].incident);
  }

  ghost predicate NoticeReceived(es: seq<Event>, k: nat, key: string) {
    exists m :: 0 <= m < k && m < |es| && es[m].Handle? && es[m].hs.Arrive?
                && es[m].hs.ev.status != "firing" && Key(es[m].hs.ev) == key
  }

  /** Run `r` asks Alertmanager about its alert's stripped name, and no alert of that name is held active. */
  predicate AsksInVain(s: System, e: Event, r: RunId) {
    && r in s.tasks
    && var name := Strip(s.tasks[r].alert.alertname);
       e == Run(r, Query(name, false, false)) && name != "" && name !in s.held
  }

  /** Run `r` of the incident asked about the alert it investigates, at step `m`, and Alertmanager
      answered without an error that this alert is inactive: none of its stripped name was held. */
  ghost predicate InactiveAnswer(ss: seq<System>, es: seq<Event>, m: nat, r: RunId, i: IncidentId) {
    && m < |es| && m < |ss| && r in ss[m].tasks && ss[m].tasks[r].incident == i
    && AsksInVain(ss[m], es[m], r)
    && Investigates(ss[m].db, i, ss[m].tasks[r].alert)
  }

  ghost predicate AnsweredInactive(ss: seq<System>, es: seq<Event>, k: nat, i: IncidentId) {
    exists m, r :: 0 <= m < k && InactiveAnswer(ss, es, m, r, i)
  }

  /** No incident is resolved on the model's word: before it, an event of its key that was no longer
      firing arrived, or Alertmanager answered without an error that the alert one of its runs
      investigates is inactive: an event of the incident's key, or one rebuilt from its rows. */
  lemma ResolutionsHaveCause(window: nat, clock: Time, ss: seq<System>, es: seq<Event>, k: nat, i: IncidentId)
    requires IsRun(window, clock, ss, es) && k < |ss|
    requires i in ss[k].db.incidents && ss[k].db.incidents[i].status == Resolved
    ensures NoticeReceived(es, k, ss[k].db.incidents[i].key) || AnsweredInactive(ss, es, k, i)
  {
    InvHolds(window, clock, ss, es, k);
    assert ResolutionJustified(ss[k], i);
    EvidenceIsHistory(window, clock, ss, es, k);
  }

  lemma {:induction false} EvidenceIsHistory(window: nat, clock: Time, ss: seq<System>, es: seq<Event>, k: nat)
    requires IsRun(window, clock, ss, es) && k < |ss|
    ensures forall key :: key in ss[k].notices ==> NoticeReceived(es, k, key)
    ensures forall i :: i in ss[k].quiet ==> AnsweredInactive(ss, es, k, i)
  {
    if k > 0 {
      var m := k - 1;
      var s, e, t := ss[m], es[m], ss[k];
      EvidenceIsHistory(window, clock, ss, es, m);
      InvHolds(window, clock, ss, es, m);
      assert Enabled(s, e) && t == Next(s, e);
      EvidenceStep(s, e);
      forall key | key in t.notices ensures NoticeReceived(es, k, key) {
        if key in s.notices {
          assert NoticeReceived(es, m, key);
        }
      }
      forall i | i in t.quiet ensures AnsweredInactive(ss, es, k, i) {
        if i in s.quiet {
          assert AnsweredInactive(ss, es, m, i);
        } else {
          assert InactiveAnswer(ss, es, m, e.r, i);
        }
      }
    }
  }

  lemma EvidenceStep(s: System, e: Event)
    requires Enabled(s, e)
    ensures forall key :: key in Next(s, e).notices && key !in s.notices ==>
              e.Handle? && e.hs.Arrive? && e.hs.ev.status != "firing" && Key(e.hs.ev) == key
    ensures forall i :: i in Next(s, e).quiet && i !in s.quiet ==>
              e.Run? && e.r in s.tasks && s.tasks[e.r].incident == i && AsksInVain(s, e, e.r)
  {
  }

  predicate AboutToResolve(p: Phase) {
    p.Settling? && (p.decision == VerifyIt || p.decision == ResolveIt)
  }

  /** The task was about to resolve before, or has just got its inactive answer. */
  ghost predicate SettlingFrom(s: System, e: Event, t: System, r: RunId)
    requires r in t.tasks
  {
    && r in s.tasks
    && (|| s.tasks[r] == t.tasks[r]
        || (AsksInVain(s, e, r)
            && s.tasks[r].alert == t.tasks[r].alert && s.tasks[r].incident == t.tasks[r].incident))
  }

  lemma HandlerSettling(s: System, h: nat, st: HandlerStep, r: RunId)
    requires HandlerEnabled(s, h, st) && r in HandlerNext(s, h, st).tasks && AboutToResolve(HandlerNext(s, h, st).tasks[r].phase)
    ensures r in s.tasks && HandlerNext(s, h, st).tasks[r] == s.tasks[r]
  {
  }

  lemma WatcherSettling(s: System, st: WatcherStep, r: RunId)
    requires WatcherEnabled(s, st) && r in WatcherNext(s, st).tasks && AboutToResolve(WatcherNext(s, st).tasks[r].phase)
    ensures r in s.tasks && WatcherNext(s, st).tasks[r] == s.tasks[r]
  {
  }

  lemma RunSettling(s: System, q: RunId, st: RunStep, r: RunId)
    requires RunEnabled(s, q, st) && r in RunNext(s, q, st).tasks && AboutToResolve(RunNext(s, q, st).tasks[r].phase)
    ensures SettlingFrom(s, Run(q, st), RunNext(s, q, st), r)
  {
  }

  lemma SettlingStep(s: System, e: Event, r: RunId)
    requires Enabled(s, e) && r in Next(s, e).tasks && AboutToResolve(Next(s, e).tasks[r].phase)
    ensures SettlingFrom(s, e, Next(s, e), r)
  {
    match e
    case Handle(h, hs) => HandlerSettling(s, h, hs, r);
    case Run(q, rs) => RunSettling(s, q, rs, r);
    case Watch(ws) => WatcherSettling(s, ws, r);
    case Tick(_, _) =>
  }

  lemma SettlingAt(window: nat, clock: Time, ss: seq<System>, es: seq<Event>, k: nat, r: RunId)
    requires IsRun(window, clock, ss, es) && k < |ss| && r in ss[k].tasks && AboutToResolve(ss[k].tasks[r].phase)
    ensures 0 < k <= |es| && SettlingFrom(ss[k - 1], es[k - 1], ss[k], r)
  {
    if k > 0 {
      SettlingStep(ss[k - 1], es[k - 1], r);
    }
  }

  lemma TaskAlert(window: nat, clock: Time, ss: seq<System>, es: seq<Event>, k: nat, r: RunId)
    requires IsRun(window, clock, ss, es) && k < |ss| && r in ss[k].tasks
    ensures Investigates(ss[k].db, ss[k].tasks[r].incident, ss[k].tasks[r].alert)
  {
    InvHolds(window, clock, ss, es, k);
  }

  /** A close-out that resolves its incident does so on the answer its own run got about the alert
      it investigates. */
  lemma {:induction false} ClosingRunAsked(window: nat, clock: Time, ss: seq<System>, es: seq<Event>, k: nat, r: RunId)
    requires IsRun(window, clock, ss, es) && k < |ss|
    requires r in ss[k].tasks && AboutToResolve(ss[k].tasks[r].phase)
    ensures exists m ::
              && 0 <= m < k && InactiveAnswer(ss, es, m, r, ss[k].tasks[r].incident)
              && ss[m].tasks[r].alert == ss[k].tasks[r].alert
  {
    hide IsRun, Investigates;
    SettlingAt(window, clock, ss, es, k, r);
    if ss[k - 1].tasks[r] == ss[k].tasks[r] {
      ClosingRunAsked(window, clock, ss, es, k - 1, r);
    } else {
      TaskAlert(window, clock, ss, es, k - 1, r);
      assert InactiveAnswer(ss, es, k - 1, r, ss[k].tasks[r].incident);
    }
  }

  /** Each run asks about a name of its incident's key, or about the one that key's row rebuilds to: it
      asks about the row's own name exactly when that name survived and has no outer blanks, and a
      rebuilt name survived exactly when the row keeps it. */
  lemma AsksOwnNameIff(window: nat, clock: Time, ss: seq<System>, es: seq<Event>, k: nat, r: RunId) returns (n: nat)
    requires IsRun(window, clock, ss, es) && k < |ss| && r in ss[k].tasks
    ensures n < |ss[k].db.alerts|
    ensures var row, task := ss[k].db.alerts[n], ss[k].tasks[r];
      && row.incident == task.incident && row.incident in ss[k].db.incidents
      && AlertKey(row.alertname, row.workload) == ss[k].db.incidents[row.incident].key
      && (task.alert.alertname == row.alertname || RebuiltEvent(row.payload) == Some(task.alert))
      && (RebuiltEvent(row.payload) == Some(task.alert) ==>
            (task.alert.alertname == row.alertname <==> KeepsName(row.payload, row.alertname)))
      && (Strip(task.alert.alertname) == row.alertname <==>
            task.alert.alertname == row.alertname && Strip(row.alertname) == row.alertname)
  {
    hide Strip, RebuiltEvent, KeepsName;
    InvHolds(window, clock, ss, es, k);
    AskedName(ss[k], ss[k].tasks[r].incident, ss[k].tasks[r].alert);
    n :| 0 <= n < |ss[k].db.alerts| && ss[k].db.alerts[n].incident == ss[k].tasks[r].incident
         && (ss[k].tasks[r].alert.alertname == ss[k].db.alerts[n].alertname || RebuiltEvent(ss[k].db.alerts[n].payload) == Some(ss[k].tasks[r].alert));
    assert RowKeyed(ss[k], ss[k].db.alerts[n]);
    RowRebuilds(ss[k].db.alerts[n]);
    if ss[k].tasks[r].alert.alertname != ss[k].db.alerts[n].alertname {
      LostName(ss[k].db.alerts[n].payload, ss[k].db.alerts[n].alertname);
    }
  }
}
