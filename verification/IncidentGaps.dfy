/** Runs of the incident protocol in which it does less than one might expect: an incident nobody
    comes back to, and one escalated twice at once. */
module IncidentGaps {
  import opened Options
  import opened Ingress
  import opened IncidentTables
  import opened IncidentProtocol
  import opened IncidentInvariants
  import opened IncidentAlerts
  import opened IncidentSafety
  import opened IncidentDeadlines
  import opened IncidentScenarios

  // ---- a run that never gets to its session ----

  function Aborting(window: nat, clock: Time, held: set<string>, ev: AlertEvent, p: Phase, status: RunStatus): System {
    var s := Opened(window, clock, held, ev);
    s.(tasks := map[0 := NewTask(0, ev).(phase := p)], db := s.db.(runs := map[0 := status]))
  }

  lemma Aborts(window: nat, clock: Time, held: set<string>, ev: AlertEvent)
    ensures var s, t := Opened(window, clock, held, ev), Aborting(window, clock, held, ev, Preparing, Running);
      && RunEnabled(s, 0, Begin) && RunNext(s, 0, Begin) == t
      && RunEnabled(t, 0, Abort) && RunNext(t, 0, Abort) == Aborting(window, clock, held, ev, Over, Failed)
  {
  }

  lemma AbortedIsStuck(window: nat, clock: Time, held: set<string>, ev: AlertEvent)
    ensures Stuck(Aborting(window, clock, held, ev, Over, Failed), 0)
  {
    assert Aborting(window, clock, held, ev, Over, Failed).db.links[0].incident == 0;
  }

  /** For every firing event: the run spawned for it may fail before its session, and the incident
      is left with nothing to bring anyone back to it. */
  lemma AbortLeavesIncidentStuck(window: nat, clock: Time, held: set<string>, ev: AlertEvent)
    requires Originates(ev) && ev.status == "firing"
    ensures exists s :: Reached(window, clock, held, s, Opening(ev) + [Run(0, Begin), Run(0, Abort)]) && Stuck(s, 0)
  {
    hide RunEnabled, RunNext, Reached, Stuck, Opened, Aborting;
    var all := Opening(ev) + [Run(0, Begin), Run(0, Abort)];
    var s, t, u := Opened(window, clock, held, ev), Aborting(window, clock, held, ev, Preparing, Running), Aborting(window, clock, held, ev, Over, Failed);
    OpenedReached(window, clock, held, ev);
    assert all[..6] == Opening(ev) && all[..8] == all;
    Aborts(window, clock, held, ev);
    MoveRun(window, clock, held, all, 6, s, 0, Begin, t);
    MoveRun(window, clock, held, all, 7, t, 0, Abort, u);
    AbortedIsStuck(window, clock, held, ev);
  }

  // ---- escalated twice at once ----

  /** The watcher alone can take `s` to `t`. */
  ghost predicate Leads(s: System, t: System) {
    exists ss, steps :: WatcherRun(ss, steps, s, t)
  }

  ghost predicate WatcherRun(ss: seq<System>, steps: seq<WatcherStep>, s: System, t: System) {
    && |ss| == |steps| + 1 && ss[0] == s && ss[|steps|] == t
    && forall k :: 0 <= k < |steps| ==> WatcherEnabled(ss[k], steps[k]) && ss[k + 1] == WatcherNext(ss[k], steps[k])
  }

  lemma Stays(s: System)
    ensures Leads(s, s)
  {
    assert WatcherRun([s], [], s, s);
  }

  lemma LeadsOn(s: System, t: System, st: WatcherStep, u: System)
    requires Leads(s, t) && WatcherEnabled(t, st) && u == WatcherNext(t, st)
    ensures Leads(s, u)
  {
    var ss, steps :| WatcherRun(ss, steps, s, t);
    RunOn(ss, steps, s, t, st, u);
  }

  lemma RunOn(ss: seq<System>, steps: seq<WatcherStep>, s: System, t: System, st: WatcherStep, u: System)
    requires WatcherRun(ss, steps, s, t) && WatcherEnabled(t, st) && u == WatcherNext(t, st)
    ensures WatcherRun(ss + [u], steps + [st], s, u)
  {
    forall k | 0 <= k < |steps + [st]|
      ensures WatcherEnabled((ss + [u])[k], (steps + [st])[k]) && (ss + [u])[k + 1] == WatcherNext((ss + [u])[k], (steps + [st])[k])
    {
      if k < |steps| {
        assert (ss + [u])[k] == ss[k] && (ss + [u])[k + 1] == ss[k + 1] && (steps + [st])[k] == steps[k];
      } else {
        assert (ss + [u])[k] == t && (ss + [u])[k + 1] == u && (steps + [st])[k] == st;
      }
    }
  }

  /** Exceptions take the watcher through the rest of its list. */
  lemma {:induction false} SkipsRest(s: System, t: System)
    requires Leads(s, t) && t.watcher.Polling?
    ensures Leads(s, t.(watcher := Polling(t.watcher.now, [])))
    decreases |t.watcher.todo|
  {
    if t.watcher.todo == [] {
      assert t == t.(watcher := Polling(t.watcher.now, []));
    } else {
      var u := t.(watcher := Polling(t.watcher.now, t.watcher.todo[1..]));
      LeadsOn(s, t, Skip, u);
      SkipsRest(s, u);
    }
  }

  lemma {:induction false} InSomeOrder(t: Tables, ids: set<IncidentId>) returns (todo: seq<Snapshot>)
    requires forall i :: i in ids ==> i in t.incidents
    ensures forall k :: 0 <= k < |todo| ==> todo[k].id in ids && todo[k].row == t.incidents[todo[k].id]
    ensures forall k, l :: 0 <= k < l < |todo| ==> todo[k].id != todo[l].id
    ensures forall i :: i in ids ==> Snapshot(i, t.incidents[i]) in todo
    decreases ids
  {
    if ids == {} {
      todo := [];
    } else {
      var i :| i in ids;
      var rest := InSomeOrder(t, ids - {i});
      todo := [Snapshot(i, t.incidents[i])] + rest;
    }
  }

  /** A poll may list a due incident first. */
  lemma ListedFirst(t: Tables, now: Time, i: IncidentId) returns (todo: seq<Snapshot>)
    requires i in t.incidents && Due(t.incidents[i], now)
    ensures PollResult(t, now, todo) && todo != [] && todo[0] == Snapshot(i, t.incidents[i])
  {
    var others := set j | j in t.incidents && j != i && Due(t.incidents[j], now);
    var rest := InSomeOrder(t, others);
    todo := [Snapshot(i, t.incidents[i])] + rest;
    forall j | j in t.incidents && Due(t.incidents[j], now) ensures Snapshot(j, t.incidents[j]) in todo {
      assert j != i ==> j in others;
    }
  }

  predicate Fires(feed: Feed) {
    feed.lastFiring.Some? && !(feed.lastResolved.Some? && feed.lastResolved.value >= feed.lastFiring.value)
  }

  /** The watcher is about to move the deadline of an incident that would be escalated again if it
      were polled now. */
  predicate StillDue(s: System, i: IncidentId) {
    && s.watcher.Bumped? && s.watcher.todo != [] && s.watcher.todo[0].id == i
    && i in s.db.incidents && Due(s.db.incidents[i], s.clock) && s.db.incidents[i].escalations < 3
    && Fires(FeedOf(s.db, i))
    && (var latest := LatestRunStatus(s.db, s.db.links, i); latest.Some? ==> !InFlight(latest.value))
  }

  /** An exception there lets the next poll list it again. */
  lemma PolledAgain(s: System, i: IncidentId) returns (todo: seq<Snapshot>, t: System)
    requires StillDue(s, i)
    ensures todo != [] && todo[0] == Snapshot(i, s.db.incidents[i])
    ensures Leads(s, t) && t == s.(watcher := Polling(s.clock, todo), failed := t.failed)
  {
    todo := ListedFirst(s.db, s.clock, i);
    var s1 := WatcherNext(s, Skip);
    Stays(s);
    LeadsOn(s, s, Skip, s1);
    SkipsRest(s, s1);
    var s2 := s1.(watcher := Polling(s1.watcher.now, []));
    LeadsOn(s, s2, EndPoll, s2.(watcher := Idle));
    LeadsOn(s, s2.(watcher := Idle), ReadClock, s2.(watcher := ClockRead(s.clock)));
    t := s2.(watcher := Polling(s.clock, todo));
    LeadsOn(s, s2.(watcher := ClockRead(s.clock)), WatcherStep.Poll(todo), t);
  }

  lemma FiringRow(t: Tables, i: IncidentId) returns (n: nat)
    requires LastSeen(t.alerts, i, "firing").Some? && forall k :: 0 <= k < |t.alerts| ==> RowOriginates(t.alerts[k])
    ensures NewestFiring(t.alerts, i, n) && RebuiltEvent(t.alerts[n].payload).Some?
  {
    LastSeenIsNewest(t.alerts, i, "firing");
    n :| 0 <= n < |t.alerts| && t.alerts[n].incident == i && t.alerts[n].status == "firing"
         && t.alerts[n].ts == LastSeen(t.alerts, i, "firing").value;
    RowRebuilds(t.alerts[n]);
  }

  lemma ChosenAgain(s: System, i: IncidentId, todo: seq<Snapshot>)
    requires i in s.db.incidents && todo != [] && todo[0] == Snapshot(i, s.db.incidents[i]) && s.watcher == Polling(s.clock, todo)
    requires Due(s.db.incidents[i], s.clock) && s.db.incidents[i].escalations < 3 && Fires(FeedOf(s.db, i))
    requires var latest := LatestRunStatus(s.db, s.db.links, i); latest.Some? ==> !InFlight(latest.value)
    ensures WatcherEnabled(s, ReadFeed)
    ensures var u := s.(watcher := FeedRead(s.clock, todo, FeedOf(s.db, i)));
      && WatcherNext(s, ReadFeed) == u && WatcherEnabled(u, Choose) && WatcherNext(u, Choose) == s.(watcher := Chosen(s.clock, todo))
  {
  }

  /** The exception is real: where the deadline write raises, whatever else the poll had listed, the
      next one can escalate the incident again at once, without the clock having to move. */
  lemma FailedWriteEscalatesAtOnce(s: System, i: IncidentId)
    requires StillDue(s, i) && AlertsInv(s)
    ensures exists t ::
              Leads(s, t) && t.log == s.log + [Escalation(i, s.clock)] && t.clock == s.clock && t.db == BumpEscalations(s.db, i)
  {
    var todo, t := PolledAgain(s, i);
    ChosenAgain(t, i, todo);
    LeadsOn(s, t, ReadFeed, t.(watcher := FeedRead(s.clock, todo, FeedOf(t.db, i))));
    LeadsOn(s, t.(watcher := FeedRead(s.clock, todo, FeedOf(t.db, i))), Choose, t.(watcher := Chosen(s.clock, todo)));
    var n := FiringRow(t.db, i);
    BumpedAgain(s, t, i, todo, n);
  }

  lemma BumpedAgain(s: System, t: System, i: IncidentId, todo: seq<Snapshot>, n: nat)
    requires todo != [] && todo[0].id == i && Leads(s, t.(watcher := Chosen(s.clock, todo)))
    requires t.log == s.log && t.clock == s.clock && t.db == s.db
    requires NewestFiring(t.db.alerts, i, n) && RebuiltEvent(t.db.alerts[n].payload).Some?
    ensures exists u ::
              Leads(s, u) && u.log == s.log + [Escalation(i, s.clock)] && u.clock == s.clock && u.db == BumpEscalations(s.db, i)
  {
    var loaded := t.(watcher := Loaded(s.clock, todo, RebuiltEvent(t.db.alerts[n].payload).value));
    LeadsOn(s, t.(watcher := Chosen(s.clock, todo)), Load(Some(n)), loaded);
    LeadsOn(s, loaded, Bump, WatcherNext(loaded, Bump));
  }

  lemma {:induction false} ReachedOn(window: nat, clock: Time, held: set<string>, s: System, es: seq<Event>, ev: AlertEvent,
                                     ss: seq<System>, steps: seq<WatcherStep>, t: System)
    requires Reached(window, clock, held, s, es) && OnlyArrives(es, ev) && WatcherRun(ss, steps, s, t)
    ensures exists fs :: Reached(window, clock, held, t, fs) && OnlyArrives(fs, ev)
    decreases |steps|
  {
    hide Reached;
    if steps != [] {
      var e := Watch(steps[0]);
      assert WatcherEnabled(ss[0], steps[0]) && ss[1] == WatcherNext(ss[0], steps[0]);
      ReachedOneMore(window, clock, held, s, es, e, ss[1]);
      RunTail(ss, steps, s, t);
      ReachedOn(window, clock, held, ss[1], es + [e], ev, ss[1..], steps[1..], t);
    }
  }

  lemma RunTail(ss: seq<System>, steps: seq<WatcherStep>, s: System, t: System)
    requires WatcherRun(ss, steps, s, t) && steps != []
    ensures WatcherRun(ss[1..], steps[1..], ss[1], t)
  {
    forall k | 0 <= k < |steps[1..]| ensures WatcherEnabled(ss[1..][k], steps[1..][k]) && ss[1..][k + 1] == WatcherNext(ss[1..][k], steps[1..][k]) {
      assert ss[1..][k] == ss[k + 1] && ss[1..][k + 1] == ss[k + 2] && steps[1..][k] == steps[k + 1];
    }
  }

  lemma ReachedInv(window: nat, clock: Time, held: set<string>, s: System, es: seq<Event>)
    requires Reached(window, clock, held, s, es)
    ensures AlertsInv(s)
  {
    var ss: seq<System> :| IsRun(window, clock, ss, es) && ss[0].held == held && ss[|es|] == s;
    InvHolds(window, clock, ss, es, |es|);
  }

  lemma ReachedFrom(window: nat, clock: Time, held: set<string>, s: System, es: seq<Event>, ev: AlertEvent, t: System)
    requires Reached(window, clock, held, s, es) && OnlyArrives(es, ev) && Leads(s, t)
    ensures exists fs :: Reached(window, clock, held, t, fs) && OnlyArrives(fs, ev)
  {
    var run, steps :| WatcherRun(run, steps, s, t);
    ReachedOn(window, clock, held, s, es, ev, run, steps, t);
  }

  /** And it is reached, whatever Alertmanager holds: for every firing event there is a run that starts
      with it, and in which nothing else arrives, that escalates its incident twice at one clock reading. */
  lemma EscalatedTwiceAtOnce(window: nat, clock: Time, held: set<string>, ev: AlertEvent)
    requires Originates(ev) && ev.status == "firing"
    ensures exists s, es ::
              && Reached(window, clock, held, s, es) && OnlyArrives(es, ev)
              && |s.log| == 2 && s.log[0] == s.log[1]
              && s.log[0].incident in s.db.incidents && s.db.incidents[s.log[0].incident].key == Key(ev)
  {
    hide Reached, CountRaised, FirstHalf, StillDue, RebuiltEvent, OnlyArrives, Leads, Originates, AlertsInv, BumpEscalations;
    EventRebuilds(ev);
    var alert := RebuiltEvent(ev.raw).value;
    var s, es := CountRaised(window, clock, held, ev, alert), FirstHalf(window, clock, held, ev);
    CountRaisedReached(window, clock, held, es, ev, alert);
    CountRaisedStillDue(window, clock, held, ev, alert);
    CountRaisedLogged(window, clock, held, ev, alert);
    FirstHalfQuiet(window, clock, held, ev);
    assert es[..21] == es;
    ReachedInv(window, clock, held, s, es);
    FailedWriteEscalatesAtOnce(s, 0);
    var t :| Leads(s, t) && t.log == s.log + [Escalation(0, s.clock)] && t.clock == s.clock && t.db == BumpEscalations(s.db, 0);
    ReachedFrom(window, clock, held, s, es, ev, t);
    BumpKeepsKey(s.db, 0);
  }

  lemma BumpKeepsKey(t: Tables, i: IncidentId)
    requires i in t.incidents
    ensures i in BumpEscalations(t, i).incidents && BumpEscalations(t, i).incidents[i].key == t.incidents[i].key
  {
  }

  lemma CountRaisedLogged(window: nat, clock: Time, held: set<string>, ev: AlertEvent, alert: AlertEvent)
    ensures var s := CountRaised(window, clock, held, ev, alert);
      s.log == [Escalation(0, s.clock)] && 0 in s.db.incidents && s.db.incidents[0].key == Key(ev)
    ensures |FirstHalf(window, clock, held, ev)| == 21
  {
  }

  lemma CountRaisedStillDue(window: nat, clock: Time, held: set<string>, ev: AlertEvent, alert: AlertEvent)
    requires ev.status == "firing"
    ensures StillDue(CountRaised(window, clock, held, ev, alert), 0)
  {
    FeedOfOne(CountRaised(window, clock, held, ev, alert).db, clock);
    assert LatestRunStatus(CountRaised(window, clock, held, ev, alert).db, CountRaised(window, clock, held, ev, alert).db.links, 0) == Some(Completed);
  }
}
