/** Every step keeps the invariants about the watcher's list, the link counts, the deadlines
    and the settled close-outs. */
module IncidentTiming {
  import opened Options
  import opened Ingress
  import opened IncidentTables
  import opened IncidentProtocol
  import opened IncidentInvariants
  import opened IncidentRuns

  // ---- the watcher's list ----

  /** A step of another actor keeps the list when rows keep deadline and count, and the runs of
      the incident being escalated stay ended. */
  lemma WatcherInvCarry(s: System, t: System)
    requires WatcherInv(s) && t.watcher == s.watcher
    requires forall i :: i in s.db.incidents ==>
               RowKept(s, t, i) && t.db.incidents[i].escalations == s.db.incidents[i].escalations
    requires Busy(s.watcher) && s.watcher.todo != [] && AllEnded(s, s.watcher.todo[0].id) ==> AllEnded(t, s.watcher.todo[0].id)
    ensures WatcherInv(t)
  {
    var w := s.watcher;
    if !w.Idle? && !w.ClockRead? {
      forall k | 0 <= k < |w.todo| ensures SnapshotOk(t, w.todo[k]) {
        assert SnapshotOk(s, w.todo[k]);
      }
    }
  }

  lemma RunsKeepWatcher(s: System, r: RunId, st: RunStep)
    requires WatcherInv(s) && RunEnabled(s, r, st)
    ensures WatcherInv(RunNext(s, r, st))
  {
    var t := RunNext(s, r, st);
    RunTouches(s, r, st);
    StepKeepsRows(s, Run(r, st));
    assert forall q :: Ended(s, q) ==> Ended(t, q);
    assert forall i :: AllEnded(s, i) ==> AllEnded(t, i);
    WatcherInvCarry(s, t);
  }

  /** A handler links only an incident without links, so an ended one stays ended. */
  lemma HandlersKeepEnded(s: System, h: nat, st: HandlerStep, i: IncidentId)
    requires LinksInv(s) && PendingInv(s) && HandlerEnabled(s, h, st) && HasLink(s.db, i) && AllEnded(s, i)
    ensures AllEnded(HandlerNext(s, h, st), i)
  {
    hide HandlerNext;
    HandlerTouches(s, h, st);
    HandlerWritesOnly(s, h, st);
    if st.LinkInvestigation? {
      assert Pends(s.handlers[h], s.handlers[h].incident);
    }
    hide Creators, FreshRuns, DeadlinesLinked, LinksInv;
    AllEndedCarry(s, HandlerNext(s, h, st), i);
  }

  lemma HandlersKeepWatcher(s: System, h: nat, st: HandlerStep)
    requires LinksInv(s) && PendingInv(s) && WatcherInv(s) && HandlerEnabled(s, h, st)
    ensures WatcherInv(HandlerNext(s, h, st))
  {
    HandlerTouches(s, h, st);
    var w := s.watcher;
    if Busy(w) && w.todo != [] && AllEnded(s, w.todo[0].id) {
      assert SnapshotOk(s, w.todo[0]) && HasLink(s.db, w.todo[0].id);
      HandlersKeepEnded(s, h, st, w.todo[0].id);
    }
    WatcherInvCarry(s, HandlerNext(s, h, st));
  }

  lemma AllEndedCarry(s: System, t: System, i: IncidentId)
    requires AllEnded(s, i)
    requires forall r :: r in s.tasks ==> r in t.tasks && t.tasks[r] == s.tasks[r]
    requires |s.db.links| <= |t.db.links| && t.db.links[..|s.db.links|] == s.db.links
    requires forall k :: |s.db.links| <= k < |t.db.links| ==> t.db.links[k].incident != i
    ensures AllEnded(t, i)
  {
    forall k | 0 <= k < |t.db.links| && t.db.links[k].incident == i ensures Ended(t, t.db.links[k].run) {
      assert t.db.links[k] == t.db.links[..|s.db.links|][k];
      assert Ended(s, s.db.links[k].run);
    }
  }

  lemma LatestUpTo(t: Tables, n: nat, i: IncidentId)
    requires 0 < n <= |t.links|
    ensures var l := t.links[n - 1];
      LatestRunStatus(t, t.links[..n], i) ==
        if l.incident == i && l.run in t.runs then Some(t.runs[l.run]) else LatestRunStatus(t, t.links[..n - 1], i)
  {
    assert t.links[..n][..n - 1] == t.links[..n - 1];
  }

  lemma LinkTells(s: System, n: nat)
    requires LinksInv(s) && n < |s.db.links|
    ensures var l := s.db.links[n]; l.run in s.db.runs && l.run in s.tasks && (!InFlight(s.db.runs[l.run]) ==> Ended(s, l.run))
    ensures forall k :: 0 <= k < n && s.db.links[k].incident == s.db.links[n].incident ==> Ended(s, s.db.links[k].run)
  {
    assert LinkKnown(s, s.db.links[n]) && TaskKnown(s, s.db.links[n].run);
  }

  /** What the status of the newest of the first `n` links says about all of them. */
  ghost predicate Tells(s: System, n: nat, i: IncidentId, latest: Option<RunStatus>)
    requires n <= |s.db.links|
  {
    && (latest.None? <==> forall k :: 0 <= k < n ==> s.db.links[k].incident != i)
    && (latest.Some? && !InFlight(latest.value) ==>
          forall k :: 0 <= k < n && s.db.links[k].incident == i ==> Ended(s, s.db.links[k].run))
  }

  lemma TellsNext(s: System, n: nat, i: IncidentId, latest: Option<RunStatus>)
    requires LinksInv(s) && n < |s.db.links| && Tells(s, n, i, latest)
    ensures var l := s.db.links[n];
      l.run in s.db.runs && Tells(s, n + 1, i, if l.incident == i then Some(s.db.runs[l.run]) else latest)
  {
    LinkTells(s, n);
    hide LinksInv, Ended, InFlight;
  }

  lemma NoLinkTells(s: System, i: IncidentId)
    ensures LatestRunStatus(s.db, s.db.links[..0], i) == None && Tells(s, 0, i, None)
  {
  }

  lemma {:induction false} NewestTells(s: System, n: nat, i: IncidentId)
    requires LinksInv(s) && n <= |s.db.links|
    ensures Tells(s, n, i, LatestRunStatus(s.db, s.db.links[..n], i))
  {
    hide LinksInv, LatestRunStatus, Tells;
    if n == 0 {
      NoLinkTells(s, i);
    } else {
      LatestUpTo(s.db, n, i);
      NewestTells(s, n - 1, i);
      TellsNext(s, n - 1, i, LatestRunStatus(s.db, s.db.links[..n - 1], i));
    }
  }

  /** The guard reads only the newest link, yet tells that no linked run is in flight. */
  lemma NewestLinkEnded(s: System, n: nat, i: IncidentId)
    requires LinksInv(s) && n <= |s.db.links|
    ensures var latest := LatestRunStatus(s.db, s.db.links[..n], i);
            && (latest.None? <==> forall k :: 0 <= k < n ==> s.db.links[k].incident != i)
            && (latest.Some? && !InFlight(latest.value) ==>
                  forall k :: 0 <= k < n && s.db.links[k].incident == i ==> Ended(s, s.db.links[k].run))
  {
    hide LinksInv, LatestRunStatus, Ended, InFlight;
    NewestTells(s, n, i);
  }

  lemma ChooseSeesEnded(s: System)
    requires LinksInv(s) && WatcherEnabled(s, Choose)
    requires var latest := LatestRunStatus(s.db, s.db.links, s.watcher.todo[0].id); !(latest.Some? && InFlight(latest.value))
    ensures AllEnded(s, s.watcher.todo[0].id)
  {
    assert s.db.links[..|s.db.links|] == s.db.links;
    NewestLinkEnded(s, |s.db.links|, s.watcher.todo[0].id);
  }

  lemma WatcherKeepsWatcher(s: System, st: WatcherStep)
    requires LinksInv(s) && WatcherInv(s) && WatcherEnabled(s, st)
    ensures WatcherInv(WatcherNext(s, st))
  {
    match st
    case Bump => BumpKeepsWatcher(s);
    case RearmDeadline(ts) => RearmKeepsWatcher(s, ts);
    case Choose => ChooseKeepsWatcher(s);
    case MakeRun(_) => MakeRunKeepsWatcher(s, st);
    case LinkReEscalation =>
      assert WatcherNext(s, st).db.incidents == s.db.incidents;
      HeadDropped(s, WatcherNext(s, st));
    case Poll(todo) => PollKeepsWatcher(s, todo);
    case _ =>
      SameRowsWatcher(s, WatcherNext(s, st));
      QuietKeepsWatcher(s, st);
  }

  lemma ChooseKeepsWatcher(s: System)
    requires LinksInv(s) && WatcherInv(s) && WatcherEnabled(s, Choose)
    ensures WatcherInv(WatcherNext(s, Choose))
  {
    var t := WatcherNext(s, Choose);
    SameRowsWatcher(s, t);
    if t.watcher.Chosen? {
      ChooseSeesEnded(s);
    }
  }

  lemma MakeRunKeepsWatcher(s: System, st: WatcherStep)
    requires WatcherInv(s) && WatcherEnabled(s, st) && st.MakeRun?
    ensures WatcherInv(WatcherNext(s, st))
  {
    var t := WatcherNext(s, st);
    assert AllEnded(s, s.watcher.todo[0].id) && t.db.links == s.db.links && t.tasks == s.tasks;
    assert AllEnded(t, s.watcher.todo[0].id);
    assert forall p :: SnapshotOk(s, p) ==> SnapshotOk(t, p);
  }

  lemma PollKeepsWatcher(s: System, todo: seq<Snapshot>)
    requires WatcherEnabled(s, Poll(todo))
    ensures WatcherInv(WatcherNext(s, Poll(todo)))
  {
  }

  lemma HeadDropped(s: System, t: System)
    requires WatcherInv(s) && t.db.incidents == s.db.incidents
    requires !s.watcher.Idle? && !s.watcher.ClockRead? && s.watcher.todo != []
    requires t.watcher == Polling(s.watcher.now, s.watcher.todo[1..])
    ensures WatcherInv(t)
  {
    forall k | 0 <= k < |t.watcher.todo| ensures SnapshotOk(t, t.watcher.todo[k]) {
      assert SnapshotOk(s, s.watcher.todo[k + 1]);
    }
  }

  lemma QuietKeepsWatcher(s: System, st: WatcherStep)
    requires WatcherInv(s) && WatcherEnabled(s, st)
    requires st.ReadClock? || st.ReadFeed? || st.Load? || st.Skip? || st.EndPoll?
    ensures WatcherInv(WatcherNext(s, st))
  {
    var t := WatcherNext(s, st);
    if st.Skip? || (st.Load? && t.watcher.Polling?) {
      HeadDropped(s, t);
    } else {
      SameRowsWatcher(s, t);
    }
  }

  /** Steps that change only the watcher itself. */
  lemma SameRowsWatcher(s: System, t: System)
    requires t.db == s.db && t.tasks == s.tasks
    ensures forall p :: SnapshotOk(s, p) ==> SnapshotOk(t, p)
    ensures forall i :: AllEnded(s, i) ==> AllEnded(t, i)
  {
  }

  lemma BumpKeepsWatcher(s: System)
    requires WatcherInv(s) && WatcherEnabled(s, Bump)
    ensures WatcherInv(WatcherNext(s, Bump))
  {
    var t := WatcherNext(s, Bump);
    var w := s.watcher;
    forall k | 0 <= k < |w.todo| ensures SnapshotOk(t, w.todo[k]) {
      assert SnapshotOk(s, w.todo[k]);
    }
    assert AllEnded(s, w.todo[0].id);
    assert AllEnded(t, w.todo[0].id);
  }

  lemma RearmKeepsWatcher(s: System, ts: Time)
    requires WatcherInv(s) && WatcherEnabled(s, RearmDeadline(ts))
    ensures WatcherInv(WatcherNext(s, RearmDeadline(ts)))
  {
    var t := WatcherNext(s, RearmDeadline(ts));
    var w := s.watcher;
    forall k | 0 <= k < |w.todo| ensures SnapshotOk(t, w.todo[k]) {
      assert SnapshotOk(s, w.todo[k]);
    }
    assert AllEnded(s, w.todo[0].id);
    assert AllEnded(t, w.todo[0].id);
  }

  // ---- counts ----

  lemma {:induction false} CountZero(links: seq<Link>, i: IncidentId, kind: LinkKind)
    requires forall k :: 0 <= k < |links| ==> links[k].incident != i
    ensures Count(links, i, kind) == 0
  {
    if links != [] {
      CountZero(links[..|links| - 1], i, kind);
    }
  }

  lemma CountSnoc(links: seq<Link>, l: Link, i: IncidentId, kind: LinkKind)
    ensures Count(links + [l], i, kind) == Count(links, i, kind) + (if l.incident == i && l.kind == kind then 1 else 0)
  {
    assert (links + [l])[..|links|] == links;
  }

  lemma RunsKeepCounts(s: System, r: RunId, st: RunStep)
    requires CountsInv(s) && RunEnabled(s, r, st)
    ensures CountsInv(RunNext(s, r, st))
  {
    RunTouches(s, r, st);
    assert forall i :: i in s.db.incidents ==> Counted(s, i);
  }

  lemma HandlersKeepCounts(s: System, h: nat, st: HandlerStep)
    requires LinksInv(s) && PendingInv(s) && WatcherInv(s) && CountsInv(s) && HandlerEnabled(s, h, st)
    ensures CountsInv(HandlerNext(s, h, st))
  {
    var t := HandlerNext(s, h, st);
    HandlerTouches(s, h, st);
    HandlerWritesOnly(s, h, st);
    forall i | i in t.db.incidents ensures Counted(t, i) {
      if i in s.db.incidents {
        assert Counted(s, i) && RowKept(s, t, i);
        if st.LinkInvestigation? {
          var pc := s.handlers[h];
          assert Pends(pc, pc.incident) && !HasLink(s.db, pc.incident);
          CountZero(s.db.links, pc.incident, Investigation);
          CountSnoc(s.db.links, Link(pc.incident, pc.run, Investigation), i, Investigation);
          CountSnoc(s.db.links, Link(pc.incident, pc.run, Investigation), i, ReEscalation);
        }
      } else {
        NewIncidentCounted(s, t, h, st, i);
      }
    }
  }

  lemma NewIncidentCounted(s: System, t: System, h: nat, st: HandlerStep, i: IncidentId)
    requires LinksInv(s) && WatcherInv(s) && HandlerEnabled(s, h, st)
    requires HandlerEffect(s, t, h) && HandlerWrites(s, t, h, st) && i in t.db.incidents && i !in s.db.incidents
    ensures Counted(t, i)
  {
    forall k | 0 <= k < |s.db.links| ensures s.db.links[k].incident != i {
      assert LinkKnown(s, s.db.links[k]);
    }
    CountZero(t.db.links, i, Investigation);
    CountZero(t.db.links, i, ReEscalation);
    assert PastBump(s.watcher) && s.watcher.todo != [] ==> SnapshotOk(s, s.watcher.todo[0]);
  }

  lemma WatcherKeepsCounts(s: System, st: WatcherStep)
    requires LinksInv(s) && PendingInv(s) && WatcherInv(s) && CountsInv(s) && WatcherEnabled(s, st)
    ensures CountsInv(WatcherNext(s, st))
  {
    match st
    case LinkReEscalation => ReEscalationCounted(s);
    case Bump => BumpCounted(s);
    case RearmDeadline(ts) => RearmCounted(s, ts);
    case _ => OtherWatcherSteps(s, st); CountsCarry(s, WatcherNext(s, st));
  }

  lemma OtherWatcherSteps(s: System, st: WatcherStep)
    requires WatcherEnabled(s, st) && !st.LinkReEscalation? && !st.Bump? && !st.RearmDeadline?
    ensures var t := WatcherNext(s, st);
            && t.db.incidents == s.db.incidents && t.db.links == s.db.links
            && (PastBump(t.watcher) ==> PastBump(s.watcher) && t.watcher.todo == s.watcher.todo)
  {
  }

  lemma BumpCounted(s: System)
    requires WatcherInv(s) && CountsInv(s) && WatcherEnabled(s, Bump)
    ensures CountsInv(WatcherNext(s, Bump))
  {
    var t := WatcherNext(s, Bump);
    assert SnapshotOk(s, s.watcher.todo[0]);
    forall i | i in t.db.incidents ensures Counted(t, i) {
      assert Counted(s, i);
    }
  }

  lemma RearmCounted(s: System, ts: Time)
    requires CountsInv(s) && WatcherEnabled(s, RearmDeadline(ts))
    ensures CountsInv(WatcherNext(s, RearmDeadline(ts)))
  {
    var t := WatcherNext(s, RearmDeadline(ts));
    forall i | i in t.db.incidents ensures Counted(t, i) {
      assert Counted(s, i);
    }
  }

  lemma CountsCarry(s: System, t: System)
    requires CountsInv(s) && t.db.incidents == s.db.incidents && t.db.links == s.db.links
    requires PastBump(t.watcher) ==> PastBump(s.watcher) && t.watcher.todo == s.watcher.todo
    ensures CountsInv(t)
  {
    assert forall i :: i in s.db.incidents ==> Counted(s, i);
  }

  lemma ReEscalationCounted(s: System)
    requires LinksInv(s) && PendingInv(s) && CountsInv(s) && WatcherEnabled(s, LinkReEscalation)
    ensures CountsInv(WatcherNext(s, LinkReEscalation))
  {
    var t := WatcherNext(s, LinkReEscalation);
    var w := s.watcher;
    NotLinked(s, w.todo[0].id, w.run);
    forall i | i in t.db.incidents ensures Counted(t, i) {
      assert Counted(s, i);
      CountSnoc(s.db.links, Link(w.todo[0].id, w.run, ReEscalation), i, Investigation);
      CountSnoc(s.db.links, Link(w.todo[0].id, w.run, ReEscalation), i, ReEscalation);
    }
  }

  // ---- deadlines and the log ----

  /** A run step moves the deadline of its incident only as the code allows: a remediation rearms
      it from a clock reading taken while recording, a close-out only fills in a missing one. */
  lemma RunMovesDeadline(s: System, r: RunId, st: RunStep)
    requires RunEnabled(s, r, st) && s.tasks[r].incident in s.db.incidents
    ensures var t := RunNext(s, r, st); var i := s.tasks[r].incident;
            var a, b := s.db.incidents[i].deadline, t.db.incidents[i].deadline;
            && (b == a || (a.None? && b.Some?)
                || (s.tasks[r].phase.Recording? && b == Some(s.tasks[r].phase.at + s.window)))
            && (Timed(t.tasks[r].phase) ==>
                  t.tasks[r].phase.at == if Timed(s.tasks[r].phase) then s.tasks[r].phase.at else s.clock)
  {
  }

  lemma RunsKeepTime(s: System, r: RunId, st: RunStep)
    requires KeysInv(s) && WatcherInv(s) && TimeInv(s) && RunEnabled(s, r, st)
    ensures TimeInv(RunNext(s, r, st))
  {
    assert TaskJustified(s, s.tasks[r]);
    RunTouches(s, r, st);
    RunMovesDeadline(s, r, st);
    TimeCarryRun(s, RunNext(s, r, st), r);
  }

  lemma TimeCarryRun(s: System, t: System, r: RunId)
    requires r in s.tasks && s.tasks[r].incident in s.db.incidents && WatcherInv(s) && TimeInv(s) && RunEffect(s, t, r)
    requires var i := s.tasks[r].incident; var a, b := s.db.incidents[i].deadline, t.db.incidents[i].deadline;
             b == a || (a.None? && b.Some?)
             || (s.tasks[r].phase.Recording? && b == Some(s.tasks[r].phase.at + s.window))
    requires Timed(t.tasks[r].phase) ==> t.tasks[r].phase.at == if Timed(s.tasks[r].phase) then s.tasks[r].phase.at else s.clock
    ensures TimeInv(t)
  {
    forall k | 0 <= k < |t.log| ensures Logged(t, t.log[k]) && Covered(t, k) {
      assert Logged(s, s.log[k]) && Covered(s, k);
    }
  }

  lemma HandlersKeepTime(s: System, h: nat, st: HandlerStep)
    requires LinksInv(s) && PendingInv(s) && TimeInv(s) && HandlerEnabled(s, h, st)
    ensures TimeInv(HandlerNext(s, h, st))
  {
    HandlerTouches(s, h, st);
    HandlerWritesOnly(s, h, st);
    TimeCarryHandler(s, HandlerNext(s, h, st), h);
  }

  lemma TimeCarryHandler(s: System, t: System, h: nat)
    requires TimeInv(s) && HandlerEffect(s, t, h)
    requires forall r :: r in t.tasks && r !in s.tasks ==> t.tasks[r].phase.Spawned?
    ensures TimeInv(t)
  {
    forall k | 0 <= k < |t.log| ensures Logged(t, t.log[k]) && Covered(t, k) {
      assert Logged(s, s.log[k]) && Covered(s, k);
      assert RowKept(s, t, s.log[k].incident);
    }
  }

  lemma WatcherKeepsTime(s: System, st: WatcherStep)
    requires LinksInv(s) && PendingInv(s) && WatcherInv(s) && TimeInv(s) && WatcherEnabled(s, st)
    ensures TimeInv(WatcherNext(s, st))
  {
    var t := WatcherNext(s, st);
    var w := s.watcher;
    WatcherTouches(s, st);
    match st
    case Bump => BumpKeepsTime(s);
    case RearmDeadline(ts) => RearmKeepsTime(s, ts);
    case Poll(todo) => PollKeepsTime(s, todo);
    case Skip => SkipKeepsTime(s);
    case _ =>
      assert t.log == s.log && t.failed == s.failed && t.db.incidents == s.db.incidents;
      TimeCarryWatcher(s, t);
  }

  /** Watcher steps that leave the rows and the log alone and at most drop the head of the list. */
  lemma TimeCarryWatcher(s: System, t: System)
    requires TimeInv(s) && WatcherEffect(s, t) && t.log == s.log && t.db.incidents == s.db.incidents
    requires t.failed == s.failed && forall r :: r in t.tasks && r !in s.tasks ==> t.tasks[r].phase.Spawned?
    requires !s.watcher.Bumped? && !t.watcher.Bumped?
    requires t.watcher.ClockRead? ==> t.watcher.now == s.clock
    requires !t.watcher.Idle? && !t.watcher.ClockRead? ==>
               && !s.watcher.Idle? && !s.watcher.ClockRead? && t.watcher.now == s.watcher.now
               && ((t.watcher.todo == s.watcher.todo && (PastBump(s.watcher) ==> PastBump(t.watcher)))
                   || (s.watcher.todo != [] && t.watcher.todo == s.watcher.todo[1..]))
    ensures TimeInv(t)
  {
    forall k | 0 <= k < |t.log| ensures Logged(t, t.log[k]) && Covered(t, k) {
      assert Logged(s, s.log[k]) && Covered(s, k);
    }
  }

  /** An exception drops the head of the list; after the count was raised it also leaves the
      escalation without its new deadline. */
  lemma SkipKeepsTime(s: System)
    requires TimeInv(s) && WatcherEnabled(s, Skip)
    ensures TimeInv(WatcherNext(s, Skip))
  {
    var t := WatcherNext(s, Skip);
    forall k | 0 <= k < |t.log| ensures Logged(t, t.log[k]) && Covered(t, k) {
      assert Logged(s, s.log[k]) && Covered(s, k);
    }
    assert s.failed <= t.failed;
    assert forall j :: 0 <= j < |t.watcher.todo| ==> t.watcher.todo[j] == s.watcher.todo[j + 1];
  }

  lemma PollKeepsTime(s: System, todo: seq<Snapshot>)
    requires TimeInv(s) && WatcherEnabled(s, Poll(todo))
    ensures TimeInv(WatcherNext(s, Poll(todo)))
  {
    var t := WatcherNext(s, Poll(todo));
    forall k | 0 <= k < |t.log| ensures Logged(t, t.log[k]) && Covered(t, k) {
      assert Logged(s, s.log[k]) && Covered(s, k);
    }
    forall j, k | 0 <= j < |todo| && 0 <= k < |t.log| && k !in t.failed && t.log[k].incident == todo[j].id && todo[j].row.deadline.Some?
      ensures t.log[k].polled + t.window <= todo[j].row.deadline.value
    {
      assert Logged(s, s.log[k]) && Covered(s, k) && todo[j].row == s.db.incidents[todo[j].id];
    }
  }

  /** When the watcher escalates, every run of the incident has ended, so nobody is recording. */
  lemma NobodyRecords(s: System, i: IncidentId, r: RunId)
    requires LinksInv(s) && AllEnded(s, i) && r in s.tasks && s.tasks[r].incident == i
    ensures s.tasks[r].phase == Over
  {
    assert TaskKnown(s, r);
    var k :| 0 <= k < |s.db.links| && s.db.links[k].incident == i && s.db.links[k].run == r;
    assert Ended(s, s.db.links[k].run);
  }

  lemma BumpKeepsTime(s: System)
    requires LinksInv(s) && WatcherInv(s) && TimeInv(s) && WatcherEnabled(s, Bump)
    ensures TimeInv(WatcherNext(s, Bump))
  {
    hide LinksInv;
    var t := WatcherNext(s, Bump);
    var w := s.watcher;
    var i := w.todo[0].id;
    assert SnapshotOk(s, w.todo[0]);
    forall k | 0 <= k < |t.log| ensures Logged(t, t.log[k]) && Covered(t, k) {
      if k < |s.log| {
        assert t.log[k] == s.log[k] && Logged(s, s.log[k]) && Covered(s, k);
      }
    }
    forall r | r in t.tasks && t.tasks[r].incident == i ensures !Timed(t.tasks[r].phase) {
      NobodyRecords(s, i, r);
    }
    forall k | 0 <= k < |s.log| && k !in s.failed && s.log[k].incident == i ensures s.log[k].polled + s.window < w.now {
      assert s.log[k].polled + s.window <= w.todo[0].row.deadline.value;
    }
    BumpSpacing(s, t);
  }

  lemma BumpSpacing(s: System, t: System)
    requires TimeInv(s) && s.watcher.Loaded? && s.watcher.todo != []
    requires t.log == s.log + [Escalation(s.watcher.todo[0].id, s.watcher.now)] && t.window == s.window && t.failed == s.failed
    requires forall k :: 0 <= k < |s.log| && k !in s.failed && s.log[k].incident == s.watcher.todo[0].id ==> s.log[k].polled + s.window < s.watcher.now
    ensures forall k, l :: 0 <= k < l < |t.log| && t.log[k].incident == t.log[l].incident && k !in t.failed ==>
              t.log[k].polled + t.window < t.log[l].polled
  {
    assert forall k :: 0 <= k < |s.log| ==> t.log[k] == s.log[k];
  }

  lemma RearmKeepsTime(s: System, ts: Time)
    requires WatcherInv(s) && TimeInv(s) && WatcherEnabled(s, RearmDeadline(ts))
    ensures TimeInv(WatcherNext(s, RearmDeadline(ts)))
  {
    var t := WatcherNext(s, RearmDeadline(ts));
    assert SnapshotOk(s, s.watcher.todo[0]);
    forall k | 0 <= k < |t.log| ensures Logged(t, t.log[k]) && Covered(t, k) {
      assert Logged(s, s.log[k]) && Covered(s, k);
    }
  }

  // ---- close-outs ----

  lemma RunsKeepSettled(s: System, r: RunId, st: RunStep)
    requires SettledInv(s) && RunEnabled(s, r, st)
    ensures SettledInv(RunNext(s, r, st))
  {
    var t := RunNext(s, r, st);
    RunTouches(s, r, st);
    StepKeepsRows(s, Run(r, st));
    RunSettles(s, r, st);
    SettledCarry(s, t, r);
  }

  lemma RunSettles(s: System, r: RunId, st: RunStep)
    requires RunEnabled(s, r, st) && SettledOk(s, s.tasks[r])
    ensures var t := RunNext(s, r, st); SettledOk(t, t.tasks[r])
  {
  }

  lemma SettledCarry(s: System, t: System, r: RunId)
    requires r in s.tasks && SettledInv(s) && RunEffect(s, t, r) && SettledOk(t, t.tasks[r])
    requires forall i :: i in s.db.incidents ==> RowKept(s, t, i)
    ensures SettledInv(t)
  {
    forall q | q in t.tasks ensures SettledOk(t, t.tasks[q]) {
      assert SettledOk(s, s.tasks[q]);
    }
  }

  /** Steps of the other actors keep every settled close-out settled. */
  lemma SettledCarryOthers(s: System, t: System)
    requires SettledInv(s) && KeysInv(s)
    requires forall i :: i in s.db.incidents ==> RowKept(s, t, i)
    requires forall r :: r in s.tasks ==> r in t.tasks && t.tasks[r] == s.tasks[r]
    requires forall r :: r in t.tasks && r !in s.tasks ==> !t.tasks[r].settled
    ensures SettledInv(t)
  {
    forall q | q in t.tasks ensures SettledOk(t, t.tasks[q]) {
      if q in s.tasks {
        assert SettledOk(s, s.tasks[q]) && TaskJustified(s, s.tasks[q]);
        assert RowKept(s, t, s.tasks[q].incident);
      }
    }
  }
}
