/** Where deadlines come from, and what becomes of an incident that never got one. */
module IncidentDeadlines {
  import opened Options
  import opened Ingress
  import opened IncidentTables
  import opened IncidentProtocol
  import opened IncidentInvariants
  import opened IncidentRuns
  import opened IncidentTiming
  import opened IncidentAlerts
  import opened IncidentSafety

  predicate Arming(t: Task) {
    t.settled || t.rearmed
  }

  /** Some run of the incident settled its close-out or moved the deadline after a remediation. */
  ghost predicate Armed(s: System, i: IncidentId) {
    exists r :: r in s.tasks && s.tasks[r].incident == i && Arming(s.tasks[r])
  }

  ghost predicate DeadlinesInv(s: System) {
    && (forall i :: i in s.db.incidents && s.db.incidents[i].deadline.Some? ==> Armed(s, i))
    && (forall r :: r in s.tasks && s.tasks[r].rearmed ==>
          s.tasks[r].incident in s.db.incidents && s.db.incidents[s.tasks[r].incident].deadline.Some?)
  }

  lemma HandlersKeepDeadlines(s: System, h: nat, st: HandlerStep)
    requires LinksInv(s) && PendingInv(s) && DeadlinesInv(s) && HandlerEnabled(s, h, st)
    ensures DeadlinesInv(HandlerNext(s, h, st))
  {
    var t := HandlerNext(s, h, st);
    HandlerTouches(s, h, st);
    HandlerWritesOnly(s, h, st);
    HandlerDeadlines(s, h, st);
    forall i | i in t.db.incidents && t.db.incidents[i].deadline.Some? ensures Armed(t, i) {
      assert Armed(s, i);
      var r :| r in s.tasks && s.tasks[r].incident == i && Arming(s.tasks[r]);
      assert t.tasks[r] == s.tasks[r];
    }
  }

  lemma HandlerDeadlines(s: System, h: nat, st: HandlerStep)
    requires HandlerEnabled(s, h, st)
    ensures var t := HandlerNext(s, h, st);
      && (forall i :: i in t.db.incidents && t.db.incidents[i].deadline.Some? ==>
            i in s.db.incidents && t.db.incidents[i].deadline == s.db.incidents[i].deadline)
      && (forall r :: r in t.tasks && t.tasks[r].rearmed ==> r in s.tasks && t.tasks[r] == s.tasks[r])
  {
  }

  /** A run step that gives its incident a deadline marks its task, and marks stay. */
  lemma RunDeadlines(s: System, r: RunId, st: RunStep)
    requires RunEnabled(s, r, st) && s.tasks[r].incident in s.db.incidents
    ensures var t := RunNext(s, r, st); var i := s.tasks[r].incident;
      && (t.db.incidents[i].deadline.Some? ==> s.db.incidents[i].deadline.Some? || Arming(t.tasks[r]))
      && (s.db.incidents[i].deadline.Some? ==> t.db.incidents[i].deadline.Some?)
      && (Arming(s.tasks[r]) ==> Arming(t.tasks[r]))
      && (t.tasks[r].rearmed ==> s.tasks[r].rearmed || t.db.incidents[i].deadline.Some?)
  {
  }

  lemma RunsKeepDeadlines(s: System, r: RunId, st: RunStep)
    requires KeysInv(s) && DeadlinesInv(s) && RunEnabled(s, r, st)
    ensures DeadlinesInv(RunNext(s, r, st))
  {
    assert TaskJustified(s, s.tasks[r]);
    RunTouches(s, r, st);
    RunDeadlines(s, r, st);
    DeadlinesCarryRun(s, RunNext(s, r, st), r);
  }

  lemma DeadlinesCarryRun(s: System, t: System, r: RunId)
    requires DeadlinesInv(s) && r in s.tasks && s.tasks[r].incident in s.db.incidents && RunEffect(s, t, r)
    requires var i := s.tasks[r].incident;
      && (t.db.incidents[i].deadline.Some? ==> s.db.incidents[i].deadline.Some? || Arming(t.tasks[r]))
      && (s.db.incidents[i].deadline.Some? ==> t.db.incidents[i].deadline.Some?)
      && (Arming(s.tasks[r]) ==> Arming(t.tasks[r]))
      && (t.tasks[r].rearmed ==> s.tasks[r].rearmed || t.db.incidents[i].deadline.Some?)
    ensures DeadlinesInv(t)
  {
    forall i | i in t.db.incidents && t.db.incidents[i].deadline.Some? ensures Armed(t, i) {
      if s.db.incidents[i].deadline.Some? {
        var q :| q in s.tasks && s.tasks[q].incident == i && Arming(s.tasks[q]);
        assert Arming(t.tasks[q]);
      } else {
        assert Arming(t.tasks[r]);
      }
    }
  }

  lemma WatchersKeepDeadlines(s: System, st: WatcherStep)
    requires LinksInv(s) && PendingInv(s) && WatcherInv(s) && DeadlinesInv(s) && WatcherEnabled(s, st)
    ensures DeadlinesInv(WatcherNext(s, st))
  {
    hide WatcherEnabled, WatcherNext;
    var t := WatcherNext(s, st);
    FreshLink(s, st);
    WatcherTouches(s, st);
    WatcherArms(s, st);
    forall i | i in t.db.incidents && t.db.incidents[i].deadline.Some? ensures Armed(t, i) {
      var r :| r in s.tasks && s.tasks[r].incident == i && Arming(s.tasks[r]);
      assert t.tasks[r] == s.tasks[r];
    }
    forall r | r in t.tasks && t.tasks[r].rearmed ensures t.tasks[r].incident in t.db.incidents && t.db.incidents[t.tasks[r].incident].deadline.Some? {
      assert RowKept(s, t, t.tasks[r].incident);
    }
  }

  lemma FreshLink(s: System, st: WatcherStep)
    requires WatcherEnabled(s, st) && WatcherInv(s) && PendingInv(s)
    ensures st.LinkReEscalation? ==> Fresh(s, s.watcher.run)
    ensures st.RearmDeadline? ==> s.watcher.todo != [] && SnapshotOk(s, s.watcher.todo[0])
  {
  }

  lemma WatcherArms(s: System, st: WatcherStep)
    requires WatcherEnabled(s, st)
    ensures var t := WatcherNext(s, st);
      && (forall i :: i in t.db.incidents && t.db.incidents[i].deadline.Some? ==>
            i in s.db.incidents && (s.db.incidents[i].deadline.Some? || (st.RearmDeadline? && s.watcher.todo[0].id == i)))
      && (forall r :: r in t.tasks && t.tasks[r].rearmed ==> r in s.tasks && t.tasks[r] == s.tasks[r])
  {
  }

  lemma StepKeepsDeadlines(s: System, e: Event)
    requires Inv(s) && DeadlinesInv(s) && Enabled(s, e)
    ensures DeadlinesInv(Next(s, e))
  {
    match e
    case Handle(h, hs) => HandlersKeepDeadlines(s, h, hs);
    case Run(r, rs) => RunsKeepDeadlines(s, r, rs);
    case Watch(ws) => WatchersKeepDeadlines(s, ws);
    case Tick(_, _) =>
      assert forall i :: Armed(s, i) ==> Armed(Next(s, e), i);
  }

  lemma {:induction false} DeadlinesHold(window: nat, clock: Time, ss: seq<System>, es: seq<Event>, k: nat)
    requires IsRun(window, clock, ss, es) && k < |ss|
    ensures DeadlinesInv(ss[k])
  {
    if k > 0 {
      DeadlinesHold(window, clock, ss, es, k - 1);
      InvHolds(window, clock, ss, es, k - 1);
      StepKeepsDeadlines(ss[k - 1], es[k - 1]);
    }
  }

  /** An open incident is without a deadline exactly when none of its runs settled a close-out or
      moved the deadline after a remediation. */
  lemma UnarmedIff(window: nat, clock: Time, ss: seq<System>, es: seq<Event>, k: nat, i: IncidentId)
    requires IsRun(window, clock, ss, es) && k < |ss|
    requires i in ss[k].db.incidents && ss[k].db.incidents[i].status == Open
    ensures ss[k].db.incidents[i].deadline == None <==> !Armed(ss[k], i)
  {
    DeadlinesHold(window, clock, ss, es, k);
    InvHolds(window, clock, ss, es, k);
    if Armed(ss[k], i) {
      var r :| r in ss[k].tasks && ss[k].tasks[r].incident == i && Arming(ss[k].tasks[r]);
      assert SettledOk(ss[k], ss[k].tasks[r]);
    }
  }

  // ---- an incident nobody comes back to ----

  /** Open, without a deadline, and every run that was linked to it is over. */
  ghost predicate Stuck(s: System, i: IncidentId) {
    && i in s.db.incidents && s.db.incidents[i].status == Open && s.db.incidents[i].deadline == None
    && HasLink(s.db, i) && AllEnded(s, i)
  }

  predicate ClosesByNotice(s: System, e: Event, i: IncidentId) {
    e.Handle? && e.hs.CloseRow? && e.h in s.handlers && s.handlers[e.h].Closing? && s.handlers[e.h].incident == i
  }

  lemma HandlersKeepStuck(s: System, h: nat, st: HandlerStep, i: IncidentId)
    requires LinksInv(s) && PendingInv(s) && HandlerEnabled(s, h, st) && Stuck(s, i)
    requires !ClosesByNotice(s, Handle(h, st), i)
    ensures Stuck(HandlerNext(s, h, st), i)
  {
    var t := HandlerNext(s, h, st);
    HandlersKeepEnded(s, h, st, i);
    HandlerTouches(s, h, st);
    HandlerWritesOnly(s, h, st);
    HandlerOpen(s, h, st, i);
    if st.LinkInvestigation? {
      HasLinkGrows(s.db, t.db, Link(s.handlers[h].incident, s.handlers[h].run, Investigation));
    } else {
      assert HasLink(s.db, i) ==> HasLink(t.db, i);
    }
  }

  lemma HandlerOpen(s: System, h: nat, st: HandlerStep, i: IncidentId)
    requires HandlerEnabled(s, h, st) && i in s.db.incidents && !ClosesByNotice(s, Handle(h, st), i)
    ensures i in HandlerNext(s, h, st).db.incidents && HandlerNext(s, h, st).db.incidents[i] == s.db.incidents[i]
  {
  }

  lemma RunsKeepStuck(s: System, r: RunId, st: RunStep, i: IncidentId)
    requires LinksInv(s) && RunEnabled(s, r, st) && Stuck(s, i)
    ensures Stuck(RunNext(s, r, st), i)
  {
    var t := RunNext(s, r, st);
    RunTouches(s, r, st);
    assert TaskKnown(s, r);
    assert s.tasks[r].incident != i by {
      if s.tasks[r].incident == i {
        NobodyRecords(s, i, r);
      }
    }
    forall k | 0 <= k < |t.db.links| && t.db.links[k].incident == i ensures Ended(t, t.db.links[k].run) {
      assert Ended(s, s.db.links[k].run);
      assert LinkKnown(s, s.db.links[k]);
    }
    assert HasLink(t.db, i);
  }

  lemma StuckCarries(s: System, t: System, i: IncidentId)
    requires Stuck(s, i) && i in t.db.incidents && t.db.incidents[i] == s.db.incidents[i]
    requires forall r :: r in s.tasks ==> r in t.tasks && t.tasks[r] == s.tasks[r]
    requires t.db.links == s.db.links || exists l :: t.db.links == s.db.links + [l] && l.incident != i
    ensures Stuck(t, i)
  {
    AllEndedCarry(s, t, i);
    if t.db.links != s.db.links {
      var l :| t.db.links == s.db.links + [l] && l.incident != i;
      HasLinkGrows(s.db, t.db, l);
    }
  }

  lemma WatcherLeavesRow(s: System, st: WatcherStep, i: IncidentId)
    requires WatcherInv(s) && WatcherEnabled(s, st) && i in s.db.incidents && s.db.incidents[i].deadline == None
    ensures i in WatcherNext(s, st).db.incidents && WatcherNext(s, st).db.incidents[i] == s.db.incidents[i]
  {
    if st.Bump? || st.RearmDeadline? {
      assert SnapshotOk(s, s.watcher.todo[0]);
    }
  }

  lemma WatchersKeepStuck(s: System, st: WatcherStep, i: IncidentId)
    requires LinksInv(s) && PendingInv(s) && WatcherInv(s) && WatcherEnabled(s, st) && Stuck(s, i)
    ensures Stuck(WatcherNext(s, st), i)
  {
    WatcherTouches(s, st);
    WatcherLinksOnly(s, st);
    WatcherLeavesRow(s, st, i);
    StuckCarries(s, WatcherNext(s, st), i);
  }

  lemma WatcherLinksOnly(s: System, st: WatcherStep)
    requires LinksInv(s) && PendingInv(s) && WatcherInv(s) && WatcherEnabled(s, st)
    ensures var t := WatcherNext(s, st);
      t.db.links == s.db.links || (exists l :: t.db.links == s.db.links + [l] && l.incident in s.db.incidents && s.db.incidents[l.incident].deadline.Some?)
  {
    if st.LinkReEscalation? {
      assert SnapshotOk(s, s.watcher.todo[0]);
      NotLinked(s, s.watcher.todo[0].id, s.watcher.run);
      assert WatcherNext(s, st).db.links == s.db.links + [Link(s.watcher.todo[0].id, s.watcher.run, ReEscalation)];
    }
  }

  lemma StepKeepsStuck(s: System, e: Event, i: IncidentId)
    requires Inv(s) && Enabled(s, e) && Stuck(s, i) && !ClosesByNotice(s, e, i)
    ensures Stuck(Next(s, e), i)
  {
    match e
    case Handle(h, hs) => HandlersKeepStuck(s, h, hs, i);
    case Run(r, rs) => RunsKeepStuck(s, r, rs, i);
    case Watch(ws) => WatchersKeepStuck(s, ws, i);
    case Tick(_, _) =>
  }

  lemma PollSkips(s: System, todo: seq<Snapshot>, i: IncidentId)
    requires WatcherEnabled(s, Poll(todo)) && Stuck(s, i)
    ensures forall p :: p in todo ==> p.id != i
  {
  }

  /** Such an incident stays so, whatever happens short of a resolved notification for it. */
  lemma {:induction false} StaysStuck(window: nat, clock: Time, ss: seq<System>, es: seq<Event>, k: nat, l: nat, i: IncidentId)
    requires IsRun(window, clock, ss, es) && k <= l < |ss| && Stuck(ss[k], i)
    requires forall m :: k <= m < l ==> !ClosesByNotice(ss[m], es[m], i)
    ensures Stuck(ss[l], i)
  {
    hide IsRun, Stuck, Inv, AlertsInv, Enabled, Next, ClosesByNotice;
    if k < l {
      StaysStuck(window, clock, ss, es, k, l - 1, i);
      InvHolds(window, clock, ss, es, l - 1);
      StepAt(window, clock, ss, es, l - 1);
      StepKeepsStuck(ss[l - 1], es[l - 1], i);
    }
  }

  /** And no poll ever lists it: no investigation comes back to it. */
  lemma StuckForever(window: nat, clock: Time, ss: seq<System>, es: seq<Event>, k: nat, l: nat, i: IncidentId)
    requires IsRun(window, clock, ss, es) && k <= l < |ss| && Stuck(ss[k], i)
    requires forall m :: k <= m < l ==> !ClosesByNotice(ss[m], es[m], i)
    ensures Stuck(ss[l], i)
    ensures forall m :: k <= m < l && es[m].Watch? && es[m].ws.Poll? ==> forall p :: p in es[m].ws.todo ==> p.id != i
  {
    StaysStuck(window, clock, ss, es, k, l, i);
    forall m | k <= m < l && es[m].Watch? && es[m].ws.Poll? ensures forall p :: p in es[m].ws.todo ==> p.id != i {
      StaysStuck(window, clock, ss, es, k, m, i);
      assert Enabled(ss[m], es[m]);
      PollSkips(ss[m], es[m].ws.todo, i);
    }
  }
}
