/** Every step keeps the invariants about links and pending runs. */
module IncidentRuns {
  import opened Options
  import opened Ingress
  import opened IncidentTables
  import opened IncidentProtocol
  import opened IncidentInvariants

  // ---- run steps: links stay, one task moves ----

  lemma RunStatusFollowsPhase(s: System, r: RunId, st: RunStep)
    requires RunEnabled(s, r, st) && TaskKnown(s, r) && s.tasks[r].phase != Over
    ensures TaskKnown(RunNext(s, r, st), r)
  {
    assert Linked(s.db, s.tasks[r].incident, r);
  }

  lemma LinksCarryRun(s: System, t: System, r: RunId)
    requires r in s.tasks && s.tasks[r].phase != Over
    requires LinksInv(s) && RunEffect(s, t, r) && TaskKnown(t, r)
    ensures LinksInv(t)
  {
    forall k, l | 0 <= k < l < |t.db.links| && t.db.links[k].incident == t.db.links[l].incident ensures Ended(t, t.db.links[k].run) {
      assert Ended(s, s.db.links[k].run);
    }
    forall k | 0 <= k < |t.db.links| ensures LinkKnown(t, t.db.links[k]) {
      assert LinkKnown(s, s.db.links[k]);
    }
    forall q | q in t.tasks ensures TaskKnown(t, q) {
      if q != r {
        assert TaskKnown(s, q);
      }
    }
  }

  lemma RunsKeepLinks(s: System, r: RunId, st: RunStep)
    requires LinksInv(s) && RunEnabled(s, r, st)
    ensures LinksInv(RunNext(s, r, st))
  {
    RunTouches(s, r, st);
    RunStatusFollowsPhase(s, r, st);
    LinksCarryRun(s, RunNext(s, r, st), r);
  }

  lemma RunsKeepPending(s: System, r: RunId, st: RunStep)
    requires LinksInv(s) && PendingInv(s) && RunEnabled(s, r, st)
    ensures PendingInv(RunNext(s, r, st))
  {
    RunTouches(s, r, st);
    assert TaskKnown(s, r);
    PendingCarryRun(s, RunNext(s, r, st), r);
  }

  lemma PendingCarryRun(s: System, t: System, r: RunId)
    requires r in s.tasks && TaskKnown(s, r)
    requires PendingInv(s) && RunEffect(s, t, r)
    ensures PendingInv(t)
  {
    var i := s.tasks[r].incident;
    assert forall j :: HasLink(s.db, j) <==> HasLink(t.db, j);
    assert HasLink(s.db, i) by {
      assert Linked(s.db, i, r);
      var k :| 0 <= k < |s.db.links| && s.db.links[k].incident == i && s.db.links[k].run == r;
    }
  }

  // ---- handler steps ----

  predicate PendsAt(s: System, h: nat, i: IncidentId) {
    h in s.handlers && Pends(s.handlers[h], i)
  }

  /** What a handler step writes besides its own program counter. */
  ghost predicate HandlerWrites(s: System, t: System, h: nat, st: HandlerStep)
    requires HandlerEnabled(s, h, st)
  {
    match st
    case LinkInvestigation =>
      var pc := s.handlers[h];
      && t.db.links == s.db.links + [Link(pc.incident, pc.run, Investigation)]
      && t.tasks == s.tasks[pc.run := NewTask(pc.incident, pc.ev)]
      && h !in t.handlers && t.db.runs == s.db.runs && t.db.incidents == s.db.incidents
    case Insert(id) =>
      && t.db.links == s.db.links && t.tasks == s.tasks && t.db.runs == s.db.runs && h in t.handlers
      && ((t.handlers[h].Relooking? && t.db.incidents == s.db.incidents)
          || (t.handlers[h].Attaching? && t.handlers[h].incident == id
              && t.db.incidents.Keys == s.db.incidents.Keys + {id}
              && t.db.incidents[id].deadline == None && t.db.incidents[id].escalations == 0))
    case QueueRun(run) =>
      && t.db.links == s.db.links && t.tasks == s.tasks && t.db.incidents == s.db.incidents
      && t.db.runs == s.db.runs[run := Queued]
      && h in t.handlers && t.handlers[h] == Linking(s.handlers[h].ev, s.handlers[h].incident, run)
    case _ =>
      && t.db.links == s.db.links && t.tasks == s.tasks && t.db.runs == s.db.runs
      && t.db.incidents.Keys == s.db.incidents.Keys
      && (h in t.handlers ==> !t.handlers[h].Linking?)
      && (forall i :: h in t.handlers && Pends(t.handlers[h], i) ==> PendsAt(s, h, i))
  }

  lemma NotLinked(s: System, i: IncidentId, r: RunId)
    requires LinksInv(s) && r !in s.tasks
    ensures !Linked(s.db, i, r)
  {
    forall k | 0 <= k < |s.db.links| ensures s.db.links[k].run != r {
      assert LinkKnown(s, s.db.links[k]);
    }
  }

  lemma HandlerWritesOnly(s: System, h: nat, st: HandlerStep)
    requires LinksInv(s) && HandlerEnabled(s, h, st) && (st.LinkInvestigation? ==> Fresh(s, s.handlers[h].run))
    ensures HandlerWrites(s, HandlerNext(s, h, st), h, st)
  {
    if st.LinkInvestigation? {
      NotLinked(s, s.handlers[h].incident, s.handlers[h].run);
    }
  }

  /** Linking a fresh run to an incident whose earlier runs have ended keeps the link invariant. */
  lemma LinksCarryLink(s: System, t: System, l: Link, alert: AlertEvent)
    requires LinksInv(s) && Fresh(s, l.run) && l.incident in s.db.incidents && AllEnded(s, l.incident)
    requires t.db.links == s.db.links + [l] && t.db.runs == s.db.runs && t.db.incidents == s.db.incidents
    requires t.tasks == s.tasks[l.run := NewTask(l.incident, alert)]
    ensures LinksInv(t)
  {
    forall k | 0 <= k < |t.db.links| ensures LinkKnown(t, t.db.links[k]) {
      if k < |s.db.links| {
        assert LinkKnown(s, s.db.links[k]);
      }
    }
    forall r | r in t.tasks ensures TaskKnown(t, r) {
      if r != l.run {
        assert TaskKnown(s, r);
        var k :| 0 <= k < |s.db.links| && s.db.links[k].incident == s.tasks[r].incident && s.db.links[k].run == r;
        assert t.db.links[k] == s.db.links[k];
      } else {
        assert t.db.links[|s.db.links|] == l;
      }
    }
    forall k, j | 0 <= k < j < |t.db.links| && t.db.links[k].incident == t.db.links[j].incident
      ensures Ended(t, t.db.links[k].run)
    {
      assert t.db.links[k] == s.db.links[k];
      assert Ended(s, s.db.links[k].run);
    }
  }

  /** Steps that leave links and tasks alone and only add run rows. */
  lemma LinksCarryQuiet(s: System, t: System)
    requires LinksInv(s) && t.db.links == s.db.links && t.tasks == s.tasks
    requires forall r :: r in s.db.runs ==> r in t.db.runs && t.db.runs[r] == s.db.runs[r]
    requires forall i :: i in s.db.incidents ==> i in t.db.incidents
    ensures LinksInv(t)
  {
    forall k | 0 <= k < |t.db.links| ensures LinkKnown(t, t.db.links[k]) {
      assert LinkKnown(s, s.db.links[k]);
    }
    forall r | r in t.tasks ensures TaskKnown(t, r) {
      assert TaskKnown(s, r);
    }
  }

  lemma InvestigationKeepsLinks(s: System, h: nat, t: System)
    requires LinksInv(s) && PendingInv(s) && HandlerEnabled(s, h, LinkInvestigation)
    requires HandlerWrites(s, t, h, LinkInvestigation) && t.db.incidents == s.db.incidents && t.db.runs == s.db.runs
    ensures LinksInv(t)
  {
    var pc := s.handlers[h];
    assert Pends(pc, pc.incident);
    LinksCarryLink(s, t, Link(pc.incident, pc.run, Investigation), pc.ev);
  }

  lemma HandlersKeepLinks(s: System, h: nat, st: HandlerStep)
    requires LinksInv(s) && PendingInv(s) && HandlerEnabled(s, h, st)
    ensures LinksInv(HandlerNext(s, h, st))
  {
    HandlerTouches(s, h, st);
    HandlerWritesOnly(s, h, st);
    if st.LinkInvestigation? {
      InvestigationKeepsLinks(s, h, HandlerNext(s, h, st));
    } else {
      hide HandlerNext, HandlerEnabled, LinksInv, PendingInv;
      LinksCarryQuiet(s, HandlerNext(s, h, st));
    }
  }

  lemma HandlersKeepPending(s: System, h: nat, st: HandlerStep)
    requires LinksInv(s) && PendingInv(s) && HandlerEnabled(s, h, st)
    ensures PendingInv(HandlerNext(s, h, st))
  {
    var t := HandlerNext(s, h, st);
    HandlerTouches(s, h, st);
    HandlerWritesOnly(s, h, st);
    hide HandlerNext;
    match st
    case LinkInvestigation => PendingCarryLink(s, t, h);
    case Insert(id) => PendingCarryInsert(s, t, h, id);
    case QueueRun(run) => PendingCarryQueue(s, t, h, run);
    case _ =>
      assert forall i :: PendsAt(s, h, i) ==> i in s.db.incidents && !HasLink(s.db, i);
      PendingCarry(s, t, h);
  }

  lemma PendingCarryLink(s: System, t: System, h: nat)
    requires PendingInv(s) && HandlerEffect(s, t, h) && HandlerEnabled(s, h, LinkInvestigation)
    requires HandlerWrites(s, t, h, LinkInvestigation)
    ensures PendingInv(t)
  {
    var pc := s.handlers[h];
    assert Pends(pc, pc.incident);
    HasLinkGrows(s.db, t.db, Link(pc.incident, pc.run, Investigation));
  }

  lemma HasLinkGrows(s: Tables, t: Tables, l: Link)
    requires t.links == s.links + [l]
    ensures forall i :: HasLink(t, i) <==> HasLink(s, i) || i == l.incident
  {
    assert t.links[|s.links|] == l;
    assert forall k :: 0 <= k < |s.links| ==> t.links[k] == s.links[k];
  }

  lemma CreatorsCarry(s: System, t: System, h: nat)
    requires Creators(s) && HandlerEffect(s, t, h) && t.db.links == s.db.links
    requires forall i :: h in t.handlers && Pends(t.handlers[h], i) ==>
               i in t.db.incidents && !HasLink(s.db, i) && (PendsAt(s, h, i) || i !in s.db.incidents)
    ensures Creators(t)
  {
    assert forall i :: HasLink(t.db, i) <==> HasLink(s.db, i);
    forall g, i | g in t.handlers && Pends(t.handlers[g], i) ensures i in t.db.incidents && !HasLink(t.db, i) {
      if g != h {
        assert Pends(s.handlers[g], i) && RowKept(s, t, i);
      }
    }
    forall f, g, i | f in t.handlers && g in t.handlers && Pends(t.handlers[f], i) && Pends(t.handlers[g], i)
      ensures f == g
    {
      assert f != h ==> PendsAt(s, f, i) && i in s.db.incidents;
      assert g != h ==> PendsAt(s, g, i) && i in s.db.incidents;
    }
  }

  lemma FreshRunsCarry(s: System, t: System, h: nat)
    requires FreshRuns(s) && HandlerEffect(s, t, h) && t.tasks == s.tasks
    requires h in t.handlers && t.handlers[h].Linking? ==> Fresh(t, t.handlers[h].run) && t.handlers[h].run !in s.db.runs
    ensures FreshRuns(t)
  {
    assert forall g :: g in s.handlers && s.handlers[g].Linking? ==> Fresh(s, s.handlers[g].run);
    assert s.watcher.RunMade? ==> Fresh(s, s.watcher.run);
  }

  lemma DeadlinesCarry(s: System, t: System, h: nat)
    requires DeadlinesLinked(s) && HandlerEffect(s, t, h) && t.db.links == s.db.links
    requires forall i :: i in t.db.incidents && i !in s.db.incidents ==> t.db.incidents[i].deadline == None
    ensures DeadlinesLinked(t)
  {
    assert forall i :: HasLink(t.db, i) <==> HasLink(s.db, i);
  }

  /** Pending handlers and deadlines in `t`, when links and tasks did not change. */
  lemma PendingCarry(s: System, t: System, h: nat)
    requires PendingInv(s) && HandlerEffect(s, t, h)
    requires t.db.links == s.db.links && t.tasks == s.tasks
    requires forall i :: h in t.handlers && Pends(t.handlers[h], i) ==>
               i in t.db.incidents && !HasLink(s.db, i) && (PendsAt(s, h, i) || i !in s.db.incidents)
    requires h in t.handlers && t.handlers[h].Linking? ==> Fresh(t, t.handlers[h].run) && t.handlers[h].run !in s.db.runs
    requires forall i :: i in t.db.incidents && i !in s.db.incidents ==> t.db.incidents[i].deadline == None
    ensures PendingInv(t)
  {
    CreatorsCarry(s, t, h);
    FreshRunsCarry(s, t, h);
    DeadlinesCarry(s, t, h);
  }

  lemma TasksHaveRuns(s: System)
    requires LinksInv(s)
    ensures forall r :: r in s.tasks ==> r in s.db.runs
  {
    forall r | r in s.tasks ensures r in s.db.runs {
      assert TaskKnown(s, r);
    }
  }

  lemma PendingCarryInsert(s: System, t: System, h: nat, id: IncidentId)
    requires LinksInv(s) && PendingInv(s) && HandlerEffect(s, t, h) && HandlerEnabled(s, h, Insert(id))
    requires HandlerWrites(s, t, h, Insert(id))
    ensures PendingInv(t)
  {
    forall k | 0 <= k < |s.db.links| ensures s.db.links[k].incident != id {
      assert LinkKnown(s, s.db.links[k]);
    }
    PendingCarry(s, t, h);
  }

  lemma PendingCarryQueue(s: System, t: System, h: nat, run: RunId)
    requires LinksInv(s) && PendingInv(s) && HandlerEffect(s, t, h) && HandlerEnabled(s, h, QueueRun(run))
    requires HandlerWrites(s, t, h, QueueRun(run))
    ensures PendingInv(t)
  {
    TasksHaveRuns(s);
    assert forall i :: Pends(t.handlers[h], i) ==> PendsAt(s, h, i);
    PendingCarry(s, t, h);
  }

  // ---- watcher steps ----

  /** A watcher step writes links and starts runs only by the link of a re-escalation. */
  lemma WatcherLinks(s: System, st: WatcherStep)
    requires WatcherEnabled(s, st)
    ensures var t := WatcherNext(s, st);
      if st.LinkReEscalation? then
        && t.db == LinkRun(s.db, s.watcher.todo[0].id, s.watcher.run, ReEscalation)
        && t.tasks == s.tasks[s.watcher.run := NewTask(s.watcher.todo[0].id, s.watcher.alert)]
      else
        t.db.links == s.db.links && t.tasks == s.tasks
  {
  }

  lemma WatcherKeepsLinks(s: System, st: WatcherStep)
    requires LinksInv(s) && PendingInv(s) && WatcherInv(s) && WatcherEnabled(s, st)
    ensures LinksInv(WatcherNext(s, st))
  {
    var t := WatcherNext(s, st);
    WatcherTouches(s, st);
    WatcherLinks(s, st);
    assert st.LinkReEscalation? ==> SnapshotOk(s, s.watcher.todo[0]);
    hide WatcherNext;
    if st.LinkReEscalation? {
      var l := Link(s.watcher.todo[0].id, s.watcher.run, ReEscalation);
      NotLinked(s, l.incident, l.run);
      assert SnapshotOk(s, s.watcher.todo[0]);
      LinksCarryLink(s, t, l, s.watcher.alert);
    } else {
      LinksCarryQuiet(s, t);
    }
  }

  /** Only a re-arm gives a row a deadline, and only a row the poll found under one. */
  lemma WatcherDeadlines(s: System, st: WatcherStep)
    requires WatcherInv(s) && WatcherEnabled(s, st)
    ensures var t := WatcherNext(s, st);
      && t.db.incidents.Keys == s.db.incidents.Keys
      && forall i :: i in s.db.incidents && t.db.incidents[i].deadline.Some? ==> s.db.incidents[i].deadline.Some? || HasLink(s.db, i)
  {
    if st.RearmDeadline? {
      assert SnapshotOk(s, s.watcher.todo[0]);
    }
    hide HasLink, LastSeen, EscalationDue, PollResult, NewestFiring, LatestRunStatus;
  }

  lemma ReEscalationKeepsPending(s: System, t: System)
    requires LinksInv(s) && PendingInv(s) && WatcherInv(s) && WatcherEnabled(s, LinkReEscalation) && t == WatcherNext(s, LinkReEscalation)
    ensures PendingInv(t)
  {
    WatcherTouches(s, LinkReEscalation);
    WatcherLinks(s, LinkReEscalation);
    WatcherDeadlines(s, LinkReEscalation);
    var l := Link(s.watcher.todo[0].id, s.watcher.run, ReEscalation);
    NotLinked(s, l.incident, l.run);
    assert SnapshotOk(s, s.watcher.todo[0]);
    assert !t.watcher.RunMade?;
    hide WatcherNext, LinksInv;
    HasLinkGrows(s.db, t.db, l);
    assert HasLink(s.db, l.incident);
    PendingCarryWatcher(s, t);
  }

  lemma WatcherKeepsPending(s: System, st: WatcherStep)
    requires LinksInv(s) && PendingInv(s) && WatcherInv(s) && WatcherEnabled(s, st)
    ensures PendingInv(WatcherNext(s, st))
  {
    var t := WatcherNext(s, st);
    if st.LinkReEscalation? {
      ReEscalationKeepsPending(s, t);
    } else {
      TasksHaveRuns(s);
      WatcherTouches(s, st);
      WatcherLinks(s, st);
      WatcherDeadlines(s, st);
      WatcherRunFresh(s, st);
      hide WatcherNext, WatcherEnabled, LinksInv, WatcherInv;
      assert forall i :: HasLink(t.db, i) <==> HasLink(s.db, i);
      PendingCarryWatcher(s, t);
    }
  }

  lemma WatcherRunFresh(s: System, st: WatcherStep)
    requires PendingInv(s) && WatcherEnabled(s, st) && (st.MakeRun? ==> st.run !in s.tasks)
    ensures var t := WatcherNext(s, st);
            && (t.watcher.RunMade? ==> Fresh(t, t.watcher.run))
            && (t.watcher.RunMade? ==>
                  forall h :: h in s.handlers && s.handlers[h].Linking? ==> s.handlers[h].run != t.watcher.run)
  {
  }

  lemma PendingCarryWatcher(s: System, t: System)
    requires PendingInv(s) && WatcherEffect(s, t)
    requires forall i :: i in s.db.incidents && (HasLink(s.db, i) || t.db.incidents[i].deadline.Some?) ==> HasLink(t.db, i)
    requires forall i :: HasLink(t.db, i) ==> HasLink(s.db, i)
    requires forall r :: r in t.tasks && r !in s.tasks ==> s.watcher.RunMade? && r == s.watcher.run
    requires t.watcher.RunMade? ==> Fresh(t, t.watcher.run)
    requires t.watcher.RunMade? ==>
               forall h :: h in s.handlers && s.handlers[h].Linking? ==> s.handlers[h].run != t.watcher.run
    ensures PendingInv(t)
  {
  }
}
