/** Every step keeps the key invariant: one open incident per key, rows under their key, and
    evidence for every resolution. */
module IncidentKeys {
  import opened Options
  import opened Ingress
  import opened IncidentTables
  import opened IncidentProtocol
  import opened IncidentInvariants

  lemma RunJustified(s: System, r: RunId, st: RunStep)
    requires RunEnabled(s, r, st) && TaskJustified(s, s.tasks[r]) && ResolutionJustified(s, s.tasks[r].incident)
    ensures var t := RunNext(s, r, st);
            TaskJustified(t, t.tasks[r]) && ResolutionJustified(t, s.tasks[r].incident)
  {
  }

  lemma RunsKeepKeys(s: System, r: RunId, st: RunStep)
    requires KeysInv(s) && RunEnabled(s, r, st)
    ensures KeysInv(RunNext(s, r, st))
  {
    assert TaskJustified(s, s.tasks[r]);
    RunTouches(s, r, st);
    StepKeepsRows(s, Run(r, st));
    RunJustified(s, r, st);
    KeysCarry(s, RunNext(s, r, st), r);
  }

  lemma KeysCarry(s: System, t: System, r: RunId)
    requires r in s.tasks && KeysInv(s) && RunEffect(s, t, r) && TaskJustified(t, t.tasks[r])
    requires forall i :: i in s.db.incidents ==> RowKept(s, t, i)
    requires s.tasks[r].incident in t.db.incidents ==> ResolutionJustified(t, s.tasks[r].incident)
    ensures KeysInv(t)
  {
    forall h | h in t.handlers ensures HandlerKeyed(t, t.handlers[h]) {
      assert HandlerKeyed(s, s.handlers[h]);
    }
    forall k | 0 <= k < |t.db.alerts| ensures RowKeyed(t, t.db.alerts[k]) {
      assert RowKeyed(s, s.db.alerts[k]);
    }
    OnePerKeyCarry(s, t);
    KeysCarryJustified(s, t, r);
  }

  lemma OnePerKeyCarry(s: System, t: System)
    requires OnePerKey(s.db) && t.db.incidents.Keys == s.db.incidents.Keys
    requires forall i :: i in s.db.incidents ==> RowKept(s, t, i)
    ensures OnePerKey(t.db)
  {
    forall i, key | OpenWithKey(t.db, i, key) ensures OpenWithKey(s.db, i, key) {
      assert RowKept(s, t, i);
    }
  }

  lemma KeysCarryJustified(s: System, t: System, r: RunId)
    requires r in s.tasks && KeysInv(s) && RunEffect(s, t, r) && TaskJustified(t, t.tasks[r])
    requires s.tasks[r].incident in t.db.incidents ==> ResolutionJustified(t, s.tasks[r].incident)
    ensures forall q :: q in t.tasks ==> TaskJustified(t, t.tasks[q])
    ensures forall i :: i in t.db.incidents ==> ResolutionJustified(t, i)
  {
    forall q | q in t.tasks && q != r ensures TaskJustified(t, t.tasks[q]) {
      assert TaskJustified(s, s.tasks[q]);
    }
    forall i | i in t.db.incidents && i != s.tasks[r].incident ensures ResolutionJustified(t, i) {
      assert ResolutionJustified(s, i);
    }
  }

  lemma HandlerKeyedNext(s: System, h: nat, st: HandlerStep)
    requires HandlerEnabled(s, h, st) && (h in s.handlers ==> HandlerKeyed(s, s.handlers[h]))
    ensures var t := HandlerNext(s, h, st); h in t.handlers ==> HandlerKeyed(t, t.handlers[h])
  {
  }

  /** The rows, tasks and open incidents a handler step adds are keyed and justified. */
  lemma HandlerAdds(s: System, h: nat, st: HandlerStep)
    requires HandlerEnabled(s, h, st) && (h in s.handlers ==> HandlerKeyed(s, s.handlers[h]))
    ensures var t := HandlerNext(s, h, st);
            && |s.db.alerts| <= |t.db.alerts| && t.db.alerts[..|s.db.alerts|] == s.db.alerts
            && (forall k :: |s.db.alerts| <= k < |t.db.alerts| ==> RowKeyed(t, t.db.alerts[k]))
            && (forall r :: r in t.tasks && r !in s.tasks ==> TaskJustified(t, t.tasks[r]))
            && (forall i :: i in t.db.incidents && i !in s.db.incidents ==>
                  ResolutionJustified(t, i) && !KeyTaken(s.db, t.db.incidents[i].key))
            && (forall i, j :: i in t.db.incidents && j in t.db.incidents && i !in s.db.incidents && j !in s.db.incidents ==> i == j)
            && (forall i :: i in s.db.incidents && i in t.db.incidents && t.db.incidents[i] != s.db.incidents[i] ==> ResolutionJustified(t, i))
  {
  }

  lemma HandlersKeepOnePerKey(s: System, t: System, h: nat)
    requires OnePerKey(s.db) && HandlerEffect(s, t, h)
    requires forall i :: i in t.db.incidents && i !in s.db.incidents ==> !KeyTaken(s.db, t.db.incidents[i].key)
    requires forall i, j :: i in t.db.incidents && j in t.db.incidents && i !in s.db.incidents && j !in s.db.incidents ==> i == j
    ensures OnePerKey(t.db)
  {
    forall i, j | i in t.db.incidents && j in t.db.incidents && t.db.incidents[i].status == Open
                  && t.db.incidents[j].status == Open && t.db.incidents[i].key == t.db.incidents[j].key
      ensures i == j
    {
      if i in s.db.incidents && j !in s.db.incidents {
        assert OpenWithKey(s.db, i, t.db.incidents[j].key);
      } else if i !in s.db.incidents && j in s.db.incidents {
        assert OpenWithKey(s.db, j, t.db.incidents[i].key);
      }
    }
  }

  lemma HandlersKeepKeys(s: System, h: nat, st: HandlerStep)
    requires KeysInv(s) && PendingInv(s) && HandlerEnabled(s, h, st)
    ensures KeysInv(HandlerNext(s, h, st))
  {
    var t := HandlerNext(s, h, st);
    HandlerTouches(s, h, st);
    HandlerKeyedNext(s, h, st);
    HandlerAdds(s, h, st);
    HandlersKeepOnePerKey(s, t, h);
    KeysCarryHandler(s, t, h);
  }

  lemma KeysCarryHandler(s: System, t: System, h: nat)
    requires KeysInv(s) && HandlerEffect(s, t, h) && OnePerKey(t.db)
    requires h in t.handlers ==> HandlerKeyed(t, t.handlers[h])
    requires |s.db.alerts| <= |t.db.alerts| && t.db.alerts[..|s.db.alerts|] == s.db.alerts
    requires forall k :: |s.db.alerts| <= k < |t.db.alerts| ==> RowKeyed(t, t.db.alerts[k])
    requires forall r :: r in t.tasks && r !in s.tasks ==> TaskJustified(t, t.tasks[r])
    requires forall i :: i in t.db.incidents && (i !in s.db.incidents || t.db.incidents[i] != s.db.incidents[i]) ==> ResolutionJustified(t, i)
    ensures KeysInv(t)
  {
    forall k | 0 <= k < |s.db.alerts|
      ensures RowKeyed(t, t.db.alerts[k])
    {
      assert t.db.alerts[k] == t.db.alerts[..|s.db.alerts|][k];
      assert RowKeyed(s, s.db.alerts[k]);
    }
    forall g | g in t.handlers && g != h
      ensures HandlerKeyed(t, t.handlers[g])
    {
      assert HandlerKeyed(s, s.handlers[g]);
    }
  }

  lemma WatcherKeepsKeys(s: System, st: WatcherStep)
    requires KeysInv(s) && WatcherInv(s) && PendingInv(s) && WatcherEnabled(s, st)
    ensures KeysInv(WatcherNext(s, st))
  {
    var t := WatcherNext(s, st);
    WatcherTouches(s, st);
    assert forall r :: r in t.tasks && r !in s.tasks ==>
        st.LinkReEscalation? && t.tasks[r] == NewTask(s.watcher.todo[0].id, s.watcher.alert) && SnapshotOk(s, s.watcher.todo[0]);
    KeysCarryWatcher(s, t);
  }

  lemma KeysCarryWatcher(s: System, t: System)
    requires KeysInv(s) && WatcherEffect(s, t)
    requires forall r :: r in t.tasks && r !in s.tasks ==> TaskJustified(t, t.tasks[r])
    ensures KeysInv(t)
  {
    forall i | i in t.db.incidents ensures ResolutionJustified(t, i) {
      assert ResolutionJustified(s, i);
    }
    forall h | h in t.handlers ensures HandlerKeyed(t, t.handlers[h]) {
      assert HandlerKeyed(s, s.handlers[h]);
    }
  }
}
