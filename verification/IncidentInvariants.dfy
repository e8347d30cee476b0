/** The inductive invariant of the incident protocol, one group at a time. */
module IncidentInvariants {
  import opened Options
  import opened Ingress
  import opened IncidentTables
  import opened IncidentProtocol

  // ---- keys: one open incident per key, rows under the right incident, evidence for closing ----

  predicate Keyed(s: System, i: IncidentId, ev: AlertEvent) {
    i in s.db.incidents && s.db.incidents[i].key == Key(ev)
  }

  predicate HandlerKeyed(s: System, pc: Handler) {
    && (pc.ev.status != "firing" ==> Key(pc.ev) in s.notices)
    && (match pc
        case Attaching(ev, i, next) => Keyed(s, i, ev) && (next == ThenClose ==> ev.status != "firing")
        case Closing(ev, i) => Keyed(s, i, ev) && ev.status != "firing"
        case Queueing(ev, i) => Keyed(s, i, ev)
        case Linking(ev, i, _) => Keyed(s, i, ev)
        case _ => true)
  }

  predicate RowKeyed(s: System, row: AlertRow) {
    row.incident in s.db.incidents && s.db.incidents[row.incident].key == AlertKey(row.alertname, row.workload)
  }

  predicate TaskJustified(s: System, t: Task) {
    && t.incident in s.db.incidents
    && (t.phase.Settling? && (t.phase.decision == VerifyIt || t.phase.decision == ResolveIt) ==> t.incident in s.quiet)
  }

  predicate ResolutionJustified(s: System, i: IncidentId)
    requires i in s.db.incidents
  {
    s.db.incidents[i].status == Resolved ==> s.db.incidents[i].key in s.notices || i in s.quiet
  }

  ghost predicate OnePerKey(t: Tables) {
    forall i, j {:trigger t.incidents[i], t.incidents[j]} ::
      (i in t.incidents && j in t.incidents && t.incidents[i].status == Open && t.incidents[j].status == Open
       && t.incidents[i].key == t.incidents[j].key) ==> i == j
  }

  ghost predicate KeysInv(s: System) {
    && OnePerKey(s.db)
    && (forall h :: h in s.handlers ==> HandlerKeyed(s, s.handlers[h]))
    && (forall k :: 0 <= k < |s.db.alerts| ==> RowKeyed(s, s.db.alerts[k]))
    && (forall r :: r in s.tasks ==> TaskJustified(s, s.tasks[r]))
    && (forall i :: i in s.db.incidents ==> ResolutionJustified(s, i))
  }

  // ---- runs: links, statuses and who is in flight ----

  ghost predicate HasLink(t: Tables, i: IncidentId) {
    exists k :: 0 <= k < |t.links| && t.links[k].incident == i
  }

  /** The handler that created incident `i` has not yet linked its investigation run. */
  predicate Pends(pc: Handler, i: IncidentId) {
    match pc
    case Attaching(_, j, next) => next == ThenSpawn && i == j
    case Queueing(_, j) => i == j
    case Linking(_, j, _) => i == j
    case _ => false
  }

  predicate LinkKnown(s: System, l: Link) {
    && l.incident in s.db.incidents
    && l.run in s.tasks && s.tasks[l.run].incident == l.incident
  }

  predicate TaskKnown(s: System, r: RunId)
    requires r in s.tasks
  {
    && r in s.db.runs
    && (InFlight(s.db.runs[r]) <==> s.tasks[r].phase != Over)
    && Linked(s.db, s.tasks[r].incident, r)
  }

  predicate Ended(s: System, r: RunId) {
    r in s.tasks && s.tasks[r].phase == Over
  }

  /** A run row that exists but is not linked yet. */
  predicate Fresh(s: System, r: RunId) {
    r in s.db.runs && s.db.runs[r] == Queued && r !in s.tasks
  }

  ghost predicate AllEnded(s: System, i: IncidentId) {
    forall k :: 0 <= k < |s.db.links| && s.db.links[k].incident == i ==> Ended(s, s.db.links[k].run)
  }

  ghost predicate LinksInv(s: System) {
    && (forall k :: 0 <= k < |s.db.links| ==> LinkKnown(s, s.db.links[k]))
    && (forall k, l :: 0 <= k < l < |s.db.links| && s.db.links[k].incident == s.db.links[l].incident ==>
          Ended(s, s.db.links[k].run))
    && (forall r :: r in s.tasks ==> TaskKnown(s, r))
  }

  /** Until its investigation is linked an incident has no link, and only one handler is about to. */
  ghost predicate Creators(s: System) {
    && (forall h, i :: h in s.handlers && Pends(s.handlers[h], i) ==> i in s.db.incidents && !HasLink(s.db, i))
    && (forall h, g, i :: h in s.handlers && g in s.handlers && Pends(s.handlers[h], i) && Pends(s.handlers[g], i) ==> h == g)
  }

  /** Runs created but not yet linked are fresh, and held by one actor each. */
  ghost predicate FreshRuns(s: System) {
    && (forall h :: h in s.handlers && s.handlers[h].Linking? ==> Fresh(s, s.handlers[h].run))
    && (forall h, g :: (h in s.handlers && g in s.handlers && s.handlers[h].Linking? && s.handlers[g].Linking?
                        && s.handlers[h].run == s.handlers[g].run) ==> h == g)
    && (s.watcher.RunMade? ==> Fresh(s, s.watcher.run))
    && (s.watcher.RunMade? ==>
          forall h :: h in s.handlers && s.handlers[h].Linking? ==> s.handlers[h].run != s.watcher.run)
  }

  ghost predicate DeadlinesLinked(s: System) {
    forall i :: i in s.db.incidents && s.db.incidents[i].deadline.Some? ==> HasLink(s.db, i)
  }

  ghost predicate PendingInv(s: System) {
    Creators(s) && FreshRuns(s) && DeadlinesLinked(s)
  }

  // ---- the watcher's list against the tables ----

  predicate PastBump(w: Watcher) {
    w.Bumped? || w.Rearmed? || w.RunMade?
  }

  predicate Busy(w: Watcher) {
    w.Chosen? || w.Loaded? || PastBump(w)
  }

  predicate SnapshotOk(s: System, p: Snapshot) {
    && p.id in s.db.incidents
    && s.db.incidents[p.id].deadline.Some?
    && p.row.deadline.Some?
  }

  ghost predicate WatcherInv(s: System) {
    var w := s.watcher;
    w.Idle? || w.ClockRead? || (
      && (forall k :: 0 <= k < |w.todo| ==> SnapshotOk(s, w.todo[k]) && w.todo[k].row.deadline.value < w.now)
      && (forall k, l :: 0 <= k < l < |w.todo| ==> w.todo[k].id != w.todo[l].id)
      && (forall k :: (if PastBump(w) then 1 else 0) <= k < |w.todo| ==>
            w.todo[k].row.escalations == s.db.incidents[w.todo[k].id].escalations)
      && (Busy(w) ==> w.todo != [] && AllEnded(s, w.todo[0].id))
      && (w.Chosen? || w.Loaded? ==> w.todo[0].row.escalations < MAX_ESCALATIONS))
  }

  // ---- counting ----

  function Count(links: seq<Link>, i: IncidentId, kind: LinkKind): nat {
    if links == [] then 0
    else Count(links[..|links| - 1], i, kind)
         + (if links[|links| - 1].incident == i && links[|links| - 1].kind == kind then 1 else 0)
  }

  predicate Counted(s: System, i: IncidentId)
    requires i in s.db.incidents
  {
    && Count(s.db.links, i, Investigation) <= 1
    && Count(s.db.links, i, ReEscalation)
       + (if PastBump(s.watcher) && s.watcher.todo != [] && s.watcher.todo[0].id == i then 1 else 0)
       <= s.db.incidents[i].escalations <= MAX_ESCALATIONS
  }

  ghost predicate CountsInv(s: System) {
    forall i :: i in s.db.incidents ==> Counted(s, i)
  }

  // ---- time ----

  predicate Logged(s: System, e: Escalation) {
    && e.polled <= s.clock
    && e.incident in s.db.incidents
    && (s.watcher.Bumped? && s.watcher.todo != [] && s.watcher.todo[0].id == e.incident ==> e.polled <= s.watcher.from)
  }

  /** The deadline standing at the incident of escalation `k` postpones the next one past the window,
      unless the deadline write of `k` is still to come or has failed. */
  predicate Covered(s: System, k: nat)
    requires k < |s.log| && s.log[k].incident in s.db.incidents
  {
    || k in s.failed
    || (s.watcher.Bumped? && k == |s.log| - 1)
    || (var row := s.db.incidents[s.log[k].incident];
        row.deadline.Some? && s.log[k].polled + s.window <= row.deadline.value)
  }

  /** The run has read the clock for a deadline it has not written yet. */
  predicate Timed(p: Phase) {
    p.Noted? || p.Recording?
  }

  ghost predicate TimeInv(s: System) {
    && (forall k :: 0 <= k < |s.log| ==> Logged(s, s.log[k]) && Covered(s, k))
    && (forall k :: k in s.failed ==> k < |s.log|)
    && (s.watcher.Bumped? ==> s.watcher.todo != [] && s.log != [] && s.log[|s.log| - 1].incident == s.watcher.todo[0].id)
    && (forall k, l :: 0 <= k < l < |s.log| && s.log[k].incident == s.log[l].incident && k !in s.failed ==>
          s.log[k].polled + s.window < s.log[l].polled)
    && (forall r, k :: (r in s.tasks && Timed(s.tasks[r].phase) && 0 <= k < |s.log|
                        && s.log[k].incident == s.tasks[r].incident) ==> s.log[k].polled <= s.tasks[r].phase.at)
    && (!s.watcher.Idle? ==> s.watcher.now <= s.clock)
    && (!s.watcher.Idle? && !s.watcher.ClockRead? ==>
          forall j, k :: ((if PastBump(s.watcher) then 1 else 0) <= j < |s.watcher.todo| && 0 <= k < |s.log| && k !in s.failed
                          && s.log[k].incident == s.watcher.todo[j].id && s.watcher.todo[j].row.deadline.Some?) ==>
            s.log[k].polled + s.window <= s.watcher.todo[j].row.deadline.value)
  }

  // ---- close-outs ----

  predicate SettledOk(s: System, t: Task) {
    t.settled ==> t.incident in s.db.incidents ==>
      s.db.incidents[t.incident].status == Resolved || s.db.incidents[t.incident].deadline.Some?
  }

  ghost predicate SettledInv(s: System) {
    forall r :: r in s.tasks ==> SettledOk(s, s.tasks[r])
  }

  ghost predicate Inv(s: System) {
    KeysInv(s) && LinksInv(s) && PendingInv(s) && WatcherInv(s) && CountsInv(s) && TimeInv(s) && SettledInv(s)
  }

  lemma InitInv(window: nat, clock: Time, held: set<string>)
    ensures Inv(Init(window, clock, held))
  {
  }

  // ---- what every step keeps of one incident row ----

  /** Rows are never deleted, keys never change, resolved never reopens, a deadline is never
      dropped, and the escalation count never falls. */
  predicate RowKept(s: System, t: System, i: IncidentId)
    requires i in s.db.incidents
  {
    && i in t.db.incidents
    && var a, b := s.db.incidents[i], t.db.incidents[i];
       && b.key == a.key
       && (a.status == Resolved ==> b.status == Resolved)
       && (a.deadline.Some? ==> b.deadline.Some?)
       && a.escalations <= b.escalations
  }

  lemma HandlerKeepsRows(s: System, h: nat, st: HandlerStep)
    requires HandlerEnabled(s, h, st)
    ensures forall i :: i in s.db.incidents ==> RowKept(s, HandlerNext(s, h, st), i)
  {
  }

  lemma RunKeepsRows(s: System, r: RunId, st: RunStep)
    requires RunEnabled(s, r, st)
    ensures forall i :: i in s.db.incidents ==> RowKept(s, RunNext(s, r, st), i)
  {
  }

  lemma WatcherKeepsRows(s: System, st: WatcherStep)
    requires WatcherEnabled(s, st)
    ensures forall i :: i in s.db.incidents ==> RowKept(s, WatcherNext(s, st), i)
  {
  }

  lemma StepKeepsRows(s: System, e: Event)
    requires Enabled(s, e)
    ensures forall i :: i in s.db.incidents ==> RowKept(s, Next(s, e), i)
  {
    match e
    case Handle(h, hs) => HandlerKeepsRows(s, h, hs);
    case Run(r, rs) => RunKeepsRows(s, r, rs);
    case Watch(ws) => WatcherKeepsRows(s, ws);
    case Tick(_, _) =>
  }

  // ---- what one step of an actor may touch ----

  ghost predicate SameHistory(s: System, t: System) {
    t.window == s.window && t.clock == s.clock && s.notices <= t.notices && s.quiet <= t.quiet
  }

  /** Only run `r` and the row of its incident can change. */
  ghost predicate RunEffect(s: System, t: System, r: RunId)
    requires r in s.tasks
  {
    var i := s.tasks[r].incident;
    && SameHistory(s, t) && t.handlers == s.handlers && t.watcher == s.watcher && t.log == s.log && t.failed == s.failed
    && t.db.alerts == s.db.alerts && t.db.links == s.db.links
    && t.tasks.Keys == s.tasks.Keys && (forall q :: q in s.tasks && q != r ==> t.tasks[q] == s.tasks[q])
    && t.tasks[r].incident == i && t.tasks[r].alert == s.tasks[r].alert && s.tasks[r].phase != Over
    && t.db.runs.Keys == s.db.runs.Keys && (forall q :: q in s.db.runs && q != r ==> t.db.runs[q] == s.db.runs[q])
    && t.db.incidents.Keys == s.db.incidents.Keys
    && (forall j :: j in s.db.incidents && j != i ==> t.db.incidents[j] == s.db.incidents[j])
    && (i in s.db.incidents ==> t.db.incidents[i].escalations == s.db.incidents[i].escalations)
  }

  lemma RunTouchesTables(s: System, r: RunId, st: RunStep)
    requires RunEnabled(s, r, st)
    ensures var t := RunNext(s, r, st); var i := s.tasks[r].incident;
      && t.db.alerts == s.db.alerts && t.db.links == s.db.links
      && t.db.runs.Keys == s.db.runs.Keys && (forall q :: q in s.db.runs && q != r ==> t.db.runs[q] == s.db.runs[q])
      && t.db.incidents.Keys == s.db.incidents.Keys
      && (forall j :: j in s.db.incidents && j != i ==> t.db.incidents[j] == s.db.incidents[j])
      && (i in s.db.incidents ==> t.db.incidents[i].escalations == s.db.incidents[i].escalations)
  {
  }

  lemma RunTouchesTasks(s: System, r: RunId, st: RunStep)
    requires RunEnabled(s, r, st)
    ensures var t := RunNext(s, r, st);
      && SameHistory(s, t) && t.handlers == s.handlers && t.watcher == s.watcher && t.log == s.log && t.failed == s.failed
      && t.tasks.Keys == s.tasks.Keys && (forall q :: q in s.tasks && q != r ==> t.tasks[q] == s.tasks[q])
      && t.tasks[r].incident == s.tasks[r].incident && t.tasks[r].alert == s.tasks[r].alert && s.tasks[r].phase != Over
  {
  }

  lemma RunTouches(s: System, r: RunId, st: RunStep)
    requires RunEnabled(s, r, st)
    ensures RunEffect(s, RunNext(s, r, st), r)
  {
    RunTouchesTables(s, r, st);
    RunTouchesTasks(s, r, st);
    hide RunNext;
  }

  /** What every handler step leaves alone, whatever it does to its own incident. */
  ghost predicate HandlerEffect(s: System, t: System, h: nat) {
    && SameHistory(s, t) && t.watcher == s.watcher && t.log == s.log && t.failed == s.failed && t.quiet == s.quiet
    && (forall g :: g in s.handlers && g != h ==> g in t.handlers && t.handlers[g] == s.handlers[g])
    && (forall g :: g in t.handlers && g != h ==> g in s.handlers)
    && (forall r :: r in s.tasks ==> r in t.tasks && t.tasks[r] == s.tasks[r])
    && (forall r :: r in s.db.runs ==> r in t.db.runs && t.db.runs[r] == s.db.runs[r])
    && (forall i :: i in s.db.incidents ==> RowKept(s, t, i))
    && (forall i :: i in s.db.incidents ==> t.db.incidents[i] == s.db.incidents[i].(status := t.db.incidents[i].status))
  }

  lemma HandlerTouchesRows(s: System, h: nat, st: HandlerStep)
    requires HandlerEnabled(s, h, st)
    ensures var t := HandlerNext(s, h, st);
            forall i :: i in s.db.incidents ==>
              RowKept(s, t, i) && t.db.incidents[i] == s.db.incidents[i].(status := t.db.incidents[i].status)
  {
  }

  lemma HandlerLeavesOthers(s: System, h: nat, st: HandlerStep)
    requires HandlerEnabled(s, h, st)
    ensures var t := HandlerNext(s, h, st);
      && SameHistory(s, t) && t.watcher == s.watcher && t.log == s.log && t.failed == s.failed && t.quiet == s.quiet
      && (forall g :: g in s.handlers && g != h ==> g in t.handlers && t.handlers[g] == s.handlers[g])
      && (forall g :: g in t.handlers && g != h ==> g in s.handlers)
  {
  }

  lemma HandlerTouches(s: System, h: nat, st: HandlerStep)
    requires HandlerEnabled(s, h, st) && (st.LinkInvestigation? ==> Fresh(s, s.handlers[h].run))
    ensures HandlerEffect(s, HandlerNext(s, h, st), h)
  {
    HandlerTouchesRows(s, h, st);
    HandlerLeavesOthers(s, h, st);
    match st
    case LinkInvestigation =>
    case Insert(_) =>
    case _ =>
  }

  /** The watcher adds at most one task and one run row, and changes one incident row. */
  ghost predicate WatcherEffect(s: System, t: System) {
    && SameHistory(s, t) && t.handlers == s.handlers && t.db.alerts == s.db.alerts
    && t.notices == s.notices && t.quiet == s.quiet
    && (forall r :: r in s.tasks ==> r in t.tasks && t.tasks[r] == s.tasks[r])
    && (forall r :: r in s.db.runs ==> r in t.db.runs && t.db.runs[r] == s.db.runs[r])
    && t.db.incidents.Keys == s.db.incidents.Keys
    && (forall i :: i in s.db.incidents ==> RowKept(s, t, i) && t.db.incidents[i].status == s.db.incidents[i].status)
    && (t.db.incidents != s.db.incidents ==> !s.watcher.Idle? && !s.watcher.ClockRead? && s.watcher.todo != [])
    && (t.db.incidents != s.db.incidents ==>
          forall i :: i in s.db.incidents && i != s.watcher.todo[0].id ==> t.db.incidents[i] == s.db.incidents[i])
  }

  lemma WatcherTouchesRows(s: System, st: WatcherStep)
    requires WatcherEnabled(s, st)
    ensures var t := WatcherNext(s, st);
      && t.db.incidents.Keys == s.db.incidents.Keys
      && (forall i :: i in s.db.incidents ==> RowKept(s, t, i) && t.db.incidents[i].status == s.db.incidents[i].status)
      && (t.db.incidents != s.db.incidents ==> !s.watcher.Idle? && !s.watcher.ClockRead? && s.watcher.todo != [])
      && (t.db.incidents != s.db.incidents ==>
            forall i :: i in s.db.incidents && i != s.watcher.todo[0].id ==> t.db.incidents[i] == s.db.incidents[i])
  {
  }

  lemma WatcherTouchesRuns(s: System, st: WatcherStep)
    requires WatcherEnabled(s, st) && (st.LinkReEscalation? ==> Fresh(s, s.watcher.run))
    ensures var t := WatcherNext(s, st);
      && SameHistory(s, t) && t.handlers == s.handlers && t.db.alerts == s.db.alerts && t.notices == s.notices && t.quiet == s.quiet
      && (forall r :: r in s.tasks ==> r in t.tasks && t.tasks[r] == s.tasks[r])
      && (forall r :: r in s.db.runs ==> r in t.db.runs && t.db.runs[r] == s.db.runs[r])
  {
  }

  lemma WatcherTouches(s: System, st: WatcherStep)
    requires WatcherEnabled(s, st) && (st.LinkReEscalation? ==> Fresh(s, s.watcher.run))
    ensures WatcherEffect(s, WatcherNext(s, st))
  {
    WatcherTouchesRows(s, st);
    WatcherTouchesRuns(s, st);
    hide WatcherNext, RowKept;
  }
}
