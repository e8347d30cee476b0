/** Whole runs of the incident protocol, built step by step: an incident with its investigation, a
    session with its close-out, and the watcher coming back. */
module IncidentScenarios {
  import opened Options
  import opened Ingress
  import opened IncidentTables
  import opened IncidentProtocol
  import opened IncidentSafety
  import opened Text

  /** Some run of the protocol takes the steps `es` and ends in `s`. */
  ghost predicate Reached(window: nat, clock: Time, held: set<string>, s: System, es: seq<Event>) {
    exists ss: seq<System> :: IsRun(window, clock, ss, es) && ss[0].held == held && ss[|es|] == s
  }

  lemma ReachedOneMore(window: nat, clock: Time, held: set<string>, s: System, es: seq<Event>, e: Event, t: System)
    requires Reached(window, clock, held, s, es) && Enabled(s, e) && t == Next(s, e)
    ensures Reached(window, clock, held, t, es + [e])
  {
    hide Enabled, Next;
    var ss: seq<System> :| IsRun(window, clock, ss, es) && ss[0].held == held && ss[|es|] == s;
    ExtendRun(window, clock, ss, es, e, t);
    assert (ss + [t])[|es + [e]|] == t;
  }

  /** From the state reached by the first `n` events to the one the next event leads to. */
  lemma Move(window: nat, clock: Time, held: set<string>, all: seq<Event>, n: nat, s: System, t: System)
    requires n < |all| && Reached(window, clock, held, s, all[..n]) && Enabled(s, all[n]) && t == Next(s, all[n])
    ensures Reached(window, clock, held, t, all[..n + 1])
  {
    hide Reached, Enabled, Next;
    ReachedOneMore(window, clock, held, s, all[..n], all[n], t);
    assert all[..n + 1] == all[..n] + [all[n]];
  }

  lemma MoveRun(window: nat, clock: Time, held: set<string>, all: seq<Event>, n: nat, s: System, r: RunId, st: RunStep, t: System)
    requires n < |all| && all[n] == Run(r, st) && Reached(window, clock, held, s, all[..n]) && RunEnabled(s, r, st) && t == RunNext(s, r, st)
    ensures Reached(window, clock, held, t, all[..n + 1])
  {
    Move(window, clock, held, all, n, s, t);
  }

  lemma MoveWatch(window: nat, clock: Time, held: set<string>, all: seq<Event>, n: nat, s: System, st: WatcherStep, t: System)
    requires n < |all| && all[n] == Watch(st) && Reached(window, clock, held, s, all[..n]) && WatcherEnabled(s, st) && t == WatcherNext(s, st)
    ensures Reached(window, clock, held, t, all[..n + 1])
  {
    Move(window, clock, held, all, n, s, t);
  }

  predicate Segment(all: seq<Event>, n: nat, part: seq<Event>) {
    n + |part| <= |all| && all[n..n + |part|] == part
  }

  lemma SegmentAt(all: seq<Event>, n: nat, part: seq<Event>, k: nat)
    requires Segment(all, n, part) && k < |part|
    ensures all[n + k] == part[k]
  {
    assert all[n + k] == all[n..n + |part|][k];
  }

  lemma Start(window: nat, clock: Time, held: set<string>)
    ensures Reached(window, clock, held, Init(window, clock, held), [])
  {
    assert IsRun(window, clock, [Init(window, clock, held)], []);
  }

  // ---- an incident with its investigation ----

  function Opening(ev: AlertEvent): seq<Event> {
    [Handle(0, Arrive(ev)), Handle(0, LookUp(None)), Handle(0, Insert(0)),
     Handle(0, AttachRow), Handle(0, QueueRun(0)), Handle(0, LinkInvestigation)]
  }

  function Opened(window: nat, clock: Time, held: set<string>, ev: AlertEvent): System {
    System(
      Tables(map[0 := Incident(Key(ev), Open, None, 0, false)], [AlertRowOf(ev, 0, clock)], [Link(0, 0, Investigation)],
             map[0 := Queued], {}),
      map[], map[0 := NewTask(0, ev)], Idle, clock, window, held, [], {}, {}, {})
  }

  /** The handler's way there, one state per statement. */
  function OpeningState(window: nat, clock: Time, held: set<string>, ev: AlertEvent, n: nat): System {
    var s := Init(window, clock, held);
    var created := s.db.(incidents := map[0 := Incident(Key(ev), Open, None, 0, false)]);
    var attached := created.(alerts := [AlertRowOf(ev, 0, clock)]);
    match n
    case 0 => s
    case 1 => s.(handlers := map[0 := Looking(ev)])
    case 2 => s.(handlers := map[0 := Inserting(ev)])
    case 3 => s.(handlers := map[0 := Attaching(ev, 0, ThenSpawn)], db := created)
    case 4 => s.(handlers := map[0 := Queueing(ev, 0)], db := attached)
    case 5 => s.(handlers := map[0 := Linking(ev, 0, 0)], db := attached.(runs := map[0 := Queued]))
    case _ => Opened(window, clock, held, ev)
  }

  lemma OpeningEarly(window: nat, clock: Time, held: set<string>, ev: AlertEvent, n: nat)
    requires Originates(ev) && ev.status == "firing" && n < 3
    ensures var s, st := OpeningState(window, clock, held, ev, n), Opening(ev)[n].hs;
      Opening(ev)[n].Handle? && HandlerEnabled(s, 0, st) && HandlerNext(s, 0, st) == OpeningState(window, clock, held, ev, n + 1)
  {
    if n == 0 {
    } else if n == 1 {
    } else {
      assert Opening(ev)[n] == Handle(0, Insert(0));
    }
  }

  lemma OpeningLate(window: nat, clock: Time, held: set<string>, ev: AlertEvent, n: nat)
    requires 3 <= n < 6
    ensures var s, st := OpeningState(window, clock, held, ev, n), Opening(ev)[n].hs;
      Opening(ev)[n].Handle? && HandlerEnabled(s, 0, st) && HandlerNext(s, 0, st) == OpeningState(window, clock, held, ev, n + 1)
  {
    var linking: map<nat, Handler> := map[0 := Linking(ev, 0, 0)];
    assert linking - {0} == map[];
  }

  lemma {:induction false} OpeningReached(window: nat, clock: Time, held: set<string>, ev: AlertEvent, n: nat)
    requires Originates(ev) && ev.status == "firing" && n <= 6
    ensures Reached(window, clock, held, OpeningState(window, clock, held, ev, n), Opening(ev)[..n])
  {
    if n == 0 {
      Start(window, clock, held);
    } else {
      hide HandlerEnabled, HandlerNext, Reached, OpeningState;
      OpeningReached(window, clock, held, ev, n - 1);
      if n <= 3 {
        OpeningEarly(window, clock, held, ev, n - 1);
      } else {
        OpeningLate(window, clock, held, ev, n - 1);
      }
      Move(window, clock, held, Opening(ev), n - 1, OpeningState(window, clock, held, ev, n - 1), OpeningState(window, clock, held, ev, n));
    }
  }

  lemma OpenedReached(window: nat, clock: Time, held: set<string>, ev: AlertEvent)
    requires Originates(ev) && ev.status == "firing"
    ensures Reached(window, clock, held, Opened(window, clock, held, ev), Opening(ev))
  {
    OpeningReached(window, clock, held, ev, 6);
    assert Opening(ev)[..6] == Opening(ev);
  }

  // ---- a run from its start to its end ----

  /** An uneventful session; `q` is its question to Alertmanager with the answer. */
  function Session(r: RunId, q: RunStep, now: Time): seq<Event> {
    [Run(r, Begin), Run(r, StartSession), Run(r, EndSession), Run(r, ReadStatus), Run(r, ReadTimeline),
     Run(r, q), Run(r, Settle(now)), Run(r, Finish(true))]
  }

  /** The question a run can ask in `s`, with an answer it can get. */
  predicate Asked(s: System, r: RunId, q: RunStep) {
    && r in s.tasks && q.Query?
    && Answers(s.held, s.tasks[r].alert.alertname, q.asked, q.active, q.error)
  }

  /** What an uneventful run of an open incident leaves behind, given the answer it gets. */
  function AfterSession(s: System, r: RunId, active: bool): System
    requires r in s.tasks
  {
    var i := s.tasks[r].incident;
    var decision := if active then LeaveOpen else ResolveIt;
    s.(db := SetStatus(CloseOut(SetStatus(s.db, r, Running), i, decision, s.clock + s.window), r, Completed),
       tasks := s.tasks[r := s.tasks[r].(phase := Over, settled := true)],
       quiet := if active then s.quiet else s.quiet + {i})
  }

  ghost predicate Ready(s: System, r: RunId) {
    && r in s.tasks && s.tasks[r].phase.Spawned? && r in s.db.runs
    && s.tasks[r].incident in s.db.incidents && s.db.incidents[s.tasks[r].incident].status == Open
    && s.tasks[r].incident !in s.db.remediated
  }

  /** In phase `p`, with the run row set to running. */
  function Underway(s: System, r: RunId, p: Phase): System
    requires r in s.tasks
  {
    s.(db := SetStatus(s.db, r, Running), tasks := s.tasks[r := s.tasks[r].(phase := p)])
  }

  lemma Opens(s: System, r: RunId)
    requires Ready(s, r)
    ensures RunEnabled(s, r, Begin) && RunNext(s, r, Begin) == Underway(s, r, Preparing)
    ensures RunEnabled(Underway(s, r, Preparing), r, StartSession)
    ensures RunNext(Underway(s, r, Preparing), r, StartSession) == Underway(s, r, InSession)
  {
  }

  lemma Checks(s: System, r: RunId)
    requires Ready(s, r)
    ensures RunEnabled(Underway(s, r, InSession), r, EndSession)
    ensures RunNext(Underway(s, r, InSession), r, EndSession) == Underway(s, r, CheckingStatus)
    ensures RunEnabled(Underway(s, r, CheckingStatus), r, ReadStatus)
    ensures RunNext(Underway(s, r, CheckingStatus), r, ReadStatus) == Underway(s, r, CheckingTimeline)
    ensures RunEnabled(Underway(s, r, CheckingTimeline), r, ReadTimeline)
    ensures RunNext(Underway(s, r, CheckingTimeline), r, ReadTimeline) == Underway(s, r, Querying(false))
  {
  }

  lemma SessionOpens(window: nat, clock: Time, held: set<string>, all: seq<Event>, n: nat, s: System, r: RunId, q: RunStep)
    requires Ready(s, r) && Asked(s, r, q) && Segment(all, n, Session(r, q, s.clock))
    requires Reached(window, clock, held, s, all[..n])
    ensures Reached(window, clock, held, Underway(s, r, Querying(false)), all[..n + 5])
  {
    hide RunEnabled, RunNext, Reached, Underway;
    var part := Session(r, q, s.clock);
    SegmentAt(all, n, part, 0);
    SegmentAt(all, n, part, 1);
    SegmentAt(all, n, part, 2);
    SegmentAt(all, n, part, 3);
    SegmentAt(all, n, part, 4);
    Opens(s, r);
    Checks(s, r);
    MoveRun(window, clock, held, all, n, s, r, Begin, Underway(s, r, Preparing));
    MoveRun(window, clock, held, all, n + 1, Underway(s, r, Preparing), r, StartSession, Underway(s, r, InSession));
    MoveRun(window, clock, held, all, n + 2, Underway(s, r, InSession), r, EndSession, Underway(s, r, CheckingStatus));
    MoveRun(window, clock, held, all, n + 3, Underway(s, r, CheckingStatus), r, ReadStatus, Underway(s, r, CheckingTimeline));
    MoveRun(window, clock, held, all, n + 4, Underway(s, r, CheckingTimeline), r, ReadTimeline, Underway(s, r, Querying(false)));
  }

  /** The answer is in and the decision taken. */
  function Answered(s: System, r: RunId, active: bool): System
    requires r in s.tasks
  {
    Underway(s, r, Settling(if active then LeaveOpen else ResolveIt, s.clock))
      .(quiet := if active then s.quiet else s.quiet + {s.tasks[r].incident})
  }

  /** The decision is written; only the run's own end is to come. */
  function Written(s: System, r: RunId, active: bool): System
    requires r in s.tasks
  {
    var a := Answered(s, r, active);
    a.(db := CloseOut(a.db, s.tasks[r].incident, if active then LeaveOpen else ResolveIt, s.clock + s.window),
       tasks := s.tasks[r := s.tasks[r].(phase := Finishing, settled := true)])
  }

  lemma Asks(s: System, r: RunId, q: RunStep)
    requires Ready(s, r) && Asked(s, r, q)
    ensures var u := Underway(s, r, Querying(false));
      RunEnabled(u, r, q) && RunNext(u, r, q) == Answered(s, r, q.active || q.error)
  {
    hide Answers;
  }

  lemma Writes(s: System, r: RunId, active: bool)
    requires Ready(s, r)
    ensures var u := Answered(s, r, active); RunEnabled(u, r, Settle(s.clock)) && RunNext(u, r, Settle(s.clock)) == Written(s, r, active)
  {
  }

  lemma Ends(s: System, r: RunId, active: bool)
    requires Ready(s, r)
    ensures var u := Written(s, r, active); RunEnabled(u, r, Finish(true)) && RunNext(u, r, Finish(true)) == AfterSession(s, r, active)
  {
  }

  lemma SessionRuns(window: nat, clock: Time, held: set<string>, all: seq<Event>, n: nat, s: System, r: RunId, q: RunStep)
    requires Ready(s, r) && Asked(s, r, q) && Segment(all, n, Session(r, q, s.clock))
    requires Reached(window, clock, held, s, all[..n])
    ensures Reached(window, clock, held, AfterSession(s, r, q.active || q.error), all[..n + 8])
  {
    var part := Session(r, q, s.clock);
    SessionOpens(window, clock, held, all, n, s, r, q);
    var active := q.active || q.error;
    SegmentAt(all, n, part, 5);
    SegmentAt(all, n, part, 6);
    SegmentAt(all, n, part, 7);
    Asks(s, r, q);
    MoveRun(window, clock, held, all, n + 5, Underway(s, r, Querying(false)), r, q, Answered(s, r, active));
    Writes(s, r, active);
    MoveRun(window, clock, held, all, n + 6, Answered(s, r, active), r, part[6].rs, Written(s, r, active));
    Ends(s, r, active);
    MoveRun(window, clock, held, all, n + 7, Written(s, r, active), r, part[7].rs, AfterSession(s, r, q.active || q.error));
  }

  // ---- the watcher comes back ----

  /** One incident, its one run over without a recovery, and the deadline armed. */
  function Waiting(window: nat, clock: Time, held: set<string>, ev: AlertEvent): System {
    var s := Opened(window, clock, held, ev);
    s.(db := s.db.(incidents := map[0 := Incident(Key(ev), Open, Some(clock + window), 0, false)], runs := map[0 := Completed]),
       tasks := map[0 := NewTask(0, ev).(phase := Over, settled := true)])
  }

  function Listed(window: nat, clock: Time, ev: AlertEvent): seq<Snapshot> {
    [Snapshot(0, Incident(Key(ev), Open, Some(clock + window), 0, false))]
  }

  function PollEvents(window: nat, clock: Time, held: set<string>, ev: AlertEvent): seq<Event> {
    [Tick(clock + window + 1, held), Watch(ReadClock), Watch(WatcherStep.Poll(Listed(window, clock, ev))), Watch(ReadFeed), Watch(Choose),
     Watch(Load(Some(0))), Watch(Bump)]
  }

  /** The count is raised and the deadline not yet moved. */
  function CountRaised(window: nat, clock: Time, held: set<string>, ev: AlertEvent, alert: AlertEvent): System {
    var s := Waiting(window, clock, held, ev);
    var now := clock + window + 1;
    s.(db := s.db.(incidents := map[0 := Incident(Key(ev), Open, Some(clock + window), 1, false)]),
       watcher := Bumped(now, Listed(window, clock, ev), alert, now), clock := now, log := [Escalation(0, now)])
  }

  /** A first close-out that does not resolve: the question fails where Alertmanager holds no alert of
      that name. */
  function Inconclusive(held: set<string>, name: string): RunStep {
    var error := Strip(name) == "" || Strip(name) !in held;
    Query(Strip(name), !error, error)
  }

  function FirstHalf(window: nat, clock: Time, held: set<string>, ev: AlertEvent): seq<Event> {
    Opening(ev) + Session(0, Inconclusive(held, ev.alertname), clock) + PollEvents(window, clock, held, ev)
  }

  lemma FirstSession(window: nat, clock: Time, held: set<string>, all: seq<Event>, ev: AlertEvent, q: RunStep)
    requires Originates(ev) && ev.status == "firing" && Opening(ev) + Session(0, q, clock) <= all
    requires q.Query? && Answers(held, ev.alertname, q.asked, q.active, q.error)
    ensures Reached(window, clock, held, AfterSession(Opened(window, clock, held, ev), 0, q.active || q.error), all[..14])
  {
    hide Reached, Answers, AfterSession;
    OpenedReached(window, clock, held, ev);
    assert all[..6] == Opening(ev);
    assert Segment(all, 6, Session(0, q, clock));
    SessionRuns(window, clock, held, all, 6, Opened(window, clock, held, ev), 0, q);
  }

  lemma WaitsAfter(window: nat, clock: Time, held: set<string>, ev: AlertEvent)
    ensures AfterSession(Opened(window, clock, held, ev), 0, true) == Waiting(window, clock, held, ev)
    ensures AfterSession(Opened(window, clock, held, ev), 0, false).db.incidents == map[0 := Incident(Key(ev), Resolved, None, 0, true)]
  {
  }

  lemma WaitingReached(window: nat, clock: Time, held: set<string>, all: seq<Event>, ev: AlertEvent)
    requires Originates(ev) && ev.status == "firing" && FirstHalf(window, clock, held, ev) <= all
    ensures Reached(window, clock, held, Waiting(window, clock, held, ev), all[..14])
  {
    hide Reached, AfterSession, Waiting, Opened, Strip, PollEvents, Session, Opening;
    FirstSession(window, clock, held, all, ev, Inconclusive(held, ev.alertname));
    WaitsAfter(window, clock, held, ev);
  }

  lemma HalfParts(window: nat, clock: Time, held: set<string>, all: seq<Event>, ev: AlertEvent)
    requires FirstHalf(window, clock, held, ev) <= all
    ensures |FirstHalf(window, clock, held, ev)| == 21 && Segment(all, 14, PollEvents(window, clock, held, ev))
    ensures |PollEvents(window, clock, held, ev)| == 7
  {
  }

  /** The clock moves past the deadline and the poll lists the incident. */
  lemma PolledReached(window: nat, clock: Time, held: set<string>, all: seq<Event>, ev: AlertEvent, s: System)
    requires Segment(all, 14, PollEvents(window, clock, held, ev)) && s == Waiting(window, clock, held, ev)
    requires Reached(window, clock, held, s, all[..14])
    ensures var now := clock + window + 1;
      Reached(window, clock, held, s.(clock := now, watcher := Polling(now, Listed(window, clock, ev))), all[..17])
  {
    hide Reached, PollResult;
    var part, todo, now := PollEvents(window, clock, held, ev), Listed(window, clock, ev), clock + window + 1;
    SegmentAt(all, 14, part, 0);
    SegmentAt(all, 14, part, 1);
    SegmentAt(all, 14, part, 2);
    var s1 := s.(clock := now);
    Move(window, clock, held, all, 14, s, s1);
    MoveWatch(window, clock, held, all, 15, s1, ReadClock, s1.(watcher := ClockRead(now)));
    PollsIt(s1.(watcher := ClockRead(now)), todo);
    MoveWatch(window, clock, held, all, 16, s1.(watcher := ClockRead(now)), WatcherStep.Poll(todo), s1.(watcher := Polling(now, todo)));
  }

  lemma CountRaisedReached(window: nat, clock: Time, held: set<string>, all: seq<Event>, ev: AlertEvent, alert: AlertEvent)
    requires Originates(ev) && ev.status == "firing" && FirstHalf(window, clock, held, ev) <= all && RebuiltEvent(ev.raw) == Some(alert)
    ensures Reached(window, clock, held, CountRaised(window, clock, held, ev, alert), all[..21])
  {
    hide Reached, RebuiltEvent, FirstHalf, PollEvents, Opened, CountRaised, Originates;
    WaitingReached(window, clock, held, all, ev);
    HalfParts(window, clock, held, all, ev);
    PolledReached(window, clock, held, all, ev, Waiting(window, clock, held, ev));
    CountsIt(window, clock, held, all, ev, alert, Waiting(window, clock, held, ev).(clock := clock + window + 1));
  }

  lemma ReadsIt(window: nat, clock: Time, held: set<string>, ev: AlertEvent, s: System)
    requires ev.status == "firing" && s == Waiting(window, clock, held, ev).(clock := clock + window + 1)
    ensures var todo, feed := Listed(window, clock, ev), Feed(Some(clock), None);
      && var u := s.(watcher := Polling(s.clock, todo));
      && WatcherEnabled(u, ReadFeed) && WatcherNext(u, ReadFeed) == s.(watcher := FeedRead(s.clock, todo, feed))
  {
    FeedOfOne(s.db, clock);
  }

  lemma ComesToChoose(window: nat, clock: Time, held: set<string>, all: seq<Event>, ev: AlertEvent, s: System)
    requires ev.status == "firing" && s == Waiting(window, clock, held, ev).(clock := clock + window + 1)
    requires Segment(all, 14, PollEvents(window, clock, held, ev))
    requires Reached(window, clock, held, s.(watcher := Polling(s.clock, Listed(window, clock, ev))), all[..17])
    ensures Reached(window, clock, held, s.(watcher := Chosen(s.clock, Listed(window, clock, ev))), all[..19])
  {
    var todo, feed, now, part := Listed(window, clock, ev), Feed(Some(clock), None), s.clock, PollEvents(window, clock, held, ev);
    SegmentAt(all, 14, part, 3);
    SegmentAt(all, 14, part, 4);
    ReadsIt(window, clock, held, ev, s);
    MoveWatch(window, clock, held, all, 17, s.(watcher := Polling(now, todo)), ReadFeed, s.(watcher := FeedRead(now, todo, feed)));
    ChoosesIt(s, todo, feed);
    MoveWatch(window, clock, held, all, 18, s.(watcher := FeedRead(now, todo, feed)), Choose, s.(watcher := Chosen(now, todo)));
  }

  lemma CountsIt(window: nat, clock: Time, held: set<string>, all: seq<Event>, ev: AlertEvent, alert: AlertEvent, s: System)
    requires ev.status == "firing" && RebuiltEvent(ev.raw) == Some(alert)
    requires s == Waiting(window, clock, held, ev).(clock := clock + window + 1) && Segment(all, 14, PollEvents(window, clock, held, ev))
    requires Reached(window, clock, held, s.(watcher := Polling(s.clock, Listed(window, clock, ev))), all[..17])
    ensures Reached(window, clock, held, CountRaised(window, clock, held, ev, alert), all[..21])
  {
    var todo, now, part := Listed(window, clock, ev), s.clock, PollEvents(window, clock, held, ev);
    ComesToChoose(window, clock, held, all, ev, s);
    SegmentAt(all, 14, part, 5);
    SegmentAt(all, 14, part, 6);
    LoadsIt(window, clock, held, ev, alert, s);
    RaisesIt(window, clock, held, ev, alert, s);
    MoveWatch(window, clock, held, all, 19, s.(watcher := Chosen(now, todo)), Load(Some(0)), s.(watcher := Loaded(now, todo, alert)));
    MoveWatch(window, clock, held, all, 20, s.(watcher := Loaded(now, todo, alert)), Bump, CountRaised(window, clock, held, ev, alert));
  }

  lemma LoadsIt(window: nat, clock: Time, held: set<string>, ev: AlertEvent, alert: AlertEvent, s: System)
    requires ev.status == "firing" && RebuiltEvent(ev.raw) == Some(alert)
    requires s == Waiting(window, clock, held, ev).(clock := clock + window + 1)
    ensures var todo := Listed(window, clock, ev); var u := s.(watcher := Chosen(s.clock, todo));
      WatcherEnabled(u, Load(Some(0))) && WatcherNext(u, Load(Some(0))) == s.(watcher := Loaded(s.clock, todo, alert))
  {
    FeedOfOne(s.db, clock);
  }

  lemma RaisesIt(window: nat, clock: Time, held: set<string>, ev: AlertEvent, alert: AlertEvent, s: System)
    requires s == Waiting(window, clock, held, ev).(clock := clock + window + 1)
    ensures var v := s.(watcher := Loaded(s.clock, Listed(window, clock, ev), alert));
      WatcherEnabled(v, Bump) && WatcherNext(v, Bump) == CountRaised(window, clock, held, ev, alert)
  {
  }

  lemma ChoosesIt(s: System, todo: seq<Snapshot>, feed: Feed)
    requires |todo| == 1 && Due(todo[0].row, s.clock) && todo[0].row.escalations == 0 && feed.lastFiring.Some? && feed.lastResolved == None
    requires |s.db.links| == 1 && s.db.links[0] == Link(todo[0].id, 0, Investigation) && s.db.runs == map[0 := Completed]
    ensures var u := s.(watcher := FeedRead(s.clock, todo, feed));
      WatcherEnabled(u, Choose) && WatcherNext(u, Choose) == s.(watcher := Chosen(s.clock, todo))
  {
    assert LatestRunStatus(s.db, s.db.links, todo[0].id) == Some(Completed);
  }

  lemma PollsIt(s: System, todo: seq<Snapshot>)
    requires |todo| == 1 && s.db.incidents == map[todo[0].id := todo[0].row] && s.watcher.ClockRead? && Due(todo[0].row, s.watcher.now)
    ensures PollResult(s.db, s.watcher.now, todo)
  {
  }

  lemma FeedOfOne(t: Tables, ts: Time)
    requires |t.alerts| == 1 && t.alerts[0].incident == 0 && t.alerts[0].status == "firing" && t.alerts[0].ts == ts
    ensures LastSeen(t.alerts, 0, "firing") == Some(ts) && LastSeen(t.alerts, 0, "resolved") == None
  {
    assert t.alerts[..0] == [];
  }

  // ---- one event only ----

  /** Nothing but this event was ever received. */
  predicate OnlyArrives(es: seq<Event>, ev: AlertEvent) {
    forall e :: e in es && e.Handle? && e.hs.Arrive? ==> e.hs.ev == ev
  }

  /** Alertmanager's alerts never change. */
  predicate Holding(es: seq<Event>, held: set<string>) {
    forall e :: e in es && e.Tick? ==> e.held == held
  }

  lemma Quiet(es: seq<Event>, fs: seq<Event>, ev: AlertEvent, held: set<string>)
    requires OnlyArrives(es, ev) && Holding(es, held) && OnlyArrives(fs, ev) && Holding(fs, held)
    ensures OnlyArrives(es + fs, ev) && Holding(es + fs, held)
  {
  }

  lemma FirstQuiet(ev: AlertEvent, q: RunStep, clock: Time, held: set<string>)
    ensures OnlyArrives(Opening(ev) + Session(0, q, clock), ev) && Holding(Opening(ev) + Session(0, q, clock), held)
  {
    Quiet(Opening(ev), Session(0, q, clock), ev, held);
  }

  lemma FirstHalfQuiet(window: nat, clock: Time, held: set<string>, ev: AlertEvent)
    ensures OnlyArrives(FirstHalf(window, clock, held, ev), ev) && Holding(FirstHalf(window, clock, held, ev), held)
  {
    var q := Inconclusive(held, ev.alertname);
    FirstQuiet(ev, q, clock, held);
    Quiet(Opening(ev) + Session(0, q, clock), PollEvents(window, clock, held, ev), ev, held);
  }
}
