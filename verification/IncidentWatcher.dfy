/** The re-escalation watcher as the code runs it: the poll, the decision over each due incident,
    and the escalation. Between two statements the other actors may have changed the tables, and
    any statement over an incident may raise. */
module IncidentWatcher {
  import opened Options
  import opened Ingress
  import opened IncidentTables
  import opened IncidentProtocol
  import opened IncidentInterleaving
  import opened IncidentTraces
  import Store = IncidentStore

  datatype Statement =
    | ReadingFeed | ReadingStatus | LoadingAlert | Counting | MovingDeadline | CreatingRun | LinkingRun

  /** The new run's id, the world at each statement, and which of them raises, if any. */
  datatype Script = Script(
    run: RunId, atFeed: World, atStatus: World, atLoad: World, atBump: World, atRearm: World, atRun: World, atLink: World,
    raises: Option<Statement>)

  predicate Admissible(x: Script) {
    x.run !in x.atRun.tables.runs && x.atBump.clock <= x.atRearm.clock
  }

  ghost predicate Watching(trace: seq<Moment>, w: Watcher, window: nat) {
    && trace != [] && Local(trace) && Last(trace).event.Watch?
    && Last(trace).after.watcher == w && Last(trace).after.window == window
  }

  /** The watcher is through with the first incident of `todo`, and the last step says how. */
  ghost predicate Through(trace: seq<Moment>, now: Time, todo: seq<Snapshot>, window: nat, last: WatcherStep, db: Tables) {
    && todo != [] && Watching(trace, Polling(now, todo[1..]), window)
    && Last(trace).event == Watch(last) && Last(trace).after.db == db
  }

  /** What the watcher escalated so far. */
  ghost function Log(trace: seq<Moment>): seq<Escalation>
    requires trace != []
  {
    Last(trace).after.log
  }

  // ---- one step each ----

  lemma WatcherTakes(before: seq<Moment>, w: World, pc: Watcher, window: nat, st: WatcherStep) returns (trace: seq<Moment>)
    requires Watching(before, pc, window) && WatcherEnabled(Found(before, w), st)
    ensures before < trace && |trace| == |before| + 1 && Local(trace) && Last(trace).after.window == window
    ensures Last(trace) == Moment(Found(before, w), Watch(st), WatcherNext(Found(before, w), st))
  {
    KeepsClock(Found(before, w), Watch(st));
    hide WatcherEnabled, WatcherNext, Local;
    trace := Then(before, w, Watch(st));
    ThenIsLocal(before, w, Watch(st));
  }

  lemma TakesSkip(before: seq<Moment>, w: World, pc: Watcher, window: nat) returns (trace: seq<Moment>)
    requires Watching(before, pc, window) && !pc.Idle? && !pc.ClockRead? && pc.todo != []
    ensures before < trace && Through(trace, pc.now, pc.todo, window, Skip, w.tables) && Log(trace) == Log(before)
    ensures pc.Bumped? && Log(before) != [] ==> |Log(before)| - 1 in Last(trace).after.failed
  {
    hide Local;
    trace := WatcherTakes(before, w, pc, window, Skip);
  }

  lemma TakesFeed(before: seq<Moment>, w: World, now: Time, todo: seq<Snapshot>, window: nat) returns (trace: seq<Moment>)
    requires Watching(before, Polling(now, todo), window) && todo != []
    ensures var feed := Feed(LastSeen(w.tables.alerts, todo[0].id, "firing"), LastSeen(w.tables.alerts, todo[0].id, "resolved"));
      before < trace && Watching(trace, FeedRead(now, todo, feed), window)
  {
    hide Local, LastSeen;
    trace := WatcherTakes(before, w, Polling(now, todo), window, ReadFeed);
  }

  lemma TakesChoose(before: seq<Moment>, w: World, now: Time, todo: seq<Snapshot>, feed: Feed, window: nat) returns (trace: seq<Moment>)
    requires Watching(before, FeedRead(now, todo, feed), window) && todo != []
    ensures before < trace
    ensures if EscalationDue(todo[0].row, feed, now, LatestRunStatus(w.tables, w.tables.links, todo[0].id))
            then Watching(trace, Chosen(now, todo), window)
            else Through(trace, now, todo, window, Choose, w.tables)
  {
    hide Local, LatestRunStatus, EscalationDue;
    trace := WatcherTakes(before, w, FeedRead(now, todo, feed), window, Choose);
  }

  lemma TakesLoad(before: seq<Moment>, w: World, now: Time, todo: seq<Snapshot>, row: Option<nat>, window: nat) returns (trace: seq<Moment>)
    requires Watching(before, Chosen(now, todo), window) && todo != []
    requires row.None? ==> LastSeen(w.tables.alerts, todo[0].id, "firing") == None
    requires row.Some? ==> NewestFiring(w.tables.alerts, todo[0].id, row.value)
    ensures before < trace
    ensures var alert := if row.Some? then RebuiltEvent(w.tables.alerts[row.value].payload) else None;
      if alert.Some? then Watching(trace, Loaded(now, todo, alert.value), window)
      else Through(trace, now, todo, window, Load(row), w.tables)
  {
    hide Local, LastSeen, RebuiltEvent;
    trace := WatcherTakes(before, w, Chosen(now, todo), window, Load(row));
  }

  lemma TakesBump(before: seq<Moment>, w: World, now: Time, todo: seq<Snapshot>, alert: AlertEvent, window: nat) returns (trace: seq<Moment>)
    requires Watching(before, Loaded(now, todo, alert), window) && todo != []
    ensures before < trace && |trace| == |before| + 1 && Watching(trace, Bumped(now, todo, alert, w.clock), window)
    ensures Last(trace).event == Watch(Bump) && Log(trace) == Log(before) + [Escalation(todo[0].id, now)]
    ensures Last(trace).after.db == BumpEscalations(w.tables, todo[0].id) && Wrote(trace, w, Last(trace).after.db)
  {
    hide Local, BumpEscalations;
    trace := WatcherTakes(before, w, Loaded(now, todo, alert), window, Bump);
    assert trace[|trace| - 1] == Last(trace);
  }

  lemma TakesRearm(before: seq<Moment>, w: World, now: Time, todo: seq<Snapshot>, alert: AlertEvent, from: Time, ts: Time, window: nat)
    returns (trace: seq<Moment>)
    requires Watching(before, Bumped(now, todo, alert, from), window) && todo != [] && from <= ts <= w.clock
    ensures before < trace && Watching(trace, Rearmed(now, todo, alert), window) && Log(trace) == Log(before)
    ensures Last(trace).after.db == SetVerifyDeadline(w.tables, todo[0].id, ts + window) && Wrote(trace, w, Last(trace).after.db)
  {
    hide Local, SetVerifyDeadline;
    trace := WatcherTakes(before, w, Bumped(now, todo, alert, from), window, RearmDeadline(ts));
    assert trace[|trace| - 1] == Last(trace);
  }

  lemma TakesRun(before: seq<Moment>, w: World, now: Time, todo: seq<Snapshot>, alert: AlertEvent, r: RunId, window: nat)
    returns (trace: seq<Moment>)
    requires Watching(before, Rearmed(now, todo, alert), window) && todo != [] && r !in w.tables.runs
    ensures before < trace && Watching(trace, RunMade(now, todo, alert, r), window) && Last(trace).after.db == CreateRun(w.tables, r)
    ensures Log(trace) == Log(before) && Wrote(trace, w, Last(trace).after.db)
  {
    hide Local, CreateRun;
    trace := WatcherTakes(before, w, Rearmed(now, todo, alert), window, MakeRun(r));
    assert trace[|trace| - 1] == Last(trace);
  }

  lemma TakesLink(before: seq<Moment>, w: World, now: Time, todo: seq<Snapshot>, alert: AlertEvent, r: RunId, window: nat)
    returns (trace: seq<Moment>)
    requires Watching(before, RunMade(now, todo, alert, r), window) && todo != []
    ensures before < trace && Through(trace, now, todo, window, LinkReEscalation, LinkRun(w.tables, todo[0].id, r, ReEscalation))
    ensures r in Last(trace).after.tasks && Last(trace).after.tasks[r] == NewTask(todo[0].id, alert) && Log(trace) == Log(before)
  {
    hide Local, LinkRun;
    trace := WatcherTakes(before, w, RunMade(now, todo, alert, r), window, LinkReEscalation);
  }

  // ---- one due incident ----

  /** How the watcher came through with an incident: it escalated, it had no reason to, or a
      statement raised. */
  datatype Verdict = Escalated | NotDue | NothingToRebuild | Raised

  predicate Says(v: Verdict, last: WatcherStep) {
    match v
    case Escalated => last.LinkReEscalation?
    case NotDue => last.Choose?
    case NothingToRebuild => last.Load?
    case Raised => last.Skip?
  }

  ghost predicate Handled(before: seq<Moment>, trace: seq<Moment>, now: Time, todo: seq<Snapshot>, window: nat, v: Verdict, db: Tables) {
    && before < trace && Last(trace).event.Watch?
    && Through(trace, now, todo, window, Last(trace).event.ws, db) && Says(v, Last(trace).event.ws)
  }

  /** What the poll knows of the incident, the observations and the runs call for an escalation. */
  ghost predicate NeedsEscalation(snap: Snapshot, now: Time, x: Script) {
    && snap.row.status == Open && snap.row.escalations < 3
    && snap.row.deadline.Some? && snap.row.deadline.value < now
    && Firing(x.atFeed.tables.alerts, snap.id) && !AtWork(x.atStatus.tables, x.atStatus.tables.links, snap.id)
  }

  ghost predicate RightVerdict(snap: Snapshot, now: Time, x: Script, v: Verdict) {
    if NeedsEscalation(snap, now, x) then v.Escalated? || v.NothingToRebuild? else v.NotDue?
  }

  /** The verdict is right, and without an escalation the tables are as the last statement found them. */
  ghost predicate Judged(snap: Snapshot, now: Time, x: Script, v: Verdict, db: Tables) {
    if NeedsEscalation(snap, now, x) then v.Escalated? || (v.NothingToRebuild? && db == x.atLoad.tables)
    else v.NotDue? && db == x.atStatus.tables
  }

  lemma NeedsIff(snap: Snapshot, now: Time, x: Script, feed: Feed)
    requires feed == Feed(LastSeen(x.atFeed.tables.alerts, snap.id, "firing"), LastSeen(x.atFeed.tables.alerts, snap.id, "resolved"))
    ensures EscalationDue(snap.row, feed, now, LatestRunStatus(x.atStatus.tables, x.atStatus.tables.links, snap.id))
            <==> NeedsEscalation(snap, now, x)
  {
    FiringIs(x.atFeed.tables.alerts, snap.id);
    LatestAtWork(x.atStatus.tables, x.atStatus.tables.links, snap.id);
    hide LastSeen, LatestRunStatus, Firing, AtWork;
  }

  /** One due incident of the poll: the watcher comes through to the next one by steps of the
      protocol, and what it reports is what its last step was. */
  method CheckIncident(db: Store.Database, now: Time, ghost todo: seq<Snapshot>, snap: Snapshot, window: nat,
                       x: Script, ghost before: seq<Moment>)
    returns (verdict: Verdict, ghost trace: seq<Moment>)
    requires todo != [] && snap == todo[0] && Admissible(x) && Watching(before, Polling(now, todo), window)
    modifies db
    ensures Handled(before, trace, now, todo, window, verdict, db.View())
    ensures verdict.Raised? ==> x.raises.Some?
    ensures x.raises.None? ==> Judged(snap, now, x, verdict, db.View())
    ensures x.raises.None? && verdict.Escalated? ==> EscalatedInFull(trace, snap.id, window, x, db.View())
  {
    hide Watching, EscalationDue, LatestRunStatus, NeedsEscalation, EscalatedInFull;
    verdict := Raised;
    Meanwhile(db, x.atFeed.tables);
    if x.raises == Some(ReadingFeed) {
      trace := TakesSkip(before, x.atFeed, Polling(now, todo), window);
      ThroughIsHandled(before, trace, now, todo, window, Skip, verdict, db.View());
      return;
    }
    var lastFiring, lastResolved := db.AlertState(snap.id);
    var feed := Feed(lastFiring, lastResolved);
    trace := TakesFeed(before, x.atFeed, now, todo, window);
    Meanwhile(db, x.atStatus.tables);
    if x.raises == Some(ReadingStatus) {
      trace := TakesSkip(trace, x.atStatus, FeedRead(now, todo, feed), window);
      ThroughIsHandled(before, trace, now, todo, window, Skip, verdict, db.View());
      return;
    }
    var latest := LatestRunStatus(db.View(), db.links, snap.id);
    trace := TakesChoose(trace, x.atStatus, now, todo, feed, window);
    NeedsIff(snap, now, x, feed);
    if EscalationDue(snap.row, feed, now, latest) {
      verdict, trace := Escalate(db, now, todo, snap.id, window, x, before, trace);
    } else {
      verdict := NotDue;
      ThroughIsHandled(before, trace, now, todo, window, Choose, verdict, db.View());
    }
  }

  lemma ThroughIsHandled(before: seq<Moment>, trace: seq<Moment>, now: Time, todo: seq<Snapshot>, window: nat, last: WatcherStep,
                       v: Verdict, db: Tables)
    requires before < trace && Through(trace, now, todo, window, last, db) && Says(v, last)
    ensures Handled(before, trace, now, todo, window, v, db)
  {
    hide Watching;
  }

  /** The escalation: without a firing row to rebuild the alert from nothing is counted. */
  method Escalate(db: Store.Database, now: Time, ghost todo: seq<Snapshot>, i: IncidentId, window: nat,
                  x: Script, ghost start: seq<Moment>, ghost before: seq<Moment>)
    returns (verdict: Verdict, ghost trace: seq<Moment>)
    requires todo != [] && i == todo[0].id && Admissible(x) && start < before
    requires Watching(before, Chosen(now, todo), window)
    modifies db
    ensures Handled(start, trace, now, todo, window, verdict, db.View())
    ensures verdict.NothingToRebuild? ==> db.View() == x.atLoad.tables
    ensures verdict.Raised? ==> x.raises.Some?
    ensures !verdict.NotDue?
    ensures x.raises.None? && verdict.Escalated? ==> EscalatedInFull(trace, i, window, x, db.View())
  {
    hide Watching, LastSeen, RebuiltEvent, EscalatedInFull;
    Meanwhile(db, x.atLoad.tables);
    if x.raises == Some(LoadingAlert) {
      verdict := Raised;
      trace := TakesSkip(before, x.atLoad, Chosen(now, todo), window);
      ThroughIsHandled(start, trace, now, todo, window, Skip, verdict, db.View());
      return;
    }
    var row := db.LatestFiringAlert(i);
    trace := TakesLoad(before, x.atLoad, now, todo, row, window);
    var alert := if row.Some? then RebuiltEvent(db.alerts[row.value].payload) else None;
    if alert.None? {
      verdict := NothingToRebuild;
      ThroughIsHandled(start, trace, now, todo, window, Load(row), verdict, db.View());
      return;
    }
    verdict, trace := CountAndRearm(db, now, todo, i, alert.value, window, x, start, trace);
  }

  function Counted(t: Tables, i: IncidentId): Tables {
    t.(incidents := if i in t.incidents then t.incidents[i := t.incidents[i].(escalations := t.incidents[i].escalations + 1)] else t.incidents)
  }

  function MovedTo(t: Tables, i: IncidentId, deadline: Time): Tables {
    t.(incidents := if i in t.incidents then t.incidents[i := t.incidents[i].(deadline := Some(deadline))] else t.incidents)
  }

  /** One more escalation, a deadline one window after the count, a queued run, and its link last. */
  ghost predicate EscalatedInFull(trace: seq<Moment>, i: IncidentId, window: nat, x: Script, db: Tables) {
    && Wrote(trace, x.atBump, Counted(x.atBump.tables, i))
    && Wrote(trace, x.atRearm, MovedTo(x.atRearm.tables, i, x.atBump.clock + window))
    && Wrote(trace, x.atRun, x.atRun.tables.(runs := x.atRun.tables.runs[x.run := Queued]))
    && LinkedIn(x.atLink.tables, db, i, x.run)
  }

  /** The link is on record, and nothing else is different. */
  ghost predicate LinkedIn(t: Tables, u: Tables, i: IncidentId, r: RunId) {
    u == t.(links := if exists k :: 0 <= k < |t.links| && t.links[k].incident == i && t.links[k].run == r
                     then t.links else t.links + [Link(i, r, ReEscalation)])
  }

  lemma WritesAre(t: Tables, u: Tables, i: IncidentId, deadline: Time)
    ensures BumpEscalations(t, i) == Counted(t, i) && SetVerifyDeadline(u, i, deadline) == MovedTo(u, i, deadline)
  {
  }

  /** The count goes up before the deadline moves: once counted, the escalation stays counted and
      logged whichever later statement raises, and where that is the deadline write the deadline is
      as it was. */
  method CountAndRearm(db: Store.Database, now: Time, ghost todo: seq<Snapshot>, i: IncidentId, alert: AlertEvent, window: nat,
                       x: Script, ghost start: seq<Moment>, ghost before: seq<Moment>)
    returns (verdict: Verdict, ghost trace: seq<Moment>)
    requires todo != [] && i == todo[0].id && Admissible(x) && start < before
    requires Watching(before, Loaded(now, todo, alert), window)
    modifies db
    ensures Handled(start, trace, now, todo, window, verdict, db.View())
    ensures verdict.Escalated? || (verdict.Raised? && x.raises.Some?)
    ensures x.raises == Some(Counting) ==> db.View() == x.atBump.tables && Log(trace) == Log(before)
    ensures x.raises != Some(Counting) ==>
      && Log(trace) == Log(before) + [Escalation(i, now)]
      && before < trace && trace[|before|].event == Watch(Bump) && trace[|before|].after.db == BumpEscalations(x.atBump.tables, i)
    ensures x.raises == Some(MovingDeadline) ==> db.View() == x.atRearm.tables && |Log(before)| in Last(trace).after.failed
    ensures verdict.Escalated? ==> EscalatedInFull(trace, i, window, x, db.View())
  {
    WritesAre(x.atBump.tables, x.atRearm.tables, i, x.atBump.clock + window);
    hide Watching, BumpEscalations, SetVerifyDeadline, Counted, MovedTo, Wrote, LinkedIn;
    verdict := Raised;
    Meanwhile(db, x.atBump.tables);
    if x.raises == Some(Counting) {
      trace := TakesSkip(before, x.atBump, Loaded(now, todo, alert), window);
      ThroughIsHandled(start, trace, now, todo, window, Skip, verdict, db.View());
      return;
    }
    var attempt := db.BumpEscalations(i);
    trace := TakesBump(before, x.atBump, now, todo, alert, window);
    ghost var bumped := trace;
    assert bumped[|before|] == Last(bumped);
    var counted := x.atBump.clock;
    Meanwhile(db, x.atRearm.tables);
    if x.raises == Some(MovingDeadline) {
      trace := TakesSkip(trace, x.atRearm, Bumped(now, todo, alert, counted), window);
      ThroughIsHandled(start, trace, now, todo, window, Skip, verdict, db.View());
      return;
    }
    db.SetVerifyDeadline(i, counted + window);
    trace := TakesRearm(trace, x.atRearm, now, todo, alert, counted, counted, window);
    ghost var moved := trace;
    verdict, trace := LinkNewRun(db, now, todo, i, alert, window, x, start, trace);
    WroteStays(bumped, trace, x.atBump, Counted(x.atBump.tables, i));
    WroteStays(moved, trace, x.atRearm, MovedTo(x.atRearm.tables, i, x.atBump.clock + window));
  }

  /** The run exists before it is linked, and linking it starts it with the rebuilt alert. */
  method LinkNewRun(db: Store.Database, now: Time, ghost todo: seq<Snapshot>, i: IncidentId, ghost alert: AlertEvent, window: nat,
                    x: Script, ghost start: seq<Moment>, ghost before: seq<Moment>)
    returns (verdict: Verdict, ghost trace: seq<Moment>)
    requires todo != [] && i == todo[0].id && Admissible(x) && start < before
    requires Watching(before, Rearmed(now, todo, alert), window)
    modifies db
    ensures Handled(start, trace, now, todo, window, verdict, db.View())
    ensures verdict.Escalated? || (verdict.Raised? && x.raises.Some?)
    ensures before < trace && Log(trace) == Log(before)
    ensures verdict.Escalated? ==> x.run in Last(trace).after.tasks && Last(trace).after.tasks[x.run] == NewTask(i, alert)
    ensures verdict.Escalated? ==> LinkedIn(x.atLink.tables, db.View(), i, x.run)
    ensures verdict.Escalated? ==> Wrote(trace, x.atRun, x.atRun.tables.(runs := x.atRun.tables.runs[x.run := Queued]))
  {
    hide Watching, Wrote;
    verdict := Raised;
    Meanwhile(db, x.atRun.tables);
    if x.raises == Some(CreatingRun) {
      trace := TakesSkip(before, x.atRun, Rearmed(now, todo, alert), window);
      ThroughIsHandled(start, trace, now, todo, window, Skip, verdict, db.View());
      return;
    }
    db.CreateRun(x.run);
    trace := TakesRun(before, x.atRun, now, todo, alert, x.run, window);
    ghost var queued := trace;
    Meanwhile(db, x.atLink.tables);
    if x.raises == Some(LinkingRun) {
      trace := TakesSkip(trace, x.atLink, RunMade(now, todo, alert, x.run), window);
      ThroughIsHandled(start, trace, now, todo, window, Skip, verdict, db.View());
      return;
    }
    db.LinkRun(i, x.run, ReEscalation);
    trace := TakesLink(trace, x.atLink, now, todo, alert, x.run, window);
    verdict := Escalated;
    WroteStays(queued, trace, x.atRun, x.atRun.tables.(runs := x.atRun.tables.runs[x.run := Queued]));
    ThroughIsHandled(start, trace, now, todo, window, LinkReEscalation, verdict, db.View());
  }

  // ---- the poll ----

  lemma HandledIsWatching(before: seq<Moment>, trace: seq<Moment>, now: Time, todo: seq<Snapshot>, window: nat, v: Verdict, db: Tables)
    requires Handled(before, trace, now, todo, window, v, db)
    ensures before < trace && todo != [] && Watching(trace, Polling(now, todo[1..]), window)
  {
  }

  /** The poll's loop: every due incident is looked at once, and an exception over one of them does
      not keep the watcher from the next. */
  method CheckAll(db: Store.Database, now: Time, todo: seq<Snapshot>, window: nat, xs: seq<Script>, ghost before: seq<Moment>)
    returns (verdicts: seq<Verdict>, ghost trace: seq<Moment>)
    requires |xs| == |todo| && forall k :: 0 <= k < |xs| ==> Admissible(xs[k])
    requires Watching(before, Polling(now, todo), window)
    modifies db
    ensures before <= trace && Watching(trace, Polling(now, []), window)
    ensures |verdicts| == |todo| && forall k :: 0 <= k < |todo| && xs[k].raises.None? ==> RightVerdict(todo[k], now, xs[k], verdicts[k])
  {
    hide Watching, Handled, Admissible, NeedsEscalation, EscalatedInFull;
    verdicts, trace := [], before;
    var k := 0;
    while k < |todo|
      invariant k <= |todo| && before <= trace && |verdicts| == k
      invariant Watching(trace, Polling(now, todo[k..]), window)
      invariant forall j :: 0 <= j < k && xs[j].raises.None? ==> RightVerdict(todo[j], now, xs[j], verdicts[j])
    {
      var verdict;
      ghost var longer;
      verdict, longer := CheckIncident(db, now, todo[k..], todo[k], window, xs[k], trace);
      HandledIsWatching(trace, longer, now, todo[k..], window, verdict, db.View());
      assert todo[k..][1..] == todo[k + 1..];
      verdicts, trace, k := verdicts + [verdict], longer, k + 1;
    }
    assert todo[k..] == [];
  }

  lemma TakesPoll(s0: System, atClock: World, atPoll: World, todo: seq<Snapshot>, window: nat) returns (trace: seq<Moment>)
    requires s0.watcher.Idle? && s0.window == window && PollResult(atPoll.tables, atClock.clock, todo)
    ensures Watching(trace, Polling(atClock.clock, todo), window)
    ensures |trace| == 2 && trace[0].event == Watch(ReadClock) && trace[1].event == Watch(Poll(todo))
    ensures trace[0].before == s0.(db := atClock.tables, clock := atClock.clock, held := atClock.held)
  {
    var s := s0.(db := atClock.tables, clock := atClock.clock, held := atClock.held);
    var clockRead := [Moment(s, Watch(ReadClock), WatcherNext(s, ReadClock))];
    assert Watching(clockRead, ClockRead(atClock.clock), window);
    hide PollResult, Local;
    trace := WatcherTakes(clockRead, atPoll, ClockRead(atClock.clock), window, Poll(todo));
  }

  lemma TakesEndPoll(before: seq<Moment>, w: World, now: Time, window: nat) returns (trace: seq<Moment>)
    requires Watching(before, Polling(now, []), window)
    ensures before < trace && Watching(trace, Idle, window)
  {
    hide Local;
    trace := WatcherTakes(before, w, Polling(now, []), window, EndPoll);
  }

  /** One round of the watcher, from the clock to the end of the poll: `todo` is what the query
      answered, and every incident on it is handled by steps of the protocol. */
  method WatchOnce(db: Store.Database, atClock: World, atPoll: World, todo: seq<Snapshot>, window: nat, xs: seq<Script>, atEnd: World,
                   ghost s0: System)
    returns (verdicts: seq<Verdict>, ghost trace: seq<Moment>)
    requires s0.watcher.Idle? && s0.window == window && PollResult(atPoll.tables, atClock.clock, todo)
    requires |xs| == |todo| && forall k :: 0 <= k < |xs| ==> Admissible(xs[k])
    modifies db
    ensures Watching(trace, Idle, window) && trace[0].event == Watch(ReadClock)
    ensures |verdicts| == |todo|
    ensures forall k :: 0 <= k < |todo| && xs[k].raises.None? ==> RightVerdict(todo[k], atClock.clock, xs[k], verdicts[k])
  {
    hide Watching, PollResult, Admissible, RightVerdict;
    trace := TakesPoll(s0, atClock, atPoll, todo, window);
    var now := atClock.clock;
    Meanwhile(db, atPoll.tables);
    ghost var polled := trace;
    verdicts, trace := CheckAll(db, now, todo, window, xs, trace);
    assert trace[0] == polled[0];
    trace := TakesEndPoll(trace, atEnd, now, window);
  }
}
