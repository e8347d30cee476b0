/** The incident protocol as a state machine: concurrent webhook handlers, the runs they
    spawn with their close-out, and the re-escalation watcher. Every SQL statement is one
    atomic step; between two steps of one actor any step of another may happen. */
module IncidentProtocol {
  import opened Options
  import opened Ingress
  import opened IncidentTables
  import opened Text

  const MAX_ESCALATIONS := 3

  datatype ClosingDecision = ResolveIt | LeaveOpen | VerifyIt | KeepDeadline
  datatype Feed = Feed(lastFiring: Option<Time>, lastResolved: Option<Time>)

  function DecideClosing(remediated: bool, alertActive: bool): ClosingDecision {
    if remediated then (if alertActive then KeepDeadline else VerifyIt)
    else (if alertActive then LeaveOpen else ResolveIt)
  }

  predicate EscalationDue(incident: Incident, feed: Feed, now: Time, latest: Option<RunStatus>) {
    && incident.status == Open
    && incident.escalations < MAX_ESCALATIONS
    && !(latest.Some? && InFlight(latest.value))
    && incident.deadline.Some? && incident.deadline.value < now
    && feed.lastFiring.Some?
    && !(feed.lastResolved.Some? && feed.lastResolved.value >= feed.lastFiring.value)
  }

  // ---- the actors' program counters ----

  datatype After = Stop | ThenClose | ThenSpawn

  /** One event of one webhook request; the constructor names the statement it is about to perform. */
  datatype Handler =
    | Looking(ev: AlertEvent)
    | Inserting(ev: AlertEvent)
    | Relooking(ev: AlertEvent)
    | Attaching(ev: AlertEvent, incident: IncidentId, next: After)
    | Closing(ev: AlertEvent, incident: IncidentId)
    | Queueing(ev: AlertEvent, incident: IncidentId)
    | Linking(ev: AlertEvent, incident: IncidentId, run: RunId)

  /** Where a spawned on-call run is. Recording a remediation reads the clock once, at `at`; `from` is
      the clock when the close-out's timestamp may be read. */
  datatype Phase =
    | Spawned | Preparing | InSession | Noted(at: Time) | Recording(at: Time)
    | CheckingStatus | CheckingTimeline | Querying(remediated: bool)
    | Settling(decision: ClosingDecision, from: Time) | Finishing | Over

  /** A run with the alert it was started for. `settled` and `rearmed` record that its close-out
      reached its end and that it moved the deadline after a remediation. */
  datatype Task = Task(incident: IncidentId, alert: AlertEvent, phase: Phase, settled: bool, rearmed: bool)

  function NewTask(i: IncidentId, alert: AlertEvent): Task {
    Task(i, alert, Spawned, false, false)
  }

  datatype Snapshot = Snapshot(id: IncidentId, row: Incident)

  /** The single watcher; from FeedRead on it works on `todo[0]`. */
  datatype Watcher =
    | Idle
    | ClockRead(now: Time)
    | Polling(now: Time, todo: seq<Snapshot>)
    | FeedRead(now: Time, todo: seq<Snapshot>, feed: Feed)
    | Chosen(now: Time, todo: seq<Snapshot>)
    | Loaded(now: Time, todo: seq<Snapshot>, alert: AlertEvent)
    | Bumped(now: Time, todo: seq<Snapshot>, alert: AlertEvent, from: Time)
    | Rearmed(now: Time, todo: seq<Snapshot>, alert: AlertEvent)
    | RunMade(now: Time, todo: seq<Snapshot>, alert: AlertEvent, run: RunId)

  datatype Escalation = Escalation(incident: IncidentId, polled: Time)

  /** `held` are the alert names of which Alertmanager holds an active alert.
      `log`, `failed`, `notices` and `quiet` only record history: the escalations with the clock of
      their poll, those of them whose deadline write raised, the keys of all non-firing events
      received, and the incidents for one of whose runs Alertmanager once answered, without an error,
      that the alert it asked about is inactive. */
  datatype System = System(
    db: Tables, handlers: map<nat, Handler>, tasks: map<RunId, Task>, watcher: Watcher,
    clock: Time, window: nat, held: set<string>,
    log: seq<Escalation>, failed: set<nat>, notices: set<string>, quiet: set<IncidentId>)

  function Init(window: nat, clock: Time, held: set<string>): System {
    System(Tables(map[], [], [], map[], {}), map[], map[], Idle, clock, window, held, [], {}, {}, {})
  }

  // ---- steps ----

  datatype HandlerStep =
    | Arrive(ev: AlertEvent)
    | LookUp(found: Option<IncidentId>)
    | Insert(id: IncidentId)
    | LookAgain(found: Option<IncidentId>)
    | AttachRow
    | CloseRow
    | QueueRun(run: RunId)
    | LinkInvestigation
    | Abandon                       // the request fails or is cancelled

  datatype RunStep =
    | Begin
    | Abort                         // an exception before the session: no close-out
    | StartSession
    | AskApproval
    | Answered(approved: bool)
    | NoteTime                      // a mutation succeeded: the clock is read
    | Remediate                     // its timeline row is written
    | Rearm
    | RecordFailed
    | EndSession
    | ReadStatus
    | ReadTimeline
    | Query(asked: string, active: bool, error: bool)
    | Settle(ts: Time)
    | CloseOutFailed
    | Finish(ok: bool)

  datatype WatcherStep =
    | ReadClock
    | Poll(todo: seq<Snapshot>)
    | ReadFeed
    | Choose
    | Load(row: Option<nat>)
    | Bump
    | RearmDeadline(ts: Time)
    | MakeRun(run: RunId)
    | LinkReEscalation
    | Skip                          // an exception, caught per incident
    | EndPoll

  datatype Event =
    | Handle(h: nat, hs: HandlerStep)
    | Run(r: RunId, rs: RunStep)
    | Watch(ws: WatcherStep)
    | Tick(to: Time, held: set<string>)     // time passes, and alerts come and go

  // -- webhook handlers --

  ghost predicate HandlerEnabled(s: System, h: nat, st: HandlerStep) {
    if st.Arrive? then h !in s.handlers && Originates(st.ev)
    else
      && h in s.handlers
      && var pc := s.handlers[h];
         match st
         case LookUp(found) => pc.Looking? && Finds(s.db, Key(pc.ev), found)
         case Insert(id) => pc.Inserting? && id !in s.db.incidents
         case LookAgain(found) => pc.Relooking? && Finds(s.db, Key(pc.ev), found)
         case AttachRow => pc.Attaching?
         case CloseRow => pc.Closing?
         case QueueRun(run) => pc.Queueing? && run !in s.db.runs
         case LinkInvestigation => pc.Linking?
         case _ => true
  }

  function At(s: System, h: nat, pc: Handler): System {
    s.(handlers := s.handlers[h := pc])
  }

  function Leave(s: System, h: nat): System {
    s.(handlers := s.handlers - {h})
  }

  function AlertRowOf(ev: AlertEvent, i: IncidentId, now: Time): AlertRow {
    AlertRow(i, ev.status, ev.alertname, ev.workload, now, ev.raw)
  }

  ghost function HandlerNext(s: System, h: nat, st: HandlerStep): System
    requires HandlerEnabled(s, h, st)
  {
    match st
    case Arrive(ev) =>
      At(s, h, Looking(ev)).(notices := if ev.status == "firing" then s.notices else s.notices + {Key(ev)})
    case LookUp(found) =>
      var ev := s.handlers[h].ev;
      (match IngressDecision(ev.status, found.Some?)
       case Spawn => At(s, h, Inserting(ev))
       case Attach => At(s, h, Attaching(ev, found.value, Stop))
       case Close => At(s, h, Attaching(ev, found.value, ThenClose))
       case Ignore => Leave(s, h))
    case Insert(id) =>
      var ev := s.handlers[h].ev;
      if KeyTaken(s.db, Key(ev)) then At(s, h, Relooking(ev))
      else At(s, h, Attaching(ev, id, ThenSpawn)).(db := CreateIncident(s.db, id, Key(ev)))
    case LookAgain(found) =>
      if found.None? then Leave(s, h) else At(s, h, Attaching(s.handlers[h].ev, found.value, Stop))
    case AttachRow =>
      var pc := s.handlers[h];
      var attached := s.(db := AttachAlert(s.db, AlertRowOf(pc.ev, pc.incident, s.clock)));
      (match pc.next
       case Stop => Leave(attached, h)
       case ThenClose => At(attached, h, Closing(pc.ev, pc.incident))
       case ThenSpawn => At(attached, h, Queueing(pc.ev, pc.incident)))
    case CloseRow => Leave(s, h).(db := CloseIncident(s.db, s.handlers[h].incident))
    case QueueRun(run) =>
      At(s, h, Linking(s.handlers[h].ev, s.handlers[h].incident, run)).(db := CreateRun(s.db, run))
    case LinkInvestigation =>
      var pc := s.handlers[h];
      Leave(s, h).(db := LinkRun(s.db, pc.incident, pc.run, Investigation),
                   tasks := s.tasks[pc.run := NewTask(pc.incident, pc.ev)])
    case Abandon => Leave(s, h)
  }

  // -- on-call runs --

  /** Alertmanager is asked about the stripped name: a blank one is an error, and without an error
      the answer is active exactly when some alert of that very name is. */
  predicate Answers(held: set<string>, alertname: string, asked: string, active: bool, error: bool) {
    && asked == Strip(alertname)
    && (asked == "" ==> error)
    && (!error ==> (active <==> asked in held))
  }

  predicate RunEnabled(s: System, r: RunId, st: RunStep) {
    && r in s.tasks
    && var p := s.tasks[r].phase;
       match st
       case Begin => p.Spawned?
       case Abort => p.Spawned? || p.Preparing?
       case StartSession => p.Preparing?
       case AskApproval => p.InSession?
       case Answered(_) => p.InSession?
       case NoteTime => p.InSession?
       case Remediate => p.Noted?
       case Rearm => p.Recording?
       case RecordFailed => p.Noted? || p.Recording?
       case EndSession => p.InSession?
       case ReadStatus => p.CheckingStatus?
       case ReadTimeline => p.CheckingTimeline?
       case Query(asked, active, error) => p.Querying? && Answers(s.held, s.tasks[r].alert.alertname, asked, active, error)
       case Settle(ts) => p.Settling? && p.from <= ts <= s.clock
       case CloseOutFailed => p.CheckingStatus? || p.CheckingTimeline? || p.Querying? || p.Settling?
       case Finish(_) => p.Finishing?
  }

  function Enter(s: System, r: RunId, p: Phase): System
    requires r in s.tasks
  {
    s.(tasks := s.tasks[r := s.tasks[r].(phase := p)])
  }

  function Settled(s: System, r: RunId, db: Tables): System
    requires r in s.tasks
  {
    s.(tasks := s.tasks[r := s.tasks[r].(phase := Finishing, settled := true)], db := db)
  }

  /** The statement a close-out decision performs. */
  function CloseOut(db: Tables, i: IncidentId, d: ClosingDecision, deadline: Time): Tables {
    if d == VerifyIt || d == ResolveIt then MarkVerified(db, i) else EnsureVerifyDeadline(db, i, deadline)
  }

  function RunNext(s: System, r: RunId, st: RunStep): System
    requires RunEnabled(s, r, st)
  {
    var i := s.tasks[r].incident;
    var p := s.tasks[r].phase;
    match st
    case Begin => Enter(s, r, Preparing).(db := SetStatus(s.db, r, Running))
    case Abort => Enter(s, r, Over).(db := SetStatus(s.db, r, Failed))
    case StartSession => Enter(s, r, InSession)
    case AskApproval => s.(db := SetStatus(s.db, r, AwaitingApproval))
    case Answered(approved) => if approved then s.(db := SetStatus(s.db, r, Running)) else s
    case NoteTime => Enter(s, r, Noted(s.clock))
    case Remediate => Enter(s, r, Recording(p.at)).(db := AddRemediation(s.db, i))
    case Rearm =>
      s.(tasks := s.tasks[r := s.tasks[r].(phase := InSession, rearmed := true)],
         db := SetVerifyDeadline(s.db, i, p.at + s.window))
    case RecordFailed => Enter(s, r, InSession)
    case EndSession => Enter(s, r, CheckingStatus)
    case ReadStatus =>
      if i in s.db.incidents && s.db.incidents[i].status == Open then Enter(s, r, CheckingTimeline)
      else Settled(s, r, s.db)
    case ReadTimeline => Enter(s, r, Querying(i in s.db.remediated))
    case Query(_, active, error) =>
      // an error counts as an active alert
      Enter(s, r, Settling(DecideClosing(p.remediated, error || active), s.clock))
        .(quiet := if error || active then s.quiet else s.quiet + {i})
    case Settle(ts) => Settled(s, r, CloseOut(s.db, i, p.decision, ts + s.window))
    case CloseOutFailed => Enter(s, r, Finishing)
    case Finish(ok) => Enter(s, r, Over).(db := SetStatus(s.db, r, if ok then Completed else Failed))
  }

  // -- the watcher --

  /** `todo` lists every due incident once, as the poll query returns them. */
  ghost predicate PollResult(db: Tables, now: Time, todo: seq<Snapshot>) {
    && (forall k :: 0 <= k < |todo| ==>
          && todo[k].id in db.incidents && todo[k].row == db.incidents[todo[k].id] && Due(todo[k].row, now))
    && (forall k, l :: 0 <= k < l < |todo| ==> todo[k].id != todo[l].id)
    && (forall i :: i in db.incidents && Due(db.incidents[i], now) ==> Snapshot(i, db.incidents[i]) in todo)
  }

  ghost predicate WatcherEnabled(s: System, st: WatcherStep) {
    var w := s.watcher;
    match st
    case ReadClock => w.Idle?
    case Poll(todo) => w.ClockRead? && PollResult(s.db, w.now, todo)
    case ReadFeed => w.Polling? && w.todo != []
    case Choose => w.FeedRead? && w.todo != []
    case Load(row) =>
      && w.Chosen? && w.todo != []
      && (match row
          case None => LastSeen(s.db.alerts, w.todo[0].id, "firing") == None
          case Some(n) => NewestFiring(s.db.alerts, w.todo[0].id, n))
    case Bump => w.Loaded? && w.todo != []
    case RearmDeadline(ts) => w.Bumped? && w.todo != [] && w.from <= ts <= s.clock
    case MakeRun(run) => w.Rearmed? && w.todo != [] && run !in s.db.runs
    case LinkReEscalation => w.RunMade? && w.todo != []
    case Skip => !w.Idle? && !w.ClockRead? && w.todo != []
    case EndPoll => w.Polling? && w.todo == []
  }

  ghost function WatcherNext(s: System, st: WatcherStep): System
    requires WatcherEnabled(s, st)
  {
    var w := s.watcher;
    match st
    case ReadClock => s.(watcher := ClockRead(s.clock))
    case Poll(todo) => s.(watcher := Polling(w.now, todo))
    case ReadFeed =>
      var i := w.todo[0].id;
      s.(watcher := FeedRead(w.now, w.todo,
                             Feed(LastSeen(s.db.alerts, i, "firing"), LastSeen(s.db.alerts, i, "resolved"))))
    case Choose =>
      var latest := LatestRunStatus(s.db, s.db.links, w.todo[0].id);
      s.(watcher := if EscalationDue(w.todo[0].row, w.feed, w.now, latest) then Chosen(w.now, w.todo)
                    else Polling(w.now, w.todo[1..]))
    case Load(row) =>
      var alert := if row.Some? then RebuiltEvent(s.db.alerts[row.value].payload) else None;
      s.(watcher := if alert.Some? then Loaded(w.now, w.todo, alert.value) else Polling(w.now, w.todo[1..]))
    case Bump =>
      s.(watcher := Bumped(w.now, w.todo, w.alert, s.clock), db := BumpEscalations(s.db, w.todo[0].id),
         log := s.log + [Escalation(w.todo[0].id, w.now)])
    case RearmDeadline(ts) =>
      s.(watcher := Rearmed(w.now, w.todo, w.alert), db := SetVerifyDeadline(s.db, w.todo[0].id, ts + s.window))
    case MakeRun(run) => s.(watcher := RunMade(w.now, w.todo, w.alert, run), db := CreateRun(s.db, run))
    case LinkReEscalation =>
      var i := w.todo[0].id;
      s.(watcher := Polling(w.now, w.todo[1..]), db := LinkRun(s.db, i, w.run, ReEscalation),
         tasks := s.tasks[w.run := NewTask(i, w.alert)])
    case Skip =>
      s.(watcher := Polling(w.now, w.todo[1..]),
         failed := if w.Bumped? && s.log != [] then s.failed + {|s.log| - 1} else s.failed)
    case EndPoll => s.(watcher := Idle)
  }

  // -- all together --

  ghost predicate Enabled(s: System, e: Event) {
    match e
    case Handle(h, hs) => HandlerEnabled(s, h, hs)
    case Run(r, rs) => RunEnabled(s, r, rs)
    case Watch(ws) => WatcherEnabled(s, ws)
    case Tick(to, _) => s.clock <= to
  }

  ghost function Next(s: System, e: Event): System
    requires Enabled(s, e)
  {
    match e
    case Handle(h, hs) => HandlerNext(s, h, hs)
    case Run(r, rs) => RunNext(s, r, rs)
    case Watch(ws) => WatcherNext(s, ws)
    case Tick(to, held) => s.(clock := to, held := held)
  }

  /** Only a tick moves the clock or changes what Alertmanager holds. */
  lemma KeepsClock(s: System, e: Event)
    requires Enabled(s, e) && !e.Tick?
    ensures Next(s, e).clock == s.clock && Next(s, e).window == s.window && Next(s, e).held == s.held
  {
    hide CloseOut, SetStatus, AddRemediation, SetVerifyDeadline, DecideClosing, CreateIncident, KeyTaken, LinkRun, AttachAlert, RebuiltEvent;
  }

  /** A run of the protocol: the states `ss` visited by the events `es` from an empty database,
      whatever Alertmanager holds. */
  ghost predicate IsRun(window: nat, clock: Time, ss: seq<System>, es: seq<Event>) {
    && |ss| == |es| + 1
    && ss[0] == Init(window, clock, ss[0].held)
    && forall k :: 0 <= k < |es| ==> Enabled(ss[k], es[k]) && ss[k + 1] == Next(ss[k], es[k])
  }
}
