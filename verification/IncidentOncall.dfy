/** One on-call run as the code runs it: its status, the session's approvals and tool calls, the
    close-out that follows whatever the session did, and the last status. Between two statements
    the other actors may have changed the tables, and most statements may raise. */
module IncidentOncall {
  import opened Options
  import opened Ingress
  import opened IncidentTables
  import opened IncidentProtocol
  import opened IncidentInterleaving
  import opened IncidentTraces
  import opened Text
  import Store = IncidentStore
  import Gate = RemediationGate
  import Tools = RemediationTools

  /** The run has come as far as its task says, by steps of its own. */
  ghost predicate ReachedRun(trace: seq<Moment>, r: RunId, t: Task) {
    && trace != [] && Local(trace)
    && Last(trace).event.Run? && Last(trace).event.r == r
    && r in Last(trace).after.tasks && Last(trace).after.tasks[r] == t
  }

  ghost predicate In(before: seq<Moment>, trace: seq<Moment>, window: nat) {
    before != [] && before < trace && Last(trace).after.window == window
  }

  // ---- one step each ----

  lemma RunTakes(before: seq<Moment>, w: World, r: RunId, t: Task, st: RunStep) returns (trace: seq<Moment>)
    requires ReachedRun(before, r, t) && RunEnabled(Found(before, w), r, st)
    ensures In(before, trace, Last(before).after.window) && |trace| == |before| + 1 && Local(trace)
    ensures Last(trace) == Moment(Found(before, w), Run(r, st), RunNext(Found(before, w), r, st))
  {
    KeepsClock(Found(before, w), Run(r, st));
    hide RunEnabled, RunNext, Local;
    trace := Then(before, w, Run(r, st));
    ThenIsLocal(before, w, Run(r, st));
  }

  /** A step that touches the tables by a status write or not at all. */
  lemma TakesStatus(before: seq<Moment>, w: World, r: RunId, t: Task, st: RunStep) returns (trace: seq<Moment>)
    requires ReachedRun(before, r, t)
    requires match st
             case Begin => t.phase.Spawned?
             case Abort => t.phase.Spawned? || t.phase.Preparing?
             case AskApproval => t.phase.InSession?
             case Answered(_) => t.phase.InSession?
             case Finish(_) => t.phase.Finishing?
             case _ => false
    ensures In(before, trace, Last(before).after.window)
    ensures ReachedRun(trace, r, t.(phase := match st
                                             case Begin => Preparing
                                             case AskApproval => InSession
                                             case Answered(_) => InSession
                                             case _ => Over))
    ensures Last(trace).after.db == (match st
                                     case Begin => SetStatus(w.tables, r, Running)
                                     case AskApproval => SetStatus(w.tables, r, AwaitingApproval)
                                     case Answered(approved) => if approved then SetStatus(w.tables, r, Running) else w.tables
                                     case Finish(ok) => SetStatus(w.tables, r, if ok then Completed else Failed)
                                     case _ => SetStatus(w.tables, r, Failed))
    ensures Wrote(trace, w, Last(trace).after.db)
  {
    hide Local, SetStatus;
    trace := RunTakes(before, w, r, t, st);
    assert trace[|trace| - 1] == Last(trace);
  }

  lemma TakesSession(before: seq<Moment>, w: World, r: RunId, t: Task) returns (trace: seq<Moment>)
    requires ReachedRun(before, r, t) && t.phase.Preparing?
    ensures In(before, trace, Last(before).after.window) && ReachedRun(trace, r, t.(phase := InSession))
  {
    hide Local;
    trace := RunTakes(before, w, r, t, StartSession);
  }

  lemma TakesEnd(before: seq<Moment>, w: World, r: RunId, t: Task) returns (trace: seq<Moment>)
    requires ReachedRun(before, r, t) && t.phase.InSession?
    ensures In(before, trace, Last(before).after.window) && ReachedRun(trace, r, t.(phase := CheckingStatus))
  {
    hide Local;
    trace := RunTakes(before, w, r, t, EndSession);
  }

  lemma TakesNote(before: seq<Moment>, w: World, r: RunId, t: Task) returns (trace: seq<Moment>)
    requires ReachedRun(before, r, t) && t.phase.InSession?
    ensures In(before, trace, Last(before).after.window) && ReachedRun(trace, r, t.(phase := Noted(w.clock)))
  {
    hide Local;
    trace := RunTakes(before, w, r, t, NoteTime);
  }

  lemma TakesRemediate(before: seq<Moment>, w: World, r: RunId, t: Task) returns (trace: seq<Moment>)
    requires ReachedRun(before, r, t) && t.phase.Noted?
    ensures In(before, trace, Last(before).after.window) && ReachedRun(trace, r, t.(phase := Recording(t.phase.at)))
    ensures Last(trace).after.db == AddRemediation(w.tables, t.incident)
  {
    hide Local, AddRemediation;
    trace := RunTakes(before, w, r, t, Remediate);
  }

  lemma TakesRearm(before: seq<Moment>, w: World, r: RunId, t: Task) returns (trace: seq<Moment>)
    requires ReachedRun(before, r, t) && t.phase.Recording?
    ensures In(before, trace, Last(before).after.window) && ReachedRun(trace, r, t.(phase := InSession, rearmed := true))
    ensures Last(trace).after.db == SetVerifyDeadline(w.tables, t.incident, t.phase.at + Last(before).after.window)
  {
    hide Local, SetVerifyDeadline;
    trace := RunTakes(before, w, r, t, Rearm);
  }

  lemma TakesRecordFailed(before: seq<Moment>, w: World, r: RunId, t: Task) returns (trace: seq<Moment>)
    requires ReachedRun(before, r, t) && (t.phase.Noted? || t.phase.Recording?)
    ensures In(before, trace, Last(before).after.window) && ReachedRun(trace, r, t.(phase := InSession))
  {
    hide Local;
    trace := RunTakes(before, w, r, t, RecordFailed);
  }

  lemma TakesReadStatus(before: seq<Moment>, w: World, r: RunId, t: Task) returns (trace: seq<Moment>)
    requires ReachedRun(before, r, t) && t.phase.CheckingStatus?
    ensures In(before, trace, Last(before).after.window) && Last(trace).after.db == w.tables
    ensures ReachedRun(trace, r,
                       if t.incident in w.tables.incidents && w.tables.incidents[t.incident].status == Open
                       then t.(phase := CheckingTimeline) else t.(phase := Finishing, settled := true))
  {
    hide Local;
    trace := RunTakes(before, w, r, t, ReadStatus);
  }

  lemma TakesReadTimeline(before: seq<Moment>, w: World, r: RunId, t: Task) returns (trace: seq<Moment>)
    requires ReachedRun(before, r, t) && t.phase.CheckingTimeline?
    ensures In(before, trace, Last(before).after.window) && |trace| == |before| + 1
    ensures ReachedRun(trace, r, t.(phase := Querying(t.incident in w.tables.remediated)))
  {
    hide Local;
    trace := RunTakes(before, w, r, t, ReadTimeline);
  }

  lemma TakesQuery(before: seq<Moment>, w: World, r: RunId, t: Task, asked: string, active: bool, error: bool)
    returns (trace: seq<Moment>)
    requires ReachedRun(before, r, t) && t.phase.Querying? && Answers(w.held, t.alert.alertname, asked, active, error)
    ensures In(before, trace, Last(before).after.window) && Last(trace).event == Run(r, Query(asked, active, error))
    ensures ReachedRun(trace, r, t.(phase := Settling(DecideClosing(t.phase.remediated, error || active), w.clock)))
  {
    hide Local, DecideClosing, Answers;
    trace := RunTakes(before, w, r, t, Query(asked, active, error));
  }

  lemma TakesSettle(before: seq<Moment>, w: World, r: RunId, t: Task, now: Time) returns (trace: seq<Moment>)
    requires ReachedRun(before, r, t) && t.phase.Settling? && t.phase.from <= now <= w.clock
    ensures In(before, trace, Last(before).after.window) && ReachedRun(trace, r, t.(phase := Finishing, settled := true))
    ensures Last(trace).after.db == CloseOut(w.tables, t.incident, t.phase.decision, now + Last(before).after.window)
  {
    hide Local, CloseOut;
    trace := RunTakes(before, w, r, t, Settle(now));
  }

  lemma TakesGiveUp(before: seq<Moment>, w: World, r: RunId, t: Task) returns (trace: seq<Moment>)
    requires ReachedRun(before, r, t)
    requires t.phase.CheckingStatus? || t.phase.CheckingTimeline? || t.phase.Querying? || t.phase.Settling?
    ensures In(before, trace, Last(before).after.window) && ReachedRun(trace, r, t.(phase := Finishing))
    ensures Last(trace).after.db == w.tables
  {
    hide Local;
    trace := RunTakes(before, w, r, t, CloseOutFailed);
  }

  // ---- the close-out ----

  datatype CloseStatement = ReadingStatus | ReadingTimeline | AskingAlertmanager | WritingDecision

  /** The world at each statement, whether the question to Alertmanager fails, and which statement
      raises, if any. */
  datatype CloseScript = CloseScript(
    atStatus: World, atTimeline: World, atQuery: World, atWrite: World,
    error: bool, raises: Option<CloseStatement>)

  /** Closed out: settled unless a statement raised, and settled means resolved or under a deadline. */
  ghost predicate ClosedOut(trace: seq<Moment>, r: RunId, t: Task, raised: bool, db: Tables) {
    && ReachedRun(trace, r, t.(phase := Finishing, settled := !raised)) && Last(trace).after.db == db
    && (!raised && t.incident in db.incidents ==>
          db.incidents[t.incident].status == Resolved || db.incidents[t.incident].deadline.Some?)
  }

  ghost predicate Asks(before: seq<Moment>, trace: seq<Moment>, query: Event) {
    exists k :: |before| <= k < |trace| && trace[k].event == query
  }

  method CloseOutRun(db: Store.Database, i: IncidentId, alert: AlertEvent, window: nat, x: CloseScript,
                     ghost r: RunId, ghost t: Task, ghost before: seq<Moment>)
    returns (raised: bool, ghost trace: seq<Moment>)
    requires t.incident == i && t.alert == alert && t.phase.CheckingStatus? && !t.settled
    requires ReachedRun(before, r, t) && Last(before).after.window == window
    requires x.atQuery.clock <= x.atWrite.clock
    modifies db
    ensures In(before, trace, window) && ClosedOut(trace, r, t, raised, db.View())
    ensures raised ==> x.raises.Some?
  {
    hide ReachedRun;
    Meanwhile(db, x.atStatus.tables);
    raised := x.raises == Some(ReadingStatus);
    if raised {
      trace := TakesGiveUp(before, x.atStatus, r, t);
      return;
    }
    trace := TakesReadStatus(before, x.atStatus, r, t);
    if i in db.incidents && db.incidents[i].status == Open {
      raised, trace := DecideAndWrite(db, i, alert, window, x, r, t.(phase := CheckingTimeline), trace);
    }
  }

  /** The question of a close-out and its answer: a blank name is an error, and an error counts as an
      active alert. */
  function QueryFor(alert: AlertEvent, x: CloseScript): RunStep {
    var name, error := Strip(alert.alertname), x.error || Strip(alert.alertname) == "";
    Query(name, error || name in x.atQuery.held, error)
  }

  method DecideAndWrite(db: Store.Database, i: IncidentId, alert: AlertEvent, window: nat, x: CloseScript,
                        ghost r: RunId, ghost t: Task, ghost before: seq<Moment>)
    returns (raised: bool, ghost trace: seq<Moment>)
    requires t.incident == i && t.alert == alert && t.phase.CheckingTimeline? && !t.settled
    requires ReachedRun(before, r, t) && Last(before).after.window == window
    requires x.atQuery.clock <= x.atWrite.clock
    modifies db
    ensures In(before, trace, window) && ClosedOut(trace, r, t, raised, db.View())
    ensures raised ==> x.raises.Some? && x.raises != Some(ReadingStatus)
    ensures !raised ==> Asks(before, trace, Run(r, QueryFor(alert, x)))
    ensures !raised ==> Store.OnlyRow(x.atWrite.tables.incidents, db.incidents, i)
    ensures !raised && i in db.incidents ==>
      var name, row := Strip(alert.alertname), x.atWrite.tables.incidents[i];
      db.incidents[i] == if name != "" && !x.error && name !in x.atQuery.held then row.(status := Resolved, verified := true)
                         else if row.deadline.Some? then row else row.(deadline := Some(x.atQuery.clock + window))
  {
    hide ReachedRun;
    Meanwhile(db, x.atTimeline.tables);
    raised := x.raises == Some(ReadingTimeline);
    if raised {
      trace := TakesGiveUp(before, x.atTimeline, r, t);
      return;
    }
    var remediated := i in db.remediated;
    trace := TakesReadTimeline(before, x.atTimeline, r, t);
    Meanwhile(db, x.atQuery.tables);
    raised := x.raises == Some(AskingAlertmanager);
    if raised {
      trace := TakesGiveUp(trace, x.atQuery, r, t.(phase := Querying(remediated)));
      return;
    }
    var name := Strip(alert.alertname);
    var error := name == "" || x.error;
    var active := error || name in x.atQuery.held;
    ghost var asked := TakesQuery(trace, x.atQuery, r, t.(phase := Querying(remediated)), name, active, error);
    var decision := DecideClosing(remediated, active);
    raised, trace := WriteDecision(db, i, decision, x.atQuery.clock, window, x, r, t.(phase := Settling(decision, x.atQuery.clock)), asked);
    assert trace[|asked| - 1] == Last(asked);
  }

  lemma SettledIsCovered(t: Tables, i: IncidentId, d: ClosingDecision, deadline: Time)
    ensures var u := CloseOut(t, i, d, deadline);
      i in u.incidents ==> u.incidents[i].status == Resolved || u.incidents[i].deadline.Some?
  {
  }

  method WriteDecision(db: Store.Database, i: IncidentId, decision: ClosingDecision, now: Time, window: nat, x: CloseScript,
                       ghost r: RunId, ghost t: Task, ghost before: seq<Moment>)
    returns (raised: bool, ghost trace: seq<Moment>)
    requires t.incident == i && t.phase == Settling(decision, now) && now <= x.atWrite.clock && !t.settled
    requires ReachedRun(before, r, t) && Last(before).after.window == window
    modifies db
    ensures In(before, trace, window) && ClosedOut(trace, r, t, raised, db.View())
    ensures raised <==> x.raises == Some(WritingDecision)
    ensures !raised ==> db.View() == CloseOut(x.atWrite.tables, i, decision, now + window)
    ensures !raised ==> Store.OnlyRow(x.atWrite.tables.incidents, db.incidents, i)
    ensures !raised && i in db.incidents ==>
      var row := x.atWrite.tables.incidents[i];
      db.incidents[i] == if decision == VerifyIt || decision == ResolveIt then row.(status := Resolved, verified := true)
                         else if row.deadline.Some? then row else row.(deadline := Some(now + window))
  {
    hide ReachedRun;
    Meanwhile(db, x.atWrite.tables);
    raised := x.raises == Some(WritingDecision);
    if raised {
      trace := TakesGiveUp(before, x.atWrite, r, t);
      return;
    }
    if decision == VerifyIt || decision == ResolveIt {
      db.MarkVerified(i);
    } else {
      db.EnsureVerifyDeadline(i, now + window);
    }
    trace := TakesSettle(before, x.atWrite, r, t, now);
    SettledIsCovered(x.atWrite.tables, i, decision, now + window);
  }

  // ---- the session ----

  /** What the agent does next: ask the operator, use a remediation tool, or crash. After a mutation
      the code notes the time, records the remediation and moves the deadline; `stops` counts how
      many of these three succeed before one raises. */
  datatype Turn =
    | Request(approval: Gate.ApprovalId, prompt: string, id: string, atAsk: World, atAnswer: World, approved: bool)
    | Use(call: Gate.Call, dryRun: bool, quoted: Option<Gate.ApprovalId>, diff: string, nonce: string, patches: seq<bool>,
          atNote: World, atRow: World, atRearm: World, stops: nat)
    | Crash

  /** The links a turn finds name no other incident for the run. */
  predicate Possible(turn: Turn, i: IncidentId, r: RunId) {
    turn.Use? ==>
      && |turn.patches| >= Gate.PatchCount(turn.call)
      && forall k :: 0 <= k < |turn.atNote.tables.links| && turn.atNote.tables.links[k].run == r ==>
           turn.atNote.tables.links[k].incident == i
  }

  function GateStep(turn: Turn, r: RunId): Gate.Event
    requires turn.Use?
  {
    if turn.dryRun then Gate.DryRun(r, turn.call, turn.diff, turn.nonce) else Gate.Execute(r, turn.call, turn.quoted, turn.patches)
  }

  /** The steps a turn takes at the gate: a request the server refuses is never decided. */
  ghost function AfterTurn(fp: Gate.Call -> string, g: Gate.Gate, turn: Turn, r: RunId): Gate.Gate {
    match turn
    case Request(approval, prompt, id, _, _, approved) =>
      var asked := Gate.Step(fp, g, Gate.Ask(r, approval, prompt, id));
      if Gate.Summary(g, r, prompt, id).None? then asked else Gate.Step(fp, asked, Gate.Decide(r, approval, approved))
    case Use(_, _, _, _, _, _, _, _, _, _) => Gate.Step(fp, g, GateStep(turn, r))
    case Crash => g
  }

  ghost function AfterTurns(fp: Gate.Call -> string, g: Gate.Gate, turns: seq<Turn>, r: RunId): Gate.Gate {
    if turns == [] then g else AfterTurn(fp, AfterTurns(fp, g, turns[..|turns| - 1], r), turns[|turns| - 1], r)
  }

  /** The session goes on: its task is in the session again, and only a remediation that was
      recorded may have moved the deadline. */
  ghost predicate GoesOn(before: seq<Moment>, trace: seq<Moment>, r: RunId, t: Task, rearmed: bool, window: nat) {
    before <= trace && ReachedRun(trace, r, t.(rearmed := t.rearmed || rearmed)) && Last(trace).after.window == window
  }

  function WithStatus(t: Tables, r: RunId, status: RunStatus): Tables {
    t.(runs := if r in t.runs then t.runs[r := status] else t.runs)
  }

  method AskOperator(db: Store.Database, tools: Tools.ToolServer, ghost fp: Gate.Call -> string, turn: Turn, r: RunId,
                     ghost t: Task, ghost window: nat, ghost before: seq<Moment>)
    returns (ghost trace: seq<Moment>)
    requires turn.Request? && t.phase.InSession? && ReachedRun(before, r, t) && Last(before).after.window == window && tools.Valid()
    modifies db, tools`approvals
    ensures GoesOn(before, trace, r, t, false, window)
    ensures trace == before <==> Gate.Summary(old(tools.View()), r, turn.prompt, turn.id).None?
    ensures tools.View() == AfterTurn(fp, old(tools.View()), turn, r)
    ensures trace == before <==> turn.id != "" && !old(tools.Pending(r, turn.id))
    ensures trace == before ==> tools.approvals == old(tools.approvals)
    ensures trace != before ==>
      && Wrote(trace, turn.atAsk, WithStatus(turn.atAsk.tables, r, AwaitingApproval))
      && db.View() == if turn.approved then WithStatus(turn.atAnswer.tables, r, Running) else turn.atAnswer.tables
    ensures trace != before && turn.approval !in old(tools.approvals) ==>
      && tools.approvals.Keys == old(tools.approvals).Keys + {turn.approval}
      && (forall a :: a in old(tools.approvals) ==> tools.approvals[a] == old(tools.approvals)[a])
      && tools.approvals[turn.approval].run == r && tools.approvals[turn.approval].decision == Some(turn.approved)
  {
    hide ReachedRun, Gate.Step, Gate.Summary, Wrote;
    trace := before;
    ghost var g, ask, decide := tools.View(), Gate.Ask(r, turn.approval, turn.prompt, turn.id), Gate.Decide(r, turn.approval, turn.approved);
    var saved := tools.RequestApproval(r, turn.approval, turn.prompt, turn.id);
    assert tools.View() == Gate.Step(fp, g, ask);
    if !saved {
      return;
    }
    Meanwhile(db, turn.atAsk.tables);
    db.SetStatus(r, AwaitingApproval);
    trace := TakesStatus(before, turn.atAsk, r, t, AskApproval);
    ghost var asked := trace;
    assert tools.View() == Gate.Step(fp, g, ask);
    var _ := tools.DecideApproval(r, turn.approval, turn.approved);
    assert tools.View() == Gate.Step(fp, Gate.Step(fp, g, ask), decide);
    Meanwhile(db, turn.atAnswer.tables);
    if turn.approved {
      db.SetStatus(r, Running);
    }
    trace := TakesStatus(trace, turn.atAnswer, r, t, Answered(turn.approved));
    WroteStays(asked, trace, turn.atAsk, WithStatus(turn.atAsk.tables, r, AwaitingApproval));
  }

  /** After a mutation: the incident of the run, the clock, the timeline row, the deadline; an
      exception anywhere ends the recording and not the run. */
  method RecordRemediation(db: Store.Database, turn: Turn, r: RunId, window: nat, ghost t: Task, ghost before: seq<Moment>)
    returns (rearmed: bool, ghost trace: seq<Moment>)
    requires turn.Use? && Possible(turn, t.incident, r) && t.phase.InSession?
    requires ReachedRun(before, r, t) && Last(before).after.window == window
    modifies db
    ensures GoesOn(before, trace, r, t, rearmed, window)
    ensures rearmed ==> db.View() == SetVerifyDeadline(turn.atRearm.tables, t.incident, turn.atNote.clock + window)
    ensures rearmed <==> turn.stops >= 3 && exists k :: 0 <= k < |turn.atNote.tables.links| && turn.atNote.tables.links[k].run == r
  {
    hide ReachedRun;
    rearmed, trace := false, before;
    Meanwhile(db, turn.atNote.tables);
    if turn.stops == 0 {
      return;
    }
    var found := db.IncidentForRun(r);
    if found.None? {
      return;
    }
    var now := turn.atNote.clock;
    trace := TakesNote(before, turn.atNote, r, t);
    Meanwhile(db, turn.atRow.tables);
    if turn.stops == 1 {
      trace := TakesRecordFailed(trace, turn.atRow, r, t.(phase := Noted(now)));
      return;
    }
    db.AddRemediation(found.value);
    trace := TakesRemediate(trace, turn.atRow, r, t.(phase := Noted(now)));
    Meanwhile(db, turn.atRearm.tables);
    if turn.stops == 2 {
      trace := TakesRecordFailed(trace, turn.atRearm, r, t.(phase := Recording(now)));
      return;
    }
    db.SetVerifyDeadline(found.value, now + window);
    trace := TakesRearm(trace, turn.atRearm, r, t.(phase := Recording(now)));
    rearmed := true;
  }

  /** A remediation is recorded only after an execute that passed the gate and mutated the cluster. */
  method UseTool(db: Store.Database, tools: Tools.ToolServer, fp: Gate.Call -> string, turn: Turn, r: RunId, window: nat,
                 ghost t: Task, ghost before: seq<Moment>)
    returns (rearmed: bool, ghost trace: seq<Moment>)
    requires turn.Use? && Possible(turn, t.incident, r) && t.phase.InSession? && tools.Valid()
    requires ReachedRun(before, r, t) && Last(before).after.window == window
    modifies db, tools`stash
    ensures GoesOn(before, trace, r, t, rearmed, window) && tools.Valid()
    ensures tools.View() == Gate.Step(fp, old(tools.View()), GateStep(turn, r))
    ensures trace != before || rearmed ==> Gate.Succeeds(fp, old(tools.View()), GateStep(turn, r))
    ensures rearmed <==>
      && !turn.dryRun && Gate.Admissible(turn.call) && old(tools.Clears(r, turn.quoted, fp(turn.call))) && Tools.Patched(turn.call, turn.patches)
      && turn.stops >= 3 && exists k :: 0 <= k < |turn.atNote.tables.links| && turn.atNote.tables.links[k].run == r
  {
    hide ReachedRun;
    rearmed, trace := false, before;
    var result := tools.RunTool(fp, r, turn.call, turn.dryRun, turn.quoted, turn.diff, turn.nonce, turn.patches);
    if result == Tools.Executed {
      rearmed, trace := RecordRemediation(db, turn, r, window, t, before);
    }
  }

  /** One turn that does not crash. */
  method TakeTurn(db: Store.Database, tools: Tools.ToolServer, fp: Gate.Call -> string, turn: Turn, r: RunId, window: nat,
                  ghost t: Task, ghost before: seq<Moment>)
    returns (rearmed: bool, ghost trace: seq<Moment>)
    requires !turn.Crash? && Possible(turn, t.incident, r) && t.phase.InSession? && tools.Valid()
    requires ReachedRun(before, r, t) && Last(before).after.window == window
    modifies db, tools
    ensures GoesOn(before, trace, r, t, rearmed, window) && tools.Valid()
    ensures tools.View() == AfterTurn(fp, old(tools.View()), turn, r)
  {
    hide ReachedRun, Gate.Step;
    if turn.Request? {
      trace := AskOperator(db, tools, fp, turn, r, t, window, before);
      rearmed := false;
    } else {
      rearmed, trace := UseTool(db, tools, fp, turn, r, window, t, before);
    }
  }

  lemma TurnsSnoc(fp: Gate.Call -> string, g: Gate.Gate, turns: seq<Turn>, k: nat, r: RunId)
    requires k < |turns|
    ensures AfterTurns(fp, g, turns[..k + 1], r) == AfterTurn(fp, AfterTurns(fp, g, turns[..k], r), turns[k], r)
  {
    assert turns[..k + 1][..k] == turns[..k];
  }

  /** The session: its turns in order, up to the first that crashes. */
  method RunSession(db: Store.Database, tools: Tools.ToolServer, fp: Gate.Call -> string, turns: seq<Turn>, r: RunId, window: nat,
                    ghost t: Task, ghost before: seq<Moment>)
    returns (ran: nat, rearmed: bool, ghost trace: seq<Moment>)
    requires forall k :: 0 <= k < |turns| ==> Possible(turns[k], t.incident, r)
    requires t.phase.InSession? && tools.Valid() && ReachedRun(before, r, t) && Last(before).after.window == window
    modifies db, tools
    ensures GoesOn(before, trace, r, t, rearmed, window)
    ensures tools.Valid() && Stops(turns, ran) && tools.View() == AfterTurns(fp, old(tools.View()), turns[..ran], r)
  {
    hide ReachedRun, AfterTurn, Possible;
    ran, rearmed, trace := 0, false, before;
    while ran < |turns| && !turns[ran].Crash?
      invariant ran <= |turns| && forall k :: 0 <= k < ran ==> !turns[k].Crash?
      invariant GoesOn(before, trace, r, t, rearmed, window)
      invariant tools.Valid() && tools.View() == AfterTurns(fp, old(tools.View()), turns[..ran], r)
    {
      TurnsSnoc(fp, old(tools.View()), turns, ran, r);
      var moved;
      moved, trace := TakeTurn(db, tools, fp, turns[ran], r, window, t.(rearmed := t.rearmed || rearmed), trace);
      ran, rearmed := ran + 1, rearmed || moved;
    }
  }

  /** The session stops at its first crash, or at its end. */
  ghost predicate Stops(turns: seq<Turn>, ran: nat) {
    && ran <= |turns| && (forall k :: 0 <= k < ran ==> !turns[k].Crash?)
    && (ran < |turns| ==> turns[ran].Crash?)
  }

  // ---- the whole run ----

  /** What each part of the run finds, and whether the part before the session raises. */
  datatype RunScript = RunScript(
    atBegin: World, beginRaises: bool, atSession: World, prechecksRaise: bool,
    turns: seq<Turn>, atEnd: World, close: CloseScript, atFinish: World)

  predicate PossibleRun(x: RunScript, i: IncidentId, r: RunId) {
    && (forall k :: 0 <= k < |x.turns| ==> Possible(x.turns[k], i, r))
    && x.close.atQuery.clock <= x.close.atWrite.clock
  }

  lemma Starts(s0: System, w: World, r: RunId, i: IncidentId, alert: AlertEvent, st: RunStep) returns (trace: seq<Moment>)
    requires r in s0.tasks && s0.tasks[r] == NewTask(i, alert) && (st.Begin? || st.Abort?)
    ensures trace == [Moment(s0.(db := w.tables, clock := w.clock, held := w.held), Run(r, st), RunNext(s0.(db := w.tables, clock := w.clock, held := w.held), r, st))]
    ensures ReachedRun(trace, r, NewTask(i, alert).(phase := if st.Begin? then Preparing else Over))
    ensures Last(trace).after.window == s0.window
    ensures Last(trace).after.db == SetStatus(w.tables, r, if st.Begin? then Running else Failed)
  {
    hide SetStatus;
    var s := s0.(db := w.tables, clock := w.clock, held := w.held);
    trace := [Moment(s, Run(r, st), RunNext(s, r, st))];
  }

  /** Over: the last status is written, and it is an ended one. */
  ghost predicate IsOver(trace: seq<Moment>, r: RunId, completed: bool, db: Tables) {
    && trace != [] && Local(trace) && Last(trace).after.db == db
    && r in Last(trace).after.tasks && Last(trace).after.tasks[r].phase.Over?
    && (r in db.runs ==> db.runs[r] == if completed then Completed else Failed)
  }

  /** The run: nothing it does is outside the protocol; it completes exactly when nothing raised
      before its session and the session did not crash; once in its session it is closed out and
      its dry-runs are gone whatever happened there. */
  method RunOncall(db: Store.Database, tools: Tools.ToolServer, fp: Gate.Call -> string, i: IncidentId, alert: AlertEvent, window: nat,
                   x: RunScript, r: RunId, ghost s0: System)
    returns (completed: bool, ran: nat, ghost trace: seq<Moment>)
    requires r in s0.tasks && s0.tasks[r] == NewTask(i, alert) && s0.window == window
    requires PossibleRun(x, i, r) && tools.Valid()
    modifies db, tools
    ensures IsOver(trace, r, completed, db.View())
    ensures completed <==> !x.beginRaises && !x.prechecksRaise && Crash !in x.turns
    ensures x.beginRaises || x.prechecksRaise ==> tools.View() == old(tools.View())
    ensures !x.beginRaises && !x.prechecksRaise ==>
      && Stops(x.turns, ran) && tools.View() == Gate.Step(fp, AfterTurns(fp, old(tools.View()), x.turns[..ran], r), Gate.Clear(r))
      && Gate.Slots(tools.View(), r) == []
      && (x.close.raises == None ==> Last(trace).after.tasks[r].settled)
  {
    hide ReachedRun, Local, Stops, AfterTurns;
    completed, ran := false, 0;
    Meanwhile(db, x.atBegin.tables);
    if x.beginRaises {
      db.SetStatus(r, Failed);
      trace := Starts(s0, x.atBegin, r, i, alert, Abort);
      Ends(trace, r, NewTask(i, alert).(phase := Over), false, x.atBegin.tables);
      return;
    }
    db.SetStatus(r, Running);
    trace := Starts(s0, x.atBegin, r, i, alert, Begin);
    Meanwhile(db, x.atSession.tables);
    if x.prechecksRaise {
      db.SetStatus(r, Failed);
      trace := TakesStatus(trace, x.atSession, r, NewTask(i, alert).(phase := Preparing), Abort);
      Ends(trace, r, NewTask(i, alert).(phase := Over), false, x.atSession.tables);
      return;
    }
    trace := TakesSession(trace, x.atSession, r, NewTask(i, alert).(phase := Preparing));
    completed, ran, trace := RunFromSession(db, tools, fp, i, alert, window, x, r, NewTask(i, alert).(phase := InSession), trace);
  }

  /** The session and the code that always runs after it. */
  method RunFromSession(db: Store.Database, tools: Tools.ToolServer, fp: Gate.Call -> string, i: IncidentId, alert: AlertEvent, window: nat,
                        x: RunScript, r: RunId, ghost t: Task, ghost before: seq<Moment>)
    returns (completed: bool, ran: nat, ghost trace: seq<Moment>)
    requires PossibleRun(x, i, r) && tools.Valid()
    requires t.incident == i && t.alert == alert && t.phase.InSession? && !t.settled
    requires ReachedRun(before, r, t) && Last(before).after.window == window
    modifies db, tools
    ensures before < trace && IsOver(trace, r, completed, db.View()) && (completed <==> Crash !in x.turns)
    ensures Stops(x.turns, ran) && tools.View() == Gate.Step(fp, AfterTurns(fp, old(tools.View()), x.turns[..ran], r), Gate.Clear(r))
    ensures Gate.Slots(tools.View(), r) == []
    ensures x.close.raises == None ==> Last(trace).after.tasks[r].settled
  {
    hide ReachedRun, AfterTurns, Wrote, SetStatus, IsOver;
    var rearmed, raised;
    ran, rearmed, trace := RunSession(db, tools, fp, x.turns, r, window, t, before);
    completed := ran == |x.turns|;
    ghost var u := t.(rearmed := t.rearmed || rearmed);
    trace := TakesEnd(trace, x.atEnd, r, u);
    raised, trace := CloseOutRun(db, i, alert, window, x.close, r, u.(phase := CheckingStatus), trace);
    tools.ClearRunStash(r);
    Meanwhile(db, x.atFinish.tables);
    db.SetStatus(r, if completed then Completed else Failed);
    trace := TakesStatus(trace, x.atFinish, r, u.(phase := Finishing, settled := !raised), Finish(completed));
    Ends(trace, r, u.(phase := Over, settled := !raised), completed, x.atFinish.tables);
  }

  lemma Ends(trace: seq<Moment>, r: RunId, t: Task, completed: bool, db: Tables)
    requires ReachedRun(trace, r, t) && t.phase.Over?
    requires Last(trace).after.db == SetStatus(db, r, if completed then Completed else Failed)
    ensures IsOver(trace, r, completed, Last(trace).after.db) && Last(trace).after.tasks[r] == t
  {
  }
}
