/** One webhook request as the code runs it, one statement after the other over the shared tables.
    Between two statements the other actors may have changed anything, and any statement may raise;
    each method is proved to take only steps of the incident protocol. */
module IncidentWebhook {
  import opened Options
  import opened Ingress
  import opened IncidentTables
  import opened IncidentProtocol
  import opened IncidentInterleaving
  import opened IncidentTraces
  import Store = IncidentStore

  datatype Outcome =
    | Ignores
    | Spawns(incident: IncidentId, run: RunId)
    | Attaches(incident: IncidentId)
    | Closes(incident: IncidentId)
    | Fails

  datatype Statement = LookingUp | Inserting | LookingAgain | AttachingRow | ClosingRow | CreatingRun | LinkingRun

  /** Fresh ids, the world as each statement finds it, and which of them raises, if any. */
  datatype Script = Script(
    id: IncidentId, run: RunId,
    atLookUp: World, atInsert: World, atLookAgain: World, atAttach: World, atClose: World, atRun: World, atLink: World,
    raises: Option<Statement>)

  predicate Admissible(x: Script) {
    x.id !in x.atInsert.tables.incidents && x.run !in x.atRun.tables.runs
  }

  /** The handler has come as far as `pc`, by steps of its own. */
  ghost predicate HandlerAt(trace: seq<Moment>, h: nat, pc: Handler) {
    && trace != [] && Local(trace)
    && Last(trace).event.Handle? && Last(trace).event.h == h
    && h in Last(trace).after.handlers && Last(trace).after.handlers[h] == pc
  }

  ghost predicate Stood(m: Moment, h: nat, pc: Handler) {
    h in m.before.handlers && m.before.handlers[h] == pc
  }

  /** The handler is through, the tables are as its last step left them, and the answer for the
      event is the one that step stands for. */
  ghost predicate Answered(trace: seq<Moment>, h: nat, ev: AlertEvent, outcome: Outcome, db: Tables) {
    && trace != [] && Local(trace)
    && h !in Last(trace).after.handlers && Last(trace).after.db == db
    && match outcome
       case Spawns(i, r) => Last(trace).event == Handle(h, LinkInvestigation) && Stood(Last(trace), h, Linking(ev, i, r))
       case Attaches(i) => Last(trace).event == Handle(h, AttachRow) && Stood(Last(trace), h, Attaching(ev, i, Stop))
       case Closes(i) => Last(trace).event == Handle(h, CloseRow) && Stood(Last(trace), h, Closing(ev, i))
       case Ignores => Last(trace).event.Handle? && (Last(trace).event.hs.LookUp? || Last(trace).event.hs.LookAgain?)
       case Fails => Last(trace).event == Handle(h, Abandon)
  }

  // ---- what the answers mean on the tables ----

  function WithAlert(w: World, ev: AlertEvent, i: IncidentId): Tables {
    w.tables.(alerts := w.tables.alerts + [AlertRow(i, ev.status, ev.alertname, ev.workload, w.clock, ev.raw)])
  }

  ghost predicate Free(t: Tables, key: string) {
    forall i :: i in t.incidents && t.incidents[i].status == Open ==> t.incidents[i].key != key
  }

  ghost predicate Holds(t: Tables, key: string, i: IncidentId) {
    i in t.incidents && t.incidents[i].status == Open && t.incidents[i].key == key
  }

  /** The end of an alert: with an open incident of the key its row is written and it is resolved;
      without one nothing happens. */
  ghost predicate EndsAlert(ev: AlertEvent, x: Script, outcome: Outcome, trace: seq<Moment>, db: Tables) {
    var key := ev.alertname + "/" + ev.workload;
    if Free(x.atLookUp.tables, key) then outcome == Ignores && db == x.atLookUp.tables
    else
      && outcome.Closes? && Holds(x.atLookUp.tables, key, outcome.incident)
      && Wrote(trace, x.atAttach, WithAlert(x.atAttach, ev, outcome.incident))
      && db == x.atClose.tables.(incidents := db.incidents)
      && db.incidents.Keys == x.atClose.tables.incidents.Keys
      && (forall i :: i in db.incidents ==>
            db.incidents[i] == if i == outcome.incident then x.atClose.tables.incidents[i].(status := Resolved)
                               else x.atClose.tables.incidents[i])
  }

  function InsertedFor(ev: AlertEvent, x: Script): Tables {
    x.atInsert.tables.(incidents :=
      x.atInsert.tables.incidents[x.id := Incident(ev.alertname + "/" + ev.workload, Open, None, 0, false)])
  }

  /** The new incident is on record under the key, then its alert, its run and, last, the link. */
  ghost predicate Investigated(ev: AlertEvent, x: Script, outcome: Outcome, trace: seq<Moment>, db: Tables) {
    && outcome == Spawns(x.id, x.run)
    && Wrote(trace, x.atInsert, InsertedFor(ev, x))
    && Wrote(trace, x.atAttach, WithAlert(x.atAttach, ev, x.id))
    && Wrote(trace, x.atRun, x.atRun.tables.(runs := x.atRun.tables.runs[x.run := Queued]))
    && db == x.atLink.tables.(links := db.links)
    && db.links == if exists k :: 0 <= k < |x.atLink.tables.links| && x.atLink.tables.links[k].incident == x.id
                                  && x.atLink.tables.links[k].run == x.run
                   then x.atLink.tables.links else x.atLink.tables.links + [Link(x.id, x.run, Investigation)]
  }

  /** A lost insert: the alert goes to the incident that won, or nowhere if that one is closed again. */
  ghost predicate WentToWinner(ev: AlertEvent, x: Script, outcome: Outcome, db: Tables) {
    var key := ev.alertname + "/" + ev.workload;
    if Free(x.atLookAgain.tables, key) then outcome == Ignores && db == x.atLookAgain.tables
    else outcome.Attaches? && Holds(x.atLookAgain.tables, key, outcome.incident) && db == WithAlert(x.atAttach, ev, outcome.incident)
  }

  /** An alert that fires: it goes to the open incident of its key, or a new one is investigated. */
  ghost predicate StartsAlert(ev: AlertEvent, x: Script, outcome: Outcome, trace: seq<Moment>, db: Tables) {
    var key := ev.alertname + "/" + ev.workload;
    if !Free(x.atLookUp.tables, key) then
      outcome.Attaches? && Holds(x.atLookUp.tables, key, outcome.incident) && db == WithAlert(x.atAttach, ev, outcome.incident)
    else if Free(x.atInsert.tables, key) then
      Investigated(ev, x, outcome, trace, db)
    else
      WentToWinner(ev, x, outcome, db)
  }

  ghost predicate AnswersRightly(ev: AlertEvent, x: Script, outcome: Outcome, trace: seq<Moment>, db: Tables) {
    if ev.status == "firing" then StartsAlert(ev, x, outcome, trace, db) else EndsAlert(ev, x, outcome, trace, db)
  }

  /** What a lookup answers is an open incident of the key, or that the key is free. */
  lemma LookedUp(t: Tables, ev: AlertEvent, found: Option<IncidentId>)
    requires Finds(t, Key(ev), found)
    ensures found.None? <==> Free(t, ev.alertname + "/" + ev.workload)
    ensures found.Some? ==> Holds(t, ev.alertname + "/" + ev.workload, found.value)
  {
    if found.None? {
      forall i | i in t.incidents && t.incidents[i].status == Open ensures t.incidents[i].key != ev.alertname + "/" + ev.workload {
        assert OpenWithKey(t, i, Key(ev)) <==> t.incidents[i].key == Key(ev);
      }
    }
  }

  // ---- one step each ----

  /** Any step a handler's counter enables extends its trace. */
  lemma Takes(before: seq<Moment>, w: World, h: nat, pc: Handler, st: HandlerStep) returns (trace: seq<Moment>)
    requires HandlerAt(before, h, pc) && !st.Arrive? && HandlerEnabled(Found(before, w), h, st)
    ensures before < trace && Local(trace) && Stood(Last(trace), h, pc)
    ensures Last(trace) == Moment(Found(before, w), Handle(h, st), HandlerNext(Found(before, w), h, st))
  {
    hide HandlerEnabled, HandlerNext, Local;
    trace := Then(before, w, Handle(h, st));
    ThenIsLocal(before, w, Handle(h, st));
  }

  lemma Raises(before: seq<Moment>, w: World, h: nat, ev: AlertEvent, pc: Handler) returns (trace: seq<Moment>)
    requires HandlerAt(before, h, pc)
    ensures before < trace && Answered(trace, h, ev, Fails, w.tables)
  {
    hide Local;
    trace := Takes(before, w, h, pc, Abandon);
  }

  lemma TakesLookUp(before: seq<Moment>, w: World, h: nat, ev: AlertEvent, found: Option<IncidentId>) returns (trace: seq<Moment>)
    requires HandlerAt(before, h, Looking(ev)) && Finds(w.tables, Key(ev), found)
    ensures before < trace && Last(trace).after.db == w.tables
    ensures match IngressDecision(ev.status, found.Some?)
            case Spawn => HandlerAt(trace, h, Handler.Inserting(ev))
            case Attach => HandlerAt(trace, h, Attaching(ev, found.value, Stop))
            case Close => HandlerAt(trace, h, Attaching(ev, found.value, ThenClose))
            case Ignore => Answered(trace, h, ev, Ignores, w.tables)
  {
    hide Local, Finds;
    trace := Takes(before, w, h, Looking(ev), LookUp(found));
  }

  lemma TakesInsert(before: seq<Moment>, w: World, h: nat, ev: AlertEvent, id: IncidentId) returns (trace: seq<Moment>)
    requires HandlerAt(before, h, Handler.Inserting(ev)) && id !in w.tables.incidents
    ensures before < trace
    ensures HandlerAt(trace, h, if KeyTaken(w.tables, Key(ev)) then Relooking(ev) else Attaching(ev, id, ThenSpawn))
    ensures Wrote(trace, w, IncidentTables.CreateIncident(w.tables, id, Key(ev)))
  {
    assert KeyTaken(w.tables, Key(ev)) ==> IncidentTables.CreateIncident(w.tables, id, Key(ev)) == w.tables;
    hide Local, KeyTaken, CreateIncident;
    trace := Takes(before, w, h, Handler.Inserting(ev), Insert(id));
    assert trace[|trace| - 1] == Last(trace);
  }

  lemma TakesLookAgain(before: seq<Moment>, w: World, h: nat, ev: AlertEvent, found: Option<IncidentId>) returns (trace: seq<Moment>)
    requires HandlerAt(before, h, Relooking(ev)) && Finds(w.tables, Key(ev), found)
    ensures before < trace
    ensures if found.None? then Answered(trace, h, ev, Ignores, w.tables) else HandlerAt(trace, h, Attaching(ev, found.value, Stop))
  {
    hide Local, Finds;
    trace := Takes(before, w, h, Relooking(ev), LookAgain(found));
  }

  lemma TakesAttach(before: seq<Moment>, w: World, h: nat, ev: AlertEvent, i: IncidentId, next: After) returns (trace: seq<Moment>)
    requires HandlerAt(before, h, Attaching(ev, i, next))
    ensures before < trace && Wrote(trace, w, AttachAlert(w.tables, AlertRowOf(ev, i, w.clock)))
    ensures match next
            case Stop => Answered(trace, h, ev, Attaches(i), AttachAlert(w.tables, AlertRowOf(ev, i, w.clock)))
            case ThenClose => HandlerAt(trace, h, Closing(ev, i))
            case ThenSpawn => HandlerAt(trace, h, Queueing(ev, i))
  {
    hide Local, AttachAlert, AlertRowOf;
    trace := Takes(before, w, h, Attaching(ev, i, next), AttachRow);
    assert trace[|trace| - 1] == Last(trace);
  }

  lemma TakesClose(before: seq<Moment>, w: World, h: nat, ev: AlertEvent, i: IncidentId) returns (trace: seq<Moment>)
    requires HandlerAt(before, h, Closing(ev, i))
    ensures before < trace && Answered(trace, h, ev, Closes(i), IncidentTables.CloseIncident(w.tables, i))
  {
    hide Local, IncidentTables.CloseIncident;
    trace := Takes(before, w, h, Closing(ev, i), CloseRow);
  }

  lemma TakesRun(before: seq<Moment>, w: World, h: nat, ev: AlertEvent, i: IncidentId, r: RunId) returns (trace: seq<Moment>)
    requires HandlerAt(before, h, Queueing(ev, i)) && r !in w.tables.runs
    ensures before < trace && HandlerAt(trace, h, Linking(ev, i, r)) && Wrote(trace, w, CreateRun(w.tables, r))
  {
    hide Local, CreateRun;
    trace := Takes(before, w, h, Queueing(ev, i), QueueRun(r));
    assert trace[|trace| - 1] == Last(trace);
  }

  lemma TakesLink(before: seq<Moment>, w: World, h: nat, ev: AlertEvent, i: IncidentId, r: RunId) returns (trace: seq<Moment>)
    requires HandlerAt(before, h, Linking(ev, i, r))
    ensures before < trace && Answered(trace, h, ev, Spawns(i, r), LinkRun(w.tables, i, r, Investigation))
  {
    hide Local, LinkRun;
    trace := Takes(before, w, h, Linking(ev, i, r), LinkInvestigation);
  }

  // ---- one event of a request ----

  /** Attaching the row; true when the statement raised. */
  method Attach(db: Store.Database, ev: AlertEvent, i: IncidentId, x: Script, ghost h: nat, ghost next: After,
                ghost before: seq<Moment>)
    returns (raised: bool, ghost trace: seq<Moment>)
    requires HandlerAt(before, h, Attaching(ev, i, next))
    modifies db
    ensures before < trace && (raised <==> x.raises == Some(AttachingRow))
    ensures !raised ==> Wrote(trace, x.atAttach, WithAlert(x.atAttach, ev, i)) && db.View() == WithAlert(x.atAttach, ev, i)
    ensures raised ==> Answered(trace, h, ev, Fails, db.View())
    ensures !raised && next == Stop ==> Answered(trace, h, ev, Attaches(i), db.View())
    ensures !raised && next == ThenClose ==> HandlerAt(trace, h, Closing(ev, i))
    ensures !raised && next == ThenSpawn ==> HandlerAt(trace, h, Queueing(ev, i))
  {
    hide HandlerAt, Answered;
    Meanwhile(db, x.atAttach.tables);
    raised := x.raises == Some(AttachingRow);
    if raised {
      trace := Raises(before, x.atAttach, h, ev, Attaching(ev, i, next));
      return;
    }
    db.AttachAlert(AlertRowOf(ev, i, x.atAttach.clock));
    trace := TakesAttach(before, x.atAttach, h, ev, i, next);
  }

  /** The insert guarded by the unique index, then the row, the run and the link; or, after a lost
      race, the row under the incident that won it. */
  method SpawnIncident(db: Store.Database, ev: AlertEvent, x: Script, ghost h: nat, ghost before: seq<Moment>)
    returns (outcome: Outcome, ghost trace: seq<Moment>)
    requires Admissible(x) && HandlerAt(before, h, Handler.Inserting(ev))
    modifies db
    ensures before < trace && Answered(trace, h, ev, outcome, db.View())
    ensures outcome.Fails? ==> x.raises.Some?
    ensures x.raises.None? && Free(x.atInsert.tables, ev.alertname + "/" + ev.workload) ==> Investigated(ev, x, outcome, trace, db.View())
    ensures x.raises.None? && !Free(x.atInsert.tables, ev.alertname + "/" + ev.workload) ==> WentToWinner(ev, x, outcome, db.View())
  {
    hide HandlerAt, Answered;
    Meanwhile(db, x.atInsert.tables);
    if x.raises == Some(Statement.Inserting) {
      trace := Raises(before, x.atInsert, h, ev, Handler.Inserting(ev));
      outcome := Fails;
      return;
    }
    InsertWon(x.atInsert.tables, ev, x.id);
    var created := db.CreateIncident(x.id, Key(ev));
    trace := TakesInsert(before, x.atInsert, h, ev, x.id);
    if created {
      outcome, trace := Investigate(db, ev, x, h, trace);
    } else {
      outcome, trace := LostRace(db, ev, x, h, trace);
    }
  }

  lemma InsertWon(t: Tables, ev: AlertEvent, id: IncidentId)
    ensures KeyTaken(t, Key(ev)) <==> !Free(t, ev.alertname + "/" + ev.workload)
    ensures !KeyTaken(t, Key(ev)) ==>
              CreateIncident(t, id, Key(ev)) ==
              t.(incidents := t.incidents[id := Incident(ev.alertname + "/" + ev.workload, Open, None, 0, false)])
  {
    if KeyTaken(t, Key(ev)) {
      var i :| OpenWithKey(t, i, Key(ev));
    } else {
      forall i | i in t.incidents && t.incidents[i].status == Open ensures t.incidents[i].key != Key(ev) {
        assert !OpenWithKey(t, i, Key(ev));
      }
    }
  }

  method Investigate(db: Store.Database, ev: AlertEvent, x: Script, ghost h: nat, ghost before: seq<Moment>)
    returns (outcome: Outcome, ghost trace: seq<Moment>)
    requires Admissible(x) && HandlerAt(before, h, Attaching(ev, x.id, ThenSpawn))
    requires Wrote(before, x.atInsert, InsertedFor(ev, x))
    modifies db
    ensures x.raises.None? ==> Investigated(ev, x, outcome, trace, db.View())
    ensures before < trace && Answered(trace, h, ev, outcome, db.View())
    ensures outcome == Spawns(x.id, x.run) || (outcome.Fails? && x.raises.Some?)
  {
    hide HandlerAt, Answered, Wrote;
    outcome := Fails;
    var raised;
    raised, trace := Attach(db, ev, x.id, x, h, ThenSpawn, before);
    if raised {
      return;
    }
    ghost var attached := trace;
    Meanwhile(db, x.atRun.tables);
    if x.raises == Some(CreatingRun) {
      trace := Raises(trace, x.atRun, h, ev, Queueing(ev, x.id));
      return;
    }
    db.CreateRun(x.run);
    trace := TakesRun(trace, x.atRun, h, ev, x.id, x.run);
    ghost var queued := trace;
    Meanwhile(db, x.atLink.tables);
    if x.raises == Some(LinkingRun) {
      trace := Raises(trace, x.atLink, h, ev, Linking(ev, x.id, x.run));
      return;
    }
    db.LinkRun(x.id, x.run, Investigation);
    trace := TakesLink(trace, x.atLink, h, ev, x.id, x.run);
    outcome := Spawns(x.id, x.run);
    WroteStays(before, trace, x.atInsert, InsertedFor(ev, x));
    WroteStays(attached, trace, x.atAttach, WithAlert(x.atAttach, ev, x.id));
    WroteStays(queued, trace, x.atRun, CreateRun(x.atRun.tables, x.run));
  }

  method LostRace(db: Store.Database, ev: AlertEvent, x: Script, ghost h: nat, ghost before: seq<Moment>)
    returns (outcome: Outcome, ghost trace: seq<Moment>)
    requires HandlerAt(before, h, Relooking(ev))
    modifies db
    ensures before < trace && Answered(trace, h, ev, outcome, db.View())
    ensures outcome.Ignores? || outcome.Attaches? || (outcome.Fails? && x.raises.Some?)
    ensures x.raises.None? ==> WentToWinner(ev, x, outcome, db.View())
  {
    hide HandlerAt, Answered;
    Meanwhile(db, x.atLookAgain.tables);
    if x.raises == Some(LookingAgain) {
      trace := Raises(before, x.atLookAgain, h, ev, Relooking(ev));
      outcome := Fails;
      return;
    }
    var found := db.FindOpenIncidentByKey(Key(ev));
    LookedUp(x.atLookAgain.tables, ev, found);
    trace := TakesLookAgain(before, x.atLookAgain, h, ev, found);
    if found.None? {
      outcome := Ignores;
      return;
    }
    var raised;
    raised, trace := Attach(db, ev, found.value, x, h, Stop, trace);
    outcome := if raised then Fails else Attaches(found.value);
  }

  method CloseByNotice(db: Store.Database, ev: AlertEvent, i: IncidentId, x: Script, ghost h: nat, ghost before: seq<Moment>)
    returns (outcome: Outcome, ghost trace: seq<Moment>)
    requires HandlerAt(before, h, Attaching(ev, i, ThenClose))
    modifies db
    ensures before < trace && Answered(trace, h, ev, outcome, db.View())
    ensures outcome == Closes(i) || (outcome.Fails? && x.raises.Some?)
    ensures x.raises.None? ==>
      && Wrote(trace, x.atAttach, WithAlert(x.atAttach, ev, i))
      && db.View() == IncidentTables.CloseIncident(x.atClose.tables, i)
  {
    hide HandlerAt, Answered, Wrote;
    outcome := Fails;
    var raised;
    raised, trace := Attach(db, ev, i, x, h, ThenClose, before);
    if raised {
      return;
    }
    ghost var attached := trace;
    Meanwhile(db, x.atClose.tables);
    if x.raises == Some(ClosingRow) {
      trace := Raises(trace, x.atClose, h, ev, Closing(ev, i));
      return;
    }
    db.CloseIncident(i);
    trace := TakesClose(trace, x.atClose, h, ev, i);
    outcome := Closes(i);
    WroteStays(attached, trace, x.atAttach, WithAlert(x.atAttach, ev, i));
  }

  /** The trace a request's event begins with. */
  lemma Arrives(s0: System, h: nat, ev: AlertEvent) returns (trace: seq<Moment>)
    requires h !in s0.handlers && Originates(ev)
    ensures trace == [Moment(s0, Handle(h, Arrive(ev)), HandlerNext(s0, h, Arrive(ev)))] && HandlerAt(trace, h, Looking(ev))
  {
    hide Originates;
    trace := [Moment(s0, Handle(h, Arrive(ev)), HandlerNext(s0, h, Arrive(ev)))];
  }

  /** One event: every statement it performs is a step of its handler in the protocol, whatever the
      other actors did to the tables before each of them. */
  method ServeEvent(db: Store.Database, ev: AlertEvent, x: Script, ghost s0: System, ghost h: nat)
    returns (outcome: Outcome, ghost trace: seq<Moment>)
    requires Admissible(x) && h !in s0.handlers && Originates(ev)
    modifies db
    ensures trace != [] && trace[0] == Moment(s0, Handle(h, Arrive(ev)), HandlerNext(s0, h, Arrive(ev)))
    ensures Answered(trace, h, ev, outcome, db.View())
    ensures outcome.Fails? ==> x.raises.Some?
    ensures x.raises.None? ==> AnswersRightly(ev, x, outcome, trace, db.View())
  {
    hide HandlerAt, Answered, HandlerNext, Originates, Wrote, Investigated, WentToWinner, Free, Holds;
    trace := Arrives(s0, h, ev);
    Meanwhile(db, x.atLookUp.tables);
    if x.raises == Some(LookingUp) {
      trace := Raises(trace, x.atLookUp, h, ev, Looking(ev));
      outcome := Fails;
      return;
    }
    var found := db.FindOpenIncidentByKey(Key(ev));
    LookedUp(x.atLookUp.tables, ev, found);
    trace := TakesLookUp(trace, x.atLookUp, h, ev, found);
    match IngressDecision(ev.status, found.Some?)
    case Spawn =>
      outcome, trace := SpawnIncident(db, ev, x, h, trace);
    case Attach =>
      var raised;
      raised, trace := Attach(db, ev, found.value, x, h, Stop, trace);
      outcome := if raised then Fails else Attaches(found.value);
    case Close =>
      outcome, trace := CloseByNotice(db, ev, found.value, x, h, trace);
    case Ignore =>
      outcome := Ignores;
  }

  /** An event without a namespace, or of an incident namespace, is served; any other is passed over. */
  ghost predicate Served(ev: AlertEvent, namespaces: set<string>, x: Script, h: nat, outcome: Outcome, trace: seq<Moment>) {
    if ev.namespace == "" || ev.namespace in namespaces then
      && trace != [] && trace[0].event == Handle(h, Arrive(ev)) && Answered(trace, h, ev, outcome, Last(trace).after.db)
      && (x.raises.None? ==> AnswersRightly(ev, x, outcome, trace, Last(trace).after.db))
    else
      trace == [] && outcome == Ignores
  }

  method ServeIfActionable(db: Store.Database, ev: AlertEvent, namespaces: set<string>, x: Script, ghost s0: System, ghost h: nat)
    returns (outcome: Outcome, ghost trace: seq<Moment>)
    requires Admissible(x) && h !in s0.handlers && Originates(ev)
    modifies db
    ensures Served(ev, namespaces, x, h, outcome, trace) && (outcome.Fails? ==> x.raises.Some?)
  {
    hide Answered, HandlerNext, Originates, AnswersRightly;
    if !IsActionable(ev, namespaces) {
      outcome, trace := Ignores, [];
      return;
    }
    outcome, trace := ServeEvent(db, ev, x, s0, h);
    AnswersHaveTables(trace, h, ev, outcome, db.View());
  }

  lemma AnswersHaveTables(trace: seq<Moment>, h: nat, ev: AlertEvent, outcome: Outcome, db: Tables)
    requires Answered(trace, h, ev, outcome, db)
    ensures trace != [] && Answered(trace, h, ev, outcome, Last(trace).after.db) && Last(trace).after.db == db
  {
  }

  /** The request: one answer per normalised event, in order, up to a statement that raises, which
      ends the request; an event outside the incident namespaces does not touch the tables. */
  method ServeWebhook(db: Store.Database, payload: Payload, namespaces: set<string>, xs: seq<Script>,
                      ghost systems: seq<System>, ghost hs: seq<nat>)
    returns (results: seq<Outcome>, ghost traces: seq<seq<Moment>>)
    requires |xs| == |systems| == |hs| == |Normalized(payload)|
    requires forall k :: 0 <= k < |xs| ==> Admissible(xs[k]) && hs[k] !in systems[k].handlers
    modifies db
    ensures |results| == |traces| <= |Normalized(payload)|
    ensures forall k :: 0 <= k < |results| ==> Served(Normalized(payload)[k], namespaces, xs[k], hs[k], results[k], traces[k])
    ensures forall k :: 0 <= k < |results| - 1 ==> !results[k].Fails?
    ensures |results| < |Normalized(payload)| ==> results != [] && results[|results| - 1].Fails?
    ensures results != [] && results[|results| - 1].Fails? ==> xs[|results| - 1].raises.Some?
  {
    hide Served, Normalized, Admissible;
    var events := Normalize(payload);
    results, traces := [], [];
    for k := 0 to |events|
      invariant |results| == |traces| == k
      invariant forall j :: 0 <= j < k ==> Served(events[j], namespaces, xs[j], hs[j], results[j], traces[j])
      invariant forall j :: 0 <= j < k ==> !results[j].Fails?
    {
      assert Originates(events[k]);
      var outcome: Outcome;
      ghost var trace: seq<Moment>;
      outcome, trace := ServeIfActionable(db, events[k], namespaces, xs[k], systems[k], hs[k]);
      results, traces := results + [outcome], traces + [trace];
      if outcome.Fails? {
        return;
      }
    }
  }
}
