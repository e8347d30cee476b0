/** The steps of one actor seen on their own, and how such traces of several actors, interleaved over
    one database, make up a run of the protocol. */
module IncidentInterleaving {
  import opened Options
  import opened Ingress
  import opened IncidentTables
  import opened IncidentProtocol
  import opened IncidentSafety

  datatype Actor = HandlerActor(h: nat) | RunActor(r: RunId) | WatcherActor | ClockActor

  /** What only one actor moves: its program counter, and for the watcher the log of what it did. */
  datatype Counter =
    | OfHandler(handler: Option<Handler>)
    | OfRun(task: Option<Task>)
    | OfWatcher(watcher: Watcher, log: seq<Escalation>, failed: set<nat>)
    | OfClock

  function ActorOf(e: Event): Actor {
    match e
    case Handle(h, _) => HandlerActor(h)
    case Run(r, _) => RunActor(r)
    case Watch(_) => WatcherActor
    case Tick(_, _) => ClockActor
  }

  function CounterOf(s: System, a: Actor): Counter {
    match a
    case HandlerActor(h) => OfHandler(if h in s.handlers then Some(s.handlers[h]) else None)
    case RunActor(r) => OfRun(if r in s.tasks then Some(s.tasks[r]) else None)
    case WatcherActor => OfWatcher(s.watcher, s.log, s.failed)
    case ClockActor => OfClock
  }

  /** One step of the protocol, with the system before and after it. */
  datatype Moment = Moment(before: System, event: Event, after: System)

  ghost predicate Taken(m: Moment) {
    Enabled(m.before, m.event) && m.after == Next(m.before, m.event)
  }

  /** The steps of one actor among arbitrary steps of the others: nobody else moves its counter. */
  ghost predicate Local(trace: seq<Moment>) {
    && (forall k :: 0 <= k < |trace| ==> Taken(trace[k]))
    && (forall k :: 0 < k < |trace| ==>
          && ActorOf(trace[k - 1].event) == ActorOf(trace[k].event)
          && CounterOf(trace[k - 1].after, ActorOf(trace[k].event)) == CounterOf(trace[k].before, ActorOf(trace[k].event)))
  }

  // ---- a step depends on its own counter and the shared tables only ----

  predicate Agree(s: System, t: System, a: Actor) {
    s.db == t.db && s.clock == t.clock && s.window == t.window && s.held == t.held && CounterOf(s, a) == CounterOf(t, a)
  }

  /** The run a step starts, if any. */
  function Starts(s: System, e: Event): Option<RunId> {
    if e.Handle? && e.hs.LinkInvestigation? && e.h in s.handlers && s.handlers[e.h].Linking? then Some(s.handlers[e.h].run)
    else if e.Watch? && e.ws.LinkReEscalation? && s.watcher.RunMade? then Some(s.watcher.run)
    else None
  }

  lemma HandlerEnables(s: System, t: System, h: nat, st: HandlerStep)
    requires Agree(s, t, HandlerActor(h)) && HandlerEnabled(s, h, st)
    ensures HandlerEnabled(t, h, st)
    ensures h in s.handlers <==> h in t.handlers
    ensures h in s.handlers ==> s.handlers[h] == t.handlers[h]
  {
    hide Finds, Originates, Key;
  }

  lemma HandlerAgrees(s: System, t: System, h: nat, st: HandlerStep)
    requires Agree(s, t, HandlerActor(h)) && HandlerEnabled(s, h, st) && HandlerEnabled(t, h, st)
    ensures Agree(HandlerNext(s, h, st), HandlerNext(t, h, st), HandlerActor(h))
  {
    HandlerEnables(s, t, h, st);
    hide Finds, Originates, Key, KeyTaken, CreateIncident, AttachAlert, AlertRowOf, CreateRun, LinkRun, IngressDecision;
  }

  lemma HandlerTransfer(s: System, t: System, h: nat, st: HandlerStep)
    requires Agree(s, t, HandlerActor(h)) && HandlerEnabled(s, h, st)
    ensures HandlerEnabled(t, h, st) && Agree(HandlerNext(s, h, st), HandlerNext(t, h, st), HandlerActor(h))
    ensures var r := Starts(s, Handle(h, st));
      && r == Starts(t, Handle(h, st))
      && (r.Some? ==> CounterOf(HandlerNext(s, h, st), RunActor(r.value)) == CounterOf(HandlerNext(t, h, st), RunActor(r.value)))
  {
    HandlerEnables(s, t, h, st);
    HandlerAgrees(s, t, h, st);
    hide HandlerEnabled, Agree;
  }

  lemma RunAgrees(s: System, t: System, r: RunId, st: RunStep)
    requires Agree(s, t, RunActor(r)) && RunEnabled(s, r, st) && RunEnabled(t, r, st) && s.tasks[r] == t.tasks[r]
    ensures Agree(RunNext(s, r, st), RunNext(t, r, st), RunActor(r))
  {
    hide CloseOut, SetStatus, AddRemediation, SetVerifyDeadline, DecideClosing;
  }

  lemma RunTransfer(s: System, t: System, r: RunId, st: RunStep)
    requires Agree(s, t, RunActor(r)) && RunEnabled(s, r, st)
    ensures RunEnabled(t, r, st) && Agree(RunNext(s, r, st), RunNext(t, r, st), RunActor(r))
  {
    hide RunNext;
    assert r in t.tasks && s.tasks[r] == t.tasks[r];
    RunAgrees(s, t, r, st);
  }

  lemma WatcherTransfer(s: System, t: System, st: WatcherStep)
    requires Agree(s, t, WatcherActor) && WatcherEnabled(s, st)
    ensures WatcherEnabled(t, st) && Agree(WatcherNext(s, st), WatcherNext(t, st), WatcherActor)
    ensures var r := Starts(s, Watch(st));
      && r == Starts(t, Watch(st))
      && (r.Some? ==> CounterOf(WatcherNext(s, st), RunActor(r.value)) == CounterOf(WatcherNext(t, st), RunActor(r.value)))
  {
  }

  /** Two systems that agree on the tables, the clock, Alertmanager's alerts and the actor's counter enable the same step of
      it and agree again after it, on the run it starts as well. */
  lemma Transfer(s: System, t: System, e: Event)
    requires Agree(s, t, ActorOf(e)) && Enabled(s, e)
    ensures Enabled(t, e) && Agree(Next(s, e), Next(t, e), ActorOf(e)) && Starts(s, e) == Starts(t, e)
    ensures Starts(s, e).Some? ==>
              CounterOf(Next(s, e), RunActor(Starts(s, e).value)) == CounterOf(Next(t, e), RunActor(Starts(s, e).value))
  {
    match e
    case Handle(h, hs) => HandlerTransfer(s, t, h, hs);
    case Run(r, rs) => RunTransfer(s, t, r, rs);
    case Watch(ws) => WatcherTransfer(s, t, ws);
    case Tick(_, _) =>
  }

  /** A step moves the counter of its actor and of the run it starts, and no other. */
  predicate Moves(s: System, e: Event, a: Actor) {
    a == ActorOf(e) || (Starts(s, e).Some? && a == RunActor(Starts(s, e).value))
  }

  lemma HandlerMovesOwn(s: System, h: nat, st: HandlerStep, a: Actor)
    requires HandlerEnabled(s, h, st) && !Moves(s, Handle(h, st), a)
    ensures CounterOf(HandlerNext(s, h, st), a) == CounterOf(s, a)
  {
  }

  lemma RunMovesOwn(s: System, r: RunId, st: RunStep, a: Actor)
    requires RunEnabled(s, r, st) && !Moves(s, Run(r, st), a)
    ensures CounterOf(RunNext(s, r, st), a) == CounterOf(s, a)
  {
  }

  lemma WatcherMovesOwn(s: System, st: WatcherStep, a: Actor)
    requires WatcherEnabled(s, st) && !Moves(s, Watch(st), a)
    ensures CounterOf(WatcherNext(s, st), a) == CounterOf(s, a)
  {
  }

  lemma MovesOwn(s: System, e: Event, a: Actor)
    requires Enabled(s, e) && !Moves(s, e, a)
    ensures CounterOf(Next(s, e), a) == CounterOf(s, a)
  {
    match e
    case Handle(h, hs) => HandlerMovesOwn(s, h, hs, a);
    case Run(r, rs) => RunMovesOwn(s, r, rs, a);
    case Watch(ws) => WatcherMovesOwn(s, ws, a);
    case Tick(_, _) =>
  }

  // ---- interleaving ----

  /** The counter that the first `k` moments leave an actor with. */
  function LeftBy(window: nat, clock: Time, ms: seq<Moment>, k: nat, a: Actor): Counter
    requires k <= |ms|
    decreases k
  {
    if k == 0 then CounterOf(Init(window, clock, {}), a)
    else if Moves(ms[k - 1].before, ms[k - 1].event, a) then CounterOf(ms[k - 1].after, a)
    else LeftBy(window, clock, ms, k - 1, a)
  }

  function TablesAt(ms: seq<Moment>, k: nat): Tables
    requires k <= |ms|
  {
    if k == 0 then Init(0, 0, {}).db else ms[k - 1].after.db
  }

  function ClockAt(clock: Time, ms: seq<Moment>, k: nat): Time
    requires k <= |ms|
  {
    if k == 0 then clock else ms[k - 1].after.clock
  }

  /** Steps of several actors in one order: each finds the tables as the one before left them, a clock
      that did not run back, and its own counter where its actor, or whoever started it, left it. */
  ghost predicate Meshed(window: nat, clock: Time, ms: seq<Moment>) {
    MeshedUpTo(window, clock, ms, |ms|)
  }

  ghost predicate MeshedUpTo(window: nat, clock: Time, ms: seq<Moment>, n: nat) {
    n <= |ms| && forall k :: 0 <= k < n ==> Meshes(window, clock, ms, k)
  }

  ghost predicate Meshes(window: nat, clock: Time, ms: seq<Moment>, k: nat)
    requires k < |ms|
  {
    var m := ms[k];
    && Taken(m) && !m.event.Tick? && m.before.window == window
    && m.before.db == TablesAt(ms, k) && m.before.clock >= ClockAt(clock, ms, k)
    && CounterOf(m.before, ActorOf(m.event)) == LeftBy(window, clock, ms, k, ActorOf(m.event))
  }

  /** The clock and Alertmanager's alerts are set to what each moment found, and then its step is taken. */
  function EventsOf(ms: seq<Moment>): seq<Event> {
    if ms == [] then []
    else EventsOf(ms[..|ms| - 1]) + [Tick(ms[|ms| - 1].before.clock, ms[|ms| - 1].before.held), ms[|ms| - 1].event]
  }

  /** The state a run is in after the first `k` moments. */
  ghost predicate Mirrors(s: System, window: nat, clock: Time, ms: seq<Moment>, k: nat)
    requires k <= |ms|
  {
    && s.db == TablesAt(ms, k) && s.clock == ClockAt(clock, ms, k) && s.window == window
    && forall a :: CounterOf(s, a) == LeftBy(window, clock, ms, k, a)
  }

  lemma MirrorStep(s: System, window: nat, clock: Time, ms: seq<Moment>, k: nat)
    requires k < |ms| && Meshes(window, clock, ms, k) && Mirrors(s, window, clock, ms, k)
    ensures var m := ms[k]; var t := s.(clock := m.before.clock, held := m.before.held);
      && Enabled(s, Tick(m.before.clock, m.before.held)) && t == Next(s, Tick(m.before.clock, m.before.held))
      && Enabled(t, m.event) && Mirrors(Next(t, m.event), window, clock, ms, k + 1)
  {
    var m := ms[k];
    var t := s.(clock := m.before.clock, held := m.before.held);
    assert Agree(m.before, t, ActorOf(m.event));
    Transfer(m.before, t, m.event);
    KeepsClock(t, m.event);
    KeepsClock(m.before, m.event);
    MirrorCounters(s, t, window, clock, ms, k);
  }

  lemma MirrorCounters(s: System, t: System, window: nat, clock: Time, ms: seq<Moment>, k: nat)
    requires k < |ms| && Meshes(window, clock, ms, k) && Mirrors(s, window, clock, ms, k) && t == s.(clock := ms[k].before.clock, held := ms[k].before.held)
    requires Enabled(t, ms[k].event) && Agree(ms[k].before, t, ActorOf(ms[k].event))
    ensures forall a :: CounterOf(Next(t, ms[k].event), a) == LeftBy(window, clock, ms, k + 1, a)
  {
    var m := ms[k];
    Transfer(m.before, t, m.event);
    hide Enabled, Next;
    forall a ensures CounterOf(Next(t, m.event), a) == LeftBy(window, clock, ms, k + 1, a) {
      if !Moves(m.before, m.event, a) {
        MovesOwn(t, m.event, a);
        assert CounterOf(t, a) == CounterOf(s, a);
      }
    }
  }

  lemma {:induction false} MirroredRun(window: nat, clock: Time, ms: seq<Moment>, k: nat) returns (ss: seq<System>)
    requires MeshedUpTo(window, clock, ms, k)
    ensures IsRun(window, clock, ss, EventsOf(ms[..k])) && Mirrors(ss[|EventsOf(ms[..k])|], window, clock, ms, k)
  {
    if k == 0 {
      ss := [Init(window, clock, {})];
    } else {
      var n := k - 1;
      ss := MirroredRun(window, clock, ms, n);
      assert ms[..k][..n] == ms[..n] && Meshes(window, clock, ms, n);
      ss := MirroredStep(window, clock, ms, n, ss);
    }
  }

  lemma MirroredStep(window: nat, clock: Time, ms: seq<Moment>, n: nat, before: seq<System>) returns (ss: seq<System>)
    requires n < |ms| && Meshes(window, clock, ms, n)
    requires IsRun(window, clock, before, EventsOf(ms[..n])) && Mirrors(before[|EventsOf(ms[..n])|], window, clock, ms, n)
    ensures IsRun(window, clock, ss, EventsOf(ms[..n + 1])) && Mirrors(ss[|EventsOf(ms[..n + 1])|], window, clock, ms, n + 1)
  {
    var es, s, m := EventsOf(ms[..n]), before[|EventsOf(ms[..n])|], ms[n];
    var t := s.(clock := m.before.clock, held := m.before.held);
    MirrorStep(s, window, clock, ms, n);
    hide Enabled, Next, Mirrors, Meshes;
    ExtendRun(window, clock, before, es, Tick(m.before.clock, m.before.held), t);
    LastOf(window, clock, before + [t], es + [Tick(m.before.clock, m.before.held)], t);
    ExtendRun(window, clock, before + [t], es + [Tick(m.before.clock, m.before.held)], m.event, Next(t, m.event));
    ss := before + [t] + [Next(t, m.event)];
    EventsSnoc(ms, n);
    LastOf(window, clock, ss, EventsOf(ms[..n + 1]), Next(t, m.event));
  }

  lemma LastOf(window: nat, clock: Time, ss: seq<System>, es: seq<Event>, t: System)
    requires IsRun(window, clock, ss, es) && ss[|ss| - 1] == t
    ensures ss[|es|] == t
  {
  }

  lemma EventsSnoc(ms: seq<Moment>, n: nat)
    requires n < |ms|
    ensures EventsOf(ms[..n + 1]) == EventsOf(ms[..n]) + [Tick(ms[n].before.clock, ms[n].before.held)] + [ms[n].event]
  {
    assert ms[..n + 1][..n] == ms[..n];
  }

  /** Traces of any actors, interleaved over one database, are a run of the protocol: so its theorems
      hold of the tables after every step. */
  lemma MeshedIsRun(window: nat, clock: Time, ms: seq<Moment>, k: nat) returns (ss: seq<System>)
    requires Meshed(window, clock, ms) && k < |ms|
    ensures IsRun(window, clock, ss, EventsOf(ms[..k + 1])) && ss[|EventsOf(ms[..k + 1])|].db == ms[k].after.db
  {
    ss := MirroredRun(window, clock, ms, k + 1);
  }

  /** One alert, one incident, and one run in flight, over the steps the methods take. */
  lemma MeshedIsSafe(window: nat, clock: Time, ms: seq<Moment>, k: nat)
    requires Meshed(window, clock, ms) && k < |ms|
    ensures var t := ms[k].after.db;
      && (forall i, j, key :: OpenWithKey(t, i, key) && OpenWithKey(t, j, key) ==> i == j)
      && (forall a :: 0 <= a < |t.links| && t.links[a].run in t.runs && InFlight(t.runs[t.links[a].run]) ==>
            forall b :: a < b < |t.links| ==> t.links[b].incident != t.links[a].incident)
      && (forall i :: i in t.incidents ==> t.incidents[i].escalations <= 3 && CountAll(t.links, i) <= 4)
  {
    var ss := MeshedIsRun(window, clock, ms, k);
    var es := EventsOf(ms[..k + 1]);
    OneAlertOneIncident(window, clock, ss, es, |es|);
    OneRunInFlight(window, clock, ss, es, |es|);
    EscalationsBounded(window, clock, ss, es, |es|);
  }
}
