/** How a method that runs one statement after the other is proved to follow the protocol: it
    records the steps it takes, and before each of them the tables may have become anything. */
module IncidentTraces {
  import opened IncidentTables
  import opened IncidentProtocol
  import opened IncidentInterleaving
  import Store = IncidentStore

  /** The world an actor finds when its next statement runs; `held` are the names Alertmanager holds active. */
  datatype World = World(tables: Tables, clock: Time, held: set<string>)

  /** Whatever the other actors did to the tables in the meantime. */
  method Meanwhile(db: Store.Database, t: Tables)
    modifies db
    ensures db.View() == t
  {
    db.incidents, db.alerts, db.links, db.runs, db.remediated := t.incidents, t.alerts, t.links, t.runs, t.remediated;
  }

  ghost function Last(trace: seq<Moment>): Moment
    requires trace != []
  {
    trace[|trace| - 1]
  }

  /** The system as an actor finds it: its own last state, with the tables others may have changed, the
      clock moved on and Alertmanager's alerts as they are. What the other actors' counters are does not matter to its step. */
  ghost function Found(trace: seq<Moment>, w: World): System
    requires trace != []
  {
    Last(trace).after.(db := w.tables, clock := w.clock, held := w.held)
  }

  ghost function Then(trace: seq<Moment>, w: World, e: Event): seq<Moment>
    requires trace != [] && Enabled(Found(trace, w), e)
  {
    trace + [Moment(Found(trace, w), e, Next(Found(trace, w), e))]
  }

  lemma KeepsCounter(s: System, w: World, a: Actor)
    ensures CounterOf(s.(db := w.tables, clock := w.clock, held := w.held), a) == CounterOf(s, a)
  {
  }

  lemma Extends(trace: seq<Moment>, m: Moment)
    requires trace != [] && Local(trace) && Taken(m) && ActorOf(Last(trace).event) == ActorOf(m.event)
    requires CounterOf(Last(trace).after, ActorOf(m.event)) == CounterOf(m.before, ActorOf(m.event))
    ensures Local(trace + [m])
  {
    hide Taken, CounterOf, ActorOf;
    var longer := trace + [m];
    forall k | 0 <= k < |longer| ensures Taken(longer[k]) {
      assert k < |trace| ==> longer[k] == trace[k];
    }
    forall k | 0 < k < |longer| ensures
      && ActorOf(longer[k - 1].event) == ActorOf(longer[k].event)
      && CounterOf(longer[k - 1].after, ActorOf(longer[k].event)) == CounterOf(longer[k].before, ActorOf(longer[k].event))
    {
      assert longer[k - 1] == trace[k - 1];
      assert k < |trace| ==> longer[k] == trace[k];
    }
  }

  lemma ThenIsLocal(trace: seq<Moment>, w: World, e: Event)
    requires trace != [] && Local(trace) && ActorOf(Last(trace).event) == ActorOf(e) && Enabled(Found(trace, w), e)
    ensures trace < Then(trace, w, e) && Local(Then(trace, w, e))
    ensures Last(Then(trace, w, e)) == Moment(Found(trace, w), e, Next(Found(trace, w), e))
  {
    KeepsCounter(Last(trace).after, w, ActorOf(e));
    hide Enabled, Next, CounterOf, ActorOf, Local;
    Extends(trace, Moment(Found(trace, w), e, Next(Found(trace, w), e)));
  }

  /** One of the statements found the tables and the clock of `w` and left `t`. */
  ghost predicate Wrote(trace: seq<Moment>, w: World, t: Tables) {
    exists k :: 0 <= k < |trace| && trace[k].before.db == w.tables && trace[k].before.clock == w.clock && trace[k].after.db == t
  }

  lemma WroteStays(before: seq<Moment>, trace: seq<Moment>, w: World, t: Tables)
    requires before <= trace && Wrote(before, w, t)
    ensures Wrote(trace, w, t)
  {
    var k :| 0 <= k < |before| && before[k].before.db == w.tables && before[k].before.clock == w.clock && before[k].after.db == t;
    assert trace[k] == before[k];
  }
}
