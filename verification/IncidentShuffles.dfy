/** Putting the traces of single actors together: a shuffle of them over one database is meshed, and
    nothing else is. */
module IncidentShuffles {
  import opened Options
  import opened IncidentTables
  import opened IncidentProtocol
  import opened IncidentInvariants
  import opened IncidentSafety
  import opened IncidentInterleaving

  /** The moments of one actor, in their order. */
  function Own(ms: seq<Moment>, a: Actor): (own: seq<Moment>)
    ensures forall m :: m in own ==> m in ms && ActorOf(m.event) == a
  {
    if ms == [] then []
    else Own(ms[..|ms| - 1], a) + (if ActorOf(ms[|ms| - 1].event) == a then [ms[|ms| - 1]] else [])
  }

  /** Moment `j` starts run `r`. */
  predicate StartedAt(ms: seq<Moment>, j: nat, r: RunId)
    requires j < |ms|
  {
    Starts(ms[j].before, ms[j].event) == Some(r)
  }

  /** What an actor's first moment finds: nothing has happened to it yet, or, for a run, what the
      statement that started it left. */
  ghost predicate FindsStart(ms: seq<Moment>, k: nat)
    requires k < |ms|
  {
    var a := ActorOf(ms[k].event);
    match a
    case RunActor(r) => exists j :: 0 <= j < k && StartedAt(ms, j, r) && CounterOf(ms[k].before, a) == CounterOf(ms[j].after, a)
    case _ => CounterOf(ms[k].before, a) == CounterOf(Init(0, 0, {}), a)
  }

  /** Moment `k` finds the tables as the one before left them and a clock that did not run back. */
  ghost predicate Shared(window: nat, clock: Time, ms: seq<Moment>, k: nat)
    requires k < |ms|
  {
    && Taken(ms[k]) && !ms[k].event.Tick? && ms[k].before.window == window
    && ms[k].before.db == TablesAt(ms, k) && ms[k].before.clock >= ClockAt(clock, ms, k)
  }

  /** Traces of single actors in one order, sharing the tables and the clock only. */
  ghost predicate Shuffle(window: nat, clock: Time, ms: seq<Moment>) {
    && (forall k :: 0 <= k < |ms| ==> Shared(window, clock, ms, k))
    && (forall a :: Local(Own(ms, a)))
    && (forall k :: 0 <= k < |ms| && Own(ms[..k], ActorOf(ms[k].event)) == [] ==> FindsStart(ms, k))
  }

  lemma OwnSnoc(ms: seq<Moment>, k: nat, a: Actor)
    requires k < |ms|
    ensures Own(ms[..k + 1], a) == Own(ms[..k], a) + (if ActorOf(ms[k].event) == a then [ms[k]] else [])
  {
    assert ms[..k + 1][..k] == ms[..k];
  }

  lemma {:induction false} OwnPrefix(ms: seq<Moment>, k: nat, a: Actor)
    requires k <= |ms|
    ensures Own(ms[..k], a) <= Own(ms, a)
    decreases |ms| - k
  {
    if k == |ms| {
      assert ms[..k] == ms;
    } else {
      OwnPrefix(ms, k + 1, a);
      OwnSnoc(ms, k, a);
    }
  }

  /** No run is started twice: where a run is started, nobody had started it. */
  lemma NotStartedYet(window: nat, clock: Time, ms: seq<Moment>, k: nat, r: RunId)
    requires k < |ms| && MeshedUpTo(window, clock, ms, k + 1) && StartedAt(ms, k, r)
    ensures LeftBy(window, clock, ms, k, RunActor(r)) == OfRun(None)
  {
    assert Meshes(window, clock, ms, k);
    var ss := MirroredRun(window, clock, ms, k);
    var es := EventsOf(ms[..k]);
    InvHolds(window, clock, ss, es, |es|);
    StartsFresh(window, clock, ss[|es|], ms, k, r);
  }

  lemma StartsFresh(window: nat, clock: Time, s: System, ms: seq<Moment>, k: nat, r: RunId)
    requires k < |ms| && Meshes(window, clock, ms, k) && Mirrors(s, window, clock, ms, k) && Inv(s) && StartedAt(ms, k, r)
    ensures LeftBy(window, clock, ms, k, RunActor(r)) == OfRun(None)
  {
    var m := ms[k];
    assert CounterOf(s, ActorOf(m.event)) == CounterOf(m.before, ActorOf(m.event));
    assert Starts(s, m.event) == Some(r);
    assert Fresh(s, r);
    assert CounterOf(s, RunActor(r)) == OfRun(None);
  }

  /** A run's own step leaves it a task, and so does the step that starts it. */
  lemma LeavesTask(m: Moment, r: RunId)
    requires Taken(m) && Moves(m.before, m.event, RunActor(r))
    ensures CounterOf(m.after, RunActor(r)) != OfRun(None)
  {
    match m.event
    case Run(_, st) => RunTouches(m.before, r, st);
    case _ =>
  }

  /** An actor is left where its own last moment left it. */
  lemma {:induction false} LeftByOwn(window: nat, clock: Time, ms: seq<Moment>, k: nat, a: Actor)
    requires MeshedUpTo(window, clock, ms, k) && Own(ms[..k], a) != []
    ensures var own := Own(ms[..k], a); LeftBy(window, clock, ms, k, a) == CounterOf(own[|own| - 1].after, a)
  {
    hide Taken, CounterOf, Starts;
    OwnSnoc(ms, k - 1, a);
    if ActorOf(ms[k - 1].event) != a {
      LeftByOwn(window, clock, ms, k - 1, a);
      if Moves(ms[k - 1].before, ms[k - 1].event, a) {
        NotStartedYet(window, clock, ms, k - 1, a.r);
        OwnLeavesTask(window, clock, ms, k - 1, a.r);
      }
    }
  }

  lemma OwnLeavesTask(window: nat, clock: Time, ms: seq<Moment>, k: nat, r: RunId)
    requires MeshedUpTo(window, clock, ms, k) && Own(ms[..k], RunActor(r)) != []
    ensures var own := Own(ms[..k], RunActor(r)); CounterOf(own[|own| - 1].after, RunActor(r)) != OfRun(None)
  {
    var own := Own(ms[..k], RunActor(r));
    var m := own[|own| - 1];
    assert m in ms[..k];
    var j :| 0 <= j < k && ms[j] == m;
    assert Meshes(window, clock, ms, j);
    LeavesTask(m, r);
  }

  /** Before its own first moment it is where it began, or where its starter left it. */
  lemma {:induction false} LeftByNobody(window: nat, clock: Time, ms: seq<Moment>, k: nat, a: Actor)
    requires k <= |ms| && Own(ms[..k], a) == []
    requires a.RunActor? ==> forall j :: 0 <= j < k ==> !StartedAt(ms, j, a.r)
    ensures LeftBy(window, clock, ms, k, a) == CounterOf(Init(0, 0, {}), a)
  {
    if k > 0 {
      OwnSnoc(ms, k - 1, a);
      assert a.RunActor? ==> !StartedAt(ms, k - 1, a.r);
      LeftByNobody(window, clock, ms, k - 1, a);
    }
  }

  lemma {:induction false} LeftByStarter(window: nat, clock: Time, ms: seq<Moment>, j: nat, k: nat, r: RunId)
    requires j < k && MeshedUpTo(window, clock, ms, k) && Own(ms[..k], RunActor(r)) == [] && StartedAt(ms, j, r)
    ensures LeftBy(window, clock, ms, k, RunActor(r)) == CounterOf(ms[j].after, RunActor(r))
  {
    hide Taken, CounterOf, Starts;
    OwnSnoc(ms, k - 1, RunActor(r));
    if j < k - 1 {
      LeftByStarter(window, clock, ms, j, k - 1, r);
      assert Meshes(window, clock, ms, j);
      LeavesTask(ms[j], r);
      if StartedAt(ms, k - 1, r) {
        NotStartedYet(window, clock, ms, k - 1, r);
      }
    }
  }

  // ---- a shuffle is meshed ----

  lemma FindsWhatIsLeft(window: nat, clock: Time, ms: seq<Moment>, k: nat)
    requires k < |ms| && MeshedUpTo(window, clock, ms, k) && Shuffle(window, clock, ms)
    ensures var a := ActorOf(ms[k].event); CounterOf(ms[k].before, a) == LeftBy(window, clock, ms, k, a)
  {
    hide Starts, CounterOf;
    var a := ActorOf(ms[k].event);
    var own := Own(ms[..k], a);
    if own != [] {
      LeftByOwn(window, clock, ms, k, a);
      FollowsOwn(ms, k);
    } else if a.RunActor? {
      var j :| 0 <= j < k && StartedAt(ms, j, a.r) && CounterOf(ms[k].before, a) == CounterOf(ms[j].after, a);
      LeftByStarter(window, clock, ms, j, k, a.r);
    } else {
      LeftByNobody(window, clock, ms, k, a);
    }
  }

  lemma FollowsOwn(ms: seq<Moment>, k: nat)
    requires k < |ms| && Local(Own(ms, ActorOf(ms[k].event))) && Own(ms[..k], ActorOf(ms[k].event)) != []
    ensures var a := ActorOf(ms[k].event); var own := Own(ms[..k], a);
      CounterOf(own[|own| - 1].after, a) == CounterOf(ms[k].before, a)
  {
    hide Taken, CounterOf;
    var a := ActorOf(ms[k].event);
    var own, all := Own(ms[..k], a), Own(ms, a);
    OwnSnoc(ms, k, a);
    OwnPrefix(ms, k + 1, a);
    assert all[|own| - 1] == own[|own| - 1] && all[|own|] == ms[k];
  }

  lemma {:induction false} ShuffleUpTo(window: nat, clock: Time, ms: seq<Moment>, n: nat)
    requires Shuffle(window, clock, ms) && n <= |ms|
    ensures MeshedUpTo(window, clock, ms, n)
  {
    if n > 0 {
      hide Taken, Local, Own, FindsStart, LeftBy, CounterOf;
      ShuffleUpTo(window, clock, ms, n - 1);
      FindsWhatIsLeft(window, clock, ms, n - 1);
      assert Shared(window, clock, ms, n - 1);
    }
  }

  // ---- and nothing else is ----

  lemma StartIsFound(window: nat, clock: Time, ms: seq<Moment>, k: nat)
    requires k < |ms| && MeshedUpTo(window, clock, ms, k + 1) && Own(ms[..k], ActorOf(ms[k].event)) == []
    ensures FindsStart(ms, k)
  {
    var a := ActorOf(ms[k].event);
    assert Meshes(window, clock, ms, k);
    assert MeshedUpTo(window, clock, ms, k);
    if a.RunActor? && exists j :: 0 <= j < k && StartedAt(ms, j, a.r) {
      var j :| 0 <= j < k && StartedAt(ms, j, a.r);
      LeftByStarter(window, clock, ms, j, k, a.r);
    } else {
      LeftByNobody(window, clock, ms, k, a);
    }
  }

  lemma {:induction false} OwnIsLocal(window: nat, clock: Time, ms: seq<Moment>, n: nat, a: Actor)
    requires MeshedUpTo(window, clock, ms, n)
    ensures Local(Own(ms[..n], a))
  {
    hide Taken, CounterOf, LeftBy;
    if n > 0 {
      var k := n - 1;
      OwnIsLocal(window, clock, ms, k, a);
      OwnSnoc(ms, k, a);
      assert Meshes(window, clock, ms, k);
      if ActorOf(ms[k].event) == a && Own(ms[..k], a) != [] {
        LeftByOwn(window, clock, ms, k, a);
      }
      LocalSnoc(Own(ms[..k], a), ms[k], a);
    }
  }

  lemma LocalSnoc(own: seq<Moment>, m: Moment, a: Actor)
    requires Local(own) && Taken(m) && forall x :: x in own ==> ActorOf(x.event) == a
    requires ActorOf(m.event) == a && own != [] ==> CounterOf(own[|own| - 1].after, a) == CounterOf(m.before, a)
    ensures ActorOf(m.event) == a ==> Local(own + [m])
  {
    hide Taken, CounterOf, ActorOf;
    if ActorOf(m.event) == a {
      var longer := own + [m];
      forall k | 0 < k < |longer| ensures
        && ActorOf(longer[k - 1].event) == ActorOf(longer[k].event)
        && CounterOf(longer[k - 1].after, ActorOf(longer[k].event)) == CounterOf(longer[k].before, ActorOf(longer[k].event))
      {
        assert longer[k - 1] == own[k - 1] && own[k - 1] in own;
        assert k < |own| ==> longer[k] == own[k];
      }
    }
  }

  /** Moments of several actors mesh, and so make up a run of the protocol, exactly when they are a
      shuffle of traces of single actors. */
  lemma MeshedIffShuffle(window: nat, clock: Time, ms: seq<Moment>)
    ensures Meshed(window, clock, ms) <==> Shuffle(window, clock, ms)
  {
    if Shuffle(window, clock, ms) {
      ShuffleUpTo(window, clock, ms, |ms|);
    }
    if Meshed(window, clock, ms) {
      MeshedIsShuffle(window, clock, ms);
    }
  }

  lemma MeshedIsShuffle(window: nat, clock: Time, ms: seq<Moment>)
    requires Meshed(window, clock, ms)
    ensures Shuffle(window, clock, ms)
  {
    hide Meshes, LeftBy, FindsStart, Local;
    forall k | 0 <= k < |ms| ensures Shared(window, clock, ms, k) {
      SharedAt(window, clock, ms, k);
    }
    forall a ensures Local(Own(ms, a)) {
      OwnIsLocal(window, clock, ms, |ms|, a);
      assert ms[..|ms|] == ms;
    }
    forall k | 0 <= k < |ms| && Own(ms[..k], ActorOf(ms[k].event)) == [] ensures FindsStart(ms, k) {
      StartIsFound(window, clock, ms, k);
    }
  }

  lemma SharedAt(window: nat, clock: Time, ms: seq<Moment>, k: nat)
    requires k < |ms| && Meshed(window, clock, ms)
    ensures Shared(window, clock, ms, k)
  {
    assert Meshes(window, clock, ms, k);
  }

  /** So the protocol's theorems hold of the tables after every step of such traces: one open incident
      a key, one run in flight, and bounded escalation. */
  lemma ShuffleIsSafe(window: nat, clock: Time, ms: seq<Moment>, k: nat)
    requires Shuffle(window, clock, ms) && k < |ms|
    ensures var t := ms[k].after.db;
      && (forall i, j, key :: OpenWithKey(t, i, key) && OpenWithKey(t, j, key) ==> i == j)
      && (forall a :: 0 <= a < |t.links| && t.links[a].run in t.runs && InFlight(t.runs[t.links[a].run]) ==>
            forall b :: a < b < |t.links| ==> t.links[b].incident != t.links[a].incident)
      && (forall i :: i in t.incidents ==> t.incidents[i].escalations <= 3 && CountAll(t.links, i) <= 4)
  {
    ShuffleUpTo(window, clock, ms, |ms|);
    MeshedIsSafe(window, clock, ms, k);
  }
}
