/** Chaos phases flattened into a sorted apply/clear timeline, replayed against the fault
    override of each target. Seconds and milliseconds are reals. */
module ChaosTimeline {
  import opened Sorting

  type Params = map<string, string>

  datatype Phase = Phase(target: string, start: real, duration: real, params: Params)
  datatype Schedule = Schedule(cooldown: real, phases: seq<Phase>)

  /** What the schedule schema enforces. */
  ghost predicate WellFormed(s: Schedule) {
    s.cooldown >= 0.0 && forall k :: 0 <= k < |s.phases| ==> s.phases[k].start >= 0.0 && s.phases[k].duration > 0.0
  }

  function End(p: Phase): real { p.start + p.duration }

  datatype Kind = Apply | Clear
  datatype TimelineEvent = TimelineEvent(atMs: real, kind: Kind, phase: Phase)

  function ApplyOf(p: Phase): TimelineEvent { TimelineEvent(p.start * 1000.0, Apply, p) }
  function ClearOf(p: Phase): TimelineEvent { TimelineEvent(End(p) * 1000.0, Clear, p) }

  /** The sort's comparison: by time, and at the same instant clears first. */
  function Before(a: TimelineEvent, b: TimelineEvent): bool {
    a.atMs < b.atMs || (a.atMs == b.atMs && (a.kind == b.kind || a.kind == Clear))
  }

  function Pushed(phases: seq<Phase>): seq<TimelineEvent> {
    if phases == [] then []
    else Pushed(phases[..|phases| - 1]) + [ApplyOf(phases[|phases| - 1]), ClearOf(phases[|phases| - 1])]
  }

  function Timeline(phases: seq<Phase>): seq<TimelineEvent> {
    StableSort(Pushed(phases), Before)
  }

  method BuildTimeline(s: Schedule) returns (events: seq<TimelineEvent>)
    ensures events == Timeline(s.phases)
  {
    events := [];
    for k := 0 to |s.phases|
      invariant events == Pushed(s.phases[..k])
    {
      assert s.phases[..k + 1][..k] == s.phases[..k];
      events := events + [ApplyOf(s.phases[k])];
      events := events + [ClearOf(s.phases[k])];
    }
    assert s.phases[..|s.phases|] == s.phases;
    events := StableSort(events, Before);
  }

  function Max(a: real, b: real): real { if a >= b then a else b }

  function LastEnd(phases: seq<Phase>): real {
    if phases == [] then 0.0 else Max(LastEnd(phases[..|phases| - 1]), End(phases[|phases| - 1]))
  }

  function TotalDuration(s: Schedule): real {
    Max(1.0, LastEnd(s.phases) + s.cooldown)
  }

  // ---- the control plane of one target ----

  /** What a request decides on: the configured faults under the override. */
  function EffectiveFaults(base: Params, override: Params): Params { base + override }

  /** The module-level override: patches merge, a clear empties it. */
  class FaultControl {
    var override: Params

    constructor ()
      ensures override == map[]
    {
      override := map[];
    }

    method SetFaultOverride(patch: Params) returns (r: Params)
      modifies this
      ensures override == old(override) + patch && r == override
    {
      override := override + patch;
      r := override;
    }

    method ClearFaultOverride()
      modifies this
      ensures override == map[]
    {
      override := map[];
    }

    /** Drives this control plane with the events of its target, in order. */
    method Drive(events: seq<TimelineEvent>, target: string)
      requires override == map[]
      modifies this
      ensures override == Replay(events, target)
    {
      for k := 0 to |events|
        invariant override == Replay(events[..k], target)
      {
        assert events[..k + 1][..k] == events[..k];
        if events[k].phase.target == target {
          if events[k].kind == Apply {
            var _ := SetFaultOverride(events[k].phase.params);
          } else {
            ClearFaultOverride();
          }
        }
      }
      assert events[..|events|] == events;
    }
  }

  function Replay(events: seq<TimelineEvent>, target: string): Params {
    if events == [] then map[]
    else
      var rest := Replay(events[..|events| - 1], target);
      var e := events[|events| - 1];
      if e.phase.target != target then rest
      else if e.kind == Apply then rest + e.phase.params
      else map[]
  }

  // ---- the timeline itself ----

  lemma {:induction false} PushedMembers(phases: seq<Phase>)
    ensures forall e :: e in Pushed(phases) <==> exists p :: p in phases && (e == ApplyOf(p) || e == ClearOf(p))
  {
    if phases != [] {
      PushedMembers(phases[..|phases| - 1]);
      assert phases == phases[..|phases| - 1] + [phases[|phases| - 1]];
    }
  }

  lemma BeforeIsOrder()
    ensures TotalPreorder(Before)
  {
  }

  /** The timeline holds exactly the apply and the clear of every phase, in time order. */
  lemma TimelineShape(phases: seq<Phase>)
    ensures Sorted(Timeline(phases), Before)
    ensures forall e :: e in Timeline(phases) <==> exists p :: p in phases && (e == ApplyOf(p) || e == ClearOf(p))
  {
    BeforeIsOrder();
    SortKeeps(Pushed(phases), Before);
    PushedMembers(phases);
  }

  /** Every phase is applied at its start and cleared at its end, in milliseconds. */
  lemma PhaseIsTimed(phases: seq<Phase>, p: Phase)
    requires p in phases
    ensures TimelineEvent(p.start * 1000.0, Apply, p) in Timeline(phases)
    ensures TimelineEvent((p.start + p.duration) * 1000.0, Clear, p) in Timeline(phases)
  {
    TimelineShape(phases);
    assert ApplyOf(p) in Timeline(phases) && ClearOf(p) in Timeline(phases);
  }

  /** A cycle lasts until the cooldown after the end of its last phase, and at least a second. */
  lemma {:induction false} LastsToTheLast(phases: seq<Phase>)
    requires forall p :: p in phases ==> p.start >= 0.0 && p.duration > 0.0
    ensures phases == [] ==> LastEnd(phases) == 0.0
    ensures phases != [] ==> exists p :: p in phases && LastEnd(phases) == p.start + p.duration
    ensures forall p :: p in phases ==> p.start + p.duration <= LastEnd(phases)
  {
    if phases != [] {
      var init, last := phases[..|phases| - 1], phases[|phases| - 1];
      assert phases == init + [last];
      LastsToTheLast(init);
      assert last in phases;
    }
  }

  lemma CycleLength(s: Schedule)
    requires WellFormed(s)
    ensures TotalDuration(s) >= 1.0 && TotalDuration(s) >= s.cooldown
    ensures forall p :: p in s.phases ==> TotalDuration(s) >= p.start + p.duration + s.cooldown
    ensures TotalDuration(s) == 1.0 || TotalDuration(s) == s.cooldown
            || exists p :: p in s.phases && TotalDuration(s) == p.start + p.duration + s.cooldown
  {
    LastsToTheLast(s.phases);
  }

  lemma {:induction false} EndWithinLast(phases: seq<Phase>, p: Phase)
    requires p in phases
    ensures End(p) <= LastEnd(phases)
  {
    var init := phases[..|phases| - 1];
    assert phases == init + [phases[|phases| - 1]];
    if p in init {
      EndWithinLast(init, p);
    }
  }

  /** No event lies past the cycle's total duration. */
  lemma EventsWithinDuration(s: Schedule, e: TimelineEvent)
    requires WellFormed(s) && e in Timeline(s.phases)
    ensures 0.0 <= e.atMs <= TotalDuration(s) * 1000.0
  {
    TimelineShape(s.phases);
    var p :| p in s.phases && (e == ApplyOf(p) || e == ClearOf(p));
    EndWithinLast(s.phases, p);
  }

  // ---- what is active when ----

  predicate ActiveAt(p: Phase, t: real) {
    p.start <= t < End(p)
  }

  /** Phases of the target at different places in the list do not overlap. */
  ghost predicate NoOverlap(phases: seq<Phase>, target: string) {
    forall j, k :: 0 <= j < |phases| && 0 <= k < |phases| && j != k && phases[j].target == target && phases[k].target == target
      ==> End(phases[j]) <= phases[k].start || End(phases[k]) <= phases[j].start
  }

  lemma PhasesApart(phases: seq<Phase>, target: string, p: Phase, q: Phase)
    requires NoOverlap(phases, target) && p in phases && q in phases && p.target == target && q.target == target && p != q
    ensures End(p) <= q.start || End(q) <= p.start
  {
    var j :| 0 <= j < |phases| && phases[j] == p;
    var k :| 0 <= k < |phases| && phases[k] == q;
  }

  /** Applied but not yet cleared by the first `n` events. */
  predicate OpenAfter(tl: seq<TimelineEvent>, n: nat, p: Phase)
    requires n <= |tl|
  {
    ApplyOf(p) in tl[..n] && ClearOf(p) !in tl[..n]
  }

  /** In a sorted timeline, an event still to come is not before the event at hand. */
  lemma ComesAfter(tl: seq<TimelineEvent>, n: nat, e: TimelineEvent)
    requires Sorted(tl, Before) && n < |tl| && e in tl && e !in tl[..n] && e != tl[n]
    ensures Before(tl[n], e)
  {
    var k :| 0 <= k < |tl| && tl[k] == e;
    assert forall j :: 0 <= j < n ==> tl[j] in tl[..n];
  }

  lemma CameBefore(tl: seq<TimelineEvent>, n: nat, e: TimelineEvent)
    requires Sorted(tl, Before) && n < |tl| && e in tl[..n]
    ensures Before(e, tl[n])
  {
    var k :| 0 <= k < n && tl[..n][k] == e;
  }

  ghost predicate IsTimeline(tl: seq<TimelineEvent>, phases: seq<Phase>) {
    && Sorted(tl, Before)
    && (forall e :: e in tl <==> exists p :: p in phases && (e == ApplyOf(p) || e == ClearOf(p)))
    && (forall p :: p in phases ==> p.duration > 0.0)
  }

  /** At most one phase of the target is open after any number of events. */
  lemma OneOpen(tl: seq<TimelineEvent>, phases: seq<Phase>, target: string, n: nat, p: Phase, q: Phase)
    requires IsTimeline(tl, phases) && NoOverlap(phases, target) && n < |tl|
    requires tl[n] == ApplyOf(p) && p in phases && q in phases && p.target == target && q.target == target
    requires OpenAfter(tl, n, q)
    ensures p == q
  {
    if p != q {
      PhasesApart(phases, target, p, q);
      CameBefore(tl, n, ApplyOf(q));
      assert ClearOf(q) in tl && ClearOf(q) != tl[n];
      ComesAfter(tl, n, ClearOf(q));
    }
  }

  /** A clear leaves no phase of the target open. */
  lemma NoneOpen(tl: seq<TimelineEvent>, phases: seq<Phase>, target: string, n: nat, p: Phase, q: Phase)
    requires IsTimeline(tl, phases) && NoOverlap(phases, target) && n < |tl|
    requires tl[n] == ClearOf(p) && p in phases && q in phases && p.target == target && q.target == target && p != q
    ensures !OpenAfter(tl, n, q)
  {
    if OpenAfter(tl, n, q) {
      PhasesApart(phases, target, p, q);
      CameBefore(tl, n, ApplyOf(q));
      assert ClearOf(q) in tl && ClearOf(q) != tl[n];
      ComesAfter(tl, n, ClearOf(q));
    }
  }

  /** Replaying the first `n` events leaves the parameters of the open phase, or nothing. */
  lemma {:induction false} ReplayOpen(tl: seq<TimelineEvent>, phases: seq<Phase>, target: string, n: nat)
    requires IsTimeline(tl, phases) && NoOverlap(phases, target) && n <= |tl|
    ensures forall p :: p in phases && p.target == target && OpenAfter(tl, n, p) ==> Replay(tl[..n], target) == p.params
    ensures (forall p :: p in phases && p.target == target ==> !OpenAfter(tl, n, p)) ==> Replay(tl[..n], target) == map[]
  {
    if n > 0 {
      var m := n - 1;
      ReplayOpen(tl, phases, target, m);
      assert tl[..n] == tl[..m] + [tl[m]];
      assert tl[..n][..m] == tl[..m];
      var e := tl[m];
      assert e in tl;
      var p :| p in phases && (e == ApplyOf(p) || e == ClearOf(p));
      if p.target == target && e == ApplyOf(p) {
        ReplayApply(tl, phases, target, m, p);
      } else if p.target == target {
        forall q | q in phases && q.target == target && q != p ensures !OpenAfter(tl, n, q) {
          NoneOpen(tl, phases, target, m, p, q);
        }
      }
    }
  }

  lemma ReplayApply(tl: seq<TimelineEvent>, phases: seq<Phase>, target: string, m: nat, p: Phase)
    requires IsTimeline(tl, phases) && NoOverlap(phases, target) && m < |tl| && tl[m] == ApplyOf(p)
    requires p in phases && p.target == target
    requires forall q :: q in phases && q.target == target && OpenAfter(tl, m, q) ==> Replay(tl[..m], target) == q.params
    requires (forall q :: q in phases && q.target == target ==> !OpenAfter(tl, m, q)) ==> Replay(tl[..m], target) == map[]
    ensures Replay(tl[..m + 1], target) == p.params && OpenAfter(tl, m + 1, p)
    ensures forall q :: q in phases && q.target == target && OpenAfter(tl, m + 1, q) ==> q == p
  {
    assert tl[..m + 1] == tl[..m] + [tl[m]];
    assert tl[..m + 1][..m] == tl[..m];
    forall q | q in phases && q.target == target && OpenAfter(tl, m, q) ensures q == p {
      OneOpen(tl, phases, target, m, p, q);
    }
    assert ClearOf(p) !in tl[..m] by {
      if ClearOf(p) in tl[..m] {
        CameBefore(tl, m, ClearOf(p));
      }
    }
    if !OpenAfter(tl, m, p) {
      assert Replay(tl[..m], target) == map[];
      assert map[] + p.params == p.params;
    } else {
      assert p.params + p.params == p.params;
    }
  }

  /** How many events are due by time `t`. */
  function DueBy(tl: seq<TimelineEvent>, t: real): (n: nat)
    ensures n <= |tl|
  {
    if tl == [] || tl[0].atMs > t * 1000.0 then 0 else 1 + DueBy(tl[1..], t)
  }

  lemma {:induction false} DueByCuts(tl: seq<TimelineEvent>, t: real)
    requires Sorted(tl, Before)
    ensures forall k :: 0 <= k < |tl| ==> (tl[k].atMs <= t * 1000.0 <==> k < DueBy(tl, t))
  {
    if tl != [] && tl[0].atMs <= t * 1000.0 {
      DueByCuts(tl[1..], t);
      forall k | 0 < k < |tl| ensures tl[k].atMs <= t * 1000.0 <==> k < DueBy(tl, t) {
        assert tl[k] == tl[1..][k - 1];
      }
    }
  }

  function OverrideAt(phases: seq<Phase>, target: string, t: real): Params {
    var tl := Timeline(phases);
    Replay(tl[..DueBy(tl, t)], target)
  }

  /** Without overlap on a target, the override at any time is that of the one active phase, or
      empty: so the effective faults are the base, merged with the active phase if there is one.
      A phase that ends when the next one starts hands over cleanly. */
  lemma OverrideIsActivePhase(s: Schedule, target: string, t: real)
    requires WellFormed(s) && NoOverlap(s.phases, target)
    ensures forall p :: p in s.phases && p.target == target && ActiveAt(p, t) ==> OverrideAt(s.phases, target, t) == p.params
    ensures (forall p :: p in s.phases && p.target == target ==> !ActiveAt(p, t)) ==> OverrideAt(s.phases, target, t) == map[]
  {
    var tl := Timeline(s.phases);
    var n := DueBy(tl, t);
    TimelineShape(s.phases);
    DueByCuts(tl, t);
    ReplayOpen(tl, s.phases, target, n);
    forall p | p in s.phases && p.target == target ensures OpenAfter(tl, n, p) <==> ActiveAt(p, t) {
      DueMembers(tl, n, t, ApplyOf(p));
      DueMembers(tl, n, t, ClearOf(p));
    }
  }

  /** What a request decides on at any time: every knob the active phase sets has the phase's value,
      every other knob its configured one; without an active phase the configuration stands. */
  lemma EffectiveIsPhaseOverBase(s: Schedule, target: string, base: Params, t: real, knob: string)
    requires WellFormed(s) && NoOverlap(s.phases, target)
    ensures var faults := EffectiveFaults(base, OverrideAt(s.phases, target, t));
      && (forall p :: p in s.phases && p.target == target && ActiveAt(p, t) ==>
            && (knob in p.params ==> knob in faults && faults[knob] == p.params[knob])
            && (knob !in p.params ==> (knob in faults <==> knob in base) && (knob in base ==> faults[knob] == base[knob])))
      && ((forall p :: p in s.phases && p.target == target ==> !ActiveAt(p, t)) ==> faults == base)
  {
    OverrideIsActivePhase(s, target, t);
  }

  lemma DueMembers(tl: seq<TimelineEvent>, n: nat, t: real, e: TimelineEvent)
    requires e in tl && n <= |tl| && forall k :: 0 <= k < |tl| ==> (tl[k].atMs <= t * 1000.0 <==> k < n)
    ensures e in tl[..n] <==> e.atMs <= t * 1000.0
  {
    var k :| 0 <= k < |tl| && tl[k] == e;
    if k < n {
      assert tl[..n][k] == e;
    }
    if e in tl[..n] {
      var j :| 0 <= j < n && tl[..n][j] == e;
    }
  }

  // ---- with overlaps ----

  lemma {:induction false} ReplayAfterClear(tl: seq<TimelineEvent>, target: string, m: nat, n: nat)
    requires m < n <= |tl| && tl[m].kind == Clear && tl[m].phase.target == target
    requires forall k :: m < k < n ==> tl[k].phase.target == target ==> tl[k].kind == Clear
    ensures Replay(tl[..n], target) == map[]
  {
    assert tl[..n][..n - 1] == tl[..n - 1];
    if m < n - 1 {
      ReplayAfterClear(tl, target, m, n - 1);
    }
  }

  predicate Clears(e: TimelineEvent, target: string) {
    e.phase.target == target && e.kind == Clear
  }

  predicate Sets(e: TimelineEvent, target: string, knob: string) {
    e.phase.target == target && e.kind == Apply && knob in e.phase.params
  }

  /** Event `a` sets the knob, and no clear of the target follows before `n`. */
  predicate Stands(tl: seq<TimelineEvent>, target: string, knob: string, a: int, n: nat)
    requires n <= |tl|
  {
    0 <= a < n && Sets(tl[a], target, knob) && forall c :: a < c < n ==> !Clears(tl[c], target)
  }

  /** The last standing one decides. */
  predicate StandsLast(tl: seq<TimelineEvent>, target: string, knob: string, a: int, n: nat)
    requires n <= |tl|
  {
    Stands(tl, target, knob, a, n) && forall b :: a < b < n ==> !Sets(tl[b], target, knob)
  }

  /** A knob is in the override exactly when some apply of it stands, and then one is the last. */
  lemma {:induction false} ReplayKnob(tl: seq<TimelineEvent>, target: string, knob: string, n: nat)
    requires n <= |tl|
    ensures knob in Replay(tl[..n], target) <==> exists a :: StandsLast(tl, target, knob, a, n)
    ensures (exists a :: Stands(tl, target, knob, a, n)) ==> knob in Replay(tl[..n], target)
    ensures forall a :: StandsLast(tl, target, knob, a, n) && knob in Replay(tl[..n], target) ==>
              Replay(tl[..n], target)[knob] == tl[a].phase.params[knob]
  {
    if n > 0 {
      var m := n - 1;
      ReplayKnob(tl, target, knob, m);
      assert tl[..n][..m] == tl[..m] && tl[..n][m] == tl[m];
      StandsOn(tl, target, knob, m, n);
      assert Sets(tl[m], target, knob) ==> StandsLast(tl, target, knob, m, n);
    }
  }

  lemma StandsOn(tl: seq<TimelineEvent>, target: string, knob: string, m: nat, n: nat)
    requires m < |tl| && n == m + 1
    ensures Sets(tl[m], target, knob) ==> forall a :: StandsLast(tl, target, knob, a, n) <==> a == m
    ensures Clears(tl[m], target) ==> forall a :: !Stands(tl, target, knob, a, n)
    ensures !Sets(tl[m], target, knob) && !Clears(tl[m], target) ==>
              && (forall a :: Stands(tl, target, knob, a, n) <==> Stands(tl, target, knob, a, m))
              && (forall a :: StandsLast(tl, target, knob, a, n) <==> StandsLast(tl, target, knob, a, m))
  {
  }

  /** The phase of the target has started, and none of the target has ended since, itself included. */
  predicate Lasts(phases: seq<Phase>, target: string, p: Phase, t: real) {
    p.target == target && p.start <= t && forall q :: q in phases && q.target == target ==> !(p.start < End(q) <= t)
  }

  lemma LastingStands(phases: seq<Phase>, target: string, t: real, p: Phase, knob: string)
    requires p in phases && knob in p.params && Lasts(phases, target, p, t)
    ensures var tl := Timeline(phases);
      exists a :: Stands(tl, target, knob, a, DueBy(tl, t)) && tl[a] == ApplyOf(p)
  {
    var tl := Timeline(phases);
    TimelineShape(phases);
    DueByCuts(tl, t);
    assert ApplyOf(p) in tl;
    var a :| 0 <= a < |tl| && tl[a] == ApplyOf(p);
    forall c | a < c < DueBy(tl, t) ensures !Clears(tl[c], target) {
      assert tl[c] in tl && Before(tl[a], tl[c]) && tl[c].atMs <= t * 1000.0;
    }
    assert Stands(tl, target, knob, a, DueBy(tl, t));
  }

  lemma ClearComes(tl: seq<TimelineEvent>, n: nat, t: real, a: nat, q: Phase)
    requires Sorted(tl, Before) && n <= |tl| && forall k :: 0 <= k < |tl| ==> (tl[k].atMs <= t * 1000.0 <==> k < n)
    requires a < |tl| && ClearOf(q) in tl && tl[a].atMs < ClearOf(q).atMs <= t * 1000.0
    ensures exists c :: a < c < n && Clears(tl[c], q.target)
  {
    var c :| 0 <= c < |tl| && tl[c] == ClearOf(q);
    assert c < a ==> Before(tl[c], tl[a]);
    assert Clears(tl[c], q.target);
  }

  lemma StandingLasts(phases: seq<Phase>, target: string, t: real, knob: string, a: nat)
    requires Stands(Timeline(phases), target, knob, a, DueBy(Timeline(phases), t))
    ensures var e := Timeline(phases)[a]; e.phase in phases && e == ApplyOf(e.phase) && Lasts(phases, target, e.phase, t)
  {
    var tl := Timeline(phases);
    TimelineShape(phases);
    DueByCuts(tl, t);
    assert tl[a] in tl && tl[a].atMs <= t * 1000.0;
    forall q | q in phases && q.target == target ensures !(tl[a].phase.start < End(q) <= t) {
      if tl[a].phase.start < End(q) <= t {
        ClearComes(tl, DueBy(tl, t), t, a, q);
      }
    }
  }

  // -- which of several setters decides --

  function SetsAt(target: string, knob: string, start: real): TimelineEvent -> bool {
    (e: TimelineEvent) => Sets(e, target, knob) && e.phase.start == start
  }

  lemma {:induction false} PushedAt(phases: seq<Phase>)
    ensures |Pushed(phases)| == 2 * |phases|
    ensures forall k :: 0 <= k < |phases| ==> Pushed(phases)[2 * k] == ApplyOf(phases[k]) && Pushed(phases)[2 * k + 1] == ClearOf(phases[k])
  {
    if phases != [] {
      PushedAt(phases[..|phases| - 1]);
    }
  }

  lemma {:induction false} FilterLast<T>(s: seq<T>, keep: T -> bool, a: nat)
    requires a < |s| && keep(s[a]) && forall b :: a < b < |s| ==> !keep(s[b])
    ensures Filter(s, keep) != [] && Filter(s, keep)[|Filter(s, keep)| - 1] == s[a]
  {
    if a == 0 {
      FilterAll(s[1..], keep, false);
    } else {
      FilterLast(s[1..], keep, a - 1);
    }
  }

  /** Among applies at one instant the sort keeps the order of the phases. */
  lemma LastSetter(phases: seq<Phase>, target: string, knob: string, start: real, j: nat, a: nat)
    requires j < |phases| && SetsAt(target, knob, start)(ApplyOf(phases[j]))
    requires forall k :: j < k < |phases| ==> !SetsAt(target, knob, start)(ApplyOf(phases[k]))
    requires a < |Timeline(phases)| && SetsAt(target, knob, start)(Timeline(phases)[a])
    requires forall b :: a < b < |Timeline(phases)| ==> !SetsAt(target, knob, start)(Timeline(phases)[b])
    ensures Timeline(phases)[a] == ApplyOf(phases[j])
  {
    var keep, pushed := SetsAt(target, knob, start), Pushed(phases);
    PushedAt(phases);
    forall b | 2 * j < b < |pushed| ensures !keep(pushed[b]) {
      var k := b / 2;
      assert (pushed[b] == ApplyOf(phases[k]) && j < k) || pushed[b] == ClearOf(phases[k]);
    }
    FilterLast(pushed, keep, 2 * j);
    FilterLast(Timeline(phases), keep, a);
    BeforeIsOrder();
    SameInstant(pushed, keep, phases, target, knob, start);
    SortIsStable(pushed, Before, keep);
  }

  lemma SameInstant(pushed: seq<TimelineEvent>, keep: TimelineEvent -> bool, phases: seq<Phase>, target: string, knob: string, start: real)
    requires pushed == Pushed(phases) && keep == SetsAt(target, knob, start)
    ensures Sorted(Filter(pushed, keep), Before)
  {
    FilterMembers(pushed, keep);
    PushedMembers(phases);
    assert forall e :: e in Filter(pushed, keep) ==> e.kind == Apply && e.atMs == start * 1000.0;
  }

  /** Phase `j` is the last to have set the knob, in time and then in list order, of those that last. */
  ghost predicate Decides(phases: seq<Phase>, target: string, knob: string, t: real, j: nat) {
    && j < |phases| && knob in phases[j].params && Lasts(phases, target, phases[j], t)
    && forall k :: 0 <= k < |phases| && knob in phases[k].params && Lasts(phases, target, phases[k], t) ==>
         phases[k].start < phases[j].start || (phases[k].start == phases[j].start && k <= j)
  }

  lemma {:induction false} LastIndex(phases: seq<Phase>, keep: TimelineEvent -> bool, n: nat) returns (j: nat)
    requires n <= |phases| && exists k :: 0 <= k < n && keep(ApplyOf(phases[k]))
    ensures j < n && keep(ApplyOf(phases[j])) && forall k :: j < k < n ==> !keep(ApplyOf(phases[k]))
  {
    if keep(ApplyOf(phases[n - 1])) {
      j := n - 1;
    } else {
      j := LastIndex(phases, keep, n - 1);
    }
  }

  /** The last standing apply of the timeline is that of the phase that decides. */
  lemma LastDecides(phases: seq<Phase>, target: string, knob: string, t: real, a: nat) returns (j: nat)
    requires StandsLast(Timeline(phases), target, knob, a, DueBy(Timeline(phases), t))
    ensures Decides(phases, target, knob, t, j) && Timeline(phases)[a] == ApplyOf(phases[j])
  {
    var tl := Timeline(phases);
    var p := tl[a].phase;
    StandingLasts(phases, target, t, knob, a);
    var keep := SetsAt(target, knob, p.start);
    assert keep(ApplyOf(p));
    j := LastIndex(phases, keep, |phases|);
    NoneLater(phases, target, knob, t, a);
    LastSetter(phases, target, knob, p.start, j, a);
    forall k | 0 <= k < |phases| && knob in phases[k].params && Lasts(phases, target, phases[k], t)
      ensures phases[k].start < phases[j].start || (phases[k].start == phases[j].start && k <= j)
    {
      LastingEarlier(phases, target, knob, t, a, phases[k]);
      assert phases[k].start == p.start ==> keep(ApplyOf(phases[k]));
    }
  }

  lemma NoneLater(phases: seq<Phase>, target: string, knob: string, t: real, a: nat)
    requires StandsLast(Timeline(phases), target, knob, a, DueBy(Timeline(phases), t))
    ensures var tl := Timeline(phases); forall b :: a < b < |tl| ==> !SetsAt(target, knob, tl[a].phase.start)(tl[b])
  {
    var tl := Timeline(phases);
    TimelineShape(phases);
    DueByCuts(tl, t);
    forall b | a < b < |tl| ensures !SetsAt(target, knob, tl[a].phase.start)(tl[b]) {
      assert tl[a] in tl && tl[b] in tl;
    }
  }

  lemma LastingEarlier(phases: seq<Phase>, target: string, knob: string, t: real, a: nat, q: Phase)
    requires StandsLast(Timeline(phases), target, knob, a, DueBy(Timeline(phases), t))
    requires q in phases && knob in q.params && Lasts(phases, target, q, t)
    ensures q.start <= Timeline(phases)[a].phase.start
  {
    var tl := Timeline(phases);
    LastingStands(phases, target, t, q, knob);
    var b :| Stands(tl, target, knob, b, DueBy(tl, t)) && tl[b] == ApplyOf(q);
    StandingLasts(phases, target, t, knob, a);
    TimelineShape(phases);
    assert b < a ==> Before(tl[b], tl[a]);
  }

  lemma DecidingIsUnique(phases: seq<Phase>, target: string, knob: string, t: real, i: nat, j: nat)
    requires Decides(phases, target, knob, t, i) && Decides(phases, target, knob, t, j)
    ensures i == j
  {
  }

  /** Whatever overlaps, and however many phases set it: a knob is overridden exactly when a phase that
      sets it has started and no phase of the target has ended since, and its value is that of the last
      such phase. Every clear wipes the whole override, even under phases that are still active. */
  lemma InForceIff(s: Schedule, target: string, t: real, knob: string)
    ensures var faults := OverrideAt(s.phases, target, t);
      && (knob in faults <==> exists p :: p in s.phases && knob in p.params && Lasts(s.phases, target, p, t))
      && (knob in faults ==> exists j: nat :: Decides(s.phases, target, knob, t, j))
      && (forall j: nat :: Decides(s.phases, target, knob, t, j) ==> knob in faults && faults[knob] == s.phases[j].params[knob])
  {
    var tl := Timeline(s.phases);
    var n, faults := DueBy(tl, t), OverrideAt(s.phases, target, t);
    ReplayKnob(tl, target, knob, n);
    forall p | p in s.phases && knob in p.params && Lasts(s.phases, target, p, t) ensures knob in faults {
      LastingStands(s.phases, target, t, p, knob);
    }
    if knob in faults {
      var a :| StandsLast(tl, target, knob, a, n);
      var i := LastDecides(s.phases, target, knob, t, a);
      forall j: nat | Decides(s.phases, target, knob, t, j) ensures faults[knob] == s.phases[j].params[knob] {
        DecidingIsUnique(s.phases, target, knob, t, i, j);
      }
    }
    forall j: nat | Decides(s.phases, target, knob, t, j) ensures knob in faults {
      assert s.phases[j] in s.phases;
    }
  }

  /** At the instant a phase of the target ends and none starts, the whole override is empty, even in knobs
      that several phases set and under phases that are still active. */
  lemma ClearWipesAll(s: Schedule, target: string, p: Phase)
    requires WellFormed(s) && p in s.phases && p.target == target
    requires forall q :: q in s.phases && q.target == target ==> q.start != End(p)
    ensures OverrideAt(s.phases, target, End(p)) == map[]
  {
    var tl := Timeline(s.phases);
    var n := DueBy(tl, End(p));
    TimelineShape(s.phases);
    DueByCuts(tl, End(p));
    assert ClearOf(p) in tl;
    var m :| 0 <= m < |tl| && tl[m] == ClearOf(p);
    forall k | m < k < n && tl[k].phase.target == target ensures tl[k].kind == Clear {
      assert tl[k] in tl && Before(tl[m], tl[k]);
    }
    ReplayAfterClear(tl, target, m, n);
  }

  const OVERLAPPING := Schedule(0.0, [Phase("gateway", 0.0, 10.0, map["errorRate" := "0.5"]), Phase("gateway", 5.0, 20.0, map["latencyMs" := "200"])])

  /** The input: two phases that overlap on one target. When the first ends, the second is still active
      and its fault is gone. */
  lemma OverlapLosesFault()
    ensures WellFormed(OVERLAPPING)
    ensures var p := OVERLAPPING.phases[1];
      p in OVERLAPPING.phases && ActiveAt(p, 10.0) && "latencyMs" in p.params && OverrideAt(OVERLAPPING.phases, "gateway", 10.0) == map[]
  {
    var q := OVERLAPPING.phases[0];
    assert q in OVERLAPPING.phases && End(q) == 10.0;
    ClearWipesAll(OVERLAPPING, "gateway", q);
  }

  /** The whole timeline leaves every target's override empty, overlaps or not. */
  lemma FinalOverrideEmpty(s: Schedule, target: string)
    requires WellFormed(s)
    ensures Replay(Timeline(s.phases), target) == map[]
  {
    var tl := Timeline(s.phases);
    TimelineShape(s.phases);
    assert tl[..|tl|] == tl;
    FinalEmpty(tl, s.phases, target, |tl|);
  }

  /** Past the last event of the target nothing changes; that event is a clear, since the clear
      of an applied phase comes later still. */
  lemma {:induction false} FinalEmpty(tl: seq<TimelineEvent>, phases: seq<Phase>, target: string, n: nat)
    requires n <= |tl| && Sorted(tl, Before) && forall k :: n <= k < |tl| ==> tl[k].phase.target != target
    requires forall e :: e in tl <==> exists p :: p in phases && (e == ApplyOf(p) || e == ClearOf(p))
    requires forall p :: p in phases ==> p.duration > 0.0
    ensures Replay(tl[..n], target) == map[]
  {
    if n > 0 {
      assert tl[..n][..n - 1] == tl[..n - 1];
      if tl[n - 1].phase.target != target {
        FinalEmpty(tl, phases, target, n - 1);
      } else {
        LastIsClear(tl, phases, n - 1);
      }
    }
  }

  lemma LastIsClear(tl: seq<TimelineEvent>, phases: seq<Phase>, m: nat)
    requires m < |tl| && Sorted(tl, Before)
    requires forall k :: m < k < |tl| ==> tl[k].phase.target != tl[m].phase.target
    requires forall e :: e in tl <==> exists p :: p in phases && (e == ApplyOf(p) || e == ClearOf(p))
    requires forall p :: p in phases ==> p.duration > 0.0
    ensures tl[m].kind == Clear
  {
    assert tl[m] in tl;
    var p :| p in phases && (tl[m] == ApplyOf(p) || tl[m] == ClearOf(p));
    assert ClearOf(p) in tl;
    var k :| 0 <= k < |tl| && tl[k] == ClearOf(p);
    assert k < m ==> Before(tl[k], tl[m]);
  }
}
