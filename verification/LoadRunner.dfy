/** The load generator's dispatch loop: a target rate, a concurrency cap, and completion callbacks
    that run while the loop sleeps. Milliseconds are reals. */
module LoadRunner {
  datatype Bucket = Ok | RateLimited | ClientError | ServerError | Timeout

  datatype BucketCounts = BucketCounts(ok: nat, rateLimited: nat, clientError: nat, serverError: nat, timeout: nat)

  function Incremented(counts: BucketCounts, bucket: Bucket): BucketCounts {
    match bucket
    case Ok => counts.(ok := counts.ok + 1)
    case RateLimited => counts.(rateLimited := counts.rateLimited + 1)
    case ClientError => counts.(clientError := counts.clientError + 1)
    case ServerError => counts.(serverError := counts.serverError + 1)
    case Timeout => counts.(timeout := counts.timeout + 1)
  }

  function Total(counts: BucketCounts): nat {
    counts.ok + counts.rateLimited + counts.clientError + counts.serverError + counts.timeout
  }

  // ---- the schedule of slots ----

  /** Where the next slot lies after dispatching at `t` for the slot at `slot`. */
  function NextSlot(slot: real, t: real, interval: real): real {
    if slot + interval < t - interval then t else slot + interval
  }

  /** The slot in force after the dispatches at `times`. */
  function Slot(start: real, interval: real, times: seq<real>): real {
    if times == [] then start
    else NextSlot(Slot(start, interval, times[..|times| - 1]), times[|times| - 1], interval)
  }

  /** Every dispatch waited for its slot. */
  predicate OnSchedule(start: real, interval: real, times: seq<real>) {
    forall k :: 0 <= k < |times| ==> times[k] >= Slot(start, interval, times[..k])
  }

  function CountWithin(times: seq<real>, from: real, to: real): nat {
    if times == [] then 0
    else CountWithin(times[..|times| - 1], from, to) + if from <= times[|times| - 1] <= to then 1 else 0
  }

  lemma SlotSnoc(start: real, interval: real, times: seq<real>, k: nat)
    requires k < |times|
    ensures Slot(start, interval, times[..k + 1]) == NextSlot(Slot(start, interval, times[..k]), times[k], interval)
  {
    assert times[..k + 1][..k] == times[..k];
  }

  /** `n` intervals. */
  function Steps(n: nat, interval: real): real {
    if n == 0 then 0.0 else Steps(n - 1, interval) + interval
  }

  /** Slots are at least an interval apart, resync or not. */
  lemma {:induction false} SlotsApart(start: real, interval: real, times: seq<real>, j: nat, k: nat)
    requires interval > 0.0 && OnSchedule(start, interval, times) && j <= k <= |times|
    ensures Slot(start, interval, times[..k]) >= Slot(start, interval, times[..j]) + Steps(k - j, interval)
  {
    if j < k {
      SlotsApart(start, interval, times, j, k - 1);
      SlotSnoc(start, interval, times, k - 1);
    }
  }

  /** Dispatch `k` comes no earlier than `k` intervals after the start. */
  lemma DispatchNotEarly(start: real, interval: real, times: seq<real>, k: nat)
    requires interval > 0.0 && OnSchedule(start, interval, times) && k < |times|
    ensures times[k] >= start + Steps(k, interval)
  {
    SlotsApart(start, interval, times, 0, k);
    assert times[..0] == [];
  }

  /** A late dispatch leaves at most one overdue slot behind it, so later ones are apart. */
  lemma DispatchesApart(start: real, interval: real, times: seq<real>, j: nat, k: nat)
    requires interval > 0.0 && OnSchedule(start, interval, times) && j < k < |times|
    ensures times[k] >= times[j] - interval + Steps(k - (j + 1), interval)
  {
    assert times[k] >= Slot(start, interval, times[..k]);
    SlotSnoc(start, interval, times, j);
    hide Slot, Steps;
    SlotsApart(start, interval, times, j + 1, k);
    hide OnSchedule;
  }

  lemma Distribute(a: real, x: real)
    ensures (a + 1.0) * x == a * x + x
  {
  }

  lemma {:induction false} StepsMultiply(n: nat, interval: real)
    ensures Steps(n, interval) == n as real * interval
  {
    if n > 0 {
      StepsMultiply(n - 1, interval);
      Distribute((n - 1) as real, interval);
    }
  }

  lemma Quotient(a: real, x: real, interval: real)
    requires interval > 0.0 && a * interval <= x
    ensures a <= x / interval
  {
    var q := x / interval;
    assert q * interval == x;
    assert (q - a) * interval >= 0.0;
  }

  /** As many whole steps as fit. */
  lemma StepsFit(n: nat, x: real, interval: real)
    requires interval > 0.0 && Steps(n, interval) <= x
    ensures n <= (x / interval).Floor
  {
    StepsMultiply(n, interval);
    Quotient(n as real, x, interval);
  }

  lemma ExactQuotient(q: real, x: real, interval: real)
    requires interval > 0.0 && q * interval == x
    ensures x / interval == q
  {
    var r := x / interval;
    assert r * interval == x;
    assert (r - q) * interval == 0.0;
  }

  lemma OneMore(x: real, interval: real)
    requires interval > 0.0
    ensures ((x + interval) / interval).Floor == (x / interval).Floor + 1
  {
    var q := x / interval;
    Distribute(q, interval);
    ExactQuotient(q + 1.0, x + interval, interval);
  }

  lemma {:induction false} CountBounded(times: seq<real>, from: real, to: real, first: nat, bound: nat)
    requires forall k :: 0 <= k < |times| && from <= times[k] <= to ==> first <= k < first + bound
    ensures CountWithin(times, from, to) <= bound
    ensures CountWithin(times, from, to) <= if |times| <= first then 0 else |times| - first
  {
    if times != [] {
      var n := |times| - 1;
      CountBounded(times[..n], from, to, first, bound);
      if from <= times[n] <= to {
        CountBounded(times[..n], from, to, first, n - first);
      }
    }
  }

  /** The rate: up to any time `t`, at most one dispatch per interval since the start, plus one. */
  lemma RateBound(start: real, interval: real, times: seq<real>, from: real, t: real)
    requires interval > 0.0 && OnSchedule(start, interval, times) && t >= start
    ensures CountWithin(times, from, t) <= ((t - start) / interval).Floor + 1
  {
    var fit := ((t - start) / interval).Floor;
    StepsFit(0, t - start, interval);
    forall k | 0 <= k < |times| && from <= times[k] <= t ensures k < fit + 1 {
      DispatchNotEarly(start, interval, times, k);
      StepsFit(k, t - start, interval);
    }
    CountBounded(times, from, t, 0, fit + 1);
  }

  lemma {:induction false} FirstWithin(times: seq<real>, from: real, to: real) returns (first: nat)
    requires CountWithin(times, from, to) > 0
    ensures first < |times| && from <= times[first] <= to
    ensures forall k :: 0 <= k < first ==> !(from <= times[k] <= to)
  {
    var n := |times| - 1;
    if CountWithin(times[..n], from, to) > 0 {
      first := FirstWithin(times[..n], from, to);
    } else {
      first := n;
      NoneWithin(times[..n], from, to);
    }
  }

  lemma {:induction false} NoneWithin(times: seq<real>, from: real, to: real)
    requires CountWithin(times, from, to) == 0
    ensures forall k :: 0 <= k < |times| ==> !(from <= times[k] <= to)
  {
    if times != [] {
      NoneWithin(times[..|times| - 1], from, to);
    }
  }

  /** The burst: whatever fell behind, a window of any length holds at most three dispatches more
      than the rate allows, because a dispatch more than an interval late resyncs the slots. */
  lemma WindowBound(start: real, interval: real, times: seq<real>, from: real, to: real)
    requires interval > 0.0 && OnSchedule(start, interval, times) && from <= to
    ensures CountWithin(times, from, to) <= ((to - from) / interval).Floor + 3
  {
    var fit := ((to - from) / interval).Floor;
    StepsFit(0, to - from, interval);
    if CountWithin(times, from, to) > 0 {
      var first := FirstWithin(times, from, to);
      OneMore(to - from, interval);
      forall k | 0 <= k < |times| && from <= times[k] <= to ensures first <= k < first + (fit + 3) {
        if first < k {
          DispatchesApart(start, interval, times, first, k);
          StepsFit(k - (first + 1), to - from + interval, interval);
        }
      }
      CountBounded(times, from, to, first, fit + 3);
    }
  }

  // ---- the loop ----

  /** A request's promise: pending, its result counted, its `finally` run. */
  datatype Promise = Pending | Counted | Settled

  datatype Callback = Then(request: nat, bucket: Bucket, latencyMs: real) | Finally(request: nat)

  /** One turn of the loop: the two clock readings, and the callbacks that run if it sleeps. */
  datatype Turn = Turn(guard: real, at: real, callbacks: seq<Callback>)

  function CountOf(settled: seq<Promise>, which: set<Promise>): nat {
    if settled == [] then 0
    else CountOf(settled[..|settled| - 1], which) + if settled[|settled| - 1] in which then 1 else 0
  }

  lemma {:induction false} CountUpdate(settled: seq<Promise>, k: nat, p: Promise, which: set<Promise>)
    requires k < |settled|
    ensures CountOf(settled[k := p], which)
      == CountOf(settled, which) - (if settled[k] in which then 1 else 0) + (if p in which then 1 else 0)
  {
    var n := |settled| - 1;
    if k < n {
      CountUpdate(settled[..n], k, p, which);
      assert settled[k := p][..n] == settled[..n][k := p];
    } else {
      assert settled[k := p][..n] == settled[..n];
    }
  }

  lemma CountSnoc(settled: seq<Promise>, p: Promise, which: set<Promise>)
    ensures CountOf(settled + [p], which) == CountOf(settled, which) + if p in which then 1 else 0
  {
    assert (settled + [p])[..|settled|] == settled;
  }

  lemma {:induction false} CountAll(settled: seq<Promise>, which: set<Promise>)
    requires forall p :: p in settled ==> p in which
    ensures CountOf(settled, which) == |settled|
  {
    if settled != [] {
      CountAll(settled[..|settled| - 1], which);
      assert settled[|settled| - 1] in settled;
    }
  }

  lemma {:induction false} CountNone(settled: seq<Promise>, which: set<Promise>)
    requires forall p :: p in settled ==> p !in which
    ensures CountOf(settled, which) == 0
  {
    if settled != [] {
      CountNone(settled[..|settled| - 1], which);
      assert settled[|settled| - 1] in settled;
    }
  }

  function IntervalMs(targetQps: real): (ms: real)
    requires targetQps > 0.0
    ensures ms > 0.0 && ms * targetQps == 1000.0
  {
    1000.0 / targetQps
  }

  /** The fields a callback touches, and then those of the scheduler. */
  datatype Tally = Tally(counts: BucketCounts, latencies: seq<real>, inFlight: int, settled: seq<Promise>)

  datatype State = State(tally: Tally, nextAt: real, times: seq<real>)

  /** A promise callback; each runs once per request, the count before the release. */
  function AfterCallback(s: Tally, c: Callback): Tally {
    if c.request >= |s.settled| then s
    else if c.Then? && s.settled[c.request] == Pending then
      Tally(Incremented(s.counts, c.bucket), s.latencies + [c.latencyMs], s.inFlight, s.settled[c.request := Counted])
    else if c.Finally? && s.settled[c.request] == Counted then
      s.(inFlight := s.inFlight - 1, settled := s.settled[c.request := Settled])
    else s
  }

  function AfterCallbacks(s: Tally, cs: seq<Callback>): Tally {
    if cs == [] then s else AfterCallback(AfterCallbacks(s, cs[..|cs| - 1]), cs[|cs| - 1])
  }

  predicate Results(c: Callback, r: nat) { c.Then? && c.request == r }

  predicate Releases(c: Callback, r: nat) { c.Finally? && c.request == r }

  /** A pending request is counted exactly when its result comes, and released exactly when its release
      comes after that. */
  lemma {:induction false} SettledIff(s: Tally, cs: seq<Callback>, r: nat)
    requires r < |s.settled| && s.settled[r] == Pending
    ensures var after := AfterCallbacks(s, cs).settled;
      && |after| == |s.settled|
      && (after[r] != Pending <==> exists i :: 0 <= i < |cs| && Results(cs[i], r))
      && (after[r] == Settled <==> exists i, j :: 0 <= i < j < |cs| && Results(cs[i], r) && Releases(cs[j], r))
  {
    if cs != [] {
      var n := |cs| - 1;
      var init := cs[..n];
      SettledIff(s, init, r);
      assert forall i :: 0 <= i < n ==> init[i] == cs[i];
      if i :| 0 <= i < n && Results(init[i], r) {
        assert Results(cs[i], r);
      }
    }
  }

  function AfterTurn(interval: real, concurrency: nat, s: State, turn: Turn): State {
    if turn.at >= s.nextAt && s.tally.inFlight < concurrency then
      State(
        s.tally.(inFlight := s.tally.inFlight + 1, settled := s.tally.settled + [Pending]),
        NextSlot(s.nextAt, turn.at, interval),
        s.times + [turn.at])
    else s.(tally := AfterCallbacks(s.tally, turn.callbacks))
  }

  function AfterTurns(interval: real, concurrency: nat, s: State, turns: seq<Turn>): State {
    if turns == [] then s
    else AfterTurn(interval, concurrency, AfterTurns(interval, concurrency, s, turns[..|turns| - 1]), turns[|turns| - 1])
  }

  /** The turns before the first guard reading at or past the deadline. */
  function Taken(turns: seq<Turn>, deadline: real): seq<Turn> {
    if turns == [] || turns[0].guard >= deadline then [] else [turns[0]] + Taken(turns[1..], deadline)
  }

  lemma {:induction false} TakenUpTo(turns: seq<Turn>, deadline: real)
    ensures var k := |Taken(turns, deadline)|;
      && Taken(turns, deadline) <= turns && (forall turn :: turn in Taken(turns, deadline) ==> turn.guard < deadline)
      && (k < |turns| ==> turns[k].guard >= deadline)
  {
    if turns != [] && turns[0].guard < deadline {
      TakenUpTo(turns[1..], deadline);
      assert turns == [turns[0]] + turns[1..];
    }
  }

  // ---- what every run of the loop keeps ----

  /** In flight are exactly the requests not yet released, never more than the cap; every counted
      request has its latency; and dispatches follow the schedule. */
  ghost predicate Inv(interval: real, concurrency: nat, start: real, s: State) {
    && TallyInv(s.tally) && s.tally.inFlight <= concurrency
    && |s.times| == |s.tally.settled|
    && s.nextAt == Slot(start, interval, s.times)
    && OnSchedule(start, interval, s.times)
  }

  ghost predicate TallyInv(s: Tally) {
    && s.inFlight == CountOf(s.settled, {Pending, Counted})
    && Total(s.counts) == |s.latencies| == CountOf(s.settled, {Counted, Settled})
  }

  lemma CallbackKeeps(s: Tally, c: Callback)
    requires TallyInv(s)
    ensures TallyInv(AfterCallback(s, c)) && AfterCallback(s, c).inFlight <= s.inFlight
    ensures |AfterCallback(s, c).settled| == |s.settled|
  {
    if c.request < |s.settled| {
      CountUpdate(s.settled, c.request, Counted, {Pending, Counted});
      CountUpdate(s.settled, c.request, Counted, {Counted, Settled});
      CountUpdate(s.settled, c.request, Settled, {Pending, Counted});
      CountUpdate(s.settled, c.request, Settled, {Counted, Settled});
    }
  }

  lemma {:induction false} CallbacksKeep(s: Tally, cs: seq<Callback>)
    requires TallyInv(s)
    ensures TallyInv(AfterCallbacks(s, cs)) && AfterCallbacks(s, cs).inFlight <= s.inFlight
    ensures |AfterCallbacks(s, cs).settled| == |s.settled|
  {
    if cs != [] {
      CallbacksKeep(s, cs[..|cs| - 1]);
      CallbackKeeps(AfterCallbacks(s, cs[..|cs| - 1]), cs[|cs| - 1]);
    }
  }

  lemma TurnKeeps(interval: real, concurrency: nat, start: real, s: State, turn: Turn)
    requires Inv(interval, concurrency, start, s)
    ensures Inv(interval, concurrency, start, AfterTurn(interval, concurrency, s, turn))
  {
    if turn.at >= s.nextAt && s.tally.inFlight < concurrency {
      CountSnoc(s.tally.settled, Pending, {Pending, Counted});
      CountSnoc(s.tally.settled, Pending, {Counted, Settled});
      Dispatched(start, interval, s.times, turn.at);
    } else {
      CallbacksKeep(s.tally, turn.callbacks);
    }
  }

  /** In flight never exceeds the cap, and dispatches equal counts plus those not yet counted, over
      every run of the clock and of the callbacks. */
  lemma {:induction false} LoopKeeps(interval: real, concurrency: nat, start: real, s: State, turns: seq<Turn>)
    requires Inv(interval, concurrency, start, s)
    ensures Inv(interval, concurrency, start, AfterTurns(interval, concurrency, s, turns))
  {
    if turns != [] {
      LoopKeeps(interval, concurrency, start, s, turns[..|turns| - 1]);
      TurnKeeps(interval, concurrency, start, AfterTurns(interval, concurrency, s, turns[..|turns| - 1]), turns[|turns| - 1]);
    }
  }

  /** Dispatches split into those in flight and those released; between a count and its release a
      request is in both books. */
  lemma {:induction false} Conserved(settled: seq<Promise>)
    ensures CountOf(settled, {Pending, Counted}) + CountOf(settled, {Counted, Settled}) == |settled| + CountOf(settled, {Counted})
  {
    if settled != [] {
      var last := settled[|settled| - 1];
      Conserved(settled[..|settled| - 1]);
      assert last == Pending || last == Counted || last == Settled;
    }
  }

  /** A slot lies at most an interval after the dispatch before it. */
  lemma SlotSoon(start: real, interval: real, times: seq<real>)
    requires interval > 0.0 && OnSchedule(start, interval, times)
    ensures Slot(start, interval, times) <= if times == [] then start else times[|times| - 1] + interval
  {
    if times != [] {
      var n := |times| - 1;
      assert times[n] >= Slot(start, interval, times[..n]);
    }
  }

  /** Below the cap the loop dispatches: at the latest when an interval has passed since the last one. */
  lemma DispatchesInTime(interval: real, concurrency: nat, start: real, turns: seq<Turn>, turn: Turn)
    requires interval > 0.0
    requires var s := AfterTurns(interval, concurrency, Idle(start), turns);
      && s.tally.inFlight < concurrency
      && turn.at >= if s.times == [] then start else s.times[|s.times| - 1] + interval
    ensures var s := AfterTurns(interval, concurrency, Idle(start), turns);
      AfterTurn(interval, concurrency, s, turn).times == s.times + [turn.at]
  {
    LoopKeeps(interval, concurrency, start, Idle(start), turns);
    SlotSoon(start, interval, AfterTurns(interval, concurrency, Idle(start), turns).times);
  }

  /** No dispatch came more than two intervals after its place in the schedule. */
  predicate Prompt(start: real, interval: real, times: seq<real>) {
    forall k :: 0 <= k < |times| ==> times[k] <= start + Steps(k, interval) + interval + interval
  }

  lemma {:induction false} PromptSlots(start: real, interval: real, times: seq<real>)
    requires interval > 0.0 && Prompt(start, interval, times)
    ensures Slot(start, interval, times) == start + Steps(|times|, interval)
  {
    if times != [] {
      var init := times[..|times| - 1];
      assert forall k :: 0 <= k < |init| ==> times[k] == init[k];
      PromptSlots(start, interval, init);
    }
  }

  /** And a loop that keeps up makes the whole rate: when it sleeps below the cap at a time `t`, it has
      dispatched once at the start and once for every interval since. */
  lemma RateReached(interval: real, concurrency: nat, start: real, turns: seq<Turn>, turn: Turn)
    requires interval > 0.0 && turn.at >= start
    requires var s := AfterTurns(interval, concurrency, Idle(start), turns);
      && s.tally.inFlight < concurrency && Prompt(start, interval, s.times)
      && AfterTurn(interval, concurrency, s, turn).times == s.times
    ensures var s := AfterTurns(interval, concurrency, Idle(start), turns);
      |s.times| >= ((turn.at - start) / interval).Floor + 1
  {
    hide AfterTurns, AfterTurn, Prompt, Slot, OnSchedule, Idle;
    FromIdle(interval, concurrency, start, turns);
    var s := AfterTurns(interval, concurrency, Idle(start), turns);
    SleepsEarly(interval, concurrency, s, turn);
    WholeRate(interval, start, s.times, s.nextAt, turn.at);
  }

  lemma WholeRate(interval: real, start: real, times: seq<real>, nextAt: real, at: real)
    requires interval > 0.0 && Prompt(start, interval, times) && OnSchedule(start, interval, times)
    requires nextAt == Slot(start, interval, times) && at < nextAt
    ensures |times| >= ((at - start) / interval).Floor + 1
  {
    PromptSlots(start, interval, times);
    StepsExceed(|times|, at - start, interval);
  }

  lemma FromIdle(interval: real, concurrency: nat, start: real, turns: seq<Turn>)
    ensures var s := AfterTurns(interval, concurrency, Idle(start), turns);
      s.nextAt == Slot(start, interval, s.times) && OnSchedule(start, interval, s.times)
  {
    LoopKeeps(interval, concurrency, start, Idle(start), turns);
  }

  lemma SleepsEarly(interval: real, concurrency: nat, s: State, turn: Turn)
    requires s.tally.inFlight < concurrency && AfterTurn(interval, concurrency, s, turn).times == s.times
    ensures turn.at < s.nextAt
  {
    assert |s.times + [turn.at]| == |s.times| + 1;
  }

  lemma StepsExceed(n: nat, x: real, interval: real)
    requires interval > 0.0 && Steps(n, interval) > x
    ensures n >= (x / interval).Floor + 1
  {
    StepsMultiply(n, interval);
    var q := x / interval;
    assert q * interval == x;
    assert (n as real - q) * interval == n as real * interval - x;
    PositiveFactor(n as real - q, interval);
  }

  lemma PositiveFactor(a: real, b: real)
    requires b > 0.0 && a * b > 0.0
    ensures a > 0.0
  {
  }

  function CountFor(counts: BucketCounts, bucket: Bucket): nat {
    match bucket
    case Ok => counts.ok
    case RateLimited => counts.rateLimited
    case ClientError => counts.clientError
    case ServerError => counts.serverError
    case Timeout => counts.timeout
  }

  /** A result is counted in its own bucket and in no other. */
  lemma CountedInPlace(counts: BucketCounts, bucket: Bucket)
    ensures forall b :: CountFor(Incremented(counts, bucket), b) == CountFor(counts, b) + if b == bucket then 1 else 0
  {
  }

  /** Once every request has settled, the counts and the latencies cover all the dispatches. */
  lemma AllSettled(interval: real, concurrency: nat, start: real, s: State)
    requires Inv(interval, concurrency, start, s) && forall p :: p in s.tally.settled ==> p == Settled
    ensures s.tally.inFlight == 0 && Total(s.tally.counts) == |s.tally.latencies| == |s.times|
  {
    CountAll(s.tally.settled, {Counted, Settled});
    CountNone(s.tally.settled, {Pending, Counted});
  }

  function Idle(start: real): State {
    State(Tally(BucketCounts(0, 0, 0, 0, 0), [], 0, []), start, [])
  }

  /** Over every run: the cap on requests in flight, the books, the rate and the burst bound. */
  lemma EveryRunBounded(interval: real, concurrency: nat, start: real, turns: seq<Turn>, from: real, to: real)
    requires interval > 0.0 && from <= to
    ensures var s := AfterTurns(interval, concurrency, Idle(start), turns);
      && 0 <= s.tally.inFlight <= concurrency
      && Total(s.tally.counts) == |s.tally.latencies|
      && Total(s.tally.counts) + s.tally.inFlight == |s.times| + CountOf(s.tally.settled, {Counted})
      && CountWithin(s.times, from, to) <= ((to - from) / interval).Floor + 3
      && (to >= start ==> CountWithin(s.times, from, to) <= ((to - start) / interval).Floor + 1)
  {
    LoopKeeps(interval, concurrency, start, Idle(start), turns);
    var s := AfterTurns(interval, concurrency, Idle(start), turns);
    Conserved(s.tally.settled);
    WindowBound(start, interval, s.times, from, to);
    if to >= start {
      RateBound(start, interval, s.times, from, to);
    }
  }

  // ---- the loop ----

  class Load {
    const interval: real
    const concurrency: nat
    const deadline: real
    var counts: BucketCounts
    var latencies: seq<real>
    var inFlight: int
    var settled: seq<Promise>
    var nextAt: real
    ghost var times: seq<real>

    ghost function CurrentTally(): Tally
      reads this`counts, this`latencies, this`inFlight, this`settled
    {
      Tally(counts, latencies, inFlight, settled)
    }

    ghost function Current(): State
      reads this
    {
      State(CurrentTally(), nextAt, times)
    }

    /** `began` and `first` are the readings that set the deadline and the first slot. */
    constructor (targetQps: real, durationSeconds: real, cap: nat, began: real, first: real)
      requires targetQps > 0.0
      ensures Current() == Idle(first)
      ensures interval == IntervalMs(targetQps) && concurrency == cap && deadline == began + durationSeconds * 1000.0
    {
      interval, concurrency, deadline := IntervalMs(targetQps), cap, began + durationSeconds * 1000.0;
      nextAt := first;
      counts := BucketCounts(0, 0, 0, 0, 0);
      latencies, inFlight, settled, times := [], 0, [], [];
    }

    method Dispatch()
      modifies this`inFlight, this`settled
      ensures inFlight == old(inFlight) + 1 && settled == old(settled) + [Pending]
    {
      inFlight := inFlight + 1;
      settled := settled + [Pending];
    }

    method Run(c: Callback)
      modifies this`counts, this`latencies, this`inFlight, this`settled
      ensures CurrentTally() == AfterCallback(old(CurrentTally()), c)
      ensures c.Then? && c.request < |old(settled)| && old(settled)[c.request] == Pending ==>
        && settled == old(settled)[c.request := Counted] && inFlight == old(inFlight) && latencies == old(latencies) + [c.latencyMs]
        && forall b :: CountFor(counts, b) == CountFor(old(counts), b) + if b == c.bucket then 1 else 0
      ensures c.Finally? && c.request < |old(settled)| && old(settled)[c.request] == Counted ==>
        && settled == old(settled)[c.request := Settled] && inFlight == old(inFlight) - 1
        && counts == old(counts) && latencies == old(latencies)
    {
      if c.request >= |settled| {
        return;
      }
      match c
      case Then(k, bucket, latencyMs) =>
        if settled[k] == Pending {
          counts := Incremented(counts, bucket);
          latencies := latencies + [latencyMs];
          settled := settled[k := Counted];
        }
      case Finally(k) =>
        if settled[k] == Counted {
          inFlight := inFlight - 1;
          settled := settled[k := Settled];
        }
    }

    /** Sleeping, or the final wait: the callbacks that come due run one after the other. */
    method Sleep(callbacks: seq<Callback>)
      modifies this`counts, this`latencies, this`inFlight, this`settled
      ensures CurrentTally() == AfterCallbacks(old(CurrentTally()), callbacks)
    {
      for k := 0 to |callbacks|
        invariant CurrentTally() == AfterCallbacks(old(CurrentTally()), callbacks[..k])
      {
        Run(callbacks[k]);
        assert callbacks[..k + 1][..k] == callbacks[..k];
      }
      assert callbacks[..|callbacks|] == callbacks;
    }

    /** The branch that dispatches, and the slot it leaves behind. */
    method Release(t: real, ghost turn: Turn)
      requires t == turn.at && t >= nextAt && inFlight < concurrency
      modifies this`inFlight, this`settled, this`nextAt, this`times
      ensures Current() == AfterTurn(interval, concurrency, old(Current()), turn)
    {
      Dispatch();
      nextAt := nextAt + interval;
      if nextAt < t - interval {
        nextAt := t;
      }
      times := times + [t];
    }

    /** The loop over any run of the clock and the callbacks, or any prefix of one. */
    method RunLoop(turns: seq<Turn>)
      modifies this
      ensures Current() == AfterTurns(interval, concurrency, old(Current()), Taken(turns, deadline))
    {
      var k := 0;
      while k < |turns| && turns[k].guard < deadline
        invariant 0 <= k <= |turns|
        invariant Taken(turns, deadline) == turns[..k] + Taken(turns[k..], deadline)
        invariant Current() == AfterTurns(interval, concurrency, old(Current()), turns[..k])
      {
        if turns[k].at >= nextAt && inFlight < concurrency {
          Release(turns[k].at, turns[k]);
        } else {
          Sleep(turns[k].callbacks);
        }
        TakenStep(turns, k, deadline);
        assert turns[..k + 1][..k] == turns[..k];
        k := k + 1;
      }
      assert Taken(turns[k..], deadline) == [];
      assert turns[..k] + [] == turns[..k];
    }
  }

  lemma TakenStep(turns: seq<Turn>, k: nat, deadline: real)
    requires k < |turns| && turns[k].guard < deadline
    ensures turns[..k] + Taken(turns[k..], deadline) == turns[..k + 1] + Taken(turns[k + 1..], deadline)
  {
    assert turns[k..][1..] == turns[k + 1..];
  }

  lemma Dispatched(start: real, interval: real, times: seq<real>, t: real)
    requires OnSchedule(start, interval, times) && t >= Slot(start, interval, times)
    ensures OnSchedule(start, interval, times + [t])
    ensures Slot(start, interval, times + [t]) == NextSlot(Slot(start, interval, times), t, interval)
  {
    var now := times + [t];
    assert now[..|times|] == times;
    forall k | 0 <= k < |now| ensures now[k] >= Slot(start, interval, now[..k]) {
      if k < |times| {
        assert now[..k] == times[..k];
      }
    }
  }
}
