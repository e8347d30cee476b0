/** The live event hub of one run: a replay buffer, subscriber queues, and a subscription that
    replays a snapshot and then follows its queue. Publishing has no suspension point; a
    subscription suspends exactly at its yields and when its queue is empty. */
module EventHub {
  import opened Options
  import opened Sequences
  import opened Json
  import opened SseWire

  type SubId = nat

  function TypeOf(fields: seq<Field>): Option<Json> {
    if fields == [] then None else if fields[0].key == "type" then Some(fields[0].value) else TypeOf(fields[1..])
  }

  predicate Terminal(e: Json) {
    e.Obj? && (TypeOf(e.fields) == Some(Str("done")) || TypeOf(e.fields) == Some(Str("error")))
  }

  ghost predicate HasTerminal(s: seq<Json>) {
    exists k :: 0 <= k < |s| && Terminal(s[k])
  }

  /** Where a subscription is suspended: not begun, after yielding `snapshot[next - 1]`, or in
      the live loop after yielding `last`. `early` marks a return on the `done` flag. */
  datatype Stage =
    | Fresh
    | Replaying(snapshot: seq<Json>, next: nat)
    | Live(last: Option<Json>)
    | Returned(early: bool)
    | Cancelled

  /** `received` records what the subscription has yielded. */
  datatype Sub = Sub(stage: Stage, queue: seq<Json>, received: seq<Json>)

  datatype Entry = Entry(buffer: seq<Json>, done: bool, subscribers: set<SubId>, subs: map<SubId, Sub>)

  const EMPTY := Entry([], false, {}, map[])

  // ---- steps ----

  function Enqueued(s: Sub, e: Json): Sub {
    s.(queue := s.queue + [e])
  }

  function Published(n: Entry, e: Json): Entry {
    Entry(n.buffer + [e], n.done || Terminal(e), n.subscribers,
          map id | id in n.subs :: if id in n.subscribers then Enqueued(n.subs[id], e) else n.subs[id])
  }

  function Subscribed(n: Entry, id: SubId): Entry {
    n.(subs := n.subs[id := Sub(Fresh, [], [])])
  }

  function Put(n: Entry, id: SubId, s: Sub): Entry {
    n.(subs := n.subs[id := s])
  }

  /** Leaving the generator, by return or cancellation, discards its queue from the fan-out. */
  function Left(n: Entry, id: SubId, stage: Stage): Entry
    requires id in n.subs
  {
    Put(n, id, n.subs[id].(stage := stage)).(subscribers := n.subscribers - {id})
  }

  function YieldNext(n: Entry, id: SubId, e: Json, stage: Stage, queue: seq<Json>): Entry
    requires id in n.subs
  {
    Put(n, id, Sub(stage, queue, n.subs[id].received + [e]))
  }

  function LiveNext(n: Entry, id: SubId, last: Option<Json>): Entry
    requires id in n.subs
  {
    var s := n.subs[id];
    if last.Some? && Terminal(last.value) then Left(n, id, Returned(false))
    else if s.queue == [] then Put(n, id, s.(stage := Live(last)))
    else YieldNext(n, id, s.queue[0], Live(Some(s.queue[0])), s.queue[1..])
  }

  function ReplayNext(n: Entry, id: SubId, snapshot: seq<Json>, next: nat): Entry
    requires id in n.subs && next <= |snapshot|
  {
    if next > 0 && Terminal(snapshot[next - 1]) then Left(n, id, Returned(false))
    else if next < |snapshot| then YieldNext(n, id, snapshot[next], Replaying(snapshot, next + 1), n.subs[id].queue)
    else if n.done then Left(n, id, Returned(true))
    else LiveNext(n, id, None)
  }

  predicate StageOk(s: Sub) {
    s.stage.Replaying? ==> s.stage.next <= |s.stage.snapshot|
  }

  /** Resuming a subscription runs it to its next yield, its return, or an empty queue. */
  function Resumed(n: Entry, id: SubId): Entry
    requires id in n.subs && StageOk(n.subs[id])
  {
    match n.subs[id].stage
    case Fresh => ReplayNext(n.(subscribers := n.subscribers + {id}), id, n.buffer, 0)
    case Replaying(snapshot, next) => ReplayNext(n, id, snapshot, next)
    case Live(last) => LiveNext(n, id, last)
    case _ => n
  }

  datatype Step = Publish(e: Json) | Subscribe(id: SubId) | Resume(id: SubId) | Cancel(id: SubId)

  predicate Enabled(n: Entry, st: Step) {
    match st
    case Publish(_) => true
    case Subscribe(id) => id !in n.subs
    case Resume(id) => id in n.subs && StageOk(n.subs[id])
    case Cancel(id) => id in n.subs && !n.subs[id].stage.Returned?
  }

  function Next(n: Entry, st: Step): Entry
    requires Enabled(n, st)
  {
    match st
    case Publish(e) => Published(n, e)
    case Subscribe(id) => Subscribed(n, id)
    case Resume(id) => Resumed(n, id)
    case Cancel(id) => Left(n, id, Cancelled)
  }

  ghost predicate IsRun(ns: seq<Entry>, sts: seq<Step>) {
    && |ns| == |sts| + 1 && ns[0] == EMPTY
    && forall k :: 0 <= k < |sts| ==> Enabled(ns[k], sts[k]) && ns[k + 1] == Next(ns[k], sts[k])
  }

  // ---- the invariant ----

  /** No event but possibly the last is terminal. */
  ghost predicate OnlyLast(s: seq<Json>) {
    forall k :: 0 <= k < |s| - 1 ==> !Terminal(s[k])
  }

  /** Received ends exactly at the first terminal event of the log. */
  ghost predicate EndsAtFirstTerminal(log: seq<Json>, received: seq<Json>) {
    received <= log && received != [] && Terminal(received[|received| - 1]) && OnlyLast(received)
  }

  /** An early return: nothing terminal was received, and exactly the queue was lost, in which
      the first terminal event of the log lies. */
  ghost predicate LostItsQueue(log: seq<Json>, s: Sub) {
    s.received + s.queue <= log && s.received != [] && !HasTerminal(s.received) && HasTerminal(s.queue)
  }

  ghost predicate SubOk(log: seq<Json>, s: Sub, registered: bool) {
    match s.stage
    case Fresh => s.received == [] && s.queue == [] && !registered
    case Replaying(snapshot, next) =>
      && registered && 1 <= next <= |snapshot| && snapshot + s.queue == log
      && s.received == snapshot[..next] && OnlyLast(s.received)
    case Live(last) =>
      && registered && s.received + s.queue == log && OnlyLast(s.received)
      && (last.Some? ==> s.received != [] && last.value == s.received[|s.received| - 1])
      && (last.None? ==> !HasTerminal(s.received))
    case Returned(early) =>
      && !registered && (if early then LostItsQueue(log, s) else EndsAtFirstTerminal(log, s.received))
    case Cancelled => !registered && s.received <= log && OnlyLast(s.received)
  }

  ghost predicate Inv(n: Entry) {
    && (n.done <==> HasTerminal(n.buffer))
    && n.subscribers <= n.subs.Keys
    && (forall id :: id in n.subs ==> SubOk(n.buffer, n.subs[id], id in n.subscribers))
  }

  lemma TerminalAppend(s: seq<Json>, t: seq<Json>)
    ensures HasTerminal(s + t) <==> HasTerminal(s) || HasTerminal(t)
  {
    if HasTerminal(s) {
      var k :| 0 <= k < |s| && Terminal(s[k]);
      assert Terminal((s + t)[k]);
    }
    if HasTerminal(t) {
      var k :| 0 <= k < |t| && Terminal(t[k]);
      assert Terminal((s + t)[|s| + k]);
    }
  }

  lemma PublishKeepsSub(log: seq<Json>, s: Sub, registered: bool, e: Json)
    requires SubOk(log, s, registered)
    ensures SubOk(log + [e], if registered then Enqueued(s, e) else s, registered)
  {
    if s.stage.Replaying? {
      assert s.stage.snapshot + (s.queue + [e]) == (s.stage.snapshot + s.queue) + [e];
    } else if s.stage.Live? {
      assert s.received + (s.queue + [e]) == (s.received + s.queue) + [e];
    }
  }

  lemma PublishKeepsInv(n: Entry, e: Json)
    requires Inv(n)
    ensures Inv(Published(n, e))
  {
    TerminalAppend(n.buffer, [e]);
    assert Terminal([e][0]) <==> HasTerminal([e]);
    forall id | id in n.subs ensures SubOk(n.buffer + [e], Published(n, e).subs[id], id in n.subscribers) {
      PublishKeepsSub(n.buffer, n.subs[id], id in n.subscribers, e);
    }
  }

  lemma LiveKeepsSub(n: Entry, id: SubId, last: Option<Json>)
    requires id in n.subs && id in n.subscribers && SubOk(n.buffer, n.subs[id].(stage := Live(last)), true)
    ensures var m := LiveNext(n, id, last);
            id in m.subs && SubOk(m.buffer, m.subs[id], id in m.subscribers)
  {
    var s := n.subs[id];
    if last.Some? && Terminal(last.value) {
    } else if s.queue != [] {
      assert (s.received + [s.queue[0]]) + s.queue[1..] == s.received + s.queue;
    }
  }

  lemma ReplayKeepsSub(n: Entry, id: SubId, snapshot: seq<Json>, next: nat)
    requires id in n.subs && id in n.subscribers && next <= |snapshot| && (n.done <==> HasTerminal(n.buffer))
    requires snapshot + n.subs[id].queue == n.buffer && n.subs[id].received == snapshot[..next] && OnlyLast(snapshot[..next])
    requires next == 0 ==> snapshot == n.buffer
    ensures var m := ReplayNext(n, id, snapshot, next);
            id in m.subs && SubOk(m.buffer, m.subs[id], id in m.subscribers)
  {
    var s := n.subs[id];
    if next > 0 && Terminal(snapshot[next - 1]) {
    } else if next < |snapshot| {
      assert snapshot[..next] + [snapshot[next]] == snapshot[..next + 1];
    } else {
      assert snapshot[..next] == snapshot;
      assert !HasTerminal(s.received);
      TerminalAppend(snapshot, s.queue);
      if !n.done {
        LiveKeepsSub(n, id, None);
      }
    }
  }

  /** A resume touches the log and the other subscriptions in nothing. */
  lemma ResumeFrame(n: Entry, id: SubId)
    requires id in n.subs && StageOk(n.subs[id])
    ensures var m := Resumed(n, id);
      && m.buffer == n.buffer && m.done == n.done
      && m.subs.Keys == n.subs.Keys && (forall i :: i in n.subs && i != id ==> m.subs[i] == n.subs[i])
      && m.subscribers - {id} == n.subscribers - {id}
  {
  }

  lemma ResumeKeepsSub(n: Entry, id: SubId)
    requires Inv(n) && id in n.subs && StageOk(n.subs[id])
    ensures var m := Resumed(n, id); id in m.subs && SubOk(m.buffer, m.subs[id], id in m.subscribers)
  {
    var s := n.subs[id];
    assert SubOk(n.buffer, s, id in n.subscribers);
    hide HasTerminal, ReplayNext, LiveNext;
    match s.stage
    case Fresh => ReplayKeepsSub(n.(subscribers := n.subscribers + {id}), id, n.buffer, 0);
    case Replaying(snapshot, next) => ReplayKeepsSub(n, id, snapshot, next);
    case Live(last) => LiveKeepsSub(n, id, last);
    case _ =>
  }

  lemma ResumeKeepsInv(n: Entry, id: SubId)
    requires Inv(n) && id in n.subs && StageOk(n.subs[id])
    ensures Inv(Resumed(n, id))
  {
    hide SubOk, HasTerminal, Resumed, StageOk;
    ResumeFrame(n, id);
    ResumeKeepsSub(n, id);
    var m := Resumed(n, id);
    forall i | i in m.subs ensures SubOk(m.buffer, m.subs[i], i in m.subscribers) {
      assert i != id ==> (i in m.subscribers <==> i in m.subscribers - {id});
      assert i != id ==> (i in n.subscribers <==> i in n.subscribers - {id});
    }
    forall i | i in m.subscribers ensures i in m.subs {
      assert i == id || i in m.subscribers - {id};
    }
  }

  lemma {:induction false} InvHolds(ns: seq<Entry>, sts: seq<Step>, k: nat)
    requires IsRun(ns, sts) && k < |ns|
    ensures Inv(ns[k])
  {
    if k > 0 {
      InvHolds(ns, sts, k - 1);
      match sts[k - 1]
      case Publish(e) => PublishKeepsInv(ns[k - 1], e);
      case Resume(id) => ResumeKeepsInv(ns[k - 1], id);
      case Subscribe(id) =>
      case Cancel(id) =>
    }
  }

  // ---- the guarantees ----

  /** At every moment what a subscription has received is a prefix of the event log: no gap, no
      duplicate, no reordering. Once it returned, it either received everything up to and with the
      first terminal event, or it returned early and lost exactly its queue. */
  lemma DeliveryIsPrefix(ns: seq<Entry>, sts: seq<Step>, k: nat, id: SubId)
    requires IsRun(ns, sts) && k < |ns| && id in ns[k].subs
    ensures var s := ns[k].subs[id];
            && s.received <= ns[k].buffer
            && (s.stage == Returned(false) ==> EndsAtFirstTerminal(ns[k].buffer, s.received))
            && (s.stage == Returned(true) ==> LostItsQueue(ns[k].buffer, s))
  {
    InvHolds(ns, sts, k);
    assert SubOk(ns[k].buffer, ns[k].subs[id], id in ns[k].subscribers);
  }

  /** A resume returns early exactly when the whole snapshot, which is not empty, has been
      replayed without a terminal event and a terminal event was published meanwhile. */
  lemma EarlyReturnIff(ns: seq<Entry>, sts: seq<Step>, k: nat, id: SubId)
    requires IsRun(ns, sts) && k < |sts| && sts[k] == Resume(id) && !ns[k].subs[id].stage.Returned?
    ensures ns[k + 1].subs[id].stage == Returned(true) <==>
            var st := ns[k].subs[id].stage;
            && st.Replaying? && st.next == |st.snapshot| && !HasTerminal(st.snapshot)
            && |st.snapshot| <= |ns[k].buffer| && HasTerminal(ns[k].buffer[|st.snapshot|..])
  {
    var n := ns[k];
    InvHolds(ns, sts, k);
    var s := n.subs[id];
    assert Enabled(n, sts[k]) && SubOk(n.buffer, s, id in n.subscribers);
    if s.stage.Replaying? {
      var snapshot := s.stage.snapshot;
      TerminalAppend(snapshot, s.queue);
      assert n.buffer[|snapshot|..] == s.queue;
      assert s.stage.next == |snapshot| ==> s.received == snapshot;
    }
  }

  lemma ReplayingOne(e: Json)
    requires !Terminal(e)
    ensures var n := Entry([e], false, {}, map[0 := Sub(Fresh, [], [])]);
      && Published(EMPTY, e) == Entry([e], false, {}, map[]) && Subscribed(Published(EMPTY, e), 0) == n
      && Resumed(n, 0) == Entry([e], false, {0}, map[0 := Sub(Replaying([e], 1), [], [e])])
  {
    hide Terminal;
  }

  lemma LosingOne(e: Json, last: Json)
    requires !Terminal(e) && Terminal(last)
    ensures var n := Entry([e], false, {0}, map[0 := Sub(Replaying([e], 1), [], [e])]);
      var m := Entry([e, last], true, {0}, map[0 := Sub(Replaying([e], 1), [last], [e])]);
      Published(n, last) == m && Resumed(m, 0) == Entry([e, last], true, {}, map[0 := Sub(Returned(true), [last], [e])])
  {
    hide Terminal;
    var n := Entry([e], false, {0}, map[0 := Sub(Replaying([e], 1), [], [e])]);
    var m := Entry([e, last], true, {0}, map[0 := Sub(Replaying([e], 1), [last], [e])]);
    assert n.buffer + [last] == [e, last] && Enqueued(n.subs[0], last) == m.subs[0];
    assert Published(n, last).subs == m.subs;
  }

  /** Such runs exist: whatever is published before the subscription, and whatever terminal event
      comes while it replays, the second resume returns and the terminal event is lost. */
  lemma EarlyReturnHappens(e: Json, last: Json) returns (ns: seq<Entry>, sts: seq<Step>)
    requires !Terminal(e) && Terminal(last)
    ensures IsRun(ns, sts) && sts == [Publish(e), Subscribe(0), Resume(0), Publish(last), Resume(0)]
    ensures ns[5].buffer == [e, last] && ns[5].subs == map[0 := Sub(Returned(true), [last], [e])]
  {
    ReplayingOne(e);
    LosingOne(e, last);
    hide Published, Subscribed, Resumed;
    sts := [Publish(e), Subscribe(0), Resume(0), Publish(last), Resume(0)];
    ns := [EMPTY, Entry([e], false, {}, map[]), Entry([e], false, {}, map[0 := Sub(Fresh, [], [])]),
           Entry([e], false, {0}, map[0 := Sub(Replaying([e], 1), [], [e])]),
           Entry([e, last], true, {0}, map[0 := Sub(Replaying([e], 1), [last], [e])]),
           Entry([e, last], true, {}, map[0 := Sub(Returned(true), [last], [e])])];
  }

  function ResumedTimes(n: Entry, id: SubId, j: nat): Entry
    requires id in n.subs && StageOk(n.subs[id])
    ensures id in ResumedTimes(n, id, j).subs && StageOk(ResumedTimes(n, id, j).subs[id])
  {
    if j == 0 then n else Resumed(ResumedTimes(n, id, j - 1), id)
  }

  /** A late subscriber catches up: beginning at any moment, it yields the log from its first event
      on, one event per resume, as far as no terminal event stops it. */
  lemma {:induction false} LateSubscriberCatchesUp(n: Entry, id: SubId, j: nat)
    requires id !in n.subs && 0 < j <= |n.buffer| && OnlyLast(n.buffer[..j])
    ensures var m := ResumedTimes(Subscribed(n, id), id, j);
      && m.buffer == n.buffer && id in m.subscribers
      && m.subs[id] == Sub(Replaying(n.buffer, j), [], n.buffer[..j])
  {
    if j > 1 {
      LateSubscriberCatchesUp(n, id, j - 1);
      assert !Terminal(n.buffer[..j][j - 2]);
      assert n.buffer[..j] == n.buffer[..j - 1] + [n.buffer[j - 1]];
    } else {
      assert n.buffer[..1] == [] + [n.buffer[0]];
    }
  }

  /** A subscription makes progress: resumed while it lags behind the log or has not yet
      returned after a terminal event, it yields the next event of the log or returns. */
  lemma ResumeProgresses(ns: seq<Entry>, sts: seq<Step>, k: nat, id: SubId)
    requires IsRun(ns, sts) && k < |sts| && sts[k] == Resume(id)
    requires var st := ns[k].subs[id].stage; st.Fresh? || st.Replaying? || st.Live?
    requires ns[k].subs[id].received != ns[k].buffer || HasTerminal(ns[k].subs[id].received)
    ensures var s, t := ns[k].subs[id], ns[k + 1].subs[id];
            || t.stage.Returned?
            || (|s.received| < |ns[k].buffer| && t.received == s.received + [ns[k].buffer[|s.received|]])
  {
    var n := ns[k];
    InvHolds(ns, sts, k);
    var s := n.subs[id];
    assert Enabled(n, sts[k]) && SubOk(n.buffer, s, id in n.subscribers);
    if s.stage.Live? && s.queue == [] {
      assert s.received == n.buffer;
    }
    if s.stage.Replaying? && s.stage.next == |s.stage.snapshot| && s.queue == [] {
      assert s.received == n.buffer;
    }
  }

  /** Through the wire: a browser that reads the printed stream in chunks of any size sees
      exactly what the subscription yielded, so a prefix of the run's log. */
  lemma BrowserSeesPrefix(ns: seq<Entry>, sts: seq<Step>, k: nat, id: SubId, chunks: seq<string>, parse: string -> Parsed<Json>)
    requires IsRun(ns, sts) && k < |ns| && id in ns[k].subs
    requires Concat(chunks) == Print(ns[k].subs[id].received)
    requires forall e :: e in ns[k].buffer ==> parse(Dumps(e)) == Valid(e)
    ensures exists m :: 0 <= m <= |ns[k].buffer|
                        && Deliver(Frames(Concat(chunks)), parse) == Delivery(YieldAll(ns[k].buffer[..m]), false)
  {
    DeliveryIsPrefix(ns, sts, k, id);
    var received := ns[k].subs[id].received;
    assert received == ns[k].buffer[..|received|];
    WireRoundTrip(received, chunks, parse);
  }

  // ---- which events end a run ----

  /** Field `j` is the first of the name "type". */
  predicate FirstType(fields: seq<Field>, j: int) {
    0 <= j < |fields| && fields[j].key == "type" && forall i :: 0 <= i < j ==> fields[i].key != "type"
  }

  /** An object whose type is "done" or "error". */
  ghost predicate EndsRun(e: Json) {
    && e.Obj?
    && exists j :: FirstType(e.fields, j) && (e.fields[j].value == Str("done") || e.fields[j].value == Str("error"))
  }

  lemma {:induction false} TypeIsFirst(fields: seq<Field>)
    ensures forall j :: FirstType(fields, j) ==> TypeOf(fields) == Some(fields[j].value)
    ensures TypeOf(fields).Some? ==> exists j :: FirstType(fields, j)
  {
    if fields != [] {
      TypeIsFirst(fields[1..]);
      if fields[0].key == "type" {
        assert FirstType(fields, 0);
      } else {
        forall j | FirstType(fields, j) ensures FirstType(fields[1..], j - 1) {
          assert forall i :: 0 <= i < j - 1 ==> fields[1..][i] == fields[i + 1];
        }
        if j :| FirstType(fields[1..], j) {
          assert forall i :: 0 < i <= j ==> fields[i] == fields[1..][i - 1];
          assert FirstType(fields, j + 1);
        }
      }
    }
  }

  lemma TerminalIff(e: Json)
    ensures Terminal(e) <==> EndsRun(e)
  {
    if e.Obj? {
      TypeIsFirst(e.fields);
      hide TypeOf, FirstType;
    }
  }

  ghost predicate Open(s: Sub) {
    s.stage.Fresh? || s.stage.Replaying? || s.stage.Live?
  }

  /** A subscription that has yielded a "done" or "error" event returns at its next resume and yields
      nothing more; none ever has one behind another event; and one that returned in full ends at one. */
  lemma StreamsEnd(ns: seq<Entry>, sts: seq<Step>, k: nat, id: SubId)
    requires IsRun(ns, sts) && k < |ns| && id in ns[k].subs
    ensures var s := ns[k].subs[id];
      && (s.stage == Returned(false) ==> s.received != [] && EndsRun(s.received[|s.received| - 1]))
      && (forall j :: 0 <= j < |s.received| - 1 ==> !EndsRun(s.received[j]))
      && (k < |sts| && sts[k] == Resume(id) && Open(s) && s.received != [] && EndsRun(s.received[|s.received| - 1]) ==>
            ns[k + 1].subs[id] == s.(stage := Returned(false)) && id !in ns[k + 1].subscribers)
  {
    InvHolds(ns, sts, k);
    var n, s := ns[k], ns[k].subs[id];
    assert SubOk(n.buffer, s, id in n.subscribers);
    assert forall e :: Terminal(e) <==> EndsRun(e) by {
      forall e ensures Terminal(e) <==> EndsRun(e) {
        TerminalIff(e);
      }
    }
    hide EndsRun, Terminal;
    if k < |sts| && sts[k] == Resume(id) && Open(s) && s.received != [] && EndsRun(s.received[|s.received| - 1]) {
      assert Enabled(n, sts[k]);
      assert HasTerminal(s.received);
    }
  }

  /** The flag is up exactly when a "done" or "error" event was published, and it never comes down. */
  lemma {:induction false} DoneIsForGood(ns: seq<Entry>, sts: seq<Step>, k: nat)
    requires IsRun(ns, sts) && k < |ns|
    ensures ns[k].done <==> exists j :: 0 <= j < k && j < |sts| && sts[j].Publish? && EndsRun(sts[j].e)
  {
    if k > 0 {
      DoneIsForGood(ns, sts, k - 1);
      var st := sts[k - 1];
      assert Enabled(ns[k - 1], st) && ns[k] == Next(ns[k - 1], st);
      match st
      case Publish(e) => TerminalIff(e);
      case Resume(id) => ResumeFrame(ns[k - 1], id);
      case _ =>
    }
  }

  // ---- the same in place ----

  lemma FannedOut(n: Entry, e: Json, subs: map<SubId, Sub>)
    requires subs.Keys == n.subs.Keys
    requires forall id :: id in n.subs ==> subs[id] == if id in n.subscribers then Enqueued(n.subs[id], e) else n.subs[id]
    ensures subs == Published(n, e).subs
  {
  }

  datatype Future = Pending | Decided(decision: string)

  class RunState {
    var buffer: seq<Json>
    var done: bool
    var subscribers: set<SubId>
    var subs: map<SubId, Sub>
    var approvals: map<string, Future>

    function View(): Entry
      reads this
    {
      Entry(buffer, done, subscribers, subs)
    }

    constructor ()
      ensures View() == EMPTY && approvals == map[]
    {
      buffer, done, subscribers, subs, approvals := [], false, {}, map[], map[];
    }

    /** Appends to the buffer, then fans out to every registered queue. */
    method Publish(e: Json)
      requires subscribers <= subs.Keys
      modifies this`buffer, this`done, this`subs
      ensures View() == Published(old(View()), e)
      ensures done <==> old(done) || EndsRun(e)
    {
      TerminalIff(e);
      buffer := buffer + [e];
      ghost var before := subs;
      var todo := subscribers;
      while todo != {}
        invariant todo <= subscribers && subs.Keys == before.Keys
        invariant buffer == old(buffer) + [e] && done == old(done)
        invariant forall id :: id in before ==>
                    subs[id] == if id in subscribers && id !in todo then Enqueued(before[id], e) else before[id]
        decreases |todo|
      {
        var id :| id in todo;
        subs := subs[id := Enqueued(subs[id], e)];
        todo := todo - {id};
      }
      done := done || Terminal(e);
      FannedOut(Entry(old(buffer), old(done), subscribers, before), e, subs);
    }

    method Subscribe(id: SubId)
      requires id !in subs
      modifies this`subs
      ensures View() == Subscribed(old(View()), id)
    {
      subs := subs[id := Sub(Fresh, [], [])];
    }

    /** Runs one subscription to its next suspension point. */
    method Resume(id: SubId) returns (event: Option<Json>)
      requires id in subs && StageOk(subs[id])
      modifies this`subs, this`subscribers
      ensures View() == Resumed(old(View()), id)
      ensures subs[id].received == old(subs[id].received) + (if event.Some? then [event.value] else [])
    {
      var received := subs[id].received;
      if subs[id].stage.Fresh? {
        subscribers := subscribers + {id};
        subs := subs[id := subs[id].(stage := Replaying(buffer, 0))];
      }
      var last: Option<Json> := None;
      if subs[id].stage.Replaying? {
        var snapshot, next := subs[id].stage.snapshot, subs[id].stage.next;
        if next > 0 && Terminal(snapshot[next - 1]) {
          Leave(id, Returned(false));
          return None;
        }
        if next < |snapshot| {
          subs := subs[id := Sub(Replaying(snapshot, next + 1), subs[id].queue, received + [snapshot[next]])];
          return Some(snapshot[next]);
        }
        if done {
          Leave(id, Returned(true));
          return None;
        }
      } else if subs[id].stage.Live? {
        last := subs[id].stage.last;
      } else {
        return None;
      }
      if last.Some? && Terminal(last.value) {
        Leave(id, Returned(false));
        return None;
      }
      var queue := subs[id].queue;
      if queue == [] {
        subs := subs[id := subs[id].(stage := Live(last))];
        return None;
      }
      subs := subs[id := Sub(Live(Some(queue[0])), queue[1..], received + [queue[0]])];
      return Some(queue[0]);
    }

    method Leave(id: SubId, stage: Stage)
      requires id in subs
      modifies this`subs, this`subscribers
      ensures View() == Left(old(View()), id, stage)
    {
      subs := subs[id := subs[id].(stage := stage)];
      subscribers := subscribers - {id};
    }

    method MakeApproval(approval: string)
      modifies this`approvals
      ensures approvals == old(approvals)[approval := Pending]
    {
      approvals := approvals[approval := Pending];
    }

    /** The first decision resolves a parked waiter; later ones report that nobody waits. */
    method ResolveApproval(approval: string, decision: string) returns (live: bool)
      modifies this`approvals
      ensures live <==> approval in old(approvals) && old(approvals)[approval] == Pending
      ensures approvals == if live then old(approvals)[approval := Decided(decision)] else old(approvals)
    {
      live := approval in approvals && approvals[approval].Pending?;
      if live {
        approvals := approvals[approval := Decided(decision)];
      }
    }
  }
}
