/** What the remediation gate guarantees over every history of tool calls, approval requests,
    decisions and clears, when nonces are fresh and no text quotes a nonce before it is minted. */
module RemediationHistory {
  import opened Options
  import opened Text
  import opened G = RemediationGate

  /** The gate with its history: the event index at which each nonce was minted, each stash slot
      was first filled, each approval was saved and each was decided. */
  datatype History = History(
    gate: Gate, now: nat,
    minted: map<string, nat>, born: map<RunId, map<string, nat>>,
    saved: map<ApprovalId, nat>, decided: map<ApprovalId, nat>)

  const START := History(Gate(map[], map[]), 0, map[], map[], map[], map[])

  /** The text quotes no marker of a nonce outside `minted`. */
  ghost predicate Quotes(text: string, minted: map<string, nat>) {
    forall id, nonce :: IsId(id) && IsNonce(nonce) && Contains(text, Marker(id, nonce)) ==> nonce in minted
  }

  ghost predicate Legal(h: History, e: Event) {
    match e
    case DryRun(_, _, diff, nonce) => IsNonce(nonce) && nonce !in h.minted && Quotes(diff, h.minted)
    case Ask(_, approval, prompt, _) => approval !in h.gate.approvals && Quotes(prompt, h.minted)
    case _ => true
  }

  function Born(h: History, run: RunId): map<string, nat> {
    if run in h.born then h.born[run] else map[]
  }

  ghost function Next(fp: Call -> string, h: History, e: Event): History {
    var g := G.Step(fp, h.gate, e);
    var t := h.(gate := g, now := h.now + 1);
    match e
    case DryRun(run, call, _, nonce) =>
      if !Admissible(call) then t
      else t.(minted := h.minted[nonce := h.now],
              born := if Find(Slots(h.gate, run), fp(call)).None? then h.born[run := Born(h, run)[fp(call) := h.now]] else h.born)
    case Ask(_, approval, _, _) => if approval in g.approvals then t.(saved := h.saved[approval := h.now]) else t
    case Decide(_, approval, _) => if g != h.gate then t.(decided := h.decided[approval := h.now]) else t
    case _ => t
  }

  ghost predicate IsRun(fp: Call -> string, hs: seq<History>, es: seq<Event>) {
    && Fingerprint(fp)
    && |hs| == |es| + 1 && hs[0] == START
    && forall k :: 0 <= k < |es| ==> Legal(hs[k], es[k]) && hs[k + 1] == Next(fp, hs[k], es[k])
  }

  /** Step `k` is an execute that passed the gate and mutated the cluster. */
  ghost predicate Success(fp: Call -> string, hs: seq<History>, es: seq<Event>, k: int) {
    0 <= k < |es| && k < |hs| && G.Succeeds(fp, hs[k].gate, es[k])
  }

  /** Step `k` is an execute that the gate lets through, whatever becomes of its patches. */
  ghost predicate Passed(fp: Call -> string, hs: seq<History>, es: seq<Event>, k: int) {
    0 <= k < |es| && k < |hs| && G.Admits(fp, hs[k].gate, es[k])
  }

  /** Step `k` stashes a dry-run of (run, id). */
  predicate Arms(fp: Call -> string, es: seq<Event>, k: int, run: RunId, id: string) {
    0 <= k < |es| && es[k].DryRun? && Admissible(es[k].call) && es[k].run == run && fp(es[k].call) == id
  }

  // ---- the invariant ----

  /** A slot comes from a dry-run in the history: the latest of its action, not yet consumed. */
  ghost predicate SlotOk(fp: Call -> string, hs: seq<History>, es: seq<Event>, h: History, run: RunId, s: Slot) {
    && s.entry.nonce in h.minted && IsNonce(s.entry.nonce)
    && var d := h.minted[s.entry.nonce];
       && d < h.now && Arms(fp, es, d, run, s.id)
       && s.entry == Entry(ActionOf(es[d].call), TargetOf(es[d].call), es[d].diff, es[d].nonce)
       && Quotes(s.entry.diff, h.minted)
       && (forall m :: d < m < h.now ==> !Arms(fp, es, m, run, s.id))
       && (forall m :: d < m < h.now && Success(fp, hs, es, m) ==> !(es[m].run == run && fp(es[m].call) == s.id))
  }

  ghost predicate Ordered(slots: seq<Slot>, born: map<string, nat>, now: nat) {
    && (forall k :: 0 <= k < |slots| ==> slots[k].id in born && born[slots[k].id] < now)
    && (forall j, k :: 0 <= j < k < |slots| ==> born[slots[j].id] < born[slots[k].id])
  }

  ghost predicate StashOk(fp: Call -> string, hs: seq<History>, es: seq<Event>, h: History, run: RunId) {
    var slots := Slots(h.gate, run);
    && |slots| <= STASH_CAP && Distinct(slots)
    && (forall k :: 0 <= k < |slots| ==> SlotOk(fp, hs, es, h, run, slots[k]))
    && Ordered(slots, Born(h, run), h.now)
  }

  predicate Deciding(e: Event, run: RunId, a: ApprovalId) {
    e.Decide? && e.run == run && e.approval == a
  }

  /** An approval row was saved by a request of its run with the summary of that moment, quotes only
      nonces minted before that, and holds the first decision made on it after that. */
  ghost predicate ApprovalOk(hs: seq<History>, es: seq<Event>, h: History, a: ApprovalId)
    requires a in h.gate.approvals
  {
    var row := h.gate.approvals[a];
    && a in h.saved && h.saved[a] < h.now && h.saved[a] < |es|
    && es[h.saved[a]].Ask? && es[h.saved[a]].run == row.run && es[h.saved[a]].approval == a
    && h.saved[a] < |hs| && Summary(hs[h.saved[a]].gate, row.run, es[h.saved[a]].prompt, es[h.saved[a]].id) == Some(row.summary)
    && (forall m :: h.saved[a] < m < |es| && m < (if row.decision.Some? && a in h.decided then h.decided[a] else h.now) ==>
          !Deciding(es[m], row.run, a))
    && (forall id, nonce :: IsId(id) && IsNonce(nonce) && Contains(row.summary, Marker(id, nonce)) ==>
          nonce in h.minted && h.minted[nonce] < h.saved[a])
    && (row.decision.Some? ==>
          && a in h.decided && h.saved[a] < h.decided[a] < h.now && h.decided[a] < |es|
          && es[h.decided[a]] == Decide(row.run, a, row.decision.value))
  }

  ghost predicate Inv(fp: Call -> string, hs: seq<History>, es: seq<Event>, h: History) {
    && h.now <= |es| < |hs|
    && (forall n :: n in h.minted ==> h.minted[n] < h.now)
    && (forall run :: StashOk(fp, hs, es, h, run))
    && (forall a :: a in h.gate.approvals ==> ApprovalOk(hs, es, h, a))
  }

  // ---- preservation ----

  /** A slot no event of this step concerns stays as it is. */
  lemma SlotCarries(fp: Call -> string, hs: seq<History>, es: seq<Event>, h: History, t: History, run: RunId, s: Slot)
    requires SlotOk(fp, hs, es, h, run, s) && t.now == h.now + 1 && h.now < |es|
    requires forall n :: n in h.minted ==> n in t.minted && t.minted[n] == h.minted[n]
    requires !Arms(fp, es, h.now, run, s.id)
    requires Success(fp, hs, es, h.now) ==> !(es[h.now].run == run && fp(es[h.now].call) == s.id)
    ensures SlotOk(fp, hs, es, t, run, s)
  {
    var d := h.minted[s.entry.nonce];
    QuotesGrow(s.entry.diff, h.minted, t.minted);
    forall m | d < m < t.now ensures !Arms(fp, es, m, run, s.id) {
      assert m == h.now || m < h.now;
    }
    forall m | d < m < t.now && Success(fp, hs, es, m) ensures !(es[m].run == run && fp(es[m].call) == s.id) {
      assert m == h.now || m < h.now;
    }
  }

  lemma QuotesGrow(text: string, a: map<string, nat>, b: map<string, nat>)
    requires Quotes(text, a) && forall n :: n in a ==> n in b
    ensures Quotes(text, b)
  {
  }

  lemma MintedGrows(fp: Call -> string, h: History, e: Event)
    requires Legal(h, e)
    ensures var t := Next(fp, h, e);
            && (forall n :: n in h.minted ==> n in t.minted && t.minted[n] == h.minted[n])
            && (forall n :: n in t.minted && n !in h.minted ==> t.minted[n] == h.now)
  {
  }

  lemma OrderedEvict(slots: seq<Slot>, born: map<string, nat>, now: nat)
    requires Ordered(slots, born, now)
    ensures Ordered(Evict(slots), born, now)
  {
  }

  lemma OrderedAppend(slots: seq<Slot>, born: map<string, nat>, now: nat, s: Slot)
    requires Ordered(slots, born, now) && forall k :: 0 <= k < |slots| ==> slots[k].id != s.id
    ensures Ordered(slots + [s], born[s.id := now], now + 1)
  {
  }

  lemma OrderedReplace(slots: seq<Slot>, born: map<string, nat>, now: nat, k: nat, s: Slot)
    requires Ordered(slots, born, now) && k < |slots| && slots[k].id == s.id
    ensures Ordered(slots[k := s], born, now + 1)
  {
    assert forall j :: 0 <= j < |slots| ==> slots[k := s][j].id == slots[j].id;
  }

  lemma OrderedPut(slots: seq<Slot>, born: map<string, nat>, now: nat, id: string, e: Entry)
    requires Ordered(slots, born, now)
    ensures var born' := if Find(slots, id).None? then born[id := now] else born;
            Ordered(Evict(Put(slots, id, e)), born', now + 1)
  {
    PutShape(slots, id, e);
    FindAt(slots, id);
    hide Ordered, Evict, Put, Find;
    if Find(slots, id).None? {
      OrderedAppend(slots, born, now, Slot(id, e));
      OrderedEvict(slots + [Slot(id, e)], born[id := now], now + 1);
    } else {
      var k :| 0 <= k < |slots| && slots[k].id == id && Put(slots, id, e) == slots[k := Slot(id, e)];
      OrderedReplace(slots, born, now, k, Slot(id, e));
      OrderedEvict(slots[k := Slot(id, e)], born, now + 1);
    }
  }

  lemma OrderedRemove(slots: seq<Slot>, born: map<string, nat>, now: nat, id: string)
    requires Ordered(slots, born, now)
    ensures Ordered(Remove(slots, id), born, now + 1)
  {
    RemoveShape(slots, id);
  }

  lemma DryRunKeepsStash(fp: Call -> string, hs: seq<History>, es: seq<Event>, h: History, run: RunId)
    requires Inv(fp, hs, es, h) && h.now < |es| && hs[h.now] == h && Legal(h, es[h.now]) && Fingerprint(fp)
    requires es[h.now].DryRun? && Admissible(es[h.now].call) && es[h.now].run == run
    ensures StashOk(fp, hs, es, Next(fp, h, es[h.now]), run)
  {
    var e := es[h.now];
    var t := Next(fp, h, e);
    var slots, id := Slots(h.gate, run), fp(e.call);
    var entry := Entry(ActionOf(e.call), TargetOf(e.call), e.diff, e.nonce);
    assert StashOk(fp, hs, es, h, run);
    StashKept(slots, id, entry);
    MintedGrows(fp, h, e);
    OrderedPut(slots, Born(h, run), h.now, id, entry);
    assert Slots(t.gate, run) == Evict(Put(slots, id, entry));
    forall k | 0 <= k < |Slots(t.gate, run)| ensures SlotOk(fp, hs, es, t, run, Slots(t.gate, run)[k]) {
      var s := Slots(t.gate, run)[k];
      if s == Slot(id, entry) {
        assert t.minted[e.nonce] == h.now;
      } else {
        assert !Arms(fp, es, h.now, run, s.id);
        SlotCarries(fp, hs, es, h, t, run, s);
      }
    }
  }

  lemma ExecuteKeepsStash(fp: Call -> string, hs: seq<History>, es: seq<Event>, h: History, run: RunId)
    requires Inv(fp, hs, es, h) && h.now < |es| && hs[h.now] == h && Legal(h, es[h.now])
    requires Success(fp, hs, es, h.now) && es[h.now].run == run
    ensures StashOk(fp, hs, es, Next(fp, h, es[h.now]), run)
  {
    var e := es[h.now];
    var t := Next(fp, h, e);
    var slots, id := Slots(h.gate, run), fp(e.call);
    assert StashOk(fp, hs, es, h, run);
    StashKept(slots, id, Entry("", "", "", ""));
    OrderedRemove(slots, Born(h, run), h.now, id);
    assert Slots(t.gate, run) == Remove(slots, id);
    forall k | 0 <= k < |Slots(t.gate, run)| ensures SlotOk(fp, hs, es, t, run, Slots(t.gate, run)[k]) {
      SlotCarries(fp, hs, es, h, t, run, Slots(t.gate, run)[k]);
    }
  }

  /** A run that the step does not concern keeps its stash, or loses it to its own clear. */
  lemma OthersUntouched(fp: Call -> string, h: History, e: Event, run: RunId)
    requires e.DryRun? ==> !Admissible(e.call) || e.run != run
    requires G.Succeeds(fp, h.gate, e) ==> e.run != run
    ensures var t := Next(fp, h, e);
            && (Slots(t.gate, run) == Slots(h.gate, run) || Slots(t.gate, run) == [])
            && Born(t, run) == Born(h, run)
  {
    match e
    case DryRun(_, _, _, _) =>
    case _ =>
  }

  lemma StashCarries(fp: Call -> string, hs: seq<History>, es: seq<Event>, h: History, t: History, run: RunId)
    requires StashOk(fp, hs, es, h, run) && h.now < |es| && t.now == h.now + 1
    requires forall n :: n in h.minted ==> n in t.minted && t.minted[n] == h.minted[n]
    requires Slots(t.gate, run) == Slots(h.gate, run) || Slots(t.gate, run) == []
    requires Born(t, run) == Born(h, run)
    requires forall id :: !Arms(fp, es, h.now, run, id)
    requires Success(fp, hs, es, h.now) ==> es[h.now].run != run
    ensures StashOk(fp, hs, es, t, run)
  {
    forall k | 0 <= k < |Slots(t.gate, run)| ensures SlotOk(fp, hs, es, t, run, Slots(t.gate, run)[k]) {
      SlotCarries(fp, hs, es, h, t, run, Slots(t.gate, run)[k]);
    }
  }

  lemma OthersKeepStash(fp: Call -> string, hs: seq<History>, es: seq<Event>, h: History, run: RunId)
    requires Inv(fp, hs, es, h) && h.now < |es| && hs[h.now] == h && Legal(h, es[h.now])
    requires es[h.now].DryRun? ==> !Admissible(es[h.now].call) || es[h.now].run != run
    requires Success(fp, hs, es, h.now) ==> es[h.now].run != run
    ensures StashOk(fp, hs, es, Next(fp, h, es[h.now]), run)
  {
    MintedGrows(fp, h, es[h.now]);
    assert StashOk(fp, hs, es, h, run);
    OthersUntouched(fp, h, es[h.now], run);
    StashCarries(fp, hs, es, h, Next(fp, h, es[h.now]), run);
  }

  lemma LineShort(call: Call)
    requires Admissible(call)
    ensures |ActionOf(call)| + 1 + |TargetOf(call)| < 59
  {
    if call.Remedy? {
      ValidationIsTheAllowList(ActionOf(call), call.workload, ParamsOf(call.tool));
      assert call.workload in ALLOWED_WORKLOADS;
      assert |call.workload| <= 14;
    }
  }

  /** A saved summary quotes only nonces minted before it was saved. */
  lemma SummaryQuotes(fp: Call -> string, hs: seq<History>, es: seq<Event>, h: History, run: RunId, prompt: string, id: string)
    requires Inv(fp, hs, es, h) && Fingerprint(fp) && Quotes(prompt, h.minted) && Summary(h.gate, run, prompt, id).Some?
    ensures Quotes(Summary(h.gate, run, prompt, id).value, h.minted)
  {
    if id != "" {
      var slots := Slots(h.gate, run);
      FindAt(slots, id);
      var e := Find(slots, id).value;
      var k :| 0 <= k < |slots| && slots[k] == Slot(id, e);
      assert StashOk(fp, hs, es, h, run) && SlotOk(fp, hs, es, h, run, slots[k]);
      LineShort(es[h.minted[e.nonce]].call);
      forall id', nonce | IsId(id') && IsNonce(nonce) && Contains(prompt + Block(id, e), Marker(id', nonce))
        ensures nonce in h.minted
      {
        SummaryMarkers(prompt, id, e, id', nonce);
      }
    }
  }

  /** What a step leaves of an approval row already on record. */
  ghost predicate RowCarried(h: History, t: History, e: Event, a: ApprovalId)
    requires a in h.gate.approvals
  {
    && a in t.gate.approvals
    && t.gate.approvals[a].run == h.gate.approvals[a].run && t.gate.approvals[a].summary == h.gate.approvals[a].summary
    && (a in h.saved ==> a in t.saved && t.saved[a] == h.saved[a])
    && (if t.gate.approvals[a] == h.gate.approvals[a]
        then && (a in h.decided && h.gate.approvals[a].decision.Some? ==> a in t.decided && t.decided[a] == h.decided[a])
             && (h.gate.approvals[a].decision.None? ==> !Deciding(e, h.gate.approvals[a].run, a))
        else && e.Decide? && e == Decide(h.gate.approvals[a].run, a, e.approved) && a in t.decided && t.decided[a] == h.now
             && t.gate.approvals[a].decision == Some(e.approved))
  }

  lemma RowAfterDecide(fp: Call -> string, h: History, e: Event, a: ApprovalId)
    requires a in h.gate.approvals && e.Decide?
    ensures RowCarried(h, Next(fp, h, e), e, a)
  {
  }

  lemma RowAfterAsk(fp: Call -> string, h: History, e: Event, a: ApprovalId)
    requires a in h.gate.approvals && e.Ask? && e.approval !in h.gate.approvals
    ensures RowCarried(h, Next(fp, h, e), e, a)
  {
    hide Summary;
  }

  lemma RowAfterTool(fp: Call -> string, h: History, e: Event, a: ApprovalId)
    requires a in h.gate.approvals && (e.DryRun? || e.Execute? || e.Clear?)
    ensures RowCarried(h, Next(fp, h, e), e, a)
  {
    hide Admissible, G.Succeeds, Evict, Put, Remove, Slots, Born, ActionOf, TargetOf;
  }

  /** An approval row already on record: at most its decision is filled in, at this step. */
  lemma RowAfter(fp: Call -> string, h: History, e: Event, a: ApprovalId)
    requires a in h.gate.approvals && Legal(h, e)
    ensures RowCarried(h, Next(fp, h, e), e, a)
  {
    if e.Decide? {
      RowAfterDecide(fp, h, e, a);
    } else if e.Ask? {
      RowAfterAsk(fp, h, e, a);
    } else {
      RowAfterTool(fp, h, e, a);
    }
  }

  lemma RowKept(fp: Call -> string, hs: seq<History>, es: seq<Event>, h: History, a: ApprovalId)
    requires a in h.gate.approvals && ApprovalOk(hs, es, h, a) && h.now < |es| && Legal(h, es[h.now])
    ensures a in Next(fp, h, es[h.now]).gate.approvals && ApprovalOk(hs, es, Next(fp, h, es[h.now]), a)
  {
    MintedGrows(fp, h, es[h.now]);
    RowAfter(fp, h, es[h.now], a);
  }

  lemma NewRowOk(fp: Call -> string, hs: seq<History>, es: seq<Event>, h: History, a: ApprovalId)
    requires Inv(fp, hs, es, h) && h.now < |es| && hs[h.now] == h && Legal(h, es[h.now]) && Fingerprint(fp)
    requires es[h.now].Ask? && es[h.now].approval == a && a !in h.gate.approvals
    requires Summary(h.gate, es[h.now].run, es[h.now].prompt, es[h.now].id).Some?
    ensures a in Next(fp, h, es[h.now]).gate.approvals && ApprovalOk(hs, es, Next(fp, h, es[h.now]), a)
  {
    SummaryQuotes(fp, hs, es, h, es[h.now].run, es[h.now].prompt, es[h.now].id);
  }

  lemma RowsFrom(fp: Call -> string, h: History, e: Event, a: ApprovalId)
    requires a in Next(fp, h, e).gate.approvals && a !in h.gate.approvals
    ensures e.Ask? && e.approval == a && Summary(h.gate, e.run, e.prompt, e.id).Some?
  {
  }

  lemma ApprovalsKept(fp: Call -> string, hs: seq<History>, es: seq<Event>, h: History)
    requires Inv(fp, hs, es, h) && h.now < |es| && hs[h.now] == h && Legal(h, es[h.now]) && Fingerprint(fp)
    ensures var t := Next(fp, h, es[h.now]); forall a :: a in t.gate.approvals ==> ApprovalOk(hs, es, t, a)
  {
    var t := Next(fp, h, es[h.now]);
    forall a | a in t.gate.approvals ensures ApprovalOk(hs, es, t, a) {
      if a in h.gate.approvals {
        RowKept(fp, hs, es, h, a);
      } else {
        RowsFrom(fp, h, es[h.now], a);
        NewRowOk(fp, hs, es, h, a);
      }
    }
  }

  lemma StepKeepsInv(fp: Call -> string, hs: seq<History>, es: seq<Event>, h: History)
    requires Inv(fp, hs, es, h) && h.now < |es| && hs[h.now] == h && Legal(h, es[h.now]) && Fingerprint(fp)
    ensures Inv(fp, hs, es, Next(fp, h, es[h.now]))
  {
    var e := es[h.now];
    MintedGrows(fp, h, e);
    ApprovalsKept(fp, hs, es, h);
    forall run ensures StashOk(fp, hs, es, Next(fp, h, e), run) {
      if e.DryRun? && Admissible(e.call) && e.run == run {
        DryRunKeepsStash(fp, hs, es, h, run);
      } else if Success(fp, hs, es, h.now) && e.run == run {
        ExecuteKeepsStash(fp, hs, es, h, run);
      } else {
        OthersKeepStash(fp, hs, es, h, run);
      }
    }
  }

  lemma {:induction false} InvHolds(fp: Call -> string, hs: seq<History>, es: seq<Event>, k: nat)
    requires IsRun(fp, hs, es) && k < |hs|
    ensures hs[k].now == k && Inv(fp, hs, es, hs[k])
  {
    if k > 0 {
      InvHolds(fp, hs, es, k - 1);
      StepKeepsInv(fp, hs, es, hs[k - 1]);
    } else {
      assert forall run :: StashOk(fp, hs, es, hs[0], run);
    }
  }

  // ---- the guarantees ----

  /** The dry-run an execute at `k` relies on: the step that minted the stashed nonce. */
  ghost function SourceOf(fp: Call -> string, hs: seq<History>, es: seq<Event>, k: nat): nat
    requires IsRun(fp, hs, es) && Passed(fp, hs, es, k)
  {
    InvHolds(fp, hs, es, k);
    var nonce := Find(Slots(hs[k].gate, es[k].run), fp(es[k].call)).value.nonce;
    SourceSlot(fp, hs, es, k);
    hs[k].minted[nonce]
  }

  lemma SourceSlot(fp: Call -> string, hs: seq<History>, es: seq<Event>, k: nat)
    requires IsRun(fp, hs, es) && Passed(fp, hs, es, k)
    ensures var found := Find(Slots(hs[k].gate, es[k].run), fp(es[k].call));
            found.Some? && hs[k].now == k && SlotOk(fp, hs, es, hs[k], es[k].run, Slot(fp(es[k].call), found.value))
  {
    InvHolds(fp, hs, es, k);
    assert StashOk(fp, hs, es, hs[k], es[k].run);
    FindAt(Slots(hs[k].gate, es[k].run), fp(es[k].call));
  }

  /** Every execute that gets to its patches was preceded, in this order, by a dry-run of the same run and the
      same admissible call, the latest one of it; an approval request of the run saved after it,
      whose summary carries the marker of exactly that dry-run; and the operator's approval. */
  lemma ExecutesAreApproved(fp: Call -> string, hs: seq<History>, es: seq<Event>, k: nat)
    requires IsRun(fp, hs, es) && Passed(fp, hs, es, k)
    ensures var d := SourceOf(fp, hs, es, k);
            && d < k && es[d].DryRun? && es[d].run == es[k].run && es[d].call == es[k].call && Admissible(es[d].call)
            && (forall m :: d < m < k ==> !(es[m].DryRun? && es[m].run == es[k].run && es[m].call == es[k].call))
            && exists a, c :: d < a < c < k && es[a].Ask? && es[a].run == es[k].run
                              && es[k].quoted == Some(es[a].approval)
                              && es[c] == Decide(es[k].run, es[a].approval, true)
                              && es[a].approval in hs[k].gate.approvals
                              && Contains(hs[k].gate.approvals[es[a].approval].summary, Marker(fp(es[d].call), es[d].nonce))
  {
    InvHolds(fp, hs, es, k);
    SourceSlot(fp, hs, es, k);
    var d := SourceOf(fp, hs, es, k);
    var ap := es[k].quoted.value;
    assert ApprovalOk(hs, es, hs[k], ap);
    var a, c := hs[k].saved[ap], hs[k].decided[ap];
    assert es[a].approval == ap && d < a < c < k;
    forall m | d < m < k ensures !(es[m].DryRun? && es[m].run == es[k].run && es[m].call == es[k].call) {
      assert !Arms(fp, es, m, es[k].run, fp(es[k].call));
    }
  }

  /** At most once: of two executes that rely on one dry-run, the earlier stopped at a patch that failed. */
  lemma ConsumedOnce(fp: Call -> string, hs: seq<History>, es: seq<Event>, j: nat, k: nat)
    requires IsRun(fp, hs, es) && Passed(fp, hs, es, j) && Passed(fp, hs, es, k) && j < k
    requires SourceOf(fp, hs, es, j) == SourceOf(fp, hs, es, k)
    ensures es[j].run == es[k].run && es[j].call == es[k].call && !Success(fp, hs, es, j)
  {
    SourceSlot(fp, hs, es, j);
    SourceSlot(fp, hs, es, k);
  }

  /** Different successful executes consume different dry-runs. */
  lemma ExecutesConsumeDistinctDryRuns(fp: Call -> string, hs: seq<History>, es: seq<Event>, j: nat, k: nat)
    requires IsRun(fp, hs, es) && Success(fp, hs, es, j) && Success(fp, hs, es, k) && j < k
    ensures SourceOf(fp, hs, es, j) != SourceOf(fp, hs, es, k)
  {
    if SourceOf(fp, hs, es, j) == SourceOf(fp, hs, es, k) {
      ConsumedOnce(fp, hs, es, j, k);
    }
  }

  /** Patch by patch: whatever an execute applied under a dry-run that a later one relies on again is the
      first patch of a promotion whose second failed. */
  lemma OnlyPromotesRepeat(fp: Call -> string, hs: seq<History>, es: seq<Event>, j: nat, k: nat)
    requires IsRun(fp, hs, es) && Passed(fp, hs, es, j) && Passed(fp, hs, es, k) && j < k
    requires SourceOf(fp, hs, es, j) == SourceOf(fp, hs, es, k) && |es[j].patches| >= PatchCount(es[j].call)
    ensures Applied(es[j].patches) > 0 ==>
              es[j].call.Remedy? && es[j].call.tool.RolloutPromote? && Applied(es[j].patches) == 1
  {
    hide Admissible, GatePasses;
    ConsumedOnce(fp, hs, es, j, k);
  }

  /** The gate lets the same execute through again, right after it, exactly when one of its patches failed. */
  lemma PassesAgainIff(fp: Call -> string, hs: seq<History>, es: seq<Event>, k: nat)
    requires IsRun(fp, hs, es) && Passed(fp, hs, es, k)
    ensures G.Admits(fp, hs[k + 1].gate, es[k]) <==> !Mutated(es[k].call, es[k].patches)
  {
    InvHolds(fp, hs, es, k);
    var g, id := hs[k].gate, fp(es[k].call);
    assert StashOk(fp, hs, es, hs[k], es[k].run);
    StashKept(Slots(g, es[k].run), id, Entry("", "", "", ""));
    FindAt(Remove(Slots(g, es[k].run), id), id);
  }

  /** Re-running an identical dry-run makes every approval on record before it unusable for that
      call, for the rest of the history. */
  lemma RerunInvalidatesApprovals(fp: Call -> string, hs: seq<History>, es: seq<Event>, d: nat, k: nat, a: ApprovalId)
    requires IsRun(fp, hs, es) && d < k < |es|
    requires es[d].DryRun? && Admissible(es[d].call) && a in hs[d].gate.approvals
    requires es[k].Execute? && es[k].run == es[d].run && es[k].call == es[d].call && es[k].quoted == Some(a)
    ensures !Passed(fp, hs, es, k)
  {
    if Passed(fp, hs, es, k) {
      SavedStays(fp, hs, es, d, k, a);
      InvHolds(fp, hs, es, k);
      assert ApprovalOk(hs, es, hs[k], a);
      SourceSlot(fp, hs, es, k);
      assert Arms(fp, es, d, es[k].run, fp(es[k].call));
    }
  }

  lemma {:induction false} SavedStays(fp: Call -> string, hs: seq<History>, es: seq<Event>, d: nat, k: nat, a: ApprovalId)
    requires IsRun(fp, hs, es) && d <= k < |hs| && a in hs[d].gate.approvals
    ensures a in hs[k].gate.approvals && a in hs[k].saved && hs[k].saved[a] < d
  {
    if k == d {
      InvHolds(fp, hs, es, d);
      assert ApprovalOk(hs, es, hs[d], a);
    } else {
      SavedStays(fp, hs, es, d, k - 1, a);
      RowAfter(fp, hs[k - 1], es[k - 1], a);
    }
  }

  lemma DryRunStash(fp: Call -> string, h: History, e: Event)
    requires e.DryRun? && Admissible(e.call)
    ensures Slots(Next(fp, h, e).gate, e.run) ==
            Evict(Put(Slots(h.gate, e.run), fp(e.call), Entry(ActionOf(e.call), TargetOf(e.call), e.diff, e.nonce)))
  {
    hide Admissible, Evict, Put, ActionOf, TargetOf, Born;
  }

  /** Each run's stash holds at most sixteen entries with distinct keys, in the order in which
      their slots were first filled, and a dry-run just made is among them. */
  lemma StashBounded(fp: Call -> string, hs: seq<History>, es: seq<Event>, k: nat, run: RunId)
    requires IsRun(fp, hs, es) && k < |hs|
    ensures var slots := Slots(hs[k].gate, run);
            && |slots| <= 16
            && (forall i, j :: 0 <= i < j < |slots| ==>
                  slots[i].id != slots[j].id && slots[i].id in Born(hs[k], run) && slots[j].id in Born(hs[k], run)
                  && Born(hs[k], run)[slots[i].id] < Born(hs[k], run)[slots[j].id])
    ensures k > 0 && es[k - 1].DryRun? && es[k - 1].run == run && Admissible(es[k - 1].call) ==>
              Find(Slots(hs[k].gate, run), fp(es[k - 1].call)) ==
              Some(Entry(ActionOf(es[k - 1].call), TargetOf(es[k - 1].call), es[k - 1].diff, es[k - 1].nonce))
  {
    assert |hs| == |es| + 1;
    hide IsRun, SlotOk, Inv, ApprovalOk, Next, Evict, Put, Admissible, ActionOf, TargetOf, Find, Fingerprint;
    StashAt(fp, hs, es, k, run);
    if k > 0 && es[k - 1].DryRun? && es[k - 1].run == run && Admissible(es[k - 1].call) {
      NewestStashed(fp, hs, es, k - 1);
    }
  }

  lemma StashAt(fp: Call -> string, hs: seq<History>, es: seq<Event>, k: nat, run: RunId)
    requires IsRun(fp, hs, es) && k < |hs|
    ensures var slots := Slots(hs[k].gate, run);
      |slots| <= STASH_CAP && Distinct(slots) && Ordered(slots, Born(hs[k], run), hs[k].now)
  {
    hide IsRun, SlotOk, ApprovalOk;
    InvHolds(fp, hs, es, k);
    assert StashOk(fp, hs, es, hs[k], run);
  }

  lemma NewestStashed(fp: Call -> string, hs: seq<History>, es: seq<Event>, k: nat)
    requires IsRun(fp, hs, es) && k < |es| && es[k].DryRun? && Admissible(es[k].call)
    ensures Find(Slots(hs[k + 1].gate, es[k].run), fp(es[k].call)) ==
            Some(Entry(ActionOf(es[k].call), TargetOf(es[k].call), es[k].diff, es[k].nonce))
  {
    var e := es[k];
    InvHolds(fp, hs, es, k);
    assert StashOk(fp, hs, es, hs[k], e.run);
    assert hs[k + 1] == Next(fp, hs[k], e);
    DryRunStash(fp, hs[k], e);
    hide Next, IsRun, Inv, SlotOk, Evict, Put, Admissible, ActionOf, TargetOf;
    JustStashed(Slots(hs[k].gate, e.run), fp(e.call), Entry(ActionOf(e.call), TargetOf(e.call), e.diff, e.nonce));
  }

  /** No step of one run touches the stash of another. */
  lemma RunsAreIsolated(fp: Call -> string, g: Gate, e: Event, run: RunId)
    requires e.run != run
    ensures Slots(G.Step(fp, g, e), run) == Slots(g, run)
  {
  }

  // ---- a patch applied twice ----

  const PROMOTION := Remedy(RolloutPromote, "gateway")

  /** A promotion whose second patch fails, and the same one again under the same approval. */
  function Promoted(id: string): seq<Event> {
    [DryRun(0, PROMOTION, "", "00000000"), Ask(0, 0, "", id), Decide(0, 0, true),
     Execute(0, PROMOTION, Some(0), [true, false]), Execute(0, PROMOTION, Some(0), [true, true])]
  }

  lemma PromotionAllowed()
    ensures Admissible(PROMOTION) && PatchCount(PROMOTION) == 2
  {
    ValidationIsTheAllowList("rollout_promote", "gateway", Params(None, None));
  }

  lemma EmptyQuotesNothing(minted: map<string, nat>)
    ensures Quotes("", minted)
  {
    forall id, nonce | IsId(id) && IsNonce(nonce) ensures !Contains("", Marker(id, nonce)) {
      MarkerShape(id, nonce);
    }
  }

  /** The input: for any naming of calls there is a history in which one approval lets the first patch of
      a promotion through twice. */
  lemma FirstPatchTwice(fp: Call -> string) returns (hs: seq<History>, es: seq<Event>)
    requires Fingerprint(fp)
    ensures IsRun(fp, hs, es) && |es| == 5 && Passed(fp, hs, es, 3) && Passed(fp, hs, es, 4)
    ensures es[3].call == es[4].call == PROMOTION && es[3].quoted == es[4].quoted
    ensures Applied(es[3].patches) == 1 && Applied(es[4].patches) == 2
    ensures SourceOf(fp, hs, es, 3) == SourceOf(fp, hs, es, 4)
  {
    var id := fp(PROMOTION);
    es := Promoted(id);
    hs := PromotedRun(fp);
    PassesAgainIff(fp, hs, es, 3);
    SourceSlot(fp, hs, es, 3);
    SourceSlot(fp, hs, es, 4);
  }

  function Drafted(id: string): History {
    var e := Entry("rollout_promote", "gateway", "", "00000000");
    History(Gate(map[0 := [Slot(id, e)]], map[]), 1, map["00000000" := 0], map[0 := map[id := 0]], map[], map[])
  }

  function Approved(id: string, decision: Option<bool>): History {
    var h := Drafted(id);
    var e := Entry("rollout_promote", "gateway", "", "00000000");
    var row := Approval(0, "" + Block(id, e), decision);
    h.(gate := h.gate.(approvals := map[0 := row]), saved := map[0 := 1],
       now := if decision.None? then 2 else 3, decided := if decision.None? then map[] else map[0 := 2])
  }

  lemma Drafts(fp: Call -> string)
    requires Fingerprint(fp)
    ensures var e := Promoted(fp(PROMOTION))[0]; Legal(START, e) && Next(fp, START, e) == Drafted(fp(PROMOTION))
  {
    PromotionAllowed();
    EmptyQuotesNothing(map[]);
  }

  lemma Asks(fp: Call -> string)
    requires Fingerprint(fp)
    ensures var id := fp(PROMOTION); var e := Promoted(id)[1];
      Legal(Drafted(id), e) && Next(fp, Drafted(id), e) == Approved(id, None)
  {
    EmptyQuotesNothing(Drafted(fp(PROMOTION)).minted);
    hide Block;
  }

  lemma Decides(fp: Call -> string)
    ensures var id := fp(PROMOTION); var e := Promoted(id)[2];
      Legal(Approved(id, None), e) && Next(fp, Approved(id, None), e) == Approved(id, Some(true))
  {
    hide Block;
  }

  lemma HalfExecutes(fp: Call -> string)
    requires Fingerprint(fp)
    ensures var h := Approved(fp(PROMOTION), Some(true)); var e := Promoted(fp(PROMOTION))[3];
      G.Admits(fp, h.gate, e) && Legal(h, e) && Next(fp, h, e) == h.(now := 4)
  {
    var id := fp(PROMOTION);
    PromotionAllowed();
    SummaryMarkers("", id, Entry("rollout_promote", "gateway", "", "00000000"), id, "00000000");
    hide Block, Marker, Admissible;
    assert !Mutated(PROMOTION, [true, false]) by {
      assert ![true, false][1];
    }
  }

  lemma PromotedRun(fp: Call -> string) returns (hs: seq<History>)
    requires Fingerprint(fp)
    ensures var es := Promoted(fp(PROMOTION));
      && IsRun(fp, hs, es) && Passed(fp, hs, es, 3) && hs[4].gate == hs[3].gate
  {
    hide Legal, Next, G.Admits, Drafted, Approved, Fingerprint;
    var id := fp(PROMOTION);
    var es, h4 := Promoted(id), Approved(id, Some(true)).(now := 4);
    Drafts(fp);
    Asks(fp);
    Decides(fp);
    HalfExecutes(fp);
    ExecuteIsLegal(h4, es[4]);
    hs := [START, Drafted(id), Approved(id, None), Approved(id, Some(true)), h4, Next(fp, h4, es[4])];
  }

  lemma ExecuteIsLegal(h: History, e: Event)
    requires e.Execute?
    ensures Legal(h, e)
  {
  }
}
