/** The other half of the gate: which executes get through, told from the history alone. */
module RemediationPasses {
  import opened Options
  import opened Text
  import opened G = RemediationGate
  import opened RemediationHistory

  // ---- the calls in line ----

  function Without(ids: seq<string>, id: string): seq<string> {
    if ids == [] then [] else if ids[0] == id then ids[1..] else [ids[0]] + Without(ids[1..], id)
  }

  /** The last sixteen. */
  function Sixteen(ids: seq<string>): seq<string> {
    if |ids| > 16 then ids[|ids| - 16..] else ids
  }

  /** The calls of a run that wait for their execute, in the order in which they came in line: a
      dry-run puts its call at the end unless it stands there already, the seventeenth pushes the
      first out, a successful execute takes its own away, and a clear takes all. */
  ghost function Line(fp: Call -> string, hs: seq<History>, es: seq<Event>, k: nat, run: RunId): seq<string>
    requires k <= |es|
  {
    if k == 0 then []
    else
      var ids, e := Line(fp, hs, es, k - 1, run), es[k - 1];
      if e.run != run then ids
      else if e.Clear? then []
      else if e.DryRun? && Admissible(e.call) then (if fp(e.call) in ids then ids else Sixteen(ids + [fp(e.call)]))
      else if Success(fp, hs, es, k - 1) then Without(ids, fp(e.call))
      else ids
  }

  function Ids(slots: seq<Slot>): (ids: seq<string>)
    ensures |ids| == |slots| && forall k :: 0 <= k < |slots| ==> ids[k] == slots[k].id
  {
    if slots == [] then [] else [slots[0].id] + Ids(slots[1..])
  }

  lemma IdsPut(slots: seq<Slot>, id: string, e: Entry)
    ensures Ids(Put(slots, id, e)) == if id in Ids(slots) then Ids(slots) else Ids(slots) + [id]
  {
    PutShape(slots, id, e);
    FindAt(slots, id);
    hide Put, Find;
    if Find(slots, id).Some? {
      var k :| 0 <= k < |slots| && slots[k] == Slot(id, Find(slots, id).value);
      assert Ids(slots)[k] == id;
    }
  }

  lemma IdsEvict(slots: seq<Slot>)
    ensures Ids(Evict(slots)) == Sixteen(Ids(slots))
  {
  }

  lemma {:induction false} IdsRemove(slots: seq<Slot>, id: string)
    ensures Ids(Remove(slots, id)) == Without(Ids(slots), id)
  {
    if slots != [] {
      IdsRemove(slots[1..], id);
      assert Ids(slots)[1..] == Ids(slots[1..]);
    }
  }

  lemma LineStep(fp: Call -> string, h: History, e: Event, run: RunId)
    requires |Slots(h.gate, run)| <= 16
    ensures var ids, after := Ids(Slots(h.gate, run)), Ids(Slots(Next(fp, h, e).gate, run));
      after == (if e.run != run then ids
                else if e.Clear? then []
                else if e.DryRun? && Admissible(e.call) then (if fp(e.call) in ids then ids else Sixteen(ids + [fp(e.call)]))
                else if G.Succeeds(fp, h.gate, e) then Without(ids, fp(e.call))
                else ids)
  {
    if e.run != run {
      RunsAreIsolated(fp, h.gate, e, run);
    } else if e.DryRun? && Admissible(e.call) {
      var entry := Entry(ActionOf(e.call), TargetOf(e.call), e.diff, e.nonce);
      IdsPut(Slots(h.gate, run), fp(e.call), entry);
      IdsEvict(Put(Slots(h.gate, run), fp(e.call), entry));
    } else if e.Execute? {
      IdsRemove(Slots(h.gate, run), fp(e.call));
    }
  }

  /** The stash holds exactly the calls in line. */
  lemma {:induction false} StashIsLine(fp: Call -> string, hs: seq<History>, es: seq<Event>, k: nat, run: RunId)
    requires IsRun(fp, hs, es) && k < |hs|
    ensures Ids(Slots(hs[k].gate, run)) == Line(fp, hs, es, k, run)
  {
    if k > 0 {
      StashIsLine(fp, hs, es, k - 1, run);
      StashAt(fp, hs, es, k - 1, run);
      assert hs[k] == Next(fp, hs[k - 1], es[k - 1]);
      hide Next, IsRun, G.Succeeds, Admissible, Sixteen, Without, Distinct, Ordered;
      LineStep(fp, hs[k - 1], es[k - 1], run);
    }
  }

  lemma StashedIff(fp: Call -> string, hs: seq<History>, es: seq<Event>, k: nat, run: RunId, id: string)
    requires IsRun(fp, hs, es) && k < |hs|
    ensures id in Line(fp, hs, es, k, run) <==> Find(Slots(hs[k].gate, run), id).Some?
  {
    StashIsLine(fp, hs, es, k, run);
    FindAt(Slots(hs[k].gate, run), id);
    hide Line, IsRun, Find;
  }

  // ---- who gets through ----

  /** The latest dry-run of the call. */
  predicate Latest(fp: Call -> string, es: seq<Event>, d: int, k: int, run: RunId, id: string) {
    d < k && Arms(fp, es, d, run, id) && forall m :: d < m < k ==> !Arms(fp, es, m, run, id)
  }

  /** A saved request of the run, whose summary shows the marker of that dry-run. */
  ghost predicate Shows(hs: seq<History>, es: seq<Event>, a: int, run: RunId, ap: ApprovalId, id: string, nonce: string) {
    && 0 <= a < |es| && a < |hs| && es[a].Ask? && es[a].run == run && es[a].approval == ap
    && var summary := Summary(hs[a].gate, run, es[a].prompt, es[a].id);
       summary.Some? && Contains(summary.value, Marker(id, nonce))
  }

  /** The operator's first decision on the row, after it was saved, is an approval. */
  predicate ApprovedAt(es: seq<Event>, a: int, c: int, k: int, run: RunId, ap: ApprovalId) {
    && 0 <= a < c < k <= |es| && es[c] == Decide(run, ap, true)
    && forall m :: a < m < c ==> !Deciding(es[m], run, ap)
  }

  lemma LatestIsStashed(fp: Call -> string, hs: seq<History>, es: seq<Event>, k: nat, run: RunId, id: string, d: int)
    requires IsRun(fp, hs, es) && k < |hs| && Latest(fp, es, d, k, run, id) && id in Line(fp, hs, es, k, run)
    ensures var found := Find(Slots(hs[k].gate, run), id); found.Some? && found.value.nonce == es[d].nonce
  {
    StashedIff(fp, hs, es, k, run, id);
    InvHolds(fp, hs, es, k);
    assert StashOk(fp, hs, es, hs[k], run);
    FindAt(Slots(hs[k].gate, run), id);
    hide Line, IsRun, Find;
    var found := Find(Slots(hs[k].gate, run), id);
    assert SlotOk(fp, hs, es, hs[k], run, Slot(id, found.value));
    var m := hs[k].minted[found.value.nonce];
    assert m == d;
  }

  lemma PassedSource(fp: Call -> string, hs: seq<History>, es: seq<Event>, k: nat, run: RunId, id: string) returns (d: nat)
    requires IsRun(fp, hs, es) && k < |es| && Find(Slots(hs[k].gate, run), id).Some?
    ensures Latest(fp, es, d, k, run, id) && Find(Slots(hs[k].gate, run), id).value.nonce == es[d].nonce
    ensures var nonce := es[d].nonce; nonce in hs[k].minted && hs[k].minted[nonce] == d && IsNonce(nonce)
  {
    InvHolds(fp, hs, es, k);
    assert StashOk(fp, hs, es, hs[k], run);
    FindAt(Slots(hs[k].gate, run), id);
    hide IsRun, Find, Inv, ApprovalOk;
    var s := Slot(id, Find(Slots(hs[k].gate, run), id).value);
    assert SlotOk(fp, hs, es, hs[k], run, s);
    d := hs[k].minted[s.entry.nonce];
  }

  lemma RowMeans(hs: seq<History>, es: seq<Event>, k: nat, run: RunId, ap: ApprovalId, id: string, nonce: string)
    requires k < |es| && k < |hs| && hs[k].now == k && ap in hs[k].gate.approvals && ApprovalOk(hs, es, hs[k], ap)
    requires var row := hs[k].gate.approvals[ap]; row.run == run && row.decision == Some(true) && Contains(row.summary, Marker(id, nonce))
    requires IsId(id) && IsNonce(nonce)
    ensures ap in hs[k].saved && ap in hs[k].decided && nonce in hs[k].minted && hs[k].minted[nonce] < hs[k].saved[ap]
    ensures Shows(hs, es, hs[k].saved[ap], run, ap, id, nonce) && ApprovedAt(es, hs[k].saved[ap], hs[k].decided[ap], k, run, ap)
  {
    hide Summary, Marker, Contains;
  }

  lemma PassedMeans(fp: Call -> string, hs: seq<History>, es: seq<Event>, k: nat, run: RunId, ap: ApprovalId, id: string)
    requires IsRun(fp, hs, es) && k < |es| && GatePasses(hs[k].gate, run, Some(ap), id) && IsId(id)
    ensures id in Line(fp, hs, es, k, run)
    ensures exists d, a, c ::
              Latest(fp, es, d, k, run, id) && d < a && Shows(hs, es, a, run, ap, id, es[d].nonce) && ApprovedAt(es, a, c, k, run, ap)
  {
    StashedIff(fp, hs, es, k, run, id);
    InvHolds(fp, hs, es, k);
    var d := PassedSource(fp, hs, es, k, run, id);
    assert ApprovalOk(hs, es, hs[k], ap);
    hide Line, IsRun, Inv, ApprovalOk, Find, Latest, Shows, ApprovedAt, Marker, Contains;
    RowMeans(hs, es, k, run, ap, id, es[d].nonce);
    var a, c := hs[k].saved[ap], hs[k].decided[ap];
    assert Shows(hs, es, a, run, ap, id, es[d].nonce) && ApprovedAt(es, a, c, k, run, ap);
  }

  lemma HistoryStep(fp: Call -> string, hs: seq<History>, es: seq<Event>, k: nat)
    requires IsRun(fp, hs, es) && k < |es|
    ensures Legal(hs[k], es[k]) && hs[k + 1] == Next(fp, hs[k], es[k])
  {
    hide Legal, Next;
  }

  lemma SavedNow(fp: Call -> string, h: History, e: Event)
    requires e.Ask? && Legal(h, e) && Summary(h.gate, e.run, e.prompt, e.id).Some?
    ensures var t := Next(fp, h, e);
      && e.approval in t.gate.approvals && t.gate.approvals[e.approval].run == e.run
      && e.approval in t.saved && t.saved[e.approval] == h.now
  {
    hide Summary;
  }

  lemma JustSaved(fp: Call -> string, hs: seq<History>, es: seq<Event>, a: nat)
    requires IsRun(fp, hs, es) && a < |es| && es[a].Ask? && Summary(hs[a].gate, es[a].run, es[a].prompt, es[a].id).Some?
    ensures var h, ap := hs[a + 1], es[a].approval;
      ap in h.gate.approvals && h.gate.approvals[ap].run == es[a].run && ap in h.saved && h.saved[ap] == a
  {
    HistoryStep(fp, hs, es, a);
    InvHolds(fp, hs, es, a);
    hide IsRun, Legal, Next, Summary, Inv;
    SavedNow(fp, hs[a], es[a]);
  }

  lemma StillSaved(fp: Call -> string, hs: seq<History>, es: seq<Event>, k: nat, ap: ApprovalId)
    requires IsRun(fp, hs, es) && k < |es| && ap in hs[k].gate.approvals && ap in hs[k].saved
    ensures var h, t := hs[k], hs[k + 1];
      && ap in t.gate.approvals && t.gate.approvals[ap].run == h.gate.approvals[ap].run
      && ap in t.saved && t.saved[ap] == h.saved[ap]
  {
    HistoryStep(fp, hs, es, k);
    hide IsRun, Legal, Next;
    StaysOnRecord(fp, hs[k], es[k], ap);
  }

  lemma {:induction false} OnRecord(fp: Call -> string, hs: seq<History>, es: seq<Event>, a: nat, k: nat, run: RunId, ap: ApprovalId)
    requires IsRun(fp, hs, es) && a < k < |hs| && es[a].Ask? && es[a].run == run && es[a].approval == ap
    requires Summary(hs[a].gate, run, es[a].prompt, es[a].id).Some?
    ensures ap in hs[k].gate.approvals && hs[k].gate.approvals[ap].run == run
    ensures ap in hs[k].saved && hs[k].saved[ap] == a
  {
    assert |hs| == |es| + 1;
    hide IsRun, Summary;
    if a < k - 1 {
      OnRecord(fp, hs, es, a, k - 1, run, ap);
      StillSaved(fp, hs, es, k - 1, ap);
    } else {
      JustSaved(fp, hs, es, a);
    }
  }

  lemma StaysOnRecord(fp: Call -> string, h: History, e: Event, ap: ApprovalId)
    requires ap in h.gate.approvals && ap in h.saved && Legal(h, e)
    ensures var t := Next(fp, h, e);
      && ap in t.gate.approvals && t.gate.approvals[ap].run == h.gate.approvals[ap].run
      && ap in t.saved && t.saved[ap] == h.saved[ap]
  {
    RowAfter(fp, h, e, ap);
    hide Next;
  }

  lemma ApprovedPasses(fp: Call -> string, hs: seq<History>, es: seq<Event>, k: nat, run: RunId, ap: ApprovalId, id: string,
                       d: int, a: int, c: int)
    requires IsRun(fp, hs, es) && k < |es| && id in Line(fp, hs, es, k, run)
    requires Latest(fp, es, d, k, run, id) && Shows(hs, es, a, run, ap, id, es[d].nonce) && ApprovedAt(es, a, c, k, run, ap)
    ensures GatePasses(hs[k].gate, run, Some(ap), id)
  {
    LatestIsStashed(fp, hs, es, k, run, id, d);
    OnRecord(fp, hs, es, a, k, run, ap);
    InvHolds(fp, hs, es, k);
    hide Line, IsRun, Find, StashOk, Latest, Summary, Marker, Contains;
    assert ApprovalOk(hs, es, hs[k], ap);
    RowDecided(hs, es, k, run, ap, a, c);
  }

  lemma RowDecided(hs: seq<History>, es: seq<Event>, k: nat, run: RunId, ap: ApprovalId, a: int, c: int)
    requires k < |es| && k < |hs| && hs[k].now == k && ap in hs[k].gate.approvals && ApprovalOk(hs, es, hs[k], ap)
    requires hs[k].gate.approvals[ap].run == run && hs[k].saved[ap] == a && ApprovedAt(es, a, c, k, run, ap)
    ensures hs[k].gate.approvals[ap].decision == Some(true)
    ensures Summary(hs[a].gate, run, es[a].prompt, es[a].id) == Some(hs[k].gate.approvals[ap].summary)
  {
    hide Summary, Marker, Contains;
    assert Deciding(es[c], run, ap);
  }

  /** The gate, told from the history: an execute of an allowed call gets to its patches exactly when
      the call is in line, the request it quotes was saved by its run after the latest dry-run of the
      call and shows that dry-run's marker, and the first decision on it was an approval. */
  lemma PassedIff(fp: Call -> string, hs: seq<History>, es: seq<Event>, k: nat, ap: ApprovalId)
    requires IsRun(fp, hs, es) && k < |es| && es[k].Execute? && Admissible(es[k].call) && es[k].quoted == Some(ap)
    ensures var run, id := es[k].run, fp(es[k].call);
      Passed(fp, hs, es, k) <==>
        && id in Line(fp, hs, es, k, run)
        && exists d, a, c ::
             Latest(fp, es, d, k, run, id) && d < a && Shows(hs, es, a, run, ap, id, es[d].nonce) && ApprovedAt(es, a, c, k, run, ap)
  {
    var run, id := es[k].run, fp(es[k].call);
    assert IsId(id);
    hide IsRun, Line, GatePasses, Latest, Shows, ApprovedAt, Admissible;
    if GatePasses(hs[k].gate, run, Some(ap), id) {
      PassedMeans(fp, hs, es, k, run, ap, id);
    }
    if d, a, c :| Latest(fp, es, d, k, run, id) && d < a && Shows(hs, es, a, run, ap, id, es[d].nonce) && ApprovedAt(es, a, c, k, run, ap) {
      if id in Line(fp, hs, es, k, run) {
        ApprovedPasses(fp, hs, es, k, run, ap, id, d, a, c);
      }
    }
  }

  // ---- how long a call stays in line ----

  /** The other calls that the run dry-ran from `b` on. */
  ghost function Others(fp: Call -> string, es: seq<Event>, b: nat, k: nat, run: RunId, id: string): set<string>
    requires k <= |es|
  {
    set m | b <= m < k && es[m].DryRun? && es[m].run == run && Admissible(es[m].call) && fp(es[m].call) != id :: fp(es[m].call)
  }

  /** The call stands in line, and behind it only others that came since. */
  ghost predicate StandsBefore(ids: seq<string>, id: string, others: set<string>) {
    && (forall i, j :: 0 <= i < j < |ids| ==> ids[i] != ids[j])
    && exists i :: 0 <= i < |ids| && ids[i] == id && forall j :: i < j < |ids| ==> ids[j] in others
  }

  lemma {:induction false} FewDistinct(ids: seq<string>, others: set<string>)
    requires (forall i, j :: 0 <= i < j < |ids| ==> ids[i] != ids[j]) && forall i :: 0 <= i < |ids| ==> ids[i] in others
    ensures |ids| <= |others|
  {
    if ids != [] {
      FewDistinct(ids[1..], others - {ids[0]});
    }
  }

  lemma StillBefore(ids: seq<string>, id: string, others: set<string>)
    requires StandsBefore(ids, id, others) && |others| < 16
    ensures StandsBefore(Sixteen(ids), id, others)
  {
    var i :| 0 <= i < |ids| && ids[i] == id && forall j :: i < j < |ids| ==> ids[j] in others;
    FewDistinct(ids[i + 1..], others);
    if |ids| > 16 {
      assert Sixteen(ids)[i - (|ids| - 16)] == id;
    }
  }

  lemma WithoutFirst(ids: seq<string>, k: nat)
    requires k + 1 < |ids|
    ensures [ids[0]] + (ids[1..][..k] + ids[1..][k + 1..]) == ids[..k + 1] + ids[k + 2..]
  {
  }

  lemma {:induction false} WithoutShape(ids: seq<string>, id: string)
    ensures id !in ids ==> Without(ids, id) == ids
    ensures id in ids ==> exists k :: 0 <= k < |ids| && ids[k] == id && Without(ids, id) == ids[..k] + ids[k + 1..]
  {
    if ids != [] {
      WithoutShape(ids[1..], id);
      if ids[0] == id {
        assert Without(ids, id) == ids[..0] + ids[1..];
      } else if id in ids[1..] {
        var k :| 0 <= k < |ids[1..]| && ids[1..][k] == id && Without(ids[1..], id) == ids[1..][..k] + ids[1..][k + 1..];
        WithoutFirst(ids, k);
        assert ids[k + 1] == id;
      }
    }
  }

  lemma BeforeCut(ids: seq<string>, id: string, others: set<string>, k: nat, i: nat)
    requires (forall j, l :: 0 <= j < l < |ids| ==> ids[j] != ids[l]) && k < |ids| && i < |ids| && i != k
    requires ids[i] == id && forall j :: i < j < |ids| ==> ids[j] in others
    ensures StandsBefore(ids[..k] + ids[k + 1..], id, others)
  {
    var rest := ids[..k] + ids[k + 1..];
    forall j | 0 <= j < |rest| ensures rest[j] == ids[if j < k then j else j + 1] {
    }
    var p := if i < k then i else i - 1;
    assert rest[p] == id && forall j :: p < j < |rest| ==> rest[j] in others;
  }

  lemma BeforeWithout(ids: seq<string>, id: string, others: set<string>, other: string)
    requires StandsBefore(ids, id, others) && other != id
    ensures StandsBefore(Without(ids, other), id, others)
  {
    WithoutShape(ids, other);
    hide Without;
    if other in ids {
      var k :| 0 <= k < |ids| && ids[k] == other && Without(ids, other) == ids[..k] + ids[k + 1..];
      var i :| 0 <= i < |ids| && ids[i] == id && forall j :: i < j < |ids| ==> ids[j] in others;
      BeforeCut(ids, id, others, k, i);
    }
  }

  lemma LineDistinct(fp: Call -> string, hs: seq<History>, es: seq<Event>, k: nat, run: RunId)
    requires IsRun(fp, hs, es) && k < |hs|
    ensures var ids := Line(fp, hs, es, k, run); forall i, j :: 0 <= i < j < |ids| ==> ids[i] != ids[j]
  {
    StashIsLine(fp, hs, es, k, run);
    StashAt(fp, hs, es, k, run);
  }

  lemma OthersGrow(fp: Call -> string, es: seq<Event>, b: nat, k: nat, run: RunId, id: string)
    requires b <= k < |es|
    ensures Others(fp, es, b, k, run, id) <= Others(fp, es, b, k + 1, run, id)
    ensures es[k].DryRun? && es[k].run == run && Admissible(es[k].call) && fp(es[k].call) != id ==>
              fp(es[k].call) in Others(fp, es, b, k + 1, run, id)
  {
    hide Admissible;
  }

  /** Neither executed nor cleared from `b` on. */
  ghost predicate Untouched(fp: Call -> string, hs: seq<History>, es: seq<Event>, b: nat, k: nat, run: RunId, id: string) {
    forall m :: b <= m < k && m < |es| && es[m].run == run ==>
      !es[m].Clear? && !(Success(fp, hs, es, m) && fp(es[m].call) == id)
  }

  lemma StaysInLine(fp: Call -> string, hs: seq<History>, es: seq<Event>, b: nat, k: nat, run: RunId, id: string)
    requires IsRun(fp, hs, es) && b < k < |es| && Untouched(fp, hs, es, b, k + 1, run, id)
    requires |Others(fp, es, b, k + 1, run, id)| < 16
    requires StandsBefore(Line(fp, hs, es, k, run), id, Others(fp, es, b, k, run, id))
    ensures StandsBefore(Line(fp, hs, es, k + 1, run), id, Others(fp, es, b, k + 1, run, id))
  {
    var ids, e, others := Line(fp, hs, es, k, run), es[k], Others(fp, es, b, k + 1, run, id);
    OthersGrow(fp, es, b, k, run, id);
    LineDistinct(fp, hs, es, k, run);
    hide IsRun, Others, Admissible, Sixteen, Without;
    assert StandsBefore(ids, id, others);
    if e.run == run && e.DryRun? && Admissible(e.call) && fp(e.call) !in ids {
      Appended(ids, id, others, fp(e.call));
      StillBefore(ids + [fp(e.call)], id, others);
    } else if e.run == run && !e.DryRun? && Success(fp, hs, es, k) {
      BeforeWithout(ids, id, others, fp(e.call));
    }
  }

  lemma Appended(ids: seq<string>, id: string, others: set<string>, other: string)
    requires StandsBefore(ids, id, others) && other !in ids && (other != id ==> other in others)
    ensures StandsBefore(ids + [other], id, others)
  {
    var i :| 0 <= i < |ids| && ids[i] == id && forall j :: i < j < |ids| ==> ids[j] in others;
    assert (ids + [other])[i] == id;
  }

  /** From the dry-run that brings it in line a call stays there, unless it is executed or cleared, as
      long as fewer than sixteen other calls were dry-run since. */
  lemma {:induction false} InLineSince(fp: Call -> string, hs: seq<History>, es: seq<Event>, b: nat, k: nat, run: RunId, id: string)
    requires IsRun(fp, hs, es) && b < k <= |es| && Arms(fp, es, b, run, id) && id !in Line(fp, hs, es, b, run)
    requires Untouched(fp, hs, es, b, k, run, id) && |Others(fp, es, b, k, run, id)| < 16
    ensures StandsBefore(Line(fp, hs, es, k, run), id, Others(fp, es, b, k, run, id))
  {
    hide IsRun, Others, Line, StandsBefore;
    if k == b + 1 {
      ComesInLine(fp, hs, es, b, run, id);
    } else {
      OthersUpTo(fp, es, b, k - 1, k, run, id);
      Fewer(Others(fp, es, b, k - 1, run, id), Others(fp, es, b, k, run, id));
      InLineSince(fp, hs, es, b, k - 1, run, id);
      StaysInLine(fp, hs, es, b, k - 1, run, id);
    }
  }

  lemma ComesInLine(fp: Call -> string, hs: seq<History>, es: seq<Event>, b: nat, run: RunId, id: string)
    requires IsRun(fp, hs, es) && b < |es| && Arms(fp, es, b, run, id) && id !in Line(fp, hs, es, b, run)
    requires |Others(fp, es, b, b + 1, run, id)| < 16
    ensures StandsBefore(Line(fp, hs, es, b + 1, run), id, Others(fp, es, b, b + 1, run, id))
  {
    LineDistinct(fp, hs, es, b, run);
    hide IsRun, Others, Sixteen;
    var ids := Line(fp, hs, es, b, run);
    assert (ids + [id])[|ids|] == id;
    assert StandsBefore(ids + [id], id, Others(fp, es, b, b + 1, run, id));
    StillBefore(ids + [id], id, Others(fp, es, b, b + 1, run, id));
  }

  lemma Fewer(a: set<string>, b: set<string>)
    requires a <= b
    ensures |a| <= |b|
  {
    assert a + (b - a) == b;
  }

  lemma NamedShows(fp: Call -> string, hs: seq<History>, es: seq<Event>, k: nat, run: RunId, ap: ApprovalId, id: string, d: int)
    requires IsRun(fp, hs, es) && k < |es| && es[k].Ask? && es[k] == Ask(run, ap, es[k].prompt, id)
    requires Latest(fp, es, d, k, run, id) && id in Line(fp, hs, es, k, run)
    ensures Shows(hs, es, k, run, ap, id, es[d].nonce)
  {
    LatestIsStashed(fp, hs, es, k, run, id, d);
    InvHolds(fp, hs, es, k);
    assert StashOk(fp, hs, es, hs[k], run);
    FindAt(Slots(hs[k].gate, run), id);
    var e := Find(Slots(hs[k].gate, run), id).value;
    assert SlotOk(fp, hs, es, hs[k], run, Slot(id, e));
    LineShort(es[d].call);
    hide IsRun, Line, Find, Block, Marker;
    SummaryMarkers(es[k].prompt, id, e, id, e.nonce);
  }

  /** An approved call is let through: dry-run again or not since it came in line, neither executed nor
      cleared nor crowded out, requested by its id after the latest dry-run, and approved. */
  lemma ApprovedExecutePasses(fp: Call -> string, hs: seq<History>, es: seq<Event>, k: nat, ap: ApprovalId, b: nat, d: nat, a: nat, c: nat)
    requires IsRun(fp, hs, es) && k < |es| && es[k].Execute? && Admissible(es[k].call) && es[k].quoted == Some(ap)
    requires var run, id := es[k].run, fp(es[k].call);
      && b <= d < a && Arms(fp, es, b, run, id) && id !in Line(fp, hs, es, b, run)
      && Latest(fp, es, d, k, run, id)
      && Untouched(fp, hs, es, b, k, run, id) && |Others(fp, es, b, k, run, id)| < 16
      && ApprovedAt(es, a, c, k, run, ap) && es[a].Ask? && es[a] == Ask(run, ap, es[a].prompt, id)
    ensures Passed(fp, hs, es, k)
  {
    var run, id := es[k].run, fp(es[k].call);
    OthersUpTo(fp, es, b, a, k, run, id);
    Fewer(Others(fp, es, b, a, run, id), Others(fp, es, b, k, run, id));
    InLineSince(fp, hs, es, b, k, run, id);
    InLineSince(fp, hs, es, b, a, run, id);
    hide IsRun, Line, Others, Admissible;
    NamedShows(fp, hs, es, a, run, ap, id, d);
    PassedIff(fp, hs, es, k, ap);
  }

  lemma OthersUpTo(fp: Call -> string, es: seq<Event>, b: nat, a: nat, k: nat, run: RunId, id: string)
    requires a <= k <= |es|
    ensures Others(fp, es, b, a, run, id) <= Others(fp, es, b, k, run, id)
  {
    hide Admissible;
  }
}
