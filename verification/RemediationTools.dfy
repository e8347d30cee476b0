/** The remediation tools in place: the module-level stash, the approval rows and the steps
    that work on them. */
module RemediationTools {
  import opened Options
  import opened Text
  import opened G = RemediationGate

  datatype Result =
    | Denied(denial: Denial)
    | DryRunReport(id: string, diff: string)
    | NotApproved | NoDryRunPending | MutationFailed | Executed

  /** The entry of the id, the only one where ids are distinct. */
  predicate First(slots: seq<Slot>, id: string, k: int) {
    0 <= k < |slots| && slots[k].id == id && forall j :: 0 <= j < k ==> slots[j].id != id
  }

  lemma {:induction false} FindFirst(slots: seq<Slot>, id: string)
    ensures forall k :: First(slots, id, k) ==> Find(slots, id) == Some(slots[k].entry)
    ensures Find(slots, id).Some? ==> exists k :: First(slots, id, k)
  {
    if slots != [] {
      FindFirst(slots[1..], id);
      if slots[0].id == id {
        assert First(slots, id, 0);
      } else {
        forall k | First(slots, id, k) ensures First(slots[1..], id, k - 1) {
        }
        if k :| First(slots[1..], id, k) {
          assert forall j :: 0 < j <= k ==> slots[j] == slots[1..][j - 1];
          assert First(slots, id, k + 1);
        }
      }
    }
  }

  /** What the server appends to a request: the marker, the action and its target, and the diff. */
  function Card(id: string, e: Entry): string {
    "\n\n" + ("--- server-verified dry-run [" + id + ":" + e.nonce + "] ---") + "\n" + e.action + " " + e.target + "\n" + e.diff
  }

  lemma CardIsBlock()
    ensures forall id, e :: Card(id, e) == Block(id, e)
  {
  }

  /** A promotion has two patches, every other call one. */
  predicate Patched(call: Call, patches: seq<bool>)
    requires |patches| >= PatchCount(call)
  {
    patches[0] && (call.Remedy? && call.tool.RolloutPromote? ==> patches[1])
  }

  class ToolServer {
    var stash: map<RunId, seq<Slot>>
    var approvals: map<ApprovalId, Approval>

    function View(): Gate
      reads this
    {
      Gate(stash, approvals)
    }

    /** Each run's stash is a dictionary of at most sixteen entries. */
    ghost predicate Valid()
      reads this
    {
      forall run :: run in stash ==> |stash[run]| <= STASH_CAP && Distinct(stash[run])
    }

    /** The run quotes an approved request of its own. */
    predicate Approves(run: RunId, quoted: Option<ApprovalId>)
      reads this
    {
      && quoted.Some? && quoted.value in approvals && approvals[quoted.value].run == run
      && approvals[quoted.value].decision == Some(true)
    }

    ghost predicate Pending(run: RunId, id: string)
      reads this
    {
      run in stash && exists k :: First(stash[run], id, k)
    }

    /** And its text shows the marker of the entry the run has under the id. */
    ghost predicate Clears(run: RunId, quoted: Option<ApprovalId>, id: string)
      reads this
    {
      && Approves(run, quoted)
      && run in stash && exists k :: First(stash[run], id, k) && Contains(approvals[quoted.value].summary, Marker(id, stash[run][k].entry.nonce))
    }

    constructor ()
      ensures Valid() && View() == Gate(map[], map[])
    {
      stash, approvals := map[], map[];
    }

    /** Records one dry-run and evicts from the front while the run's stash is over its cap. */
    method StashDryrun(run: RunId, id: string, e: Entry)
      modifies this`stash
      ensures stash == old(stash)[run := Evict(Put(Slots(old(View()), run), id, e))]
    {
      var slots := Put(Slots(View(), run), id, e);
      ghost var all := slots;
      while |slots| > STASH_CAP
        invariant |slots| <= |all| && slots == all[|all| - |slots|..]
        invariant |slots| >= STASH_CAP || slots == all
      {
        slots := slots[1..];
      }
      stash := stash[run := slots];
    }

    method PopDryrun(run: RunId, id: string) returns (e: Option<Entry>)
      modifies this`stash
      ensures e == Find(Slots(old(View()), run), id)
      ensures stash == if run in old(stash) then old(stash)[run := Remove(old(stash)[run], id)] else old(stash)
    {
      e := Find(Slots(View(), run), id);
      if run in stash {
        stash := stash[run := Remove(stash[run], id)];
      }
    }

    method ClearRunStash(run: RunId)
      modifies this`stash
      ensures stash == old(stash) - {run}
    {
      stash := stash - {run};
    }

    method RequestApproval(run: RunId, approval: ApprovalId, prompt: string, id: string) returns (saved: bool)
      modifies this`approvals
      ensures forall fp :: View() == G.Step(fp, old(View()), Ask(run, approval, prompt, id))
      ensures saved <==> Summary(old(View()), run, prompt, id).Some?
      ensures saved <==> id == "" || Pending(run, id)
      ensures saved && approval !in old(approvals) ==>
        && approvals.Keys == old(approvals).Keys + {approval} && (forall a :: a in old(approvals) ==> approvals[a] == old(approvals)[a])
        && approvals[approval].run == run && approvals[approval].decision == None
        && (id == "" ==> approvals[approval].summary == prompt)
        && (id != "" ==> forall k :: First(stash[run], id, k) ==> approvals[approval].summary == prompt + Card(id, stash[run][k].entry))
      ensures !saved || approval in old(approvals) ==> approvals == old(approvals)
    {
      FindFirst(Slots(View(), run), id);
      CardIsBlock();
      hide Block, Card;
      assert run in stash ==> Slots(View(), run) == stash[run];
      assert Pending(run, id) <==> Find(Slots(View(), run), id).Some? by {
        if k :| First(Slots(View(), run), id, k) {
          assert run in stash && First(stash[run], id, k);
        }
      }
      var summary := Summary(View(), run, prompt, id);
      saved := summary.Some?;
      if saved && approval !in approvals {
        approvals := approvals[approval := Approval(run, summary.value, None)];
      }
    }

    /** A decision is written once: a later one does not match the row any more. */
    method DecideApproval(run: RunId, approval: ApprovalId, approved: bool) returns (recorded: bool)
      modifies this`approvals
      ensures forall fp :: View() == G.Step(fp, old(View()), Decide(run, approval, approved))
      ensures recorded <==> approval in old(approvals) && old(approvals)[approval].run == run && old(approvals)[approval].decision == None
      ensures approvals == if recorded then old(approvals)[approval := old(approvals)[approval].(decision := Some(approved))] else old(approvals)
    {
      recorded := approval in approvals && approvals[approval].run == run && approvals[approval].decision == None;
      if recorded {
        approvals := approvals[approval := approvals[approval].(decision := Some(approved))];
      }
    }

    method ExecuteGate(run: RunId, quoted: Option<ApprovalId>, id: string) returns (refusal: Option<Result>)
      ensures refusal ==
        if Clears(run, quoted, id) then None
        else if Approves(run, quoted) && !Pending(run, id) then Some(NoDryRunPending)
        else Some(NotApproved)
      ensures refusal == None <==> GatePasses(View(), run, quoted, id)
    {
      if !Approves(run, quoted) {
        return Some(NotApproved);
      }
      FindFirst(Slots(View(), run), id);
      var e := Find(Slots(View(), run), id);
      if e.None? {
        return Some(NoDryRunPending);
      }
      var k := IndexOf(approvals[quoted.value].summary, Marker(id, e.value.nonce));
      refusal := if k == -1 then Some(NotApproved) else None;
    }

    /** The dry-run of an allowed call: it reads, and what it reports is what is then stashed. */
    method DryRunTool(fp: Call -> string, run: RunId, call: Call, diff: string, nonce: string) returns (result: Result)
      requires Valid() && Admissible(call)
      modifies this`stash
      ensures View() == G.Step(fp, old(View()), DryRun(run, call, diff, nonce)) && Valid()
      ensures result == DryRunReport(fp(call), diff)
      ensures Find(Slots(View(), run), fp(call)) == Some(Entry(ActionOf(call), TargetOf(call), diff, nonce))
      ensures run in stash && exists k ::
        && First(stash[run], fp(call), k) && Named(call, stash[run][k].entry.action, stash[run][k].entry.target)
        && stash[run][k].entry.diff == diff && stash[run][k].entry.nonce == nonce
    {
      CallIsNamed(call);
      hide ActionOf, TargetOf, Admissible, Put, Evict, Find;
      var e := Entry(ActionOf(call), TargetOf(call), diff, nonce);
      StashDryrun(run, fp(call), e);
      StashKept(Slots(old(View()), run), fp(call), e);
      JustStashed(Slots(old(View()), run), fp(call), e);
      FindFirst(Slots(View(), run), fp(call));
      result := DryRunReport(fp(call), diff);
    }

    /** The execution of an allowed call: the gate, then its patches in order up to the first that
        fails; only a success consumes the stash entry. */
    method ExecuteTool(fp: Call -> string, run: RunId, call: Call, quoted: Option<ApprovalId>, patches: seq<bool>) returns (result: Result)
      requires Valid() && Admissible(call) && |patches| >= PatchCount(call)
      modifies this`stash
      ensures View() == G.Step(fp, old(View()), Execute(run, call, quoted, patches)) && Valid()
      ensures result == Executed <==> G.Succeeds(fp, old(View()), Execute(run, call, quoted, patches))
      ensures result ==
        if !old(Approves(run, quoted)) then NotApproved
        else if !old(Pending(run, fp(call))) then NoDryRunPending
        else if !old(Clears(run, quoted, fp(call))) then NotApproved
        else if Patched(call, patches) then Executed
        else MutationFailed
      ensures result != Executed ==> stash == old(stash)
      ensures result == Executed ==>
        && run in old(stash) && stash.Keys == old(stash).Keys
        && (forall r :: r in stash && r != run ==> stash[r] == old(stash)[r])
        && exists k :: 0 <= k < |old(stash)[run]| && old(stash)[run][k].id == fp(call)
                       && stash[run] == old(stash)[run][..k] + old(stash)[run][k + 1..]
    {
      hide Admissible, Remove, Find, Marker, Contains;
      var id := fp(call);
      var refusal := ExecuteGate(run, quoted, id);
      if refusal.Some? {
        return refusal.value;
      }
      var n := 0;
      while n < PatchCount(call) && patches[n]
        invariant 0 <= n <= PatchCount(call) && forall k :: 0 <= k < n ==> patches[k]
      {
        n := n + 1;
      }
      if n < PatchCount(call) {
        return MutationFailed;
      }
      StashKept(Slots(View(), run), id, Entry("", "", "", ""));
      StashedRun(View(), run, quoted, id);
      RemoveShape(Slots(View(), run), id);
      var _ := PopDryrun(run, id);
      return Executed;
    }

    /** Any of the seven tools: denied outside the allow-list, else a dry-run or an execution. */
    method RunTool(fp: Call -> string, run: RunId, call: Call, dryRun: bool, quoted: Option<ApprovalId>,
                   diff: string, nonce: string, patches: seq<bool>)
      returns (result: Result)
      requires Valid() && |patches| >= PatchCount(call)
      modifies this`stash
      ensures View() == G.Step(fp, old(View()), if dryRun then DryRun(run, call, diff, nonce) else Execute(run, call, quoted, patches))
      ensures result == Executed <==> G.Succeeds(fp, old(View()), if dryRun then DryRun(run, call, diff, nonce) else Execute(run, call, quoted, patches))
      ensures Valid()
      ensures result == Executed <==>
        !dryRun && Admissible(call) && old(Clears(run, quoted, fp(call))) && Patched(call, patches)
      ensures result.Denied? <==> !Admissible(call)
      ensures result.DryRunReport? ==> result.id == fp(call) && Find(Slots(View(), run), fp(call)) == Some(Entry(ActionOf(call), TargetOf(call), diff, nonce))
    {
      var denial := Refusal(call);
      hide Refusal, ActionOf, TargetOf, Find, Evict, Put, Remove, GatePasses, Mutated;
      if denial.Some? {
        return Denied(denial.value);
      }
      if dryRun {
        result := DryRunTool(fp, run, call, diff, nonce);
      } else {
        result := ExecuteTool(fp, run, call, quoted, patches);
      }
    }
  }

  lemma StashedRun(g: Gate, run: RunId, quoted: Option<ApprovalId>, id: string)
    requires GatePasses(g, run, quoted, id)
    ensures run in g.stash
  {
  }
}
