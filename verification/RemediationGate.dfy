/** The remediation tools: hard-deny validation, the per-run stash of dry-runs with its fresh
    nonces, operator approvals that quote a server marker, and the execution gate. */
module RemediationGate {
  import opened Options
  import opened Text

  type RunId = nat
  type ApprovalId = nat

  // ---- hard deny ----

  const ALLOWED_WORKLOADS: set<string> := {"gateway", "model-proxy", "retriever", "embedder", "load-generator"}
  const ACTIONS: set<string> :=
    {"rollout_undo", "rollout_abort", "rollout_promote", "scale_deployment", "patch_memory_limit", "restart_workload"}
  const SCALE_MIN := 0
  const SCALE_MAX := 6
  const MEM_MIN_MI := 64
  const MEM_MAX_MI := 2048

  /** A parameter as the model sent it; a bool is not accepted as an int. */
  datatype Value = Int(n: int) | Bool(b: bool) | Other
  datatype Params = Params(replicas: Option<Value>, memoryMi: Option<Value>)
  datatype Denial = UnknownAction | InvalidName | OutsideAllowList | BadReplicas | BadMemory | NoRotatedCredential

  predicate Alnum(c: char) { 'a' <= c <= 'z' || '0' <= c <= '9' }

  /** A DNS-1123 label. */
  predicate WorkloadName(w: string) {
    && 1 <= |w| <= 63 && Alnum(w[0]) && Alnum(w[|w| - 1])
    && forall k :: 0 <= k < |w| ==> Alnum(w[k]) || w[k] == '-'
  }

  predicate IntWithin(v: Option<Value>, lo: int, hi: int) {
    v.Some? && v.value.Int? && lo <= v.value.n <= hi
  }

  function ValidateRemediation(action: string, workload: string, p: Params): Option<Denial> {
    if action !in ACTIONS then Some(UnknownAction)
    else if !WorkloadName(workload) then Some(InvalidName)
    else if workload !in ALLOWED_WORKLOADS then Some(OutsideAllowList)
    else if action == "scale_deployment" && !IntWithin(p.replicas, SCALE_MIN, SCALE_MAX) then Some(BadReplicas)
    else if action == "patch_memory_limit" && !IntWithin(p.memoryMi, MEM_MIN_MI, MEM_MAX_MI) then Some(BadMemory)
    else None
  }

  /** A call passes exactly when it is one of the six actions on one of the five workloads with
      its own parameter in bounds: the name pattern refuses none of them. */
  lemma ValidationIsTheAllowList(action: string, workload: string, p: Params)
    ensures ValidateRemediation(action, workload, p) == None <==>
            && action in {"rollout_undo", "rollout_abort", "rollout_promote", "restart_workload", "scale_deployment", "patch_memory_limit"}
            && workload in {"gateway", "retriever", "embedder", "model-proxy", "load-generator"}
            && (action == "scale_deployment" ==> exists n :: 0 <= n <= 6 && p.replicas == Some(Int(n)))
            && (action == "patch_memory_limit" ==> exists n :: 64 <= n <= 2048 && p.memoryMi == Some(Int(n)))
  {
    assert WorkloadName("gateway") && WorkloadName("retriever") && WorkloadName("embedder");
    assert WorkloadName("model-proxy") && WorkloadName("load-generator");
  }

  // ---- the seven tools as calls ----

  datatype Tool =
    | RolloutUndo | RolloutAbort | RolloutPromote | RestartWorkload
    | ScaleDeployment(replicas: Value) | PatchMemoryLimit(memoryMi: Value)

  predicate Hex(c: char) { '0' <= c <= '9' || 'a' <= c <= 'f' }

  /** The first eight hex characters of a digest. */
  type Hex8 = s: string | |s| == 8 && forall k :: 0 <= k < 8 ==> Hex(s[k]) witness "00000000"

  /** `UpdateDbSecret` carries the masked digest of the vault's credential, None without one. */
  datatype Call = Remedy(tool: Tool, workload: string) | UpdateDbSecret(vault: Option<Hex8>)

  function ActionOf(call: Call): string {
    match call
    case UpdateDbSecret(_) => "update_db_secret"
    case Remedy(tool, _) =>
      match tool
      case RolloutUndo => "rollout_undo"
      case RolloutAbort => "rollout_abort"
      case RolloutPromote => "rollout_promote"
      case RestartWorkload => "restart_workload"
      case ScaleDeployment(_) => "scale_deployment"
      case PatchMemoryLimit(_) => "patch_memory_limit"
  }

  /** The action and the target that the operator reads for a call. */
  predicate Named(call: Call, action: string, target: string) {
    match call
    case UpdateDbSecret(_) => action == "update_db_secret" && target == "secret/subject-db-credentials"
    case Remedy(RolloutUndo, w) => action == "rollout_undo" && target == w
    case Remedy(RolloutAbort, w) => action == "rollout_abort" && target == w
    case Remedy(RolloutPromote, w) => action == "rollout_promote" && target == w
    case Remedy(RestartWorkload, w) => action == "restart_workload" && target == w
    case Remedy(ScaleDeployment(_), w) => action == "scale_deployment" && target == w
    case Remedy(PatchMemoryLimit(_), w) => action == "patch_memory_limit" && target == w
  }

  lemma CallIsNamed(call: Call)
    ensures Named(call, ActionOf(call), TargetOf(call))
  {
  }

  function TargetOf(call: Call): string {
    if call.Remedy? then call.workload else "secret/subject-db-credentials"
  }

  function ParamsOf(tool: Tool): Params {
    match tool
    case ScaleDeployment(v) => Params(Some(v), None)
    case PatchMemoryLimit(v) => Params(None, Some(v))
    case _ => Params(None, None)
  }

  function Refusal(call: Call): Option<Denial> {
    match call
    case Remedy(tool, workload) => ValidateRemediation(ActionOf(call), workload, ParamsOf(tool))
    case UpdateDbSecret(vault) => if vault.None? then Some(NoRotatedCredential) else None
  }

  predicate Admissible(call: Call) {
    Refusal(call) == None
  }

  ghost predicate Malformed(name: string) {
    || name == "" || |name| > 63 || name[0] == '-' || name[|name| - 1] == '-'
    || exists c :: c in name && c !in "abcdefghijklmnopqrstuvwxyz0123456789-"
  }

  /** Which calls are refused, and for what. */
  lemma RefusedFor(call: Call)
    ensures call.Remedy? ==> (Refusal(call) ==
            if Malformed(call.workload) then Some(InvalidName)
            else if call.workload !in {"gateway", "retriever", "embedder", "model-proxy", "load-generator"} then Some(OutsideAllowList)
            else match call.tool
              case ScaleDeployment(Int(n)) => if 0 <= n <= 6 then None else Some(BadReplicas)
              case ScaleDeployment(_) => Some(BadReplicas)
              case PatchMemoryLimit(Int(n)) => if 64 <= n <= 2048 then None else Some(BadMemory)
              case PatchMemoryLimit(_) => Some(BadMemory)
              case _ => None)
    ensures call.UpdateDbSecret? ==> Refusal(call) == if call.vault == None then Some(NoRotatedCredential) else None
  {
    if call.Remedy? {
      NameIsFormed(call.workload);
      hide WorkloadName, Malformed;
    }
  }

  lemma NameIsFormed(name: string)
    ensures WorkloadName(name) <==> !Malformed(name)
  {
    assert forall c :: Alnum(c) || c == '-' <==> c in "abcdefghijklmnopqrstuvwxyz0123456789-";
    if WorkloadName(name) {
      assert forall c :: c in name ==> Alnum(c) || c == '-';
    } else if 1 <= |name| <= 63 && name[0] != '-' && name[|name| - 1] != '-' {
      assert exists k :: 0 <= k < |name| && !(Alnum(name[k]) || name[k] == '-');
    }
  }

  /** How many patches executing the call issues, in order, stopping at the first failure. */
  function PatchCount(call: Call): nat {
    if call.Remedy? && call.tool.RolloutPromote? then 2 else 1
  }

  const ID_LENGTH := 16
  const NONCE_LENGTH := 8

  predicate IsId(s: string) { |s| == ID_LENGTH && '\n' !in s }
  predicate IsNonce(s: string) { |s| == NONCE_LENGTH && '\n' !in s }

  /** The truncated digest that names a call, taken to be injective on admissible calls. */
  ghost predicate Fingerprint(fp: Call -> string) {
    && (forall c :: IsId(fp(c)))
    && (forall c, d :: Admissible(c) && Admissible(d) && fp(c) == fp(d) ==> c == d)
  }

  /** A sample naming of calls, to show that the assumption on digests can be met. */
  function SampleId(c: Call): string {
    match c
    case UpdateDbSecret(Some(d)) => "u" + d + "-------"
    case UpdateDbSecret(None) => "----------------"
    case Remedy(tool, w) =>
      var mark := if w == "" then '-' else w[0];
      match tool
      case RolloutUndo => ['o', mark] + "--------------"
      case RolloutAbort => ['a', mark] + "--------------"
      case RolloutPromote => ['p', mark] + "--------------"
      case RestartWorkload => ['r', mark] + "--------------"
      case ScaleDeployment(Int(n)) => ['s', mark, if 0 <= n <= 6 then 'a' + n as char else '-'] + "-------------"
      case PatchMemoryLimit(Int(n)) => ['m', mark, if 64 <= n <= 2048 then n as char else '-'] + "-------------"
      case _ => "----------------"
  }

  lemma FingerprintExists()
    ensures exists fp: Call -> string :: Fingerprint(fp)
  {
    var fp := (c: Call) => if Admissible(c) then SampleId(c) else "----------------";
    forall c: Call | Admissible(c) ensures IsId(SampleId(c)) {
      SampleShape(c);
    }
    forall c: Call, d: Call | Admissible(c) && Admissible(d) && fp(c) == fp(d) ensures c == d {
      SampleInjective(c, d);
    }
    assert Fingerprint(fp);
  }

  lemma SampleShape(c: Call)
    requires Admissible(c)
    ensures IsId(SampleId(c))
    ensures c.Remedy? ==> |c.workload| > 0 && c.workload in ALLOWED_WORKLOADS && SampleId(c)[1] == c.workload[0]
  {
    if c.Remedy? {
      AllowedWorkload(c);
      hide Refusal, ValidateRemediation;
    }
  }

  lemma AllowedWorkload(c: Call)
    requires Admissible(c) && c.Remedy?
    ensures c.workload in ALLOWED_WORKLOADS && |c.workload| > 0 && '\n' !in c.workload[..1]
  {
    assert WorkloadName(c.workload);
  }

  lemma SampleWorkload(w: string, v: string)
    requires w in ALLOWED_WORKLOADS && v in ALLOWED_WORKLOADS && |w| > 0 && |v| > 0 && w[0] == v[0]
    ensures w == v
  {
  }

  lemma SampleTool(c: Call, d: Call)
    requires Admissible(c) && Admissible(d) && c.Remedy? && d.Remedy? && |c.workload| > 0 && |d.workload| > 0
    requires SampleId(c)[0] == SampleId(d)[0] && SampleId(c)[2] == SampleId(d)[2]
    ensures c.tool == d.tool
  {
    match c.tool
    case ScaleDeployment(v) =>
    case PatchMemoryLimit(v) =>
    case _ =>
  }

  lemma SampleInjective(c: Call, d: Call)
    requires Admissible(c) && Admissible(d) && SampleId(c) == SampleId(d)
    ensures c == d
  {
    SampleShape(c);
    SampleShape(d);
    if c.Remedy? && d.Remedy? {
      SampleTool(c, d);
      SampleWorkload(c.workload, d.workload);
    } else if c.UpdateDbSecret? && d.UpdateDbSecret? {
      assert SampleId(c)[1..9] == c.vault.value;
      assert SampleId(d)[1..9] == d.vault.value;
    } else {
      SampleKind(c, d);
    }
  }

  lemma SampleKind(c: Call, d: Call)
    requires Admissible(c) && Admissible(d) && (c.Remedy? ==> |c.workload| > 0) && (d.Remedy? ==> |d.workload| > 0)
    requires c.Remedy? != d.Remedy?
    ensures SampleId(c)[0] != SampleId(d)[0]
  {
  }

  // ---- marker and block ----

  const MARKER_HEAD := "--- server-verified dry-run ["
  const MARKER_TAIL := "] ---"

  function Marker(id: string, nonce: string): string {
    MARKER_HEAD + id + ":" + nonce + MARKER_TAIL
  }

  datatype Entry = Entry(action: string, target: string, diff: string, nonce: string)

  function Block(id: string, e: Entry): string {
    "\n\n" + Marker(id, e.nonce) + "\n" + e.action + " " + e.target + "\n" + e.diff
  }

  lemma MarkerShape(id: string, nonce: string)
    requires IsId(id) && IsNonce(nonce)
    ensures |Marker(id, nonce)| == 59 && '\n' !in Marker(id, nonce)
    ensures Marker(id, nonce)[29..45] == id && Marker(id, nonce)[46..54] == nonce
  {
    assert |MARKER_HEAD| == 29 && |MARKER_TAIL| == 5;
    assert '\n' !in MARKER_HEAD && '\n' !in MARKER_TAIL;
  }

  lemma MarkerInjective(id: string, nonce: string, id': string, nonce': string)
    requires IsId(id) && IsNonce(nonce) && IsId(id') && IsNonce(nonce')
    ensures Contains(Marker(id, nonce), Marker(id', nonce')) <==> id == id' && nonce == nonce'
  {
    MarkerShape(id, nonce);
    MarkerShape(id', nonce');
    var m, m' := Marker(id, nonce), Marker(id', nonce');
    if Contains(m, m') {
      var k :| At(m, m', k);
      assert k == 0 && m[0..59] == m;
    }
    if m == m' {
      ContainsSelf(m);
    }
  }

  lemma BlockLines(prompt: string, id: string, e: Entry)
    ensures var rest1 := Marker(id, e.nonce) + "\n" + (e.action + " " + e.target + "\n" + e.diff);
      prompt + Block(id, e) == prompt + "\n" + ("" + "\n" + rest1)
  {
    hide Marker;
    var m, line := Marker(id, e.nonce), e.action + " " + e.target;
    assert Block(id, e) == "\n" + ("" + "\n" + (m + "\n" + (line + "\n" + e.diff)));
  }

  /** The markers of an approval summary are those the model quoted, those in the diff it
      attaches, and the one of the dry-run it attaches: the server adds no other. */
  lemma SummaryMarkers(prompt: string, id: string, e: Entry, id': string, nonce': string)
    requires IsId(id) && IsNonce(e.nonce) && IsId(id') && IsNonce(nonce')
    requires |e.action| + 1 + |e.target| < 59
    ensures Contains(prompt + Block(id, e), Marker(id', nonce')) <==>
            || Contains(prompt, Marker(id', nonce'))
            || (id == id' && e.nonce == nonce')
            || Contains(e.diff, Marker(id', nonce'))
  {
    var m, line := Marker(id', nonce'), e.action + " " + e.target;
    MarkerShape(id', nonce');
    MarkerInjective(id, e.nonce, id', nonce');
    var rest2 := line + "\n" + e.diff;
    var rest1 := Marker(id, e.nonce) + "\n" + rest2;
    BlockLines(prompt, id, e);
    hide Marker, Block;
    ContainsAcrossBreak(prompt, "" + "\n" + rest1, m);
    ContainsAcrossBreak("", rest1, m);
    ContainsAcrossBreak(Marker(id, e.nonce), rest2, m);
    ContainsAcrossBreak(line, e.diff, m);
    assert !Contains("", m) && !Contains(line, m);
  }

  // ---- the stash of one run: a dictionary in insertion order ----

  const STASH_CAP := 16

  datatype Slot = Slot(id: string, entry: Entry)

  ghost predicate Distinct(slots: seq<Slot>) {
    forall j, k :: 0 <= j < k < |slots| ==> slots[j].id != slots[k].id
  }

  function Find(slots: seq<Slot>, id: string): Option<Entry> {
    if slots == [] then None else if slots[0].id == id then Some(slots[0].entry) else Find(slots[1..], id)
  }

  /** Dictionary assignment: a present key keeps its place, a new one goes last. */
  function Put(slots: seq<Slot>, id: string, e: Entry): seq<Slot> {
    if slots == [] then [Slot(id, e)]
    else if slots[0].id == id then [Slot(id, e)] + slots[1..]
    else [slots[0]] + Put(slots[1..], id, e)
  }

  function Evict(slots: seq<Slot>): seq<Slot> {
    if |slots| > STASH_CAP then slots[|slots| - STASH_CAP..] else slots
  }

  function Remove(slots: seq<Slot>, id: string): seq<Slot> {
    if slots == [] then [] else if slots[0].id == id then slots[1..] else [slots[0]] + Remove(slots[1..], id)
  }

  lemma {:induction false} FindAt(slots: seq<Slot>, id: string)
    ensures Find(slots, id).None? <==> forall k :: 0 <= k < |slots| ==> slots[k].id != id
    ensures Find(slots, id).Some? ==> exists k :: 0 <= k < |slots| && slots[k] == Slot(id, Find(slots, id).value)
  {
    if slots != [] {
      FindAt(slots[1..], id);
      if Find(slots, id).Some? {
        if slots[0].id == id {
          assert slots[0] == Slot(id, Find(slots, id).value);
        } else {
          var k :| 0 <= k < |slots[1..]| && slots[1..][k] == Slot(id, Find(slots[1..], id).value);
          assert slots[k + 1] == Slot(id, Find(slots, id).value);
        }
      }
      if Find(slots, id).None? {
        forall k | 0 <= k < |slots| ensures slots[k].id != id {
          assert k > 0 ==> slots[k] == slots[1..][k - 1];
        }
      }
    }
  }

  /** Assignment either replaces one slot in place or appends one. */
  lemma {:induction false} PutShape(slots: seq<Slot>, id: string, e: Entry)
    ensures Find(slots, id).None? ==> Put(slots, id, e) == slots + [Slot(id, e)]
    ensures Find(slots, id).Some? ==>
            exists k :: 0 <= k < |slots| && slots[k].id == id && Put(slots, id, e) == slots[k := Slot(id, e)]
  {
    if slots != [] {
      PutShape(slots[1..], id, e);
      if slots[0].id == id {
        assert Put(slots, id, e) == slots[0 := Slot(id, e)];
      } else if Find(slots, id).Some? {
        var k :| 0 <= k < |slots[1..]| && slots[1..][k].id == id && Put(slots[1..], id, e) == slots[1..][k := Slot(id, e)];
        assert Put(slots, id, e) == slots[k + 1 := Slot(id, e)];
        assert slots[k + 1].id == id;
      } else {
        assert Put(slots, id, e) == slots + [Slot(id, e)];
      }
    }
  }

  lemma RemoveShift(slots: seq<Slot>, k: nat)
    requires k < |slots| - 1
    ensures [slots[0]] + (slots[1..][..k] + slots[1..][k + 1..]) == slots[..k + 1] + slots[k + 2..]
  {
  }

  lemma {:induction false} RemoveShape(slots: seq<Slot>, id: string)
    ensures Find(slots, id).None? ==> Remove(slots, id) == slots
    ensures Find(slots, id).Some? ==>
            exists k :: 0 <= k < |slots| && slots[k].id == id && Remove(slots, id) == slots[..k] + slots[k + 1..]
  {
    if slots != [] {
      RemoveShape(slots[1..], id);
      if slots[0].id == id {
        assert Remove(slots, id) == slots[..0] + slots[1..];
      } else if Find(slots, id).Some? {
        var k :| 0 <= k < |slots[1..]| && slots[1..][k].id == id
                 && Remove(slots[1..], id) == slots[1..][..k] + slots[1..][k + 1..];
        RemoveShift(slots, k);
        assert slots[k + 1].id == id;
      }
    }
  }

  lemma {:induction false} FindPut(slots: seq<Slot>, id: string, e: Entry)
    ensures Find(Put(slots, id, e), id) == Some(e)
  {
    if slots != [] && slots[0].id != id {
      FindPut(slots[1..], id, e);
      assert ([slots[0]] + Put(slots[1..], id, e))[1..] == Put(slots[1..], id, e);
    }
  }

  /** The dry-run just made survives the eviction it may cause. */
  lemma JustStashed(slots: seq<Slot>, id: string, e: Entry)
    requires |slots| <= STASH_CAP
    ensures Find(Evict(Put(slots, id, e)), id) == Some(e)
  {
    PutShape(slots, id, e);
    FindPut(slots, id, e);
    FindAt(slots, id);
    if |slots| == STASH_CAP && Find(slots, id).None? {
      assert Evict(Put(slots, id, e)) == (slots + [Slot(id, e)])[1..];
    }
  }

  lemma ReplacedKept(slots: seq<Slot>, k: nat, s: Slot)
    requires k < |slots| && Distinct(slots) && slots[k].id == s.id
    ensures var put := slots[k := s];
      Distinct(put) && forall j :: 0 <= j < |put| ==> put[j] == s || (put[j] in slots && put[j].id != s.id)
  {
    assert forall j :: 0 <= j < |slots| && j != k ==> slots[j].id != slots[k].id && slots[k := s][j] == slots[j];
  }

  lemma AppendedKept(slots: seq<Slot>, s: Slot)
    requires Distinct(slots) && forall k :: 0 <= k < |slots| ==> slots[k].id != s.id
    ensures var put := slots + [s];
      Distinct(put) && forall j :: 0 <= j < |put| ==> put[j] == s || (put[j] in slots && put[j].id != s.id)
  {
    assert forall j :: 0 <= j < |slots| ==> (slots + [s])[j] == slots[j];
  }

  lemma EvictKept(slots: seq<Slot>)
    requires Distinct(slots) && |slots| <= STASH_CAP + 1
    ensures |Evict(slots)| <= STASH_CAP && Distinct(Evict(slots)) && forall s :: s in Evict(slots) ==> s in slots
  {
  }

  lemma PutKept(slots: seq<Slot>, id: string, e: Entry)
    requires |slots| <= STASH_CAP && Distinct(slots)
    ensures var put := Evict(Put(slots, id, e));
            && |put| <= STASH_CAP && Distinct(put)
            && (forall k :: 0 <= k < |put| ==> put[k] == Slot(id, e) || (put[k] in slots && put[k].id != id))
  {
    PutShape(slots, id, e);
    FindAt(slots, id);
    hide Distinct, Find, Put, Evict;
    if Find(slots, id).Some? {
      var k :| 0 <= k < |slots| && slots[k].id == id && Put(slots, id, e) == slots[k := Slot(id, e)];
      ReplacedKept(slots, k, Slot(id, e));
    } else {
      AppendedKept(slots, Slot(id, e));
    }
    EvictKept(Put(slots, id, e));
    var put := Evict(Put(slots, id, e));
    forall k | 0 <= k < |put| ensures put[k] == Slot(id, e) || (put[k] in slots && put[k].id != id) {
      assert put[k] in Put(slots, id, e);
    }
  }

  lemma CutKept(slots: seq<Slot>, k: nat)
    requires k < |slots| && Distinct(slots)
    ensures var rest := slots[..k] + slots[k + 1..];
      Distinct(rest) && forall j :: 0 <= j < |rest| ==> rest[j] in slots && rest[j].id != slots[k].id
  {
    var rest := slots[..k] + slots[k + 1..];
    forall j | 0 <= j < |rest| ensures rest[j] == slots[if j < k then j else j + 1] {
    }
  }

  lemma RemoveKept(slots: seq<Slot>, id: string)
    requires |slots| <= STASH_CAP && Distinct(slots)
    ensures var rest := Remove(slots, id);
            && |rest| <= STASH_CAP && Distinct(rest)
            && (forall k :: 0 <= k < |rest| ==> rest[k] in slots && rest[k].id != id)
  {
    RemoveShape(slots, id);
    FindAt(slots, id);
    hide Find, Remove, Distinct;
    if Find(slots, id).Some? {
      var k :| 0 <= k < |slots| && slots[k].id == id && Remove(slots, id) == slots[..k] + slots[k + 1..];
      CutKept(slots, k);
    }
  }

  /** Stashing and consuming keep distinct keys and the cap, and hold no slots but old ones and
      the one just put; consuming removes its key. */
  lemma StashKept(slots: seq<Slot>, id: string, e: Entry)
    requires |slots| <= STASH_CAP && Distinct(slots)
    ensures var put := Evict(Put(slots, id, e));
            && |put| <= STASH_CAP && Distinct(put)
            && (forall k :: 0 <= k < |put| ==> put[k] == Slot(id, e) || (put[k] in slots && put[k].id != id))
    ensures var rest := Remove(slots, id);
            && |rest| <= STASH_CAP && Distinct(rest)
            && (forall k :: 0 <= k < |rest| ==> rest[k] in slots && rest[k].id != id)
  {
    PutKept(slots, id, e);
    RemoveKept(slots, id);
  }

  // ---- stash and approvals together ----

  datatype Approval = Approval(run: RunId, summary: string, decision: Option<bool>)
  datatype Gate = Gate(stash: map<RunId, seq<Slot>>, approvals: map<ApprovalId, Approval>)

  function Slots(g: Gate, run: RunId): seq<Slot> {
    if run in g.stash then g.stash[run] else []
  }

  datatype Event =
    | DryRun(run: RunId, call: Call, diff: string, nonce: string)
    | Ask(run: RunId, approval: ApprovalId, prompt: string, id: string)     // id "" when none is given
    | Decide(run: RunId, approval: ApprovalId, approved: bool)
    | Execute(run: RunId, call: Call, quoted: Option<ApprovalId>, patches: seq<bool>)
    | Clear(run: RunId)

  /** The summary an approval request persists, None when it names no stashed dry-run. */
  function Summary(g: Gate, run: RunId, prompt: string, id: string): Option<string> {
    if id == "" then Some(prompt)
    else
      var e := Find(Slots(g, run), id);
      if e.None? then None else Some(prompt + Block(id, e.value))
  }

  /** The server-side gate of an execute step. */
  ghost predicate GatePasses(g: Gate, run: RunId, approval: Option<ApprovalId>, id: string) {
    && approval.Some? && approval.value in g.approvals
    && var row := g.approvals[approval.value];
       && row.run == run && row.decision == Some(true)
       && var e := Find(Slots(g, run), id);
          e.Some? && Contains(row.summary, Marker(id, e.value.nonce))
  }

  /** Every patch the call issues succeeds. */
  predicate Mutated(call: Call, patches: seq<bool>) {
    |patches| >= PatchCount(call) && forall k :: 0 <= k < PatchCount(call) ==> patches[k]
  }

  /** The leading patches that succeed: those are applied, and the first failure stops. */
  function Applied(patches: seq<bool>): (n: nat)
    ensures n <= |patches| && (forall k :: 0 <= k < n ==> patches[k]) && (n < |patches| ==> !patches[n])
  {
    if patches == [] || !patches[0] then 0 else 1 + Applied(patches[1..])
  }

  /** An allowed execute that the gate lets through to its patches. */
  ghost predicate Admits(fp: Call -> string, g: Gate, e: Event) {
    e.Execute? && Admissible(e.call) && GatePasses(g, e.run, e.quoted, fp(e.call))
  }

  ghost predicate Succeeds(fp: Call -> string, g: Gate, e: Event) {
    Admits(fp, g, e) && Mutated(e.call, e.patches)
  }

  ghost function Step(fp: Call -> string, g: Gate, e: Event): Gate {
    match e
    case DryRun(run, call, diff, nonce) =>
      if !Admissible(call) then g
      else
        var entry := Entry(ActionOf(call), TargetOf(call), diff, nonce);
        g.(stash := g.stash[run := Evict(Put(Slots(g, run), fp(call), entry))])
    case Ask(run, approval, prompt, id) =>
      var summary := Summary(g, run, prompt, id);
      if summary.None? || approval in g.approvals then g
      else g.(approvals := g.approvals[approval := Approval(run, summary.value, None)])
    case Decide(run, approval, approved) =>
      if approval in g.approvals && g.approvals[approval].run == run && g.approvals[approval].decision == None
      then g.(approvals := g.approvals[approval := g.approvals[approval].(decision := Some(approved))])
      else g
    case Execute(run, call, _, _) =>
      if Succeeds(fp, g, e) then g.(stash := g.stash[run := Remove(Slots(g, run), fp(call))]) else g
    case Clear(run) => g.(stash := g.stash - {run})
  }
}
