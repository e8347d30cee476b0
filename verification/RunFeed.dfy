/** The run transcript: one chronological feed, then blocks per turn with consecutive tool calls
    folded and artifacts hoisted to the end of their turn. */
module RunFeed {
  import opened Sequences
  import opened Sorting

  datatype Message = Message(id: string, role: string, createdAt: int)
  datatype ToolCall = ToolCall(id: string, startedAt: int)
  datatype Approval = Approval(id: string, requestedAt: int)
  datatype Artifact = Artifact(id: string, createdAt: int)

  datatype Part =
    | MessagePart(message: Message)
    | ToolPart(toolCall: ToolCall)
    | ApprovalPart(approval: Approval)
    | ArtifactPart(artifact: Artifact)

  datatype Run = Run(messages: seq<Message>, toolCalls: seq<ToolCall>, approvals: seq<Approval>, artifacts: seq<Artifact>)

  // ---- the chronological feed ----

  function KindRank(p: Part): nat {
    match p
    case MessagePart(_) => 0
    case ToolPart(_) => 1
    case ApprovalPart(_) => 2
    case ArtifactPart(_) => 3
  }

  function TimestampOf(p: Part): int {
    match p
    case MessagePart(m) => m.createdAt
    case ToolPart(t) => t.startedAt
    case ApprovalPart(a) => a.requestedAt
    case ArtifactPart(a) => a.createdAt
  }

  /** A message, a tool call, an approval and an artifact each carry their own time. */
  predicate Stamped(p: Part, t: int) {
    && (p.MessagePart? ==> t == p.message.createdAt) && (p.ToolPart? ==> t == p.toolCall.startedAt)
    && (p.ApprovalPart? ==> t == p.approval.requestedAt) && (p.ArtifactPart? ==> t == p.artifact.createdAt)
  }

  function OfKind(rank: nat): Part -> bool { (p: Part) => KindRank(p) == rank }

  /** The comparator is not positive: timestamps first, kinds break ties. */
  function NotAfter(a: Part, b: Part): bool {
    TimestampOf(a) < TimestampOf(b) || (TimestampOf(a) == TimestampOf(b) && KindRank(a) <= KindRank(b))
  }

  function PartsOf(run: Run, rank: nat): seq<Part> {
    match rank
    case 0 => seq(|run.messages|, k requires 0 <= k < |run.messages| => MessagePart(run.messages[k]))
    case 1 => seq(|run.toolCalls|, k requires 0 <= k < |run.toolCalls| => ToolPart(run.toolCalls[k]))
    case 2 => seq(|run.approvals|, k requires 0 <= k < |run.approvals| => ApprovalPart(run.approvals[k]))
    case 3 => seq(|run.artifacts|, k requires 0 <= k < |run.artifacts| => ArtifactPart(run.artifacts[k]))
    case _ => []
  }

  function AllParts(run: Run): seq<Part> {
    PartsOf(run, 0) + PartsOf(run, 1) + PartsOf(run, 2) + PartsOf(run, 3)
  }

  function BuildRunFeed(run: Run): seq<Part> {
    StableSort(AllParts(run), NotAfter)
  }

  lemma NotAfterIsOrder()
    ensures TotalPreorder(NotAfter)
  {
  }

  /** The feed is the run's entries, each exactly as often, in time order; at the same time messages
      come first, then tool calls, then approvals, then artifacts. */
  lemma FeedIsChronological(run: Run)
    ensures Sorted(BuildRunFeed(run), NotAfter)
    ensures multiset(BuildRunFeed(run)) == multiset(AllParts(run))
    ensures var feed := BuildRunFeed(run);
      forall j, k :: 0 <= j < k < |feed| ==>
        TimestampOf(feed[j]) <= TimestampOf(feed[k]) &&
        (TimestampOf(feed[j]) == TimestampOf(feed[k]) ==>
          (feed[k].MessagePart? ==> feed[j].MessagePart?) &&
          (feed[k].ToolPart? ==> feed[j].MessagePart? || feed[j].ToolPart?) &&
          (feed[k].ApprovalPart? ==> !feed[j].ArtifactPart?))
    ensures forall p :: p in BuildRunFeed(run) ==> Stamped(p, TimestampOf(p))
    ensures multiset(BuildRunFeed(run)) == multiset(
      seq(|run.messages|, k requires 0 <= k < |run.messages| => MessagePart(run.messages[k]))
      + seq(|run.toolCalls|, k requires 0 <= k < |run.toolCalls| => ToolPart(run.toolCalls[k]))
      + seq(|run.approvals|, k requires 0 <= k < |run.approvals| => ApprovalPart(run.approvals[k]))
      + seq(|run.artifacts|, k requires 0 <= k < |run.artifacts| => ArtifactPart(run.artifacts[k])))
  {
    NotAfterIsOrder();
    SortKeeps(AllParts(run), NotAfter);
    var feed := BuildRunFeed(run);
    forall j, k | 0 <= j < k < |feed| ensures NotAfter(feed[j], feed[k]) {
    }
  }

  lemma PartsOfKind(run: Run, rank: nat, kind: nat)
    requires rank < 4 && kind < 4
    ensures Filter(PartsOf(run, kind), OfKind(rank)) == if rank == kind then PartsOf(run, rank) else []
  {
    assert forall p :: p in PartsOf(run, kind) ==> KindRank(p) == kind;
    FilterAll(PartsOf(run, kind), OfKind(rank), rank == kind);
  }

  lemma FilterFour(a: seq<Part>, b: seq<Part>, c: seq<Part>, d: seq<Part>, keep: Part -> bool)
    ensures Filter(a + b + c + d, keep) == Filter(a, keep) + Filter(b, keep) + Filter(c, keep) + Filter(d, keep)
  {
    FilterPlus(a, b, keep);
    FilterPlus(a + b, c, keep);
    FilterPlus(a + b + c, d, keep);
  }

  lemma FourParts(run: Run)
    ensures AllParts(run) == PartsOf(run, 0) + PartsOf(run, 1) + PartsOf(run, 2) + PartsOf(run, 3)
  {
  }

  lemma KindOf(run: Run, rank: nat)
    requires rank < 4
    ensures Filter(AllParts(run), OfKind(rank)) == PartsOf(run, rank)
  {
    FourParts(run);
    hide Filter, PartsOf, AllParts;
    FilterFour(PartsOf(run, 0), PartsOf(run, 1), PartsOf(run, 2), PartsOf(run, 3), OfKind(rank));
    PartsOfKind(run, rank, 0);
    PartsOfKind(run, rank, 1);
    PartsOfKind(run, rank, 2);
    PartsOfKind(run, rank, 3);
  }

  /** Entries of one kind keep their array order exactly when that array is chronological: the
      stability of the sort alone does not promise it. */
  lemma KindOrderKept(run: Run, rank: nat)
    requires rank < 4
    ensures Filter(BuildRunFeed(run), OfKind(rank)) == PartsOf(run, rank) <==> Sorted(PartsOf(run, rank), NotAfter)
  {
    var keep := OfKind(rank);
    KindOf(run, rank);
    FeedIsChronological(run);
    FilterSorted(BuildRunFeed(run), NotAfter, keep);
    if Sorted(PartsOf(run, rank), NotAfter) {
      NotAfterIsOrder();
      SortIsStable(AllParts(run), NotAfter, keep);
    }
  }

  /** The input: two messages whose array is not chronological, and whose feed turns them round. */
  lemma FeedReverses(early: Message, late: Message)
    requires early.createdAt < late.createdAt
    ensures var run := Run([late, early], [], [], []);
      && PartsOf(run, 0) == [MessagePart(late), MessagePart(early)]
      && BuildRunFeed(run) == [MessagePart(early), MessagePart(late)]
  {
    var run := Run([late, early], [], [], []);
    var parts := [MessagePart(late), MessagePart(early)];
    assert AllParts(run) == parts;
    assert parts[1..] == [MessagePart(early)] && [MessagePart(early)][1..] == [];
    calc {
      BuildRunFeed(run);
      Insert(parts[0], StableSort([MessagePart(early)], NotAfter), NotAfter);
      Insert(MessagePart(late), [MessagePart(early)], NotAfter);
      [MessagePart(early)] + Insert(MessagePart(late), [], NotAfter);
      [MessagePart(early), MessagePart(late)];
    }
  }

  // ---- grouping: the specification ----

  datatype Block = Single(part: Part) | Tools(toolCalls: seq<ToolCall>)

  predicate IsUserMessage(p: Part) {
    p.MessagePart? && p.message.role == "user"
  }

  /** Split at user messages; the first turn may start without one. */
  function Turns(parts: seq<Part>): (turns: seq<seq<Part>>)
    ensures turns != []
  {
    if parts == [] then [[]]
    else
      var before, p := Turns(parts[..|parts| - 1]), parts[|parts| - 1];
      if IsUserMessage(p) then before + [[p]]
      else before[..|before| - 1] + [before[|before| - 1] + [p]]
  }

  predicate IsArtifact(p: Part) { p.ArtifactPart? }

  predicate Stays(p: Part) { !p.ArtifactPart? }

  predicate ShowsArtifact(b: Block) { b.Single? && b.part.ArtifactPart? }

  function NonArtifacts(parts: seq<Part>): seq<Part> { Filter(parts, Stays) }

  function Artifacts(parts: seq<Part>): seq<Part> { Filter(parts, IsArtifact) }

  function Singles(parts: seq<Part>): seq<Block> {
    seq(|parts|, k requires 0 <= k < |parts| => Single(parts[k]))
  }

  function Entries(b: Block): seq<Part> {
    match b
    case Single(p) => [p]
    case Tools(calls) => seq(|calls|, k requires 0 <= k < |calls| => ToolPart(calls[k]))
  }

  /** What a block list shows, entry by entry. */
  function Unfold(blocks: seq<Block>): seq<Part> {
    if blocks == [] then [] else Unfold(blocks[..|blocks| - 1]) + Entries(blocks[|blocks| - 1])
  }

  /** No empty tools block, no tool call on its own, no two tools blocks in a row. */
  predicate Tidy(blocks: seq<Block>) {
    && (forall k :: 0 <= k < |blocks| && blocks[k].Tools? ==> blocks[k].toolCalls != [])
    && (forall k :: 0 <= k < |blocks| && blocks[k].Single? ==> !blocks[k].part.ToolPart?)
    && (forall k :: 0 < k < |blocks| && blocks[k].Tools? ==> blocks[k - 1].Single?)
  }

  /** Append one entry, growing a tools block at the end. */
  function Fold(blocks: seq<Block>, p: Part): seq<Block> {
    var n := |blocks|;
    if !p.ToolPart? then blocks + [Single(p)]
    else if n > 0 && blocks[n - 1].Tools? then blocks[..n - 1] + [Tools(blocks[n - 1].toolCalls + [p.toolCall])]
    else blocks + [Tools([p.toolCall])]
  }

  function Folded(parts: seq<Part>): seq<Block> {
    if parts == [] then [] else Fold(Folded(parts[..|parts| - 1]), parts[|parts| - 1])
  }

  function RenderTurn(turn: seq<Part>): seq<Block> {
    Folded(NonArtifacts(turn)) + Singles(Artifacts(turn))
  }

  function Rendered(turns: seq<seq<Part>>): seq<Block> {
    if turns == [] then [] else Rendered(turns[..|turns| - 1]) + RenderTurn(turns[|turns| - 1])
  }

  function Grouped(parts: seq<Part>): seq<Block> {
    Rendered(Turns(parts))
  }

  // ---- grouping: the loop ----

  lemma FilterSnoc(parts: seq<Part>, p: Part, keep: Part -> bool)
    ensures keep(p) ==> Filter(parts + [p], keep) == Filter(parts, keep) + [p]
    ensures !keep(p) ==> Filter(parts + [p], keep) == Filter(parts, keep)
  {
    FilterPlus(parts, [p], keep);
  }

  lemma SinglesSnoc(parts: seq<Part>, p: Part)
    ensures Singles(parts + [p]) == Singles(parts) + [Single(p)]
  {
  }

  lemma FoldedSnoc(parts: seq<Part>, p: Part)
    ensures Folded(parts + [p]) == Fold(Folded(parts), p)
  {
    assert (parts + [p])[..|parts|] == parts;
  }

  /** Growing the last block of the current turn leaves the finished turns alone. */
  lemma FoldAfter(done: seq<Block>, current: seq<Block>, p: Part)
    requires done == [] || current != []
    ensures Fold(done + current, p) == done + Fold(current, p)
  {
    if p.ToolPart? && current != [] {
      assert (done + current)[..|done + current| - 1] == done + current[..|current| - 1];
    }
  }

  /** Every turn but the first opens with its user message. */
  predicate OpenedByUsers(turns: seq<seq<Part>>) {
    forall k :: 0 < k < |turns| ==> turns[k] != [] && IsUserMessage(turns[k][0])
  }

  lemma {:induction false} TurnsOpen(parts: seq<Part>)
    ensures OpenedByUsers(Turns(parts))
  {
    if parts != [] {
      var before := Turns(parts[..|parts| - 1]);
      TurnsOpen(parts[..|parts| - 1]);
      var last := before[|before| - 1];
      assert last != [] ==> (last + [parts[|parts| - 1]])[0] == last[0];
    }
  }

  function Earlier(parts: seq<Part>): seq<seq<Part>> { Turns(parts)[..|Turns(parts)| - 1] }

  function Latest(parts: seq<Part>): seq<Part> { Turns(parts)[|Turns(parts)| - 1] }

  /** The loop's state after some entries: finished turns, the running one, its artifacts. */
  function Done(parts: seq<Part>): seq<Block> { Rendered(Earlier(parts)) }

  function Current(parts: seq<Part>): seq<Block> { Folded(NonArtifacts(Latest(parts))) }

  function Held(parts: seq<Part>): seq<Block> { Singles(Artifacts(Latest(parts))) }

  lemma TurnsSnoc(parts: seq<Part>, p: Part)
    ensures Earlier(parts + [p]) == if IsUserMessage(p) then Turns(parts) else Earlier(parts)
    ensures Latest(parts + [p]) == if IsUserMessage(p) then [p] else Latest(parts) + [p]
  {
    assert (parts + [p])[..|parts|] == parts;
  }

  lemma CurrentStarted(parts: seq<Part>)
    ensures Done(parts) == [] || Current(parts) != []
  {
    TurnsOpen(parts);
    var turn := Latest(parts);
    if |Turns(parts)| > 1 {
      assert NonArtifacts(turn)[0] == turn[0];
    }
  }

  lemma FinishedSoFar(parts: seq<Part>)
    ensures Grouped(parts) == Done(parts) + Current(parts) + Held(parts)
  {
  }

  lemma SingleTurn(p: Part)
    requires IsUserMessage(p)
    ensures Folded(NonArtifacts([p])) == [Single(p)] && Singles(Artifacts([p])) == []
  {
    assert [] + [p] == [p];
    FilterSnoc([], p, Stays);
    FilterSnoc([], p, IsArtifact);
    FoldedSnoc([], p);
  }

  /** What one more entry does to the state. */
  lemma UserMessageEndsTurn(parts: seq<Part>, p: Part)
    requires IsUserMessage(p)
    ensures Done(parts + [p]) == Done(parts) + Current(parts) + Held(parts)
    ensures Current(parts + [p]) == [Single(p)] && Held(parts + [p]) == []
  {
    TurnsSnoc(parts, p);
    FinishedSoFar(parts);
    SingleTurn(p);
  }

  lemma OtherStaysInTurn(parts: seq<Part>, p: Part)
    requires !IsUserMessage(p)
    ensures Done(parts + [p]) == Done(parts)
    ensures Current(parts + [p]) == if p.ArtifactPart? then Current(parts) else Fold(Current(parts), p)
    ensures Held(parts + [p]) == if p.ArtifactPart? then Held(parts) + [Single(p)] else Held(parts)
  {
    var turn := Latest(parts);
    TurnsSnoc(parts, p);
    FilterSnoc(turn, p, Stays);
    FilterSnoc(turn, p, IsArtifact);
    FoldedSnoc(NonArtifacts(turn), p);
    SinglesSnoc(Artifacts(turn), p);
  }

  /** The loop body on the blocks: hoisted artifacts first when a turn ends, then the entry. */
  lemma LoopStep(parts: seq<Part>, p: Part)
    ensures p.ArtifactPart? ==> Done(parts + [p]) + Current(parts + [p]) == Done(parts) + Current(parts)
    ensures p.ArtifactPart? ==> Held(parts + [p]) == Held(parts) + [Single(p)]
    ensures IsUserMessage(p) ==> Done(parts + [p]) + Current(parts + [p]) == Done(parts) + Current(parts) + Held(parts) + [Single(p)]
    ensures IsUserMessage(p) ==> Held(parts + [p]) == []
    ensures !p.ArtifactPart? && !IsUserMessage(p) ==> Done(parts + [p]) + Current(parts + [p]) == Fold(Done(parts) + Current(parts), p)
    ensures !p.ArtifactPart? && !IsUserMessage(p) ==> Held(parts + [p]) == Held(parts)
  {
    if IsUserMessage(p) {
      UserMessageEndsTurn(parts, p);
    } else {
      OtherStaysInTurn(parts, p);
      CurrentStarted(parts);
      FoldAfter(Done(parts), Current(parts), p);
    }
  }

  method GroupRunFeed(parts: seq<Part>) returns (blocks: seq<Block>)
    ensures blocks == Grouped(parts)
  {
    blocks := [];
    var turnArtifacts: seq<Block> := [];
    for k := 0 to |parts|
      invariant blocks == Done(parts[..k]) + Current(parts[..k]) && turnArtifacts == Held(parts[..k])
    {
      var part := parts[k];
      LoopStep(parts[..k], part);
      assert parts[..k + 1] == parts[..k] + [part];
      if part.ArtifactPart? {
        turnArtifacts := turnArtifacts + [Single(part)];
        continue;
      }
      if part.MessagePart? && part.message.role == "user" {
        blocks := blocks + turnArtifacts;
        turnArtifacts := [];
      }
      if !part.ToolPart? {
        blocks := blocks + [Single(part)];
        continue;
      }
      if |blocks| > 0 && blocks[|blocks| - 1].Tools? {
        blocks := blocks[..|blocks| - 1] + [Tools(blocks[|blocks| - 1].toolCalls + [part.toolCall])];
      } else {
        blocks := blocks + [Tools([part.toolCall])];
      }
    }
    assert parts[..|parts|] == parts;
    FinishedSoFar(parts);
    blocks := blocks + turnArtifacts;
  }

  // ---- what grouping keeps ----

  predicate OneMessageAhead(turn: seq<Part>) {
    forall j :: 0 < j < |turn| ==> !IsUserMessage(turn[j])
  }

  lemma TurnsJoinOne(parts: seq<Part>, p: Part)
    requires Concat(Turns(parts)) == parts
    ensures Concat(Turns(parts + [p])) == parts + [p]
  {
    TurnsSnoc(parts, p);
    assert Turns(parts) == Earlier(parts) + [Latest(parts)];
    assert Turns(parts + [p]) == Earlier(parts + [p]) + [Latest(parts + [p])];
    ConcatSnoc(Earlier(parts), Latest(parts));
    ConcatSnoc(Earlier(parts + [p]), Latest(parts + [p]));
    Assoc(Concat(Earlier(parts)), Latest(parts), [p]);
  }

  lemma {:induction false} TurnsJoin(parts: seq<Part>)
    ensures Concat(Turns(parts)) == parts
  {
    if parts != [] {
      TurnsJoin(parts[..|parts| - 1]);
      TurnsJoinOne(parts[..|parts| - 1], parts[|parts| - 1]);
      SnocPlus([], parts);
    }
  }

  lemma {:induction false} TurnsSplit(parts: seq<Part>)
    ensures forall turn :: turn in Turns(parts) ==> OneMessageAhead(turn)
  {
    if parts != [] {
      var init, p := parts[..|parts| - 1], parts[|parts| - 1];
      TurnsSplit(init);
      assert Latest(init) in Turns(init);
      assert !IsUserMessage(p) ==> OneMessageAhead(Latest(init) + [p]) || Latest(init) == [];
    }
  }

  /** The turns are the feed cut at user messages: joined they give the feed back, every turn but
      the first opens with one, and no later entry of a turn is one. */
  lemma TurnsPartition(parts: seq<Part>)
    ensures Concat(Turns(parts)) == parts && OpenedByUsers(Turns(parts))
    ensures forall turn :: turn in Turns(parts) ==> OneMessageAhead(turn)
    ensures forall p :: IsUserMessage(p) <==> p.MessagePart? && p.message.role == "user"
  {
    TurnsJoin(parts);
    TurnsOpen(parts);
    TurnsSplit(parts);
  }

  lemma UnfoldSnoc(blocks: seq<Block>, b: Block)
    ensures Unfold(blocks + [b]) == Unfold(blocks) + Entries(b)
  {
    assert (blocks + [b])[..|blocks|] == blocks;
  }

  lemma UnfoldPlusOne(a: seq<Block>, b: seq<Block>, last: Block)
    requires Unfold(a + b) == Unfold(a) + Unfold(b)
    ensures Unfold((a + b) + [last]) == Unfold(a) + Unfold(b + [last])
  {
    UnfoldSnoc(a + b, last);
    UnfoldSnoc(b, last);
    Assoc(Unfold(a), Unfold(b), Entries(last));
  }

  lemma {:induction false} UnfoldPlus(a: seq<Block>, b: seq<Block>)
    ensures Unfold(a + b) == Unfold(a) + Unfold(b)
  {
    if b == [] {
      assert a + b == a;
    } else {
      var init, last := b[..|b| - 1], b[|b| - 1];
      UnfoldPlus(a, init);
      UnfoldPlusOne(a, init, last);
      SnocPlus(a, b);
    }
  }

  lemma {:induction false} UnfoldSingles(parts: seq<Part>)
    ensures Unfold(Singles(parts)) == parts
  {
    if parts != [] {
      var n := |parts| - 1;
      UnfoldSingles(parts[..n]);
      assert Singles(parts)[..n] == Singles(parts[..n]);
    }
  }

  lemma EntriesSnoc(calls: seq<ToolCall>, t: ToolCall)
    ensures Entries(Tools(calls + [t])) == Entries(Tools(calls)) + [ToolPart(t)]
  {
  }

  lemma UnfoldFold(blocks: seq<Block>, p: Part)
    ensures Unfold(Fold(blocks, p)) == Unfold(blocks) + [p]
  {
    var n := |blocks|;
    if p.ToolPart? && n > 0 && blocks[n - 1].Tools? {
      var calls := blocks[n - 1].toolCalls;
      UnfoldSnoc(blocks[..n - 1], Tools(calls + [p.toolCall]));
      EntriesSnoc(calls, p.toolCall);
    } else if p.ToolPart? {
      UnfoldSnoc(blocks, Tools([p.toolCall]));
    } else {
      UnfoldSnoc(blocks, Single(p));
    }
  }

  lemma FoldedFaithfulOne(parts: seq<Part>, p: Part)
    requires Unfold(Folded(parts)) == parts
    ensures Unfold(Folded(parts + [p])) == parts + [p]
  {
    FoldedSnoc(parts, p);
    UnfoldFold(Folded(parts), p);
  }

  lemma {:induction false} FoldedFaithful(parts: seq<Part>)
    ensures Unfold(Folded(parts)) == parts
  {
    if parts != [] {
      FoldedFaithful(parts[..|parts| - 1]);
      FoldedFaithfulOne(parts[..|parts| - 1], parts[|parts| - 1]);
      SnocPlus([], parts);
    }
  }

  lemma {:induction false} FoldedTidy(parts: seq<Part>)
    ensures Tidy(Folded(parts))
    ensures parts != [] ==> Folded(parts) != [] && (!parts[0].ToolPart? ==> Folded(parts)[0].Single?)
  {
    if parts != [] {
      var init, p := parts[..|parts| - 1], parts[|parts| - 1];
      FoldedTidy(init);
      FoldKeepsTidy(Folded(init), p);
    }
  }

  lemma FoldKeepsTidy(blocks: seq<Block>, p: Part)
    requires Tidy(blocks)
    ensures Tidy(Fold(blocks, p)) && Fold(blocks, p) != []
    ensures blocks != [] && blocks[0].Single? ==> Fold(blocks, p)[0].Single?
  {
  }

  lemma {:induction false} FoldTools(init: seq<Block>, calls: seq<ToolCall>)
    requires calls != [] && init == Folded(Unfold(init)) && (init == [] || init[|init| - 1].Single?)
    ensures Folded(Unfold(init + [Tools(calls)])) == init + [Tools(calls)]
  {
    var m := |calls| - 1;
    var before := if m == 0 then init else init + [Tools(calls[..m])];
    if m > 0 {
      FoldTools(init, calls[..m]);
    }
    assert Folded(Unfold(before)) == before;
    GrowTools(init, calls, before);
    UnfoldFold(before, ToolPart(calls[m]));
    FoldedSnoc(Unfold(before), ToolPart(calls[m]));
  }

  lemma GrowTools(init: seq<Block>, calls: seq<ToolCall>, before: seq<Block>)
    requires calls != [] && (init == [] || init[|init| - 1].Single?)
    requires before == if |calls| == 1 then init else init + [Tools(calls[..|calls| - 1])]
    ensures Fold(before, ToolPart(calls[|calls| - 1])) == init + [Tools(calls)]
  {
    var m := |calls| - 1;
    assert calls == calls[..m] + [calls[m]];
    if m > 0 {
      assert before[..|before| - 1] == init;
    }
  }

  lemma TidyPrefix(blocks: seq<Block>)
    requires Tidy(blocks) && blocks != []
    ensures var n := |blocks| - 1; Tidy(blocks[..n]) && (blocks[n].Tools? ==> n == 0 || blocks[..n][n - 1].Single?)
  {
  }

  /** Tidy block lists that show the same entries are the same: `Folded` is the only tidy way to
      lay a list out, so consecutive tool calls are merged as far as they go. */
  lemma {:induction false} TidyIsUnique(blocks: seq<Block>)
    requires Tidy(blocks)
    ensures blocks == Folded(Unfold(blocks))
  {
    if blocks != [] {
      var init, last := blocks[..|blocks| - 1], blocks[|blocks| - 1];
      TidyPrefix(blocks);
      TidyIsUnique(init);
      assert blocks == init + [last];
      if last.Single? {
        UnfoldSnoc(init, last);
        FoldedSnoc(Unfold(init), last.part);
      } else {
        FoldTools(init, last.toolCalls);
      }
    }
  }

  lemma {:induction false} FilterFilter(parts: seq<Part>)
    ensures NonArtifacts(NonArtifacts(parts)) == NonArtifacts(parts) && NonArtifacts(Artifacts(parts)) == []
    ensures Artifacts(Artifacts(parts)) == Artifacts(parts) && Artifacts(NonArtifacts(parts)) == []
  {
    FilterMembers(parts, Stays);
    FilterMembers(parts, IsArtifact);
    FilterAll(NonArtifacts(parts), Stays, true);
    FilterAll(NonArtifacts(parts), IsArtifact, false);
    FilterAll(Artifacts(parts), Stays, false);
    FilterAll(Artifacts(parts), IsArtifact, true);
  }

  lemma RenderTurnKeeps(turn: seq<Part>)
    ensures Unfold(RenderTurn(turn)) == NonArtifacts(turn) + Artifacts(turn)
    ensures NonArtifacts(Unfold(RenderTurn(turn))) == NonArtifacts(turn)
    ensures Artifacts(Unfold(RenderTurn(turn))) == Artifacts(turn)
  {
    UnfoldPlus(Folded(NonArtifacts(turn)), Singles(Artifacts(turn)));
    FoldedFaithful(NonArtifacts(turn));
    UnfoldSingles(Artifacts(turn));
    FilterFilter(turn);
    FilterPlus(NonArtifacts(turn), Artifacts(turn), Stays);
    FilterPlus(NonArtifacts(turn), Artifacts(turn), IsArtifact);
  }

  lemma {:induction false} FoldedSource(parts: seq<Part>)
    requires forall p :: p in parts ==> !p.ArtifactPart?
    ensures forall b :: b in Folded(parts) && b.Single? ==> !b.part.ArtifactPart?
  {
    if parts != [] {
      var init, p := parts[..|parts| - 1], parts[|parts| - 1];
      assert parts == init + [p];
      FoldedSource(init);
    }
  }

  /** Within its turn every artifact comes after everything else. */
  lemma ArtifactsLast(turn: seq<Part>)
    ensures var blocks := RenderTurn(turn);
      forall j, k :: 0 <= j < k < |blocks| && ShowsArtifact(blocks[j]) ==> ShowsArtifact(blocks[k])
  {
    var n, r := |Folded(NonArtifacts(turn))|, RenderTurn(turn);
    FilterMembers(turn, Stays);
    FilterMembers(turn, IsArtifact);
    FoldedSource(NonArtifacts(turn));
    assert forall k :: 0 <= k < n ==> r[k] == Folded(NonArtifacts(turn))[k] && r[k] in Folded(NonArtifacts(turn));
    assert forall k :: n <= k < |r| ==> r[k] == Single(Artifacts(turn)[k - n]) && Artifacts(turn)[k - n] in Artifacts(turn);
  }

  lemma {:induction false} RenderedKeeps(turns: seq<seq<Part>>)
    ensures NonArtifacts(Unfold(Rendered(turns))) == NonArtifacts(Concat(turns))
    ensures Artifacts(Unfold(Rendered(turns))) == Artifacts(Concat(turns))
  {
    if turns != [] {
      var init, turn := turns[..|turns| - 1], turns[|turns| - 1];
      RenderedKeeps(init);
      RenderTurnKeeps(turn);
      UnfoldPlus(Rendered(init), RenderTurn(turn));
      SplitPlus(Unfold(Rendered(init)), Unfold(RenderTurn(turn)));
      SplitPlus(Concat(init), turn);
    }
  }

  lemma SplitPlus(a: seq<Part>, b: seq<Part>)
    ensures NonArtifacts(a + b) == NonArtifacts(a) + NonArtifacts(b)
    ensures Artifacts(a + b) == Artifacts(a) + Artifacts(b)
  {
    FilterPlus(a, b, Stays);
    FilterPlus(a, b, IsArtifact);
  }

  lemma {:induction false} SplitConserves(parts: seq<Part>)
    ensures multiset(parts) == multiset(NonArtifacts(parts)) + multiset(Artifacts(parts))
  {
    if parts != [] {
      var p, rest := parts[0], parts[1..];
      SplitConserves(rest);
      assert parts == [p] + rest;
      FilterCons(p, rest, Stays);
      FilterCons(p, rest, IsArtifact);
      assert multiset(parts) == multiset{p} + multiset(rest);
    }
  }

  /** Nothing is lost, duplicated or invented, and only artifacts move: messages, approvals and
      tool calls keep their order, and so do the artifacts among themselves. */
  lemma GroupingKeepsEverything(parts: seq<Part>)
    ensures NonArtifacts(Unfold(Grouped(parts))) == NonArtifacts(parts)
    ensures Artifacts(Unfold(Grouped(parts))) == Artifacts(parts)
    ensures multiset(Unfold(Grouped(parts))) == multiset(parts)
  {
    TurnsPartition(parts);
    RenderedKeeps(Turns(parts));
    SplitConserves(parts);
    SplitConserves(Unfold(Grouped(parts)));
  }

  lemma SinglesTidy(parts: seq<Part>)
    requires forall p :: p in parts ==> p.ArtifactPart?
    ensures Tidy(Singles(parts)) && forall b :: b in Singles(parts) ==> b.Single?
  {
    assert forall k :: 0 <= k < |parts| ==> parts[k] in parts;
  }

  /** Blocks may follow each other unless both sides of the seam are tools. */
  lemma TidyPlus(a: seq<Block>, b: seq<Block>)
    requires Tidy(a) && Tidy(b) && (a == [] || b == [] || b[0].Single?)
    ensures Tidy(a + b)
  {
  }

  lemma RenderTurnTidy(turn: seq<Part>)
    ensures Tidy(RenderTurn(turn))
    ensures turn != [] && IsUserMessage(turn[0]) ==> RenderTurn(turn) != [] && RenderTurn(turn)[0].Single?
  {
    FoldedTidy(NonArtifacts(turn));
    FilterMembers(turn, IsArtifact);
    SinglesTidy(Artifacts(turn));
    TidyPlus(Folded(NonArtifacts(turn)), Singles(Artifacts(turn)));
    if turn != [] && IsUserMessage(turn[0]) {
      assert NonArtifacts(turn)[0] == turn[0];
    }
  }

  lemma {:induction false} RenderedTidy(turns: seq<seq<Part>>)
    requires OpenedByUsers(turns)
    ensures Tidy(Rendered(turns))
  {
    if turns != [] {
      var n := |turns| - 1;
      RenderedTidy(turns[..n]);
      RenderTurnTidy(turns[n]);
      TidyPlus(Rendered(turns[..n]), RenderTurn(turns[n]));
      assert n == 0 ==> Rendered(turns[..n]) == [];
    }
  }

  /** No two tools blocks are adjacent, across turns included, and none is empty. */
  lemma GroupingIsTidy(parts: seq<Part>)
    ensures Tidy(Grouped(parts))
  {
    TurnsOpen(parts);
    RenderedTidy(Turns(parts));
  }
}
