/** An approval has two halves: a row in the database, saved first, and a waiter in the hub, parked
    after it. The operator's decision is written to the row once and then handed to the waiter, if
    one is parked by then. */
module ApprovalRendezvous {
  import opened Options
  import Hub = EventHub

  datatype Step = Save(a: string) | Park(a: string) | Approve(a: string, decision: string)

  /** A row without a decision is None. */
  datatype Desk = Desk(rows: map<string, Option<string>>, waiters: map<string, Hub.Future>)

  predicate Enabled(d: Desk, st: Step) {
    match st
    case Save(a) => a !in d.rows && a !in d.waiters
    case Park(a) => a in d.rows && a !in d.waiters
    case Approve(_, _) => true
  }

  function Next(d: Desk, st: Step): Desk {
    match st
    case Save(a) => d.(rows := d.rows[a := None])
    case Park(a) => d.(waiters := d.waiters[a := Hub.Pending])
    case Approve(a, decision) =>
      Desk(if a in d.rows && d.rows[a].None? then d.rows[a := Some(decision)] else d.rows,
           if a in d.waiters && d.waiters[a].Pending? then d.waiters[a := Hub.Decided(decision)] else d.waiters)
  }

  function After(es: seq<Step>): Desk {
    if es == [] then Desk(map[], map[]) else Next(After(es[..|es| - 1]), es[|es| - 1])
  }

  /** Approval ids are fresh, and a waiter is parked once, for a row that is saved. */
  predicate Legal(es: seq<Step>) {
    forall k :: 0 <= k < |es| ==> Enabled(After(es[..k]), es[k])
  }

  predicate Decides(e: Step, a: string) {
    e.Approve? && e.a == a
  }

  /** The first decision on `a` from a step on. */
  function FirstFrom(es: seq<Step>, a: string, from: nat): Option<string>
    decreases |es| - from
  {
    if from >= |es| then None else if Decides(es[from], a) then Some(es[from].decision) else FirstFrom(es, a, from + 1)
  }

  lemma {:induction false} FirstSnoc(es: seq<Step>, a: string, from: nat)
    requires es != [] && from < |es|
    ensures var init := es[..|es| - 1];
      FirstFrom(es, a, from) == if FirstFrom(init, a, from).None? && Decides(es[|es| - 1], a) then Some(es[|es| - 1].decision)
                                else FirstFrom(init, a, from)
    decreases |es| - from
  {
    if from < |es| - 1 && !Decides(es[from], a) {
      FirstSnoc(es, a, from + 1);
    }
  }

  lemma LegalInit(es: seq<Step>)
    requires Legal(es) && es != []
    ensures Legal(es[..|es| - 1]) && Enabled(After(es[..|es| - 1]), es[|es| - 1])
  {
    var init := es[..|es| - 1];
    forall k | 0 <= k < |init| ensures Enabled(After(init[..k]), init[k]) {
      assert init[..k] == es[..k];
    }
  }

  /** A row holds the first decision made after it was saved, for good. */
  lemma {:induction false} RowHoldsFirst(es: seq<Step>, a: string, s: nat)
    requires Legal(es) && s < |es| && es[s] == Save(a)
    ensures a in After(es).rows && After(es).rows[a] == FirstFrom(es, a, s)
  {
    LegalInit(es);
    FirstSnoc(es, a, s);
    if s < |es| - 1 {
      RowHoldsFirst(es[..|es| - 1], a, s);
    }
  }

  function AsFuture(decision: Option<string>): Hub.Future {
    if decision.None? then Hub.Pending else Hub.Decided(decision.value)
  }

  /** A waiter gets the first decision made after it was parked: it waits exactly until then. */
  lemma {:induction false} WaiterGetsFirst(es: seq<Step>, a: string, p: nat)
    requires Legal(es) && p < |es| && es[p] == Park(a)
    ensures a in After(es).waiters && After(es).waiters[a] == AsFuture(FirstFrom(es, a, p))
  {
    LegalInit(es);
    FirstSnoc(es, a, p);
    if p < |es| - 1 {
      WaiterGetsFirst(es[..|es| - 1], a, p);
    }
  }

  /** The waiter was told what the row says. */
  predicate Agrees(d: Desk, a: string) {
    a in d.rows && a in d.waiters && d.waiters[a] == AsFuture(d.rows[a])
  }

  lemma {:induction false} FirstSkips(es: seq<Step>, a: string, s: nat, p: nat)
    requires s <= p <= |es| && forall j :: s <= j < p ==> !Decides(es[j], a)
    ensures FirstFrom(es, a, s) == FirstFrom(es, a, p)
    decreases p - s
  {
    if s < p {
      FirstSkips(es, a, s + 1, p);
    }
  }

  lemma {:induction false} FirstFound(es: seq<Step>, a: string, s: nat, j: nat)
    requires s <= j < |es| && Decides(es[j], a)
    ensures FirstFrom(es, a, s).Some?
    decreases j - s
  {
    if s < j && !Decides(es[s], a) {
      FirstFound(es, a, s + 1, j);
    }
  }

  lemma {:induction false} NoneFound(es: seq<Step>, a: string, s: nat)
    requires forall j :: s <= j < |es| ==> !Decides(es[j], a)
    ensures FirstFrom(es, a, s).None?
    decreases |es| - s
  {
    if s < |es| {
      NoneFound(es, a, s + 1);
    }
  }

  lemma LegalPrefix(es: seq<Step>, n: nat)
    requires Legal(es) && n <= |es|
    ensures Legal(es[..n])
  {
    forall k | 0 <= k < n ensures Enabled(After(es[..n][..k]), es[..n][k]) {
      assert es[..n][..k] == es[..k];
    }
  }

  lemma InTime(fs: seq<Step>, a: string, s: nat, p: nat)
    requires Legal(fs) && s < p < |fs| && fs[s] == Save(a) && fs[p] == Park(a)
    requires forall j :: s < j < p ==> !Decides(fs[j], a)
    ensures Agrees(After(fs), a)
  {
    hide Legal, After;
    RowHoldsFirst(fs, a, s);
    WaiterGetsFirst(fs, a, p);
    FirstSkips(fs, a, s, p);
  }

  lemma TooEarly(fs: seq<Step>, a: string, s: nat, p: nat, j: nat)
    requires Legal(fs) && s < j < p && |fs| == p + 1 && fs[s] == Save(a) && fs[p] == Park(a) && Decides(fs[j], a)
    ensures !Agrees(After(fs), a)
  {
    hide Legal, After;
    RowHoldsFirst(fs, a, s);
    WaiterGetsFirst(fs, a, p);
    FirstFound(fs, a, s, j);
    NoneFound(fs, a, p);
  }

  lemma AlwaysInTime(es: seq<Step>, fs: seq<Step>, a: string, s: nat, p: nat)
    requires s < p < |es| && es[s] == Save(a) && es[p] == Park(a) && forall j :: s < j < p ==> !Decides(es[j], a)
    requires Legal(fs) && es[..p + 1] <= fs
    ensures Agrees(After(fs), a)
  {
    hide Legal, After, Agrees;
    assert forall k :: 0 <= k <= p ==> fs[k] == es[..p + 1][k] == es[k];
    InTime(fs, a, s, p);
  }

  ghost predicate AgreesAlways(es: seq<Step>, a: string, p: nat)
    requires p < |es|
  {
    forall fs :: Legal(fs) && es[..p + 1] <= fs ==> Agrees(After(fs), a)
  }

  lemma TooEarlyOnce(es: seq<Step>, a: string, s: nat, p: nat, j: nat)
    requires Legal(es) && s < j < p < |es| && es[s] == Save(a) && es[p] == Park(a) && Decides(es[j], a)
    ensures !AgreesAlways(es, a, p)
  {
    hide Legal, After, Agrees, Decides;
    LegalPrefix(es, p + 1);
    var fs := es[..p + 1];
    TooEarly(fs, a, s, p, j);
    assert Legal(fs) && es[..p + 1] <= fs && !Agrees(After(fs), a);
  }

  /** Row and waiter agree, then and whatever happens later, exactly when nobody decided between
      saving the row and parking the waiter. A decision that came too early is on the row, but its
      waiter stays parked until another one comes, which it then gets instead. */
  lemma AgreeIff(es: seq<Step>, a: string, s: nat, p: nat)
    requires Legal(es) && s < p < |es| && es[s] == Save(a) && es[p] == Park(a)
    ensures (forall fs :: Legal(fs) && es[..p + 1] <= fs ==> Agrees(After(fs), a)) <==>
            (forall j :: s < j < p ==> !Decides(es[j], a))
  {
    hide Legal, After, Agrees, Decides;
    if j :| s < j < p && Decides(es[j], a) {
      TooEarlyOnce(es, a, s, p, j);
    } else {
      forall fs | Legal(fs) && es[..p + 1] <= fs ensures Agrees(After(fs), a) {
        AlwaysInTime(es, fs, a, s, p);
      }
    }
  }

  /** The input: a decision as soon as the row is there. The row says so, and the waiter waits on. */
  lemma EarlyDecisionIsMissed(a: string, decision: string)
    ensures var es := [Save(a), Approve(a, decision), Park(a)];
      && Legal(es) && !Agrees(After(es), a)
      && After(es).rows[a] == Some(decision) && After(es).waiters[a] == Hub.Pending
  {
    var es := [Save(a), Approve(a, decision), Park(a)];
    assert es[..0] == [] && es[..1] == [Save(a)] && es[..2] == [Save(a), Approve(a, decision)] && es[..2][..1] == es[..1];
    assert After(es) == Next(After(es[..2]), es[2]) && After(es[..2]) == Next(After(es[..1]), es[1]);
    assert After(es[..1]) == Next(After([]), es[0]);
  }

  // ---- in place ----

  /** The approval rows next to the hub that holds the waiters. */
  class Approvals {
    var rows: map<string, Option<string>>
    const hub: Hub.RunState

    constructor (hub: Hub.RunState)
      ensures rows == map[] && this.hub == hub
    {
      rows := map[];
      this.hub := hub;
    }

    function View(): Desk
      reads this, hub
    {
      Desk(rows, hub.approvals)
    }

    method AddApproval(a: string)
      requires a !in rows
      modifies this
      ensures View() == Next(old(View()), Save(a))
    {
      rows := rows[a := None];
    }

    /** The tool's wait begins. */
    method AwaitDecision(a: string)
      modifies hub`approvals
      ensures View() == Next(old(View()), Park(a))
    {
      hub.MakeApproval(a);
    }

    /** The endpoint: writes the row if it is undecided and tells the waiter if one is parked. */
    method Approve(a: string, decision: string) returns (recorded: bool, resolved: bool)
      modifies this, hub`approvals
      ensures View() == Next(old(View()), Step.Approve(a, decision))
      ensures recorded <==> a in old(rows) && old(rows)[a].None?
      ensures resolved <==> a in old(hub.approvals) && old(hub.approvals)[a].Pending?
      ensures !recorded && !resolved ==> View() == old(View())
    {
      recorded := a in rows && rows[a].None?;
      if recorded {
        rows := rows[a := Some(decision)];
      }
      resolved := hub.ResolveApproval(a, decision);
    }

    /** A request from its row to the start of its wait, with the decisions that come in between: the
        first of them is on the row, and row and waiter agree exactly when there was none. */
    method Request(a: string, early: seq<string>)
      requires a !in rows && a !in hub.approvals
      modifies this, hub`approvals
      ensures a in rows && rows[a] == (if early == [] then None else Some(early[0]))
      ensures a in hub.approvals && hub.approvals[a] == Hub.Pending
      ensures Agrees(View(), a) <==> early == []
    {
      AddApproval(a);
      for k := 0 to |early|
        invariant a in rows && rows[a] == (if k == 0 then None else Some(early[0])) && a !in hub.approvals
      {
        var _, _ := Approve(a, early[k]);
      }
      AwaitDecision(a);
    }
  }
}
