/** The shim's counter and histogram: maps from series keys, updated in place. */
module Metrics {
  import opened Labels
  import opened Options
  import opened Sorting

  // ---- counter ----

  datatype Increment = Increment(labels: LabelSet, amount: real)

  /** What was added for one label set: the specification never mentions series keys. */
  ghost function Total(history: seq<Increment>, labels: LabelSet): real {
    if history == [] then 0.0
    else
      var last := history[|history| - 1];
      Total(history[..|history| - 1], labels) + if SameLabels(last.labels, labels) then last.amount else 0.0
  }

  ghost predicate Incremented(history: seq<Increment>, labels: LabelSet) {
    exists k :: 0 <= k < |history| && SameLabels(history[k].labels, labels)
  }

  /** One entry per key, as the map is filled: `keyed` pairs each key with its amount. */
  function Added(keyed: seq<(string, real)>, key: string): real {
    if keyed == [] then 0.0
    else
      var last := keyed[|keyed| - 1];
      Added(keyed[..|keyed| - 1], key) + if last.0 == key then last.1 else 0.0
  }

  predicate HasKey<T>(keyed: seq<(string, T)>, key: string) {
    exists k :: 0 <= k < |keyed| && keyed[k].0 == key
  }

  ghost predicate Holds(values: map<string, real>, keyed: seq<(string, real)>) {
    && (forall key :: key in values <==> HasKey(keyed, key))
    && (forall key :: key in values ==> values[key] == Added(keyed, key))
  }

  lemma HasKeySnoc<T>(keyed: seq<(string, T)>, e: (string, T), key: string)
    ensures HasKey(keyed + [e], key) <==> HasKey(keyed, key) || e.0 == key
  {
    assert (keyed + [e])[|keyed|] == e;
    if HasKey(keyed, key) {
      var k :| 0 <= k < |keyed| && keyed[k].0 == key;
      assert (keyed + [e])[k].0 == key;
    }
  }

  lemma AddedSnoc(keyed: seq<(string, real)>, e: (string, real), key: string)
    ensures Added(keyed + [e], key) == Added(keyed, key) + if e.0 == key then e.1 else 0.0
  {
    assert (keyed + [e])[..|keyed|] == keyed;
  }

  lemma {:induction false} NothingAdded(keyed: seq<(string, real)>, key: string)
    requires !HasKey(keyed, key)
    ensures Added(keyed, key) == 0.0
  {
    if keyed != [] {
      var init := keyed[..|keyed| - 1];
      assert keyed == init + [keyed[|keyed| - 1]];
      HasKeySnoc(init, keyed[|keyed| - 1], key);
      NothingAdded(init, key);
    }
  }

  lemma HoldsSnoc(values: map<string, real>, keyed: seq<(string, real)>, key: string, amount: real)
    requires Holds(values, keyed)
    ensures Holds(values[key := (if key in values then values[key] else 0.0) + amount], keyed + [(key, amount)])
  {
    hide HasKey, Added;
    if key !in values {
      NothingAdded(keyed, key);
    }
    var after, longer := values[key := (if key in values then values[key] else 0.0) + amount], keyed + [(key, amount)];
    forall other ensures other in after <==> HasKey(longer, other) {
      HasKeySnoc(keyed, (key, amount), other);
    }
    forall other | other in after ensures after[other] == Added(longer, other) {
      AddedSnoc(keyed, (key, amount), other);
    }
  }

  ghost predicate AllLabelled(history: seq<Increment>) {
    forall k :: 0 <= k < |history| ==> ValidLabels(history[k].labels)
  }

  ghost function Keyed(history: seq<Increment>): seq<(string, real)>
    requires AllLabelled(history)
  {
    seq(|history|, k requires 0 <= k < |history| => (LabelKey(history[k].labels), history[k].amount))
  }

  lemma KeyedSnoc(history: seq<Increment>, e: Increment)
    requires AllLabelled(history) && ValidLabels(e.labels)
    ensures AllLabelled(history + [e]) && Keyed(history + [e]) == Keyed(history) + [(LabelKey(e.labels), e.amount)]
  {
    hide LabelKey, ValidLabels;
  }

  lemma TotalSnoc(history: seq<Increment>, e: Increment, labels: LabelSet)
    ensures Total(history + [e], labels) == Total(history, labels) + if SameLabels(e.labels, labels) then e.amount else 0.0
    ensures Incremented(history + [e], labels) <==> Incremented(history, labels) || SameLabels(e.labels, labels)
  {
    hide SameLabels;
    assert (history + [e])[..|history|] == history;
    assert (history + [e])[|history|] == e;
    if Incremented(history, labels) {
      var k :| 0 <= k < |history| && SameLabels(history[k].labels, labels);
      assert (history + [e])[k] == history[k];
    }
  }

  lemma {:induction false} AddedIsTotal(history: seq<Increment>, labels: LabelSet)
    requires AllLabelled(history) && ValidLabels(labels)
    ensures Added(Keyed(history), LabelKey(labels)) == Total(history, labels)
    ensures HasKey(Keyed(history), LabelKey(labels)) <==> Incremented(history, labels)
  {
    if history != [] {
      var init, last := history[..|history| - 1], history[|history| - 1];
      assert history == init + [last];
      KeysAgreeIff(last.labels, labels);
      hide LabelKey, SameLabels, ValidLabels, Keyed, Added, HasKey, Total, Incremented;
      AddedIsTotal(init, labels);
      KeyedSnoc(init, last);
      AddedSnoc(Keyed(init), (LabelKey(last.labels), last.amount), LabelKey(labels));
      HasKeySnoc(Keyed(init), (LabelKey(last.labels), last.amount), LabelKey(labels));
      TotalSnoc(init, last, labels);
    }
  }

  class Counter {
    var values: map<string, real>
    ghost var history: seq<Increment>

    ghost predicate Consistent()
      reads this
    {
      AllLabelled(history) && Holds(values, Keyed(history))
    }

    constructor ()
      ensures Consistent() && history == []
    {
      values, history := map[], [];
    }

    method Inc(labels: LabelSet, amount: real)
      requires Consistent() && ValidLabels(labels)
      modifies this
      ensures Consistent() && history == old(history) + [Increment(labels, amount)]
    {
      hide Holds, Keyed, LabelKey, AllLabelled, ValidLabels;
      var key := LabelKey(labels);
      HoldsSnoc(values, Keyed(history), key, amount);
      KeyedSnoc(history, Increment(labels, amount));
      values := values[key := (if key in values then values[key] else 0.0) + amount];
      history := history + [Increment(labels, amount)];
    }

    /** Any way of writing the label set finds its total; one never incremented has no series. */
    lemma Reads(labels: LabelSet)
      requires Consistent() && ValidLabels(labels)
      ensures LabelKey(labels) in values <==> Incremented(history, labels)
      ensures LabelKey(labels) in values ==> values[LabelKey(labels)] == Total(history, labels)
    {
      AddedIsTotal(history, labels);
    }
  }

  // ---- histogram ----

  datatype Series = Series(counts: seq<nat>, sum: real, count: nat)

  /** A seeding carries no value. */
  datatype Operation = Operation(labels: LabelSet, observed: Option<real>)

  predicate AtMost(a: real, b: real) { a <= b }

  function CountBelow(values: seq<real>, bound: real): nat {
    if values == [] then 0
    else CountBelow(values[..|values| - 1], bound) + if values[|values| - 1] <= bound then 1 else 0
  }

  function Sum(values: seq<real>): real {
    if values == [] then 0.0 else Sum(values[..|values| - 1]) + values[|values| - 1]
  }

  function SeriesOf(buckets: seq<real>, values: seq<real>): Series {
    Series(seq(|buckets|, k requires 0 <= k < |buckets| => CountBelow(values, buckets[k])), Sum(values), |values|)
  }

  function Values(o: Option<real>): seq<real> {
    match o
    case None => []
    case Some(v) => [v]
  }

  /** What was observed for one label set, in order. */
  ghost function Observed(history: seq<Operation>, labels: LabelSet): seq<real> {
    if history == [] then []
    else
      var last := history[|history| - 1];
      Observed(history[..|history| - 1], labels) + if SameLabels(last.labels, labels) then Values(last.observed) else []
  }

  ghost predicate Touched(history: seq<Operation>, labels: LabelSet) {
    exists k :: 0 <= k < |history| && SameLabels(history[k].labels, labels)
  }

  function Seen(keyed: seq<(string, Option<real>)>, key: string): seq<real> {
    if keyed == [] then []
    else
      var last := keyed[|keyed| - 1];
      Seen(keyed[..|keyed| - 1], key) + if last.0 == key then Values(last.1) else []
  }

  ghost predicate Records(buckets: seq<real>, series: map<string, Series>, keyed: seq<(string, Option<real>)>) {
    && (forall key :: key in series <==> HasKey(keyed, key))
    && (forall key :: key in series ==> series[key] == SeriesOf(buckets, Seen(keyed, key)))
  }

  lemma SeenSnoc(keyed: seq<(string, Option<real>)>, e: (string, Option<real>), key: string)
    ensures Seen(keyed + [e], key) == Seen(keyed, key) + if e.0 == key then Values(e.1) else []
  {
    assert (keyed + [e])[..|keyed|] == keyed;
  }

  lemma {:induction false} NothingSeen(keyed: seq<(string, Option<real>)>, key: string)
    requires !HasKey(keyed, key)
    ensures Seen(keyed, key) == []
  {
    if keyed != [] {
      var init := keyed[..|keyed| - 1];
      assert keyed == init + [keyed[|keyed| - 1]];
      HasKeySnoc(init, keyed[|keyed| - 1], key);
      NothingSeen(init, key);
    }
  }

  lemma RecordsSnoc(buckets: seq<real>, series: map<string, Series>, keyed: seq<(string, Option<real>)>, e: (string, Option<real>))
    requires Records(buckets, series, keyed)
    ensures Records(buckets, series[e.0 := SeriesOf(buckets, Seen(keyed, e.0) + Values(e.1))], keyed + [e])
  {
    hide HasKey, Seen, SeriesOf, Values;
    var after, longer := series[e.0 := SeriesOf(buckets, Seen(keyed, e.0) + Values(e.1))], keyed + [e];
    forall other ensures other in after <==> HasKey(longer, other) {
      HasKeySnoc(keyed, e, other);
    }
    forall other | other in after ensures after[other] == SeriesOf(buckets, Seen(longer, other)) {
      SeenSnoc(keyed, e, other);
      assert Seen(keyed, other) + [] == Seen(keyed, other);
    }
  }

  ghost predicate AllNamed(history: seq<Operation>) {
    forall k :: 0 <= k < |history| ==> ValidLabels(history[k].labels)
  }

  ghost function Filed(history: seq<Operation>): seq<(string, Option<real>)>
    requires AllNamed(history)
  {
    seq(|history|, k requires 0 <= k < |history| => (LabelKey(history[k].labels), history[k].observed))
  }

  lemma FiledSnoc(history: seq<Operation>, op: Operation)
    requires AllNamed(history) && ValidLabels(op.labels)
    ensures AllNamed(history + [op]) && Filed(history + [op]) == Filed(history) + [(LabelKey(op.labels), op.observed)]
  {
  }

  lemma ObservedSnoc(history: seq<Operation>, op: Operation, labels: LabelSet)
    ensures Observed(history + [op], labels) == Observed(history, labels) + if SameLabels(op.labels, labels) then Values(op.observed) else []
    ensures Touched(history + [op], labels) <==> Touched(history, labels) || SameLabels(op.labels, labels)
  {
    hide SameLabels, Values;
    assert (history + [op])[..|history|] == history;
    assert (history + [op])[|history|] == op;
    if Touched(history, labels) {
      var k :| 0 <= k < |history| && SameLabels(history[k].labels, labels);
      assert (history + [op])[k] == history[k];
    }
  }

  lemma {:induction false} SeenIsObserved(history: seq<Operation>, labels: LabelSet)
    requires AllNamed(history) && ValidLabels(labels)
    ensures Seen(Filed(history), LabelKey(labels)) == Observed(history, labels)
    ensures HasKey(Filed(history), LabelKey(labels)) <==> Touched(history, labels)
  {
    if history != [] {
      var init, last := history[..|history| - 1], history[|history| - 1];
      assert history == init + [last];
      KeysAgreeIff(last.labels, labels);
      hide LabelKey, SameLabels, ValidLabels, Filed, Seen, HasKey, Observed, Touched, Values;
      SeenIsObserved(init, labels);
      FiledSnoc(init, last);
      SeenSnoc(Filed(init), (LabelKey(last.labels), last.observed), LabelKey(labels));
      HasKeySnoc(Filed(init), (LabelKey(last.labels), last.observed), LabelKey(labels));
      ObservedSnoc(init, last, labels);
    }
  }

  lemma EmptySeries(buckets: seq<real>)
    ensures Series(seq(|buckets|, k => 0), 0.0, 0) == SeriesOf(buckets, [])
  {
  }

  /** A seeding files an entry without a value: it adds the empty series where there is none. */
  lemma SeededRecords(buckets: seq<real>, series: map<string, Series>, keyed: seq<(string, Option<real>)>, key: string)
    requires Records(buckets, series, keyed)
    ensures Records(buckets, if key in series then series else series[key := SeriesOf(buckets, [])], keyed + [(key, None)])
  {
    hide SeriesOf;
    RecordsSnoc(buckets, series, keyed, (key, None));
    assert Seen(keyed, key) + [] == Seen(keyed, key);
    if key !in series {
      NothingSeen(keyed, key);
    } else {
      assert series == series[key := SeriesOf(buckets, Seen(keyed, key))];
    }
  }

  lemma SeriesSnoc(buckets: seq<real>, values: seq<real>, v: real)
    ensures var s, t := SeriesOf(buckets, values), SeriesOf(buckets, values + [v]);
      && t.sum == s.sum + v && t.count == s.count + 1
      && (forall k :: 0 <= k < |buckets| ==> t.counts[k] == s.counts[k] + if v <= buckets[k] then 1 else 0)
  {
    assert (values + [v])[..|values|] == values;
  }

  /** The bucket loop and the two running totals, on one series. */
  method Bump(buckets: seq<real>, before: Series, value: real, ghost seen: seq<real>) returns (after: Series)
    requires before == SeriesOf(buckets, seen)
    ensures after == SeriesOf(buckets, seen + [value])
  {
    var counts := before.counts;
    for k := 0 to |buckets|
      invariant |counts| == |buckets|
      invariant forall j :: 0 <= j < |buckets| ==>
        counts[j] == before.counts[j] + if j < k && value <= buckets[j] then 1 else 0
    {
      if value <= buckets[k] {
        counts := counts[k := counts[k] + 1];
      }
    }
    after := Series(counts, before.sum + value, before.count + 1);
    SeriesSnoc(buckets, seen, value);
    assert counts == SeriesOf(buckets, seen + [value]).counts;
  }

  class Histogram {
    const buckets: seq<real>
    var series: map<string, Series>
    ghost var history: seq<Operation>

    ghost predicate Consistent()
      reads this
    {
      Sorted(buckets, AtMost) && AllNamed(history) && Records(buckets, series, Filed(history))
    }

    constructor (bounds: seq<real>)
      ensures Consistent() && history == []
      ensures multiset(buckets) == multiset(bounds)
    {
      SortKeeps(bounds, AtMost);
      buckets := StableSort(bounds, AtMost);
      series, history := map[], [];
    }

    method Seed(labels: LabelSet)
      requires Consistent() && ValidLabels(labels)
      modifies this
      ensures Consistent() && history == old(history) + [Operation(labels, None)]
    {
      hide Filed, LabelKey, AllNamed, ValidLabels, SeriesOf, Seen, Sorted;
      var key := LabelKey(labels);
      SeededRecords(buckets, series, Filed(history), key);
      FiledSnoc(history, Operation(labels, None));
      hide Records;
      if key !in series {
        EmptySeries(buckets);
        series := series[key := Series(seq(|buckets|, k => 0), 0.0, 0)];
      }
      history := history + [Operation(labels, None)];
    }

    method Observe(labels: LabelSet, value: real)
      requires Consistent() && ValidLabels(labels)
      modifies this
      ensures Consistent() && history == old(history) + [Operation(labels, Some(value))]
    {
      var key := LabelKey(labels);
      ghost var seen := Seen(Filed(history), key);
      RecordsSnoc(buckets, series, Filed(history), (key, Some(value)));
      FiledSnoc(history, Operation(labels, Some(value)));
      var s: Series;
      if key in series {
        s := series[key];
      } else {
        NothingSeen(Filed(history), key);
        EmptySeries(buckets);
        s := Series(seq(|buckets|, k => 0), 0.0, 0);
      }
      s := Bump(buckets, s, value, seen);
      series := series[key := s];
      history := history + [Operation(labels, Some(value))];
    }

    /** Any way of writing the label set finds the series of its observations; a label set never
        seeded nor observed has none. */
    lemma Reads(labels: LabelSet)
      requires Consistent() && ValidLabels(labels)
      ensures LabelKey(labels) in series <==> Touched(history, labels)
      ensures LabelKey(labels) in series ==> series[LabelKey(labels)] == SeriesOf(buckets, Observed(history, labels))
      ensures LabelKey(labels) in series ==>
        var s, values := series[LabelKey(labels)], Observed(history, labels);
        && s.count == |values| && |s.counts| == |buckets|
        && forall i :: 0 <= i < |buckets| ==> s.counts[i] == |set k | 0 <= k < |values| && values[k] <= buckets[i]|
    {
      forall i | 0 <= i < |buckets| {
        CountBelowIs(Observed(history, labels), buckets[i]);
      }
      SeenIsObserved(history, labels);
    }
  }

  /** A bucket counts the observations at or below its bound. */
  lemma {:induction false} CountBelowIs(values: seq<real>, bound: real)
    ensures CountBelow(values, bound) == |set k | 0 <= k < |values| && values[k] <= bound|
  {
    var below := set k | 0 <= k < |values| && values[k] <= bound;
    if values != [] {
      var init, n := values[..|values| - 1], |values| - 1;
      CountBelowIs(init, bound);
      var before := set k | 0 <= k < |init| && init[k] <= bound;
      assert before == set k | 0 <= k < n && values[k] <= bound;
      assert below == if values[n] <= bound then before + {n} else before;
    }
  }

  /** The sum adds every observation once. */
  lemma {:induction false} SumPlus(a: seq<real>, b: seq<real>)
    ensures Sum([]) == 0.0 && (forall v: real :: Sum([v]) == v) && Sum(a + b) == Sum(a) + Sum(b)
    decreases |b|
  {
    assert forall v: real :: [v][..0] == [];
    if b == [] {
      assert a + b == a;
    } else {
      SumPlus(a, b[..|b| - 1]);
      assert (a + b)[..|a + b| - 1] == a + b[..|b| - 1];
    }
  }

  lemma {:induction false} CountsGrow(values: seq<real>, a: real, b: real)
    requires a <= b
    ensures CountBelow(values, a) <= CountBelow(values, b) <= |values|
  {
    if values != [] {
      CountsGrow(values[..|values| - 1], a, b);
    }
  }

  /** Bucket counts are cumulative: they never decrease along the bounds nor exceed the count. */
  lemma BucketsCumulative(buckets: seq<real>, values: seq<real>, j: nat, k: nat)
    requires Sorted(buckets, AtMost) && j <= k < |buckets|
    ensures var s := SeriesOf(buckets, values); s.counts[j] <= s.counts[k] <= s.count
  {
    assert j < k ==> AtMost(buckets[j], buckets[k]);
    CountsGrow(values, buckets[j], buckets[k]);
  }
}
