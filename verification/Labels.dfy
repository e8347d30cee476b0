/** Prometheus label sets and the text key under which a metric stores a series. */
module Labels {
  import opened Sequences
  import opened Sorting
  import opened Text

  /** A label object: its keys in insertion order, and their values. */
  datatype LabelSet = LabelSet(order: seq<string>, values: map<string, string>)

  predicate NameStart(c: char) { 'a' <= c <= 'z' || 'A' <= c <= 'Z' || c == '_' }

  predicate NameChar(c: char) { NameStart(c) || '0' <= c <= '9' }

  predicate PrometheusName(s: string) {
    s != [] && NameStart(s[0]) && forall c :: c in s ==> NameChar(c)
  }

  predicate Distinct(s: seq<string>) {
    forall j, k :: 0 <= j < k < |s| ==> s[j] != s[k]
  }

  ghost predicate ValidLabels(labels: LabelSet) {
    && Distinct(labels.order)
    && (forall n :: n in labels.order <==> n in labels.values)
    && (forall n :: n in labels.order ==> PrometheusName(n))
  }

  // ---- escaping ----

  function ReplaceAll(s: string, c: char, sub: string): string {
    if s == [] then [] else (if s[0] == c then sub else [s[0]]) + ReplaceAll(s[1..], c, sub)
  }

  function EscapeLabel(v: string): string {
    ReplaceAll(ReplaceAll(ReplaceAll(v, '\\', "\\\\"), '"', "\\\""), '\n', "\\n")
  }

  function EscapeChar(c: char): string {
    if c == '\\' then "\\\\" else if c == '"' then "\\\"" else if c == '\n' then "\\n" else [c]
  }

  function EscapeOnce(v: string): string {
    if v == [] then [] else EscapeChar(v[0]) + EscapeOnce(v[1..])
  }

  function Unescape(s: string): string {
    if s == [] then []
    else if s[0] == '\\' && |s| > 1 then [if s[1] == 'n' then '\n' else s[1]] + Unescape(s[2..])
    else [s[0]] + Unescape(s[1..])
  }

  lemma {:induction false} ReplacePlus(a: string, b: string, c: char, sub: string)
    ensures ReplaceAll(a + b, c, sub) == ReplaceAll(a, c, sub) + ReplaceAll(b, c, sub)
  {
    if a == [] {
      assert a + b == b;
    } else {
      ReplacePlus(a[1..], b, c, sub);
      ConsPlus(a, b);
      var head := if a[0] == c then sub else [a[0]];
      assert head + (ReplaceAll(a[1..], c, sub) + ReplaceAll(b, c, sub)) == (head + ReplaceAll(a[1..], c, sub)) + ReplaceAll(b, c, sub);
    }
  }

  lemma ReplaceTwo(x: char, y: char, c: char, sub: string)
    ensures ReplaceAll([x], c, sub) == if x == c then sub else [x]
    ensures x != c && y != c ==> ReplaceAll([x, y], c, sub) == [x, y]
  {
    assert [x][1..] == [] && [x, y][1..] == [y] && [y][1..] == [];
    assert ReplaceAll([y], c, sub) == (if y == c then sub else [y]) + [];
  }

  lemma EscapeHead(x: char)
    ensures EscapeLabel([x]) == EscapeChar(x)
  {
    ReplaceTwo(x, x, '\\', "\\\\");
    ReplaceTwo(x, x, '"', "\\\"");
    ReplaceTwo(x, x, '\n', "\\n");
    ReplaceTwo('\\', '\\', '"', "\\\"");
    ReplaceTwo('\\', '\\', '\n', "\\n");
    ReplaceTwo('\\', '"', '\n', "\\n");
  }

  /** The three replacements, run one after the other, escape each character once. */
  lemma {:induction false} EscapesOnce(v: string)
    ensures EscapeLabel(v) == EscapeOnce(v)
  {
    if v != [] {
      var head, rest := [v[0]], v[1..];
      EscapesOnce(rest);
      EscapeHead(v[0]);
      assert v == head + rest;
      ReplacePlus(head, rest, '\\', "\\\\");
      var h1, r1 := ReplaceAll(head, '\\', "\\\\"), ReplaceAll(rest, '\\', "\\\\");
      ReplacePlus(h1, r1, '"', "\\\"");
      ReplacePlus(ReplaceAll(h1, '"', "\\\""), ReplaceAll(r1, '"', "\\\""), '\n', "\\n");
    }
  }

  lemma {:induction false} UnescapeOnce(v: string)
    ensures Unescape(EscapeOnce(v)) == v
  {
    if v != [] {
      UnescapeOnce(v[1..]);
      var s := EscapeOnce(v);
      if |EscapeChar(v[0])| == 2 {
        assert s[2..] == EscapeOnce(v[1..]);
      } else {
        assert s[1..] == EscapeOnce(v[1..]);
      }
    }
  }

  /** One unescaping pass undoes the three chained replacements, whatever the value holds. */
  lemma UnescapeUndoes(v: string)
    ensures Unescape(EscapeLabel(v)) == v
  {
    EscapesOnce(v);
    UnescapeOnce(v);
  }

  // ---- the order of names ----

  /** The default sort order of strings: by code unit. */
  predicate NotGreater(a: string, b: string) {
    a == [] || (b != [] && (a[0] < b[0] || (a[0] == b[0] && NotGreater(a[1..], b[1..]))))
  }

  lemma {:induction false} NotGreaterTotal(a: string, b: string)
    ensures NotGreater(a, b) || NotGreater(b, a)
    ensures NotGreater(a, b) && NotGreater(b, a) ==> a == b
  {
    if a != [] && b != [] && a[0] == b[0] {
      NotGreaterTotal(a[1..], b[1..]);
      assert a == [a[0]] + a[1..] && b == [b[0]] + b[1..];
    }
  }

  lemma {:induction false} NotGreaterTransitive(a: string, b: string, c: string)
    requires NotGreater(a, b) && NotGreater(b, c)
    ensures NotGreater(a, c)
  {
    if a != [] && b != [] && c != [] && a[0] == b[0] == c[0] {
      NotGreaterTransitive(a[1..], b[1..], c[1..]);
    }
  }

  /** With `n` the length of the common part, a name is not greater when it ends there, or goes on with the
      smaller unit. */
  lemma {:induction false} NotGreaterIff(a: string, b: string, n: nat)
    requires n <= |a| && n <= |b| && a[..n] == b[..n] && (n < |a| && n < |b| ==> a[n] != b[n])
    ensures NotGreater(a, b) <==> n == |a| || (n < |b| && a[n] < b[n])
  {
    if n > 0 {
      assert a[0] == a[..n][0] == b[..n][0] == b[0];
      assert a[1..][..n - 1] == a[..n][1..] && b[1..][..n - 1] == b[..n][1..];
      NotGreaterIff(a[1..], b[1..], n - 1);
    }
  }

  lemma NotGreaterIsOrder()
    ensures TotalPreorder(NotGreater)
    ensures forall a, b :: NotGreater(a, b) && NotGreater(b, a) ==> a == b
  {
    forall a, b ensures (NotGreater(a, b) || NotGreater(b, a)) && (NotGreater(a, b) && NotGreater(b, a) ==> a == b) {
      NotGreaterTotal(a, b);
    }
    forall a, b, c | NotGreater(a, b) && NotGreater(b, c) ensures NotGreater(a, c) {
      NotGreaterTransitive(a, b, c);
    }
  }

  // ---- the key ----

  function Pair(name: string, value: string): string {
    name + "=\"" + EscapeLabel(value) + "\""
  }

  function Pairs(names: seq<string>, values: map<string, string>): seq<string>
    requires forall n :: n in names ==> n in values
  {
    seq(|names|, k requires 0 <= k < |names| => assert names[k] in names; Pair(names[k], values[names[k]]))
  }

  function SortedNames(labels: LabelSet): (names: seq<string>)
    requires ValidLabels(labels)
    ensures forall n :: n in names <==> n in labels.values
    ensures |names| == |labels.order|
  {
    NotGreaterIsOrder();
    SortKeeps(labels.order, NotGreater);
    StableSort(labels.order, NotGreater)
  }

  function LabelKey(labels: LabelSet): string
    requires ValidLabels(labels)
  {
    if labels.order == [] then ""
    else "{" + Join(Pairs(SortedNames(labels), labels.values), ",") + "}"
  }

  lemma SortTwo(a: string, b: string)
    requires a != b && NotGreater(a, b)
    ensures StableSort([a, b], NotGreater) == [a, b] == StableSort([b, a], NotGreater)
  {
    hide NotGreater;
    NotGreaterIsOrder();
    SortOne(a);
    SortOne(b);
    assert [a, b][1..] == [b] && [b, a][1..] == [a];
    assert Insert(b, [a], NotGreater) == [a] + Insert(b, [], NotGreater);
  }

  lemma SortOne(a: string)
    ensures StableSort([a], NotGreater) == [a]
  {
    assert [a][1..] == [];
  }

  /** Two labels, whichever is given first: the names ascend. */
  lemma TwoLabels(labels: LabelSet, a: string, b: string)
    requires ValidLabels(labels) && a != b && NotGreater(a, b) && labels.order in {[a, b], [b, a]}
    ensures a in labels.values && b in labels.values
    ensures LabelKey(labels) == "{" + (Pair(a, labels.values[a]) + "," + Pair(b, labels.values[b])) + "}"
  {
    assert labels.order != [];
    hide NotGreater, Pair;
    SortTwo(a, b);
    assert SortedNames(labels) == [a, b];
    assert a in SortedNames(labels) && b in SortedNames(labels);
    var pairs := Pairs(SortedNames(labels), labels.values);
    assert pairs == [Pair(a, labels.values[a]), Pair(b, labels.values[b])];
    assert pairs[1..] == [Pair(b, labels.values[b])];
    assert Join(pairs[1..], ",") == Pair(b, labels.values[b]);
    assert Join(pairs, ",") == Pair(a, labels.values[a]) + "," + Pair(b, labels.values[b]);
  }

  // ---- the key determines the label set ----

  lemma FirstEquals(a: string, x: string)
    requires '=' !in a
    ensures (a + "=" + x)[|a|] == '=' && forall k :: 0 <= k < |a| ==> (a + "=" + x)[k] != '='
  {
    assert forall k :: 0 <= k < |a| ==> a[k] in a;
  }

  lemma SplitAtEquals(a: string, x: string, b: string, y: string)
    requires '=' !in a && '=' !in b
    requires a + "=" + x == b + "=" + y
    ensures a == b && x == y
  {
    var s, t := a + "=" + x, b + "=" + y;
    FirstEquals(a, x);
    FirstEquals(b, y);
    assert |a| == |b|;
    assert s[..|a|] == a && t[..|b|] == b;
    assert s[|a| + 1..] == x && t[|b| + 1..] == y;
  }

  lemma QuoteFirst(v: string, x: string)
    ensures (EscapeOnce(v) + "\"" + x)[0] == '"' <==> v == []
    ensures v == [] ==> (EscapeOnce(v) + "\"" + x)[1..] == x
  {
    assert v != [] ==> (EscapeOnce(v) + "\"" + x)[0] == EscapeChar(v[0])[0];
  }

  lemma OnceHead(v: string, x: string)
    requires v != []
    ensures EscapeOnce(v) + "\"" + x == EscapeChar(v[0]) + (EscapeOnce(v[1..]) + "\"" + x)
  {
    hide EscapeChar;
    var c, rest := EscapeChar(v[0]), EscapeOnce(v[1..]);
    assert EscapeOnce(v) == c + rest;
    hide EscapeOnce;
    Assoc(c + rest, "\"", x);
    Assoc(c, rest, "\"" + x);
    Assoc(rest, "\"", x);
  }

  /** Where an escaped value ends is not ambiguous, and neither is what it escapes. */
  lemma {:induction false} SplitAtQuote(v: string, x: string, w: string, y: string)
    requires EscapeOnce(v) + "\"" + x == EscapeOnce(w) + "\"" + y
    ensures v == w && x == y
  {
    var s, t := EscapeOnce(v) + "\"" + x, EscapeOnce(w) + "\"" + y;
    QuoteFirst(v, x);
    QuoteFirst(w, y);
    if v != [] {
      hide EscapeOnce, EscapeChar;
      OnceHead(v, x);
      OnceHead(w, y);
      SameFirst(v[0], EscapeOnce(v[1..]) + "\"" + x, w[0], EscapeOnce(w[1..]) + "\"" + y, s, t);
      SplitAtQuote(v[1..], x, w[1..], y);
      assert v == [v[0]] + v[1..] && w == [w[0]] + w[1..];
    }
  }

  lemma SameFirst(c: char, x: string, d: char, y: string, s: string, t: string)
    requires s == t && s == EscapeChar(c) + x && t == EscapeChar(d) + y
    ensures c == d && x == y
  {
    assert s[0] == EscapeChar(c)[0] && t[0] == EscapeChar(d)[0];
    if |EscapeChar(c)| == 2 {
      assert s[1] == EscapeChar(c)[1];
    }
    if |EscapeChar(d)| == 2 {
      assert t[1] == EscapeChar(d)[1];
    }
    assert s[|EscapeChar(c)|..] == x && t[|EscapeChar(d)|..] == y;
  }

  function Rest(names: seq<string>, values: map<string, string>): string
    requires forall n :: n in names ==> n in values
  {
    if names == [] then "" else "," + Join(Pairs(names, values), ",")
  }

  lemma Peel(names: seq<string>, values: map<string, string>)
    requires names != [] && forall n :: n in names ==> n in values
    ensures Join(Pairs(names, values), ",") == names[0] + "=" + ("\"" + (EscapeOnce(values[names[0]]) + "\"" + Rest(names[1..], values)))
  {
    var value, rest := values[names[0]], Rest(names[1..], values);
    PairsJoin(names, values);
    PairText(names[0], value);
    hide EscapeOnce, Pair, Pairs, Join, Rest;
    Regrouped(names[0], EscapeOnce(value), rest);
  }

  lemma PairsJoin(names: seq<string>, values: map<string, string>)
    requires names != [] && forall n :: n in names ==> n in values
    ensures Join(Pairs(names, values), ",") == Pair(names[0], values[names[0]]) + Rest(names[1..], values)
  {
    hide Pair;
    assert Pairs(names, values)[1..] == Pairs(names[1..], values);
    assert Pairs(names, values)[0] == Pair(names[0], values[names[0]]);
    if |names| == 1 {
      assert Pair(names[0], values[names[0]]) + "" == Pair(names[0], values[names[0]]);
    } else {
      Assoc(Pair(names[0], values[names[0]]), ",", Join(Pairs(names[1..], values), ","));
    }
  }

  lemma PairText(name: string, value: string)
    ensures Pair(name, value) == name + "=\"" + EscapeOnce(value) + "\""
  {
    hide EscapeOnce, EscapeLabel;
    EscapesOnce(value);
  }

  lemma Regrouped(name: string, value: string, rest: string)
    ensures name + "=\"" + value + "\"" + rest == name + "=" + ("\"" + (value + "\"" + rest))
  {
    assert "=\"" == "=" + "\"";
  }

  lemma PeelBoth(a: seq<string>, va: map<string, string>, b: seq<string>, vb: map<string, string>)
    requires a != [] && b != []
    requires forall n :: n in a ==> n in va
    requires forall n :: n in b ==> n in vb
    requires PrometheusName(a[0]) && PrometheusName(b[0])
    requires Join(Pairs(a, va), ",") == Join(Pairs(b, vb), ",")
    ensures a[0] == b[0] && va[a[0]] == vb[b[0]] && Rest(a[1..], va) == Rest(b[1..], vb)
  {
    Peel(a, va);
    Peel(b, vb);
    var x, y := EscapeOnce(va[a[0]]) + "\"" + Rest(a[1..], va), EscapeOnce(vb[b[0]]) + "\"" + Rest(b[1..], vb);
    SplitAtEquals(a[0], "\"" + x, b[0], "\"" + y);
    assert ("\"" + x)[1..] == x && ("\"" + y)[1..] == y;
    SplitAtQuote(va[a[0]], Rest(a[1..], va), vb[b[0]], Rest(b[1..], vb));
  }

  lemma {:induction false} JoinDetermines(a: seq<string>, va: map<string, string>, b: seq<string>, vb: map<string, string>)
    requires forall n :: n in a ==> n in va && PrometheusName(n)
    requires forall n :: n in b ==> n in vb && PrometheusName(n)
    requires Rest(a, va) == Rest(b, vb)
    ensures a == b && forall n :: n in a ==> va[n] == vb[n]
  {
    if a != [] && b != [] {
      assert Rest(a, va)[1..] == Join(Pairs(a, va), ",") && Rest(b, vb)[1..] == Join(Pairs(b, vb), ",");
      assert a[0] in a && b[0] in b;
      PeelBoth(a, va, b, vb);
      JoinDetermines(a[1..], va, b[1..], vb);
      assert a == [a[0]] + a[1..] && b == [b[0]] + b[1..];
    }
  }

  predicate SameLabels(a: LabelSet, b: LabelSet) {
    a.values == b.values
  }

  lemma KeyDetermines(a: LabelSet, b: LabelSet)
    requires ValidLabels(a) && ValidLabels(b) && LabelKey(a) == LabelKey(b)
    ensures SameLabels(a, b)
  {
    if a.order != [] && b.order != [] {
      var s, t := Join(Pairs(SortedNames(a), a.values), ","), Join(Pairs(SortedNames(b), b.values), ",");
      assert LabelKey(a)[1..|LabelKey(a)| - 1] == s && LabelKey(b)[1..|LabelKey(b)| - 1] == t;
      JoinDetermines(SortedNames(a), a.values, SortedNames(b), b.values);
    } else {
      assert a.order == [] ==> a.values == map[];
      assert b.order == [] ==> b.values == map[];
    }
  }

  // ---- the label set determines the key ----

  lemma {:induction false} DistinctOnce(s: seq<string>, x: string)
    requires Distinct(s)
    ensures multiset(s)[x] == if x in s then 1 else 0
  {
    if s != [] {
      assert s == [s[0]] + s[1..];
      DistinctOnce(s[1..], x);
      assert s[0] !in s[1..];
    }
  }

  lemma SameNamesSameSort(a: LabelSet, b: LabelSet)
    requires ValidLabels(a) && ValidLabels(b) && SameLabels(a, b)
    ensures SortedNames(a) == SortedNames(b)
  {
    NotGreaterIsOrder();
    SortKeeps(a.order, NotGreater);
    SortKeeps(b.order, NotGreater);
    forall x ensures multiset(a.order)[x] == multiset(b.order)[x] {
      DistinctOnce(a.order, x);
      DistinctOnce(b.order, x);
    }
    assert multiset(a.order) == multiset(b.order);
    SortedUnique(SortedNames(a), SortedNames(b), NotGreater);
  }

  /** Two label objects share a series key exactly when they are the same label set: whatever the
      values hold and in whatever order the labels were written. */
  lemma KeysAgreeIff(a: LabelSet, b: LabelSet)
    requires ValidLabels(a) && ValidLabels(b)
    ensures LabelKey(a) == LabelKey(b) <==> SameLabels(a, b)
  {
    if SameLabels(a, b) {
      SameNamesSameSort(a, b);
      assert a.order == [] <==> b.order == [] by {
        assert a.order != [] ==> a.order[0] in b.values;
        assert b.order != [] ==> b.order[0] in a.values;
        assert b.order == [] ==> forall n :: n !in b.values;
        assert a.order == [] ==> forall n :: n !in a.values;
      }
    }
    if LabelKey(a) == LabelKey(b) {
      KeyDetermines(a, b);
    }
  }
}
