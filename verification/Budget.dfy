/** The hard character budget on every tool result: a recursive clip of long strings, and a
    collapse into one clipped string that must converge past JSON re-escaping. */
module Budget {
  import opened Json

  const BUDGETS: map<string, nat> :=
    map["kubectl_read" := 8000, "gitea_compare" := 12000, "runbook_lookup" := 12000, "deploy_history" := 10000]
  const DEFAULT_TOOL_BUDGET := 6000
  const COLLAPSE_ALLOWANCE := 200
  const MARKER_HEAD := " (truncated - result "
  const MARKER_TAIL := "exceeded the tool budget)"
  const MARKER := MARKER_HEAD + MARKER_TAIL

  function BudgetOf(tool: string): (limit: nat)
    ensures 6000 <= limit <= 12000
  {
    if tool in BUDGETS then BUDGETS[tool] else DEFAULT_TOOL_BUDGET
  }

  function Decimal(n: nat): string {
    if n < 10 then ["0123456789"[n]] else Decimal(n / 10) + ["0123456789"[n % 10]]
  }

  function ClipString(s: string, limit: nat): string {
    if |s| > limit then s[..limit] + "\U{2026} (+" + Decimal(|s| - limit) + " chars truncated)" else s
  }

  /** The value with every string clipped to `limit` characters and a notice. Keys, tuples and
      other values are left alone. */
  function Clip(v: Json, limit: nat): Json {
    match v
    case Str(s) => Str(ClipString(s, limit))
    case Arr(items) => Arr(ClipItems(items, limit))
    case Obj(fields) => Obj(ClipFields(fields, limit))
    case _ => v
  }

  function ClipItems(items: seq<Json>, limit: nat): seq<Json> {
    if items == [] then [] else [Clip(items[0], limit)] + ClipItems(items[1..], limit)
  }

  function ClipFields(fields: seq<Field>, limit: nat): seq<Field> {
    if fields == [] then []
    else [Field(fields[0].key, Clip(fields[0].value, limit))] + ClipFields(fields[1..], limit)
  }

  /** Whether some string that `Clip` reaches is longer than the limit. */
  predicate HasLong(v: Json, limit: nat) {
    match v
    case Str(s) => |s| > limit
    case Arr(items) => exists k :: 0 <= k < |items| && HasLong(items[k], limit)
    case Obj(fields) => exists k :: 0 <= k < |fields| && HasLong(fields[k].value, limit)
    case _ => false
  }

  lemma {:induction false} ClipItemsAt(items: seq<Json>, limit: nat, k: nat)
    requires k <= |items|
    ensures |ClipItems(items, limit)| == |items|
    ensures k < |items| ==> ClipItems(items, limit)[k] == Clip(items[k], limit)
  {
    if items != [] {
      ClipItemsAt(items[1..], limit, if k > 0 then k - 1 else 0);
    }
  }

  lemma {:induction false} ClipFieldsAt(fields: seq<Field>, limit: nat, k: nat)
    requires k <= |fields|
    ensures |ClipFields(fields, limit)| == |fields|
    ensures k < |fields| ==> ClipFields(fields, limit)[k] == Field(fields[k].key, Clip(fields[k].value, limit))
  {
    if fields != [] {
      ClipFieldsAt(fields[1..], limit, if k > 0 then k - 1 else 0);
    }
  }

  lemma PrefixTail<T>(s: seq<T>, k: nat)
    requires 0 < k <= |s|
    ensures s[..k][1..] == s[1..][..k - 1]
  {
  }

  lemma {:induction false} ClipFieldsStep(fields: seq<Field>, limit: nat, k: nat)
    requires k < |fields|
    ensures ClipFields(fields[..k + 1], limit) ==
            ClipFields(fields[..k], limit) + [Field(fields[k].key, Clip(fields[k].value, limit))]
  {
    if k > 0 {
      ClipFieldsStep(fields[1..], limit, k - 1);
      PrefixTail(fields, k + 1);
      PrefixTail(fields, k);
    }
  }

  lemma {:induction false} ClipItemsStep(items: seq<Json>, limit: nat, k: nat)
    requires k < |items|
    ensures ClipItems(items[..k + 1], limit) == ClipItems(items[..k], limit) + [Clip(items[k], limit)]
  {
    if k > 0 {
      ClipItemsStep(items[1..], limit, k - 1);
      PrefixTail(items, k + 1);
      PrefixTail(items, k);
    }
  }

  // ---- what the clip keeps ----

  /** What a decimal text denotes. */
  function Denoted(digits: string): nat {
    if digits == "" then 0
    else
      var c := digits[|digits| - 1];
      Denoted(digits[..|digits| - 1]) * 10 + (if '0' <= c <= '9' then c as nat - '0' as nat else 0)
  }

  predicate Digit(c: char) { '0' <= c <= '9' }

  /** Decimal digits without a leading zero, and the number they denote. */
  predicate Writes(digits: string, n: nat) {
    && digits != "" && (forall c :: c in digits ==> Digit(c)) && (|digits| > 1 ==> digits[0] != '0')
    && Denoted(digits) == n
  }

  lemma DigitsSnoc(init: string, c: char)
    requires (forall d :: d in init ==> Digit(d)) && Digit(c)
    ensures (forall d :: d in init + [c] ==> Digit(d)) && (init != "" ==> (init + [c])[0] == init[0])
    ensures Denoted(init + [c]) == Denoted(init) * 10 + (c as nat - '0' as nat)
  {
    assert (init + [c])[..|init|] == init;
  }

  lemma {:induction false} DecimalWrites(n: nat)
    ensures Writes(Decimal(n), n) && (n > 0 ==> Decimal(n)[0] != '0')
  {
    var c := "0123456789"[n % 10];
    assert Digit(c) && c as nat == '0' as nat + n % 10;
    if n < 10 {
      assert Decimal(n) == [c] && "" + [c] == [c] && Denoted("") == 0;
      DigitsSnoc("", c);
    } else {
      DecimalWrites(n / 10);
      assert Decimal(n) == Decimal(n / 10) + [c];
      hide Decimal, Digit;
      DigitsSnoc(Decimal(n / 10), c);
    }
  }

  /** The notice that `n` characters are missing. */
  ghost predicate Notice(text: string, n: nat) {
    exists digits :: Writes(digits, n) && text == "\U{2026} (+" + digits + " chars truncated)"
  }

  /** The same value, but that each string over the limit keeps its first `limit` characters only and
      says how many it lost. */
  ghost predicate Shortened(v: Json, out: Json, limit: nat)
    decreases v
  {
    match v
    case Str(s) =>
      && out.Str?
      && if |s| <= limit then out.s == s
         else |out.s| >= limit && out.s[..limit] == s[..limit] && Notice(out.s[limit..], |s| - limit)
    case Arr(items) =>
      && out.Arr? && |out.items| == |items|
      && forall k :: 0 <= k < |items| ==> Shortened(items[k], out.items[k], limit)
    case Obj(fields) =>
      && out.Obj? && |out.fields| == |fields|
      && forall k :: 0 <= k < |fields| ==>
           out.fields[k].key == fields[k].key && Shortened(fields[k].value, out.fields[k].value, limit)
    case _ => out == v
  }

  lemma Follows(a: string, b: string, c: string, d: string)
    ensures var out := a + b + c + d; out[..|a|] == a && out[|a|..] == b + c + d
  {
  }

  lemma ClippedString(s: string, limit: nat)
    ensures Shortened(Str(s), Str(ClipString(s, limit)), limit)
  {
    if |s| > limit {
      DecimalWrites(|s| - limit);
      hide Writes, Decimal;
      Follows(s[..limit], "\U{2026} (+", Decimal(|s| - limit), " chars truncated)");
      assert Notice(ClipString(s, limit)[limit..], |s| - limit);
    }
  }

  /** So the clip of any value, at every depth. */
  lemma {:induction false} ClipKeeps(v: Json, limit: nat)
    ensures Shortened(v, Clip(v, limit), limit)
    decreases v
  {
    match v
    case Str(s) => ClippedString(s, limit);
    case Arr(items) =>
      ClipItemsAt(items, limit, 0);
      forall k | 0 <= k < |items| ensures Shortened(items[k], ClipItems(items, limit)[k], limit) {
        ClipItemsAt(items, limit, k);
        ClipKeeps(items[k], limit);
      }
    case Obj(fields) =>
      ClipFieldsAt(fields, limit, 0);
      forall k | 0 <= k < |fields|
        ensures ClipFields(fields, limit)[k].key == fields[k].key
        ensures Shortened(fields[k].value, ClipFields(fields, limit)[k].value, limit)
      {
        ClipFieldsAt(fields, limit, k);
        ClipKeeps(fields[k].value, limit);
      }
    case _ =>
  }

  ghost predicate LongField(fields: seq<Field>, k: nat, limit: nat)
    requires k <= |fields|
  {
    exists j :: 0 <= j < k && HasLong(fields[j].value, limit)
  }

  ghost predicate LongItem(items: seq<Json>, k: nat, limit: nat)
    requires k <= |items|
  {
    exists j :: 0 <= j < k && HasLong(items[j], limit)
  }

  lemma LongStep(fields: seq<Field>, items: seq<Json>, k: nat, limit: nat)
    ensures k < |fields| ==> (LongField(fields, k + 1, limit) <==> LongField(fields, k, limit) || HasLong(fields[k].value, limit))
    ensures k < |items| ==> (LongItem(items, k + 1, limit) <==> LongItem(items, k, limit) || HasLong(items[k], limit))
  {
  }

  /** The recursive clip; its two loops fill a local container each. */
  method TruncateStrings(v: Json, limit: nat) returns (out: Json, clipped: bool)
    ensures out == Clip(v, limit) && clipped == HasLong(v, limit)
    ensures Shortened(v, out, limit)
    decreases v
  {
    ClipKeeps(v, limit);
    hide Shortened;
    match v
    case Str(s) =>
      return Str(ClipString(s, limit)), |s| > limit;
    case Obj(fields) =>
      var shaped, c := TruncateFields(fields, limit);
      return Obj(shaped), c;
    case Arr(items) =>
      var shaped, c := TruncateItems(items, limit);
      return Arr(shaped), c;
    case _ =>
      return v, false;
  }

  method TruncateFields(fields: seq<Field>, limit: nat) returns (out: seq<Field>, clipped: bool)
    ensures out == ClipFields(fields, limit)
    ensures clipped <==> LongField(fields, |fields|, limit)
    decreases fields
  {
    out, clipped := [], false;
    for k := 0 to |fields|
      invariant out == ClipFields(fields[..k], limit)
      invariant clipped <==> LongField(fields, k, limit)
    {
      var shaped, c := TruncateStrings(fields[k].value, limit);
      ClipFieldsStep(fields, limit, k);
      LongStep(fields, [], k, limit);
      out := out + [Field(fields[k].key, shaped)];
      clipped := clipped || c;
    }
    assert fields[..|fields|] == fields;
  }

  method TruncateItems(items: seq<Json>, limit: nat) returns (out: seq<Json>, clipped: bool)
    ensures out == ClipItems(items, limit)
    ensures clipped <==> LongItem(items, |items|, limit)
    decreases items
  {
    out, clipped := [], false;
    for k := 0 to |items|
      invariant out == ClipItems(items[..k], limit)
      invariant clipped <==> LongItem(items, k, limit)
    {
      var shaped, c := TruncateStrings(items[k], limit);
      ClipItemsStep(items, limit, k);
      LongStep([], items, k, limit);
      out := out + [shaped];
      clipped := clipped || c;
    }
    assert items[..|items|] == items;
  }

  // ---- what the clip leaves alone ----

  lemma {:induction false} ClipOnlyLong(v: Json, limit: nat)
    requires !HasLong(v, limit)
    ensures Clip(v, limit) == v
    decreases v
  {
    match v
    case Arr(items) =>
      forall k | 0 <= k < |items| ensures |ClipItems(items, limit)| == |items| && ClipItems(items, limit)[k] == items[k] {
        ClipItemsAt(items, limit, k);
        ClipOnlyLong(items[k], limit);
      }
      ClipItemsAt(items, limit, 0);
      assert ClipItems(items, limit) == items;
    case Obj(fields) =>
      forall k | 0 <= k < |fields| ensures |ClipFields(fields, limit)| == |fields| && ClipFields(fields, limit)[k] == fields[k] {
        ClipFieldsAt(fields, limit, k);
        ClipOnlyLong(fields[k].value, limit);
      }
      ClipFieldsAt(fields, limit, 0);
      assert ClipFields(fields, limit) == fields;
    case _ =>
  }

  /** A value whose whole JSON form fits has no string over the limit. */
  lemma {:induction false} FittingHasNoLong(v: Json, limit: nat)
    requires |Dumps(v)| <= limit
    ensures !HasLong(v, limit)
    decreases v
  {
    match v
    case Str(s) => EscapePrintable(s);
    case Arr(items) =>
      forall k | 0 <= k < |items| ensures !HasLong(items[k], limit) {
        ItemWithin(items, k);
        FittingHasNoLong(items[k], limit);
      }
    case Obj(fields) =>
      forall k | 0 <= k < |fields| ensures !HasLong(fields[k].value, limit) {
        FieldWithin(fields, k);
        FittingHasNoLong(fields[k].value, limit);
      }
    case _ =>
  }

  lemma {:induction false} ItemWithin(items: seq<Json>, k: nat)
    requires k < |items|
    ensures |Dumps(items[k])| <= |DumpsItems(items)|
  {
    if k > 0 {
      ItemWithin(items[1..], k - 1);
    }
  }

  lemma {:induction false} FieldWithin(fields: seq<Field>, k: nat)
    requires k < |fields|
    ensures |Dumps(fields[k].value)| <= |DumpsFields(fields)|
  {
    if k > 0 {
      FieldWithin(fields[1..], k - 1);
    }
  }

  // ---- adding the flag ----

  function SetFlag(fields: seq<Field>): seq<Field> {
    if fields == [] then [Field("truncated", Bool(true))]
    else if fields[0].key == "truncated" then [Field("truncated", Bool(true))] + fields[1..]
    else [fields[0]] + SetFlag(fields[1..])
  }

  predicate Plain(c: char) { Printable(c) && c != '"' && c != '\\' }

  lemma PlainKept(c: char)
    ensures Plain(c) ==> EscapeChar(c) == [c]
  {
  }

  lemma {:induction false} EscapePlain(s: string)
    requires forall c :: c in s ==> Plain(c)
    ensures Escape(s) == s
  {
    if s != "" {
      assert forall c :: c in s[1..] ==> c in s;
      PlainKept(s[0]);
      assert s[0] in s && s == [s[0]] + s[1..];
      EscapePlain(s[1..]);
    }
  }

  lemma FlagText()
    ensures |DumpsField(Field("truncated", Bool(true)))| == 17
  {
    EscapePlain("truncated");
  }

  lemma ConsText(f: Field, fields: seq<Field>)
    ensures |DumpsFields([f] + fields)| == |DumpsField(f)| + |DumpsFields(fields)| + if fields == [] then 0 else 2
  {
    hide DumpsField;
    assert ([f] + fields)[1..] == fields;
  }

  lemma FlaggedText(f: Field)
    requires f.key == "truncated"
    ensures |DumpsField(f)| >= 14
  {
    EscapePlain("truncated");
    DumpsPrintable(f.value);
    hide Dumps, Escape;
  }

  /** Setting the flag replaces the field of that key, adds one, or works on the fields after the first. */
  lemma SetFlagShape(fields: seq<Field>)
    requires fields != []
    ensures fields == [fields[0]] + fields[1..]
    ensures SetFlag(fields) == if fields[0].key == "truncated" then [Field("truncated", Bool(true))] + fields[1..]
                               else [fields[0]] + SetFlag(fields[1..])
  {
  }

  lemma OnlyFlag(f: Field)
    ensures SetFlag([]) == [Field("truncated", Bool(true))] && DumpsFields([f]) == DumpsField(f) && DumpsFields([]) == ""
  {
    hide DumpsField;
  }

  /** The flag costs at most nineteen characters. */
  lemma {:induction false} FlagCost(fields: seq<Field>)
    ensures |DumpsFields(SetFlag(fields))| <= |DumpsFields(fields)| + 19
  {
    var flag := Field("truncated", Bool(true));
    FlagText();
    hide DumpsField, DumpsFields, SetFlag;
    OnlyFlag(flag);
    if fields != [] {
      SetFlagShape(fields);
      ConsText(fields[0], fields[1..]);
      if fields[0].key == "truncated" {
        FlaggedText(fields[0]);
        ConsText(flag, fields[1..]);
      } else {
        FlagCost(fields[1..]);
        ConsText(fields[0], SetFlag(fields[1..]));
      }
    }
  }

  // ---- the collapse ----

  function Candidate(serialized: string, keep: nat): Json
    requires keep <= |serialized|
  {
    Obj([Field("result", Str(serialized[..keep] + MARKER)), Field("truncated", Bool(true))])
  }

  lemma {:induction false} EscapeAppend(a: string, b: string)
    ensures Escape(a + b) == Escape(a) + Escape(b)
  {
    if a == "" {
      assert a + b == b;
    } else {
      assert (a + b)[1..] == a[1..] + b;
      EscapeAppend(a[1..], b);
    }
  }

  lemma ResultText(s: string)
    ensures |DumpsField(Field("result", Str(s)))| == |Escape(s)| + 12
  {
    EscapePlain("result");
  }

  lemma MarkerHeadPlain()
    ensures Escape(MARKER_HEAD) == MARKER_HEAD && |MARKER_HEAD| == 21
  {
    EscapePlain(MARKER_HEAD);
  }

  lemma MarkerTailPlain()
    ensures Escape(MARKER_TAIL) == MARKER_TAIL && |MARKER_TAIL| == 25
  {
    EscapePlain(MARKER_TAIL);
  }

  lemma MarkerPlain()
    ensures |Escape(MARKER)| == 46
  {
    MarkerHeadPlain();
    MarkerTailPlain();
    EscapeAppend(MARKER_HEAD, MARKER_TAIL);
  }

  lemma TwoFields(f: Field, g: Field)
    ensures DumpsFields([f, g]) == DumpsField(f) + ", " + DumpsField(g)
  {
    assert [f, g][1..] == [g];
  }

  /** Re-serialising costs 79 characters besides the escaped prefix. */
  lemma CandidateSize(serialized: string, keep: nat)
    requires keep <= |serialized|
    ensures |Dumps(Candidate(serialized, keep))| == |Escape(serialized[..keep])| + 79
  {
    var text := serialized[..keep] + MARKER;
    EscapeAppend(serialized[..keep], MARKER);
    MarkerPlain();
    ResultText(text);
    FlagText();
    TwoFields(Field("result", Str(text)), Field("truncated", Bool(true)));
  }

  /** Dropping characters drops at least as many escaped ones, so one correction is enough. */
  lemma PrefixShrinks(s: string, a: nat, b: nat)
    requires a <= b <= |s|
    ensures |Escape(s[..a])| + (b - a) <= |Escape(s[..b])|
  {
    assert s[..b] == s[..a] + s[a..b];
    EscapeAppend(s[..a], s[a..b]);
    EscapePrintable(s[a..b]);
  }

  /** Where the loop settles: what the first pass overshoots by is taken off. */
  function Kept(serialized: string, limit: nat): nat
    requires limit <= |serialized|
  {
    var overshoot := |Dumps(Candidate(serialized, limit))| - limit;
    if overshoot >= limit then 0 else if overshoot <= 0 then limit else limit - overshoot
  }

  /** The collapse always fits, and always cuts. */
  lemma CollapseFits(serialized: string, limit: nat)
    requires 79 <= limit <= |serialized|
    ensures |Dumps(Candidate(serialized, limit))| > limit
    ensures Kept(serialized, limit) < limit
    ensures |Dumps(Candidate(serialized, Kept(serialized, limit)))| <= limit
  {
    var keep := Kept(serialized, limit);
    CandidateSize(serialized, limit);
    CandidateSize(serialized, keep);
    EscapePrintable(serialized[..limit]);
    PrefixShrinks(serialized, keep, limit);
  }

  /** How many characters of a text JSON writes with a backslash before them. */
  function Quotes(text: string): nat {
    if text == "" then 0 else (if text[0] == '"' || text[0] == '\\' then 1 else 0) + Quotes(text[1..])
  }

  lemma EscapeOne(c: char)
    requires Printable(c)
    ensures |EscapeChar(c)| == if c == '"' || c == '\\' then 2 else 1
  {
  }

  lemma {:induction false} EscapeCounts(s: string)
    requires AllPrintable(s)
    ensures |Escape(s)| == |s| + Quotes(s)
  {
    if s != "" {
      EscapeOne(s[0]);
      hide EscapeChar;
      EscapeCounts(s[1..]);
    }
  }

  /** Of a printable text the collapse keeps `limit - 79` characters, less one for every quote and
      backslash among the first `limit`. */
  lemma KeptLength(serialized: string, limit: nat)
    requires limit <= |serialized| && AllPrintable(serialized)
    ensures var cut := limit - 79 - Quotes(serialized[..limit]);
      Kept(serialized, limit) == if cut > 0 && limit > 0 then cut else 0
  {
    CandidateSize(serialized, limit);
    EscapeCounts(serialized[..limit]);
    hide Candidate;
  }

  function Enforced(limit: nat, payload: Json): Json
    requires limit >= 79
  {
    if !payload.Obj? then payload
    else
      var shaped := Clip(payload, limit);
      var serialized := Dumps(shaped);
      if |serialized| > limit + COLLAPSE_ALLOWANCE then Candidate(serialized, Kept(serialized, limit))
      else if HasLong(payload, limit) then Obj(SetFlag(shaped.fields))
      else shaped
  }

  /** `passes` counts the convergence loop's iterations: none without a collapse, else always two,
      so the loop's fallback after four passes is never reached. */
  method EnforceBudget(tool: string, payload: Json) returns (result: Json, passes: nat)
    ensures result == Enforced(BudgetOf(tool), payload)
    ensures payload.Obj? && passes == 0 ==> Holds(payload.fields, result, BudgetOf(tool))
    ensures payload.Obj? && passes > 0 ==>
      exists shaped :: Shortened(payload, shaped, BudgetOf(tool)) && Collapsed(result, Dumps(shaped), BudgetOf(tool))
    ensures passes == if payload.Obj? && |Dumps(Clip(payload, BudgetOf(tool)))| > BudgetOf(tool) + COLLAPSE_ALLOWANCE then 2 else 0
  {
    passes := 0;
    if !payload.Obj? {
      return payload, 0;
    }
    hide Shortened, Holds, Collapsed;
    var limit := BudgetOf(tool);
    var shaped, clipped := TruncateStrings(payload, limit);
    var serialized := Dumps(shaped);
    if |serialized| <= limit + COLLAPSE_ALLOWANCE {
      ResultHolds(limit, payload);
    }
    if |serialized| > limit + COLLAPSE_ALLOWANCE {
      CollapseHolds(limit, payload);
      CollapseFits(serialized, limit);
      var keep: nat := limit;
      while passes < 4
        invariant 0 <= passes <= 1
        invariant keep == if passes == 0 then limit else Kept(serialized, limit)
      {
        var candidate := Candidate(serialized, keep);
        var overshoot := |Dumps(candidate)| - limit;
        passes := passes + 1;
        if overshoot <= 0 || keep <= 0 {
          return candidate, passes;
        }
        keep := if keep - overshoot < 0 then 0 else keep - overshoot;
      }
      assert false;
    }
    result := if clipped then Obj(SetFlag(shaped.fields)) else shaped;
  }

  // ---- what a result still holds ----

  /** Apart from the flag every field is there, under its key and in its place, and only shortened. */
  ghost predicate Holds(fields: seq<Field>, result: Json, limit: nat) {
    && result.Obj? && |fields| <= |result.fields| <= |fields| + 1
    && (forall k :: 0 <= k < |fields| && fields[k].key != "truncated" ==>
          result.fields[k].key == fields[k].key && Shortened(fields[k].value, result.fields[k].value, limit))
    && (|result.fields| > |fields| ==> result.fields[|fields|] == Field("truncated", Bool(true)))
  }

  lemma {:induction false} FlagKeeps(fields: seq<Field>, k: nat)
    requires k <= |fields|
    ensures |fields| <= |SetFlag(fields)| <= |fields| + 1
    ensures k < |fields| && fields[k].key != "truncated" ==> SetFlag(fields)[k] == fields[k]
    ensures |SetFlag(fields)| > |fields| ==> SetFlag(fields)[|fields|] == Field("truncated", Bool(true))
  {
    if fields != [] && fields[0].key != "truncated" {
      FlagKeeps(fields[1..], if k > 0 then k - 1 else 0);
    }
  }

  /** A result that was not collapsed. */
  lemma ResultHolds(limit: nat, payload: Json)
    requires limit >= 79 && payload.Obj? && |Dumps(Clip(payload, limit))| <= limit + 200
    ensures Holds(payload.fields, Enforced(limit, payload), limit)
  {
    var shaped := Clip(payload, limit);
    ClipKeeps(payload, limit);
    hide Dumps, SetFlag, Clip;
    FlagKeeps(shaped.fields, 0);
    forall k | 0 <= k < |payload.fields| && payload.fields[k].key != "truncated"
      ensures SetFlag(shaped.fields)[k] == shaped.fields[k]
    {
      FlagKeeps(shaped.fields, k);
    }
  }

  /** A prefix of the text, `limit - 79` characters long less one for every quote and backslash among
      the text's first `limit`, then the marker, then the flag. */
  ghost predicate Collapsed(result: Json, text: string, limit: nat) {
    && |text| > limit + 200
    && var cut := limit - 79 - Quotes(text[..limit]);
       result == Obj([
         Field("result", Str(text[..if cut > 0 then cut else 0] + " (truncated - result exceeded the tool budget)")),
         Field("truncated", Bool(true))])
  }

  /** A result that was collapsed. */
  lemma CollapseHolds(limit: nat, payload: Json)
    requires limit >= 79 && payload.Obj? && |Dumps(Clip(payload, limit))| > limit + 200
    ensures Collapsed(Enforced(limit, payload), Dumps(Clip(payload, limit)), limit)
  {
    var text := Dumps(Clip(payload, limit));
    DumpsPrintable(Clip(payload, limit));
    hide Dumps, Clip, Quotes;
    KeptLength(text, limit);
    assert MARKER == " (truncated - result exceeded the tool budget)";
  }

  lemma ThousandWritten()
    ensures Decimal(1000) == "1000"
  {
    assert Decimal(1) == "1" && Decimal(10) == "10" && Decimal(100) == "100";
  }

  lemma NoticeEnds()
    ensures Escape(" (+") == " (+" && Escape("1000") == "1000" && Escape(" chars truncated)") == " chars truncated)"
  {
    EscapePlain(" (+");
    EscapePlain("1000");
    EscapePlain(" chars truncated)");
  }

  lemma Ellipsis()
    ensures |Escape("\U{2026} (+")| == 9
  {
    assert "\U{2026} (+"[1..] == " (+";
    NoticeEnds();
    UnitPrintable(0x2026);
  }

  lemma NoticeText(kept: string)
    requires Escape(kept) == kept
    ensures |Escape(kept + "\U{2026} (+" + "1000" + " chars truncated)")| == |kept| + 30
  {
    Ellipsis();
    NoticeEnds();
    hide Escape;
    EscapeAppend(kept, "\U{2026} (+");
    EscapeAppend(kept + "\U{2026} (+", "1000");
    EscapeAppend(kept + "\U{2026} (+" + "1000", " chars truncated)");
  }

  lemma OneField(s: string)
    ensures |Dumps(Obj([Field("output", Str(s))]))| == |Escape(s)| + 14
  {
    var f := Field("output", Str(s));
    EscapePlain("output");
    assert |DumpsField(f)| == |Escape(s)| + 12;
    OnlyFlag(f);
    hide DumpsField, DumpsFields;
  }

  lemma ClipOne(s: string, limit: nat)
    ensures Clip(Obj([Field("output", Str(s))]), limit) == Obj([Field("output", Str(ClipString(s, limit)))])
    ensures SetFlag([Field("output", Str(s))]) == [Field("output", Str(s)), Field("truncated", Bool(true))]
  {
    hide ClipString;
    var f := Field("output", Str(s));
    assert [f][1..] == [];
    assert ClipFields([f], limit) == [Field("output", Clip(Str(s), limit))] + ClipFields([], limit);
    OnlyFlag(f);
    SetFlagShape([f]);
  }

  /** For example nine thousand plain characters of output: the first eight thousand are kept. */
  lemma LongOutputClipped(s: string)
    requires |s| == 9000 && forall c :: c in s ==> Plain(c)
    ensures var notice := "\U{2026} (+" + "1000" + " chars truncated)";
      Enforced(BudgetOf("kubectl_read"), Obj([Field("output", Str(s))])) ==
      Obj([Field("output", Str(s[..8000] + notice)), Field("truncated", Bool(true))])
  {
    var out := s[..8000] + "\U{2026} (+" + "1000" + " chars truncated)";
    ThousandWritten();
    assert forall c :: c in s[..8000] ==> c in s;
    EscapePlain(s[..8000]);
    NoticeText(s[..8000]);
    assert ClipString(s, 8000) == out;
    Follows(s[..8000], "\U{2026} (+", "1000", " chars truncated)");
    assert out == out[..8000] + out[8000..];
    hide ClipString, Escape, Decimal, Plain;
    ClipOne(s, 8000);
    ClipOne(out, 8000);
    OneField(out);
    assert HasLong(Obj([Field("output", Str(s))]), 8000) by {
      assert HasLong([Field("output", Str(s))][0].value, 8000);
    }
    hide Dumps, Clip, SetFlag, HasLong;
    ToolBudgets("kubectl_read");
  }

  /** The budgets, by tool. */
  lemma ToolBudgets(tool: string)
    ensures BudgetOf("kubectl_read") == 8000 && BudgetOf("gitea_compare") == 12000
    ensures BudgetOf("runbook_lookup") == 12000 && BudgetOf("deploy_history") == 10000
    ensures tool !in {"kubectl_read", "gitea_compare", "runbook_lookup", "deploy_history"} ==> BudgetOf(tool) == 6000
  {
  }

  // ---- the guarantees ----

  /** Whatever comes in, an object's JSON form leaves at most 219 characters over budget; the
      collapse path is within budget. */
  lemma BudgetHolds(limit: nat, payload: Json)
    requires limit >= 79 && payload.Obj?
    ensures |Dumps(Enforced(limit, payload))| <= limit + 219
    ensures |Dumps(Clip(payload, limit))| > limit + COLLAPSE_ALLOWANCE ==> |Dumps(Enforced(limit, payload))| <= limit
  {
    var serialized := Dumps(Clip(payload, limit));
    if |serialized| > limit + COLLAPSE_ALLOWANCE {
      CollapseFits(serialized, limit);
    } else if HasLong(payload, limit) {
      FlagCost(Clip(payload, limit).fields);
    }
  }

  /** A payload within budget comes back unchanged; so does one at most 200 over it, as long as
      none of its strings is over the budget by itself. */
  lemma WithinBudgetUnchanged(limit: nat, payload: Json)
    requires limit >= 79
    requires |Dumps(payload)| <= limit || (!HasLong(payload, limit) && |Dumps(payload)| <= limit + COLLAPSE_ALLOWANCE)
    ensures Enforced(limit, payload) == payload
  {
    if |Dumps(payload)| <= limit {
      FittingHasNoLong(payload, limit);
    }
    ClipOnlyLong(payload, limit);
  }

  /** Everything else is flagged: a clipped or collapsed result says so. */
  lemma ClippedIsFlagged(limit: nat, payload: Json)
    requires limit >= 79 && payload.Obj?
    requires HasLong(payload, limit) || |Dumps(payload)| > limit + COLLAPSE_ALLOWANCE
    ensures Enforced(limit, payload).Obj? && Field("truncated", Bool(true)) in Enforced(limit, payload).fields
  {
    if !HasLong(payload, limit) {
      ClipOnlyLong(payload, limit);
    } else if |Dumps(Clip(payload, limit))| <= limit + COLLAPSE_ALLOWANCE {
      FlagSet(Clip(payload, limit).fields);
    }
  }

  lemma {:induction false} FlagSet(fields: seq<Field>)
    ensures Field("truncated", Bool(true)) in SetFlag(fields)
  {
    if fields != [] && fields[0].key != "truncated" {
      FlagSet(fields[1..]);
    }
  }
}
