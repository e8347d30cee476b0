/** The dump of a value determines it: no two plain values are written alike, even in front of
    other text, so a parser that undoes the printer exists. */
module JsonUnique {
  import opened Json
  import opened Sequences
  import opened SseWire
  import T = Text

  /** A value of JSON itself: no tuple, which is written as a list, and no other object, which is written as
      its text. */
  predicate Plain(v: Json)
    decreases v
  {
    match v
    case Opaque(_) => false
    case Tuple(_) => false
    case Arr(items) => PlainItems(items)
    case Obj(fields) => PlainFields(fields)
    case _ => true
  }

  predicate PlainItems(items: seq<Json>)
    decreases items
  {
    items == [] || (Plain(items[0]) && PlainItems(items[1..]))
  }

  predicate PlainFields(fields: seq<Field>)
    decreases fields
  {
    fields == [] || (Plain(fields[0].value) && PlainFields(fields[1..]))
  }

  /** What may follow a value inside a text. */
  predicate Ends(x: string) {
    x == "" || x[0] == ',' || x[0] == ']' || x[0] == '}'
  }

  // ---- strings ----

  lemma DigitInjective(m: nat, n: nat)
    requires m < 16 && n < 16 && T.HexDigit(m) == T.HexDigit(n)
    ensures m == n
  {
  }

  lemma UnitInjective(m: nat, n: nat)
    requires m < 0x10000 && n < 0x10000 && Unit(m) == Unit(n)
    ensures m == n
  {
    var a, b := Unit(m), Unit(n);
    assert a[2] == b[2] && a[3] == b[3] && a[4] == b[4] && a[5] == b[5];
    DigitInjective(m / 4096, n / 4096);
    DigitInjective(m / 256 % 16, n / 256 % 16);
    DigitInjective(m / 16 % 16, n / 16 % 16);
    DigitInjective(m % 16, n % 16);
    Nibbles(m);
    Nibbles(n);
  }

  lemma Nibbles(n: nat)
    requires n < 0x10000
    ensures n == n / 4096 * 4096 + n / 256 % 16 * 256 + n / 16 % 16 * 16 + n % 16
  {
    assert n / 16 / 16 == n / 256 && n / 256 / 16 == n / 4096;
  }

  /** The escapes that are a backslash and one character. */
  function Short(c: char): char {
    match c
    case '"' => '"'
    case '\\' => '\\'
    case '\n' => 'n'
    case '\r' => 'r'
    case '\t' => 't'
    case '\U{8}' => 'b'
    case '\U{c}' => 'f'
    case _ => 'u'
  }

  predicate InUnits(c: char) {
    Short(c) == 'u' && !Printable(c)
  }

  lemma EscapeShape(c: char)
    ensures EscapeChar(c) != "" && EscapeChar(c)[0] != '"'
    ensures EscapeChar(c)[0] == '\\' <==> Short(c) != 'u' || !Printable(c)
    ensures EscapeChar(c)[0] != '\\' ==> EscapeChar(c) == [c]
    ensures EscapeChar(c)[0] == '\\' ==> |EscapeChar(c)| >= 2 && EscapeChar(c)[1] == Short(c)
    ensures Short(c) != 'u' ==> |EscapeChar(c)| == 2
    ensures InUnits(c) ==> EscapeChar(c) == if c as int < 0x10000 then Unit(c as int)
                                            else Unit(0xd800 + (c as int - 0x10000) / 1024) + Unit(0xdc00 + (c as int - 0x10000) % 1024)
  {
  }

  lemma ShortInjective(c: char, d: char)
    requires Short(c) == Short(d) && Short(c) != 'u'
    ensures c == d
  {
  }

  function High(c: char): nat
    requires c as int >= 0x10000
  {
    0xd800 + (c as int - 0x10000) / 1024
  }

  function Low(c: char): nat
    requires c as int >= 0x10000
  {
    0xdc00 + (c as int - 0x10000) % 1024
  }

  lemma TextSplits(a: string, b: string, x: string, y: string)
    requires a + x == b + y && |a| == |b|
    ensures a == b && x == y
  {
    assert (a + x)[..|a|] == a && (b + y)[..|b|] == b;
    assert (a + x)[|a|..] == x && (b + y)[|b|..] == y;
  }

  /** How a character starts that is written in units. */
  function Lead(c: char): nat {
    if c as int < 0x10000 then c as int else High(c)
  }

  lemma LeadUnit(c: char, x: string)
    requires InUnits(c)
    ensures var tail := if c as int < 0x10000 then "" else Unit(Low(c));
      EscapeChar(c) + x == Unit(Lead(c)) + (tail + x) && EscapeChar(c) == Unit(Lead(c)) + tail
  {
    hide Unit;
    EscapeShape(c);
    if c as int < 0x10000 {
      assert Unit(c as int) + x == Unit(c as int) + ("" + x);
    } else {
      assert Unit(High(c)) + Unit(Low(c)) + x == Unit(High(c)) + (Unit(Low(c)) + x);
    }
  }

  lemma UnitLength(n: nat)
    requires n < 0x10000
    ensures |Unit(n)| == 6
  {
  }

  lemma LeadTells(c: char, d: char)
    requires Lead(c) == Lead(d)
    ensures c as int < 0x10000 ==> c == d
    ensures c as int >= 0x10000 ==> d as int >= 0x10000 && (Low(c) == Low(d) ==> c == d)
  {
    assert !(0xd800 <= c as int < 0xe000) && !(0xd800 <= d as int < 0xe000);
  }

  /** A character outside the first plane is written as two surrogates, which no other character is. */
  lemma UnitsUnique(c: char, d: char, x: string, y: string)
    requires InUnits(c) && InUnits(d) && EscapeChar(c) + x == EscapeChar(d) + y
    ensures c == d && x == y
  {
    hide EscapeChar, Unit, InUnits;
    LeadUnit(c, x);
    LeadUnit(d, y);
    UnitLength(Lead(c));
    UnitLength(Lead(d));
    var p := if c as int < 0x10000 then "" else Unit(Low(c));
    var q := if d as int < 0x10000 then "" else Unit(Low(d));
    TextSplits(Unit(Lead(c)), Unit(Lead(d)), p + x, q + y);
    UnitInjective(Lead(c), Lead(d));
    LeadTells(c, d);
    if c as int >= 0x10000 {
      UnitLength(Low(c));
      UnitLength(Low(d));
      TextSplits(p, q, x, y);
      UnitInjective(Low(c), Low(d));
    } else {
      assert p + x == x && q + y == y;
    }
  }

  lemma EscapeCharUnique(c: char, d: char, x: string, y: string)
    requires EscapeChar(c) + x == EscapeChar(d) + y
    ensures c == d && x == y
  {
    EscapeShape(c);
    EscapeShape(d);
    hide EscapeChar;
    var s, t := EscapeChar(c) + x, EscapeChar(d) + y;
    assert s[0] == EscapeChar(c)[0] && t[0] == EscapeChar(d)[0];
    if s[0] == '\\' {
      assert s[1] == EscapeChar(c)[1] && t[1] == EscapeChar(d)[1];
      if Short(c) != 'u' {
        ShortInjective(c, d);
        assert s[2..] == x && t[2..] == y;
      } else {
        UnitsUnique(c, d, x, y);
      }
    } else {
      assert s[1..] == x && t[1..] == y;
    }
  }

  /** Escaped text never begins with a quote. */
  lemma EscapeHead(s: string, x: string)
    requires s != ""
    ensures Escape(s) + "\"" + x == EscapeChar(s[0]) + (Escape(s[1..]) + "\"" + x)
    ensures (Escape(s) + "\"" + x)[0] != '"'
  {
    hide EscapeChar;
    EscapeShape(s[0]);
    var c, rest := EscapeChar(s[0]), Escape(s[1..]);
    assert Escape(s) == c + rest;
    hide Escape;
    Assoc(c + rest, "\"", x);
    Assoc(c, rest, "\"" + x);
    Assoc(rest, "\"", x);
  }

  lemma {:induction false} EscapeUnique(s: string, t: string, x: string, y: string)
    requires Escape(s) + "\"" + x == Escape(t) + "\"" + y
    ensures s == t && x == y
  {
    if s == "" && t == "" {
      TextSplits(Escape(s) + "\"", Escape(t) + "\"", x, y);
    } else if s == "" {
      EscapeHead(t, y);
    } else if t == "" {
      EscapeHead(s, x);
    } else {
      EscapeHead(s, x);
      EscapeHead(t, y);
      hide Escape, EscapeChar;
      EscapeCharUnique(s[0], t[0], Escape(s[1..]) + "\"" + x, Escape(t[1..]) + "\"" + y);
      EscapeUnique(s[1..], t[1..], x, y);
      assert s == [s[0]] + s[1..] && t == [t[0]] + t[1..];
    }
  }

  lemma QuotedUnique(s: string, t: string, x: string, y: string)
    requires Quoted(s) + x == Quoted(t) + y
    ensures s == t && x == y
  {
    hide Escape;
    Inside("\"", Escape(s), "\"", x, Escape(t), y);
    EscapeUnique(s, t, x, y);
  }

  // ---- numbers ----

  lemma NextChar(s: string, t: string, x: string, y: string)
    requires s + x == t + y && |s| < |t|
    ensures x != "" && x[0] == t[|s|]
  {
    assert (s + x)[|s|] == (t + y)[|s|];
    assert |s + x| == |t + y|;
  }

  lemma NumeralStops(s: Numeral, t: Numeral, x: string, y: string)
    requires Ends(x) && s + x == t + y
    ensures |s| >= |t|
  {
    if |s| < |t| {
      NextChar(s, t, x, y);
    }
  }

  lemma NumeralUnique(s: Numeral, t: Numeral, x: string, y: string)
    requires Ends(x) && Ends(y) && s + x == t + y
    ensures s == t && x == y
  {
    NumeralStops(s, t, x, y);
    NumeralStops(t, s, y, x);
    TextSplits(s, t, x, y);
  }

  // ---- values ----

  datatype Kind = Nothing | Truth(b: bool) | Number | Text | List | Object | NoValue

  function KindOf(v: Json): Kind {
    match v
    case Null => Nothing
    case Bool(b) => Truth(b)
    case Num(_) => Number
    case Str(_) => Text
    case Opaque(_) => Text
    case Arr(_) => List
    case Tuple(_) => List
    case Obj(_) => Object
  }

  /** The first character tells the kind of value. */
  function KindAt(c: char): Kind {
    if c == 'n' then Nothing
    else if c == 't' then Truth(true)
    else if c == 'f' then Truth(false)
    else if c == '"' then Text
    else if c == '[' then List
    else if c == '{' then Object
    else if '0' <= c <= '9' || c == '-' || c == 'N' || c == 'I' then Number
    else NoValue
  }

  lemma HeadOf(v: Json, x: string)
    ensures Dumps(v) != "" && KindAt((Dumps(v) + x)[0]) == KindOf(v)
  {
    var d := Dumps(v);
    assert d != "" && (d + x)[0] == d[0];
  }

  /** A dump can be read off the front of any text in one way only. */
  lemma {:induction false} DumpsUnique(v: Json, w: Json, x: string, y: string)
    requires Plain(v) && Plain(w) && Ends(x) && Ends(y) && Dumps(v) + x == Dumps(w) + y
    ensures v == w && x == y
    decreases v
  {
    HeadOf(v, x);
    HeadOf(w, y);
    hide DumpsItems, DumpsFields, Escape, Ends, PlainItems, PlainFields;
    match v
    case Null => TextSplits("null", "null", x, y);
    case Bool(b) => TextSplits(Dumps(v), Dumps(v), x, y);
    case Num(s) => NumeralUnique(s, w.numeral, x, y);
    case Str(s) => QuotedUnique(s, w.s, x, y);
    case Arr(items) =>
      Inside("[", DumpsItems(items), "]", x, DumpsItems(w.items), y);
      ItemsUnique(items, w.items, x, y);
    case Obj(fields) =>
      Inside("{", DumpsFields(fields), "}", x, DumpsFields(w.fields), y);
      FieldsUnique(fields, w.fields, x, y);
  }

  lemma Inside(open: string, s: string, close: string, x: string, t: string, y: string)
    requires (open + s + close) + x == (open + t + close) + y
    ensures s + close + x == t + close + y
  {
    assert (open + s + close) + x == open + (s + close + x) && (open + t + close) + y == open + (t + close + y);
    TextSplits(open, open, s + close + x, t + close + y);
  }

  /** What follows the first item. */
  function ItemsTail(items: seq<Json>): string
    requires items != []
  {
    if |items| == 1 then "" else ", " + DumpsItems(items[1..])
  }

  lemma ItemsSplit(items: seq<Json>, x: string)
    requires items != []
    ensures DumpsItems(items) + "]" + x == Dumps(items[0]) + (ItemsTail(items) + "]" + x)
  {
    hide Dumps;
    var d, t := Dumps(items[0]), ItemsTail(items);
    if |items| > 1 {
      Assoc(d, ", ", DumpsItems(items[1..]));
    } else {
      assert d + "" == d;
    }
    assert DumpsItems(items) == d + t;
    hide DumpsItems, ItemsTail;
    Assoc(d + t, "]", x);
    Assoc(d, t, "]" + x);
    Assoc(t, "]", x);
  }

  lemma ItemsHead(items: seq<Json>, x: string)
    requires items != []
    ensures (DumpsItems(items) + "]" + x)[0] != ']'
  {
    ItemsSplit(items, x);
    hide DumpsItems, Dumps;
    HeadOf(items[0], ItemsTail(items) + "]" + x);
  }

  lemma ItemsTailHead(items: seq<Json>, x: string)
    requires items != []
    ensures var u := ItemsTail(items) + "]" + x;
      && u != "" && u[0] == (if |items| > 1 then ',' else ']')
      && (|items| > 1 ==> u == ", " + (DumpsItems(items[1..]) + "]" + x))
      && (|items| == 1 ==> u == "]" + x)
  {
    hide DumpsItems;
  }

  /** Two rests that are alike go on alike. */
  lemma ItemsTails(items: seq<Json>, elems: seq<Json>, x: string, y: string)
    requires items != [] && elems != [] && ItemsTail(items) + "]" + x == ItemsTail(elems) + "]" + y
    ensures |items| == 1 <==> |elems| == 1
    ensures |items| == 1 ==> x == y
    ensures |items| > 1 ==> DumpsItems(items[1..]) + "]" + x == DumpsItems(elems[1..]) + "]" + y
  {
    ItemsTailHead(items, x);
    ItemsTailHead(elems, y);
    hide DumpsItems, ItemsTail;
    if |items| == 1 {
      TextSplits("]", "]", x, y);
    } else {
      TextSplits(", ", ", ", DumpsItems(items[1..]) + "]" + x, DumpsItems(elems[1..]) + "]" + y);
    }
  }

  lemma ItemsTailEnds(items: seq<Json>, x: string)
    requires items != []
    ensures Ends(ItemsTail(items) + "]" + x)
  {
    hide DumpsItems;
  }

  lemma SameSeq<T>(a: seq<T>, b: seq<T>)
    requires a != [] && b != [] && a[0] == b[0] && a[1..] == b[1..]
    ensures a == b
  {
    assert a == [a[0]] + a[1..] && b == [b[0]] + b[1..];
  }

  lemma {:induction false} ItemsUnique(items: seq<Json>, elems: seq<Json>, x: string, y: string)
    requires PlainItems(items) && PlainItems(elems)
    requires DumpsItems(items) + "]" + x == DumpsItems(elems) + "]" + y
    ensures items == elems && x == y
    decreases items
  {
    if items == [] && elems == [] {
      TextSplits(DumpsItems(items) + "]", DumpsItems(elems) + "]", x, y);
    } else if items == [] {
      ItemsHead(elems, y);
    } else if elems == [] {
      ItemsHead(items, x);
    } else {
      assert Plain(items[0]) && Plain(elems[0]) && PlainItems(items[1..]) && PlainItems(elems[1..]);
      hide DumpsItems, Dumps, ItemsTail, Ends, Plain, PlainItems;
      ItemsSplit(items, x);
      ItemsSplit(elems, y);
      ItemsTailEnds(items, x);
      ItemsTailEnds(elems, y);
      DumpsUnique(items[0], elems[0], ItemsTail(items) + "]" + x, ItemsTail(elems) + "]" + y);
      ItemsTails(items, elems, x, y);
      if |items| > 1 {
        ItemsUnique(items[1..], elems[1..], x, y);
      } else {
        assert items[1..] == elems[1..];
      }
      SameSeq(items, elems);
    }
  }

  function FieldsTail(fields: seq<Field>): string
    requires fields != []
  {
    if |fields| == 1 then "" else ", " + DumpsFields(fields[1..])
  }

  lemma FieldsFirst(fields: seq<Field>)
    requires fields != []
    ensures DumpsFields(fields) == Quoted(fields[0].key) + ": " + Dumps(fields[0].value) + FieldsTail(fields)
  {
    hide Dumps, Quoted;
    if |fields| > 1 {
      Assoc(DumpsField(fields[0]), ", ", DumpsFields(fields[1..]));
    } else {
      assert DumpsField(fields[0]) + "" == DumpsField(fields[0]);
    }
  }

  lemma Regroup(q: string, c: string, d: string, t: string, e: string, x: string)
    ensures q + c + d + t + e + x == q + (c + d + (t + e + x))
  {
  }

  lemma FieldsSplit(fields: seq<Field>, x: string)
    requires fields != []
    ensures DumpsFields(fields) + "}" + x == Quoted(fields[0].key) + (": " + Dumps(fields[0].value) + (FieldsTail(fields) + "}" + x))
  {
    hide Dumps, Quoted, DumpsFields, FieldsTail;
    FieldsFirst(fields);
    Regroup(Quoted(fields[0].key), ": ", Dumps(fields[0].value), FieldsTail(fields), "}", x);
  }

  lemma FieldsHead(fields: seq<Field>, x: string)
    requires fields != []
    ensures (DumpsFields(fields) + "}" + x)[0] == '"'
  {
    FieldsSplit(fields, x);
    hide DumpsFields, Dumps;
  }

  lemma FieldsTailHead(fields: seq<Field>, x: string)
    requires fields != []
    ensures var u := FieldsTail(fields) + "}" + x;
      && u != "" && u[0] == (if |fields| > 1 then ',' else '}')
      && (|fields| > 1 ==> u == ", " + (DumpsFields(fields[1..]) + "}" + x))
      && (|fields| == 1 ==> u == "}" + x)
  {
    hide DumpsFields;
  }

  lemma FieldsTails(fields: seq<Field>, others: seq<Field>, x: string, y: string)
    requires fields != [] && others != [] && FieldsTail(fields) + "}" + x == FieldsTail(others) + "}" + y
    ensures |fields| == 1 <==> |others| == 1
    ensures |fields| == 1 ==> x == y
    ensures |fields| > 1 ==> DumpsFields(fields[1..]) + "}" + x == DumpsFields(others[1..]) + "}" + y
  {
    FieldsTailHead(fields, x);
    FieldsTailHead(others, y);
    hide DumpsFields, FieldsTail;
    if |fields| == 1 {
      TextSplits("}", "}", x, y);
    } else {
      TextSplits(", ", ", ", DumpsFields(fields[1..]) + "}" + x, DumpsFields(others[1..]) + "}" + y);
    }
  }

  lemma FieldsTailEnds(fields: seq<Field>, x: string)
    requires fields != []
    ensures Ends(FieldsTail(fields) + "}" + x)
  {
    hide DumpsFields;
  }

  lemma KeyUnique(f: Field, g: Field, x: string, y: string)
    requires Quoted(f.key) + (": " + Dumps(f.value) + x) == Quoted(g.key) + (": " + Dumps(g.value) + y)
    ensures f.key == g.key && Dumps(f.value) + x == Dumps(g.value) + y
  {
    hide Dumps, Quoted;
    QuotedUnique(f.key, g.key, ": " + Dumps(f.value) + x, ": " + Dumps(g.value) + y);
    assert ": " + Dumps(f.value) + x == ": " + (Dumps(f.value) + x) && ": " + Dumps(g.value) + y == ": " + (Dumps(g.value) + y);
    TextSplits(": ", ": ", Dumps(f.value) + x, Dumps(g.value) + y);
  }

  lemma {:induction false} FieldsUnique(fields: seq<Field>, others: seq<Field>, x: string, y: string)
    requires PlainFields(fields) && PlainFields(others)
    requires DumpsFields(fields) + "}" + x == DumpsFields(others) + "}" + y
    ensures fields == others && x == y
    decreases fields
  {
    if fields == [] && others == [] {
      TextSplits(DumpsFields(fields) + "}", DumpsFields(others) + "}", x, y);
    } else if fields == [] {
      FieldsHead(others, y);
    } else if others == [] {
      FieldsHead(fields, x);
    } else {
      assert Plain(fields[0].value) && Plain(others[0].value) && PlainFields(fields[1..]) && PlainFields(others[1..]);
      hide DumpsFields, Dumps, FieldsTail, Ends, Plain, PlainFields, Quoted;
      FieldsSplit(fields, x);
      FieldsSplit(others, y);
      FieldsTailEnds(fields, x);
      FieldsTailEnds(others, y);
      KeyUnique(fields[0], others[0], FieldsTail(fields) + "}" + x, FieldsTail(others) + "}" + y);
      DumpsUnique(fields[0].value, others[0].value, FieldsTail(fields) + "}" + x, FieldsTail(others) + "}" + y);
      FieldsTails(fields, others, x, y);
      if |fields| > 1 {
        FieldsUnique(fields[1..], others[1..], x, y);
      } else {
        assert fields[1..] == others[1..];
      }
      SameSeq(fields, others);
    }
  }

  // ---- what follows ----

  /** Plain values are equal exactly when their dumps are. */
  lemma DumpsInjective(v: Json, w: Json)
    requires Plain(v) && Plain(w)
    ensures Dumps(v) == Dumps(w) <==> v == w
  {
    if Dumps(v) == Dumps(w) {
      assert Dumps(v) + "" == Dumps(w) + "";
      DumpsUnique(v, w, "", "");
    }
  }

  /** A parser that undoes the printer on every plain value. */
  ghost predicate Decodes(parse: string -> Parsed<Json>) {
    forall v :: Plain(v) ==> parse(Dumps(v)) == Valid(v)
  }

  ghost function Decoded(text: string): Parsed<Json> {
    if v :| Plain(v) && Dumps(v) == text then Valid(v) else SyntaxError
  }

  lemma DecoderExists()
    ensures exists parse :: Decodes(parse)
  {
    var parse := (text: string) => Decoded(text);
    forall v | Plain(v) ensures parse(Dumps(v)) == Valid(v) {
      forall w | Plain(w) && Dumps(w) == Dumps(v) ensures w == v {
        DumpsInjective(v, w);
      }
    }
    assert Decodes(parse);
  }

  predicate AllPlain(events: seq<Json>) {
    forall k :: 0 <= k < |events| ==> Plain(events[k])
  }

  /** So the stream a browser reads is decodable: whatever parser undoes the printer reads the events
      back from any chunks, and only one list of plain events is printed as a given stream. */
  lemma StreamDecodes(events: seq<Json>, others: seq<Json>, chunks: seq<string>)
    requires AllPlain(events) && AllPlain(others) && Concat(chunks) == Print(events)
    ensures forall parse :: Decodes(parse) ==> Deliver(Frames(Concat(chunks)), parse) == Delivery(YieldAll(events), false)
    ensures Print(others) == Print(events) <==> others == events
  {
    forall parse | Decodes(parse) ensures Deliver(Frames(Concat(chunks)), parse) == Delivery(YieldAll(events), false) {
      WireRoundTrip(events, chunks, parse);
    }
    if Print(others) == Print(events) {
      DecoderExists();
      var parse :| Decodes(parse);
      WireRoundTrip(others, chunks, parse);
      YieldsTell(events, others);
    }
  }

  lemma YieldsTell(a: seq<Json>, b: seq<Json>)
    requires YieldAll(a) == YieldAll(b)
    ensures a == b
  {
    assert |a| == |YieldAll(a)| && |b| == |YieldAll(b)|;
    forall k | 0 <= k < |a| ensures a[k] == b[k] {
      assert YieldAll(a)[k] == Yielded(a[k]) && YieldAll(b)[k] == Yielded(b[k]);
    }
  }
}
