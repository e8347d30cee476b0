/** The ways runbooks lay their metadata out, and what the parser makes of them. */
module RunbookLayouts {
  import opened Frontmatter
  import opened Options
  import opened RunbookText
  import opened Sequences
  import opened Text

  // ---- what a runbook may hold ----

  predicate Identifier(k: string) {
    k != "" && IsIdentStart(k[0]) && forall c :: c in k ==> IsIdent(c)
  }

  datatype Quote = Bare | Quoted(q: char)
  datatype Item = Item(text: string, quote: Quote)

  function Write(x: Item): string {
    match x.quote
    case Bare => x.text
    case Quoted(q) => [q] + x.text + [q]
  }

  /** A bare text needs no quotes; a quoted one may be any line. */
  predicate Plain(x: Item) {
    && OneLine(x.text)
    && match x.quote
       case Bare => Trimmed(x.text) && Unquote(x.text) == x.text
       case Quoted(q) => q == '"' || q == '\''
  }

  /** One place between commas; without an item it is left out, as after a trailing comma. */
  datatype Cell = Cell(left: string, item: Option<Item>, right: string)

  predicate CellOk(c: Cell) {
    && Pad(c.left) && Pad(c.right)
    && (c.item.Some? ==> Plain(c.item.value) && ',' !in c.item.value.text && ']' !in c.item.value.text)
  }

  predicate CellsOk(cells: seq<Cell>) {
    forall k :: 0 <= k < |cells| ==> CellOk(cells[k])
  }

  function CellText(c: Cell): string {
    c.left + (if c.item.Some? then Write(c.item.value) else "") + c.right
  }

  function CellsText(cells: seq<Cell>): string {
    if cells == [] then ""
    else if |cells| == 1 then CellText(cells[0])
    else CellText(cells[0]) + "," + CellsText(cells[1..])
  }

  function Texts(cells: seq<Cell>): seq<string> {
    if cells == [] then []
    else (if cells[0].item.Some? then [cells[0].item.value.text] else []) + Texts(cells[1..])
  }

  /** One line of a bracketed list: any number of items, any indentation. */
  datatype Row = Row(indent: string, cells: seq<Cell>, trail: string)

  function RowLine(r: Row, first: bool, last: bool): string {
    r.indent + ((if first then "[" else "") + CellsText(r.cells) + (if last then "]" else "")) + r.trail
  }

  /** A line of a list that goes on ends with a comma or holds nothing. */
  predicate RowsOk(rows: seq<Row>) {
    && rows != []
    && (forall k :: 0 <= k < |rows| ==> Pad(rows[k].indent) && Pad(rows[k].trail) && CellsOk(rows[k].cells))
    && (forall k :: 0 <= k < |rows| - 1 ==> rows[k].cells == [] || rows[k].cells[|rows[k].cells| - 1].item.None?)
    && (forall k :: 0 < k < |rows| ==> !StartsWith(RowLine(rows[k], false, k == |rows| - 1), "---"))
  }

  function RowLines(rows: seq<Row>): seq<string> {
    if rows == [] then [] else [RowLine(rows[0], false, |rows| == 1)] + RowLines(rows[1..])
  }

  function RowTexts(rows: seq<Row>): seq<string> {
    if rows == [] then [] else Texts(rows[0].cells) + RowTexts(rows[1..])
  }

  datatype Mark = Mark(indent: string, gap: string, item: Item, trail: string)

  function MarkLine(m: Mark): string {
    m.indent + ("-" + m.gap + Write(m.item)) + m.trail
  }

  predicate MarkOk(m: Mark) {
    Pad(m.indent) && Pad(m.gap) && m.gap != "" && Pad(m.trail) && Plain(m.item)
  }

  function MarkLines(marks: seq<Mark>): seq<string> {
    if marks == [] then [] else [MarkLine(marks[0])] + MarkLines(marks[1..])
  }

  function MarkTexts(marks: seq<Mark>): seq<string> {
    if marks == [] then [] else [marks[0].item.text] + MarkTexts(marks[1..])
  }

  /** A bracket on the key's line, a bracket on a later line, or bullets, perhaps after a first item
      on the key's line. */
  datatype Layout =
    | FlowHere(rows: seq<Row>)
    | FlowBelow(gap: string, blanks: seq<string>, rows: seq<Row>)
    | Listed(gap: string, scalar: Option<Item>, trail: string, marks: seq<Mark>)

  /** A key with its items, and the blank and comment lines above it. */
  datatype Field = Field(fillers: seq<string>, indent: string, key: string, mid: string, layout: Layout)

  predicate Filler(line: string) {
    OneLine(line) && (Strip(line) == "" || Strip(line)[0] == '#')
  }

  predicate BlankLine(line: string) {
    Pad(line)
  }

  predicate LayoutOk(l: Layout) {
    match l
    case FlowHere(rows) => RowsOk(rows)
    case FlowBelow(gap, blanks, rows) => Pad(gap) && (forall k :: 0 <= k < |blanks| ==> BlankLine(blanks[k])) && RowsOk(rows)
    case Listed(gap, scalar, trail, marks) =>
      && Pad(gap) && Pad(trail) && (forall k :: 0 <= k < |marks| ==> MarkOk(marks[k]))
      && (scalar.Some? ==> Plain(scalar.value) && !StartsWith(Write(scalar.value), "["))
  }

  predicate FieldOk(f: Field) {
    && (forall k :: 0 <= k < |f.fillers| ==> Filler(f.fillers[k]))
    && Pad(f.indent) && Identifier(f.key) && Pad(f.mid) && LayoutOk(f.layout)
  }

  predicate FieldsOk(fields: seq<Field>) {
    forall k :: 0 <= k < |fields| ==> FieldOk(fields[k])
  }

  function Value(l: Layout): string {
    match l
    case FlowHere(rows) => if rows == [] then "" else RowLine(rows[0], true, |rows| == 1)
    case FlowBelow(gap, _, _) => gap
    case Listed(gap, scalar, trail, _) => gap + (if scalar.Some? then Write(scalar.value) else "") + trail
  }

  function More(l: Layout): seq<string> {
    match l
    case FlowHere(rows) => if rows == [] then [] else RowLines(rows[1..])
    case FlowBelow(_, blanks, rows) => if rows == [] then [] else blanks + ([RowLine(rows[0], true, |rows| == 1)] + RowLines(rows[1..]))
    case Listed(_, _, _, marks) => MarkLines(marks)
  }

  function ItemsIn(l: Layout): seq<string> {
    match l
    case FlowHere(rows) => RowTexts(rows)
    case FlowBelow(_, _, rows) => RowTexts(rows)
    case Listed(_, scalar, _, marks) => (if scalar.Some? then [scalar.value.text] else []) + MarkTexts(marks)
  }

  function HeadLine(f: Field): string {
    f.indent + (f.key + f.mid + ":" + Value(f.layout))
  }

  function AllLines(fields: seq<Field>): seq<string> {
    if fields == [] then []
    else fields[0].fillers + ([HeadLine(fields[0])] + (More(fields[0].layout) + AllLines(fields[1..])))
  }

  /** The metadata itself, whatever its layout. */
  function Data(fields: seq<Field>, meta: Meta): Meta {
    if fields == [] then meta else Data(fields[1..], meta[fields[0].key := ItemsIn(fields[0].layout)])
  }

  function Document(open: string, fields: seq<Field>, close: string, body: string, eol: string): string {
    "---" + open + eol + (Join(AllLines(fields), eol) + (eol + "---" + (close + eol + body)))
  }

  // ---- cells ----

  lemma WriteTrimmed(x: Item)
    requires Plain(x)
    ensures Trimmed(Write(x)) && Unquote(Write(x)) == x.text && OneLine(Write(x))
  {
    if x.quote.Quoted? {
      assert ([x.quote.q] + x.text + [x.quote.q])[1..|x.text| + 1] == x.text;
    }
  }

  lemma WrittenSafe(x: Item)
    requires Plain(x) && ',' !in x.text && ']' !in x.text
    ensures ',' !in Write(x) && ']' !in Write(x) && OneLine(Write(x)) && ItemsOf(Write(x)) == [x.text]
  {
    var w := Write(x);
    assert ',' !in w && ']' !in w;
    WriteTrimmed(x);
    StripTrimmed(w);
    hide Write, Plain, Trimmed, OneLine;
    OneToken(w, "");
  }

  lemma CellRead(c: Cell)
    requires CellOk(c)
    ensures ',' !in CellText(c) && ']' !in CellText(c) && OneLine(CellText(c))
    ensures ItemsOf(CellText(c)) == if c.item.Some? then [c.item.value.text] else []
  {
    hide ItemsOf, Pad, OneLine, Spaces, Write, Plain;
    PadSafe(c.left);
    PadSafe(c.right);
    var w := if c.item.Some? then Write(c.item.value) else "";
    if c.item.Some? {
      WrittenSafe(c.item.value);
    } else {
      PadSafe("") by { EmptyPad(); }
      NoItems("");
    }
    TokenPadded(c.left, w, c.right);
    OneLineJoin(c.left, w);
    OneLineJoin(c.left + w, c.right);
  }

  lemma EmptyPad()
    ensures Pad("")
  {
  }

  lemma {:induction false} CellsRead(cells: seq<Cell>)
    requires CellsOk(cells)
    ensures ItemsOf(CellsText(cells)) == Texts(cells) && ']' !in CellsText(cells) && OneLine(CellsText(cells))
  {
    hide CellOk, CellText, ItemsOf;
    if cells == [] {
      NoItems("");
    } else {
      CellRead(cells[0]);
      CellsRead(cells[1..]);
      if |cells| > 1 {
        ItemsComma(CellText(cells[0]), CellsText(cells[1..]));
      } else {
        assert Texts(cells[1..]) == [];
      }
    }
  }

  /** A text after which more of the list may come: nothing but blanks, or a comma and blanks. */
  predicate OpenText(b: string) {
    var t := RStrip(b);
    t == "" || t[|t| - 1] == ','
  }

  lemma OpenItems(b: string, z: string)
    requires OpenText(b)
    ensures ItemsOf(b + " " + z) == ItemsOf(b) + ItemsOf(z)
  {
    hide ItemsOf;
    var q := RStripParts(b);
    var t := RStrip(b);
    assert Spaces(q + " ");
    ItemsLeft(q + " ", z);
    if t == "" {
      NoItems(b);
      assert b + " " + z == (q + " ") + z;
    } else {
      var a := t[..|t| - 1];
      assert t == a + ",";
      assert b + " " + z == a + "," + ((q + " ") + z);
      ItemsComma(a, (q + " ") + z);
      assert b == a + "," + q;
      ItemsComma(a, q);
      NoItems(q);
    }
  }

  lemma {:induction false} CellsOpen(cells: seq<Cell>)
    requires CellsOk(cells) && (cells == [] || cells[|cells| - 1].item.None?)
    ensures OpenText(CellsText(cells))
  {
    if cells != [] {
      if |cells| == 1 {
        RStripSpaces("", CellText(cells[0]));
        assert "" + CellText(cells[0]) == CellText(cells[0]);
      } else {
        CellsOpen(cells[1..]);
        RStripKeeps(CellText(cells[0]) + ",", CellsText(cells[1..]));
      }
    }
  }

  lemma OpenGrows(b: string, x: string)
    requires OpenText(b) && OpenText(x)
    ensures OpenText(b + " " + Strip(x))
  {
    var s := Strip(x);
    if s == "" {
      RStripSpaces(b, " ");
      assert b + " " + s == b + " ";
    } else {
      StripEnds(x);
      assert (b + " " + s)[|b + " " + s| - 1] == s[|s| - 1];
      assert RStrip(b + " " + s) == b + " " + s;
    }
  }

  // ---- reading a bracketed list ----

  /** A buffer of a list that is still open. */
  ghost predicate Gathering(buf: string, items: seq<string>) {
    buf != "" && buf[0] == '[' && ']' !in buf && OpenText(buf[1..]) && ItemsOf(buf[1..]) == items
  }

  lemma MidRow(buf: string, items: seq<string>, r: Row)
    requires Gathering(buf, items) && Pad(r.indent) && Pad(r.trail) && CellsOk(r.cells)
    requires r.cells == [] || r.cells[|r.cells| - 1].item.None?
    ensures Gathering(buf + " " + Strip(RowLine(r, false, false)), items + Texts(r.cells))
  {
    hide ItemsOf, RStrip, LStrip;
    var b, x := buf[1..], CellsText(r.cells);
    assert RowLine(r, false, false) == r.indent + x + r.trail by {
      assert "" + x + "" == x;
    }
    StripSpaces(r.indent, x, r.trail);
    CellsRead(r.cells);
    CellsOpen(r.cells);
    ItemsStrip(x);
    OpenItems(b, Strip(x));
    OpenGrows(b, x);
    StripWithin(x);
    assert (buf + " " + Strip(x))[1..] == b + " " + Strip(x);
  }

  lemma LastRow(buf: string, items: seq<string>, r: Row)
    requires Gathering(buf, items) && Pad(r.indent) && Pad(r.trail) && CellsOk(r.cells)
    ensures var whole := buf + " " + Strip(RowLine(r, false, true));
      ']' in whole && StartsWith(whole, "[") && FlowItems(whole) == items + Texts(r.cells)
  {
    var b, x := buf[1..], CellsText(r.cells);
    CellsRead(r.cells);
    StripClosed(r, x);
    hide ItemsOf, RowLine, Strip, LStrip, OpenText, CellsText, Texts, CellsOk, Pad, FlowItems;
    WholeFlow(buf, LStrip(x));
    LStripWithin(x);
    FlowOf(b + " " + LStrip(x));
    OpenItems(b, LStrip(x));
    ItemsStrip(x);
  }

  lemma WholeFlow(buf: string, t: string)
    requires buf != "" && buf[0] == '['
    ensures var whole := buf + " " + (t + "]");
      whole == "[" + (buf[1..] + " " + t) + "]" && ']' in whole && StartsWith(whole, "[")
  {
    var whole := buf + " " + (t + "]");
    assert whole[|whole| - 1] == ']';
    assert buf == "[" + buf[1..];
  }

  lemma LStripWithin(x: string)
    ensures forall c :: c in LStrip(x) ==> c in x
  {
    hide LStrip, Spaces;
    var p := LStripParts(x);
  }

  lemma StripClosed(r: Row, x: string)
    requires Pad(r.indent) && Pad(r.trail) && x == CellsText(r.cells)
    ensures Strip(RowLine(r, false, true)) == LStrip(x) + "]"
  {
    assert "" + x + "]" == x + "]";
    StripSpaces(r.indent, x + "]", r.trail);
    LStripKeeps(x, "]");
    StripTrimmed("]");
    assert LStrip(x + "]") == LStrip(x) + "]";
    assert RStrip(LStrip(x) + "]") == LStrip(x) + "]";
  }

  lemma GatherOne(buf: string, line: string, lines: seq<string>)
    requires ']' !in buf
    ensures Gather(buf, [line] + lines) == Gather(buf + " " + Strip(line), lines)
  {
    assert ([line] + lines)[1..] == lines;
  }

  lemma GatherEnds(buf: string, lines: seq<string>)
    requires ']' in buf
    ensures Gather(buf, lines) == Taken(buf, lines)
  {
  }

  lemma RowsTail(rows: seq<Row>)
    requires RowsOk(rows) && |rows| > 1
    ensures RowsOk(rows[1..])
  {
    forall k | 0 < k < |rows[1..]| ensures !StartsWith(RowLine(rows[1..][k], false, k == |rows[1..]| - 1), "---") {
      assert rows[1..][k] == rows[k + 1];
    }
  }

  /** The rows after the first, gathered onto what the first one left. */
  lemma {:induction false} GatherRows(buf: string, items: seq<string>, rows: seq<Row>, tail: seq<string>)
    requires Gathering(buf, items) && RowsOk(rows)
    ensures var t := Gather(buf, RowLines(rows) + tail);
      StartsWith(t.value, "[") && FlowItems(t.value) == items + RowTexts(rows) && t.lines == tail
    decreases |rows|
  {
    hide ItemsOf, Strip, RowLine, OpenText, FlowItems, Gather, StartsWith;
    var r, rest := rows[0], rows[1..];
    var line := RowLine(r, false, |rows| == 1);
    Assoc([line], RowLines(rest), tail);
    GatherOne(buf, line, RowLines(rest) + tail);
    Assoc(items, Texts(r.cells), RowTexts(rest));
    if |rows| == 1 {
      LastRow(buf, items, r);
      assert RowLines(rest) == [] && RowTexts(rest) == [];
      assert [] + tail == tail && (items + Texts(r.cells)) + [] == items + Texts(r.cells);
      GatherEnds(buf + " " + Strip(line), tail);
    } else {
      MidRow(buf, items, r);
      RowsTail(rows);
      GatherRows(buf + " " + Strip(line), items + Texts(r.cells), rest, tail);
    }
  }

  lemma OpenStripped(x: string)
    requires OpenText(x)
    ensures OpenText(RStrip(x))
  {
    RStripTwice(x);
  }

  lemma BracketTrimmed()
    ensures Trimmed("[")
  {
  }

  lemma FirstLine(r: Row)
    ensures RowLine(r, true, false) == r.indent + ("[" + CellsText(r.cells)) + r.trail
  {
    hide CellsText;
    assert "[" + CellsText(r.cells) + "" == "[" + CellsText(r.cells);
  }

  lemma StripFirst(r: Row)
    requires Pad(r.indent) && Pad(r.trail)
    ensures Strip(RowLine(r, true, false)) == "[" + RStrip(CellsText(r.cells))
  {
    hide RowLine, Strip, RStrip, CellsText;
    var x := CellsText(r.cells);
    FirstLine(r);
    StripSpaces(r.indent, "[" + x, r.trail);
    EmptyPad();
    BracketTrimmed();
    StripAfter("", "[", x);
    assert "" + ("[" + x) == "[" + x;
  }

  lemma FirstRow(r: Row)
    requires Pad(r.indent) && Pad(r.trail) && CellsOk(r.cells)
    requires r.cells == [] || r.cells[|r.cells| - 1].item.None?
    ensures Gathering(Strip(RowLine(r, true, false)), Texts(r.cells))
  {
    var x := CellsText(r.cells);
    hide ItemsOf, RowLine, Strip, RStrip, OpenText, CellsText, Texts, Pad, CellsOk;
    StripFirst(r);
    CellsRead(r.cells);
    CellsOpen(r.cells);
    ItemsStrip(x);
    OpenStripped(x);
    RStripWithin(x);
    assert ("[" + RStrip(x))[1..] == RStrip(x);
  }

  lemma RStripWithin(x: string)
    ensures forall c :: c in RStrip(x) ==> c in x
  {
    assert RStrip(x) <= x;
  }

  lemma OnlyRow(r: Row)
    requires Pad(r.indent) && Pad(r.trail) && CellsOk(r.cells)
    ensures var whole := Strip(RowLine(r, true, true));
      ']' in whole && StartsWith(whole, "[") && FlowItems(whole) == Texts(r.cells)
  {
    hide ItemsOf;
    var x := CellsText(r.cells);
    StripAround(r.indent, "[" + x + "]", r.trail);
    CellsRead(r.cells);
    FlowOf(x);
  }

  /** A list read from its first line on, wherever that line stood. */
  lemma FlowRead(rows: seq<Row>, tail: seq<string>)
    requires RowsOk(rows)
    ensures var value := Strip(RowLine(rows[0], true, |rows| == 1));
      && value != "" && StartsWith(value, "[")
      && var t := Gather(value, RowLines(rows[1..]) + tail);
         StartsWith(t.value, "[") && FlowItems(t.value) == RowTexts(rows) && t.lines == tail
  {
    hide ItemsOf, Strip, RowLine, OpenText, FlowItems;
    var value := Strip(RowLine(rows[0], true, |rows| == 1));
    if |rows| == 1 {
      OnlyRow(rows[0]);
      assert RowLines(rows[1..]) + tail == tail;
      assert RowTexts(rows) == Texts(rows[0].cells) + RowTexts(rows[1..]);
      assert RowTexts(rows[1..]) == [];
    } else {
      FirstRow(rows[0]);
      RowsTail(rows);
      GatherRows(value, Texts(rows[0].cells), rows[1..], tail);
    }
  }

  // ---- reading one field ----

  /** Lines that neither go on with the bullets above them nor open a bracket for the key above. */
  ghost predicate Fresh(lines: seq<string>) {
    && (lines != [] ==> Bullet(lines[0]) == None)
    && (FirstFilled(lines) < |lines| ==> !StartsWith(Strip(lines[FirstFilled(lines)]), "["))
  }

  lemma KeyTrimmed(key: string, mid: string)
    requires Identifier(key)
    ensures Trimmed(key + mid + ":")
  {
    assert (key + mid + ":")[0] == key[0];
    assert (key + mid + ":")[|key + mid|] == ':';
  }

  lemma HeadStripped(f: Field)
    requires FieldOk(f)
    ensures Strip(HeadLine(f)) == f.key + (f.mid + ":" + RStrip(Value(f.layout)))
  {
    hide Strip, RStrip, Value, LayoutOk, Trimmed, Identifier, Filler;
    KeyTrimmed(f.key, f.mid);
    StripAfter(f.indent, f.key + f.mid + ":", Value(f.layout));
    var v := RStrip(Value(f.layout));
    Assoc(f.key, f.mid, ":");
    Assoc(f.key, f.mid + ":", v);
  }

  lemma {:induction false} IdentPast(k: string, t: string)
    requires (forall c :: c in k ==> IsIdent(c)) && (t == "" || !IsIdent(t[0]))
    ensures IdentLength(k + t) == |k|
  {
    if k != "" {
      IdentPast(k[1..], t);
      assert (k + t)[1..] == k[1..] + t;
      assert (k + t)[0] in k;
    } else {
      assert k + t == t;
    }
  }

  lemma ColonNext(mid: string, v: string)
    requires Spaces(mid)
    ensures LStrip(mid + ":" + v) == ":" + v && !IsIdent((mid + ":" + v)[0])
  {
    LStripSpaces(mid, ":" + v);
    Assoc(mid, ":", v);
    assert (":" + v)[0] == ':';
    if mid != "" {
      assert (mid + ":" + v)[0] == mid[0] && mid[0] in mid;
    }
  }

  lemma KeyValueOf(key: string, mid: string, v: string)
    requires Identifier(key) && Spaces(mid)
    ensures KeyValue(key + (mid + ":" + v)) == Some((key, Strip(v)))
  {
    hide LStrip, Strip, Spaces, IsIdent, IsIdentStart;
    var rest := mid + ":" + v;
    ColonNext(mid, v);
    IdentPast(key, rest);
    assert (key + rest)[|key|..] == rest && (key + rest)[..|key|] == key && (key + rest)[0] == key[0];
    assert (":" + v)[1..] == v;
  }

  lemma {:induction false} IdentIs(s: string)
    ensures forall c :: c in s[..IdentLength(s)] ==> IsIdent(c)
  {
    if s != "" && IsIdent(s[0]) {
      IdentIs(s[1..]);
      assert s[..IdentLength(s)] == [s[0]] + s[1..][..IdentLength(s[1..])];
    }
  }

  /** A line has a key and a value exactly when it is an identifier, blanks, a colon and the value. */
  lemma KeyValueIff(line: string, key: string, value: string)
    ensures KeyValue(line) == Some((key, value)) <==>
            exists mid, v :: line == key + (mid + ":" + v) && Identifier(key) && Spaces(mid) && value == Strip(v)
  {
    if mid, v :| line == key + (mid + ":" + v) && Identifier(key) && Spaces(mid) && value == Strip(v) {
      KeyValueOf(key, mid, v);
    }
    if KeyValue(line) == Some((key, value)) {
      hide Strip, LStrip, Spaces, IsIdentStart;
      var n := IdentLength(line);
      IdentIs(line);
      var mid := LStripParts(line[n..]);
      var v := LStrip(line[n..])[1..];
      assert line == line[..n] + line[n..] && LStrip(line[n..]) == ":" + v;
      Assoc(mid, ":", v);
      assert key[0] == line[0] && Identifier(key);
      assert line == key + (mid + ":" + v);
    }
  }

  /** A line is an item exactly when it is blanks, a dash, a blank and the item. */
  lemma BulletIff(line: string, item: string)
    ensures Bullet(line) == Some(item) <==>
            exists lead, gap, v :: line == lead + (['-', gap] + v) && Spaces(lead) && IsSpace(gap) && item == Strip(v)
  {
    hide Strip;
    if lead, gap, v :| line == lead + (['-', gap] + v) && Spaces(lead) && IsSpace(gap) && item == Strip(v) {
      LStripSpaces(lead, ['-', gap] + v);
      assert (['-', gap] + v)[2..] == v && (['-', gap] + v)[0] == '-' && (['-', gap] + v)[1] == gap;
    }
    if Bullet(line) == Some(item) {
      var lead := LStripParts(line);
      var t := LStrip(line);
      assert t == ['-', t[1]] + t[2..];
      assert line == lead + (['-', t[1]] + t[2..]);
    }
  }

  lemma KeyFirst(f: Field)
    requires FieldOk(f)
    ensures LStrip(HeadLine(f)) != "" && IsIdentStart(LStrip(HeadLine(f))[0])
  {
    hide Value, LayoutOk, Filler;
    var s := f.key + f.mid + ":" + Value(f.layout);
    LStripSpaces(f.indent, s);
    assert s[0] == f.key[0];
  }

  lemma HeadEntry(f: Field)
    requires FieldOk(f)
    ensures Entry(HeadLine(f)) == Some((f.key, Strip(Value(f.layout))))
    ensures !Blank(HeadLine(f)) && Bullet(HeadLine(f)) == None && !StartsWith(Strip(HeadLine(f)), "[")
  {
    hide Value, LayoutOk, Filler, HeadLine, KeyValue, Strip, RStrip, LStrip;
    HeadStripped(f);
    KeyFirst(f);
    KeyValueOf(f.key, f.mid, RStrip(Value(f.layout)));
    StripOfRStrip(Value(f.layout));
    assert (f.key + (f.mid + ":" + RStrip(Value(f.layout))))[0] == f.key[0];
  }

  lemma {:induction false} FirstFilledPast(blanks: seq<string>, line: string, lines: seq<string>)
    requires (forall k :: 0 <= k < |blanks| ==> BlankLine(blanks[k])) && !Blank(line)
    ensures FirstFilled(blanks + ([line] + lines)) == |blanks|
  {
    if blanks != [] {
      BlankLineIsBlank(blanks[0]);
      assert (blanks + ([line] + lines))[1..] == blanks[1..] + ([line] + lines);
      FirstFilledPast(blanks[1..], line, lines);
    } else {
      assert blanks + ([line] + lines) == [line] + lines;
    }
  }

  lemma BlankLineIsBlank(line: string)
    requires BlankLine(line)
    ensures Blank(line)
  {
    LStripSpaces(line, "");
    assert line + "" == line;
  }

  lemma AdoptPast(blanks: seq<string>, line: string, rest: seq<string>)
    requires (forall k :: 0 <= k < |blanks| ==> BlankLine(blanks[k])) && StartsWith(Strip(line), "[")
    ensures Adopt("", blanks + ([line] + rest)) == Taken(Strip(line), rest)
  {
    hide Strip;
    FirstFilledPast(blanks, line, rest);
    var lines := blanks + ([line] + rest);
    assert lines[|blanks|] == line && lines[|blanks| + 1..] == rest;
  }

  lemma FlowBelowRead(l: Layout, tail: seq<string>)
    requires LayoutOk(l) && l.FlowBelow?
    ensures ReadItems(Strip(Value(l)), More(l) + tail) == Taken(ItemsIn(l), tail)
  {
    assert l.rows != [] && Pad(l.gap);
    var line, rest := RowLine(l.rows[0], true, |l.rows| == 1), RowLines(l.rows[1..]);
    FlowRead(l.rows, tail);
    BlankLineIsBlank(l.gap);
    hide RowLine, FlowItems, RowsOk, Strip, Pad, BlankLine, Gather, Adopt, RowLines;
    AdoptPast(l.blanks, line, rest + tail);
    Assoc(l.blanks, [line] + rest, tail);
    Assoc([line], rest, tail);
  }

  lemma FlowHereRead(l: Layout, tail: seq<string>)
    requires LayoutOk(l) && l.FlowHere?
    ensures ReadItems(Strip(Value(l)), More(l) + tail) == Taken(ItemsIn(l), tail)
  {
    assert l.rows != [];
    hide RowLine, FlowItems, RowsOk, Strip;
    FlowRead(l.rows, tail);
  }

  lemma DashedLine(indent: string, gap: string, w: string, trail: string)
    requires Pad(gap) && gap != "" && Pad(trail) && Trimmed(w)
    ensures var t := "-" + gap + w + trail; |t| >= 2 && t[0] == '-' && IsSpace(t[1]) && Strip(t[2..]) == w
    ensures Trimmed("-" + gap + w)
    ensures indent + ("-" + gap + w) + trail == indent + ("-" + gap + w + trail)
  {
    PadTail(gap);
    var t := "-" + gap + w + trail;
    assert t[1] == gap[0];
    assert t[2..] == gap[1..] + w + trail;
    Assoc(indent, "-" + gap + w, trail);
    assert ("-" + gap + w)[|gap| + |w|] == w[|w| - 1];
    hide Strip, Pad;
    StripAround(gap[1..], w, trail);
  }

  lemma MarkRead(m: Mark)
    requires MarkOk(m)
    ensures Bullet(MarkLine(m)).Some? && Unquote(Bullet(MarkLine(m)).value) == m.item.text
    ensures !Blank(MarkLine(m)) && !StartsWith(Strip(MarkLine(m)), "[")
  {
    var w := Write(m.item);
    WriteTrimmed(m.item);
    hide Write, Plain, Trimmed, Strip, LStrip, Pad, IsSpace, Unquote;
    DashedLine(m.indent, m.gap, w, m.trail);
    StripAround(m.indent, "-" + m.gap + w, m.trail);
    DashVisible();
    LStripTo(m.indent, "-" + m.gap + w + m.trail);
    assert ("-" + m.gap + w)[0] == '-';
  }

  lemma DashVisible()
    ensures !IsSpace('-')
  {
  }

  lemma BulletThen(done: seq<string>, m: Mark, lines: seq<string>)
    requires MarkOk(m)
    ensures Bullets(done, [MarkLine(m)] + lines) == Bullets(done + [m.item.text], lines)
  {
    MarkRead(m);
    hide MarkLine;
    assert ([MarkLine(m)] + lines)[1..] == lines;
  }

  lemma {:induction false} ReadMarks(done: seq<string>, marks: seq<Mark>, tail: seq<string>)
    requires Fresh(tail) && forall k :: 0 <= k < |marks| ==> MarkOk(marks[k])
    ensures Bullets(done, MarkLines(marks) + tail) == Taken(done + MarkTexts(marks), tail)
    decreases |marks|
  {
    hide MarkLine, MarkOk, Bullet;
    if marks == [] {
      assert [] + tail == tail && done + [] == done;
    } else {
      var x, rest := marks[0].item.text, marks[1..];
      assert MarkLines(marks) + tail == [MarkLine(marks[0])] + (MarkLines(rest) + tail);
      BulletThen(done, marks[0], MarkLines(rest) + tail);
      ReadMarks(done + [x], rest, tail);
      assert (done + [x]) + MarkTexts(rest) == done + MarkTexts(marks);
    }
  }

  lemma NothingAdopted(marks: seq<Mark>, tail: seq<string>)
    requires Fresh(tail) && forall k :: 0 <= k < |marks| ==> MarkOk(marks[k])
    ensures Adopt("", MarkLines(marks) + tail) == Taken("", MarkLines(marks) + tail)
  {
    hide MarkLine, MarkOk, Strip;
    if marks != [] {
      MarkRead(marks[0]);
      assert (MarkLines(marks) + tail)[0] == MarkLine(marks[0]);
    } else {
      assert MarkLines(marks) + tail == tail;
    }
  }

  lemma ListedRead(l: Layout, tail: seq<string>)
    requires LayoutOk(l) && l.Listed? && Fresh(tail)
    ensures ReadItems(Strip(Value(l)), More(l) + tail) == Taken(ItemsIn(l), tail)
  {
    hide MarkOk, Fresh;
    if l.scalar.Some? {
      WriteTrimmed(l.scalar.value);
      StripAround(l.gap, Write(l.scalar.value), l.trail);
      hide Plain, Write;
      ReadMarks([l.scalar.value.text], l.marks, tail);
    } else {
      StripSpaces(l.gap, "", l.trail);
      NothingAdopted(l.marks, tail);
      ReadMarks([], l.marks, tail);
    }
  }

  lemma LayoutRead(l: Layout, tail: seq<string>)
    requires LayoutOk(l) && Fresh(tail)
    ensures ReadItems(Strip(Value(l)), More(l) + tail) == Taken(ItemsIn(l), tail)
  {
    match l
    case FlowHere(_) => FlowHereRead(l, tail);
    case FlowBelow(_, _, _) => FlowBelowRead(l, tail);
    case Listed(_, _, _, _) => ListedRead(l, tail);
  }

  // ---- reading all fields ----

  lemma FillerSkipped(line: string)
    requires Filler(line)
    ensures Entry(line) == None && Bullet(line) == None && (!Blank(line) ==> !StartsWith(Strip(line), "["))
  {
    var t := LStrip(line);
    if t != "" {
      RStripKeeps(t[..1], t[1..]);
      assert t == t[..1] + t[1..] && Strip(line)[0] == t[0];
    }
  }

  lemma {:induction false} FillersSkipped(fillers: seq<string>, lines: seq<string>, meta: Meta)
    requires forall k :: 0 <= k < |fillers| ==> Filler(fillers[k])
    ensures ReadLines(fillers + lines, meta) == ReadLines(lines, meta)
    decreases |fillers|
  {
    hide Filler, Entry;
    if fillers != [] {
      FillerSkipped(fillers[0]);
      assert (fillers + lines)[1..] == fillers[1..] + lines;
      FillersSkipped(fillers[1..], lines, meta);
    } else {
      assert fillers + lines == lines;
    }
  }

  lemma {:induction false} FillersFresh(fillers: seq<string>, head: string, lines: seq<string>)
    requires forall k :: 0 <= k < |fillers| ==> Filler(fillers[k])
    requires !Blank(head) && Bullet(head) == None && !StartsWith(Strip(head), "[")
    ensures Fresh(fillers + ([head] + lines))
    decreases |fillers|
  {
    hide Filler, Bullet, Blank;
    var all := fillers + ([head] + lines);
    if fillers != [] {
      FillerSkipped(fillers[0]);
      assert all[1..] == fillers[1..] + ([head] + lines);
      FillersFresh(fillers[1..], head, lines);
      assert all[0] == fillers[0];
      assert Blank(all[0]) ==> FirstFilled(all) == 1 + FirstFilled(all[1..]);
    } else {
      assert all == [head] + lines;
    }
  }

  lemma ReadOne(f: Field, tail: seq<string>, meta: Meta)
    requires FieldOk(f) && Fresh(tail)
    ensures ReadLines([HeadLine(f)] + (More(f.layout) + tail), meta) == ReadLines(tail, meta[f.key := ItemsIn(f.layout)])
  {
    hide HeadLine, Entry, ReadItems, More, Value, Strip;
    HeadEntry(f);
    LayoutRead(f.layout, tail);
    assert ([HeadLine(f)] + (More(f.layout) + tail))[1..] == More(f.layout) + tail;
  }

  /** The lines of any fields read as those fields, later ones winning. */
  lemma {:induction false} FieldsRead(fields: seq<Field>, meta: Meta)
    requires FieldsOk(fields)
    ensures ReadLines(AllLines(fields), meta) == Data(fields, meta) && Fresh(AllLines(fields))
    decreases |fields|
  {
    hide HeadLine, More, ItemsIn, Fresh, Blank, Bullet, Strip;
    if fields != [] {
      var f, tail := fields[0], AllLines(fields[1..]);
      FieldsRead(fields[1..], meta[f.key := ItemsIn(f.layout)]);
      ReadOne(f, tail, meta);
      FillersSkipped(f.fillers, [HeadLine(f)] + (More(f.layout) + tail), meta);
      HeadEntry(f);
      FillersFresh(f.fillers, HeadLine(f), More(f.layout) + tail);
    } else {
      assert Fresh([]) by { NothingIsFresh(); }
    }
  }

  lemma NothingIsFresh()
    ensures Fresh([])
  {
  }

  // ---- the text around the lines ----

  lemma RowOneLine(r: Row, first: bool, last: bool)
    requires Pad(r.indent) && Pad(r.trail) && CellsOk(r.cells)
    ensures OneLine(RowLine(r, first, last)) && (first ==> !StartsWith(RowLine(r, first, last), "---"))
    ensures first || last ==> RowLine(r, first, last) != ""
  {
    CellsRead(r.cells);
    PadSafe(r.indent);
    PadSafe(r.trail);
    var open, close, x := if first then "[" else "", if last then "]" else "", CellsText(r.cells);
    assert OneLine(open) && OneLine(close);
    hide CellsText, OneLine, Pad, CellsOk, StartsWith;
    OneLineJoin(open, x);
    OneLineJoin(open + x, close);
    OneLineJoin(r.indent, open + x + close);
    OneLineJoin(r.indent + (open + x + close), r.trail);
    if first {
      FirstNoDash(r, last);
    }
  }

  lemma FirstNoDash(r: Row, last: bool)
    requires Pad(r.indent)
    ensures !StartsWith(RowLine(r, true, last), "---")
  {
    hide CellsText, StartsWith, Pad;
    var x := CellsText(r.cells) + (if last then "]" else "") + r.trail;
    BracketNoDash(x);
    NotDashes(r.indent, "[" + x);
    assert "[" + CellsText(r.cells) + (if last then "]" else "") + r.trail == "[" + x;
    Assoc(r.indent, "[" + CellsText(r.cells) + (if last then "]" else ""), r.trail);
  }

  lemma BracketNoDash(x: string)
    ensures !StartsWith("[" + x, "---")
  {
    assert ("[" + x)[0] == '[';
  }

  lemma {:induction false} RowsUnbroken(rows: seq<Row>)
    requires RowsOk(rows)
    ensures AllUnbroken([RowLine(rows[0], true, |rows| == 1)] + RowLines(rows[1..]))
    ensures RowLines(rows[1..]) != [] ==> RowLines(rows[1..])[|RowLines(rows[1..])| - 1] != ""
  {
    RowOneLine(rows[0], true, |rows| == 1);
    if |rows| > 1 {
      LaterRows(rows, 1);
    }
  }

  lemma {:induction false} LaterRows(rows: seq<Row>, k: nat)
    requires RowsOk(rows) && 0 < k < |rows|
    ensures AllUnbroken(RowLines(rows[k..])) && RowLines(rows[k..]) != []
    ensures RowLines(rows[k..])[|RowLines(rows[k..])| - 1] != ""
    decreases |rows| - k
  {
    hide RowLine;
    var line := RowLine(rows[k], false, k == |rows| - 1);
    RowOneLine(rows[k], false, k == |rows| - 1);
    assert rows[k..][0] == rows[k] && rows[k..][1..] == rows[k + 1..];
    assert RowLines(rows[k..]) == [line] + RowLines(rows[k + 1..]);
    if k < |rows| - 1 {
      LaterRows(rows, k + 1);
    } else {
      assert RowLines(rows[k + 1..]) == [];
    }
  }

  lemma {:induction false} MarksUnbroken(marks: seq<Mark>)
    requires forall k :: 0 <= k < |marks| ==> MarkOk(marks[k])
    ensures AllUnbroken(MarkLines(marks))
    ensures marks != [] ==> MarkLines(marks) != [] && MarkLines(marks)[|MarkLines(marks)| - 1] != ""
  {
    if marks != [] {
      MarkUnbroken(marks[0]);
      hide MarkLine, MarkOk;
      MarksUnbroken(marks[1..]);
    }
  }

  lemma MarkUnbroken(m: Mark)
    requires MarkOk(m)
    ensures Unbroken(MarkLine(m)) && MarkLine(m) != ""
  {
    WriteTrimmed(m.item);
    hide Write;
    var line := MarkLine(m);
    assert m.gap[0] in m.gap && line[|m.indent|] == '-' && line[|m.indent| + 1] == m.gap[0];
    assert m.indent != "" ==> line[0] == m.indent[0] && m.indent[0] in m.indent;
  }

  lemma FillerUnbroken(line: string)
    requires Filler(line)
    ensures Unbroken(line)
  {
    if line != "" && !IsSpace(line[0]) {
      RStripKeeps(line[..1], line[1..]);
      assert line == line[..1] + line[1..] && Strip(line)[0] == line[0];
    }
  }

  lemma HeadUnbroken(f: Field)
    requires FieldOk(f)
    ensures Unbroken(HeadLine(f)) && HeadLine(f) != ""
  {
    var v := Value(f.layout);
    ValueOneLine(f.layout);
    hide LayoutOk, Value;
    assert OneLine(f.key) by {
      assert forall c :: IsIdent(c) ==> !IsBreak(c);
    }
    var line := HeadLine(f);
    assert line[|f.indent|] == f.key[0];
    assert f.indent != "" ==> line[0] == f.indent[0] && f.indent[0] in f.indent;
  }

  lemma ValueOneLine(l: Layout)
    requires LayoutOk(l)
    ensures OneLine(Value(l))
  {
    match l
    case FlowHere(rows) => RowOneLine(rows[0], true, |rows| == 1);
    case FlowBelow(_, _, _) =>
    case Listed(_, scalar, _, _) => if scalar.Some? { WriteTrimmed(scalar.value); }
  }

  lemma MoreUnbroken(l: Layout)
    requires LayoutOk(l)
    ensures AllUnbroken(More(l)) && (More(l) != [] ==> More(l)[|More(l)| - 1] != "")
  {
    hide RowLine, MarkOk, Unbroken;
    match l
    case FlowHere(rows) =>
      RowsUnbroken(rows);
      assert More(l) == ([RowLine(rows[0], true, |rows| == 1)] + RowLines(rows[1..]))[1..];
    case FlowBelow(_, blanks, rows) =>
      RowsUnbroken(rows);
      RowOneLine(rows[0], true, |rows| == 1);
      forall k | 0 <= k < |blanks| ensures Unbroken(blanks[k]) {
        PadUnbroken(blanks[k]);
      }
      UnbrokenJoin(blanks, [RowLine(rows[0], true, |rows| == 1)] + RowLines(rows[1..]));
    case Listed(_, _, _, marks) =>
      MarksUnbroken(marks);
  }

  lemma {:induction false} FieldsUnbroken(fields: seq<Field>)
    requires FieldsOk(fields)
    ensures AllUnbroken(AllLines(fields))
    ensures AllLines(fields) != [] ==> AllLines(fields)[|AllLines(fields)| - 1] != ""
  {
    hide Unbroken, HeadLine, More, LayoutOk, Filler;
    if fields != [] {
      var f, tail := fields[0], AllLines(fields[1..]);
      HeadUnbroken(f);
      MoreUnbroken(f.layout);
      FieldsUnbroken(fields[1..]);
      forall k | 0 <= k < |f.fillers| ensures Unbroken(f.fillers[k]) {
        FillerUnbroken(f.fillers[k]);
      }
      UnbrokenJoin(More(f.layout), tail);
      UnbrokenJoin([HeadLine(f)], More(f.layout) + tail);
      UnbrokenJoin(f.fillers, [HeadLine(f)] + (More(f.layout) + tail));
    }
  }

  lemma DocumentMatch(open: string, fields: seq<Field>, close: string, body: string, eol: string)
    requires LineEnd(eol) && Pad(open) && Pad(close) && FieldsOk(fields)
    ensures Match(Document(open, fields, close, body, eol)) == Some(Block(Join(AllLines(fields), eol), body))
  {
    hide Match, Close, AfterClose, AllLines, Unbroken, FieldOk;
    var block := Join(AllLines(fields), eol);
    FieldsUnbroken(fields);
    CloseAfter(AllLines(fields), eol, close + eol + body);
    AfterLineEnd(close, eol, body);
    HeaderMatch(open, eol, block + (eol + "---" + (close + eol + body)));
  }

  // ---- the theorems ----

  /** The parser skips byte-order marks and the stripper does not: with one in front the metadata is
      still read, and still in the text that is handed out. */
  lemma MarkDefeatsStripping(text: string)
    ensures RunbookMeta([BOM] + text) == RunbookMeta(text)
    ensures StripFrontmatter([BOM] + text) == [BOM] + text
  {
    assert ([BOM] + text)[1..] == text;
  }

  /** For every text whose metadata the parser finds: stripping removes that block, and the empty
      lines after it, exactly when the text does not begin with a byte-order mark. */
  lemma StripsIff(text: string)
    requires Match(DropLeading(text, BOM)).Some?
    ensures text != "" && (StripFrontmatter(text) == DropLeading(Match(DropLeading(text, BOM)).value.after, '\n') <==> text[0] != BOM)
  {
    hide Match, Close;
    Shorter(text, BOM);
    MatchShorter(DropLeading(text, BOM));
    Shorter(Match(DropLeading(text, BOM)).value.after, '\n');
    if text[0] == BOM {
      NoBlockYet(text);
      Shorter(text, '\n');
    }
  }

  /** Brackets on the key's line or below it, over as many lines and with as many items on each as one
      likes, with or without a trailing comma, or bullets; any indentation, blank lines and comments
      between the keys, quotes, and either line end: all parse back to the metadata they were written
      from, and a byte-order mark in front changes nothing. */
  lemma LayoutsParseBack(open: string, fields: seq<Field>, close: string, body: string, eol: string)
    requires LineEnd(eol) && Pad(open) && Pad(close) && FieldsOk(fields)
    ensures RunbookMeta(Document(open, fields, close, body, eol)) == Data(fields, map[])
    ensures RunbookMeta([BOM] + Document(open, fields, close, body, eol)) == Data(fields, map[])
  {
    var text := Document(open, fields, close, body, eol);
    assert text[0] == '-';
    Shorter(text, BOM);
    hide Match, AllLines, ReadLines, SplitLines, Document, FieldOk, Unbroken;
    DocumentMatch(open, fields, close, body, eol);
    FieldsUnbroken(fields);
    LinesBack(AllLines(fields), eol);
    FieldsRead(fields, map[]);
    MarkDefeatsStripping(text);
  }

  /** Stripping gives the body back, less its leading empty lines: so it gives the body itself
      exactly when the body does not open with one. */
  lemma StripGivesBody(open: string, fields: seq<Field>, close: string, body: string, eol: string)
    requires LineEnd(eol) && Pad(open) && Pad(close) && FieldsOk(fields)
    ensures StripFrontmatter(Document(open, fields, close, body, eol)) == DropLeading(body, '\n')
    ensures StripFrontmatter(Document(open, fields, close, body, eol)) == body <==> body == "" || body[0] != '\n'
  {
    hide Match, Document, FieldOk;
    DocumentMatch(open, fields, close, body, eol);
    Shorter(body, '\n');
  }
}
