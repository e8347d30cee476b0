/** JSON-like values and their textual form, as Python's `json.dumps` with default settings
    writes it: separators ", " and ": ", and every character outside printable ASCII escaped. */
module Json {
  import T = Text

  predicate Printable(c: char) { ' ' <= c <= '~' }

  predicate NumeralChar(c: char) {
    '0' <= c <= '9' || 'a' <= c <= 'z' || 'A' <= c <= 'Z' || c == '+' || c == '-' || c == '.'
  }

  /** How a number is written, NaN and Infinity included. */
  type Numeral = s: string |
    && s != "" && ('0' <= s[0] <= '9' || s[0] == '-' || s[0] == 'N' || s[0] == 'I')
    && forall k :: 0 <= k < |s| ==> NumeralChar(s[k])
    witness "0"

  /** `Tuple` is serialised like a list, and `Opaque` is any other value, serialised through its text. */
  datatype Json =
    | Null
    | Bool(b: bool)
    | Num(numeral: Numeral)
    | Str(s: string)
    | Opaque(text: string)
    | Arr(items: seq<Json>)
    | Tuple(elems: seq<Json>)
    | Obj(fields: seq<Field>)
  datatype Field = Field(key: string, value: Json)

  function Unit(n: nat): string
    requires n < 0x10000
  {
    "\\u" + [T.HexDigit(n / 4096), T.HexDigit(n / 256 % 16), T.HexDigit(n / 16 % 16), T.HexDigit(n % 16)]
  }

  function EscapeChar(c: char): string {
    if c == '"' then "\\\""
    else if c == '\\' then "\\\\"
    else if c == '\n' then "\\n"
    else if c == '\r' then "\\r"
    else if c == '\t' then "\\t"
    else if c == '\U{8}' then "\\b"
    else if c == '\U{c}' then "\\f"
    else if Printable(c) then [c]
    else
      var n := c as int;
      if n < 0x10000 then Unit(n)
      else Unit(0xd800 + (n - 0x10000) / 1024) + Unit(0xdc00 + (n - 0x10000) % 1024)
  }

  function Escape(s: string): string {
    if s == "" then "" else EscapeChar(s[0]) + Escape(s[1..])
  }

  function Quoted(s: string): string {
    "\"" + Escape(s) + "\""
  }

  function Dumps(v: Json): string {
    match v
    case Null => "null"
    case Bool(b) => if b then "true" else "false"
    case Num(t) => t
    case Str(s) => Quoted(s)
    case Opaque(t) => Quoted(t)
    case Arr(items) => "[" + DumpsItems(items) + "]"
    case Tuple(elems) => "[" + DumpsItems(elems) + "]"
    case Obj(fields) => "{" + DumpsFields(fields) + "}"
  }

  function DumpsItems(items: seq<Json>): string {
    if items == [] then ""
    else if |items| == 1 then Dumps(items[0])
    else Dumps(items[0]) + ", " + DumpsItems(items[1..])
  }

  function DumpsField(f: Field): string {
    Quoted(f.key) + ": " + Dumps(f.value)
  }

  function DumpsFields(fields: seq<Field>): string {
    if fields == [] then ""
    else if |fields| == 1 then DumpsField(fields[0])
    else DumpsField(fields[0]) + ", " + DumpsFields(fields[1..])
  }

  /** The constants, and a container of either kind with its separators. */
  lemma ConstantsWritten()
    ensures Dumps(Null) == "null" && Dumps(Bool(true)) == "true" && Dumps(Bool(false)) == "false"
    ensures Quoted("") == "\"\""
  {
    hide T.HexDigit, Unit, DumpsItems, DumpsFields;
  }

  lemma ListWritten(a: Json, b: Json)
    ensures Dumps(Arr([a, b])) == "[" + Dumps(a) + ", " + Dumps(b) + "]" == Dumps(Tuple([a, b]))
  {
    assert [a, b][1..] == [b];
    assert DumpsItems([b]) == Dumps(b);
    assert DumpsItems([a, b]) == Dumps(a) + ", " + Dumps(b);
    hide Quoted, T.HexDigit, Unit, DumpsFields;
  }

  lemma DictWritten(k: string, a: Json, l: string, b: Json)
    ensures Dumps(Obj([Field(k, a), Field(l, b)])) ==
            "{" + (Quoted(k) + ": " + Dumps(a) + ", " + (Quoted(l) + ": " + Dumps(b))) + "}"
  {
    hide Quoted, T.HexDigit, Unit, DumpsItems;
    assert [Field(k, a), Field(l, b)][1..] == [Field(l, b)];
    assert DumpsFields([Field(l, b)]) == Quoted(l) + ": " + Dumps(b);
    assert DumpsFields([Field(k, a), Field(l, b)]) == Quoted(k) + ": " + Dumps(a) + ", " + (Quoted(l) + ": " + Dumps(b));
  }

  /** The escapes with two characters. */
  lemma ShortEscapes()
    ensures EscapeChar('\"') == "\\\"" && EscapeChar('\\') == "\\\\" && EscapeChar('\n') == "\\n"
    ensures EscapeChar('\r') == "\\r" && EscapeChar('\t') == "\\t"
  {
    hide Unit, T.HexDigit;
  }

  /** The others, in and outside the first plane. */
  lemma LongEscapes()
    ensures EscapeChar('\U{1f}') == "\\u001f" && EscapeChar('\U{e9}') == "\\u00e9"
    ensures EscapeChar('\U{1f600}') == "\\ud83d\\ude00"
  {
    hide Unit;
    UnitWritten(0x1f, '0', '0', '1', 'f');
    UnitWritten(0xe9, '0', '0', 'e', '9');
    UnitWritten(0xd83d, 'd', '8', '3', 'd');
    UnitWritten(0xde00, 'd', 'e', '0', '0');
  }

  lemma UnitWritten(n: nat, a: char, b: char, c: char, d: char)
    requires n < 0x10000
    requires T.HexDigit(n / 4096) == a && T.HexDigit(n / 256 % 16) == b && T.HexDigit(n / 16 % 16) == c && T.HexDigit(n % 16) == d
    ensures Unit(n) == ['\\', 'u', a, b, c, d]
  {
  }

  ghost predicate AllPrintable(s: string) {
    forall k :: 0 <= k < |s| ==> Printable(s[k])
  }

  lemma {:induction false} EscapePrintable(s: string)
    ensures AllPrintable(Escape(s)) && |Escape(s)| >= |s|
  {
    if s != "" {
      EscapeCharPrintable(s[0]);
      EscapePrintable(s[1..]);
    }
  }

  lemma EscapeCharPrintable(c: char)
    ensures AllPrintable(EscapeChar(c)) && |EscapeChar(c)| >= 1
  {
    assert forall n: nat :: n < 16 ==> Printable(T.HexDigit(n));
    assert forall n: nat :: n < 0x10000 ==> AllPrintable(Unit(n)) by {
      forall n: nat | n < 0x10000 ensures AllPrintable(Unit(n)) {
        UnitPrintable(n);
      }
    }
  }

  lemma UnitPrintable(n: nat)
    requires n < 0x10000
    ensures AllPrintable(Unit(n)) && |Unit(n)| == 6
  {
    assert forall m: nat :: m < 16 ==> Printable(T.HexDigit(m));
  }

  /** The textual form is one line of printable ASCII, whatever the value contains. */
  lemma {:induction false} DumpsPrintable(v: Json)
    ensures AllPrintable(Dumps(v)) && |Dumps(v)| >= 1
    decreases v
  {
    match v
    case Str(s) => EscapePrintable(s);
    case Opaque(t) => EscapePrintable(t);
    case Arr(items) => ItemsPrintable(items);
    case Tuple(elems) => ItemsPrintable(elems);
    case Obj(fields) => FieldsPrintable(fields);
    case _ =>
  }

  lemma {:induction false} ItemsPrintable(items: seq<Json>)
    ensures AllPrintable(DumpsItems(items))
    decreases items
  {
    if items != [] {
      DumpsPrintable(items[0]);
      ItemsPrintable(items[1..]);
    }
  }

  lemma {:induction false} FieldsPrintable(fields: seq<Field>)
    ensures AllPrintable(DumpsFields(fields))
    decreases fields
  {
    if fields != [] {
      EscapePrintable(fields[0].key);
      DumpsPrintable(fields[0].value);
      FieldsPrintable(fields[1..]);
    }
  }
}
