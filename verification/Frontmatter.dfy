/** A runbook's leading metadata block: the hand-written parser and the stripper beside it. */
module Frontmatter {
  import opened Options
  import opened Text

  // ---- characters ----

  /** Where `splitlines` cuts. */
  predicate IsBreak(c: char) {
    '\n' <= c <= '\r' || '\U{1c}' <= c <= '\U{1e}' || c == '\U{85}' || c == '\U{2028}' || c == '\U{2029}'
  }

  predicate IsIdentStart(c: char) { 'a' <= c <= 'z' || 'A' <= c <= 'Z' || c == '_' }

  predicate IsIdent(c: char) { IsIdentStart(c) || '0' <= c <= '9' }

  /** The line breaks and the characters of a key, one by one. */
  lemma Alphabets(c: char)
    ensures IsBreak(c) <==> c in "\n\U{b}\U{c}\r\U{1c}\U{1d}\U{1e}\U{85}\U{2028}\U{2029}"
    ensures IsIdentStart(c) <==> c in "abcdefghijklmnopqrstuvwxyz" || c in "ABCDEFGHIJKLMNOPQRSTUVWXYZ" || c == '_'
    ensures IsIdent(c) <==> IsIdentStart(c) || c in "0123456789"
  {
  }

  const BOM: char := '\U{feff}'

  // ---- string helpers ----

  function DropLeading(s: string, c: char): (r: string)
    ensures r != [] ==> r[0] != c
  {
    if s != [] && s[0] == c then DropLeading(s[1..], c) else s
  }

  function Find(s: string, c: char): (k: nat)
    ensures k <= |s| && (k < |s| ==> s[k] == c) && forall j :: 0 <= j < k ==> s[j] != c
  {
    if s == [] || s[0] == c then 0 else 1 + Find(s[1..], c)
  }

  function FindLast(s: string, c: char): (k: int)
    ensures -1 <= k < |s| && (k >= 0 ==> s[k] == c) && forall j :: k < j < |s| ==> s[j] != c
  {
    if s == [] then -1 else if s[|s| - 1] == c then |s| - 1 else FindLast(s[..|s| - 1], c)
  }

  function Split(s: string, c: char): seq<string>
    decreases |s|
  {
    var k := Find(s, c);
    if k == |s| then [s] else [s[..k]] + Split(s[k + 1..], c)
  }

  function FindBreak(s: string): (k: nat)
    ensures k <= |s| && (k < |s| ==> IsBreak(s[k])) && forall j :: 0 <= j < k ==> !IsBreak(s[j])
  {
    if s == [] || IsBreak(s[0]) then 0 else 1 + FindBreak(s[1..])
  }

  function SplitLines(s: string): seq<string>
    decreases |s|
  {
    if s == [] then []
    else
      var k := FindBreak(s);
      if k == |s| then [s]
      else [s[..k]] + SplitLines(s[k + (if s[k] == '\r' && k + 1 < |s| && s[k + 1] == '\n' then 2 else 1)..])
  }

  // ---- the delimiters ----

  function SkipBlanks(s: string): (r: string)
    ensures |r| <= |s|
  {
    if s != [] && (s[0] == ' ' || s[0] == '\t') then SkipBlanks(s[1..]) else s
  }

  /** What follows the closing dashes: blanks and one line end are dropped when there. */
  function AfterClose(s: string): string {
    var t := SkipBlanks(s);
    var u := if StartsWith(t, "\r") then t[1..] else t;
    if StartsWith(u, "\n") then u[1..] else u
  }

  datatype Block = Block(inside: string, after: string)

  /** The first line break that is followed by three dashes ends the block. */
  function Close(s: string): Option<Block> {
    if StartsWith(s, "\n---") then Some(Block("", AfterClose(s[4..])))
    else if StartsWith(s, "\r\n---") then Some(Block("", AfterClose(s[5..])))
    else if s == [] then None
    else
      match Close(s[1..])
      case None => None
      case Some(b) => Some(b.(inside := [s[0]] + b.inside))
  }

  function Match(text: string): Option<Block> {
    if !StartsWith(text, "---") then None
    else
      var t := SkipBlanks(text[3..]);
      if StartsWith(t, "\r\n") then Close(t[2..])
      else if StartsWith(t, "\n") then Close(t[1..])
      else None
  }

  function StripFrontmatter(text: string): string {
    DropLeading(match Match(text) case None => text case Some(b) => b.after, '\n')
  }

  // ---- lines of the block ----

  function Unquote(v: string): string {
    if |v| >= 2 && v[0] == v[|v| - 1] && (v[0] == '\'' || v[0] == '"') then v[1..|v| - 1] else v
  }

  function IdentLength(s: string): (n: nat)
    ensures n <= |s|
  {
    if s == [] || !IsIdent(s[0]) then 0 else 1 + IdentLength(s[1..])
  }

  /** `key :` and the stripped rest of a stripped line. */
  function KeyValue(line: string): Option<(string, string)> {
    var n := IdentLength(line);
    if n == 0 || !IsIdentStart(line[0]) then None
    else
      var t := LStrip(line[n..]);
      if StartsWith(t, ":") then Some((line[..n], Strip(t[1..]))) else None
  }

  /** `- ` and the stripped item of a line. */
  function Bullet(line: string): Option<string> {
    var t := LStrip(line);
    if |t| >= 2 && t[0] == '-' && IsSpace(t[1]) then Some(Strip(t[2..])) else None
  }

  predicate Blank(line: string) { Strip(line) == "" }

  function FirstFilled(lines: seq<string>): (j: nat)
    ensures j <= |lines| && (j < |lines| ==> !Blank(lines[j]))
  {
    if lines == [] || !Blank(lines[0]) then 0 else 1 + FirstFilled(lines[1..])
  }

  datatype Taken<T> = Taken(value: T, lines: seq<string>)

  /** A bare key adopts a bracket that opens on the next filled line. */
  function Adopt(rest: string, lines: seq<string>): (t: Taken<string>)
    ensures |t.lines| <= |lines|
  {
    var j := FirstFilled(lines);
    if rest == "" && j < |lines| && StartsWith(Strip(lines[j]), "[") then Taken(Strip(lines[j]), lines[j + 1..])
    else Taken(rest, lines)
  }

  /** Lines join the flow sequence until it closes. */
  function Gather(buf: string, lines: seq<string>): (t: Taken<string>)
    ensures |t.lines| <= |lines| && buf <= t.value
    decreases |lines|
  {
    if ']' in buf || lines == [] then Taken(buf, lines) else Gather(buf + " " + Strip(lines[0]), lines[1..])
  }

  function Bullets(items: seq<string>, lines: seq<string>): (t: Taken<seq<string>>)
    ensures |t.lines| <= |lines|
    decreases |lines|
  {
    if lines == [] then Taken(items, lines)
    else
      match Bullet(lines[0])
      case None => Taken(items, lines)
      case Some(item) => Bullets(items + [Unquote(item)], lines[1..])
  }

  function Cleaned(tokens: seq<string>): seq<string> {
    if tokens == [] then []
    else (if Blank(tokens[0]) then [] else [Unquote(Strip(tokens[0]))]) + Cleaned(tokens[1..])
  }

  /** The items between the opening bracket and the last closing one. */
  function FlowItems(buf: string): seq<string>
    requires StartsWith(buf, "[")
  {
    var last := FindLast(buf, ']');
    Cleaned(Split(buf[1..if last >= 0 then last else |buf|], ','))
  }

  type Meta = map<string, seq<string>>

  /** The items of a key whose line holds `value`, and the lines left after them. */
  function ReadItems(value: string, lines: seq<string>): (t: Taken<seq<string>>)
    ensures |t.lines| <= |lines|
  {
    var adopted := Adopt(value, lines);
    if StartsWith(adopted.value, "[") then
      var flow := Gather(adopted.value, adopted.lines);
      Taken(FlowItems(flow.value), flow.lines)
    else
      Bullets(if adopted.value == "" then [] else [Unquote(adopted.value)], adopted.lines)
  }

  /** The key and value of a line that opens an entry; blank lines, comments and others do not. */
  function Entry(line: string): Option<(string, string)> {
    var stripped := Strip(line);
    if stripped == "" || StartsWith(stripped, "#") then None else KeyValue(stripped)
  }

  /** The rest of the lines, read in order into `meta`. */
  function ReadLines(lines: seq<string>, meta: Meta): Meta
    decreases |lines|
  {
    if lines == [] then meta
    else
      match Entry(lines[0])
      case None => ReadLines(lines[1..], meta)
      case Some((key, value)) =>
        var t := ReadItems(value, lines[1..]);
        ReadLines(t.lines, meta[key := t.value])
  }

  function RunbookMeta(text: string): Meta {
    match Match(DropLeading(text, BOM))
    case None => map[]
    case Some(b) => ReadLines(SplitLines(b.inside), map[])
  }

  // ---- the index-driven parser ----

  method NextFilled(lines: seq<string>, i: nat) returns (j: nat)
    requires i <= |lines|
    ensures i <= j <= |lines| && j == i + FirstFilled(lines[i..])
  {
    j := i;
    while j < |lines| && Blank(lines[j])
      invariant i <= j <= |lines| && i + FirstFilled(lines[i..]) == j + FirstFilled(lines[j..])
    {
      assert lines[j..][1..] == lines[j + 1..];
      j := j + 1;
    }
  }

  method ReadFlow(lines: seq<string>, i: nat, rest: string) returns (items: seq<string>, k: nat)
    requires i <= |lines| && StartsWith(rest, "[")
    ensures i <= k <= |lines|
    ensures var t := Gather(rest, lines[i..]); items == FlowItems(t.value) && lines[k..] == t.lines
  {
    var buf := rest;
    k := i;
    while ']' !in buf && k < |lines|
      invariant i <= k <= |lines| && Gather(rest, lines[i..]) == Gather(buf, lines[k..])
    {
      assert lines[k..][1..] == lines[k + 1..];
      buf := buf + " " + Strip(lines[k]);
      k := k + 1;
    }
    var last := FindLast(buf, ']');
    var inner := buf[1..if last >= 0 then last else |buf|];
    items := Cleaned(Split(inner, ','));
  }

  method ReadBullets(lines: seq<string>, i: nat, start: seq<string>) returns (items: seq<string>, k: nat)
    requires i <= |lines|
    ensures i <= k <= |lines|
    ensures Bullets(start, lines[i..]) == Taken(items, lines[k..])
  {
    items, k := start, i;
    while k < |lines|
      invariant i <= k <= |lines| && Bullets(start, lines[i..]) == Bullets(items, lines[k..])
    {
      var item := Bullet(lines[k]);
      if item.None? {
        break;
      }
      assert lines[k..][1..] == lines[k + 1..];
      items := items + [Unquote(item.value)];
      k := k + 1;
    }
  }

  /** One `key:` entry, from the line after it. */
  method ReadEntry(lines: seq<string>, i: nat, value: string) returns (items: seq<string>, k: nat)
    requires i <= |lines|
    ensures i <= k <= |lines| && ReadItems(value, lines[i..]) == Taken(items, lines[k..])
  {
    var rest := value;
    k := i;
    if rest == "" {
      var j := NextFilled(lines, i);
      if j < |lines| && StartsWith(Strip(lines[j]), "[") {
        rest := Strip(lines[j]);
        assert lines[i..][j - i + 1..] == lines[j + 1..];
        k := j + 1;
      }
    }
    assert Adopt(value, lines[i..]) == Taken(rest, lines[k..]);
    if StartsWith(rest, "[") {
      items, k := ReadFlow(lines, k, rest);
    } else {
      items, k := ReadBullets(lines, k, if rest == "" then [] else [Unquote(rest)]);
    }
  }

  method ParseRunbookMeta(text: string) returns (meta: Meta)
    ensures meta == RunbookMeta(text)
  {
    meta := map[];
    var m := Match(DropLeading(text, BOM));
    if m.None? {
      return;
    }
    var lines := SplitLines(m.value.inside);
    var i := 0;
    while i < |lines|
      invariant i <= |lines| && ReadLines(lines, map[]) == ReadLines(lines[i..], meta)
    {
      var entry := Entry(lines[i]);
      assert lines[i..][1..] == lines[i + 1..];
      i := i + 1;
      if entry.Some? {
        var items: seq<string>;
        items, i := ReadEntry(lines, i, entry.value.1);
        meta := meta[entry.value.0 := items];
      }
    }
  }
}
