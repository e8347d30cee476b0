/** Facts about the text of runbooks: stripping blanks, items between commas, lines joined and split
    again, and where a metadata block closes. */
module RunbookText {
  import opened Frontmatter
  import opened Options
  import opened Sequences
  import opened Text

  /** Blanks and tabs. */
  predicate Pad(s: string) {
    forall c :: c in s ==> c == ' ' || c == '\t'
  }

  predicate OneLine(s: string) {
    forall c :: c in s ==> !IsBreak(c)
  }

  /** Not empty and without outer blanks. */
  predicate Trimmed(s: string) {
    s != "" && !IsSpace(s[0]) && !IsSpace(s[|s| - 1])
  }

  predicate LineEnd(eol: string) { eol == "\n" || eol == "\r\n" }

  // ---- stripping ----

  lemma PadTail(p: string)
    requires Pad(p) && p != ""
    ensures Pad(p[1..]) && (p[0] == ' ' || p[0] == '\t')
  {
    assert p[0] in p;
    assert forall c :: c in p[1..] ==> c in p;
  }

  /** Indented text starts with dashes only if the text does. */
  lemma NotDashes(p: string, s: string)
    requires Pad(p) && !StartsWith(s, "---")
    ensures !StartsWith(p + s, "---")
  {
    if p != "" {
      PadTail(p);
      assert (p + s)[0] == p[0];
    } else {
      assert p + s == s;
    }
  }

  predicate Spaces(s: string) {
    forall c :: c in s ==> IsSpace(c)
  }

  lemma {:induction false} LStripSpaces(p: string, s: string)
    requires Spaces(p)
    ensures LStrip(p + s) == LStrip(s)
  {
    if p != "" {
      assert (p + s)[0] == p[0] && p[0] in p;
      assert (p + s)[1..] == p[1..] + s;
      LStripSpaces(p[1..], s);
    } else {
      assert p + s == s;
    }
  }

  lemma {:induction false} RStripSpaces(s: string, q: string)
    requires Spaces(q)
    ensures RStrip(s + q) == RStrip(s)
  {
    if q != "" {
      var n := |q| - 1;
      assert (s + q)[|s + q| - 1] == q[n] && q[n] in q;
      assert (s + q)[..|s + q| - 1] == s + q[..n];
      RStripSpaces(s, q[..n]);
    } else {
      assert s + q == s;
    }
  }

  lemma {:induction false} LStripParts(s: string) returns (p: string)
    ensures Spaces(p) && s == p + LStrip(s)
  {
    if s != "" && IsSpace(s[0]) {
      p := LStripParts(s[1..]);
      p := [s[0]] + p;
    } else {
      p := "";
    }
  }

  lemma {:induction false} RStripParts(s: string) returns (q: string)
    ensures Spaces(q) && s == RStrip(s) + q
  {
    if s != "" && IsSpace(s[|s| - 1]) {
      q := RStripParts(s[..|s| - 1]);
      q := q + [s[|s| - 1]];
    } else {
      q := "";
    }
  }

  lemma StripTrimmed(s: string)
    requires s == "" || Trimmed(s)
    ensures Strip(s) == s && LStrip(s) == s && RStrip(s) == s
  {
  }

  lemma {:induction false} LStripKeeps(s: string, q: string)
    ensures LStrip(s) != "" ==> LStrip(s + q) == LStrip(s) + q
    ensures LStrip(s) == "" ==> LStrip(s + q) == LStrip(q)
  {
    if s != "" && IsSpace(s[0]) {
      assert (s + q)[1..] == s[1..] + q;
      LStripKeeps(s[1..], q);
    } else if s == "" {
      assert s + q == q;
    }
  }

  lemma StripSpaces(p: string, s: string, q: string)
    requires Spaces(p) && Spaces(q)
    ensures Strip(p + s + q) == Strip(s)
  {
    assert p + s + q == p + (s + q);
    LStripSpaces(p, s + q);
    LStripKeeps(s, q);
    if LStrip(s) != "" {
      RStripSpaces(LStrip(s), q);
    } else {
      LStripSpaces(q, "");
      assert q + "" == q;
    }
  }

  lemma StripAround(p: string, s: string, q: string)
    requires Pad(p) && Pad(q) && Trimmed(s)
    ensures Strip(p + s + q) == s && Strip(p + s + q) != ""
  {
    StripSpaces(p, s, q);
    StripTrimmed(s);
  }

  lemma LStripTo(p: string, s: string)
    requires Pad(p) && s != "" && !IsSpace(s[0])
    ensures LStrip(p + s) == s
  {
    LStripSpaces(p, s);
  }

  lemma RStripTwice(x: string)
    ensures RStrip(RStrip(x)) == RStrip(x)
  {
    var q := RStripParts(x);
    RStripSpaces(RStrip(x), q);
  }

  /** What is left of a text between brackets or after a key keeps its own front. */
  lemma {:induction false} RStripKeeps(a: string, s: string)
    requires a != "" && !IsSpace(a[|a| - 1])
    ensures RStrip(a + s) == a + RStrip(s)
  {
    if s != "" && IsSpace(s[|s| - 1]) {
      assert (a + s)[..|a + s| - 1] == a + s[..|s| - 1];
      RStripKeeps(a, s[..|s| - 1]);
    } else if s == "" {
      assert a + s == a;
    }
  }

  /** A text that opens with something visible is stripped at its end only. */
  lemma StripAfter(p: string, k: string, v: string)
    requires Pad(p) && Trimmed(k)
    ensures Strip(p + (k + v)) == k + RStrip(v)
  {
    hide RStrip;
    StripSpaces(p, k + v, "");
    assert p + (k + v) + "" == p + (k + v);
    RStripKeeps(k, v);
    assert (k + v)[0] == k[0];
    assert LStrip(k + v) == k + v;
  }

  lemma StripOfRStrip(v: string)
    ensures Strip(RStrip(v)) == Strip(v)
  {
    hide RStrip, LStrip, Strip;
    var q := RStripParts(v);
    StripSpaces("", RStrip(v), q);
    assert "" + RStrip(v) + q == v;
  }

  /** Stripping a text that is not blank keeps its last visible character. */
  lemma StripEnds(x: string)
    requires Strip(x) != ""
    ensures RStrip(x) != "" && Strip(x)[|Strip(x)| - 1] == RStrip(x)[|RStrip(x)| - 1]
  {
    hide LStrip, Spaces;
    var p := LStripParts(x);
    var q := RStripParts(LStrip(x));
    var s := Strip(x);
    Assoc(p, s, q);
    RStripSpaces(p + s, q);
    assert (p + s)[|p + s| - 1] == s[|s| - 1];
    assert RStrip(p + s) == p + s;
  }

  lemma StripWithin(x: string)
    ensures forall c :: c in Strip(x) ==> c in x
  {
    hide LStrip, RStrip, Spaces;
    var p := LStripParts(x);
    var q := RStripParts(LStrip(x));
    Assoc(p, Strip(x), q);
    assert x == p + Strip(x) + q;
  }

  // ---- the items of a text between commas ----

  function ItemsOf(s: string): seq<string> {
    Cleaned(Split(s, ','))
  }

  lemma CleanedCons(x: string, tokens: seq<string>)
    ensures Cleaned([x] + tokens) == (if Blank(x) then [] else [Unquote(Strip(x))]) + Cleaned(tokens)
  {
    assert ([x] + tokens)[1..] == tokens;
  }

  lemma FindPast(a: string, c: char, t: string)
    requires c !in a
    ensures Find(a + [c] + t, c) == |a| && Find(a, c) == |a|
  {
    assert (a + [c] + t)[|a|] == c;
    assert forall j :: 0 <= j < |a| ==> a[j] in a && (a + [c] + t)[j] == a[j];
  }

  /** A text without a comma, alone and before one. */
  lemma OneToken(a: string, t: string)
    requires ',' !in a
    ensures ItemsOf(a) == if Blank(a) then [] else [Unquote(Strip(a))]
    ensures ItemsOf(a + "," + t) == ItemsOf(a) + ItemsOf(t)
  {
    FindPast(a, ',', t);
    assert Split(a, ',') == [a] + [];
    CleanedCons(a, []);
    assert (a + "," + t)[..|a|] == a && (a + "," + t)[|a| + 1..] == t;
    assert Split(a + "," + t, ',') == [a] + Split(t, ',');
    CleanedCons(a, Split(t, ','));
  }

  lemma FirstComma(s: string) returns (a: string, t: string)
    requires ',' in s
    ensures ',' !in a && s == a + "," + t && |t| < |s|
  {
    var k := Find(s, ',');
    a, t := s[..k], s[k + 1..];
  }

  lemma {:induction false} ItemsComma(a: string, b: string)
    ensures ItemsOf(a + "," + b) == ItemsOf(a) + ItemsOf(b)
    decreases |a|
  {
    hide ItemsOf;
    if ',' in a {
      var x, y := FirstComma(a);
      assert a + "," + b == x + "," + (y + "," + b);
      OneToken(x, y + "," + b);
      OneToken(x, y);
      ItemsComma(y, b);
      assert ItemsOf(x) + (ItemsOf(y) + ItemsOf(b)) == (ItemsOf(x) + ItemsOf(y)) + ItemsOf(b);
    } else {
      OneToken(a, b);
    }
  }

  lemma NoCommaIn(s: string)
    requires Spaces(s)
    ensures ',' !in s
  {
  }

  lemma TokenPadded(p: string, a: string, q: string)
    requires Spaces(p) && Spaces(q) && ',' !in a
    ensures ItemsOf(p + a + q) == ItemsOf(a)
  {
    hide ItemsOf, Strip, IsSpace;
    StripSpaces(p, a, q);
    NoCommaIn(p);
    NoCommaIn(q);
    OneToken(p + a + q, "");
    OneToken(a, "");
  }

  lemma ItemsLeft(p: string, s: string)
    requires Spaces(p)
    ensures ItemsOf(p + s) == ItemsOf(s)
  {
    hide ItemsOf, Spaces;
    assert Spaces("") by { NoSpaces(); }
    if ',' in s {
      var a, t := FirstComma(s);
      TokenPadded(p, a, "");
      assert p + a + "" == p + a && p + s == (p + a) + "," + t;
      ItemsComma(p + a, t);
      ItemsComma(a, t);
    } else {
      TokenPadded(p, s, "");
      assert p + s + "" == p + s;
    }
  }

  lemma NoSpaces()
    ensures Spaces("")
  {
  }

  lemma {:induction false} ItemsRight(s: string, q: string)
    requires Spaces(q)
    ensures ItemsOf(s + q) == ItemsOf(s)
    decreases |s|
  {
    hide ItemsOf, Spaces;
    assert Spaces("") by { NoSpaces(); }
    if ',' in s {
      var a, t := FirstComma(s);
      ItemsRight(t, q);
      assert s + q == a + "," + (t + q);
      ItemsComma(a, t + q);
      ItemsComma(a, t);
    } else {
      TokenPadded("", s, q);
      assert "" + s + q == s + q;
    }
  }

  lemma ItemsStrip(s: string)
    ensures ItemsOf(Strip(s)) == ItemsOf(s) && ItemsOf(LStrip(s)) == ItemsOf(s) && ItemsOf(RStrip(s)) == ItemsOf(s)
  {
    hide ItemsOf, LStrip, RStrip, Spaces;
    var p := LStripParts(s);
    ItemsLeft(p, LStrip(s));
    var q := RStripParts(LStrip(s));
    ItemsRight(Strip(s), q);
    var r := RStripParts(s);
    ItemsRight(RStrip(s), r);
  }

  lemma NoItems(s: string)
    requires Spaces(s)
    ensures ItemsOf(s) == []
  {
    ItemsLeft(s, "");
    assert s + "" == s;
    OneToken("", "");
  }

  lemma FlowOf(inner: string)
    requires ']' !in inner
    ensures FlowItems("[" + inner + "]") == ItemsOf(inner)
  {
    var buf := "[" + inner + "]";
    assert buf[|buf| - 1] == ']';
    assert buf[1..|buf| - 1] == inner;
  }

  // ---- safe texts ----

  lemma PadSafe(p: string)
    requires Pad(p)
    ensures Spaces(p) && OneLine(p) && ',' !in p && ']' !in p
  {
  }

  lemma OneLineJoin(a: string, b: string)
    requires OneLine(a) && OneLine(b)
    ensures OneLine(a + b)
  {
  }

  // ---- lines ----

  /** A line that survives joining and splitting, and does not close the block. */
  predicate Unbroken(line: string) {
    OneLine(line) && !StartsWith(line, "---")
  }

  predicate AllUnbroken(lines: seq<string>) {
    forall k :: 0 <= k < |lines| ==> Unbroken(lines[k])
  }

  lemma UnbrokenJoin(a: seq<string>, b: seq<string>)
    requires AllUnbroken(a) && AllUnbroken(b)
    ensures AllUnbroken(a + b)
  {
  }

  lemma PadUnbroken(line: string)
    requires Pad(line)
    ensures Unbroken(line)
  {
    if line != "" {
      PadTail(line);
    }
  }

  lemma FindBreakPast(line: string, t: string)
    requires OneLine(line)
    ensures FindBreak(line) == |line|
    ensures t != "" && IsBreak(t[0]) ==> FindBreak(line + t) == |line|
  {
    assert forall j :: 0 <= j < |line| ==> line[j] in line && (line + t)[j] == line[j];
    assert t != "" ==> (line + t)[|line|] == t[0];
  }

  lemma LineThen(line: string, eol: string, rest: string)
    requires LineEnd(eol) && OneLine(line)
    ensures SplitLines(line + eol + rest) == [line] + SplitLines(rest)
  {
    var s := line + eol + rest;
    FindBreakPast(line, eol + rest);
    assert s == line + (eol + rest);
    assert s[..|line|] == line && s[|line| + |eol|..] == rest;
    assert s[|line|] == eol[0];
    assert |eol| == 2 ==> s[|line| + 1] == '\n';
  }

  /** Joined lines split again, unless the last of them is empty. */
  lemma {:induction false} LinesBack(lines: seq<string>, eol: string)
    requires LineEnd(eol) && AllUnbroken(lines) && (lines != [] ==> lines[|lines| - 1] != "")
    ensures SplitLines(Join(lines, eol)) == lines
    ensures lines != [] ==> Join(lines, eol) != ""
  {
    hide SplitLines;
    if lines != [] {
      assert Unbroken(lines[0]);
      if |lines| == 1 {
        OnlyLine(lines[0]);
      } else {
        LinesBack(lines[1..], eol);
        LineThen(lines[0], eol, Join(lines[1..], eol));
        assert lines == [lines[0]] + lines[1..];
      }
    } else {
      NoLines();
    }
  }

  lemma OnlyLine(line: string)
    requires OneLine(line) && line != ""
    ensures SplitLines(line) == [line]
  {
    FindBreakPast(line, "");
  }

  lemma NoLines()
    ensures SplitLines("") == []
  {
  }

  // ---- where the block closes ----

  function Before(p: string, b: Option<Block>): Option<Block> {
    match b
    case None => None
    case Some(c) => Some(c.(inside := p + c.inside))
  }

  lemma BeforeTwice(p: string, q: string, b: Option<Block>)
    ensures Before(p, Before(q, b)) == Before(p + q, b)
  {
    if b.Some? {
      assert p + (q + b.value.inside) == (p + q) + b.value.inside;
    }
  }

  lemma {:induction false} CloseSkips(line: string, s: string)
    requires OneLine(line)
    ensures Close(line + s) == Before(line, Close(s))
  {
    if line == "" {
      assert line + s == s;
      assert Close(s).Some? ==> "" + Close(s).value.inside == Close(s).value.inside;
    } else {
      assert line[0] in line && (line + s)[0] == line[0] && (line + s)[1..] == line[1..] + s;
      CloseSkips(line[1..], s);
      BeforeTwice([line[0]], line[1..], Close(s));
      assert [line[0]] + line[1..] == line;
    }
  }

  lemma CloseStep(s: string)
    requires s != "" && !StartsWith(s, "\n---") && !StartsWith(s, "\r\n---")
    ensures Close(s) == Before([s[0]], Close(s[1..]))
  {
  }

  lemma NewlineGoesOn(rest: string)
    requires !StartsWith(rest, "---")
    ensures Close("\n" + rest) == Before("\n", Close(rest))
  {
    hide Close;
    NotHere("\n", rest);
    CloseStep("\n" + rest);
    assert ("\n" + rest)[1..] == rest && "\n" == ['\n'];
  }

  lemma ReturnGoesOn(rest: string)
    requires !StartsWith(rest, "---")
    ensures Close("\r\n" + rest) == Before("\r", Close("\n" + rest))
  {
    hide Close;
    NotHere("\r\n", rest);
    CloseStep("\r\n" + rest);
    assert ("\r\n" + rest)[1..] == "\n" + rest && "\r" == ['\r'];
  }

  /** A line end that three dashes do not follow does not close the block. */
  lemma CloseGoesOn(eol: string, rest: string)
    requires LineEnd(eol) && !StartsWith(rest, "---")
    ensures Close(eol + rest) == Before(eol, Close(rest))
  {
    NewlineGoesOn(rest);
    hide Close, Before, StartsWith;
    if eol == "\r\n" {
      ReturnGoesOn(rest);
      BeforeTwice("\r", "\n", Close(rest));
      assert "\r" + "\n" == "\r\n";
    }
  }

  lemma PrefixShift(a: string, p: string, s: string)
    requires a + p <= a + s
    ensures p <= s
  {
    assert (a + p)[|a|..] == p && (a + s)[|a|..] == s;
  }

  lemma NotHere(eol: string, rest: string)
    requires LineEnd(eol) && !StartsWith(rest, "---")
    ensures !StartsWith(eol + rest, "\n---") && !StartsWith(eol + rest, "\r\n---")
  {
    assert "\n---" == "\n" + "---" && "\r\n---" == "\r\n" + "---";
    if eol + "---" <= eol + rest {
      PrefixShift(eol, "---", rest);
    }
    assert (eol + rest)[0] == eol[0];
  }

  lemma CloseHere(eol: string, after: string)
    requires LineEnd(eol)
    ensures Close(eol + "---" + after) == Some(Block("", AfterClose(after)))
  {
    var s := eol + "---" + after;
    if eol == "\n" {
      assert s == "\n---" + after;
      assert s[4..] == after;
    } else {
      assert s == "\r\n---" + after;
      assert s[5..] == after && s[0] == '\r';
    }
  }

  lemma NoDashStart(line: string, eol: string, rest: string)
    requires LineEnd(eol) && Unbroken(line)
    ensures !StartsWith(line + (eol + rest), "---")
  {
    var s := line + (eol + rest);
    assert s[|line|] == eol[0];
    if |line| >= 3 {
      assert s[..3] == line[..3];
    }
  }

  lemma JoinCons(lines: seq<string>, eol: string, t: string)
    requires |lines| > 1
    ensures Join(lines, eol) == lines[0] + eol + Join(lines[1..], eol)
    ensures Join(lines, eol) + t == lines[0] + (eol + (Join(lines[1..], eol) + t))
  {
    var p := Join(lines[1..], eol);
    assert Join(lines, eol) == lines[0] + eol + p;
    hide Join;
    Assoc(lines[0] + eol, p, t);
    Assoc(lines[0], eol, p + t);
  }

  /** The block ends at the first line of dashes after the lines, and they are its inside. */
  lemma {:induction false} CloseAfter(lines: seq<string>, eol: string, after: string)
    requires LineEnd(eol) && AllUnbroken(lines)
    ensures Close(Join(lines, eol) + (eol + "---" + after)) == Some(Block(Join(lines, eol), AfterClose(after)))
    ensures lines != [] ==> !StartsWith(Join(lines, eol) + (eol + "---" + after), "---")
  {
    hide Close, Unbroken, AfterClose, StartsWith;
    var t := eol + "---" + after;
    CloseHere(eol, after);
    Assoc(eol, "---", after);
    if lines == [] {
      assert "" + t == t;
    } else if |lines| == 1 {
      UnbrokenParts(lines[0]);
      CloseSkips(lines[0], t);
      assert lines[0] + "" == lines[0];
      NoDashStart(lines[0], eol, "---" + after);
    } else {
      hide Join;
      var p := Join(lines[1..], eol);
      CloseAfter(lines[1..], eol, after);
      UnbrokenParts(lines[0]);
      JoinCons(lines, eol, t);
      CloseSkips(lines[0], eol + (p + t));
      CloseGoesOn(eol, p + t);
      BeforeTwice(lines[0], eol, Close(p + t));
      NoDashStart(lines[0], eol, p + t);
    }
  }

  lemma UnbrokenParts(line: string)
    requires Unbroken(line)
    ensures OneLine(line)
  {
  }

  lemma {:induction false} SkipPad(p: string, s: string)
    requires Pad(p) && s != "" && s[0] != ' ' && s[0] != '\t'
    ensures SkipBlanks(p + s) == s
  {
    if p != "" {
      PadTail(p);
      assert (p + s)[0] == p[0] && (p + s)[1..] == p[1..] + s;
      SkipPad(p[1..], s);
    } else {
      assert p + s == s;
    }
  }

  lemma AfterLineEnd(close: string, eol: string, body: string)
    requires LineEnd(eol) && Pad(close)
    ensures AfterClose(close + eol + body) == body
  {
    assert close + eol + body == close + (eol + body);
    SkipPad(close, eol + body);
    assert eol == "\n" ==> (eol + body)[1..] == body;
    assert eol == "\r\n" ==> (eol + body)[1..] == "\n" + body && ("\n" + body)[1..] == body;
  }

  lemma HeaderMatch(open: string, eol: string, rest: string)
    requires LineEnd(eol) && Pad(open)
    ensures Match("---" + open + eol + rest) == Close(rest)
  {
    var text := "---" + open + eol + rest;
    assert text[3..] == open + (eol + rest) && (eol + rest)[|eol|..] == rest;
    SkipPad(open, eol + rest);
  }

  lemma {:induction false} CloseShorter(s: string)
    ensures Close(s).Some? ==> |Close(s).value.after| < |s|
  {
    if StartsWith(s, "\n---") {
      AfterShorter(s[4..]);
    } else if StartsWith(s, "\r\n---") {
      AfterShorter(s[5..]);
    } else if s != [] {
      CloseShorter(s[1..]);
    }
  }

  lemma AfterShorter(s: string)
    ensures |AfterClose(s)| <= |s|
  {
  }

  lemma MatchShorter(text: string)
    requires Match(text).Some?
    ensures |Match(text).value.after| < |text|
  {
    var t := SkipBlanks(text[3..]);
    CloseShorter(if StartsWith(t, "\r\n") then t[2..] else t[1..]);
  }

  lemma {:induction false} Shorter(s: string, c: char)
    ensures |DropLeading(s, c)| <= |s|
    ensures s != [] && s[0] == c ==> |DropLeading(s, c)| < |s|
    ensures s != [] && s[0] != c ==> DropLeading(s, c) == s
  {
    if s != [] && s[0] == c {
      Shorter(s[1..], c);
    }
  }

  lemma NoBlockYet(text: string)
    requires text != "" && text[0] == BOM
    ensures Match(text) == None
  {
  }
}
