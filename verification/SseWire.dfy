/** The event-stream wire: the server's frame printer and the browser's incremental parser,
    the data-only subset of section 9.2.6 of the WHATWG HTML Living Standard. */
module SseWire {
  import opened Json
  import opened Sequences
  import T = Text

  const BREAK := "\n\n"
  const DATA := "data: "

  function Sse(event: Json): string {
    DATA + Dumps(event) + BREAK
  }

  function Print(events: seq<Json>): string {
    if events == [] then "" else Sse(events[0]) + Print(events[1..])
  }

  // ---- cutting a text into frames ----

  /** Two line breaks in a row at `k`. */
  predicate IsBlank(s: string, k: int) {
    0 <= k && k + 1 < |s| && s[k] == '\n' && s[k + 1] == '\n'
  }

  /** Index of the first blank line, |s| when there is none. */
  function Blank(s: string): (k: nat)
    ensures k <= |s|
    ensures k < |s| ==> IsBlank(s, k)
    ensures forall j :: IsBlank(s, j) ==> k <= j
  {
    if |s| < 2 then |s|
    else if IsBlank(s, 0) then 0
    else
      var k := Blank(s[1..]);
      assert forall j :: IsBlank(s, j) ==> j > 0 && IsBlank(s[1..], j - 1);
      k + 1
  }

  function Frames(s: string): seq<string>
    decreases |s|
  {
    var k := Blank(s);
    if k == |s| then [] else [s[..k]] + Frames(s[k + 2..])
  }

  function Rest(s: string): string
    decreases |s|
  {
    var k := Blank(s);
    if k == |s| then s else Rest(s[k + 2..])
  }

  /** Text after a blank line cannot move it. */
  lemma BlankStable(a: string, b: string)
    requires Blank(a) < |a|
    ensures Blank(a + b) == Blank(a)
  {
    assert IsBlank(a + b, Blank(a));
    assert forall j :: IsBlank(a + b, j) && j < Blank(a) ==> IsBlank(a, j);
  }

  lemma FirstFrame(a: string, b: string)
    requires Blank(a) < |a|
    ensures var k := Blank(a); Frames(a + b) == [a[..k]] + Frames(a[k + 2..] + b) && Rest(a + b) == Rest(a[k + 2..] + b)
  {
    var k := Blank(a);
    BlankStable(a, b);
    hide Blank;
    assert (a + b)[k + 2..] == a[k + 2..] + b;
    assert (a + b)[..k] == a[..k];
  }

  lemma FramesUnfold(s: string)
    ensures var k := Blank(s);
      && (k == |s| ==> Frames(s) == [] && Rest(s) == s)
      && (k < |s| ==> k + 2 <= |s| && Frames(s) == [s[..k]] + Frames(s[k + 2..]) && Rest(s) == Rest(s[k + 2..]))
  {
    hide Blank;
  }

  /** The parser may stop at any cut and go on with what is left over: the frames of a text are
      those of its beginning and then those of the leftover with the rest. */
  lemma {:induction false} FramesExtend(a: string, b: string)
    ensures Frames(a + b) == Frames(a) + Frames(Rest(a) + b)
    ensures Rest(a + b) == Rest(Rest(a) + b)
    decreases |a|
  {
    hide Blank, Frames, Rest;
    FramesUnfold(a);
    var k := Blank(a);
    if k < |a| {
      var tail := a[k + 2..];
      FirstFrame(a, b);
      FramesExtend(tail, b);
      assert [a[..k]] + (Frames(tail) + Frames(Rest(a) + b)) == ([a[..k]] + Frames(tail)) + Frames(Rest(a) + b);
    } else {
      assert [] + Frames(a + b) == Frames(a + b);
    }
  }

  function Glue(frames: seq<string>, rest: string): string {
    if frames == [] then rest else frames[0] + BREAK + Glue(frames[1..], rest)
  }

  /** The first blank line after this text is the one put behind it. */
  predicate Closed(frame: string) {
    Blank(frame + BREAK) == |frame|
  }

  lemma CutAt(s: string, k: nat)
    requires k == Blank(s) && k < |s|
    ensures s == s[..k] + BREAK + s[k + 2..] && Closed(s[..k])
  {
    assert s == s[..k] + BREAK + s[k + 2..] by {
      BlankSplits(s, k);
    }
    var t := s[..k] + BREAK;
    assert forall j :: IsBlank(t, j) ==> IsBlank(s, j);
    BlankIs(t, k);
  }

  lemma BlankSplits(s: string, k: nat)
    requires IsBlank(s, k)
    ensures s == s[..k] + BREAK + s[k + 2..]
  {
  }

  lemma BlankIs(s: string, k: nat)
    requires k <= |s| && (k < |s| ==> IsBlank(s, k)) && forall j :: IsBlank(s, j) ==> k <= j
    ensures Blank(s) == k
  {
  }

  lemma {:induction false} FramesGlue(s: string)
    ensures Glue(Frames(s), Rest(s)) == s && Blank(Rest(s)) == |Rest(s)|
    ensures forall f :: f in Frames(s) ==> Closed(f)
    decreases |s|
  {
    hide Blank, Closed;
    var k := Blank(s);
    if k < |s| {
      FramesGlue(s[k + 2..]);
      CutAt(s, k);
      assert Frames(s)[1..] == Frames(s[k + 2..]);
    }
  }

  lemma {:induction false} GlueFrames(frames: seq<string>, rest: string)
    requires Blank(rest) == |rest| && forall f :: f in frames ==> Closed(f)
    ensures Frames(Glue(frames, rest)) == frames && Rest(Glue(frames, rest)) == rest
  {
    if frames != [] {
      var f, tail := frames[0], Glue(frames[1..], rest);
      GlueFrames(frames[1..], rest);
      assert Closed(f);
      FirstFrame(f + BREAK, tail);
      hide Blank;
      assert (f + BREAK)[|f| + 2..] + tail == tail && (f + BREAK)[..|f|] == f;
    }
  }

  /** Frames lose nothing and are cut in the only possible way: they are the texts that, with a blank
      line behind each and the leftover at the end, make up the stream, where no blank line comes
      earlier in a frame or at all in the leftover. */
  lemma FramesIff(s: string, frames: seq<string>, rest: string)
    ensures Frames(s) == frames && Rest(s) == rest <==>
            Glue(frames, rest) == s && Blank(rest) == |rest| && forall f :: f in frames ==> Blank(f + "\n\n") == |f|
  {
    hide Blank;
    FramesGlue(s);
    if Blank(rest) == |rest| && forall f :: f in frames ==> Closed(f) {
      GlueFrames(frames, rest);
    }
    assert forall f :: f in frames ==> (Closed(f) <==> Blank(f + "\n\n") == |f|);
  }

  // ---- from a frame to its data ----

  function Lines(s: string): (r: seq<string>)
    ensures r != []
  {
    if s == "" then [""]
    else
      var rest := Lines(s[1..]);
      if s[0] == '\n' then [""] + rest else [[s[0]] + rest[0]] + rest[1..]
  }

  function DataLines(lines: seq<string>): seq<string> {
    if lines == [] then []
    else (if T.StartsWith(lines[0], DATA) then [lines[0][6..]] else []) + DataLines(lines[1..])
  }

  function DataOf(frame: string): string {
    T.Join(DataLines(Lines(frame)), "\n")
  }

  lemma {:induction false} LinesOfLine(s: string)
    requires '\n' !in s
    ensures Lines(s) == [s]
  {
    if s != "" {
      assert s[0] != '\n';
      LinesOfLine(s[1..]);
      assert [s[0]] + s[1..] == s;
    }
  }

  lemma {:induction false} LinesOfJoined(lines: seq<string>)
    requires lines != [] && forall l :: l in lines ==> '\n' !in l
    ensures Lines(T.Join(lines, "\n")) == lines
    decreases |lines|, |lines[0]|
  {
    var l := lines[0];
    assert '\n' !in l;
    if |lines| == 1 {
      LinesOfLine(l);
    } else if l == "" {
      assert T.Join(lines, "\n") == "\n" + T.Join(lines[1..], "\n");
      LinesOfJoined(lines[1..]);
      assert lines == [""] + lines[1..];
    } else {
      var shorter := [l[1..]] + lines[1..];
      assert shorter[1..] == lines[1..] && l == [l[0]] + l[1..];
      assert T.Join(lines, "\n") == [l[0]] + T.Join(shorter, "\n");
      assert l[0] in l;
      LinesOfJoined(shorter);
      assert [[l[0]] + shorter[0]] + shorter[1..] == lines;
    }
  }

  predicate IsData(line: string) { |line| >= 6 && line[..6] == "data: " }

  /** The data of a frame: its lines that begin with "data: ", without that, one under the other. */
  lemma DataOfJoined(lines: seq<string>)
    requires lines != [] && forall l :: l in lines ==> '\n' !in l
    ensures exists texts :: DataOf(T.Join(lines, "\n")) == T.Join(texts, "\n") && TextsOf(lines, texts)
  {
    LinesOfJoined(lines);
    DataTexts(lines);
  }

  /** `texts` are the data lines among `lines`, in order, each less its first six characters. */
  predicate TextsOf(lines: seq<string>, texts: seq<string>) {
    if lines == [] then texts == []
    else if IsData(lines[0]) then texts != [] && texts[0] == lines[0][6..] && TextsOf(lines[1..], texts[1..])
    else TextsOf(lines[1..], texts)
  }

  lemma {:induction false} DataTexts(lines: seq<string>)
    ensures TextsOf(lines, DataLines(lines))
  {
    if lines != [] {
      DataTexts(lines[1..]);
      assert T.StartsWith(lines[0], DATA) <==> IsData(lines[0]);
      if IsData(lines[0]) {
        assert DataLines(lines)[1..] == DataLines(lines[1..]);
      } else {
        assert DataLines(lines) == DataLines(lines[1..]);
      }
    }
  }

  // ---- delivering frames ----

  /** What JSON parsing and the schema check make of a frame's data; a syntax error throws. */
  datatype Parsed<E> = Valid(event: E) | Invalid(message: string) | SyntaxError

  datatype Out<E> = Yielded(event: E) | Error(message: string)

  datatype Delivery<E> = Delivery(outs: seq<Out<E>>, threw: bool)

  /** One frame: without data it is skipped, after a throw nothing is read any more. */
  function Take<E>(d: Delivery<E>, frame: string, parse: string -> Parsed<E>): Delivery<E> {
    var data := DataOf(frame);
    if d.threw || data == "" then d
    else match parse(data)
         case Valid(e) => Delivery(d.outs + [Yielded(e)], false)
         case Invalid(m) => Delivery(d.outs + [Error("malformed event: " + m)], false)
         case SyntaxError => Delivery(d.outs, true)
  }

  function Deliver<E>(frames: seq<string>, parse: string -> Parsed<E>): Delivery<E> {
    if frames == [] then Delivery([], false)
    else Take(Deliver(frames[..|frames| - 1], parse), frames[|frames| - 1], parse)
  }

  lemma DeliverSnoc<E>(frames: seq<string>, frame: string, parse: string -> Parsed<E>)
    ensures Deliver(frames + [frame], parse) == Take(Deliver(frames, parse), frame, parse)
  {
    assert (frames + [frame])[..|frames|] == frames;
  }

  lemma {:induction false} DeliverAfterThrow<E>(frames: seq<string>, more: seq<string>, parse: string -> Parsed<E>)
    requires Deliver(frames, parse).threw
    ensures Deliver(frames + more, parse) == Deliver(frames, parse)
    decreases |more|
  {
    if more == [] {
      assert frames + more == frames;
    } else {
      assert frames + more == (frames + more[..|more| - 1]) + [more[|more| - 1]];
      DeliverAfterThrow(frames, more[..|more| - 1], parse);
      DeliverSnoc(frames + more[..|more| - 1], more[|more| - 1], parse);
    }
  }

  lemma {:induction false} ConcatSplit(chunks: seq<string>, i: nat)
    requires i <= |chunks|
    ensures exists rest :: Concat(chunks) == Concat(chunks[..i]) + rest
    decreases |chunks|
  {
    if i == |chunks| {
      assert chunks[..i] == chunks;
      assert Concat(chunks) == Concat(chunks[..i]) + "";
    } else {
      var init := chunks[..|chunks| - 1];
      ConcatSplit(init, i);
      assert init[..i] == chunks[..i];
      var rest :| Concat(init) == Concat(init[..i]) + rest;
      assert Concat(chunks) == Concat(chunks[..i]) + (rest + chunks[|chunks| - 1]);
    }
  }

  method TakeFrame<E>(d: Delivery<E>, frame: string, parse: string -> Parsed<E>) returns (r: Delivery<E>)
    requires !d.threw
    ensures r == Take(d, frame, parse)
    ensures DataOf(frame) == "" ==> r == d
    ensures DataOf(frame) != "" ==>
      match parse(DataOf(frame))
      case Valid(e) => !r.threw && r.outs == d.outs + [Yielded(e)]
      case Invalid(m) => !r.threw && r.outs == d.outs + [Error("malformed event: " + m)]
      case SyntaxError => r.threw && r.outs == d.outs
  {
    var data := DataOf(frame);
    if data == "" {
      return d;
    }
    match parse(data) {
      case Valid(e) => r := Delivery(d.outs + [Yielded(e)], false);
      case Invalid(m) => r := Delivery(d.outs + [Error("malformed event: " + m)], false);
      case SyntaxError => r := Delivery(d.outs, true);
    }
  }

  lemma Regroup(seen: seq<string>, s: string, k: nat)
    requires Blank(s) == k && k < |s|
    ensures seen + Frames(s) == (seen + [s[..k]]) + Frames(s[k + 2..])
    ensures Rest(s) == Rest(s[k + 2..])
  {
    hide Blank, Frames, Rest;
    FramesUnfold(s);
    Assoc(seen, [s[..k]], Frames(s[k + 2..]));
  }

  /** The inner loop: takes every complete frame off the buffer, unless one throws. */
  method Drain<E>(buffer: string, d0: Delivery<E>, parse: string -> Parsed<E>, ghost done: seq<string>)
    returns (rest: string, d: Delivery<E>)
    requires d0 == Deliver(done, parse) && !d0.threw
    ensures d == Deliver(done + Frames(buffer), parse)
    ensures !d.threw ==> rest == Rest(buffer)
  {
    rest, d := buffer, d0;
    ghost var seen := done;
    var sep := T.IndexOf(rest, BREAK);
    SepIsBlank(rest, sep);
    while sep != -1
      invariant Blank(rest) == if sep == -1 then |rest| else sep
      invariant sep != -1 ==> 0 <= sep < |rest|
      invariant done + Frames(buffer) == seen + Frames(rest) && Rest(buffer) == Rest(rest)
      invariant d == Deliver(seen, parse) && !d.threw
      decreases |rest|
    {
      var frame := rest[..sep];
      Regroup(seen, rest, sep);
      DeliverSnoc(seen, frame, parse);
      rest := rest[sep + 2..];
      seen := seen + [frame];
      d := TakeFrame(d, frame, parse);
      if d.threw {
        DeliverAfterThrow(seen, Frames(rest), parse);
        return;
      }
      sep := T.IndexOf(rest, BREAK);
      SepIsBlank(rest, sep);
    }
    assert seen + [] == seen;
  }

  /** The incremental reader. What it yields depends on the concatenated text only, so not on
      where the chunks are cut. */
  method ReadAgentStream<E>(ok: bool, status: string, chunks: seq<string>, parse: string -> Parsed<E>) returns (d: Delivery<E>)
    ensures !ok ==> d == Delivery([Error("stream failed: HTTP " + status)], false)
    ensures ok ==> d == Deliver(Frames(Concat(chunks)), parse)
  {
    if !ok {
      return Delivery([Error("stream failed: HTTP " + status)], false);
    }
    var buffer := "";
    d := Delivery([], false);
    for i := 0 to |chunks|
      invariant buffer == Rest(Concat(chunks[..i]))
      invariant d == Deliver(Frames(Concat(chunks[..i])), parse) && !d.threw
    {
      ghost var before := Concat(chunks[..i]);
      assert chunks[..i + 1][..i] == chunks[..i];
      FramesExtend(before, chunks[i]);
      buffer, d := Drain(buffer + chunks[i], d, parse, Frames(before));
      if d.threw {
        ThrowIsFinal(chunks, i + 1, parse);
        return;
      }
    }
    assert chunks[..|chunks|] == chunks;
  }

  lemma SepIsBlank(s: string, k: int)
    requires k == -1 <==> !T.Contains(s, BREAK)
    requires k != -1 ==> T.At(s, BREAK, k) && forall j :: T.At(s, BREAK, j) ==> k <= j
    ensures Blank(s) == if k == -1 then |s| else k
    ensures k != -1 ==> 0 <= k < |s|
  {
    forall j ensures IsBlank(s, j) <==> T.At(s, BREAK, j) {
      if 0 <= j && j + 1 < |s| {
        assert s[j..j + 2] == [s[j], s[j + 1]];
      }
    }
  }

  /** Once a frame has thrown, later chunks add nothing. */
  lemma ThrowIsFinal<E>(chunks: seq<string>, i: nat, parse: string -> Parsed<E>)
    requires i <= |chunks| && Deliver(Frames(Concat(chunks[..i])), parse).threw
    ensures Deliver(Frames(Concat(chunks)), parse) == Deliver(Frames(Concat(chunks[..i])), parse)
  {
    var text := Concat(chunks[..i]);
    ConcatSplit(chunks, i);
    var rest :| Concat(chunks) == text + rest;
    FramesExtend(text, rest);
    DeliverAfterThrow(Frames(text), Frames(Rest(text) + rest), parse);
  }

  // ---- round trip ----

  lemma DataOfLine(text: string)
    requires '\n' !in text
    ensures DataOf(DATA + text) == text
  {
    var frame := DATA + text;
    assert '\n' !in DATA;
    LinesOfLine(frame);
    assert frame[6..] == text && frame[..6] == DATA;
    assert DataLines([frame]) == [text];
  }

  lemma LineThenBlank(frame: string, tail: string)
    requires '\n' !in frame
    ensures var s := frame + BREAK + tail;
            Blank(s) == |frame| && |frame| < |s| && s[..|frame|] == frame && s[|frame| + 2..] == tail
  {
    var s := frame + BREAK + tail;
    assert IsBlank(s, |frame|);
    assert forall j :: 0 <= j < |frame| ==> s[j] == frame[j] && s[j] in frame;
    BlankIs(s, |frame|);
  }

  /** What one event looks like on the wire. */
  lemma PrintedText(event: Json)
    ensures Print([event]) == "data: " + Dumps(event) + "\n\n"
  {
    assert Print([event]) == Sse(event) + Print([event][1..]);
    assert Sse(event) + "" == Sse(event);
  }

  /** One printed event is one frame, whose data is the event's text. */
  lemma PrintedFrame(event: Json, tail: string)
    ensures Frames(Sse(event) + tail) == [DATA + Dumps(event)] + Frames(tail)
    ensures Rest(Sse(event) + tail) == Rest(tail)
    ensures DataOf(DATA + Dumps(event)) == Dumps(event) && Dumps(event) != ""
  {
    DumpsPrintable(event);
    var frame := DATA + Dumps(event);
    assert '\n' !in DATA && '\n' !in Dumps(event);
    DataOfLine(Dumps(event));
    LineThenBlank(frame, tail);
    assert Sse(event) + tail == frame + BREAK + tail;
    FramesUnfold(frame + BREAK + tail);
  }

  function WireFrames(events: seq<Json>): seq<string> {
    seq(|events|, i requires 0 <= i < |events| => DATA + Dumps(events[i]))
  }

  lemma WireFramesCons(events: seq<Json>)
    requires events != []
    ensures WireFrames(events) == [DATA + Dumps(events[0])] + WireFrames(events[1..])
  {
  }

  lemma {:induction false} PrintFrames(events: seq<Json>)
    ensures Frames(Print(events)) == WireFrames(events) && Rest(Print(events)) == ""
  {
    if events != [] {
      PrintedFrame(events[0], Print(events[1..]));
      PrintFrames(events[1..]);
      WireFramesCons(events);
    }
  }

  function YieldAll<E>(events: seq<E>): seq<Out<E>> {
    seq(|events|, i requires 0 <= i < |events| => Yielded(events[i]))
  }

  lemma TakePrinted(events: seq<Json>, last: Json, parse: string -> Parsed<Json>)
    requires parse(Dumps(last)) == Valid(last)
    ensures Take(Delivery(YieldAll(events), false), DATA + Dumps(last), parse) == Delivery(YieldAll(events + [last]), false)
  {
    PrintedFrame(last, "");
    hide Dumps, DataOf;
    assert YieldAll(events + [last]) == YieldAll(events) + [Yielded(last)];
  }

  lemma {:induction false} DeliverPrinted(events: seq<Json>, parse: string -> Parsed<Json>)
    requires forall e :: e in events ==> parse(Dumps(e)) == Valid(e)
    ensures Deliver(WireFrames(events), parse) == Delivery(YieldAll(events), false)
    decreases |events|
  {
    hide Dumps, Take;
    if events != [] {
      var init, last := events[..|events| - 1], events[|events| - 1];
      DeliverPrinted(init, parse);
      assert init + [last] == events;
      assert WireFrames(events) == WireFrames(init) + [DATA + Dumps(last)];
      DeliverSnoc(WireFrames(init), DATA + Dumps(last), parse);
      TakePrinted(init, last, parse);
    }
  }

  /** Any JSON events, printed and then read in chunks of any size, come back in order, each
      exactly once, with nothing left over: newlines and quotes inside them do not matter. */
  lemma WireRoundTrip(events: seq<Json>, chunks: seq<string>, parse: string -> Parsed<Json>)
    requires Concat(chunks) == Print(events)
    requires forall e :: e in events ==> parse(Dumps(e)) == Valid(e)
    ensures Deliver(Frames(Concat(chunks)), parse) == Delivery(YieldAll(events), false)
    ensures Rest(Concat(chunks)) == ""
  {
    PrintFrames(events);
    DeliverPrinted(events, parse);
  }

  /** A stream cut off anywhere has delivered a prefix of its frames. */
  lemma CutStreamIsPrefix(text: string, cut: nat)
    requires cut <= |text|
    ensures Frames(text[..cut]) <= Frames(text)
  {
    assert text == text[..cut] + text[cut..];
    FramesExtend(text[..cut], text[cut..]);
  }
}
