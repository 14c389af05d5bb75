/**
 * The event stream interpretation of section 9.2.6 of the WHATWG HTML standard for streams whose line ends are all LF,
 * and what it dispatches for each frame that the bridge cuts off.
 */
module SseReference {
  import opened Outcomes
  import opened Text
  import opened Framing
  import opened Bridge
  import opened SseEvents

  datatype Event = Event(name: string, data: string)

  /** The event type buffer, the data buffer, and the events dispatched so far. */
  datatype Buffers = Buffers(name: string, data: string, out: seq<Event>)

  function StripSpace(s: string): string {
    if s != "" && s[0] == ' ' then s[1..] else s
  }

  function ProcessField(b: Buffers, field: string, value: string): Buffers {
    if field == "event" then b.(name := value)
    else if field == "data" then b.(data := b.data + value + "\n")
    else b
  }

  function Dispatch(b: Buffers): Buffers {
    if b.data == "" then b.(name := "")
    else Buffers("", "", b.out + [Event(if b.name == "" then "message" else b.name, b.data[..|b.data| - 1])])
  }

  function ProcessLine(b: Buffers, line: string): Buffers {
    if line == "" then Dispatch(b)
    else
      match Find(line, ":", 0)
      case Some(i) => if i == 0 then b else ProcessField(b, line[..i], StripSpace(line[i + 1..]))
      case None => ProcessField(b, line, "")
  }

  function Interpret(b: Buffers, lines: seq<string>): Buffers
    decreases |lines|
  {
    if lines == [] then b else Interpret(ProcessLine(b, lines[0]), lines[1..])
  }

  /** The events a conforming client dispatches for the complete lines of a text. */
  function Dispatched(text: string): seq<Event> {
    Interpret(Buffers("", "", []), Frames("\n", text).frames).out
  }

  /** The JSON messages among them. */
  function MessagesIn(parse: Parser, events: seq<Event>): seq<Incoming> {
    if events == [] then []
    else
      var e := events[0];
      var m := parse(e.data);
      (if e.name == "message" && m.Some? then [m.value] else []) + MessagesIn(parse, events[1..])
  }

  /** The data of the first endpoint event. */
  function EndpointIn(events: seq<Event>): Option<string> {
    if events == [] then None
    else if events[0].name == "endpoint" then Some(Trim(events[0].data))
    else EndpointIn(events[1..])
  }

  // ---- What a frame says to the standard: a field needs no colon, the last event field counts, one space is dropped ----

  predicate IsEventLine(line: string) {
    StartsWith(line, "event:")
  }

  predicate IsDataLine(line: string) {
    StartsWith(line, "data:")
  }

  function TypeOf(line: string, before: string): string {
    if line == "event" then "" else if IsEventLine(line) then StripSpace(line[6..]) else before
  }

  /** The event type buffer after these lines. */
  function TypeAfter(lines: seq<string>, before: string): string {
    if lines == [] then before else TypeAfter(lines[1..], TypeOf(lines[0], before))
  }

  function DataOf(line: string): seq<string> {
    if line == "data" then [""] else if IsDataLine(line) then [StripSpace(line[5..])] else []
  }

  /** The values of the data fields. */
  function Data(lines: seq<string>): seq<string> {
    if lines == [] then [] else DataOf(lines[0]) + Data(lines[1..])
  }

  // ---- One line ----

  lemma {:induction false} EventLine(b: Buffers, line: string)
    requires IsEventLine(line)
    ensures ProcessLine(b, line) == b.(name := StripSpace(line[6..]))
  {
    assert line[5] == ':' by { assert line[..6][5] == ':'; }
    assert line[..5] == "event" by { assert line[..6][..5] == "event"; }
    ColonAt(line, 5);
  }

  lemma {:induction false} DataLine(b: Buffers, line: string)
    requires IsDataLine(line)
    ensures ProcessLine(b, line) == b.(data := b.data + StripSpace(line[5..]) + "\n")
  {
    assert line[4] == ':' by { assert line[..5][4] == ':'; }
    assert line[..4] == "data" by { assert line[..5][..4] == "data"; }
    ColonAt(line, 4);
  }

  lemma {:induction false} BareLine(b: Buffers, line: string)
    requires line == "event" || line == "data"
    ensures ProcessLine(b, line) == if line == "event" then b.(name := "") else b.(data := b.data + "" + "\n")
  {
    assert forall c | c in line :: c != ':';
    NoColon(line);
  }

  lemma {:induction false} NoColon(line: string)
    ensures Find(line, ":", 0).Some? ==> ':' in line
  {
    var found := Find(line, ":", 0);
    if found.Some? {
      assert line[found.value..found.value + 1][0] in line;
    }
  }

  lemma {:induction false} OtherLine(b: Buffers, line: string)
    requires line != "" && line != "event" && line != "data" && !IsEventLine(line) && !IsDataLine(line)
    ensures ProcessLine(b, line) == b
  {
  }

  lemma {:induction false} ColonAt(line: string, i: nat)
    requires i < |line| && line[i] == ':' && forall j | 0 <= j < i :: line[j] != ':'
    ensures Find(line, ":", 0) == Some(i)
  {
    assert line[i..i + 1] == ":";
    forall j | 0 <= j < i ensures !OccursAt(line, ":", j) {
      assert line[j..j + 1] == [line[j]];
    }
    FindIs(line, ":", 0, i);
  }

  // ---- One frame ----

  function Terminated(lines: seq<string>): string {
    if lines == [] then "" else lines[0] + "\n" + Terminated(lines[1..])
  }

  lemma {:induction false} TerminatedJoin(lines: seq<string>)
    requires lines != []
    ensures Terminated(lines) == JoinLines(lines) + "\n"
  {
    if |lines| > 1 {
      TerminatedJoin(lines[1..]);
    }
  }

  lemma {:induction false} LineFills(b: Buffers, line: string)
    requires line != ""
    ensures ProcessLine(b, line) == Buffers(TypeOf(line, b.name), b.data + Terminated(DataOf(line)), b.out)
  {
    if line == "event" {
      BareLine(b, line);
      assert line[..5][0] == 'e' && b.data + "" == b.data;
    } else if line == "data" {
      BareLine(b, line);
      assert [""][1..] == [] && Terminated([""]) == "\n";
      assert b.data + "" + "\n" == b.data + "\n";
    } else if IsEventLine(line) {
      EventLine(b, line);
      EventIsNotData(line);
      assert b.data + "" == b.data;
    } else if IsDataLine(line) {
      DataLine(b, line);
      var v := StripSpace(line[5..]);
      assert Terminated([v]) == v + "\n" by { assert [v][1..] == []; assert v + "\n" + "" == v + "\n"; }
      assert b.data + (v + "\n") == b.data + v + "\n";
    } else {
      OtherLine(b, line);
      assert b.data + "" == b.data;
    }
  }

  lemma {:induction false} EventIsNotData(line: string)
    requires IsEventLine(line)
    ensures !IsDataLine(line) && line != "data"
  {
    assert line[0] == line[..6][0] == 'e';
  }

  lemma {:induction false} TerminatedConcat(xs: seq<string>, ys: seq<string>)
    ensures Terminated(xs + ys) == Terminated(xs) + Terminated(ys)
  {
    if xs == [] {
      assert xs + ys == ys;
    } else {
      assert (xs + ys)[1..] == xs[1..] + ys;
      TerminatedConcat(xs[1..], ys);
      Regroup(xs[0] + "\n", Terminated(xs[1..]), Terminated(ys));
    }
  }

  /** Non-blank lines only fill the buffers. */
  lemma {:induction false} FieldLines(b: Buffers, lines: seq<string>)
    requires forall i | 0 <= i < |lines| :: lines[i] != ""
    ensures Interpret(b, lines) == Buffers(TypeAfter(lines, b.name), b.data + Terminated(Data(lines)), b.out)
    decreases |lines|
  {
    if lines == [] {
      assert b.data + "" == b.data;
    } else {
      LineFills(b, lines[0]);
      FieldLines(ProcessLine(b, lines[0]), lines[1..]);
      TerminatedConcat(DataOf(lines[0]), Data(lines[1..]));
      Regroup(b.data, Terminated(DataOf(lines[0])), Terminated(Data(lines[1..])));
    }
  }

  lemma {:induction false} Regroup(x: string, y: string, z: string)
    ensures (x + y) + z == x + (y + z)
  {
  }

  lemma {:induction false} InterpretConcat(b: Buffers, xs: seq<string>, ys: seq<string>)
    ensures Interpret(b, xs + ys) == Interpret(Interpret(b, xs), ys)
    decreases |xs|
  {
    if xs == [] {
      assert xs + ys == ys;
    } else {
      assert (xs + ys)[1..] == xs[1..] + ys;
      InterpretConcat(ProcessLine(b, xs[0]), xs[1..], ys);
    }
  }

  /** Only the first of these lines can be blank. */
  predicate NoInnerBlank(lines: seq<string>) {
    forall i | 1 <= i < |lines| :: lines[i] != ""
  }

  /** A blank line with empty buffers does nothing, so it can be skipped. */
  lemma {:induction false} FrameLines(out: seq<Event>, lines: seq<string>)
    requires NoInnerBlank(lines)
    ensures Interpret(Buffers("", "", out), lines) == Buffers(TypeAfter(lines, ""), Terminated(Data(lines)), out)
  {
    var b := Buffers("", "", out);
    if lines != [] && lines[0] == "" {
      var rest := lines[1..];
      assert ProcessLine(b, "") == b;
      FieldLines(b, rest);
      assert [] + Data(rest) == Data(rest);
      assert "" + Terminated(Data(rest)) == Terminated(Data(rest));
    } else {
      FieldLines(b, lines);
      assert "" + Terminated(Data(lines)) == Terminated(Data(lines));
    }
  }

  /** The event a conforming client dispatches at the end of a frame. */
  function EventFor(name: string, data: seq<string>): seq<Event> {
    if data == [] then [] else [Event(if name == "" then "message" else name, JoinLines(data))]
  }

  function EventOf(lines: seq<string>): seq<Event> {
    EventFor(TypeAfter(lines, ""), Data(lines))
  }

  lemma {:induction false} FrameEnds(out: seq<Event>, lines: seq<string>)
    requires NoInnerBlank(lines)
    ensures Interpret(Buffers("", "", out), lines + [""]) == Buffers("", "", out + EventOf(lines))
  {
    var b := Buffers("", "", out);
    InterpretConcat(b, lines, [""]);
    FrameLines(out, lines);
    var filled := Interpret(b, lines);
    assert Interpret(filled, [""]) == ProcessLine(filled, "") == Dispatch(filled);
    var data := Data(lines);
    if data != [] {
      TerminatedJoin(data);
      assert filled.data[..|filled.data| - 1] == JoinLines(data);
    } else {
      assert out + [] == out;
    }
  }

  // ---- The whole text ----

  /** Lines of a text without a blank line inside it. */
  lemma {:induction false} InnerLines(s: string)
    requires forall k :: !OccursAt(s, "\n\n", k)
    ensures NoInnerBlank(Frames("\n", s).frames)
    decreases |s|
  {
    var found := Find(s, "\n", 0);
    if found.Some? {
      var i := found.value;
      var tail := s[i + 1..];
      forall k: nat ensures !OccursAt(tail, "\n\n", k) { OccursInTail(s, "\n\n", i + 1, k); }
      InnerLines(tail);
      FirstLineFilled(s, i);
    }
  }

  lemma {:induction false} FirstLineFilled(s: string, i: nat)
    requires i + 1 <= |s| && s[i..i + 1] == "\n" && !OccursAt(s, "\n\n", i)
    ensures var lines := Frames("\n", s[i + 1..]).frames; lines != [] ==> lines[0] != ""
  {
    assert s[i] == s[i..i + 1][0];
  }

  /** The lines of a text that continues after a line end. */
  lemma {:induction false} LinesAcross(lf: string, x: string, y: string)
    requires |lf| == 1
    ensures Frames(lf, x + lf + y).frames == Split(lf, x) + Frames(lf, y).frames
  {
    FramesConcat(lf, x, lf + y);
    Regroup(x, lf, y);
    RestIsOneLine(lf, x);
    CutAtEnd(lf, Frames(lf, x).rest, y);
    AppendRest(Frames(lf, x).frames, Frames(lf, x).rest, Frames(lf, y).frames);
  }

  lemma {:induction false} RestIsOneLine(lf: string, x: string)
    requires lf != ""
    ensures forall k :: !OccursAt(Frames(lf, x).rest, lf, k)
  {
    FramesRoundTrip(lf, x);
  }

  lemma {:induction false} AppendRest(lines: seq<string>, rest: string, more: seq<string>)
    ensures lines + ([rest] + more) == (lines + [rest]) + more
  {
  }

  lemma {:induction false} CutAtEnd(lf: string, rest: string, y: string)
    requires |lf| == 1 && forall k :: !OccursAt(rest, lf, k)
    ensures Frames(lf, rest + (lf + y)).frames == [rest] + Frames(lf, y).frames
  {
    var s := rest + (lf + y);
    var n := |rest|;
    assert s[n..n + 1] == lf;
    forall j | 0 <= j < n ensures !OccursAt(s, lf, j) {
      assert !OccursAt(rest, lf, j);
      assert s[j..j + 1] == rest[j..j + 1];
    }
    FindIs(s, lf, 0, n);
    assert s[..n] == rest && s[n + 1..] == y;
  }

  lemma {:induction false} BlankFirst(lf: string, tail: string)
    requires |lf| == 1
    ensures Frames(lf, lf + tail).frames == [""] + Frames(lf, tail).frames
  {
  }

  lemma {:induction false} AroundBlank(lf: string, text: string, i: nat)
    requires |lf| == 1 && OccursAt(text, lf + lf, i)
    ensures text == text[..i] + lf + (lf + text[i + 2..])
  {
  }

  /** The lines up to the blank line that ends a frame. */
  lemma {:induction false} LinesOfFrame(lf: string, text: string, i: nat)
    requires |lf| == 1 && OccursAt(text, lf + lf, i)
    ensures Frames(lf, text).frames == (Split(lf, text[..i]) + [""]) + Frames(lf, text[i + 2..]).frames
  {
    var tail := text[i + 2..];
    AroundBlank(lf, text, i);
    LinesAcross(lf, text[..i], lf + tail);
    BlankFirst(lf, tail);
    assert Split(lf, text[..i]) + ([""] + Frames(lf, tail).frames) == (Split(lf, text[..i]) + [""]) + Frames(lf, tail).frames;
  }

  lemma {:induction false} FirstFrame(text: string, i: nat)
    requires Find(text, "\n\n", 0) == Some(i)
    ensures i + 2 <= |text|
    ensures Frames("\n", text).frames == (Split("\n", text[..i]) + [""]) + Frames("\n", text[i + 2..]).frames
  {
    assert "\n" + "\n" == "\n\n";
    LinesOfFrame("\n", text, i);
  }

  lemma {:induction false} FrameIsInner(text: string, i: nat)
    requires Find(text, "\n\n", 0) == Some(i)
    ensures NoInnerBlank(Split("\n", text[..i]))
  {
    var s := text[..i] + "\n";
    assert text[..i + 1] == s by { assert text[i] == text[i..i + 2][0]; }
    forall k: nat ensures !OccursAt(s, "\n\n", k) { OccursInHead(text, "\n\n", i + 1, k); }
    InnerLines(s);
    LinesAcross("\n", text[..i], "");
    assert text[..i] + "\n" + "" == s;
    assert Frames("\n", s).frames == Split("\n", text[..i]);
  }

  /** A text without a complete frame dispatches nothing. */
  lemma {:induction false} NoFrameNoEvent(text: string, out: seq<Event>)
    requires Find(text, "\n\n", 0).None?
    ensures Interpret(Buffers("", "", out), Frames("\n", text).frames).out == out
  {
    InnerLines(text);
    OutUnchanged(Buffers("", "", out), Frames("\n", text).frames);
  }

  lemma {:induction false} OutUnchanged(b: Buffers, lines: seq<string>)
    requires forall i | 0 <= i < |lines| :: lines[i] == "" ==> i == 0 && b.data == ""
    ensures Interpret(b, lines).out == b.out
    decreases |lines|
  {
    if lines != [] {
      var next := ProcessLine(b, lines[0]);
      assert next.out == b.out;
      var rest := lines[1..];
      OutUnchanged(next, rest);
    }
  }

  /** The events of a list of frames. */
  function EventsOf(frames: seq<string>): seq<Event> {
    if frames == [] then [] else EventOf(Split("\n", frames[0])) + EventsOf(frames[1..])
  }

  lemma {:induction false} OneFrame(lines: seq<string>, more: seq<string>, out: seq<Event>)
    requires NoInnerBlank(lines)
    ensures Interpret(Buffers("", "", out), (lines + [""]) + more) == Interpret(Buffers("", "", out + EventOf(lines)), more)
  {
    InterpretConcat(Buffers("", "", out), lines + [""], more);
    FrameEnds(out, lines);
  }

  lemma {:induction false} EventsCons(frame: string, frames: seq<string>)
    ensures EventsOf([frame] + frames) == EventOf(Split("\n", frame)) + EventsOf(frames)
  {
  }

  lemma {:induction false} DispatchedFrom(text: string, out: seq<Event>)
    ensures Interpret(Buffers("", "", out), Frames("\n", text).frames).out == out + EventsOf(Received(text).frames)
    decreases |text|
  {
    var found := Find(text, "\n\n", 0);
    if found.None? {
      NoFrameNoEvent(text, out);
      assert out + [] == out;
    } else {
      var i := found.value;
      FirstFrame(text, i);
      FrameIsInner(text, i);
      var rest := text[i + 2..];
      var lines := Split("\n", text[..i]);
      CutFirst("\n\n", text, i, rest);
      OneFrame(lines, Frames("\n", rest).frames, out);
      DispatchedFrom(rest, out + EventOf(lines));
      EventsCons(text[..i], Received(rest).frames);
      RegroupEvents(out, EventOf(lines), EventsOf(Received(rest).frames));
    }
  }

  lemma {:induction false} RegroupEvents(x: seq<Event>, y: seq<Event>, z: seq<Event>)
    ensures (x + y) + z == x + (y + z)
  {
  }

  // ---- The standard as a reader of frames ----

  /** The text of a frame that the standard hands over as a message; empty if there is none. */
  function HandedText(lines: seq<string>): string {
    if Hands(lines) then JoinLines(Data(lines)) else ""
  }

  predicate Hands(lines: seq<string>) {
    TypeAfter(lines, "") == "" || TypeAfter(lines, "") == "message"
  }

  /** The endpoint a frame announces; the standard dispatches no event without data. */
  function Announced(lines: seq<string>): Option<string> {
    if TypeAfter(lines, "") == "endpoint" && Data(lines) != [] then Some(Trim(JoinLines(Data(lines)))) else None
  }

  function ReadMessage(parse: Parser, text: string): Effect {
    var m := parse(text);
    if m.Some? then Pushes(m.value) else Ignored
  }

  function StandardFrame(parse: Parser, frame: string): Effect {
    var lines := Split("\n", frame);
    if Announced(lines).Some? then Announces(Announced(lines).value) else ReadMessage(parse, HandedText(lines))
  }

  function Standard(parse: Parser): string -> Effect {
    frame => StandardFrame(parse, frame)
  }

  function PushOf(e: Effect): seq<Incoming> {
    if e.Pushes? then [e.message] else []
  }

  function PathOf(e: Effect): Option<string> {
    if e.Announces? then Some(e.path) else None
  }

  function First(x: Option<string>, y: Option<string>): Option<string> {
    if x.Some? then x else y
  }

  lemma {:induction false} EventReads(parse: Parser, name: string, data: seq<string>)
    requires parse("").None?
    ensures var e := EventFor(name, data);
            && MessagesIn(parse, e)
               == PushOf(ReadMessage(parse, if name == "" || name == "message" then JoinLines(data) else ""))
            && EndpointIn(e) == if name == "endpoint" && data != [] then Some(Trim(JoinLines(data))) else None
  {
    assert "endpoint"[0] != "message"[0];
    if data != [] {
      var e := EventFor(name, data);
      assert e[1..] == [] && MessagesIn(parse, []) == [] && EndpointIn([]) == None;
    }
  }

  lemma {:induction false} FrameReads(parse: Parser, frame: string)
    requires parse("").None?
    ensures MessagesIn(parse, EventOf(Split("\n", frame))) == PushOf(Standard(parse)(frame))
    ensures EndpointIn(EventOf(Split("\n", frame))) == PathOf(Standard(parse)(frame))
  {
    var lines := Split("\n", frame);
    assert "endpoint"[0] != "message"[0];
    EventReads(parse, TypeAfter(lines, ""), Data(lines));
  }

  lemma {:induction false} MessagesCons(decode: string -> Effect, f: string, frames: seq<string>)
    ensures Messages(decode, [f] + frames)
            == (if decode(f).Pushes? then [decode(f).message] else []) + Messages(decode, frames)
  {
    if frames == [] {
      assert [f] + frames == [] + [f];
      NextFrame(decode, [], f);
    } else {
      var n := |frames| - 1;
      MessagesCons(decode, f, frames[..n]);
      assert [f] + frames == ([f] + frames[..n]) + [frames[n]];
      NextFrame(decode, [f] + frames[..n], frames[n]);
    }
  }

  lemma {:induction false} MessagesInConcat(parse: Parser, xs: seq<Event>, ys: seq<Event>)
    ensures MessagesIn(parse, xs + ys) == MessagesIn(parse, xs) + MessagesIn(parse, ys)
  {
    if xs == [] {
      assert xs + ys == ys;
    } else {
      assert (xs + ys)[1..] == xs[1..] + ys;
      MessagesInConcat(parse, xs[1..], ys);
    }
  }

  lemma {:induction false} EndpointInConcat(xs: seq<Event>, ys: seq<Event>)
    ensures EndpointIn(xs + ys) == First(EndpointIn(xs), EndpointIn(ys))
  {
    if xs == [] {
      assert xs + ys == ys;
    } else {
      assert (xs + ys)[1..] == xs[1..] + ys;
      EndpointInConcat(xs[1..], ys);
    }
  }

  lemma {:induction false} EndpointCons(decode: string -> Effect, f: string, frames: seq<string>)
    ensures Endpoint(decode, [f] + frames) == First(PathOf(decode(f)), Endpoint(decode, frames))
  {
    if frames == [] {
      assert [f] + frames == [] + [f];
      NextFrame(decode, [], f);
    } else {
      var n := |frames| - 1;
      EndpointCons(decode, f, frames[..n]);
      assert [f] + frames == ([f] + frames[..n]) + [frames[n]];
      NextFrame(decode, [f] + frames[..n], frames[n]);
    }
  }

  predicate FrameReadBy(parse: Parser, decode: string -> Effect, frame: string) {
    var events := EventOf(Split("\n", frame));
    MessagesIn(parse, events) == PushOf(decode(frame)) && EndpointIn(events) == PathOf(decode(frame))
  }

  lemma {:induction false} MessagesRead(parse: Parser, decode: string -> Effect, frames: seq<string>)
    requires forall i | 0 <= i < |frames| :: FrameReadBy(parse, decode, frames[i])
    ensures MessagesIn(parse, EventsOf(frames)) == Messages(decode, frames)
  {
    if frames != [] {
      var rest := frames[1..];
      MessagesRead(parse, decode, rest);
      assert FrameReadBy(parse, decode, frames[0]);
      MessagesInConcat(parse, EventOf(Split("\n", frames[0])), EventsOf(rest));
      MessagesCons(decode, frames[0], rest);
      assert [frames[0]] + rest == frames;
    }
  }

  lemma {:induction false} EndpointRead(parse: Parser, decode: string -> Effect, frames: seq<string>)
    requires forall i | 0 <= i < |frames| :: FrameReadBy(parse, decode, frames[i])
    ensures EndpointIn(EventsOf(frames)) == Endpoint(decode, frames)
  {
    if frames != [] {
      var rest := frames[1..];
      EndpointRead(parse, decode, rest);
      assert FrameReadBy(parse, decode, frames[0]);
      EndpointInConcat(EventOf(Split("\n", frames[0])), EventsOf(rest));
      EndpointCons(decode, frames[0], rest);
      assert [frames[0]] + rest == frames;
    }
  }

  /** On every stream, the standard's line-by-line interpretation can be read off the frames. */
  lemma {:induction false} StandardByFrames(parse: Parser, text: string)
    requires parse("").None?
    ensures MessagesIn(parse, Dispatched(text)) == Messages(Standard(parse), Received(text).frames)
    ensures EndpointIn(Dispatched(text)) == Endpoint(Standard(parse), Received(text).frames)
  {
    DispatchedFrom(text, []);
    var frames := Received(text).frames;
    forall i | 0 <= i < |frames| ensures FrameReadBy(parse, Standard(parse), frames[i]) { FrameReads(parse, frames[i]); }
    MessagesRead(parse, Standard(parse), frames);
    EndpointRead(parse, Standard(parse), frames);
    assert [] + EventsOf(Received(text).frames) == EventsOf(Received(text).frames);
  }
}
