/** Exactly when the frame-wise reader of the bridge sees the messages and the endpoint that the standard dispatches. */
module SseConformance {
  import opened Outcomes
  import opened Text
  import opened Framing
  import opened Bridge
  import opened SseEvents
  import opened SseReference

  // ---- What the bridge reads off a frame, and when that is the same ----

  /** The text of a frame that the bridge parses as a message; empty if it parses none. */
  function TakenText(lines: seq<string>): string {
    if Takes(lines) then JoinLines(DataLines(lines)) else ""
  }

  predicate Takes(lines: seq<string>) {
    EventName(lines).None? || EventName(lines).value == "" || EventName(lines).value == "message"
  }

  lemma {:induction false} FrameTaken(parse: Parser, frame: string)
    requires parse("").None?
    ensures PushOf(Decoder(parse)(frame)) == PushOf(ReadMessage(parse, TakenText(Split("\n", frame))))
  {
    assert "endpoint"[0] != "message"[0];
  }

  lemma {:induction false} FrameHanded(parse: Parser, frame: string)
    requires parse("").None?
    ensures PushOf(Standard(parse)(frame)) == PushOf(ReadMessage(parse, HandedText(Split("\n", frame))))
  {
    assert "endpoint"[0] != "message"[0];
  }

  /** White space after the colon that is no space: only the bridge drops it. */
  predicate OddSpace(value: string) {
    value != "" && value[0] != ' ' && IsSpace(value[0])
  }

  /** A data field has a colon, with nothing odd behind it. */
  predicate PlainField(line: string) {
    line != "data" && (IsDataLine(line) ==> !OddSpace(line[5..]))
  }

  predicate PlainData(lines: seq<string>) {
    forall i | 0 <= i < |lines| :: PlainField(lines[i])
  }

  predicate Blank(data: seq<string>) {
    data == [] || data == [""]
  }

  /** Bridge and standard agree whether the frame is a message, and on its data; or what they disagree on is empty. */
  predicate Harmless(lines: seq<string>) {
    if Takes(lines) && Hands(lines) then PlainData(lines) || (Blank(DataLines(lines)) && Blank(Data(lines)))
    else (Takes(lines) ==> Blank(DataLines(lines))) && (Hands(lines) ==> Blank(Data(lines)))
  }

  predicate OneLine(s: string) {
    '\n' !in s
  }

  predicate AllOneLine(lines: seq<string>) {
    forall i | 0 <= i < |lines| :: OneLine(lines[i])
  }

  lemma {:induction false} DataFirst(lines: seq<string>)
    requires lines != []
    ensures DataLines(lines) == (if IsDataLine(lines[0]) then [DropOneSpace(lines[0][5..])] else []) + DataLines(lines[1..])
  {
  }

  lemma {:induction false} PlainFirst(lines: seq<string>)
    requires lines != []
    ensures PlainData(lines) <==> PlainField(lines[0]) && PlainData(lines[1..])
  {
    assert forall i | 0 <= i < |lines| - 1 :: lines[1..][i] == lines[i + 1];
    assert forall i | 0 < i < |lines| :: lines[i] == lines[1..][i - 1];
  }

  lemma {:induction false} DataKeepsToLines(lines: seq<string>)
    requires AllOneLine(lines)
    ensures AllOneLine(DataLines(lines)) && AllOneLine(Data(lines))
  {
    if lines != [] {
      DataFirst(lines);
      DataKeepsToLines(lines[1..]);
    }
  }

  /** The two lists of data values are equal exactly if every data field is plain. */
  lemma {:induction false} SameDataIff(lines: seq<string>)
    ensures |DataLines(lines)| <= |Data(lines)|
    ensures DataLines(lines) == Data(lines) <==> PlainData(lines)
  {
    if lines != [] {
      DataFirst(lines);
      PlainFirst(lines);
      SameDataIff(lines[1..]);
      SameFieldIff(lines[0], DataLines(lines[1..]), Data(lines[1..]));
    }
  }

  lemma {:induction false} SameFieldIff(line: string, a: seq<string>, b: seq<string>)
    requires |a| <= |b|
    ensures var x := if IsDataLine(line) then [DropOneSpace(line[5..])] else [];
            |x + a| <= |DataOf(line) + b| && (x + a == DataOf(line) + b <==> PlainField(line) && a == b)
  {
    if line == "data" {
    } else if IsDataLine(line) {
      var x, y := DropOneSpace(line[5..]), StripSpace(line[5..]);
      SameValueIff(line[5..]);
      assert ([x] + a)[0] == x && ([y] + b)[0] == y && ([x] + a)[1..] == a && ([y] + b)[1..] == b;
    } else {
      assert [] + a == a && [] + b == b;
    }
  }

  lemma {:induction false} SameValueIff(value: string)
    ensures DropOneSpace(value) == StripSpace(value) <==> !OddSpace(value)
  {
    if OddSpace(value) {
      assert |DropOneSpace(value)| != |StripSpace(value)|;
    }
  }

  /** Lines can be read off the text they are written to. */
  lemma {:induction false} TerminatedInjective(a: seq<string>, b: seq<string>)
    requires AllOneLine(a) && AllOneLine(b) && Terminated(a) == Terminated(b)
    ensures a == b
  {
    if a != [] && b != [] {
      FirstLineIs(a[0], Terminated(a[1..]), b[0], Terminated(b[1..]));
      TerminatedInjective(a[1..], b[1..]);
      assert a == [a[0]] + a[1..] && b == [b[0]] + b[1..];
    }
  }

  lemma {:induction false} FirstLineIs(x: string, u: string, y: string, v: string)
    requires OneLine(x) && OneLine(y) && x + "\n" + u == y + "\n" + v
    ensures x == y && u == v
  {
    var s, r := x + "\n" + u, y + "\n" + v;
    assert s[|x|] == '\n' && r[|y|] == '\n';
    assert forall k | 0 <= k < |x| :: s[k] == x[k];
    assert forall k | 0 <= k < |y| :: r[k] == y[k];
    assert |x| == |y|;
    assert s[..|x|] == x && r[..|y|] == y && s[|x| + 1..] == u && r[|y| + 1..] == v;
  }

  lemma {:induction false} JoinBlankIff(data: seq<string>)
    ensures JoinLines(data) == "" <==> Blank(data)
  {
  }

  lemma {:induction false} SameJoinIff(a: seq<string>, b: seq<string>)
    requires AllOneLine(a) && AllOneLine(b)
    ensures JoinLines(a) == JoinLines(b) <==> a == b || (Blank(a) && Blank(b))
  {
    JoinBlankIff(a);
    JoinBlankIff(b);
    if a != [] && b != [] && JoinLines(a) == JoinLines(b) {
      TerminatedJoin(a);
      TerminatedJoin(b);
      TerminatedInjective(a, b);
    }
  }

  /** Harmless is exactly what makes bridge and standard see the same text in a frame. */
  lemma {:induction false} HarmlessIff(lines: seq<string>)
    requires AllOneLine(lines)
    ensures TakenText(lines) == HandedText(lines) <==> Harmless(lines)
  {
    DataKeepsToLines(lines);
    SameDataIff(lines);
    SameJoinIff(DataLines(lines), Data(lines));
    JoinBlankIff(DataLines(lines));
    JoinBlankIff(Data(lines));
  }

  lemma {:induction false} SplitIsOneLine(s: string)
    ensures AllOneLine(Split("\n", s))
    decreases |s|
  {
    var found := Find(s, "\n", 0);
    if found.Some? {
      var i := found.value;
      SplitIsOneLine(s[i + 1..]);
      CutFirst("\n", s, i, s[i + 1..]);
      BeforeFirst(s, i);
      assert Split("\n", s) == [s[..i]] + Split("\n", s[i + 1..]);
    } else {
      BeforeFirst(s, |s|);
      assert s[..|s|] == s && Split("\n", s) == [s];
    }
  }

  lemma {:induction false} BeforeFirst(s: string, i: nat)
    requires i <= |s| && forall k | 0 <= k < i :: !OccursAt(s, "\n", k)
    ensures OneLine(s[..i])
  {
    forall k | 0 <= k < i ensures s[..i][k] != '\n' {
      assert !OccursAt(s, "\n", k);
      assert s[k..k + 1] == [s[k]];
    }
  }

  // ---- What the bridge reads off a frame, line by line ----

  predicate FirstEventAt(lines: seq<string>, k: nat) {
    k < |lines| && IsEventLine(lines[k]) && forall j | 0 <= j < k :: !IsEventLine(lines[j])
  }

  /** The event name is what follows the first `event:`, without white space at its ends. */
  lemma {:induction false} EventNameIs(lines: seq<string>)
    ensures EventName(lines).None? <==> forall k | 0 <= k < |lines| :: !IsEventLine(lines[k])
    ensures forall k: nat :: FirstEventAt(lines, k) ==> EventName(lines) == Some(Trim(lines[k][6..]))
  {
    if lines != [] {
      var rest := lines[1..];
      EventNameIs(rest);
      assert forall k | 0 < k < |lines| :: lines[k] == rest[k - 1];
      forall k: nat | FirstEventAt(lines, k) ensures EventName(lines) == Some(Trim(lines[k][6..])) {
        if k > 0 {
          assert FirstEventAt(rest, k - 1);
        }
      }
    }
  }

  /** `at` lists the data lines, in order. */
  ghost predicate DataLinesAt(lines: seq<string>, at: seq<nat>) {
    && (forall i, j | 0 <= i < j < |at| :: at[i] < at[j])
    && forall k :: k in at <==> 0 <= k < |lines| && IsDataLine(lines[k])
  }

  /** What follows the colon, less one leading white space. */
  predicate LessOneSpace(value: string, rest: string) {
    if value != "" && IsSpace(value[0]) then rest == value[1..] else rest == value
  }

  predicate DatumAt(lines: seq<string>, k: nat, datum: string) {
    k < |lines| && IsDataLine(lines[k]) && LessOneSpace(lines[k][5..], datum)
  }

  /** `data` are what follows each `data:`, less one leading white space, in the order of the lines. */
  ghost predicate DataAt(lines: seq<string>, at: seq<nat>, data: seq<string>) {
    DataLinesAt(lines, at) && |data| == |at| && forall k | 0 <= k < |at| :: DatumAt(lines, at[k], data[k])
  }

  lemma {:induction false} DataLinesConcat(xs: seq<string>, ys: seq<string>)
    ensures DataLines(xs + ys) == DataLines(xs) + DataLines(ys)
  {
    if xs == [] {
      assert xs + ys == ys;
    } else {
      assert (xs + ys)[1..] == xs[1..] + ys && (xs + ys)[0] == xs[0];
      DataFirst(xs);
      DataFirst(xs + ys);
      DataLinesConcat(xs[1..], ys);
    }
  }

  lemma {:induction false} OneDatum(line: string)
    ensures IsDataLine(line) ==> |DataLines([line])| == 1 && LessOneSpace(line[5..], DataLines([line])[0])
    ensures !IsDataLine(line) ==> DataLines([line]) == []
  {
    assert [line][1..] == [] && DataLines([]) == [];
  }

  lemma {:induction false} DataLinesAre(lines: seq<string>) returns (at: seq<nat>)
    ensures DataAt(lines, at, DataLines(lines))
  {
    if lines == [] {
      at := [];
    } else {
      var n := |lines| - 1;
      var init, last := lines[..n], lines[n];
      at := DataLinesAre(init);
      assert lines == init + [last];
      DataLinesConcat(init, [last]);
      OneDatum(last);
      at := DataAtNext(init, last, at, DataLines(init), DataLines([last]));
    }
  }

  lemma {:induction false} DataAtNext(init: seq<string>, last: string, before: seq<nat>, data: seq<string>, more: seq<string>)
    returns (at: seq<nat>)
    requires DataAt(init, before, data) && |more| == if IsDataLine(last) then 1 else 0
    requires IsDataLine(last) ==> LessOneSpace(last[5..], more[0])
    ensures DataAt(init + [last], at, data + more)
  {
    var n, lines := |init|, init + [last];
    at := if IsDataLine(last) then before + [n] else before;
    forall k | 0 <= k < |at| ensures DatumAt(lines, at[k], (data + more)[k]) {
      if k < |before| {
        assert DatumAt(init, before[k], data[k]);
      }
    }
    LinesAtNext(init, last, before, at);
  }

  lemma {:induction false} LinesAtNext(init: seq<string>, last: string, before: seq<nat>, at: seq<nat>)
    requires DataLinesAt(init, before) && at == if IsDataLine(last) then before + [|init|] else before
    ensures DataLinesAt(init + [last], at)
  {
    forall j | 0 <= j < |before| ensures before[j] < |init| { assert before[j] in before; }
  }

  // ---- The stream, at every moment ----

  /** What has been read when `n` characters have arrived. */
  function At(text: string, n: nat): seq<string>
    requires n <= |text|
  {
    Received(text[..n]).frames
  }

  lemma {:induction false} AtIsPrefix(text: string, n: nat)
    requires n <= |text|
    ensures |At(text, n)| <= |Received(text).frames| && At(text, n) == Received(text).frames[..|At(text, n)|]
  {
    assert text == text[..n] + text[n..];
    FramesConcat("\n\n", text[..n], text[n..]);
  }

  /** There is a moment at which exactly the first `k` frames are complete. */
  lemma {:induction false} Moment(text: string, k: nat) returns (n: nat)
    requires k <= |Received(text).frames|
    ensures n <= |text| && At(text, n) == Received(text).frames[..k]
    decreases |text|
  {
    if k == 0 {
      n := 0;
      assert text[..0] == "";
    } else {
      var i := Find(text, "\n\n", 0).value;
      CutFirst("\n\n", text, i, text[i + 2..]);
      var m := Moment(text[i + 2..], k - 1);
      n := i + 2 + m;
      FirstThen(text, i, m);
      TakeFirst(text[..i], Received(text[i + 2..]).frames, k);
    }
  }

  lemma {:induction false} TakeFirst(frame: string, rest: seq<string>, k: nat)
    requires 0 < k <= |rest| + 1
    ensures [frame] + rest[..k - 1] == ([frame] + rest)[..k]
  {
  }

  lemma {:induction false} FirstThen(text: string, i: nat, m: nat)
    requires Find(text, "\n\n", 0) == Some(i) && i + 2 + m <= |text|
    ensures At(text, i + 2 + m) == [text[..i]] + At(text[i + 2..], m)
  {
    var s := text[..i + 2 + m];
    forall j | 0 <= j < i ensures !OccursAt(s, "\n\n", j) { OccursInHead(text, "\n\n", i + 2 + m, j); }
    assert s[i..i + 2] == text[i..i + 2];
    FindIs(s, "\n\n", 0, i);
    assert s[..i] == text[..i] && s[i + 2..] == text[i + 2..][..m];
    CutFirst("\n\n", s, i, s[i + 2..]);
  }

  lemma {:induction false} SamePushes(a: string -> Effect, b: string -> Effect, frames: seq<string>)
    requires forall i | 0 <= i < |frames| :: PushOf(a(frames[i])) == PushOf(b(frames[i]))
    ensures Messages(a, frames) == Messages(b, frames)
  {
    if frames != [] {
      SamePushes(a, b, frames[..|frames| - 1]);
    }
  }

  lemma {:induction false} LastPush(a: string -> Effect, b: string -> Effect, frames: seq<string>, k: nat)
    requires k < |frames| && Messages(a, frames[..k]) == Messages(b, frames[..k])
    requires Messages(a, frames[..k + 1]) == Messages(b, frames[..k + 1])
    ensures PushOf(a(frames[k])) == PushOf(b(frames[k]))
  {
    assert frames[..k + 1][..k] == frames[..k];
    var m := Messages(a, frames[..k]);
    assert (m + PushOf(a(frames[k])))[|m|..] == PushOf(a(frames[k]));
    assert (m + PushOf(b(frames[k])))[|m|..] == PushOf(b(frames[k]));
  }

  /** After `n` characters the bridge has read the messages the standard has dispatched. */
  predicate InStep(parse: Parser, text: string, n: nat)
    requires n <= |text|
  {
    Messages(Decoder(parse), At(text, n)) == MessagesIn(parse, Dispatched(text[..n]))
  }

  predicate HarmlessFrame(frame: string) {
    Harmless(Split("\n", frame))
  }

  lemma {:induction false} HarmlessFrameIff(parse: Parser, frame: string)
    requires parse("").None? && HarmlessFrame(frame)
    ensures PushOf(Decoder(parse)(frame)) == PushOf(Standard(parse)(frame))
  {
    SplitIsOneLine(frame);
    HarmlessIff(Split("\n", frame));
    FrameTaken(parse, frame);
    FrameHanded(parse, frame);
  }

  lemma {:induction false} HarmlessInStep(parse: Parser, text: string, n: nat)
    requires parse("").None? && n <= |text| && forall f | f in Received(text).frames :: HarmlessFrame(f)
    ensures InStep(parse, text, n)
  {
    AtIsPrefix(text, n);
    StandardByFrames(parse, text[..n]);
    var frames := At(text, n);
    forall i | 0 <= i < |frames| ensures PushOf(Decoder(parse)(frames[i])) == PushOf(Standard(parse)(frames[i])) {
      assert frames[i] == Received(text).frames[i];
      HarmlessFrameIff(parse, frames[i]);
    }
    SamePushes(Decoder(parse), Standard(parse), frames);
  }

  function OnlyReads(text: string, x: string): Option<Incoming> {
    if x == text && x != "" then Some(Incoming(None, false, false, false, None)) else None
  }

  /** A parser that accepts one text. */
  function ParserOf(text: string): Parser {
    x => OnlyReads(text, x)
  }

  /** Some parser tells two different texts apart. */
  lemma {:induction false} Tells(frame: string) returns (parse: Parser)
    requires !HarmlessFrame(frame)
    ensures parse("").None? && PushOf(Decoder(parse)(frame)) != PushOf(Standard(parse)(frame))
  {
    var lines := Split("\n", frame);
    SplitIsOneLine(frame);
    HarmlessIff(lines);
    parse := ParserOf(if TakenText(lines) != "" then TakenText(lines) else HandedText(lines));
    FrameTaken(parse, frame);
    FrameHanded(parse, frame);
  }

  lemma {:induction false} OutOfStep(text: string, k: nat) returns (parse: Parser, n: nat)
    requires k < |Received(text).frames| && !HarmlessFrame(Received(text).frames[k])
    ensures parse("").None? && n <= |text| && !InStep(parse, text, n)
  {
    var frames := Received(text).frames;
    parse := Tells(frames[k]);
    n := Moment(text, k + 1);
    StandardByFrames(parse, text[..n]);
    if InStep(parse, text, n) {
      n := Moment(text, k);
      StandardByFrames(parse, text[..n]);
      if InStep(parse, text, n) {
        LastPush(Decoder(parse), Standard(parse), frames, k);
      }
    }
  }

  /**
   * On every stream: whatever the parser, at every moment the bridge has read exactly the messages the standard has
   * dispatched, if and only if every frame is harmless.
   */
  lemma {:induction false} ReaderConformsIff(text: string)
    ensures (forall parse: Parser, n: nat | parse("").None? && n <= |text| :: InStep(parse, text, n))
            <==> forall f | f in Received(text).frames :: HarmlessFrame(f)
  {
    if forall f | f in Received(text).frames :: HarmlessFrame(f) {
      forall parse: Parser, n: nat | parse("").None? && n <= |text| ensures InStep(parse, text, n) {
        HarmlessInStep(parse, text, n);
      }
    } else {
      var k :| 0 <= k < |Received(text).frames| && !HarmlessFrame(Received(text).frames[k]);
      var parse, n := OutOfStep(text, k);
    }
  }

  // ---- The endpoint, at every moment ----

  predicate NamesEndpoint(lines: seq<string>) {
    EventName(lines) == Some("endpoint")
  }

  predicate AnnouncesEndpoint(lines: seq<string>) {
    TypeAfter(lines, "") == "endpoint" && Data(lines) != []
  }

  /** Bridge and standard agree whether the frame is an endpoint event, and if it is, on its data without the ends' white space. */
  predicate SameAnnouncement(lines: seq<string>) {
    && (NamesEndpoint(lines) <==> AnnouncesEndpoint(lines))
    && (NamesEndpoint(lines) ==> Trim(JoinLines(DataLines(lines))) == Trim(JoinLines(Data(lines))))
  }

  lemma {:induction false} SameAnnouncementIff(parse: Parser, frame: string)
    ensures SameAnnouncement(Split("\n", frame)) <==> PathOf(Decoder(parse)(frame)) == PathOf(Standard(parse)(frame))
    ensures NamesEndpoint(Split("\n", frame)) <==> PathOf(Decoder(parse)(frame)).Some?
  {
    assert "endpoint"[0] != "message"[0];
  }

  predicate NamedAt(frames: seq<string>, k: nat)
    requires k < |frames|
  {
    NamesEndpoint(Split("\n", frames[k]))
  }

  /** The frame after which the bridge has its endpoint, and those before it, announce the same to bridge and standard. */
  predicate AnnouncedAlike(frames: seq<string>) {
    forall k | 0 <= k < |frames| && (forall j | 0 <= j < k :: !NamedAt(frames, j)) :: SameAnnouncement(Split("\n", frames[k]))
  }

  /** After `n` characters the handshake has the endpoint that the standard has dispatched, or neither has any. */
  predicate EndpointInStep(parse: Parser, text: string, n: nat)
    requires n <= |text|
  {
    Endpoint(Decoder(parse), At(text, n)) == EndpointIn(Dispatched(text[..n]))
  }

  lemma {:induction false} EndpointNextIs(decode: string -> Effect, frames: seq<string>, k: nat)
    requires k < |frames|
    ensures Endpoint(decode, frames[..k + 1]) == First(Endpoint(decode, frames[..k]), PathOf(decode(frames[k])))
  {
    assert frames[..k + 1] == frames[..k] + [frames[k]];
    NextFrame(decode, frames[..k], frames[k]);
  }

  /** None of the first `k` frames announces an endpoint. */
  predicate Unannounced(decode: string -> Effect, frames: seq<string>, k: nat)
    requires k <= |frames|
  {
    forall j | 0 <= j < k :: PathOf(decode(frames[j])).None?
  }

  lemma {:induction false} NoneAnnounced(decode: string -> Effect, frames: seq<string>, k: nat)
    requires k <= |frames|
    ensures Endpoint(decode, frames[..k]).None? <==> Unannounced(decode, frames, k)
  {
    if k > 0 {
      NoneAnnounced(decode, frames, k - 1);
      EndpointNextIs(decode, frames, k - 1);
    }
  }

  predicate SamePath(a: string -> Effect, b: string -> Effect, frame: string) {
    PathOf(a(frame)) == PathOf(b(frame))
  }

  lemma {:induction false} SameEndpoint(a: string -> Effect, b: string -> Effect, frames: seq<string>, k: nat)
    requires k <= |frames| && forall j | 0 <= j < k && Unannounced(a, frames, j) :: SamePath(a, b, frames[j])
    ensures Endpoint(a, frames[..k]) == Endpoint(b, frames[..k])
  {
    if k > 0 {
      SameEndpoint(a, b, frames, k - 1);
      EndpointNextIs(a, frames, k - 1);
      EndpointNextIs(b, frames, k - 1);
      NoneAnnounced(a, frames, k - 1);
    }
  }

  lemma {:induction false} NoneNamed(parse: Parser, frames: seq<string>, k: nat)
    requires k <= |frames|
    ensures Unannounced(Decoder(parse), frames, k) <==> forall j | 0 <= j < k :: !NamedAt(frames, j)
  {
    forall j | 0 <= j < k ensures PathOf(Decoder(parse)(frames[j])).None? <==> !NamedAt(frames, j) {
      SameAnnouncementIff(parse, frames[j]);
    }
  }

  lemma {:induction false} AlikeInStep(parse: Parser, text: string, n: nat)
    requires parse("").None? && n <= |text| && AnnouncedAlike(Received(text).frames)
    ensures EndpointInStep(parse, text, n)
  {
    AtIsPrefix(text, n);
    StandardByFrames(parse, text[..n]);
    var frames, k := Received(text).frames, |At(text, n)|;
    forall j | 0 <= j < k && Unannounced(Decoder(parse), frames, j) ensures SamePath(Decoder(parse), Standard(parse), frames[j]) {
      NoneNamed(parse, frames, j);
      SameAnnouncementIff(parse, frames[j]);
    }
    SameEndpoint(Decoder(parse), Standard(parse), frames, k);
  }

  lemma {:induction false} UnlikeOutOfStep(parse: Parser, text: string, k: nat) returns (n: nat)
    requires parse("").None? && k < |Received(text).frames|
    requires (forall j | 0 <= j < k :: !NamedAt(Received(text).frames, j))
    requires !SameAnnouncement(Split("\n", Received(text).frames[k]))
    ensures n <= |text| && !EndpointInStep(parse, text, n)
  {
    var frames := Received(text).frames;
    n := Moment(text, k);
    StandardByFrames(parse, text[..n]);
    if EndpointInStep(parse, text, n) {
      n := Moment(text, k + 1);
      StandardByFrames(parse, text[..n]);
      NoneNamed(parse, frames, k);
      NoneAnnounced(Decoder(parse), frames, k);
      EndpointNextIs(Decoder(parse), frames, k);
      EndpointNextIs(Standard(parse), frames, k);
      SameAnnouncementIff(parse, frames[k]);
    }
  }

  /**
   * On every stream: at every moment the endpoint of the handshake is that of the standard's first endpoint event, if and
   * only if the frame that gives the bridge its endpoint, and those before it, announce the same to both.
   */
  lemma {:induction false} EndpointConformsIff(parse: Parser, text: string)
    requires parse("").None?
    ensures (forall n: nat | n <= |text| :: EndpointInStep(parse, text, n)) <==> AnnouncedAlike(Received(text).frames)
  {
    var frames := Received(text).frames;
    if AnnouncedAlike(frames) {
      forall n: nat | n <= |text| ensures EndpointInStep(parse, text, n) { AlikeInStep(parse, text, n); }
    } else {
      var k :| 0 <= k < |frames| && (forall j | 0 <= j < k :: !NamedAt(frames, j)) && !SameAnnouncement(Split("\n", frames[k]));
      var n := UnlikeOutOfStep(parse, text, k);
    }
  }

  // ---- Plain streams ----

  /** Fields carry a colon; only a space may follow it, and an event name has no other white space around it. */
  predicate PlainLine(line: string) {
    line != "event" && PlainField(line) && (IsEventLine(line) ==> Trim(line[6..]) == StripSpace(line[6..]))
  }

  predicate PlainLines(lines: seq<string>) {
    && (forall i | 0 <= i < |lines| :: PlainLine(lines[i]))
    && (forall i, j | 0 <= i < j < |lines| :: IsEventLine(lines[i]) ==> !IsEventLine(lines[j]))
  }

  lemma {:induction false} NoEventName(lines: seq<string>, before: string)
    requires forall i | 0 <= i < |lines| :: PlainLine(lines[i]) && !IsEventLine(lines[i])
    ensures EventName(lines) == None && TypeAfter(lines, before) == before
  {
    if lines != [] {
      NoEventName(lines[1..], before);
    }
  }

  lemma {:induction false} PlainName(lines: seq<string>, before: string)
    requires PlainLines(lines)
    ensures TypeAfter(lines, before) == if EventName(lines).Some? then EventName(lines).value else before
  {
    if lines != [] {
      if IsEventLine(lines[0]) {
        NoEventName(lines[1..], TypeOf(lines[0], before));
      } else {
        PlainName(lines[1..], before);
      }
    }
  }

  /** Frames as servers usually write them are harmless, and announce the same if an endpoint event carries data. */
  lemma {:induction false} PlainIsHarmless(lines: seq<string>)
    requires PlainLines(lines)
    ensures Harmless(lines)
    ensures (NamesEndpoint(lines) ==> DataLines(lines) != []) <==> SameAnnouncement(lines)
  {
    PlainName(lines, "");
    SameDataIff(lines);
  }
}
