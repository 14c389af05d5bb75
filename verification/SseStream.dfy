/** Server-sent events: cutting the decoded text into events, and the queue between the reader and its consumer. */
module SseEvents {
  import opened Outcomes
  import opened Text
  import opened Framing
  import opened Bridge

  /** JSON.parse on the data of an event: None where it throws. */
  type Parser = string -> Option<Incoming>

  /** `s.split(separator)`. */
  function Split(separator: string, s: string): (r: seq<string>)
    requires separator != ""
    ensures r != []
  {
    Frames(separator, s).frames + [Frames(separator, s).rest]
  }

  /** The value of the first `event:` line. */
  function EventName(lines: seq<string>): Option<string> {
    if lines == [] then None
    else if StartsWith(lines[0], "event:") then Some(Trim(lines[0][6..]))
    else EventName(lines[1..])
  }

  function DropOneSpace(s: string): string {
    if s != "" && IsSpace(s[0]) then s[1..] else s
  }

  function DataLines(lines: seq<string>): seq<string> {
    if lines == [] then []
    else (if StartsWith(lines[0], "data:") then [DropOneSpace(lines[0][5..])] else []) + DataLines(lines[1..])
  }

  /** `lines.join("\n")`. */
  function JoinLines(lines: seq<string>): string {
    if lines == [] then "" else if |lines| == 1 then lines[0] else lines[0] + "\n" + JoinLines(lines[1..])
  }

  /** What an event makes the reader do: note the endpoint (once), push a message, or nothing. */
  datatype Effect = Announces(path: string) | Pushes(message: Incoming) | Ignored

  function Decode(parse: Parser, event: Option<string>, data: string): Effect {
    if event == Some("endpoint") then Announces(Trim(data))
    else if event == Some("message") || ((event.None? || event.value == "") && data != "") then
      var m := parse(data);
      if m.Some? then Pushes(m.value) else Ignored
    else Ignored
  }

  function DecodeFrame(parse: Parser, frame: string): Effect {
    Decode(parse, EventName(Split("\n", frame)), JoinLines(DataLines(Split("\n", frame))))
  }

  function Decoder(parse: Parser): string -> Effect {
    frame => DecodeFrame(parse, frame)
  }

  function Messages(decode: string -> Effect, frames: seq<string>): seq<Incoming> {
    if frames == [] then []
    else
      var e := decode(frames[|frames| - 1]);
      Messages(decode, frames[..|frames| - 1]) + if e.Pushes? then [e.message] else []
  }

  /** The path of the first endpoint event. */
  function Endpoint(decode: string -> Effect, frames: seq<string>): Option<string> {
    if frames == [] then None
    else
      var before := Endpoint(decode, frames[..|frames| - 1]);
      var e := decode(frames[|frames| - 1]);
      if before.Some? then before else if e.Announces? then Some(e.path) else None
  }

  /** The frames of everything received so far. */
  function Received(text: string): Cut {
    Frames("\n\n", text)
  }

  lemma {:induction false} NextFrame(decode: string -> Effect, frames: seq<string>, frame: string)
    ensures Messages(decode, frames + [frame])
            == Messages(decode, frames) + if decode(frame).Pushes? then [decode(frame).message] else []
    ensures Endpoint(decode, frames + [frame])
            == if Endpoint(decode, frames).Some? then Endpoint(decode, frames)
               else if decode(frame).Announces? then Some(decode(frame).path) else None
  {
  }
}

module SseStream {
  import opened Outcomes
  import opened Text
  import opened Framing
  import opened Bridge
  import opened SseEvents

  /** Who may sleep on the one wake slot: the handshake loop, or a reader inside next(). */
  datatype Task = Handshake | Reader

  datatype Handshaken = Opened(path: string) | Failed | HandshakeWaits
  datatype Pulled = Yielded(message: Incoming) | EndOfStream | ReaderWaits

  /** The variables of one open stream; `frames` and `taken` record what was cut off `buf` and what next() returned. */
  class Stream {
    const decode: string -> Effect
    var buf: string
    var endpoint: Option<string>      // endpointResolved and endpointPath
    var streamEnded: bool
    var aborted: bool
    var events: seq<Incoming>
    var queueResolver: Option<Task>
    var runnable: Option<Task>        // a task whose promise is resolved and which has not run yet
    ghost var frames: seq<string>
    ghost var taken: seq<Incoming>

    ghost predicate Awaits(task: Task)
      reads this
    {
      match task
      case Handshake => endpoint.None? && !streamEnded
      case Reader => events == [] && !streamEnded
    }

    /** The queue holds what has not been taken yet, and nobody sleeps on something that has happened. */
    ghost predicate Valid()
      reads this
    {
      && taken + events == Messages(decode, frames)
      && endpoint == Endpoint(decode, frames)
      && (queueResolver.Some? ==> Awaits(queueResolver.value) && runnable.None?)
    }

    constructor (parse: Parser)
      ensures Valid() && decode == Decoder(parse) && buf == "" && frames == [] && taken == []
      ensures !streamEnded && !aborted && queueResolver.None? && runnable.None?
    {
      decode := Decoder(parse);
      buf, endpoint, streamEnded, aborted, events := "", None, false, false, [];
      queueResolver, runnable, frames, taken := None, None, [], [];
    }

    method Wake()
      modifies this`queueResolver, this`runnable
      ensures queueResolver.None?
      ensures runnable == if old(queueResolver).Some? then old(queueResolver) else old(runnable)
    {
      if queueResolver.Some? {
        runnable := queueResolver;
        queueResolver := None;
      }
    }

    /** A sleeper keeps sleeping or becomes runnable; it is never dropped. */
    twostate predicate NoSleeperLost()
      reads this
    {
      && (old(queueResolver).Some? ==> queueResolver == old(queueResolver) || runnable == old(queueResolver))
      && (old(queueResolver).None? ==> queueResolver.None? && runnable == old(runnable))
    }

    /** One frame of the pump's inner loop. */
    method HandleFrame(frame: string)
      requires Valid()
      modifies this`endpoint, this`events, this`queueResolver, this`runnable, this`frames
      ensures Valid() && frames == old(frames) + [frame]
      ensures NoSleeperLost()
    {
      NextFrame(decode, frames, frame);
      frames := frames + [frame];
      match decode(frame)
      case Announces(path) =>
        if endpoint.None? {
          endpoint := Some(path);
          Wake();
        }
      case Pushes(message) =>
        assert (taken + events) + [message] == taken + (events + [message]);
        events := events + [message];
        Wake();
      case Ignored =>
    }

    /** A chunk of decoded text arrives. */
    method OnChunk(chunk: string)
      requires Valid() && !streamEnded
      modifies this`buf, this`endpoint, this`events, this`queueResolver, this`runnable, this`frames
      ensures Valid() && Pump(buf, frames) == Feed(Pump(old(buf), old(frames)), chunk)
      ensures NoSleeperLost()
    {
      buf := buf + chunk;
      var sep := Find(buf, "\n\n", 0);
      while sep.Some?
        invariant sep == Find(buf, "\n\n", 0)
        invariant Feed(Pump(old(buf), old(frames)), chunk) == Pump(Received(buf).rest, frames + Received(buf).frames)
        invariant Valid() && NoSleeperLost()
        decreases |buf|
      {
        CutOne(buf, sep.value, frames);
        var frame := buf[..sep.value];
        buf := buf[sep.value + 2..];
        HandleFrame(frame);
        sep := Find(buf, "\n\n", 0);
      }
      assert frames + [] == frames;
    }

    /** The reader is done or fails, an abort included. */
    method OnEnd()
      requires Valid()
      modifies this`streamEnded, this`queueResolver, this`runnable
      ensures Valid() && streamEnded && queueResolver.None?
      ensures NoSleeperLost()
    {
      streamEnded := true;
      Wake();
    }

    /** The watchdog or the bridge aborts: nobody is woken by that alone, only by the OnEnd that follows. */
    method Abort()
      requires Valid()
      modifies this`aborted
      ensures Valid() && aborted
    {
      aborted := true;
    }

    /** The handshake loop, from its test to its return or to its await. */
    method RunHandshake() returns (r: Handshaken)
      requires Valid() && queueResolver.None? && (runnable.None? || runnable == Some(Handshake))
      modifies this`aborted, this`queueResolver, this`runnable
      ensures Valid() && runnable.None?
      ensures r.Opened? <==> Endpoint(decode, frames).Some?
      ensures r.Opened? ==> Endpoint(decode, frames) == Some(r.path)
      ensures r.Failed? ==> streamEnded && aborted
      ensures if r.HandshakeWaits? then queueResolver == Some(Handshake) else queueResolver.None?
    {
      runnable := None;
      if endpoint.Some? {
        return Opened(endpoint.value);
      }
      if streamEnded {
        aborted := true;
        return Failed;
      }
      queueResolver := Some(Handshake);
      return HandshakeWaits;
    }

    /** next(), from its test to its return or to its await. */
    method Next() returns (r: Pulled)
      requires Valid() && queueResolver.None? && (runnable.None? || runnable == Some(Reader))
      modifies this`events, this`queueResolver, this`runnable, this`taken
      ensures Valid() && runnable.None?
      ensures r.Yielded? <==> old(events) != []
      ensures r.Yielded? ==> taken == old(taken) + [r.message]
      ensures !r.Yielded? ==> taken == old(taken) == Messages(decode, frames)
      ensures r.EndOfStream? <==> old(events) == [] && (aborted || streamEnded)
      ensures if r.ReaderWaits? then queueResolver == Some(Reader) else queueResolver.None?
    {
      runnable := None;
      if events == [] {
        assert taken == taken + events;
        if aborted || streamEnded {
          return EndOfStream;
        }
        queueResolver := Some(Reader);
        return ReaderWaits;
      }
      var first := events[0];
      assert taken + events == (taken + [first]) + events[1..];
      events := events[1..];
      taken := taken + [first];
      return Yielded(first);
    }
  }

  // ---- Chunks ----

  datatype Pump = Pump(buf: string, frames: seq<string>)

  function Feed(p: Pump, chunk: string): Pump {
    var cut := Received(p.buf + chunk);
    Pump(cut.rest, p.frames + cut.frames)
  }

  lemma {:induction false} CutOne(buf: string, i: nat, frames: seq<string>)
    requires Find(buf, "\n\n", 0) == Some(i)
    ensures i + 2 <= |buf|
    ensures Pump(Received(buf).rest, frames + Received(buf).frames)
            == Pump(Received(buf[i + 2..]).rest, (frames + [buf[..i]]) + Received(buf[i + 2..]).frames)
  {
  }

  function FeedAll(chunks: seq<string>): Pump {
    if chunks == [] then Pump("", []) else Feed(FeedAll(chunks[..|chunks| - 1]), chunks[|chunks| - 1])
  }

  /** However the text is chunked, the frames handled and the text kept are those of the whole text. */
  lemma {:induction false} ChunksDoNotMatter(chunks: seq<string>)
    ensures FeedAll(chunks) == Pump(Received(Joined(chunks)).rest, Received(Joined(chunks)).frames)
  {
    if chunks != [] {
      var n := |chunks| - 1;
      ChunksDoNotMatter(chunks[..n]);
      FramesConcat("\n\n", Joined(chunks[..n]), chunks[n]);
    }
  }
}
