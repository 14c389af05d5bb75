/** Reading newline-delimited messages from stdin, as both the auth-required server and the bridge do. */
module StdinLines {
  import opened Outcomes
  import opened Text
  import opened Framing

  /** A raw line without one trailing carriage return; empty lines are skipped. */
  function Clean(raw: string): (r: seq<string>)
    ensures |r| <= 1
  {
    var line := if raw != "" && raw[|raw| - 1] == '\r' then raw[..|raw| - 1] else raw;
    if line == "" then [] else [line]
  }

  /** A line is kept without one trailing carriage return, unless nothing is left of it. */
  predicate Keeps(raw: string, line: string) {
    line != "" && (raw == line + "\r" || (raw == line && line[|line| - 1] != '\r'))
  }

  lemma {:induction false} CleanIff(raw: string, line: string)
    ensures Clean(raw) == [line] <==> Keeps(raw, line)
  {
    if raw != "" && raw[|raw| - 1] == '\r' {
      assert raw == raw[..|raw| - 1] + "\r";
      assert (line + "\r")[..|line|] == line;
    }
  }

  function CleanAll(raws: seq<string>): seq<string> {
    if raws == [] then [] else Clean(raws[0]) + CleanAll(raws[1..])
  }

  /** The lines of a text, and what is left of it after its last newline. */
  function Lines(text: string): seq<string> {
    CleanAll(Frames("\n", text).frames)
  }

  function Rest(text: string): string {
    Frames("\n", text).rest
  }

  lemma {:induction false} CleanAllConcat(xs: seq<string>, ys: seq<string>)
    ensures CleanAll(xs + ys) == CleanAll(xs) + CleanAll(ys)
  {
    if xs == [] {
      assert xs + ys == ys;
    } else {
      assert (xs + ys)[1..] == xs[1..] + ys;
      CleanAllConcat(xs[1..], ys);
    }
  }

  /** Chunks do not matter: what follows is read together with the unfinished line. */
  lemma {:induction false} LinesConcat(a: string, b: string)
    ensures Lines(a + b) == Lines(a) + Lines(Rest(a) + b) && Rest(a + b) == Rest(Rest(a) + b)
  {
    FramesConcat("\n", a, b);
    CleanAllConcat(Frames("\n", a).frames, Frames("\n", Rest(a) + b).frames);
  }

  lemma {:induction false} CutLine(text: string, i: nat)
    requires Find(text, "\n", 0) == Some(i)
    ensures i < |text| && Lines(text) == Clean(text[..i]) + Lines(text[i + 1..]) && Rest(text) == Rest(text[i + 1..])
  {
  }

  lemma {:induction false} NoLine(text: string)
    requires Find(text, "\n", 0).None?
    ensures Lines(text) == [] && Rest(text) == text
  {
  }

  /** Nothing is left over exactly if the text ends at a newline. */
  lemma {:induction false} RestIsEmpty(text: string)
    ensures Rest(text) == "" <==> text == "" || text[|text| - 1] == '\n'
    decreases |text|
  {
    var found := Find(text, "\n", 0);
    if found.Some? {
      var i := found.value;
      CutLine(text, i);
      RestIsEmpty(text[i + 1..]);
      assert text[i] == text[i..i + 1][0];
    } else if text != "" {
      NoNewlineAt(text, |text| - 1);
    }
  }

  lemma {:induction false} NoNewlineAt(text: string, k: nat)
    requires k < |text| && !OccursAt(text, "\n", k)
    ensures text[k] != '\n'
  {
  }

  /** The loop over a buffer: the lines it completes, in order, and what stays in it. */
  method TakeLines(text: string) returns (lines: seq<string>, buf: string)
    ensures lines == Lines(text) && buf == Rest(text)
  {
    lines, buf := [], text;
    var nl := Find(buf, "\n", 0);
    while nl.Some?
      invariant nl == Find(buf, "\n", 0)
      invariant Lines(text) == lines + Lines(buf) && Rest(text) == Rest(buf)
      decreases |buf|
    {
      TakeOne(text, lines, buf, nl.value);
      lines := lines + Clean(buf[..nl.value]);
      buf := buf[nl.value + 1..];
      nl := Find(buf, "\n", 0);
    }
    NoLine(buf);
    assert lines + [] == lines;
  }

  lemma {:induction false} TakeOne(text: string, lines: seq<string>, buf: string, i: nat)
    requires Find(buf, "\n", 0) == Some(i) && Lines(text) == lines + Lines(buf) && Rest(text) == Rest(buf)
    ensures i < |buf| && Lines(text) == (lines + Clean(buf[..i])) + Lines(buf[i + 1..]) && Rest(text) == Rest(buf[i + 1..])
  {
    CutLine(buf, i);
    Regrouped(lines, Clean(buf[..i]), Lines(buf[i + 1..]));
  }

  lemma {:induction false} Regrouped(x: seq<string>, y: seq<string>, z: seq<string>)
    ensures x + (y + z) == (x + y) + z
  {
  }

  /** The bridge's reader. */
  class StdinReader {
    var buf: string
    ghost var fed: string
    ghost var delivered: seq<string>

    ghost predicate Valid()
      reads this
    {
      buf == Rest(fed) && delivered == Lines(fed)
    }

    constructor ()
      ensures Valid() && fed == ""
    {
      buf, fed, delivered := "", "", [];
      new;
      NoLine("");
    }

    method OnData(chunk: string) returns (lines: seq<string>)
      requires Valid()
      modifies this
      ensures Valid() && fed == old(fed) + chunk && delivered == old(delivered) + lines
    {
      LinesConcat(fed, chunk);
      lines, buf := TakeLines(buf + chunk);
      fed, delivered := fed + chunk, delivered + lines;
    }
  }
}

/** The server that runs until the user has signed in, and its handoff to the bridge. */
module AuthServer {
  import opened Outcomes
  import opened Text
  import opened Framing
  import opened StdinLines

  /** A line as JSON.parse and the tests of handleAuthLine see it. */
  datatype Request = NotJson | Request(hasId: bool, method_: Option<string>, tool: Option<string>)

  datatype Verdict = Silent | Initialized | StubTools | LoginStarted | SignInNudge | MethodNotFound | HandsOff

  /** handleAuthLine; `signedIn` tells whether loadCreds finds credentials now. */
  function HandleAuthLine(r: Request, signedIn: bool): Verdict {
    if r.NotJson? || (!r.hasId && r.method_.Some?) then Silent
    else if r.method_ == Some("initialize") then Initialized
    else if r.method_ == Some("tools/list") then if signedIn then HandsOff else StubTools
    else if r.method_ == Some("tools/call") then
      if r.tool == Some("memwal_login") then LoginStarted else if signedIn then HandsOff else SignInNudge
    else MethodNotFound
  }

  /** Whether the k-th line is handed to the bridge. */
  type Trigger = (nat, string) -> bool

  function TriggerOf(parse: string -> Request, signedIn: nat -> bool): Trigger {
    (k: nat, line: string) => HandleAuthLine(parse(line), signedIn(k)) == HandsOff
  }

  /** A request for the tool list, or for a tool the bridge serves. */
  predicate ForBridge(r: Request) {
    r.Request? && r.hasId && (r.method_ == Some("tools/list") || (r.method_ == Some("tools/call") && r.tool != Some("memwal_login")))
  }

  /** Only a request for the bridge hands off, and only after a sign-in; only notifications and noise go unanswered. */
  lemma {:induction false} HandsOffExactly(r: Request, signedIn: bool)
    ensures HandleAuthLine(r, signedIn) == HandsOff <==> signedIn && ForBridge(r)
    ensures HandleAuthLine(r, signedIn) == Silent <==> r.NotJson? || (!r.hasId && r.method_.Some?)
    ensures HandleAuthLine(r, signedIn) == SignInNudge ==> !signedIn && HandleAuthLine(r, true) == HandsOff
    ensures HandleAuthLine(r, signedIn) == SignInNudge <==> !signedIn && ForBridge(r) && r.method_ == Some("tools/call")
    ensures HandleAuthLine(r, signedIn) == StubTools <==> !signedIn && ForBridge(r) && r.method_ == Some("tools/list")
    ensures HandleAuthLine(r, signedIn) == LoginStarted
            <==> r.Request? && r.hasId && r.method_ == Some("tools/call") && r.tool == Some("memwal_login")
    ensures HandleAuthLine(r, signedIn) == Initialized <==> r.Request? && r.hasId && r.method_ == Some("initialize")
  {
  }

  class Server {
    const parse: string -> Request
    const signedIn: nat -> bool       // whether credentials are found when the k-th line is handled
    var buf: string
    var settled: bool
    var pendingLines: seq<string>
    var handled: seq<string>          // lines answered here
    ghost var fed: string

    /** Every complete line was handled here or is pending for the bridge, in order. */
    ghost predicate Valid()
      reads this
    {
      && buf == Rest(fed) && handled + pendingLines == Lines(fed)
      && AllLocal(TriggerOf(parse, signedIn), 0, handled) && Settles(TriggerOf(parse, signedIn), |handled|, pendingLines)
      && (settled <==> pendingLines != [])
    }

    constructor (parse: string -> Request, signedIn: nat -> bool)
      ensures Valid() && !settled && fed == "" && this.parse == parse && this.signedIn == signedIn
    {
      this.parse, this.signedIn := parse, signedIn;
      buf, settled, pendingLines, handled, fed := "", false, [], [], "";
      new;
      NoLine("");
    }

    /**
     * onData; after it has settled the listener is detached. It settles exactly at the first line that is for the bridge
     * and comes after a sign-in.
     */
    method OnData(chunk: string)
      requires Valid() && !settled
      modifies this
      ensures Valid() && fed == old(fed) + chunk && old(handled) <= handled
      ensures settled ==> chunk != "" && signedIn(|handled|) && ForBridge(parse(pendingLines[0]))
      ensures forall i: nat | i < |handled| :: !(signedIn(i) && ForBridge(parse(handled[i])))
    {
      var triggers := TriggerOf(parse, signedIn);
      var local, pending, rest := Serve(triggers, |handled|, buf + chunk);
      ServedOn(triggers, fed, chunk, handled, local, pending);
      handled, pendingLines, buf, settled := handled + local, pending, rest, pending != [];
      fed := fed + chunk;
      SettlesRightly(parse, signedIn, handled, pendingLines);
    }
  }

  lemma {:induction false} SettlesRightly(parse: string -> Request, signedIn: nat -> bool, handled: seq<string>, pending: seq<string>)
    requires AllLocal(TriggerOf(parse, signedIn), 0, handled) && Settles(TriggerOf(parse, signedIn), |handled|, pending)
    ensures pending != [] ==> signedIn(|handled|) && ForBridge(parse(pending[0]))
    ensures forall i: nat | i < |handled| :: !(signedIn(i) && ForBridge(parse(handled[i])))
  {
    NoneHandsOver(parse, signedIn, handled);
    if pending != [] {
      TriggerIs(parse, signedIn, |handled|, pending[0]);
    }
  }

  lemma {:induction false} TriggerIs(parse: string -> Request, signedIn: nat -> bool, k: nat, line: string)
    ensures TriggerOf(parse, signedIn)(k, line) <==> signedIn(k) && ForBridge(parse(line))
  {
    HandsOffExactly(parse(line), signedIn(k));
  }

  lemma {:induction false} NoneHandsOver(parse: string -> Request, signedIn: nat -> bool, handled: seq<string>)
    requires AllLocal(TriggerOf(parse, signedIn), 0, handled)
    ensures forall i: nat | i < |handled| :: !(signedIn(i) && ForBridge(parse(handled[i])))
  {
    forall i: nat | i < |handled| ensures !(signedIn(i) && ForBridge(parse(handled[i]))) {
      TriggerIs(parse, signedIn, i, handled[i]);
      assert !TriggerOf(parse, signedIn)(0 + i, handled[i]);
    }
  }

  lemma {:induction false} ServedOn(triggers: Trigger, fed: string, chunk: string, handled: seq<string>, local: seq<string>, pending: seq<string>)
    requires handled == Lines(fed) && AllLocal(triggers, 0, handled)
    requires local + pending == Lines(Rest(fed) + chunk) && AllLocal(triggers, |handled|, local)
    ensures (handled + local) + pending == Lines(fed + chunk) && Rest(fed + chunk) == Rest(Rest(fed) + chunk)
    ensures AllLocal(triggers, 0, handled + local) && |handled + local| == |handled| + |local|
    ensures pending != [] ==> chunk != ""
  {
    LinesConcat(fed, chunk);
    NothingNew(fed, chunk);
    assert (handled + local) + pending == handled + (local + pending);
    forall i: nat | i < |handled + local| ensures !triggers(i, (handled + local)[i]) {
      if i >= |handled| {
        assert !triggers(|handled| + (i - |handled|), local[i - |handled|]);
      }
    }
  }

  lemma {:induction false} NothingNew(fed: string, chunk: string)
    ensures chunk == "" ==> Lines(Rest(fed) + chunk) == []
  {
    if chunk == "" {
      FramesRoundTrip("\n", fed);
      assert Rest(fed) + chunk == Rest(fed);
      assert Find(Rest(fed), "\n", 0).None?;
      NoLine(Rest(fed));
    }
  }

  /** A line has triggered the handoff, the k-th one of the session. */
  predicate Settles(triggers: Trigger, k: nat, pending: seq<string>) {
    pending != [] ==> triggers(k, pending[0])
  }

  predicate AllLocal(triggers: Trigger, k: nat, local: seq<string>) {
    forall i: nat | i < |local| :: !triggers(k + i, local[i])
  }

  lemma {:induction false} LocalOneMore(triggers: Trigger, k: nat, local: seq<string>, line: seq<string>)
    requires AllLocal(triggers, k, local) && |line| <= 1 && (line != [] ==> !triggers(k + |local|, line[0]))
    ensures AllLocal(triggers, k, local + line)
  {
    forall i: nat | i < |local + line| ensures !triggers(k + i, (local + line)[i]) {
      if i >= |local| {
        assert i == |local|;
      }
    }
  }

  /** The loops of onData: lines are served here up to the first one that triggers; that one and all behind it are pending. */
  method Serve(triggers: Trigger, k: nat, text: string) returns (local: seq<string>, pending: seq<string>, buf: string)
    ensures local + pending == Lines(text) && buf == Rest(text)
    ensures AllLocal(triggers, k, local) && Settles(triggers, k + |local|, pending)
  {
    local, pending, buf := [], [], text;
    var nl := Find(buf, "\n", 0);
    while nl.Some?
      invariant nl == Find(buf, "\n", 0) && pending == []
      invariant local + Lines(buf) == Lines(text) && Rest(text) == Rest(buf)
      invariant AllLocal(triggers, k, local)
      decreases |buf|
    {
      TakeOne(text, local, buf, nl.value);
      var line := Clean(buf[..nl.value]);
      buf := buf[nl.value + 1..];
      if line != [] && triggers(k + |local|, line[0]) {
        var behind;
        behind, buf := TakeLines(buf);
        pending := line + behind;
        Regrouped(local, line, behind);
        return;
      }
      LocalOneMore(triggers, k, local, line);
      local := local + line;
      nl := Find(buf, "\n", 0);
    }
    NoLine(buf);
  }

  // ---- The switch ----

  /** The server settled on `fed`, and the bridge's reader, which starts with an empty buffer, reads `later`. */
  predicate Conserves(fed: string, later: string) {
    Lines(fed) + Lines(later) == Lines(fed + later)
  }

  /** What the bridge reads differs from what was sent exactly by the unfinished line left in the server's buffer. */
  lemma {:induction false} ConservesIff(fed: string, later: string)
    ensures Conserves(fed, later) <==> Lines(Rest(fed) + later) == Lines(later)
  {
    LinesConcat(fed, later);
    SamePrefix(Lines(fed), Lines(later), Lines(Rest(fed) + later));
  }

  lemma {:induction false} SamePrefix(a: seq<string>, x: seq<string>, y: seq<string>)
    ensures a + x == a + y <==> x == y
  {
    assert (a + x)[|a|..] == x && (a + y)[|a|..] == y;
  }

  /** A line loses its beginning if the switch happened inside it. */
  lemma {:induction false} CutInside(rest: string)
    requires rest != "" && Find(rest, "\n", 0).None?
    ensures Lines(rest + "x\n") != Lines("x\n")
  {
    forall k | 0 <= k < |rest| ensures rest[k] != '\n' { NoNewlineAt(rest, k); }
    OneLine(rest + "x");
    OneLine("x");
    assert rest + "x\n" == (rest + "x") + "\n";
    assert "x\n" == "x" + "\n";
  }

  lemma {:induction false} OneLine(s: string)
    requires s != "" && s[|s| - 1] == 'x' && forall k | 0 <= k < |s| - 1 :: s[k] != '\n'
    ensures Lines(s + "\n") == [s]
  {
    var n := |s|;
    var text := s + "\n";
    assert text[n..n + 1] == "\n";
    forall j | 0 <= j < n ensures !OccursAt(text, "\n", j) {
      assert text[j..j + 1] == [s[j]];
    }
    FindIs(text, "\n", 0, n);
    CutLine(text, n);
    assert text[..n] == s && text[n + 1..] == "";
    NoLine("");
  }

  /**
   * The handoff conserves every continuation exactly if the chunk that triggered it ends at a newline: lines handled
   * here, then the pending ones, then those the bridge reads are all the lines sent, in order.
   */
  lemma {:induction false} HandoffConservesIff(before: string, chunk: string)
    requires chunk != ""
    ensures (forall later :: Conserves(before + chunk, later)) <==> chunk[|chunk| - 1] == '\n'
  {
    var fed := before + chunk;
    RestIsEmpty(fed);
    FramesRoundTrip("\n", fed);
    if Rest(fed) == "" {
      forall later ensures Conserves(fed, later) {
        ConservesIff(fed, later);
        assert "" + later == later;
      }
    } else {
      CutInside(Rest(fed));
      ConservesIff(fed, "x\n");
    }
  }
}
