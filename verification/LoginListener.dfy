/** The localhost listener of the login flow: preflight, callback and timeout under any interleaving of requests. */
module LoginListener {
  import opened Outcomes
  import opened Text
  import opened Hex

  /** The listener's key pair, single-use state token and configuration. */
  datatype Config = Config(privateKey: string, publicKey: string, address: string, token: string, relayer: string, label_: string)

  /** Token and public key are the hexadecimal text of 32 bytes. */
  predicate WellFormed(c: Config) {
    |c.token| == 64 && IsLowerHex(c.token) && |c.publicKey| == 64 && IsLowerHex(c.publicKey)
  }

  /** A parsed body: None stands for a field that is missing or not a string. */
  datatype Body =
    | NotObject
    | Fields(state: Option<string>, publicKey: Option<string>, relayer: Option<string>,
             account: Option<string>, wallet: Option<string>, package_: Option<string>)

  datatype Credentials = Credentials(
    privateKey: string, publicKey: string, address: string,
    wallet: string, account: string, package_: string, relayer: string, label_: string)

  // ---- The checks ----

  predicate IsHexAddress(s: Option<string>) {
    s.Some? && |s.value| == 66 && s.value[0] == '0' && s.value[1] == 'x'
    && forall i | 2 <= i < 66 :: IsHexDigit(s.value[i])
  }

  predicate IsState(s: Option<string>) {
    s.Some? && |s.value| == 64 && IsLowerHex(s.value)
  }

  predicate IsCallback(b: Body) {
    b.Fields? && IsHexAddress(b.account) && IsHexAddress(b.wallet) && IsHexAddress(b.package_) && IsState(b.state)
  }

  predicate IsPreflight(b: Body) {
    && b.Fields? && IsState(b.state)
    && b.publicKey.Some? && |b.publicKey.value| == 64 && (forall i | 0 <= i < 64 :: IsHexDigit(b.publicKey.value[i]))
    && b.relayer.Some? && b.relayer.value != ""
  }

  /** stateEquals: buffers of the decoded text are compared; different lengths compare unequal. */
  predicate StateEquals(a: string, b: string) {
    |a| == |b| && BytesOf(a) == BytesOf(b)
  }

  function NormalizeUrl(s: string): string {
    if s != "" && s[|s| - 1] == '/' then NormalizeUrl(s[..|s| - 1]) else s
  }

  /** Only slashes at the end are dropped, and all of them. */
  lemma {:induction false} NormalizeUrlDrops(s: string) returns (slashes: string)
    ensures s == NormalizeUrl(s) + slashes && forall i | 0 <= i < |slashes| :: slashes[i] == '/'
    ensures NormalizeUrl(s) == "" || NormalizeUrl(s)[|NormalizeUrl(s)| - 1] != '/'
  {
    if s != "" && s[|s| - 1] == '/' {
      slashes := NormalizeUrlDrops(s[..|s| - 1]);
      slashes := slashes + "/";
    } else {
      slashes := "";
    }
  }

  predicate Valid(c: Config, b: Body)
    requires IsPreflight(b)
  {
    && StateEquals(b.state.value, c.token)
    && StateEquals(Lower(b.publicKey.value), Lower(c.publicKey))
    && NormalizeUrl(b.relayer.value) == NormalizeUrl(c.relayer)
  }

  /** Comparing the decoded bytes of two lower-case hexadecimal texts of one even length is comparing the texts. */
  lemma {:induction false} StateEqualsIsEquality(a: string, b: string)
    requires IsLowerHex(a) && IsLowerHex(b) && |a| % 2 == 0
    ensures StateEquals(a, b) <==> a == b
  {
    if |a| == |b| {
      BytesRoundTrip(a);
      BytesRoundTrip(b);
    }
  }

  lemma {:induction false} LowerIsLowerHex(s: string)
    requires forall i | 0 <= i < |s| :: IsHexDigit(s[i])
    ensures IsLowerHex(Lower(s)) && (IsLowerHex(s) ==> Lower(s) == s)
  {
  }

  /** The state tuple a preflight must present: this token, this key, this relayer up to trailing slashes. */
  predicate KnowsListener(c: Config, b: Body) {
    && b.Fields? && b.state == Some(c.token)
    && b.publicKey.Some? && Lower(b.publicKey.value) == c.publicKey
    && b.relayer.Some? && b.relayer.value != "" && NormalizeUrl(b.relayer.value) == NormalizeUrl(c.relayer)
  }

  lemma {:induction false} AcceptedIffKnown(c: Config, b: Body)
    requires WellFormed(c)
    ensures IsPreflight(b) && Valid(c, b) <==> KnowsListener(c, b)
  {
    LowerIsLowerHex(c.publicKey);
    if IsPreflight(b) {
      LowerIsLowerHex(b.publicKey.value);
      StateEqualsIsEquality(b.state.value, c.token);
      StateEqualsIsEquality(Lower(b.publicKey.value), Lower(c.publicKey));
    }
    if KnowsListener(c, b) {
      LoweredWasHex(b.publicKey.value, c.publicKey);
    }
  }

  lemma {:induction false} LoweredWasHex(s: string, t: string)
    requires Lower(s) == t && IsLowerHex(t)
    ensures forall i | 0 <= i < |s| :: IsHexDigit(s[i])
  {
  }

  // ---- The request handler ----

  datatype Outcome = Pending | Thrown | Returned(creds: Credentials)

  /** The variables of loginFlow; `saved` is what saveCreds has written, `settled` whether `done` is resolved. */
  datatype State = State(verified: bool, creds: Option<Credentials>, error: bool, settled: bool, saved: seq<Credentials>, outcome: Outcome)

  datatype Event =
    | Preflight(body: Body)
    | Callback(body: Body, saveFails: bool)
    | BodyFails                 // the body is too large, breaks off or is not JSON
    | TimesOut
    | FlowContinues             // loginFlow resumes after awaiting `done`

  datatype Response = Status(code: nat) | NoResponse

  const Start := State(false, None, false, false, [], Pending)

  function RecordFor(c: Config, b: Body): Credentials
    requires IsCallback(b)
  {
    Credentials(c.privateKey, c.publicKey, c.address, b.wallet.value, b.account.value, b.package_.value, c.relayer, c.label_)
  }

  /** The record keeps the callback's three addresses, each in its own field, and everything else is the listener's. */
  predicate Confirms(c: Config, b: Body, r: Credentials) {
    && b.Fields?
    && b.account == Some(r.account) && b.wallet == Some(r.wallet) && b.package_ == Some(r.package_)
    && r.privateKey == c.privateKey && r.publicKey == c.publicKey && r.address == c.address
    && r.relayer == c.relayer && r.label_ == c.label_
  }

  function Step(c: Config, s: State, e: Event): State {
    match e
    case Preflight(b) => if IsPreflight(b) && Valid(c, b) then s.(verified := true) else s
    case Callback(b, saveFails) =>
      if !s.verified || !IsCallback(b) || !StateEquals(b.state.value, c.token) then s
      else
        var record := RecordFor(c, b);
        var s1 := s.(verified := false, creds := Some(record), settled := true);
        if saveFails then s1.(error := true) else s1.(saved := s.saved + [record])
    case BodyFails => s.(error := true, settled := true)
    case TimesOut => if s.creds.None? then s.(error := true, settled := true) else s
    case FlowContinues =>
      if !s.settled || !s.outcome.Pending? then s
      else s.(outcome := if s.error || s.creds.None? then Thrown else Returned(s.creds.value))
  }

  /** The variables as the closure holds them. */
  class Listener {
    const config: Config
    var preflightVerified: bool
    var creds: Option<Credentials>
    var error: bool
    var settled: bool
    var saved: seq<Credentials>
    var outcome: Outcome

    constructor (config: Config)
      ensures this.config == config && View() == Start && Consistent(config, View())
    {
      this.config := config;
      preflightVerified, creds, error, settled, saved, outcome := false, None, false, false, [], Pending;
    }

    function View(): State
      reads this
    {
      State(preflightVerified, creds, error, settled, saved, outcome)
    }

    /** POST /preflight once its body is read: accepted exactly if the sender knows this listener, and nothing is saved. */
    method OnPreflight(b: Body) returns (r: Response)
      requires WellFormed(config) && Consistent(config, View())
      modifies this
      ensures View() == Step(config, old(View()), Preflight(b)) && Consistent(config, View())
      ensures r == Status(200) <==> KnowsListener(config, b)
      ensures r == Status(400) <==> !IsPreflight(b)
      ensures r in {Status(200), Status(400), Status(403)}
      ensures preflightVerified <==> old(preflightVerified) || r == Status(200)
      ensures saved == old(saved) && creds == old(creds) && outcome == old(outcome) && settled == old(settled)
    {
      AcceptedIffKnown(config, b);
      if !IsPreflight(b) {
        return Status(400);
      }
      if !Valid(config, b) {
        return Status(403);
      }
      preflightVerified := true;
      return Status(200);
    }

    /** POST /callback once its body is read: it saves at most one record, the listener's own, and uses the preflight up. */
    method OnCallback(b: Body, saveFails: bool) returns (r: Response)
      requires WellFormed(config) && Consistent(config, View())
      modifies this
      ensures View() == Step(config, old(View()), Callback(b, saveFails)) && Consistent(config, View())
      ensures r == Status(200) <==> saved != old(saved)
      ensures r == Status(200) <==> old(preflightVerified) && IsCallback(b) && b.state == Some(config.token) && !saveFails
      ensures r == Status(428) <==> !old(preflightVerified)
      ensures r == Status(400) <==> old(preflightVerified) && !IsCallback(b)
      ensures r == Status(403) <==> old(preflightVerified) && IsCallback(b) && b.state != Some(config.token)
      ensures r == Status(500) <==> old(preflightVerified) && IsCallback(b) && b.state == Some(config.token) && saveFails
      ensures saved != old(saved) ==> |saved| == |old(saved)| + 1 && saved[..|old(saved)|] == old(saved) && settled
      ensures saved != old(saved) ==> Confirms(config, b, saved[|saved| - 1]) && creds == Some(saved[|saved| - 1])
      ensures preflightVerified ==> old(preflightVerified) && saved == old(saved) && creds == old(creds)
      ensures outcome == old(outcome)
    {
      if IsCallback(b) {
        StateEqualsIsEquality(b.state.value, config.token);
      }
      StepConsistent(config, View(), Callback(b, saveFails));
      if !preflightVerified {
        return Status(428);
      }
      if !IsCallback(b) {
        return Status(400);
      }
      if !StateEquals(b.state.value, config.token) {
        return Status(403);
      }
      preflightVerified := false;
      creds := Some(RecordFor(config, b));
      settled := true;
      if saveFails {
        error := true;
        return Status(500);
      }
      saved := saved + [creds.value];
      return Status(200);
    }
  }

  // ---- Every interleaving ----

  function After(c: Config, events: seq<Event>): State {
    if events == [] then Start else Step(c, After(c, events[..|events| - 1]), events[|events| - 1])
  }

  predicate Accepts(c: Config, e: Event) {
    e.Preflight? && KnowsListener(c, e.body)
  }

  function Preflights(c: Config, events: seq<Event>): nat {
    if events == [] then 0
    else Preflights(c, events[..|events| - 1]) + if Accepts(c, events[|events| - 1]) then 1 else 0
  }

  /** The j-th event wrote credentials to disk. */
  predicate SavesAt(c: Config, events: seq<Event>, j: nat) {
    j < |events| && After(c, events[..j + 1]).saved != After(c, events[..j]).saved
  }

  /** The i-th event was an accepted preflight and nothing was saved after it, up to the n-th event. */
  predicate FreshAt(c: Config, events: seq<Event>, i: nat, n: nat) {
    i < n <= |events| && Accepts(c, events[i]) && forall j | i < j < n :: !SavesAt(c, events, j)
  }

  lemma {:induction false} AfterNext(c: Config, events: seq<Event>, n: nat)
    requires n < |events|
    ensures After(c, events[..n + 1]) == Step(c, After(c, events[..n]), events[n])
  {
    assert events[..n + 1][..n] == events[..n];
  }

  lemma {:induction false} VerifiedBy(c: Config, s: State, e: Event)
    requires WellFormed(c)
    ensures Step(c, s, e).verified ==> Accepts(c, e) || (s.verified && Step(c, s, e).saved == s.saved)
  {
    if e.Preflight? {
      AcceptedIffKnown(c, e.body);
    }
  }

  /** A verified preflight is one accepted since the last save. */
  lemma {:induction false} VerifiedIsFresh(c: Config, events: seq<Event>, n: nat) returns (i: nat)
    requires WellFormed(c) && n <= |events| && After(c, events[..n]).verified
    ensures FreshAt(c, events, i, n)
  {
    assert events[..0] == [];
    AfterNext(c, events, n - 1);
    VerifiedBy(c, After(c, events[..n - 1]), events[n - 1]);
    if Accepts(c, events[n - 1]) {
      i := n - 1;
    } else {
      i := VerifiedIsFresh(c, events, n - 1);
    }
  }

  /** Each save comes from a callback with the listener's token, after a matching preflight since the previous save. */
  lemma {:induction false} EachSaveHasItsPreflight(c: Config, events: seq<Event>, j: nat) returns (i: nat)
    requires WellFormed(c) && SavesAt(c, events, j)
    ensures FreshAt(c, events, i, j)
    ensures events[j].Callback? && IsCallback(events[j].body) && events[j].body.state == Some(c.token)
    ensures var before, after := After(c, events[..j]).saved, After(c, events[..j + 1]).saved;
            |after| == |before| + 1 && after[..|before|] == before && Confirms(c, events[j].body, after[|before|])
  {
    AfterNext(c, events, j);
    StateEqualsIsEquality(events[j].body.state.value, c.token);
    i := VerifiedIsFresh(c, events, j);
  }

  lemma {:induction false} SavesWithinPreflights(c: Config, events: seq<Event>)
    requires WellFormed(c)
    ensures var s := After(c, events); |s.saved| + (if s.verified then 1 else 0) <= Preflights(c, events)
  {
    if events != [] {
      var n := |events| - 1;
      SavesWithinPreflights(c, events[..n]);
      if events[n].Preflight? {
        AcceptedIffKnown(c, events[n].body);
      }
    }
  }

  predicate Own(c: Config, r: Credentials) {
    && r.privateKey == c.privateKey && r.publicKey == c.publicKey && r.address == c.address
    && r.relayer == c.relayer && r.label_ == c.label_
    && IsHexAddress(Some(r.account)) && IsHexAddress(Some(r.wallet)) && IsHexAddress(Some(r.package_))
  }

  /** Without an error the credentials in memory are the last ones on disk; a settled flow has an error or credentials. */
  predicate Consistent(c: Config, s: State) {
    && (forall k | 0 <= k < |s.saved| :: Own(c, s.saved[k]))
    && (!s.error ==> if s.saved == [] then s.creds.None? else s.creds == Some(s.saved[|s.saved| - 1]))
    && (s.settled && !s.error ==> s.creds.Some?)
    && (!s.settled ==> s.saved == [] && s.creds.None? && !s.error)
    && (s.outcome.Returned? ==> s.outcome.creds in s.saved)
    && (!s.outcome.Pending? ==> s.settled)
  }

  lemma {:induction false} StepConsistent(c: Config, s: State, e: Event)
    requires Consistent(c, s)
    ensures Consistent(c, Step(c, s, e))
  {
  }

  /** Every record on disk is the listener's own, and a returned one is on disk. */
  lemma {:induction false} RunsAreConsistent(c: Config, events: seq<Event>)
    ensures Consistent(c, After(c, events))
  {
    if events != [] {
      RunsAreConsistent(c, events[..|events| - 1]);
      StepConsistent(c, After(c, events[..|events| - 1]), events[|events| - 1]);
    }
  }

  /** Once settled without an error, there are credentials: the flow's last check never fires. */
  lemma {:induction false} NeverCompletesEmpty(c: Config, events: seq<Event>)
    requires var s := After(c, events); s.settled && s.outcome.Pending?
    ensures var s := After(c, events);
            && (Step(c, s, FlowContinues).outcome == Thrown <==> s.error)
            && (!s.error ==> s.saved != [] && Step(c, s, FlowContinues).outcome == Returned(s.saved[|s.saved| - 1]))
  {
    RunsAreConsistent(c, events);
  }

  /** A flow that reported a timeout may still save: a request under way is served after it. */
  lemma {:induction false} SaveAfterReportedFailure(c: Config, p: Body, b: Body)
    requires WellFormed(c) && KnowsListener(c, p) && IsCallback(b) && b.state == Some(c.token)
    ensures var s := After(c, [Preflight(p), TimesOut, FlowContinues, Callback(b, false)]);
            s.outcome == Thrown && |s.saved| == 1 && Confirms(c, b, s.saved[0])
  {
    var events := [Preflight(p), TimesOut, FlowContinues, Callback(b, false)];
    AcceptedIffKnown(c, p);
    StateEqualsIsEquality(b.state.value, c.token);
    AfterNext(c, events, 0);
    AfterNext(c, events, 1);
    AfterNext(c, events, 2);
    AfterNext(c, events, 3);
    assert events[..0] == [] && events[..4] == events;
  }

  // ---- What the flow's outcome depends on ----

  /** The callback that is the j-th event got as far as making a record. */
  predicate RecordedAt(c: Config, events: seq<Event>, j: nat) {
    && j < |events| && events[j].Callback? && After(c, events[..j]).verified
    && IsCallback(events[j].body) && events[j].body.state == Some(c.token)
  }

  predicate NoRecordBefore(c: Config, events: seq<Event>, j: nat) {
    forall i | 0 <= i < j :: !RecordedAt(c, events, i)
  }

  /** The j-th event made the flow fail: an unreadable body, a save that threw, or a timeout before any record. */
  predicate FailsAt(c: Config, events: seq<Event>, j: nat) {
    j < |events| && match events[j]
                    case BodyFails => true
                    case Callback(_, saveFails) => RecordedAt(c, events, j) && saveFails
                    case TimesOut => NoRecordBefore(c, events, j)
                    case _ => false
  }

  lemma {:induction false} RecordedEarlier(c: Config, events: seq<Event>, n: nat, j: nat)
    requires j < n <= |events|
    ensures RecordedAt(c, events[..n], j) <==> RecordedAt(c, events, j)
  {
    assert events[..n][..j] == events[..j];
  }

  lemma {:induction false} FailsEarlier(c: Config, events: seq<Event>, n: nat, j: nat)
    requires j < n <= |events|
    ensures FailsAt(c, events[..n], j) <==> FailsAt(c, events, j)
    ensures NoRecordBefore(c, events[..n], j) <==> NoRecordBefore(c, events, j)
  {
    RecordedEarlier(c, events, n, j);
    forall i | 0 <= i < j ensures RecordedAt(c, events[..n], i) <==> RecordedAt(c, events, i) { RecordedEarlier(c, events, n, i); }
  }

  lemma {:induction false} CredsIffRecorded(c: Config, events: seq<Event>)
    requires WellFormed(c)
    ensures After(c, events).creds.None? <==> NoRecordBefore(c, events, |events|)
  {
    if events != [] {
      var n := |events| - 1;
      CredsIffRecorded(c, events[..n]);
      forall i | 0 <= i < n ensures RecordedAt(c, events[..n], i) <==> RecordedAt(c, events, i) { RecordedEarlier(c, events, n, i); }
      assert NoRecordBefore(c, events, n + 1) <==> NoRecordBefore(c, events[..n], n) && !RecordedAt(c, events, n);
      LastCreds(c, events);
    }
  }

  lemma {:induction false} LastCreds(c: Config, events: seq<Event>)
    requires WellFormed(c) && events != []
    ensures After(c, events).creds.None? <==> After(c, events[..|events| - 1]).creds.None? && !RecordedAt(c, events, |events| - 1)
  {
    var n := |events| - 1;
    if events[n].Callback? && IsCallback(events[n].body) {
      StateEqualsIsEquality(events[n].body.state.value, c.token);
    }
  }

  lemma {:induction false} ErrorIffFailed(c: Config, events: seq<Event>)
    requires WellFormed(c)
    ensures After(c, events).error <==> exists j: nat :: FailsAt(c, events, j)
  {
    if events != [] {
      var n := |events| - 1;
      ErrorIffFailed(c, events[..n]);
      CredsIffRecorded(c, events[..n]);
      FailsLast(c, events);
      forall j | 0 <= j < n ensures FailsAt(c, events[..n], j) <==> FailsAt(c, events, j) { FailsEarlier(c, events, n, j); }
      assert After(c, events).error <==> After(c, events[..n]).error || FailsAt(c, events, n);
      if j: nat :| FailsAt(c, events, j) {
        assert j < n ==> FailsAt(c, events[..n], j);
      }
    }
  }

  lemma {:induction false} FailsLast(c: Config, events: seq<Event>)
    requires WellFormed(c) && events != []
    requires After(c, events[..|events| - 1]).creds.None? <==> NoRecordBefore(c, events[..|events| - 1], |events| - 1)
    ensures After(c, events).error <==> After(c, events[..|events| - 1]).error || FailsAt(c, events, |events| - 1)
  {
    var n := |events| - 1;
    forall i | 0 <= i < n ensures RecordedAt(c, events[..n], i) <==> RecordedAt(c, events, i) { RecordedEarlier(c, events, n, i); }
    if events[n].Callback? && IsCallback(events[n].body) {
      StateEqualsIsEquality(events[n].body.state.value, c.token);
    }
  }

  /** The i-th event was an accepted preflight, and no callback made a record since. */
  predicate WaitsSince(c: Config, events: seq<Event>, i: nat) {
    i < |events| && Accepts(c, events[i]) && forall j | i < j < |events| :: !RecordedAt(c, events, j)
  }

  lemma {:induction false} WaitsEarlier(c: Config, events: seq<Event>, i: nat)
    requires events != [] && i < |events| - 1
    ensures WaitsSince(c, events, i)
            <==> WaitsSince(c, events[..|events| - 1], i) && !RecordedAt(c, events, |events| - 1)
  {
    var n := |events| - 1;
    forall j | 0 <= j < n ensures RecordedAt(c, events[..n], j) <==> RecordedAt(c, events, j) { RecordedEarlier(c, events, n, j); }
  }

  /** A preflight is waiting exactly if one was accepted and no callback has used it up: nothing else resets it. */
  lemma {:induction false} VerifiedIff(c: Config, events: seq<Event>)
    requires WellFormed(c)
    ensures After(c, events).verified <==> exists i: nat :: WaitsSince(c, events, i)
  {
    if events != [] {
      var n := |events| - 1;
      VerifiedIff(c, events[..n]);
      forall i: nat | i < n ensures WaitsSince(c, events, i) <==> WaitsSince(c, events[..n], i) && !RecordedAt(c, events, n) {
        WaitsEarlier(c, events, i);
      }
      assert WaitsSince(c, events, n) <==> Accepts(c, events[n]);
      VerifiedLast(c, events);
      if i: nat :| WaitsSince(c, events[..n], i) {
        assert i < n;
      }
    }
  }

  lemma {:induction false} VerifiedLast(c: Config, events: seq<Event>)
    requires WellFormed(c) && events != []
    ensures var n := |events| - 1;
            After(c, events).verified <==> Accepts(c, events[n]) || (After(c, events[..n]).verified && !RecordedAt(c, events, n))
  {
    var n := |events| - 1;
    if events[n].Preflight? {
      AcceptedIffKnown(c, events[n].body);
    } else if events[n].Callback? && IsCallback(events[n].body) {
      StateEqualsIsEquality(events[n].body.state.value, c.token);
    }
  }

  predicate SettlesAt(c: Config, events: seq<Event>, j: nat) {
    FailsAt(c, events, j) || RecordedAt(c, events, j)
  }

  lemma {:induction false} SettledIff(c: Config, events: seq<Event>)
    requires WellFormed(c)
    ensures After(c, events).settled <==> exists j: nat :: SettlesAt(c, events, j)
  {
    if events != [] {
      var n := |events| - 1;
      var before := events[..n];
      SettledIff(c, before);
      CredsIffRecorded(c, before);
      forall j | 0 <= j < n ensures SettlesAt(c, before, j) <==> SettlesAt(c, events, j) {
        FailsEarlier(c, events, n, j);
        RecordedEarlier(c, events, n, j);
      }
      SettlesLast(c, events);
      if j: nat :| SettlesAt(c, events, j) {
        assert j < n ==> SettlesAt(c, before, j);
      }
    }
  }

  lemma {:induction false} SettlesLast(c: Config, events: seq<Event>)
    requires WellFormed(c) && events != []
    requires After(c, events[..|events| - 1]).creds.None? <==> NoRecordBefore(c, events[..|events| - 1], |events| - 1)
    ensures After(c, events).settled <==> After(c, events[..|events| - 1]).settled || SettlesAt(c, events, |events| - 1)
  {
    var n := |events| - 1;
    forall i | 0 <= i < n ensures RecordedAt(c, events[..n], i) <==> RecordedAt(c, events, i) { RecordedEarlier(c, events, n, i); }
    if events[n].Callback? && IsCallback(events[n].body) {
      StateEqualsIsEquality(events[n].body.state.value, c.token);
    }
  }

  /**
   * When the flow goes on after awaiting: it waits exactly as long as no callback made a record and nothing failed; then
   * it throws if and only if something failed, and otherwise returns the record of the last callback that made one.
   */
  lemma {:induction false} FlowOutcomeIff(c: Config, events: seq<Event>)
    requires WellFormed(c) && After(c, events).outcome.Pending?
    ensures var outcome := After(c, events + [FlowContinues]).outcome;
            && (outcome.Pending? <==> forall j: nat :: !SettlesAt(c, events, j))
            && (outcome.Thrown? <==> exists j: nat :: FailsAt(c, events, j))
            && (outcome.Returned? ==> exists j: nat :: RecordedAt(c, events, j) && Confirms(c, events[j].body, outcome.creds)
                                                  && forall i: nat :: j < i ==> !RecordedAt(c, events, i))
  {
    AfterOneMore(c, events, FlowContinues);
    SettledIff(c, events);
    ErrorIffFailed(c, events);
    RunsAreConsistent(c, events);
    if exists j: nat :: FailsAt(c, events, j) {
      var j: nat :| FailsAt(c, events, j);
      assert SettlesAt(c, events, j);
    } else if After(c, events).settled {
      var j := LastRecord(c, events);
    }
  }

  /** Credentials in memory are those of the last callback that made a record. */
  lemma {:induction false} LastRecord(c: Config, events: seq<Event>) returns (j: nat)
    requires WellFormed(c) && After(c, events).creds.Some?
    ensures RecordedAt(c, events, j) && Confirms(c, events[j].body, After(c, events).creds.value)
    ensures forall i: nat :: j < i ==> !RecordedAt(c, events, i)
  {
    var n := |events| - 1;
    if events[n].Callback? && IsCallback(events[n].body) {
      StateEqualsIsEquality(events[n].body.state.value, c.token);
    }
    if RecordedAt(c, events, n) {
      j := n;
    } else {
      j := LastRecord(c, events[..n]);
      RecordedEarlier(c, events, n, j);
      forall i: nat | j < i ensures !RecordedAt(c, events, i) {
        if i < n {
          RecordedEarlier(c, events, n, i);
        }
      }
    }
  }

  // ---- When a save can still follow ----

  ghost predicate NoneAccepted(c: Config, events: seq<Event>) {
    forall i | 0 <= i < |events| :: !Accepts(c, events[i])
  }

  lemma {:induction false} AfterOneMore(c: Config, events: seq<Event>, e: Event)
    ensures After(c, events + [e]) == Step(c, After(c, events), e)
  {
    assert (events + [e])[..|events|] == events;
  }

  /** Without a verified preflight, and without a new one, nothing is saved. */
  lemma {:induction false} StaysUnverified(c: Config, events: seq<Event>, more: seq<Event>)
    requires WellFormed(c) && !After(c, events).verified && NoneAccepted(c, more)
    ensures !After(c, events + more).verified && After(c, events + more).saved == After(c, events).saved
  {
    if more == [] {
      assert events + more == events;
    } else {
      var n := |more| - 1;
      StaysUnverified(c, events, more[..n]);
      assert events + more == (events + more[..n]) + [more[n]];
      AfterOneMore(c, events + more[..n], more[n]);
      VerifiedBy(c, After(c, events + more[..n]), more[n]);
    }
  }

  /** A callback the listener would serve. */
  function Serviceable(c: Config): Body {
    var a := Some("0x" + Zeros(64));
    Fields(Some(c.token), None, None, a, a, a)
  }

  function Zeros(n: nat): (r: string)
    ensures |r| == n && forall i | 0 <= i < n :: r[i] == '0'
  {
    seq(n, _ => '0')
  }

  lemma {:induction false} ServiceableSaves(c: Config, events: seq<Event>)
    requires WellFormed(c) && After(c, events).verified
    ensures After(c, events + [Callback(Serviceable(c), false)]).saved != After(c, events).saved
  {
    AfterOneMore(c, events, Callback(Serviceable(c), false));
    StateEqualsIsEquality(c.token, c.token);
  }

  /**
   * After any run, one that has already reported a failure included: nothing more is saved in any continuation without
   * a newly accepted preflight if and only if no verified preflight is waiting.
   */
  lemma {:induction false} NothingMoreSavedIff(c: Config, events: seq<Event>)
    requires WellFormed(c)
    ensures (forall more | NoneAccepted(c, more) :: After(c, events + more).saved == After(c, events).saved)
            <==> !After(c, events).verified
  {
    if !After(c, events).verified {
      forall more | NoneAccepted(c, more) ensures After(c, events + more).saved == After(c, events).saved {
        StaysUnverified(c, events, more);
      }
    } else {
      ServiceableSaves(c, events);
      assert NoneAccepted(c, [Callback(Serviceable(c), false)]);
    }
  }
}
