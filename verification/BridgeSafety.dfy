/** Every step of the bridge keeps its invariant. */
module BridgeSafety {
  import opened Outcomes
  import opened Bridge
  import opened BridgeProtocol

  // ---- Client lines ----

  /** Nothing depends on where a line stands. */
  lemma {:induction false} SetLineKeeps(s: State, i: nat, stage: LineStage)
    requires DataInv(s) && ControlInv(s) && i < |s.lines|
    ensures DataInv(SetLine(s, i, stage)) && ControlInv(SetLine(s, i, stage))
  {
  }

  lemma {:induction false} PostLineKeeps(s: State, i: nat, kind: PostKind)
    requires DataInv(s) && ControlInv(s) && i < |s.lines|
    requires kind == Unmatched || (kind == Matched && s.vars.active == s.vars.generation)
    ensures DataInv(PostLine(s, i, kind)) && ControlInv(PostLine(s, i, kind))
  {
  }

  lemma {:induction false} CallKeepsAll(s: State, immediate: bool)
    requires DataInv(s) && ControlInv(s)
    ensures DataInv(Call(s, immediate).0) && ControlInv(Call(s, immediate).0)
  {
  }

  lemma {:induction false} CheckGenerationKeeps(s: State, i: nat)
    requires DataInv(s) && ControlInv(s) && i < |s.lines|
    ensures DataInv(CheckGeneration(s, i)) && ControlInv(CheckGeneration(s, i))
  {
    if s.vars.active != s.vars.generation {
      CallKeepsAll(s, true);
      var (s1, on) := Call(s, true);
      SetLineKeeps(s1, i, Switching(on));
    } else {
      PostLineKeeps(s, i, Matched);
    }
  }

  lemma {:induction false} AcceptEntry(s: State, m: Message)
    requires DataInv(s)
    ensures InFlightFits(Accepted(s, m)) && AcceptedFit(Accepted(s, m))
  {
    var s' := Accepted(s, m);
    if Tracked(m) {
      var e := Entry(m, s.vars.creds.account);
      PutMembers(s.vars.inFlight, e);
      forall id | id in s'.accepted
        ensures s'.accepted[id] <= |s'.vars.stdout|
        ensures HasId(s'.vars.inFlight, id) || Told(s'.vars.stdout, id, s'.accepted[id])
      {
        if id == m.id.value || HasId(s.vars.inFlight, id) {
          PutHas(s.vars.inFlight, e, id);
        }
      }
    }
  }

  lemma {:induction false} PutHas(entries: seq<Entry>, e: Entry, id: Id)
    requires HasId(entries, id) || e.msg.id == Some(id)
    ensures HasId(Put(entries, e), id)
  {
    PutMembers(entries, e);
    if e.msg.id == Some(id) {
      var k :| 0 <= k < |Put(entries, e)| && Put(entries, e)[k] == e;
    } else {
      var i :| 0 <= i < |entries| && entries[i].msg.id == Some(id);
      assert entries[i] in Put(entries, e);
    }
  }

  lemma {:induction false} AcceptedKeeps(s: State, m: Message)
    requires DataInv(s) && ControlInv(s)
    ensures DataInv(Accepted(s, m)) && ControlInv(Accepted(s, m))
  {
    var s' := Accepted(s, m);
    AcceptEntry(s, m);
    forall k | 0 <= k < |s'.lines| ensures LineFits(s', s'.lines[k]) {
      if k < |s.lines| {
        assert LineFits(s, s.lines[k]);
      }
    }
    forall k | 0 <= k < |s'.posts| ensures PostFits(s', s'.posts[k]) { assert PostFits(s, s.posts[k]); }
    ControlOnly(s, s');
  }

  lemma {:induction false} AcceptLineKeeps(s: State, m: Message)
    requires DataInv(s) && ControlInv(s)
    ensures DataInv(AcceptLine(s, m)) && ControlInv(AcceptLine(s, m))
  {
    AcceptedKeeps(s, m);
    var s1 := Accepted(s, m);
    if s1.promise.Some? {
      SetLineKeeps(s1, |s.lines|, Parked(s1.promise.value));
    } else {
      CheckGenerationKeeps(s1, |s.lines|);
    }
  }

  // ---- Stdout ----

  lemma {:induction false} ToldGrows(stdout: seq<Out>, more: seq<Out>, id: Id, at: nat, earlier: nat)
    requires Told(stdout, id, at) && earlier <= at
    ensures Told(stdout + more, id, earlier)
  {
    var k :| at <= k < |stdout| && Answers(stdout[k], id);
    assert Answers((stdout + more)[k], id);
  }

  /** Writing to stdout keeps what it does not touch. */
  lemma {:induction false} WritesKeep(s: State, s': State, more: seq<Out>)
    requires DataInv(s) && ControlInv(s) && InFlightFits(s') && AcceptedFit(s')
    requires s' == s.(vars := s.vars.(stdout := s.vars.stdout + more, inFlight := s'.vars.inFlight,
                                      pendingLists := s'.vars.pendingLists))
    ensures DataInv(s') && ControlInv(s')
  {
    forall k | 0 <= k < |s'.lines| ensures LineFits(s', s'.lines[k]) {
      LineGrows(s, s', s.lines[k], more);
    }
    forall k | 0 <= k < |s'.posts| ensures PostFits(s', s'.posts[k]) {
      PostGrows(s, s', s.posts[k], more);
    }
    ControlOnly(s, s');
  }

  lemma {:induction false} LineGrows(s: State, s': State, l: Line, more: seq<Out>)
    requires LineFits(s, l) && s'.vars.stdout == s.vars.stdout + more && s'.accepted == s.accepted
    requires s'.vars.creds.account == s.vars.creds.account
    ensures LineFits(s', l)
  {
    if Tracked(l.msg) && l.account != s.vars.creds.account {
      ToldGrows(s.vars.stdout, more, l.msg.id.value, l.at, l.at);
    }
  }

  lemma {:induction false} PostGrows(s: State, s': State, p: Post, more: seq<Out>)
    requires PostFits(s, p) && s'.vars.stdout == s.vars.stdout + more
    ensures PostFits(s', p)
  {
    if Tracked(p.msg) && Told(s.vars.stdout, p.msg.id.value, p.at) {
      ToldGrows(s.vars.stdout, more, p.msg.id.value, p.at, p.at);
    }
  }

  lemma {:induction false} WriteLocalKeeps(s: State, out: Out)
    requires DataInv(s) && ControlInv(s)
    ensures var s' := s.(vars := s.vars.(stdout := s.vars.stdout + [out])); DataInv(s') && ControlInv(s')
  {
    var s' := s.(vars := s.vars.(stdout := s.vars.stdout + [out]));
    forall id | id in s'.accepted
      ensures s'.accepted[id] <= |s'.vars.stdout|
      ensures HasId(s'.vars.inFlight, id) || Told(s'.vars.stdout, id, s'.accepted[id])
    {
      if !HasId(s.vars.inFlight, id) {
        ToldGrows(s.vars.stdout, [out], id, s.accepted[id], s.accepted[id]);
      }
    }
    WritesKeep(s, s', [out]);
  }

  lemma {:induction false} DeliverAnswers(s: State, m: Incoming, id: Id)
    requires AcceptedFit(s) && id in s.accepted
    ensures var v := Deliver(s.vars, m);
            HasId(v.inFlight, id) || Told(v.stdout, id, s.accepted[id])
  {
    var v := Deliver(s.vars, m);
    var out := v.stdout[|s.vars.stdout|];
    assert v.stdout == s.vars.stdout + [out];
    if !HasId(s.vars.inFlight, id) {
      ToldGrows(s.vars.stdout, [out], id, s.accepted[id], s.accepted[id]);
    } else if (m.hasResult || m.hasError) && m.id == Some(id) {
      assert Answers(v.stdout[|s.vars.stdout|], id);
    } else {
      RemoveMembers(s.vars.inFlight, m.id);
      var i :| 0 <= i < |s.vars.inFlight| && s.vars.inFlight[i].msg.id == Some(id);
      assert s.vars.inFlight[i] in v.inFlight;
    }
  }

  lemma {:induction false} DeliverKeeps(s: State, m: Incoming)
    requires DataInv(s) && ControlInv(s)
    ensures var s' := s.(vars := Deliver(s.vars, m)); DataInv(s') && ControlInv(s')
  {
    var s' := s.(vars := Deliver(s.vars, m));
    forall id | id in s'.accepted
      ensures s'.accepted[id] <= |s'.vars.stdout|
      ensures HasId(s'.vars.inFlight, id) || Told(s'.vars.stdout, id, s'.accepted[id])
    {
      DeliverAnswers(s, m, id);
    }
    RemoveMembers(s.vars.inFlight, m.id);
    WritesKeep(s, s', [s'.vars.stdout[|s.vars.stdout|]]);
  }

  // ---- Logins ----

  /** Everything in flight is answered when the account changes. */
  lemma {:induction false} AdoptAnswers(s: State, next: Creds, id: Id)
    requires AcceptedFit(s) && id in s.accepted && next.account != s.vars.creds.account
    ensures Told(Adopt(s.vars, next).stdout, id, s.accepted[id])
  {
    var more := AccountErrors(s.vars.inFlight);
    if HasId(s.vars.inFlight, id) {
      var i :| 0 <= i < |s.vars.inFlight| && s.vars.inFlight[i].msg.id == Some(id);
      AccountErrorsCover(s.vars.inFlight, s.vars.inFlight[i]);
      var k :| 0 <= k < |more| && more[k] == Out(Some(id), AccountChanged);
      assert Answers((s.vars.stdout + more)[|s.vars.stdout| + k], id);
    } else {
      ToldGrows(s.vars.stdout, more, id, s.accepted[id], s.accepted[id]);
    }
  }

  lemma {:induction false} AdoptedLine(s: State, next: Creds, l: Line)
    requires DataInv(s) && LineFits(s, l)
    ensures LineFits(Adopted(s, next), l)
  {
    if next.account == s.vars.creds.account {
      assert Adopted(s, next).vars.stdout == s.vars.stdout;
    } else if Tracked(l.msg) {
      var id := l.msg.id.value;
      AdoptAnswers(s, next, id);
      var stdout := Adopted(s, next).vars.stdout;
      ToldGrows(stdout, [], id, s.accepted[id], l.at);
      assert stdout + [] == stdout;
    }
  }

  lemma {:induction false} AdoptedData(s: State, next: Creds)
    requires DataInv(s)
    ensures DataInv(Adopted(s, next))
  {
    var s' := Adopted(s, next);
    var more := if s.vars.creds.account == next.account then [] else AccountErrors(s.vars.inFlight);
    assert s'.vars.stdout == s.vars.stdout + more;
    forall id | id in s'.accepted
      ensures s'.accepted[id] <= |s'.vars.stdout|
      ensures HasId(s'.vars.inFlight, id) || Told(s'.vars.stdout, id, s'.accepted[id])
    {
      if s.vars.creds.account != next.account {
        AdoptAnswers(s, next, id);
      }
    }
    forall k | 0 <= k < |s'.lines| ensures LineFits(s', s'.lines[k]) { AdoptedLine(s, next, s.lines[k]); }
    forall k | 0 <= k < |s'.posts| ensures PostFits(s', s'.posts[k]) { PostGrows(s, s', s.posts[k], more); }
  }

  lemma {:induction false} AdoptedControl(s: State, next: Creds)
    requires GenerationsFit(s) && ControlInv(s)
    ensures ControlInv(Adopted(s, next))
  {
  }

  lemma {:induction false} AdoptionsOnly(s: State, s': State)
    requires DataInv(s) && ControlInv(s) && s' == s.(adoptions := s'.adoptions) && AdoptionsFit(s')
    ensures DataInv(s') && ControlInv(s')
  {
  }

  lemma {:induction false} AdoptionFrame(s: State, s': State)
    requires AdoptionsFit(s) && s' == s.(adoptions := s'.adoptions)
    ensures forall i | 0 <= i < |s.adoptions| :: AdoptionFits(s', s.adoptions[i])
  {
  }

  lemma {:induction false} LoginKeeps(s: State, next: Creds)
    requires DataInv(s) && ControlInv(s)
    ensures DataInv(Login(s, next)) && ControlInv(Login(s, next))
  {
    var s1 := Adopted(s, next);
    AdoptedData(s, next);
    AdoptedControl(s, next);
    CallKeeps(s1, true);
    CallKeepsAll(s1, true);
    var (s2, on) := Call(s1, true);
    var s3 := Login(s, next);
    AdoptionFrame(s2, s3);
    assert AdoptionFits(s3, s3.adoptions[|s2.adoptions|]);
    AdoptionsOnly(s2, s3);
  }

  /** A second reconnect of an adoption started after it made its generation. */
  lemma {:induction false} SecondFits(s: State, i: nat)
    requires ControlInv(s) && i < |s.adoptions| && s.adoptions[i].stage.First? && Done(s, s.adoptions[i].stage.on)
    ensures var (s1, on) := Call(s, true); AdoptionFits(s1, s.adoptions[i].(stage := Second(on)))
  {
  }

  lemma {:induction false} SetAdoptionKeeps(s: State, i: nat, stage: AdoptionStage)
    requires DataInv(s) && ControlInv(s) && i < |s.adoptions| && AdoptionFits(s, s.adoptions[i].(stage := stage))
    ensures DataInv(SetAdoption(s, i, stage)) && ControlInv(SetAdoption(s, i, stage))
  {
  }

  lemma {:induction false} ResumeAdoptionKeeps(s: State, i: nat)
    requires DataInv(s) && ControlInv(s) && Enabled(s, AdoptionResumes(i))
    ensures DataInv(ResumeAdoption(s, i)) && ControlInv(ResumeAdoption(s, i))
  {
    var agreed := s.vars.active == s.vars.generation;
    if s.adoptions[i].stage.First? && !agreed {
      SecondFits(s, i);
      CallKeepsAll(s, true);
      var (s1, on) := Call(s, true);
      SetAdoptionKeeps(s1, i, Second(on));
    } else {
      assert AdoptionFits(s, s.adoptions[i]);
      SetAdoptionKeeps(s, i, Returned(agreed));
    }
  }

  // ---- The rest ----

  lemma {:induction false} FailureKeeps(s: State)
    requires DataInv(s) && ControlInv(s)
    ensures DataInv(s.(failures := s.failures + 1)) && ControlInv(s.(failures := s.failures + 1))
  {
  }

  lemma {:induction false} CloseFailed(s: State, p: nat)
    requires DataInv(s) && ControlInv(s) && s.promise == Some(p) && p < |s.reconnects|
    requires BodyFits(s, s.reconnects[p].(body := Closed(None)))
    ensures DataInv(SetBody(s, p, Closed(None))) && ControlInv(SetBody(s, p, Closed(None)))
  {
    SetBodyKeeps(s, p, s.reconnects[p].(body := Closed(None)));
    DataOnly(s, SetBody(s, p, Closed(None)));
  }

  lemma {:induction false} FailedBody(s: State, p: nat)
    requires SingleFlight(s) && BodiesFit(s) && p < |s.reconnects| && s.reconnects[p].body.Opening?
    ensures s.promise == Some(p)
    ensures BodyFits(s.(failures := s.failures + 1), s.reconnects[p].(body := Closed(None)))
  {
  }

  lemma {:induction false} HandshakeFailsKeeps(s: State, p: nat)
    requires DataInv(s) && ControlInv(s) && p < |s.reconnects| && s.reconnects[p].body.Opening?
    ensures var s' := SetBody(s.(failures := s.failures + 1), p, Closed(None)); DataInv(s') && ControlInv(s')
  {
    FailedBody(s, p);
    FailureKeeps(s);
    CloseFailed(s.(failures := s.failures + 1), p);
  }

  lemma {:induction false} SettleKeeps(s: State, p: nat)
    requires DataInv(s) && ControlInv(s) && Enabled(s, CreatorSettles(p))
    ensures DataInv(Apply(s, CreatorSettles(p))) && ControlInv(Apply(s, CreatorSettles(p)))
  {
  }

  /** Steps that move only the pump or close stdin. */
  lemma {:induction false} QuietKeeps(s: State, s': State)
    requires DataInv(s) && ControlInv(s)
    requires s' == s.(pump := s'.pump, vars := s.vars.(stdinClosed := s'.vars.stdinClosed))
    requires s.vars.stdinClosed ==> s'.vars.stdinClosed
    ensures DataInv(s') && ControlInv(s')
  {
  }

  lemma {:induction false} BodyStepKeeps(s: State, step: Step)
    requires DataInv(s) && ControlInv(s) && Enabled(s, step)
    requires step.BackoffEnds? || step.HandshakeOpens? || step.ReplayReturns?
    ensures DataInv(Apply(s, step)) && ControlInv(Apply(s, step))
  {
    var p := step.promise;
    assert s.promise == Some(p) && BodyFits(s, s.reconnects[p]);
    match step
    case BackoffEnds(_) =>
      LoopHeadKeeps(s, p);
      DataOnly(s, LoopHead(s, p));
    case HandshakeOpens(_) => OpenedKeeps(s, p);
    case ReplayReturns(_) => ReplayNextKeeps(s, p, s.reconnects[p].body.generation, s.reconnects[p].body.rest);
  }

  lemma {:induction false} PumpStepKeeps(s: State, step: Step)
    requires DataInv(s) && ControlInv(s) && Enabled(s, step)
    requires step.StreamEnds? || step.PumpResumes? || step.StdinCloses?
    ensures DataInv(Apply(s, step)) && ControlInv(Apply(s, step))
  {
    if step.StreamEnds? && !s.vars.stdinClosed {
      CallKeepsAll(s, false);
      QuietKeeps(Call(s, false).0, Apply(s, step));
    } else {
      QuietKeeps(s, Apply(s, step));
    }
  }

  lemma {:induction false} LineStepKeeps(s: State, step: Step)
    requires DataInv(s) && ControlInv(s) && Enabled(s, step)
    requires step.ClientLine? || step.LineUnparks? || step.LineSwitched? || step.PostReturns? || step.LineRecovered?
    ensures DataInv(Apply(s, step)) && ControlInv(Apply(s, step))
  {
    match step
    case ClientLine(m) => AcceptLineKeeps(s, m);
    case LineUnparks(i) => CheckGenerationKeeps(s, i);
    case LineSwitched(i) => PostLineKeeps(s, i, Unmatched);
    case LineRecovered(i) => SetLineKeeps(s, i, Ended);
    case PostReturns(i, notFound) =>
      if notFound {
        CallKeepsAll(s, false);
        var (s1, on) := Call(s, false);
        SetLineKeeps(s1, i, Recovering(on));
      } else {
        SetLineKeeps(s, i, Ended);
      }
  }

  lemma {:induction false} EndStepKeeps(s: State, step: Step)
    requires DataInv(s) && ControlInv(s) && Enabled(s, step) && (step.HandshakeFails? || step.CreatorSettles?)
    ensures DataInv(Apply(s, step)) && ControlInv(Apply(s, step))
  {
    match step
    case HandshakeFails(p) => HandshakeFailsKeeps(s, p);
    case CreatorSettles(p) => SettleKeeps(s, p);
  }

  lemma {:induction false} AccountStepKeeps(s: State, step: Step)
    requires DataInv(s) && ControlInv(s) && Enabled(s, step) && (step.LoginCompletes? || step.AdoptionResumes?)
    ensures DataInv(Apply(s, step)) && ControlInv(Apply(s, step))
  {
    match step
    case LoginCompletes(next) => LoginKeeps(s, next);
    case AdoptionResumes(i) => ResumeAdoptionKeeps(s, i);
  }

  lemma {:induction false} OutputStepKeeps(s: State, step: Step)
    requires DataInv(s) && ControlInv(s) && Enabled(s, step) && (step.WriteLocal? || step.Delivered?)
    ensures DataInv(Apply(s, step)) && ControlInv(Apply(s, step))
  {
    match step
    case WriteLocal(out) => WriteLocalKeeps(s, out);
    case Delivered(m) => DeliverKeeps(s, m);
  }

  lemma {:induction false} StepKeeps(s: State, step: Step)
    requires DataInv(s) && ControlInv(s) && Enabled(s, step)
    ensures DataInv(Apply(s, step)) && ControlInv(Apply(s, step))
  {
    if step.ClientLine? || step.LineUnparks? || step.LineSwitched? || step.PostReturns? || step.LineRecovered? {
      LineStepKeeps(s, step);
    } else if step.BackoffEnds? || step.HandshakeOpens? || step.ReplayReturns? {
      BodyStepKeeps(s, step);
    } else if step.HandshakeFails? || step.CreatorSettles? {
      EndStepKeeps(s, step);
    } else if step.LoginCompletes? || step.AdoptionResumes? {
      AccountStepKeeps(s, step);
    } else if step.WriteLocal? || step.Delivered? {
      OutputStepKeeps(s, step);
    } else {
      PumpStepKeeps(s, step);
    }
  }

  /** Safety over whole runs. */
  lemma {:induction false} Safe(creds: Creds, steps: seq<Step>)
    ensures DataInv(After(creds, steps)) && ControlInv(After(creds, steps))
  {
    if steps != [] {
      var n := |steps| - 1;
      Safe(creds, steps[..n]);
      var s := After(creds, steps[..n]);
      if Enabled(s, steps[n]) {
        StepKeeps(s, steps[n]);
      }
    }
  }
}
