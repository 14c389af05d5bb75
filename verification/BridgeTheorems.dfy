/** What the bridge guarantees in every run. */
module BridgeTheorems {
  import opened Outcomes
  import opened Bridge
  import opened BridgeProtocol
  import opened BridgeSafety

  // ---- Accounts and credentials ----

  /** Replay never crosses accounts: each replayed request goes to a session of the account it was accepted under. */
  lemma {:induction false} ReplayNeverCrossesAccounts(creds: Creds, steps: seq<Step>, i: nat)
    requires var s := After(creds, steps); i < |s.posts| && s.posts[i].kind == Replay
    ensures var p := After(creds, steps).posts[i];
            p.account == p.session.creds.account && p.creds == p.session.creds
    ensures var s := After(creds, steps); forall e | e in s.vars.inFlight :: e.account == s.vars.creds.account
  {
    Safe(creds, steps);
    var s := After(creds, steps);
    assert PostFits(s, s.posts[i]);
  }

  /** A direct POST that found the generations equal uses the credentials that opened its session. */
  lemma {:induction false} MatchedPostUsesSessionKey(creds: Creds, steps: seq<Step>, i: nat)
    requires var s := After(creds, steps); i < |s.posts| && s.posts[i].kind == Matched
    ensures var p := After(creds, steps).posts[i]; p.creds == p.session.creds
  {
    Safe(creds, steps);
    var s := After(creds, steps);
    assert PostFits(s, s.posts[i]);
  }

  /** A request posted under another account than it was accepted under has been answered to the client. */
  lemma {:induction false} LatePostWasAnswered(creds: Creds, steps: seq<Step>, i: nat)
    requires var s := After(creds, steps); i < |s.posts| && Tracked(s.posts[i].msg)
    requires var p := After(creds, steps).posts[i]; p.account != p.creds.account
    ensures var s := After(creds, steps);
            s.posts[i].kind != Replay && Told(s.vars.stdout, s.posts[i].msg.id.value, s.posts[i].at)
  {
    Safe(creds, steps);
    var s := After(creds, steps);
    assert PostFits(s, s.posts[i]);
  }

  // ---- Generations ----

  /** At most one reconnect body runs, and the session in use was opened with the credentials of its generation. */
  lemma {:induction false} GenerationDiscipline(creds: Creds, steps: seq<Step>)
    ensures var s := After(creds, steps);
            && (forall p: nat, q: nat :: InBody(s, p) && InBody(s, q) ==> p == q)
            && s.vars.active <= s.vars.generation < |s.history|
            && s.history[s.vars.generation] == s.vars.creds
            && s.vars.sse == Session(s.history[s.vars.active], s.vars.active)
  {
    Safe(creds, steps);
  }

  /** Only the running body publishes a session, and only one opened for the generation that is still current. */
  lemma {:induction false} OnlyCurrentIsPublished(creds: Creds, steps: seq<Step>, step: Step)
    requires Enabled(After(creds, steps), step)
    ensures var s := After(creds, steps);
            var s' := Apply(s, step);
            s'.vars.sse != s.vars.sse || s'.vars.active != s.vars.active ==>
              && step.HandshakeOpens? && s.promise == Some(step.promise)
              && s.reconnects[step.promise].body == Opening(s.vars.generation)
              && s'.vars.active == s'.vars.generation && s'.vars.sse.creds == s'.vars.creds
  {
    Safe(creds, steps);
    PublishedBy(After(creds, steps), step);
  }

  lemma {:induction false} PublishedBy(s: State, step: Step)
    requires GenerationsFit(s) && SingleFlight(s) && Enabled(s, step)
    ensures var s' := Apply(s, step);
            s'.vars.sse != s.vars.sse || s'.vars.active != s.vars.active ==>
              && step.HandshakeOpens? && s.promise == Some(step.promise)
              && s.reconnects[step.promise].body == Opening(s.vars.generation)
              && s'.vars.active == s'.vars.generation && s'.vars.sse.creds == s'.vars.creds
  {
    if step.HandshakeOpens? {
      assert s.promise == Some(step.promise);
    }
  }

  // ---- Nothing is forgotten ----

  /** A later acceptance of an id is recorded at a longer stdout. */
  lemma {:induction false} AcceptedGrows(s: State, step: Step, id: Id)
    requires Enabled(s, step) && id in s.accepted && s.accepted[id] <= |s.vars.stdout|
    ensures var s' := Apply(s, step); id in s'.accepted && s.accepted[id] <= s'.accepted[id]
  {
    if !step.ClientLine? {
      OthersKeepAccepted(s, step);
    }
  }

  lemma {:induction false} OthersKeepAccepted(s: State, step: Step)
    requires Enabled(s, step) && !step.ClientLine?
    ensures Apply(s, step).accepted == s.accepted
  {
  }

  /** When each id was last accepted, as a function of the run. */
  function Recorded(creds: Creds, steps: seq<Step>): map<Id, nat> {
    After(creds, steps).accepted
  }

  function Records(creds: Creds): seq<Step> -> map<Id, nat> {
    steps => Recorded(creds, steps)
  }

  predicate Grows(f: seq<Step> -> map<Id, nat>, steps: seq<Step>, step: Step, id: Id) {
    id in f(steps) ==> id in f(steps + [step]) && f(steps)[id] <= f(steps + [step])[id]
  }

  lemma {:induction false} GrowsOver(f: seq<Step> -> map<Id, nat>, before: seq<Step>, after: seq<Step>, id: Id)
    requires id in f(before) && forall steps, step :: Grows(f, steps, step, id)
    ensures id in f(before + after) && f(before)[id] <= f(before + after)[id]
  {
    if after == [] {
      assert before + after == before;
    } else {
      var n := |after| - 1;
      GrowsOver(f, before, after[..n], id);
      assert before + after == (before + after[..n]) + [after[n]];
      assert Grows(f, before + after[..n], after[n], id);
    }
  }

  lemma {:induction false} AcceptedLasts(creds: Creds, before: seq<Step>, after: seq<Step>, id: Id)
    requires id in Recorded(creds, before)
    ensures id in Recorded(creds, before + after) && Recorded(creds, before)[id] <= Recorded(creds, before + after)[id]
  {
    forall steps, step ensures Grows(Records(creds), steps, step, id) { AcceptedOneMore(creds, steps, step, id); }
    GrowsOver(Records(creds), before, after, id);
  }

  lemma {:induction false} AcceptedOneMore(creds: Creds, steps: seq<Step>, step: Step, id: Id)
    ensures Grows(Records(creds), steps, step, id)
  {
    assert (steps + [step])[..|steps|] == steps;
    var s := After(creds, steps);
    if id in s.accepted {
      StdoutReached(creds, steps, id);
      if Enabled(s, step) {
        AcceptedGrows(s, step, id);
      }
    }
  }

  lemma {:induction false} StdoutReached(creds: Creds, steps: seq<Step>, id: Id)
    requires id in After(creds, steps).accepted
    ensures After(creds, steps).accepted[id] <= |After(creds, steps).vars.stdout|
  {
    Safe(creds, steps);
  }

  /**
   * No accepted request is forgotten: whatever happens after a request was accepted, it is still in flight or an answer
   * with its id has been written since.
   */
  lemma {:induction false} NoAcceptedRequestForgotten(creds: Creds, before: seq<Step>, m: Message, after: seq<Step>)
    requires Tracked(m) && Enabled(After(creds, before), ClientLine(m))
    ensures var s := After(creds, before + [ClientLine(m)] + after);
            || HasId(s.vars.inFlight, m.id.value)
            || Told(s.vars.stdout, m.id.value, |After(creds, before).vars.stdout|)
  {
    var now := before + [ClientLine(m)];
    assert now[..|now| - 1] == before;
    var id := m.id.value;
    var at := |After(creds, before).vars.stdout|;
    AcceptedAt(After(creds, before), m);
    AcceptedLasts(creds, now, after, id);
    Safe(creds, now + after);
    var s := After(creds, now + after);
    if !HasId(s.vars.inFlight, id) {
      ToldGrows(s.vars.stdout, [], id, s.accepted[id], at);
      assert s.vars.stdout + [] == s.vars.stdout;
    }
  }

  lemma {:induction false} AcceptedAt(s: State, m: Message)
    requires Tracked(m)
    ensures var s' := AcceptLine(s, m); m.id.value in s'.accepted && s'.accepted[m.id.value] == |s.vars.stdout|
  {
  }

  // ---- Progress of the reopen loop ----

  /** A reconnect opens at most one stream more than there were logins since it started. */
  lemma {:induction false} ReopeningIsPaidByLogins(creds: Creds, steps: seq<Step>, p: nat)
    requires p < |After(creds, steps).reconnects|
    ensures var s := After(creds, steps);
            s.reconnects[p].began <= s.vars.generation && s.reconnects[p].turns <= 1 + s.vars.generation - s.reconnects[p].began
  {
    Safe(creds, steps);
    var s := After(creds, steps);
    assert BodyFits(s, s.reconnects[p]);
  }

  datatype Rank = Rank(stage: nat, level: nat, count: nat)

  predicate Below(a: Rank, b: Rank) {
    || a.stage < b.stage
    || (a.stage == b.stage && a.level < b.level)
    || (a.stage == b.stage && a.level == b.level && a.count < b.count)
  }

  /** How far a promise is from being settled if no further login comes. */
  function AwaitRank(s: State, stage: nat, on: Await): Rank {
    if on.None? || on.value in s.settled || on.value >= |s.reconnects| then Rank(stage, 0, 0)
    else
      match s.reconnects[on.value].body
      case Closed(_) => Rank(stage, 0, 1)
      case Replaying(g, rest) => if g == s.vars.generation then Rank(stage, 0, |rest| + 2) else Rank(stage, 2, |rest| + 1)
      case Opening(g) => if g == s.vars.generation then Rank(stage, 1, 0) else Rank(stage, 2, 0)
      case Backoff => Rank(stage, 3, 0)
  }

  function AdoptionRank(s: State, a: Adoption): Rank {
    match a.stage
    case First(on) => AwaitRank(s, 2, on)
    case Second(on) => AwaitRank(s, 1, on)
    case Returned(_) => Rank(0, 0, 0)
  }

  predicate WorksOn(step: Step, p: nat) {
    match step
    case BackoffEnds(q) => q == p
    case HandshakeOpens(q) => q == p
    case HandshakeFails(q) => q == p
    case ReplayReturns(q) => q == p
    case CreatorSettles(q) => q == p
    case _ => false
  }

  /** Every step of a promise's own body, or of its creator, brings it closer to being settled. */
  lemma {:induction false} WorkDescends(s: State, step: Step, p: nat, stage: nat)
    requires Enabled(s, step) && WorksOn(step, p) && p !in s.settled
    ensures Below(AwaitRank(Apply(s, step), stage, Some(p)), AwaitRank(s, stage, Some(p)))
  {
  }

  /** Nobody else but a login affects how far a promise has to go. */
  lemma {:induction false} OthersLeaveRank(s: State, step: Step, p: nat, stage: nat)
    requires Enabled(s, step) && !WorksOn(step, p) && !step.LoginCompletes? && p < |s.reconnects|
    ensures AwaitRank(Apply(s, step), stage, Some(p)) == AwaitRank(s, stage, Some(p))
  {
    if IsBodyStep(step) {
      BodyStepsLeavePromise(s, step, p);
    } else {
      OthersLeavePromise(s, step, p);
    }
  }

  predicate IsBodyStep(step: Step) {
    step.BackoffEnds? || step.HandshakeOpens? || step.HandshakeFails? || step.ReplayReturns? || step.CreatorSettles?
  }

  lemma {:induction false} BodyStepsLeavePromise(s: State, step: Step, p: nat)
    requires Enabled(s, step) && IsBodyStep(step) && !WorksOn(step, p) && p < |s.reconnects|
    ensures LeavesPromise(s, Apply(s, step), p)
  {
  }

  lemma {:induction false} OthersLeavePromise(s: State, step: Step, p: nat)
    requires Enabled(s, step) && !IsBodyStep(step) && !step.LoginCompletes? && p < |s.reconnects|
    ensures LeavesPromise(s, Apply(s, step), p)
  {
  }

  predicate LeavesPromise(s: State, s': State, p: nat)
    requires p < |s.reconnects|
  {
    && p < |s'.reconnects| && s'.reconnects[p] == s.reconnects[p] && (p in s'.settled <==> p in s.settled)
    && s'.vars.generation == s.vars.generation
  }

  predicate Unfinished(s: State, i: nat) {
    i < |s.adoptions| && (s.adoptions[i].stage.First? || s.adoptions[i].stage.Second?)
  }

  /** The step belongs to the adoption itself or to the reconnect it is waiting for. */
  predicate Advances(s: State, step: Step, i: nat)
    requires Unfinished(s, i)
  {
    var on := s.adoptions[i].stage.on;
    step == AdoptionResumes(i) || (on.Some? && on.value !in s.settled && WorksOn(step, on.value))
  }

  /** An unfinished adoption is never stuck: a step that advances it is possible. */
  lemma {:induction false} AdoptionNeverStuck(creds: Creds, steps: seq<Step>, i: nat) returns (step: Step)
    requires Unfinished(After(creds, steps), i)
    ensures Enabled(After(creds, steps), step) && Advances(After(creds, steps), step, i) && !step.HandshakeFails?
  {
    Safe(creds, steps);
    var s := After(creds, steps);
    var on := s.adoptions[i].stage.on;
    assert AdoptionFits(s, s.adoptions[i]);
    if Done(s, on) {
      step := AdoptionResumes(i);
    } else {
      var p := on.value;
      assert BodyFits(s, s.reconnects[p]);
      match s.reconnects[p].body
      case Backoff => step := BackoffEnds(p);
      case Opening(_) => step := HandshakeOpens(p);
      case Replaying(_, _) => step := ReplayReturns(p);
      case Closed(_) => step := CreatorSettles(p);
    }
  }

  /** Each such step lowers the adoption's rank, whichever way a handshake or POST turns out. */
  lemma {:induction false} AdvanceDescends(s: State, step: Step, i: nat)
    requires Unfinished(s, i) && Enabled(s, step) && Advances(s, step, i)
    ensures var s' := Apply(s, step);
            i < |s'.adoptions| && Below(AdoptionRank(s', s'.adoptions[i]), AdoptionRank(s, s.adoptions[i]))
  {
    if step == AdoptionResumes(i) {
      ResumeDescends(s, i);
    } else {
      var p := s.adoptions[i].stage.on.value;
      WorkDescends(s, step, p, if s.adoptions[i].stage.First? then 2 else 1);
      WorkKeepsAdoptions(s, step, p);
    }
  }

  lemma {:induction false} WorkKeepsAdoptions(s: State, step: Step, p: nat)
    requires Enabled(s, step) && WorksOn(step, p)
    ensures Apply(s, step).adoptions == s.adoptions
  {
  }

  lemma {:induction false} ResumeDescends(s: State, i: nat)
    requires Enabled(s, AdoptionResumes(i))
    ensures var s' := ResumeAdoption(s, i);
            i < |s'.adoptions| && Below(AdoptionRank(s', s'.adoptions[i]), AdoptionRank(s, s.adoptions[i]))
  {
  }

  /** Every other step except a login leaves the rank as it is: together the two make each adoption return. */
  lemma {:induction false} OthersLeaveAdoption(creds: Creds, steps: seq<Step>, step: Step, i: nat)
    requires Unfinished(After(creds, steps), i) && Enabled(After(creds, steps), step)
    requires !step.LoginCompletes? && !Advances(After(creds, steps), step, i)
    ensures var s := After(creds, steps);
            var s' := Apply(s, step);
            i < |s'.adoptions| && AdoptionRank(s', s'.adoptions[i]) == AdoptionRank(s, s.adoptions[i])
  {
    Safe(creds, steps);
    var s := After(creds, steps);
    assert AdoptionFits(s, s.adoptions[i]);
    OthersKeepAdoption(s, step, i);
    var on := s.adoptions[i].stage.on;
    if on.Some? && !WorksOn(step, on.value) {
      OthersLeaveRank(s, step, on.value, if s.adoptions[i].stage.First? then 2 else 1);
    }
  }

  lemma {:induction false} OthersKeepAdoption(s: State, step: Step, i: nat)
    requires i < |s.adoptions| && Enabled(s, step) && step != AdoptionResumes(i) && !step.LoginCompletes?
    ensures i < |Apply(s, step).adoptions| && Apply(s, step).adoptions[i] == s.adoptions[i]
  {
  }

  /** With no failed handshake, stdin open and no further login, adoptCredentials returns on the current session. */
  lemma {:induction false} AdoptionReturnsAgreed(creds: Creds, steps: seq<Step>, i: nat)
    requires var s := After(creds, steps);
             && Enabled(s, AdoptionResumes(i)) && ResumeAdoption(s, i).adoptions[i].stage.Returned?
             && s.failures == s.adoptions[i].failedBefore && !s.vars.stdinClosed && s.vars.generation == s.adoptions[i].target
    ensures var s' := Apply(After(creds, steps), AdoptionResumes(i));
            s'.vars.active == s'.vars.generation && s'.adoptions[i].stage == Returned(true)
  {
    Safe(creds, steps);
    var s := After(creds, steps);
    var a := s.adoptions[i];
    assert AdoptionFits(s, a);
    if a.stage.Second? {
      assert BodyFits(s, s.reconnects[a.stage.on.value]);
    }
  }

  /** The state as a function of the steps: proofs about many steps need not look into each. */
  function Runs(creds: Creds): seq<Step> -> State {
    steps => After(creds, steps)
  }

  predicate RunIs(creds: Creds, run: seq<Step> -> State, steps: seq<Step>) {
    run(steps) == After(creds, steps)
  }

  ghost predicate IsRun(creds: Creds, run: seq<Step> -> State) {
    forall steps :: RunIs(creds, run, steps)
  }

  /** The steps are those of adoption `i` and of the reconnects it waits for, none of them a login or a failed handshake. */
  predicate OwnSteps(run: seq<Step> -> State, steps: seq<Step>, more: seq<Step>, i: nat)
    decreases |more|
  {
    more == [] || (OwnStep(run(steps), more[0], i) && OwnSteps(run, steps + [more[0]], more[1..], i))
  }

  predicate OwnStep(s: State, step: Step, i: nat) {
    Unfinished(s, i) && Enabled(s, step) && Advances(s, step, i) && !step.HandshakeFails?
  }

  predicate ReturnedAgreed(s: State, i: nat) {
    i < |s.adoptions| && s.adoptions[i].stage == Returned(true) && s.vars.active == s.vars.generation
  }

  function RankIn(s: State, i: nat): Rank {
    if i < |s.adoptions| then AdoptionRank(s, s.adoptions[i]) else Rank(0, 0, 0)
  }

  /** The body of promise `p` has a session for the current generation still to publish. */
  predicate WillOpen(s: State, p: nat) {
    InBody(s, p) && (s.vars.stdinClosed ==> s.reconnects[p].body == Opening(s.vars.generation))
  }

  /**
   * What decides whether an adoption can still return on the current session by steps of its own: that session is in use
   * already, or the reconnect it waits for will open it, or, stdin being open, the next one it asks for will.
   */
  predicate CanAgree(s: State, i: nat) {
    && Unfinished(s, i)
    && (|| s.vars.active == s.vars.generation
        || match s.adoptions[i].stage
           case First(Some(p)) =>
             || WillOpen(s, p)
             || (!s.vars.stdinClosed && (p !in s.settled || s.promise.None? || InBody(s, s.promise.value)))
           case Second(Some(q)) => WillOpen(s, q)
           case _ => false)
  }

  lemma {:induction false} WorkKeepsOpening(s: State, step: Step, p: nat)
    requires SingleFlight(s) && BodiesFit(s) && WillOpen(s, p)
    requires Enabled(s, step) && WorksOn(step, p) && !step.HandshakeFails?
    ensures var s' := Apply(s, step); WillOpen(s', p) || s'.vars.active == s'.vars.generation
  {
    assert BodyFits(s, s.reconnects[p]);
  }

  lemma {:induction false} WorkKeepsCanAgree(s: State, step: Step, i: nat)
    requires SingleFlight(s) && BodiesFit(s) && OwnStep(s, step, i) && step != AdoptionResumes(i) && CanAgree(s, i)
    ensures CanAgree(Apply(s, step), i)
  {
    var p := s.adoptions[i].stage.on.value;
    WorkKeepsAdoptions(s, step, p);
    if WillOpen(s, p) {
      WorkKeepsOpening(s, step, p);
    }
  }

  lemma {:induction false} WorkKeepsCannot(s: State, step: Step, i: nat)
    requires SingleFlight(s) && BodiesFit(s) && OwnStep(s, step, i) && step != AdoptionResumes(i) && !CanAgree(s, i)
    ensures Unfinished(Apply(s, step), i) && !CanAgree(Apply(s, step), i)
  {
    var p := s.adoptions[i].stage.on.value;
    WorkKeepsAdoptions(s, step, p);
    assert p < |s.reconnects| ==> BodyFits(s, s.reconnects[p]);
  }

  /** Resuming decides the matter, or asks for a reconnect and leaves it as it was. */
  lemma {:induction false} ResumeDecides(s: State, i: nat)
    requires SingleFlight(s) && Enabled(s, AdoptionResumes(i)) && AdoptionFits(s, s.adoptions[i])
    ensures var s' := ResumeAdoption(s, i);
            && i < |s'.adoptions| && (Unfinished(s', i) || s'.adoptions[i].stage.Returned?)
            && (CanAgree(s, i) <==> CanAgree(s', i) || ReturnedAgreed(s', i))
  {
  }

  /** No step of its own changes whether an adoption can still return on the current session. */
  lemma {:induction false} OwnStepDecides(creds: Creds, steps: seq<Step>, step: Step, i: nat)
    requires OwnStep(After(creds, steps), step, i)
    ensures var s' := After(creds, steps + [step]);
            CanAgree(After(creds, steps), i) <==> CanAgree(s', i) || ReturnedAgreed(s', i)
  {
    Safe(creds, steps);
    var s := After(creds, steps);
    AfterStep(creds, steps, step);
    assert AdoptionFits(s, s.adoptions[i]);
    if step == AdoptionResumes(i) {
      ResumeDecides(s, i);
    } else if CanAgree(s, i) {
      WorkKeepsCanAgree(s, step, i);
    } else {
      WorkKeepsCannot(s, step, i);
    }
  }

  /** One step of an adoption that can agree: it returns agreed, or stays such an adoption with a lower rank. */
  lemma {:induction false} AdvanceOnce(creds: Creds, run: seq<Step> -> State, steps: seq<Step>, i: nat) returns (step: Step)
    requires IsRun(creds, run) && CanAgree(run(steps), i)
    ensures OwnStep(run(steps), step, i)
    ensures ReturnedAgreed(run(steps + [step]), i)
            || (CanAgree(run(steps + [step]), i) && Below(RankIn(run(steps + [step]), i), RankIn(run(steps), i)))
  {
    assert RunIs(creds, run, steps);
    step := AdoptionNeverStuck(creds, steps, i);
    AfterStep(creds, steps, step);
    assert RunIs(creds, run, steps + [step]);
    OwnStepDecides(creds, steps, step, i);
    AdvanceDescends(run(steps), step, i);
  }

  lemma {:induction false} ReturnsFrom(creds: Creds, run: seq<Step> -> State, steps: seq<Step>, i: nat) returns (more: seq<Step>)
    requires IsRun(creds, run) && CanAgree(run(steps), i)
    ensures OwnSteps(run, steps, more, i) && ReturnedAgreed(run(steps + more), i)
    decreases RankIn(run(steps), i).stage, RankIn(run(steps), i).level, RankIn(run(steps), i).count
  {
    var step := AdvanceOnce(creds, run, steps, i);
    var next := steps + [step];
    if ReturnedAgreed(run(next), i) {
      more := [step];
      assert more[1..] == [];
    } else {
      var rest := ReturnsFrom(creds, run, next, i);
      more := [step] + rest;
      assert steps + more == next + rest && more[1..] == rest;
    }
  }

  lemma {:induction false} CannotReturn(creds: Creds, run: seq<Step> -> State, steps: seq<Step>, more: seq<Step>, i: nat)
    requires IsRun(creds, run) && OwnSteps(run, steps, more, i)
    requires ReturnedAgreed(run(steps + more), i) && Unfinished(run(steps), i)
    ensures CanAgree(run(steps), i)
    decreases |more|
  {
    if more == [] {
      assert steps + more == steps;
    } else {
      var next := steps + [more[0]];
      assert RunIs(creds, run, steps) && RunIs(creds, run, next);
      assert steps + more == next + more[1..];
      OwnStepDecides(creds, steps, more[0], i);
      if more[1..] == [] {
        assert next + more[1..] == next;
      } else {
        CannotReturn(creds, run, next, more[1..], i);
      }
    }
  }

  /**
   * Progress, all together: in every reachable state, an unfinished adoption has steps of its own, none of them a failed
   * handshake, that lead to its return on the current session if and only if CanAgree holds.
   */
  lemma {:induction false} AdoptionCanReturnIff(creds: Creds, steps: seq<Step>, i: nat)
    requires Unfinished(After(creds, steps), i)
    ensures CanAgree(After(creds, steps), i)
            <==> exists more :: OwnSteps(Runs(creds), steps, more, i) && ReturnedAgreed(After(creds, steps + more), i)
  {
    var run := Runs(creds);
    forall t ensures RunIs(creds, run, t) { }
    if CanAgree(After(creds, steps), i) {
      var more := ReturnsFrom(creds, run, steps, i);
      assert RunIs(creds, run, steps + more);
    }
    forall more | OwnSteps(run, steps, more, i) && ReturnedAgreed(After(creds, steps + more), i) ensures CanAgree(After(creds, steps), i) {
      assert RunIs(creds, run, steps + more) && RunIs(creds, run, steps);
      CannotReturn(creds, run, steps, more, i);
    }
  }

  /** No login or failed handshake has come since adoption `i` began, and stdin is open. */
  predicate Undisturbed(s: State, i: nat) {
    i < |s.adoptions| && s.failures == s.adoptions[i].failedBefore && !s.vars.stdinClosed && s.vars.generation == s.adoptions[i].target
  }

  /** A body that ended without having published the current session was disturbed. */
  lemma {:induction false} EndedDisturbed(s: State, r: Reconnect, a: Adoption)
    requires BodyFits(s, r) && r.body.Closed? && a.target <= r.began && a.failedBefore <= r.failedBefore
    requires s.failures == a.failedBefore && !s.vars.stdinClosed && s.vars.generation == a.target && s.vars.active <= s.vars.generation
    ensures s.vars.active == s.vars.generation
  {
  }

  /** An adoption can only lose the current session to a failed handshake, another login or the end of stdin. */
  lemma {:induction false} UndisturbedCanAgree(creds: Creds, steps: seq<Step>, i: nat)
    requires Unfinished(After(creds, steps), i) && Undisturbed(After(creds, steps), i)
    ensures CanAgree(After(creds, steps), i)
  {
    Safe(creds, steps);
    UndisturbedIn(After(creds, steps), i);
  }

  lemma {:induction false} UndisturbedIn(s: State, i: nat)
    requires Unfinished(s, i) && Undisturbed(s, i) && SingleFlight(s) && BodiesFit(s) && AdoptionsFit(s)
    requires s.vars.active <= s.vars.generation
    ensures CanAgree(s, i)
  {
    var a := s.adoptions[i];
    assert AdoptionFits(s, a);
    match a.stage {
      case First(Some(p)) =>
        if p in s.settled && s.promise.Some? && !InBody(s, s.promise.value) {
          EndedDisturbed(s, s.reconnects[s.promise.value], a);
        }
      case Second(Some(q)) =>
        if !InBody(s, q) {
          EndedDisturbed(s, s.reconnects[q], a);
        }
      case _ =>
    }
  }

  // ---- What other tasks can do for an adoption ----

  /** Any step but a login, a failed handshake and the end of stdin. */
  predicate Helps(step: Step) {
    !step.LoginCompletes? && !step.HandshakeFails? && !step.StdinCloses?
  }

  predicate HelpfulStep(s: State, step: Step) {
    Enabled(s, step) && Helps(step)
  }

  /** Such steps are possible one after the other. */
  predicate Helpful(run: seq<Step> -> State, steps: seq<Step>, more: seq<Step>)
    decreases |more|
  {
    more == [] || (HelpfulStep(run(steps), more[0]) && Helpful(run, steps + [more[0]], more[1..]))
  }

  /** Adoption `i` waits for its second reconnect, and reconnect `r` is running. */
  predicate Driven(s: State, r: nat, i: nat) {
    Unfinished(s, i) && !s.vars.stdinClosed && s.promise == Some(r) && InBody(s, r)
  }

  function DriveRank(s: State, r: nat): Rank {
    AwaitRank(s, 0, Some(r))
  }

  /** The running body's own next step: it has published the current session, or is closer to being settled. */
  lemma {:induction false} DriveOnce(creds: Creds, run: seq<Step> -> State, steps: seq<Step>, r: nat, i: nat) returns (step: Step)
    requires IsRun(creds, run) && Driven(run(steps), r, i)
    ensures HelpfulStep(run(steps), step)
    ensures var s' := run(steps + [step]);
            CanAgree(s', i) || (Driven(s', r, i) && Below(DriveRank(s', r), DriveRank(run(steps), r)))
  {
    assert RunIs(creds, run, steps);
    Safe(creds, steps);
    var s := run(steps);
    assert BodyFits(s, s.reconnects[r]);
    match s.reconnects[r].body {
      case Backoff => step := BackoffEnds(r);
      case Opening(_) => step := HandshakeOpens(r);
      case Replaying(_, _) => step := ReplayReturns(r);
    }
    AfterStep(creds, steps, step);
    assert RunIs(creds, run, steps + [step]);
    WorkKeepsAdoptions(s, step, r);
    WorkKeepsOpening(s, step, r);
    WorkDescends(s, step, r, 0);
    WorkKeepsPromise(s, step, r);
  }

  lemma {:induction false} WorkKeepsPromise(s: State, step: Step, r: nat)
    requires Enabled(s, step) && WorksOn(step, r) && InBody(s, r)
    ensures Apply(s, step).promise == s.promise
  {
  }

  lemma {:induction false} Drive(creds: Creds, run: seq<Step> -> State, steps: seq<Step>, r: nat, i: nat) returns (more: seq<Step>)
    requires IsRun(creds, run) && Driven(run(steps), r, i)
    ensures Helpful(run, steps, more) && CanAgree(run(steps + more), i)
    decreases DriveRank(run(steps), r).stage, DriveRank(run(steps), r).level, DriveRank(run(steps), r).count
  {
    var step := DriveOnce(creds, run, steps, r, i);
    var next := steps + [step];
    if CanAgree(run(next), i) {
      more := [step];
      assert more[1..] == [];
    } else {
      var rest := Drive(creds, run, next, r, i);
      more := [step] + rest;
      assert steps + more == next + rest && more[1..] == rest;
    }
  }

  /** A step that brings a reconnect into being, or the creator's finally block that makes room for one. */
  lemma {:induction false} Prompt(s: State, i: nat, m: Message) returns (step: Step)
    requires SingleFlight(s) && Unfinished(s, i) && !s.vars.stdinClosed && !CanAgree(s, i)
    requires s.promise.None? || !InBody(s, s.promise.value)
    ensures HelpfulStep(s, step) && (s.promise.None? <==> step == ClientLine(m))
    ensures var s' := Apply(s, step);
            && Unfinished(s', i) && !s'.vars.stdinClosed
            && if s.promise.None? then s'.promise.Some? && InBody(s', s'.promise.value) else s'.promise.None?
  {
    step := if s.promise.None? then ClientLine(m) else CreatorSettles(s.promise.value);
  }

  lemma {:induction false} PromptOnce(creds: Creds, run: seq<Step> -> State, steps: seq<Step>, i: nat, m: Message) returns (step: Step)
    requires IsRun(creds, run) && Unfinished(run(steps), i) && !run(steps).vars.stdinClosed && !CanAgree(run(steps), i)
    requires Waiting(run(steps)) > 0
    ensures HelpfulStep(run(steps), step)
    ensures var s' := run(steps + [step]); Unfinished(s', i) && !s'.vars.stdinClosed && Waiting(s') < Waiting(run(steps))
  {
    assert RunIs(creds, run, steps);
    Safe(creds, steps);
    step := Prompt(run(steps), i, m);
    AfterStep(creds, steps, step);
    assert RunIs(creds, run, steps + [step]);
  }

  /** How many steps are left before a reconnect is running. */
  function Waiting(s: State): nat {
    if s.promise.None? then 1 else if InBody(s, s.promise.value) then 0 else 2
  }

  lemma {:induction false} Help(creds: Creds, run: seq<Step> -> State, steps: seq<Step>, i: nat, m: Message) returns (more: seq<Step>)
    requires IsRun(creds, run) && Unfinished(run(steps), i) && !run(steps).vars.stdinClosed
    ensures Helpful(run, steps, more) && CanAgree(run(steps + more), i)
    decreases Waiting(run(steps))
  {
    if CanAgree(run(steps), i) {
      more := [];
      assert steps + more == steps;
    } else if Waiting(run(steps)) == 0 {
      more := Drive(creds, run, steps, run(steps).promise.value, i);
    } else {
      var step := PromptOnce(creds, run, steps, i, m);
      var next := steps + [step];
      var rest := Help(creds, run, next, i, m);
      more := [step] + rest;
      assert steps + more == next + rest && more[1..] == rest;
    }
  }

  lemma {:induction false} OwnStepsHelp(run: seq<Step> -> State, steps: seq<Step>, more: seq<Step>, i: nat)
    requires OwnSteps(run, steps, more, i)
    ensures Helpful(run, steps, more)
    decreases |more|
  {
    if more != [] {
      OwnStepsHelp(run, steps + [more[0]], more[1..], i);
    }
  }

  lemma {:induction false} HelpfulJoin(run: seq<Step> -> State, steps: seq<Step>, first: seq<Step>, second: seq<Step>)
    requires Helpful(run, steps, first) && Helpful(run, steps + first, second)
    ensures Helpful(run, steps, first + second)
    decreases |first|
  {
    if first == [] {
      assert steps + first == steps && first + second == second;
    } else {
      var next := steps + [first[0]];
      assert next + first[1..] == steps + first && (first + second)[1..] == first[1..] + second;
      HelpfulJoin(run, next, first[1..], second);
    }
  }

  lemma {:induction false} HelpThenReturn(creds: Creds, run: seq<Step> -> State, steps: seq<Step>, i: nat, m: Message)
    returns (more: seq<Step>)
    requires IsRun(creds, run) && Unfinished(run(steps), i) && !run(steps).vars.stdinClosed
    ensures Helpful(run, steps, more) && ReturnedAgreed(run(steps + more), i)
  {
    var first := Help(creds, run, steps, i, m);
    var second := ReturnsFrom(creds, run, steps + first, i);
    OwnStepsHelp(run, steps + first, second, i);
    HelpfulJoin(run, steps, first, second);
    more := first + second;
    assert steps + more == steps + first + second;
  }

  /**
   * What its own steps cannot do, others can: from every reachable state with an unfinished adoption and stdin open, some
   * continuation without a login or a failed handshake leads to its return on the current session. The line of a client
   * is enough.
   */
  lemma {:induction false} AdoptionCanBeHelped(creds: Creds, steps: seq<Step>, i: nat, m: Message) returns (more: seq<Step>)
    requires Unfinished(After(creds, steps), i) && !After(creds, steps).vars.stdinClosed
    ensures Helpful(Runs(creds), steps, more) && ReturnedAgreed(After(creds, steps + more), i)
  {
    forall t ensures RunIs(creds, Runs(creds), t) { }
    more := HelpThenReturn(creds, Runs(creds), steps, i, m);
  }

  // ---- An adoption that cannot return on the current session by itself ----

  /** One login to generation 1, no session for it yet, and reconnects with these bodies. */
  predicate Trying(s: State, bodies: seq<Body>, promise: Option<nat>, settled: set<nat>, stage: AdoptionStage) {
    && |s.reconnects| == |bodies| && (forall p | 0 <= p < |bodies| :: s.reconnects[p].body == bodies[p])
    && s.promise == promise && s.settled == settled && |s.adoptions| == 1 && s.adoptions[0].stage == stage
    && s.vars.active == 0 && s.vars.generation == 1 && !s.vars.stdinClosed && |s.history| == 2
  }

  lemma {:induction false} TryFirst(a: Creds, b: Creds)
    ensures Trying(Apply(Start(a), LoginCompletes(b)), [Opening(1)], Some(0), {}, First(Some(0)))
  {
  }

  lemma {:induction false} TryFails(s: State, bodies: seq<Body>, p: nat, settled: set<nat>, stage: AdoptionStage)
    requires p + 1 == |bodies| && bodies[p] == Opening(1) && Trying(s, bodies, Some(p), settled, stage) && p !in settled
    ensures Enabled(s, HandshakeFails(p)) && Trying(Apply(s, HandshakeFails(p)), bodies[p := Closed(None)], Some(p), settled, stage)
  {
  }

  lemma {:induction false} TrySettles(s: State, bodies: seq<Body>, p: nat, settled: set<nat>, stage: AdoptionStage)
    requires p < |bodies| && bodies[p].Closed? && Trying(s, bodies, Some(p), settled, stage) && p !in settled
    ensures Enabled(s, CreatorSettles(p)) && Trying(Apply(s, CreatorSettles(p)), bodies, None, settled + {p}, stage)
  {
  }

  lemma {:induction false} TrySecond(s: State)
    requires Trying(s, [Closed(None)], None, {0}, First(Some(0)))
    ensures Enabled(s, AdoptionResumes(0))
    ensures Trying(Apply(s, AdoptionResumes(0)), [Closed(None), Opening(1)], Some(1), {0}, Second(Some(1)))
  {
  }

  lemma {:induction false} FailAndSettle(a: Creds, t: seq<Step>, bodies: seq<Body>, p: nat, settled: set<nat>, stage: AdoptionStage)
    returns (t': seq<Step>)
    requires p + 1 == |bodies| && bodies[p] == Opening(1) && Trying(After(a, t), bodies, Some(p), settled, stage) && p !in settled
    ensures Trying(After(a, t'), bodies[p := Closed(None)], None, settled + {p}, stage)
  {
    TryFails(After(a, t), bodies, p, settled, stage);
    AfterStep(a, t, HandshakeFails(p));
    var t1 := t + [HandshakeFails(p)];
    TrySettles(After(a, t1), bodies[p := Closed(None)], p, settled, stage);
    AfterStep(a, t1, CreatorSettles(p));
    t' := t1 + [CreatorSettles(p)];
  }

  lemma {:induction false} TryAgain(a: Creds, t: seq<Step>) returns (t': seq<Step>)
    requires Trying(After(a, t), [Closed(None)], None, {0}, First(Some(0)))
    ensures Trying(After(a, t'), [Closed(None), Opening(1)], Some(1), {0}, Second(Some(1)))
  {
    TrySecond(After(a, t));
    AfterStep(a, t, AdoptionResumes(0));
    t' := t + [AdoptionResumes(0)];
  }

  /**
   * A run with two failed handshakes after which CanAgree does not hold, with stdin open: the only step of its own is to
   * return on the old session.
   */
  lemma {:induction false} FailedAdoptionDisagrees(a: Creds, b: Creds) returns (t: seq<Step>)
    ensures var s := After(a, t);
            && Unfinished(s, 0) && !s.vars.stdinClosed && !CanAgree(s, 0) && Enabled(s, AdoptionResumes(0))
            && Apply(s, AdoptionResumes(0)).adoptions[0].stage == Returned(false)
            && forall step | Enabled(s, step) && Advances(s, step, 0) :: step == AdoptionResumes(0)
  {
    TryFirst(a, b);
    AfterStep(a, [], LoginCompletes(b));
    assert [] + [LoginCompletes(b)] == [LoginCompletes(b)];
    t := FailAndSettle(a, [LoginCompletes(b)], [Opening(1)], 0, {}, First(Some(0)));
    assert [Opening(1)][0 := Closed(None)] == [Closed(None)] && {} + {0} == {0};
    t := TryAgain(a, t);
    t := FailAndSettle(a, t, [Closed(None), Opening(1)], 1, {0}, Second(Some(1)));
  }

  // ---- Direct posts that keep to their account ----

  /** The step sends a direct POST for client line `i`. */
  predicate PostsLine(s: State, step: Step, i: nat) {
    Enabled(s, step) && |Apply(s, step).posts| == |s.posts| + 1
    && match step
       case ClientLine(_) => i == |s.lines|
       case LineUnparks(k) => i == k
       case LineSwitched(k) => i == k
       case _ => false
  }

  lemma {:induction false} PostedLine(s: State, step: Step, i: nat)
    requires PostsLine(s, step, i)
    ensures var p := Apply(s, step).posts[|s.posts|];
            && p.creds == s.vars.creds
            && (step.ClientLine? ==> p.account == s.vars.creds.account && p.msg == step.msg)
            && (!step.ClientLine? ==> i < |s.lines| && p.msg == s.lines[i].msg && p.account == s.lines[i].account)
  {
  }

  /** A line that is posted in the step that accepts it never crosses accounts. */
  lemma {:induction false} ImmediatePostKeepsAccount(creds: Creds, steps: seq<Step>, m: Message)
    requires PostsLine(After(creds, steps), ClientLine(m), |After(creds, steps).lines|)
    ensures var s := After(creds, steps);
            var p := Apply(s, ClientLine(m)).posts[|s.posts|];
            p.msg == m && p.account == p.creds.account && p.creds == p.session.creds
  {
    Safe(creds, steps);
    var s := After(creds, steps);
    PostedLine(s, ClientLine(m), |s.lines|);
  }

  /**
   * Neither does a line whose own entry is still in flight when it is posted: testing that before the POST would keep
   * direct posts within their accounts.
   */
  lemma {:induction false} TrackedPostKeepsAccount(creds: Creds, steps: seq<Step>, step: Step, i: nat)
    requires PostsLine(After(creds, steps), step, i) && !step.ClientLine?
    requires var s := After(creds, steps); i < |s.lines| && Entry(s.lines[i].msg, s.lines[i].account) in s.vars.inFlight
    ensures var s := After(creds, steps);
            var p := Apply(s, step).posts[|s.posts|]; p.msg == s.lines[i].msg && p.account == p.creds.account
  {
    Safe(creds, steps);
    PostedLine(After(creds, steps), step, i);
  }

  // ---- The parked direct path ----

  lemma {:induction false} AfterStep(creds: Creds, steps: seq<Step>, step: Step)
    requires Enabled(After(creds, steps), step)
    ensures After(creds, steps + [step]) == Apply(After(creds, steps), step)
  {
    assert (steps + [step])[..|steps|] == steps;
  }

  /** One reconnect in the stage `body`, one line in the stage `line`, and nothing else going on. */
  predicate Scene(s: State, body: Body, promise: Option<nat>, settled: set<nat>, lines: seq<Line>, inFlight: seq<Entry>, stdout: seq<Out>) {
    && s.promise == promise && |s.reconnects| == 1 && s.reconnects[0].body == body && s.settled == settled
    && s.lines == lines && s.vars.inFlight == inFlight && s.vars.stdout == stdout && s.posts == [] && !s.vars.stdinClosed
  }

  /** The credentials and generations while the first session, or the second one, is active. */
  predicate Keys(s: State, a: Creds, b: Creds, logins: nat, active: nat) {
    && s.history == (if logins == 0 then [a] else [a, b]) && s.vars.generation == logins && s.vars.active == active
    && s.vars.creds == if logins == 0 then a else b
  }

  lemma {:induction false} SceneReconnecting(a: Creds, b: Creds)
    ensures var s := Apply(Start(a), StreamEnds); Scene(s, Backoff, Some(0), {}, [], [], []) && Keys(s, a, b, 0, 0)
  {
  }

  lemma {:induction false} SceneParked(s: State, a: Creds, b: Creds, m: Message)
    requires Scene(s, Backoff, Some(0), {}, [], [], []) && Keys(s, a, b, 0, 0) && Tracked(m)
    ensures var s' := Apply(s, ClientLine(m));
            Scene(s', Backoff, Some(0), {}, [Line(m, a.account, 0, Parked(0))], [Entry(m, a.account)], []) && Keys(s', a, b, 0, 0)
  {
  }

  lemma {:induction false} SceneSwitched(s: State, a: Creds, b: Creds, m: Message, lines: seq<Line>)
    requires Scene(s, Backoff, Some(0), {}, lines, [Entry(m, a.account)], []) && Keys(s, a, b, 0, 0) && a.account != b.account
    ensures var s' := Apply(s, LoginCompletes(b));
            Scene(s', Backoff, Some(0), {}, lines, [], [Out(m.id, AccountChanged)]) && Keys(s', a, b, 1, 0)
  {
    var e := [Entry(m, a.account)];
    assert e[..0] == [] && AccountErrors(e) == [Out(m.id, AccountChanged)];
  }

  lemma {:induction false} SceneOpening(s: State, a: Creds, b: Creds, lines: seq<Line>, stdout: seq<Out>)
    requires Scene(s, Backoff, Some(0), {}, lines, [], stdout) && Keys(s, a, b, 1, 0)
    ensures var s' := Apply(s, BackoffEnds(0)); Scene(s', Opening(1), Some(0), {}, lines, [], stdout) && Keys(s', a, b, 1, 0)
  {
  }

  lemma {:induction false} SceneOpened(s: State, a: Creds, b: Creds, lines: seq<Line>, stdout: seq<Out>)
    requires Scene(s, Opening(1), Some(0), {}, lines, [], stdout) && Keys(s, a, b, 1, 0)
    ensures var s' := Apply(s, HandshakeOpens(0)); Scene(s', Closed(Some(1)), Some(0), {}, lines, [], stdout) && Keys(s', a, b, 1, 1)
  {
  }

  lemma {:induction false} SceneSettled(s: State, a: Creds, b: Creds, lines: seq<Line>, stdout: seq<Out>)
    requires Scene(s, Closed(Some(1)), Some(0), {}, lines, [], stdout) && Keys(s, a, b, 1, 1)
    ensures var s' := Apply(s, CreatorSettles(0)); Scene(s', Closed(Some(1)), None, {0}, lines, [], stdout) && Keys(s', a, b, 1, 1)
  {
  }

  lemma {:induction false} ScenePosted(s: State, a: Creds, b: Creds, m: Message, stdout: seq<Out>)
    requires Scene(s, Closed(Some(1)), None, {0}, [Line(m, a.account, 0, Parked(0))], [], stdout) && Keys(s, a, b, 1, 1)
    ensures Enabled(s, LineUnparks(0))
    ensures var s' := Apply(s, LineUnparks(0));
            |s'.posts| == 1 && s'.posts[0].msg == m && s'.posts[0].account == a.account && s'.posts[0].creds == b
            && s'.vars.stdout == stdout
  {
  }

  lemma {:induction false} ReachSwitched(a: Creds, b: Creds, m: Message) returns (t: seq<Step>)
    requires a.account != b.account && Tracked(m)
    ensures var s := After(a, t);
            && Scene(s, Backoff, Some(0), {}, [Line(m, a.account, 0, Parked(0))], [], [Out(m.id, AccountChanged)])
            && Keys(s, a, b, 1, 0)
  {
    var t2 := ReachParked(a, b, m);
    AfterStep(a, t2, LoginCompletes(b));
    SceneSwitched(After(a, t2), a, b, m, [Line(m, a.account, 0, Parked(0))]);
    t := t2 + [LoginCompletes(b)];
  }

  lemma {:induction false} ReachParked(a: Creds, b: Creds, m: Message) returns (t: seq<Step>)
    requires Tracked(m)
    ensures var s := After(a, t);
            && Scene(s, Backoff, Some(0), {}, [Line(m, a.account, 0, Parked(0))], [Entry(m, a.account)], [])
            && Keys(s, a, b, 0, 0)
  {
    SceneReconnecting(a, b);
    AfterStep(a, [], StreamEnds);
    assert [] + [StreamEnds] == [StreamEnds];
    AfterStep(a, [StreamEnds], ClientLine(m));
    SceneParked(After(a, [StreamEnds]), a, b, m);
    t := [StreamEnds] + [ClientLine(m)];
  }

  lemma {:induction false} ReachOpened(a: Creds, b: Creds, t: seq<Step>, lines: seq<Line>, stdout: seq<Out>) returns (t': seq<Step>)
    requires Scene(After(a, t), Backoff, Some(0), {}, lines, [], stdout) && Keys(After(a, t), a, b, 1, 0)
    ensures Scene(After(a, t'), Closed(Some(1)), Some(0), {}, lines, [], stdout) && Keys(After(a, t'), a, b, 1, 1)
  {
    AfterStep(a, t, BackoffEnds(0));
    SceneOpening(After(a, t), a, b, lines, stdout);
    var t1 := t + [BackoffEnds(0)];
    AfterStep(a, t1, HandshakeOpens(0));
    SceneOpened(After(a, t1), a, b, lines, stdout);
    t' := t1 + [HandshakeOpens(0)];
  }

  lemma {:induction false} ReachSettled(a: Creds, b: Creds, t: seq<Step>, lines: seq<Line>, stdout: seq<Out>) returns (t': seq<Step>)
    requires Scene(After(a, t), Closed(Some(1)), Some(0), {}, lines, [], stdout) && Keys(After(a, t), a, b, 1, 1)
    ensures Scene(After(a, t'), Closed(Some(1)), None, {0}, lines, [], stdout) && Keys(After(a, t'), a, b, 1, 1)
  {
    AfterStep(a, t, CreatorSettles(0));
    SceneSettled(After(a, t), a, b, lines, stdout);
    t' := t + [CreatorSettles(0)];
  }

  lemma {:induction false} ReachPosted(a: Creds, b: Creds, m: Message, t: seq<Step>, stdout: seq<Out>) returns (t': seq<Step>)
    requires Scene(After(a, t), Closed(Some(1)), None, {0}, [Line(m, a.account, 0, Parked(0))], [], stdout)
    requires Keys(After(a, t), a, b, 1, 1)
    ensures var s := After(a, t');
            && |s.posts| == 1 && s.posts[0].msg == m && s.posts[0].account == a.account && s.posts[0].creds == b
            && s.vars.stdout == stdout
  {
    ScenePosted(After(a, t), a, b, m, stdout);
    AfterStep(a, t, LineUnparks(0));
    t' := t + [LineUnparks(0)];
  }

  /**
   * Account isolation stops at the replay path: a request parked while the account changes is answered with the
   * account-changed error and then still posted to the new account.
   */
  lemma {:induction false} ParkedRequestCrossesAccounts(a: Creds, b: Creds, m: Message) returns (steps: seq<Step>)
    requires a.account != b.account && Tracked(m)
    ensures var s := After(a, steps);
            && |s.posts| == 1 && s.posts[0].msg == m && s.posts[0].account == a.account && s.posts[0].creds == b
            && s.vars.stdout == [Out(m.id, AccountChanged)]
  {
    var lines, stdout := [Line(m, a.account, 0, Parked(0))], [Out(m.id, AccountChanged)];
    var t := ReachSwitched(a, b, m);
    t := ReachOpened(a, b, t, lines, stdout);
    t := ReachSettled(a, b, t, lines, stdout);
    steps := ReachPosted(a, b, m, t, stdout);
  }
}
