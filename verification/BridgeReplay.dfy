/** What a reconnect replays, and that nothing the bridge waits for is beyond reach. */
module BridgeReplay {
  import opened Outcomes
  import opened Bridge
  import opened BridgeProtocol
  import opened BridgeSafety
  import opened BridgeTheorems

  // ---- The replayed requests ----

  /** The replay POSTs among all POSTs. */
  function Replays(posts: seq<Post>): seq<Post> {
    if posts == [] then []
    else
      var last := posts[|posts| - 1];
      Replays(posts[..|posts| - 1]) + if last.kind.Replay? then [last] else []
  }

  /** These requests, posted to this session with its own credentials, in order. */
  function ReplayOf(entries: seq<Entry>, session: Session): seq<Post> {
    seq(|entries|, i requires 0 <= i < |entries| => Post(Replay, session, session.creds, entries[i].msg, entries[i].account, 0))
  }

  lemma {:induction false} ReplaysNext(posts: seq<Post>, post: Post)
    ensures Replays(posts + [post]) == Replays(posts) + if post.kind.Replay? then [post] else []
  {
    assert (posts + [post])[..|posts|] == posts;
  }

  lemma {:induction false} ReplayOfNext(entries: seq<Entry>, k: nat, session: Session)
    requires k < |entries|
    ensures ReplayOf(entries[..k + 1], session)
            == ReplayOf(entries[..k], session) + [Post(Replay, session, session.creds, entries[k].msg, entries[k].account, 0)]
  {
  }

  /** Body `p` replays `entries` to `session`; the first `k` have been posted, after the replays there were before. */
  predicate Passing(s: State, p: nat, entries: seq<Entry>, session: Session, k: nat, before: seq<Post>) {
    && k <= |entries| && p < |s.reconnects| && s.reconnects[p].body == Replaying(session.generation, entries[k..])
    && Replays(s.posts) == before + ReplayOf(entries[..k], session) && s.vars.sse == session
    && session.generation < |s.history| && s.history[session.generation] == session.creds
  }

  /** A step of anyone else leaves the replay where it is. */
  lemma {:induction false} OthersPassBy(s: State, step: Step, p: nat)
    requires SingleFlight(s) && Enabled(s, step) && p < |s.reconnects| && s.reconnects[p].body.Replaying? && step != ReplayReturns(p)
    ensures var s' := Apply(s, step);
            && p < |s'.reconnects| && s'.reconnects[p] == s.reconnects[p] && s'.vars.sse == s.vars.sse && s.history <= s'.history
            && (s'.posts == s.posts || exists post: Post :: s'.posts == s.posts + [post] && !post.kind.Replay?)
  {
    assert s.promise == Some(p);
  }

  lemma {:induction false} PassingStep(s: State, step: Step, p: nat, entries: seq<Entry>, session: Session, k: nat, before: seq<Post>)
    requires SingleFlight(s) && Enabled(s, step) && Passing(s, p, entries, session, k, before)
    ensures step != ReplayReturns(p) ==> Passing(Apply(s, step), p, entries, session, k, before)
    ensures step == ReplayReturns(p) && k < |entries| ==> Passing(Apply(s, step), p, entries, session, k + 1, before)
  {
    if step != ReplayReturns(p) {
      OthersPassBy(s, step, p);
      if Apply(s, step).posts != s.posts {
        var post: Post :| Apply(s, step).posts == s.posts + [post] && !post.kind.Replay?;
        ReplaysNext(s.posts, post);
        assert Replays(s.posts) + [] == Replays(s.posts);
      }
    } else if k < |entries| {
      ReplayOne(s, p, entries, session, k, before);
    }
  }

  lemma {:induction false} ReplayOne(s: State, p: nat, entries: seq<Entry>, session: Session, k: nat, before: seq<Post>)
    requires Passing(s, p, entries, session, k, before) && k < |entries|
    ensures Passing(ReplayNext(s, p, session.generation, entries[k..]), p, entries, session, k + 1, before)
  {
    var e := entries[k..][0];
    ReplaysNext(s.posts, Post(Replay, session, session.creds, e.msg, e.account, 0));
    ReplayOfNext(entries, k, session);
    assert entries[k..][1..] == entries[k + 1..];
    assert before + (ReplayOf(entries[..k], session) + [Post(Replay, session, session.creds, e.msg, e.account, 0)])
        == before + ReplayOf(entries[..k], session) + [Post(Replay, session, session.creds, e.msg, e.account, 0)];
  }

  /** How often the POST of body `p` returns. */
  function Returns(steps: seq<Step>, p: nat): nat {
    if steps == [] then 0 else Returns(steps[..|steps| - 1], p) + if steps[|steps| - 1] == ReplayReturns(p) then 1 else 0
  }

  lemma {:induction false} PassingRun(creds: Creds, run: seq<Step> -> State, steps: seq<Step>, more: seq<Step>, p: nat, entries: seq<Entry>,
                                      session: Session, before: seq<Post>)
    requires IsRun(creds, run) && Passing(run(steps), p, entries, session, 1, before) && Returns(more, p) < |entries|
    ensures Passing(run(steps + more), p, entries, session, 1 + Returns(more, p), before)
  {
    if more == [] {
      assert steps + more == steps;
    } else {
      var n := |more| - 1;
      PassingRun(creds, run, steps, more[..n], p, entries, session, before);
      assert steps + more == (steps + more[..n]) + [more[n]];
      PassingOne(creds, run, steps + more[..n], more[n], p, entries, session, 1 + Returns(more[..n], p), before);
    }
  }

  lemma {:induction false} PassingOne(creds: Creds, run: seq<Step> -> State, steps: seq<Step>, step: Step, p: nat, entries: seq<Entry>,
                                      session: Session, k: nat, before: seq<Post>)
    requires IsRun(creds, run) && Passing(run(steps), p, entries, session, k, before) && (step == ReplayReturns(p) ==> k < |entries|)
    ensures Passing(run(steps + [step]), p, entries, session, if step == ReplayReturns(p) then k + 1 else k, before)
  {
    assert RunIs(creds, run, steps) && RunIs(creds, run, steps + [step]);
    if Enabled(run(steps), step) {
      Safe(creds, steps);
      AfterStep(creds, steps, step);
      PassingStep(run(steps), step, p, entries, session, k, before);
    } else {
      assert (steps + [step])[..|steps|] == steps;
    }
  }

  /** The handshake of body `p` is about to answer for the current generation: its session will be published. */
  predicate Publishes(s: State, p: nat) {
    Enabled(s, HandshakeOpens(p)) && s.reconnects[p].body.generation == s.vars.generation
  }

  lemma {:induction false} FirstReplay(s: State, p: nat)
    requires GenerationsFit(s) && Publishes(s, p) && s.vars.inFlight != []
    ensures Passing(Apply(s, HandshakeOpens(p)), p, s.vars.inFlight, Session(s.vars.creds, s.vars.generation), 1, Replays(s.posts))
  {
    var es, session := s.vars.inFlight, Session(s.vars.creds, s.vars.generation);
    ReplaysNext(s.posts, Post(Replay, session, session.creds, es[0].msg, es[0].account, 0));
    ReplayOfNext(es, 0, session);
    assert ReplayOf(es[..0], session) == [];
  }

  /**
   * Whatever else goes on: when a reconnect publishes its session, and k of its POSTs have returned since, it has posted
   * the first k + 1 of the requests that were in flight then, in order, to that session with the session's credentials,
   * and no other replay has been posted; it stays with that session until all of them have been posted.
   */
  lemma {:induction false} ReplaysInOrder(creds: Creds, steps: seq<Step>, p: nat, more: seq<Step>)
    requires Publishes(After(creds, steps), p) && Returns(more, p) < |After(creds, steps).vars.inFlight|
    ensures var s := After(creds, steps);
            var s' := After(creds, steps + [HandshakeOpens(p)] + more);
            var session, k := Session(s.vars.creds, s.vars.generation), 1 + Returns(more, p);
            && Replays(s'.posts) == Replays(s.posts) + ReplayOf(s.vars.inFlight[..k], session)
            && p < |s'.reconnects| && s'.reconnects[p].body == Replaying(s.vars.generation, s.vars.inFlight[k..])
            && s'.vars.sse == session
  {
    var s, run := After(creds, steps), Runs(creds);
    forall t ensures RunIs(creds, run, t) { }
    Safe(creds, steps);
    AfterStep(creds, steps, HandshakeOpens(p));
    FirstReplay(s, p);
    PassingRun(creds, run, steps + [HandshakeOpens(p)], more, p, s.vars.inFlight, Session(s.vars.creds, s.vars.generation), Replays(s.posts));
    assert RunIs(creds, run, steps + [HandshakeOpens(p)] + more);
  }

  /**
   * When the last POST has returned, the reconnect ends with its session, or goes on to open another one if a login has
   * made that session stale; with nothing in flight it ends at once.
   */
  lemma {:induction false} ReplayEnds(creds: Creds, steps: seq<Step>, p: nat, more: seq<Step>)
    requires Publishes(After(creds, steps), p) && Returns(more, p) + 1 == |After(creds, steps).vars.inFlight|
    ensures var s := After(creds, steps);
            var t := steps + [HandshakeOpens(p)] + more;
            var s' := After(creds, t + [ReplayReturns(p)]);
            && Replays(s'.posts) == Replays(s.posts) + ReplayOf(s.vars.inFlight, Session(s.vars.creds, s.vars.generation))
            && p < |s'.reconnects|
            && s'.reconnects[p].body == (if After(creds, t).vars.generation == s.vars.generation then Closed(Some(s.vars.generation))
                                         else if s'.vars.stdinClosed then Closed(None) else Opening(s'.vars.generation))
  {
    var s, t := After(creds, steps), steps + [HandshakeOpens(p)] + more;
    ReplaysInOrder(creds, steps, p, more);
    Safe(creds, t);
    var g := s.vars.generation;
    var s1 := After(creds, t);
    assert BodyFits(s1, s1.reconnects[p]);
    AfterStep(creds, t, ReplayReturns(p));
    assert s.vars.inFlight[|s.vars.inFlight|..] == [] && s.vars.inFlight[..|s.vars.inFlight|] == s.vars.inFlight;
  }

  lemma {:induction false} NothingToReplay(s: State, p: nat)
    requires Publishes(s, p) && s.vars.inFlight == []
    ensures var s' := Apply(s, HandshakeOpens(p));
            s'.posts == s.posts && s'.reconnects[p].body == Closed(Some(s.vars.generation)) && s'.vars.active == s.vars.generation
  {
  }

  // ---- A lost stream ----

  /** The stream of the session in use ends, or a POST learns that the session is gone. */
  predicate Loses(step: Step) {
    step.StreamEnds? || (step.PostReturns? && step.notFound)
  }

  /** Whoever notices waits for a reconnect: the running one, or a new one if there is none. */
  lemma {:induction false} LossIsNoticed(s: State, step: Step)
    requires Loses(step) && Enabled(s, step) && !s.vars.stdinClosed
    ensures var s' := Apply(s, step);
            && s'.promise == (if s.promise.Some? then s.promise else Some(|s.reconnects|))
            && (s.promise.None? ==> |s'.reconnects| == |s.reconnects| + 1 && s'.reconnects[|s.reconnects|].body == Backoff)
            && (step.StreamEnds? ==> s'.pump == Reopening(s'.promise))
            && (step.PostReturns? ==> step.line < |s'.lines| && s'.lines[step.line].stage == Recovering(s'.promise))
            && s'.vars == s.vars && s'.posts == s.posts && s'.history == s.history
  {
  }

  /** A task that finds the session in use to be of an older generation asks for a reconnect. */
  predicate FindsStale(s: State, step: Step) {
    && s.vars.active != s.vars.generation
    && match step
       case ClientLine(_) => true
       case LineUnparks(_) => true
       case AdoptionResumes(i) => i < |s.adoptions| && s.adoptions[i].stage.First?
       case _ => false
  }

  /** A reconnect begins exactly when none is running, stdin is open and a loss, a login or a stale session calls for one. */
  lemma {:induction false} ReconnectBeginsIff(s: State, step: Step)
    requires Enabled(s, step)
    ensures var s' := Apply(s, step);
            && (|s'.reconnects| != |s.reconnects|
                <==> s.promise.None? && !s.vars.stdinClosed && (Loses(step) || step.LoginCompletes? || FindsStale(s, step)))
            && (|s'.reconnects| != |s.reconnects| ==> |s'.reconnects| == |s.reconnects| + 1 && s'.promise == Some(|s.reconnects|))
  {
    match step
    case ClientLine(m) =>
      var s1 := Accepted(s, m);
      if s1.promise.None? {
        CheckBegins(s1, |s.lines|);
      }
    case LineUnparks(i) => CheckBegins(s, i);
    case _ => OthersBegin(s, step);
  }

  /** Whether a reconnect begins, and is then the one to wait for. */
  predicate Begins(s: State, s': State) {
    |s'.reconnects| == |s.reconnects| + 1 && s'.promise == Some(|s.reconnects|)
  }

  lemma {:induction false} CheckBegins(s: State, i: nat)
    requires i < |s.lines|
    ensures var s' := CheckGeneration(s, i);
            if s.vars.active != s.vars.generation && !s.vars.stdinClosed && s.promise.None? then Begins(s, s') else |s'.reconnects| == |s.reconnects|
  {
  }

  lemma {:induction false} OthersBegin(s: State, step: Step)
    requires Enabled(s, step) && !step.ClientLine? && !step.LineUnparks?
    ensures var s' := Apply(s, step);
            if s.promise.None? && !s.vars.stdinClosed && (Loses(step) || step.LoginCompletes? || FindsStale(s, step))
            then Begins(s, s') else |s'.reconnects| == |s.reconnects|
  {
  }

  /** A POST that is answered otherwise ends its line and does nothing else. */
  lemma {:induction false} AnsweredPostEnds(s: State, i: nat)
    requires Enabled(s, PostReturns(i, false))
    ensures var s' := Apply(s, PostReturns(i, false));
            i < |s'.lines| && s'.lines[i].stage.Ended? && s' == s.(lines := s'.lines)
            && |s'.lines| == |s.lines| && forall k | 0 <= k < |s.lines| && k != i :: s'.lines[k] == s.lines[k]
  {
  }

  lemma {:induction false} BackoffOpens(s: State, p: nat)
    requires Enabled(s, BackoffEnds(p)) && !s.vars.stdinClosed && |s.history| == s.vars.generation + 1
    ensures var s' := Apply(s, BackoffEnds(p));
            Publishes(s', p) && s'.vars == s.vars && s'.posts == s.posts
  {
  }

  /** `n` POSTs of body `p` return, one after the other. */
  function AllReturn(p: nat, n: nat): seq<Step> {
    seq(n, _ => ReplayReturns(p))
  }

  lemma {:induction false} AllReturnCount(p: nat, n: nat)
    ensures Returns(AllReturn(p, n), p) == n
  {
    if n > 0 {
      assert AllReturn(p, n)[..n - 1] == AllReturn(p, n - 1);
      AllReturnCount(p, n - 1);
    }
  }

  /** When the session is lost and no reconnect is running, a new one reaches its handshake with the current credentials. */
  lemma {:induction false} LossReopens(creds: Creds, steps: seq<Step>, lost: Step)
    requires var s := After(creds, steps); Loses(lost) && Enabled(s, lost) && !s.vars.stdinClosed && s.promise.None?
    ensures var s := After(creds, steps);
            var s' := After(creds, steps + [lost, BackoffEnds(|s.reconnects|)]);
            Publishes(s', |s.reconnects|) && s'.vars == s.vars && s'.posts == s.posts
  {
    var s := After(creds, steps);
    AfterStep(creds, steps, lost);
    LossIsNoticed(s, lost);
    Safe(creds, steps + [lost]);
    AfterStep(creds, steps + [lost], BackoffEnds(|s.reconnects|));
    BackoffOpens(After(creds, steps + [lost]), |s.reconnects|);
    assert steps + [lost, BackoffEnds(|s.reconnects|)] == (steps + [lost]) + [BackoffEnds(|s.reconnects|)];
  }

  /**
   * From every reachable state in which no reconnect is running and stdin is open: when the session is lost, a new one is
   * opened with the current credentials, and every request in flight is posted to it again, in order.
   */
  lemma {:induction false} LostSessionIsReplayed(creds: Creds, steps: seq<Step>, lost: Step)
    requires var s := After(creds, steps); Loses(lost) && Enabled(s, lost) && !s.vars.stdinClosed && s.promise.None?
    requires After(creds, steps).vars.inFlight != []
    ensures var s := After(creds, steps);
            var p, n := |s.reconnects|, |s.vars.inFlight|;
            var t := steps + [lost, BackoffEnds(p)] + [HandshakeOpens(p)] + AllReturn(p, n - 1) + [ReplayReturns(p)];
            Replays(After(creds, t).posts) == Replays(s.posts) + ReplayOf(s.vars.inFlight, Session(s.vars.creds, s.vars.generation))
  {
    var p, n := |After(creds, steps).reconnects|, |After(creds, steps).vars.inFlight|;
    LossReopens(creds, steps, lost);
    AllReturnCount(p, n - 1);
    ReplayEnds(creds, steps + [lost, BackoffEnds(p)], p, AllReturn(p, n - 1));
  }

  // ---- Nothing waits for a reconnect that does not exist ----

  predicate Known(s: State, on: Await) {
    on.Some? ==> on.value < |s.reconnects|
  }

  predicate LineWaits(s: State, l: Line) {
    match l.stage
    case Parked(p) => p < |s.reconnects|
    case Switching(on) => Known(s, on)
    case Recovering(on) => Known(s, on)
    case _ => true
  }

  predicate Waits(s: State) {
    && (forall i | 0 <= i < |s.lines| :: LineWaits(s, s.lines[i]))
    && (s.pump.Reopening? ==> Known(s, s.pump.on))
  }

  predicate NewLineWaits(s: State, s': State) {
    forall i | 0 <= i < |s'.lines| :: (i < |s.lines| && s'.lines[i] == s.lines[i]) || LineWaits(s', s'.lines[i])
  }

  lemma {:induction false} WaitsGrow(s: State, s': State)
    requires Waits(s) && |s.reconnects| <= |s'.reconnects| && NewLineWaits(s, s')
    requires s'.pump == s.pump || (s'.pump.Reopening? ==> Known(s', s'.pump.on))
    ensures Waits(s')
  {
    forall i | 0 <= i < |s'.lines| ensures LineWaits(s', s'.lines[i]) {
      if i < |s.lines| && s'.lines[i] == s.lines[i] {
        assert LineWaits(s, s.lines[i]);
      }
    }
  }

  lemma {:induction false} StepWaits(s: State, step: Step)
    requires SingleFlight(s) && Enabled(s, step)
    ensures var s' := Apply(s, step);
            && |s.reconnects| <= |s'.reconnects| && NewLineWaits(s, s')
            && (s'.pump == s.pump || (s'.pump.Reopening? ==> Known(s', s'.pump.on)))
  {
    match step
    case ClientLine(m) => AcceptedWaits(s, m);
    case LineUnparks(i) => CheckedWaits(s, i);
    case PostReturns(i, _) => RecoveringWaits(s, step);
    case LineSwitched(_) => PostingWaits(s, step);
    case LineRecovered(_) => PostingWaits(s, step);
    case _ => OtherWaits(s, step);
  }

  lemma {:induction false} CallKnown(s: State, immediate: bool)
    requires SingleFlight(s)
    ensures var (s1, on) := Call(s, immediate); Known(s1, on) && |s.reconnects| <= |s1.reconnects|
  {
  }

  lemma {:induction false} CheckedWaits(s: State, i: nat)
    requires SingleFlight(s) && i < |s.lines|
    ensures var s' := CheckGeneration(s, i); |s.reconnects| <= |s'.reconnects| && NewLineWaits(s, s') && s'.pump == s.pump
  {
    CallKnown(s, true);
  }

  lemma {:induction false} AcceptedWaits(s: State, m: Message)
    requires SingleFlight(s)
    ensures var s' := AcceptLine(s, m); |s.reconnects| <= |s'.reconnects| && NewLineWaits(s, s') && s'.pump == s.pump
  {
    var s1 := Accepted(s, m);
    if s1.promise.None? {
      CheckedWaits(s1, |s.lines|);
    }
  }

  lemma {:induction false} RecoveringWaits(s: State, step: Step)
    requires SingleFlight(s) && Enabled(s, step) && step.PostReturns?
    ensures var s' := Apply(s, step); |s.reconnects| <= |s'.reconnects| && NewLineWaits(s, s') && s'.pump == s.pump
  {
    CallKnown(s, false);
  }

  lemma {:induction false} PostingWaits(s: State, step: Step)
    requires Enabled(s, step) && (step.LineSwitched? || step.LineRecovered?)
    ensures var s' := Apply(s, step); s'.reconnects == s.reconnects && NewLineWaits(s, s') && s'.pump == s.pump
  {
  }

  lemma {:induction false} OtherWaits(s: State, step: Step)
    requires SingleFlight(s) && Enabled(s, step)
    requires !step.ClientLine? && !step.LineUnparks? && !step.PostReturns? && !step.LineSwitched? && !step.LineRecovered?
    ensures var s' := Apply(s, step);
            && |s.reconnects| <= |s'.reconnects| && s'.lines == s.lines
            && (s'.pump == s.pump || (s'.pump.Reopening? ==> Known(s', s'.pump.on)))
  {
  }

  lemma {:induction false} AllWait(creds: Creds, steps: seq<Step>)
    ensures Waits(After(creds, steps))
  {
    if steps != [] {
      var before, step := steps[..|steps| - 1], steps[|steps| - 1];
      AllWait(creds, before);
      Safe(creds, before);
      var s := After(creds, before);
      if Enabled(s, step) {
        StepWaits(s, step);
        WaitsGrow(s, Apply(s, step));
      }
    }
  }

  // ---- A reconnect that is waited for can always be settled ----

  predicate Settles(s: State, step: Step, q: nat) {
    Enabled(s, step) && WorksOn(step, q) && !step.HandshakeFails?
  }

  /** The steps are those of reconnect `q`, none of them a failed handshake. */
  predicate AllSettle(run: seq<Step> -> State, steps: seq<Step>, more: seq<Step>, q: nat)
    decreases |more|
  {
    more == [] || (Settles(run(steps), more[0], q) && AllSettle(run, steps + [more[0]], more[1..], q))
  }

  /** What reconnect `q` does leaves everyone who waits where they are. */
  predicate Bystanders(s: State, s': State) {
    s'.lines == s.lines && s'.pump == s.pump && s'.adoptions == s.adoptions && s'.vars.stdinClosed == s.vars.stdinClosed
    && s'.vars.creds == s.vars.creds && s'.vars.generation == s.vars.generation
  }

  /** The session of the current generation is in use, or reconnect `q` will open it. */
  predicate WillBeCurrent(s: State, q: nat) {
    s.vars.active == s.vars.generation || WillOpen(s, q)
  }

  lemma {:induction false} WorkLeavesOthers(s: State, step: Step, q: nat)
    requires Enabled(s, step) && WorksOn(step, q)
    ensures Bystanders(s, Apply(s, step)) && |Apply(s, step).reconnects| == |s.reconnects|
  {
  }

  lemma {:induction false} SettleOnce(creds: Creds, run: seq<Step> -> State, steps: seq<Step>, q: nat) returns (step: Step)
    requires IsRun(creds, run) && q < |run(steps).reconnects| && q !in run(steps).settled
    ensures Settles(run(steps), step, q)
    ensures var s, s' := run(steps), run(steps + [step]);
            && Bystanders(s, s') && q < |s'.reconnects| && Below(DriveRank(s', q), DriveRank(s, q))
            && (WillBeCurrent(s, q) ==> WillBeCurrent(s', q))
  {
    assert RunIs(creds, run, steps);
    Safe(creds, steps);
    var s := run(steps);
    assert BodyFits(s, s.reconnects[q]);
    match s.reconnects[q].body {
      case Backoff => step := BackoffEnds(q);
      case Opening(_) => step := HandshakeOpens(q);
      case Replaying(_, _) => step := ReplayReturns(q);
      case Closed(_) => step := CreatorSettles(q);
    }
    AfterStep(creds, steps, step);
    assert RunIs(creds, run, steps + [step]);
    WorkLeavesOthers(s, step, q);
    WorkDescends(s, step, q, 0);
    if WillBeCurrent(s, q) {
      SettleKeepsCurrent(s, step, q);
    }
  }

  lemma {:induction false} SettleKeepsCurrent(s: State, step: Step, q: nat)
    requires SingleFlight(s) && BodiesFit(s) && GenerationsFit(s) && q < |s.reconnects| && Settles(s, step, q) && WillBeCurrent(s, q)
    ensures WillBeCurrent(Apply(s, step), q)
  {
    if WillOpen(s, q) {
      WorkKeepsOpening(s, step, q);
    } else {
      StaysCurrent(s, step, q);
    }
  }

  lemma {:induction false} StaysCurrent(s: State, step: Step, q: nat)
    requires Settles(s, step, q) && s.vars.active == s.vars.generation
    ensures Apply(s, step).vars.active == Apply(s, step).vars.generation
  {
  }

  lemma {:induction false} SettleFrom(creds: Creds, run: seq<Step> -> State, steps: seq<Step>, q: nat) returns (more: seq<Step>)
    requires IsRun(creds, run) && q < |run(steps).reconnects|
    ensures AllSettle(run, steps, more, q) && q in run(steps + more).settled && Bystanders(run(steps), run(steps + more))
    ensures WillBeCurrent(run(steps), q) ==> WillBeCurrent(run(steps + more), q)
    decreases DriveRank(run(steps), q).stage, DriveRank(run(steps), q).level, DriveRank(run(steps), q).count
  {
    if q in run(steps).settled {
      more := [];
      assert steps + more == steps;
    } else {
      var step := SettleOnce(creds, run, steps, q);
      var rest := SettleFrom(creds, run, steps + [step], q);
      more := [step] + rest;
      assert steps + more == steps + [step] + rest && more[1..] == rest;
    }
  }

  lemma {:induction false} SettlingHelps(run: seq<Step> -> State, steps: seq<Step>, more: seq<Step>, q: nat)
    requires AllSettle(run, steps, more, q)
    ensures Helpful(run, steps, more)
    decreases |more|
  {
    if more != [] {
      SettlingHelps(run, steps + [more[0]], more[1..], q);
    }
  }

  lemma {:induction false} SettledIsClosed(creds: Creds, steps: seq<Step>, q: nat)
    requires q in After(creds, steps).settled
    ensures !InBody(After(creds, steps), q)
  {
    Safe(creds, steps);
    assert After(creds, steps).promise != Some(q);
  }

  /** A running reconnect, stdin being open, can always end with the session of the current generation in use. */
  lemma {:induction false} RunningReconnectCanPublish(creds: Creds, steps: seq<Step>, q: nat) returns (more: seq<Step>)
    requires InBody(After(creds, steps), q) && !After(creds, steps).vars.stdinClosed
    ensures AllSettle(Runs(creds), steps, more, q)
    ensures var s' := After(creds, steps + more); q in s'.settled && s'.vars.active == s'.vars.generation
  {
    var run := Runs(creds);
    forall t ensures RunIs(creds, run, t) { }
    Safe(creds, steps);
    more := SettleFrom(creds, run, steps, q);
    assert RunIs(creds, run, steps + more);
    SettledIsClosed(creds, steps + more, q);
  }

  // ---- The pump ----

  /** A pump that waits for a reconnect can always read again; once stdin is closed, it ends. */
  lemma {:induction false} PumpCanResume(creds: Creds, steps: seq<Step>) returns (more: seq<Step>)
    requires After(creds, steps).pump.Reopening?
    ensures Helpful(Runs(creds), steps, more + [PumpResumes])
    ensures After(creds, steps + (more + [PumpResumes])).pump == if After(creds, steps).vars.stdinClosed then PumpEnded else Reading
  {
    var run := Runs(creds);
    forall t ensures RunIs(creds, run, t) { }
    AllWait(creds, steps);
    var on := After(creds, steps).pump.on;
    more := [];
    if on.Some? {
      more := SettleFrom(creds, run, steps, on.value);
      SettlingHelps(run, steps, more, on.value);
    } else {
      assert steps + more == steps;
    }
    assert RunIs(creds, run, steps + more);
    AfterStep(creds, steps + more, PumpResumes);
    OneMoreHelps(run, steps, more, PumpResumes);
    assert steps + (more + [PumpResumes]) == (steps + more) + [PumpResumes];
  }

  lemma {:induction false} OneMoreHelps(run: seq<Step> -> State, steps: seq<Step>, more: seq<Step>, step: Step)
    requires Helpful(run, steps, more) && HelpfulStep(run(steps + more), step)
    ensures Helpful(run, steps, more + [step])
  {
    assert [step][1..] == [] && Helpful(run, steps + more, [step]);
    HelpfulJoin(run, steps, more, [step]);
  }

  // ---- Client lines ----

  predicate LineAt(s: State, i: nat, m: Message, account: string) {
    i < |s.lines| && s.lines[i].msg == m && s.lines[i].account == account
  }

  /** The last POST carries this request, with the current credentials, to the session in use. */
  predicate JustPosted(s: State, m: Message, account: string) {
    && s.posts != []
    && var last := s.posts[|s.posts| - 1];
       !last.kind.Replay? && last.msg == m && last.account == account && last.creds == s.vars.creds && last.session == s.vars.sse
  }

  /** The line waits before it has been posted. */
  predicate Unposted(s: State, i: nat, m: Message, account: string) {
    LineAt(s, i, m, account) && (s.lines[i].stage.Parked? || s.lines[i].stage.Switching?)
  }

  function Awaited(stage: LineStage): Await
    requires stage.Parked? || stage.Switching?
  {
    match stage
    case Parked(p) => Some(p)
    case Switching(on) => on
  }

  /** The step with which the line goes on once what it waits for is done. */
  function Continues(stage: LineStage, i: nat): Step {
    if stage.Parked? then LineUnparks(i) else LineSwitched(i)
  }

  /** Going on, a line is posted; only a parked one that finds another generation waits for one more reconnect. */
  lemma {:induction false} LineGoesOn(s: State, i: nat, m: Message, account: string)
    requires Unposted(s, i, m, account) && Done(s, Awaited(s.lines[i].stage))
    ensures var step := Continues(s.lines[i].stage, i);
            var s' := Apply(s, step);
            && Enabled(s, step)
            && (s.lines[i].stage.Switching? || s.vars.active == s.vars.generation ==>
                  JustPosted(s', m, account) && |s'.posts| == |s.posts| + 1)
            && (s.lines[i].stage.Parked? && s.vars.active != s.vars.generation ==>
                  Unposted(s', i, m, account) && s'.lines[i].stage.Switching? && s'.posts == s.posts)
  {
  }

  /** An accepted line is posted at once if no reconnect is running and the session is current, and waits otherwise. */
  lemma {:induction false} AcceptedGoesOn(s: State, m: Message)
    requires Enabled(s, ClientLine(m))
    ensures var s' := Apply(s, ClientLine(m));
            if s.promise.None? && s.vars.active == s.vars.generation
            then JustPosted(s', m, s.vars.creds.account) && |s'.posts| == |s.posts| + 1
            else Unposted(s', |s.lines|, m, s.vars.creds.account) && s'.posts == s.posts
  {
  }

  /** The line's wait can be ended without touching it. */
  lemma {:induction false} WaitCanEnd(creds: Creds, run: seq<Step> -> State, steps: seq<Step>, i: nat, m: Message, account: string)
    returns (more: seq<Step>)
    requires IsRun(creds, run) && Unposted(run(steps), i, m, account)
    ensures Helpful(run, steps, more) && Unposted(run(steps + more), i, m, account)
    ensures run(steps + more).lines[i] == run(steps).lines[i] && Done(run(steps + more), Awaited(run(steps).lines[i].stage))
  {
    assert RunIs(creds, run, steps);
    AllWait(creds, steps);
    assert LineWaits(run(steps), run(steps).lines[i]);
    var on := Awaited(run(steps).lines[i].stage);
    more := [];
    if on.Some? {
      more := SettleFrom(creds, run, steps, on.value);
      SettlingHelps(run, steps, more, on.value);
    } else {
      assert steps + more == steps;
    }
  }

  lemma {:induction false} LineCanGoOn(creds: Creds, run: seq<Step> -> State, steps: seq<Step>, i: nat, m: Message, account: string)
    returns (more: seq<Step>)
    requires IsRun(creds, run) && Unposted(run(steps), i, m, account)
    ensures Helpful(run, steps, more)
    ensures var s' := run(steps + more);
            JustPosted(s', m, account) || (run(steps).lines[i].stage.Parked? && Unposted(s', i, m, account) && s'.lines[i].stage.Switching?)
  {
    var first := WaitCanEnd(creds, run, steps, i, m, account);
    var step := Continues(run(steps).lines[i].stage, i);
    assert RunIs(creds, run, steps + first);
    LineGoesOn(run(steps + first), i, m, account);
    AfterStep(creds, steps + first, step);
    assert RunIs(creds, run, (steps + first) + [step]);
    OneMoreHelps(run, steps, first, step);
    more := first + [step];
    assert steps + more == (steps + first) + [step];
  }

  lemma {:induction false} LineCanBePostedIn(creds: Creds, run: seq<Step> -> State, steps: seq<Step>, i: nat, m: Message, account: string)
    returns (more: seq<Step>)
    requires IsRun(creds, run) && Unposted(run(steps), i, m, account)
    ensures Helpful(run, steps, more) && JustPosted(run(steps + more), m, account)
    decreases run(steps).lines[i].stage.Parked?
  {
    more := LineCanGoOn(creds, run, steps, i, m, account);
    if !JustPosted(run(steps + more), m, account) {
      var rest := LineCanBePostedIn(creds, run, steps + more, i, m, account);
      HelpfulJoin(run, steps, more, rest);
      assert steps + (more + rest) == steps + more + rest;
      more := more + rest;
    }
  }

  /**
   * Whatever state the bridge is in when it accepts a client's line, a continuation without a login, a failed handshake or
   * the end of stdin posts it, with the credentials and to the session then in use.
   */
  lemma {:induction false} AcceptedLineCanBePosted(creds: Creds, steps: seq<Step>, m: Message) returns (more: seq<Step>)
    requires Enabled(After(creds, steps), ClientLine(m))
    ensures Helpful(Runs(creds), steps + [ClientLine(m)], more)
    ensures JustPosted(After(creds, steps + [ClientLine(m)] + more), m, After(creds, steps).vars.creds.account)
  {
    var run, t := Runs(creds), steps + [ClientLine(m)];
    forall t ensures RunIs(creds, run, t) { }
    var s := After(creds, steps);
    AfterStep(creds, steps, ClientLine(m));
    AcceptedGoesOn(s, m);
    assert RunIs(creds, run, t);
    if JustPosted(run(t), m, s.vars.creds.account) {
      more := [];
      assert t + more == t;
    } else {
      more := LineCanBePostedIn(creds, run, t, |s.lines|, m, s.vars.creds.account);
      assert RunIs(creds, run, t + more);
    }
  }
}
