/** The bridge's tasks: which stretch of code may run when, and what every reachable state satisfies. */
module BridgeProtocol {
  import opened Outcomes
  import opened Bridge

  /** Where a reconnect body stands; Closed(None) ended without publishing its last session. */
  datatype Body =
    | Backoff
    | Opening(generation: nat)
    | Replaying(generation: nat, rest: seq<Entry>)
    | Closed(published: Option<nat>)

  /**
   * A reconnect promise. `began`, `failedBefore` and `turns` record the generation and the number of failed handshakes
   * when it started, and how often its loop has opened a stream.
   */
  datatype Reconnect = Reconnect(body: Body, began: nat, failedBefore: nat, turns: nat)

  /** What a task awaits: a reconnect promise, or nothing if reconnect() returned at once because stdin is closed. */
  type Await = Option<nat>

  datatype LineStage =
    | Parked(promise: nat)      // awaiting the reconnect that was active when the line arrived
    | Switching(on: Await)      // awaiting its own reconnect after finding the generations different
    | Posting
    | Recovering(on: Await)     // awaiting the reconnect after a 404
    | Ended

  /** A client line being forwarded; `account` and `at` are the account and the length of stdout when it was accepted. */
  datatype Line = Line(msg: Message, account: string, at: nat, stage: LineStage)

  datatype AdoptionStage = First(on: Await) | Second(on: Await) | Returned(agreed: bool)

  /** A login's adoptCredentials; `target` is the generation it made, `failedBefore` the failed handshakes until then. */
  datatype Adoption = Adoption(target: nat, failedBefore: nat, stage: AdoptionStage)

  datatype PumpStage = Reading | Reopening(on: Await) | PumpEnded

  datatype PostKind = Replay | Matched | Unmatched

  /** A POST: the session it goes to, the credentials it carries, the request and the account that was accepted under. */
  datatype Post = Post(kind: PostKind, session: Session, creds: Creds, msg: Message, account: string, at: nat)

  datatype State = State(
    vars: Vars,
    promise: Option<nat>,         // reconnectPromise
    reconnects: seq<Reconnect>,
    settled: set<nat>,            // promises whose creator has run its finally block
    lines: seq<Line>,
    adoptions: seq<Adoption>,
    pump: PumpStage,
    posts: seq<Post>,
    failures: nat,
    history: seq<Creds>,          // the credentials of every generation
    accepted: map<Id, nat>)       // length of stdout when the id was last accepted

  function Start(creds: Creds): State {
    State(Vars(creds, 0, 0, Session(creds, 0), false, [], {}, []), None, [], {}, [], [], Reading, [], 0, [creds], map[])
  }

  // ---- The reconnect body ----

  /** Only promises and bodies differ. */
  predicate SameButReconnects(s: State, s': State) {
    s' == s.(promise := s'.promise, reconnects := s'.reconnects)
  }

  function SetBody(s: State, p: nat, b: Body): State
    requires p < |s.reconnects|
  {
    s.(reconnects := s.reconnects[p := s.reconnects[p].(body := b)])
  }

  /** The head of the reopen loop: read the credentials and open a stream, unless stdin is closed. */
  function LoopHead(s: State, p: nat): State
    requires p < |s.reconnects|
  {
    if s.vars.stdinClosed then SetBody(s, p, Closed(None))
    else s.(reconnects := s.reconnects[p := s.reconnects[p].(body := Opening(s.vars.generation), turns := s.reconnects[p].turns + 1)])
  }

  /** reconnect(): join the active one or start a new one. */
  function Call(s: State, immediate: bool): (r: (State, Await))
    ensures SameButReconnects(s, r.0) && |s.reconnects| <= |r.0.reconnects|
    ensures forall q | 0 <= q < |s.reconnects| :: r.0.reconnects[q] == s.reconnects[q]
  {
    if s.vars.stdinClosed then (s, None)
    else if s.promise.Some? then (s, s.promise)
    else
      var p := |s.reconnects|;
      var s1 := s.(promise := Some(p), reconnects := s.reconnects + [Reconnect(Backoff, s.vars.generation, s.failures, 0)]);
      (if immediate then LoopHead(s1, p) else s1, Some(p))
  }

  /** The replay loop from its next entry: post it, or finish with the final generation check. */
  function ReplayNext(s: State, p: nat, generation: nat, rest: seq<Entry>): State
    requires p < |s.reconnects| && generation < |s.history|
  {
    if rest != [] then
      var e := rest[0];
      var post := Post(Replay, s.vars.sse, s.history[generation], e.msg, e.account, 0);
      SetBody(s.(posts := s.posts + [post]), p, Replaying(generation, rest[1..]))
    else if generation != s.vars.generation then LoopHead(s, p)
    else SetBody(s, p, Closed(Some(generation)))
  }

  /** The handshake answered: publish the session and replay, unless a login has come in between. */
  function Opened(s: State, p: nat): State
    requires p < |s.reconnects| && s.reconnects[p].body.Opening? && s.reconnects[p].body.generation < |s.history|
  {
    var g := s.reconnects[p].body.generation;
    if g != s.vars.generation then LoopHead(s, p)
    else
      var s1 := s.(vars := Publish(s.vars, Session(s.history[g], g)));
      ReplayNext(s1, p, g, s1.vars.inFlight)
  }

  // ---- Client lines and logins ----

  function SetLine(s: State, i: nat, stage: LineStage): State
    requires i < |s.lines|
  {
    s.(lines := s.lines[i := s.lines[i].(stage := stage)])
  }

  function PostLine(s: State, i: nat, kind: PostKind): State
    requires i < |s.lines|
  {
    var l := s.lines[i];
    SetLine(s.(posts := s.posts + [Post(kind, s.vars.sse, s.vars.creds, l.msg, l.account, l.at)]), i, Posting)
  }

  /** From the generation check on: post at once if the active session is current, otherwise reconnect first. */
  function CheckGeneration(s: State, i: nat): State
    requires i < |s.lines|
  {
    if s.vars.active != s.vars.generation then
      var (s1, on) := Call(s, true);
      SetLine(s1, i, Switching(on))
    else PostLine(s, i, Matched)
  }

  /** Accepting a line, before anything is awaited. */
  function Accepted(s: State, m: Message): State {
    s.(vars := Accept(s.vars, m),
       lines := s.lines + [Line(m, s.vars.creds.account, |s.vars.stdout|, Ended)],
       accepted := if Tracked(m) then s.accepted[m.id.value := |s.vars.stdout|] else s.accepted)
  }

  function AcceptLine(s: State, m: Message): State {
    var s1 := Accepted(s, m);
    var i := |s.lines|;
    if s1.promise.Some? then SetLine(s1, i, Parked(s1.promise.value)) else CheckGeneration(s1, i)
  }

  function Adopted(s: State, next: Creds): State {
    s.(vars := Adopt(s.vars, next), history := s.history + [next])
  }

  function Login(s: State, next: Creds): State {
    var s1 := Adopted(s, next);
    var (s2, on) := Call(s1, true);
    s2.(adoptions := s2.adoptions + [Adoption(s1.vars.generation, s.failures, First(on))])
  }

  function SetAdoption(s: State, i: nat, stage: AdoptionStage): State
    requires i < |s.adoptions|
  {
    s.(adoptions := s.adoptions[i := s.adoptions[i].(stage := stage)])
  }

  function ResumeAdoption(s: State, i: nat): State
    requires i < |s.adoptions|
  {
    var agreed := s.vars.active == s.vars.generation;
    if s.adoptions[i].stage.First? && !agreed then
      var (s1, on) := Call(s, true);
      SetAdoption(s1, i, Second(on))
    else SetAdoption(s, i, Returned(agreed))
  }

  // ---- Steps ----

  datatype Step =
    | ClientLine(msg: Message)          // a line to be forwarded, its default namespace filled in
    | WriteLocal(out: Out)              // a locally served tool answers
    | LineUnparks(line: nat)
    | LineSwitched(line: nat)
    | PostReturns(line: nat, notFound: bool)
    | LineRecovered(line: nat)
    | LoginCompletes(next: Creds)
    | AdoptionResumes(adoption: nat)
    | BackoffEnds(promise: nat)
    | HandshakeOpens(promise: nat)
    | HandshakeFails(promise: nat)
    | ReplayReturns(promise: nat)
    | CreatorSettles(promise: nat)
    | Delivered(message: Incoming)
    | StreamEnds
    | PumpResumes
    | StdinCloses

  /** The creator's finally block is the first reaction of its promise: everyone else resumes after it. */
  predicate Done(s: State, on: Await) {
    on.Some? ==> on.value in s.settled
  }

  predicate InBody(s: State, p: nat) {
    p < |s.reconnects| && !s.reconnects[p].body.Closed?
  }

  predicate Enabled(s: State, step: Step) {
    match step
    case ClientLine(_) => !s.vars.stdinClosed
    case WriteLocal(out) => out.content.Local?
    case LineUnparks(i) => i < |s.lines| && s.lines[i].stage.Parked? && Done(s, Some(s.lines[i].stage.promise))
    case LineSwitched(i) => i < |s.lines| && s.lines[i].stage.Switching? && Done(s, s.lines[i].stage.on)
    case PostReturns(i, _) => i < |s.lines| && s.lines[i].stage.Posting?
    case LineRecovered(i) => i < |s.lines| && s.lines[i].stage.Recovering? && Done(s, s.lines[i].stage.on)
    case LoginCompletes(_) => true
    case AdoptionResumes(i) =>
      i < |s.adoptions| && (s.adoptions[i].stage.First? || s.adoptions[i].stage.Second?) && Done(s, s.adoptions[i].stage.on)
    case BackoffEnds(p) => p < |s.reconnects| && s.reconnects[p].body.Backoff?
    case HandshakeOpens(p) => p < |s.reconnects| && s.reconnects[p].body.Opening? && s.reconnects[p].body.generation < |s.history|
    case HandshakeFails(p) => p < |s.reconnects| && s.reconnects[p].body.Opening?
    case ReplayReturns(p) => p < |s.reconnects| && s.reconnects[p].body.Replaying? && s.reconnects[p].body.generation < |s.history|
    case CreatorSettles(p) => p < |s.reconnects| && s.reconnects[p].body.Closed? && p !in s.settled
    case Delivered(_) => s.pump.Reading?
    case StreamEnds => s.pump.Reading?
    case PumpResumes => s.pump.Reopening? && Done(s, s.pump.on)
    case StdinCloses => true
  }

  function Apply(s: State, step: Step): State
    requires Enabled(s, step)
  {
    match step
    case ClientLine(m) => AcceptLine(s, m)
    case WriteLocal(out) => s.(vars := s.vars.(stdout := s.vars.stdout + [out]))
    case LineUnparks(i) => CheckGeneration(s, i)
    case LineSwitched(i) => PostLine(s, i, Unmatched)
    case PostReturns(i, notFound) =>
      if !notFound then SetLine(s, i, Ended)
      else
        var (s1, on) := Call(s, false);
        SetLine(s1, i, Recovering(on))
    case LineRecovered(i) => SetLine(s, i, Ended)
    case LoginCompletes(next) => Login(s, next)
    case AdoptionResumes(i) => ResumeAdoption(s, i)
    case BackoffEnds(p) => LoopHead(s, p)
    case HandshakeOpens(p) => Opened(s, p)
    case HandshakeFails(p) => SetBody(s.(failures := s.failures + 1), p, Closed(None))
    case ReplayReturns(p) => ReplayNext(s, p, s.reconnects[p].body.generation, s.reconnects[p].body.rest)
    case CreatorSettles(p) => s.(promise := None, settled := s.settled + {p})
    case Delivered(m) => s.(vars := Deliver(s.vars, m))
    case StreamEnds =>
      if s.vars.stdinClosed then s.(pump := PumpEnded)
      else
        var (s1, on) := Call(s, false);
        s1.(pump := Reopening(on))
    case PumpResumes => s.(pump := if s.vars.stdinClosed then PumpEnded else Reading)
    case StdinCloses => s.(vars := s.vars.(stdinClosed := true))
  }

  /** The state after a sequence of steps; a step that is not possible when its turn comes changes nothing. */
  function After(creds: Creds, steps: seq<Step>): State {
    if steps == [] then Start(creds)
    else
      var s := After(creds, steps[..|steps| - 1]);
      var step := steps[|steps| - 1];
      if Enabled(s, step) then Apply(s, step) else s
  }

  // ---- The invariant ----

  /** Generations count logins, and the active session was opened with the credentials of its generation. */
  predicate GenerationsFit(s: State) {
    var v := s.vars;
    && |s.history| == v.generation + 1 && s.history[v.generation] == v.creds
    && v.active <= v.generation && v.sse == Session(s.history[v.active], v.active)
  }

  /** At most one reconnect body is running: the one whose promise is set. */
  predicate SingleFlight(s: State) {
    && (s.promise.Some? ==> s.promise.value + 1 == |s.reconnects| && s.promise.value !in s.settled)
    && (forall p: nat | p < |s.reconnects| && s.promise != Some(p) :: p in s.settled && s.reconnects[p].body.Closed?)
    && (forall p | p in s.settled :: p < |s.reconnects|)
  }

  /** A running body works for a generation that existed; the session it published is still the active one. */
  predicate BodyFits(s: State, r: Reconnect) {
    && r.began <= s.vars.generation && r.failedBefore <= s.failures
    && match r.body
       case Backoff => r.turns == 0
       case Opening(g) => r.began <= g <= s.vars.generation && r.turns <= 1 + g - r.began
       case Replaying(g, rest) =>
         && r.began <= g <= s.vars.generation && r.turns <= 1 + g - r.began && s.vars.active == g
         && |s.history| == s.vars.generation + 1
         && forall e | e in rest :: e.account == s.history[g].account
       case Closed(Some(g)) => r.began <= g <= s.vars.active && r.turns <= 1 + g - r.began
       case Closed(None) => (s.vars.stdinClosed || r.failedBefore < s.failures) && r.turns <= 1 + s.vars.generation - r.began
  }

  predicate BodiesFit(s: State) {
    forall p | 0 <= p < |s.reconnects| :: BodyFits(s, s.reconnects[p])
  }

  /** Everything in flight was accepted under the current account. */
  predicate InFlightFits(s: State) {
    forall e | e in s.vars.inFlight :: e.account == s.vars.creds.account
  }

  /** A relayed response, or the error that the account has changed. */
  predicate Answers(out: Out, id: Id) {
    out.id == Some(id) && match out.content
                          case AccountChanged => true
                          case Forwarded(m) => m.hasResult || m.hasError
                          case Local(_) => false
  }

  /** The client has been written an answer with this id since stdout had length `at`. */
  predicate Told(stdout: seq<Out>, id: Id, at: nat) {
    exists k | at <= k < |stdout| :: Answers(stdout[k], id)
  }

  predicate AcceptedFit(s: State) {
    forall id | id in s.accepted ::
      s.accepted[id] <= |s.vars.stdout| && (HasId(s.vars.inFlight, id) || Told(s.vars.stdout, id, s.accepted[id]))
  }

  /** A request still under way belongs to the current account, or its sender has been told about it. */
  predicate LineFits(s: State, l: Line) {
    l.at <= |s.vars.stdout|
    && (Tracked(l.msg) ==>
          && l.msg.id.value in s.accepted && l.at <= s.accepted[l.msg.id.value]
          && (l.account == s.vars.creds.account || Told(s.vars.stdout, l.msg.id.value, l.at)))
  }

  predicate LinesFit(s: State) {
    forall i | 0 <= i < |s.lines| :: LineFits(s, s.lines[i])
  }

  predicate PostFits(s: State, p: Post) {
    match p.kind
    case Replay => p.session.creds == p.creds && p.account == p.session.creds.account
    case Matched => p.session.creds == p.creds && LateFits(s, p)
    case Unmatched => LateFits(s, p)
  }

  /** A direct POST under another account than its request was accepted under is one the client was warned about. */
  predicate LateFits(s: State, p: Post) {
    Tracked(p.msg) ==> p.account == p.creds.account || Told(s.vars.stdout, p.msg.id.value, p.at)
  }

  predicate PostsFit(s: State) {
    forall i | 0 <= i < |s.posts| :: PostFits(s, s.posts[i])
  }

  /** Reconnects that started after an adoption joined its first one started at its generation or later. */
  predicate AdoptionFits(s: State, a: Adoption) {
    && a.target <= s.vars.generation && a.failedBefore <= s.failures
    && match a.stage
       case First(None) => s.vars.stdinClosed
       case First(Some(p)) =>
         p < |s.reconnects| && forall q | p < q < |s.reconnects| ::
           a.target <= s.reconnects[q].began && a.failedBefore <= s.reconnects[q].failedBefore
       case Second(None) => s.vars.stdinClosed
       case Second(Some(q)) =>
         q < |s.reconnects| && a.target <= s.reconnects[q].began && a.failedBefore <= s.reconnects[q].failedBefore
       case Returned(_) => true
  }

  predicate AdoptionsFit(s: State) {
    forall i | 0 <= i < |s.adoptions| :: AdoptionFits(s, s.adoptions[i])
  }

  predicate DataInv(s: State) {
    GenerationsFit(s) && InFlightFits(s) && AcceptedFit(s) && LinesFit(s) && PostsFit(s)
  }

  predicate ControlInv(s: State) {
    SingleFlight(s) && BodiesFit(s) && AdoptionsFit(s)
  }

  // ---- The reconnect body keeps the invariant ----

  /** Changing one running body, keeping its counters, keeps everything about the other promises. */
  lemma {:induction false} SetBodyKeeps(s: State, p: nat, r: Reconnect)
    requires ControlInv(s) && s.promise == Some(p) && p < |s.reconnects|
    requires r.began == s.reconnects[p].began && r.failedBefore == s.reconnects[p].failedBefore && BodyFits(s, r)
    ensures ControlInv(s.(reconnects := s.reconnects[p := r]))
  {
  }

  /** A body that has fallen behind, or has not opened anything yet, may go to the head of its loop. */
  lemma {:induction false} LoopHeadKeeps(s: State, p: nat)
    requires ControlInv(s) && s.promise == Some(p) && p < |s.reconnects|
    requires s.reconnects[p].began <= s.vars.generation && s.reconnects[p].failedBefore <= s.failures
    requires s.reconnects[p].turns <= s.vars.generation - s.reconnects[p].began
    ensures ControlInv(LoopHead(s, p))
  {
  }

  lemma {:induction false} CallKeeps(s: State, immediate: bool)
    requires ControlInv(s)
    ensures var (s1, on) := Call(s, immediate);
            && ControlInv(s1)
            && (on.None? <==> s.vars.stdinClosed)
            && (on.Some? ==> s1.promise == on && on.value + 1 == |s1.reconnects|)
            && (s1.reconnects == s.reconnects || |s1.reconnects| == |s.reconnects| + 1)
            && (on.Some? && on != s.promise ==>
                  s1.reconnects[on.value].began == s.vars.generation && s1.reconnects[on.value].failedBefore == s.failures)
  {
  }

  lemma {:induction false} ReplayNextKeeps(s: State, p: nat, g: nat, rest: seq<Entry>)
    requires DataInv(s) && ControlInv(s) && s.promise == Some(p) && p < |s.reconnects| && g < |s.history|
    requires var r := s.reconnects[p]; r.began <= g && r.turns <= 1 + g - r.began && r.failedBefore <= s.failures
    requires s.vars.active == g && forall e | e in rest :: e.account == s.history[g].account
    ensures ControlInv(ReplayNext(s, p, g, rest)) && DataInv(ReplayNext(s, p, g, rest))
  {
    if rest != [] {
      ReplayPostKeeps(s, p, g, rest);
    } else if g != s.vars.generation {
      LoopHeadKeeps(s, p);
      DataOnly(s, LoopHead(s, p));
    } else {
      SetBodyKeeps(s, p, s.reconnects[p].(body := Closed(Some(g))));
      DataOnly(s, SetBody(s, p, Closed(Some(g))));
    }
  }

  lemma {:induction false} DataOnly(s: State, s': State)
    requires DataInv(s) && SameButReconnects(s, s')
    ensures DataInv(s')
  {
  }

  lemma {:induction false} ReplayPostKeeps(s: State, p: nat, g: nat, rest: seq<Entry>)
    requires DataInv(s) && ControlInv(s) && s.promise == Some(p) && p < |s.reconnects| && g < |s.history| && rest != []
    requires var r := s.reconnects[p]; r.began <= g && r.turns <= 1 + g - r.began && r.failedBefore <= s.failures
    requires s.vars.active == g && forall e | e in rest :: e.account == s.history[g].account
    ensures ControlInv(ReplayNext(s, p, g, rest)) && DataInv(ReplayNext(s, p, g, rest))
  {
    var e := rest[0];
    var post := Post(Replay, s.vars.sse, s.history[g], e.msg, e.account, 0);
    assert e in rest && forall x | x in rest[1..] :: x in rest;
    var s1 := s.(posts := s.posts + [post]);
    PostAppended(s, post);
    ControlOnly(s, s1);
    SetBodyKeeps(s1, p, s.reconnects[p].(body := Replaying(g, rest[1..])));
    DataOnly(s1, SetBody(s1, p, Replaying(g, rest[1..])));
  }

  lemma {:induction false} PostAppended(s: State, post: Post)
    requires DataInv(s) && PostFits(s, post)
    ensures DataInv(s.(posts := s.posts + [post]))
  {
  }

  /** The control part does not look at lines, posts, the pump or what is accepted; it tolerates progress of the rest. */
  lemma {:induction false} ControlOnly(s: State, s': State)
    requires ControlInv(s) && s'.promise == s.promise && s'.reconnects == s.reconnects && s'.settled == s.settled
    requires s'.adoptions == s.adoptions && s.failures == s'.failures && s'.history == s.history
    requires s'.vars.generation == s.vars.generation && s'.vars.active == s.vars.active
    requires s.vars.stdinClosed ==> s'.vars.stdinClosed
    ensures ControlInv(s')
  {
  }

  lemma {:induction false} OpenedKeeps(s: State, p: nat)
    requires DataInv(s) && ControlInv(s) && s.promise == Some(p)
    requires p < |s.reconnects| && s.reconnects[p].body.Opening? && s.reconnects[p].body.generation < |s.history|
    ensures ControlInv(Opened(s, p)) && DataInv(Opened(s, p))
  {
    var g := s.reconnects[p].body.generation;
    assert BodyFits(s, s.reconnects[p]);
    if g != s.vars.generation {
      LoopHeadKeeps(s, p);
      DataOnly(s, LoopHead(s, p));
    } else {
      PublishKeeps(s, p);
      var s1 := s.(vars := Publish(s.vars, Session(s.history[g], g)));
      ReplayNextKeeps(s1, p, g, s1.vars.inFlight);
    }
  }

  lemma {:induction false} PublishKeeps(s: State, p: nat)
    requires DataInv(s) && ControlInv(s) && s.promise == Some(p)
    requires p < |s.reconnects| && s.reconnects[p].body == Opening(s.vars.generation)
    ensures var s1 := s.(vars := Publish(s.vars, Session(s.history[s.vars.generation], s.vars.generation)));
            ControlInv(s1) && DataInv(s1)
  {
  }
}
