/**
 * The journaled payout as a protocol: any number of runs, each a process with its own journal file, interleaved with
 * the chain and with RPC answers that may be lost, late or evasive. A run may crash between any two of its steps.
 */
module FundingProtocol {
  import opened Outcomes
  import opened Hex
  import opened Manifest

  type Bytes = seq<byte>

  const MAX_AGE_MS := 900000
  const FUTURE_SKEW_MS := 60000

  /** What all runs of a lineage share: the transaction check, the digest function and the checked-in manifest. */
  datatype Setting = Setting(accepts: Bytes -> bool, digest: Bytes -> string, writers: Writers)

  datatype Snapshot = Snapshot(collectedAt: int, writers: Writers)

  datatype Status = Simulated | Prepared | Succeeded | Failed

  datatype Journal = Journal(status: Status, bytes: Bytes, signature: string, digest: string, snapshot: Snapshot)

  /** A transaction in an RPC answer; None stands for a missing or non-boolean status. */
  datatype Observed = Observed(digest: string, success: Option<bool>)

  datatype Answer = Found(tx: Observed) | NotFound | Nothing | RpcError

  datatype Stage =
    | Building                           // fresh run, before signing
    | Parsing(supplied: Journal)         // resumed run, before its journal is checked
    | Writing(next: Journal, terminal: bool)
    | Looking                            // getTransaction was called
    | Submitted                          // executeTransaction was called
    | Finished
    | Stopped                            // threw, was refused, or crashed

  /** `disk` holds every contents a crash could now leave at the run's journal path. */
  datatype Run = Run(stage: Stage, live: Snapshot, prepareOnly: bool, journal: Option<Journal>, disk: set<Option<Journal>>)

  datatype Event =
    | Durable(run: nat, journal: Journal)
    | ConfirmedMissing(run: nat, digest: string)
    | Submission(run: nat, bytes: Bytes, signature: string, digest: string, at: int, live: Snapshot, disk: set<Option<Journal>>)

  /**
   * `signed` is everything the funder key ever signed, `mempool` what was submitted and may still execute at any time,
   * `ledger` what executed, `outcome` with what status; `written` are the journals any run wrote, and `misled` says
   * that some run persisted a supplied journal whose terminal status was not the chain's.
   */
  datatype World = World(
    now: int,
    preparations: nat,
    signed: set<(Bytes, string)>,
    mempool: set<Bytes>,
    ledger: seq<Bytes>,
    outcome: map<string, bool>,
    runs: map<nat, Run>,
    written: set<Journal>,
    misled: bool,
    log: seq<Event>)

  // ---- One run's decisions ----

  /** reconcileLiveWriters: fresh enough, not from the future, and exactly the manifest's writers and wallets in order. */
  predicate Reconciles(s: Setting, live: Snapshot, now: int) {
    now - live.collectedAt <= MAX_AGE_MS && now - live.collectedAt >= -FUTURE_SKEW_MS && live.writers == s.writers
  }

  /** parseFundingJournal, the intent being the lineage's own; signatures verify when the key made them. */
  ghost predicate Parses(s: Setting, signed: set<(Bytes, string)>, j: Journal) {
    && j.status != Simulated
    && j.snapshot.writers == s.writers
    && j.digest == s.digest(j.bytes)
    && s.accepts(j.bytes)
    && (j.bytes, j.signature) in signed
  }

  /** recordObservedTransaction: the journal to write, unless the answer is for another digest or has no status. */
  function Recorded(j: Journal, tx: Observed): Option<Journal> {
    if tx.digest != j.digest || tx.success.None? then None
    else Some(j.(status := if tx.success.value then Succeeded else Failed))
  }

  function StartWriting(r: Run, j: Journal, terminal: bool): Run {
    r.(stage := Writing(j, terminal), journal := Some(j), disk := r.disk + {Some(j)})
  }

  function Stop(r: Run): Run { r.(stage := Stopped) }

  function Record(r: Run, tx: Observed): Run
    requires r.journal.Some?
  {
    match Recorded(r.journal.value, tx)
    case None => Stop(r)
    case Some(j) => StartWriting(r, j, true)
  }

  /** reconcileAndExecuteFunding up to its next await, once the lookup has answered. */
  function AfterLookup(s: Setting, r: Run, answer: Answer, now: int): Run
    requires r.journal.Some?
  {
    match answer
    case Found(tx) => Record(r, tx)
    case Nothing => Stop(r)
    case RpcError => Stop(r)
    case NotFound =>
      if r.journal.value.status != Prepared || !Reconciles(s, r.live, now) then Stop(r)
      else r.(stage := Submitted)
  }

  function AfterSubmission(r: Run, answer: Answer): Run
    requires r.journal.Some?
  {
    if answer.Found? then Record(r, answer.tx) else Stop(r)
  }

  function AfterWrite(r: Run): Run
    requires r.stage.Writing?
  {
    r.(disk := {Some(r.stage.next)},
       stage := if r.stage.terminal || r.prepareOnly then Finished else Looking)
  }

  /** main after signing: the write-ahead journal, unless the bytes fail the check. */
  function AfterSigning(s: Setting, r: Run, bytes: Bytes, signature: string): Run {
    if !s.accepts(bytes) then Stop(r)
    else StartWriting(r, Journal(Prepared, bytes, signature, s.digest(bytes), r.live), false)
  }

  /** main resuming: the supplied journal is persisted again, under the live snapshot, before anything else. */
  ghost function AfterParsing(s: Setting, signed: set<(Bytes, string)>, r: Run, supplied: Journal, now: int): Run {
    if !Parses(s, signed, supplied) || !Reconciles(s, r.live, now) then Stop(r)
    else StartWriting(r, supplied.(snapshot := r.live), false)
  }

  /** A run as the script holds it: variables that change as the awaits return. */
  class FundingRun {
    var stage: Stage
    var live: Snapshot
    var prepareOnly: bool
    var journal: Option<Journal>
    var disk: set<Option<Journal>>

    function View(): Run
      reads this
    {
      Run(stage, live, prepareOnly, journal, disk)
    }

    method BeginWrite(j: Journal, terminal: bool)
      modifies this
      ensures View() == StartWriting(old(View()), j, terminal)
    {
      journal := Some(j);
      disk := disk + {Some(j)};
      stage := Writing(j, terminal);
    }

    /** Only a definite answer about the journal's own digest is recorded, and nothing but the status changes. */
    method RecordObserved(tx: Observed)
      requires journal.Some?
      modifies this
      ensures View() == Record(old(View()), tx)
      ensures stage.Writing? <==> tx.digest == old(journal).value.digest && tx.success.Some?
      ensures stage.Writing? ==> stage.terminal && journal == Some(stage.next) && disk == old(disk) + {journal}
      ensures stage.Writing? ==> stage.next.status == if tx.success.value then Succeeded else Failed
      ensures !stage.Writing? ==> stage.Stopped? && journal == old(journal) && disk == old(disk)
      ensures journal.Some? && SameTransaction(journal.value, old(journal).value)
    {
      var j := journal.value;
      if tx.digest != j.digest || tx.success.None? {
        stage := Stopped;
        return;
      }
      BeginWrite(j.(status := if tx.success.value then Succeeded else Failed), true);
    }

    /** From the answer of getTransaction to the call of executeTransaction. */
    method LookupAnswered(s: Setting, answer: Answer, now: int)
      requires journal.Some?
      modifies this
      ensures View() == AfterLookup(s, old(View()), answer, now)
      ensures stage.Submitted? <==> answer.NotFound? && old(journal).value.status == Prepared && Reconciles(s, live, now)
      ensures stage.Submitted? ==> journal == old(journal) && disk == old(disk)
      ensures stage.Submitted? || stage.Stopped? || (stage.Writing? && stage.terminal && answer.Found?)
      ensures journal.Some? && SameTransaction(journal.value, old(journal).value) && old(disk) <= disk
    {
      var confirmedNotFound := false;
      match answer {
        case RpcError => stage := Stopped; return;
        case NotFound => confirmedNotFound := true;
        case Found(tx) => RecordObserved(tx); return;
        case Nothing =>
      }
      if !confirmedNotFound { stage := Stopped; return; }
      if journal.value.status != Prepared { stage := Stopped; return; }
      if !Reconciles(s, live, now) { stage := Stopped; return; }
      stage := Submitted;
    }

    /** A submission is never repeated: its outcome is recorded, or the run stops with its journal as it was. */
    method SubmissionAnswered(answer: Answer)
      requires journal.Some?
      modifies this
      ensures View() == AfterSubmission(old(View()), answer)
      ensures (stage.Writing? && stage.terminal && answer.Found?) || (stage.Stopped? && journal == old(journal) && disk == old(disk))
      ensures journal.Some? && SameTransaction(journal.value, old(journal).value) && old(disk) <= disk
    {
      match answer {
        case Found(tx) => RecordObserved(tx);
        case _ => stage := Stopped;
      }
    }

    method WriteReturned()
      requires stage.Writing?
      modifies this
      ensures View() == AfterWrite(old(View()))
      ensures disk == {Some(old(stage).next)} && journal == old(journal)
      ensures stage.Looking? <==> !old(stage).terminal && !prepareOnly
      ensures !stage.Looking? ==> stage.Finished?
    {
      disk := {Some(stage.next)};
      stage := if stage.terminal || prepareOnly then Finished else Looking;
    }

    /**
     * reconcileAndExecuteFunding: the answer to the lookup, the time then, the answer to the submission if there is one,
     * and whether the write of the outcome throws. Whatever they are, every journal that can be recovered afterwards is of
     * the same transaction, and is the old one or says what a definite answer about its digest said.
     */
    method ReconcileAndExecute(s: Setting, lookup: Answer, now: int, reply: Answer, writeThrows: bool) returns (submitted: bool)
      requires stage.Looking? && journal.Some? && disk == {journal}
      modifies this
      ensures submitted <==> lookup.NotFound? && old(journal).value.status == Prepared && Reconciles(s, live, now)
      ensures journal.Some? && SameTransaction(journal.value, old(journal).value)
      ensures var definite := Definite(if submitted then reply else lookup, old(journal).value);
              && (if definite then Reports(if submitted then reply else lookup, journal.value) else journal == old(journal))
              && disk == (if definite && writeThrows then {old(journal), journal} else {journal})
              && stage == if definite && !writeThrows then Finished else Stopped
    {
      submitted := false;
      LookupAnswered(s, lookup, now);
      if stage.Submitted? {
        submitted := true;
        SubmissionAnswered(reply);
      }
      if stage.Writing? && writeThrows {
        stage := Stopped;
      } else if stage.Writing? {
        WriteReturned();
      }
    }
  }

  /** The answer is about the journal's digest, and says whether it succeeded. */
  predicate Definite(answer: Answer, j: Journal) {
    answer.Found? && answer.tx.digest == j.digest && answer.tx.success.Some?
  }

  predicate SameTransaction(a: Journal, b: Journal) {
    a.bytes == b.bytes && a.signature == b.signature && a.digest == b.digest && a.snapshot == b.snapshot
  }

  /** The answer says of the journal's digest what the journal says. */
  predicate Reports(answer: Answer, j: Journal) {
    answer.Found? && answer.tx.digest == j.digest && answer.tx.success == Some(j.status == Succeeded) && j.status in {Succeeded, Failed}
  }

  // ---- The world's steps ----

  datatype Step =
    | StartFresh(run: nat, live: Snapshot, prepareOnly: bool, disk: set<Option<Journal>>)
    | Sign(run: nat, bytes: Bytes, signature: string)
    | StartResume(run: nat, supplied: Journal, live: Snapshot, prepareOnly: bool, disk: set<Option<Journal>>)
    | ParseSupplied(run: nat)
    | WriteReturns(run: nat)
    | LookupAnswers(run: nat, answer: Answer)
    | SubmissionAnswers(run: nat, answer: Answer)
    | StopRun(run: nat)                  // a crash, or a system call that throws
    | Execute(bytes: Bytes, success: bool)
    | Wait(ms: nat)

  /** An answer about a digest with a definite status is true; everything else an RPC node may say at will. */
  predicate Truthful(w: World, answer: Answer) {
    answer.Found? && answer.tx.success.Some? ==>
      answer.tx.digest in w.outcome && answer.tx.success.value == w.outcome[answer.tx.digest]
  }

  predicate At(w: World, run: nat) {
    run in w.runs
  }

  ghost predicate Enabled(s: Setting, w: World, step: Step) {
    match step
    case StartFresh(run, _, _, _) => run !in w.runs
    case StartResume(run, _, _, _, _) => run !in w.runs
    case Sign(run, _, _) => At(w, run) && w.runs[run].stage.Building?
    case ParseSupplied(run) => At(w, run) && w.runs[run].stage.Parsing?
    case WriteReturns(run) => At(w, run) && w.runs[run].stage.Writing?
    case LookupAnswers(run, answer) =>
      At(w, run) && w.runs[run].stage.Looking? && w.runs[run].journal.Some? && Truthful(w, answer)
    case SubmissionAnswers(run, answer) =>
      At(w, run) && w.runs[run].stage.Submitted? && w.runs[run].journal.Some? && Truthful(w, answer)
    case StopRun(run) => At(w, run)
    case Execute(bytes, _) => bytes in w.mempool && s.digest(bytes) !in w.outcome  // a digest executes at most once
    case Wait(_) => true
  }

  ghost function SetRun(w: World, run: nat, r: Run): World {
    w.(runs := w.runs[run := r],
       written := if r.stage.Writing? then w.written + {r.stage.next} else w.written)
  }

  ghost function Apply(s: Setting, w: World, step: Step): World
    requires Enabled(s, w, step)
  {
    match step
    case StartFresh(run, live, prepareOnly, disk) =>
      SetRun(w, run, Run(if Reconciles(s, live, w.now) then Building else Stopped, live, prepareOnly, None, disk))
    case StartResume(run, supplied, live, prepareOnly, disk) =>
      SetRun(w, run, Run(if Reconciles(s, live, w.now) then Parsing(supplied) else Stopped, live, prepareOnly, None, disk))
    case Sign(run, bytes, signature) =>
      var r := w.runs[run];
      if !Reconciles(s, r.live, w.now) then SetRun(w, run, Stop(r))
      else
        var w' := w.(signed := w.signed + {(bytes, signature)}, preparations := w.preparations + 1);
        SetRun(w', run, AfterSigning(s, r, bytes, signature))
    case ParseSupplied(run) =>
      var r := w.runs[run];
      var j := r.stage.supplied;
      var r' := AfterParsing(s, w.signed, r, j, w.now);
      SetRun(w.(misled := w.misled || (r'.stage.Writing? && !Agrees(w, j))), run, r')
    case WriteReturns(run) =>
      var r := w.runs[run];
      SetRun(w, run, AfterWrite(r)).(log := w.log + [Durable(run, r.stage.next)])
    case LookupAnswers(run, answer) =>
      var r := w.runs[run];
      var r' := AfterLookup(s, r, answer, w.now);
      var w' := SetRun(w, run, r');
      if !answer.NotFound? then w'
      else
        var j := r.journal.value;
        var seen := w.log + [ConfirmedMissing(run, j.digest)];
        if r'.stage.Submitted?
        then w'.(mempool := w.mempool + {j.bytes},
                 log := seen + [Submission(run, j.bytes, j.signature, j.digest, w.now, r.live, r.disk)])
        else w'.(log := seen)
    case SubmissionAnswers(run, answer) => SetRun(w, run, AfterSubmission(w.runs[run], answer))
    case StopRun(run) => SetRun(w, run, Stop(w.runs[run]))
    case Execute(bytes, success) =>
      w.(ledger := w.ledger + [bytes], outcome := w.outcome[s.digest(bytes) := success])
    case Wait(ms) => w.(now := w.now + ms)
  }

  const START := World(0, 0, {}, {}, [], map[], map[], {}, false, [])

  /** The world after a sequence of steps; a step that is not possible when its turn comes changes nothing. */
  ghost function After(s: Setting, steps: seq<Step>): World {
    if steps == [] then START
    else
      var w := After(s, steps[..|steps| - 1]);
      var step := steps[|steps| - 1];
      if Enabled(s, w, step) then Apply(s, w, step) else w
  }

  // ---- What every step keeps ----

  /** A journal some run wrote: signed by the key, for accepted bytes, under the manifest's writers. */
  ghost predicate Genuine(s: Setting, w: World, j: Journal) {
    Parses(s, w.signed, j)
  }

  /** A terminal status is the chain's. */
  predicate Agrees(w: World, j: Journal) {
    (j.status == Succeeded ==> j.digest in w.outcome && w.outcome[j.digest])
    && (j.status == Failed ==> j.digest in w.outcome && !w.outcome[j.digest])
  }

  ghost predicate RunFits(s: Setting, w: World, id: nat)
    requires id in w.runs
  {
    var r := w.runs[id];
    && (r.journal.Some? ==> Genuine(s, w, r.journal.value) && r.journal.value in w.written)
    && (r.stage.Writing? ==> r.journal == Some(r.stage.next))
    && (r.stage.Looking? || r.stage.Submitted? ==>
          r.journal.Some? && r.disk == {r.journal} && Durable(id, r.journal.value) in w.log)
  }

  ghost predicate ChainFits(s: Setting, w: World) {
    && |w.signed| <= w.preparations
    && (forall b | b in w.mempool :: SignedAndAccepted(s, w, b))
    && (forall b | b in w.ledger :: b in w.mempool && s.digest(b) in w.outcome)
    && (forall i, j | 0 <= i < j < |w.ledger| :: s.digest(w.ledger[i]) != s.digest(w.ledger[j]))
  }

  ghost predicate SignedAndAccepted(s: Setting, w: World, b: Bytes) {
    s.accepts(b) && exists sig :: (b, sig) in w.signed
  }

  /** What precedes a submission in the log, and what is on disk at that moment. */
  ghost predicate WrittenAhead(s: Setting, log: seq<Event>, k: nat)
    requires k < |log| && log[k].Submission?
  {
    var e := log[k];
    && k >= 1 && log[k - 1] == ConfirmedMissing(e.run, e.digest)
    && (exists j: Journal :: Durable(e.run, j) in log[..k - 1] && e.disk == {Some(j)} && IsJournalOf(j, e))
    && Reconciles(s, e.live, e.at)
    && e.digest == s.digest(e.bytes) && s.accepts(e.bytes)
  }

  predicate IsJournalOf(j: Journal, e: Event)
    requires e.Submission?
  {
    j.status == Prepared && j.bytes == e.bytes && j.signature == e.signature && j.digest == e.digest
  }

  ghost predicate LogFits(s: Setting, w: World) {
    forall k | 0 <= k < |w.log| && w.log[k].Submission? :: WrittenAhead(s, w.log, k)
  }

  ghost predicate WrittenFits(s: Setting, w: World) {
    && (forall j | j in w.written :: Genuine(s, w, j))
    && (!w.misled ==> forall j | j in w.written :: Agrees(w, j))
  }

  ghost predicate Inv(s: Setting, w: World) {
    && ChainFits(s, w) && LogFits(s, w) && WrittenFits(s, w)
    && (forall id | id in w.runs :: RunFits(s, w, id))
  }

  /** The world only ever gains signatures, journals, log entries and outcomes. */
  ghost predicate Grows(w: World, w': World) {
    w.signed <= w'.signed && w.written <= w'.written && w.log <= w'.log
    && (forall d | d in w.outcome :: d in w'.outcome && w'.outcome[d] == w.outcome[d])
  }

  lemma {:induction false} StepGrows(s: Setting, w: World, step: Step)
    requires Enabled(s, w, step)
    ensures Grows(w, Apply(s, w, step))
  {
  }

  function RunOf(step: Step): Option<nat> {
    match step
    case Execute(_, _) => None
    case Wait(_) => None
    case StartFresh(run, _, _, _) => Some(run)
    case Sign(run, _, _) => Some(run)
    case StartResume(run, _, _, _, _) => Some(run)
    case ParseSupplied(run) => Some(run)
    case WriteReturns(run) => Some(run)
    case LookupAnswers(run, _) => Some(run)
    case SubmissionAnswers(run, _) => Some(run)
    case StopRun(run) => Some(run)
  }

  lemma {:induction false} OnlyItsRunMoves(s: Setting, w: World, step: Step, id: nat)
    requires Enabled(s, w, step) && id in Apply(s, w, step).runs && RunOf(step) != Some(id)
    ensures id in w.runs && Apply(s, w, step).runs[id] == w.runs[id]
  {
  }

  lemma {:induction false} OtherRunFits(s: Setting, w: World, w': World, id: nat)
    requires id in w.runs && id in w'.runs && w'.runs[id] == w.runs[id] && Grows(w, w') && RunFits(s, w, id)
    ensures RunFits(s, w', id)
  {
    forall e | e in w.log ensures e in w'.log {
      var k :| 0 <= k < |w.log| && w.log[k] == e;
      assert w'.log[k] == e;
    }
  }

  /** A recorded answer that is true of the chain gives a genuine journal whose status is the chain's. */
  lemma {:induction false} RecordedAgrees(s: Setting, w: World, j: Journal, answer: Answer)
    requires Genuine(s, w, j) && answer.Found? && Truthful(w, answer) && Recorded(j, answer.tx).Some?
    ensures Genuine(s, w, Recorded(j, answer.tx).value) && Agrees(w, Recorded(j, answer.tx).value)
  {
  }

  lemma {:induction false} RecordKeepsRun(s: Setting, w: World, id: nat, answer: Answer)
    requires id in w.runs && RunFits(s, w, id) && w.runs[id].journal.Some? && answer.Found? && Truthful(w, answer)
    ensures RunFits(s, SetRun(w, id, Record(w.runs[id], answer.tx)), id)
  {
    if Recorded(w.runs[id].journal.value, answer.tx).Some? {
      RecordedAgrees(s, w, w.runs[id].journal.value, answer);
    }
  }

  lemma {:induction false} LookupKeepsRun(s: Setting, w: World, id: nat, answer: Answer)
    requires Enabled(s, w, LookupAnswers(id, answer)) && RunFits(s, w, id)
    ensures RunFits(s, Apply(s, w, LookupAnswers(id, answer)), id)
  {
    if answer.Found? {
      RecordKeepsRun(s, w, id, answer);
    }
  }

  lemma {:induction false} SubmissionKeepsRun(s: Setting, w: World, id: nat, answer: Answer)
    requires Enabled(s, w, SubmissionAnswers(id, answer)) && RunFits(s, w, id)
    ensures RunFits(s, Apply(s, w, SubmissionAnswers(id, answer)), id)
  {
    if answer.Found? {
      RecordKeepsRun(s, w, id, answer);
    }
  }

  lemma {:induction false} WriteKeepsRun(s: Setting, w: World, id: nat)
    requires Enabled(s, w, WriteReturns(id)) && RunFits(s, w, id)
    ensures RunFits(s, Apply(s, w, WriteReturns(id)), id)
  {
    var w' := Apply(s, w, WriteReturns(id));
    assert w'.log[|w.log|] == Durable(id, w.runs[id].stage.next);
  }

  lemma {:induction false} MovedRunFits(s: Setting, w: World, step: Step, id: nat)
    requires Enabled(s, w, step) && RunOf(step) == Some(id) && (id in w.runs ==> RunFits(s, w, id))
    ensures id in Apply(s, w, step).runs && RunFits(s, Apply(s, w, step), id)
  {
    match step
    case LookupAnswers(_, answer) => LookupKeepsRun(s, w, id, answer);
    case SubmissionAnswers(_, answer) => SubmissionKeepsRun(s, w, id, answer);
    case WriteReturns(_) => WriteKeepsRun(s, w, id);
    case _ =>
  }

  lemma {:induction false} RunsKept(s: Setting, w: World, step: Step)
    requires Inv(s, w) && Enabled(s, w, step)
    ensures forall id | id in Apply(s, w, step).runs :: RunFits(s, Apply(s, w, step), id)
  {
    StepGrows(s, w, step);
    forall id | id in Apply(s, w, step).runs ensures RunFits(s, Apply(s, w, step), id) {
      if RunOf(step) == Some(id) {
        MovedRunFits(s, w, step, id);
      } else {
        OnlyItsRunMoves(s, w, step, id);
        OtherRunFits(s, w, Apply(s, w, step), id);
      }
    }
  }

  lemma {:induction false} PoolKept(s: Setting, w: World, step: Step, b: Bytes)
    requires Inv(s, w) && Enabled(s, w, step) && b in Apply(s, w, step).mempool
    ensures SignedAndAccepted(s, Apply(s, w, step), b)
  {
    StepGrows(s, w, step);
    if b in w.mempool {
      assert SignedAndAccepted(s, w, b);
    } else {
      assert RunFits(s, w, step.run);
      assert (b, w.runs[step.run].journal.value.signature) in w.signed;
    }
  }

  /** The ledger grows only by a digest that has not executed. */
  lemma {:induction false} LedgerKept(s: Setting, w: World, step: Step)
    requires ChainFits(s, w) && Enabled(s, w, step)
    ensures var w' := Apply(s, w, step);
            && |w'.signed| <= w'.preparations
            && (forall b | b in w'.ledger :: b in w'.mempool && s.digest(b) in w'.outcome)
            && (forall i, j | 0 <= i < j < |w'.ledger| :: s.digest(w'.ledger[i]) != s.digest(w'.ledger[j]))
  {
    if step.Execute? {
      assert forall b | b in w.ledger :: s.digest(b) != s.digest(step.bytes);
    }
  }

  lemma {:induction false} ChainKept(s: Setting, w: World, step: Step)
    requires Inv(s, w) && Enabled(s, w, step)
    ensures ChainFits(s, Apply(s, w, step))
  {
    LedgerKept(s, w, step);
    forall b | b in Apply(s, w, step).mempool ensures SignedAndAccepted(s, Apply(s, w, step), b) {
      PoolKept(s, w, step, b);
    }
  }

  /** What a run writes, if it writes at all, is genuine and agrees with the chain unless a misleading journal came in. */
  lemma {:induction false} NewlyWritten(s: Setting, w: World, step: Step, j: Journal)
    requires WrittenFits(s, w) && Enabled(s, w, step) && RunOf(step).Some?
    requires RunOf(step).value in w.runs ==> RunFits(s, w, RunOf(step).value)
    requires j in Apply(s, w, step).written && j !in w.written
    ensures Genuine(s, Apply(s, w, step), j)
    ensures !Apply(s, w, step).misled ==> Agrees(w, j)
  {
    if (step.LookupAnswers? || step.SubmissionAnswers?) && step.answer.Found? {
      RecordedAgrees(s, w, w.runs[step.run].journal.value, step.answer);
    }
  }

  lemma {:induction false} WrittenKept(s: Setting, w: World, step: Step)
    requires Inv(s, w) && Enabled(s, w, step)
    ensures WrittenFits(s, Apply(s, w, step))
  {
    StepGrows(s, w, step);
    var w' := Apply(s, w, step);
    forall j | j in w'.written ensures Genuine(s, w', j) && (!w'.misled ==> Agrees(w', j)) {
      if j !in w.written {
        assert RunOf(step).value in w.runs ==> RunFits(s, w, RunOf(step).value);
        NewlyWritten(s, w, step, j);
      } else {
        assert Genuine(s, w, j);
      }
    }
  }

  lemma {:induction false} WrittenAheadStays(s: Setting, log: seq<Event>, log': seq<Event>, k: nat)
    requires log <= log' && k < |log| && log[k].Submission? && WrittenAhead(s, log, k)
    ensures WrittenAhead(s, log', k)
  {
    assert k >= 1 ==> log'[..k - 1] == log[..k - 1];
  }

  /** The submission just made was written ahead: its journal is the only contents the disk can give back. */
  lemma {:induction false} SubmissionWrittenAhead(s: Setting, w: World, step: Step)
    requires Inv(s, w) && Enabled(s, w, step) && step.LookupAnswers? && |Apply(s, w, step).log| == |w.log| + 2
    ensures var log := Apply(s, w, step).log; log[|w.log| + 1].Submission? && WrittenAhead(s, log, |w.log| + 1)
  {
    var log, n := Apply(s, w, step).log, |w.log|;
    var j := w.runs[step.run].journal.value;
    assert RunFits(s, w, step.run);
    assert log[..n] == w.log;
    assert Durable(step.run, j) in log[..n] && IsJournalOf(j, log[n + 1]);
  }

  lemma {:induction false} LogKept(s: Setting, w: World, step: Step)
    requires Inv(s, w) && Enabled(s, w, step)
    ensures LogFits(s, Apply(s, w, step))
  {
    StepGrows(s, w, step);
    var w' := Apply(s, w, step);
    forall k | 0 <= k < |w'.log| && w'.log[k].Submission? ensures WrittenAhead(s, w'.log, k) {
      if k < |w.log| {
        WrittenAheadStays(s, w.log, w'.log, k);
      } else {
        SubmissionWrittenAhead(s, w, step);
      }
    }
  }

  /** The invariant holds after every sequence of steps, of any runs in any interleaving. */
  lemma {:induction false} Safe(s: Setting, steps: seq<Step>)
    ensures Inv(s, After(s, steps))
  {
    if steps != [] {
      var w, step := After(s, steps[..|steps| - 1]), steps[|steps| - 1];
      Safe(s, steps[..|steps| - 1]);
      if Enabled(s, w, step) {
        ChainKept(s, w, step);
        LogKept(s, w, step);
        WrittenKept(s, w, step);
        RunsKept(s, w, step);
      }
    }
  }

  // ---- The results ----

  lemma {:induction false} NoMoreThanSigned(ledger: seq<Bytes>, signed: set<(Bytes, string)>)
    requires forall i, j | 0 <= i < j < |ledger| :: ledger[i] != ledger[j]
    requires forall b | b in ledger :: exists sig :: (b, sig) in signed
    ensures |ledger| <= |signed|
  {
    if ledger != [] {
      var n := |ledger| - 1;
      var b := ledger[n];
      assert b in ledger;
      var sig :| (b, sig) in signed;
      var rest := set x | x in signed && x.0 != b;
      forall c | c in ledger[..n] ensures exists sig' :: (c, sig') in rest {
        assert c in ledger;
        var sig' :| (c, sig') in signed;
        assert (c, sig') in rest;
      }
      NoMoreThanSigned(ledger[..n], rest);
      assert rest <= signed - {(b, sig)};
      SmallerSet(rest, signed - {(b, sig)});
    }
  }

  lemma {:induction false} SmallerSet<T>(a: set<T>, b: set<T>)
    requires a <= b
    ensures |a| <= |b|
  {
    assert b == a + (b - a);
  }

  /**
   * Exactly once. Whatever the runs, crashes and answers, no transaction executes twice, only accepted transactions
   * execute, and no more of them than fresh runs have signed: with one preparation, none or that one.
   */
  lemma {:induction false} ExactlyOnce(s: Setting, steps: seq<Step>)
    ensures var w := After(s, steps);
            && (forall i, j | 0 <= i < j < |w.ledger| :: w.ledger[i] != w.ledger[j])
            && (forall b | b in w.ledger :: SignedAndAccepted(s, w, b))
            && |w.ledger| <= w.preparations
  {
    Safe(s, steps);
    var w := After(s, steps);
    forall b | b in w.ledger ensures SignedAndAccepted(s, w, b) {
      assert b in w.mempool;
    }
    NoMoreThanSigned(w.ledger, w.signed);
  }

  lemma {:induction false} OnePreparation(s: Setting, steps: seq<Step>)
    requires After(s, steps).preparations <= 1
    ensures var w := After(s, steps); w.ledger == [] || (w.ledger == [w.ledger[0]] && s.accepts(w.ledger[0]))
  {
    ExactlyOnce(s, steps);
    var w := After(s, steps);
    if w.ledger != [] {
      assert w.ledger[0] in w.ledger && SignedAndAccepted(s, w, w.ledger[0]);
    }
  }

  /** Every submission in every run was written ahead of. */
  lemma {:induction false} WriteAhead(s: Setting, steps: seq<Step>, k: nat)
    requires k < |After(s, steps).log| && After(s, steps).log[k].Submission?
    ensures WrittenAhead(s, After(s, steps).log, k)
  {
    Safe(s, steps);
  }

  lemma {:induction false} LaterGrows(s: Setting, steps: seq<Step>, more: seq<Step>)
    ensures Grows(After(s, steps), After(s, steps + more))
  {
    if more == [] {
      assert steps + more == steps;
    } else {
      var n := |more| - 1;
      assert (steps + more)[..|steps + more| - 1] == steps + more[..n];
      LaterGrows(s, steps, more[..n]);
      var w, step := After(s, steps + more[..n]), more[n];
      if Enabled(s, w, step) {
        StepGrows(s, w, step);
      }
    }
  }

  /** Every journal any run wrote is accepted by every later parse, however stale it has become by then. */
  lemma {:induction false} WrittenStaysResumable(s: Setting, steps: seq<Step>, more: seq<Step>, j: Journal)
    requires j in After(s, steps).written
    ensures Parses(s, After(s, steps + more).signed, j)
  {
    Safe(s, steps);
    LaterGrows(s, steps, more);
    assert Genuine(s, After(s, steps), j);
  }

  // ---- Terminal statuses ----

  /** Every terminal status on record is the chain's. */
  ghost predicate StatusesAgree(w: World) {
    forall j | j in w.written :: Agrees(w, j)
  }

  /** The step makes its run persist the journal it was given. */
  ghost predicate Adopts(s: Setting, w: World, step: Step) {
    step.ParseSupplied? && Enabled(s, w, step) && Apply(s, w, step).runs[step.run].stage.Writing?
  }

  /** A journal that is persisted again was prepared, or had the chain's status when it was parsed. */
  ghost predicate AdoptsTruly(s: Setting, w: World, step: Step) {
    Adopts(s, w, step) ==>
      var j := w.runs[step.run].stage.supplied; j.status == Prepared || Agrees(w, j)
  }

  lemma {:induction false} NeverMisled(s: Setting, steps: seq<Step>)
    requires forall k | 0 <= k < |steps| :: AdoptsTruly(s, After(s, steps[..k]), steps[k])
    ensures !After(s, steps).misled
  {
    if steps != [] {
      var n := |steps| - 1;
      var before := steps[..n];
      forall k | 0 <= k < n ensures AdoptsTruly(s, After(s, before[..k]), before[k]) {
        assert before[..k] == steps[..k];
        assert AdoptsTruly(s, After(s, steps[..k]), steps[k]);
      }
      NeverMisled(s, before);
      NotMisledBy(s, After(s, before), steps[n]);
    }
  }

  lemma {:induction false} NotMisledBy(s: Setting, w: World, step: Step)
    requires !w.misled && AdoptsTruly(s, w, step)
    ensures Enabled(s, w, step) ==> !Apply(s, w, step).misled
  {
  }

  /** Persisting a journal whose status is not the chain's puts it on record. */
  lemma {:induction false} AdoptionShows(s: Setting, w: World, step: Step)
    requires Adopts(s, w, step) && StatusesAgree(Apply(s, w, step))
    ensures AdoptsTruly(s, w, step)
  {
    var j := w.runs[step.run].stage.supplied;
    var again := j.(snapshot := w.runs[step.run].live);
    assert again in Apply(s, w, step).written;
  }

  lemma {:induction false} PrefixAgrees(s: Setting, steps: seq<Step>, n: nat)
    requires n <= |steps| && forall k | 0 <= k < |steps| :: AdoptsTruly(s, After(s, steps[..k]), steps[k])
    ensures StatusesAgree(After(s, steps[..n]))
  {
    var before := steps[..n];
    forall k | 0 <= k < n ensures AdoptsTruly(s, After(s, before[..k]), before[k]) {
      assert before[..k] == steps[..k];
      assert AdoptsTruly(s, After(s, steps[..k]), steps[k]);
    }
    NeverMisled(s, before);
    Safe(s, before);
  }

  lemma {:induction false} StepTruly(s: Setting, steps: seq<Step>, k: nat)
    requires k < |steps| && StatusesAgree(After(s, steps[..k + 1]))
    ensures AdoptsTruly(s, After(s, steps[..k]), steps[k])
  {
    assert steps[..k + 1][..k] == steps[..k];
    if Adopts(s, After(s, steps[..k]), steps[k]) {
      AdoptionShows(s, After(s, steps[..k]), steps[k]);
    }
  }

  /**
   * The statuses on record are the chain's throughout a run if and only if every supplied journal that was persisted
   * again was prepared or had the chain's status when it was parsed: the script itself never checks that.
   */
  lemma {:induction false} StatusesAgreeIff(s: Setting, steps: seq<Step>)
    ensures (forall n | 0 <= n <= |steps| :: StatusesAgree(After(s, steps[..n])))
            <==> (forall k | 0 <= k < |steps| :: AdoptsTruly(s, After(s, steps[..k]), steps[k]))
  {
    if forall k | 0 <= k < |steps| :: AdoptsTruly(s, After(s, steps[..k]), steps[k]) {
      forall n | 0 <= n <= |steps| ensures StatusesAgree(After(s, steps[..n])) { PrefixAgrees(s, steps, n); }
    }
    if forall n | 0 <= n <= |steps| :: StatusesAgree(After(s, steps[..n])) {
      forall k | 0 <= k < |steps| ensures AdoptsTruly(s, After(s, steps[..k]), steps[k]) {
        assert StatusesAgree(After(s, steps[..k + 1]));
        StepTruly(s, steps, k);
      }
    }
  }

  lemma {:induction false} AfterStep(s: Setting, steps: seq<Step>, step: Step)
    requires Enabled(s, After(s, steps), step)
    ensures After(s, steps + [step]) == Apply(s, After(s, steps), step)
  {
    assert (steps + [step])[..|steps|] == steps;
  }

  lemma {:induction false} SignedAlone(s: Setting, bytes: Bytes, signature: string) returns (steps: seq<Step>)
    requires s.accepts(bytes)
    ensures var w := After(s, steps);
            && w.now == 0 && w.ledger == [] && w.outcome == map[] && (bytes, signature) in w.signed && 1 !in w.runs
  {
    var live := Snapshot(0, s.writers);
    steps := [StartFresh(0, live, true, {})];
    AfterStep(s, [], steps[0]);
    assert [] + [steps[0]] == steps;
    AfterStep(s, steps, Sign(0, bytes, signature));
    steps := steps + [Sign(0, bytes, signature)];
  }

  /** Nothing executed, and yet a journal that says it succeeded is on record: its status was edited before it was supplied. */
  lemma {:induction false} EditedStatusIsKept(s: Setting, bytes: Bytes, signature: string) returns (steps: seq<Step>, j: Journal)
    requires s.accepts(bytes)
    ensures var w := After(s, steps); w.ledger == [] && j in w.written && j.status == Succeeded && !Agrees(w, j)
  {
    var live := Snapshot(0, s.writers);
    j := Journal(Succeeded, bytes, signature, s.digest(bytes), live);
    var t := SignedAlone(s, bytes, signature);
    AfterStep(s, t, StartResume(1, j, live, true, {}));
    var t1 := t + [StartResume(1, j, live, true, {})];
    AfterStep(s, t1, ParseSupplied(1));
    steps := t1 + [ParseSupplied(1)];
    assert j.(snapshot := live) == j;
  }
}
