/**
 * What a run of the payout gets done when nothing stands in its way, whatever other runs and the chain do in between:
 * fresh and resumed runs submit exactly their transaction, record its outcome, and are silent once they have ended.
 */
module FundingProgress {
  import opened Outcomes
  import opened Manifest
  import opened FundingProtocol

  /** The snapshot lists the manifest's writers, is at most fifteen minutes old and at most one minute ahead. */
  predicate OnTime(s: Setting, live: Snapshot, now: int) {
    live.writers == s.writers && -60_000 <= now - live.collectedAt <= 900_000
  }

  predicate OfOthers(steps: seq<Step>, run: nat) {
    forall i | 0 <= i < |steps| :: RunOf(steps[i]) != Some(run)
  }

  lemma {:induction false} AfterStep(s: Setting, steps: seq<Step>, step: Step)
    requires Enabled(s, After(s, steps), step)
    ensures After(s, steps + [step]) == Apply(s, After(s, steps), step)
  {
    assert (steps + [step])[..|steps|] == steps;
  }

  lemma {:induction false} OtherStepLeaves(s: Setting, w: World, step: Step, run: nat)
    requires run in w.runs && RunOf(step) != Some(run) && Enabled(s, w, step)
    ensures run in Apply(s, w, step).runs && Apply(s, w, step).runs[run] == w.runs[run]
  {
  }

  /** Whatever others do, a run stays where it is. */
  lemma {:induction false} OthersLeave(s: Setting, steps: seq<Step>, more: seq<Step>, run: nat)
    requires run in After(s, steps).runs && OfOthers(more, run)
    ensures run in After(s, steps + more).runs && After(s, steps + more).runs[run] == After(s, steps).runs[run]
  {
    if more == [] {
      assert steps + more == steps;
    } else {
      var n := |more| - 1;
      OthersLeave(s, steps, more[..n], run);
      assert steps + more == (steps + more[..n]) + [more[n]];
      if Enabled(s, After(s, steps + more[..n]), more[n]) {
        AfterStep(s, steps + more[..n], more[n]);
        OtherStepLeaves(s, After(s, steps + more[..n]), more[n], run);
      } else {
        assert ((steps + more[..n]) + [more[n]])[..|steps + more[..n]|] == steps + more[..n];
      }
    }
  }

  /** The run stands at this stage with this journal, which it prepared or was given. */
  predicate Stands(w: World, run: nat, stage: Stage, live: Snapshot, prepareOnly: bool, journal: Option<Journal>) {
    && run in w.runs && w.runs[run].stage == stage && w.runs[run].live == live && w.runs[run].prepareOnly == prepareOnly
    && w.runs[run].journal == journal
  }

  // ---- One step of a run ----

  /** Fresh and resumed runs go ahead exactly with a current snapshot. */
  lemma {:induction false} StartDecides(s: Setting, w: World, step: Step, run: nat)
    requires (step.StartFresh? || step.StartResume?) && step.run == run && run !in w.runs
    ensures var w' := Apply(s, w, step);
            && Stands(w', run, if !OnTime(s, step.live, w.now) then Stopped else if step.StartFresh? then Building else Parsing(step.supplied),
                      step.live, step.prepareOnly, None)
            && w'.runs[run].disk == step.disk && w'.log == w.log && w'.mempool == w.mempool && w'.signed == w.signed
  {
  }

  /** Signing goes ahead exactly with a current snapshot, and leads to a write exactly for bytes that pass the check. */
  lemma {:induction false} SignDecides(s: Setting, w: World, run: nat, bytes: Bytes, signature: string)
    requires run in w.runs && w.runs[run].stage.Building?
    ensures var r := w.runs[run];
            var w' := Apply(s, w, Sign(run, bytes, signature));
            var j := Journal(Prepared, bytes, signature, s.digest(bytes), r.live);
            && (OnTime(s, r.live, w.now) && s.accepts(bytes) ==> Stands(w', run, Writing(j, false), r.live, r.prepareOnly, Some(j)))
            && (!(OnTime(s, r.live, w.now) && s.accepts(bytes)) ==> Stands(w', run, Stopped, r.live, r.prepareOnly, r.journal))
            && w'.signed == (if OnTime(s, r.live, w.now) then w.signed + {(bytes, signature)} else w.signed)
            && w'.log == w.log && w'.mempool == w.mempool
  {
  }

  /** A resumed run writes its journal again, under the live snapshot, exactly if that is current and the journal parses. */
  lemma {:induction false} ParseDecides(s: Setting, w: World, run: nat)
    requires run in w.runs && w.runs[run].stage.Parsing?
    ensures var r := w.runs[run];
            var w' := Apply(s, w, ParseSupplied(run));
            var j := r.stage.supplied.(snapshot := r.live);
            && (OnTime(s, r.live, w.now) && Parses(s, w.signed, r.stage.supplied) ==>
                  Stands(w', run, Writing(j, false), r.live, r.prepareOnly, Some(j)))
            && (!(OnTime(s, r.live, w.now) && Parses(s, w.signed, r.stage.supplied)) ==>
                  Stands(w', run, Stopped, r.live, r.prepareOnly, r.journal))
            && w'.log == w.log && w'.mempool == w.mempool && w'.signed == w.signed
  {
  }

  lemma {:induction false} WriteLeadsOn(s: Setting, w: World, run: nat, live: Snapshot, prepareOnly: bool, j: Journal, terminal: bool)
    requires Stands(w, run, Writing(j, terminal), live, prepareOnly, Some(j))
    ensures var w' := Apply(s, w, WriteReturns(run));
            && Stands(w', run, if terminal || prepareOnly then Finished else Looking, live, prepareOnly, Some(j))
            && w'.runs[run].disk == {Some(j)} && w'.log == w.log + [Durable(run, j)] && w'.mempool == w.mempool
  {
  }

  /** After a NOT_FOUND the run submits exactly if its journal is prepared and its snapshot still current. */
  lemma {:induction false} LookupDecides(s: Setting, w: World, run: nat, live: Snapshot, prepareOnly: bool, j: Journal)
    requires Stands(w, run, Looking, live, prepareOnly, Some(j))
    ensures var w' := Apply(s, w, LookupAnswers(run, NotFound));
            var seen := w.log + [ConfirmedMissing(run, j.digest)];
            if j.status == Prepared && OnTime(s, live, w.now)
            then
              && Stands(w', run, Submitted, live, prepareOnly, Some(j)) && w'.mempool == w.mempool + {j.bytes}
              && w'.log == seen + [Submission(run, j.bytes, j.signature, j.digest, w.now, live, w.runs[run].disk)]
            else Stands(w', run, Stopped, live, prepareOnly, Some(j)) && w'.mempool == w.mempool && w'.log == seen
  {
  }

  // ---- From the write to the submission ----

  /** The last thing that happened is the submission of exactly this journal's transaction, with the journal alone on disk. */
  predicate JustSubmitted(w: World, run: nat, j: Journal, live: Snapshot) {
    && w.log != [] && j.bytes in w.mempool
    && w.log[|w.log| - 1] == Submission(run, j.bytes, j.signature, j.digest, w.now, live, {Some(j)})
  }

  /** The steps of a run from its write to the lookup, with what others do in between. */
  function WrittenThenLooked(run: nat, b: seq<Step>, c: seq<Step>): seq<Step> {
    b + [WriteReturns(run)] + c + [LookupAnswers(run, NotFound)]
  }

  lemma {:induction false} WriteThen(s: Setting, t: seq<Step>, run: nat, live: Snapshot, prepareOnly: bool, j: Journal, b: seq<Step>, c: seq<Step>)
    requires Stands(After(s, t), run, Writing(j, false), live, prepareOnly, Some(j)) && OfOthers(b, run) && OfOthers(c, run)
    ensures var w := After(s, t + b + [WriteReturns(run)] + c);
            Stands(w, run, if prepareOnly then Finished else Looking, live, prepareOnly, Some(j)) && w.runs[run].disk == {Some(j)}
  {
    OthersLeave(s, t, b, run);
    AfterStep(s, t + b, WriteReturns(run));
    WriteLeadsOn(s, After(s, t + b), run, live, prepareOnly, j, false);
    OthersLeave(s, t + b + [WriteReturns(run)], c, run);
  }

  lemma {:induction false} WriteToSubmission(s: Setting, t: seq<Step>, run: nat, live: Snapshot, j: Journal, b: seq<Step>, c: seq<Step>)
    requires Stands(After(s, t), run, Writing(j, false), live, false, Some(j)) && OfOthers(b, run) && OfOthers(c, run)
    requires j.status == Prepared && OnTime(s, live, After(s, t + b + [WriteReturns(run)] + c).now)
    ensures var w := After(s, t + WrittenThenLooked(run, b, c));
            JustSubmitted(w, run, j, live) && Stands(w, run, Submitted, live, false, Some(j))
  {
    WriteThen(s, t, run, live, false, j, b, c);
    var t1 := t + b + [WriteReturns(run)] + c;
    AfterStep(s, t1, LookupAnswers(run, NotFound));
    LookupDecides(s, After(s, t1), run, live, false, j);
    assert t + WrittenThenLooked(run, b, c) == t1 + [LookupAnswers(run, NotFound)];
  }

  // ---- Fresh and resumed runs ----

  /** The steps of a fresh run up to its signature. */
  function Signed(run: nat, live: Snapshot, prepareOnly: bool, disk: set<Option<Journal>>, a: seq<Step>, bytes: Bytes, signature: string): seq<Step> {
    [StartFresh(run, live, prepareOnly, disk)] + a + [Sign(run, bytes, signature)]
  }

  lemma {:induction false} FreshWrites(s: Setting, t: seq<Step>, run: nat, live: Snapshot, prepareOnly: bool, disk: set<Option<Journal>>,
                                       a: seq<Step>, bytes: Bytes, signature: string)
    requires run !in After(s, t).runs && OfOthers(a, run) && s.accepts(bytes) && OnTime(s, live, After(s, t).now)
    requires OnTime(s, live, After(s, t + [StartFresh(run, live, prepareOnly, disk)] + a).now)
    ensures var j := Journal(Prepared, bytes, signature, s.digest(bytes), live);
            Stands(After(s, t + Signed(run, live, prepareOnly, disk, a, bytes, signature)), run, Writing(j, false), live, prepareOnly, Some(j))
  {
    var start := StartFresh(run, live, prepareOnly, disk);
    AfterStep(s, t, start);
    OthersLeave(s, t + [start], a, run);
    AfterStep(s, t + [start] + a, Sign(run, bytes, signature));
    SignDecides(s, After(s, t + [start] + a), run, bytes, signature);
    assert t + Signed(run, live, prepareOnly, disk, a, bytes, signature) == t + [start] + a + [Sign(run, bytes, signature)];
  }

  /**
   * A fresh run that is not prepare-only and signs bytes that pass the check submits exactly these bytes, with their
   * signature and digest, after it has written them down: whatever others do between its steps, if its snapshot is
   * current when it starts, when it signs and when the lookup says NOT_FOUND.
   */
  lemma {:induction false} FreshRunSubmits(s: Setting, t: seq<Step>, run: nat, live: Snapshot, disk: set<Option<Journal>>, a: seq<Step>,
                                           bytes: Bytes, signature: string, b: seq<Step>, c: seq<Step>)
    requires run !in After(s, t).runs && OfOthers(a, run) && OfOthers(b, run) && OfOthers(c, run) && s.accepts(bytes)
    requires OnTime(s, live, After(s, t).now)
    requires OnTime(s, live, After(s, t + [StartFresh(run, live, false, disk)] + a).now)
    requires OnTime(s, live, After(s, t + Signed(run, live, false, disk, a, bytes, signature) + b + [WriteReturns(run)] + c).now)
    ensures JustSubmitted(After(s, t + Signed(run, live, false, disk, a, bytes, signature) + WrittenThenLooked(run, b, c)), run,
                          Journal(Prepared, bytes, signature, s.digest(bytes), live), live)
  {
    FreshWrites(s, t, run, live, false, disk, a, bytes, signature);
    WriteToSubmission(s, t + Signed(run, live, false, disk, a, bytes, signature), run, live,
                      Journal(Prepared, bytes, signature, s.digest(bytes), live), b, c);
  }

  /** A prepare-only run ends once it has written its journal down. */
  lemma {:induction false} PrepareOnlyFinishes(s: Setting, t: seq<Step>, run: nat, live: Snapshot, disk: set<Option<Journal>>, a: seq<Step>,
                                               bytes: Bytes, signature: string, b: seq<Step>)
    requires run !in After(s, t).runs && OfOthers(a, run) && OfOthers(b, run) && s.accepts(bytes)
    requires OnTime(s, live, After(s, t).now) && OnTime(s, live, After(s, t + [StartFresh(run, live, true, disk)] + a).now)
    ensures var w := After(s, t + Signed(run, live, true, disk, a, bytes, signature) + b + [WriteReturns(run)]);
            var j := Journal(Prepared, bytes, signature, s.digest(bytes), live);
            Stands(w, run, Finished, live, true, Some(j)) && w.runs[run].disk == {Some(j)}
  {
    FreshWrites(s, t, run, live, true, disk, a, bytes, signature);
    var t1, j := t + Signed(run, live, true, disk, a, bytes, signature), Journal(Prepared, bytes, signature, s.digest(bytes), live);
    WriteThen(s, t1, run, live, true, j, b, []);
    assert t1 + b + [WriteReturns(run)] + [] == t1 + b + [WriteReturns(run)];
  }

  /** The steps of a resumed run up to the parse of its journal. */
  function Resumed(run: nat, j: Journal, live: Snapshot, disk: set<Option<Journal>>, a: seq<Step>): seq<Step> {
    [StartResume(run, j, live, false, disk)] + a + [ParseSupplied(run)]
  }

  lemma {:induction false} ResumeWrites(s: Setting, t: seq<Step>, run: nat, j: Journal, live: Snapshot, disk: set<Option<Journal>>, a: seq<Step>)
    requires run !in After(s, t).runs && j in After(s, t).written && OfOthers(a, run) && OnTime(s, live, After(s, t).now)
    requires OnTime(s, live, After(s, t + [StartResume(run, j, live, false, disk)] + a).now)
    ensures Stands(After(s, t + Resumed(run, j, live, disk, a)), run, Writing(j.(snapshot := live), false), live, false,
                   Some(j.(snapshot := live)))
  {
    var start := StartResume(run, j, live, false, disk);
    AfterStep(s, t, start);
    OthersLeave(s, t + [start], a, run);
    WrittenStaysResumable(s, t, [start] + a, j);
    assert t + ([start] + a) == t + [start] + a;
    AfterStep(s, t + [start] + a, ParseSupplied(run));
    ParseDecides(s, After(s, t + [start] + a), run);
    assert t + Resumed(run, j, live, disk, a) == t + [start] + a + [ParseSupplied(run)];
  }

  /**
   * Any prepared journal that any run ever wrote can be resumed: the resumed run submits exactly the transaction in it,
   * whatever others do between its steps, if its snapshot is current when it starts, parses and looks up.
   */
  lemma {:induction false} ResumedRunSubmits(s: Setting, t: seq<Step>, run: nat, j: Journal, live: Snapshot, disk: set<Option<Journal>>,
                                             a: seq<Step>, b: seq<Step>, c: seq<Step>)
    requires run !in After(s, t).runs && j in After(s, t).written && j.status == Prepared
    requires OfOthers(a, run) && OfOthers(b, run) && OfOthers(c, run) && OnTime(s, live, After(s, t).now)
    requires OnTime(s, live, After(s, t + [StartResume(run, j, live, false, disk)] + a).now)
    requires OnTime(s, live, After(s, t + Resumed(run, j, live, disk, a) + b + [WriteReturns(run)] + c).now)
    ensures JustSubmitted(After(s, t + Resumed(run, j, live, disk, a) + WrittenThenLooked(run, b, c)), run, j.(snapshot := live), live)
  {
    ResumeWrites(s, t, run, j, live, disk, a);
    WriteToSubmission(s, t + Resumed(run, j, live, disk, a), run, live, j.(snapshot := live), b, c);
  }

  // ---- The outcome ----

  /** The answer that the run's next step hands to it. */
  function Answered(stage: Stage, run: nat, answer: Answer): Step {
    if stage.Looking? then LookupAnswers(run, answer) else SubmissionAnswers(run, answer)
  }

  function WithOutcome(j: Journal, success: bool): Journal {
    j.(status := if success then Succeeded else Failed)
  }

  lemma {:induction false} AnswerIsRecorded(s: Setting, w: World, run: nat, live: Snapshot, prepareOnly: bool, j: Journal, stage: Stage, success: bool)
    requires (stage.Looking? || stage.Submitted?) && Stands(w, run, stage, live, prepareOnly, Some(j))
    requires j.digest in w.outcome && w.outcome[j.digest] == success
    ensures var step := Answered(stage, run, Found(Observed(j.digest, Some(success))));
            var k := WithOutcome(j, success);
            Enabled(s, w, step) && Stands(Apply(s, w, step), run, Writing(k, true), live, prepareOnly, Some(k))
  {
  }

  /**
   * A run that asks about a transaction that has executed, before or after submitting it itself, records the outcome:
   * once the chain's answer has come and the write has returned, its journal says what the chain says, alone on disk.
   */
  lemma {:induction false} OutcomeIsRecorded(s: Setting, t: seq<Step>, run: nat, j: Journal, b: seq<Step>)
    requires run in After(s, t).runs && After(s, t).runs[run].journal == Some(j) && OfOthers(b, run)
    requires After(s, t).runs[run].stage.Looking? || After(s, t).runs[run].stage.Submitted?
    requires j.digest in After(s, t).outcome
    ensures var success := After(s, t).outcome[j.digest];
            var step := Answered(After(s, t).runs[run].stage, run, Found(Observed(j.digest, Some(success))));
            var w := After(s, t + [step] + b + [WriteReturns(run)]);
            run in w.runs && w.runs[run].stage == Finished && w.runs[run].disk == {Some(WithOutcome(j, success))}
  {
    var r, success := After(s, t).runs[run], After(s, t).outcome[j.digest];
    var step := Answered(r.stage, run, Found(Observed(j.digest, Some(success))));
    AnswerIsRecorded(s, After(s, t), run, r.live, r.prepareOnly, j, r.stage, success);
    AfterStep(s, t, step);
    OthersLeave(s, t + [step], b, run);
    AfterStep(s, t + [step] + b, WriteReturns(run));
    WriteLeadsOn(s, After(s, t + [step] + b), run, r.live, r.prepareOnly, WithOutcome(j, success), true);
  }

  // ---- Once a run has ended ----

  predicate Ended(w: World, run: nat) {
    run in w.runs && (w.runs[run].stage.Finished? || w.runs[run].stage.Stopped?)
  }

  predicate SilentFrom(log: seq<Event>, n: nat, run: nat) {
    forall k | n <= k < |log| :: log[k].run != run
  }

  lemma {:induction false} EndedStep(s: Setting, w: World, step: Step, run: nat)
    requires Ended(w, run) && Enabled(s, w, step)
    ensures Ended(Apply(s, w, step), run) && w.log <= Apply(s, w, step).log && SilentFrom(Apply(s, w, step).log, |w.log|, run)
  {
  }

  /** A run that has finished, stopped or crashed never writes, asks or submits anything again. */
  lemma {:induction false} EndedIsSilent(s: Setting, t: seq<Step>, more: seq<Step>, run: nat)
    requires Ended(After(s, t), run)
    ensures Ended(After(s, t + more), run) && SilentFrom(After(s, t + more).log, |After(s, t).log|, run)
    ensures After(s, t).log <= After(s, t + more).log
  {
    if more == [] {
      assert t + more == t;
    } else {
      var n := |more| - 1;
      EndedIsSilent(s, t, more[..n], run);
      assert t + more == (t + more[..n]) + [more[n]];
      if Enabled(s, After(s, t + more[..n]), more[n]) {
        AfterStep(s, t + more[..n], more[n]);
        EndedStep(s, After(s, t + more[..n]), more[n], run);
      } else {
        assert ((t + more[..n]) + [more[n]])[..|t + more[..n]|] == t + more[..n];
      }
    }
  }
}
