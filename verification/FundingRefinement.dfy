/** The protocol's abstract disk, journal and snapshot against the file system and the documents they stand for. */
module FundingRefinement {
  import opened Outcomes
  import opened Manifest
  import opened Documents
  import opened JournalDisk
  import LiveSnapshots
  import FundingProgram
  import J = FundingJournals
  import P = FundingProtocol

  // ---- The disk ----

  /** How a journal is written: JSON.stringify tells journals apart. */
  ghost predicate TellsApart(print_: P.Journal -> string) {
    forall a, b :: print_(a) == print_(b) ==> a == b
  }

  function Contents(print_: P.Journal -> string, x: Option<P.Journal>): Option<string> {
    if x.None? then None else Some(print_(x.value))
  }

  /** Every journal a crash could leave at the path is one the run accounts for. */
  ghost predicate Accounts(d: DiskState, path: Name, print_: P.Journal -> string, disk: set<Option<P.Journal>>) {
    forall x :: MayRecover(d, path, Contents(print_, x)) ==> x in disk
  }

  /** At any moment of WriteJournalAtomic the protocol's run that is writing accounts for what a crash could leave. */
  lemma {:induction false} WritingRefines(d0: DiskState, d: DiskState, path: Name, print_: P.Journal -> string, r: P.Run, j: P.Journal,
                                          terminal: bool)
    requires TellsApart(print_) && Accounts(d0, path, print_, r.disk) && OldOrNew(d0, d, path, print_(j))
    ensures Accounts(d, path, print_, P.StartWriting(r, j, terminal).disk)
  {
    forall x | MayRecover(d, path, Contents(print_, x)) ensures x in P.StartWriting(r, j, terminal).disk {
      assert MayRecover(d0, path, Contents(print_, x)) || Contents(print_, x) == Some(print_(j));
    }
  }

  /** After it has returned, what can be recovered is exactly what the protocol says is on disk. */
  lemma {:induction false} WrittenRefines(d: DiskState, path: Name, print_: P.Journal -> string, r: P.Run)
    requires TellsApart(print_) && r.stage.Writing?
    requires forall c: Option<string> :: MayRecover(d, path, c) <==> c == Some(print_(r.stage.next))
    ensures forall x :: MayRecover(d, path, Contents(print_, x)) <==> x in P.AfterWrite(r).disk
  {
    forall x ensures MayRecover(d, path, Contents(print_, x)) <==> x in P.AfterWrite(r).disk {
      assert MayRecover(d, path, Contents(print_, x)) <==> Contents(print_, x) == Some(print_(r.stage.next));
    }
  }

  /** A protocol run persisting its journal through the file system: the contracts of both hold together. */
  method PersistJournal(run: P.FundingRun, disk: Disk, path: Name, temp: Name, print_: P.Journal -> string) returns (ok: bool)
    requires WellFormed(disk.now) && Unused(disk.now, temp) && path != temp
    requires TellsApart(print_) && run.stage.Writing? && run.journal == Some(run.stage.next)
    requires Accounts(disk.now, path, print_, run.disk) && Some(run.stage.next) in run.disk
    modifies run, disk
    ensures Extends(old(disk.history), disk.history, disk.now)
    ensures forall k | |old(disk.history)| <= k < |disk.history| :: Accounts(disk.history[k], path, print_, old(run.disk))
    ensures ok <==> disk.failures == old(disk.failures)
    ensures ok ==> run.View() == P.AfterWrite(old(run.View()))
    ensures ok ==> forall x :: MayRecover(disk.now, path, Contents(print_, x)) <==> x in run.disk
    ensures !ok ==> run.stage.Stopped? && run.disk == old(run.disk) && run.journal == old(run.journal)
  {
    ghost var d0, r := disk.now, run.View();
    ok := WriteJournalAtomic(disk, path, temp, print_(run.stage.next));
    forall k | |old(disk.history)| <= k < |disk.history| ensures Accounts(disk.history[k], path, print_, r.disk) {
      WritingRefines(d0, disk.history[k], path, print_, r, r.stage.next, r.stage.terminal);
      assert r.disk + {Some(r.stage.next)} == r.disk;
    }
    if ok {
      WrittenRefines(disk.now, path, print_, r);
      run.WriteReturned();
    } else {
      run.stage := P.Stopped;
    }
  }

  // ---- The documents ----

  function StatusOf(status: string): P.Status {
    if status == "prepared" then P.Prepared
    else if status == "succeeded" then P.Succeeded
    else if status == "failed" then P.Failed
    else P.Simulated
  }

  /** What the protocol keeps of a snapshot and of a journal. */
  function SnapshotOf(env: J.Env, s: LiveSnapshots.Snapshot): P.Snapshot {
    var at := env.date(s.collectedAt);
    P.Snapshot(if at.Some? then at.value else 0, LiveSnapshots.WritersOf(s))
  }

  function JournalOf(env: J.Env, j: J.Journal): P.Journal {
    P.Journal(StatusOf(j.status), j.tx.bytes, j.tx.signature, j.tx.digest, SnapshotOf(env, j.snapshot))
  }

  function AcceptsFor(env: J.Env, intent: FundingProgram.Intent, b: P.Bytes): bool {
    env.accepts(b, intent)
  }

  function SettingOf(env: J.Env, intent: FundingProgram.Intent): P.Setting {
    P.Setting(b => AcceptsFor(env, intent, b), env.digest, intent.writers)
  }

  /** Exactly the signatures the sender's key made verify. */
  ghost predicate Keyed(env: J.Env, intent: FundingProgram.Intent, signed: set<(P.Bytes, string)>) {
    forall b, sig :: env.verifies(b, sig, intent.sender) <==> (b, sig) in signed
  }

  /** A journal as the script builds it: for this intent, with texts that are not blank and a snapshot that was accepted. */
  ghost predicate Built(env: J.Env, j: J.Journal, intent: FundingProgram.Intent) {
    && J.Resumed(j.status) && j.intent == intent
    && LiveSnapshots.ParseSnapshot(env.p, env.date, LiveSnapshots.PrintSnapshot(j.snapshot), None) == Ok(j.snapshot)
    && j.tx.bytes != [] && NonBlank(j.tx.signature) && NonBlank(j.tx.digest)
  }

  lemma {:induction false} StatusesDiffer(status: string)
    ensures StatusOf(status) != P.Simulated <==> J.Resumed(status)
  {
  }

  /** The writers of a manifest object have different names. */
  lemma {:induction false} MatchesRefines(env: J.Env, intent: FundingProgram.Intent, s: LiveSnapshots.Snapshot)
    requires Distinct(LiveSnapshots.IdsOf(intent.writers))
    ensures LiveSnapshots.Matches(intent.writers, s) <==> SnapshotOf(env, s).writers == SettingOf(env, intent).writers
  {
    LiveSnapshots.MatchesIsEquality(intent.writers, s);
  }

  lemma {:induction false} RecoverableRefines(env: J.Env, intent: FundingProgram.Intent, signed: set<(P.Bytes, string)>, j: J.Journal)
    requires Keyed(env, intent, signed) && Distinct(LiveSnapshots.IdsOf(intent.writers)) && Built(env, j, intent)
    ensures J.Recoverable(env, j, intent) <==> P.Parses(SettingOf(env, intent), signed, JournalOf(env, j))
  {
    StatusesDiffer(j.status);
    MatchesRefines(env, intent, j.snapshot);
  }

  /** parseFundingJournal accepts the text of a journal the script builds if and only if the protocol's parse does. */
  lemma {:induction false} ParsesRefines(env: J.Env, intent: FundingProgram.Intent, signed: set<(P.Bytes, string)>, j: J.Journal)
    requires J.LawfulEnv(env) && J.CanonicalIntent(env.p, intent) && Distinct(LiveSnapshots.IdsOf(intent.writers))
    requires Keyed(env, intent, signed) && Built(env, j, intent)
    ensures J.ParseJournal(env, J.PrintJournal(env, j), intent) == Ok(j)
            <==> P.Parses(SettingOf(env, intent), signed, JournalOf(env, j))
  {
    RecoverableRefines(env, intent, signed, j);
    if J.Recoverable(env, j, intent) {
      J.JournalRoundTrip(env, j, intent);
    } else if J.ParseJournal(env, J.PrintJournal(env, j), intent) == Ok(j) {
      J.ParsedIsRecoverable(env, J.PrintJournal(env, j), intent, j);
    }
  }

  /** Whatever document it accepts, the protocol's parse accepts what is kept of it. */
  lemma {:induction false} ParsedRefines(env: J.Env, intent: FundingProgram.Intent, signed: set<(P.Bytes, string)>,
                                         o: Obj<J.RawJournal>, j: J.Journal)
    requires J.LawfulEnv(env) && Distinct(LiveSnapshots.IdsOf(intent.writers)) && Keyed(env, intent, signed)
    requires J.ParseJournal(env, o, intent) == Ok(j)
    ensures P.Parses(SettingOf(env, intent), signed, JournalOf(env, j))
  {
    J.ParsedIsRecoverable(env, o, intent, j);
    RecoverableRefines(env, intent, signed, j);
  }

  lemma {:induction false} FreshRefines(env: J.Env, intent: FundingProgram.Intent, o: Obj<LiveSnapshots.RawSnapshot>, now: int,
                                        s: LiveSnapshots.Snapshot)
    requires LiveSnapshots.ParseSnapshot(env.p, env.date, o, Some(now)) == Ok(s)
    ensures LiveSnapshots.FreshAt(env.date, s.collectedAt, now)
  {
  }

  /** A snapshot that passes reconcileLiveWriters reconciles in the protocol. */
  lemma {:induction false} ReconcilesRefines(env: J.Env, intent: FundingProgram.Intent, o: Obj<LiveSnapshots.RawSnapshot>, now: int,
                                             s: LiveSnapshots.Snapshot)
    requires Distinct(LiveSnapshots.IdsOf(intent.writers)) && J.ReconcileLiveWriters(env, intent.writers, o, now) == Ok(s)
    ensures P.Reconciles(SettingOf(env, intent), SnapshotOf(env, s), now)
  {
    FreshRefines(env, intent, o, now, s);
    MatchesRefines(env, intent, s);
  }

  /** A journal that any run wrote, as the script builds it, is read back by parseFundingJournal ever after. */
  lemma {:induction false} WrittenParses(env: J.Env, intent: FundingProgram.Intent, steps: seq<P.Step>, more: seq<P.Step>, j: J.Journal)
    requires J.LawfulEnv(env) && J.CanonicalIntent(env.p, intent) && Distinct(LiveSnapshots.IdsOf(intent.writers))
    requires Built(env, j, intent) && JournalOf(env, j) in P.After(SettingOf(env, intent), steps).written
    requires Keyed(env, intent, P.After(SettingOf(env, intent), steps + more).signed)
    ensures J.ParseJournal(env, J.PrintJournal(env, j), intent) == Ok(j)
  {
    P.WrittenStaysResumable(SettingOf(env, intent), steps, more, JournalOf(env, j));
    ParsesRefines(env, intent, P.After(SettingOf(env, intent), steps + more).signed, j);
  }
}
