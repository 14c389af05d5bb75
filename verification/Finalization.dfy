/** What all checks before finalizing say together, for the field and check names the script requires. */
module Finalization {
  import opened Outcomes
  import opened Text
  import opened Hex
  import opened SortedStrings
  import opened Manifest
  import opened CompletionEvidence
  import opened EvidenceAcceptance

  // ---- The required checks ----

  lemma {:induction false} ChecksAreDistinct()
    ensures Distinct(RequiredChecks())
  {
  }

  // ---- All checks together ----

  /** Evidence, expectations and registry agree: reviewed, complete, duplicate-free, conserved and imported. */
  ghost predicate Sound(p: Platform, h: Observed, e: Evidence, x: Expected, checks: seq<string>, base64: string -> seq<byte>, r: Registry) {
    && NormalRoute(p, e.route) == x.route && e.upload == x.upload && e.committee == x.committee && e.inventory == x.inventory
    && h.sha256 == x.sha256 && e.manifestSha256 == x.manifestSha256 && e.schemaVersion == 5 && e.complete
    && (forall c :: c in e.checkKeys <==> c in checks)
    && (forall c | c in checks :: c in e.checks && e.checks[c])
    && h.counts.Some? && CountsAgree(h.counts.value, e.audit, x.inventory)
    && (forall i, j | 0 <= i < j < |e.audit.orphans| :: PairLess(e.audit.orphans[i], e.audit.orphans[j]))
    && r.expectedAccounts == r.importedAccounts == Some(h.counts.value.accounts)
    && r.expectedDelegates == r.importedDelegates == Some(h.counts.value.delegates) && r.finalized == Some(false)
    && |RootBytes(base64, r.root)| == 32 && |e.manifestRoot| == 66
    && BytesOf(Lower(e.manifestRoot)[2..]) == RootBytes(base64, r.root)
  }

  /** Nothing is in flight or stray, the reviewed ids are a set as large as the dead count, and every row is accounted for. */
  predicate CountsAgree(c: Counts, a: Audit, x: Inventory) {
    && c.deleting == 0 && c.batches == 0 && c.orphanRows == 0 && 1 <= c.quiet <= 300
    && |Elements(a.deadIds)| == |a.deadIds| == c.reviewedDead == c.dead && "" !in a.deadIds && |a.orphans| == c.orphanBlobs
    && c.rows == c.live + c.drift == c.done + c.dead && c.drift <= c.dead && c.live == x.sourceLiveCount && c.imported == c.accounts
  }

  lemma {:induction false} AuditAgrees(p: Platform, k: Schema, h: Observed, a: Audit, x: Inventory)
    requires Lawful(p) && JudgeAudit(p, k, h, a, x).None?
    requires h.counts.Some? ==> h.counts.value.quiet > 0
    ensures h.counts.Some? && CountsAgree(h.counts.value, a, x)
    ensures forall i, j | 0 <= i < j < |a.orphans| :: PairLess(a.orphans[i], a.orphans[j])
  {
    AcceptedListsAreSets(p, k, h, a, x);
    AcceptedIsConserved(p, k, h, a, x);
  }

  lemma {:induction false} ChecksAreSound(p: Platform, k: Schema, h: Observed, e: Evidence, x: Expected, now: int,
                                          base64: string -> seq<byte>, r: Registry)
    requires Lawful(p) && Distinct(e.checkKeys) && Distinct(k.checks)
    requires JudgeHead(p, k, h, e, x, now).None? && JudgeAudit(p, k, h, e.audit, x.inventory).None?
    requires h.expires.Some? && h.counts.Some? && h.counts.value.quiet > 0 && RegistryComplete(base64, r, CompletionOf(h, e))
    ensures Sound(p, h, e, x, k.checks, base64, r)
  {
    HeadParts(p, k, h, e, x, now);
    RegistryPassesIff(base64, r, CompletionOf(h, e));
    AcceptedMatchesReview(p, k, h, e, x, now);
    AuditAgrees(p, k, h, e.audit, x.inventory);
    ImportsMatchManifest(p, k, h, e, x, now, base64, r);
  }

  /** Accepted evidence, in pieces. */
  lemma {:induction false} AcceptedParts(p: Platform, env: Env, k: Schema, raw: string, e: Evidence, x: Expected, now: int)
    requires ParseEvidence(p, env, k, raw, e, x, now).Accepted?
    ensures var h := Observe(env, raw, e);
            && JudgeHead(p, k, h, e, x, now).None? && JudgeAudit(p, k, h, e.audit, x.inventory).None?
            && h.expires.Some? && h.counts.Some? && h.counts.value.quiet > 0
            && ParseEvidence(p, env, k, raw, e, x, now).completion == CompletionOf(h, e)
  {
    AcceptedIff(p, env, k, raw, e, x, now);
    SecondsAreQuiet(e);
  }

  lemma {:induction false} SecondsAreQuiet(e: Evidence)
    requires ParseCounts(e).Some?
    ensures ParseCounts(e).value.quiet > 0
  {
    CountsIff(e, ParseCounts(e).value);
  }

  lemma {:induction false} AcceptedIsSound(p: Platform, env: Env, k: Schema, raw: string, e: Evidence, x: Expected, now: int,
                                           base64: string -> seq<byte>, r: Registry)
    requires Lawful(p) && Distinct(e.checkKeys) && Distinct(k.checks) && ParseEvidence(p, env, k, raw, e, x, now).Accepted?
    requires RegistryComplete(base64, r, ParseEvidence(p, env, k, raw, e, x, now).completion)
    ensures Sound(p, Observe(env, raw, e), e, x, k.checks, base64, r)
  {
    AcceptedParts(p, env, k, raw, e, x, now);
    ChecksAreSound(p, k, Observe(env, raw, e), e, x, now, base64, r);
  }

  /**
   * What the script finalizes: evidence accepted under its own field and check names, for a registry that passed, is
   * reviewed, complete, duplicate-free, conserved and imported.
   */
  lemma {:induction false} FinalizedIsSound(p: Platform, env: Env, raw: string, e: Evidence, x: Expected, now: int,
                                            base64: string -> seq<byte>, r: Registry, k: Schema)
    requires k == FinalizeSchema() && Lawful(p) && Distinct(e.checkKeys) && ParseEvidence(p, env, k, raw, e, x, now).Accepted?
    requires RegistryComplete(base64, r, ParseEvidence(p, env, k, raw, e, x, now).completion)
    ensures Sound(p, Observe(env, raw, e), e, x, RequiredChecks(), base64, r)
  {
    ChecksAreDistinct();
    assert k.checks == RequiredChecks();
    AcceptedIsSound(p, env, k, raw, e, x, now, base64, r);
  }

  // ---- Counts are read as they were printed ----

  predicate Prints(text: string, n: nat) {
    n <= U64_MAX && text == Decimal(n)
  }

  /** Every count of the evidence is the decimal text of its value. */
  predicate PrintsCounts(e: Evidence, c: Counts) {
    var a := e.audit;
    && Prints(e.accounts, c.accounts) && Prints(e.delegates, c.delegates) && Prints(a.sourceLive, c.live)
    && Prints(a.sourceDeleting, c.deleting) && Prints(a.deletionBatches, c.batches) && Prints(a.migrationRows, c.rows)
    && Prints(a.destinationOrphans, c.orphanRows) && Prints(a.reviewedDead, c.reviewedDead) && Prints(a.orphanCount, c.orphanBlobs)
    && Prints(a.importedAccounts, c.imported) && Prints(a.done, c.done) && Prints(a.dead, c.dead)
    && Prints(a.driftSwept, c.drift) && Prints(e.quietSeconds, c.quiet)
  }

  lemma {:induction false} ReadBack(text: string, n: nat)
    requires Prints(text, n)
    ensures ParseU64(text) == Some(n) && (ParsePositiveU64(text) == if n > 0 then Some(n) else None)
  {
    U64RoundTrip(n);
  }

  /** Printed counts are read back; the five that must be positive are refused exactly when one of them is not. */
  lemma {:induction false} CountsRoundTrip(e: Evidence, c: Counts)
    requires PrintsCounts(e, c)
    ensures ParseCounts(e) == if c.accounts > 0 && c.live > 0 && c.rows > 0 && c.imported > 0 && c.quiet > 0 then Some(c) else None
  {
    var a := e.audit;
    ReadBack(e.accounts, c.accounts);
    ReadBack(e.delegates, c.delegates);
    ReadBack(a.sourceLive, c.live);
    ReadBack(a.sourceDeleting, c.deleting);
    ReadBack(a.deletionBatches, c.batches);
    ReadBack(a.migrationRows, c.rows);
    ReadBack(a.destinationOrphans, c.orphanRows);
    ReadBack(a.reviewedDead, c.reviewedDead);
    ReadBack(a.orphanCount, c.orphanBlobs);
    ReadBack(a.importedAccounts, c.imported);
    ReadBack(a.done, c.done);
    ReadBack(a.dead, c.dead);
    ReadBack(a.driftSwept, c.drift);
    ReadBack(e.quietSeconds, c.quiet);
  }
}
