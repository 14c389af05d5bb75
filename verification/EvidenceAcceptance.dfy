/** Exactly which evidence, and which registry, the finalizing script accepts, and what it makes of them. */
module EvidenceAcceptance {
  import opened Outcomes
  import opened Text
  import opened Hex
  import opened SortedStrings
  import opened Manifest
  import opened CompletionEvidence

  // ---- Good evidence, without reference to how it is checked ----

  predicate HexText(s: string, n: nat) {
    |s| == n && forall i | 0 <= i < n :: '0' <= s[i] <= '9' || 'a' <= s[i] <= 'f'
  }

  /** A 32-byte root in text, in either case of the letters. */
  predicate RootText(s: string) {
    |s| == 66 && Lower(s)[0] == '0' && Lower(s)[1] == 'x' && HexText(Lower(s)[2..], 64)
  }

  /** The same field names, in any order. */
  predicate SameNames(keys: seq<string>, expected: seq<string>) {
    multiset(keys) == multiset(expected)
  }

  predicate NamesFit(k: Schema, e: Evidence) {
    SameNames(e.keys, k.evidence) && SameNames(e.routeKeys, k.route) && SameNames(e.audit.keys, k.audit)
    && SameNames(e.audit.safetyKeys, k.safety) && SameNames(e.checkKeys, k.checks)
  }

  /** Made no later than a minute from now, still valid, and for at most a quarter of an hour. */
  predicate Timely(generated: Option<int>, expires: Option<int>, now: int) {
    generated.Some? && expires.Some?
    && var g, t := generated.value, expires.value;
       g - 60_000 <= now < t && 0 < t - g <= 900_000
  }

  predicate Reviewed(p: Platform, k: Schema, e: Evidence, x: Expected) {
    && NormalRoute(p, e.route) == x.route && e.upload == x.upload && e.committee == x.committee && e.inventory == x.inventory
    && HexText(x.manifestSha256, 64) && e.manifestSha256 == x.manifestSha256
    && e.scope == k.scope && e.authorityPolicy == k.authorityPolicy && RootText(e.manifestRoot)
    && forall c | c in k.checks :: c in e.checks && e.checks[c]
  }

  predicate GoodHead(p: Platform, env: Env, k: Schema, raw: string, e: Evidence, x: Expected, now: int) {
    && raw == env.stringify(e) && NamesFit(k, e)
    && HexText(x.sha256, 64) && env.sha256(raw) == x.sha256
    && e.schemaVersion == 5 && e.complete
    && Timely(env.date(e.generatedAt), env.date(e.expiresAt), now)
    && Reviewed(p, k, e, x)
  }

  /** The dead ids are the sorted list of a set of non-empty ids, under the digest of exactly that list. */
  predicate GoodDeadIds(env: Env, a: Audit) {
    "" !in a.deadIds && Distinct(a.deadIds) && Sort(a.deadIds) == a.deadIds && env.sha256(env.printIds(a.deadIds)) == a.deadIdsSha256
  }

  predicate GoodOrphan(p: Platform, k: Schema, o: Orphan) {
    && SameNames(o.keys, k.orphan) && o.blobId != "" && o.legacyEntryId != ""
    && p.validAddress(o.owner) && p.normAddress(o.owner) == o.owner && p.validAddress(o.objectId) && p.normAddress(o.objectId) == o.objectId
  }

  /** The orphans are complete entries in the order of owner and blob, under the digest of exactly that list. */
  predicate GoodOrphans(p: Platform, env: Env, k: Schema, a: Audit) {
    && (forall i | 0 <= i < |a.orphans| :: GoodOrphan(p, k, a.orphans[i]))
    && (forall i, j | 0 <= i < j < |a.orphans| :: PairLess(a.orphans[i], a.orphans[j]))
    && env.sha256(env.printOrphans(a.orphans)) == a.orphansSha256
  }

  /** The text is a decimal number that fits 64 bits. */
  predicate Writes(text: string, n: nat) {
    IsDigits(text) && DigitsValue(text) == n && n < 0x1_0000_0000_0000_0000
  }

  predicate WritesCounts(e: Evidence, c: Counts) {
    var a := e.audit;
    && Writes(e.accounts, c.accounts) && Writes(e.delegates, c.delegates) && Writes(e.quietSeconds, c.quiet)
    && Writes(a.sourceLive, c.live) && Writes(a.sourceDeleting, c.deleting) && Writes(a.deletionBatches, c.batches)
    && Writes(a.migrationRows, c.rows) && Writes(a.destinationOrphans, c.orphanRows) && Writes(a.reviewedDead, c.reviewedDead)
    && Writes(a.orphanCount, c.orphanBlobs) && Writes(a.importedAccounts, c.imported) && Writes(a.done, c.done)
    && Writes(a.dead, c.dead) && Writes(a.driftSwept, c.drift)
  }

  /** Nothing is in flight or stray, everything reviewed is counted, and every row is accounted for. */
  predicate GoodCounts(c: Counts, a: Audit, x: Inventory) {
    && c.deleting == 0 && c.batches == 0 && c.orphanRows == 0 && 1 <= c.quiet <= 300
    && c.imported == c.accounts > 0 && c.live == x.sourceLiveCount > 0 && a.sourceSha256 == x.snapshotSha256
    && |a.deadIds| == c.reviewedDead == c.dead && |a.orphans| == c.orphanBlobs
    && c.drift <= c.dead && c.rows == c.done + c.dead == c.live + c.drift
  }

  predicate GoodAudit(p: Platform, env: Env, k: Schema, a: Audit) {
    && HexText(a.sourceSha256, 64) && HexText(a.authoritySha256, 64) && HexText(a.deadIdsSha256, 64)
    && HexText(a.orphansSha256, 64) && HexText(a.destinationSha256, 64)
    && GoodDeadIds(env, a) && GoodOrphans(p, env, k, a)
  }

  predicate Good(p: Platform, env: Env, k: Schema, raw: string, e: Evidence, x: Expected, now: int, c: Counts) {
    GoodHead(p, env, k, raw, e, x, now) && GoodAudit(p, env, k, e.audit) && WritesCounts(e, c) && GoodCounts(c, e.audit, x.inventory)
  }

  // ---- The head ----

  lemma {:induction false} Sha256Iff(s: string)
    ensures IsSha256(s) <==> HexText(s, 64)
  {
  }

  lemma {:induction false} RootIff(s: string)
    ensures IsRoot(Lower(s)) <==> RootText(s)
  {
    if |s| == 66 {
      var r := Lower(s);
      assert r[..2] == [r[0], r[1]];
    }
  }

  lemma {:induction false} NamesIff(k: Schema, e: Evidence)
    ensures ShapeFits(k, e) <==> NamesFit(k, e)
  {
    SameSortedIff(e.keys, k.evidence);
    SameSortedIff(e.routeKeys, k.route);
    SameSortedIff(e.audit.keys, k.audit);
    SameSortedIff(e.audit.safetyKeys, k.safety);
    SameSortedIff(e.checkKeys, k.checks);
  }

  lemma {:induction false} ReviewedIff(p: Platform, k: Schema, e: Evidence, x: Expected)
    ensures JudgeReview(p, k, e, x).None? <==> Reviewed(p, k, e, x)
  {
    Sha256Iff(x.manifestSha256);
    RootIff(e.manifestRoot);
  }

  lemma {:induction false} TimelyIff(h: Observed, now: int)
    ensures TimesFit(h, now) <==> Timely(h.generated, h.expires, now)
  {
  }

  lemma {:induction false} HeadParts(p: Platform, k: Schema, h: Observed, e: Evidence, x: Expected, now: int)
    ensures JudgeHead(p, k, h, e, x, now).None?
            <==> h.canonical && ShapeFits(k, e) && IsSha256(x.sha256) && h.sha256 == x.sha256 && e.schemaVersion == 5 && e.complete
                 && TimesFit(h, now) && JudgeReview(p, k, e, x).None?
  {
  }

  lemma {:induction false} HeadIff(p: Platform, env: Env, k: Schema, raw: string, e: Evidence, x: Expected, now: int)
    ensures JudgeHead(p, k, Observe(env, raw, e), e, x, now).None? <==> GoodHead(p, env, k, raw, e, x, now)
  {
    var h := Observe(env, raw, e);
    HeadParts(p, k, h, e, x, now);
    NamesIff(k, e);
    Sha256Iff(x.sha256);
    TimelyIff(h, now);
    ReviewedIff(p, k, e, x);
  }

  // ---- The audit ----

  lemma {:induction false} OrphanIff(p: Platform, k: Schema, o: Orphan)
    ensures OrphanFits(p, k, o) <==> GoodOrphan(p, k, o)
  {
    SameSortedIff(o.keys, k.orphan);
  }

  lemma {:induction false} OrphansIff(p: Platform, env: Env, k: Schema, h: Observed, a: Audit)
    requires Lawful(p) && h.orphansSha256 == env.sha256(env.printOrphans(a.orphans))
    ensures OrphansFit(p, h, k, a) <==> GoodOrphans(p, env, k, a)
  {
    forall i | 0 <= i < |a.orphans| ensures OrphanFits(p, k, a.orphans[i]) <==> GoodOrphan(p, k, a.orphans[i]) {
      OrphanIff(p, k, a.orphans[i]);
    }
    if OrphansFit(p, h, k, a) {
      forall i, j | 0 <= i < j < |a.orphans| ensures PairLess(a.orphans[i], a.orphans[j]) {
        OrphansAreDistinct(p, h, k, a, i, j);
      }
    } else if GoodOrphans(p, env, k, a) {
      forall i | 0 < i < |a.orphans| ensures Less(Composite(a.orphans[i - 1]), Composite(a.orphans[i])) {
        assert GoodOrphan(p, k, a.orphans[i - 1]) && GoodOrphan(p, k, a.orphans[i]);
        CompositeOrder(p, a.orphans[i - 1], a.orphans[i]);
      }
    }
  }

  lemma {:induction false} WritesIff(text: string, n: nat)
    ensures Writes(text, n) <==> ParseU64(text) == Some(n)
    ensures Writes(text, n) && n > 0 <==> ParsePositiveU64(text) == Some(n)
  {
  }

  /** Counts are read exactly if each is written as a decimal number, the five that must not be zero being none. */
  lemma {:induction false} CountsIff(e: Evidence, c: Counts)
    ensures ParseCounts(e) == Some(c)
            <==> WritesCounts(e, c) && c.accounts > 0 && c.live > 0 && c.rows > 0 && c.imported > 0 && c.quiet > 0
  {
    var a := e.audit;
    WritesIff(e.accounts, c.accounts);
    WritesIff(e.delegates, c.delegates);
    WritesIff(e.quietSeconds, c.quiet);
    WritesIff(a.sourceLive, c.live);
    WritesIff(a.sourceDeleting, c.deleting);
    WritesIff(a.deletionBatches, c.batches);
    WritesIff(a.migrationRows, c.rows);
    WritesIff(a.destinationOrphans, c.orphanRows);
    WritesIff(a.reviewedDead, c.reviewedDead);
    WritesIff(a.orphanCount, c.orphanBlobs);
    WritesIff(a.importedAccounts, c.imported);
    WritesIff(a.done, c.done);
    WritesIff(a.dead, c.dead);
    WritesIff(a.driftSwept, c.drift);
  }

  lemma {:induction false} CountsFitIff(c: Counts, a: Audit, x: Inventory)
    requires c.accounts > 0 && c.live > 0 && c.rows > 0 && c.imported > 0 && c.quiet > 0
    ensures CountsFit(c, a, x) <==> GoodCounts(c, a, x)
  {
  }

  lemma {:induction false} DigestsIff(a: Audit)
    ensures DigestsFit(a) <==> HexText(a.sourceSha256, 64) && HexText(a.authoritySha256, 64) && HexText(a.deadIdsSha256, 64)
                               && HexText(a.orphansSha256, 64) && HexText(a.destinationSha256, 64)
  {
  }

  lemma {:induction false} AuditIff(p: Platform, env: Env, k: Schema, raw: string, e: Evidence, x: Inventory)
    requires Lawful(p)
    ensures var h := Observe(env, raw, e);
            JudgeAudit(p, k, h, e.audit, x).None?
            <==> GoodAudit(p, env, k, e.audit) && h.counts.Some? && CountsFit(h.counts.value, e.audit, x)
  {
    var h := Observe(env, raw, e);
    DigestsIff(e.audit);
    DeadIdsFitIff(h, e.audit);
    OrphansIff(p, env, k, h, e.audit);
  }

  // ---- All together ----

  lemma {:induction false} AcceptedIsGood(p: Platform, env: Env, k: Schema, raw: string, e: Evidence, x: Expected, now: int) returns (c: Counts)
    requires Lawful(p) && ParseEvidence(p, env, k, raw, e, x, now).Accepted?
    ensures Good(p, env, k, raw, e, x, now, c) && ParseCounts(e) == Some(c)
  {
    AcceptedIff(p, env, k, raw, e, x, now);
    HeadIff(p, env, k, raw, e, x, now);
    AuditIff(p, env, k, raw, e, x.inventory);
    c := ParseCounts(e).value;
    CountsIff(e, c);
    CountsFitIff(c, e.audit, x.inventory);
  }

  lemma {:induction false} GoodIsAccepted(p: Platform, env: Env, k: Schema, raw: string, e: Evidence, x: Expected, now: int, c: Counts)
    requires Lawful(p) && Good(p, env, k, raw, e, x, now, c)
    ensures ParseEvidence(p, env, k, raw, e, x, now).Accepted? && ParseCounts(e) == Some(c)
  {
    CountsIff(e, c);
    CountsFitIff(c, e.audit, x.inventory);
    HeadIff(p, env, k, raw, e, x, now);
    AuditIff(p, env, k, raw, e, x.inventory);
    AcceptedIff(p, env, k, raw, e, x, now);
  }

  /** Evidence is accepted if and only if it is good. */
  lemma {:induction false} EvidenceAcceptedIff(p: Platform, env: Env, k: Schema, raw: string, e: Evidence, x: Expected, now: int)
    requires Lawful(p)
    ensures ParseEvidence(p, env, k, raw, e, x, now).Accepted? <==> exists c :: Good(p, env, k, raw, e, x, now, c)
  {
    if ParseEvidence(p, env, k, raw, e, x, now).Accepted? {
      var c := AcceptedIsGood(p, env, k, raw, e, x, now);
    }
    if c :| Good(p, env, k, raw, e, x, now, c) {
      GoodIsAccepted(p, env, k, raw, e, x, now, c);
    }
  }

  /** What is kept of accepted evidence: the digest of the text, when it expires, the root in lower case, and the two counts. */
  lemma {:induction false} CompletionIs(p: Platform, env: Env, k: Schema, raw: string, e: Evidence, x: Expected, now: int, c: Counts)
    requires Lawful(p) && Good(p, env, k, raw, e, x, now, c)
    ensures var r := ParseEvidence(p, env, k, raw, e, x, now);
            && r.Accepted? && r.completion.sha256 == env.sha256(raw) && Some(r.completion.expiresAt) == env.date(e.expiresAt)
            && r.completion.root == Lower(e.manifestRoot) && r.completion.accounts == c.accounts && r.completion.delegates == c.delegates
  {
    GoodIsAccepted(p, env, k, raw, e, x, now, c);
    AcceptedIff(p, env, k, raw, e, x, now);
  }

  /** The registry has the evidence's root and counts, everything is imported, and the migration is not finalized yet. */
  predicate GoodRegistry(base64: string -> seq<byte>, r: Registry, c: Completion) {
    && |c.root| >= 2 && c.root[..2] == "0x" && HexOf(RootBytes(base64, r.root)) == c.root[2..]
    && r.expectedAccounts == r.importedAccounts == Some(c.accounts)
    && r.expectedDelegates == r.importedDelegates == Some(c.delegates)
    && r.finalized == Some(false)
  }

  lemma {:induction false} RegistryPassesIff(base64: string -> seq<byte>, r: Registry, c: Completion)
    ensures RegistryComplete(base64, r, c) <==> GoodRegistry(base64, r, c)
  {
    var h := HexOf(RootBytes(base64, r.root));
    assert ("0x" + h)[..2] == "0x" && ("0x" + h)[2..] == h;
    if |c.root| >= 2 {
      assert c.root == c.root[..2] + c.root[2..];
    }
  }
}
