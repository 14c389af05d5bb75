/** Sorted lists of strings as canonical forms of sets and multisets. */
module SortedStrings {
  import opened Text
  import opened Manifest

  predicate StrictlySorted(s: seq<string>) {
    forall i | 0 < i < |s| :: Less(s[i - 1], s[i])
  }

  lemma {:induction false} LessFar(s: seq<string>, i: nat, j: nat)
    requires StrictlySorted(s) && i < j < |s|
    ensures Less(s[i], s[j])
  {
    assert Less(s[j - 1], s[j]);
    if i < j - 1 {
      LessFar(s, i, j - 1);
      LessTransitive(s[i], s[j - 1], s[j]);
    }
  }

  /** Neighbours in strict order make all entries distinct. */
  lemma {:induction false} SortedIsDistinct(s: seq<string>)
    requires StrictlySorted(s)
    ensures Distinct(s)
  {
    forall i, j | 0 <= i < j < |s| ensures s[i] != s[j] {
      LessFar(s, i, j);
      LessIrreflexive(s[i]);
    }
  }

  function Elements(s: seq<string>): set<string> {
    set x | x in s
  }

  /** A list without duplicates has as many entries as its set. */
  lemma {:induction false} DistinctCount(s: seq<string>)
    ensures |Elements(s)| <= |s|
    ensures |Elements(s)| == |s| <==> Distinct(s)
  {
    if s != [] {
      var n := |s| - 1;
      var init, last := s[..n], s[n];
      DistinctCount(init);
      assert s == init + [last];
      assert Elements(s) == Elements(init) + {last};
      if last in init {
        var i :| 0 <= i < n && init[i] == last;
        assert s[i] == s[n];
        assert Elements(s) == Elements(init);
      } else {
        assert Distinct(s) <==> Distinct(init) by {
          assert forall i | 0 <= i < n :: s[i] == init[i] && init[i] in init;
        }
      }
    }
  }

  /** A set has exactly one strictly sorted list. */
  lemma {:induction false} SortedIsCanonical(a: seq<string>, b: seq<string>)
    requires StrictlySorted(a) && StrictlySorted(b) && Elements(a) == Elements(b)
    ensures a == b
  {
    if a != [] && b != [] {
      FirstIsLeast(a, b);
      FirstIsLeast(b, a);
      LessFirst(a, b);
      TailElements(a);
      TailElements(b);
      assert StrictlySorted(a[1..]) && StrictlySorted(b[1..]) by { TailSorted(a); TailSorted(b); }
      SortedIsCanonical(a[1..], b[1..]);
    } else {
      DistinctCount(a);
      DistinctCount(b);
      SortedIsDistinct(a);
      SortedIsDistinct(b);
    }
  }

  lemma {:induction false} TailSorted(s: seq<string>)
    requires StrictlySorted(s) && s != []
    ensures StrictlySorted(s[1..])
  {
  }

  lemma {:induction false} TailElements(s: seq<string>)
    requires StrictlySorted(s) && s != []
    ensures Elements(s[1..]) == Elements(s) - {s[0]}
  {
    SortedIsDistinct(s);
    assert s == [s[0]] + s[1..];
    forall x | x in s[1..] ensures x != s[0] {
      var i :| 0 <= i < |s| - 1 && s[1..][i] == x;
      assert s[0] != s[i + 1];
    }
  }

  /** The first entry of one list is not after the first entry of another with the same elements. */
  lemma {:induction false} FirstIsLeast(a: seq<string>, b: seq<string>)
    requires StrictlySorted(a) && a != [] && b != [] && Elements(a) == Elements(b)
    ensures a[0] == b[0] || Less(a[0], b[0])
  {
    assert b[0] in Elements(b);
    var i :| 0 <= i < |a| && a[i] == b[0];
    if i > 0 {
      LessFar(a, 0, i);
    }
  }

  lemma {:induction false} LessFirst(a: seq<string>, b: seq<string>)
    requires a != [] && b != []
    requires (a[0] == b[0] || Less(a[0], b[0])) && (b[0] == a[0] || Less(b[0], a[0]))
    ensures a[0] == b[0]
  {
    if a[0] != b[0] {
      LessTransitive(a[0], b[0], a[0]);
      LessIrreflexive(a[0]);
    }
  }

  // ---- Array.prototype.sort on strings ----

  function Insert(x: string, s: seq<string>): (r: seq<string>)
    ensures multiset(r) == multiset(s) + multiset{x}
  {
    if s == [] || !Less(s[0], x) then [x] + s
    else
      assert s == [s[0]] + s[1..];
      [s[0]] + Insert(x, s[1..])
  }

  function Sort(s: seq<string>): (r: seq<string>)
    ensures multiset(r) == multiset(s)
  {
    if s == [] then [] else assert s == [s[0]] + s[1..]; Insert(s[0], Sort(s[1..]))
  }

  /** Nothing in the list comes before x. */
  predicate Least(x: string, s: seq<string>) {
    forall y | y in s :: !Less(y, x)
  }

  /** The head of every tail is least in it: sortedness in the form that inductions use. */
  predicate Ascending(s: seq<string>) {
    s == [] || (Least(s[0], s[1..]) && Ascending(s[1..]))
  }

  lemma {:induction false} NotLessTransitive(x: string, y: string, z: string)
    requires !Less(y, x) && !Less(z, y)
    ensures !Less(z, x)
  {
    LessTotal(x, y);
    LessTotal(y, z);
    if Less(z, x) {
      if Less(x, y) {
        LessTransitive(z, x, y);
      }
    }
  }

  lemma {:induction false} InsertAscends(x: string, s: seq<string>)
    requires Ascending(s)
    ensures Ascending(Insert(x, s))
  {
    if s == [] {
    } else if !Less(s[0], x) {
      forall y | y in s ensures !Less(y, x) {
        if y != s[0] {
          NotLessTransitive(x, s[0], y);
        }
      }
      assert ([x] + s)[1..] == s;
    } else {
      InsertAscends(x, s[1..]);
      var r := Insert(x, s[1..]);
      forall y | y in r ensures !Less(y, s[0]) {
        assert y in multiset(r);
        if y == x && Less(x, s[0]) {
          LessTransitive(s[0], x, s[0]);
          LessIrreflexive(s[0]);
        }
      }
      assert ([s[0]] + r)[1..] == r;
    }
  }

  lemma {:induction false} SortAscends(s: seq<string>)
    ensures Ascending(Sort(s))
  {
    if s != [] {
      SortAscends(s[1..]);
      InsertAscends(s[0], Sort(s[1..]));
    }
  }

  lemma {:induction false} SameFirst(a: seq<string>, b: seq<string>)
    requires Ascending(a) && Ascending(b) && multiset(a) == multiset(b) && a != [] && b != []
    ensures a[0] == b[0]
  {
    assert a == [a[0]] + a[1..] && b == [b[0]] + b[1..];
    assert a[0] in multiset(b) && b[0] in multiset(a);
    LessTotal(a[0], b[0]);
  }

  lemma {:induction false} TailMultiset(a: seq<string>)
    requires a != []
    ensures multiset(a[1..]) == multiset(a) - multiset{a[0]}
  {
    assert a == [a[0]] + a[1..];
  }

  /** A multiset has exactly one ascending list. */
  lemma {:induction false} AscendingIsCanonical(a: seq<string>, b: seq<string>)
    requires Ascending(a) && Ascending(b) && multiset(a) == multiset(b)
    ensures a == b
  {
    assert |multiset(a)| == |a| && |multiset(b)| == |b|;
    if a != [] {
      SameFirst(a, b);
      TailMultiset(a);
      TailMultiset(b);
      AscendingIsCanonical(a[1..], b[1..]);
      assert a == [a[0]] + a[1..] && b == [b[0]] + b[1..];
    }
  }

  /** Comparing sorted lists is comparing multisets. */
  lemma {:induction false} SameSortedIff(a: seq<string>, b: seq<string>)
    ensures Sort(a) == Sort(b) <==> multiset(a) == multiset(b)
  {
    SortAscends(a);
    SortAscends(b);
    if multiset(a) == multiset(b) {
      AscendingIsCanonical(Sort(a), Sort(b));
    }
  }

  lemma {:induction false} DistinctMultiset(s: seq<string>, x: string)
    requires Distinct(s)
    ensures multiset(s)[x] == if x in s then 1 else 0
  {
    if s != [] {
      var n := |s| - 1;
      DistinctMultiset(s[..n], x);
      assert s == s[..n] + [s[n]];
    }
  }

  /** For lists without duplicates it is comparing sets. */
  lemma {:induction false} SameSetIff(a: seq<string>, b: seq<string>)
    requires Distinct(a) && Distinct(b)
    ensures Sort(a) == Sort(b) <==> Elements(a) == Elements(b)
  {
    SameSortedIff(a, b);
    if Elements(a) == Elements(b) {
      forall x ensures multiset(a)[x] == multiset(b)[x] {
        DistinctMultiset(a, x);
        DistinctMultiset(b, x);
        assert x in Elements(a) <==> x in Elements(b);
      }
    }
    MultisetElements(a);
    MultisetElements(b);
  }

  lemma {:induction false} MultisetElements(s: seq<string>)
    ensures Elements(s) == set x | x in multiset(s)
  {
  }

  /** Code-unit order of texts with equally long prefixes is the lexicographic order of the pairs. */
  lemma {:induction false} LessOfPairs(x: string, s: string, y: string, t: string)
    requires |x| == |y|
    ensures Less(x + s, y + t) <==> Less(x, y) || (x == y && Less(s, t))
  {
    if x == "" {
      assert x + s == s && y + t == t;
    } else {
      assert (x + s)[1..] == x[1..] + s && (y + t)[1..] == y[1..] + t;
      LessOfPairs(x[1..], s, y[1..], t);
      assert x == [x[0]] + x[1..] && y == [y[0]] + y[1..];
    }
  }
}

/** The checks before a migration is finalized: the completion evidence, the Seal committee and the registry on chain. */
module CompletionEvidence {
  import opened Outcomes
  import opened Text
  import opened Hex
  import opened SortedStrings
  import opened Manifest

  // ---- The committee ----

  const MAX_SEAL_WEIGHTED_SERVERS := 254

  datatype Server = Server(objectId: string, weight: int)
  datatype Committee = Committee(servers: seq<Server>, threshold: int)

  /** assertObjectId and assertAddress leave the text as it is. */
  predicate Canonical(p: Platform, s: string) {
    p.validAddress(s) && p.normAddress(s) == s
  }

  function Ids(servers: seq<Server>): seq<string> {
    seq(|servers|, i requires 0 <= i < |servers| => servers[i].objectId)
  }

  function TotalWeight(servers: seq<Server>): int {
    if servers == [] then 0 else TotalWeight(servers[..|servers| - 1]) + servers[|servers| - 1].weight
  }

  /** The total is the sum over all servers, each with its own weight. */
  lemma {:induction false} TotalWeightAdds(a: seq<Server>, b: seq<Server>)
    ensures TotalWeight(a + b) == TotalWeight(a) + TotalWeight(b)
    ensures forall s :: TotalWeight([s]) == s.weight
  {
    if b == [] {
      assert a + b == a;
    } else {
      var n := |b| - 1;
      assert (a + b)[..|a| + n] == a + b[..n] && (a + b)[|a| + n] == b[n];
      TotalWeightAdds(a, b[..n]);
    }
  }

  function ParseCommittee(p: Platform, c: Committee): Result<Committee> {
    if c.servers == [] || c.threshold <= 0 then Err(Reason.NoServersOrThreshold)
    else if exists i | 0 <= i < |c.servers| :: !Canonical(p, c.servers[i].objectId) || c.servers[i].weight <= 0
    then Err(Reason.BadServer)
    else if |Elements(Ids(c.servers))| != |c.servers| then Err(Reason.DuplicateServerObjectIDs)
    else if TotalWeight(c.servers) > MAX_SEAL_WEIGHTED_SERVERS || c.threshold > TotalWeight(c.servers)
    then Err(Reason.TooManyServerSlots)
    else Ok(c)
  }

  lemma {:induction false} WeightsCount(servers: seq<Server>)
    requires forall i | 0 <= i < |servers| :: servers[i].weight > 0
    ensures |servers| <= TotalWeight(servers)
    ensures forall i | 0 <= i < |servers| :: servers[i].weight <= TotalWeight(servers) - |servers| + 1
  {
    if servers != [] {
      WeightsCount(servers[..|servers| - 1]);
    }
  }

  /** Exactly the committees of distinct canonical servers whose slots the threshold can be met with are accepted. */
  lemma {:induction false} CommitteeAcceptedIff(p: Platform, c: Committee)
    ensures ParseCommittee(p, c).Ok? <==>
              && (forall i | 0 <= i < |c.servers| :: Canonical(p, c.servers[i].objectId) && c.servers[i].weight >= 1)
              && (forall i, j | 0 <= i < j < |c.servers| :: c.servers[i].objectId != c.servers[j].objectId)
              && 1 <= c.threshold <= TotalWeight(c.servers) <= 254
    ensures ParseCommittee(p, c).Ok? ==> ParseCommittee(p, c).value == c
    ensures ParseCommittee(p, c).Ok? ==> 1 <= |c.servers| <= 254 && forall i | 0 <= i < |c.servers| :: c.servers[i].weight <= 254
  {
    DistinctCount(Ids(c.servers));
    if forall i | 0 <= i < |c.servers| :: c.servers[i].weight >= 1 {
      WeightsCount(c.servers);
    }
    assert Distinct(Ids(c.servers)) <==>
      (forall i, j | 0 <= i < j < |c.servers| :: c.servers[i].objectId != c.servers[j].objectId) by {
      assert forall i | 0 <= i < |c.servers| :: Ids(c.servers)[i] == c.servers[i].objectId;
    }
  }

  // ---- Exact keys ----

  /** assertExactKeys on the keys of an object. */
  predicate ExactKeys(keys: seq<string>, expected: seq<string>) {
    Sort(keys) == Sort(expected)
  }

  /** The keys of an object are distinct, so it has exactly the expected fields: none missing, none unknown. */
  lemma {:induction false} ExactKeysIff(keys: seq<string>, expected: seq<string>)
    requires Distinct(keys) && Distinct(expected)
    ensures ExactKeys(keys, expected) <==> (forall k :: k in keys <==> k in expected)
  {
    SameSetIff(keys, expected);
    assert forall k :: k in keys <==> k in Elements(keys);
    assert forall k :: k in expected <==> k in Elements(expected);
  }

  // ---- The evidence ----

  datatype UploadRoute = UploadRoute(network: string, chain: string, package_: string, retentionEpochs: int)
  datatype Inventory = Inventory(dbCutoverRev: string, sourceLiveCount: nat, snapshotSha256: string)

  datatype Orphan = Orphan(keys: seq<string>, owner: string, blobId: string, objectId: string, legacyEntryId: string)

  datatype Route = Route(srcPackage: string, srcRegistry: string, dstPackage: string, dstRegistry: string, dbCutoverRev: string)

  /** Counts are kept as the text that `String(value ?? "")` gives. */
  datatype Audit = Audit(
    keys: seq<string>, safetyKeys: seq<string>,
    sourceLive: string, sourceDeleting: string, deletionBatches: string, migrationRows: string, destinationOrphans: string,
    reviewedDead: string, deadIds: seq<string>, deadIdsSha256: string,
    orphanCount: string, orphans: seq<Orphan>, orphansSha256: string,
    sourceSha256: string, authoritySha256: string, destinationSha256: string,
    importedAccounts: string, done: string, dead: string, driftSwept: string)

  datatype Evidence = Evidence(
    keys: seq<string>, routeKeys: seq<string>, checkKeys: seq<string>,
    schemaVersion: int, complete: bool, generatedAt: string, expiresAt: string,
    route: Route, manifestRoot: string, upload: UploadRoute, committee: Committee, inventory: Inventory,
    manifestSha256: string, scope: string, authorityPolicy: string,
    accounts: string, delegates: string, quietSeconds: string,
    audit: Audit, checks: map<string, bool>)

  /** The field names each object must have, and the fixed texts. */
  datatype Schema = Schema(
    evidence: seq<string>, route: seq<string>, audit: seq<string>, safety: seq<string>, checks: seq<string>, orphan: seq<string>,
    scope: string, authorityPolicy: string)

  function RequiredChecks(): seq<string> {
    ["sourceDbWriteFenceHeld", "destinationDbWriteFenceHeld", "sourceAuthorityCutoffPinned",
     "sourceInventoryMatchesReviewedCommitment", "sourceSnapshotsStable", "sourceDeletionQueueDrained", "controllerExcluded",
     "allRowsTerminal", "sourceAndDestinationMatch", "noOrphanedDestinationRows", "strandedReplacementBlobsReviewed",
     "accountsComplete", "noChainAmbiguity", "noUnsafeUploadJournals", "destinationBlobsLive",
     "destinationDecryptCanaryVerified", "destinationCanaryOwnerScoped", "walrusUploadRouteMatchesReviewedPolicy",
     "sealEncryptCommitteeMatchesReviewedPolicy"]
  }

  function FinalizeSchema(): Schema {
    Schema(
      ["schemaVersion", "generatedAt", "expiresAt", "complete", "route", "walrusUploadRoute", "sealEncryptCommitteeIdentity",
       "reviewedSourceInventory", "manifestSha256", "manifestScope", "sourceAuthorityPolicy", "manifestAccountCount",
       "manifestDelegateCount", "quietSeconds", "audit", "checks"],
      ["srcPackageId", "srcRegistryId", "dstPackageId", "dstRegistryId", "dbCutoverRev", "manifestRoot"],
      ["safety", "sourceLiveCount", "sourceDeletingCount", "sourceActiveDeletionBatchCount", "migrationRowCount",
       "destinationOrphanCount", "reviewedDeadCount", "reviewedDeadIds", "reviewedDeadIdsSha256", "reviewedOrphanBlobCount",
       "reviewedOrphanBlobs", "reviewedOrphanBlobsSha256", "sourceSnapshotSha256", "sourceAuthoritySnapshotSha256",
       "destinationSnapshotSha256"],
      ["importedAccounts", "doneMemories", "deadMemories", "driftSweptMemories"],
      RequiredChecks(),
      ["blobId", "legacyEntryId", "objectId", "owner"],
      "full-registry", "pinned-exact-source-authority-v2")
  }

  datatype Expected = Expected(
    sha256: string, manifestSha256: string, route: Route, upload: UploadRoute, committee: Committee, inventory: Inventory)

  datatype Completion = Completion(sha256: string, expiresAt: int, root: string, accounts: nat, delegates: nat)

  const U64_MAX := 0xffff_ffff_ffff_ffff

  function ParseU64(text: string): (r: Option<nat>)
    ensures r.Some? ==> r.value <= U64_MAX
  {
    if IsDigits(text) && DigitsValue(text) <= U64_MAX then Some(DigitsValue(text)) else None
  }

  /** Every u64 is read back from its decimal text. */
  lemma {:induction false} U64RoundTrip(n: nat)
    requires n <= U64_MAX
    ensures ParseU64(Decimal(n)) == Some(n)
  {
    DecimalRoundTrip(n);
  }

  function ParsePositiveU64(text: string): Option<nat> {
    if ParseU64(text) == Some(0) then None else ParseU64(text)
  }

  predicate IsSha256(s: string) {
    |s| == 64 && IsLowerHex(s)
  }

  predicate IsRoot(s: string) {
    |s| == 66 && s[..2] == "0x" && IsLowerHex(s[2..])
  }

  /** What hashing, printing, Date.parse and parseU64 make of the evidence. */
  datatype Observed = Observed(
    canonical: bool, sha256: string, generated: Option<int>, expires: Option<int>,
    deadIdsSha256: string, orphansSha256: string, counts: Option<Counts>)

  datatype Env = Env(
    sha256: string -> string,
    stringify: Evidence -> string,
    printIds: seq<string> -> string,
    printOrphans: seq<Orphan> -> string,
    date: string -> Option<int>)

  function Observe(env: Env, raw: string, e: Evidence): Observed {
    Observed(raw == env.stringify(e), env.sha256(raw), env.date(e.generatedAt), env.date(e.expiresAt),
             env.sha256(env.printIds(e.audit.deadIds)), env.sha256(env.printOrphans(e.audit.orphans)), ParseCounts(e))
  }

  predicate ShapeFits(k: Schema, e: Evidence) {
    ExactKeys(e.keys, k.evidence) && ExactKeys(e.routeKeys, k.route) && ExactKeys(e.audit.keys, k.audit)
    && ExactKeys(e.audit.safetyKeys, k.safety) && ExactKeys(e.checkKeys, k.checks)
  }

  predicate TimesFit(h: Observed, now: int) {
    && h.generated.Some? && h.expires.Some?
    && h.generated.value <= now + 60_000 && h.expires.value > now
    && h.expires.value > h.generated.value && h.expires.value <= h.generated.value + 15 * 60_000
  }

  predicate RouteFits(p: Platform, actual: Route, expected: Route) {
    && p.normAddress(actual.srcPackage) == expected.srcPackage && p.normAddress(actual.srcRegistry) == expected.srcRegistry
    && p.normAddress(actual.dstPackage) == expected.dstPackage && p.normAddress(actual.dstRegistry) == expected.dstRegistry
    && actual.dbCutoverRev == expected.dbCutoverRev
  }

  predicate ChecksFit(k: Schema, e: Evidence) {
    forall c | c in k.checks :: c in e.checks && e.checks[c]
  }

  // ---- Lists of the audit ----

  predicate DeadIdsFit(h: Observed, a: Audit) {
    && (forall i | 0 <= i < |a.deadIds| :: a.deadIds[i] != "")
    && (forall i | 0 < i < |a.deadIds| :: Less(a.deadIds[i - 1], a.deadIds[i]))
    && h.deadIdsSha256 == a.deadIdsSha256
  }

  /** The text by which orphans are ordered. */
  function Composite(o: Orphan): string {
    o.owner + ("\0" + o.blobId)
  }

  predicate OrphanFits(p: Platform, k: Schema, o: Orphan) {
    ExactKeys(o.keys, k.orphan) && o.blobId != "" && o.legacyEntryId != "" && Canonical(p, o.owner) && Canonical(p, o.objectId)
  }

  predicate OrphansFit(p: Platform, h: Observed, k: Schema, a: Audit) {
    && (forall i | 0 <= i < |a.orphans| :: OrphanFits(p, k, a.orphans[i]))
    && (forall i | 0 < i < |a.orphans| :: Less(Composite(a.orphans[i - 1]), Composite(a.orphans[i])))
    && h.orphansSha256 == a.orphansSha256
  }

  // ---- Counts ----

  datatype Counts = Counts(
    accounts: nat, delegates: nat, live: nat, deleting: nat, batches: nat, rows: nat, orphanRows: nat, reviewedDead: nat,
    orphanBlobs: nat, imported: nat, done: nat, dead: nat, drift: nat, quiet: nat)

  function ParseCounts(e: Evidence): Option<Counts> {
    var a := e.audit;
    var accounts, delegates, live := ParsePositiveU64(e.accounts), ParseU64(e.delegates), ParsePositiveU64(a.sourceLive);
    var deleting, batches := ParseU64(a.sourceDeleting), ParseU64(a.deletionBatches);
    var rows, orphanRows := ParsePositiveU64(a.migrationRows), ParseU64(a.destinationOrphans);
    var reviewed, orphanBlobs := ParseU64(a.reviewedDead), ParseU64(a.orphanCount);
    var imported, done := ParsePositiveU64(a.importedAccounts), ParseU64(a.done);
    var dead, drift, quiet := ParseU64(a.dead), ParseU64(a.driftSwept), ParsePositiveU64(e.quietSeconds);
    if accounts.None? || delegates.None? || live.None? || deleting.None? || batches.None? || rows.None? || orphanRows.None?
       || reviewed.None? || orphanBlobs.None? || imported.None? || done.None? || dead.None? || drift.None? || quiet.None?
    then None
    else Some(Counts(accounts.value, delegates.value, live.value, deleting.value, batches.value, rows.value, orphanRows.value,
                     reviewed.value, orphanBlobs.value, imported.value, done.value, dead.value, drift.value, quiet.value))
  }

  predicate CountsFit(c: Counts, a: Audit, expected: Inventory) {
    && |a.orphans| == c.orphanBlobs
    && c.live == expected.sourceLiveCount && a.sourceSha256 == expected.snapshotSha256
    && |a.deadIds| == c.reviewedDead
    && c.quiet <= 300
    && c.deleting == 0 && c.batches == 0 && c.orphanRows == 0
    && c.imported == c.accounts && c.dead == c.reviewedDead && c.reviewedDead >= c.drift
    && c.done + c.reviewedDead - c.drift == c.live && c.done + c.dead == c.rows
  }

  predicate DigestsFit(a: Audit) {
    && IsSha256(a.sourceSha256) && IsSha256(a.authoritySha256) && IsSha256(a.deadIdsSha256)
    && IsSha256(a.orphansSha256) && IsSha256(a.destinationSha256)
  }

  datatype Fault =
    | NotCanonicalJson | WrongFields | WrongDigest | NotComplete | BadLifetime | WrongRoute | WrongPolicy | WrongManifest
    | WrongScope | BadRoot | FailedCheck | BadDigest | BadDeadIds | BadOrphans | BadCount | InconsistentCounts

  datatype Parsed = Accepted(completion: Completion) | Refused(fault: Fault)

  /** The checks of parseCompletionEvidence up to the audit, in their order. */
  function JudgeHead(p: Platform, k: Schema, h: Observed, e: Evidence, x: Expected, now: int): Option<Fault> {
    if !h.canonical then Some(NotCanonicalJson)
    else if !ShapeFits(k, e) then Some(WrongFields)
    else if !IsSha256(x.sha256) || h.sha256 != x.sha256 then Some(WrongDigest)
    else if e.schemaVersion != 5 || !e.complete then Some(NotComplete)
    else if !TimesFit(h, now) then Some(BadLifetime)
    else JudgeReview(p, k, e, x)
  }

  /** The checks against what was reviewed. */
  function JudgeReview(p: Platform, k: Schema, e: Evidence, x: Expected): Option<Fault> {
    if !RouteFits(p, e.route, x.route) then Some(WrongRoute)
    else if e.upload != x.upload || e.committee != x.committee || e.inventory != x.inventory then Some(WrongPolicy)
    else if !IsSha256(x.manifestSha256) || e.manifestSha256 != x.manifestSha256 then Some(WrongManifest)
    else if e.scope != k.scope || e.authorityPolicy != k.authorityPolicy then Some(WrongScope)
    else if !IsRoot(Lower(e.manifestRoot)) then Some(BadRoot)
    else if !ChecksFit(k, e) then Some(FailedCheck)
    else None
  }

  /** The checks of the audit and its counts. */
  function JudgeAudit(p: Platform, k: Schema, h: Observed, a: Audit, x: Inventory): Option<Fault> {
    if !DigestsFit(a) then Some(BadDigest)
    else if !DeadIdsFit(h, a) then Some(BadDeadIds)
    else if !OrphansFit(p, h, k, a) then Some(BadOrphans)
    else if h.counts.None? then Some(BadCount)
    else if !CountsFit(h.counts.value, a, x) then Some(InconsistentCounts)
    else None
  }

  /** parseCompletionEvidence on a text and the value it parses to. */
  function ParseEvidence(p: Platform, env: Env, k: Schema, raw: string, e: Evidence, x: Expected, now: int): Parsed {
    var h := Observe(env, raw, e);
    match JudgeHead(p, k, h, e, x, now)
    case Some(fault) => Refused(fault)
    case None =>
      match JudgeAudit(p, k, h, e.audit, x.inventory)
      case Some(fault) => Refused(fault)
      case None => Accepted(CompletionOf(h, e))
  }

  function CompletionOf(h: Observed, e: Evidence): Completion
    requires h.expires.Some? && h.counts.Some?
  {
    Completion(h.sha256, h.expires.value, Lower(e.manifestRoot), h.counts.value.accounts, h.counts.value.delegates)
  }

  // ---- What acceptance means ----

  /** The dead ids are accepted exactly if they are the sorted list of a set of non-empty ids with the stated digest. */
  lemma {:induction false} DeadIdsFitIff(h: Observed, a: Audit)
    ensures DeadIdsFit(h, a) <==>
              "" !in a.deadIds && Distinct(a.deadIds) && Sort(a.deadIds) == a.deadIds && h.deadIdsSha256 == a.deadIdsSha256
  {
    SortedListIff(a.deadIds);
  }

  lemma {:induction false} SortedListIff(s: seq<string>)
    ensures StrictlySorted(s) <==> Distinct(s) && Sort(s) == s
  {
    SortAscends(s);
    if StrictlySorted(s) {
      SortedIsDistinct(s);
      StrictAscends(s);
      AscendingIsCanonical(Sort(s), s);
    } else if Distinct(s) && Sort(s) == s {
      AscendingIsStrict(s);
    }
  }

  lemma {:induction false} StrictAscends(s: seq<string>)
    requires StrictlySorted(s)
    ensures Ascending(s)
  {
    if s != [] {
      TailSorted(s);
      StrictAscends(s[1..]);
      forall y | y in s[1..] ensures !Less(y, s[0]) {
        var i :| 0 <= i < |s| - 1 && s[1..][i] == y;
        LessFar(s, 0, i + 1);
        if Less(y, s[0]) {
          LessTransitive(y, s[0], y);
          LessIrreflexive(y);
        }
      }
    }
  }

  lemma {:induction false} AscendingIsStrict(s: seq<string>)
    requires Ascending(s) && Distinct(s)
    ensures StrictlySorted(s)
  {
    if s != [] {
      AscendingIsStrict(s[1..]);
      forall i | 0 < i < |s| ensures Less(s[i - 1], s[i]) {
        if i == 1 {
          assert s[1] == s[1..][0];
          LessTotal(s[0], s[1]);
        } else {
          assert Less(s[1..][i - 2], s[1..][i - 1]);
        }
      }
    }
  }

  /** Owner and blob in lexicographic order. */
  predicate PairLess(a: Orphan, b: Orphan) {
    Less(a.owner, b.owner) || (a.owner == b.owner && Less(a.blobId, b.blobId))
  }

  /** Owners have one fixed length, so the order of the composite texts is the order of the pairs. */
  lemma {:induction false} CompositeOrder(p: Platform, a: Orphan, b: Orphan)
    requires Lawful(p) && Canonical(p, a.owner) && Canonical(p, b.owner)
    ensures Less(Composite(a), Composite(b)) <==> PairLess(a, b)
    ensures Composite(a) == Composite(b) <==> a.owner == b.owner && a.blobId == b.blobId
  {
    LessOfPairs(a.owner, "\0" + a.blobId, b.owner, "\0" + b.blobId);
    LessOfPairs("\0", a.blobId, "\0", b.blobId);
    LessIrreflexive("\0");
    assert Composite(a)[..66] == a.owner && Composite(a)[67..] == a.blobId;
    assert Composite(b)[..66] == b.owner && Composite(b)[67..] == b.blobId;
  }

  function Composites(orphans: seq<Orphan>): seq<string> {
    seq(|orphans|, i requires 0 <= i < |orphans| => Composite(orphans[i]))
  }

  /** Accepted orphans are in ascending order of owner and blob, and no such pair occurs twice. */
  lemma {:induction false} OrphansAreDistinct(p: Platform, h: Observed, k: Schema, a: Audit, i: nat, j: nat)
    requires Lawful(p) && OrphansFit(p, h, k, a) && i < j < |a.orphans|
    ensures PairLess(a.orphans[i], a.orphans[j])
    ensures a.orphans[i].owner != a.orphans[j].owner || a.orphans[i].blobId != a.orphans[j].blobId
  {
    var c := Composites(a.orphans);
    assert StrictlySorted(c);
    LessFar(c, i, j);
    assert OrphanFits(p, k, a.orphans[i]) && OrphanFits(p, k, a.orphans[j]);
    CompositeOrder(p, a.orphans[i], a.orphans[j]);
    LessIrreflexive(c[i]);
  }

  /** Evidence is accepted exactly if head and audit pass. */
  lemma {:induction false} AcceptedIff(p: Platform, env: Env, k: Schema, raw: string, e: Evidence, x: Expected, now: int)
    ensures var h := Observe(env, raw, e);
            ParseEvidence(p, env, k, raw, e, x, now).Accepted?
            <==> JudgeHead(p, k, h, e, x, now).None? && JudgeAudit(p, k, h, e.audit, x.inventory).None?
  {
  }

  /** The reviewed dead ids form a set as large as the dead count, and the orphans are as many distinct pairs as counted. */
  lemma {:induction false} AcceptedListsAreSets(p: Platform, k: Schema, h: Observed, a: Audit, x: Inventory)
    requires Lawful(p) && JudgeAudit(p, k, h, a, x).None?
    ensures h.counts.Some? && "" !in a.deadIds
    ensures |Elements(a.deadIds)| == |a.deadIds| == h.counts.value.reviewedDead == h.counts.value.dead
    ensures |a.orphans| == h.counts.value.orphanBlobs
    ensures forall i, j | 0 <= i < j < |a.orphans| :: PairLess(a.orphans[i], a.orphans[j])
  {
    assert StrictlySorted(a.deadIds);
    SortedIsDistinct(a.deadIds);
    DistinctCount(a.deadIds);
    forall i, j | 0 <= i < j < |a.orphans| ensures PairLess(a.orphans[i], a.orphans[j]) {
      OrphansAreDistinct(p, h, k, a, i, j);
    }
  }

  /** Rows are conserved: each live source row and each row swept for drift has one migration row, done or dead. */
  lemma {:induction false} AcceptedIsConserved(p: Platform, k: Schema, h: Observed, a: Audit, x: Inventory)
    requires JudgeAudit(p, k, h, a, x).None?
    ensures h.counts.Some?
    ensures var c := h.counts.value;
            && c.rows == c.live + c.drift && c.rows == c.done + c.dead && c.drift <= c.dead
            && c.live == x.sourceLiveCount && c.imported == c.accounts
  {
  }

  /** One set of dead ids can be committed to in one way only. */
  lemma {:induction false} DeadIdsAreCanonical(h: Observed, a: Audit, h': Observed, a': Audit)
    requires DeadIdsFit(h, a) && DeadIdsFit(h', a') && Elements(a.deadIds) == Elements(a'.deadIds)
    ensures a.deadIds == a'.deadIds
  {
    assert StrictlySorted(a.deadIds) && StrictlySorted(a'.deadIds);
    SortedIsCanonical(a.deadIds, a'.deadIds);
  }

  /** The route with its addresses in canonical form. */
  function NormalRoute(p: Platform, r: Route): Route {
    Route(p.normAddress(r.srcPackage), p.normAddress(r.srcRegistry), p.normAddress(r.dstPackage), p.normAddress(r.dstRegistry),
          r.dbCutoverRev)
  }

  /** Accepted evidence is the reviewed one: its digest, route, policies, inventory and manifest, with every check present and true. */
  lemma {:induction false} AcceptedMatchesReview(p: Platform, k: Schema, h: Observed, e: Evidence, x: Expected, now: int)
    requires JudgeHead(p, k, h, e, x, now).None? && Distinct(e.checkKeys) && Distinct(k.checks)
    ensures NormalRoute(p, e.route) == x.route && e.upload == x.upload && e.committee == x.committee && e.inventory == x.inventory
    ensures h.sha256 == x.sha256 && e.manifestSha256 == x.manifestSha256
    ensures forall c :: c in e.checkKeys <==> c in k.checks
    ensures forall c | c in e.checkKeys :: c in e.checks && e.checks[c]
  {
    HeadIsTimely(p, k, h, e, x, now);
    ReviewedParts(p, k, e, x);
    ExactKeysIff(e.checkKeys, k.checks);
  }

  lemma {:induction false} ReviewedParts(p: Platform, k: Schema, e: Evidence, x: Expected)
    requires JudgeReview(p, k, e, x).None?
    ensures NormalRoute(p, e.route) == x.route && e.upload == x.upload && e.committee == x.committee && e.inventory == x.inventory
    ensures e.manifestSha256 == x.manifestSha256 && ChecksFit(k, e) && IsRoot(Lower(e.manifestRoot))
  {
  }

  /** Evidence is usable for at most sixteen minutes from now. */
  lemma {:induction false} AcceptedIsFresh(p: Platform, k: Schema, h: Observed, e: Evidence, x: Expected, now: int)
    requires JudgeHead(p, k, h, e, x, now).None?
    ensures h.expires.Some? && now < h.expires.value <= now + 16 * 60_000 && IsRoot(Lower(e.manifestRoot))
  {
    HeadIsTimely(p, k, h, e, x, now);
    ReviewedParts(p, k, e, x);
  }

  lemma {:induction false} HeadIsTimely(p: Platform, k: Schema, h: Observed, e: Evidence, x: Expected, now: int)
    requires JudgeHead(p, k, h, e, x, now).None?
    ensures h.sha256 == x.sha256 && TimesFit(h, now) && JudgeReview(p, k, e, x).None?
  {
  }

  // ---- The registry ----

  datatype Root = Bytes(bytes: seq<byte>) | Base64(text: string)

  /** The Move object; None stands for a count that BigInt refuses. */
  datatype Registry = Registry(root: Root, expectedAccounts: Option<int>, expectedDelegates: Option<int>,
                               importedAccounts: Option<int>, importedDelegates: Option<int>, finalized: Option<bool>)

  function RootBytes(base64: string -> seq<byte>, r: Root): seq<byte> {
    if r.Bytes? then r.bytes else base64(r.text)
  }

  predicate RegistryComplete(base64: string -> seq<byte>, r: Registry, c: Completion) {
    && r.expectedAccounts.Some? && r.expectedDelegates.Some? && r.importedAccounts.Some? && r.importedDelegates.Some?
    && "0x" + HexOf(RootBytes(base64, r.root)) == c.root
    && r.expectedAccounts.value == c.accounts && r.expectedDelegates.value == c.delegates
    && r.importedAccounts == r.expectedAccounts && r.importedDelegates == r.expectedDelegates
    && r.finalized == Some(false)
  }

  lemma {:induction false} RootMatches(bytes: seq<byte>, root: string)
    requires IsRoot(root) && "0x" + HexOf(bytes) == root
    ensures |bytes| == 32 && BytesOf(root[2..]) == bytes
  {
    assert ("0x" + HexOf(bytes))[2..] == HexOf(bytes);
    HexRoundTrip(bytes);
  }

  /** With the registry check, what is imported on chain is what the manifest counts, under the manifest's 32-byte root. */
  lemma {:induction false} ImportsMatchManifest(p: Platform, k: Schema, h: Observed, e: Evidence, x: Expected, now: int,
                                                base64: string -> seq<byte>, r: Registry)
    requires JudgeHead(p, k, h, e, x, now).None? && JudgeAudit(p, k, h, e.audit, x.inventory).None?
    requires h.expires.Some? && h.counts.Some? && RegistryComplete(base64, r, CompletionOf(h, e))
    ensures r.importedAccounts == Some(h.counts.value.accounts) == Some(h.counts.value.imported)
    ensures r.importedDelegates == Some(h.counts.value.delegates)
    ensures |RootBytes(base64, r.root)| == 32 && |e.manifestRoot| == 66
            && BytesOf(Lower(e.manifestRoot)[2..]) == RootBytes(base64, r.root)
  {
    AcceptedIsFresh(p, k, h, e, x, now);
    AcceptedIsConserved(p, k, h, e.audit, x.inventory);
    RootMatches(RootBytes(base64, r.root), Lower(e.manifestRoot));
  }
}
