/** Every manifest of one stateful set has a live snapshot that is accepted and matches it. */
module FundingRollout {
  import opened Outcomes
  import opened Text
  import opened Manifest
  import opened Documents
  import opened LiveSnapshots

  function WriterId(name: string, i: nat): string {
    name + "-" + Decimal(i)
  }

  /** The manifest: one writer per replica, with its wallets in order. */
  function ManifestOf(name: string, wallets: seq<seq<string>>): Writers {
    seq(|wallets|, i requires 0 <= i < |wallets| => (WriterId(name, i), wallets[i]))
  }

  function PodOf(name: string, i: nat, wallets: seq<string>): Writer {
    Writer(WriterId(name, i), i, WriterId(name, i), name, [Image(name, name, name)], wallets)
  }

  function SetOf(name: string, n: nat): StatefulSet {
    StatefulSet(name, name, 1, name, n, n, n, n)
  }

  /** A rollout of `name` with one pod per list of wallets. */
  function RolloutOf(name: string, at: string, wallets: seq<seq<string>>): Snapshot {
    Snapshot(at, name, name, SetOf(name, |wallets|), [Secret(name, name, name)],
             [Provider(name, name, "SERVER_SUI_PRIVATE_KEYS", "envFrom")],
             seq(|wallets|, i requires 0 <= i < |wallets| => PodOf(name, i, wallets[i])))
  }

  predicate WalletsFit(p: Platform, id: string, wallets: seq<string>) {
    NormalizeWriters(p, [(id, wallets)]) == Ok([(id, wallets)])
  }

  predicate AllWalletsFit(p: Platform, name: string, wallets: seq<seq<string>>) {
    forall i: nat | i < |wallets| :: WalletsFit(p, WriterId(name, i), wallets[i])
  }

  lemma {:induction false} SetParses(name: string, n: nat)
    requires NonBlank(name) && 0 < n <= MAX_SAFE_INTEGER
    ensures ParseStatefulSet(PrintStatefulSet(SetOf(name, n))) == Ok(SetOf(name, n))
  {
    assert (n as real).Floor == n && (1 as real).Floor == 1;
  }

  lemma {:induction false} SecretParses(name: string)
    requires NonBlank(name)
    ensures ParseSecrets(PrintEach([Secret(name, name, name)], PrintSecret)) == Ok([Secret(name, name, name)])
  {
    var xs := [Secret(name, name, name)];
    assert SecretParser()(0, PrintEach(xs, PrintSecret).items[0]) == Ok(xs[0]);
    ParseDistinctIff(PrintEach(xs, PrintSecret).items, SecretParser(), SecretName(), xs);
  }

  lemma {:induction false} ProviderParses(name: string)
    requires NonBlank(name)
    ensures var x := Provider(name, name, "SERVER_SUI_PRIVATE_KEYS", "envFrom");
            ParseProviders([Secret(name, name, name)], PrintEach([x], PrintProvider)) == Ok([x])
  {
    var x := Provider(name, name, "SERVER_SUI_PRIVATE_KEYS", "envFrom");
    var secrets := [Secret(name, name, name)];
    assert !IsSpace(x.key[0]) && secrets[0].name == name;
    OneProviderParses(secrets, x);
    assert ProviderParser(secrets)(0, PrintEach([x], PrintProvider).items[0]) == Ok(x);
    ParseDistinctIff(PrintEach([x], PrintProvider).items, ProviderParser(secrets), ProviderContainer(), [x]);
  }

  lemma {:induction false} OneProviderParses(secrets: seq<Secret>, x: Provider)
    requires NonBlank(x.container) && NonBlank(x.secretName) && NonBlank(x.key) && x.key == "SERVER_SUI_PRIVATE_KEYS"
    requires x.source == "envFrom" && exists i | 0 <= i < |secrets| :: secrets[i].name == x.secretName
    ensures ParseProvider(secrets, PrintProvider(x)) == Ok(x)
  {
  }

  lemma {:induction false} ImageParses(name: string)
    requires NonBlank(name)
    ensures ParseDistinct(PrintEach([Image(name, name, name)], PrintImage).items, ImageParser(), ImageName()) == Ok([Image(name, name, name)])
  {
    var xs := [Image(name, name, name)];
    assert ImageParser()(0, PrintEach(xs, PrintImage).items[0]) == Ok(xs[0]);
    ParseDistinctIff(PrintEach(xs, PrintImage).items, ImageParser(), ImageName(), xs);
  }

  lemma {:induction false} IdIsNonBlank(name: string, i: nat)
    requires NonBlank(name)
    ensures NonBlank(WriterId(name, i))
  {
    var k :| 0 <= k < |name| && !IsSpace(name[k]);
    assert WriterId(name, i)[k] == name[k];
  }

  lemma {:induction false} PodParses(p: Platform, name: string, n: nat, i: nat, wallets: seq<string>)
    requires NonBlank(name) && WalletsFit(p, WriterId(name, i), wallets)
    ensures ParseWriter(p, SetOf(name, n), i, PrintWriter(PodOf(name, i, wallets))) == Ok(PodOf(name, i, wallets))
  {
    IdIsNonBlank(name, i);
    ImageParses(name);
    WalletsParse(p, WriterId(name, i), wallets);
  }

  lemma {:induction false} WalletsParse(p: Platform, id: string, wallets: seq<string>)
    requires WalletsFit(p, id, wallets)
    ensures ParseAddresses(p, id, PrintEach(wallets, TextLeaf)) == Ok(wallets)
  {
    PrintedTexts(wallets);
  }

  lemma {:induction false} IdsDiffer(name: string, i: nat, j: nat)
    requires i != j
    ensures WriterId(name, i) != WriterId(name, j)
  {
    var n := |name + "-"|;
    assert WriterId(name, i)[n..] == Decimal(i) && WriterId(name, j)[n..] == Decimal(j);
    DecimalRoundTrip(i);
    DecimalRoundTrip(j);
  }

  lemma {:induction false} PodsParse(p: Platform, name: string, at: string, wallets: seq<seq<string>>)
    requires NonBlank(name) && AllWalletsFit(p, name, wallets)
    ensures var s := RolloutOf(name, at, wallets);
            ParseDistinct(PrintEach(s.writers, PrintWriter).items, WriterParser(p, s.statefulSet), WriterPod()) == Ok(s.writers)
  {
    var s := RolloutOf(name, at, wallets);
    var items := PrintEach(s.writers, PrintWriter).items;
    forall i: nat | i < |wallets| ensures WriterParser(p, s.statefulSet)(i, items[i]) == Ok(s.writers[i]) {
      assert WalletsFit(p, WriterId(name, i), wallets[i]);
      PodParses(p, name, |wallets|, i, wallets[i]);
    }
    forall i, j | 0 <= i < j < |wallets| ensures WriterPod()(s.writers[i]) != WriterPod()(s.writers[j]) {
      IdsDiffer(name, i, j);
    }
    ParseDistinctIff(items, WriterParser(p, s.statefulSet), WriterPod(), s.writers);
  }

  lemma {:induction false} WritersParse(p: Platform, name: string, at: string, wallets: seq<seq<string>>)
    requires NonBlank(name) && AllWalletsFit(p, name, wallets)
    ensures var s := RolloutOf(name, at, wallets);
            ParseWriters(p, s.statefulSet, s.providers, PrintEach(s.writers, PrintWriter)) == Ok(s.writers)
  {
    var s := RolloutOf(name, at, wallets);
    PodsParse(p, name, at, wallets);
    assert SameImages(s.writers);
    forall k, i | 0 <= k < |s.providers| && 0 <= i < |s.writers| ensures RunsContainer(s.writers[i], s.providers[k].container) {
      assert s.writers[i].images[0].name == name;
    }
  }

  /** For every such manifest, and any number of replicas, there is a snapshot that is accepted and matches it. */
  lemma {:induction false} SnapshotComplete(p: Platform, date: string -> Option<int>, name: string, at: string,
                                            wallets: seq<seq<string>>, asOf: Option<int>)
    requires NonBlank(name) && NonBlank(at) && date(at).Some? && (asOf.Some? ==> FreshAt(date, at, asOf.value))
    requires 0 < |wallets| <= MAX_SAFE_INTEGER && AllWalletsFit(p, name, wallets)
    ensures var s := RolloutOf(name, at, wallets);
            ParseSnapshot(p, date, PrintSnapshot(s), asOf) == Ok(s) && Matches(ManifestOf(name, wallets), s)
  {
    SetParses(name, |wallets|);
    SecretParses(name);
    ProviderParses(name);
    WritersParse(p, name, at, wallets);
    RolloutMatches(name, at, wallets);
  }

  lemma {:induction false} RolloutMatches(name: string, at: string, wallets: seq<seq<string>>)
    ensures Matches(ManifestOf(name, wallets), RolloutOf(name, at, wallets))
  {
    var m, s := ManifestOf(name, wallets), RolloutOf(name, at, wallets);
    forall i, j | 0 <= i < j < |m| ensures IdsOf(m)[i] != IdsOf(m)[j] { IdsDiffer(name, i, j); }
    assert WritersOf(s) == m;
    MatchesIsEquality(m, s);
  }
}
