/** Exactly which snapshot and journal documents are accepted, and what is kept of them. */
module SnapshotAcceptance {
  import opened Outcomes
  import opened Text
  import opened Manifest
  import opened Documents
  import opened LiveSnapshots

  predicate Says(v: Leaf, s: string) {
    v == Text(s) && Trim(s) != ""
  }

  predicate Counts(v: Leaf, n: nat) {
    v == Number(n as real) && 1 <= n <= 9007199254740991
  }

  lemma {:induction false} SaysIff(v: Leaf, s: string)
    ensures RequireString(v) == Ok(s) <==> Says(v, s)
  {
    RequireStringIff(v);
  }

  lemma {:induction false} CountsIff(v: Leaf, n: nat)
    ensures RequirePositiveInteger(v) == Ok(n) <==> Counts(v, n)
  {
  }

  // ---- The parts ----

  predicate StatefulSetIs(o: Obj<RawStatefulSet>, s: StatefulSet) {
    && o.Obj?
    && var raw := o.fields;
       && Says(raw.name, s.name) && Says(raw.uid, s.uid) && Says(raw.revision, s.revision) && Counts(raw.generation, s.generation)
       && Counts(raw.replicas, s.replicas) && Counts(raw.currentReplicas, s.currentReplicas)
       && Counts(raw.updatedReplicas, s.updatedReplicas) && Counts(raw.readyReplicas, s.readyReplicas)
       && s.replicas == s.currentReplicas == s.updatedReplicas == s.readyReplicas
  }

  lemma {:induction false} StatefulSetIff(o: Obj<RawStatefulSet>, s: StatefulSet)
    ensures ParseStatefulSet(o) == Ok(s) <==> StatefulSetIs(o, s)
  {
    if o.Obj? {
      var raw := o.fields;
      SaysIff(raw.name, s.name);
      SaysIff(raw.uid, s.uid);
      SaysIff(raw.revision, s.revision);
      CountsIff(raw.generation, s.generation);
      CountsIff(raw.replicas, s.replicas);
      CountsIff(raw.currentReplicas, s.currentReplicas);
      CountsIff(raw.updatedReplicas, s.updatedReplicas);
      CountsIff(raw.readyReplicas, s.readyReplicas);
    }
  }

  predicate SecretIs(o: Obj<RawSecret>, s: Secret) {
    && o.Obj? && Says(o.fields.name, s.name) && Says(o.fields.uid, s.uid) && Says(o.fields.resourceVersion, s.resourceVersion)
    && o.fields.immutable == Flag(true)
  }

  lemma {:induction false} SecretIff(o: Obj<RawSecret>, s: Secret)
    ensures ParseSecret(o) == Ok(s) <==> SecretIs(o, s)
  {
    if o.Obj? {
      SaysIff(o.fields.name, s.name);
      SaysIff(o.fields.uid, s.uid);
      SaysIff(o.fields.resourceVersion, s.resourceVersion);
    }
  }

  predicate ProviderIs(secrets: seq<Secret>, o: Obj<RawProvider>, x: Provider) {
    && o.Obj? && Says(o.fields.container, x.container) && Says(o.fields.secretName, x.secretName) && Says(o.fields.key, x.key)
    && x.key == "SERVER_SUI_PRIVATE_KEYS" && o.fields.source == Text(x.source) && (x.source == "secretKeyRef" || x.source == "envFrom")
    && exists i | 0 <= i < |secrets| :: secrets[i].name == x.secretName
  }

  lemma {:induction false} ProviderIff(secrets: seq<Secret>, o: Obj<RawProvider>, x: Provider)
    ensures ParseProvider(secrets, o) == Ok(x) <==> ProviderIs(secrets, o, x)
  {
    if o.Obj? {
      SaysIff(o.fields.container, x.container);
      SaysIff(o.fields.secretName, x.secretName);
      SaysIff(o.fields.key, x.key);
    }
  }

  predicate ImageIs(o: Obj<RawImage>, i: Image) {
    o.Obj? && Says(o.fields.name, i.name) && Says(o.fields.image, i.image) && Says(o.fields.imageId, i.imageId)
  }

  lemma {:induction false} ImageIff(o: Obj<RawImage>, i: Image)
    ensures ParseImage(o) == Ok(i) <==> ImageIs(o, i)
  {
    if o.Obj? {
      SaysIff(o.fields.name, i.name);
      SaysIff(o.fields.image, i.image);
      SaysIff(o.fields.imageId, i.imageId);
    }
  }

  // ---- The lists: one or more entries, each as it should be at its place, no two with the same key ----

  predicate ImagesAre(a: Arr<Obj<RawImage>>, images: seq<Image>) {
    && a.Arr? && |a.items| == |images| > 0 && (forall i | 0 <= i < |images| :: ImageIs(a.items[i], images[i]))
    && forall i, j | 0 <= i < j < |images| :: images[i].name != images[j].name
  }

  lemma {:induction false} ImagesIff(items: seq<Obj<RawImage>>, images: seq<Image>)
    ensures items != [] && ParseDistinct(items, ImageParser(), ImageName()) == Ok(images) <==> ImagesAre(Arr(items), images)
  {
    ParseDistinctIff(items, ImageParser(), ImageName(), images);
    if |items| == |images| {
      forall i | 0 <= i < |images| ensures ImageParser()(i, items[i]) == Ok(images[i]) <==> ImageIs(items[i], images[i]) {
        ImageIff(items[i], images[i]);
      }
    }
  }

  predicate SecretsAre(a: Arr<Obj<RawSecret>>, secrets: seq<Secret>) {
    && a.Arr? && |a.items| == |secrets| > 0 && (forall i | 0 <= i < |secrets| :: SecretIs(a.items[i], secrets[i]))
    && forall i, j | 0 <= i < j < |secrets| :: secrets[i].name != secrets[j].name
  }

  lemma {:induction false} SecretsIff(a: Arr<Obj<RawSecret>>, secrets: seq<Secret>)
    ensures ParseSecrets(a) == Ok(secrets) <==> SecretsAre(a, secrets)
  {
    if a.Arr? {
      ParseDistinctIff(a.items, SecretParser(), SecretName(), secrets);
      if |a.items| == |secrets| {
        forall i | 0 <= i < |secrets| ensures SecretParser()(i, a.items[i]) == Ok(secrets[i]) <==> SecretIs(a.items[i], secrets[i]) {
          SecretIff(a.items[i], secrets[i]);
        }
      }
    }
  }

  predicate ProvidersAre(secrets: seq<Secret>, a: Arr<Obj<RawProvider>>, xs: seq<Provider>) {
    && a.Arr? && |a.items| == |xs| > 0 && (forall i | 0 <= i < |xs| :: ProviderIs(secrets, a.items[i], xs[i]))
    && forall i, j | 0 <= i < j < |xs| :: xs[i].container != xs[j].container
  }

  lemma {:induction false} ProvidersIff(secrets: seq<Secret>, a: Arr<Obj<RawProvider>>, xs: seq<Provider>)
    ensures ParseProviders(secrets, a) == Ok(xs) <==> ProvidersAre(secrets, a, xs)
  {
    if a.Arr? {
      ParseDistinctIff(a.items, ProviderParser(secrets), ProviderContainer(), xs);
      if |a.items| == |xs| {
        forall i | 0 <= i < |xs|
          ensures ProviderParser(secrets)(i, a.items[i]) == Ok(xs[i]) <==> ProviderIs(secrets, a.items[i], xs[i])
        {
          ProviderIff(secrets, a.items[i], xs[i]);
        }
      }
    }
  }

  // ---- Writers ----

  /** The wallets are the canonical forms of 1 to 500 valid addresses, no two the same. */
  predicate WalletsAre(p: Platform, a: Arr<Leaf>, addresses: seq<string>) {
    && a.Arr? && 1 <= |a.items| == |addresses| <= 500
    && (forall i | 0 <= i < |addresses| ::
          a.items[i].Text? && p.validAddress(Trim(a.items[i].text)) && addresses[i] == p.normAddress(Trim(a.items[i].text)))
    && forall i, j | 0 <= i < j < |addresses| :: addresses[i] != addresses[j]
  }

  lemma {:induction false} FlattenOne(id: string, addresses: seq<string>)
    ensures Flatten([(id, addresses)]) == addresses
  {
    assert [(id, addresses)][1..] == [];
  }

  lemma {:induction false} OneEntryIff(p: Platform, id: string, texts: seq<string>, addresses: seq<string>)
    requires Trim(id) != ""
    ensures NormalizeWriters(p, [(id, texts)]) == Ok([(id, addresses)])
            <==> && 1 <= |texts| == |addresses| <= 500
                 && (forall i | 0 <= i < |texts| :: p.validAddress(Trim(texts[i])) && addresses[i] == p.normAddress(Trim(texts[i])))
                 && forall i, j | 0 <= i < j < |addresses| :: addresses[i] != addresses[j]
  {
    var raw, out := [(id, texts)], [(id, addresses)];
    NormalizeWritersIff(p, raw, out);
    FlattenOne(id, addresses);
    assert (forall i | 0 <= i < |raw| :: EntryIs(p, raw[i], out[i])) <==> EntryIs(p, raw[0], out[0]);
  }

  lemma {:induction false} WalletsIff(p: Platform, id: string, a: Arr<Leaf>, addresses: seq<string>)
    requires Trim(id) != ""
    ensures ParseAddresses(p, id, a) == Ok(addresses) <==> WalletsAre(p, a, addresses)
  {
    if a.Arr? && forall i | 0 <= i < |a.items| :: a.items[i].Text? {
      var texts := TextsOf(a.items);
      OneEntryIff(p, id, texts, addresses);
      if NormalizeWriters(p, [(id, texts)]).Ok? {
        SingleEntry(p, id, texts);
      }
      assert forall i | 0 <= i < |texts| :: texts[i] == a.items[i].text;
    }
  }

  lemma {:induction false} SingleEntry(p: Platform, id: string, texts: seq<string>)
    requires NormalizeWriters(p, [(id, texts)]).Ok?
    ensures var out := NormalizeWriters(p, [(id, texts)]).value; |out| == 1 && out == [(id, out[0].1)]
  {
    var out := NormalizeWriters(p, [(id, texts)]).value;
    NormalizeWritersIff(p, [(id, texts)], out);
    assert EntryIs(p, (id, texts), out[0]);
  }

  predicate WriterIs(p: Platform, set_: StatefulSet, ordinal: nat, o: Obj<RawWriter>, w: Writer) {
    && o.Obj?
    && var raw := o.fields;
       && Says(raw.id, w.id) && Says(raw.podUid, w.podUid) && Says(raw.revision, w.revision)
       && raw.ordinal == Number(ordinal as real) && w.ordinal == ordinal
       && w.id == set_.name + "-" + Decimal(ordinal) && w.revision == set_.revision
       && ImagesAre(raw.images, w.images) && WalletsAre(p, raw.addresses, w.addresses)
  }

  lemma {:induction false} WriterIff(p: Platform, set_: StatefulSet, ordinal: nat, o: Obj<RawWriter>, w: Writer)
    ensures ParseWriter(p, set_, ordinal, o) == Ok(w) <==> WriterIs(p, set_, ordinal, o, w)
  {
    if o.Obj? {
      var raw := o.fields;
      SaysIff(raw.id, w.id);
      SaysIff(raw.podUid, w.podUid);
      SaysIff(raw.revision, w.revision);
      if raw.images.Arr? {
        ImagesIff(raw.images.items, w.images);
      }
      if Says(raw.id, w.id) {
        WalletsIff(p, w.id, raw.addresses, w.addresses);
      }
    }
  }

  /** One writer per replica, in the order of the ordinals, on different pods. */
  predicate WritersAre(p: Platform, set_: StatefulSet, a: Arr<Obj<RawWriter>>, writers: seq<Writer>) {
    && a.Arr? && |a.items| == |writers| == set_.replicas
    && (forall i: nat | i < |writers| :: WriterIs(p, set_, i, a.items[i], writers[i]))
    && forall i, j | 0 <= i < j < |writers| :: writers[i].podUid != writers[j].podUid
  }

  /** All run the same images, and every container that is given a Secret runs in each. */
  predicate RunAlike(providers: seq<Provider>, writers: seq<Writer>) {
    && (forall i, j | 0 <= i < |writers| && 0 <= j < |writers| :: writers[i].images == writers[j].images)
    && forall k, i | 0 <= k < |providers| && 0 <= i < |writers| :: Runs(writers[i], providers[k].container)
  }

  predicate Runs(w: Writer, container: string) {
    exists i | 0 <= i < |w.images| :: w.images[i].name == container
  }

  lemma {:induction false} WritersIff(p: Platform, set_: StatefulSet, providers: seq<Provider>, a: Arr<Obj<RawWriter>>, writers: seq<Writer>)
    ensures ParseWriters(p, set_, providers, a) == Ok(writers) <==> WritersAre(p, set_, a, writers) && RunAlike(providers, writers)
  {
    if a.Arr? {
      var parse := WriterParser(p, set_);
      ParseDistinctIff(a.items, parse, WriterPod(), writers);
      if |a.items| == |writers| {
        forall i: nat | i < |writers| ensures parse(i, a.items[i]) == Ok(writers[i]) <==> WriterIs(p, set_, i, a.items[i], writers[i]) {
          WriterIff(p, set_, i, a.items[i], writers[i]);
        }
      }
      AlikeIff(providers, writers);
    }
  }

  lemma {:induction false} AlikeIff(providers: seq<Provider>, writers: seq<Writer>)
    ensures SameImages(writers) && ProvidersRun(providers, writers) <==> RunAlike(providers, writers)
  {
    forall w: Writer, c: string ensures RunsContainer(w, c) <==> Runs(w, c) { }
  }

  // ---- The snapshot ----

  /** The document describes this rollout, and is fresh if that is asked for. */
  predicate Describes(p: Platform, date: string -> Option<int>, o: Obj<RawSnapshot>, asOf: Option<int>, s: Snapshot) {
    && o.Obj?
    && var raw := o.fields;
       && raw.schemaVersion == Number(1.0) && Says(raw.collectedAt, s.collectedAt) && date(s.collectedAt).Some?
       && (asOf.Some? ==> -60_000 <= asOf.value - date(s.collectedAt).value <= 900_000)
       && Says(raw.context, s.context) && Says(raw.namespace, s.namespace)
       && StatefulSetIs(raw.statefulSet, s.statefulSet) && SecretsAre(raw.secrets, s.secrets)
       && ProvidersAre(s.secrets, raw.providers, s.providers)
       && WritersAre(p, s.statefulSet, raw.writers, s.writers) && RunAlike(s.providers, s.writers)
  }

  lemma {:induction false} SnapshotParts(p: Platform, date: string -> Option<int>, o: Obj<RawSnapshot>, asOf: Option<int>, s: Snapshot)
    ensures ParseSnapshot(p, date, o, asOf) == Ok(s)
            <==> && o.Obj? && o.fields.schemaVersion == Number(1.0) && RequireString(o.fields.collectedAt) == Ok(s.collectedAt)
                 && date(s.collectedAt).Some? && (asOf.Some? ==> FreshAt(date, s.collectedAt, asOf.value))
                 && RequireString(o.fields.context) == Ok(s.context) && RequireString(o.fields.namespace) == Ok(s.namespace)
                 && ParseStatefulSet(o.fields.statefulSet) == Ok(s.statefulSet) && ParseSecrets(o.fields.secrets) == Ok(s.secrets)
                 && ParseProviders(s.secrets, o.fields.providers) == Ok(s.providers)
                 && ParseWriters(p, s.statefulSet, s.providers, o.fields.writers) == Ok(s.writers)
  {
  }

  /** A snapshot document is accepted, with this result, if and only if it describes it. */
  lemma {:induction false} SnapshotAcceptedIff(p: Platform, date: string -> Option<int>, o: Obj<RawSnapshot>, asOf: Option<int>, s: Snapshot)
    ensures ParseSnapshot(p, date, o, asOf) == Ok(s) <==> Describes(p, date, o, asOf, s)
  {
    SnapshotParts(p, date, o, asOf, s);
    if o.Obj? {
      var raw := o.fields;
      SaysIff(raw.collectedAt, s.collectedAt);
      SaysIff(raw.context, s.context);
      SaysIff(raw.namespace, s.namespace);
      StatefulSetIff(raw.statefulSet, s.statefulSet);
      SecretsIff(raw.secrets, s.secrets);
      ProvidersIff(s.secrets, raw.providers, s.providers);
      WritersIff(p, s.statefulSet, s.providers, raw.writers, s.writers);
    }
  }
}

module JournalAcceptance {
  import opened Outcomes
  import opened Text
  import opened Manifest
  import opened FundingProgram
  import opened Documents
  import opened LiveSnapshots
  import opened FundingJournals
  import opened SnapshotAcceptance

  // ---- The intent ----

  /** A positive number in decimal digits. */
  predicate Amount(v: Leaf, n: nat) {
    v.Text? && IsDigits(v.text) && DigitsValue(v.text) == n && n > 0
  }

  lemma {:induction false} AmountIff(v: Leaf, n: nat)
    ensures ParseAmount(v) == Ok(n) <==> Amount(v, n)
  {
    RequireStringIff(v);
    if v.Text? && IsDigits(v.text) {
      NonBlankIsTrim(v.text);
      assert !IsSpace(v.text[0]);
    }
  }

  /** Writer ids with their addresses, as texts. */
  predicate Lists(o: Obj<seq<(string, Arr<Leaf>)>>, w: Writers) {
    && o.Obj? && |o.fields| == |w|
    && forall i | 0 <= i < |w| :: w[i].0 == o.fields[i].0 && TextsAre(o.fields[i].1, w[i].1)
  }

  predicate TextsAre(a: Arr<Leaf>, texts: seq<string>) {
    a.Arr? && |a.items| == |texts| && forall i | 0 <= i < |texts| :: a.items[i] == Text(texts[i])
  }

  lemma {:induction false} TextsIff(a: Arr<Leaf>, texts: seq<string>)
    ensures AllTexts(a) && TextsOf(a.items) == texts <==> TextsAre(a, texts)
  {
  }

  lemma {:induction false} ListsIff(o: Obj<seq<(string, Arr<Leaf>)>>, w: Writers)
    ensures ParseWritersObject(o) == Ok(w) <==> Lists(o, w)
  {
    if o.Obj? && |o.fields| == |w| {
      forall i | 0 <= i < |w| ensures AllTexts(o.fields[i].1) && TextsOf(o.fields[i].1.items) == w[i].1 <==> TextsAre(o.fields[i].1, w[i].1) {
        TextsIff(o.fields[i].1, w[i].1);
      }
      if Lists(o, w) {
        assert ParseWritersObject(o).Ok?;
        assert ParseWritersObject(o).value == w;
      }
    }
  }

  /** The raw values an intent document spells out. */
  predicate Spelled(raw: RawIntent, i: Intent) {
    && Says(raw.network, i.network) && Says(raw.sender, i.sender) && Says(raw.walType, i.walType)
    && Says(raw.payoutManifest, i.payoutManifest) && Lists(raw.writers, i.writers)
    && Amount(raw.mistPerAddress, i.mistPerAddress) && Amount(raw.frostPerAddress, i.frostPerAddress) && Amount(raw.gasBudget, i.gasBudget)
  }

  /** The canonical form of raw values: sender, type and wallets are normalized, everything else is kept. */
  predicate Normalizes(p: Platform, raw: Intent, writers: Writers, i: Intent) {
    && p.validAddress(raw.sender) && i.sender == p.normAddress(raw.sender) && i.walType == p.normType(raw.walType)
    && NormalizeWriters(p, raw.writers) == Ok(writers) && NormalizeWriters(p, writers) == Ok(i.writers)
    && i.network == raw.network && i.payoutManifest == raw.payoutManifest
    && i.mistPerAddress == raw.mistPerAddress && i.frostPerAddress == raw.frostPerAddress && i.gasBudget == raw.gasBudget
  }

  lemma {:induction false} NamesIff(raw: RawIntent, i: Intent)
    ensures ParseNames(raw) == Ok((i.network, i.sender, i.walType, i.payoutManifest))
            <==> Says(raw.network, i.network) && Says(raw.sender, i.sender) && Says(raw.walType, i.walType)
                 && Says(raw.payoutManifest, i.payoutManifest)
  {
    SaysIff(raw.network, i.network);
    SaysIff(raw.sender, i.sender);
    SaysIff(raw.walType, i.walType);
    SaysIff(raw.payoutManifest, i.payoutManifest);
  }

  lemma {:induction false} AmountsIff(raw: RawIntent, i: Intent)
    ensures ParseAmounts(raw) == Ok((i.mistPerAddress, i.frostPerAddress, i.gasBudget))
            <==> Amount(raw.mistPerAddress, i.mistPerAddress) && Amount(raw.frostPerAddress, i.frostPerAddress)
                 && Amount(raw.gasBudget, i.gasBudget)
  {
    AmountIff(raw.mistPerAddress, i.mistPerAddress);
    AmountIff(raw.frostPerAddress, i.frostPerAddress);
    AmountIff(raw.gasBudget, i.gasBudget);
  }

  lemma {:induction false} ParsedParts(p: Platform, o: Obj<RawIntent>, i: Intent) returns (raw: Intent, writers: Writers)
    requires ParseIntent(p, o) == Ok(i)
    ensures o.Obj? && Spelled(o.fields, raw) && Normalizes(p, raw, writers, i)
  {
    var names, amounts := ParseNames(o.fields).value, ParseAmounts(o.fields).value;
    var manifest := ParseWritersObject(o.fields.writers).value;
    writers := NormalizeWriters(p, manifest).value;
    raw := Intent(names.0, names.1, names.2, names.3, manifest, amounts.0, amounts.1, amounts.2);
    NamesIff(o.fields, raw);
    AmountsIff(o.fields, raw);
    ListsIff(o.fields.writers, manifest);
  }

  lemma {:induction false} PartsParse(p: Platform, o: Obj<RawIntent>, i: Intent, raw: Intent, writers: Writers)
    requires o.Obj? && Spelled(o.fields, raw) && Normalizes(p, raw, writers, i)
    ensures ParseIntent(p, o) == Ok(i)
  {
    NamesIff(o.fields, raw);
    AmountsIff(o.fields, raw);
    ListsIff(o.fields.writers, raw.writers);
  }

  /** An intent document gives this intent if and only if it is the canonical form of what the document spells out. */
  lemma {:induction false} IntentAcceptedIff(p: Platform, o: Obj<RawIntent>, i: Intent)
    ensures ParseIntent(p, o) == Ok(i)
            <==> o.Obj? && exists raw, writers :: Spelled(o.fields, raw) && Normalizes(p, raw, writers, i)
  {
    if ParseIntent(p, o) == Ok(i) {
      var raw, writers := ParsedParts(p, o, i);
    }
    if o.Obj? {
      if raw, writers :| Spelled(o.fields, raw) && Normalizes(p, raw, writers, i) {
        PartsParse(p, o, i, raw, writers);
      }
    }
  }

  // ---- The journal ----

  /** A transaction that was signed for this payout by its sender. */
  predicate TransactionIs(env: Env, expected: Intent, o: Obj<RawTransaction>, tx: SignedTransaction) {
    && o.Obj? && o.fields.transactionBytes.Text? && Trim(o.fields.transactionBytes.text) != ""
    && env.decode64(o.fields.transactionBytes.text) == Some(tx.bytes)
    && Says(o.fields.signature, tx.signature) && Says(o.fields.digest, tx.digest)
    && tx.digest == env.digest(tx.bytes) && env.accepts(tx.bytes, expected) && env.verifies(tx.bytes, tx.signature, expected.sender)
  }

  lemma {:induction false} TransactionIff(env: Env, expected: Intent, o: Obj<RawTransaction>, tx: SignedTransaction)
    ensures ParseTransaction(env, expected, o) == Ok(tx) <==> TransactionIs(env, expected, o, tx)
  {
    if o.Obj? {
      RequireStringIff(o.fields.transactionBytes);
      SaysIff(o.fields.signature, tx.signature);
      SaysIff(o.fields.digest, tx.digest);
    }
  }

  /** The document is a journal of this payout that a run may resume. */
  predicate IsJournal(env: Env, o: Obj<RawJournal>, expected: Intent, j: Journal) {
    && o.Obj?
    && var raw := o.fields;
       && raw.schemaVersion == Number(1.0) && raw.kind == Text("walrus-memory-funding")
       && raw.status == Text(j.status) && j.status in {"prepared", "succeeded", "failed"}
       && ParseIntent(env.p, raw.intent) == Ok(expected) && j.intent == expected && expected.network in {"mainnet", "testnet"}
       && ParseSnapshot(env.p, env.date, raw.liveSnapshot, None) == Ok(j.snapshot) && Matches(expected.writers, j.snapshot)
       && TransactionIs(env, expected, raw.transaction, j.tx)
       && j.createdAt == raw.createdAt && j.updatedAt == raw.updatedAt && j.execution == raw.execution
  }

  /**
   * A journal document is accepted, with this result, if and only if it is a resumable journal of exactly this payout,
   * with a snapshot of exactly its writers, fresh or not, and a transaction signed for it.
   */
  lemma {:induction false} JournalAcceptedIff(env: Env, o: Obj<RawJournal>, expected: Intent, j: Journal)
    ensures ParseJournal(env, o, expected) == Ok(j) <==> IsJournal(env, o, expected, j)
  {
    JournalParts(env, o, expected, j);
    if o.Obj? {
      HeaderIff(o.fields, j.status);
      TransactionIff(env, expected, o.fields.transaction, j.tx);
    }
  }

  lemma {:induction false} HeaderIff(raw: RawJournal, status: string)
    ensures ParseHeader(raw) == Ok(status)
            <==> raw.schemaVersion == Number(1.0) && raw.kind == Text("walrus-memory-funding") && raw.status == Text(status)
                 && status in {"prepared", "succeeded", "failed"}
  {
  }

  lemma {:induction false} JournalParts(env: Env, o: Obj<RawJournal>, expected: Intent, j: Journal)
    ensures ParseJournal(env, o, expected) == Ok(j)
            <==> && o.Obj? && ParseHeader(o.fields) == Ok(j.status)
                 && ParseJournalIntent(env.p, o.fields.intent, expected) == Ok(j.intent)
                 && ParseJournalSnapshot(env, o.fields.liveSnapshot, expected) == Ok(j.snapshot)
                 && ParseTransaction(env, expected, o.fields.transaction) == Ok(j.tx)
                 && j.createdAt == o.fields.createdAt && j.updatedAt == o.fields.updatedAt && j.execution == o.fields.execution
  {
  }

  // ---- What the script writes ----

  /** A fresh run's journal: prepared, for signed bytes that pass the check, under the intent and the snapshot of the run. */
  lemma {:induction false} PrepareIs(env: Env, intent: Intent, s: Snapshot, bytes: Bytes, signature: string, now: string, j: Journal)
    ensures Prepare(env, intent, s, bytes, signature, now) == Ok(j)
            <==> && bytes != [] && env.accepts(bytes, intent) && env.verifies(bytes, signature, intent.sender)
                 && j.status == "prepared" && j.intent == intent && j.snapshot == s && j.execution == None
                 && j.createdAt == j.updatedAt == Text(now)
                 && j.tx.bytes == bytes && j.tx.signature == signature && j.tx.digest == env.digest(bytes)
  {
  }

  /** The status after these rewritings: that of the last observed outcome, or the one before. */
  function LastStatus(before: string, ws: seq<Rewrite>): string {
    if ws == [] then before
    else
      var last := ws[|ws| - 1];
      if last.Observe? then (if last.success then "succeeded" else "failed") else LastStatus(before, ws[..|ws| - 1])
  }

  /** The snapshot after these rewritings: the last one that was fresh and matched, or the one before. */
  lemma {:induction false} RewritingsShow(env: Env, expected: Intent, j: Journal, ws: seq<Rewrite>)
    ensures var last := RewrittenAll(env, expected, j, ws);
            && last.status == LastStatus(j.status, ws) && last.intent == j.intent && last.tx == j.tx && last.createdAt == j.createdAt
            && (last.snapshot == j.snapshot
                || exists k | 0 <= k < |ws| :: ws[k].Persist? && ReconcileLiveWriters(env, expected.writers, ws[k].raw, ws[k].at) == Ok(last.snapshot))
  {
    if ws != [] {
      var n := |ws| - 1;
      RewritingsShow(env, expected, j, ws[..n]);
      var before := RewrittenAll(env, expected, j, ws[..n]);
      if before.snapshot != j.snapshot {
        var k :| 0 <= k < n && ws[..n][k].Persist? && ReconcileLiveWriters(env, expected.writers, ws[..n][k].raw, ws[..n][k].at) == Ok(before.snapshot);
        assert ws[k] == ws[..n][k];
      }
    }
  }

  /** A live snapshot reconciles exactly if it is accepted as fresh now and lists the manifest's writers with their wallets, in order. */
  lemma {:induction false} ReconcilesIff(env: Env, expected: Writers, o: Obj<RawSnapshot>, now: int, s: Snapshot)
    requires Distinct(LiveSnapshots.IdsOf(expected))
    ensures ReconcileLiveWriters(env, expected, o, now) == Ok(s)
            <==> Describes(env.p, env.date, o, Some(now), s) && WritersOf(s) == expected
  {
    SnapshotAcceptedIff(env.p, env.date, o, Some(now), s);
    MatchesIsEquality(expected, s);
  }
}
