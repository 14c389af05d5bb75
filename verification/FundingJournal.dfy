/**
 * Live writer snapshots and funding journals: what parsing a document accepts, and that everything the script
 * writes it can read back. A document is modelled field by field, as JSON.parse leaves it: a field is missing, of a
 * wrong shape, or a value, and JSON.stringify is the inverse on the values the script builds.
 */
module Documents {
  import opened Outcomes
  import opened Text

  datatype Leaf = Missing | Text(text: string) | Number(value: real) | Flag(on: bool) | OtherValue

  /** A value where an object is expected. */
  datatype Obj<+T> = NotObject | Obj(fields: T)

  /** A value where an array is expected. */
  datatype Arr<+T> = NotArray | Arr(items: seq<T>)

  const MAX_SAFE_INTEGER := 9007199254740991

  function RequireObj<T>(o: Obj<T>): Result<T> {
    if o.Obj? then Ok(o.fields) else Err(Reason.MustBeAnObject)
  }

  /** `s.trim()` is not empty. */
  predicate NonBlank(s: string) {
    exists i :: 0 <= i < |s| && !IsSpace(s[i])
  }

  lemma {:induction false} NonBlankIsTrim(s: string)
    ensures NonBlank(s) <==> Trim(s) != ""
  {
    var a := TrimStart(s);
    var b := TrimEnd(a);
    var w := TrimStartCuts(s);
    var v := TrimEndCuts(a);
    if a != "" {
      assert s[|w|] == a[0];
    }
  }

  function RequireString(v: Leaf): Result<string> {
    if v.Text? && NonBlank(v.text) then Ok(v.text) else Err(Reason.MustBeANonEmptyString)
  }

  /** requireString accepts exactly the strings that trimming leaves non-empty, and returns them untrimmed. */
  lemma {:induction false} RequireStringIff(v: Leaf)
    ensures RequireString(v).Ok? <==> v.Text? && Trim(v.text) != ""
    ensures RequireString(v).Ok? ==> RequireString(v).value == v.text
  {
    if v.Text? {
      NonBlankIsTrim(v.text);
    }
  }

  function RequirePositiveInteger(v: Leaf): Result<nat> {
    if v.Number? && v.value.Floor as real == v.value && 0 < v.value.Floor <= MAX_SAFE_INTEGER
    then Ok(v.value.Floor) else Err(Reason.MustBeAPositiveInteger)
  }

  function NumberOf(n: nat): Leaf { Number(n as real) }

  /** Array.map with a parser that may throw, refusing an entry whose key an earlier entry had. */
  function ParseDistinct<R, T>(items: seq<R>, parse: (nat, R) -> Result<T>, key: T -> string): Result<seq<T>> {
    if items == [] then Ok([])
    else
      var n := |items| - 1;
      var before :- ParseDistinct(items[..n], parse, key);
      var x :- parse(n, items[n]);
      if exists i | 0 <= i < |before| :: key(before[i]) == key(x) then Err(Reason.Duplicate) else Ok(before + [x])
  }

  function KeySet<T>(xs: seq<T>, key: T -> string): set<string> {
    if xs == [] then {} else KeySet(xs[..|xs| - 1], key) + {key(xs[|xs| - 1])}
  }

  lemma {:induction false} KeySetMember<T>(xs: seq<T>, key: T -> string)
    ensures forall s :: s in KeySet(xs, key) <==> exists k | 0 <= k < |xs| :: key(xs[k]) == s
  {
    if xs != [] {
      var n := |xs| - 1;
      KeySetMember(xs[..n], key);
      forall s ensures s in KeySet(xs, key) <==> exists k | 0 <= k < |xs| :: key(xs[k]) == s {
        if s in KeySet(xs[..n], key) {
          var k :| 0 <= k < n && key(xs[..n][k]) == s;
          assert key(xs[k]) == s;
        }
        if k :| 0 <= k < |xs| && key(xs[k]) == s {
          assert k < n ==> key(xs[..n][k]) == s;
        }
      }
    }
  }

  lemma {:induction false} ParseDistinctNext<R, T>(items: seq<R>, i: nat, parse: (nat, R) -> Result<T>, key: T -> string, out: seq<T>)
    requires i < |items| && ParseDistinct(items[..i], parse, key) == Ok(out)
    ensures var x := parse(i, items[i]);
            ParseDistinct(items[..i + 1], parse, key).Err? == (x.Err? || key(x.value) in KeySet(out, key))
    ensures var x := parse(i, items[i]);
            x.Ok? && key(x.value) !in KeySet(out, key) ==> ParseDistinct(items[..i + 1], parse, key) == Ok(out + [x.value])
  {
    assert items[..i + 1][..i] == items[..i];
    KeySetMember(out, key);
  }

  /** The same with the loop and the set of names seen so far. */
  method ParseDistinctLoop<R, T>(items: seq<R>, parse: (nat, R) -> Result<T>, key: T -> string) returns (r: Result<seq<T>>)
    ensures r.Ok? <==> ParseDistinct(items, parse, key).Ok?
    ensures r.Ok? ==> r == ParseDistinct(items, parse, key)
  {
    var out: seq<T> := [];
    var seen: set<string> := {};
    var i := 0;
    while i < |items|
      invariant 0 <= i <= |items|
      invariant ParseDistinct(items[..i], parse, key) == Ok(out)
      invariant seen == KeySet(out, key)
    {
      var x := parse(i, items[i]);
      ParseDistinctNext(items, i, parse, key, out);
      if x.Err? || key(x.value) in seen {
        FailureStays(items, parse, key, i + 1);
        return Err(Reason.NotAcceptedHere);
      }
      assert (out + [x.value])[..|out|] == out;
      out := out + [x.value];
      seen := seen + {key(x.value)};
      i := i + 1;
    }
    assert items[..|items|] == items;
    return Ok(out);
  }

  lemma {:induction false} FailureStays<R, T>(items: seq<R>, parse: (nat, R) -> Result<T>, key: T -> string, n: nat)
    requires n <= |items| && ParseDistinct(items[..n], parse, key).Err?
    ensures ParseDistinct(items, parse, key).Err?
  {
    if n == |items| {
      assert items[..n] == items;
    } else {
      var m := |items| - 1;
      assert items[..m][..n] == items[..n];
      FailureStays(items[..m], parse, key, n);
    }
  }

  predicate DistinctKeys<T>(xs: seq<T>, key: T -> string) {
    forall i, j | 0 <= i < j < |xs| :: key(xs[i]) != key(xs[j])
  }

  /** Parsing succeeds exactly when every entry parses at its place and no two share a key. */
  lemma {:induction false} ParseDistinctIff<R, T>(items: seq<R>, parse: (nat, R) -> Result<T>, key: T -> string, xs: seq<T>)
    ensures ParseDistinct(items, parse, key) == Ok(xs)
            <==> |xs| == |items| && (forall i | 0 <= i < |items| :: parse(i, items[i]) == Ok(xs[i])) && DistinctKeys(xs, key)
  {
    if items == [] {
    } else {
      var n := |items| - 1;
      if |xs| == |items| {
        ParseDistinctIff(items[..n], parse, key, xs[..n]);
        assert xs == xs[..n] + [xs[n]];
      }
      var before := ParseDistinct(items[..n], parse, key);
      if before.Ok? {
        ParseDistinctIff(items[..n], parse, key, before.value);
      }
    }
  }
}

module LiveSnapshots {
  import opened Outcomes
  import opened Text
  import opened Manifest
  import opened Documents

  const SNAPSHOT_MAX_AGE_MS := 15 * 60 * 1000
  const SNAPSHOT_FUTURE_SKEW_MS := 60 * 1000

  datatype StatefulSet = StatefulSet(
    name: string, uid: string, generation: nat, revision: string,
    replicas: nat, currentReplicas: nat, updatedReplicas: nat, readyReplicas: nat)
  datatype Secret = Secret(name: string, uid: string, resourceVersion: string)
  datatype Provider = Provider(container: string, secretName: string, key: string, source: string)
  datatype Image = Image(name: string, image: string, imageId: string)
  datatype Writer = Writer(id: string, ordinal: nat, podUid: string, revision: string, images: seq<Image>, addresses: seq<string>)

  datatype Snapshot = Snapshot(
    collectedAt: string, context: string, namespace: string, statefulSet: StatefulSet,
    secrets: seq<Secret>, providers: seq<Provider>, writers: seq<Writer>)

  datatype RawStatefulSet = RawStatefulSet(
    name: Leaf, uid: Leaf, generation: Leaf, revision: Leaf,
    replicas: Leaf, currentReplicas: Leaf, updatedReplicas: Leaf, readyReplicas: Leaf)
  datatype RawSecret = RawSecret(name: Leaf, uid: Leaf, resourceVersion: Leaf, immutable: Leaf)
  datatype RawProvider = RawProvider(container: Leaf, secretName: Leaf, key: Leaf, source: Leaf)
  datatype RawImage = RawImage(name: Leaf, image: Leaf, imageId: Leaf)
  datatype RawWriter = RawWriter(id: Leaf, ordinal: Leaf, podUid: Leaf, revision: Leaf, images: Arr<Obj<RawImage>>, addresses: Arr<Leaf>)

  datatype RawSnapshot = RawSnapshot(
    schemaVersion: Leaf, collectedAt: Leaf, context: Leaf, namespace: Leaf, statefulSet: Obj<RawStatefulSet>,
    secrets: Arr<Obj<RawSecret>>, providers: Arr<Obj<RawProvider>>, writers: Arr<Obj<RawWriter>>)

  // ---- Parsing ----

  function ParseStatefulSet(o: Obj<RawStatefulSet>): Result<StatefulSet> {
    var raw :- RequireObj(o);
    var name :- RequireString(raw.name);
    var uid :- RequireString(raw.uid);
    var generation :- RequirePositiveInteger(raw.generation);
    var revision :- RequireString(raw.revision);
    var replicas :- RequirePositiveInteger(raw.replicas);
    var current :- RequirePositiveInteger(raw.currentReplicas);
    var updated :- RequirePositiveInteger(raw.updatedReplicas);
    var ready :- RequirePositiveInteger(raw.readyReplicas);
    if current != replicas || updated != replicas || ready != replicas then Err(Reason.RolloutIsNotFullyReadyAndUpdated)
    else Ok(StatefulSet(name, uid, generation, revision, replicas, current, updated, ready))
  }

  function ParseSecret(o: Obj<RawSecret>): Result<Secret> {
    var raw :- RequireObj(o);
    var name :- RequireString(raw.name);
    if raw.immutable != Flag(true) then Err(Reason.MustBeAnImmutableKubernetesSecret)
    else
      var uid :- RequireString(raw.uid);
      var version :- RequireString(raw.resourceVersion);
      Ok(Secret(name, uid, version))
  }

  function ParseProvider(secrets: seq<Secret>, o: Obj<RawProvider>): Result<Provider> {
    var raw :- RequireObj(o);
    var container :- RequireString(raw.container);
    var secretName :- RequireString(raw.secretName);
    var key :- RequireString(raw.key);
    if key != "SERVER_SUI_PRIVATE_KEYS" then Err(Reason.MustProvideServerKeys)
    else if raw.source != Text("secretKeyRef") && raw.source != Text("envFrom") then Err(Reason.InvalidSecretSource)
    else if !exists i | 0 <= i < |secrets| :: secrets[i].name == secretName then Err(Reason.ReferencesUnverifiedSecret)
    else Ok(Provider(container, secretName, key, raw.source.text))
  }

  function ParseImage(o: Obj<RawImage>): Result<Image> {
    var raw :- RequireObj(o);
    var name :- RequireString(raw.name);
    var image :- RequireString(raw.image);
    var imageId :- RequireString(raw.imageId);
    Ok(Image(name, image, imageId))
  }

  function ParseAddresses(p: Platform, id: string, a: Arr<Leaf>): Result<seq<string>> {
    if a.NotArray? || exists i | 0 <= i < |a.items| :: !a.items[i].Text? then Err(Reason.NotAnArrayOfAddresses)
    else
      var writers :- NormalizeWriters(p, [(id, TextsOf(a.items))]);
      Ok(writers[0].1)
  }

  function ParseWriter(p: Platform, set_: StatefulSet, ordinal: nat, o: Obj<RawWriter>): Result<Writer> {
    var raw :- RequireObj(o);
    var id :- RequireString(raw.id);
    var podUid :- RequireString(raw.podUid);
    var revision :- RequireString(raw.revision);
    if raw.ordinal != NumberOf(ordinal) then Err(Reason.WrongOrdinal)
    else if id != set_.name + "-" + Decimal(ordinal) then Err(Reason.WrongWriterId)
    else if revision != set_.revision then Err(Reason.NotOnTheStatefulSetRevision)
    else if raw.images.NotArray? || raw.images.items == [] then Err(Reason.MustReportAtLeastOneImage)
    else
      var images :- ParseDistinct(raw.images.items, ImageParser(), ImageName());
      var addresses :- ParseAddresses(p, id, raw.addresses);
      Ok(Writer(id, ordinal, podUid, revision, images, addresses))
  }

  // The parsers and keys of the lists, as function values.

  function ImageParser(): (nat, Obj<RawImage>) -> Result<Image> { (_, o) => ParseImage(o) }
  function ImageName(): Image -> string { (i: Image) => i.name }
  function SecretParser(): (nat, Obj<RawSecret>) -> Result<Secret> { (_, o) => ParseSecret(o) }
  function SecretName(): Secret -> string { (s: Secret) => s.name }
  function ProviderParser(secrets: seq<Secret>): (nat, Obj<RawProvider>) -> Result<Provider> { (_, o) => ParseProvider(secrets, o) }
  function ProviderContainer(): Provider -> string { (x: Provider) => x.container }
  function WriterParser(p: Platform, set_: StatefulSet): (nat, Obj<RawWriter>) -> Result<Writer> {
    (i: nat, o: Obj<RawWriter>) => ParseWriter(p, set_, i, o)
  }
  function WriterPod(): Writer -> string { (w: Writer) => w.podUid }

  predicate RunsContainer(w: Writer, container: string) {
    exists i | 0 <= i < |w.images| :: w.images[i].name == container
  }

  /** The age check, skipped for the snapshot inside a journal. */
  predicate FreshAt(date: string -> Option<int>, collectedAt: string, now: int) {
    date(collectedAt).Some? && now - date(collectedAt).value <= SNAPSHOT_MAX_AGE_MS
    && now - date(collectedAt).value >= -SNAPSHOT_FUTURE_SKEW_MS
  }

  /** The immutable writer Secrets and the containers they are provided to. */
  function ParseSecrets(secrets: Arr<Obj<RawSecret>>): Result<seq<Secret>> {
    if secrets.NotArray? || secrets.items == [] then Err(Reason.MustIdentifyAWriterSecret)
    else ParseDistinct(secrets.items, SecretParser(), SecretName())
  }

  function ParseProviders(secrets: seq<Secret>, providers: Arr<Obj<RawProvider>>): Result<seq<Provider>> {
    if providers.NotArray? || providers.items == [] then Err(Reason.MustResolveTheSecretProvider)
    else ParseDistinct(providers.items, ProviderParser(secrets), ProviderContainer())
  }

  /** The pods, one per replica, all with the same images, and every provider's container in each. */
  function ParseWriters(p: Platform, set_: StatefulSet, providers: seq<Provider>, writers: Arr<Obj<RawWriter>>): Result<seq<Writer>> {
    if writers.NotArray? || |writers.items| != set_.replicas then Err(Reason.WrongNumberOfWriters)
    else
      var out :- ParseDistinct(writers.items, WriterParser(p, set_), WriterPod());
      if !SameImages(out) then Err(Reason.DifferentImages)
      else if !ProvidersRun(providers, out) then Err(Reason.ProviderIsNotRunningInEveryPod)
      else Ok(out)
  }

  predicate SameImages(writers: seq<Writer>) {
    forall i | 0 <= i < |writers| :: writers[i].images == writers[0].images
  }

  predicate ProvidersRun(providers: seq<Provider>, writers: seq<Writer>) {
    forall k, i | 0 <= k < |providers| && 0 <= i < |writers| :: RunsContainer(writers[i], providers[k].container)
  }

  /** parseLiveWriterSnapshot; `asOf` is the current time when freshness is required. */
  function ParseSnapshot(p: Platform, date: string -> Option<int>, o: Obj<RawSnapshot>, asOf: Option<int>): Result<Snapshot> {
    var raw :- RequireObj(o);
    if raw.schemaVersion != Number(1.0) then Err(Reason.SchemaVersionMustBe1)
    else
      var collectedAt :- RequireString(raw.collectedAt);
      if date(collectedAt).None? then Err(Reason.BadTimestamp)
      else if asOf.Some? && !FreshAt(date, collectedAt, asOf.value) then Err(Reason.StaleOrFutureSnapshot)
      else
        var set_ :- ParseStatefulSet(raw.statefulSet);
        var secrets :- ParseSecrets(raw.secrets);
        var providers :- ParseProviders(secrets, raw.providers);
        var writers :- ParseWriters(p, set_, providers, raw.writers);
        var context :- RequireString(raw.context);
        var namespace :- RequireString(raw.namespace);
        Ok(Snapshot(collectedAt, context, namespace, set_, secrets, providers, writers))
  }

  // ---- Printing: what JSON.stringify and JSON.parse make of a snapshot the script holds ----

  function PrintStatefulSet(s: StatefulSet): Obj<RawStatefulSet> {
    Obj(RawStatefulSet(Text(s.name), Text(s.uid), NumberOf(s.generation), Text(s.revision), NumberOf(s.replicas),
                       NumberOf(s.currentReplicas), NumberOf(s.updatedReplicas), NumberOf(s.readyReplicas)))
  }

  function PrintSecret(s: Secret): Obj<RawSecret> {
    Obj(RawSecret(Text(s.name), Text(s.uid), Text(s.resourceVersion), Flag(true)))
  }

  function PrintProvider(x: Provider): Obj<RawProvider> {
    Obj(RawProvider(Text(x.container), Text(x.secretName), Text(x.key), Text(x.source)))
  }

  function PrintImage(i: Image): Obj<RawImage> {
    Obj(RawImage(Text(i.name), Text(i.image), Text(i.imageId)))
  }

  function PrintEach<T, R>(xs: seq<T>, print_: T -> R): Arr<R> {
    Arr(seq(|xs|, i requires 0 <= i < |xs| => print_(xs[i])))
  }

  function PrintWriter(w: Writer): Obj<RawWriter> {
    Obj(RawWriter(Text(w.id), NumberOf(w.ordinal), Text(w.podUid), Text(w.revision),
                  PrintEach(w.images, PrintImage), PrintEach(w.addresses, TextLeaf)))
  }

  function PrintSnapshot(s: Snapshot): Obj<RawSnapshot> {
    Obj(RawSnapshot(Number(1.0), Text(s.collectedAt), Text(s.context), Text(s.namespace), PrintStatefulSet(s.statefulSet),
                    PrintEach(s.secrets, PrintSecret),
                    PrintEach(s.providers, PrintProvider),
                    PrintEach(s.writers, PrintWriter)))
  }

  // ---- Reading back what was printed ----

  lemma {:induction false} ListRoundTrip<R, T>(items: seq<R>, parse: (nat, R) -> Result<T>, key: T -> string, print_: T -> R, xs: seq<T>)
    requires ParseDistinct(items, parse, key) == Ok(xs)
    requires forall i: nat | i < |xs| :: parse(i, print_(xs[i])) == Ok(xs[i])
    ensures ParseDistinct(PrintEach(xs, print_).items, parse, key) == Ok(xs)
  {
    ParseDistinctIff(items, parse, key, xs);
    ParseDistinctIff(PrintEach(xs, print_).items, parse, key, xs);
  }

  lemma {:induction false} StatefulSetPrinted(o: Obj<RawStatefulSet>, s: StatefulSet)
    requires ParseStatefulSet(o) == Ok(s)
    ensures PrintStatefulSet(s) == o && s.replicas == s.readyReplicas > 0
  {
  }

  lemma {:induction false} ImagesRoundTrip(items: seq<Obj<RawImage>>, images: seq<Image>)
    requires ParseDistinct(items, ImageParser(), ImageName()) == Ok(images)
    ensures ParseDistinct(PrintEach(images, PrintImage).items, ImageParser(), ImageName()) == Ok(images)
    ensures |images| == |items|
  {
    ParseDistinctIff(items, ImageParser(), ImageName(), images);
    forall i: nat | i < |images| ensures PrintImage(images[i]) == items[i] {
      assert ImageParser()(i, items[i]) == Ok(images[i]);
    }
    ListRoundTrip(items, ImageParser(), ImageName(), PrintImage, images);
  }

  lemma {:induction false} SecretsRoundTrip(a: Arr<Obj<RawSecret>>, secrets: seq<Secret>)
    requires ParseSecrets(a) == Ok(secrets)
    ensures ParseSecrets(PrintEach(secrets, PrintSecret)) == Ok(secrets) && DistinctKeys(secrets, SecretName())
  {
    ParseDistinctIff(a.items, SecretParser(), SecretName(), secrets);
    forall i: nat | i < |secrets| ensures PrintSecret(secrets[i]) == a.items[i] {
      assert SecretParser()(i, a.items[i]) == Ok(secrets[i]);
    }
    ListRoundTrip(a.items, SecretParser(), SecretName(), PrintSecret, secrets);
  }

  lemma {:induction false} ProvidersRoundTrip(secrets: seq<Secret>, a: Arr<Obj<RawProvider>>, xs: seq<Provider>)
    requires ParseProviders(secrets, a) == Ok(xs)
    ensures ParseProviders(secrets, PrintEach(xs, PrintProvider)) == Ok(xs)
    ensures forall k | 0 <= k < |xs| :: exists i | 0 <= i < |secrets| :: secrets[i].name == xs[k].secretName
  {
    ParseDistinctIff(a.items, ProviderParser(secrets), ProviderContainer(), xs);
    forall i: nat | i < |xs|
      ensures PrintProvider(xs[i]) == a.items[i] && exists j | 0 <= j < |secrets| :: secrets[j].name == xs[i].secretName
    {
      assert ProviderParser(secrets)(i, a.items[i]) == Ok(xs[i]);
    }
    ListRoundTrip(a.items, ProviderParser(secrets), ProviderContainer(), PrintProvider, xs);
  }

  function TextsOf(a: seq<Leaf>): seq<string>
    requires forall i | 0 <= i < |a| :: a[i].Text?
  {
    seq(|a|, i requires 0 <= i < |a| => a[i].text)
  }

  function TextLeaf(s: string): Leaf { Text(s) }

  lemma {:induction false} PrintedTexts(addresses: seq<string>)
    ensures PrintEach(addresses, TextLeaf).Arr?
    ensures var items := PrintEach(addresses, TextLeaf).items;
            (forall i | 0 <= i < |items| :: items[i].Text?) && TextsOf(items) == addresses
  {
    var items := PrintEach(addresses, TextLeaf).items;
    forall i | 0 <= i < |items| ensures items[i] == Text(addresses[i]) {
      assert items[i] == TextLeaf(addresses[i]);
    }
    assert TextsOf(items) == addresses;
  }

  lemma {:induction false} AddressesRoundTrip(p: Platform, id: string, a: Arr<Leaf>, addresses: seq<string>)
    requires Lawful(p) && ParseAddresses(p, id, a) == Ok(addresses)
    ensures ParseAddresses(p, id, PrintEach(addresses, TextLeaf)) == Ok(addresses)
  {
    var raw := TextsOf(a.items);
    NormalizeWritersIdempotent(p, [(id, raw)]);
    SingleWriter(p, id, raw, addresses);
    PrintedTexts(addresses);
    AddressesParsed(p, id, PrintEach(addresses, TextLeaf), addresses);
  }

  lemma {:induction false} AddressesParsed(p: Platform, id: string, a: Arr<Leaf>, addresses: seq<string>)
    requires a.Arr? && (forall i | 0 <= i < |a.items| :: a.items[i].Text?) && TextsOf(a.items) == addresses
    requires NormalizeWriters(p, [(id, addresses)]) == Ok([(id, addresses)])
    ensures ParseAddresses(p, id, a) == Ok(addresses)
  {
  }

  lemma {:induction false} SingleWriter(p: Platform, id: string, raw: seq<string>, addresses: seq<string>)
    requires NormalizeWriters(p, [(id, raw)]).Ok? && |NormalizeWriters(p, [(id, raw)]).value| == 1
    requires NormalizeWriters(p, [(id, raw)]).value[0].1 == addresses
    ensures NormalizeWriters(p, [(id, raw)]).value == [(id, addresses)]
  {
  }

  lemma {:induction false} WriterRoundTrip(p: Platform, set_: StatefulSet, ordinal: nat, o: Obj<RawWriter>, w: Writer)
    requires Lawful(p) && ParseWriter(p, set_, ordinal, o) == Ok(w)
    ensures ParseWriter(p, set_, ordinal, PrintWriter(w)) == Ok(w)
    ensures w.ordinal == ordinal && w.id == set_.name + "-" + Decimal(ordinal) && w.revision == set_.revision
  {
    ImagesRoundTrip(o.fields.images.items, w.images);
    AddressesRoundTrip(p, w.id, o.fields.addresses, w.addresses);
  }

  lemma {:induction false} WritersRoundTrip(p: Platform, set_: StatefulSet, providers: seq<Provider>, a: Arr<Obj<RawWriter>>, writers: seq<Writer>)
    requires Lawful(p) && ParseWriters(p, set_, providers, a) == Ok(writers)
    ensures ParseWriters(p, set_, providers, PrintEach(writers, PrintWriter)) == Ok(writers)
    ensures |writers| == set_.replicas && DistinctKeys(writers, WriterPod())
    ensures forall i: nat | i < |writers| ::
              writers[i].ordinal == i && writers[i].id == set_.name + "-" + Decimal(i) && writers[i].revision == set_.revision
  {
    var parse := WriterParser(p, set_);
    ParseDistinctIff(a.items, parse, WriterPod(), writers);
    forall i: nat | i < |writers|
      ensures parse(i, PrintWriter(writers[i])) == Ok(writers[i])
      ensures writers[i].ordinal == i && writers[i].id == set_.name + "-" + Decimal(i) && writers[i].revision == set_.revision
    {
      assert parse(i, a.items[i]) == Ok(writers[i]);
      WriterRoundTrip(p, set_, i, a.items[i], writers[i]);
    }
    ListRoundTrip(a.items, parse, WriterPod(), PrintWriter, writers);
  }

  /** A snapshot that was once accepted is accepted again from what was written of it, unchanged, at any later time. */
  lemma {:induction false} SnapshotRoundTrip(p: Platform, date: string -> Option<int>, o: Obj<RawSnapshot>, asOf: Option<int>, s: Snapshot)
    requires Lawful(p) && ParseSnapshot(p, date, o, asOf) == Ok(s)
    ensures ParseSnapshot(p, date, PrintSnapshot(s), None) == Ok(s)
  {
    StatefulSetPrinted(o.fields.statefulSet, s.statefulSet);
    SecretsRoundTrip(o.fields.secrets, s.secrets);
    ProvidersRoundTrip(s.secrets, o.fields.providers, s.providers);
    WritersRoundTrip(p, s.statefulSet, s.providers, o.fields.writers, s.writers);
  }

  /** What an accepted snapshot guarantees about the rollout it describes. */
  lemma {:induction false} SnapshotIsOneRollout(p: Platform, date: string -> Option<int>, o: Obj<RawSnapshot>, asOf: Option<int>, s: Snapshot)
    requires Lawful(p) && ParseSnapshot(p, date, o, asOf) == Ok(s)
    ensures |s.writers| == s.statefulSet.replicas == s.statefulSet.readyReplicas > 0
    ensures forall i: nat | i < |s.writers| ::
              && s.writers[i].ordinal == i && s.writers[i].id == s.statefulSet.name + "-" + Decimal(i)
              && s.writers[i].revision == s.statefulSet.revision
    ensures DistinctKeys(s.writers, WriterPod()) && DistinctKeys(s.secrets, SecretName())
    ensures SameImages(s.writers) && ProvidersRun(s.providers, s.writers)
    ensures forall k | 0 <= k < |s.providers| :: exists i | 0 <= i < |s.secrets| :: s.secrets[i].name == s.providers[k].secretName
    ensures asOf.Some? ==> FreshAt(date, s.collectedAt, asOf.value)
  {
    StatefulSetPrinted(o.fields.statefulSet, s.statefulSet);
    SecretsRoundTrip(o.fields.secrets, s.secrets);
    ProvidersRoundTrip(s.secrets, o.fields.providers, s.providers);
    WritersRoundTrip(p, s.statefulSet, s.providers, o.fields.writers, s.writers);
  }

  // ---- Agreement with the manifest ----

  function WritersOf(s: Snapshot): Writers {
    seq(|s.writers|, i requires 0 <= i < |s.writers| => (s.writers[i].id, s.writers[i].addresses))
  }

  function IdsOf(w: Writers): seq<string> {
    seq(|w|, i requires 0 <= i < |w| => w[i].0)
  }

  /** `expected[id]` of the manifest object. */
  function Lookup(w: Writers, id: string): Option<seq<string>> {
    if w == [] then None else if w[0].0 == id then Some(w[0].1) else Lookup(w[1..], id)
  }

  /** assertSnapshotMatchesWriters. */
  predicate Matches(expected: Writers, s: Snapshot) {
    && IdsOf(WritersOf(s)) == IdsOf(expected)
    && forall i | 0 <= i < |s.writers| :: Lookup(expected, s.writers[i].id) == Some(s.writers[i].addresses)
  }

  lemma {:induction false} LookupAt(w: Writers, i: nat)
    requires i < |w| && Distinct(IdsOf(w))
    ensures Lookup(w, w[i].0) == Some(w[i].1)
  {
    if i > 0 {
      assert IdsOf(w)[0] != IdsOf(w)[i];
      assert IdsOf(w[1..]) == IdsOf(w)[1..];
      LookupAt(w[1..], i - 1);
    }
  }

  /** The live writers pass exactly when they are the manifest: same ids, same wallets, same order. */
  lemma {:induction false} MatchesIsEquality(expected: Writers, s: Snapshot)
    requires Distinct(IdsOf(expected))
    ensures Matches(expected, s) <==> WritersOf(s) == expected
  {
    forall i | 0 <= i < |expected| ensures Lookup(expected, expected[i].0) == Some(expected[i].1) {
      LookupAt(expected, i);
    }
    if WritersOf(s) == expected {
      forall i | 0 <= i < |s.writers| ensures Lookup(expected, s.writers[i].id) == Some(s.writers[i].addresses) {
        assert WritersOf(s)[i] == expected[i];
      }
    }
    if Matches(expected, s) {
      assert |WritersOf(s)| == |IdsOf(WritersOf(s))| == |expected|;
      forall i | 0 <= i < |expected| ensures WritersOf(s)[i] == expected[i] {
        assert IdsOf(WritersOf(s))[i] == IdsOf(expected)[i];
      }
    }
  }
}

/** The journal document: what parseFundingJournal accepts, and what the script writes. */
module FundingJournals {
  import opened Outcomes
  import opened Text
  import opened Hex
  import opened Manifest
  import opened FundingProgram
  import opened Documents
  import opened LiveSnapshots

  type Bytes = seq<byte>

  /** The functions around a journal that are not part of this model: dates, base64, digests, the check, signatures. */
  datatype Env = Env(
    p: Platform,
    date: string -> Option<int>,
    decode64: string -> Option<Bytes>,
    encode64: Bytes -> string,
    digest: Bytes -> string,
    accepts: (Bytes, Intent) -> bool,
    verifies: (Bytes, string, string) -> bool)

  /** decode64 reads canonical, non-empty base64 only; types are printed, never blank. */
  ghost predicate LawfulEnv(env: Env) {
    && Lawful(env.p)
    && (forall b: Bytes | b != [] :: env.decode64(env.encode64(b)) == Some(b) && NonBlank(env.encode64(b)))
    && (forall s | env.decode64(s).Some? :: env.decode64(s).value != [])
    && (forall t :: NonBlank(env.p.normType(t)))
  }

  datatype SignedTransaction = SignedTransaction(bytes: Bytes, signature: string, digest: string)
  datatype Execution = Execution(observedAt: string, source: string, success: bool)

  datatype Journal = Journal(
    status: string, createdAt: Leaf, updatedAt: Leaf, intent: Intent, snapshot: Snapshot,
    tx: SignedTransaction, execution: Option<Execution>)

  datatype RawIntent = RawIntent(
    network: Leaf, sender: Leaf, walType: Leaf, payoutManifest: Leaf, writers: Obj<seq<(string, Arr<Leaf>)>>,
    mistPerAddress: Leaf, frostPerAddress: Leaf, gasBudget: Leaf)
  datatype RawTransaction = RawTransaction(transactionBytes: Leaf, signature: Leaf, digest: Leaf)

  datatype RawJournal = RawJournal(
    schemaVersion: Leaf, kind: Leaf, status: Leaf, createdAt: Leaf, updatedAt: Leaf, intent: Obj<RawIntent>,
    liveSnapshot: Obj<RawSnapshot>, transaction: Obj<RawTransaction>, execution: Option<Execution>)

  // ---- Parsing ----

  function ParseAmount(v: Leaf): Result<nat> {
    var s :- RequireString(v);
    if !IsDigits(s) then Err(Reason.MustBeAWholeNumberOfBaseUnits)
    else if DigitsValue(s) == 0 then Err(Reason.MustBeGreaterThan0)
    else Ok(DigitsValue(s))
  }

  predicate AllTexts(a: Arr<Leaf>) {
    a.Arr? && forall i | 0 <= i < |a.items| :: a.items[i].Text?
  }

  /** The manifest object; normalizeWriters does the rest. */
  function ParseWritersObject(o: Obj<seq<(string, Arr<Leaf>)>>): Result<Writers> {
    var fields :- RequireObj(o);
    if exists i | 0 <= i < |fields| :: !AllTexts(fields[i].1) then Err(Reason.WriterAddressesMustBeAnArray)
    else Ok(seq(|fields|, i requires 0 <= i < |fields| && AllTexts(fields[i].1) => (fields[i].0, TextsOf(fields[i].1.items))))
  }

  /** fundingIntent: the canonical form two intents are compared in. */
  function FundingIntent(p: Platform, raw: Intent): Result<Intent> {
    if !p.validAddress(raw.sender) then Err(Reason.BadSender)
    else
      var writers :- NormalizeWriters(p, raw.writers);
      Ok(raw.(sender := p.normAddress(raw.sender), walType := p.normType(raw.walType), writers := writers))
  }

  function ParseNames(raw: RawIntent): Result<(string, string, string, string)> {
    var network :- RequireString(raw.network);
    var sender :- RequireString(raw.sender);
    var walType :- RequireString(raw.walType);
    var payoutManifest :- RequireString(raw.payoutManifest);
    Ok((network, sender, walType, payoutManifest))
  }

  function ParseAmounts(raw: RawIntent): Result<(nat, nat, nat)> {
    var mist :- ParseAmount(raw.mistPerAddress);
    var frost :- ParseAmount(raw.frostPerAddress);
    var gas :- ParseAmount(raw.gasBudget);
    Ok((mist, frost, gas))
  }

  function ParseIntent(p: Platform, o: Obj<RawIntent>): Result<Intent> {
    var raw :- RequireObj(o);
    var names :- ParseNames(raw);
    var manifest :- ParseWritersObject(raw.writers);
    var writers :- NormalizeWriters(p, manifest);
    var amounts :- ParseAmounts(raw);
    FundingIntent(p, Intent(names.0, names.1, names.2, names.3, writers, amounts.0, amounts.1, amounts.2))
  }

  predicate Resumed(status: string) {
    status == "prepared" || status == "succeeded" || status == "failed"
  }

  predicate KnownNetwork(network: string) {
    network == "mainnet" || network == "testnet"
  }

  function ParseTransaction(env: Env, expected: Intent, o: Obj<RawTransaction>): Result<SignedTransaction> {
    var raw :- RequireObj(o);
    var encoded :- RequireString(raw.transactionBytes);
    if env.decode64(encoded).None? then Err(Reason.MustBeCanonicalBase64)
    else
      var bytes := env.decode64(encoded).value;
      var signature :- RequireString(raw.signature);
      var digest :- RequireString(raw.digest);
      if digest != env.digest(bytes) then Err(Reason.DigestMismatch)
      else if !env.accepts(bytes, expected) then Err(Reason.NotTheIntendedPayout)
      else if !env.verifies(bytes, signature, expected.sender) then Err(Reason.BadSignature)
      else Ok(SignedTransaction(bytes, signature, digest))
  }

  function ParseHeader(raw: RawJournal): Result<string> {
    if raw.schemaVersion != Number(1.0) || raw.kind != Text("walrus-memory-funding") then Err(Reason.UnsupportedSchemaOrKind)
    else if !raw.status.Text? || !Resumed(raw.status.text) then Err(Reason.NotAResumableSignedTransaction)
    else Ok(raw.status.text)
  }

  function ParseJournalIntent(p: Platform, o: Obj<RawIntent>, expected: Intent): Result<Intent> {
    var intent :- ParseIntent(p, o);
    if !KnownNetwork(intent.network) then Err(Reason.NetworkMustBeMainnetOrTestnet)
    else if intent != expected then Err(Reason.IntentDoesNotExactlyMatchThisRun)
    else Ok(intent)
  }

  function ParseJournalSnapshot(env: Env, o: Obj<RawSnapshot>, expected: Intent): Result<Snapshot> {
    var snapshot :- ParseSnapshot(env.p, env.date, o, None);
    if !Matches(expected.writers, snapshot) then Err(Reason.LiveWritersDoNotMatchTheManifest) else Ok(snapshot)
  }

  function ParseJournal(env: Env, o: Obj<RawJournal>, expected: Intent): Result<Journal> {
    var raw :- RequireObj(o);
    var status :- ParseHeader(raw);
    var intent :- ParseJournalIntent(env.p, raw.intent, expected);
    var snapshot :- ParseJournalSnapshot(env, raw.liveSnapshot, expected);
    var tx :- ParseTransaction(env, expected, raw.transaction);
    Ok(Journal(status, raw.createdAt, raw.updatedAt, intent, snapshot, tx, raw.execution))
  }

  // ---- Printing ----

  function PrintWritersObject(w: Writers): Obj<seq<(string, Arr<Leaf>)>> {
    Obj(seq(|w|, i requires 0 <= i < |w| => (w[i].0, PrintEach(w[i].1, TextLeaf))))
  }

  function PrintIntent(i: Intent): Obj<RawIntent> {
    Obj(RawIntent(Text(i.network), Text(i.sender), Text(i.walType), Text(i.payoutManifest), PrintWritersObject(i.writers),
                  Text(Decimal(i.mistPerAddress)), Text(Decimal(i.frostPerAddress)), Text(Decimal(i.gasBudget))))
  }

  function PrintTransaction(env: Env, tx: SignedTransaction): Obj<RawTransaction> {
    Obj(RawTransaction(Text(env.encode64(tx.bytes)), Text(tx.signature), Text(tx.digest)))
  }

  function PrintJournal(env: Env, j: Journal): Obj<RawJournal> {
    Obj(RawJournal(Number(1.0), Text("walrus-memory-funding"), Text(j.status), j.createdAt, j.updatedAt,
                   PrintIntent(j.intent), PrintSnapshot(j.snapshot), PrintTransaction(env, j.tx), j.execution))
  }

  // ---- Reading back ----

  lemma {:induction false} WritersObjectRoundTrip(w: Writers)
    ensures ParseWritersObject(PrintWritersObject(w)) == Ok(w)
  {
    var fields := PrintWritersObject(w).fields;
    forall i | 0 <= i < |w| ensures AllTexts(fields[i].1) && TextsOf(fields[i].1.items) == w[i].1 {
      PrintedTexts(w[i].1);
    }
    assert ParseWritersObject(PrintWritersObject(w)).value == w;
  }

  lemma {:induction false} AmountRoundTrip(n: nat)
    requires n > 0
    ensures ParseAmount(Text(Decimal(n))) == Ok(n)
  {
    DecimalRoundTrip(n);
    var s := Decimal(n);
    assert !IsSpace(s[0]);
  }

  /** An intent in canonical form: what fundingIntent returns, with every text field non-blank and amounts positive. */
  ghost predicate CanonicalIntent(p: Platform, i: Intent) {
    && FundingIntent(p, i) == Ok(i)
    && NonBlank(i.network) && NonBlank(i.sender) && NonBlank(i.walType) && NonBlank(i.payoutManifest)
    && KnownNetwork(i.network) && i.mistPerAddress > 0 && i.frostPerAddress > 0 && i.gasBudget > 0
  }

  lemma {:induction false} NamesNonBlank(network: string, address: string)
    ensures KnownNetwork(network) ==> NonBlank(network)
    ensures CanonicalAddress(address) ==> NonBlank(address)
  {
    if KnownNetwork(network) {
      assert !IsSpace(network[0]);
    }
    if CanonicalAddress(address) {
      assert address[0] == address[..2][0];
      assert !IsSpace(address[0]);
    }
  }

  lemma {:induction false} FundingIntentFixpoint(p: Platform, raw: Intent, i: Intent)
    requires Lawful(p) && FundingIntent(p, raw) == Ok(i)
    ensures FundingIntent(p, i) == Ok(i) && CanonicalAddress(i.sender)
  {
    NormalizeWritersIdempotent(p, raw.writers);
  }

  /** The intent main builds is canonical. */
  lemma {:induction false} IntentIsCanonical(env: Env, raw: Intent, i: Intent)
    requires LawfulEnv(env) && FundingIntent(env.p, raw) == Ok(i)
    requires NonBlank(raw.payoutManifest) && KnownNetwork(raw.network)
    requires raw.mistPerAddress > 0 && raw.frostPerAddress > 0 && raw.gasBudget > 0
    ensures CanonicalIntent(env.p, i)
  {
    FundingIntentFixpoint(env.p, raw, i);
    NamesNonBlank(i.network, i.sender);
  }

  lemma {:induction false} IntentFieldsRoundTrip(p: Platform, i: Intent)
    requires FundingIntent(p, i) == Ok(i) && NormalizeWriters(p, i.writers) == Ok(i.writers)
    requires NonBlank(i.network) && NonBlank(i.sender) && NonBlank(i.walType) && NonBlank(i.payoutManifest)
    requires i.mistPerAddress > 0 && i.frostPerAddress > 0 && i.gasBudget > 0
    ensures ParseIntent(p, PrintIntent(i)) == Ok(i)
  {
    WritersObjectRoundTrip(i.writers);
    AmountsRoundTrip(i);
    NamesRoundTrip(i);
    ParsedIntent(p, PrintIntent(i).fields, i);
  }

  lemma {:induction false} ParsedIntent(p: Platform, raw: RawIntent, i: Intent)
    requires ParseNames(raw) == Ok((i.network, i.sender, i.walType, i.payoutManifest))
    requires ParseWritersObject(raw.writers) == Ok(i.writers) && NormalizeWriters(p, i.writers) == Ok(i.writers)
    requires ParseAmounts(raw) == Ok((i.mistPerAddress, i.frostPerAddress, i.gasBudget))
    ensures ParseIntent(p, Obj(raw)) == FundingIntent(p, i)
  {
  }

  lemma {:induction false} NamesRoundTrip(i: Intent)
    requires NonBlank(i.network) && NonBlank(i.sender) && NonBlank(i.walType) && NonBlank(i.payoutManifest)
    ensures ParseNames(PrintIntent(i).fields) == Ok((i.network, i.sender, i.walType, i.payoutManifest))
  {
  }

  lemma {:induction false} AmountsRoundTrip(i: Intent)
    requires i.mistPerAddress > 0 && i.frostPerAddress > 0 && i.gasBudget > 0
    ensures ParseAmounts(PrintIntent(i).fields) == Ok((i.mistPerAddress, i.frostPerAddress, i.gasBudget))
  {
    AmountRoundTrip(i.mistPerAddress);
    AmountRoundTrip(i.frostPerAddress);
    AmountRoundTrip(i.gasBudget);
  }

  lemma {:induction false} IntentRoundTrip(p: Platform, i: Intent)
    requires CanonicalIntent(p, i)
    ensures ParseJournalIntent(p, PrintIntent(i), i) == Ok(i)
  {
    IntentFieldsRoundTrip(p, i);
  }

  ghost predicate GoodTransaction(env: Env, tx: SignedTransaction, expected: Intent) {
    tx.bytes != [] && NonBlank(tx.signature) && NonBlank(tx.digest) && tx.digest == env.digest(tx.bytes)
    && env.accepts(tx.bytes, expected) && env.verifies(tx.bytes, tx.signature, expected.sender)
  }

  ghost predicate GoodSnapshot(env: Env, s: Snapshot, expected: Intent) {
    ParseSnapshot(env.p, env.date, PrintSnapshot(s), None) == Ok(s) && Matches(expected.writers, s)
  }

  /** What every signed journal the script writes satisfies. */
  ghost predicate Recoverable(env: Env, j: Journal, expected: Intent) {
    Resumed(j.status) && j.intent == expected && GoodSnapshot(env, j.snapshot, expected) && GoodTransaction(env, j.tx, expected)
  }

  lemma {:induction false} TransactionRoundTrip(env: Env, tx: SignedTransaction, expected: Intent)
    requires LawfulEnv(env) && GoodTransaction(env, tx, expected)
    ensures ParseTransaction(env, expected, PrintTransaction(env, tx)) == Ok(tx)
  {
  }

  /** A recoverable journal, once written, is accepted under the same intent and gives back itself. */
  lemma {:induction false} JournalRoundTrip(env: Env, j: Journal, expected: Intent)
    requires LawfulEnv(env) && CanonicalIntent(env.p, expected) && Recoverable(env, j, expected)
    ensures ParseJournal(env, PrintJournal(env, j), expected) == Ok(j)
  {
    IntentRoundTrip(env.p, expected);
    TransactionRoundTrip(env, j.tx, expected);
  }

  lemma {:induction false} ParsedTransactionGood(env: Env, o: Obj<RawTransaction>, expected: Intent, tx: SignedTransaction)
    requires LawfulEnv(env) && ParseTransaction(env, expected, o) == Ok(tx)
    ensures GoodTransaction(env, tx, expected)
  {
  }

  /** Conversely, whatever a parse accepts is recoverable again. */
  lemma {:induction false} ParsedIsRecoverable(env: Env, o: Obj<RawJournal>, expected: Intent, j: Journal)
    requires LawfulEnv(env) && ParseJournal(env, o, expected) == Ok(j)
    ensures Recoverable(env, j, expected)
  {
    SnapshotRoundTrip(env.p, env.date, o.fields.liveSnapshot, None, j.snapshot);
    ParsedTransactionGood(env, o.fields.transaction, expected, j.tx);
  }

  // ---- The journals one lineage writes ----

  /** reconcileLiveWriters: a fresh snapshot that matches the manifest. */
  function ReconcileLiveWriters(env: Env, expected: Writers, o: Obj<RawSnapshot>, now: int): Result<Snapshot> {
    var s :- ParseSnapshot(env.p, env.date, o, Some(now));
    if Matches(expected, s) then Ok(s) else Err(Reason.LiveWritersDoNotMatchTheManifest)
  }

  /** main: the journal before the first submission. */
  function Prepare(env: Env, intent: Intent, s: Snapshot, bytes: Bytes, signature: string, now: string): Result<Journal> {
    if bytes == [] || !env.accepts(bytes, intent) then Err(Reason.NotTheIntendedPayout)
    else if !env.verifies(bytes, signature, intent.sender) then Err(Reason.BadSignature)
    else Ok(Journal("prepared", Text(now), Text(now), intent, s, SignedTransaction(bytes, signature, env.digest(bytes)), None))
  }

  /** The two ways a journal is rewritten: persisted again under a new snapshot, or given the observed outcome. */
  datatype Rewrite =
    | Persist(raw: Obj<RawSnapshot>, at: int, now: string)
    | Observe(success: bool, source: string, now: string)

  function Rewritten(env: Env, expected: Intent, j: Journal, w: Rewrite): Journal {
    match w
    case Persist(raw, at, now) =>
      (match ReconcileLiveWriters(env, expected.writers, raw, at)
       case Ok(s) => j.(snapshot := s, updatedAt := Text(now))
       case Err(_) => j)
    case Observe(success, source, now) =>
      j.(status := if success then "succeeded" else "failed", updatedAt := Text(now), execution := Some(Execution(now, source, success)))
  }

  function RewrittenAll(env: Env, expected: Intent, j: Journal, ws: seq<Rewrite>): Journal {
    if ws == [] then j else Rewritten(env, expected, RewrittenAll(env, expected, j, ws[..|ws| - 1]), ws[|ws| - 1])
  }

  lemma {:induction false} RewrittenIsRecoverable(env: Env, expected: Intent, j: Journal, w: Rewrite)
    requires LawfulEnv(env) && Recoverable(env, j, expected)
    ensures Recoverable(env, Rewritten(env, expected, j, w), expected) && Rewritten(env, expected, j, w).tx == j.tx
  {
    if w.Persist? && ReconcileLiveWriters(env, expected.writers, w.raw, w.at).Ok? {
      SnapshotRoundTrip(env.p, env.date, w.raw, Some(w.at), ReconcileLiveWriters(env, expected.writers, w.raw, w.at).value);
    }
  }

  lemma {:induction false} RewritesKeepTransaction(env: Env, expected: Intent, j: Journal, ws: seq<Rewrite>)
    requires LawfulEnv(env) && Recoverable(env, j, expected)
    ensures Recoverable(env, RewrittenAll(env, expected, j, ws), expected)
    ensures RewrittenAll(env, expected, j, ws).tx == j.tx
  {
    if ws != [] {
      RewritesKeepTransaction(env, expected, j, ws[..|ws| - 1]);
      RewrittenIsRecoverable(env, expected, RewrittenAll(env, expected, j, ws[..|ws| - 1]), ws[|ws| - 1]);
    }
  }

  /**
   * Recoverability: the prepared journal, and everything any sequence of re-persists and recorded outcomes makes of it,
   * is accepted by a later parse under the same intent and yields the identical bytes, signature and digest.
   */
  lemma {:induction false} EveryJournalIsResumable(env: Env, expected: Intent, raw: Obj<RawSnapshot>, at: int, bytes: Bytes, signature: string,
                                now: string, ws: seq<Rewrite>, s: Snapshot, j: Journal)
    requires LawfulEnv(env) && CanonicalIntent(env.p, expected)
    requires ReconcileLiveWriters(env, expected.writers, raw, at) == Ok(s)
    requires Prepare(env, expected, s, bytes, signature, now) == Ok(j) && NonBlank(signature) && NonBlank(env.digest(bytes))
    ensures var last := RewrittenAll(env, expected, j, ws);
            && ParseJournal(env, PrintJournal(env, last), expected) == Ok(last)
            && last.tx == SignedTransaction(bytes, signature, env.digest(bytes))
  {
    SnapshotRoundTrip(env.p, env.date, raw, Some(at), s);
    RewritesKeepTransaction(env, expected, j, ws);
    JournalRoundTrip(env, RewrittenAll(env, expected, j, ws), expected);
  }
}
