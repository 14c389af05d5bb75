/** Outcomes of operations that the source reports by returning or by throwing. */
module Outcomes {

  datatype Option<+T> = None | Some(value: T)

  /** Why an operation throws. */
  datatype Reason =
    | ArgumentIsNotAvailable | BadSender | BadServer | BadSignature | BadTimestamp | CannotMerge | CoinIsNotAvailable
    | DestinationIsNotAvailable | DifferentImages | DigestMismatch | DoesNotConsumeASplitCoin | Duplicate
    | DuplicateRecipient | DuplicateServerObjectIDs | InsufficientCoinBalance | InsufficientFunds
    | IntentDoesNotExactlyMatchThisRun | InvalidAddressBalanceWithdrawal | InvalidSecretSource | InvalidWithdrawal
    | LiveWritersDoNotMatchTheManifest | MissingSplitAmount | MissingTransactionInput | MustBeANonEmptyString
    | MustBeAPositiveInteger | MustBeAWholeNumberOfBaseUnits | MustBeAnImmutableKubernetesSecret | MustBeAnObject
    | MustBeCanonicalBase64 | MustBeGreaterThan0 | MustBePure | MustConsumeAPreparedBalance | MustContainASuiAddress
    | MustContainAU64 | MustIdentifyAWriterSecret | MustProvideServerKeys | MustReferToATransactionInput
    | MustReportAtLeastOneImage | MustResolveTheSecretProvider | NetworkMustBeMainnetOrTestnet | NoAddressesToFund
    | NoBalanceProducingCall | NoServersOrThreshold | NotABalance | NotACoin | NotAResumableSignedTransaction
    | NotAValidSuiAddress | NotAWithdrawal | NotAZeroCoin | NotAnArrayOfAddresses | NotOnTheStatefulSetRevision
    | NotTheIntendedPayout | ProviderIsNotRunningInEveryPod | ReferencesUnverifiedSecret | NotAcceptedHere
    | RolloutIsNotFullyReadyAndUpdated | SchemaVersionMustBe1 | SendFundsHasInvalidArguments
    | SendsACoinRemainderAwayFromSender | SourceIsNotAvailable | StaleOrFutureSnapshot | TooManyRecipients
    | TooManyServerSlots | TypeMismatch | UnexpectedBalanceSource | UnexpectedCoinType | UnexpectedCommand
    | UnexpectedMoveCall | UnsupportedCall | UnsupportedCommand | UnsupportedSchemaOrKind
    | WriterAddressesMustBeAnArray | WriterHasNoAddresses | WriterIdMustNotBeEmpty | WrongNumberOfWriters
    | WrongOrdinal | WrongWriterId

  datatype Result<+T> = Ok(value: T) | Err(reason: Reason) {
    predicate IsFailure() { Err? }

    function PropagateFailure<U>(): Result<U>
      requires Err?
    {
      Err(reason)
    }

    function Extract(): T
      requires Ok?
    {
      value
    }
  }
}

/** The string operations of the JavaScript standard library the components rely on. */
module Text {
  import opened Outcomes

  /** White space as `String.prototype.trim` and the regular-expression class `\s` see it. */
  predicate IsSpace(c: char) {
    var n := c as int;
    (9 <= n <= 13) || n == 32 || n == 0xA0 || n == 0x1680 || (0x2000 <= n <= 0x200A)
    || n == 0x2028 || n == 0x2029 || n == 0x202F || n == 0x205F || n == 0x3000 || n == 0xFEFF
  }

  predicate AllSpace(s: string) {
    forall i | 0 <= i < |s| :: IsSpace(s[i])
  }

  function TrimStart(s: string): (r: string)
    ensures |r| <= |s| && (r != "" ==> !IsSpace(r[0]))
  {
    if s == "" || !IsSpace(s[0]) then s else TrimStart(s[1..])
  }

  function TrimEnd(s: string): (r: string)
    ensures |r| <= |s| && (r != "" ==> !IsSpace(r[|r| - 1]))
  {
    if s == "" || !IsSpace(s[|s| - 1]) then s else TrimEnd(s[..|s| - 1])
  }

  /** What is trimmed is white space, and nothing else is. */
  lemma {:induction false} TrimStartCuts(s: string) returns (w: string)
    ensures AllSpace(w) && s == w + TrimStart(s)
  {
    if s == "" || !IsSpace(s[0]) {
      w := "";
    } else {
      w := TrimStartCuts(s[1..]);
      w := [s[0]] + w;
    }
  }

  lemma {:induction false} TrimEndCuts(s: string) returns (w: string)
    ensures AllSpace(w) && s == TrimEnd(s) + w
  {
    if s == "" || !IsSpace(s[|s| - 1]) {
      w := "";
    } else {
      w := TrimEndCuts(s[..|s| - 1]);
      w := w + [s[|s| - 1]];
    }
  }

  function Trim(s: string): string {
    TrimEnd(TrimStart(s))
  }

  predicate StartsWith(s: string, prefix: string) {
    |prefix| <= |s| && s[..|prefix|] == prefix
  }

  predicate OccursAt(s: string, pattern: string, k: nat) {
    k + |pattern| <= |s| && s[k..k + |pattern|] == pattern
  }

  /** `s.indexOf(pattern, from)`. */
  function Find(s: string, pattern: string, from: nat): (r: Option<nat>)
    requires from <= |s|
    ensures r.Some? ==> from <= r.value && OccursAt(s, pattern, r.value)
                        && forall k | from <= k < r.value :: !OccursAt(s, pattern, k)
    ensures r.None? ==> forall k | from <= k :: !OccursAt(s, pattern, k)
    decreases |s| - from
  {
    if OccursAt(s, pattern, from) then Some(from)
    else if from == |s| then None
    else Find(s, pattern, from + 1)
  }

  /** The first occurrence is what `Find` returns: no other index qualifies. */
  lemma {:induction false} FindIs(s: string, pattern: string, from: nat, k: nat)
    requires from <= k && from <= |s| && OccursAt(s, pattern, k)
    requires forall j | from <= j < k :: !OccursAt(s, pattern, j)
    ensures Find(s, pattern, from) == Some(k)
  {
  }

  lemma {:induction false} OccursInTail(s: string, pattern: string, i: nat, k: nat)
    requires i <= |s|
    ensures OccursAt(s[i..], pattern, k) ==> OccursAt(s, pattern, i + k)
  {
  }

  lemma {:induction false} OccursInHead(s: string, pattern: string, n: nat, k: nat)
    requires n <= |s|
    ensures OccursAt(s[..n], pattern, k) ==> OccursAt(s, pattern, k)
  {
  }

  /** Leading white space never changes what trimming keeps. */
  lemma {:induction false} TrimDropsLeadingSpace(w: string, s: string)
    requires AllSpace(w)
    ensures TrimStart(w + s) == TrimStart(s)
  {
    if w != "" {
      assert IsSpace((w + s)[0]);
      assert (w + s)[1..] == w[1..] + s;
      TrimDropsLeadingSpace(w[1..], s);
    } else {
      assert w + s == s;
    }
  }

  lemma {:induction false} TrimIdempotent(s: string)
    ensures Trim(Trim(s)) == Trim(s)
  {
    var a := TrimStart(s);
    var b := TrimEnd(a);
    var w := TrimEndCuts(a);
    if b != "" {
      assert b[0] == a[0];
    }
  }

  /** Decimal notation of a natural number, as `Number.prototype.toString` and `BigInt.prototype.toString` print it. */
  function Decimal(n: nat): (s: string)
    ensures |s| > 0
    ensures forall i | 0 <= i < |s| :: '0' <= s[i] <= '9'
  {
    if n < 10 then [('0' as int + n) as char] else Decimal(n / 10) + [('0' as int + n % 10) as char]
  }

  predicate IsDigits(s: string) {
    |s| > 0 && forall i | 0 <= i < |s| :: '0' <= s[i] <= '9'
  }

  /** `BigInt(s)` for a string of decimal digits. */
  function DigitsValue(s: string): nat
    requires forall i | 0 <= i < |s| :: '0' <= s[i] <= '9'
  {
    if s == "" then 0 else 10 * DigitsValue(s[..|s| - 1]) + (s[|s| - 1] as int - '0' as int)
  }

  /** No leading zeros. */
  lemma {:induction false} DecimalIsShort(n: nat)
    ensures if n == 0 then Decimal(n) == "0" else Decimal(n)[0] != '0'
  {
    if n >= 10 {
      DecimalIsShort(n / 10);
    }
  }

  lemma {:induction false} DecimalRoundTrip(n: nat)
    ensures IsDigits(Decimal(n)) && DigitsValue(Decimal(n)) == n
  {
    if n >= 10 {
      DecimalRoundTrip(n / 10);
      var s := Decimal(n);
      assert s[..|s| - 1] == Decimal(n / 10);
    } else {
      assert Decimal(n)[..0] == "";
    }
  }

  /** Code-unit order on strings: the meaning of `<` between JavaScript strings. */
  predicate Less(a: string, b: string) {
    b != "" && (a == "" || a[0] < b[0] || (a[0] == b[0] && Less(a[1..], b[1..])))
  }

  lemma {:induction false} LessTransitive(a: string, b: string, c: string)
    requires Less(a, b) && Less(b, c)
    ensures Less(a, c)
  {
    if a != "" && a[0] == b[0] == c[0] {
      LessTransitive(a[1..], b[1..], c[1..]);
    }
  }

  lemma {:induction false} LessIrreflexive(a: string)
    ensures !Less(a, a)
  {
    if a != "" {
      LessIrreflexive(a[1..]);
    }
  }

  lemma {:induction false} LessTotal(a: string, b: string)
    ensures Less(a, b) || a == b || Less(b, a)
  {
    if a != "" && b != "" && a[0] == b[0] {
      LessTotal(a[1..], b[1..]);
      assert a == [a[0]] + a[1..] && b == [b[0]] + b[1..];
    }
  }
}

/** Cutting a growing text buffer at a separator, the way every reader in the system does it. */
module Framing {
  import opened Outcomes
  import opened Text

  datatype Cut = Cut(frames: seq<string>, rest: string)

  /** The frames a whole text falls into, and the unfinished tail that stays in the buffer. */
  function Frames(separator: string, s: string): (r: Cut)
    requires separator != ""
    decreases |s|
  {
    match Find(s, separator, 0)
    case None => Cut([], s)
    case Some(i) =>
      var tail := Frames(separator, s[i + |separator|..]);
      Cut([s[..i]] + tail.frames, tail.rest)
  }

  /** The text that a list of frames, each followed by the separator, stands for. */
  function Unframe(separator: string, frames: seq<string>, rest: string): string {
    if frames == [] then rest else frames[0] + separator + Unframe(separator, frames[1..], rest)
  }

  lemma {:induction false} CutFirst(separator: string, s: string, i: nat, rest: string)
    requires separator != "" && Find(s, separator, 0) == Some(i) && rest == s[i + |separator|..]
    ensures Frames(separator, s) == Cut([s[..i]] + Frames(separator, rest).frames, Frames(separator, rest).rest)
  {
  }

  lemma {:induction false} CutParts(separator: string, s: string, i: nat)
    requires OccursAt(s, separator, i)
    ensures s == s[..i] + separator + s[i + |separator|..]
  {
    assert s == s[..i] + s[i..i + |separator|] + s[i + |separator|..];
  }

  /** Nothing of the text is lost or reordered, and nothing that is complete stays behind. */
  lemma {:induction false} FramesRoundTrip(separator: string, s: string)
    requires separator != ""
    ensures Unframe(separator, Frames(separator, s).frames, Frames(separator, s).rest) == s
    ensures forall k :: !OccursAt(Frames(separator, s).rest, separator, k)
    decreases |s|
  {
    var found := Find(s, separator, 0);
    if found.Some? {
      var i := found.value;
      var rest := s[i + |separator|..];
      CutFirst(separator, s, i, rest);
      CutParts(separator, s, i);
      FramesRoundTrip(separator, rest);
      UnframeFirst(separator, s[..i], Frames(separator, rest).frames, Frames(separator, rest).rest);
    }
  }

  lemma {:induction false} UnframeFirst(separator: string, frame: string, frames: seq<string>, rest: string)
    ensures Unframe(separator, [frame] + frames, rest) == frame + separator + Unframe(separator, frames, rest)
  {
  }

  /** The first separator stays the first one when more text follows. */
  lemma {:induction false} FindExtends(separator: string, a: string, b: string, i: nat)
    requires separator != "" && Find(a, separator, 0) == Some(i)
    ensures Find(a + b, separator, 0) == Some(i)
  {
    var n := |separator|;
    forall j | 0 <= j < i ensures !OccursAt(a + b, separator, j) {
      assert !OccursAt(a, separator, j);
      assert (a + b)[j..j + n] == a[j..j + n];
    }
    assert (a + b)[i..i + n] == a[i..i + n];
    FindIs(a + b, separator, 0, i);
  }

  /** Reading `a` and then `b` cuts the same frames as reading `a + b` at once. */
  lemma {:induction false} FramesConcat(separator: string, a: string, b: string)
    requires separator != ""
    ensures var first := Frames(separator, a);
            var second := Frames(separator, first.rest + b);
            Frames(separator, a + b) == Cut(first.frames + second.frames, second.rest)
    decreases |a|
  {
    var found := Find(a, separator, 0);
    if found.None? {
      NoFrames(separator, a);
      assert [] + Frames(separator, a + b).frames == Frames(separator, a + b).frames;
    } else {
      var i := found.value;
      var rest := a[i + |separator|..];
      CutFirst(separator, a, i, rest);
      FindExtends(separator, a, b, i);
      SlicesExtend(a, b, i, i + |separator|);
      CutFirst(separator, a + b, i, rest + b);
      FramesConcat(separator, rest, b);
      Regroup([a[..i]], Frames(separator, rest).frames, Frames(separator, Frames(separator, rest).rest + b).frames);
    }
  }

  lemma {:induction false} NoFrames(separator: string, s: string)
    requires separator != "" && Find(s, separator, 0).None?
    ensures Frames(separator, s) == Cut([], s)
  {
  }

  lemma {:induction false} SlicesExtend(a: string, b: string, i: nat, k: nat)
    requires i <= k <= |a|
    ensures (a + b)[..i] == a[..i] && (a + b)[k..] == a[k..] + b
  {
  }

  lemma {:induction false} Regroup(x: seq<string>, y: seq<string>, z: seq<string>)
    ensures x + (y + z) == (x + y) + z
  {
  }

  /** All the text a chunked stream delivered. */
  function Joined(chunks: seq<string>): string {
    if chunks == [] then "" else Joined(chunks[..|chunks| - 1]) + chunks[|chunks| - 1]
  }
}
