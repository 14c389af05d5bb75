/** The protocol, the check and the program semantics together: what the chain's balances can look like. */
module FundingOutcome {
  import opened Outcomes
  import opened Manifest
  import opened FundingProgram
  import opened FundingValidator
  import opened FundingSoundness
  import P = FundingProtocol

  /** How the chain runs bytes: what they decode to, and the machine before and after. */
  datatype Chain = Chain(decode: P.Bytes -> TransactionData, before: P.Bytes -> Machine, after: P.Bytes -> Machine)

  /** The protocol's check is assertFundingTransaction for the intent, whose writers are the manifest's. */
  ghost predicate Checks(p: Platform, intent: Intent, s: P.Setting, chain: Chain) {
    NormalizeWriters(p, intent.writers) == Ok(s.writers) && forall b :: s.accepts(b) <==> Passes(p, intent, chain.decode, b)
  }

  ghost predicate Passes(p: Platform, intent: Intent, decode: P.Bytes -> TransactionData, b: P.Bytes) {
    Accepted(p, decode(b), intent)
  }

  /** The transaction executed, and with success. */
  ghost predicate Succeeded(s: P.Setting, w: P.World, b: P.Bytes) {
    b in w.ledger && s.digest(b) in w.outcome && w.outcome[s.digest(b)]
  }

  /** What succeeds on chain has run to its end there; nothing is asked of other transactions. */
  ghost predicate RunsOnChain(p: Platform, s: P.Setting, w: P.World, chain: Chain) {
    forall b | Succeeded(s, w, b) :: RunsTo(p, chain.decode(b), chain.before(b), chain.after(b))
  }

  /** For every intent and every decoder there is such a setting. */
  lemma {:induction false} TheCheckIsASetting(p: Platform, intent: Intent, chain: Chain, digest: P.Bytes -> string)
    returns (s: P.Setting)
    requires NormalizeWriters(p, intent.writers) == Ok(intent.writers)
    ensures Checks(p, intent, s, chain) && s.digest == digest
  {
    s := P.Setting(b => Passes(p, intent, chain.decode, b), digest, intent.writers);
  }

  /** What an address received from the transactions that executed with success. */
  function Moved(s: P.Setting, w: P.World, chain: Chain, ledger: seq<P.Bytes>, address: string, coinType: string): nat {
    if ledger == [] then 0
    else
      var b := ledger[|ledger| - 1];
      Moved(s, w, chain, ledger[..|ledger| - 1], address, coinType)
      + if s.digest(b) in w.outcome && w.outcome[s.digest(b)] then Received(chain.after(b), address, coinType) else 0
  }

  /** No address but the sender received anything. */
  ghost predicate NothingMoved(s: P.Setting, w: P.World, chain: Chain, sender: string) {
    forall a, t | a != sender :: Moved(s, w, chain, w.ledger, a, t) == 0
  }

  /** Every address but the sender received exactly what the intent owes it. */
  ghost predicate PayoutMoved(p: Platform, intent: Intent, s: P.Setting, w: P.World, chain: Chain)
    requires NormalizeWriters(p, intent.writers).Ok?
  {
    forall a, t | a != intent.sender :: Moved(s, w, chain, w.ledger, a, t) == Owed(p, intent, Recipients(p, intent), a, t)
  }

  lemma {:induction false} MovedByOne(s: P.Setting, w: P.World, chain: Chain, b: P.Bytes, a: string, t: string)
    requires w.ledger == [b]
    ensures Moved(s, w, chain, w.ledger, a, t) == if Succeeded(s, w, b) then Received(chain.after(b), a, t) else 0
  {
    assert w.ledger[..0] == [];
    assert Moved(s, w, chain, [], a, t) == 0;
  }

  lemma {:induction false} MovedIsPayment(p: Platform, intent: Intent, s: P.Setting, w: P.World, chain: Chain, b: P.Bytes)
    requires w.ledger == [b] && Succeeded(s, w, b) && NormalizeWriters(p, intent.writers).Ok?
    ensures PayoutMoved(p, intent, s, w, chain) <==> PaysExactly(p, intent, chain.after(b))
  {
    forall a, t ensures Moved(s, w, chain, w.ledger, a, t) == Received(chain.after(b), a, t) { MovedByOne(s, w, chain, b, a, t); }
  }

  /** The one transaction of a single preparation passed the check. */
  lemma {:induction false} OneChecked(p: Platform, intent: Intent, s: P.Setting, chain: Chain, steps: seq<P.Step>)
    requires Checks(p, intent, s, chain) && P.After(s, steps).preparations <= 1
    ensures var w := P.After(s, steps);
            w.ledger == [] || (w.ledger == [w.ledger[0]] && Accepted(p, chain.decode(w.ledger[0]), intent))
  {
    P.OnePreparation(s, steps);
    var w := P.After(s, steps);
    if w.ledger != [] {
      assert Passes(p, intent, chain.decode, w.ledger[0]);
    }
  }

  lemma {:induction false} NothingSucceeded(s: P.Setting, w: P.World, chain: Chain, sender: string)
    requires w.ledger == [] || (|w.ledger| == 1 && !Succeeded(s, w, w.ledger[0]))
    ensures NothingMoved(s, w, chain, sender)
  {
    forall a, t ensures Moved(s, w, chain, w.ledger, a, t) == 0 {
      if w.ledger != [] {
        MovedByOne(s, w, chain, w.ledger[0], a, t);
      }
    }
  }

  /**
   * One preparation and any number of resumes move nothing at all, or exactly one copy of the intended payout, provided
   * the transaction that succeeded leaves its payment coins alone.
   */
  lemma {:induction false} NothingOrOnePayout(p: Platform, intent: Intent, s: P.Setting, chain: Chain, steps: seq<P.Step>)
    requires Checks(p, intent, s, chain) && P.After(s, steps).preparations <= 1
    requires var w := P.After(s, steps);
             RunsOnChain(p, s, w, chain) && forall b | Succeeded(s, w, b) :: Undisturbed(p, chain.decode(b))
    ensures var w := P.After(s, steps);
            NothingMoved(s, w, chain, intent.sender) || PayoutMoved(p, intent, s, w, chain)
  {
    var w := P.After(s, steps);
    OneChecked(p, intent, s, chain, steps);
    if w.ledger != [] && Succeeded(s, w, w.ledger[0]) {
      var b := w.ledger[0];
      ValidatorSound(p, chain.decode(b), intent, chain.before(b), chain.after(b));
      MovedIsPayment(p, intent, s, w, chain, b);
    } else {
      NothingSucceeded(s, w, chain, intent.sender);
    }
  }

  /** Without that proviso: what one successful transaction moved is the payout if and only if no payment coin has drifted. */
  lemma {:induction false} OnePayoutIffNoDrift(p: Platform, intent: Intent, s: P.Setting, chain: Chain, steps: seq<P.Step>, b: P.Bytes)
    requires Checks(p, intent, s, chain) && P.After(s, steps).preparations <= 1
    requires p.normType(SUI_TYPE) != p.normType(intent.walType)
    requires var w := P.After(s, steps); RunsOnChain(p, s, w, chain) && Succeeded(s, w, b)
    ensures var origins := Origins(p, chain.decode(b), |chain.decode(b).commands|);
            var m := chain.after(b);
            && |m.payments| == |origins|
            && (PayoutMoved(p, intent, s, P.After(s, steps), chain) <==>
                forall k | 0 <= k < |m.payments| && m.payments[k].address != intent.sender :: DriftOf(m, origins[k]) == 0)
  {
    var w := P.After(s, steps);
    OneChecked(p, intent, s, chain, steps);
    MovedIsPayment(p, intent, s, w, chain, b);
    ExactIffNoDrift(p, chain.decode(b), intent, chain.before(b), chain.after(b));
  }

  /** Read off the program text: if nothing is merged into payment coins, it is the payout if and only if nothing is split from them. */
  lemma {:induction false} OnePayoutIffUnsplit(p: Platform, intent: Intent, s: P.Setting, chain: Chain, steps: seq<P.Step>, b: P.Bytes)
    requires Checks(p, intent, s, chain) && P.After(s, steps).preparations <= 1
    requires p.normType(SUI_TYPE) != p.normType(intent.walType)
    requires var w := P.After(s, steps); RunsOnChain(p, s, w, chain) && Succeeded(s, w, b) && Unmerged(p, chain.decode(b))
    ensures var origins := Origins(p, chain.decode(b), |chain.decode(b).commands|);
            && |origins| == |Expected(p, intent, Recipients(p, intent))|
            && (PayoutMoved(p, intent, s, P.After(s, steps), chain) <==>
                forall k | 0 <= k < |origins| :: KeptWhole(p, chain.decode(b), intent, k))
  {
    OneChecked(p, intent, s, chain, steps);
    MovedIsPayment(p, intent, s, P.After(s, steps), chain, b);
    ExactIffUnsplit(p, chain.decode(b), intent, chain.before(b), chain.after(b));
  }

  lemma {:induction false} StrangersGetNothing(p: Platform, intent: Intent, s: P.Setting, w: P.World, chain: Chain, ledger: seq<P.Bytes>,
                                               a: string, t: string)
    requires forall b | b in ledger && Succeeded(s, w, b) ::
               Accepted(p, chain.decode(b), intent) && RunsTo(p, chain.decode(b), chain.before(b), chain.after(b))
    requires NormalizeWriters(p, intent.writers).Ok? && a != intent.sender && a !in Recipients(p, intent)
    requires forall b | b in ledger :: b in w.ledger
    ensures Moved(s, w, chain, ledger, a, t) == 0
  {
    if ledger != [] {
      var n := |ledger| - 1;
      var b := ledger[n];
      assert b in ledger;
      StrangersGetNothing(p, intent, s, w, chain, ledger[..n], a, t);
      if Succeeded(s, w, b) {
        NoStrangerIsPaid(p, chain.decode(b), intent, chain.before(b), chain.after(b), a, t);
      }
    }
  }

  /** Whatever is prepared, resumed and merged: an address that is neither recipient nor sender receives nothing, ever. */
  lemma {:induction false} OnlyRecipientsAreMovedTo(p: Platform, intent: Intent, s: P.Setting, chain: Chain, steps: seq<P.Step>,
                                                    a: string, t: string)
    requires Checks(p, intent, s, chain) && RunsOnChain(p, s, P.After(s, steps), chain)
    requires a != intent.sender && a !in Recipients(p, intent)
    ensures var w := P.After(s, steps); Moved(s, w, chain, w.ledger, a, t) == 0
  {
    var w := P.After(s, steps);
    P.ExactlyOnce(s, steps);
    forall b | b in w.ledger && Succeeded(s, w, b)
      ensures Accepted(p, chain.decode(b), intent) && RunsTo(p, chain.decode(b), chain.before(b), chain.after(b))
    {
      assert P.SignedAndAccepted(s, w, b);
      assert Passes(p, intent, chain.decode, b);
    }
    StrangersGetNothing(p, intent, s, w, chain, w.ledger, a, t);
  }

  // ---- The wallets of the live snapshot are the ones paid ----

  /** Payments in pairs, one in SUI and one in WAL for each wallet in turn. */
  ghost predicate PaysEach(p: Platform, intent: Intent, payments: seq<Credit>, wallets: seq<string>) {
    && |payments| == 2 * |wallets|
    && forall i: nat | i < |wallets| :: PairIs(p, intent, payments, i, wallets[i])
  }

  ghost predicate PairIs(p: Platform, intent: Intent, payments: seq<Credit>, i: nat, wallet: string) {
    2 * i + 1 < |payments|
    && payments[2 * i] == Credit(wallet, p.normType(SUI_TYPE), intent.mistPerAddress)
    && payments[2 * i + 1] == Credit(wallet, p.normType(intent.walType), intent.frostPerAddress)
  }

  lemma {:induction false} ExpectedPaysEach(p: Platform, intent: Intent, wallets: seq<string>)
    ensures PaysEach(p, intent, Expected(p, intent, wallets), wallets)
  {
    if wallets != [] {
      ExpectedPaysEach(p, intent, wallets[1..]);
      var rest := Expected(p, intent, wallets[1..]);
      forall i: nat | i < |wallets| ensures PairIs(p, intent, Expected(p, intent, wallets), i, wallets[i]) {
        if i > 0 {
          assert PairIs(p, intent, rest, i - 1, wallets[1..][i - 1]);
        }
      }
    }
  }

  /**
   * At every submission the snapshot is at most fifteen minutes old, and its wallets, in its order, are exactly the
   * addresses the submitted program states payments to.
   */
  lemma {:induction false} SubmissionPaysSnapshot(p: Platform, intent: Intent, s: P.Setting, chain: Chain, steps: seq<P.Step>, k: nat)
    requires Checks(p, intent, s, chain)
    requires k < |P.After(s, steps).log| && P.After(s, steps).log[k].Submission?
    ensures var e := P.After(s, steps).log[k];
            && e.at - e.live.collectedAt <= 900_000
            && Payments(p, chain.decode(e.bytes), intent, |chain.decode(e.bytes).commands|).Ok?
            && PaysEach(p, intent, Payments(p, chain.decode(e.bytes), intent, |chain.decode(e.bytes).commands|).value,
                        Flatten(e.live.writers))
  {
    var e := P.After(s, steps).log[k];
    P.WriteAhead(s, steps, k);
    assert Passes(p, intent, chain.decode, e.bytes);
    ExpectedPaysEach(p, intent, Flatten(e.live.writers));
  }
}
