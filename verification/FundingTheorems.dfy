/** What acceptance by the validator means for the money, in both directions. */
module FundingSoundness {
  import opened Outcomes
  import opened Text
  import opened Hex
  import opened Manifest
  import opened FundingProgram
  import opened FundingValidator

  /** Every address but the sender ends with exactly what the intent owes it, in every coin type. */
  ghost predicate PaysExactly(p: Platform, intent: Intent, m: Machine)
    requires NormalizeWriters(p, intent.writers).Ok?
  {
    forall address, coinType | address != intent.sender ::
      Received(m, address, coinType) == Owed(p, intent, Recipients(p, intent), address, coinType)
  }

  ghost predicate RunsTo(p: Platform, data: TransactionData, m0: Machine, m: Machine) {
    Initial(p, data, m0) && Run(p, data, m0, |data.commands|) == Ok(m)
  }

  /** The coin that command `i` merges into or splits from. */
  function Touched(data: TransactionData, i: nat): Option<Slot>
    requires i < |data.commands|
  {
    match data.commands[i]
    case MergeCoins(destination, _) => SlotOf(data, destination)
    case SplitCoins(coin, _) => SlotOf(data, coin)
    case _ => None
  }

  /** No command merges into, or splits from, a coin that a payment is made of. */
  predicate Undisturbed(p: Platform, data: TransactionData) {
    forall o | o in Origins(p, data, |data.commands|) && o.Some? ::
      forall i | 0 <= i < |data.commands| :: Touched(data, i) != o
  }

  lemma {:induction false} MergeDriftsTarget(data: TransactionData, m: Machine, target: Slot, sources: seq<Argument>, m': Machine)
    requires target in m.slots && m.slots[target].Coin? && MergeInto(data, m, target, sources) == Ok(m')
    ensures forall s | s != target :: Drift(m', s) == Drift(m, s)
    decreases |sources|
  {
    if sources != [] {
      MergeDriftsTarget(data, MergeOne(m, target, Held(data, m, sources[0]).value), target, sources[1..], m');
    }
  }

  lemma {:induction false} StepDriftsTouched(p: Platform, data: TransactionData, m: Machine, i: nat, m': Machine, s: Slot)
    requires i < |data.commands| && Exec(p, data, m, i) == Ok(m') && Touched(data, i) != Some(s)
    ensures Drift(m', s) == Drift(m, s)
  {
    match data.commands[i]
    case MergeCoins(destination, sources) =>
      MergeDriftsTarget(data, m, Held(data, m, destination).value, sources, m');
    case SplitCoins(coin, amounts) =>
      SplitIsQuiet(data, m, Held(data, m, coin).value, amounts, i, 0, m');
    case _ =>
  }

  lemma {:induction false} UntouchedHasNoDrift(p: Platform, data: TransactionData, m0: Machine, n: nat, m: Machine, s: Slot)
    requires n <= |data.commands| && Initial(p, data, m0) && Run(p, data, m0, n) == Ok(m)
    requires forall i | 0 <= i < n :: Touched(data, i) != Some(s)
    ensures Drift(m, s) == 0
  {
    if n > 0 {
      var before := Run(p, data, m0, n - 1).value;
      UntouchedHasNoDrift(p, data, m0, n - 1, before, s);
      StepDriftsTouched(p, data, before, n - 1, m, s);
    }
  }

  lemma {:induction false} UndisturbedHasNoDrift(p: Platform, data: TransactionData, m0: Machine, m: Machine, k: nat)
    requires RunsTo(p, data, m0, m) && Undisturbed(p, data) && k < |Origins(p, data, |data.commands|)|
    ensures DriftOf(m, Origins(p, data, |data.commands|)[k]) == 0
  {
    var o := Origins(p, data, |data.commands|)[k];
    if o.Some? {
      assert o in Origins(p, data, |data.commands|);
      UntouchedHasNoDrift(p, data, m0, |data.commands|, m, o.value);
    }
  }

  lemma {:induction false} UndisturbedPayments(p: Platform, data: TransactionData, intent: Intent, m0: Machine, m: Machine)
    requires Accepted(p, data, intent) && RunsTo(p, data, m0, m) && Undisturbed(p, data)
    ensures m.payments == Expected(p, intent, Recipients(p, intent))
  {
    PaidAsStated(p, data, intent, m0, m);
    var expected := Expected(p, intent, Recipients(p, intent));
    forall k | 0 <= k < |expected| ensures m.payments[k] == expected[k] {
      UndisturbedHasNoDrift(p, data, m0, m, k);
    }
  }

  /** A program that passes the check and leaves its payment coins alone credits the intent, in order, and nothing else. */
  lemma {:induction false} ValidatorSound(p: Platform, data: TransactionData, intent: Intent, m0: Machine, m: Machine)
    requires Accepted(p, data, intent) && RunsTo(p, data, m0, m) && Undisturbed(p, data)
    ensures m.payments == Expected(p, intent, Recipients(p, intent))
    ensures PaysExactly(p, intent, m)
  {
    UndisturbedPayments(p, data, intent, m0, m);
    PaidAsStated(p, data, intent, m0, m);
    StatedPaymentsPayExactly(p, intent, m);
  }

  lemma {:induction false} StatedPaymentsPayExactly(p: Platform, intent: Intent, m: Machine)
    requires NormalizeWriters(p, intent.writers).Ok?
    requires m.payments == Expected(p, intent, Recipients(p, intent))
    requires forall c | c in m.remainders :: c.address == intent.sender
    ensures PaysExactly(p, intent, m)
  {
    forall address, coinType | address != intent.sender
      ensures Received(m, address, coinType) == Owed(p, intent, Recipients(p, intent), address, coinType)
    {
      ExpectedTotals(p, intent, Recipients(p, intent), address, coinType);
      TotalOfStrangers(m.remainders, address, coinType);
    }
  }

  /** With no assumption on the coins: an address that is neither a recipient nor the sender receives nothing. */
  lemma {:induction false} NoStrangerIsPaid(p: Platform, data: TransactionData, intent: Intent, m0: Machine, m: Machine, address: string, coinType: string)
    requires Accepted(p, data, intent) && RunsTo(p, data, m0, m)
    requires address != intent.sender && address !in Recipients(p, intent)
    ensures Received(m, address, coinType) == 0
  {
    PaidAsStated(p, data, intent, m0, m);
    var recipients := Recipients(p, intent);
    ExpectedTotals(p, intent, recipients, address, coinType);
    var expected := Expected(p, intent, recipients);
    forall c | c in m.payments ensures c.address != address {
      var k :| 0 <= k < |m.payments| && m.payments[k] == c;
      assert expected[k] in expected;
    }
    TotalOfStrangers(m.payments, address, coinType);
    TotalOfStrangers(m.remainders, address, coinType);
  }

  // ---- Exactly when the payout is exact ----

  lemma {:induction false} TotalOfOnly(credits: seq<Credit>, k: nat)
    requires k < |credits|
    requires forall j | 0 <= j < |credits| && j != k ::
               credits[j].address != credits[k].address || credits[j].coinType != credits[k].coinType
    ensures Total(credits, credits[k].address, credits[k].coinType) == credits[k].amount
  {
    var n := |credits| - 1;
    if k == n {
      TotalOfStrangers(credits[..n], credits[k].address, credits[k].coinType);
    } else {
      TotalOfOnly(credits[..n], k);
    }
  }

  /** No two payments of an intent go to the same address in the same coin type. */
  lemma {:induction false} ExpectedApart(p: Platform, intent: Intent, recipients: seq<string>, j: nat, k: nat)
    requires Distinct(recipients) && p.normType(SUI_TYPE) != p.normType(intent.walType)
    requires j < k < |Expected(p, intent, recipients)|
    ensures var e := Expected(p, intent, recipients); e[j].address != e[k].address || e[j].coinType != e[k].coinType
  {
    var rest := Expected(p, intent, recipients[1..]);
    if j >= 2 {
      ExpectedApart(p, intent, recipients[1..], j - 2, k - 2);
    } else if k >= 2 {
      ExpectedTotals(p, intent, recipients[1..], "", "");
      assert rest[k - 2] in rest;
      assert recipients[0] !in recipients[1..];
    }
  }

  lemma {:induction false} OwedIsExpected(p: Platform, intent: Intent, recipients: seq<string>, k: nat)
    requires Distinct(recipients) && p.normType(SUI_TYPE) != p.normType(intent.walType)
    requires k < |Expected(p, intent, recipients)|
    ensures var e := Expected(p, intent, recipients)[k]; Owed(p, intent, recipients, e.address, e.coinType) == e.amount
  {
    var e := Expected(p, intent, recipients);
    forall j | 0 <= j < |e| && j != k ensures e[j].address != e[k].address || e[j].coinType != e[k].coinType {
      ExpectedApart(p, intent, recipients, if j < k then j else k, if j < k then k else j);
    }
    TotalOfOnly(e, k);
    ExpectedTotals(p, intent, recipients, e[k].address, e[k].coinType);
  }

  lemma {:induction false} ReceivedIsPayment(p: Platform, data: TransactionData, intent: Intent, m0: Machine, m: Machine, k: nat)
    requires Accepted(p, data, intent) && RunsTo(p, data, m0, m) && k < |m.payments|
    requires p.normType(SUI_TYPE) != p.normType(intent.walType) && m.payments[k].address != intent.sender
    ensures Received(m, m.payments[k].address, m.payments[k].coinType) == m.payments[k].amount
  {
    PaidAsStated(p, data, intent, m0, m);
    var recipients := Recipients(p, intent);
    var e := Expected(p, intent, recipients);
    forall j | 0 <= j < |e| && j != k
      ensures m.payments[j].address != m.payments[k].address || m.payments[j].coinType != m.payments[k].coinType
    {
      ExpectedApart(p, intent, recipients, if j < k then j else k, if j < k then k else j);
    }
    TotalOfOnly(m.payments, k);
    TotalOfStrangers(m.remainders, m.payments[k].address, m.payments[k].coinType);
  }

  /** Accepted programs may merge into or split from payment coins: the payout is exact if and only if these cancel out. */
  lemma {:induction false} ExactIffNoDrift(p: Platform, data: TransactionData, intent: Intent, m0: Machine, m: Machine)
    requires Accepted(p, data, intent) && RunsTo(p, data, m0, m)
    requires p.normType(SUI_TYPE) != p.normType(intent.walType)
    ensures |m.payments| == |Origins(p, data, |data.commands|)|
    ensures PaysExactly(p, intent, m) <==>
            forall k | 0 <= k < |m.payments| && m.payments[k].address != intent.sender ::
              DriftOf(m, Origins(p, data, |data.commands|)[k]) == 0
  {
    PaidAsStated(p, data, intent, m0, m);
    var recipients := Recipients(p, intent);
    var e, origins := Expected(p, intent, recipients), Origins(p, data, |data.commands|);
    forall k | 0 <= k < |m.payments| && m.payments[k].address != intent.sender
      ensures Received(m, e[k].address, e[k].coinType) == e[k].amount + DriftOf(m, origins[k])
      ensures Owed(p, intent, recipients, e[k].address, e[k].coinType) == e[k].amount
    {
      ReceivedIsPayment(p, data, intent, m0, m, k);
      OwedIsExpected(p, intent, recipients, k);
    }
    if forall k | 0 <= k < |m.payments| && m.payments[k].address != intent.sender :: DriftOf(m, origins[k]) == 0 {
      forall a, t | a != intent.sender ensures Received(m, a, t) == Owed(p, intent, recipients, a, t) {
        ExpectedTotals(p, intent, recipients, a, t);
        TotalOfStrangers(m.remainders, a, t);
        TotalsAgree(m.payments, e, intent.sender, a, t);
      }
    }
  }

  lemma {:induction false} TotalsAgree(a: seq<Credit>, b: seq<Credit>, sender: string, address: string, coinType: string)
    requires |a| == |b| && address != sender
    requires forall k | 0 <= k < |a| :: a[k].address == b[k].address && a[k].coinType == b[k].coinType
    requires forall k | 0 <= k < |a| && a[k].address != sender :: a[k].amount == b[k].amount
    ensures Total(a, address, coinType) == Total(b, address, coinType)
  {
    if a != [] {
      TotalsAgree(a[..|a| - 1], b[..|b| - 1], sender, address, coinType);
    }
  }

  // ---- The same, read off the program text ----

  /** The sum of the amounts from the `j`-th on. */
  function Amounts(data: TransactionData, amounts: seq<Argument>, j: nat): nat
    decreases |amounts| - j
  {
    if j >= |amounts| then 0
    else (if PureU64(data, amounts[j]).Ok? then PureU64(data, amounts[j]).value else 0) + Amounts(data, amounts, j + 1)
  }

  /** What command `i` splits from the coin in slot `s`. */
  function SplitAt(data: TransactionData, i: nat, s: Slot): nat
    requires i < |data.commands|
  {
    match data.commands[i]
    case SplitCoins(coin, amounts) => if SlotOf(data, coin) == Some(s) then Amounts(data, amounts, 0) else 0
    case _ => 0
  }

  /** What the first `n` commands split from it. */
  function SplitTotal(data: TransactionData, n: nat, s: Slot): nat
    requires n <= |data.commands|
  {
    if n == 0 then 0 else SplitTotal(data, n - 1, s) + SplitAt(data, n - 1, s)
  }

  predicate MergesInto(data: TransactionData, i: nat, s: Slot)
    requires i < |data.commands|
  {
    data.commands[i].MergeCoins? && Touched(data, i) == Some(s)
  }

  /** No command merges into a coin that a payment is made of. */
  predicate Unmerged(p: Platform, data: TransactionData) {
    forall o | o in Origins(p, data, |data.commands|) && o.Some? ::
      forall i | 0 <= i < |data.commands| :: !MergesInto(data, i, o.value)
  }

  lemma {:induction false} SplitDrifts(data: TransactionData, m: Machine, source: Slot, amounts: seq<Argument>, i: nat, j: nat, m': Machine)
    requires source in m.slots && m.slots[source].Coin? && j <= |amounts| && !(source.ResultSlot? && source.command == i)
    requires SplitFrom(data, m, source, amounts, i, j) == Ok(m')
    ensures Drift(m', source) == Drift(m, source) - Amounts(data, amounts, j)
    decreases |amounts| - j
  {
    if j < |amounts| {
      SplitDrifts(data, SplitOne(m, source, PureU64(data, amounts[j]).value, i, j), source, amounts, i, j + 1, m');
    }
  }

  lemma {:induction false} StepDrifts(p: Platform, data: TransactionData, m: Machine, i: nat, m': Machine, s: Slot)
    requires i < |data.commands| && Exec(p, data, m, i) == Ok(m') && !MergesInto(data, i, s)
    ensures Drift(m', s) == Drift(m, s) - SplitAt(data, i, s)
  {
    if Touched(data, i) == Some(s) {
      SplitDrifts(data, m, s, data.commands[i].amounts, i, 0, m');
    } else {
      StepDriftsTouched(p, data, m, i, m', s);
    }
  }

  lemma {:induction false} UnmergedDrift(p: Platform, data: TransactionData, m0: Machine, n: nat, m: Machine, s: Slot)
    requires n <= |data.commands| && Initial(p, data, m0) && Run(p, data, m0, n) == Ok(m)
    requires forall i | 0 <= i < n :: !MergesInto(data, i, s)
    ensures Drift(m, s) == 0 - SplitTotal(data, n, s)
  {
    if n > 0 {
      var before := Run(p, data, m0, n - 1).value;
      UnmergedDrift(p, data, m0, n - 1, before, s);
      StepDrifts(p, data, before, n - 1, m, s);
    }
  }

  /** Nothing is split from the coin behind payment `k`, unless it goes to the sender. */
  predicate KeptWhole(p: Platform, data: TransactionData, intent: Intent, k: nat)
    requires NormalizeWriters(p, intent.writers).Ok?
    requires k < |Expected(p, intent, Flatten(NormalizeWriters(p, intent.writers).value))|
    requires k < |Origins(p, data, |data.commands|)|
  {
    var origin := Origins(p, data, |data.commands|)[k];
    Expected(p, intent, Flatten(NormalizeWriters(p, intent.writers).value))[k].address != intent.sender && origin.Some?
    ==> SplitTotal(data, |data.commands|, origin.value) == 0
  }

  /**
   * A condition on the program text alone: if nothing is merged into payment coins, each successful run pays exactly if
   * and only if nothing is split from a coin that goes to another address than the sender's.
   */
  lemma {:induction false} ExactIffUnsplit(p: Platform, data: TransactionData, intent: Intent, m0: Machine, m: Machine)
    requires Accepted(p, data, intent) && RunsTo(p, data, m0, m) && Unmerged(p, data)
    requires p.normType(SUI_TYPE) != p.normType(intent.walType)
    ensures |Origins(p, data, |data.commands|)| == |Expected(p, intent, Recipients(p, intent))|
    ensures PaysExactly(p, intent, m) <==>
            forall k | 0 <= k < |Origins(p, data, |data.commands|)| :: KeptWhole(p, data, intent, k)
  {
    PaidAsStated(p, data, intent, m0, m);
    ExactIffNoDrift(p, data, intent, m0, m);
    var origins := Origins(p, data, |data.commands|);
    forall k | 0 <= k < |origins| ensures KeptWhole(p, data, intent, k) <==>
      (m.payments[k].address != intent.sender ==> DriftOf(m, origins[k]) == 0)
    {
      if origins[k].Some? {
        assert origins[k] in origins;
        UnmergedDrift(p, data, m0, |data.commands|, m, origins[k].value);
      }
    }
  }
}

/** A program that is accepted although it overpays, and the family of programs that is always accepted. */
module FundingPrograms {
  import opened Outcomes
  import opened Text
  import opened Hex
  import opened Manifest
  import opened FundingProgram
  import opened FundingValidator
  import opened FundingSoundness

  function AddressArg(a: string): CallArg
    requires |a| >= 2
  {
    Pure(BytesOf(a[2..]))
  }

  function Framework(mod: string, func: string, coinType: string, arguments: seq<Argument>): Command {
    MoveCall("0x2", mod, func, [coinType], arguments)
  }

  lemma {:induction false} AddressArgRead(p: Platform, data: TransactionData, a: string, i: nat)
    requires Lawful(p) && CanonicalAddress(a) && i < |data.inputs| && data.inputs[i] == AddressArg(a)
    ensures PureAddress(p, data, Input(i)) == Ok(a)
  {
    BytesRoundTrip(a[2..]);
    assert "0x" + a[2..] == a;
  }

  lemma {:induction false} KnownCallees(p: Platform, t: string, arguments: seq<Argument>)
    ensures CalleeOf(p, Framework("balance", "redeem_funds", t, arguments)) == RedeemBalance
    ensures CalleeOf(p, Framework("balance", "send_funds", t, arguments)) == SendBalance
    ensures CalleeOf(p, Framework("coin", "into_balance", t, arguments)) == IntoBalance
  {
  }

  // One lemma per kind of call: what it does to a machine that is ready for it.

  predicate Calls(p: Platform, data: TransactionData, i: nat, callee: Callee, t: string, arguments: seq<Argument>) {
    i < |data.commands| && data.commands[i].MoveCall? && callee != Foreign && CalleeOf(p, data.commands[i]) == callee
    && CoinTypeOf(p, data.commands[i]) == t && data.commands[i].arguments == arguments
  }

  function Redeemed(m: Machine, i: nat, s: Slot): Machine
    requires s in m.slots && (m.slots[s].Reservation? ==> (m.slots[s].owner, m.slots[s].coinType) in m.funds)
    requires m.slots[s].Reservation? && m.slots[s].amount <= m.funds[(m.slots[s].owner, m.slots[s].coinType)]
  {
    var v := m.slots[s];
    m.(slots := (m.slots - {s})[ResultSlot(i, 0) := Balance(v.coinType, v.amount)],
       funds := m.funds[(v.owner, v.coinType) := m.funds[(v.owner, v.coinType)] - v.amount])
  }

  lemma {:induction false} ExecRedeem(p: Platform, data: TransactionData, m: Machine, i: nat, k: nat, t: string)
    requires Calls(p, data, i, RedeemBalance, t, [Input(k)])
    requires InputSlot(k) in m.slots && m.slots[InputSlot(k)].Reservation? && m.slots[InputSlot(k)].coinType == t
    requires var v := m.slots[InputSlot(k)]; (v.owner, t) in m.funds && v.amount <= m.funds[(v.owner, t)]
    ensures Exec(p, data, m, i) == Ok(Redeemed(m, i, InputSlot(k)))
  {
  }

  lemma {:induction false} ExecIntoBalance(p: Platform, data: TransactionData, m: Machine, i: nat, a: Argument, s: Slot, t: string)
    requires Calls(p, data, i, IntoBalance, t, [a]) && SlotOf(data, a) == Some(s)
    requires s in m.slots && m.slots[s].Coin? && m.slots[s].coinType == t
    ensures Exec(p, data, m, i)
            == Ok(m.(slots := (m.slots - {s})[ResultSlot(i, 0) := Balance(t, m.slots[s].amount)]))
  {
  }

  lemma {:induction false} ExecSend(p: Platform, data: TransactionData, m: Machine, i: nat, c: nat, a: Argument, address: string, t: string)
    requires Calls(p, data, i, SendBalance, t, [NestedResult(c, 0), a])
    requires PureAddress(p, data, a) == Ok(address)
    requires ResultSlot(c, 0) in m.slots && m.slots[ResultSlot(c, 0)].Balance? && m.slots[ResultSlot(c, 0)].coinType == t
    ensures Exec(p, data, m, i)
            == Ok(m.(slots := m.slots - {ResultSlot(c, 0)},
                     payments := m.payments + [Credit(address, t, m.slots[ResultSlot(c, 0)].amount)]))
  {
  }

  // ... and what the check reads off it.

  predicate Pays(p: Platform, intent: Intent, t: string) {
    t == p.normType(SUI_TYPE) || t == p.normType(intent.walType)
  }

  lemma {:induction false} PreparesNothing(p: Platform, data: TransactionData, intent: Intent, i: nat, callee: Callee, t: string, arguments: seq<Argument>)
    requires Calls(p, data, i, callee, t, arguments) && (callee == RedeemBalance || callee == IntoBalance) && Pays(p, intent, t)
    ensures PaymentAt(p, data, intent, i) == Ok([])
  {
  }

  lemma {:induction false} PaysRedeemed(p: Platform, data: TransactionData, intent: Intent, i: nat, c: nat, k: nat, a: Argument, address: string, t: string)
    requires Calls(p, data, i, SendBalance, t, [NestedResult(c, 0), a]) && Pays(p, intent, t)
    requires PureAddress(p, data, a) == Ok(address)
    requires Calls(p, data, c, RedeemBalance, t, [Input(k)]) && WithdrawalAmount(p, data, Input(k), t).Ok?
    ensures PaymentAt(p, data, intent, i) == Ok([Credit(address, t, WithdrawalAmount(p, data, Input(k), t).value)])
  {
  }

  lemma {:induction false} PaysSplit(p: Platform, data: TransactionData, intent: Intent, i: nat, c: nat, a: Argument, from: Argument, address: string, t: string)
    requires Calls(p, data, i, SendBalance, t, [NestedResult(c, 0), a]) && Pays(p, intent, t)
    requires PureAddress(p, data, a) == Ok(address)
    requires Calls(p, data, c, IntoBalance, t, [from]) && SplitAmount(data, from).Ok?
    ensures PaymentAt(p, data, intent, i) == Ok([Credit(address, t, SplitAmount(data, from).value)])
  {
  }

  // ---- A program that overpays ----

  function OneWriter(sender: string, recipient: string, wal: string, mist: nat, frost: nat, gas: nat): Intent {
    Intent("mainnet", sender, wal, "distribute-funds.mainnet.json", [("w", [recipient])], mist, frost, gas)
  }

  lemma {:induction false} OneRecipient(p: Platform, recipient: string)
    requires NormalizeAddress(p, recipient) == Ok(recipient)
    ensures NormalizeWriters(p, [("w", [recipient])]) == Ok([("w", [recipient])])
    ensures Flatten([("w", [recipient])]) == [recipient]
  {
    assert TrimStart("w") == "w" && TrimEnd("w") == "w";
    assert NormalizeAddresses(p, []) == Ok([]) && [recipient][1..] == [];
    assert [recipient] + [] == [recipient];
    assert NormalizeAddresses(p, [recipient]) == Ok([recipient]);
    assert NormalizeEntry(p, ("w", [recipient])) == Ok(("w", [recipient]));
    assert NormalizeEach(p, []) == Ok([]) && [("w", [recipient])][1..] == [];
    assert [("w", [recipient])] + [] == [("w", [recipient])];
    assert NormalizeEach(p, [("w", [recipient])]) == Ok([("w", [recipient])]);
    assert Flatten([("w", [recipient])]) == [recipient] + Flatten([]);
  }

  lemma {:induction false} ExpectedOfOne(p: Platform, intent: Intent, recipient: string)
    ensures Expected(p, intent, [recipient])
            == [Credit(recipient, p.normType(SUI_TYPE), intent.mistPerAddress),
                Credit(recipient, p.normType(intent.walType), intent.frostPerAddress)]
  {
  }

  /** A coin split for the payment, topped up by a merge, and only then turned into the balance that is sent. */
  function ToppedUp(sender: string, recipient: string, wal: string, bytes: seq<byte>, frost: nat, gas: nat): TransactionData
    requires |recipient| >= 2
  {
    TransactionData(Some(sender), Some(sender), Some(gas),
      [Pure(bytes), ObjectArg("coin"), AddressArg(recipient), FundsWithdrawal(Withdrawal(Some(frost), Some(wal), true))],
      [SplitCoins(GasCoin, [Input(0)]),
       MergeCoins(NestedResult(0, 0), [Input(1)]),
       Framework("coin", "into_balance", SUI_TYPE, [NestedResult(0, 0)]),
       Framework("balance", "send_funds", SUI_TYPE, [NestedResult(2, 0), Input(2)]),
       Framework("balance", "redeem_funds", wal, [Input(3)]),
       Framework("balance", "send_funds", wal, [NestedResult(4, 0), Input(2)])])
  }

  ghost predicate ToppedUpShape(p: Platform, data: TransactionData, recipient: string, sui: string, wal: string,
                                mist: nat, frost: nat)
  {
    && |data.commands| == 6 && |data.inputs| == 4
    && data.commands[0] == SplitCoins(GasCoin, [Input(0)])
    && data.commands[1] == MergeCoins(NestedResult(0, 0), [Input(1)])
    && Calls(p, data, 2, IntoBalance, sui, [NestedResult(0, 0)])
    && Calls(p, data, 3, SendBalance, sui, [NestedResult(2, 0), Input(2)])
    && Calls(p, data, 4, RedeemBalance, wal, [Input(3)])
    && Calls(p, data, 5, SendBalance, wal, [NestedResult(4, 0), Input(2)])
    && PureU64(data, Input(0)) == Ok(mist) && data.inputs[1].ObjectArg? && data.inputs[2].Pure?
    && PureAddress(p, data, Input(2)) == Ok(recipient)
    && data.inputs[3].FundsWithdrawal? && data.inputs[3].withdrawal.maxAmount == Some(frost)
    && WithdrawalAmount(p, data, Input(3), wal) == Ok(frost)
  }

  lemma {:induction false} ToppedUpHasShape(p: Platform, sender: string, recipient: string, wal: string, bytes: seq<byte>, frost: nat, gas: nat)
    requires Lawful(p) && CanonicalAddress(recipient) && |bytes| == 8
    ensures ToppedUpShape(p, ToppedUp(sender, recipient, wal, bytes, frost, gas), recipient,
                          p.normType(SUI_TYPE), p.normType(wal), LittleEndian(bytes), frost)
  {
    var data := ToppedUp(sender, recipient, wal, bytes, frost, gas);
    AddressArgRead(p, data, recipient, 2);
    KnownCallees(p, SUI_TYPE, [NestedResult(0, 0)]);
    KnownCallees(p, SUI_TYPE, [NestedResult(2, 0), Input(2)]);
    KnownCallees(p, wal, [Input(3)]);
    KnownCallees(p, wal, [NestedResult(4, 0), Input(2)]);
  }

  lemma {:induction false} ToppedUpPayments(p: Platform, data: TransactionData, intent: Intent, recipient: string, sui: string, wal: string)
    requires sui == p.normType(SUI_TYPE) && wal == p.normType(intent.walType)
    requires ToppedUpShape(p, data, recipient, sui, wal, intent.mistPerAddress, intent.frostPerAddress)
    ensures Payments(p, data, intent, 6) == Ok([Credit(recipient, sui, intent.mistPerAddress), Credit(recipient, wal, intent.frostPerAddress)])
  {
    assert SplitAmount(data, NestedResult(0, 0)) == Ok(intent.mistPerAddress);
    PreparesNothing(p, data, intent, 2, IntoBalance, sui, [NestedResult(0, 0)]);
    PaysSplit(p, data, intent, 3, 2, Input(2), NestedResult(0, 0), recipient, sui);
    PreparesNothing(p, data, intent, 4, RedeemBalance, wal, [Input(3)]);
    PaysRedeemed(p, data, intent, 5, 4, 3, Input(2), recipient, wal);
    var first, second := Credit(recipient, sui, intent.mistPerAddress), Credit(recipient, wal, intent.frostPerAddress);
    PaymentsNext(p, data, intent, 0, [], [], []);
    PaymentsNext(p, data, intent, 1, [], [], []);
    PaymentsNext(p, data, intent, 2, [], [], []);
    PaymentsNext(p, data, intent, 3, [], [first], [first]);
    PaymentsNext(p, data, intent, 4, [first], [], [first]);
    PaymentsNext(p, data, intent, 5, [first], [second], [first, second]);
  }

  lemma {:induction false} PaymentsNext(p: Platform, data: TransactionData, intent: Intent, i: nat,
                     before: seq<Credit>, more: seq<Credit>, after: seq<Credit>)
    requires i < |data.commands| && Payments(p, data, intent, i) == Ok(before) && PaymentAt(p, data, intent, i) == Ok(more)
    requires after == before + more
    ensures Payments(p, data, intent, i + 1) == Ok(after)
  {
  }

  function ToppedUpStart(sender: string, sui: string, wal: string, mist: nat, frost: nat, extra: nat): Machine {
    Machine(map[GasSlot := Coin(sui, mist), InputSlot(1) := Coin(sui, extra), InputSlot(3) := Reservation(sender, wal, frost)],
            map[(sender, wal) := frost], [], [], map[])
  }

  lemma {:induction false} ToppedUpCoin(p: Platform, data: TransactionData, sender: string, recipient: string, sui: string, wal: string,
                     mist: nat, frost: nat, extra: nat) returns (m2: Machine)
    requires ToppedUpShape(p, data, recipient, sui, wal, mist, frost)
    ensures Run(p, data, ToppedUpStart(sender, sui, wal, mist, frost, extra), 2) == Ok(m2)
    ensures ResultSlot(0, 0) in m2.slots && m2.slots[ResultSlot(0, 0)] == Coin(sui, mist + extra)
    ensures InputSlot(3) in m2.slots && m2.slots[InputSlot(3)] == Reservation(sender, wal, frost)
    ensures m2.funds == map[(sender, wal) := frost] && m2.payments == [] && m2.remainders == []
  {
    var m0 := ToppedUpStart(sender, sui, wal, mist, frost, extra);
    ToppedUpSplit(p, data, sender, recipient, sui, wal, mist, frost, extra);
    var m1 := SplitOne(m0, GasSlot, mist, 0, 0);
    m2 := MergeOne(m1, ResultSlot(0, 0), InputSlot(1));
    assert [Input(1)][1..] == [];
    assert MergeInto(data, m1, ResultSlot(0, 0), [Input(1)]) == Ok(m2);
  }

  lemma {:induction false} ToppedUpSplit(p: Platform, data: TransactionData, sender: string, recipient: string, sui: string, wal: string,
                                         mist: nat, frost: nat, extra: nat)
    requires ToppedUpShape(p, data, recipient, sui, wal, mist, frost)
    ensures var m0 := ToppedUpStart(sender, sui, wal, mist, frost, extra);
            Run(p, data, m0, 1) == Ok(SplitOne(m0, GasSlot, mist, 0, 0))
  {
    var m0 := ToppedUpStart(sender, sui, wal, mist, frost, extra);
    var m1 := SplitOne(m0, GasSlot, mist, 0, 0);
    assert Run(p, data, m0, 0) == Ok(m0);
    assert SplitFrom(data, m1, GasSlot, [Input(0)], 0, 1) == Ok(m1);
  }

  lemma {:induction false} ToppedUpRun(p: Platform, data: TransactionData, sender: string, recipient: string, sui: string, wal: string,
                    mist: nat, frost: nat, extra: nat) returns (m: Machine)
    requires ToppedUpShape(p, data, recipient, sui, wal, mist, frost)
    ensures Run(p, data, ToppedUpStart(sender, sui, wal, mist, frost, extra), 6) == Ok(m)
    ensures m.payments == [Credit(recipient, sui, mist + extra), Credit(recipient, wal, frost)] && m.remainders == []
  {
    var m0 := ToppedUpStart(sender, sui, wal, mist, frost, extra);
    var m2 := ToppedUpCoin(p, data, sender, recipient, sui, wal, mist, frost, extra);
    var m4 := ToppedUpSui(p, data, recipient, sui, wal, mist, frost, extra, m0, m2);
    m := ToppedUpWal(p, data, sender, recipient, sui, wal, mist, frost, m0, m4);
  }

  lemma {:induction false} ToppedUpSui(p: Platform, data: TransactionData, recipient: string, sui: string, wal: string,
                                       mist: nat, frost: nat, extra: nat, m0: Machine, m2: Machine) returns (m4: Machine)
    requires ToppedUpShape(p, data, recipient, sui, wal, mist, frost) && Run(p, data, m0, 2) == Ok(m2)
    requires ResultSlot(0, 0) in m2.slots && m2.slots[ResultSlot(0, 0)] == Coin(sui, mist + extra)
    ensures Run(p, data, m0, 4) == Ok(m4) && m4.funds == m2.funds && m4.remainders == m2.remainders
    ensures InputSlot(3) in m2.slots ==> InputSlot(3) in m4.slots && m4.slots[InputSlot(3)] == m2.slots[InputSlot(3)]
    ensures m4.payments == m2.payments + [Credit(recipient, sui, mist + extra)]
  {
    ExecIntoBalance(p, data, m2, 2, NestedResult(0, 0), ResultSlot(0, 0), sui);
    var m3 := Exec(p, data, m2, 2).value;
    assert Run(p, data, m0, 3) == Ok(m3);
    ExecSend(p, data, m3, 3, 2, Input(2), recipient, sui);
    m4 := Exec(p, data, m3, 3).value;
  }

  lemma {:induction false} ToppedUpWal(p: Platform, data: TransactionData, sender: string, recipient: string, sui: string, wal: string,
                    mist: nat, frost: nat, m0: Machine, m4: Machine) returns (m: Machine)
    requires ToppedUpShape(p, data, recipient, sui, wal, mist, frost) && Run(p, data, m0, 4) == Ok(m4)
    requires InputSlot(3) in m4.slots && m4.slots[InputSlot(3)] == Reservation(sender, wal, frost)
    requires m4.funds == map[(sender, wal) := frost]
    ensures Run(p, data, m0, 6) == Ok(m)
    ensures m.payments == m4.payments + [Credit(recipient, wal, frost)] && m.remainders == m4.remainders
  {
    ExecRedeem(p, data, m4, 4, 3, wal);
    var m5 := Redeemed(m4, 4, InputSlot(3));
    assert Run(p, data, m0, 5) == Ok(m5);
    ExecSend(p, data, m5, 5, 4, Input(2), recipient, wal);
    m := Exec(p, data, m5, 5).value;
  }

  lemma {:induction false} CanonicalIsNormal(p: Platform, a: string)
    requires Lawful(p) && CanonicalAddress(a)
    ensures NormalizeAddress(p, a) == Ok(a) && p.normAddress(a) == a
  {
  }

  lemma {:induction false} ShapeIsAccepted(p: Platform, data: TransactionData, intent: Intent, recipient: string)
    requires data.sender == data.gasOwner == Some(intent.sender) && p.normAddress(intent.sender) == intent.sender
    requires data.gasBudget == Some(intent.gasBudget)
    requires intent.writers == [("w", [recipient])] && NormalizeAddress(p, recipient) == Ok(recipient)
    requires ToppedUpShape(p, data, recipient, p.normType(SUI_TYPE), p.normType(intent.walType),
                           intent.mistPerAddress, intent.frostPerAddress)
    ensures Accepted(p, data, intent)
  {
    ToppedUpPayments(p, data, intent, recipient, p.normType(SUI_TYPE), p.normType(intent.walType));
    OneRecipient(p, recipient);
    ExpectedOfOne(p, intent, recipient);
  }

  /** For every amount `extra` there is a program that is accepted, runs, and pays `extra` more SUI than the intent says. */
  lemma {:induction false} AcceptedCanOverpay(p: Platform, sender: string, recipient: string, wal: string, bytes: seq<byte>,
                           frost: nat, gas: nat, extra: nat) returns (data: TransactionData, m0: Machine, m: Machine)
    requires Lawful(p) && CanonicalAddress(sender) && CanonicalAddress(recipient) && |bytes| == 8
    requires p.normType(wal) != p.normType(SUI_TYPE)
    ensures var intent := OneWriter(sender, recipient, wal, LittleEndian(bytes), frost, gas);
            && Accepted(p, data, intent) && RunsTo(p, data, m0, m)
            && Received(m, recipient, p.normType(SUI_TYPE)) == intent.mistPerAddress + extra
  {
    data := ToppedUp(sender, recipient, wal, bytes, frost, gas);
    var sui, w := p.normType(SUI_TYPE), p.normType(wal);
    ToppedUpHasShape(p, sender, recipient, wal, bytes, frost, gas);
    CanonicalIsNormal(p, sender);
    CanonicalIsNormal(p, recipient);
    ShapeIsAccepted(p, data, OneWriter(sender, recipient, wal, LittleEndian(bytes), frost, gas), recipient);
    m0 := ToppedUpStart(sender, sui, w, LittleEndian(bytes), frost, extra);
    m := ToppedUpRun(p, data, sender, recipient, sui, w, LittleEndian(bytes), frost, extra);
    ToppedUpIsInitial(p, data, sender, recipient, sui, w, LittleEndian(bytes), frost, extra);
    TotalOfOnly(m.payments, 0);
  }

  lemma {:induction false} ToppedUpIsInitial(p: Platform, data: TransactionData, sender: string, recipient: string, sui: string, wal: string,
                          mist: nat, frost: nat, extra: nat)
    requires ToppedUpShape(p, data, recipient, sui, wal, mist, frost)
    ensures Initial(p, data, ToppedUpStart(sender, sui, wal, mist, frost, extra))
  {
  }
}
