/** Which programs the check of signed bytes lets through, read off their commands. */
module FundingCommands {
  import opened Outcomes
  import opened Text
  import opened Hex
  import opened Manifest
  import opened FundingProgram
  import opened FundingValidator
  import opened FundingSoundness

  /** A call of a function of the Sui framework, for one coin type. */
  predicate Calls(p: Platform, c: Command, mod: string, func: string) {
    c.MoveCall? && p.normAddress(c.package) == p.normAddress("0x2") && |c.typeArguments| == 1 && c.mod == mod && c.func == func
  }

  lemma {:induction false} CalleeIff(p: Platform, c: Command)
    requires c.MoveCall?
    ensures CalleeOf(p, c) == RedeemBalance <==> Calls(p, c, "balance", "redeem_funds")
    ensures CalleeOf(p, c) == SendBalance <==> Calls(p, c, "balance", "send_funds")
    ensures CalleeOf(p, c) == RedeemCoin <==> Calls(p, c, "coin", "redeem_funds")
    ensures CalleeOf(p, c) == IntoBalance <==> Calls(p, c, "coin", "into_balance")
    ensures CalleeOf(p, c) == SendCoin <==> Calls(p, c, "coin", "send_funds")
    ensures CalleeOf(p, c) == DestroyZero <==> Calls(p, c, "coin", "destroy_zero")
    ensures CalleeOf(p, c) != Foreign ==> |c.typeArguments| == 1 && CoinTypeOf(p, c) == p.normType(c.typeArguments[0])
  {
  }

  predicate Redeems(p: Platform, c: Command) {
    Calls(p, c, "balance", "redeem_funds") || Calls(p, c, "coin", "redeem_funds")
  }

  predicate Converts(p: Platform, c: Command) {
    Calls(p, c, "coin", "into_balance") || Calls(p, c, "coin", "destroy_zero")
  }

  /** The call is for SUI or for WAL. */
  predicate ForPayout(p: Platform, intent: Intent, c: Command)
    requires c.MoveCall? && |c.typeArguments| == 1
  {
    p.normType(c.typeArguments[0]) == p.normType("0x2::sui::SUI") || p.normType(c.typeArguments[0]) == p.normType(intent.walType)
  }

  /** The argument is a pure input of 32 bytes, and this is the address they spell. */
  predicate Spells(p: Platform, data: TransactionData, a: Argument, address: string) {
    && a.Input? && a.index < |data.inputs| && data.inputs[a.index].Pure? && |data.inputs[a.index].bytes| == 32
    && address == p.normAddress("0x" + HexOf(data.inputs[a.index].bytes))
  }

  /** A withdrawal of this amount of this type from the sender's own balance. */
  predicate Withdraws(p: Platform, data: TransactionData, a: Argument, t: string, amount: nat) {
    && a.Input? && a.index < |data.inputs| && data.inputs[a.index].FundsWithdrawal?
    && var w := data.inputs[a.index].withdrawal;
       w.fromSender && w.maxAmount == Some(amount) && w.balanceType.Some? && p.normType(w.balanceType.value) == t
  }

  /** The argument is a result of a split, with this amount in eight little-endian bytes. */
  predicate SplitsOff(data: TransactionData, a: Argument, amount: nat) {
    && a.NestedResult? && a.command < |data.commands| && data.commands[a.command].SplitCoins?
    && var amounts := data.commands[a.command].amounts;
       a.result < |amounts| && amounts[a.result].Input? && amounts[a.result].index < |data.inputs|
       && data.inputs[amounts[a.result].index].Pure? && |data.inputs[amounts[a.result].index].bytes| == 8
       && LittleEndian(data.inputs[amounts[a.result].index].bytes) == amount
  }

  /** The argument is a balance of this amount and type: redeemed from a withdrawal, or made of a split coin. */
  predicate Backs(p: Platform, data: TransactionData, a: Argument, t: string, amount: nat) {
    && a.NestedResult? && a.result == 0 && a.command < |data.commands|
    && var c := data.commands[a.command];
       && (Calls(p, c, "balance", "redeem_funds") || Calls(p, c, "coin", "into_balance"))
       && p.normType(c.typeArguments[0]) == t && c.arguments != []
       && if Calls(p, c, "balance", "redeem_funds") then Withdraws(p, data, c.arguments[0], t, amount)
          else SplitsOff(data, c.arguments[0], amount)
  }

  predicate Pays(p: Platform, data: TransactionData, c: Command, credit: Credit) {
    && Calls(p, c, "balance", "send_funds") && |c.arguments| == 2 && credit.coinType == p.normType(c.typeArguments[0])
    && Spells(p, data, c.arguments[1], credit.address) && Backs(p, data, c.arguments[0], credit.coinType, credit.amount)
  }

  predicate ReturnsCoin(p: Platform, data: TransactionData, intent: Intent, c: Command) {
    Calls(p, c, "coin", "send_funds") && |c.arguments| >= 2 && Spells(p, data, c.arguments[1], intent.sender)
  }

  /** What the check takes from a command: nothing from those that only prepare, one payment from each balance that is sent. */
  predicate Contributes(p: Platform, data: TransactionData, intent: Intent, c: Command, credits: seq<Credit>) {
    if c.MergeCoins? || c.SplitCoins? then credits == []
    else
      && c.MoveCall? && |c.typeArguments| == 1 && ForPayout(p, intent, c)
      && if Redeems(p, c) || Converts(p, c) || ReturnsCoin(p, data, intent, c) then credits == []
         else |credits| == 1 && Pays(p, data, c, credits[0])
  }

  lemma {:induction false} AddressIff(p: Platform, data: TransactionData, a: Argument, address: string)
    ensures PureAddress(p, data, a) == Ok(address) <==> Spells(p, data, a, address)
  {
  }

  lemma {:induction false} BackedIff(p: Platform, data: TransactionData, a: Argument, t: string, amount: nat)
    ensures OutputAmount(p, data, a, t) == Ok(amount) <==> Backs(p, data, a, t, amount)
  {
    if a.NestedResult? && a.command < |data.commands| && data.commands[a.command].MoveCall? {
      CalleeIff(p, data.commands[a.command]);
    }
  }

  lemma {:induction false} SendIff(p: Platform, data: TransactionData, intent: Intent, i: nat, credits: seq<Credit>)
    requires i < |data.commands| && Calls(p, data.commands[i], "balance", "send_funds") && ForPayout(p, intent, data.commands[i])
    ensures PaymentAt(p, data, intent, i) == Ok(credits) <==> |credits| == 1 && Pays(p, data, data.commands[i], credits[0])
  {
    var c := data.commands[i];
    CalleeIff(p, c);
    var t := CoinTypeOf(p, c);
    if |c.arguments| == 2 {
      if |credits| == 1 {
        AddressIff(p, data, c.arguments[1], credits[0].address);
        BackedIff(p, data, c.arguments[0], t, credits[0].amount);
        assert credits == [credits[0]];
      }
      if PureAddress(p, data, c.arguments[1]).Ok? && OutputAmount(p, data, c.arguments[0], t).Ok? {
        AddressIff(p, data, c.arguments[1], PureAddress(p, data, c.arguments[1]).value);
      }
    }
  }

  lemma {:induction false} ContributionIff(p: Platform, data: TransactionData, intent: Intent, i: nat, credits: seq<Credit>)
    requires i < |data.commands|
    ensures PaymentAt(p, data, intent, i) == Ok(credits) <==> Contributes(p, data, intent, data.commands[i], credits)
  {
    var c := data.commands[i];
    if c.MoveCall? {
      CalleeIff(p, c);
      if Calls(p, c, "balance", "send_funds") && ForPayout(p, intent, c) {
        SendIff(p, data, intent, i, credits);
      } else if Calls(p, c, "coin", "send_funds") && |c.arguments| >= 2 {
        AddressIff(p, data, c.arguments[1], intent.sender);
      }
    }
  }

  /** The credits of all commands, in order. */
  function Flat(parts: seq<seq<Credit>>): seq<Credit> {
    if parts == [] then [] else Flat(parts[..|parts| - 1]) + parts[|parts| - 1]
  }

  ghost predicate Contribute(p: Platform, data: TransactionData, intent: Intent, parts: seq<seq<Credit>>) {
    |parts| <= |data.commands| && forall i | 0 <= i < |parts| :: Contributes(p, data, intent, data.commands[i], parts[i])
  }

  lemma {:induction false} PaymentsAre(p: Platform, data: TransactionData, intent: Intent, parts: seq<seq<Credit>>)
    requires Contribute(p, data, intent, parts)
    ensures Payments(p, data, intent, |parts|) == Ok(Flat(parts))
  {
    if parts != [] {
      var n := |parts| - 1;
      PaymentsAre(p, data, intent, parts[..n]);
      ContributionIff(p, data, intent, n, parts[n]);
    }
  }

  lemma {:induction false} ReadBefore(p: Platform, data: TransactionData, intent: Intent, read: nat -> Result<seq<Credit>>, n: nat)
    requires Reads(p, data, intent, read) && n > 0 && read(n).Ok?
    ensures n <= |data.commands| && read(n - 1).Ok? && PaymentAt(p, data, intent, n - 1).Ok?
  {
    assert ReadsAs(p, data, intent, read, n) && ReadsAs(p, data, intent, read, n - 1);
    PaymentsBefore(p, data, intent, n);
  }

  lemma {:induction false} PaymentsCome(p: Platform, data: TransactionData, intent: Intent, read: nat -> Result<seq<Credit>>, n: nat)
    returns (parts: seq<seq<Credit>>)
    requires Reads(p, data, intent, read) && read(n).Ok?
    ensures |parts| == n && Contribute(p, data, intent, parts)
  {
    if n == 0 {
      parts := [];
    } else {
      ReadBefore(p, data, intent, read, n);
      parts := PaymentsCome(p, data, intent, read, n - 1);
      ContributionIff(p, data, intent, n - 1, PaymentAt(p, data, intent, n - 1).value);
      parts := parts + [PaymentAt(p, data, intent, n - 1).value];
    }
  }

  /**
   * A transaction is accepted exactly if sender, gas owner and gas budget are the intent's, every command is one of those
   * that prepare, return a coin to the sender or pay, for SUI or WAL, and the payments in order are those of the intent.
   */
  lemma {:induction false} AcceptedIff(p: Platform, data: TransactionData, intent: Intent)
    requires NormalizeWriters(p, intent.writers).Ok?
    ensures Accepted(p, data, intent)
            <==> && data.sender.Some? && p.normAddress(data.sender.value) == intent.sender
                 && data.gasOwner.Some? && p.normAddress(data.gasOwner.value) == intent.sender
                 && (data.gasBudget == Some(intent.gasBudget) || (data.gasBudget.None? && intent.gasBudget == 0))
                 && exists parts :: |parts| == |data.commands| && Contribute(p, data, intent, parts)
                                    && Flat(parts) == Expected(p, intent, Recipients(p, intent))
  {
    var n := |data.commands|;
    if Payments(p, data, intent, n).Ok? {
      ReaderReads(p, data, intent);
      assert ReadsAs(p, data, intent, Reader(p, data, intent), n);
      var parts := PaymentsCome(p, data, intent, Reader(p, data, intent), n);
      PaymentsAre(p, data, intent, parts);
    }
    if parts :| |parts| == n && Contribute(p, data, intent, parts) && Flat(parts) == Expected(p, intent, Recipients(p, intent)) {
      PaymentsAre(p, data, intent, parts);
    }
  }

  // ---- The coins that go back ----

  lemma {:induction false} RemainderStep(p: Platform, data: TransactionData, intent: Intent, m: Machine, i: nat, m': Machine)
    requires i < |data.commands| && Exec(p, data, m, i) == Ok(m') && PaymentAt(p, data, intent, i).Ok?
    ensures forall c | c in m'.remainders :: c in m.remainders || InPayoutType(p, intent, c)
  {
    match data.commands[i]
    case MergeCoins(destination, sources) => MergeKeepsCredits(data, m, Held(data, m, destination).value, sources, m');
    case SplitCoins(coin, amounts) => SplitIsQuiet(data, m, Held(data, m, coin).value, amounts, i, 0, m');
    case _ =>
  }

  lemma {:induction false} MergeKeepsCredits(data: TransactionData, m: Machine, target: Slot, sources: seq<Argument>, m': Machine)
    requires target in m.slots && m.slots[target].Coin? && MergeInto(data, m, target, sources) == Ok(m')
    ensures m'.remainders == m.remainders
    decreases |sources|
  {
    if sources != [] {
      MergeKeepsCredits(data, MergeOne(m, target, Held(data, m, sources[0]).value), target, sources[1..], m');
    }
  }

  predicate InPayoutType(p: Platform, intent: Intent, c: Credit) {
    c.coinType == p.normType(SUI_TYPE) || c.coinType == p.normType(intent.walType)
  }

  ghost predicate RemaindersFit(p: Platform, intent: Intent, m: Machine) {
    forall c | c in m.remainders :: InPayoutType(p, intent, c)
  }

  lemma {:induction false} RemaindersUpTo(p: Platform, data: TransactionData, intent: Intent, m0: Machine, run: nat -> Result<Machine>,
                                          read: nat -> Result<seq<Credit>>, n: nat)
    requires Simulates(p, data, m0, run) && Reads(p, data, intent, read) && run(n).Ok? && read(n).Ok?
    requires run(0) == Ok(m0) && m0.remainders == []
    ensures RemaindersFit(p, intent, run(n).value)
  {
    if n > 0 {
      BackOne(p, data, intent, m0, run, read, n);
      RemaindersUpTo(p, data, intent, m0, run, read, n - 1);
      RanOne(p, data, m0, run, n);
      ReadOne(p, data, intent, read, n);
      RemainderStep(p, data, intent, run(n - 1).value, n - 1, run(n).value);
    }
  }

  lemma {:induction false} RemaindersAre(p: Platform, data: TransactionData, intent: Intent, m0: Machine, m: Machine)
    requires Payments(p, data, intent, |data.commands|).Ok? && RunsTo(p, data, m0, m)
    ensures RemaindersFit(p, intent, m)
  {
    var n, run, read := |data.commands|, Runner(p, data, m0), Reader(p, data, intent);
    RunnerSimulates(p, data, m0);
    ReaderReads(p, data, intent);
    assert RunsAs(p, data, m0, run, 0) && RunsAs(p, data, m0, run, n) && ReadsAs(p, data, intent, read, n);
    RemaindersUpTo(p, data, intent, m0, run, read, n);
  }

  /** Whatever an accepted program credits to anyone, the sender included, is SUI or WAL. */
  lemma {:induction false} OnlyPayoutTypesMove(p: Platform, data: TransactionData, intent: Intent, m0: Machine, m: Machine)
    requires Accepted(p, data, intent) && RunsTo(p, data, m0, m)
    ensures forall c | c in m.payments || c in m.remainders :: InPayoutType(p, intent, c)
  {
    RemaindersAre(p, data, intent, m0, m);
    PaidAsStated(p, data, intent, m0, m);
    ExpectedTypes(p, intent, Recipients(p, intent));
    forall c | c in m.payments ensures InPayoutType(p, intent, c) {
      var k :| 0 <= k < |m.payments| && m.payments[k] == c;
      assert Expected(p, intent, Recipients(p, intent))[k] in Expected(p, intent, Recipients(p, intent));
    }
  }

  lemma {:induction false} ExpectedTypes(p: Platform, intent: Intent, recipients: seq<string>)
    ensures forall c | c in Expected(p, intent, recipients) :: InPayoutType(p, intent, c)
  {
    if recipients != [] {
      ExpectedTypes(p, intent, recipients[1..]);
    }
  }
}
