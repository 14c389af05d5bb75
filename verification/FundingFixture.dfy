/** The plain shape of a payout: one redeem_funds and one send_funds per payment, for any number of recipients. */
module FundingFixture {
  import opened Outcomes
  import opened Text
  import opened Hex
  import opened Manifest
  import opened FundingProgram
  import opened FundingValidator
  import opened FundingSoundness
  import opened FundingPrograms

  /** Input `j` of the four that serve one recipient. */
  function FixtureInput(intent: Intent, address: string, j: nat): CallArg
    requires |address| == 66
  {
    if j == 0 then FundsWithdrawal(Withdrawal(Some(intent.mistPerAddress), Some(SUI_TYPE), true))
    else if j == 2 then FundsWithdrawal(Withdrawal(Some(intent.frostPerAddress), Some(intent.walType), true))
    else AddressArg(address)
  }

  /** Command `i` of the program, the one at place `j` among the four of its recipient. */
  function FixtureCommand(intent: Intent, i: nat, j: nat): Command
    requires i >= j
  {
    var t := if j < 2 then SUI_TYPE else intent.walType;
    if j == 0 || j == 2 then Framework("balance", "redeem_funds", t, [Input(i)])
    else Framework("balance", "send_funds", t, [NestedResult(i - 1, 0), Input(i)])
  }

  function Fixture(intent: Intent, recipients: seq<string>): TransactionData
    requires forall a | a in recipients :: |a| == 66
  {
    TransactionData(Some(intent.sender), Some(intent.sender), Some(intent.gasBudget),
      seq(4 * |recipients|, i requires 0 <= i < 4 * |recipients| => FixtureInput(intent, recipients[i / 4], i % 4)),
      seq(4 * |recipients|, i requires 0 <= i < 4 * |recipients| => FixtureCommand(intent, i, i % 4)))
  }

  /** Commands `i` and `i + 1` redeem an amount and send it to an address. */
  ghost predicate PairAt(p: Platform, data: TransactionData, i: nat, t: string, amount: nat, address: string) {
    && Calls(p, data, i, RedeemBalance, t, [Input(i)])
    && Calls(p, data, i + 1, SendBalance, t, [NestedResult(i, 0), Input(i + 1)])
    && WithdrawalAmount(p, data, Input(i), t) == Ok(amount)
    && PureAddress(p, data, Input(i + 1)) == Ok(address)
  }

  /** One pair in SUI and one in WAL for recipient `k`. */
  ghost predicate ServesAt(p: Platform, data: TransactionData, intent: Intent, k: nat, address: string) {
    && PairAt(p, data, 4 * k, p.normType(SUI_TYPE), intent.mistPerAddress, address)
    && PairAt(p, data, 4 * k + 2, p.normType(intent.walType), intent.frostPerAddress, address)
  }

  ghost predicate ServesAll(p: Platform, data: TransactionData, intent: Intent, recipients: seq<string>) {
    && |data.commands| == 4 * |recipients|
    && forall k: nat | k < |recipients| :: ServesNth(p, data, intent, recipients, k)
  }

  ghost predicate ServesNth(p: Platform, data: TransactionData, intent: Intent, recipients: seq<string>, k: nat)
    requires k < |recipients|
  {
    ServesAt(p, data, intent, k, recipients[k])
  }

  lemma {:induction false} FixtureAt(intent: Intent, recipients: seq<string>, k: nat, j: nat)
    requires k < |recipients| && j < 4 && forall a | a in recipients :: |a| == 66
    ensures recipients[k] in recipients
    ensures Fixture(intent, recipients).inputs[4 * k + j] == FixtureInput(intent, recipients[k], j)
    ensures Fixture(intent, recipients).commands[4 * k + j] == FixtureCommand(intent, 4 * k + j, j)
  {
    FourParts(k, j);
  }

  lemma {:induction false} FourParts(k: nat, j: nat)
    requires j < 4
    ensures (4 * k + j) / 4 == k && (4 * k + j) % 4 == j
  {
  }

  lemma {:induction false} PairFrom(p: Platform, data: TransactionData, i: nat, t: string, amount: nat, address: string)
    requires i + 1 < |data.commands| == |data.inputs|
    requires data.inputs[i] == FundsWithdrawal(Withdrawal(Some(amount), Some(t), true))
    requires data.commands[i] == Framework("balance", "redeem_funds", t, [Input(i)])
    requires data.commands[i + 1] == Framework("balance", "send_funds", t, [NestedResult(i, 0), Input(i + 1)])
    requires PureAddress(p, data, Input(i + 1)) == Ok(address)
    ensures PairAt(p, data, i, p.normType(t), amount, address)
  {
  }

  predicate HoldsFixtureAt(data: TransactionData, intent: Intent, address: string, i: nat, j: nat)
    requires |address| == 66
  {
    i + j < |data.inputs| == |data.commands|
    && data.inputs[i + j] == FixtureInput(intent, address, j) && data.commands[i + j] == FixtureCommand(intent, i + j, j)
  }

  lemma {:induction false} FixtureServesAt(p: Platform, data: TransactionData, intent: Intent, address: string, k: nat)
    requires Lawful(p) && CanonicalAddress(address)
    requires HoldsFixtureAt(data, intent, address, 4 * k, 0) && HoldsFixtureAt(data, intent, address, 4 * k, 1)
    requires HoldsFixtureAt(data, intent, address, 4 * k, 2) && HoldsFixtureAt(data, intent, address, 4 * k, 3)
    ensures ServesAt(p, data, intent, k, address)
  {
    var i := 4 * k;
    AddressArgRead(p, data, address, i + 1);
    AddressArgRead(p, data, address, i + 3);
    PairFrom(p, data, i, SUI_TYPE, intent.mistPerAddress, address);
    PairFrom(p, data, i + 2, intent.walType, intent.frostPerAddress, address);
  }

  lemma {:induction false} FixtureHolds(intent: Intent, recipients: seq<string>, k: nat)
    requires k < |recipients| && forall a | a in recipients :: |a| == 66
    ensures |recipients[k]| == 66
    ensures forall j: nat | j < 4 :: HoldsFixtureAt(Fixture(intent, recipients), intent, recipients[k], 4 * k, j)
  {
    assert recipients[k] in recipients;
    forall j: nat | j < 4 ensures HoldsFixtureAt(Fixture(intent, recipients), intent, recipients[k], 4 * k, j) {
      FixtureAt(intent, recipients, k, j);
    }
  }

  lemma {:induction false} FixtureServes(p: Platform, intent: Intent, recipients: seq<string>)
    requires Lawful(p) && forall a | a in recipients :: CanonicalAddress(a)
    ensures ServesAll(p, Fixture(intent, recipients), intent, recipients)
  {
    var data := Fixture(intent, recipients);
    forall k: nat | k < |recipients| ensures ServesNth(p, data, intent, recipients, k) {
      assert CanonicalAddress(recipients[k]);
      FixtureHolds(intent, recipients, k);
      FixtureServesAt(p, data, intent, recipients[k], k);
    }
  }

  lemma {:induction false} ExpectedAppend(p: Platform, intent: Intent, a: seq<string>, b: seq<string>)
    ensures Expected(p, intent, a + b) == Expected(p, intent, a) + Expected(p, intent, b)
  {
    if a == [] {
      assert a + b == b;
    } else {
      assert (a + b)[1..] == a[1..] + b;
      ExpectedAppend(p, intent, a[1..], b);
    }
  }

  lemma {:induction false} ExpectedNext(p: Platform, intent: Intent, recipients: seq<string>, k: nat)
    requires k < |recipients|
    ensures Expected(p, intent, recipients[..k + 1])
            == Expected(p, intent, recipients[..k])
               + [Credit(recipients[k], p.normType(SUI_TYPE), intent.mistPerAddress)]
               + [Credit(recipients[k], p.normType(intent.walType), intent.frostPerAddress)]
  {
    assert recipients[..k + 1] == recipients[..k] + [recipients[k]];
    ExpectedAppend(p, intent, recipients[..k], [recipients[k]]);
    ExpectedOfOne(p, intent, recipients[k]);
  }

  lemma {:induction false} PairReads(p: Platform, data: TransactionData, intent: Intent, i: nat, t: string, amount: nat, address: string, before: seq<Credit>)
    requires PairAt(p, data, i, t, amount, address) && Pays(p, intent, t)
    requires Payments(p, data, intent, i) == Ok(before)
    ensures Payments(p, data, intent, i + 2) == Ok(before + [Credit(address, t, amount)])
  {
    PreparesNothing(p, data, intent, i, RedeemBalance, t, [Input(i)]);
    PaysRedeemed(p, data, intent, i + 1, i, i, Input(i + 1), address, t);
    PaymentsNext(p, data, intent, i, before, [], before);
    PaymentsNext(p, data, intent, i + 1, before, [Credit(address, t, amount)], before + [Credit(address, t, amount)]);
  }

  lemma {:induction false} SuiPair(p: Platform, data: TransactionData, intent: Intent, recipients: seq<string>, k: nat)
    requires ServesAll(p, data, intent, recipients) && k < |recipients|
    ensures PairAt(p, data, 4 * k, p.normType(SUI_TYPE), intent.mistPerAddress, recipients[k])
  {
    assert ServesNth(p, data, intent, recipients, k);
  }

  lemma {:induction false} WalPair(p: Platform, data: TransactionData, intent: Intent, recipients: seq<string>, k: nat)
    requires ServesAll(p, data, intent, recipients) && k < |recipients|
    ensures PairAt(p, data, 4 * k + 2, p.normType(intent.walType), intent.frostPerAddress, recipients[k])
  {
    assert ServesNth(p, data, intent, recipients, k);
  }

  lemma {:induction false} PairReadsVia(p: Platform, data: TransactionData, intent: Intent, read: nat -> Result<seq<Credit>>, i: nat,
                                        t: string, amount: nat, address: string, before: seq<Credit>)
    requires PairAt(p, data, i, t, amount, address) && Pays(p, intent, t) && Reads(p, data, intent, read) && read(i) == Ok(before)
    ensures read(i + 2) == Ok(before + [Credit(address, t, amount)])
  {
    assert ReadsAs(p, data, intent, read, i) && ReadsAs(p, data, intent, read, i + 2);
    PairReads(p, data, intent, i, t, amount, address, before);
  }

  lemma {:induction false} SuiReads(p: Platform, data: TransactionData, intent: Intent, recipients: seq<string>, k: nat,
                                    read: nat -> Result<seq<Credit>>, before: seq<Credit>)
    requires ServesAll(p, data, intent, recipients) && Reads(p, data, intent, read) && k < |recipients| && read(4 * k) == Ok(before)
    ensures read(4 * k + 2) == Ok(before + [Credit(recipients[k], p.normType(SUI_TYPE), intent.mistPerAddress)])
  {
    SuiPair(p, data, intent, recipients, k);
    PairReadsVia(p, data, intent, read, 4 * k, p.normType(SUI_TYPE), intent.mistPerAddress, recipients[k], before);
  }

  lemma {:induction false} WalReads(p: Platform, data: TransactionData, intent: Intent, recipients: seq<string>, k: nat,
                                    read: nat -> Result<seq<Credit>>, before: seq<Credit>)
    requires ServesAll(p, data, intent, recipients) && Reads(p, data, intent, read) && k < |recipients| && read(4 * k + 2) == Ok(before)
    ensures read(4 * k + 4) == Ok(before + [Credit(recipients[k], p.normType(intent.walType), intent.frostPerAddress)])
  {
    WalPair(p, data, intent, recipients, k);
    PairReadsVia(p, data, intent, read, 4 * k + 2, p.normType(intent.walType), intent.frostPerAddress, recipients[k], before);
  }

  lemma {:induction false} NextReads(p: Platform, data: TransactionData, intent: Intent, recipients: seq<string>, k: nat,
                                     read: nat -> Result<seq<Credit>>, before: seq<Credit>)
    requires ServesAll(p, data, intent, recipients) && Reads(p, data, intent, read) && k < |recipients|
    requires read(4 * k) == Ok(before)
    ensures read(4 * k + 4) == Ok(before + [Credit(recipients[k], p.normType(SUI_TYPE), intent.mistPerAddress)]
                                  + [Credit(recipients[k], p.normType(intent.walType), intent.frostPerAddress)])
  {
    SuiReads(p, data, intent, recipients, k, read, before);
    WalReads(p, data, intent, recipients, k, read, before + [Credit(recipients[k], p.normType(SUI_TYPE), intent.mistPerAddress)]);
  }

  lemma {:induction false} ServedReads(p: Platform, data: TransactionData, intent: Intent, recipients: seq<string>, k: nat,
                                       read: nat -> Result<seq<Credit>>)
    requires ServesAll(p, data, intent, recipients) && Reads(p, data, intent, read) && k <= |recipients| && read(0) == Ok([])
    ensures read(4 * k) == Ok(Expected(p, intent, recipients[..k]))
  {
    if k > 0 {
      ServedReads(p, data, intent, recipients, k - 1, read);
      NextReads(p, data, intent, recipients, k - 1, read, Expected(p, intent, recipients[..k - 1]));
      ExpectedNext(p, intent, recipients, k - 1);
    }
  }

  lemma {:induction false} ServedIsAccepted(p: Platform, data: TransactionData, intent: Intent)
    requires data.sender == data.gasOwner == Some(intent.sender) && p.normAddress(intent.sender) == intent.sender
    requires data.gasBudget == Some(intent.gasBudget) && NormalizeWriters(p, intent.writers).Ok?
    requires ServesAll(p, data, intent, Recipients(p, intent))
    ensures Accepted(p, data, intent)
  {
    var recipients := Recipients(p, intent);
    ReaderReads(p, data, intent);
    ServedReads(p, data, intent, recipients, |recipients|, Reader(p, data, intent));
    assert recipients[..|recipients|] == recipients;
  }

  /** Every intent has an accepted transaction: the fixture for its recipients. */
  lemma {:induction false} ValidatorComplete(p: Platform, intent: Intent)
    requires Lawful(p) && CanonicalAddress(intent.sender) && NormalizeWriters(p, intent.writers).Ok?
    ensures forall a | a in Recipients(p, intent) :: |a| == 66
    ensures Accepted(p, Fixture(intent, Recipients(p, intent)), intent)
  {
    NormalizeWritersIdempotent(p, intent.writers);
    CanonicalIsNormal(p, intent.sender);
    FixtureServes(p, intent, Recipients(p, intent));
    ServedIsAccepted(p, Fixture(intent, Recipients(p, intent)), intent);
  }

  // ---- The accepted fixture also runs, on the funds the script asks for before building it ----

  /** A reservation of each amount per recipient, and the sender's funds. */
  function StartingAt(sender: string, sui: string, wal: string, mist: nat, frost: nat, n: nat, suiHave: nat, walHave: nat): Machine {
    Machine(map i: nat | i < 4 * n && i % 2 == 0 ::
              InputSlot(i) := if i % 4 == 0 then Reservation(sender, sui, mist) else Reservation(sender, wal, frost),
            map[(sender, sui) := suiHave, (sender, wal) := walHave], [], [], map[])
  }

  function FixtureStart(p: Platform, intent: Intent, recipients: seq<string>, suiHave: nat, walHave: nat): Machine {
    StartingAt(intent.sender, p.normType(SUI_TYPE), p.normType(intent.walType), intent.mistPerAddress, intent.frostPerAddress,
               |recipients|, suiHave, walHave)
  }

  predicate ReservedAt(m: Machine, sender: string, sui: string, wal: string, mist: nat, frost: nat, j: nat) {
    && InputSlot(4 * j) in m.slots && m.slots[InputSlot(4 * j)] == Reservation(sender, sui, mist)
    && InputSlot(4 * j + 2) in m.slots && m.slots[InputSlot(4 * j + 2)] == Reservation(sender, wal, frost)
  }

  /** What the run holds when the recipients before `k` are paid: the other reservations, and no coin or balance. */
  ghost predicate StillReserved(m: Machine, sender: string, sui: string, wal: string, mist: nat, frost: nat, k: nat, n: nat) {
    && (forall s | s in m.slots :: s.InputSlot? && 4 * k <= s.index < 4 * n && s.index % 2 == 0)
    && (forall j: nat | k <= j < n :: ReservedAt(m, sender, sui, wal, mist, frost, j))
  }

  ghost predicate FundsLeft(m: Machine, sender: string, sui: string, wal: string, suiLeft: int, walLeft: int) {
    && (sender, sui) in m.funds && m.funds[(sender, sui)] == suiLeft
    && (sender, wal) in m.funds && m.funds[(sender, wal)] == walLeft
  }

  /** The reservation at `i` can be redeemed. */
  ghost predicate Ready(m: Machine, i: nat, sender: string, t: string, amount: nat) {
    && InputSlot(i) in m.slots && m.slots[InputSlot(i)] == Reservation(sender, t, amount)
    && ResultSlot(i, 0) !in m.slots && (sender, t) in m.funds && m.funds[(sender, t)] >= amount
  }

  /** The machine after the reservation at `i` is redeemed and sent. */
  ghost function Paid(m: Machine, i: nat, sender: string, t: string, amount: nat, address: string): Machine
    requires Ready(m, i, sender, t, amount)
  {
    m.(slots := m.slots - {InputSlot(i)}, funds := m.funds[(sender, t) := m.funds[(sender, t)] - amount],
       payments := m.payments + [Credit(address, t, amount)])
  }

  lemma {:induction false} SendIsPaid(p: Platform, data: TransactionData, m: Machine, m1: Machine, i: nat, t: string,
                                      address: string, sender: string, amount: nat)
    requires i + 1 < |data.commands| && Ready(m, i, sender, t, amount) && m1 == Redeemed(m, i, InputSlot(i))
    requires Calls(p, data, i + 1, SendBalance, t, [NestedResult(i, 0), Input(i + 1)])
    requires PureAddress(p, data, Input(i + 1)) == Ok(address)
    ensures Exec(p, data, m1, i + 1) == Ok(Paid(m, i, sender, t, amount, address))
  {
    ExecSend(p, data, m1, i + 1, i, Input(i + 1), address, t);
    var m' := Exec(p, data, m1, i + 1).value;
    assert m'.slots == m.slots - {InputSlot(i)};
  }

  lemma {:induction false} RedeemThenSend(p: Platform, data: TransactionData, m0: Machine, m: Machine, i: nat, t: string,
                                          address: string, sender: string, amount: nat)
    requires PairAt(p, data, i, t, amount, address) && Run(p, data, m0, i) == Ok(m) && Ready(m, i, sender, t, amount)
    ensures Run(p, data, m0, i + 2) == Ok(Paid(m, i, sender, t, amount, address))
  {
    ExecRedeem(p, data, m, i, i, t);
    var m1 := Redeemed(m, i, InputSlot(i));
    assert Run(p, data, m0, i + 1) == Ok(m1);
    SendIsPaid(p, data, m, m1, i, t, address, sender, amount);
  }

  function Spent(k: nat, unit: nat): nat {
    if k == 0 then 0 else Spent(k - 1, unit) + unit
  }

  lemma {:induction false} SpentIsProduct(k: nat, unit: nat)
    ensures Spent(k, unit) == k * unit
  {
    if k > 0 { SpentIsProduct(k - 1, unit); }
  }

  lemma {:induction false} SpentMonotone(k: nat, n: nat, unit: nat)
    requires k <= n
    ensures Spent(k, unit) <= Spent(n, unit)
    decreases n
  {
    if k < n { SpentMonotone(k, n - 1, unit); }
  }

  /** What a machine holds after recipient `k`, up to payments. */
  ghost predicate Holds(m: Machine, sender: string, sui: string, wal: string, mist: nat, frost: nat, k: nat, n: nat,
                        suiLeft: int, walLeft: int) {
    StillReserved(m, sender, sui, wal, mist, frost, k, n) && FundsLeft(m, sender, sui, wal, suiLeft, walLeft)
  }

  /** Both reservations of a recipient can be redeemed, one after the other. */
  lemma {:induction false} BothReady(m: Machine, sender: string, sui: string, wal: string, mist: nat, frost: nat, k: nat, n: nat,
                                     suiLeft: nat, walLeft: nat, address: string)
    requires Holds(m, sender, sui, wal, mist, frost, k, n, suiLeft, walLeft) && k < n && sui != wal
    requires mist <= suiLeft && frost <= walLeft
    ensures Ready(m, 4 * k, sender, sui, mist)
    ensures var m1 := Paid(m, 4 * k, sender, sui, mist, address); Ready(m1, 4 * k + 2, sender, wal, frost)
  {
    assert ReservedAt(m, sender, sui, wal, mist, frost, k);
  }

  lemma {:induction false} BothPaid(m: Machine, sender: string, sui: string, wal: string, mist: nat, frost: nat, k: nat, n: nat,
                                    suiLeft: nat, walLeft: nat, address: string, m1: Machine, m2: Machine)
    requires Holds(m, sender, sui, wal, mist, frost, k, n, suiLeft, walLeft) && k < n && sui != wal
    requires Ready(m, 4 * k, sender, sui, mist) && m1 == Paid(m, 4 * k, sender, sui, mist, address)
    requires Ready(m1, 4 * k + 2, sender, wal, frost) && m2 == Paid(m1, 4 * k + 2, sender, wal, frost, address)
    ensures Holds(m2, sender, sui, wal, mist, frost, k + 1, n, suiLeft - mist, walLeft - frost)
    ensures m2.payments == m.payments + [Credit(address, sui, mist)] + [Credit(address, wal, frost)]
    ensures m2.remainders == m.remainders
  {
    ReservedNext(m, sender, sui, wal, mist, frost, k, n, m2);
  }

  lemma {:induction false} PairRuns(p: Platform, data: TransactionData, m0: Machine, run: nat -> Result<Machine>, m: Machine, i: nat,
                                    t: string, address: string, sender: string, amount: nat)
    requires PairAt(p, data, i, t, amount, address) && Simulates(p, data, m0, run) && run(i) == Ok(m)
    requires Ready(m, i, sender, t, amount)
    ensures run(i + 2) == Ok(Paid(m, i, sender, t, amount, address))
  {
    assert RunsAs(p, data, m0, run, i) && RunsAs(p, data, m0, run, i + 2);
    RedeemThenSend(p, data, m0, m, i, t, address, sender, amount);
  }

  lemma {:induction false} SuiRuns(p: Platform, data: TransactionData, intent: Intent, recipients: seq<string>, k: nat,
                                   m0: Machine, run: nat -> Result<Machine>, m: Machine, sui: string)
    requires ServesAll(p, data, intent, recipients) && Simulates(p, data, m0, run)
    requires k < |recipients| && sui == p.normType(SUI_TYPE)
    requires run(4 * k) == Ok(m) && Ready(m, 4 * k, intent.sender, sui, intent.mistPerAddress)
    ensures run(4 * k + 2) == Ok(Paid(m, 4 * k, intent.sender, sui, intent.mistPerAddress, recipients[k]))
  {
    SuiPair(p, data, intent, recipients, k);
    PairRuns(p, data, m0, run, m, 4 * k, sui, recipients[k], intent.sender, intent.mistPerAddress);
  }

  lemma {:induction false} WalRuns(p: Platform, data: TransactionData, intent: Intent, recipients: seq<string>, k: nat,
                                   m0: Machine, run: nat -> Result<Machine>, m: Machine, wal: string)
    requires ServesAll(p, data, intent, recipients) && Simulates(p, data, m0, run)
    requires k < |recipients| && wal == p.normType(intent.walType)
    requires run(4 * k + 2) == Ok(m) && Ready(m, 4 * k + 2, intent.sender, wal, intent.frostPerAddress)
    ensures run(4 * k + 4) == Ok(Paid(m, 4 * k + 2, intent.sender, wal, intent.frostPerAddress, recipients[k]))
  {
    WalPair(p, data, intent, recipients, k);
    PairRuns(p, data, m0, run, m, 4 * k + 2, wal, recipients[k], intent.sender, intent.frostPerAddress);
  }

  lemma {:induction false} ServingRuns(p: Platform, data: TransactionData, intent: Intent, recipients: seq<string>, k: nat,
                                       suiLeft: nat, walLeft: nat, m0: Machine, run: nat -> Result<Machine>, m: Machine,
                                       sui: string, wal: string)
    returns (m': Machine)
    requires ServesAll(p, data, intent, recipients) && Simulates(p, data, m0, run) && k < |recipients|
    requires sui == p.normType(SUI_TYPE) && wal == p.normType(intent.walType) && sui != wal
    requires suiLeft >= intent.mistPerAddress && walLeft >= intent.frostPerAddress && run(4 * k) == Ok(m)
    requires Holds(m, intent.sender, sui, wal, intent.mistPerAddress, intent.frostPerAddress, k, |recipients|, suiLeft, walLeft)
    ensures run(4 * k + 4) == Ok(m')
    ensures Holds(m', intent.sender, sui, wal, intent.mistPerAddress, intent.frostPerAddress, k + 1, |recipients|,
                  suiLeft - intent.mistPerAddress, walLeft - intent.frostPerAddress)
    ensures m'.payments == m.payments + [Credit(recipients[k], sui, intent.mistPerAddress)]
                           + [Credit(recipients[k], wal, intent.frostPerAddress)]
    ensures m'.remainders == m.remainders
  {
    var mist, frost, n := intent.mistPerAddress, intent.frostPerAddress, |recipients|;
    BothReady(m, intent.sender, sui, wal, mist, frost, k, n, suiLeft, walLeft, recipients[k]);
    var m1 := Paid(m, 4 * k, intent.sender, sui, mist, recipients[k]);
    SuiRuns(p, data, intent, recipients, k, m0, run, m, sui);
    m' := Paid(m1, 4 * k + 2, intent.sender, wal, frost, recipients[k]);
    WalRuns(p, data, intent, recipients, k, m0, run, m1, wal);
    BothPaid(m, intent.sender, sui, wal, mist, frost, k, n, suiLeft, walLeft, recipients[k], m1, m');
  }

  lemma {:induction false} ReservedNext(m: Machine, sender: string, sui: string, wal: string, mist: nat, frost: nat, k: nat, n: nat, m': Machine)
    requires StillReserved(m, sender, sui, wal, mist, frost, k, n) && k < n
    requires m'.slots == m.slots - {InputSlot(4 * k)} - {InputSlot(4 * k + 2)}
    ensures StillReserved(m', sender, sui, wal, mist, frost, k + 1, n)
  {
    forall j: nat | k + 1 <= j < n ensures ReservedAt(m', sender, sui, wal, mist, frost, j) {
      assert ReservedAt(m, sender, sui, wal, mist, frost, j);
    }
    forall s | s in m'.slots ensures s.InputSlot? && 4 * (k + 1) <= s.index < 4 * n && s.index % 2 == 0 {
      assert s in m.slots;
      EvenBeyond(s.index, k);
    }
  }

  lemma {:induction false} EvenBeyond(i: nat, k: nat)
    requires 4 * k <= i && i % 2 == 0
    ensures i == 4 * k || i == 4 * k + 2 || 4 * (k + 1) <= i
  {
    assert i != 4 * k + 1 && i != 4 * k + 3;
  }

  lemma {:induction false} StartReserved(p: Platform, intent: Intent, recipients: seq<string>, suiHave: nat, walHave: nat)
    requires p.normType(SUI_TYPE) != p.normType(intent.walType)
    ensures var sui, wal := p.normType(SUI_TYPE), p.normType(intent.walType);
            var m := FixtureStart(p, intent, recipients, suiHave, walHave);
            Holds(m, intent.sender, sui, wal, intent.mistPerAddress, intent.frostPerAddress, 0, |recipients|, suiHave, walHave)
  {
    var sui, wal := p.normType(SUI_TYPE), p.normType(intent.walType);
    StartHolds(intent.sender, sui, wal, intent.mistPerAddress, intent.frostPerAddress, |recipients|, suiHave, walHave);
  }

  lemma {:induction false} StartReservation(sender: string, sui: string, wal: string, mist: nat, frost: nat, n: nat,
                                            suiHave: nat, walHave: nat, i: nat)
    requires i < 4 * n && i % 2 == 0
    ensures var m := StartingAt(sender, sui, wal, mist, frost, n, suiHave, walHave);
            InputSlot(i) in m.slots
            && m.slots[InputSlot(i)] == if i % 4 == 0 then Reservation(sender, sui, mist) else Reservation(sender, wal, frost)
  {
  }

  lemma {:induction false} StartReservedAt(sender: string, sui: string, wal: string, mist: nat, frost: nat, n: nat,
                                           suiHave: nat, walHave: nat, j: nat)
    requires j < n
    ensures ReservedAt(StartingAt(sender, sui, wal, mist, frost, n, suiHave, walHave), sender, sui, wal, mist, frost, j)
  {
    FourParts(j, 0);
    FourParts(j, 2);
    StartReservation(sender, sui, wal, mist, frost, n, suiHave, walHave, 4 * j);
    StartReservation(sender, sui, wal, mist, frost, n, suiHave, walHave, 4 * j + 2);
  }

  lemma {:induction false} StartSlots(sender: string, sui: string, wal: string, mist: nat, frost: nat, n: nat, suiHave: nat, walHave: nat)
    ensures forall s | s in StartingAt(sender, sui, wal, mist, frost, n, suiHave, walHave).slots ::
              s.InputSlot? && 0 <= s.index < 4 * n && s.index % 2 == 0
  {
  }

  lemma {:induction false} StartHolds(sender: string, sui: string, wal: string, mist: nat, frost: nat, n: nat,
                                      suiHave: nat, walHave: nat)
    requires sui != wal
    ensures Holds(StartingAt(sender, sui, wal, mist, frost, n, suiHave, walHave), sender, sui, wal, mist, frost, 0, n, suiHave, walHave)
  {
    var m := StartingAt(sender, sui, wal, mist, frost, n, suiHave, walHave);
    StartSlots(sender, sui, wal, mist, frost, n, suiHave, walHave);
    forall j: nat | 0 <= j < n ensures ReservedAt(m, sender, sui, wal, mist, frost, j) {
      StartReservedAt(sender, sui, wal, mist, frost, n, suiHave, walHave, j);
    }
  }

  /** What the machine holds and has paid after the commands of the first `k` recipients. */
  ghost predicate Stands(p: Platform, intent: Intent, recipients: seq<string>, k: nat, suiHave: nat, walHave: nat, m: Machine)
    requires k <= |recipients|
  {
    && Holds(m, intent.sender, p.normType(SUI_TYPE), p.normType(intent.walType), intent.mistPerAddress, intent.frostPerAddress,
             k, |recipients|, suiHave - Spent(k, intent.mistPerAddress), walHave - Spent(k, intent.frostPerAddress))
    && m.payments == Expected(p, intent, recipients[..k]) && m.remainders == []
  }

  lemma {:induction false} StandsNext(p: Platform, data: TransactionData, intent: Intent, recipients: seq<string>, k: nat,
                                      suiHave: nat, walHave: nat, m0: Machine, run: nat -> Result<Machine>, m: Machine)
    returns (m': Machine)
    requires ServesAll(p, data, intent, recipients) && Simulates(p, data, m0, run) && k < |recipients|
    requires p.normType(SUI_TYPE) != p.normType(intent.walType)
    requires suiHave >= Spent(k + 1, intent.mistPerAddress) && walHave >= Spent(k + 1, intent.frostPerAddress)
    requires run(4 * k) == Ok(m) && Stands(p, intent, recipients, k, suiHave, walHave, m)
    ensures run(4 * k + 4) == Ok(m') && Stands(p, intent, recipients, k + 1, suiHave, walHave, m')
  {
    var suiLeft, walLeft := suiHave - Spent(k, intent.mistPerAddress), walHave - Spent(k, intent.frostPerAddress);
    m' := ServingRuns(p, data, intent, recipients, k, suiLeft, walLeft, m0, run, m, p.normType(SUI_TYPE), p.normType(intent.walType));
    ExpectedNext(p, intent, recipients, k);
  }

  lemma {:induction false} ServedRuns(p: Platform, data: TransactionData, intent: Intent, recipients: seq<string>, k: nat,
                                      suiHave: nat, walHave: nat, m0: Machine, run: nat -> Result<Machine>) returns (m: Machine)
    requires ServesAll(p, data, intent, recipients) && Simulates(p, data, m0, run) && k <= |recipients|
    requires p.normType(SUI_TYPE) != p.normType(intent.walType)
    requires suiHave >= Spent(|recipients|, intent.mistPerAddress) && walHave >= Spent(|recipients|, intent.frostPerAddress)
    requires run(0) == Ok(m0) && Stands(p, intent, recipients, 0, suiHave, walHave, m0)
    ensures run(4 * k) == Ok(m) && Stands(p, intent, recipients, k, suiHave, walHave, m)
  {
    if k == 0 {
      m := m0;
    } else {
      var before := ServedRuns(p, data, intent, recipients, k - 1, suiHave, walHave, m0, run);
      SpentMonotone(k, |recipients|, intent.mistPerAddress);
      SpentMonotone(k, |recipients|, intent.frostPerAddress);
      m := StandsNext(p, data, intent, recipients, k - 1, suiHave, walHave, m0, run, before);
    }
  }

  /** requireFunds on the totals computed before building. */
  predicate FundsSuffice(intent: Intent, n: nat, suiHave: nat, walHave: nat) {
    suiHave >= intent.mistPerAddress * n + intent.gasBudget && walHave >= intent.frostPerAddress * n
  }

  /** Once every recipient is served, no reservation is left. */
  lemma {:induction false} StandsAtEnd(p: Platform, intent: Intent, recipients: seq<string>, suiHave: nat, walHave: nat, m: Machine)
    requires Stands(p, intent, recipients, |recipients|, suiHave, walHave, m)
    ensures m.slots == map[] && m.payments == Expected(p, intent, recipients) && m.remainders == []
    ensures FundsLeft(m, intent.sender, p.normType(SUI_TYPE), p.normType(intent.walType),
                      suiHave - |recipients| * intent.mistPerAddress, walHave - |recipients| * intent.frostPerAddress)
  {
    SpentIsProduct(|recipients|, intent.mistPerAddress);
    SpentIsProduct(|recipients|, intent.frostPerAddress);
    assert recipients[..|recipients|] == recipients;
  }

  lemma {:induction false} StartStands(p: Platform, intent: Intent, recipients: seq<string>, suiHave: nat, walHave: nat)
    requires p.normType(SUI_TYPE) != p.normType(intent.walType) && FundsSuffice(intent, |recipients|, suiHave, walHave)
    ensures Stands(p, intent, recipients, 0, suiHave, walHave, FixtureStart(p, intent, recipients, suiHave, walHave))
    ensures suiHave >= Spent(|recipients|, intent.mistPerAddress) && walHave >= Spent(|recipients|, intent.frostPerAddress)
  {
    StartReserved(p, intent, recipients, suiHave, walHave);
    SpentIsProduct(|recipients|, intent.mistPerAddress);
    SpentIsProduct(|recipients|, intent.frostPerAddress);
  }

  lemma {:induction false} StartRuns(p: Platform, data: TransactionData, intent: Intent, recipients: seq<string>, suiHave: nat, walHave: nat)
    returns (m: Machine)
    requires ServesAll(p, data, intent, recipients) && p.normType(SUI_TYPE) != p.normType(intent.walType)
    requires FundsSuffice(intent, |recipients|, suiHave, walHave)
    ensures Run(p, data, FixtureStart(p, intent, recipients, suiHave, walHave), |data.commands|) == Ok(m)
    ensures m.slots == map[] && m.payments == Expected(p, intent, recipients) && m.remainders == []
    ensures FundsLeft(m, intent.sender, p.normType(SUI_TYPE), p.normType(intent.walType),
                      suiHave - |recipients| * intent.mistPerAddress, walHave - |recipients| * intent.frostPerAddress)
  {
    var m0 := FixtureStart(p, intent, recipients, suiHave, walHave);
    StartStands(p, intent, recipients, suiHave, walHave);
    m := ServedFrom(p, data, intent, recipients, suiHave, walHave, m0);
    StandsAtEnd(p, intent, recipients, suiHave, walHave, m);
  }

  lemma {:induction false} ServedFrom(p: Platform, data: TransactionData, intent: Intent, recipients: seq<string>,
                                      suiHave: nat, walHave: nat, m0: Machine) returns (m: Machine)
    requires ServesAll(p, data, intent, recipients) && p.normType(SUI_TYPE) != p.normType(intent.walType)
    requires suiHave >= Spent(|recipients|, intent.mistPerAddress) && walHave >= Spent(|recipients|, intent.frostPerAddress)
    requires Stands(p, intent, recipients, 0, suiHave, walHave, m0)
    ensures Run(p, data, m0, |data.commands|) == Ok(m) && Stands(p, intent, recipients, |recipients|, suiHave, walHave, m)
  {
    RunnerSimulates(p, data, m0);
    var run := Runner(p, data, m0);
    assert RunsAs(p, data, m0, run, 0);
    m := ServedRuns(p, data, intent, recipients, |recipients|, suiHave, walHave, m0, run);
    assert RunsAs(p, data, m0, run, 4 * |recipients|);
  }

  /** A sender that passes the pre-build check can run the fixture: exactly n times each amount leaves it, the gas budget stays. */
  lemma {:induction false} FundsCheckCoversPayout(p: Platform, intent: Intent, suiHave: nat, walHave: nat) returns (m: Machine)
    requires Lawful(p) && NormalizeWriters(p, intent.writers).Ok?
    requires p.normType(SUI_TYPE) != p.normType(intent.walType)
    requires FundsSuffice(intent, |Recipients(p, intent)|, suiHave, walHave)
    ensures forall a | a in Recipients(p, intent) :: |a| == 66
    ensures var recipients := Recipients(p, intent);
            var data := Fixture(intent, recipients);
            && Run(p, data, FixtureStart(p, intent, recipients, suiHave, walHave), |data.commands|) == Ok(m)
            && m.slots == map[] && m.payments == Expected(p, intent, recipients) && m.remainders == []
    ensures var n := |Recipients(p, intent)|;
            && FundsLeft(m, intent.sender, p.normType(SUI_TYPE), p.normType(intent.walType),
                         suiHave - n * intent.mistPerAddress, walHave - n * intent.frostPerAddress)
            && suiHave - n * intent.mistPerAddress >= intent.gasBudget
  {
    NormalizeWritersIdempotent(p, intent.writers);
    var recipients := Recipients(p, intent);
    FixtureServes(p, intent, recipients);
    m := StartRuns(p, Fixture(intent, recipients), intent, recipients, suiHave, walHave);
  }
}
