/**
 * The payout manifest and the platform functions of the Sui SDK that the funding script calls.
 * The SDK is not part of this model: its functions are fields of a Platform, and every theorem
 * holds for each Platform that satisfies Lawful.
 */
module Manifest {
  import opened Outcomes
  import opened Text
  import opened Hex

  datatype Platform = Platform(
    validAddress: string -> bool,
    normAddress: string -> string,
    normType: string -> string)

  /** The form `normalizeSuiAddress` gives a valid address. */
  predicate CanonicalAddress(s: string) {
    |s| == 66 && s[..2] == "0x" && IsLowerHex(s[2..])
  }

  ghost predicate Lawful(p: Platform) {
    && (forall s :: p.validAddress(s) ==> CanonicalAddress(p.normAddress(s)))
    && (forall s | CanonicalAddress(s) :: p.validAddress(s) && p.normAddress(s) == s)
    && (forall t :: p.normType(p.normType(t)) == p.normType(t))
  }

  const MAX_RECIPIENTS := 500

  /** Writer ids with their ordered wallets, in the order of the manifest object's keys. */
  type Writers = seq<(string, seq<string>)>

  function Flatten(w: Writers): seq<string> {
    if w == [] then [] else w[0].1 + Flatten(w[1..])
  }

  predicate Distinct<T(==)>(s: seq<T>) {
    forall i, j | 0 <= i < j < |s| :: s[i] != s[j]
  }

  /** One wallet of the manifest: trimmed, checked and normalized. */
  function NormalizeAddress(p: Platform, raw: string): Result<string> {
    if p.validAddress(Trim(raw)) then Ok(p.normAddress(Trim(raw))) else Err(Reason.NotAValidSuiAddress)
  }

  function NormalizeAddresses(p: Platform, addresses: seq<string>): (r: Result<seq<string>>)
    ensures r.Ok? ==> |r.value| == |addresses|
  {
    if addresses == [] then Ok([])
    else
      match NormalizeAddress(p, addresses[0])
      case Err(e) => Err(e)
      case Ok(a) =>
        match NormalizeAddresses(p, addresses[1..])
        case Err(e) => Err(e)
        case Ok(rest) => Ok([a] + rest)
  }

  function NormalizeEntry(p: Platform, entry: (string, seq<string>)): Result<(string, seq<string>)> {
    if Trim(entry.0) == "" then Err(Reason.WriterIdMustNotBeEmpty)
    else if entry.1 == [] then Err(Reason.WriterHasNoAddresses)
    else
      match NormalizeAddresses(p, entry.1)
      case Err(e) => Err(e)
      case Ok(addresses) => Ok((entry.0, addresses))
  }

  function NormalizeEach(p: Platform, raw: Writers): (r: Result<Writers>)
    ensures r.Ok? ==> |r.value| == |raw|
  {
    if raw == [] then Ok([])
    else
      match NormalizeEntry(p, raw[0])
      case Err(e) => Err(e)
      case Ok(entry) =>
        match NormalizeEach(p, raw[1..])
        case Err(e) => Err(e)
        case Ok(rest) => Ok([entry] + rest)
  }

  /** normalizeWriters on an already object-shaped manifest. */
  function NormalizeWriters(p: Platform, raw: Writers): (r: Result<Writers>)
    ensures r.Ok? ==> 0 < |Flatten(r.value)| <= MAX_RECIPIENTS && Distinct(Flatten(r.value))
  {
    match NormalizeEach(p, raw)
    case Err(e) => Err(e)
    case Ok(writers) =>
      var out := Flatten(writers);
      if out == [] then Err(Reason.NoAddressesToFund)
      else if !Distinct(out) then Err(Reason.DuplicateRecipient)
      else if |out| > MAX_RECIPIENTS then Err(Reason.TooManyRecipients)
      else Ok(writers)
  }

  /** The wallets of each writer stand together and in order, the writers in the order of the manifest. */
  lemma {:induction false} FlattenAt(w: Writers, i: nat)
    requires i < |w|
    ensures Flatten(w) == Flatten(w[..i]) + w[i].1 + Flatten(w[i + 1..])
  {
    if i > 0 {
      FlattenAt(w[1..], i - 1);
      assert w[1..][..i - 1] == w[..i][1..] && w[1..][i - 1] == w[i] && w[1..][i..] == w[i + 1..];
      assert w[0].1 + (Flatten(w[..i][1..]) + w[i].1 + Flatten(w[i + 1..])) == (w[0].1 + Flatten(w[..i][1..])) + w[i].1 + Flatten(w[i + 1..]);
    }
  }

  lemma {:induction false} NormalizeAddressFixpoint(p: Platform, raw: string)
    requires Lawful(p) && NormalizeAddress(p, raw).Ok?
    ensures CanonicalAddress(NormalizeAddress(p, raw).value)
    ensures NormalizeAddress(p, NormalizeAddress(p, raw).value) == NormalizeAddress(p, raw)
  {
  }

  lemma {:induction false} NormalizeAddressesFixpoint(p: Platform, raw: seq<string>, out: seq<string>)
    requires Lawful(p) && NormalizeAddresses(p, raw) == Ok(out)
    ensures NormalizeAddresses(p, out) == Ok(out)
    ensures forall i | 0 <= i < |out| :: CanonicalAddress(out[i])
  {
    if raw != [] {
      NormalizeAddressFixpoint(p, raw[0]);
      assert NormalizeAddresses(p, raw[1..]) == Ok(out[1..]);
      NormalizeAddressesFixpoint(p, raw[1..], out[1..]);
    }
  }

  lemma {:induction false} NormalizeEachFixpoint(p: Platform, raw: Writers, out: Writers)
    requires Lawful(p) && NormalizeEach(p, raw) == Ok(out)
    ensures NormalizeEach(p, out) == Ok(out)
    ensures forall a | a in Flatten(out) :: CanonicalAddress(a)
  {
    if raw != [] {
      assert NormalizeEach(p, raw[1..]) == Ok(out[1..]);
      NormalizeEachFixpoint(p, raw[1..], out[1..]);
      NormalizeAddressesFixpoint(p, raw[0].1, out[0].1);
    }
  }

  /** Normalizing a manifest twice changes nothing, and every wallet it yields is a canonical address. */
  lemma {:induction false} NormalizeWritersIdempotent(p: Platform, raw: Writers)
    requires Lawful(p) && NormalizeWriters(p, raw).Ok?
    ensures NormalizeWriters(p, NormalizeWriters(p, raw).value) == NormalizeWriters(p, raw)
    ensures forall a | a in Flatten(NormalizeWriters(p, raw).value) :: CanonicalAddress(a)
  {
    NormalizeEachFixpoint(p, raw, NormalizeWriters(p, raw).value);
  }

  // ---- Exactly what a manifest must be ----

  /** Each entry keeps its id, which is not blank, and lists the canonical forms of its one or more valid addresses. */
  predicate EntryIs(p: Platform, raw: (string, seq<string>), out: (string, seq<string>)) {
    && out.0 == raw.0 && Trim(raw.0) != "" && |out.1| == |raw.1| > 0
    && forall i | 0 <= i < |raw.1| :: p.validAddress(Trim(raw.1[i])) && out.1[i] == p.normAddress(Trim(raw.1[i]))
  }

  lemma {:induction false} AddressesIff(p: Platform, raw: seq<string>, out: seq<string>)
    ensures NormalizeAddresses(p, raw) == Ok(out)
            <==> |out| == |raw| && forall i | 0 <= i < |raw| :: p.validAddress(Trim(raw[i])) && out[i] == p.normAddress(Trim(raw[i]))
  {
    if raw != [] {
      if |out| == |raw| {
        AddressesIff(p, raw[1..], out[1..]);
        assert out == [out[0]] + out[1..];
        assert forall i | 0 < i < |raw| :: raw[i] == raw[1..][i - 1] && out[i] == out[1..][i - 1];
      }
      if NormalizeAddresses(p, raw[1..]).Ok? {
        AddressesIff(p, raw[1..], NormalizeAddresses(p, raw[1..]).value);
      }
    }
  }

  lemma {:induction false} EachIff(p: Platform, raw: Writers, out: Writers)
    ensures NormalizeEach(p, raw) == Ok(out) <==> |out| == |raw| && forall i | 0 <= i < |raw| :: EntryIs(p, raw[i], out[i])
  {
    if raw != [] {
      if |out| == |raw| {
        EachIff(p, raw[1..], out[1..]);
        EntryIff(p, raw[0], out[0]);
        assert out == [out[0]] + out[1..];
        assert forall i | 0 < i < |raw| :: raw[i] == raw[1..][i - 1] && out[i] == out[1..][i - 1];
      }
    }
  }

  lemma {:induction false} EntryIff(p: Platform, raw: (string, seq<string>), out: (string, seq<string>))
    ensures NormalizeEntry(p, raw) == Ok(out) <==> EntryIs(p, raw, out)
  {
    AddressesIff(p, raw.1, out.1);
  }

  /** A manifest is accepted exactly if every entry is, and there are between 1 and 500 wallets, no two the same. */
  lemma {:induction false} NormalizeWritersIff(p: Platform, raw: Writers, out: Writers)
    ensures NormalizeWriters(p, raw) == Ok(out)
            <==> && |out| == |raw| && (forall i | 0 <= i < |raw| :: EntryIs(p, raw[i], out[i]))
                 && 1 <= |Flatten(out)| <= 500
                 && forall i, j | 0 <= i < j < |Flatten(out)| :: Flatten(out)[i] != Flatten(out)[j]
  {
    EachIff(p, raw, out);
  }
}

/** The programs a funding transaction may hold, and what running one does to coins and balances. */
module FundingProgram {
  import opened Outcomes
  import opened Text
  import opened Hex
  import opened Manifest

  datatype Argument =
    | GasCoin
    | Input(index: nat)
    | CommandResult(command: nat)
    | NestedResult(command: nat, result: nat)

  /** A reservation on an address balance; None stands for a form other than MaxAmountU64 or Balance. */
  datatype Withdrawal = Withdrawal(maxAmount: Option<nat>, balanceType: Option<string>, fromSender: bool)

  datatype CallArg =
    | Pure(bytes: seq<byte>)
    | FundsWithdrawal(withdrawal: Withdrawal)
    | ObjectArg(objectId: string)

  datatype Command =
    | MergeCoins(destination: Argument, sources: seq<Argument>)
    | SplitCoins(coin: Argument, amounts: seq<Argument>)
    | MoveCall(package: string, mod: string, func: string, typeArguments: seq<string>, arguments: seq<Argument>)
    | OtherCommand(kind: string)

  datatype TransactionData = TransactionData(
    sender: Option<string>,
    gasOwner: Option<string>,
    gasBudget: Option<nat>,
    inputs: seq<CallArg>,
    commands: seq<Command>)

  datatype Intent = Intent(
    network: string,
    sender: string,
    walType: string,
    payoutManifest: string,
    writers: Writers,
    mistPerAddress: nat,
    frostPerAddress: nat,
    gasBudget: nat)

  const SUI_TYPE := "0x2::sui::SUI"

  /** The Move calls the script knows about; everything else is Foreign. */
  datatype Callee = RedeemBalance | RedeemCoin | IntoBalance | SendBalance | SendCoin | DestroyZero | Foreign

  function CalleeOf(p: Platform, c: Command): Callee
    requires c.MoveCall?
  {
    if p.normAddress(c.package) != p.normAddress("0x2") || |c.typeArguments| != 1 then Foreign
    else if c.mod == "balance" && c.func == "redeem_funds" then RedeemBalance
    else if c.mod == "balance" && c.func == "send_funds" then SendBalance
    else if c.mod == "coin" && c.func == "redeem_funds" then RedeemCoin
    else if c.mod == "coin" && c.func == "into_balance" then IntoBalance
    else if c.mod == "coin" && c.func == "send_funds" then SendCoin
    else if c.mod == "coin" && c.func == "destroy_zero" then DestroyZero
    else Foreign
  }

  function CoinTypeOf(p: Platform, c: Command): string
    requires c.MoveCall? && CalleeOf(p, c) != Foreign
  {
    p.normType(c.typeArguments[0])
  }

  function PureBytes(data: TransactionData, a: Argument): Result<seq<byte>> {
    if !a.Input? then Err(Reason.MustReferToATransactionInput)
    else if a.index >= |data.inputs| then Err(Reason.MissingTransactionInput)
    else if !data.inputs[a.index].Pure? then Err(Reason.MustBePure)
    else Ok(data.inputs[a.index].bytes)
  }

  /** pureAddress: the 32 bytes as the chain sees them, in text. */
  function PureAddress(p: Platform, data: TransactionData, a: Argument): Result<string> {
    match PureBytes(data, a)
    case Err(e) => Err(e)
    case Ok(bytes) =>
      if |bytes| != 32 then Err(Reason.MustContainASuiAddress) else Ok(p.normAddress("0x" + HexOf(bytes)))
  }

  function PureU64(data: TransactionData, a: Argument): Result<nat> {
    match PureBytes(data, a)
    case Err(e) => Err(e)
    case Ok(bytes) => if |bytes| != 8 then Err(Reason.MustContainAU64) else Ok(LittleEndian(bytes))
  }

  // ---- What a program does: coins, balances and reservations are used at most once -----------

  datatype Value =
    | Coin(coinType: string, amount: nat)
    | Balance(coinType: string, amount: nat)
    | Reservation(owner: string, coinType: string, amount: nat)

  datatype Slot = GasSlot | InputSlot(index: nat) | ResultSlot(command: nat, result: nat)

  datatype Credit = Credit(address: string, coinType: string, amount: nat)

  /**
   * `slots` holds the values still usable, `funds` what each owner's address balance can still cover,
   * `payments` and `remainders` what balance::send_funds and coin::send_funds credited, and `drift`
   * the sum of what merges added to, minus what splits took from, the coin in each slot.
   */
  datatype Machine = Machine(
    slots: map<Slot, Value>,
    funds: map<(string, string), nat>,
    payments: seq<Credit>,
    remainders: seq<Credit>,
    drift: map<Slot, int>)

  function Drift(m: Machine, s: Slot): int {
    if s in m.drift then m.drift[s] else 0
  }

  function SlotOf(data: TransactionData, a: Argument): Option<Slot> {
    match a
    case GasCoin => Some(GasSlot)
    case Input(i) => Some(InputSlot(i))
    case NestedResult(c, r) => Some(ResultSlot(c, r))
    case CommandResult(c) =>
      if c < |data.commands| && data.commands[c].SplitCoins? && |data.commands[c].amounts| != 1 then None
      else Some(ResultSlot(c, 0))
  }

  function Held(data: TransactionData, m: Machine, a: Argument): Option<Slot> {
    match SlotOf(data, a)
    case None => None
    case Some(s) => if s in m.slots then Some(s) else None
  }

  /** The coin in slot `s` is added to the one in `target`. */
  function MergeOne(m: Machine, target: Slot, s: Slot): Machine
    requires target in m.slots && m.slots[target].Coin? && s in m.slots && m.slots[s].Coin? && s != target
  {
    var t := m.slots[target];
    m.(slots := (m.slots - {s})[target := Coin(t.coinType, t.amount + m.slots[s].amount)],
       drift := m.drift[target := Drift(m, target) + m.slots[s].amount])
  }

  function MergeInto(data: TransactionData, m: Machine, target: Slot, sources: seq<Argument>): Result<Machine>
    requires target in m.slots && m.slots[target].Coin?
    decreases |sources|
  {
    if sources == [] then Ok(m)
    else match Held(data, m, sources[0])
      case None => Err(Reason.SourceIsNotAvailable)
      case Some(s) =>
        var v, t := m.slots[s], m.slots[target];
        if s == target || !v.Coin? || v.coinType != t.coinType then Err(Reason.CannotMerge)
        else MergeInto(data, MergeOne(m, target, s), target, sources[1..])
  }

  /** An amount `k` leaves the coin in slot `source`. */
  function Take(m: Machine, source: Slot, k: nat): Machine
    requires source in m.slots && m.slots[source].Coin? && k <= m.slots[source].amount
  {
    var v := m.slots[source];
    m.(slots := m.slots[source := Coin(v.coinType, v.amount - k)], drift := m.drift[source := Drift(m, source) - k])
  }

  /** The amount taken becomes the coin that is result `j` of command `i`. */
  function SplitOne(m: Machine, source: Slot, k: nat, i: nat, j: nat): Machine
    requires source in m.slots && m.slots[source].Coin? && k <= m.slots[source].amount
  {
    var taken := Take(m, source, k);
    taken.(slots := taken.slots[ResultSlot(i, j) := Coin(m.slots[source].coinType, k)])
  }

  function SplitFrom(data: TransactionData, m: Machine, source: Slot, amounts: seq<Argument>, i: nat, j: nat): Result<Machine>
    requires source in m.slots && m.slots[source].Coin? && j <= |amounts|
    requires !(source.ResultSlot? && source.command == i)
    decreases |amounts| - j
  {
    if j == |amounts| then Ok(m)
    else match PureU64(data, amounts[j])
      case Err(e) => Err(e)
      case Ok(k) =>
        var v := m.slots[source];
        if v.amount < k then Err(Reason.InsufficientCoinBalance)
        else SplitFrom(data, SplitOne(m, source, k, i, j), source, amounts, i, j + 1)
  }

  function ExecCall(p: Platform, data: TransactionData, m: Machine, i: nat): Result<Machine>
    requires i < |data.commands| && data.commands[i].MoveCall?
  {
    var c := data.commands[i];
    var callee := CalleeOf(p, c);
    if callee == Foreign || c.arguments == [] then Err(Reason.UnsupportedCall)
    else
      var t := CoinTypeOf(p, c);
      match Held(data, m, c.arguments[0])
      case None => Err(Reason.ArgumentIsNotAvailable)
      case Some(s) =>
        var v := m.slots[s];
        var without := m.(slots := m.slots - {s});
        if v.coinType != t then Err(Reason.TypeMismatch)
        else match callee
          case RedeemBalance | RedeemCoin =>
            if |c.arguments| != 1 || !v.Reservation? then Err(Reason.NotAWithdrawal)
            else
              var key := (v.owner, t);
              if key !in m.funds || m.funds[key] < v.amount then Err(Reason.InsufficientFunds)
              else Ok(without.(slots := without.slots[ResultSlot(i, 0) :=
                                 if callee == RedeemBalance then Balance(t, v.amount) else Coin(t, v.amount)],
                               funds := m.funds[key := m.funds[key] - v.amount]))
          case IntoBalance =>
            if |c.arguments| != 1 || !v.Coin? then Err(Reason.NotACoin)
            else Ok(without.(slots := without.slots[ResultSlot(i, 0) := Balance(t, v.amount)]))
          case DestroyZero =>
            if |c.arguments| != 1 || !v.Coin? || v.amount != 0 then Err(Reason.NotAZeroCoin) else Ok(without)
          case SendBalance =>
            if |c.arguments| != 2 || !v.Balance? then Err(Reason.NotABalance)
            else (match PureAddress(p, data, c.arguments[1])
                  case Err(e) => Err(e)
                  case Ok(a) => Ok(without.(payments := m.payments + [Credit(a, t, v.amount)])))
          case SendCoin =>
            if |c.arguments| != 2 || !v.Coin? then Err(Reason.NotACoin)
            else (match PureAddress(p, data, c.arguments[1])
                  case Err(e) => Err(e)
                  case Ok(a) => Ok(without.(remainders := m.remainders + [Credit(a, t, v.amount)])))
  }

  function Exec(p: Platform, data: TransactionData, m: Machine, i: nat): Result<Machine>
    requires i < |data.commands|
  {
    match data.commands[i]
    case OtherCommand(_) => Err(Reason.UnsupportedCommand)
    case MoveCall(_, _, _, _, _) => ExecCall(p, data, m, i)
    case MergeCoins(destination, sources) =>
      (match Held(data, m, destination)
       case None => Err(Reason.DestinationIsNotAvailable)
       case Some(s) => if m.slots[s].Coin? then MergeInto(data, m, s, sources) else Err(Reason.NotACoin))
    case SplitCoins(coin, amounts) =>
      (match Held(data, m, coin)
       case None => Err(Reason.CoinIsNotAvailable)
       case Some(s) =>
         if !m.slots[s].Coin? || (s.ResultSlot? && s.command == i) then Err(Reason.NotACoin)
         else SplitFrom(data, m, s, amounts, i, 0))
  }

  /** The first `n` commands, run in order; one that fails ends the run. */
  function Run(p: Platform, data: TransactionData, m: Machine, n: nat): Result<Machine>
    requires n <= |data.commands|
  {
    if n == 0 then Ok(m)
    else match Run(p, data, m, n - 1)
      case Err(e) => Err(e)
      case Ok(before) => Exec(p, data, before, n - 1)
  }

  /** The run as a function of the number of commands: proofs about many commands need not look into each. */
  function Runner(p: Platform, data: TransactionData, m: Machine): nat -> Result<Machine> {
    (n: nat) => RunTo(p, data, m, n)
  }

  function RunTo(p: Platform, data: TransactionData, m: Machine, n: nat): Result<Machine> {
    if n <= |data.commands| then Run(p, data, m, n) else Err(Reason.UnexpectedCommand)
  }

  /** `run` agrees with the semantics after `n` commands. */
  ghost predicate RunsAs(p: Platform, data: TransactionData, m: Machine, run: nat -> Result<Machine>, n: nat) {
    run(n) == RunTo(p, data, m, n)
  }

  ghost predicate Simulates(p: Platform, data: TransactionData, m: Machine, run: nat -> Result<Machine>) {
    forall n: nat :: RunsAs(p, data, m, run, n)
  }

  lemma {:induction false} RunnerSimulates(p: Platform, data: TransactionData, m: Machine)
    ensures Simulates(p, data, m, Runner(p, data, m))
  {
  }

  /** Before a run: reservations sit at their inputs, other inputs and the gas coin hold the sender's coins. */
  ghost predicate Initial(p: Platform, data: TransactionData, m: Machine) {
    && m.payments == [] && m.remainders == [] && m.drift == map[]
    && (forall s | s in m.slots :: !s.ResultSlot? && !m.slots[s].Balance?)
    && (forall s | s in m.slots && s.InputSlot? && m.slots[s].Reservation? ::
          && s.index < |data.inputs| && data.inputs[s.index].FundsWithdrawal?
          && data.inputs[s.index].withdrawal.maxAmount == Some(m.slots[s].amount))
    && (forall s | s in m.slots && s.InputSlot? && s.index < |data.inputs| && data.inputs[s.index].FundsWithdrawal? ::
          m.slots[s].Reservation?)
  }

  /** What an address received of one coin type. */
  function Total(credits: seq<Credit>, address: string, coinType: string): nat {
    if credits == [] then 0
    else
      var c := credits[|credits| - 1];
      Total(credits[..|credits| - 1], address, coinType)
      + if c.address == address && c.coinType == coinType then c.amount else 0
  }

  function Received(m: Machine, address: string, coinType: string): nat {
    Total(m.payments, address, coinType) + Total(m.remainders, address, coinType)
  }
}
