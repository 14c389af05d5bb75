/** assertFundingTransaction: confirming that signed bytes encode only the payout an intent asks for. */
module FundingValidator {
  import opened Outcomes
  import opened Text
  import opened Hex
  import opened Manifest
  import opened FundingProgram

  /** The balance a send_funds call consumes, read off the program text. */
  function OutputAmount(p: Platform, data: TransactionData, a: Argument, coinType: string): Result<nat> {
    if !a.NestedResult? then Err(Reason.MustConsumeAPreparedBalance)
    else if a.command >= |data.commands| || !data.commands[a.command].MoveCall? || a.result != 0 then
      Err(Reason.NoBalanceProducingCall)
    else
      var c := data.commands[a.command];
      var callee := CalleeOf(p, c);
      if (callee != RedeemBalance && callee != IntoBalance) || CoinTypeOf(p, c) != coinType || c.arguments == [] then
        Err(Reason.UnexpectedBalanceSource)
      else if callee == RedeemBalance then WithdrawalAmount(p, data, c.arguments[0], coinType)
      else SplitAmount(data, c.arguments[0])
  }

  function WithdrawalAmount(p: Platform, data: TransactionData, a: Argument, coinType: string): Result<nat> {
    if !a.Input? || a.index >= |data.inputs| || !data.inputs[a.index].FundsWithdrawal? then Err(Reason.InvalidWithdrawal)
    else
      var w := data.inputs[a.index].withdrawal;
      if w.maxAmount.None? || w.balanceType.None? || p.normType(w.balanceType.value) != coinType || !w.fromSender then
        Err(Reason.InvalidAddressBalanceWithdrawal)
      else Ok(w.maxAmount.value)
  }

  function SplitAmount(data: TransactionData, a: Argument): Result<nat> {
    if !a.NestedResult? || a.command >= |data.commands| || !data.commands[a.command].SplitCoins? then
      Err(Reason.DoesNotConsumeASplitCoin)
    else
      var amounts := data.commands[a.command].amounts;
      if a.result >= |amounts| then Err(Reason.MissingSplitAmount) else PureU64(data, amounts[a.result])
  }

  /** What command `i` adds to the payments, or why the transaction is refused because of it. */
  function PaymentAt(p: Platform, data: TransactionData, intent: Intent, i: nat): Result<seq<Credit>>
    requires i < |data.commands|
  {
    var c := data.commands[i];
    if c.MergeCoins? || c.SplitCoins? then Ok([])
    else if !c.MoveCall? then Err(Reason.UnexpectedCommand)
    else
      var callee := CalleeOf(p, c);
      if callee == Foreign then Err(Reason.UnexpectedMoveCall)
      else
        var t := CoinTypeOf(p, c);
        if t != p.normType(SUI_TYPE) && t != p.normType(intent.walType) then Err(Reason.UnexpectedCoinType)
        else if callee == SendCoin then
          if |c.arguments| < 2 || PureAddress(p, data, c.arguments[1]) != Ok(intent.sender)
          then Err(Reason.SendsACoinRemainderAwayFromSender) else Ok([])
        else if callee != SendBalance then Ok([])
        else if |c.arguments| != 2 then Err(Reason.SendFundsHasInvalidArguments)
        else
          match PureAddress(p, data, c.arguments[1])
          case Err(e) => Err(e)
          case Ok(address) =>
            match OutputAmount(p, data, c.arguments[0], t)
            case Err(e) => Err(e)
            case Ok(amount) => Ok([Credit(address, t, amount)])
  }

  /** The payments of the first `n` commands, in program order. */
  function Payments(p: Platform, data: TransactionData, intent: Intent, n: nat): Result<seq<Credit>>
    requires n <= |data.commands|
  {
    if n == 0 then Ok([])
    else
      match Payments(p, data, intent, n - 1)
      case Err(e) => Err(e)
      case Ok(before) =>
        match PaymentAt(p, data, intent, n - 1)
        case Err(e) => Err(e)
        case Ok(more) => Ok(before + more)
  }

  /** SUI and then WAL for every recipient, in manifest order. */
  function Expected(p: Platform, intent: Intent, recipients: seq<string>): seq<Credit> {
    if recipients == [] then []
    else
      [Credit(recipients[0], p.normType(SUI_TYPE), intent.mistPerAddress),
       Credit(recipients[0], p.normType(intent.walType), intent.frostPerAddress)]
      + Expected(p, intent, recipients[1..])
  }

  /** The payments as a function of the number of commands. */
  function Reader(p: Platform, data: TransactionData, intent: Intent): nat -> Result<seq<Credit>> {
    (n: nat) => ReadTo(p, data, intent, n)
  }

  function ReadTo(p: Platform, data: TransactionData, intent: Intent, n: nat): Result<seq<Credit>> {
    if n <= |data.commands| then Payments(p, data, intent, n) else Err(Reason.UnexpectedCommand)
  }

  ghost predicate ReadsAs(p: Platform, data: TransactionData, intent: Intent, read: nat -> Result<seq<Credit>>, n: nat) {
    read(n) == ReadTo(p, data, intent, n)
  }

  ghost predicate Reads(p: Platform, data: TransactionData, intent: Intent, read: nat -> Result<seq<Credit>>) {
    forall n: nat :: ReadsAs(p, data, intent, read, n)
  }

  lemma {:induction false} ReaderReads(p: Platform, data: TransactionData, intent: Intent)
    ensures Reads(p, data, intent, Reader(p, data, intent))
  {
  }

  ghost predicate Accepted(p: Platform, data: TransactionData, intent: Intent) {
    && data.sender.Some? && p.normAddress(data.sender.value) == intent.sender
    && data.gasOwner.Some? && p.normAddress(data.gasOwner.value) == intent.sender
    && (if data.gasBudget.Some? then data.gasBudget.value else 0) == intent.gasBudget
    && NormalizeWriters(p, intent.writers).Ok?
    && Payments(p, data, intent, |data.commands|)
       == Ok(Expected(p, intent, Flatten(NormalizeWriters(p, intent.writers).value)))
  }

  lemma {:induction false} PaymentsErrStays(p: Platform, data: TransactionData, intent: Intent, i: nat, n: nat)
    requires i <= n <= |data.commands| && Payments(p, data, intent, i).Err?
    ensures Payments(p, data, intent, n).Err?
  {
    if i < n {
      PaymentsErrStays(p, data, intent, i, n - 1);
    }
  }

  /** The loop that fills actualPayments; None when a command is refused. */
  method ReadPayments(p: Platform, data: TransactionData, intent: Intent) returns (r: Option<seq<Credit>>)
    ensures r.Some? ==> Payments(p, data, intent, |data.commands|) == Ok(r.value)
    ensures r.None? ==> Payments(p, data, intent, |data.commands|).Err?
  {
    var actual: seq<Credit> := [];
    var i := 0;
    while i < |data.commands|
      invariant 0 <= i <= |data.commands|
      invariant Payments(p, data, intent, i) == Ok(actual)
    {
      var more := PaymentAt(p, data, intent, i);
      if more.Err? {
        PaymentsErrStays(p, data, intent, i + 1, |data.commands|);
        return None;
      }
      actual := actual + more.value;
      i := i + 1;
    }
    return Some(actual);
  }

  /** The loop that compares actualPayments with expectedPayments entry by entry. */
  method SamePayments(actual: seq<Credit>, expected: seq<Credit>) returns (same: bool)
    ensures same <==> actual == expected
  {
    if |actual| != |expected| { return false; }
    for k := 0 to |expected|
      invariant actual[..k] == expected[..k]
    {
      if actual[k] != expected[k] { return false; }
    }
    return true;
  }

  /** The whole check: it accepts exactly the transactions that Accepted describes. */
  method AssertFundingTransaction(p: Platform, data: TransactionData, intent: Intent) returns (ok: bool)
    ensures ok <==> Accepted(p, data, intent)
  {
    if data.sender.None? || p.normAddress(data.sender.value) != intent.sender { return false; }
    if data.gasOwner.None? || p.normAddress(data.gasOwner.value) != intent.sender { return false; }
    if (if data.gasBudget.Some? then data.gasBudget.value else 0) != intent.gasBudget { return false; }
    var actual := ReadPayments(p, data, intent);
    if actual.None? { return false; }
    var writers := NormalizeWriters(p, intent.writers);
    if writers.Err? { return false; }
    ok := SamePayments(actual.value, Expected(p, intent, Flatten(writers.value)));
  }

  // ---- Soundness ------------------------------------------------------------------------------

  /** The split coin behind the balance that argument `a` names, if it comes from one. */
  function OriginOf(p: Platform, data: TransactionData, a: Argument): Option<Slot> {
    if a.NestedResult? && a.command < |data.commands| && data.commands[a.command].MoveCall? then
      var c := data.commands[a.command];
      if CalleeOf(p, c) == IntoBalance && c.arguments != [] && c.arguments[0].NestedResult?
      then Some(ResultSlot(c.arguments[0].command, c.arguments[0].result)) else None
    else None
  }

  predicate IsSend(p: Platform, c: Command) {
    c.MoveCall? && CalleeOf(p, c) == SendBalance && |c.arguments| == 2
  }

  /** The origins of the payments of the first `n` commands, in the same order as Payments. */
  function Origins(p: Platform, data: TransactionData, n: nat): seq<Option<Slot>>
    requires n <= |data.commands|
  {
    if n == 0 then []
    else if IsSend(p, data.commands[n - 1])
    then Origins(p, data, n - 1) + [OriginOf(p, data, data.commands[n - 1].arguments[0])]
    else Origins(p, data, n - 1)
  }

  function DriftOf(m: Machine, origin: Option<Slot>): int {
    if origin.Some? then Drift(m, origin.value) else 0
  }

  /** What a value still in a result slot must look like, given the command that produced it. */
  ghost predicate ValueFits(p: Platform, data: TransactionData, m: Machine, s: Slot)
    requires s in m.slots && s.ResultSlot? && s.command < |data.commands|
  {
    var v := m.slots[s];
    match data.commands[s.command]
    case OtherCommand(_) => false
    case MergeCoins(_, _) => false
    case SplitCoins(_, amounts) =>
      v.Coin? && s.result < |amounts| && PureU64(data, amounts[s.result]).Ok?
      && v.amount == PureU64(data, amounts[s.result]).value + Drift(m, s)
    case MoveCall(_, _, _, _, arguments) =>
      && s.result == 0 && arguments != []
      && (match CalleeOf(p, data.commands[s.command])
          case RedeemCoin => v.Coin?
          case RedeemBalance =>
            v.Balance? && (WithdrawalAmount(p, data, arguments[0], v.coinType).Ok? ==>
                             v.amount == WithdrawalAmount(p, data, arguments[0], v.coinType).value)
          case IntoBalance =>
            v.Balance? && (SplitAmount(data, arguments[0]).Ok? ==>
                             var o := ResultSlot(arguments[0].command, arguments[0].result);
                             && o !in m.slots && o.command < s.command
                             && v.amount == SplitAmount(data, arguments[0]).value + Drift(m, o))
          case _ => false)
  }

  ghost predicate SlotsFit(p: Platform, data: TransactionData, m: Machine, n: nat)
    requires n <= |data.commands|
  {
    && (forall s | s in m.drift :: s.ResultSlot? ==> s.command < n)
    && (forall s | s in m.slots && s.ResultSlot? :: s.command < n && ValueFits(p, data, m, s))
    && (forall s | s in m.slots && !s.ResultSlot? :: !m.slots[s].Balance?)
    && (forall s | s in m.slots && m.slots[s].Reservation? && s.InputSlot? ::
          && s.index < |data.inputs| && data.inputs[s.index].FundsWithdrawal?
          && data.inputs[s.index].withdrawal.maxAmount == Some(m.slots[s].amount))
  }

  /** Every payment so far is what the text says plus what happened to its coin, which is gone by now. */
  ghost predicate PaymentsFit(p: Platform, data: TransactionData, intent: Intent, m: Machine, n: nat)
    requires n <= |data.commands|
  {
    && Payments(p, data, intent, n).Ok?
    && ListFits(m, Payments(p, data, intent, n).value, Origins(p, data, n), n)
    && (forall c | c in m.remainders :: c.address == intent.sender)
  }

  ghost predicate ListFits(m: Machine, stated: seq<Credit>, origins: seq<Option<Slot>>, n: nat) {
    && |m.payments| == |stated| == |origins|
    && (forall k | 0 <= k < |stated| :: PaymentFits(m, m.payments[k], stated[k], origins[k], n))
  }

  predicate PaymentFits(m: Machine, paid: Credit, stated: Credit, origin: Option<Slot>, n: nat) {
    && paid.address == stated.address && paid.coinType == stated.coinType
    && paid.amount == stated.amount + DriftOf(m, origin)
    && (origin.Some? ==> origin.value !in m.slots && origin.value.ResultSlot? && origin.value.command < n)
  }

  // ---- Every kind of command keeps both invariants ----

  /** The coin in slot `t` changes by what its drift records; some other slots are emptied. */
  ghost predicate Adjusted(m: Machine, m': Machine, t: Slot, delta: int) {
    && t in m.slots && m.slots[t].Coin? && t in m'.slots && m'.slots[t].Coin?
    && m'.slots[t].amount == m.slots[t].amount + delta
    && m'.slots.Keys <= m.slots.Keys
    && (forall s | s in m'.slots && s != t :: m'.slots[s] == m.slots[s])
    && m'.drift == m.drift[t := Drift(m, t) + delta]
    && m'.payments == m.payments && m'.remainders == m.remainders
  }

  lemma {:induction false} ValueFitsAdjusted(p: Platform, data: TransactionData, m: Machine, m': Machine, t: Slot, delta: int, s: Slot)
    requires Adjusted(m, m', t, delta)
    requires s in m'.slots && s.ResultSlot? && s.command < |data.commands| && ValueFits(p, data, m, s)
    ensures ValueFits(p, data, m', s)
  {
    assert s != t ==> Drift(m', s) == Drift(m, s);
  }

  lemma {:induction false} AdjustedKeepsFit(p: Platform, data: TransactionData, m: Machine, m': Machine, t: Slot, delta: int, n: nat)
    requires n <= |data.commands| && SlotsFit(p, data, m, n) && Adjusted(m, m', t, delta)
    ensures SlotsFit(p, data, m', n)
  {
    forall s | s in m'.slots && s.ResultSlot? ensures s.command < n && ValueFits(p, data, m', s) {
      ValueFitsAdjusted(p, data, m, m', t, delta, s);
    }
  }

  /** Nothing is credited, only command `i` fills slots, and slots that are gone keep their drift. */
  ghost predicate Quiet(m: Machine, m': Machine, i: nat) {
    && m'.payments == m.payments && m'.remainders == m.remainders
    && (forall s | s in m'.slots :: s in m.slots || (s.ResultSlot? && s.command == i))
    && (forall s | s !in m.slots :: Drift(m', s) == Drift(m, s))
  }

  lemma {:induction false} MergeOneAdjusts(m: Machine, target: Slot, s: Slot)
    requires target in m.slots && m.slots[target].Coin? && s in m.slots && m.slots[s].Coin? && s != target
    ensures Adjusted(m, MergeOne(m, target, s), target, m.slots[s].amount)
  {
  }

  lemma {:induction false} TakeAdjusts(m: Machine, source: Slot, k: nat)
    requires source in m.slots && m.slots[source].Coin? && k <= m.slots[source].amount
    ensures Adjusted(m, Take(m, source, k), source, 0 - k)
  {
  }

  lemma {:induction false} QuietAdjusted(m: Machine, m1: Machine, t: Slot, delta: int, m': Machine, i: nat)
    requires Adjusted(m, m1, t, delta) && Quiet(m1, m', i)
    ensures Quiet(m, m', i)
  {
  }

  lemma {:induction false} MergeKeepsFit(p: Platform, data: TransactionData, m: Machine, target: Slot,
                                         sources: seq<Argument>, n: nat, i: nat, m': Machine)
    requires n <= |data.commands| && SlotsFit(p, data, m, n)
    requires target in m.slots && m.slots[target].Coin?
    requires MergeInto(data, m, target, sources) == Ok(m')
    ensures SlotsFit(p, data, m', n) && Quiet(m, m', i)
    decreases |sources|
  {
    if sources != [] {
      var s := Held(data, m, sources[0]).value;
      MergeOneAdjusts(m, target, s);
      var m1 := MergeOne(m, target, s);
      AdjustedKeepsFit(p, data, m, m1, target, m.slots[s].amount, n);
      MergeKeepsFit(p, data, m1, target, sources[1..], n, i, m');
      QuietAdjusted(m, m1, target, m.slots[s].amount, m', i);
    }
  }

  /** A fresh split coin in a slot that was never used. */
  lemma {:induction false} NewCoinFits(p: Platform, data: TransactionData, m: Machine, s: Slot, coin: Value, n: nat, m': Machine)
    requires n <= |data.commands| && SlotsFit(p, data, m, n)
    requires s.ResultSlot? && s.command == n - 1 && s !in m.drift && s !in m.slots
    requires data.commands[n - 1].SplitCoins? && s.result < |data.commands[n - 1].amounts|
    requires coin.Coin? && PureU64(data, data.commands[n - 1].amounts[s.result]) == Ok(coin.amount)
    requires m' == m.(slots := m.slots[s := coin])
    ensures SlotsFit(p, data, m', n)
  {
    forall x | x in m'.slots && x.ResultSlot? ensures x.command < n && ValueFits(p, data, m', x) {
      if x != s {
        assert ValueFits(p, data, m, x);
      }
    }
  }

  lemma {:induction false} SplitOneKeepsFit(p: Platform, data: TransactionData, m: Machine, source: Slot, k: int, i: nat, j: nat)
    requires i < |data.commands| && data.commands[i].SplitCoins? && SlotsFit(p, data, m, i + 1)
    requires source in m.slots && m.slots[source].Coin? && !(source.ResultSlot? && source.command == i)
    requires j < |data.commands[i].amounts| && PureU64(data, data.commands[i].amounts[j]) == Ok(k)
    requires 0 <= k <= m.slots[source].amount
    requires ResultSlot(i, j) !in m.slots && ResultSlot(i, j) !in m.drift
    ensures SlotsFit(p, data, SplitOne(m, source, k, i, j), i + 1)
  {
    TakeAdjusts(m, source, k);
    var m1 := Take(m, source, k);
    AdjustedKeepsFit(p, data, m, m1, source, 0 - k, i + 1);
    NewCoinFits(p, data, m1, ResultSlot(i, j), Coin(m.slots[source].coinType, k), i + 1, SplitOne(m, source, k, i, j));
  }

  lemma {:induction false} SplitLeavesLater(m: Machine, source: Slot, k: nat, i: nat, j: nat)
    requires source in m.slots && m.slots[source].Coin? && k <= m.slots[source].amount && !(source.ResultSlot? && source.command == i)
    requires forall l: nat | j <= l :: ResultSlot(i, l) !in m.slots && ResultSlot(i, l) !in m.drift
    ensures var m1 := SplitOne(m, source, k, i, j);
            forall l: nat | j + 1 <= l :: ResultSlot(i, l) !in m1.slots && ResultSlot(i, l) !in m1.drift
  {
  }

  lemma {:induction false} SplitKeepsFit(p: Platform, data: TransactionData, m: Machine, source: Slot, i: nat, j: nat, m': Machine)
    requires i < |data.commands| && data.commands[i].SplitCoins? && SlotsFit(p, data, m, i + 1)
    requires source in m.slots && m.slots[source].Coin? && j <= |data.commands[i].amounts|
    requires !(source.ResultSlot? && source.command == i)
    requires forall k | j <= k :: ResultSlot(i, k) !in m.slots && ResultSlot(i, k) !in m.drift
    requires SplitFrom(data, m, source, data.commands[i].amounts, i, j) == Ok(m')
    ensures SlotsFit(p, data, m', i + 1)
    decreases |data.commands[i].amounts| - j
  {
    var amounts := data.commands[i].amounts;
    if j < |amounts| {
      var k: int := PureU64(data, amounts[j]).value;
      SplitOneKeepsFit(p, data, m, source, k, i, j);
      var m1 := SplitOne(m, source, k, i, j);
      SplitLeavesLater(m, source, k, i, j);
      SplitKeepsFit(p, data, m1, source, i, j + 1, m');
    }
  }

  lemma {:induction false} SplitIsQuiet(data: TransactionData, m: Machine, source: Slot, amounts: seq<Argument>, i: nat, j: nat, m': Machine)
    requires source in m.slots && m.slots[source].Coin? && j <= |amounts| && !(source.ResultSlot? && source.command == i)
    requires SplitFrom(data, m, source, amounts, i, j) == Ok(m')
    ensures Quiet(m, m', i)
    ensures forall s | s != source :: Drift(m', s) == Drift(m, s)
    decreases |amounts| - j
  {
    if j < |amounts| {
      SplitIsQuiet(data, SplitOne(m, source, PureU64(data, amounts[j]).value, i, j), source, amounts, i, j + 1, m');
    }
  }

  /** A Move call takes the value out of one slot and may put one result in its own slot. */
  ghost predicate CallEffect(m: Machine, m': Machine, s: Slot, i: nat) {
    && s in m.slots && m'.drift == m.drift
    && (m'.slots == m.slots - {s}
        || (ResultSlot(i, 0) in m'.slots && !m'.slots[ResultSlot(i, 0)].Reservation?
            && m'.slots == (m.slots - {s})[ResultSlot(i, 0) := m'.slots[ResultSlot(i, 0)]]))
  }

  lemma {:induction false} CallHasEffect(p: Platform, data: TransactionData, m: Machine, i: nat, m': Machine)
    requires i < |data.commands| && data.commands[i].MoveCall? && ExecCall(p, data, m, i) == Ok(m')
    ensures data.commands[i].arguments != [] && Held(data, m, data.commands[i].arguments[0]).Some?
    ensures CallEffect(m, m', Held(data, m, data.commands[i].arguments[0]).value, i)
  {
  }

  lemma {:induction false} CallResultFits(p: Platform, data: TransactionData, m: Machine, i: nat, m': Machine)
    requires i < |data.commands| && data.commands[i].MoveCall? && SlotsFit(p, data, m, i)
    requires ExecCall(p, data, m, i) == Ok(m') && ResultSlot(i, 0) in m'.slots
    ensures ValueFits(p, data, m', ResultSlot(i, 0))
  {
    var s := Held(data, m, data.commands[i].arguments[0]).value;
    if s.ResultSlot? {
      assert ValueFits(p, data, m, s);
    }
  }

  lemma {:induction false} CallKeepsFit(p: Platform, data: TransactionData, m: Machine, i: nat, m': Machine)
    requires i < |data.commands| && data.commands[i].MoveCall? && SlotsFit(p, data, m, i)
    requires ExecCall(p, data, m, i) == Ok(m')
    ensures SlotsFit(p, data, m', i + 1)
  {
    CallHasEffect(p, data, m, i, m');
    var s := Held(data, m, data.commands[i].arguments[0]).value;
    if ResultSlot(i, 0) in m'.slots {
      CallResultFits(p, data, m, i, m');
    }
    EffectKeepsFit(p, data, m, m', s, i);
  }

  lemma {:induction false} EffectKeepsFit(p: Platform, data: TransactionData, m: Machine, m': Machine, s: Slot, i: nat)
    requires i < |data.commands| && SlotsFit(p, data, m, i) && CallEffect(m, m', s, i)
    requires ResultSlot(i, 0) in m'.slots ==> ValueFits(p, data, m', ResultSlot(i, 0))
    ensures SlotsFit(p, data, m', i + 1)
  {
    forall x | x in m'.slots && x.ResultSlot? ensures x.command < i + 1 && ValueFits(p, data, m', x) {
      if x != ResultSlot(i, 0) {
        assert ValueFits(p, data, m, x);
      }
    }
  }

  lemma {:induction false} QuietKeepsList(m: Machine, stated: seq<Credit>, origins: seq<Option<Slot>>, i: nat, m': Machine)
    requires ListFits(m, stated, origins, i) && Quiet(m, m', i)
    ensures ListFits(m', stated, origins, i + 1)
  {
    forall k | 0 <= k < |stated| ensures PaymentFits(m', m.payments[k], stated[k], origins[k], i + 1) {
      assert PaymentFits(m, m.payments[k], stated[k], origins[k], i);
    }
  }

  lemma {:induction false} QuietKeepsPayments(p: Platform, data: TransactionData, intent: Intent, m: Machine, i: nat, m': Machine)
    requires i < |data.commands| && PaymentsFit(p, data, intent, m, i)
    requires Quiet(m, m', i) && PaymentAt(p, data, intent, i) == Ok([]) && !IsSend(p, data.commands[i])
    ensures PaymentsFit(p, data, intent, m', i + 1)
  {
    var ps := Payments(p, data, intent, i).value;
    assert ps + [] == ps;
    QuietKeepsList(m, ps, Origins(p, data, i), i, m');
  }

  /** A send_funds call pays what its argument's producer put there. */
  lemma {:induction false} SendPays(p: Platform, data: TransactionData, intent: Intent, m: Machine, i: nat, m': Machine)
    requires i < |data.commands| && IsSend(p, data.commands[i]) && SlotsFit(p, data, m, i)
    requires ExecCall(p, data, m, i) == Ok(m') && PaymentAt(p, data, intent, i).Ok?
    ensures |PaymentAt(p, data, intent, i).value| == 1 && |m'.payments| == |m.payments| + 1
    ensures m'.payments == m.payments + [m'.payments[|m.payments|]] && m'.remainders == m.remainders
    ensures m'.drift == m.drift && m'.slots.Keys <= m.slots.Keys
    ensures PaymentFits(m', m'.payments[|m.payments|], PaymentAt(p, data, intent, i).value[0],
                        OriginOf(p, data, data.commands[i].arguments[0]), i + 1)
  {
    assert ValueFits(p, data, m, ResultSlot(data.commands[i].arguments[0].command, 0));
  }

  lemma {:induction false} AppendKeepsList(m: Machine, stated: seq<Credit>, origins: seq<Option<Slot>>, i: nat, m': Machine,
                        paid: Credit, credit: Credit, origin: Option<Slot>)
    requires ListFits(m, stated, origins, i) && m'.payments == m.payments + [paid]
    requires m'.drift == m.drift && m'.slots.Keys <= m.slots.Keys && PaymentFits(m', paid, credit, origin, i + 1)
    ensures ListFits(m', stated + [credit], origins + [origin], i + 1)
  {
    forall k | 0 <= k < |stated| ensures PaymentFits(m', m.payments[k], stated[k], origins[k], i + 1) {
      assert PaymentFits(m, m.payments[k], stated[k], origins[k], i);
    }
  }

  lemma {:induction false} SendKeepsPayments(p: Platform, data: TransactionData, intent: Intent, m: Machine, i: nat, m': Machine)
    requires i < |data.commands| && IsSend(p, data.commands[i])
    requires SlotsFit(p, data, m, i) && PaymentsFit(p, data, intent, m, i)
    requires ExecCall(p, data, m, i) == Ok(m') && PaymentAt(p, data, intent, i).Ok?
    ensures PaymentsFit(p, data, intent, m', i + 1)
  {
    SendPays(p, data, intent, m, i, m');
    var more := PaymentAt(p, data, intent, i).value;
    assert more == [more[0]];
    AppendKeepsList(m, Payments(p, data, intent, i).value, Origins(p, data, i), i, m',
                    m'.payments[|m.payments|], more[0], OriginOf(p, data, data.commands[i].arguments[0]));
  }

  lemma {:induction false} OtherCallCredits(p: Platform, data: TransactionData, intent: Intent, m: Machine, i: nat, m': Machine)
    requires i < |data.commands| && data.commands[i].MoveCall? && !IsSend(p, data.commands[i])
    requires ExecCall(p, data, m, i) == Ok(m') && PaymentAt(p, data, intent, i).Ok?
    ensures PaymentAt(p, data, intent, i) == Ok([]) && m'.payments == m.payments
    ensures forall c | c in m'.remainders :: c in m.remainders || c.address == intent.sender
  {
  }

  lemma {:induction false} CallKeepsPayments(p: Platform, data: TransactionData, intent: Intent, m: Machine, i: nat, m': Machine)
    requires i < |data.commands| && data.commands[i].MoveCall? && !IsSend(p, data.commands[i])
    requires PaymentsFit(p, data, intent, m, i)
    requires ExecCall(p, data, m, i) == Ok(m') && PaymentAt(p, data, intent, i).Ok?
    ensures PaymentsFit(p, data, intent, m', i + 1)
  {
    CallHasEffect(p, data, m, i, m');
    OtherCallCredits(p, data, intent, m, i, m');
    QuietKeepsPayments(p, data, intent, m, i, m'.(remainders := m.remainders));
  }

  lemma {:induction false} StepKeepsFit(p: Platform, data: TransactionData, intent: Intent, m: Machine, i: nat, m': Machine)
    requires i < |data.commands| && SlotsFit(p, data, m, i) && PaymentsFit(p, data, intent, m, i)
    requires Exec(p, data, m, i) == Ok(m') && PaymentAt(p, data, intent, i).Ok?
    ensures SlotsFit(p, data, m', i + 1) && PaymentsFit(p, data, intent, m', i + 1)
  {
    match data.commands[i]
    case MergeCoins(destination, sources) =>
      var target := Held(data, m, destination).value;
      assert SlotsFit(p, data, m, i + 1);
      MergeKeepsFit(p, data, m, target, sources, i + 1, i, m');
      QuietKeepsPayments(p, data, intent, m, i, m');
    case SplitCoins(coin, _) =>
      var source := Held(data, m, coin).value;
      assert SlotsFit(p, data, m, i + 1);
      SplitKeepsFit(p, data, m, source, i, 0, m');
      SplitIsQuiet(data, m, source, data.commands[i].amounts, i, 0, m');
      QuietKeepsPayments(p, data, intent, m, i, m');
    case MoveCall(_, _, _, _, _) =>
      CallKeepsFit(p, data, m, i, m');
      if IsSend(p, data.commands[i]) {
        SendKeepsPayments(p, data, intent, m, i, m');
      } else {
        CallKeepsPayments(p, data, intent, m, i, m');
      }
    case OtherCommand(_) =>
  }

  /** The invariant, at one command. */
  ghost predicate Fit(p: Platform, data: TransactionData, intent: Intent, m: Machine, n: nat) {
    n <= |data.commands| && SlotsFit(p, data, m, n) && PaymentsFit(p, data, intent, m, n)
  }

  lemma {:induction false} BackOne(p: Platform, data: TransactionData, intent: Intent, m0: Machine, run: nat -> Result<Machine>,
                                   read: nat -> Result<seq<Credit>>, n: nat)
    requires Simulates(p, data, m0, run) && Reads(p, data, intent, read) && n > 0 && run(n).Ok? && read(n).Ok?
    ensures n <= |data.commands| && run(n - 1).Ok? && read(n - 1).Ok?
  {
    assert RunsAs(p, data, m0, run, n) && RunsAs(p, data, m0, run, n - 1);
    assert ReadsAs(p, data, intent, read, n) && ReadsAs(p, data, intent, read, n - 1);
  }

  lemma {:induction false} ForwardOne(p: Platform, data: TransactionData, intent: Intent, m0: Machine, run: nat -> Result<Machine>,
                                      read: nat -> Result<seq<Credit>>, n: nat)
    requires Simulates(p, data, m0, run) && Reads(p, data, intent, read) && n > 0 && run(n).Ok? && read(n).Ok?
    requires run(n - 1).Ok? && Fit(p, data, intent, run(n - 1).value, n - 1)
    ensures Fit(p, data, intent, run(n).value, n)
  {
    BackOne(p, data, intent, m0, run, read, n);
    RanOne(p, data, m0, run, n);
    ReadOne(p, data, intent, read, n);
    StepKeepsFit(p, data, intent, run(n - 1).value, n - 1, run(n).value);
  }

  lemma {:induction false} RanOne(p: Platform, data: TransactionData, m0: Machine, run: nat -> Result<Machine>, n: nat)
    requires Simulates(p, data, m0, run) && 0 < n <= |data.commands| && run(n).Ok? && run(n - 1).Ok?
    ensures Exec(p, data, run(n - 1).value, n - 1) == run(n)
  {
    assert RunsAs(p, data, m0, run, n) && RunsAs(p, data, m0, run, n - 1);
  }

  lemma {:induction false} ReadOne(p: Platform, data: TransactionData, intent: Intent, read: nat -> Result<seq<Credit>>, n: nat)
    requires Reads(p, data, intent, read) && 0 < n <= |data.commands| && read(n).Ok?
    ensures PaymentAt(p, data, intent, n - 1).Ok?
  {
    assert ReadsAs(p, data, intent, read, n);
    PaymentsBefore(p, data, intent, n);
  }

  lemma {:induction false} FitsUpTo(p: Platform, data: TransactionData, intent: Intent, m0: Machine, run: nat -> Result<Machine>,
                                    read: nat -> Result<seq<Credit>>, n: nat)
    requires Simulates(p, data, m0, run) && Reads(p, data, intent, read) && run(n).Ok? && read(n).Ok?
    requires run(0).Ok? && Fit(p, data, intent, run(0).value, 0)
    ensures Fit(p, data, intent, run(n).value, n)
  {
    if n > 0 {
      BackOne(p, data, intent, m0, run, read, n);
      FitsUpTo(p, data, intent, m0, run, read, n - 1);
      ForwardOne(p, data, intent, m0, run, read, n);
    }
  }

  lemma {:induction false} RunFits(p: Platform, data: TransactionData, intent: Intent, m0: Machine, n: nat, m: Machine)
    requires n <= |data.commands| && Initial(p, data, m0)
    requires Run(p, data, m0, n) == Ok(m) && Payments(p, data, intent, n).Ok?
    ensures SlotsFit(p, data, m, n) && PaymentsFit(p, data, intent, m, n)
  {
    RunnerSimulates(p, data, m0);
    ReaderReads(p, data, intent);
    InitialFits(p, data, intent, m0);
    FitsUpTo(p, data, intent, m0, Runner(p, data, m0), Reader(p, data, intent), n);
  }

  lemma {:induction false} InitialFits(p: Platform, data: TransactionData, intent: Intent, m0: Machine)
    requires Initial(p, data, m0)
    ensures SlotsFit(p, data, m0, 0) && PaymentsFit(p, data, intent, m0, 0)
  {
  }

  lemma {:induction false} PaymentsBefore(p: Platform, data: TransactionData, intent: Intent, n: nat)
    requires 0 < n <= |data.commands| && Payments(p, data, intent, n).Ok?
    ensures Payments(p, data, intent, n - 1).Ok? && PaymentAt(p, data, intent, n - 1).Ok?
  {
  }

  // ---- Totals ----

  lemma {:induction false} TotalAppend(a: seq<Credit>, b: seq<Credit>, address: string, coinType: string)
    ensures Total(a + b, address, coinType) == Total(a, address, coinType) + Total(b, address, coinType)
  {
    if b == [] {
      assert a + b == a;
    } else {
      assert (a + b)[..|a + b| - 1] == a + b[..|b| - 1];
      TotalAppend(a, b[..|b| - 1], address, coinType);
    }
  }

  lemma {:induction false} TotalOfStrangers(credits: seq<Credit>, address: string, coinType: string)
    requires forall c | c in credits :: c.address != address || c.coinType != coinType
    ensures Total(credits, address, coinType) == 0
  {
    if credits != [] {
      TotalOfStrangers(credits[..|credits| - 1], address, coinType);
    }
  }

  /** What the intent owes an address in one coin type; SUI and WAL being the same type is not excluded. */
  function Owed(p: Platform, intent: Intent, recipients: seq<string>, address: string, coinType: string): nat {
    if address !in recipients then 0
    else (if coinType == p.normType(SUI_TYPE) then intent.mistPerAddress else 0)
         + (if coinType == p.normType(intent.walType) then intent.frostPerAddress else 0)
  }

  lemma {:induction false} ExpectedTotals(p: Platform, intent: Intent, recipients: seq<string>, address: string, coinType: string)
    requires Distinct(recipients)
    ensures Total(Expected(p, intent, recipients), address, coinType) == Owed(p, intent, recipients, address, coinType)
    ensures forall c | c in Expected(p, intent, recipients) :: c.address in recipients
  {
    if recipients != [] {
      var rest := recipients[1..];
      ExpectedTotals(p, intent, rest, address, coinType);
      var sui := Credit(recipients[0], p.normType(SUI_TYPE), intent.mistPerAddress);
      var wal := Credit(recipients[0], p.normType(intent.walType), intent.frostPerAddress);
      TotalAppend([sui, wal], Expected(p, intent, rest), address, coinType);
      assert [sui, wal][..1] == [sui] && [sui][..0] == [];
      assert Total([sui, wal], address, coinType) == Total([sui], address, coinType)
             + if wal.address == address && wal.coinType == coinType then wal.amount else 0;
      assert address in recipients <==> address == recipients[0] || address in rest;
      assert recipients[0] !in rest;
    }
  }

  ghost function Recipients(p: Platform, intent: Intent): seq<string>
    requires NormalizeWriters(p, intent.writers).Ok?
  {
    Flatten(NormalizeWriters(p, intent.writers).value)
  }

  /** Accepted and run to the end: payment k of the run is payment k of the intent plus the drift of its coin. */
  lemma {:induction false} PaidAsStated(p: Platform, data: TransactionData, intent: Intent, m0: Machine, m: Machine)
    requires Accepted(p, data, intent) && Initial(p, data, m0) && Run(p, data, m0, |data.commands|) == Ok(m)
    ensures var expected := Expected(p, intent, Recipients(p, intent));
            var origins := Origins(p, data, |data.commands|);
            && |m.payments| == |expected| == |origins|
            && (forall k | 0 <= k < |expected| ::
                  && m.payments[k].address == expected[k].address && m.payments[k].coinType == expected[k].coinType
                  && m.payments[k].amount == expected[k].amount + DriftOf(m, origins[k]))
            && (forall c | c in m.remainders :: c.address == intent.sender)
  {
    RunFits(p, data, intent, m0, |data.commands|, m);
    var expected := Expected(p, intent, Recipients(p, intent));
    var origins := Origins(p, data, |data.commands|);
    forall k | 0 <= k < |expected|
      ensures m.payments[k].address == expected[k].address && m.payments[k].coinType == expected[k].coinType
      ensures m.payments[k].amount == expected[k].amount + DriftOf(m, origins[k])
    {
      assert PaymentFits(m, m.payments[k], expected[k], origins[k], |data.commands|);
    }
  }
}
