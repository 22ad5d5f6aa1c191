/**
 * The transaction runner of src/renderer/coreapp/tx-runner/run-txs.tsx, as a pure
 * reference definition: given what every collaborator answers (the oracles), the
 * run produces one trace of observable events — React state updates, calls with a
 * network effect, the kit and transport teardown and the `onFinish` call — and
 * one outcome. The imperative runner in module RunTxs is proved to produce exactly
 * this trace; the lemmas below state what the trace guarantees.
 */
module RunTxsSpec {
  import opened Wrappers

  datatype Stage = Preparing | Confirming | Sending | Finishing

  /** Only "local" accounts go through the confirm/cancel dialog. */
  datatype AccountKind = Local | Ledger

  datatype Account = Account(address: string, kind: AccountKind)

  /** What `createWallet` returns: the signer's addresses and whether a device transport is open. */
  datatype Wallet = Wallet(accounts: seq<string>, hasTransport: bool)

  /** A transaction produced by `txFunc`: a handle that stands for its chain call. */
  datatype Tx = Tx(handle: nat)

  datatype ParsedTx = ParsedTx(contractAddress: string, contractName: string)

  datatype Receipt = Receipt(transactionHash: string, blockNumber: nat)

  /** The fee shown for a transaction; the displayed CELO amount is `estimatedFeeWei * 10^-18`. */
  datatype EstimatedFee = EstimatedFee(estimatedGas: nat, feeCurrency: string, estimatedFeeWei: nat)

  datatype Error =
    | CreateWalletFailed
    | UnexpectedAccount(expected: string, got: Option<string>)
    | NewKitFailed
    | GetIdFailed
    | UnexpectedNetworkId(expectedId: string, gotId: string)
    | TxFuncFailed
    | NoTransactions
    | ParseFailed(idx: nat)
    | EstimateGasFailed(idx: nat)
    | GasPriceFailed(idx: nat)
    | TXCancelled
    | SendFailed(idx: nat)
    | GetHashFailed(idx: nat)
    | WaitReceiptFailed(idx: nat)

  /** The arguments of the single `onFinish` call. */
  datatype Outcome = Failed(error: Error) | Succeeded(receipts: seq<Receipt>)

  /**
   * The answers of the collaborators. Per-transaction answers are indexed by the
   * transaction's position, so the answer for one call may differ from the next
   * (gas price drift, a user who confirms the first transaction and cancels the second).
   */
  datatype Oracles = Oracles(
    createWallet: Option<Wallet>,
    newKit: bool,
    getId: Option<string>,
    txFunc: Option<seq<Tx>>,
    parseTransaction: nat -> Option<ParsedTx>,
    estimateGas: nat -> Option<nat>,
    gasPrice: nat -> Option<nat>,
    confirmed: nat -> bool,
    send: nat -> bool,
    getHash: nat -> Option<string>,
    sendMS: nat -> int,
    timerNows: nat -> seq<int>,
    waitReceipt: nat -> Option<Receipt>)

  datatype Event =
    | KitBuilt
    | TxFuncCalled
    | PreparedSet(prepared: seq<ParsedTx>)
    | EstimateRequested(idx: nat)
    | CurrentTXSet(idx: nat, fee: EstimatedFee)
    | StageSet(stage: Stage)
    | SendMSSet(ms: int)
    | ProgressSet(progress: int)
    | Confirmed(idx: nat)
    | Cancelled(idx: nat)
    | Sent(idx: nat, tx: Tx, gas: nat)
    | HashReceived(idx: nat, hash: string)
    | ReceiptReceived(idx: nat, receipt: Receipt)
    | KitStopped
    | TransportClosed
    | Finished(outcome: Outcome)

  // ---------------------------------------------------------------------------
  // Identity guard

  function LowerChar(c: char): char
  {
    if 'A' <= c <= 'Z' then (c as int + 32) as char else c
  }

  /** `toLowerCase()` on ASCII letters. */
  function ToLower(s: string): (r: string)
    ensures |r| == |s|
    ensures forall k :: 0 <= k < |s| ==> r[k] == LowerChar(s[k])
  {
    if s == [] then [] else [LowerChar(s[0])] + ToLower(s[1..])
  }

  /** Case-insensitive equality, letter by letter. */
  predicate SameIgnoringCase(a: string, b: string)
  {
    |a| == |b| && forall k :: 0 <= k < |a| ==> LowerChar(a[k]) == LowerChar(b[k])
  }

  lemma ToLowerEqual(a: string, b: string)
    ensures ToLower(a) == ToLower(b) <==> SameIgnoringCase(a, b)
  {
    if SameIgnoringCase(a, b) {
      assert forall k :: 0 <= k < |a| ==> ToLower(a)[k] == ToLower(b)[k];
    }
  }

  /** The account check of the wallet: exactly one account, equal to the selected address. */
  function AccountGuard(accounts: seq<string>, address: string): Option<Error>
  {
    if |accounts| != 1 || ToLower(accounts[0]) != ToLower(address) then
      Some(UnexpectedAccount(address, if |accounts| > 0 then Some(accounts[0]) else None))
    else None
  }

  lemma AccountGuardPasses(accounts: seq<string>, address: string)
    ensures AccountGuard(accounts, address).None? <==>
      |accounts| == 1 && SameIgnoringCase(accounts[0], address)
    ensures AccountGuard(accounts, address).Some? ==>
      AccountGuard(accounts, address).value ==
        UnexpectedAccount(address, if accounts == [] then None else Some(accounts[0]))
  {
    if |accounts| == 1 {
      ToLowerEqual(accounts[0], address);
    }
  }

  // ---------------------------------------------------------------------------
  // Fee and progress

  function FeeFor(gas: nat, price: nat): EstimatedFee
  {
    EstimatedFee(gas, "CELO", gas * price)
  }

  function Min(a: int, b: int): int { if a <= b then a else b }
  function Max(a: int, b: int): int { if a >= b then a else b }

  /** The timer's reading: no progress before the send time is known, then linear over 5 s, capped at 99. */
  function TimerValue(sendMS: int, now: int): (p: int)
    ensures p <= 99
    ensures sendMS == 0 ==> p == 0
    ensures sendMS != 0 && sendMS <= now ==> 0 <= p
  {
    if sendMS == 0 then 0 else Min(99, (now - sendMS) * 100 / 5000)
  }

  lemma TimerValueMonotone(sendMS: int, now1: int, now2: int)
    requires now1 <= now2
    ensures TimerValue(sendMS, now1) <= TimerValue(sendMS, now2)
  {
    if sendMS != 0 {
      var x, y := (now1 - sendMS) * 100, (now2 - sendMS) * 100;
      assert x <= y;
      assert x / 5000 <= y / 5000;
    }
  }

  /** The progress updates of the timer firing at the clock readings `nows`, starting from `p`. */
  function TickEvents(sendMS: int, p: int, nows: seq<int>): seq<Event>
    decreases |nows|
  {
    if nows == [] then []
    else
      var q := Max(p, TimerValue(sendMS, nows[0]));
      [ProgressSet(q)] + TickEvents(sendMS, q, nows[1..])
  }

  /** Under the timer, progress never decreases and never passes 99. */
  lemma {:induction false} TickEventsMonotone(sendMS: int, p: int, nows: seq<int>)
    requires 0 <= p <= 99
    decreases |nows|
    ensures |TickEvents(sendMS, p, nows)| == |nows|
    ensures forall k :: 0 <= k < |nows| ==>
      TickEvents(sendMS, p, nows)[k].ProgressSet? &&
      p <= TickEvents(sendMS, p, nows)[k].progress <= 99
    ensures forall k :: 0 < k < |nows| ==>
      TickEvents(sendMS, p, nows)[k - 1].progress <= TickEvents(sendMS, p, nows)[k].progress
  {
    if nows != [] {
      var q := Max(p, TimerValue(sendMS, nows[0]));
      TickEventsMonotone(sendMS, q, nows[1..]);
      var e := TickEvents(sendMS, p, nows);
      assert e == [ProgressSet(q)] + TickEvents(sendMS, q, nows[1..]);
      forall k | 0 < k < |nows|
        ensures e[k - 1].progress <= e[k].progress
      {
        if k > 1 {
          assert e[k - 1] == TickEvents(sendMS, q, nows[1..])[k - 2];
        }
      }
    }
  }

  // ---------------------------------------------------------------------------
  // One transaction of the loop

  datatype StepResult = Done(receipt: Receipt) | Aborted(error: Error)

  datatype StepOut = StepOut(events: seq<Event>, result: StepResult)

  /** After the send call: its result, the hash, then the receipt awaited under the timer. */
  function Submit(o: Oracles, i: nat): StepOut
  {
    if !o.send(i) then StepOut([], Aborted(SendFailed(i)))
    else
      match o.getHash(i)
      case None => StepOut([], Aborted(GetHashFailed(i)))
      case Some(hash) =>
        var waiting := [HashReceived(i, hash), StageSet(Sending), SendMSSet(o.sendMS(i))] +
          TickEvents(o.sendMS(i), 0, o.timerNows(i));
        match o.waitReceipt(i)
        case None => StepOut(waiting, Aborted(WaitReceiptFailed(i)))
        case Some(r) => StepOut(waiting + [ReceiptReceived(i, r), ProgressSet(100)], Done(r))
  }

  /** Iteration `i` of the send loop: estimate, show the fee, the confirmation gate, the send, then Submit. */
  function Step(o: Oracles, kind: AccountKind, i: nat, tx: Tx): StepOut
  {
    var requested := [EstimateRequested(i)];
    match o.estimateGas(i)
    case None => StepOut(requested, Aborted(EstimateGasFailed(i)))
    case Some(gas) =>
      match o.gasPrice(i)
      case None => StepOut(requested, Aborted(GasPriceFailed(i)))
      case Some(price) =>
        var shown := requested +
          [CurrentTXSet(i, FeeFor(gas, price)), SendMSSet(0), ProgressSet(0), StageSet(Confirming)];
        if kind == Local && !o.confirmed(i) then
          StepOut(shown + [Cancelled(i), StageSet(Sending)], Aborted(TXCancelled))
        else
          var gated := shown + (if kind == Local then [Confirmed(i), StageSet(Sending)] else []);
          var rest := Submit(o, i);
          StepOut(gated + [Sent(i, tx, gas)] + rest.events, rest.result)
  }

  // ---------------------------------------------------------------------------
  // The loops

  /** The prepare pass from index `i` on: the parsed transactions, or the first parse failure. */
  function ParseFrom(o: Oracles, n: nat, i: nat): Result<seq<ParsedTx>, Error>
    requires i <= n
    decreases n - i
  {
    if i == n then Ok([])
    else
      match o.parseTransaction(i)
      case None => Err(ParseFailed(i))
      case Some(p) =>
        match ParseFrom(o, n, i + 1)
        case Ok(rest) => Ok([p] + rest)
        case Err(e) => Err(e)
  }

  datatype LoopOut = LoopOut(events: seq<Event>, receipts: seq<Receipt>, failure: Option<Error>)

  /** The send loop from index `i` on: it stops at the first transaction that does not end in a receipt. */
  function LoopFrom(o: Oracles, kind: AccountKind, txs: seq<Tx>, i: nat): LoopOut
    requires i <= |txs|
    decreases |txs| - i
  {
    if i == |txs| then LoopOut([], [], None)
    else
      var s := Step(o, kind, i, txs[i]);
      match s.result
      case Aborted(e) => LoopOut(s.events, [], Some(e))
      case Done(r) =>
        var rest := LoopFrom(o, kind, txs, i + 1);
        LoopOut(s.events + rest.events, [r] + rest.receipts, rest.failure)
  }

  // ---------------------------------------------------------------------------
  // The whole run

  datatype KitOut = KitOut(events: seq<Event>, outcome: Outcome)

  /** A non-empty batch: the prepare pass, then the send loop, then the "finishing" stage and `onFinish`. */
  function BatchSpec(o: Oracles, kind: AccountKind, txs: seq<Tx>): KitOut
  {
    match ParseFrom(o, |txs|, 0)
    case Err(e) => KitOut([], Failed(e))
    case Ok(parsed) =>
      var loop := LoopFrom(o, kind, txs, 0);
      var events := [PreparedSet(parsed)] + loop.events;
      match loop.failure
      case Some(e) => KitOut(events, Failed(e))
      case None =>
        KitOut(events + [StageSet(Finishing), Finished(Succeeded(loop.receipts))], Succeeded(loop.receipts))
  }

  /** The body of the inner `try`: everything between building the kit and its teardown. */
  function KitBody(o: Oracles, kind: AccountKind, networkId: string): KitOut
  {
    match o.getId
    case None => KitOut([], Failed(GetIdFailed))
    case Some(id) =>
      if id != networkId then KitOut([], Failed(UnexpectedNetworkId(networkId, id)))
      else
        match o.txFunc
        case None => KitOut([TxFuncCalled], Failed(TxFuncFailed))
        case Some(txs) =>
          if |txs| == 0 then KitOut([TxFuncCalled], Failed(NoTransactions))
          else
            var batch := BatchSpec(o, kind, txs);
            KitOut([TxFuncCalled] + batch.events, batch.outcome)
  }

  /** The `finally` block: stop the kit, close the device transport when there is one. */
  function Cleanup(w: Wallet): seq<Event>
  {
    [KitStopped] + (if w.hasTransport then [TransportClosed] else [])
  }

  datatype RunOut = RunOut(events: seq<Event>, outcome: Outcome)

  /** The effect of run-txs.tsx: guards, kit, prepare pass, send loop, teardown, one `onFinish`. */
  function RunSpec(o: Oracles, account: Account, networkId: string, spectronNetworkId: string): RunOut
  {
    match o.createWallet
    case None => RunOut([Finished(Failed(CreateWalletFailed))], Failed(CreateWalletFailed))
    case Some(w) =>
      var guard := if networkId != spectronNetworkId then AccountGuard(w.accounts, account.address) else None;
      if guard.Some? then RunOut([Finished(Failed(guard.value))], Failed(guard.value))
      else if !o.newKit then RunOut([Finished(Failed(NewKitFailed))], Failed(NewKitFailed))
      else
        var body := KitBody(o, account.kind, networkId);
        match body.outcome
        case Failed(e) => RunOut([KitBuilt] + body.events + Cleanup(w) + [Finished(Failed(e))], Failed(e))
        case Succeeded(r) => RunOut([KitBuilt] + body.events + Cleanup(w), Succeeded(r))
  }
}
