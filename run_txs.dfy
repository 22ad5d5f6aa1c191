/**
 * The transaction runner of src/renderer/coreapp/tx-runner/run-txs.tsx as a stateful
 * object. Its fields are the component's React state (`stage`, `currentTX`,
 * `preparedTXs`, `txSendMS`, `txProgress`), the receipt list `r` of the effect, the
 * teardown flags and the `onFinish` calls. The ghost `trace` records every
 * observable step; every state field holds the value its latest setter event in the
 * trace carries (`Mirrors`), and `Run` is proved to record exactly the trace of
 * RunTxsSpec.RunSpec.
 */
module RunTxs {
  import opened Wrappers
  import opened RunTxsSpec

  /** `currentTX` without its confirm/cancel callbacks, which are the `confirmed` oracle here. */
  datatype CurrentTX = CurrentTX(idx: nat, estimatedFee: EstimatedFee)

  // ---------------------------------------------------------------------------
  // The state a trace leaves behind

  /** The React state of the dialog. */
  datatype UiState = UiState(
    stage: Stage, currentTX: Option<CurrentTX>, preparedTXs: seq<ParsedTx>, txSendMS: int, progress: int)

  const InitialUi := UiState(Preparing, None, [], 0, 0)

  /** The effect of one event on the React state: setter events replace their field. */
  function Apply(s: UiState, e: Event): UiState
  {
    match e
    case StageSet(x) => s.(stage := x)
    case CurrentTXSet(i, fee) => s.(currentTX := Some(CurrentTX(i, fee)))
    case PreparedSet(ps) => s.(preparedTXs := ps)
    case SendMSSet(ms) => s.(txSendMS := ms)
    case ProgressSet(p) => s.(progress := p)
    case _ => s
  }

  /** The React state after the events of `ev`, starting from the first render's state. */
  function StateAfter(ev: seq<Event>): UiState
    decreases |ev|
  {
    if ev == [] then InitialUi else Apply(StateAfter(ev[..|ev| - 1]), ev[|ev| - 1])
  }

  lemma StateAfterSnoc(ev: seq<Event>, e: Event)
    ensures StateAfter(ev + [e]) == Apply(StateAfter(ev), e)
  {
    assert (ev + [e])[..|ev|] == ev;
  }

  /** An event that is no setter call. */
  predicate Untracked(e: Event)
  {
    !e.StageSet? && !e.ProgressSet? && !e.SendMSSet? && !e.PreparedSet? && !e.CurrentTXSet?
  }

  class Runner {
    const account: Account
    /** The network id the configuration expects. */
    const networkId: string
    /** The id of the local test network on which the account check is skipped. */
    const spectronNetworkId: string

    var stage: Stage
    var currentTX: Option<CurrentTX>
    var preparedTXs: seq<ParsedTx>
    var txSendMS: int
    var progress: int
    var receipts: seq<Receipt>
    var kitStopped: bool
    var transportClosed: bool
    var finishCalls: seq<Outcome>
    ghost var trace: seq<Event>

    /** The state of the component on its first render, before the effect runs. */
    ghost predicate Initial()
      reads this
    {
      && stage == Preparing && currentTX == None && preparedTXs == [] && txSendMS == 0 && progress == 0
      && receipts == [] && !kitStopped && !transportClosed && finishCalls == [] && trace == []
    }

    /** The React state fields hold what the setter calls in the trace left, or their first-render values. */
    ghost predicate Mirrors()
      reads this`stage, this`currentTX, this`preparedTXs, this`txSendMS, this`progress, this`trace
    {
      UiState(stage, currentTX, preparedTXs, txSendMS, progress) == StateAfter(trace)
    }

    constructor (account: Account, networkId: string, spectronNetworkId: string)
      ensures this.account == account && this.networkId == networkId
      ensures this.spectronNetworkId == spectronNetworkId
      ensures Initial() && Mirrors()
    {
      this.account := account;
      this.networkId := networkId;
      this.spectronNetworkId := spectronNetworkId;
      stage := Preparing;
      currentTX := None;
      preparedTXs := [];
      txSendMS := 0;
      progress := 0;
      receipts := [];
      kitStopped := false;
      transportClosed := false;
      finishCalls := [];
      trace := [];
    }

    // -------------------------------------------------------------------------
    // The React setters, and the other observable steps

    /** `setStage`. */
    method SetStage(s: Stage)
      requires Mirrors()
      modifies this`stage, this`trace
      ensures stage == s && trace == old(trace) + [StageSet(s)] && Mirrors()
    {
      StateAfterSnoc(trace, StageSet(s));
      stage, trace := s, trace + [StageSet(s)];
    }

    /** `setTXProgress`. */
    method SetProgress(p: int)
      requires Mirrors()
      modifies this`progress, this`trace
      ensures progress == p && trace == old(trace) + [ProgressSet(p)] && Mirrors()
    {
      StateAfterSnoc(trace, ProgressSet(p));
      progress, trace := p, trace + [ProgressSet(p)];
    }

    /** `setTXSendMS`. */
    method SetSendMS(ms: int)
      requires Mirrors()
      modifies this`txSendMS, this`trace
      ensures txSendMS == ms && trace == old(trace) + [SendMSSet(ms)] && Mirrors()
    {
      StateAfterSnoc(trace, SendMSSet(ms));
      txSendMS, trace := ms, trace + [SendMSSet(ms)];
    }

    /** `setPreparedTXs`. */
    method SetPrepared(parsed: seq<ParsedTx>)
      requires Mirrors()
      modifies this`preparedTXs, this`trace
      ensures preparedTXs == parsed && trace == old(trace) + [PreparedSet(parsed)] && Mirrors()
    {
      StateAfterSnoc(trace, PreparedSet(parsed));
      preparedTXs, trace := parsed, trace + [PreparedSet(parsed)];
    }

    /** `setCurrentTX`. */
    method SetCurrentTX(idx: nat, fee: EstimatedFee)
      requires Mirrors()
      modifies this`currentTX, this`trace
      ensures currentTX == Some(CurrentTX(idx, fee)) && trace == old(trace) + [CurrentTXSet(idx, fee)] && Mirrors()
    {
      StateAfterSnoc(trace, CurrentTXSet(idx, fee));
      currentTX, trace := Some(CurrentTX(idx, fee)), trace + [CurrentTXSet(idx, fee)];
    }

    /** An observable step that sets no React state. */
    method Record(e: Event)
      requires Mirrors() && Untracked(e)
      modifies this`trace
      ensures trace == old(trace) + [e] && Mirrors()
    {
      StateAfterSnoc(trace, e);
      trace := trace + [e];
    }

    /** `onFinish`. */
    method Finish(outcome: Outcome)
      requires Mirrors()
      modifies this`finishCalls, this`trace
      ensures finishCalls == old(finishCalls) + [outcome]
      ensures trace == old(trace) + [Finished(outcome)] && Mirrors()
    {
      finishCalls := finishCalls + [outcome];
      Record(Finished(outcome));
    }

    /** One firing of the 200 ms interval timer; the timer only runs while the stage is "sending". */
    method Tick(now: int)
      requires Mirrors()
      modifies this`progress, this`trace
      ensures stage != Sending ==> progress == old(progress) && trace == old(trace)
      ensures stage == Sending ==> progress == Max(old(progress), TimerValue(txSendMS, now))
      ensures stage == Sending ==> trace == old(trace) + [ProgressSet(progress)]
      ensures Mirrors()
    {
      if stage == Sending {
        SetProgress(Max(progress, TimerValue(txSendMS, now)));
      }
    }

    // -------------------------------------------------------------------------
    // The effect

    /** The whole effect: `createWallet`, the account check, `newKit`, the inner `try`/`finally`, the `catch`. */
    method Run(o: Oracles)
      requires Initial()
      modifies this
      ensures trace == RunSpec(o, account, networkId, spectronNetworkId).events && Mirrors()
      ensures finishCalls == [RunSpec(o, account, networkId, spectronNetworkId).outcome]
      ensures kitStopped <==> KitBuilt in trace
      ensures transportClosed <==> KitBuilt in trace && o.createWallet.Some? && o.createWallet.value.hasTransport
      ensures RunSpec(o, account, networkId, spectronNetworkId).outcome.Succeeded? ==>
        stage == Finishing && receipts == RunSpec(o, account, networkId, spectronNetworkId).outcome.receipts
    {
      assert Mirrors();
      if o.createWallet.None? {
        Finish(Failed(CreateWalletFailed));
        return;
      }
      var w := o.createWallet.value;
      if networkId != spectronNetworkId {
        var guard := AccountGuard(w.accounts, account.address);
        if guard.Some? {
          Finish(Failed(guard.value));
          return;
        }
      }
      if !o.newKit {
        Finish(Failed(NewKitFailed));
        return;
      }
      RunKit(o, w);
    }

    /**
     * A built kit: the inner `try`, the `finally` that stops the kit and closes the device
     * transport, and the `catch` that reports a thrown error through `onFinish`.
     */
    method RunKit(o: Oracles, w: Wallet)
      requires Initial()
      modifies this
      ensures var body := KitBody(o, account.kind, networkId);
        trace == [KitBuilt] + body.events + Cleanup(w) + (if body.outcome.Failed? then [Finished(body.outcome)] else [])
      ensures finishCalls == [KitBody(o, account.kind, networkId).outcome] && Mirrors()
      ensures kitStopped && transportClosed == w.hasTransport
      ensures KitBody(o, account.kind, networkId).outcome.Succeeded? ==>
        stage == Finishing && receipts == KitBody(o, account.kind, networkId).outcome.receipts
    {
      assert Mirrors();
      Record(KitBuilt);
      var failure := RunWithKit(o);
      // finally
      Teardown(w);
      // catch
      if failure.Some? {
        Finish(Failed(failure.value));
      }
    }

    /** The `finally` block: `kit.stop()`, then close the device transport when the wallet has one. */
    method Teardown(w: Wallet)
      requires Mirrors()
      modifies this`kitStopped, this`transportClosed, this`trace
      ensures trace == old(trace) + Cleanup(w) && Mirrors()
      ensures kitStopped && transportClosed == (old(transportClosed) || w.hasTransport)
    {
      CleanupShape(w, trace);
      Record(KitStopped);
      kitStopped := true;
      if w.hasTransport {
        Record(TransportClosed);
        transportClosed := true;
      }
    }

    /** The inner `try` block; a thrown error is returned for the `finally` and `catch` of Run. */
    method RunWithKit(o: Oracles) returns (failure: Option<Error>)
      requires Mirrors()
      modifies this`stage, this`currentTX, this`preparedTXs, this`txSendMS, this`progress
      modifies this`receipts, this`finishCalls, this`trace
      ensures trace == old(trace) + KitBody(o, account.kind, networkId).events && Mirrors()
      ensures KitBody(o, account.kind, networkId).outcome.Failed? ==>
        failure == Some(KitBody(o, account.kind, networkId).outcome.error) && finishCalls == old(finishCalls)
      ensures KitBody(o, account.kind, networkId).outcome.Succeeded? ==>
        && failure == None
        && finishCalls == old(finishCalls) + [KitBody(o, account.kind, networkId).outcome]
        && stage == Finishing
        && receipts == KitBody(o, account.kind, networkId).outcome.receipts
    {
      var id := o.getId;
      if id.None? {
        return Some(GetIdFailed);
      }
      if id.value != networkId {
        return Some(UnexpectedNetworkId(networkId, id.value));
      }
      Record(TxFuncCalled);
      if o.txFunc.None? {
        return Some(TxFuncFailed);
      }
      var txs := o.txFunc.value;
      if |txs| == 0 {
        return Some(NoTransactions);
      }
      KitBodyBatch(o, account.kind, networkId, old(trace));
      failure := RunBatch(o, txs);
    }

    /** A non-empty batch: prepare pass, send loop, "finishing" and the success `onFinish`. */
    method RunBatch(o: Oracles, txs: seq<Tx>) returns (failure: Option<Error>)
      requires Mirrors()
      modifies this`stage, this`currentTX, this`preparedTXs, this`txSendMS, this`progress
      modifies this`receipts, this`finishCalls, this`trace
      ensures trace == old(trace) + BatchSpec(o, account.kind, txs).events && Mirrors()
      ensures BatchSpec(o, account.kind, txs).outcome.Failed? ==>
        failure == Some(BatchSpec(o, account.kind, txs).outcome.error) && finishCalls == old(finishCalls)
      ensures BatchSpec(o, account.kind, txs).outcome.Succeeded? ==>
        && failure == None
        && finishCalls == old(finishCalls) + [BatchSpec(o, account.kind, txs).outcome]
        && stage == Finishing
        && receipts == BatchSpec(o, account.kind, txs).outcome.receipts
    {
      var parsed := PrepareAndShow(o, |txs|);
      if parsed.Err? {
        return Some(parsed.error);
      }
      BatchSpecSent(o, account.kind, txs, old(trace));
      failure := SendThenConclude(o, txs);
    }

    /** The prepare pass, and `setPreparedTXs` with its result when every transaction parsed. */
    method PrepareAndShow(o: Oracles, n: nat) returns (parsed: Result<seq<ParsedTx>, Error>)
      requires Mirrors()
      modifies this`preparedTXs, this`trace
      ensures parsed == ParseFrom(o, n, 0) && Mirrors()
      ensures trace == old(trace) + (if parsed.Ok? then [PreparedSet(parsed.value)] else [])
    {
      parsed := Prepare(o, n);
      if parsed.Ok? {
        SetPrepared(parsed.value);
      }
    }

    /** The send loop, then, when every transaction has its receipt, "finishing" and `onFinish`. */
    method SendThenConclude(o: Oracles, txs: seq<Tx>) returns (failure: Option<Error>)
      requires Mirrors()
      modifies this`stage, this`currentTX, this`txSendMS, this`progress
      modifies this`receipts, this`finishCalls, this`trace
      ensures failure == LoopFrom(o, account.kind, txs, 0).failure
      ensures receipts == LoopFrom(o, account.kind, txs, 0).receipts && Mirrors()
      ensures trace == old(trace) + LoopFrom(o, account.kind, txs, 0).events +
        (if failure.None? then [StageSet(Finishing), Finished(Succeeded(receipts))] else [])
      ensures failure.Some? ==> finishCalls == old(finishCalls)
      ensures failure.None? ==> finishCalls == old(finishCalls) + [Succeeded(receipts)] && stage == Finishing
    {
      failure := SendAll(o, txs);
      if failure.None? {
        Conclude();
      }
    }

    /** Every transaction has its receipt: stage "finishing", then `onFinish` with the receipts. */
    method Conclude()
      requires Mirrors()
      modifies this`stage, this`finishCalls, this`trace
      ensures trace == old(trace) + [StageSet(Finishing), Finished(Succeeded(receipts))]
      ensures finishCalls == old(finishCalls) + [Succeeded(receipts)] && stage == Finishing && Mirrors()
    {
      SetStage(Finishing);
      Finish(Succeeded(receipts));
    }

    /** The prepare pass: `parseTransaction` for every transaction, in order. */
    method Prepare(o: Oracles, n: nat) returns (result: Result<seq<ParsedTx>, Error>)
      ensures result == ParseFrom(o, n, 0)
    {
      var parsed: seq<ParsedTx> := [];
      var i := 0;
      if ParseFrom(o, n, 0).Ok? {
        assert parsed + ParseFrom(o, n, 0).value == ParseFrom(o, n, 0).value;
      }
      while i < n
        invariant 0 <= i <= n && |parsed| == i
        invariant ParseFrom(o, n, 0) == Prepend(parsed, ParseFrom(o, n, i))
      {
        PrependStep(o, n, i, parsed);
        var p := o.parseTransaction(i);
        if p.None? {
          return Err(ParseFailed(i));
        }
        parsed := parsed + [p.value];
        i := i + 1;
      }
      assert parsed + [] == parsed;
      return Ok(parsed);
    }

    /** The send loop: one RunTx per transaction, in order, until one does not end in a receipt. */
    method SendAll(o: Oracles, txs: seq<Tx>) returns (failure: Option<Error>)
      requires Mirrors()
      modifies this`stage, this`currentTX, this`txSendMS, this`progress, this`receipts, this`trace
      ensures trace == old(trace) + LoopFrom(o, account.kind, txs, 0).events && Mirrors()
      ensures receipts == LoopFrom(o, account.kind, txs, 0).receipts
      ensures failure == LoopFrom(o, account.kind, txs, 0).failure
    {
      ghost var whole := LoopFrom(o, account.kind, txs, 0);
      receipts := [];
      assert receipts + whole.receipts == whole.receipts && old(trace) + whole.events == trace + whole.events;
      var idx := 0;
      while idx < |txs|
        invariant 0 <= idx <= |txs| && Mirrors()
        invariant old(trace) + whole.events == trace + LoopFrom(o, account.kind, txs, idx).events
        invariant whole.receipts == receipts + LoopFrom(o, account.kind, txs, idx).receipts
        invariant whole.failure == LoopFrom(o, account.kind, txs, idx).failure
      {
        ghost var here := trace;
        var result := RunTx(o, idx, txs[idx]);
        if result.Aborted? {
          LoopAborts(o, account.kind, txs, idx);
          return Some(result.error);
        }
        LoopAdvances(o, account.kind, txs, idx, here, receipts);
        receipts := receipts + [result.receipt];
        idx := idx + 1;
      }
      assert trace + [] == trace && receipts + [] == receipts;
      return None;
    }

    /**
     * One iteration of the send loop, up to and including the confirmation gate. A
     * transaction that ends in a receipt leaves it current, with its send time, the stage
     * "sending" and progress 100; a cancelled one leaves the stage "sending".
     */
    method RunTx(o: Oracles, i: nat, tx: Tx) returns (result: StepResult)
      requires Mirrors()
      modifies this`stage, this`currentTX, this`txSendMS, this`progress, this`trace
      ensures trace == old(trace) + Step(o, account.kind, i, tx).events && Mirrors()
      ensures result == Step(o, account.kind, i, tx).result
      ensures result.Done? ==>
        && o.estimateGas(i).Some? && o.gasPrice(i).Some?
        && currentTX == Some(CurrentTX(i, FeeFor(o.estimateGas(i).value, o.gasPrice(i).value)))
        && stage == Sending && txSendMS == o.sendMS(i) && progress == 100
      ensures result == Aborted(TXCancelled) ==> stage == Sending && progress == 0 && txSendMS == 0
    {
      Record(EstimateRequested(i));
      var gas := o.estimateGas(i);
      if gas.None? {
        return Aborted(EstimateGasFailed(i));
      }
      var price := o.gasPrice(i);
      if price.None? {
        return Aborted(GasPriceFailed(i));
      }
      StepDelivered(o, account.kind, i, tx, old(trace));
      var go := Confirm(i, FeeFor(gas.value, price.value), o.confirmed(i));
      if !go {
        return Aborted(TXCancelled);
      }
      result := SendTx(o, i, tx, gas.value);
    }

    /**
     * Show transaction `i` with its fee, then, for a local account only, wait for the
     * dialog's answer: `go` is false exactly when a local account's user cancels.
     */
    method Confirm(i: nat, fee: EstimatedFee, confirmed: bool) returns (go: bool)
      requires Mirrors()
      modifies this`stage, this`currentTX, this`txSendMS, this`progress, this`trace
      ensures trace == old(trace) + [CurrentTXSet(i, fee), SendMSSet(0), ProgressSet(0), StageSet(Confirming)] +
        (if account.kind == Local then [if confirmed then Confirmed(i) else Cancelled(i), StageSet(Sending)] else [])
      ensures go == (account.kind != Local || confirmed)
      ensures currentTX == Some(CurrentTX(i, fee)) && txSendMS == 0 && progress == 0
      ensures stage == (if account.kind == Local then Sending else Confirming) && Mirrors()
    {
      ShowTx(i, fee);
      go := true;
      if account.kind == Local {
        go := Gate(i, confirmed);
      }
    }

    /** The send of iteration `i` with the estimated gas, then the hash and the receipt. */
    method SendTx(o: Oracles, i: nat, tx: Tx, gas: nat) returns (result: StepResult)
      requires Mirrors() && progress == 0
      modifies this`stage, this`txSendMS, this`progress, this`trace
      ensures trace == old(trace) + [Sent(i, tx, gas)] + Submit(o, i).events && Mirrors()
      ensures result == Submit(o, i).result
      ensures result.Done? ==> stage == Sending && txSendMS == o.sendMS(i) && progress == 100
    {
      SubmitShape(o, i, trace + [Sent(i, tx, gas)]);
      Record(Sent(i, tx, gas));
      if !o.send(i) {
        return Aborted(SendFailed(i));
      }
      var hash := o.getHash(i);
      if hash.None? {
        return Aborted(GetHashFailed(i));
      }
      MarkSending(i, hash.value, o.sendMS(i));
      WaitUnderTimer(o.timerNows(i));
      var receipt := o.waitReceipt(i);
      if receipt.None? {
        return Aborted(WaitReceiptFailed(i));
      }
      ReceiptArrived(i, receipt.value);
      return Done(receipt.value);
    }

    /** Show transaction `i` and its fee: `setCurrentTX`, reset the send time and progress, stage "confirming". */
    method ShowTx(i: nat, fee: EstimatedFee)
      requires Mirrors()
      modifies this`stage, this`currentTX, this`txSendMS, this`progress, this`trace
      ensures trace == old(trace) + [CurrentTXSet(i, fee), SendMSSet(0), ProgressSet(0), StageSet(Confirming)]
      ensures currentTX == Some(CurrentTX(i, fee)) && txSendMS == 0 && progress == 0 && stage == Confirming
      ensures Mirrors()
    {
      SetCurrentTX(i, fee);
      SetSendMS(0);
      SetProgress(0);
      SetStage(Confirming);
    }

    /** The confirmation gate of a local account: the dialog's confirm or cancel callback moves to "sending". */
    method Gate(i: nat, confirmed: bool) returns (ok: bool)
      requires Mirrors()
      modifies this`stage, this`trace
      ensures ok == confirmed && stage == Sending && Mirrors()
      ensures trace == old(trace) + [if confirmed then Confirmed(i) else Cancelled(i), StageSet(Sending)]
    {
      Record(if confirmed then Confirmed(i) else Cancelled(i));
      SetStage(Sending);
      return confirmed;
    }

    /** The hash is known: stage "sending", and the send time that starts the progress timer. */
    method MarkSending(i: nat, hash: string, ms: int)
      requires Mirrors()
      modifies this`stage, this`txSendMS, this`trace
      ensures trace == old(trace) + [HashReceived(i, hash), StageSet(Sending), SendMSSet(ms)]
      ensures stage == Sending && txSendMS == ms && Mirrors()
    {
      Record(HashReceived(i, hash));
      SetStage(Sending);
      SetSendMS(ms);
    }

    /** The receipt arrived: progress 100. */
    method ReceiptArrived(i: nat, receipt: Receipt)
      requires Mirrors()
      modifies this`progress, this`trace
      ensures trace == old(trace) + [ReceiptReceived(i, receipt), ProgressSet(100)]
      ensures progress == 100 && Mirrors()
    {
      Record(ReceiptReceived(i, receipt));
      SetProgress(100);
    }

    /** The timer firing at the clock readings `nows` while the receipt is awaited. */
    method WaitUnderTimer(nows: seq<int>)
      requires stage == Sending && Mirrors()
      modifies this`progress, this`trace
      ensures trace == old(trace) + TickEvents(txSendMS, old(progress), nows) && Mirrors()
    {
      var j := 0;
      while j < |nows|
        invariant 0 <= j <= |nows| && Mirrors()
        invariant old(trace) + TickEvents(txSendMS, old(progress), nows) ==
                  trace + TickEvents(txSendMS, progress, nows[j..])
      {
        TickEventsStep(txSendMS, progress, nows, j, trace);
        Tick(nows[j]);
        j := j + 1;
      }
    }
  }

  /** `parsed` in front of the rest of a prepare pass. */
  function Prepend(parsed: seq<ParsedTx>, r: Result<seq<ParsedTx>, Error>): Result<seq<ParsedTx>, Error>
  {
    match r
    case Ok(rest) => Ok(parsed + rest)
    case Err(e) => Err(e)
  }

  /** A kit body that reaches a non-empty batch, in the shape the runner appends it. */
  lemma KitBodyBatch(o: Oracles, kind: AccountKind, networkId: string, before: seq<Event>)
    requires o.getId == Some(networkId) && o.txFunc.Some? && |o.txFunc.value| > 0
    ensures KitBody(o, kind, networkId).outcome == BatchSpec(o, kind, o.txFunc.value).outcome
    ensures before + KitBody(o, kind, networkId).events ==
      before + [TxFuncCalled] + BatchSpec(o, kind, o.txFunc.value).events
  {
  }

  /** A batch whose prepare pass succeeds: `setPreparedTXs`, the send loop, and on success the tail. */
  lemma BatchSpecSent(o: Oracles, kind: AccountKind, txs: seq<Tx>, before: seq<Event>)
    requires ParseFrom(o, |txs|, 0).Ok?
    ensures var loop := LoopFrom(o, kind, txs, 0);
      BatchSpec(o, kind, txs).outcome ==
        if loop.failure.Some? then Failed(loop.failure.value) else Succeeded(loop.receipts)
    ensures var loop := LoopFrom(o, kind, txs, 0);
      before + BatchSpec(o, kind, txs).events ==
        before + [PreparedSet(ParseFrom(o, |txs|, 0).value)] + loop.events +
        (if loop.failure.None? then [StageSet(Finishing), Finished(Succeeded(loop.receipts))] else [])
  {
    var loop := LoopFrom(o, kind, txs, 0);
    var events := [PreparedSet(ParseFrom(o, |txs|, 0).value)] + loop.events;
    if loop.failure.None? {
      var tail := [StageSet(Finishing), Finished(Succeeded(loop.receipts))];
      assert BatchSpec(o, kind, txs) == KitOut(events + tail, Succeeded(loop.receipts));
      assert before + (events + tail) == before + [PreparedSet(ParseFrom(o, |txs|, 0).value)] + loop.events + tail;
    } else {
      assert BatchSpec(o, kind, txs) == KitOut(events, Failed(loop.failure.value));
      assert events + [] == events;
    }
  }

  /** Iteration `i` once its gas and gas price are known, in the shape the runner appends it. */
  lemma StepDelivered(o: Oracles, kind: AccountKind, i: nat, tx: Tx, before: seq<Event>)
    requires o.estimateGas(i).Some? && o.gasPrice(i).Some?
    ensures var gas, price := o.estimateGas(i).value, o.gasPrice(i).value;
      var shown := [CurrentTXSet(i, FeeFor(gas, price)), SendMSSet(0), ProgressSet(0), StageSet(Confirming)];
      var gate := if kind == Local then [if o.confirmed(i) then Confirmed(i) else Cancelled(i), StageSet(Sending)] else [];
      if kind == Local && !o.confirmed(i) then
        && before + Step(o, kind, i, tx).events == before + [EstimateRequested(i)] + shown + gate
        && Step(o, kind, i, tx).result == Aborted(TXCancelled)
      else
        && before + Step(o, kind, i, tx).events ==
           before + [EstimateRequested(i)] + shown + gate + [Sent(i, tx, gas)] + Submit(o, i).events
        && Step(o, kind, i, tx).result == Submit(o, i).result
  {
    var gas, price := o.estimateGas(i).value, o.gasPrice(i).value;
    var shown := [CurrentTXSet(i, FeeFor(gas, price)), SendMSSet(0), ProgressSet(0), StageSet(Confirming)];
    var gate := if kind == Local then [if o.confirmed(i) then Confirmed(i) else Cancelled(i), StageSet(Sending)] else [];
    var events := Step(o, kind, i, tx).events;
    if kind == Local && !o.confirmed(i) {
      assert events == [EstimateRequested(i)] + shown + gate;
    } else {
      assert events == [EstimateRequested(i)] + shown + gate + [Sent(i, tx, gas)] + Submit(o, i).events;
    }
  }

  /** The events after the send call, in the shape the runner appends them. */
  lemma SubmitShape(o: Oracles, i: nat, before: seq<Event>)
    ensures !o.send(i) || o.getHash(i).None? ==> before + Submit(o, i).events == before
    ensures o.send(i) && o.getHash(i).Some? ==>
      var waiting := before + [HashReceived(i, o.getHash(i).value), StageSet(Sending), SendMSSet(o.sendMS(i))] +
        TickEvents(o.sendMS(i), 0, o.timerNows(i));
      before + Submit(o, i).events ==
        if o.waitReceipt(i).None? then waiting
        else waiting + [ReceiptReceived(i, o.waitReceipt(i).value), ProgressSet(100)]
  {
    if !o.send(i) || o.getHash(i).None? {
      assert before + [] == before;
    }
  }

  /** The teardown events, in the shape the runner appends them. */
  lemma CleanupShape(w: Wallet, before: seq<Event>)
    ensures before + Cleanup(w) ==
      if w.hasTransport then before + [KitStopped] + [TransportClosed] else before + [KitStopped]
  {
    if w.hasTransport {
      assert Cleanup(w) == [KitStopped] + [TransportClosed];
    } else {
      assert Cleanup(w) == [KitStopped];
    }
  }

  /** One firing of the timer, in the shape the runner appends it. */
  lemma TickEventsStep(sendMS: int, p: int, nows: seq<int>, j: nat, before: seq<Event>)
    requires j < |nows|
    ensures var q := Max(p, TimerValue(sendMS, nows[j]));
      before + TickEvents(sendMS, p, nows[j..]) == before + [ProgressSet(q)] + TickEvents(sendMS, q, nows[j + 1..])
  {
    assert nows[j..][1..] == nows[j + 1..];
  }

  /** One more parsed transaction moves from the rest of the pass to the front. */
  lemma PrependStep(o: Oracles, n: nat, i: nat, parsed: seq<ParsedTx>)
    requires i < n
    ensures o.parseTransaction(i).Some? ==>
      Prepend(parsed, ParseFrom(o, n, i)) == Prepend(parsed + [o.parseTransaction(i).value], ParseFrom(o, n, i + 1))
    ensures o.parseTransaction(i).None? ==> Prepend(parsed, ParseFrom(o, n, i)) == Err(ParseFailed(i))
  {
    if o.parseTransaction(i).Some? && ParseFrom(o, n, i + 1).Ok? {
      var p, rest := o.parseTransaction(i).value, ParseFrom(o, n, i + 1).value;
      assert parsed + ([p] + rest) == (parsed + [p]) + rest;
    }
  }

  /** The send loop ends at a transaction that does not end in a receipt. */
  lemma LoopAborts(o: Oracles, kind: AccountKind, txs: seq<Tx>, i: nat)
    requires i < |txs| && Step(o, kind, i, txs[i]).result.Aborted?
    ensures LoopFrom(o, kind, txs, i) ==
      LoopOut(Step(o, kind, i, txs[i]).events, [], Some(Step(o, kind, i, txs[i]).result.error))
  {
  }

  /** After a receipt, the send loop goes on with the next transaction. */
  lemma LoopAdvances(o: Oracles, kind: AccountKind, txs: seq<Tx>, i: nat, before: seq<Event>, receipts: seq<Receipt>)
    requires i < |txs| && Step(o, kind, i, txs[i]).result.Done?
    ensures (before + Step(o, kind, i, txs[i]).events) + LoopFrom(o, kind, txs, i + 1).events ==
      before + LoopFrom(o, kind, txs, i).events
    ensures (receipts + [Step(o, kind, i, txs[i]).result.receipt]) + LoopFrom(o, kind, txs, i + 1).receipts ==
      receipts + LoopFrom(o, kind, txs, i).receipts
    ensures LoopFrom(o, kind, txs, i + 1).failure == LoopFrom(o, kind, txs, i).failure
  {
    var s, rest := Step(o, kind, i, txs[i]), LoopFrom(o, kind, txs, i + 1);
    assert LoopFrom(o, kind, txs, i) == LoopOut(s.events + rest.events, [s.result.receipt] + rest.receipts, rest.failure);
    assert before + (s.events + rest.events) == (before + s.events) + rest.events;
    assert receipts + ([s.result.receipt] + rest.receipts) == (receipts + [s.result.receipt]) + rest.receipts;
  }
}
