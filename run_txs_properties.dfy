/**
 * What the trace of a run guarantees: the identity and network guards stop the
 * run before anything is sent, the prepared list is published before the first
 * estimate, sends follow the input order with the estimated gas, local accounts
 * send only after a confirm, cancellation ends the run without undoing earlier
 * receipts, the kit and transport are torn down on every exit path after the kit
 * exists, `onFinish` is called exactly once, and the progress rule holds.
 */
module RunTxsProperties {
  import opened Wrappers
  import opened RunTxsSpec

  // ---------------------------------------------------------------------------
  // Event-by-event soundness

  /**
   * Event `k` of `ev` agrees with the oracles: a send uses the transaction's own
   * estimate and, for a local account, comes right after the confirm of the same
   * index and the stage "sending", while for a Ledger account it comes in the
   * "confirming" stage, in which the device shows its prompt; the user answers in
   * the "confirming" stage; a shown fee is gas times price in CELO; progress stays within 0..100
   * and reaches 100 only right after a receipt; only local accounts see the gate.
   */
  ghost predicate EventSound(o: Oracles, kind: AccountKind, txs: seq<Tx>, ev: seq<Event>, k: nat)
    requires k < |ev|
  {
    match ev[k]
    case Sent(i, tx, gas) =>
      && i < |txs| && tx == txs[i]
      && o.estimateGas(i) == Some(gas)
      && (kind == Local ==> k >= 2 && ev[k - 2] == Confirmed(i) && ev[k - 1] == StageSet(Sending))
      && (kind == Ledger ==> k >= 1 && ev[k - 1] == StageSet(Confirming))
    case CurrentTXSet(i, fee) =>
      && o.estimateGas(i) == Some(fee.estimatedGas) && o.gasPrice(i).Some?
      && fee.feeCurrency == "CELO" && fee.estimatedFeeWei == fee.estimatedGas * o.gasPrice(i).value
    case ProgressSet(p) => 0 <= p <= 100 && (p == 100 ==> k >= 1 && ev[k - 1].ReceiptReceived?)
    case Confirmed(i) => kind == Local && o.confirmed(i) && k >= 1 && ev[k - 1] == StageSet(Confirming)
    case Cancelled(i) => kind == Local && !o.confirmed(i) && k >= 1 && ev[k - 1] == StageSet(Confirming)
    case ReceiptReceived(i, r) => o.waitReceipt(i) == Some(r)
    case _ => true
  }

  ghost predicate Sound(o: Oracles, kind: AccountKind, txs: seq<Tx>, ev: seq<Event>)
  {
    forall k | 0 <= k < |ev| :: EventSound(o, kind, txs, ev, k)
  }

  lemma SoundConcat(o: Oracles, kind: AccountKind, txs: seq<Tx>, a: seq<Event>, b: seq<Event>)
    requires Sound(o, kind, txs, a) && Sound(o, kind, txs, b)
    ensures Sound(o, kind, txs, a + b)
  {
    var ab := a + b;
    forall k | 0 <= k < |ab|
      ensures EventSound(o, kind, txs, ab, k)
    {
      if k < |a| {
        assert EventSound(o, kind, txs, a, k);
        assert ab[k] == a[k];
        if k >= 1 { assert ab[k - 1] == a[k - 1]; }
        if k >= 2 { assert ab[k - 2] == a[k - 2]; }
      } else {
        var m := k - |a|;
        assert EventSound(o, kind, txs, b, m);
        assert ab[k] == b[m];
        if m >= 1 { assert ab[k - 1] == b[m - 1]; }
        if m >= 2 { assert ab[k - 2] == b[m - 2]; }
      }
    }
  }

  /** Events that say nothing about the oracles are sound anywhere. */
  ghost predicate Neutral(ev: seq<Event>)
  {
    forall k | 0 <= k < |ev| ::
      !(ev[k].Sent? || ev[k].CurrentTXSet? || ev[k].ProgressSet? || ev[k].Confirmed? ||
        ev[k].Cancelled? || ev[k].ReceiptReceived?)
  }

  lemma NeutralSound(o: Oracles, kind: AccountKind, txs: seq<Tx>, ev: seq<Event>)
    requires Neutral(ev)
    ensures Sound(o, kind, txs, ev)
  {
  }

  lemma TickEventsSound(o: Oracles, kind: AccountKind, txs: seq<Tx>, sendMS: int, nows: seq<int>)
    ensures Sound(o, kind, txs, TickEvents(sendMS, 0, nows))
  {
    TickEventsMonotone(sendMS, 0, nows);
  }

  lemma SubmitSound(o: Oracles, kind: AccountKind, txs: seq<Tx>, i: nat)
    ensures Sound(o, kind, txs, Submit(o, i).events)
  {
    if o.send(i) && o.getHash(i).Some? {
      var head := [HashReceived(i, o.getHash(i).value), StageSet(Sending), SendMSSet(o.sendMS(i))];
      var ticks := TickEvents(o.sendMS(i), 0, o.timerNows(i));
      NeutralSound(o, kind, txs, head);
      TickEventsSound(o, kind, txs, o.sendMS(i), o.timerNows(i));
      SoundConcat(o, kind, txs, head, ticks);
      if o.waitReceipt(i).Some? {
        var tail := [ReceiptReceived(i, o.waitReceipt(i).value), ProgressSet(100)];
        assert EventSound(o, kind, txs, tail, 1);
        SoundConcat(o, kind, txs, head + ticks, tail);
      }
    }
  }

  lemma StepSound(o: Oracles, kind: AccountKind, txs: seq<Tx>, i: nat)
    requires i < |txs|
    ensures Sound(o, kind, txs, Step(o, kind, i, txs[i]).events)
  {
    if o.estimateGas(i).Some? && o.gasPrice(i).Some? {
      var gas, price := o.estimateGas(i).value, o.gasPrice(i).value;
      var shown := [EstimateRequested(i), CurrentTXSet(i, FeeFor(gas, price)), SendMSSet(0), ProgressSet(0),
                    StageSet(Confirming)];
      assert Sound(o, kind, txs, shown) by {
        assert EventSound(o, kind, txs, shown, 1);
        assert EventSound(o, kind, txs, shown, 3);
      }
      if kind == Local && !o.confirmed(i) {
        var ev := shown + [Cancelled(i), StageSet(Sending)];
        forall k | 0 <= k < |ev| ensures EventSound(o, kind, txs, ev, k) {
          if k < |shown| {
            assert ev[k] == shown[k];
            assert EventSound(o, kind, txs, shown, k);
          }
        }
      } else {
        var gated := shown + (if kind == Local then [Confirmed(i), StageSet(Sending)] else []);
        var sent := gated + [Sent(i, txs[i], gas)];
        assert Sound(o, kind, txs, sent) by {
          forall k | 0 <= k < |sent| ensures EventSound(o, kind, txs, sent, k) {
            if k < |shown| {
              assert sent[k] == shown[k];
              assert EventSound(o, kind, txs, shown, k);
            }
          }
        }
        SubmitSound(o, kind, txs, i);
        SoundConcat(o, kind, txs, sent, Submit(o, i).events);
        assert Step(o, kind, i, txs[i]).events == sent + Submit(o, i).events;
      }
    }
  }

  lemma {:induction false} LoopSound(o: Oracles, kind: AccountKind, txs: seq<Tx>, i: nat)
    requires i <= |txs|
    decreases |txs| - i
    ensures Sound(o, kind, txs, LoopFrom(o, kind, txs, i).events)
  {
    if i < |txs| {
      StepSound(o, kind, txs, i);
      if Step(o, kind, i, txs[i]).result.Done? {
        LoopSound(o, kind, txs, i + 1);
        SoundConcat(o, kind, txs, Step(o, kind, i, txs[i]).events, LoopFrom(o, kind, txs, i + 1).events);
      }
    }
  }

  // ---------------------------------------------------------------------------
  // Which events the send loop produces, and in which order it sends

  /** The events that carry a transaction index. */
  predicate HasIdx(e: Event)
  {
    e.EstimateRequested? || e.CurrentTXSet? || e.Confirmed? || e.Cancelled? || e.Sent? ||
    e.HashReceived? || e.ReceiptReceived?
  }

  /** The events the send loop can produce: no lifecycle event, no prepare event, no "finishing". */
  predicate InLoop(e: Event)
  {
    HasIdx(e) || e.SendMSSet? || e.ProgressSet? || (e.StageSet? && e.stage in {Confirming, Sending})
  }

  /** Every event is a loop event, and indexed ones belong to transactions `lo` and later. */
  ghost predicate LoopEvents(ev: seq<Event>, lo: nat)
  {
    forall k | 0 <= k < |ev| :: InLoop(ev[k]) && (HasIdx(ev[k]) ==> lo <= ev[k].idx)
  }

  ghost predicate NoSent(ev: seq<Event>)
  {
    forall k | 0 <= k < |ev| :: !ev[k].Sent?
  }

  /** Sends happen in strictly increasing transaction order (so at most once per transaction). */
  ghost predicate SentOrdered(ev: seq<Event>)
  {
    forall a, b | 0 <= a < b < |ev| && ev[a].Sent? && ev[b].Sent? :: ev[a].idx < ev[b].idx
  }

  /** Indexed events never go back to an earlier transaction, so the current index never decreases. */
  ghost predicate IndexMonotone(ev: seq<Event>)
  {
    forall a, b | 0 <= a < b < |ev| && HasIdx(ev[a]) && HasIdx(ev[b]) :: ev[a].idx <= ev[b].idx
  }

  /** The stage never goes back to "preparing". */
  ghost predicate NoPreparing(ev: seq<Event>)
  {
    forall k | 0 <= k < |ev| :: ev[k] != StageSet(Preparing)
  }

  lemma IndexMonotoneConcat(a: seq<Event>, b: seq<Event>)
    requires IndexMonotone(a) && IndexMonotone(b)
    requires forall p, q | 0 <= p < |a| && 0 <= q < |b| && HasIdx(a[p]) && HasIdx(b[q]) :: a[p].idx <= b[q].idx
    ensures IndexMonotone(a + b)
  {
    var ab := a + b;
    forall x, y | 0 <= x < y < |ab| && HasIdx(ab[x]) && HasIdx(ab[y])
      ensures ab[x].idx <= ab[y].idx
    {
      if y < |a| {
        assert ab[x] == a[x] && ab[y] == a[y];
      } else if x >= |a| {
        assert ab[x] == b[x - |a|] && ab[y] == b[y - |a|];
      } else {
        assert ab[x] == a[x] && ab[y] == b[y - |a|];
      }
    }
  }

  lemma NoPreparingConcat(a: seq<Event>, b: seq<Event>)
    requires NoPreparing(a) && NoPreparing(b)
    ensures NoPreparing(a + b)
  {
    forall k | 0 <= k < |a + b|
      ensures (a + b)[k] != StageSet(Preparing)
    {
      if k < |a| { assert (a + b)[k] == a[k]; } else { assert (a + b)[k] == b[k - |a|]; }
    }
  }

  lemma LoopEventsConcat(a: seq<Event>, b: seq<Event>, lo: nat)
    requires LoopEvents(a, lo) && LoopEvents(b, lo)
    ensures LoopEvents(a + b, lo)
  {
    forall k | 0 <= k < |a + b|
      ensures InLoop((a + b)[k]) && (HasIdx((a + b)[k]) ==> lo <= (a + b)[k].idx)
    {
      if k < |a| { assert (a + b)[k] == a[k]; } else { assert (a + b)[k] == b[k - |a|]; }
    }
  }

  lemma SentOrderedConcat(a: seq<Event>, b: seq<Event>)
    requires SentOrdered(a) && SentOrdered(b)
    requires forall p, q | 0 <= p < |a| && 0 <= q < |b| && a[p].Sent? && b[q].Sent? :: a[p].idx < b[q].idx
    ensures SentOrdered(a + b)
  {
    var ab := a + b;
    forall x, y | 0 <= x < y < |ab| && ab[x].Sent? && ab[y].Sent?
      ensures ab[x].idx < ab[y].idx
    {
      if y < |a| {
        assert ab[x] == a[x] && ab[y] == a[y];
      } else if x >= |a| {
        assert ab[x] == b[x - |a|] && ab[y] == b[y - |a|];
      } else {
        assert ab[x] == a[x] && ab[y] == b[y - |a|];
      }
    }
  }

  /** Every event is a loop event of transaction `i`. */
  ghost predicate Own(ev: seq<Event>, i: nat)
  {
    forall k | 0 <= k < |ev| :: InLoop(ev[k]) && (HasIdx(ev[k]) ==> ev[k].idx == i)
  }

  lemma OwnConcat(a: seq<Event>, b: seq<Event>, i: nat)
    requires Own(a, i) && Own(b, i)
    ensures Own(a + b, i)
  {
    forall k | 0 <= k < |a + b|
      ensures InLoop((a + b)[k]) && (HasIdx((a + b)[k]) ==> (a + b)[k].idx == i)
    {
      if k < |a| { assert (a + b)[k] == a[k]; } else { assert (a + b)[k] == b[k - |a|]; }
    }
  }

  lemma NoSentConcat(a: seq<Event>, b: seq<Event>)
    requires NoSent(a) && NoSent(b)
    ensures NoSent(a + b)
  {
    forall k | 0 <= k < |a + b|
      ensures !(a + b)[k].Sent?
    {
      if k < |a| { assert (a + b)[k] == a[k]; } else { assert (a + b)[k] == b[k - |a|]; }
    }
  }

  lemma OneSent(a: seq<Event>, x: Event, b: seq<Event>)
    requires NoSent(a) && NoSent(b)
    ensures SentOrdered(a + [x] + b)
  {
    var ev := a + [x] + b;
    forall p | 0 <= p < |ev|
      ensures ev[p].Sent? ==> p == |a|
    {
      if p < |a| { assert ev[p] == a[p]; }
      else if p > |a| { assert ev[p] == b[p - |a| - 1]; }
    }
  }

  /** The submission and the wait produce only events of transaction `i`, and no send. */
  lemma SubmitEvents(o: Oracles, i: nat)
    ensures Own(Submit(o, i).events, i) && NoSent(Submit(o, i).events)
  {
    if o.send(i) && o.getHash(i).Some? {
      var head := [HashReceived(i, o.getHash(i).value), StageSet(Sending), SendMSSet(o.sendMS(i))];
      var ticks := TickEvents(o.sendMS(i), 0, o.timerNows(i));
      TickEventsMonotone(o.sendMS(i), 0, o.timerNows(i));
      assert Own(ticks, i) && NoSent(ticks);
      OwnConcat(head, ticks, i);
      NoSentConcat(head, ticks);
      if o.waitReceipt(i).Some? {
        var tail := [ReceiptReceived(i, o.waitReceipt(i).value), ProgressSet(100)];
        OwnConcat(head + ticks, tail, i);
        NoSentConcat(head + ticks, tail);
      }
    }
  }

  /** One iteration: only events of transaction `i`, and at most one send. */
  lemma StepEvents(o: Oracles, kind: AccountKind, i: nat, tx: Tx)
    ensures Own(Step(o, kind, i, tx).events, i)
    ensures SentOrdered(Step(o, kind, i, tx).events)
  {
    var ev := Step(o, kind, i, tx).events;
    if o.estimateGas(i).Some? && o.gasPrice(i).Some? && !(kind == Local && !o.confirmed(i)) {
      var gas, price := o.estimateGas(i).value, o.gasPrice(i).value;
      var gated := [EstimateRequested(i), CurrentTXSet(i, FeeFor(gas, price)), SendMSSet(0), ProgressSet(0),
                    StageSet(Confirming)] + (if kind == Local then [Confirmed(i), StageSet(Sending)] else []);
      var rest := Submit(o, i).events;
      assert ev == gated + [Sent(i, tx, gas)] + rest;
      SubmitEvents(o, i);
      assert Own(gated + [Sent(i, tx, gas)], i);
      OwnConcat(gated + [Sent(i, tx, gas)], rest, i);
      OneSent(gated, Sent(i, tx, gas), rest);
    }
  }

  lemma OwnLoopEvents(ev: seq<Event>, i: nat)
    requires Own(ev, i)
    ensures LoopEvents(ev, i) && IndexMonotone(ev)
  {
  }

  lemma {:induction false} LoopEventsFrom(o: Oracles, kind: AccountKind, txs: seq<Tx>, i: nat)
    requires i <= |txs|
    decreases |txs| - i
    ensures LoopEvents(LoopFrom(o, kind, txs, i).events, i)
    ensures SentOrdered(LoopFrom(o, kind, txs, i).events)
    ensures IndexMonotone(LoopFrom(o, kind, txs, i).events)
  {
    if i < |txs| {
      var s := Step(o, kind, i, txs[i]);
      StepEvents(o, kind, i, txs[i]);
      OwnLoopEvents(s.events, i);
      if s.result.Done? {
        var rest := LoopFrom(o, kind, txs, i + 1).events;
        LoopEventsFrom(o, kind, txs, i + 1);
        assert LoopEvents(rest, i);
        LoopEventsConcat(s.events, rest, i);
        SentOrderedConcat(s.events, rest);
        IndexMonotoneConcat(s.events, rest);
      }
    }
  }

  // ---------------------------------------------------------------------------
  // The prepare pass and the send loop

  /** The prepare pass yields one parse per transaction, in order, or the first failing index. */
  lemma {:induction false} ParseFromSpec(o: Oracles, n: nat, i: nat)
    requires i <= n
    decreases n - i
    ensures ParseFrom(o, n, i).Ok? <==> forall j :: i <= j < n ==> o.parseTransaction(j).Some?
    ensures ParseFrom(o, n, i).Ok? ==>
      && |ParseFrom(o, n, i).value| == n - i
      && forall j :: 0 <= j < n - i ==> Some(ParseFrom(o, n, i).value[j]) == o.parseTransaction(i + j)
    ensures ParseFrom(o, n, i).Err? ==>
      var e := ParseFrom(o, n, i).error;
      && e.ParseFailed? && i <= e.idx < n && o.parseTransaction(e.idx).None?
      && forall j :: i <= j < e.idx ==> o.parseTransaction(j).Some?
  {
    if i < n {
      ParseFromSpec(o, n, i + 1);
      if o.parseTransaction(i).Some? && ParseFrom(o, n, i + 1).Ok? {
        var r := ParseFrom(o, n, i).value;
        forall j | 0 <= j < n - i
          ensures Some(r[j]) == o.parseTransaction(i + j)
        {
          if j > 0 { assert r[j] == ParseFrom(o, n, i + 1).value[j - 1]; }
        }
      }
    }
  }

  /** A loop that ends without failure has one receipt per transaction, in input order. */
  lemma {:induction false} LoopSucceeds(o: Oracles, kind: AccountKind, txs: seq<Tx>, i: nat)
    requires i <= |txs|
    requires LoopFrom(o, kind, txs, i).failure.None?
    decreases |txs| - i
    ensures |LoopFrom(o, kind, txs, i).receipts| == |txs| - i
    ensures forall j :: 0 <= j < |txs| - i ==> Some(LoopFrom(o, kind, txs, i).receipts[j]) == o.waitReceipt(i + j)
  {
    if i < |txs| {
      LoopSucceeds(o, kind, txs, i + 1);
      var s := Step(o, kind, i, txs[i]);
      var r := LoopFrom(o, kind, txs, i).receipts;
      forall j | 0 <= j < |txs| - i
        ensures Some(r[j]) == o.waitReceipt(i + j)
      {
        if j > 0 { assert r[j] == LoopFrom(o, kind, txs, i + 1).receipts[j - 1]; }
      }
    }
  }

  /** A transaction that ends in a receipt has its receipt event in its trace. */
  lemma StepReceipt(o: Oracles, kind: AccountKind, i: nat, tx: Tx)
    requires Step(o, kind, i, tx).result.Done?
    ensures ReceiptReceived(i, Step(o, kind, i, tx).result.receipt) in Step(o, kind, i, tx).events
    ensures o.waitReceipt(i) == Some(Step(o, kind, i, tx).result.receipt)
  {
    var ev := Step(o, kind, i, tx).events;
    assert ev[|ev| - 2] == ReceiptReceived(i, Step(o, kind, i, tx).result.receipt);
  }

  /** The loop stops at the first transaction `k` that does not end in a receipt, with its error. */
  lemma {:induction false} LoopStopsAt(o: Oracles, kind: AccountKind, txs: seq<Tx>, i: nat, k: nat)
    requires i <= k < |txs|
    requires forall j :: i <= j < k ==> Step(o, kind, j, txs[j]).result.Done?
    requires Step(o, kind, k, txs[k]).result.Aborted?
    decreases k - i
    ensures LoopFrom(o, kind, txs, i).failure == Some(Step(o, kind, k, txs[k]).result.error)
    ensures |LoopFrom(o, kind, txs, i).receipts| == k - i
    ensures forall m | 0 <= m < |LoopFrom(o, kind, txs, i).events| ::
      LoopFrom(o, kind, txs, i).events[m].Sent? ==>
        LoopFrom(o, kind, txs, i).events[m].idx < k || LoopFrom(o, kind, txs, i).events[m] in Step(o, kind, k, txs[k]).events
  {
    var ev := LoopFrom(o, kind, txs, i).events;
    if i == k {
      var s := Step(o, kind, i, txs[i]);
      assert LoopFrom(o, kind, txs, i) == LoopOut(s.events, [], Some(s.result.error));
    } else {
      var s := Step(o, kind, i, txs[i]);
      var next := LoopFrom(o, kind, txs, i + 1);
      var rest := next.events;
      assert LoopFrom(o, kind, txs, i) == LoopOut(s.events + rest, [s.result.receipt] + next.receipts, next.failure);
      StepEvents(o, kind, i, txs[i]);
      LoopStopsAt(o, kind, txs, i + 1, k);
      forall m | 0 <= m < |ev| && ev[m].Sent?
        ensures ev[m].idx < k || ev[m] in Step(o, kind, k, txs[k]).events
      {
        if m < |s.events| { assert ev[m] == s.events[m]; } else { assert ev[m] == rest[m - |s.events|]; }
      }
    }
  }

  /** Every transaction the loop got through keeps its receipt event in the trace. */
  lemma {:induction false} LoopKeepsReceipts(o: Oracles, kind: AccountKind, txs: seq<Tx>, i: nat, k: nat)
    requires i <= k <= |txs|
    requires forall j :: i <= j < k ==> Step(o, kind, j, txs[j]).result.Done?
    decreases k - i
    ensures forall j :: i <= j < k ==>
      o.waitReceipt(j).Some? && ReceiptReceived(j, o.waitReceipt(j).value) in LoopFrom(o, kind, txs, i).events
  {
    if i < k {
      var ev := LoopFrom(o, kind, txs, i).events;
      var s := Step(o, kind, i, txs[i]);
      var rest := LoopFrom(o, kind, txs, i + 1).events;
      LoopKeepsReceipts(o, kind, txs, i + 1, k);
      StepReceipt(o, kind, i, txs[i]);
      assert ev == s.events + rest;
    }
  }

  // ---------------------------------------------------------------------------
  // Lifecycle events: the kit, its teardown, `onFinish`

  predicate Lifecycle(e: Event)
  {
    e.KitBuilt? || e.KitStopped? || e.TransportClosed?
  }

  ghost predicate NoLifecycle(ev: seq<Event>)
  {
    forall k | 0 <= k < |ev| :: !Lifecycle(ev[k])
  }

  ghost predicate NoFinish(ev: seq<Event>)
  {
    forall k | 0 <= k < |ev| :: !ev[k].Finished?
  }

  /** How many times `onFinish` is called in `ev`. */
  function FinishCount(ev: seq<Event>): (n: nat)
    ensures n <= |ev|
  {
    if ev == [] then 0 else (if ev[0].Finished? then 1 else 0) + FinishCount(ev[1..])
  }

  lemma {:induction false} FinishCountConcat(a: seq<Event>, b: seq<Event>)
    decreases |a|
    ensures FinishCount(a + b) == FinishCount(a) + FinishCount(b)
  {
    if a == [] {
      assert a + b == b;
    } else {
      assert (a + b)[1..] == a[1..] + b;
      FinishCountConcat(a[1..], b);
    }
  }

  lemma {:induction false} NoFinishCount(ev: seq<Event>)
    requires NoFinish(ev)
    decreases |ev|
    ensures FinishCount(ev) == 0
  {
    if ev != [] {
      assert NoFinish(ev[1..]) by {
        forall k | 0 <= k < |ev[1..]| ensures !ev[1..][k].Finished? { assert ev[1..][k] == ev[k + 1]; }
      }
      NoFinishCount(ev[1..]);
    }
  }

  lemma NoLifecycleConcat(a: seq<Event>, b: seq<Event>)
    requires NoLifecycle(a) && NoLifecycle(b)
    ensures NoLifecycle(a + b)
  {
    forall k | 0 <= k < |a + b|
      ensures !Lifecycle((a + b)[k])
    {
      if k < |a| { assert (a + b)[k] == a[k]; } else { assert (a + b)[k] == b[k - |a|]; }
    }
  }

  /** The send loop never touches the kit's lifecycle and never calls `onFinish`. */
  lemma LoopQuiet(ev: seq<Event>, lo: nat)
    requires LoopEvents(ev, lo)
    ensures NoLifecycle(ev) && FinishCount(ev) == 0 && NoPreparing(ev)
  {
    assert NoFinish(ev);
    NoFinishCount(ev);
  }

  /** The transactions `txFunc` returned, or none when it failed. */
  function TxsOf(o: Oracles): seq<Tx>
  {
    if o.txFunc.Some? then o.txFunc.value else []
  }

  /** Facts about a batch: sound, sends in order, no lifecycle event, `onFinish` once on success only. */
  lemma BatchFacts(o: Oracles, kind: AccountKind, txs: seq<Tx>)
    ensures Sound(o, kind, txs, BatchSpec(o, kind, txs).events)
    ensures SentOrdered(BatchSpec(o, kind, txs).events)
    ensures NoLifecycle(BatchSpec(o, kind, txs).events)
    ensures FinishCount(BatchSpec(o, kind, txs).events) == if BatchSpec(o, kind, txs).outcome.Succeeded? then 1 else 0
  {
    if ParseFrom(o, |txs|, 0).Ok? {
      var pre := [PreparedSet(ParseFrom(o, |txs|, 0).value)];
      var loop := LoopFrom(o, kind, txs, 0);
      LoopSound(o, kind, txs, 0);
      LoopEventsFrom(o, kind, txs, 0);
      LoopQuiet(loop.events, 0);
      SoundConcat(o, kind, txs, pre, loop.events);
      SentOrderedConcat(pre, loop.events);
      NoLifecycleConcat(pre, loop.events);
      FinishCountConcat(pre, loop.events);
      if loop.failure.None? {
        var tail := [StageSet(Finishing), Finished(Succeeded(loop.receipts))];
        SoundConcat(o, kind, txs, pre + loop.events, tail);
        SentOrderedConcat(pre + loop.events, tail);
        NoLifecycleConcat(pre + loop.events, tail);
        FinishCountConcat(pre + loop.events, tail);
      }
    }
  }

  /** A batch never goes back to an earlier transaction, nor to the "preparing" stage. */
  lemma BatchForward(o: Oracles, kind: AccountKind, txs: seq<Tx>)
    ensures IndexMonotone(BatchSpec(o, kind, txs).events) && NoPreparing(BatchSpec(o, kind, txs).events)
  {
    if ParseFrom(o, |txs|, 0).Ok? {
      var pre := [PreparedSet(ParseFrom(o, |txs|, 0).value)];
      var loop := LoopFrom(o, kind, txs, 0);
      LoopEventsFrom(o, kind, txs, 0);
      LoopQuiet(loop.events, 0);
      IndexMonotoneConcat(pre, loop.events);
      NoPreparingConcat(pre, loop.events);
      if loop.failure.None? {
        var tail := [StageSet(Finishing), Finished(Succeeded(loop.receipts))];
        IndexMonotoneConcat(pre + loop.events, tail);
        NoPreparingConcat(pre + loop.events, tail);
      }
    }
  }

  /** The same facts about everything between building the kit and its teardown. */
  lemma KitBodyFacts(o: Oracles, kind: AccountKind, networkId: string)
    ensures Sound(o, kind, TxsOf(o), KitBody(o, kind, networkId).events)
    ensures SentOrdered(KitBody(o, kind, networkId).events)
    ensures IndexMonotone(KitBody(o, kind, networkId).events) && NoPreparing(KitBody(o, kind, networkId).events)
    ensures NoLifecycle(KitBody(o, kind, networkId).events)
    ensures FinishCount(KitBody(o, kind, networkId).events) ==
      if KitBody(o, kind, networkId).outcome.Succeeded? then 1 else 0
  {
    if o.getId == Some(networkId) && o.txFunc.Some? && |o.txFunc.value| > 0 {
      var txs := o.txFunc.value;
      var batch := BatchSpec(o, kind, txs);
      BatchFacts(o, kind, txs);
      BatchForward(o, kind, txs);
      SoundConcat(o, kind, txs, [TxFuncCalled], batch.events);
      SentOrderedConcat([TxFuncCalled], batch.events);
      IndexMonotoneConcat([TxFuncCalled], batch.events);
      NoPreparingConcat([TxFuncCalled], batch.events);
      NoLifecycleConcat([TxFuncCalled], batch.events);
      FinishCountConcat([TxFuncCalled], batch.events);
    }
  }

  // ---------------------------------------------------------------------------
  // The whole run

  /** The wallet exists, the identity guard lets the run through, and the kit is built. */
  ghost predicate ReachesKit(o: Oracles, account: Account, networkId: string, spectronNetworkId: string)
  {
    && o.createWallet.Some?
    && (networkId != spectronNetworkId ==> AccountGuard(o.createWallet.value.accounts, account.address).None?)
    && o.newKit
  }

  /** The tail of a run that built the kit: the teardown, then `onFinish` unless the body called it. */
  function Tail(w: Wallet, outcome: Outcome): seq<Event>
  {
    Cleanup(w) + (if outcome.Failed? then [Finished(outcome)] else [])
  }

  /** A run that built the kit is the kit event, the body, then the tail. */
  lemma RunShape(o: Oracles, account: Account, networkId: string, spectronNetworkId: string)
    requires ReachesKit(o, account, networkId, spectronNetworkId)
    ensures RunSpec(o, account, networkId, spectronNetworkId).outcome == KitBody(o, account.kind, networkId).outcome
    ensures RunSpec(o, account, networkId, spectronNetworkId).events ==
      [KitBuilt] + KitBody(o, account.kind, networkId).events +
      Tail(o.createWallet.value, KitBody(o, account.kind, networkId).outcome)
  {
  }

  lemma TailFacts(o: Oracles, kind: AccountKind, txs: seq<Tx>, w: Wallet, outcome: Outcome)
    ensures Sound(o, kind, txs, Tail(w, outcome)) && SentOrdered(Tail(w, outcome))
    ensures forall q | 0 <= q < |Tail(w, outcome)| :: !HasIdx(Tail(w, outcome)[q])
    ensures IndexMonotone(Tail(w, outcome)) && NoPreparing(Tail(w, outcome))
    ensures FinishCount(Tail(w, outcome)) == if outcome.Failed? then 1 else 0
  {
    var t := Tail(w, outcome);
    assert Neutral(t);
    NeutralSound(o, kind, txs, t);
    if outcome.Failed? {
      assert FinishCount(t[|t| - 1..]) == 1;
      FinishCountConcat(t[..|t| - 1], t[|t| - 1..]);
      assert t == t[..|t| - 1] + t[|t| - 1..];
    }
  }

  /**
   * Every event of a run agrees with the oracles; transactions are sent in input order; the
   * run never goes back to an earlier transaction; the stage never returns to "preparing".
   */
  lemma RunSound(o: Oracles, account: Account, networkId: string, spectronNetworkId: string)
    ensures Sound(o, account.kind, TxsOf(o), RunSpec(o, account, networkId, spectronNetworkId).events)
    ensures SentOrdered(RunSpec(o, account, networkId, spectronNetworkId).events)
    ensures IndexMonotone(RunSpec(o, account, networkId, spectronNetworkId).events)
    ensures NoPreparing(RunSpec(o, account, networkId, spectronNetworkId).events)
  {
    var kind, txs := account.kind, TxsOf(o);
    if ReachesKit(o, account, networkId, spectronNetworkId) {
      var body := KitBody(o, kind, networkId).events;
      var tail := Tail(o.createWallet.value, KitBody(o, kind, networkId).outcome);
      RunShape(o, account, networkId, spectronNetworkId);
      KitBodyFacts(o, kind, networkId);
      TailFacts(o, kind, txs, o.createWallet.value, KitBody(o, kind, networkId).outcome);
      SoundConcat(o, kind, txs, [KitBuilt], body);
      SoundConcat(o, kind, txs, [KitBuilt] + body, tail);
      SentOrderedConcat([KitBuilt], body);
      SentOrderedConcat([KitBuilt] + body, tail);
      IndexMonotoneConcat([KitBuilt], body);
      IndexMonotoneConcat([KitBuilt] + body, tail);
      NoPreparingConcat([KitBuilt], body);
      NoPreparingConcat([KitBuilt] + body, tail);
    } else {
      assert Neutral(RunSpec(o, account, networkId, spectronNetworkId).events);
    }
  }

  /** `onFinish` is called exactly once, with the run's outcome. */
  lemma RunFinishesOnce(o: Oracles, account: Account, networkId: string, spectronNetworkId: string)
    ensures FinishCount(RunSpec(o, account, networkId, spectronNetworkId).events) == 1
    ensures Finished(RunSpec(o, account, networkId, spectronNetworkId).outcome) in
      RunSpec(o, account, networkId, spectronNetworkId).events
  {
    var r := RunSpec(o, account, networkId, spectronNetworkId);
    if ReachesKit(o, account, networkId, spectronNetworkId) {
      var b := KitBody(o, account.kind, networkId);
      var tail := Tail(o.createWallet.value, b.outcome);
      RunShape(o, account, networkId, spectronNetworkId);
      KitBodyFacts(o, account.kind, networkId);
      TailFacts(o, account.kind, TxsOf(o), o.createWallet.value, b.outcome);
      FinishCountConcat([KitBuilt], b.events);
      FinishCountConcat([KitBuilt] + b.events, tail);
      if b.outcome.Failed? {
        assert r.events[|r.events| - 1] == Finished(r.outcome);
      } else {
        BodySuccessEnds(o, account.kind, networkId);
        assert r.events[|b.events|] == b.events[|b.events| - 1];
      }
    }
  }

  /** A successful body ends with the "finishing" stage and `onFinish` with the receipts. */
  lemma BodySuccessEnds(o: Oracles, kind: AccountKind, networkId: string)
    requires KitBody(o, kind, networkId).outcome.Succeeded?
    ensures |KitBody(o, kind, networkId).events| >= 2
    ensures KitBody(o, kind, networkId).events[|KitBody(o, kind, networkId).events| - 2..] ==
      [StageSet(Finishing), Finished(KitBody(o, kind, networkId).outcome)]
  {
  }

  /**
   * Teardown: the kit is stopped exactly when it was built, the device transport is
   * closed exactly when the kit was built and the wallet has one, and both happen
   * after every send; a run that never built the kit only calls `onFinish`.
   */
  lemma RunTearsDown(o: Oracles, account: Account, networkId: string, spectronNetworkId: string)
    ensures var ev := RunSpec(o, account, networkId, spectronNetworkId).events;
      KitStopped in ev <==> KitBuilt in ev
    ensures var ev := RunSpec(o, account, networkId, spectronNetworkId).events;
      TransportClosed in ev <==> KitBuilt in ev && o.createWallet.Some? && o.createWallet.value.hasTransport
    ensures var r := RunSpec(o, account, networkId, spectronNetworkId);
      KitBuilt in r.events <==> ReachesKit(o, account, networkId, spectronNetworkId)
    ensures var r := RunSpec(o, account, networkId, spectronNetworkId);
      !ReachesKit(o, account, networkId, spectronNetworkId) ==> r.events == [Finished(r.outcome)]
    ensures var r := RunSpec(o, account, networkId, spectronNetworkId);
      ReachesKit(o, account, networkId, spectronNetworkId) ==>
        var tail := Cleanup(o.createWallet.value) + (if r.outcome.Failed? then [Finished(r.outcome)] else []);
        && |tail| < |r.events| && r.events[0] == KitBuilt
        && r.events[|r.events| - |tail|..] == tail
        && NoLifecycle(r.events[1..|r.events| - |tail|])
  {
    if ReachesKit(o, account, networkId, spectronNetworkId) {
      var body := KitBody(o, account.kind, networkId);
      RunShape(o, account, networkId, spectronNetworkId);
      KitBodyFacts(o, account.kind, networkId);
      TeardownShape(body.events, o.createWallet.value, body.outcome);
    }
  }

  /** The kit event, a body without lifecycle events, and the tail: where teardown events can be. */
  lemma TeardownShape(body: seq<Event>, w: Wallet, outcome: Outcome)
    requires NoLifecycle(body)
    ensures var ev, tail := [KitBuilt] + body + Tail(w, outcome), Tail(w, outcome);
      && KitStopped in ev && KitBuilt in ev && (TransportClosed in ev <==> w.hasTransport)
      && |tail| < |ev| && ev[0] == KitBuilt
      && ev[|ev| - |tail|..] == tail
      && ev[1..|ev| - |tail|] == body
  {
    var ev, tail := [KitBuilt] + body + Tail(w, outcome), Tail(w, outcome);
    assert ev[|ev| - |tail|..] == tail;
    assert ev[1..|ev| - |tail|] == body;
    assert ev[1 + |body|] == KitStopped;
    assert TransportClosed !in [KitBuilt] + body;
  }

  // ---------------------------------------------------------------------------
  // The guards

  /**
   * Outside the test network, a wallet that does not hold exactly the selected account
   * (compared ignoring case) stops the run before the kit exists: nothing is estimated
   * or sent, and `onFinish` gets the mismatch error.
   */
  lemma AccountMismatchStopsRun(o: Oracles, account: Account, networkId: string, spectronNetworkId: string)
    requires o.createWallet.Some? && networkId != spectronNetworkId
    requires !(|o.createWallet.value.accounts| == 1 &&
               SameIgnoringCase(o.createWallet.value.accounts[0], account.address))
    ensures var accounts := o.createWallet.value.accounts;
      RunSpec(o, account, networkId, spectronNetworkId).outcome ==
        Failed(UnexpectedAccount(account.address, if accounts == [] then None else Some(accounts[0])))
    ensures RunSpec(o, account, networkId, spectronNetworkId).events ==
      [Finished(RunSpec(o, account, networkId, spectronNetworkId).outcome)]
  {
    AccountGuardPasses(o.createWallet.value.accounts, account.address);
  }

  lemma {:induction false} ParseIgnoresWallet(o: Oracles, c: Option<Wallet>, n: nat, i: nat)
    requires i <= n
    decreases n - i
    ensures ParseFrom(o.(createWallet := c), n, i) == ParseFrom(o, n, i)
  {
    if i < n { ParseIgnoresWallet(o, c, n, i + 1); }
  }

  lemma {:induction false} LoopIgnoresWallet(o: Oracles, c: Option<Wallet>, kind: AccountKind, txs: seq<Tx>, i: nat)
    requires i <= |txs|
    decreases |txs| - i
    ensures LoopFrom(o.(createWallet := c), kind, txs, i) == LoopFrom(o, kind, txs, i)
  {
    if i < |txs| {
      LoopIgnoresWallet(o, c, kind, txs, i + 1);
      assert Step(o.(createWallet := c), kind, i, txs[i]) == Step(o, kind, i, txs[i]);
    }
  }

  /** Everything after the kit is built is independent of the wallet. */
  lemma KitBodyIgnoresWallet(o: Oracles, c: Option<Wallet>, kind: AccountKind, networkId: string)
    ensures KitBody(o.(createWallet := c), kind, networkId) == KitBody(o, kind, networkId)
  {
    if o.txFunc.Some? {
      ParseIgnoresWallet(o, c, |o.txFunc.value|, 0);
      LoopIgnoresWallet(o, c, kind, o.txFunc.value, 0);
    }
  }

  /** On the test network the wallet's accounts are not looked at: any accounts give the same run. */
  lemma SpectronSkipsAccountCheck(o: Oracles, account: Account, networkId: string, accounts: seq<string>)
    requires o.createWallet.Some?
    ensures RunSpec(o.(createWallet := Some(o.createWallet.value.(accounts := accounts))), account, networkId, networkId) ==
      RunSpec(o, account, networkId, networkId)
  {
    KitBodyIgnoresWallet(o, Some(o.createWallet.value.(accounts := accounts)), account.kind, networkId);
  }

  /** A node on another network stops the run before `txFunc` is called; the kit is still torn down. */
  lemma NetworkMismatchStopsRun(o: Oracles, account: Account, networkId: string, spectronNetworkId: string)
    requires ReachesKit(o, account, networkId, spectronNetworkId)
    requires o.getId.Some? && o.getId.value != networkId
    ensures RunSpec(o, account, networkId, spectronNetworkId).outcome ==
      Failed(UnexpectedNetworkId(networkId, o.getId.value))
    ensures RunSpec(o, account, networkId, spectronNetworkId).events ==
      [KitBuilt] + Cleanup(o.createWallet.value) + [Finished(RunSpec(o, account, networkId, spectronNetworkId).outcome)]
  {
    RunShape(o, account, networkId, spectronNetworkId);
  }

  /** An empty transaction list is an error: nothing is prepared, estimated or sent. */
  lemma EmptyBatchFails(o: Oracles, account: Account, networkId: string, spectronNetworkId: string)
    requires ReachesKit(o, account, networkId, spectronNetworkId)
    requires o.getId == Some(networkId) && o.txFunc == Some([])
    ensures RunSpec(o, account, networkId, spectronNetworkId).outcome == Failed(NoTransactions)
    ensures RunSpec(o, account, networkId, spectronNetworkId).events ==
      [KitBuilt, TxFuncCalled] + Cleanup(o.createWallet.value) + [Finished(Failed(NoTransactions))]
  {
    RunShape(o, account, networkId, spectronNetworkId);
  }

  // ---------------------------------------------------------------------------
  // The batch

  /** The run gets as far as a non-empty transaction list from `txFunc`. */
  ghost predicate ReachesBatch(o: Oracles, account: Account, networkId: string, spectronNetworkId: string)
  {
    && ReachesKit(o, account, networkId, spectronNetworkId)
    && o.getId == Some(networkId) && o.txFunc.Some? && |o.txFunc.value| > 0
  }

  lemma BatchShape(o: Oracles, account: Account, networkId: string, spectronNetworkId: string)
    requires ReachesBatch(o, account, networkId, spectronNetworkId)
    ensures var b := BatchSpec(o, account.kind, o.txFunc.value);
      && RunSpec(o, account, networkId, spectronNetworkId).outcome == b.outcome
      && RunSpec(o, account, networkId, spectronNetworkId).events ==
           [KitBuilt, TxFuncCalled] + b.events + Tail(o.createWallet.value, b.outcome)
  {
    RunShape(o, account, networkId, spectronNetworkId);
  }

  /**
   * Every transaction is parsed before any is estimated: the parsed list, one entry per
   * transaction, is published as the third event and every estimate and send comes after
   * it; a parse failure ends the run with nothing estimated or sent.
   */
  lemma PreparedBeforeSends(o: Oracles, account: Account, networkId: string, spectronNetworkId: string)
    requires ReachesBatch(o, account, networkId, spectronNetworkId)
    ensures var txs := o.txFunc.value;
      var ev := RunSpec(o, account, networkId, spectronNetworkId).events;
      ParseFrom(o, |txs|, 0).Ok? ==>
        && |ev| > 2 && ev[2] == PreparedSet(ParseFrom(o, |txs|, 0).value)
        && |ParseFrom(o, |txs|, 0).value| == |txs|
        && forall k | 0 <= k < |ev| :: ev[k].EstimateRequested? || ev[k].Sent? ==> 3 <= k
    ensures var txs := o.txFunc.value;
      var r := RunSpec(o, account, networkId, spectronNetworkId);
      ParseFrom(o, |txs|, 0).Err? ==>
        && r.outcome == Failed(ParseFrom(o, |txs|, 0).error)
        && r.events == [KitBuilt, TxFuncCalled] + Cleanup(o.createWallet.value) + [Finished(r.outcome)]
  {
    BatchShape(o, account, networkId, spectronNetworkId);
    ParseFromSpec(o, |o.txFunc.value|, 0);
  }

  /** A transaction that ends in a receipt was sent, with its own estimated gas. */
  lemma StepSends(o: Oracles, kind: AccountKind, i: nat, tx: Tx)
    requires Step(o, kind, i, tx).result.Done?
    ensures o.estimateGas(i).Some? && Sent(i, tx, o.estimateGas(i).value) in Step(o, kind, i, tx).events
  {
    var gas, price := o.estimateGas(i).value, o.gasPrice(i).value;
    var gated := [EstimateRequested(i), CurrentTXSet(i, FeeFor(gas, price)), SendMSSet(0), ProgressSet(0),
                  StageSet(Confirming)] + (if kind == Local then [Confirmed(i), StageSet(Sending)] else []);
    assert Step(o, kind, i, tx).events[|gated|] == Sent(i, tx, gas);
  }

  /** A loop that ends without failure sent every transaction from `i` on. */
  lemma {:induction false} LoopSendsAll(o: Oracles, kind: AccountKind, txs: seq<Tx>, i: nat)
    requires i <= |txs|
    requires LoopFrom(o, kind, txs, i).failure.None?
    decreases |txs| - i
    ensures forall j :: i <= j < |txs| ==>
      o.estimateGas(j).Some? && Sent(j, txs[j], o.estimateGas(j).value) in LoopFrom(o, kind, txs, i).events
  {
    if i < |txs| {
      var head := Step(o, kind, i, txs[i]).events;
      var rest := LoopFrom(o, kind, txs, i + 1).events;
      assert Step(o, kind, i, txs[i]).result.Done?;
      assert LoopFrom(o, kind, txs, i).events == head + rest;
      StepSends(o, kind, i, txs[i]);
      LoopSendsAll(o, kind, txs, i + 1);
      forall j | i <= j < |txs|
        ensures o.estimateGas(j).Some? && Sent(j, txs[j], o.estimateGas(j).value) in head + rest
      {
        if j == i {
          assert Sent(j, txs[j], o.estimateGas(j).value) in head;
        } else {
          assert Sent(j, txs[j], o.estimateGas(j).value) in rest;
        }
      }
    }
  }

  /** A successful run went through the whole batch and every loop iteration. */
  lemma SuccessPath(o: Oracles, account: Account, networkId: string, spectronNetworkId: string)
    requires RunSpec(o, account, networkId, spectronNetworkId).outcome.Succeeded?
    ensures ReachesBatch(o, account, networkId, spectronNetworkId)
    ensures ParseFrom(o, |o.txFunc.value|, 0).Ok?
    ensures LoopFrom(o, account.kind, o.txFunc.value, 0).failure.None?
    ensures RunSpec(o, account, networkId, spectronNetworkId).outcome ==
      Succeeded(LoopFrom(o, account.kind, o.txFunc.value, 0).receipts)
    ensures RunSpec(o, account, networkId, spectronNetworkId).events ==
      [KitBuilt, TxFuncCalled, PreparedSet(ParseFrom(o, |o.txFunc.value|, 0).value)] +
      LoopFrom(o, account.kind, o.txFunc.value, 0).events +
      ([StageSet(Finishing), Finished(RunSpec(o, account, networkId, spectronNetworkId).outcome)] +
       Cleanup(o.createWallet.value))
  {
    var r := RunSpec(o, account, networkId, spectronNetworkId);
    assert ReachesKit(o, account, networkId, spectronNetworkId);
    RunShape(o, account, networkId, spectronNetworkId);
    assert ReachesBatch(o, account, networkId, spectronNetworkId);
    BatchShape(o, account, networkId, spectronNetworkId);
    var txs := o.txFunc.value;
    var b, loop := BatchSpec(o, account.kind, txs), LoopFrom(o, account.kind, txs, 0);
    assert ParseFrom(o, |txs|, 0).Ok? && loop.failure.None?;
    var fin := [StageSet(Finishing), Finished(r.outcome)];
    assert b.events == [PreparedSet(ParseFrom(o, |txs|, 0).value)] + loop.events + fin;
    SuccessRegroup(PreparedSet(ParseFrom(o, |txs|, 0).value), loop.events, fin, Cleanup(o.createWallet.value));
  }

  lemma SuccessRegroup(p: Event, loop: seq<Event>, fin: seq<Event>, cleanup: seq<Event>)
    ensures [KitBuilt, TxFuncCalled] + ([p] + loop + fin) + (cleanup + []) ==
      [KitBuilt, TxFuncCalled, p] + loop + (fin + cleanup)
  {
    assert cleanup + [] == cleanup;
  }

  /**
   * A successful run sent every transaction exactly once, in order, with its estimated
   * gas, and returns one receipt per transaction in input order.
   */
  lemma RunSucceeds(o: Oracles, account: Account, networkId: string, spectronNetworkId: string)
    requires RunSpec(o, account, networkId, spectronNetworkId).outcome.Succeeded?
    ensures ReachesBatch(o, account, networkId, spectronNetworkId)
    ensures var txs := o.txFunc.value;
      var receipts := RunSpec(o, account, networkId, spectronNetworkId).outcome.receipts;
      && |receipts| == |txs|
      && forall j :: 0 <= j < |txs| ==> Some(receipts[j]) == o.waitReceipt(j)
    ensures var txs := o.txFunc.value;
      var ev := RunSpec(o, account, networkId, spectronNetworkId).events;
      && (forall j :: 0 <= j < |txs| ==> o.estimateGas(j).Some? && Sent(j, txs[j], o.estimateGas(j).value) in ev)
      && SentOrdered(ev)
  {
    var txs := o.txFunc.value;
    var ev := RunSpec(o, account, networkId, spectronNetworkId).events;
    SuccessPath(o, account, networkId, spectronNetworkId);
    RunSound(o, account, networkId, spectronNetworkId);
    var pre := [KitBuilt, TxFuncCalled, PreparedSet(ParseFrom(o, |txs|, 0).value)];
    var loop := LoopFrom(o, account.kind, txs, 0).events;
    LoopSucceeds(o, account.kind, txs, 0);
    LoopSendsAll(o, account.kind, txs, 0);
    forall j | 0 <= j < |txs|
      ensures Sent(j, txs[j], o.estimateGas(j).value) in ev
    {
      var x :| 0 <= x < |loop| && loop[x] == Sent(j, txs[j], o.estimateGas(j).value);
      assert ev[|pre| + x] == loop[x];
    }
  }

  /** On success the "finishing" stage and `onFinish` come last, just before the teardown. */
  lemma SuccessFinishesBeforeTeardown(o: Oracles, account: Account, networkId: string, spectronNetworkId: string)
    requires RunSpec(o, account, networkId, spectronNetworkId).outcome.Succeeded?
    ensures var r := RunSpec(o, account, networkId, spectronNetworkId);
      var tail := [StageSet(Finishing), Finished(r.outcome)] + Cleanup(o.createWallet.value);
      |tail| <= |r.events| && r.events[|r.events| - |tail|..] == tail
  {
    SuccessPath(o, account, networkId, spectronNetworkId);
  }

  /** A run whose send loop fails: the prefix, the loop's events, the teardown, `onFinish` with the error. */
  lemma LoopFailurePath(o: Oracles, account: Account, networkId: string, spectronNetworkId: string)
    requires ReachesBatch(o, account, networkId, spectronNetworkId)
    requires ParseFrom(o, |o.txFunc.value|, 0).Ok?
    requires LoopFrom(o, account.kind, o.txFunc.value, 0).failure.Some?
    ensures RunSpec(o, account, networkId, spectronNetworkId).outcome ==
      Failed(LoopFrom(o, account.kind, o.txFunc.value, 0).failure.value)
    ensures RunSpec(o, account, networkId, spectronNetworkId).events ==
      [KitBuilt, TxFuncCalled, PreparedSet(ParseFrom(o, |o.txFunc.value|, 0).value)] +
      LoopFrom(o, account.kind, o.txFunc.value, 0).events +
      (Cleanup(o.createWallet.value) + [Finished(RunSpec(o, account, networkId, spectronNetworkId).outcome)])
  {
    BatchShape(o, account, networkId, spectronNetworkId);
  }

  /**
   * A transaction `k` that does not end in a receipt ends the run with its error: no
   * later transaction is sent, and the kit is torn down before `onFinish` gets the error.
   */
  lemma RunStopsAt(o: Oracles, account: Account, networkId: string, spectronNetworkId: string, k: nat)
    requires ReachesBatch(o, account, networkId, spectronNetworkId)
    requires ParseFrom(o, |o.txFunc.value|, 0).Ok?
    requires k < |o.txFunc.value|
    requires forall j :: 0 <= j < k ==> Step(o, account.kind, j, o.txFunc.value[j]).result.Done?
    requires Step(o, account.kind, k, o.txFunc.value[k]).result.Aborted?
    ensures RunSpec(o, account, networkId, spectronNetworkId).outcome ==
      Failed(Step(o, account.kind, k, o.txFunc.value[k]).result.error)
    ensures var ev := RunSpec(o, account, networkId, spectronNetworkId).events;
      forall m | 0 <= m < |ev| :: ev[m].Sent? ==> ev[m].idx < k || ev[m] in Step(o, account.kind, k, o.txFunc.value[k]).events
    ensures var r := RunSpec(o, account, networkId, spectronNetworkId);
      var tail := Cleanup(o.createWallet.value) + [Finished(r.outcome)];
      |tail| <= |r.events| && r.events[|r.events| - |tail|..] == tail
  {
    var txs, kind := o.txFunc.value, account.kind;
    var ev := RunSpec(o, account, networkId, spectronNetworkId).events;
    LoopStopsAt(o, kind, txs, 0, k);
    LoopFailurePath(o, account, networkId, spectronNetworkId);
    var pre := [KitBuilt, TxFuncCalled, PreparedSet(ParseFrom(o, |txs|, 0).value)];
    var loop := LoopFrom(o, kind, txs, 0).events;
    var tail := Cleanup(o.createWallet.value) + [Finished(RunSpec(o, account, networkId, spectronNetworkId).outcome)];
    SentOnlyIn(pre, loop, tail, k, Step(o, kind, k, txs[k]).events);
  }

  /** Sends in the middle part only, each before `k` or among `step`: the same holds of the whole. */
  lemma SentOnlyIn(pre: seq<Event>, mid: seq<Event>, post: seq<Event>, k: nat, step: seq<Event>)
    requires forall m | 0 <= m < |pre| :: !pre[m].Sent?
    requires forall m | 0 <= m < |post| :: !post[m].Sent?
    requires forall m | 0 <= m < |mid| :: mid[m].Sent? ==> mid[m].idx < k || mid[m] in step
    ensures var ev := pre + mid + post;
      forall m | 0 <= m < |ev| :: ev[m].Sent? ==> ev[m].idx < k || ev[m] in step
  {
    var ev := pre + mid + post;
    forall m | 0 <= m < |ev|
      ensures ev[m].Sent? ==> ev[m].idx < k || ev[m] in step
    {
      if m < |pre| { assert ev[m] == pre[m]; }
      else if m < |pre| + |mid| { assert ev[m] == mid[m - |pre|]; }
      else { assert ev[m] == post[m - |pre| - |mid|]; }
    }
  }

  /** When the run stops at transaction `k`, the receipts of the earlier transactions stay in its trace. */
  lemma RunKeepsReceipts(o: Oracles, account: Account, networkId: string, spectronNetworkId: string, k: nat)
    requires ReachesBatch(o, account, networkId, spectronNetworkId)
    requires ParseFrom(o, |o.txFunc.value|, 0).Ok?
    requires k < |o.txFunc.value|
    requires forall j :: 0 <= j < k ==> Step(o, account.kind, j, o.txFunc.value[j]).result.Done?
    requires Step(o, account.kind, k, o.txFunc.value[k]).result.Aborted?
    ensures forall j :: 0 <= j < k ==>
      o.waitReceipt(j).Some? && ReceiptReceived(j, o.waitReceipt(j).value) in RunSpec(o, account, networkId, spectronNetworkId).events
  {
    var txs, kind := o.txFunc.value, account.kind;
    var ev := RunSpec(o, account, networkId, spectronNetworkId).events;
    LoopStopsAt(o, kind, txs, 0, k);
    LoopKeepsReceipts(o, kind, txs, 0, k);
    LoopFailurePath(o, account, networkId, spectronNetworkId);
    var pre := [KitBuilt, TxFuncCalled, PreparedSet(ParseFrom(o, |txs|, 0).value)];
    var loop := LoopFrom(o, kind, txs, 0).events;
    forall j | 0 <= j < k
      ensures ReceiptReceived(j, o.waitReceipt(j).value) in ev
    {
      assert ReceiptReceived(j, o.waitReceipt(j).value) in loop;
    }
  }

  /**
   * A local-account user who cancels transaction `k` ends the run with `TXCancelled`:
   * transaction `k` and every later one is never sent, earlier receipts remain.
   */
  lemma CancelEndsRun(o: Oracles, account: Account, networkId: string, spectronNetworkId: string, k: nat)
    requires ReachesBatch(o, account, networkId, spectronNetworkId)
    requires ParseFrom(o, |o.txFunc.value|, 0).Ok?
    requires account.kind == Local && k < |o.txFunc.value|
    requires forall j :: 0 <= j < k ==> Step(o, account.kind, j, o.txFunc.value[j]).result.Done?
    requires o.estimateGas(k).Some? && o.gasPrice(k).Some? && !o.confirmed(k)
    ensures RunSpec(o, account, networkId, spectronNetworkId).outcome == Failed(TXCancelled)
    ensures Cancelled(k) in RunSpec(o, account, networkId, spectronNetworkId).events
    ensures forall j :: 0 <= j < k ==>
      o.waitReceipt(j).Some? && ReceiptReceived(j, o.waitReceipt(j).value) in RunSpec(o, account, networkId, spectronNetworkId).events
    ensures var ev := RunSpec(o, account, networkId, spectronNetworkId).events;
      forall m | 0 <= m < |ev| :: ev[m].Sent? ==> ev[m].idx < k
  {
    var txs := o.txFunc.value;
    var step := Step(o, Local, k, txs[k]).events;
    assert NoSent(step);
    RunStopsAt(o, account, networkId, spectronNetworkId, k);
    RunKeepsReceipts(o, account, networkId, spectronNetworkId, k);
    CancelIsTraced(o, account, networkId, spectronNetworkId, k);
  }

  lemma CancelIsTraced(o: Oracles, account: Account, networkId: string, spectronNetworkId: string, k: nat)
    requires ReachesBatch(o, account, networkId, spectronNetworkId)
    requires ParseFrom(o, |o.txFunc.value|, 0).Ok?
    requires account.kind == Local && k < |o.txFunc.value|
    requires forall j :: 0 <= j < k ==> Step(o, account.kind, j, o.txFunc.value[j]).result.Done?
    requires o.estimateGas(k).Some? && o.gasPrice(k).Some? && !o.confirmed(k)
    ensures Cancelled(k) in RunSpec(o, account, networkId, spectronNetworkId).events
  {
    var txs := o.txFunc.value;
    var step := Step(o, Local, k, txs[k]).events;
    var ev := RunSpec(o, account, networkId, spectronNetworkId).events;
    var pre := [KitBuilt, TxFuncCalled, PreparedSet(ParseFrom(o, |txs|, 0).value)];
    var loop := LoopFrom(o, Local, txs, 0).events;
    LoopStopsAt(o, Local, txs, 0, k);
    LoopSuffix(o, Local, txs, 0, k);
    LoopFailurePath(o, account, networkId, spectronNetworkId);
    assert step[|step| - 2] == Cancelled(k);
    assert loop[|loop| - 2] == step[|step| - 2];
    assert ev[|pre| + |loop| - 2] == loop[|loop| - 2];
  }

  /** When the loop stops at `k`, its events end with the events of transaction `k`. */
  lemma {:induction false} LoopSuffix(o: Oracles, kind: AccountKind, txs: seq<Tx>, i: nat, k: nat)
    requires i <= k < |txs|
    requires forall j :: i <= j < k ==> Step(o, kind, j, txs[j]).result.Done?
    requires Step(o, kind, k, txs[k]).result.Aborted?
    decreases k - i
    ensures var ev := LoopFrom(o, kind, txs, i).events;
      var step := Step(o, kind, k, txs[k]).events;
      |step| <= |ev| && ev[|ev| - |step|..] == step
  {
    var s := Step(o, kind, i, txs[i]);
    if i == k {
      assert LoopFrom(o, kind, txs, i).events == s.events;
      assert s.events[|s.events| - |s.events|..] == s.events;
    } else {
      assert s.result.Done?;
      var rest := LoopFrom(o, kind, txs, i + 1).events;
      assert LoopFrom(o, kind, txs, i).events == s.events + rest;
      LoopSuffix(o, kind, txs, i + 1, k);
      SuffixConcat(s.events, rest, Step(o, kind, k, txs[k]).events);
    }
  }

  lemma SuffixConcat(a: seq<Event>, b: seq<Event>, t: seq<Event>)
    requires |t| <= |b| && b[|b| - |t|..] == t
    ensures |t| <= |a + b| && (a + b)[|a + b| - |t|..] == t
  {
    assert (a + b)[|a + b| - |t|..] == b[|b| - |t|..];
  }

  /** Ledger accounts never see the confirmation gate: the device itself asks the user. */
  lemma LedgerSkipsConfirm(o: Oracles, account: Account, networkId: string, spectronNetworkId: string)
    requires account.kind == Ledger
    ensures var ev := RunSpec(o, account, networkId, spectronNetworkId).events;
      forall m | 0 <= m < |ev| :: !ev[m].Confirmed? && !ev[m].Cancelled?
  {
    var ev := RunSpec(o, account, networkId, spectronNetworkId).events;
    RunSound(o, account, networkId, spectronNetworkId);
    forall m | 0 <= m < |ev|
      ensures !ev[m].Confirmed? && !ev[m].Cancelled?
    {
      assert EventSound(o, account.kind, TxsOf(o), ev, m);
    }
  }

  /** A local account sends a transaction only right after the user confirmed that same transaction. */
  lemma LocalSendsOnlyConfirmed(o: Oracles, account: Account, networkId: string, spectronNetworkId: string)
    requires account.kind == Local
    ensures var ev := RunSpec(o, account, networkId, spectronNetworkId).events;
      forall m | 0 <= m < |ev| :: ev[m].Sent? ==>
        2 <= m && ev[m - 2] == Confirmed(ev[m].idx) && o.confirmed(ev[m].idx)
  {
    var ev := RunSpec(o, account, networkId, spectronNetworkId).events;
    RunSound(o, account, networkId, spectronNetworkId);
    forall m | 0 <= m < |ev| && ev[m].Sent?
      ensures 2 <= m && ev[m - 2] == Confirmed(ev[m].idx) && o.confirmed(ev[m].idx)
    {
      assert EventSound(o, account.kind, TxsOf(o), ev, m);
      assert EventSound(o, account.kind, TxsOf(o), ev, m - 2);
    }
  }
}
