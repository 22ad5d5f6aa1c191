# Celo Terminal transaction runner and network configuration, in Dafny

This project models two pieces of Celo Terminal, the desktop wallet for the Celo network.

- **The transaction runner.** This is the effect of the `RunTXs` dialog. It does the following, in order:
  - creates the wallet for the selected account;
  - refuses to go on when the wallet does not hold exactly that account (except on the end-to-end test network);
  - builds a contract kit and checks that the node serves the configured network;
  - asks the calling app for its transactions and parses all of them;
  - for each transaction in turn: estimates the gas, shows the fee, waits for the user's confirm (local accounts only), sends it, and waits for its receipt while a progress timer runs;
  - hands the receipts, or the first error, to `onFinish` exactly once;
  - stops the kit and closes the Ledger transport on every path that built the kit.
- **The network configuration.** This is the memoised `CFG()`, read once from the process environment. Beside it:
  - `networkName` and `explorerRootURL` derive display values from a chain id;
  - the registered ERC-20 list picks each token's address on the current chain and drops tokens without one.

Files:

- `wrappers.dfy`: `Option` and `Result`.
- `cfg.dfy` (module `Cfg`): the configuration, the `ConfigCache` class that memoises it, network names, explorer URLs and the ERC-20 selection.
- `run_txs_spec.dfy` (module `RunTxsSpec`): the runner's entities and its pure specification. Every await on a collaborator is an answer drawn from `Oracles`, indexed by transaction position, and the run is written out as the sequence of observable `Event`s it produces. `RunSpec` is the whole run; `Step` is one loop iteration; `Submit` is the send and the wait; `TickEvents` is the progress timer.
- `run_txs.dfy` (module `RunTxs`): the imperative runner. `Runner` has the component's state (stage, current transaction, prepared list, send time, progress) as fields, plus a ghost `trace` of observable events. Every React setter is a method that updates its field and appends its event. `Runner.Mirrors` says the fields hold exactly the state that the trace's setter events leave (`StateAfter`). Every method keeps it. `Runner.Run` performs the effect step by step and is proved to produce exactly `RunSpec`'s events and outcome.
- `run_txs_properties.dfy` (module `RunTxsProperties`): what the traces guarantee.

## Model

| member | source | states |
|---|---|---|
| Cfg.ResolveChainId | src/lib/cfg.ts:34-36 | the chain id is the `CELOTERMINAL_NETWORK_ID` variable when it is a non-empty string, otherwise mainnet "42220"; it is never empty |
| Cfg.ResolveNetworkURL | src/lib/cfg.ts:37-40 | the URL is the `CELOTERMINAL_NETWORK_URL` variable when set, else the forno URL of a known chain, else "http://localhost:7545"; never empty |
| Cfg.Split | src/lib/cfg.ts:44 | splitting on "/" yields at least one piece and no piece contains "/" |
| Cfg.JoinSplit | src/lib/cfg.ts:44 | joining the pieces of a split with "/" gives back the original string |
| Cfg.SplitJoin | src/lib/cfg.ts:44 | splitting a "/"-join of slash-free pieces gives back those pieces |
| Cfg.SplitPrefix | src/lib/cfg.ts:44 | a slash-free prefix only extends the first piece of a split |
| Cfg.ResolveAccountsDBPath | src/lib/cfg.ts:41-52 | the root followed by the path, joined with "/", is the `CELOTERMINAL_ACCOUNTS_DB` variable (or the default); no piece contains "/" |
| Cfg.DefaultAccountsDBPath | src/lib/cfg.ts:10-52 | without the variable the accounts DB is root "home", path [".celoterminal", "celoaccounts.db"] |
| Cfg.ConfigCache.constructor | src/lib/cfg.ts:30 | nothing is cached before the first call |
| Cfg.ConfigCache.CFG | src/lib/cfg.ts:30-56 | the first call resolves the configuration from the environment and caches it; every later call returns the cached value whatever the environment now holds |
| Cfg.NetworkName | src/lib/cfg.ts:58-65 | the known chains are "Mainnet", "Baklava" and "Alfajores"; any other id gives "ChainId: " followed by the id |
| Cfg.NetworkNameRoundTrip | src/lib/cfg.ts:58-65 | the chain id can be recovered from its network name, so distinct ids get distinct names |
| Cfg.KnownChainsDistinct | src/lib/cfg.ts:6-8 | the three known chain ids are pairwise distinct |
| Cfg.ExplorerRootURL | src/lib/cfg.ts:87-99 | each known chain has its block explorer URL; any other id gives "https://explorer.network." followed by the id |
| Cfg.ExplorerRootURLRoundTrip | src/lib/cfg.ts:87-99 | the chain id can be recovered from its explorer URL |
| Cfg.MapForChain | src/lib/cfg.ts:73-81 | one entry per registry token, in order, each carrying the token's address on the chain (none on an unknown chain) |
| Cfg.KeepDefined | src/lib/cfg.ts:82 | the kept entries are exactly the entries with an address, no more entries than given |
| Cfg.KeepDefinedIsSubsequence | src/lib/cfg.ts:82 | filtering keeps the registry order |
| Cfg.KeepDefinedUndefined | src/lib/cfg.ts:82 | filtering a list where no entry has an address leaves nothing |
| Cfg.RegisteredErc20sSelection | src/lib/cfg.ts:67-84 | outside the test chain, the list is a subsequence of the registry mapped to the chain; every entry has an address; a token is listed exactly when the registry gives it an address on the chain |
| Cfg.RegisteredErc20sSpectron | src/lib/cfg.ts:69-71 | on the test chain the devchain token list is used unchanged |
| Cfg.RegisteredErc20sUnknownChain | src/lib/cfg.ts:78-82 | on a chain that is neither known nor the test chain, no token is registered |
| RunTxsSpec.ToLower | src/renderer/coreapp/tx-runner/run-txs.tsx:85 | lower-casing keeps the length and lower-cases character by character |
| RunTxsSpec.AccountGuardPasses | src/renderer/coreapp/tx-runner/run-txs.tsx:83-90 | the account check passes exactly when the wallet holds one account equal to the selected address ignoring case; otherwise the error names the expected address and the first account, if any |
| RunTxsSpec.TimerValue | src/renderer/coreapp/tx-runner/run-txs.tsx:185-186 | the timer's progress is at most 99, is 0 before the send time is known, and is not negative once the clock has passed the send time |
| RunTxsSpec.TimerValueMonotone | src/renderer/coreapp/tx-runner/run-txs.tsx:185-186 | the timer's progress does not decrease as the clock advances |
| RunTxsSpec.TickEventsMonotone | src/renderer/coreapp/tx-runner/run-txs.tsx:184-188 | each tick publishes one progress value; the values never decrease, stay between the start value and 99 |
| RunTxs.Runner.constructor | src/renderer/coreapp/tx-runner/run-txs.tsx:58-70 | the dialog starts in the "preparing" stage with no transaction, nothing prepared, send time 0, progress 0, no receipts, nothing torn down and `onFinish` not called; the fields are the state of the empty trace |
| RunTxs.Runner.SetStage | src/renderer/coreapp/tx-runner/run-txs.tsx:65-69 | `setStage` replaces the stage, appends its event and keeps the fields equal to the trace's state |
| RunTxs.Runner.SetProgress | src/renderer/coreapp/tx-runner/run-txs.tsx:180 | `setTXProgress` replaces the progress, appends its event and keeps the fields equal to the trace's state |
| RunTxs.Runner.SetSendMS | src/renderer/coreapp/tx-runner/run-txs.tsx:70 | `setTXSendMS` replaces the send time, appends its event and keeps the fields equal to the trace's state |
| RunTxs.Runner.SetPrepared | src/renderer/coreapp/tx-runner/run-txs.tsx:58 | `setPreparedTXs` replaces the prepared list, appends its event and keeps the fields equal to the trace's state |
| RunTxs.Runner.SetCurrentTX | src/renderer/coreapp/tx-runner/run-txs.tsx:59-64 | `setCurrentTX` replaces the current transaction, appends its event and keeps the fields equal to the trace's state |
| RunTxs.Runner.Finish | src/renderer/coreapp/tx-runner/run-txs.tsx:159-171 | one more call of `onFinish` with the outcome |
| RunTxs.Runner.Tick | src/renderer/coreapp/tx-runner/run-txs.tsx:181-191 | while sending, a tick raises the progress to the larger of its old value and the timer value; in any other stage it changes nothing |
| RunTxs.Runner.Run | src/renderer/coreapp/tx-runner/run-txs.tsx:76-175 | the effect produces exactly the events and outcome of `RunSpec`; `onFinish` is called once, with that outcome; the kit is stopped exactly when it was built; the transport is closed exactly when the kit was built and the wallet has one; on success the stage is "finishing" and the receipts are the outcome's; the React state fields are the state the trace's setter events leave |
| RunTxs.Runner.RunKit | src/renderer/coreapp/tx-runner/run-txs.tsx:91-174 | a built kit: the body's events, then the teardown, then `onFinish` with the error if the body failed; `onFinish` is called once in all; the kit is stopped and the transport closed exactly when the wallet has one |
| RunTxs.Runner.Teardown | src/renderer/coreapp/tx-runner/run-txs.tsx:166-171 | the `finally` block stops the kit, then closes the transport exactly when the wallet has one |
| RunTxs.Runner.RunWithKit | src/renderer/coreapp/tx-runner/run-txs.tsx:93-159 | the body after building the kit produces exactly `KitBody`'s events and returns its error |
| RunTxs.Runner.RunBatch | src/renderer/coreapp/tx-runner/run-txs.tsx:103-159 | the prepare pass, the loop, the "finishing" stage and `onFinish` produce exactly `BatchSpec`'s events |
| RunTxs.Runner.PrepareAndShow | src/renderer/coreapp/tx-runner/run-txs.tsx:104-109 | the prepare pass's result, published with `setPreparedTXs` only when every transaction parsed |
| RunTxs.Runner.SendThenConclude | src/renderer/coreapp/tx-runner/run-txs.tsx:111-165 | the send loop's events, receipts and error; when no transaction failed, then stage "finishing" and `onFinish` with the receipts |
| RunTxs.Runner.Conclude | src/renderer/coreapp/tx-runner/run-txs.tsx:161-165 | stage "finishing", then one `onFinish` call with the collected receipts |
| RunTxs.Runner.Prepare | src/renderer/coreapp/tx-runner/run-txs.tsx:104-108 | the parse loop returns the parsed transactions in order, or the first parse error |
| RunTxs.Runner.SendAll | src/renderer/coreapp/tx-runner/run-txs.tsx:111-157 | the send loop produces the loop's events and receipts, and stops at the first failing transaction with its error |
| RunTxs.Runner.RunTx | src/renderer/coreapp/tx-runner/run-txs.tsx:112-157 | one iteration produces exactly `Step`'s events and result: estimate, show the fee, reset send time and progress, stage "confirming", the confirm gate for local accounts, then the send; a receipt leaves the transaction current, stage "sending", its send time and progress 100; a cancel leaves stage "sending" and progress 0 |
| RunTxs.Runner.Confirm | src/renderer/coreapp/tx-runner/run-txs.tsx:123-145 | shows the transaction and its fee; a local account then waits for the answer, and the run goes on exactly when the account is a Ledger or the user confirmed |
| RunTxs.Runner.ShowTx | src/renderer/coreapp/tx-runner/run-txs.tsx:123-141 | `setCurrentTX` with the index and fee, send time 0, progress 0, stage "confirming" |
| RunTxs.Runner.Gate | src/renderer/coreapp/tx-runner/run-txs.tsx:127-145 | the confirm or cancel callback sets stage "sending"; the gate passes exactly when the user confirmed |
| RunTxs.Runner.SendTx | src/renderer/coreapp/tx-runner/run-txs.tsx:146-157 | starting from progress 0: send with the estimated gas, get the hash, stage "sending" with the send time, wait for the receipt under the timer, then progress 100; exactly `Submit`'s events and result |
| RunTxs.Runner.MarkSending | src/renderer/coreapp/tx-runner/run-txs.tsx:151-153 | the hash is recorded, then stage "sending" and the send time |
| RunTxs.Runner.ReceiptArrived | src/renderer/coreapp/tx-runner/run-txs.tsx:156-157 | the receipt is recorded, then progress 100 |
| RunTxs.Runner.WaitUnderTimer | src/renderer/coreapp/tx-runner/run-txs.tsx:181-191 | the ticks while waiting for the receipt publish exactly the timer's progress values |
| RunTxs.PrependStep | src/renderer/coreapp/tx-runner/run-txs.tsx:104-108 | one more parse extends the prepared list, and a failed parse is the pass's error |
| RunTxs.LoopAdvances | src/renderer/coreapp/tx-runner/run-txs.tsx:111-157 | after a transaction's receipt, the rest of the loop continues the trace and the receipt list |
| RunTxs.LoopAborts | src/renderer/coreapp/tx-runner/run-txs.tsx:111-157 | a failing transaction ends the loop with its error |
| RunTxsProperties.RunSound | src/renderer/coreapp/tx-runner/run-txs.tsx:111-161 | in every run: each send uses its own transaction and estimated gas; a local account's send follows the confirm of that transaction and the stage "sending", a Ledger account's send in the "confirming" stage, where the device prompt shows; a local user's confirm or cancel comes in the "confirming" stage; each shown fee is gas times price in CELO; progress stays within 0..100 and reaches 100 only right after a receipt; sends follow the input order, at most once per transaction; the current transaction index never decreases; the stage never returns to "preparing" |
| RunTxsProperties.RunFinishesOnce | src/renderer/coreapp/tx-runner/run-txs.tsx:159-171 | every run calls `onFinish` exactly once, with the run's outcome |
| RunTxsProperties.RunTearsDown | src/renderer/coreapp/tx-runner/run-txs.tsx:91-165 | the kit is stopped exactly when it was built; the transport is closed exactly when the kit was built and the wallet has one; teardown follows every send; a run that never built the kit only calls `onFinish` |
| RunTxsProperties.AccountMismatchStopsRun | src/renderer/coreapp/tx-runner/run-txs.tsx:81-90 | outside the test network, a wallet that does not hold exactly the selected account ends the run with the mismatch error before the kit exists |
| RunTxsProperties.SpectronSkipsAccountCheck | src/renderer/coreapp/tx-runner/run-txs.tsx:81 | on the test network the run does not depend on the wallet's accounts |
| RunTxsProperties.KitBodyIgnoresWallet | src/renderer/coreapp/tx-runner/run-txs.tsx:93-159 | the kit body's events and outcome do not depend on the wallet (the teardown after it, which reads the transport, is not covered) |
| RunTxsProperties.NetworkMismatchStopsRun | src/renderer/coreapp/tx-runner/run-txs.tsx:94-99 | a node on another network ends the run before `txFunc` is called, with the mismatch error; the kit is still torn down |
| RunTxsProperties.EmptyBatchFails | src/renderer/coreapp/tx-runner/run-txs.tsx:100-103 | an empty transaction list ends the run with "no transactions" before anything is prepared, estimated or sent |
| RunTxsProperties.ParseFromSpec | src/renderer/coreapp/tx-runner/run-txs.tsx:104-108 | the prepare pass succeeds exactly when every transaction parses; it yields one parse per transaction in order, or the first failing index |
| RunTxsProperties.PreparedBeforeSends | src/renderer/coreapp/tx-runner/run-txs.tsx:104-109 | the parsed list, one entry per transaction, is published before any estimate or send; a parse failure ends the run with nothing estimated or sent |
| RunTxsProperties.StepEvents | src/renderer/coreapp/tx-runner/run-txs.tsx:112-157 | one iteration only produces events of its own transaction and sends at most once |
| RunTxsProperties.LoopEventsFrom | src/renderer/coreapp/tx-runner/run-txs.tsx:111-157 | the loop's events belong to its transactions and its sends are in increasing transaction order |
| RunTxsProperties.LoopSucceeds | src/renderer/coreapp/tx-runner/run-txs.tsx:111-157 | a loop without failure has one receipt per transaction, each the transaction's own, in order |
| RunTxsProperties.LoopSendsAll | src/renderer/coreapp/tx-runner/run-txs.tsx:146-150 | a loop without failure sent every transaction with its estimated gas |
| RunTxsProperties.LoopStopsAt | src/renderer/coreapp/tx-runner/run-txs.tsx:111-157 | the loop stops at the first transaction without a receipt, with its error; no later transaction is sent |
| RunTxsProperties.RunSucceeds | src/renderer/coreapp/tx-runner/run-txs.tsx:111-159 | a successful run sent every transaction once, in order, with its estimated gas, and reports one receipt per transaction in input order |
| RunTxsProperties.SuccessFinishesBeforeTeardown | src/renderer/coreapp/tx-runner/run-txs.tsx:158-165 | on success the "finishing" stage and `onFinish` come last, just before the kit is stopped and the transport closed |
| RunTxsProperties.RunStopsAt | src/renderer/coreapp/tx-runner/run-txs.tsx:111-171 | a failing transaction ends the run with its error; no later transaction is sent; the teardown precedes `onFinish` with the error |
| RunTxsProperties.RunKeepsReceipts | src/renderer/coreapp/tx-runner/run-txs.tsx:154-157 | when the run stops at a transaction, the receipts of earlier transactions remain in its trace |
| RunTxsProperties.CancelEndsRun | src/renderer/coreapp/tx-runner/run-txs.tsx:123-145 | a local-account user who cancels a transaction ends the run with `TXCancelled`; that transaction and every later one are never sent; earlier receipts remain |
| RunTxsProperties.LedgerSkipsConfirm | src/renderer/coreapp/tx-runner/run-txs.tsx:140-143 | Ledger accounts never pass through the confirm gate |
| RunTxsProperties.LocalSendsOnlyConfirmed | src/renderer/coreapp/tx-runner/run-txs.tsx:123-145 | a local account sends a transaction only right after the user confirmed that same transaction |

## Left out

- Rendering. The JSX dialog, the styles and the logging through `electron-log` have no effect on the run and are not modelled.
- Collaborators. Wallet creation, `newKit`, the node's network id, `txFunc`, `parseTransaction`, `estimateGas`, the gas price, the send, the hash, the receipt, the user's confirm or cancel, and the clock readings are answers drawn from `Oracles`. Their implementations are not part of this model.
- Errors from collaborators are not carried. Each failure becomes a tag that names the failed step, and for the per-transaction steps also the transaction's index: `ParseFailed(i)`, `EstimateGasFailed(i)`, `GasPriceFailed(i)`, `SendFailed(i)`, `GetHashFailed(i)`, `WaitReceiptFailed(i)`. The source hands the thrown error itself to `onFinish`, through `transformError`, and it carries no index. The thrown error's content and `transformError` are not modelled.
- Every collaborator answers. In the source, a confirm that never comes (run-txs.tsx:144) or a receipt that never arrives (run-txs.tsx:156) leaves the effect waiting forever, with no `onFinish`. Such runs have no counterpart here, so `RunTxsProperties.RunFinishesOnce` speaks only of runs whose awaits all settle.
- The `sleep(500)` before the final `onFinish` has no observable effect and is left out.
- `onFinish`, `kit.stop` and `transport.close` are assumed not to throw.
  - If `transport.close` threw after a successful run, the source would call `onFinish` a second time, with the error. This is not modelled.
- Concurrency. The progress timer is an interval running beside the effect. It is modelled as the ticks that fall while the receipt is awaited, one clock reading per tick. Ticks in other stages change nothing (`Runner.Tick`). So ticks are not interleaved with the other awaits, and the timer's 200 ms period is not modelled.
  - The source's timer also fires in the "sending" stage outside the receipt wait. For a local account that is between the confirm (run-txs.tsx:128) and the hash, where a tick would publish progress 0. After each receipt it is until the next transaction resets progress (run-txs.tsx:157, then run-txs.tsx:139-141), where a tick would publish 100 again. Those ticks are left out. This is why `RunTxsProperties.EventSound` can say that progress 100 is published only right after a receipt.
- Numbers.
  - Progress is a floating-point percentage in the source. The model uses integer percentages and Dafny's Euclidean division, which rounds down, also when the clock reads earlier than the send time. The `Math.max` with the previous progress, which is never negative, hides the difference from the source's real division in that case.
  - The fee is `gas * price` in wei. The source's BigNumber `shiftedBy(-18)` conversion to CELO is not modelled.
- RunTxsSpec.ToLower: `toLowerCase` is modelled for ASCII letters only. Unicode case mapping is not modelled.
- Cfg.ResolveAccountsDBPath: the `as PathRoot` cast is unchecked in the source, so the root is any string and is not limited to "home" or "userData".
- Cfg.ResolveNetworkURL: `defaultNetworks` is a plain JavaScript object, and the model reads it as a finite map without inherited keys. In the source, a chain id such as "constructor", "toString" or "__proto__" finds a member inherited from `Object.prototype`, which is truthy, so `||` would take it as the URL.
- Cfg.NetworkName: the same holds for `networkNames`. An inherited key such as "toString" would yield the inherited member in the source instead of the `ChainId: …` fallback.
- `process.env` is a finite map from names to strings. An empty value counts as unset, as JavaScript `||` does.
- The ERC-20 registry, the devchain list and the test chain id are parameters. The conversion descriptor of a token is an opaque value.
- The transaction runner names the configured network `cfg.networkId`, a field the configuration does not define; the configuration's field is `chainId`. The model passes the expected network id to `Runner` as a parameter and does not tie it to `Cfg`.
- `explorerRootURL` and the ERC-20 selection read `CFG().chainId`. In the model they take the chain id as a parameter. `registeredErc20s` is evaluated once at module load.
