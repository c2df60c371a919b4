# platform-tui core: wallet selection, identity-registration core steps, strategy registry

This project models three parts of the Dash Platform terminal client:

- **Wallet** (`wallet.dfy`, module `Wallet`). A single-key wallet that holds its unspent outputs in a map. It has three operations:
  - a greedy output selection (`take_unspent_utxos_for`). It walks the outputs in the map's iteration order until they cover an amount, removes the outputs it took, and returns them with the change.
  - the balance.
  - construction of the asset-lock transaction used to fund an identity. This transaction has a burn output to a one-time key, a change output back to the wallet, and an asset-lock payload with one credit output of 1 Dash.
- **Identity registration** (`identity.dfy`, module `Identity`). The core half of `register_identity`:
  - build the lock transaction and keep the one-time key;
  - ask for the chain status;
  - subscribe to transactions with proofs from the best block;
  - broadcast the transaction;
  - wait on the stream for instant-send lock messages.

  The wait loop is a method over a finite sequence of stream reads.
- **Strategy registry** (`strategies.dfy`, module `Strategies`). The registry tasks of `run_strategy_task`: create, select, delete and clone strategies, and edit their contracts, operations, start identities and identity inserts. The registry's three pieces of shared state are the fields of one class.

`wrappers.dfy` holds the shared `Option`, `Result` and byte types.

Model notes:
- A `HashMap`'s iteration order is not determined by the code. The selection therefore takes the order as a parameter: a sequence that lists every key exactly once (`Enumerates`).
- The balance is defined independently of any order (`TotalValue`), and the lemmas connect the two.
- Notes on what the code does:
  - The lock transaction has exactly two outputs, burn and change. The 1-Dash credit output lives only inside the asset-lock payload.
  - The change is the surplus of the taken outputs over the amount. No fee and no credit-output value is deducted, so a 150000000 output and a request for 100000000 give 50000000 change (`SingleOutputScenario`).
  - The wait accepts the first instant-send lock message that arrives and does not compare it with the transaction.
  - The selection walks the outputs in the map's iteration order, not in outpoint order.

## Model

| member | source | states |
|---|---|---|
| Wallet.SingleKeyWallet.TakeUnspentUtxosFor | src/backend/wallet.rs:335-366 | The result is `Select` of the old outputs in the walk order. On success exactly the taken outputs are removed from the wallet; on a shortfall the wallet is unchanged. |
| Wallet.SingleKeyWallet.Walk | src/backend/wallet.rs:341-353 | The loop stops after exactly `TakeCount` outputs. Its counter equals amount minus the walked value and never leaves the i64 range. The taken entries are the walked outputs tagged with the wallet's key and address. |
| Wallet.WalkContinues | src/backend/wallet.rs:344-348 | While outputs remain and the walked value falls short, the selection takes at least one more output. |
| Wallet.WalkEnds | src/backend/wallet.rs:344-358 | A walk that stopped, because the order is exhausted or the amount is covered, has taken exactly `TakeCount` outputs. The outcome is then a shortfall exactly when the walked value is below the amount. |
| Wallet.TakenMapStep | src/backend/wallet.rs:349-352 | Listing one more output adds exactly its tagged entry to the taken map. |
| Wallet.SingleKeyWallet.RemoveOutputs | src/backend/wallet.rs:360-363 | The wallet afterwards holds its old outputs minus the given keys. |
| Wallet.TakeCount | src/backend/wallet.rs:344-353 | The walk stops at the shortest prefix whose value reaches the amount, or at the end of the walk. Every shorter prefix falls short. |
| Wallet.GreedyFrom | src/backend/wallet.rs:344-353 | From `i` taken outputs, the walk continues exactly while the running sum is below the amount. |
| Wallet.SelectFailsIffShort | src/backend/wallet.rs:355-358 | The selection fails if and only if the wallet's total balance is below the amount, for every iteration order. |
| Wallet.SelectCovers | src/backend/wallet.rs:344-365 | On success the taken value covers the amount and the change is exactly taken value minus amount. The taken set is a greedy prefix: dropping its last output would fall short. Each entry carries the wallet's public key and address. |
| Wallet.SelectZeroAmount | src/backend/wallet.rs:341-347 | An amount of zero takes nothing and gives zero change. |
| Wallet.BalanceAfterSelect | src/backend/wallet.rs:360-363 | Removing the taken outputs lowers the balance by exactly their value. |
| Wallet.RemainderValue | src/backend/wallet.rs:360-363 | What remains after removing a walked prefix is worth the rest of the walk. |
| Wallet.NoDoubleAllocation | src/backend/wallet.rs:339-363 | A second selection on what the first left behind never takes an output the first reserved. |
| Wallet.SingleOutputScenario | src/backend/wallet.rs:341-365 | One 150000000 output and a request of 100000000 take that output with change 50000000. |
| Wallet.BalanceOfEnumeration | src/backend/wallet.rs:330-333 | Summing the outputs in any iteration order gives the order-free balance. |
| Wallet.TakenValueOfPrefix | src/backend/wallet.rs:349-352 | The value of the taken entries equals the value of the walked prefix. |
| Wallet.WalkStep | src/backend/wallet.rs:348-352 | One loop step adds the next output's value to the running sum, stays within the balance, and records the next output tagged with key and address. |
| Wallet.ValueOfAppend | src/backend/wallet.rs:330-333 | The value of a concatenation of key lists is the sum of the values of the parts. |
| Wallet.ValueOfAgree | src/backend/wallet.rs:349-352 | Two output maps that agree on the listed keys give those keys the same value. |
| Wallet.ValueOfDistinct | src/backend/wallet.rs:330-333 | A duplicate-free list of keys sums to the order-free sum over its elements. |
| Wallet.PrefixValueBounded | src/backend/wallet.rs:344-348 | The value of a prefix of the walk never exceeds the value of the whole walk. |
| Wallet.SumOverPick | src/backend/wallet.rs:330-333 | The order-free sum can be split at any chosen output, so the balance does not depend on which output is taken out first. |
| Wallet.SingleKeyWallet.Balance | src/backend/wallet.rs:330-333 | The balance computed by iterating the map equals the order-free total of the output values. |
| Wallet.SingleKeyWallet.ChangeAddress | src/backend/wallet.rs:368-370 | Change goes to the wallet's own address. |
| Wallet.SingleKeyWallet.PrivateKeyForAddress | src/backend/wallet.rs:372-377 | For its own address the wallet returns its private key; any other address is rejected. |
| Wallet.SingleKeyWallet.RegistrationTransaction | src/backend/wallet.rs:42-153 | It fails with "Not enough balance in wallet", leaving the wallet unchanged, exactly when the balance is below the amount. Otherwise the taken outputs are removed and the result is the version-3 transaction with lock time 0 and outputs [burn of `amount` to the one-time key hash, change to the wallet address]. The asset-lock payload has version 0 and one 1-Dash OP_RETURN credit output. The one-time key is returned. |
| Wallet.LockTransaction | src/backend/wallet.rs:66-105 | Version 3 with lock time 0 and exactly two outputs. The first burns `amount` to the one-time key hash; the second pays `change` to the change address's key hash. The outputs total amount plus change. The asset-lock payload's only credit output is 1 Dash to an empty OP_RETURN. |
| Wallet.LockOutputsSpendTakenValue | src/backend/wallet.rs:60-81 | Burn plus change spend exactly the value of the taken outputs. |
| Wallet.AsI64 | src/backend/wallet.rs:341 | The u64-to-i64 cast keeps amounts within the signed range and turns larger ones negative (amount minus 2^64). |
| Wallet.WalkAsWritten | src/backend/wallet.rs:341-353 | The loop as written, with the counter starting at any value. It stops at once when the counter is not positive. While every output value fits in i64, the counter never leaves the i64 range. |
| Wallet.SelectAsWritten | src/backend/wallet.rs:335-366 | The selection as written for every u64 amount, built on `WalkAsWritten` from `AsI64(amount)`. It can report a shortfall only for amounts in the signed range, and it takes only outputs of the wallet. |
| Wallet.WalkAsWrittenTracksSelect | src/backend/wallet.rs:341-353 | Within the signed range the loop as written stops where `TakeCount` stops, with the counter at amount minus the walked value. |
| Wallet.ValueOfStep | src/backend/wallet.rs:348 | Walking one more output adds its value to the walked value. |
| Wallet.WalkStops | src/backend/wallet.rs:344-347 | A walk that ran out of outputs or covered the amount has taken exactly `TakeCount` outputs. |
| Wallet.HugeAmountsGranted | src/backend/wallet.rs:341-365 | As written, every amount above 2^63 and below 2^64 is granted with nothing taken and change 2^64 minus amount, regardless of the balance. |
| Wallet.HugeAmountAsWritten | src/backend/wallet.rs:341-365 | As written, an empty wallet asked for 2^64 - 1 returns an empty selection with change 1. The corrected selection reports a shortfall. |
| Wallet.AsWrittenAgreesInRange | src/backend/wallet.rs:341-365 | For amounts within the signed range, the selection as written equals `Select`, for every iteration order. |
| Identity.FirstDecisive | src/app/identity.rs:123-137 | Every read before the returned position is a response without lock messages, and the read at that position is not one. |
| Identity.WaitForInstantSendLockMessages | src/app/identity.rs:119-146 | The loop returns `WaitOutcome` of the stream after consuming `ReadsConsumed` reads: the first lock messages, the first read error, or "steam closed unexpectedly" when the stream ends first. |
| Identity.DecisiveAfterSkipped | src/app/identity.rs:129-137 | Responses the wait passes over only shift where the wait ends. |
| Identity.WaitReturnsFirstLock | src/app/identity.rs:129-134 | The wait returns the first lock messages whatever they contain, and reads nothing after them. |
| Identity.WaitFailsOnReadError | src/app/identity.rs:124-127 | A read error ends the wait with that error, even when a lock would follow. |
| Identity.WaitFailsWhenClosed | src/app/identity.rs:138-142 | A stream that ends before any lock gives the stream-closed error after reading everything. |
| Identity.NetworkSteps | src/app/identity.rs:56-87 | The requests are status query, then subscription from the reported best block hash, then broadcast without high fees or limit bypass, then the wait. Each step runs if and only if the one before succeeded. A stop returns that step's own error: the status error or "missing `chain` field", the subscription error, or the broadcast error. After all four steps the result is the wait's locks as a confirmed lock, or the wait's error. |
| Identity.SubscribeBeforeBroadcast | src/app/identity.rs:64-82 | Whenever the transaction is broadcast, the subscription was opened earlier. |
| Identity.AppState.RegisterIdentity | src/app/identity.rs:17-87 | Without a loaded wallet it does nothing. On a shortfall it fails with the wallet error, sends no request and changes nothing. Otherwise it removes the taken outputs, keeps the one-time key's secret, and ends as `NetworkSteps` of the lock transaction says. |
| Strategies.DisplayNames | src/backend/strategies.rs:225-235 | An empty selection gives no display entry, and any other selection gives exactly one. |
| Strategies.DisplayNamesRoundTrip | src/backend/strategies.rs:225-235 | Reading a display entry back (contract, then updates in position order) gives the original selection. |
| Strategies.UpdatesFromSelection | src/backend/strategies.rs:228-233 | The update names under positions `from` onwards are the selection from `from` onwards. |
| Strategies.CreatedFromSelection | src/backend/strategies.rs:165-223 | A contract is built exactly when the selection is non-empty and its first name converts. Its updates are exactly the later names that converted, each under its position, and they are recorded as no updates when none converted. |
| Strategies.UpdatesKeyedLikeDisplay | src/backend/strategies.rs:178-193 | Each update of a built contract sits under the same position as the name the display entry shows for it. |
| Strategies.StrategyRegistry.constructor | src/backend/strategies.rs:52-59 | The registry starts empty and consistent. |
| Strategies.StrategyRegistry.CreateStrategy | src/backend/strategies.rs:61-80 | The name is mapped to an empty strategy and to no contract names, replacing any earlier entry; the selection is kept. |
| Strategies.StrategyRegistry.SelectStrategy | src/backend/strategies.rs:81-99 | A known name becomes the selection and the event carries its strategy and names. An unknown name changes nothing and gives no event. |
| Strategies.StrategyRegistry.DeleteStrategy | src/backend/strategies.rs:100-124 | A known name leaves both maps, and the selection is cleared if it named that strategy. An unknown name changes nothing. |
| Strategies.StrategyRegistry.CloneStrategy | src/backend/strategies.rs:125-155 | The selected strategy and its names are copied under the new name, and the original and the selection are kept. Without a selected, known strategy nothing changes. |
| Strategies.StrategyRegistry.SetContractsWithUpdates | src/backend/strategies.rs:156-258 | The built contract, if any, is appended to the strategy's contracts, and the display entry is always appended. Strategies and display entries stay aligned if and only if a contract was built or the selection was empty. An unknown name changes nothing. |
| Strategies.StrategyRegistry.SetIdentityInserts | src/backend/strategies.rs:279-298 | Only the strategy's identity-insert frequency changes. |
| Strategies.StrategyRegistry.SetStartIdentities | src/backend/strategies.rs:299-324 | The strategy's start identities are replaced, and the event reports the task with "Start identities set". |
| Strategies.StrategyRegistry.AddOperation | src/backend/strategies.rs:259-278 | The operation is appended to the strategy's operations. |
| Strategies.StrategyRegistry.RemoveLastContract | src/backend/strategies.rs:424-451 | The last contract and the last display entry are popped together, which keeps them aligned. |
| Strategies.StrategyRegistry.RemoveIdentityInserts | src/backend/strategies.rs:452-471 | The identity inserts are reset to an empty range with no chance. |
| Strategies.StrategyRegistry.RemoveStartIdentities | src/backend/strategies.rs:472-488 | The start identities are emptied. |
| Strategies.StrategyRegistry.RemoveLastOperation | src/backend/strategies.rs:489-505 | The last operation is popped, and nothing changes when there is none. |
| Strategies.StrategyRegistry.RunStrategyTask | src/backend/strategies.rs:52-505 | A task reports no event exactly when it finds no strategy to act on (no selected strategy, for a clone), and then it changes nothing. Every task keeps both maps on the same names and the selection on a known strategy. |
| Strategies.AddThenRemoveOperation | src/backend/strategies.rs:259-278 | Adding an operation and then removing the last one restores the registry. |

## Left out

- Transaction inputs and signing are not part of the model. The model builds the transaction without inputs.
- Wallet.SingleKeyWallet.RegistrationTransaction: the source builds its inputs through an unfinished placeholder (`todo!()` at src/backend/wallet.rs:85-92). That placeholder aborts the program as soon as one output is taken, after the outputs were already removed. The model continues past it, so its success case describes the intended flow rather than the abort.
- The sighash computation (src/backend/wallet.rs:94-110) and the commented-out signing (lines 112-150) are not modelled.
- Wallet.SingleKeyWallet.TakeUnspentUtxosFor: requires the amount and the balance to fit in i64, the range where the source's signed counter is exact. For larger amounts, the behaviour as written is `SelectAsWritten` (see Findings).
- Wallet.SelectAsWritten: output values of 2^63 or more are not modelled; their `as i64` cast at src/backend/wallet.rs:348 turns them negative. At an amount of exactly 2^63, `required.abs()` at :365 panics in a debug build; the model gives the release-build result.
- Wallet.SingleKeyWallet.Balance: returns the unbounded total. The source's u64 `.sum()` at src/backend/wallet.rs:332 panics (debug) or wraps (release) once the total exceeds 2^64 - 1.
- The random one-time key is a parameter (`oneTimeKey`, `oneTimeKeyHash`), because random number generation and secp256k1 key derivation are not part of this model. So are the wallet's `HashMap` iteration order (`order`) and the network's replies (`replies`).
- The bloom filter built for the subscription (src/app/identity.rs:34-54) is not modelled; the subscription request records only the block hash it starts from.
- Identity.AppState.RegisterIdentity: after a successful wait the source reaches unfinished platform steps (`todo!()` at src/app/identity.rs:95 and :105). The model stops there with `LockConfirmed`.
- Identity.WaitForInstantSendLockMessages: a stream that blocks forever is not modelled. The stream is a finite sequence whose end is end-of-stream.
- Locks, `async` and concurrent access to the wallet and registry maps are not modelled. Each task is one atomic step.
- The `Wallet` enum has a single variant, so its delegating methods are modelled directly on `SingleKeyWallet`. These are at src/backend/wallet.rs:34-40, 155-159, 174-193.
- Not modelled: `balance_dash_formatted`, because it formats a floating-point value.
- Not modelled: `description`, a display string.
- Not modelled: `reload_utxos`, which fetches outputs over the network.
- Not modelled: the wallet's clone and binary encode/decode, which are serialization.
- The conversion of a wallet error into a registration error is the constructor `FromWalletError`; its message formatting is not modelled.
- Strategies: `RunStrategy`, `set_start_identities`' generation of identities and `fetch_documents_with_block_info` are not modelled, because they drive the strategy library and the network. `SetStartIdentities` and `SetContractsWithUpdates` take what the library produces as parameters: the generated identities, and the per-position conversion results of the selected contract names.
- Strategies.EntryNames: the user interface lists all update keys in increasing order, while `EntryNames` reads consecutive positions from 1. The two agree on every entry `DisplayNames` builds, whose positions have no gaps.

## Findings

| source | as written | input that shows it | evidently intended | confidence | as-written member | corrected member |
|---|---|---|---|---|---|---|
| src/backend/wallet.rs:341 | The counter starts at `amount as i64`, which is negative for amounts of 2^63 or more. The walk then stops at once and returns an empty selection with the counter's magnitude as change. | An empty wallet and amount 18446744073709551615 give an empty selection with change 1. | Report "Not enough balance in wallet" whenever the balance is below the amount. | high; not executed | Wallet.HugeAmountAsWritten | Wallet.SelectFailsIffShort |
