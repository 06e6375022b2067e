# WalletKit-iOS core, modelled in Dafny

This project models four parts of the WalletKit-iOS Bitcoin wallet library:

- **Coin selection** (`coin_selection.dfy`, module `CoinSelection`): the single-input,
  no-change selector `UnspentOutputSelectorSingleNoChange.select`. It returns the first
  spendable output, in snapshot order, that covers the value and the fee and leaves a surplus
  below the dust bound. It throws `wrongValue`, `emptyOutputs` or `notEnough(maxFee: 0)`.
- **Header sync** (`header_syncer.dfy`, module `HeaderSync`): `HeaderSyncer.sync()` builds a
  locator of one or two header hashes from the non-archived blocks and sends it to the peer
  manager. The checkpoint is the lowest non-archived block, and the tip the highest one above
  it. Without a tip the locator is the checkpoint alone. Otherwise it is the tip, then the
  block 99 below the tip when the tip is at least 100 above the checkpoint and that block is
  known, else the checkpoint. It throws `noCheckpointBlock` when there is no non-archived
  block.
- **Initial sync** (`initial_syncer.dfy`, module `InitialSync`): `InitialSyncer` discovers the
  accounts one after another. It combines the external and internal chain of each account,
  registers the keys and stores the de-duplicated, height-sorted block hashes. It stops at the
  first account without blocks, or at the first failure. The class keeps the pending
  subscriptions, and an ordered log of the calls it makes: one entry per account whose
  discovery starts (its two `discoverBlockHashes` calls together), then each `addKeys`,
  `storage.add`, `errorStorage.add` and delegate callback in turn. It also keeps one view of
  that log per collaborator. Logger calls are not recorded. `Discover` is the
  specification of the whole run, given the combined discovery of each account;
  `Combined` builds those results from the two chains.
- **Wallet views** (`data_provider.dfy`, module `WalletView`): `DataProvider.transactionInfo`,
  `balance` with its unspent-output query, `blockInfo` and `lastBlockInfo`.

`common.dfy` (module `Common`) holds the optional type, the script types and the hash type.

Three points of the code's behaviour are easy to misread; the model follows the code:

- The dust bound uses the requested `changeType`. The comment at line 26 of the selector says
  a P2PKH change output.
- The keys of the terminal account with no blocks are registered, because `addKeys` runs
  before the emptiness test.
- Stored block hashes are non-decreasing in height, not strictly ascending. Two different
  blocks may share a height, and the sort only orders by height.

## Model

| member | source | states |
|---|---|---|
| CoinSelection.Dust | BitcoinCore/BitcoinCore/Managers/UnspentOutputSelectorSingleNoChange.swift:26 | the dust bound, the cost of a change output of the requested change type and of spending it later, is non-negative at a non-negative fee rate and zero at fee rate zero |
| CoinSelection.Fee | BitcoinCore/BitcoinCore/Managers/UnspentOutputSelectorSingleNoChange.swift:31 | the fee of a one-input, one-output transaction at the fee rate is non-negative at a non-negative fee rate and zero at fee rate zero |
| CoinSelection.Fits | BitcoinCore/BitcoinCore/Managers/UnspentOutputSelectorSingleNoChange.swift:33 | the acceptance window of the scan, value plus fee up to but excluding value plus fee plus dust, is empty unless the dust bound and so the fee rate are positive |
| CoinSelection.FirstFit | BitcoinCore/BitcoinCore/Managers/UnspentOutputSelectorSingleNoChange.swift:29-36 | the index found holds an output that covers value plus fee with a surplus below the dust bound, and no earlier output does; none found means no output qualifies |
| CoinSelection.Select | BitcoinCore/BitcoinCore/Managers/UnspentOutputSelectorSingleNoChange.swift:17-39 | `wrongValue` iff value <= 0; `emptyOutputs` iff the value is positive and the snapshot empty; `notEnough(0)` iff no output qualifies; otherwise the first qualifying output alone, with its value as total, the surplus as fee when the sender pays or the computed fee otherwise, and no change output |
| CoinSelection.SelectedCoversValueAndFee | BitcoinCore/BitcoinCore/Managers/UnspentOutputSelectorSingleNoChange.swift:32-34 | a selection is one output from the snapshot that pays value and fee with less than dust left over; when the sender pays, total = value + fee and the fee is at least the computed fee |
| CoinSelection.FirstFitAppendFound | BitcoinCore/BitcoinCore/Managers/UnspentOutputSelectorSingleNoChange.swift:29-35 | the scan stops at the first qualifying output, so appending outputs does not change it |
| CoinSelection.FirstFitAppendMissed | BitcoinCore/BitcoinCore/Managers/UnspentOutputSelectorSingleNoChange.swift:29-35 | when no output of a prefix qualifies, the scan's answer is the suffix's answer shifted by the prefix length |
| CoinSelection.SelectIgnoresLaterOutputs | BitcoinCore/BitcoinCore/Managers/UnspentOutputSelectorSingleNoChange.swift:29-35 | outputs after a selected one never change the selection |
| CoinSelection.SelectSkipsUnfitOutputs | BitcoinCore/BitcoinCore/Managers/UnspentOutputSelectorSingleNoChange.swift:29-38 | outputs that do not qualify are passed over: the result equals the result over the outputs after them |
| CoinSelection.SenderPaysSurplusExample | BitcoinCore/BitcoinCore/Managers/UnspentOutputSelectorSingleNoChange.swift:31-34 | value 50000, fee 150, dust 200: the output of 50200 is taken and the reported fee is 200 |
| CoinSelection.RecipientPaysExample | BitcoinCore/BitcoinCore/Managers/UnspentOutputSelectorSingleNoChange.swift:32-34 | with the recipient paying, a too-small and a too-large output are skipped and the computed fee 150 is reported |
| HeaderSync.CheckpointIndex | WalletKit/WalletKit/Managers/HeaderSyncer.swift:24-26 | none iff every block is archived; otherwise a non-archived block of least height |
| HeaderSync.HighestIndexAbove | WalletKit/WalletKit/Managers/HeaderSyncer.swift:30 | none iff no non-archived block is above the floor; otherwise a non-archived block above it of greatest height |
| HeaderSync.IndexAtHeight | WalletKit/WalletKit/Managers/HeaderSyncer.swift:34 | none iff no non-archived block has that height; otherwise such a block |
| HeaderSync.LocatorOf | WalletKit/WalletKit/Managers/HeaderSyncer.swift:21-41 | fails, with `noCheckpointBlock`, iff every block is archived; otherwise one or two hashes |
| HeaderSync.LocatorOfHashes | WalletKit/WalletKit/Managers/HeaderSyncer.swift:21-41 | the checkpoint alone without a tip; else the tip then the block at tip - 99 when the tip is at least 100 above the checkpoint and that block is known, else the tip then the checkpoint |
| HeaderSync.LocatorStartsAtHighest | WalletKit/WalletKit/Managers/HeaderSyncer.swift:24-31 | the first hash sent is that of a highest non-archived block |
| HeaderSync.BuildLocator | WalletKit/WalletKit/Managers/HeaderSyncer.swift:21-41 | appending hash after hash builds exactly the locator `LocatorOf` describes |
| HeaderSync.PeerManager.RequestHeaders | WalletKit/WalletKit/Managers/HeaderSyncer.swift:43 | the locator is appended to the requests made |
| HeaderSync.HeaderSyncer.Sync | WalletKit/WalletKit/Managers/HeaderSyncer.swift:21-44 | throws `noCheckpointBlock` iff every block is archived, and then requests nothing; otherwise exactly one request, carrying the locator `LocatorOf` describes |
| InitialSync.Unique | BitcoinCore/Classes/Managers/InitialSync/InitialSyncer.swift:39 | `.unique` is no longer than its input and keeps its first block |
| InitialSync.SortByHeight | BitcoinCore/Classes/Managers/InitialSync/InitialSyncer.swift:39 | sorting keeps the number of blocks |
| InitialSync.UniqueKeepsOnePerHash | BitcoinCore/Classes/Managers/InitialSync/InitialSyncer.swift:39 | `.unique` keeps only blocks of its input, loses no header hash, and keeps no hash twice |
| InitialSync.InsertByHeightPermutes | BitcoinCore/Classes/Managers/InitialSync/InitialSyncer.swift:39 | inserting a block adds exactly that block to the multiset |
| InitialSync.InsertByHeightSorted | BitcoinCore/Classes/Managers/InitialSync/InitialSyncer.swift:39 | inserting into a height-sorted sequence keeps it sorted |
| InitialSync.InsertByHeightDistinct | BitcoinCore/Classes/Managers/InitialSync/InitialSyncer.swift:39 | inserting a block with a new hash keeps hashes distinct |
| InitialSync.SortByHeightPermutes | BitcoinCore/Classes/Managers/InitialSync/InitialSyncer.swift:39 | the sort is a permutation of its input and sorted by height |
| InitialSync.SortByHeightDistinct | BitcoinCore/Classes/Managers/InitialSync/InitialSyncer.swift:39 | sorting keeps distinct header hashes distinct |
| InitialSync.Combined | BitcoinCore/Classes/Managers/InitialSync/InitialSyncer.swift:30-42 | account `a`'s combined discovery, from its external then its internal chain, fails iff either of the two chains fails |
| InitialSync.Combine | BitcoinCore/Classes/Managers/InitialSync/InitialSyncer.swift:33-42 | the result fails iff either chain failed; a success has no more blocks than both chains together, and some block when either chain found one |
| InitialSync.CombineMerges | BitcoinCore/Classes/Managers/InitialSync/InitialSyncer.swift:33-42 | the first failure of external then internal is the result; otherwise the keys are external then internal, and the blocks are sorted by height, distinct by hash, drawn from both chains and cover every hash of both |
| InitialSync.CombineEmptyIffNoBlocks | BitcoinCore/Classes/Managers/InitialSync/InitialSyncer.swift:36-42 | the combined blocks are empty iff neither chain found any |
| InitialSync.StepCallsInOrder | BitcoinCore/Classes/Managers/InitialSync/InitialSyncer.swift:56-77 | within one arriving discovery, the next account is started only right after its keys are registered and a non-empty batch is stored; a callback is the last call; the per-collaborator views are projections of the ordered log |
| InitialSync.DiscoverCallsInOrder | BitcoinCore/Classes/Managers/InitialSync/InitialSyncer.swift:56-77 | over a whole run, every account start after the first comes right after an `addKeys` call and a non-empty `storage.add` call (whose keys and batch they are is stated by `DiscoverRegistersKeysInOrder` and `DiscoverStoresBatchesInOrder`); a callback is the run's last call; the per-collaborator views are projections of the ordered log |
| InitialSync.StepOf | BitcoinCore/Classes/Managers/InitialSync/InitialSyncer.swift:56-77 | each arriving discovery makes exactly one callback or starts one account, the latter iff it found blocks; it stores an error iff it failed and registers keys iff it succeeded |
| InitialSync.Discover | BitcoinCore/Classes/Managers/InitialSync/InitialSyncer.swift:56-77 | a run starts at most one account per discovery that arrives, and stores one batch per account it starts |
| InitialSync.DiscoverQueriesInOrder | BitcoinCore/Classes/Managers/InitialSync/InitialSyncer.swift:56-67 | the accounts started after account a are a+1, a+2, ... in order |
| InitialSync.DiscoverRegistersKeysInOrder | BitcoinCore/Classes/Managers/InitialSync/InitialSyncer.swift:56-58 | for any per-account results, the i-th `addKeys` call carries the keys of account a+i |
| InitialSync.RegistersChainKeys | BitcoinCore/Classes/Managers/InitialSync/InitialSyncer.swift:33-58 | the i-th `addKeys` call carries the external then the internal keys of account a+i |
| InitialSync.DiscoverStoresBatchesInOrder | BitcoinCore/Classes/Managers/InitialSync/InitialSyncer.swift:61-66 | for any per-account results, the i-th stored batch is the blocks of account a+i |
| InitialSync.StoresStorableBatches | BitcoinCore/Classes/Managers/InitialSync/InitialSyncer.swift:39-66 | every batch stored is non-empty, sorted by height and distinct by header hash |
| InitialSync.DiscoverOutcome | BitcoinCore/Classes/Managers/InitialSync/InitialSyncer.swift:56-77 | one batch stored per account started; at most one callback; no callback iff the fuel ran out; a success registers one more key list than accounts started; a failure stores its error once and registers nothing of its account |
| InitialSync.DiscoverEndsAt | BitcoinCore/Classes/Managers/InitialSync/InitialSyncer.swift:56-77 | the run ends at the last account started (the one after the last account whose blocks were stored): a success means its discovery found no blocks, a failure means it failed with the reported error |
| InitialSync.EndsAtChains | BitcoinCore/Classes/Managers/InitialSync/InitialSyncer.swift:33-77 | a success means both chains of the last account were found with no blocks; a failure reports the external error if that chain failed, otherwise the internal one |
| InitialSync.PendingAfter | BitcoinCore/Classes/Managers/InitialSync/InitialSyncer.swift:53-88 | after a run at most one subscription is still pending, for an account from the first one up to `fuel` accounts past it |
| InitialSync.PendingAfterLastStarted | BitcoinCore/Classes/Managers/InitialSync/InitialSyncer.swift:61-66 | a subscription stays pending only while no callback was made, and it is the last account started (the one after the last account whose blocks were stored) |
| InitialSync.InitialSyncer.constructor | BitcoinCore/Classes/Managers/InitialSync/InitialSyncer.swift:18-27 | nothing pending, no calls made |
| InitialSync.InitialSyncer.SyncForAccount | BitcoinCore/Classes/Managers/InitialSync/InitialSyncer.swift:29-54 | the account's discovery is subscribed and recorded as started; nothing else changes |
| InitialSync.InitialSyncer.Sync | BitcoinCore/Classes/Managers/InitialSync/InitialSyncer.swift:83-85 | discovery of account 0 is subscribed |
| InitialSync.InitialSyncer.Terminate | BitcoinCore/Classes/Managers/InitialSync/InitialSyncer.swift:87-89 | every pending subscription is dropped; nothing already done is undone |
| InitialSync.InitialSyncer.HandleAccount | BitcoinCore/Classes/Managers/InitialSync/InitialSyncer.swift:56-67 | the calls come in source order: keys are registered first; then no blocks means one success callback, otherwise the batch is stored and only then account+1 is started |
| InitialSync.InitialSyncer.HandleError | BitcoinCore/Classes/Managers/InitialSync/InitialSyncer.swift:73-77 | the error is stored and then reported once to the delegate, as the last call |
| InitialSync.InitialSyncer.Deliver | BitcoinCore/Classes/Managers/InitialSync/InitialSyncer.swift:48-53 | a dropped subscription delivers nothing; a live one is consumed and its combined result handled as one step of the run |
| InitialSync.InitialSyncer.DeliverDiscovered | BitcoinCore/Classes/Managers/InitialSync/InitialSyncer.swift:29-67 | a live account receives its combined discovery: the calls are one step of `Discover`, and it moves on exactly when blocks were found |
| InitialSync.InitialSyncer.RunFrom | BitcoinCore/Classes/Managers/InitialSync/InitialSyncer.swift:56-67 | the discoveries from an account on make exactly the calls `Discover` describes, and replace its subscription by the one left pending |
| InitialSync.InitialSyncer.Run | BitcoinCore/Classes/Managers/InitialSync/InitialSyncer.swift:29-85 | `sync()` followed by the discoveries arriving makes exactly the calls `Discover` describes; afterwards only the last account started (the one after the last account whose blocks were stored) is pending, and only when no callback was made |
| WalletView.FromAddresses | HSBitcoinKit/HSBitcoinKit/Core/DataProvider.swift:103-107 | at most one `from` entry per input |
| WalletView.ToAddresses | HSBitcoinKit/HSBitcoinKit/Core/DataProvider.swift:110-121 | at most one `to` entry per output |
| WalletView.TransactionInfoOf | HSBitcoinKit/HSBitcoinKit/Core/DataProvider.swift:90-133 | the hash is the transaction's; amount = value received by the wallet - value of the wallet's outputs spent; the from and to lists as specified; height and timestamp absent without a block |
| WalletView.MineInputTotal | HSBitcoinKit/HSBitcoinKit/Core/DataProvider.swift:96-101 | the value of the wallet's outputs that the inputs spend is zero when no input spends one, and non-negative when those outputs' values are |
| WalletView.MineOutputTotal | HSBitcoinKit/HSBitcoinKit/Core/DataProvider.swift:110-116 | the value the outputs pay to the wallet is zero when no output has a public key, and non-negative when those outputs' values are |
| WalletView.MineInputTotalConcat | HSBitcoinKit/HSBitcoinKit/Core/DataProvider.swift:96-101 | the spent value is additive over the inputs |
| WalletView.MineOutputTotalConcat | HSBitcoinKit/HSBitcoinKit/Core/DataProvider.swift:110-116 | the received value is additive over the outputs |
| WalletView.InputNotSpendingMineAddsNothing | HSBitcoinKit/HSBitcoinKit/Core/DataProvider.swift:96-101 | an input whose previous output is unknown or not the wallet's adds 0 to the spent value |
| WalletView.InputSpendingMineAddsItsValue | HSBitcoinKit/HSBitcoinKit/Core/DataProvider.swift:97-100 | an input spending the wallet's output adds exactly that output's value |
| WalletView.FromAddressesConcat | HSBitcoinKit/HSBitcoinKit/Core/DataProvider.swift:105-107 | `from` entries follow input order |
| WalletView.ToAddressesConcat | HSBitcoinKit/HSBitcoinKit/Core/DataProvider.swift:118-120 | `to` entries follow output order |
| WalletView.FromAddressesOfAddressedInputs | HSBitcoinKit/HSBitcoinKit/Core/DataProvider.swift:103-107 | with every input addressed, entry k is input k's address, mine iff its previous output has a public key |
| WalletView.FromAddressesSkipUnaddressed | HSBitcoinKit/HSBitcoinKit/Core/DataProvider.swift:105 | an input without address adds no entry |
| WalletView.ToAddressesOfAddressedOutputs | HSBitcoinKit/HSBitcoinKit/Core/DataProvider.swift:111-120 | with every output addressed, entry k is output k's address, mine iff it has a public key |
| WalletView.ToAddressesSkipUnaddressed | HSBitcoinKit/HSBitcoinKit/Core/DataProvider.swift:118 | an output without address adds no entry |
| WalletView.Spendable | HSBitcoinKit/HSBitcoinKit/Core/DataProvider.swift:77-79 | an output that passes the three filters of the unspent-output query belongs to the wallet (has a public key) |
| WalletView.UnspentOutputs | HSBitcoinKit/HSBitcoinKit/Core/DataProvider.swift:75-80 | an output is in the query's result iff it is stored, has a public key, a known script type and no spending input |
| WalletView.SumValues | HSBitcoinKit/HSBitcoinKit/Core/DataProvider.swift:160-166 | the sum the balance loop adds up is never negative when no output value is |
| WalletView.Balance | HSBitcoinKit/HSBitcoinKit/Core/DataProvider.swift:159-167 | the balance is the sum of the values of the query's results |
| WalletView.UnspentOutputsConcat | HSBitcoinKit/HSBitcoinKit/Core/DataProvider.swift:75-80 | the query keeps store order |
| WalletView.SumValuesConcat | HSBitcoinKit/HSBitcoinKit/Core/DataProvider.swift:162-164 | the sum is additive |
| WalletView.BalanceSplits | HSBitcoinKit/HSBitcoinKit/Core/DataProvider.swift:159-167 | the balance of two groups of outputs is the sum of their balances |
| WalletView.BalanceCountsOutput | HSBitcoinKit/HSBitcoinKit/Core/DataProvider.swift:76-79 | each stored output adds its whole value when it passes all three filters, and nothing otherwise |
| WalletView.SpendingLowersBalance | HSBitcoinKit/HSBitcoinKit/Core/DataProvider.swift:79 | once an input spends an unspent output of the wallet, the balance drops by exactly its value |
| WalletView.BlockInfoOf | HSBitcoinKit/HSBitcoinKit/Core/DataProvider.swift:135-141 | the hash and height are the block's; the timestamp is the header's, absent iff the header is |
| WalletView.HighestIndex | HSBitcoinKit/HSBitcoinKit/Core/DataProvider.swift:86-88 | a block of greatest height, with every later row strictly lower |
| WalletView.LastBlockInfo | HSBitcoinKit/HSBitcoinKit/Core/DataProvider.swift:155-157 | absent iff the block table is empty; otherwise the description of a stored block of greatest height |
| WalletView.LastBlockInfoOfNewTip | HSBitcoinKit/HSBitcoinKit/Core/DataProvider.swift:155-157 | a block higher than every stored one becomes the last block |

## Left out

- The Rx plumbing of `InitialSyncer` is not modelled: observables, background scheduling and the `async` flag. A subscription's completion is one `Deliver` call with both chains' results.
- The logger, and the internals of `errorStorage`, are not modelled. An error handed to the storage is a log entry.
- InitialSync.Discover, InitialSync.InitialSyncer.RunFrom and InitialSync.InitialSyncer.Run: they carry a fuel bound on the number of accounts, because the source recursion is unbounded. A run out of fuel leaves its last account pending.
- Block discovery, the public-key manager and the block-hash storage are not modelled. They are a function parameter and logs of the calls they receive.
- InitialSync.SortByHeight: Swift's `sorted` is not guaranteed stable. The model is a stable sort, so blocks of equal height keep the order of `.unique`.
- InitialSync.Unique: `.unique` and `BlockHash` equality are not part of this model. They are modelled as keeping the first block of each header hash.
- HeaderSync.BuildLocator: the tip's hash goes through `reversedHeaderHashHex.reversedData`, which is assumed to succeed and give the header hash.
- HeaderSync.BuildLocator: the order among blocks of equal height in the store's sorted queries is not specified. The model takes the earliest row for the checkpoint and the latest for the tip.
- The Realm store, the shared singletons and the peer network are not modelled. Queries are sequences of records, and `requestHeaders` is a log.
- CoinSelection.Select: the transaction size calculator is not part of this model. Its three sizes are arbitrary natural-valued functions passed in, and `provider.spendableUtxo` is the snapshot parameter.
- DataProvider's notification tokens and `handleTransactions`/`handleBlocks`/`handleUnspentOutputs` are not modelled. `latestFeeRate` (DataProvider.swift:143-145) is a fee-rate query that no modelled operation uses, so it is not modelled either. The delegate only receives change notifications, which are not modelled.
- DataProvider's `transactions` property is not modelled. It maps `transactionInfo` over the query for the wallet's transactions, and the `isMine` flag that query filters on is not part of this model.
- DataProvider's `send`, `fee`, `parse`, `validate` and `receiveAddress` are not modelled. They only forward to collaborators not in this model.
- DataProvider's `debugInfo` string formatting and the `Double` progress callback are not modelled.
- WalletView.TransactionInfoOf and WalletView.Balance: Swift `Int` overflow traps are not modelled. Values are mathematical integers.
- CoinSelection.Select: Swift `Int` overflow traps on `value + totalFee + dust` and on the `* feeRate` products are not modelled. Values are mathematical integers.
- CoinSelection.Select: the default arguments `outputScriptType = .p2pkh` and `changeType = .p2pkh` are not modelled. Callers always pass both script types.
- InitialSync.InitialSyncer.HandleAccount and InitialSync.InitialSyncer.HandleError: the `weak delegate` and the optional `errorStorage` are not modelled as absent. The model always records the callback and the stored error, where the source skips them when these are nil.
- WalletView.LastBlockInfo: among blocks of equal height, the model reports the latest row. The store's order for them is not specified.
