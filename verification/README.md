# Verification of the token virtual machine

This project models `tokenvm`, a multi-asset ledger that runs as a deterministic transaction state machine,
and two Solidity contracts from the same repository, and proves what they promise.

* **Ledger.** Balances, asset records, limit orders and loans live in one key-value store. Ten actions read and
  write it; a transaction deducts a fee, runs one action, rolls a failed one back and refunds the unused fee.
* **Storage.** The store is kept as bytes: prefixed keys and hand-laid big-endian records. The storage methods are
  proved to do to the bytes what the typed operations do to the ledger.
* **Exchange.** Orders trade in whole ticks at exactly their price, over single fills and over whole runs.
* **Cross-chain transfers.** Any number of chains exchange signed messages. Loans on the home chain back wrapped
  supply, messages in flight and burns; no message between the chains can get stuck, and each pays the recipient
  its exporter named.
* **Order book.** An index of open orders, rebuilt from block results, agrees with the chain.
* **ERC20 and member registry.** The `unchecked` arithmetic of the token never wraps, and the registry of the
  organisation token stays consistent over every committed transaction.

## Reading guide

| file | contents |
|---|---|
| `Common`, `BigEndian`, `MapSums` | machine integers, big-endian codecs, sums over maps |
| `Warp`, `Payloads` | warp transfers, imported asset ids, payload round trips |
| `Ledger`, `Actions` | the typed store and the ten actions as functions |
| `Storage`, `StateDatabase`, `Execution` | bytes, the database object, the actions as they run on it |
| `Conservation`, `Soundness`, `Transactions`, `Genesis` | the ledger invariant, from genesis over every run |
| `Orders`, `OrderLife` | exact prices, path independence, lifetime accounts |
| `Imports`, `Effects`, `Refusals` | when actions succeed, what they move, and why they fail |
| `Entries`, `Authority` | every record and order after every action, and who may change it |
| `Footprint`, `FootprintTight`, `Canonical` | declared keys, none missing or superfluous; commutation; no stored zeros |
| `Flows`, `CrossChain`, `Delivery` | the cross-chain protocol, and each message from export to recipient |
| `OrderBooks`, `Controller` | the order book object and the block loop |
| `Erc20`, `MyDapp`, `MyDappEffects`, `MyDappContract` | the Solidity contracts |

An action appears twice, once as a function (`...Spec` in `Actions`) and once as a method of `Execution` that runs on
the database; the method's contract says they agree, and the properties are proved of the function. Failures
keep what was written before them, so rollback is visible rather than assumed away.

## What is assumed

* hypersdk, which is not part of this model, rolls back the writes of a failed action, keeps the fee steps around it,
  refunds at most what was deducted, lets a message be imported once, only where it is addressed and only
  with the source chain that signed it, and consumes it only when the import succeeds.
* hypersdk calls `Refund` also when nothing is left to refund. That caller is not in this repository; if it skips a zero
  refund, the zero balance of `Genesis.ZeroRefundStoresZero` cannot occur.
* A message with the empty destination can be imported on every chain, any number of times, which is more than
  hypersdk may allow. Only chains that run something else send one; exports refuse it.
* Transaction ids are fresh. In `CrossChain` this is derived: an id is used once, and the 32-byte hash behind
  imported asset ids has no collision among the ids of the run and never yields the empty id or a
  transaction id of the run. The hash is otherwise arbitrary.
* Actions reach execution through deserialization, which only lets well-formed ones through. This is used
  where it is needed (`Payloads.WellFormed`) and proved of the deserializers of imports and exports.
* Pair strings of different pairs differ and none is a star. Keccak hashes of different strings differ.
* The OpenZeppelin ERC20 imported by the organisation token behaves like the copy under `EVM-Subnet/DegenToken`.

## Where the code does not do what it says

* `storage.go` computes record offsets in 16-bit arithmetic: records with more than 65493 bytes of metadata need not
  read back (`Storage.ReadableIff`). No action stores more than 256 bytes.
* `genesis.go` sets balances but adds up the supply: it fails for a repeated address
  (`Genesis.RepeatedAddressUnbalanced`), and `Genesis.GenesisBalancesIff` gives the exact condition.
* A transaction with a zero refund can store a zero balance (`Genesis.ZeroRefundStoresZero`); `Canonical.TxCanonicalIff`
  gives the exact condition, `Canonical.RunCanonicalIff` for whole runs.
* `mydapptoken.sol` line 261 assigns the whitelist flag instead of testing it: a member never whitelisted withdraws
  (`MyDapp.UnlistedMemberWithdraws`; `MyDapp.WithdrawSucceedsIff` gives the exact condition).
* `mydapptoken.sol` line 144 makes registered types of another length unusable (`MyDapp.RegisteredTypeUnusable`;
  `MyDapp.TypePassesIff` gives the exact condition).
* Vesting in `mydapptoken.sol` binds `transferTokens` (`MyDappEffects.MemberWithdrawsIffVested`) but not the inherited
  `transfer` (`MyDappEffects.TransferIgnoresVesting`).
* The comment on `Supply` in `create_order.go` speaks of the input asset; the code locks the output asset, and so does
  the model.

## Model

| member | source | states |
|---|---|---|
| Warp.ImportedAssetMetadata | tokenvm/actions/warp_transfer.go:68-73 | the metadata of an imported asset is 64 bytes: original asset, then source chain |
| Warp.MetadataDecodes | tokenvm/actions/warp_transfer.go:68-73 | the two halves of that metadata read back as the asset and the source chain |
| Warp.MetadataIsImported | tokenvm/actions/export_asset.go:76-108 | any 64-byte metadata is the metadata of exactly the asset and chain a return export reads out of it |
| Warp.OptionalRoundTrip | tokenvm/actions/warp_transfer.go:53-59 | optional fields, absent when zero, read back as packed and leave the rest of the stream alone |
| Warp.PackRoundTrip | tokenvm/actions/export_asset.go:226-255 | header, optional fields and final identifier read back as packed, nothing left over |
| Warp.PayloadRoundTrip | tokenvm/actions/warp_transfer.go:47-107 | a transfer survives its payload exactly when its value and transaction id are set and its swap is valid; every other payload is rejected |
| Warp.ValidSwapIff | tokenvm/actions/warp_transfer.go:109-136 | a swap is valid exactly when it is empty or offers part of the value for something, with an expiry that is not negative |
| Warp.UnmarshalAcceptsIff | tokenvm/actions/warp_transfer.go:75-107 | a payload is accepted exactly when it is what marshalling a valid transfer gives: one way to write each transfer, and nothing behind it |
| Payloads.DeserializedIsWellFormed | tokenvm/actions/import_asset.go:217-236 | whatever is deserialized has a value and a valid swap, a destination if it is an export, and asks for a swap if it fills one |
| Payloads.ExportRoundTrip | tokenvm/actions/export_asset.go:226-269 | an export decodes to itself exactly when it is well formed, and is rejected otherwise |
| Payloads.ExportAcceptsIff | tokenvm/actions/export_asset.go:241-269 | an export is accepted exactly when the stream starts with the layout of a well-formed export; what follows is not looked at |
| Payloads.PayloadLayout | tokenvm/actions/warp_transfer.go:47-61 | where every field of a transfer and of an export is in its stream, which are present, and in which order |
| Payloads.ExportedPayloadIsImportable | tokenvm/actions/export_asset.go:169-190 | the payload of every accepted and executed export carries, field by field, the recipient, amounts and swap the exporter asked for and the transaction id, is accepted on the other side, and imports with fill exactly when it asks for a swap |
| Execution.TransferExecute | tokenvm/actions/transfer.go:40-61 | runs as the ledger-level transfer: same store, result and partial writes |
| Execution.CreateAssetExecute | tokenvm/actions/create_asset.go:30-50 | runs as the ledger-level creation under the transaction id |
| Execution.MintAssetExecute | tokenvm/actions/mint_asset.go:42-87 | runs as the ledger-level mint, including the record written before a failing credit |
| Execution.BurnAssetExecute | tokenvm/actions/burn_asset.go:39-72 | runs as the ledger-level burn, including the debit made before a failing record check |
| Execution.ModifyAssetExecute | tokenvm/actions/modify_asset.go:42-80 | runs as the ledger-level change of metadata and owner |
| Execution.CreateOrderExecute | tokenvm/actions/create_order.go:58-91 | runs as the ledger-level guards, debit and new order |
| Execution.ComputeFill | tokenvm/actions/fill_order.go:106-127 | the variables of the clipping switch end as the amounts of the fill, and deletion is decided exactly when nothing remains |
| Execution.FillOrderExecute | tokenvm/actions/fill_order.go:59-156 | runs as the ledger-level fill with its published result; a zero tick panics |
| Execution.CloseOrderExecute | tokenvm/actions/close_order.go:38-69 | runs as the ledger-level deletion and credit |
| Execution.ExecuteMintOn | tokenvm/actions/import_asset.go:72-109 | runs as the ledger-level mint of an import, record first |
| Execution.ExecuteReturnOn | tokenvm/actions/import_asset.go:111-143 | runs as the ledger-level loan release, value before reward |
| Execution.SwapOn | tokenvm/actions/import_asset.go:184-204 | runs as the four balance steps of a swap |
| Execution.ImportAssetExecute | tokenvm/actions/import_asset.go:145-205 | runs as the ledger-level import: credit, then nothing, the expiry check, or the swap |
| Execution.ExportReturnOn | tokenvm/actions/export_asset.go:58-134 | runs as the ledger-level return export: record rewritten or deleted before the debits |
| Execution.ExportLoanOn | tokenvm/actions/export_asset.go:136-191 | runs as the ledger-level loan export: each amount lent before it is debited |
| Execution.ExportAssetExecute | tokenvm/actions/export_asset.go:193-217 | refuses a zero value and an empty destination, then returns or lends |
| Execution.ExecuteTx | tokenvm/auth/ed25519.go:90-104 | deduct, snapshot, execute, restore on failure, refund: the end and the store of the transaction function |
| BigEndian.DecodeEncode | tokenvm/storage/storage.go:194 | a number that fits its width reads back from its big-endian bytes |
| BigEndian.EncodeDecode | tokenvm/storage/storage.go:163-174 | any bytes are the big-endian form of the number they decode to |
| BigEndian.EncodedDigit | tokenvm/storage/storage.go:194 | the most significant byte comes first: the byte at each position is the digit of that weight |
| Storage.KeysNeverCollide | tokenvm/storage/storage.go:118-124 | two keys share their bytes exactly when they are the same key, across all seven kinds |
| Storage.KeyLayout | tokenvm/storage/storage.go:38-51 | the kind, the length and the position of every identifier in each of the seven keys |
| Storage.OrderLayout | tokenvm/storage/storage.go:343-363 | the position of each of the six fields of an order |
| Storage.AssetLayout | tokenvm/storage/storage.go:306-328 | the position of metadata, supply, owner and flag in an asset record |
| Storage.OrderRoundTrip | tokenvm/storage/storage.go:343-397 | the fixed order layout reads back as written |
| Storage.AssetRoundTrip | tokenvm/storage/storage.go:287-328 | an asset record reads back as written as long as no uint16 offset wraps |
| Storage.ReadableIff | tokenvm/storage/storage.go:287-328 | every record with metadata of a given length reads back as written exactly when that length is at most 65493, where no uint16 offset wraps |
| Storage.ValuesNeverCollide | tokenvm/storage/storage.go:306-363 | under one key, equal bytes mean equal values |
| Storage.PutRepresents | tokenvm/storage/storage.go:187-194 | inserting encoded bytes is inserting the entry in the ledger |
| Storage.RemoveRepresents | tokenvm/storage/storage.go:196-203 | removing a key's bytes is removing the entry from the ledger |
| Storage.RepresentationIsUnique | tokenvm/storage/storage.go:118-411 | bytes and ledger determine each other: equal ledgers have equal byte stores and conversely |
| Storage.Copy | tokenvm/storage/storage.go:118-124 | copying into a buffer replaces exactly the bytes under the source |
| Storage.PutUint64 | tokenvm/storage/storage.go:343-363 | the eight bytes written are the big-endian number, the rest stands |
| StateDatabase.PrefixBalanceKey | tokenvm/storage/storage.go:118-124 | the buffer filled is the balance key of owner and asset |
| StateDatabase.PrefixAssetKey | tokenvm/storage/storage.go:261-266 | the buffer filled is the asset key |
| StateDatabase.PrefixOrderKey | tokenvm/storage/storage.go:336-341 | the buffer filled is the order key |
| StateDatabase.PrefixLoanKey | tokenvm/storage/storage.go:405-411 | the buffer filled is the loan key of asset and destination |
| StateDatabase.AssetBuffer | tokenvm/storage/storage.go:306-328 | the buffer filled is the asset record, flag byte included |
| StateDatabase.OrderBuffer | tokenvm/storage/storage.go:343-363 | the buffer filled is the order record |
| StateDatabase.Database.GetBalance | tokenvm/storage/storage.go:127-147 | the balance of the represented ledger, zero when absent |
| StateDatabase.Database.SetBalance | tokenvm/storage/storage.go:176-194 | the ledger with that one balance set |
| StateDatabase.Database.AddBalance | tokenvm/storage/storage.go:205-228 | the ledger-level checked credit, error included |
| StateDatabase.Database.SubBalance | tokenvm/storage/storage.go:230-258 | the ledger-level checked debit: a balance that reaches zero is deleted |
| StateDatabase.Database.GetAsset | tokenvm/storage/storage.go:278-304 | the asset record of the represented ledger |
| StateDatabase.Database.SetAsset | tokenvm/storage/storage.go:306-328 | the ledger with that record set |
| StateDatabase.Database.DeleteAsset | tokenvm/storage/storage.go:330-333 | the ledger without that record |
| StateDatabase.Database.GetOrder | tokenvm/storage/storage.go:365-397 | the order of the represented ledger |
| StateDatabase.Database.SetOrder | tokenvm/storage/storage.go:343-363 | the ledger with that order set |
| StateDatabase.Database.DeleteOrder | tokenvm/storage/storage.go:399-402 | the ledger without that order |
| StateDatabase.Database.GetLoan | tokenvm/storage/storage.go:434-443 | the loan of the represented ledger, zero when absent |
| StateDatabase.Database.SetLoan | tokenvm/storage/storage.go:445-454 | the ledger with that one loan set |
| StateDatabase.Database.AddLoan | tokenvm/storage/storage.go:456-478 | the ledger-level checked increase, error included |
| StateDatabase.Database.SubLoan | tokenvm/storage/storage.go:480-507 | the ledger-level checked decrease: a loan that reaches zero is deleted |
| Orders.FillInTicks | tokenvm/actions/fill_order.go:89-127 | the amounts of a fill are the offered ticks, clipped to those left: positive, within value and remaining, nothing wraps |
| Orders.RemainingInTicks | tokenvm/actions/fill_order.go:111-127 | what is left of an order is again a whole number of ticks |
| Orders.AmountsAtPrice | tokenvm/actions/fill_order.go:94-127 | input times output tick equals output times input tick, for clipped fills too, and the rest is a valid order or nothing |
| Orders.OrderResultRoundTrip | tokenvm/actions/fill_order.go:193-208 | a published result decodes to itself, except one with a zero amount, which is rejected |
| Orders.FillAtExactPrice | tokenvm/actions/fill_order.go:59-156 | a successful fill trades at exactly the price, publishes a readable result, and deletes the order exactly when nothing remains |
| Orders.FillNeverFree | tokenvm/actions/fill_order.go:89-131 | on a valid order the zero-input and zero-output rejections and the division by zero cannot happen |
| Soundness.CreateOrderSound | tokenvm/actions/create_order.go:69-89 | the guards of order creation establish what every stored order satisfies |
| OrderLife.SettledBalances | tokenvm/actions/fill_order.go:132-140 | a settlement moves exactly the input from filler to owner and the output to the filler, also when they are one |
| OrderLife.AmountsAddUp | tokenvm/actions/fill_order.go:94-127 | the amounts of two fills in a row are those of one fill of the summed value |
| OrderLife.FillsAddUp | tokenvm/actions/fill_order.go:59-156 | filling twice leaves exactly the store that filling the sum leaves |
| OrderLife.StepAccounted | tokenvm/actions/fill_order.go:89-149 | one transaction takes out of an order exactly what its result reports or its close returns, at the price, and leaves its terms alone |
| OrderLife.OrderLifetime | tokenvm/actions/close_order.go:49-67 | over every run, what an order held was received by fillers at its price, returned to its owner, or is still locked |
| Conservation.AddBalanceGap | tokenvm/storage/storage.go:205-228 | a credit raises holdings by its amount and touches no other asset |
| Conservation.SubBalanceGap | tokenvm/storage/storage.go:230-258 | a debit lowers holdings by its amount, deleted or not |
| Conservation.ExecuteConserves | tokenvm/actions/import_asset.go:145-205 | every successful action, on any store, keeps supply minus holdings for every asset |
| Soundness.ExecuteKeepsSound | tokenvm/actions/export_asset.go:91-99 | every successful action keeps the shape of records, orders and loans; no asset changes kind and only wrapped assets lose their record |
| Soundness.ExecuteNeverPanics | tokenvm/actions/export_asset.go:76 | no action divides by zero or slices out of range on a sound store |
| Soundness.ReturnGoesHome | tokenvm/actions/export_asset.go:76-123 | a return export names the original asset and goes to the chain the wrapped asset came from |
| Transactions.DeductKeepsLedger | tokenvm/auth/ed25519.go:90-96 | deducting a fee keeps the invariant, the fee counted as collected |
| Transactions.RefundKeepsLedger | tokenvm/auth/ed25519.go:98-104 | refunding no more than was collected keeps the invariant |
| Transactions.TxKeepsLedger | tokenvm/auth/ed25519.go:75-104 | any transaction keeps the ledger invariant, is rejected exactly when its signer cannot pay, and never stops the node |
| Transactions.FailedTxOnlyPays | tokenvm/actions/import_asset.go:166-204 | a failed transaction costs the fee and changes nothing else, whatever it had written |
| Transactions.RunKeepsLedger | tokenvm/storage/storage.go:205-258 | over every run supply equals balances plus orders plus loans (plus fees, for the native asset) |
| Transactions.RunKeepsNative | tokenvm/actions/export_asset.go:73-99 | over every run an asset made on this chain keeps its record and never becomes wrapped |
| Transactions.MissingAssetIsNowhere | tokenvm/actions/export_asset.go:91-99 | an asset without a record has no balance, no order paying it out and no loan |
| Transactions.BurnSucceedsIff | tokenvm/actions/burn_asset.go:39-72 | burning succeeds exactly when the value is positive and held; the missing-asset and underflow failures are unreachable |
| Transactions.TransferSucceedsIff | tokenvm/actions/transfer.go:40-61 | a transfer succeeds exactly when the value is positive and held: the credit cannot overflow |
| Transactions.CloseSucceedsIff | tokenvm/actions/close_order.go:38-69 | closing succeeds exactly for the owner naming the right asset, who gets back all that is locked |
| Effects.ExecuteMoves | tokenvm/actions/fill_order.go:132-140 | every successful action changes every balance by exactly its gain less its cost: who pays and who receives, for all ten actions |
| Effects.MintAssetSucceedsIff | tokenvm/actions/mint_asset.go:42-87 | minting succeeds exactly for the owner of an unwrapped, non-native asset whose supply does not overflow |
| Effects.FillSucceedsIff | tokenvm/actions/fill_order.go:59-156 | a fill succeeds exactly when it names the order right, passes its arithmetic, and the filler holds the cost of the clipped fill |
| Effects.LoanExportSucceedsIff | tokenvm/actions/export_asset.go:136-217 | a loan export succeeds exactly when the asset is native to the chain and value and reward are held: the loan cannot overflow |
| Effects.ReturnExportSucceedsIff | tokenvm/actions/export_asset.go:58-134 | a return export succeeds exactly when the asset is wrapped, goes to its origin, and value and reward are held |
| Effects.FillsAddUpIff | tokenvm/actions/fill_order.go:59-156 | when two fills in a row succeed, the fill of the sum does exactly if its arithmetic fits and, for an owner filling an own order, its whole cost is held; it leaves the same store |
| Effects.ExecuteSucceedsIff | tokenvm/actions/import_asset.go:145-205 | every deserialized action on a reachable ledger succeeds exactly when its arguments are admissible against the records, orders, loans and balances it names |
| Refusals.ExecuteRefused | tokenvm/actions/fill_order.go:67-131 | on a reachable ledger every deserialized action that fails does so for the first guard of the source that does not hold, with that failure, and succeeds when all hold |
| Refusals.TxRefused | tokenvm/auth/ed25519.go:75-104 | the outcome of an applied transaction is decided by those guards once the fee is paid |
| Entries.ExecuteRecords | tokenvm/actions/export_asset.go:91-99 | after every successful action the record of every asset, read back, is given by the record before it: metadata, supply, owner and kind, or gone |
| Entries.ExecuteOrders | tokenvm/actions/fill_order.go:141-149 | after every successful action the order under every id, read back, is given by the order before it |
| Entries.ExecuteLeavesRest | tokenvm/storage/storage.go:118-124 | no action touches a height or a warp marker |
| Entries.ExecuteOutput | tokenvm/actions/fill_order.go:150-156 | a successful fill publishes input, output and remaining amounts as 24 bytes; no other action publishes anything |
| Entries.CreatedAssetIsSigners | tokenvm/actions/create_asset.go:44-49 | a new asset reads back with its metadata, no supply, unwrapped and owned by the signer |
| Entries.OnlyCreatorControls | tokenvm/actions/mint_asset.go:66-73 | on a reachable ledger exactly the signer who created an asset can next mint or modify it; anyone else is refused as not the owner |
| Entries.ReturnKeepsRecordIff | tokenvm/actions/export_asset.go:91-99 | a return export keeps the record exactly when supply is left, with the old metadata and the lowered supply |
| Entries.EmptiedAssetIsGone | tokenvm/actions/export_asset.go:91-107 | a return export of the whole supply leaves no record, balance, order or loan of the asset |
| Entries.TxEntries | tokenvm/auth/ed25519.go:75-104 | a transaction leaves the records and orders its action describes when that succeeds and the old ones when it fails |
| Entries.TxMoves | tokenvm/auth/ed25519.go:75-104 | a transaction changes every balance by the gain and cost of its action, when that succeeds, and by fee and refund |
| Authority.OnlySignerPays | tokenvm/actions/import_asset.go:184-204 | no balance but the signer's is ever smaller after a successful action, filled imports included |
| Authority.OnlyOwnerChanges | tokenvm/actions/modify_asset.go:66-76 | the record of every asset changes only by the actions that may change it, minting and modifying by its owner alone, and exactly as asked |
| Authority.OnlyOwnerCloses | tokenvm/actions/close_order.go:49-67 | an open order changes only by a fill that pays its owner or by its owner closing it |
| Imports.MintSucceedsIff | tokenvm/actions/import_asset.go:72-109 | a mint goes through exactly when no unwrapped record is in the way and the supply does not overflow |
| Imports.ReturnSucceedsIff | tokenvm/actions/import_asset.go:111-143 | a loan release goes through exactly when the loan covers value and reward |
| Imports.CreditBalances | tokenvm/actions/import_asset.go:100-107 | the credit gives the recipient the value and the importer the reward, and no one else anything |
| Imports.SwapSucceedsIff | tokenvm/actions/import_asset.go:184-204 | a swap succeeds exactly when the importer, after receiving the input, holds the output |
| Imports.ImportSucceedsIff | tokenvm/actions/import_asset.go:166-204 | for a valid message the debit of the recipient never fails; a filling import succeeds exactly when the output is held, a non-filling one exactly from the expiry on |
| Imports.ImportMoves | tokenvm/actions/import_asset.go:145-205 | an import changes one supply or one loan by value plus reward and every other total not at all, swap or no swap |
| Footprint.ExecuteReads | tokenvm/actions/import_asset.go:36-70 | what an action does, and what it returns, depends on its declared keys only, on every branch |
| Footprint.ExecuteWrites | tokenvm/actions/export_asset.go:37-56 | what an action has written, even when it fails, is within its declared keys |
| FootprintTight.EveryKeyMatters | tokenvm/actions/import_asset.go:36-70 | no declared key is superfluous: for every success and every declared key there is another entry under that key alone on which the action fails or changes the entry |
| Footprint.TxReads | tokenvm/auth/ed25519.go:34-39 | the same for whole transactions with the fee key added |
| Footprint.TxWrites | tokenvm/auth/ed25519.go:34-39 | a transaction changes nothing outside its keys |
| Footprint.DisjointTxsCommute | tokenvm/actions/fill_order.go:49-57 | transactions with disjoint keys give the same receipts and the same store in either order |
| Canonical.ExecuteCanonical | tokenvm/storage/storage.go:252-257 | every deserialized action keeps zero balances, loans and orders out of the store |
| Canonical.TxCanonicalIff | tokenvm/auth/ed25519.go:90-104 | a payable transaction on a canonical ledger stores no zero exactly when it is refunded something or the signer's balance and the action's gain exceed fee and cost, all read off before it runs |
| Canonical.RunCanonicalIff | tokenvm/storage/storage.go:501-506 | a run of deserialized transactions never stores a zero exactly when every transaction in it keeps change |
| Genesis.ZeroRefundStoresZero | tokenvm/auth/ed25519.go:98-104 | from genesis, a signer who spends everything on the fee and is refunded nothing leaves a stored zero |
| Canonical.SameLedgerSameStore | tokenvm/storage/storage.go:252-257 | canonical stores that answer every query alike are equal |
| Genesis.Load | tokenvm/genesis/genesis.go:108-135 | loading succeeds exactly when every address parses and the total fits, and leaves the last allocation of each address and the total as supply |
| Genesis.GenesisHolds | tokenvm/genesis/genesis.go:108-135 | a loaded genesis holds the native record under its symbol, unowned and unwrapped, the last allocation of every address, and nothing else |
| Genesis.GenesisBalancesIff | tokenvm/genesis/genesis.go:112-134 | genesis satisfies the ledger invariant exactly when no positive allocation is overwritten; distinct addresses suffice |
| Genesis.RepeatedAddressUnbalanced | tokenvm/genesis/genesis.go:113-124 | two positive allocations to one address break the ledger invariant |
| Genesis.GenesisCanonical | tokenvm/genesis/genesis.go:113-124 | positive allocations leave no zero in the store |
| Genesis.FreshWorldInv | tokenvm/genesis/genesis.go:108-135 | freshly loaded chains satisfy the cross-chain invariant |
| Genesis.EveryRunIsBacked | tokenvm/actions/export_asset.go:58-191 | over every run of any number of chains from genesis, loans back wrapped supply, messages in flight and burns |
| Flows.ExecuteFlow | tokenvm/actions/import_asset.go:72-143 | an action changes wrapped supplies and loans by exactly what it mints, burns, withdraws, lends or releases, and every new record or order is explained |
| Flows.ExecuteAnnounces | tokenvm/actions/export_asset.go:103-190 | exactly the successful exports send a message, which conveys field by field what was asked for: a loan of the asset itself, a return of the original |
| Flows.TxFlow | tokenvm/actions/import_asset.go:145-184 | the same for whole transactions; failed ones move balances only |
| CrossChain.UnusedIsFresh | tokenvm/actions/create_asset.go:44-46 | an unused transaction id collides with no record or order |
| CrossChain.WrappedIdFree | tokenvm/actions/import_asset.go:82-85 | the conflicting-asset case cannot happen: no other record sits at a wrapped asset's id |
| CrossChain.SentCarries | tokenvm/actions/export_asset.go:112-190 | a message carries exactly what its export lent or withdrew |
| CrossChain.ReceivedCarries | tokenvm/actions/import_asset.go:72-143 | an import mints or releases exactly what its message carries |
| CrossChain.ForeignKeepsInv | tokenvm/actions/import_asset.go:217-236 | a message signed by a chain that runs something else, addressed to one chain or to all, backs nothing and breaks nothing |
| CrossChain.NextKeepsInv | tokenvm/actions/export_asset.go:58-191 | every transaction on every chain, and every foreign message, keeps the backing equation for every home chain, destination and asset |
| CrossChain.HistoryKeepsInv | tokenvm/actions/import_asset.go:72-143 | the backing equation holds over every run |
| CrossChain.WrappedNeverExceedsLoan | tokenvm/actions/import_asset.go:72-109 | wrapped supply never exceeds what the home chain has lent |
| CrossChain.ClaimsWithinSupply | tokenvm/actions/burn_asset.go:39-72 | over any distinct destinations together, wrapped supply, messages in flight and burns stay within the supply at home |
| CrossChain.InFlightCredits | tokenvm/actions/import_asset.go:72-143 | the credit of a message between two of the chains always goes through |
| CrossChain.NoStuckFunds | tokenvm/actions/import_asset.go:166-184 | any message in flight between two of the chains is redeemed by whoever can pay the fee, once it needs no swap; recipient and importer receive exactly value and reward |
| Delivery.ExportDeparts | tokenvm/actions/export_asset.go:103-190 | a successful export puts exactly one message in flight, with the recipient, amounts, swap and destination of the export, about the asset as its home knows it |
| Delivery.StaysInFlight | tokenvm/actions/import_asset.go:145-166 | an event takes a message out of flight exactly when it is a successful import of it at its destination, and never alters it |
| Delivery.InFlightUntilCollected | tokenvm/actions/import_asset.go:145-205 | over every run a message is in flight, as it was sent, exactly until it is collected, and never comes back |
| Delivery.CollectingPays | tokenvm/actions/import_asset.go:72-205 | however a message is collected, filled or not, every balance at its destination moves as the message says and no other chain moves |
| Delivery.ExportStaysInFlight | tokenvm/actions/export_asset.go:103-190 | after an export and any run its message is in flight as it was sent exactly unless it was collected |
| Delivery.ExportReachesRecipient | tokenvm/actions/import_asset.go:166-205 | from end to end: after an export and any run that has not collected its message, anyone who pays the fee collects it once it needs no swap, and the recipient the exporter named gains exactly the value, the importer the reward |
| OrderBooks.Items | tokenvm/orderbook/orderbook.go:138-155 | a heap's entries, each once, in no particular order |
| OrderBooks.OrderBook.constructor | tokenvm/orderbook/orderbook.go:45-64 | a new book is empty; it tracks everything exactly when configured with the single star |
| OrderBooks.OrderBook.Add | tokenvm/orderbook/orderbook.go:66-95 | an order of a tracked pair is listed under that pair, any other is ignored |
| OrderBooks.OrderBook.Remove | tokenvm/orderbook/orderbook.go:97-116 | exactly that order is gone, from the heap and from the index |
| OrderBooks.OrderBook.UpdateRemaining | tokenvm/orderbook/orderbook.go:118-136 | exactly that order's remaining amount changes |
| OrderBooks.OrderBook.Orders | tokenvm/orderbook/orderbook.go:138-155 | a page of listed orders of the pair, none twice, all of them when the limit allows; a negative limit panics |
| Controller.AcceptedTx | tokenvm/controller/controller.go:199-236 | one transaction and its result update the book as the change they report |
| Controller.Accepted | tokenvm/controller/controller.go:182-239 | the loop replays a block into the book and fails exactly at a result that cannot be read |
| Controller.ResultsAreFaithful | tokenvm/controller/controller.go:213-229 | every result can be read and says exactly what its transaction did to every order on the chain |
| Controller.BookFollowsChain | tokenvm/controller/controller.go:182-239 | a book that agrees with the chain before a block agrees with it after, for every tracked pair |
| Controller.BlockOpensFresh | tokenvm/orderbook/orderbook.go:66-95 | no order is ever opened under an id the book already lists |
| Controller.AcceptBlock | tokenvm/controller/controller.go:182-239 | a book object that agrees with the chain accepts every block without error and agrees with the chain after it |
| Controller.BookFromGenesis | tokenvm/controller/controller.go:182-239 | a new book object fed the blocks since genesis lists exactly the open orders of its pairs, each with its pair, owner, ticks and remaining amount |
| Erc20.TransferExact | EVM-Subnet/DegenToken/ERC20.sol:226-249 | a transfer moves exactly the amount, self-transfers included: neither unchecked operation wraps |
| Erc20.MintExact | EVM-Subnet/DegenToken/ERC20.sol:259-272 | a mint adds exactly the amount: the unchecked addition cannot wrap |
| Erc20.BurnExact | EVM-Subnet/DegenToken/ERC20.sol:285-301 | a burn removes exactly the amount: neither unchecked subtraction wraps |
| Erc20.SpendExact | EVM-Subnet/DegenToken/ERC20.sol:336-348 | spending lowers one allowance by the amount, and an infinite one not at all |
| Erc20.InvokeKeepsSum | EVM-Subnet/DegenToken/ERC20.sol:113-210 | every call keeps balances adding up to the supply, which only mints and burns move |
| Erc20.RunKeepsSum | EVM-Subnet/DegenToken/ERC20Burnable.sol:20-38 | over every run balances add up to the supply, which is everything minted less everything burned |
| Erc20.InvokeSucceedsIff | EVM-Subnet/DegenToken/ERC20.sol:113-348 | the exact condition under which each of the eight calls goes through |
| Erc20.InvokeExact | EVM-Subnet/DegenToken/ERC20.sol:113-348 | after every call that goes through, the balance of every account and the allowance of every pair are exactly the old ones with what the call takes, gives, sets or spends |
| Erc20.ShrinksOnlyByLeave | EVM-Subnet/DegenToken/ERC20.sol:158-167 | a balance shrinks only by its owner's call or within what its owner allowed the caller |
| Erc20.AllowanceOnlyByOwner | EVM-Subnet/DegenToken/ERC20.sol:136-140 | an allowance changes only by its owner's call, or is spent by its spender |
| Erc20.SilentOwnerIsSafe | EVM-Subnet/DegenToken/ERC20.sol:336-348 | over every run in which an owner makes no call, what a spender takes from the owner comes out of the finite allowance it had, whatever everyone else does |
| Erc20.ERC20.DoTransfer | EVM-Subnet/DegenToken/ERC20.sol:226-249 | writes what the transfer specification says, or nothing when it reverts |
| Erc20.ERC20.DoMint | EVM-Subnet/DegenToken/ERC20.sol:259-272 | writes what the mint specification says, or nothing when it reverts |
| Erc20.ERC20.DoBurn | EVM-Subnet/DegenToken/ERC20.sol:285-301 | writes what the burn specification says, or nothing when it reverts |
| Erc20.ERC20.DoApprove | EVM-Subnet/DegenToken/ERC20.sol:316-326 | sets one allowance, or nothing for a zero address |
| Erc20.ERC20.SpendAllowance | EVM-Subnet/DegenToken/ERC20.sol:336-348 | spends as specified, or writes nothing when it reverts |
| Erc20.ERC20.Execute | EVM-Subnet/DegenToken/ERC20.sol:113-210 | an external call does what its specification says, all or nothing, and keeps the invariant |
| MyDapp.TypePassesIff | AdvancedSol_EthersJS-Spo/mydapptoken.sol:135-154 | a stakeholder type passes exactly when it is registered and no type registered before it has another length |
| MyDapp.RegisteredTypeUnusable | AdvancedSol_EthersJS-Spo/mydapptoken.sol:144 | in the registry reached by registering two types of different lengths, nobody can be registered or whitelisted under the second |
| MyDapp.SetMembershipKeeps | AdvancedSol_EthersJS-Spo/mydapptoken.sol:61-92 | a new stakeholder type keeps the registry invariant |
| MyDapp.RegisterKeeps | AdvancedSol_EthersJS-Spo/mydapptoken.sol:156-207 | a new member keeps the registry invariant, the minted tokens included |
| MyDapp.WhitelistExact | AdvancedSol_EthersJS-Spo/mydapptoken.sol:225-248 | whitelisting a type flags exactly its members, in the list and in the mapping alike |
| MyDapp.WithdrawKeeps | AdvancedSol_EthersJS-Spo/mydapptoken.sol:251-268 | a withdrawal keeps the registry invariant |
| MyDapp.ServeKeeps | AdvancedSol_EthersJS-Spo/mydapptoken.sol:61-268 | every committed transaction keeps the registry invariant |
| MyDapp.Committed | AdvancedSol_EthersJS-Spo/mydapptoken.sol:61-268 | after every run flags are false, types and addresses distinct, lists in step, and supply plus burns equals what members were allotted |
| MyDapp.WithdrawSucceedsIff | AdvancedSol_EthersJS-Spo/mydapptoken.sol:251-268 | withdrawing depends on vesting and balance only, never on whitelisting, and leaves the sender not whitelisted |
| MyDapp.WithdrawExact | AdvancedSol_EthersJS-Spo/mydapptoken.sol:251-268 | a withdrawal, to oneself included, moves exactly the value, leaves the sender's leave to itself used up, unless it was unlimited, and every other balance, allowance and flag alone |
| MyDappEffects.ServeSucceedsIff | AdvancedSol_EthersJS-Spo/mydapptoken.sol:61-268 | the exact condition under which each request goes through on a reachable registry |
| MyDappEffects.SetMembershipExact | AdvancedSol_EthersJS-Spo/mydapptoken.sol:61-92 | a new type gets its period and amount; every other type and everything else stands |
| MyDappEffects.RegisterExact | AdvancedSol_EthersJS-Spo/mydapptoken.sol:156-207 | a new member gets the tokens of the type and vests from the registration for the period in years; both lists are appended and nobody else changes |
| MyDappEffects.WhitelistOnlyFlags | AdvancedSol_EthersJS-Spo/mydapptoken.sol:225-248 | whitelisting flags nobody outside the registry and changes nothing but flags |
| MyDappEffects.MemberWithdrawsIffVested | AdvancedSol_EthersJS-Spo/mydapptoken.sol:251-268 | whatever was committed since its registration, a member withdraws what it holds exactly from the registration plus the period of its type in years on |
| MyDappEffects.TransferIgnoresVesting | AdvancedSol_EthersJS-Spo/mydapptoken.sol:251-260 | the inherited transfer of the token depends on the balance alone: vesting binds withdrawals only |
| MyDapp.UnlistedMemberWithdraws | AdvancedSol_EthersJS-Spo/mydapptoken.sol:261-263 | in the registry reached by registering a type and a member, the member, never whitelisted, withdraws everything, and the receiver holds it |
| MyDappContract.MyDappToken.SetMembershipStatus | AdvancedSol_EthersJS-Spo/mydapptoken.sol:61-92 | the search loop and the four writes do as specified, or the call leaves everything as it was |
| MyDappContract.MyDappToken.IsStakeholderTypeValid | AdvancedSol_EthersJS-Spo/mydapptoken.sol:135-154 | the search loop reverts or answers as specified |
| MyDappContract.MyDappToken.RegisterMember | AdvancedSol_EthersJS-Spo/mydapptoken.sol:156-207 | registration does as specified, or the call leaves everything as it was |
| MyDappContract.MyDappToken.WhitelistStakeholders | AdvancedSol_EthersJS-Spo/mydapptoken.sol:225-248 | the whitelisting loop does as specified |
| MyDappContract.MyDappToken.TransferTokens | AdvancedSol_EthersJS-Spo/mydapptoken.sol:251-268 | a withdrawal does as specified, or the call leaves everything as it was |
| MyDappContract.MyDappToken.Serve | AdvancedSol_EthersJS-Spo/mydapptoken.sol:61-268 | any transaction on the contract object does as specified and keeps the registry invariant |

## Left out

- The byte format of the packer, which belongs to hypersdk: payloads are streams of typed fields with presence bits. `Marshal` can therefore not fail for want of space; the size limit of a payload is not modelled.
- Storage.AssetRoundTrip: metadata longer than 65493 bytes is excluded, because such records need not read back (`Storage.ReadableIff`); no action can store them.
- StateDatabase.Database.SetAsset: takes no metadata longer than 65493 bytes, because the ledger represents only records that read back (`Storage.ReadableIff`); no action passes more than 256.
- OrderBooks.OrderBook.Orders: returns values instead of the shared order pointers, and promises no order, because the heap is a bag here and float64 rates are not modelled.
- OrderBooks.OrderBook.Add: requires an id not yet listed, because what the heap does with a duplicate is not visible; `Controller.BlockOpensFresh` proves the requirement at every block.
- StateDatabase.Database.GetAsset: reads a database whose bytes are well-formed records, as every storage method leaves them; I/O errors of the database are not modelled.
- MyDappContract.MyDappToken.RegisterMember: looks for an overflow of the vesting times before minting instead of after; both revert the whole call.
- Fee units and prices, block building, the mempool, signatures, warp signatures, replay keys, transaction validity windows.
- `StoreTransaction` and `GetTransaction` (the metadata database), metrics, logging, tracing, mutexes and buffer pools.
- RPC, command line, scripts, JavaScript front ends, bech32 addresses (an address either parses to a key or does not).
- Events, names, symbols and view functions of the Solidity contracts; block numbers and gas.
- The other Solidity exercises (loan, insurance, proxy, loop and wallet examples), which would only add easier copies of the conservation claims.
