# lnfi-graph event handlers, modelled in Dafny

This project models the mapping handlers of the lnfi-graph subgraph. The
subgraph indexes three contracts:

- **HashedTimeLock** (`src/htlcpay.ts`): assets, tokens, the pairs that
  join them, and hashed time-locked contracts (HTLCs). An HTLC is opened
  against a pair, then withdrawn with its preimage or refunded.
- **LNNodeNFT** (`src/nodenft.ts`): Lightning node NFTs. A node is minted,
  bound to an npub, activated, moved between statuses and transferred, and
  granted three kinds of mining reward. Every such change appends an entry
  to the NodeEvent audit log.
- **NodeSale** (`src/nodesales.ts`): node sales. A sale is announced,
  purchases are recorded against it and raise its `sold` counter, and
  buyers bind their nodes.

The entity store is the class `Entities.Store`, with one map per entity
collection, keyed by entity id. Each handler is a module-level method that
takes the `Store` as a parameter and loads, checks and saves field by field,
as the TypeScript does. Its postcondition ties the new store to a pure
function of the old one (for example `HtlcPay.ApplyHTLCWithdraw`). The contracts of those functions and
the lemmas beside them state what each handler guarantees.

`Indexer` puts the three contracts' logs into one stream and proves
properties of whole streams:

- references the handlers check stay resolvable;
- a sale's `sold` is the sum of its purchases;
- HTLC settlement flags stick until the hashlock is opened again;
- an audit-log entry is never overwritten by a later log.

`Keys` proves that `BigInt.toString()` and the `<txHash>-<logIndex>` id
are injective, and `NodeNft.RewardKeyInjective` proves the same for the
`<tokenId>-<rewardType>` reward id.

Two properties one might expect of HTLCs do not hold for these handlers,
and the model states what the handlers actually do:

- The handlers do not keep withdraw and refund apart. Neither checks the
  other flag, so a refund after a withdraw leaves both set
  (`HtlcPay.WithdrawThenRefundSetsBoth`).
- Opening an already-stored hashlock again (a second `LogHTLCNew` with the
  same hashlock) builds a fresh record with both flags false
  (`HtlcPay.ReopeningClearsSettlement`). So a set flag stays set only while
  the hashlock is not opened again (`Indexer.SettlementSticks`).

## Model

| member | source | states |
|---|---|---|
| Keys.DecimalRoundTrip | src/nodenft.ts:29 | reading back the decimal rendering of a token id gives the number, so `BigInt.toString()` loses nothing |
| Keys.NatToStringInjective | src/nodesales.ts:6 | two sale (or token) ids render to the same decimal string exactly when they are equal |
| Keys.EventKeyInjective | src/nodenft.ts:17 | two logs produce the same `<txHash>-<logIndex>` id if and only if they have the same transaction hash and log index (hashes in `toHexString()` form) |
| Keys.NatToString | src/nodenft.ts:29 | `BigInt.toString()` of a token, sale or log index: a non-empty string of decimal digits, longer than one digit exactly when the number is at least 10 (also src/nodesales.ts:6) |
| Keys.EventKey | src/nodenft.ts:17 | the `<txHash>-<logIndex>` id is the transaction hash, a dash, then digits whose decimal value is the log index, so the index can be read back from the id (also src/nodesales.ts:21,30,68) |
| Entities.LogKey | src/nodesales.ts:30 | the id a log's appended records are stored under reads back as the log's transaction hash and log index |
| NodeNft.RewardKey | src/nodenft.ts:94 | a reward row's id is the node id, a dash, then digits whose value is the reward type (also lines 105 and 116) |
| Entities.Store.constructor | src/htlcpay.ts:11 | the entity store starts with every collection empty; the handlers then load from and save to its maps |
| NodeNft.RewardKeyInjective | src/nodenft.ts:94-116 | the reward ids `<tokenId>-0/1/2` of two nodes coincide if and only if the token ids and reward types both coincide |
| HtlcPay.ApplyNewPair | src/htlcpay.ts:13-36 | if the asset or the token is not stored, nothing changes; otherwise only the pair at `pairId` is written, naming that token and asset, with the block time and transaction hash |
| HtlcPay.HandleNewPair | src/htlcpay.ts:13-36 | the handler's load-check-save steps leave the store as `ApplyNewPair` describes |
| HtlcPay.ApplyNewAsset | src/htlcpay.ts:38-47 | the asset at `assetId` is written (created or replaced) with the log's name and decimals; nothing else changes |
| HtlcPay.HandleNewAsset | src/htlcpay.ts:38-47 | the handler leaves the store as `ApplyNewAsset` describes |
| HtlcPay.ApplyNewToken | src/htlcpay.ts:49-58 | the token at its address is written with the log's name and decimals; nothing else changes |
| HtlcPay.HandleNewToken | src/htlcpay.ts:49-58 | the handler leaves the store as `ApplyNewToken` describes |
| HtlcPay.ApplyHTLCNew | src/htlcpay.ts:60-90 | an unknown pair changes nothing; otherwise only the HTLC keyed by its hashlock is written, with the log's terms, both flags false and no preimage, watcher or close time |
| HtlcPay.HandleHTLCNew | src/htlcpay.ts:60-90 | the handler leaves the store as `ApplyHTLCNew` describes |
| HtlcPay.ApplyHTLCWithdraw | src/htlcpay.ts:92-113 | an unknown HTLC changes nothing; otherwise only that HTLC changes: its terms are kept, it becomes withdrawn, `refunded` is unchanged, and it records the contract's preimage and watcher and the block time |
| HtlcPay.HandleHTLCWithdraw | src/htlcpay.ts:92-113 | the handler, given the contract read's answer, leaves the store as `ApplyHTLCWithdraw` describes |
| HtlcPay.ApplyHTLCRefund | src/htlcpay.ts:115-135 | an unknown HTLC changes nothing; otherwise only that HTLC changes: its terms are kept, it becomes refunded, `withdrawn` and the preimage are unchanged, and it records the watcher and the block time |
| HtlcPay.HandleHTLCRefund | src/htlcpay.ts:115-135 | the handler leaves the store as `ApplyHTLCRefund` describes |
| HtlcPay.WithdrawIdempotent | src/htlcpay.ts:92-113 | replaying the same withdraw with the same contract answer changes nothing more |
| HtlcPay.RefundIdempotent | src/htlcpay.ts:115-135 | replaying the same refund with the same contract answer changes nothing more |
| HtlcPay.NewAssetLastWriteWins | src/htlcpay.ts:38-47 | two announcements of the same asset id leave only the second one |
| HtlcPay.NewTokenLastWriteWins | src/htlcpay.ts:49-58 | two announcements of the same token leave only the second one |
| HtlcPay.WithdrawThenRefundSetsBoth | src/htlcpay.ts:103-106 | a refund after a withdraw leaves the HTLC both withdrawn and refunded, with the withdraw's preimage and the refund's watcher and close time |
| HtlcPay.ReopeningClearsSettlement | src/htlcpay.ts:70-81 | a new HTLC log on a withdrawn hashlock, against a known pair, clears both flags |
| HtlcPay.Apply | src/htlcpay.ts:13-135 | any HashedTimeLock log changes only assets, tokens, pairs and HTLCs, deletes nothing, keeps pair and HTLC references resolvable, and, unless it opens the same hashlock, keeps every HTLC's terms and its withdrawn and refunded flags |
| NodeNft.ApplyCreateNodeEvent | src/nodenft.ts:12-26 | exactly one audit entry is written, at the log's `<txHash>-<logIndex>` id, with the event type and block time; its node is set only when a node is passed |
| NodeNft.CreateNodeEvent | src/nodenft.ts:12-26 | the helper leaves the store as `ApplyCreateNodeEvent` describes and returns the entry it saved |
| NodeNft.ApplyNodeMinted | src/nodenft.ts:28-40 | the node at the decimal token id is written (created or replaced) with status 0, the owner, the buyer and the block time as creation and update time; a MINTED entry about it is logged |
| NodeNft.HandleNodeMinted | src/nodenft.ts:28-40 | the handler leaves the store as `ApplyNodeMinted` describes |
| NodeNft.ApplyNodeNpubBound | src/nodenft.ts:42-51 | an unknown node changes nothing; otherwise only that node's npub and update time change and NPUB_BOUND is logged |
| NodeNft.HandleNodeNpubBound | src/nodenft.ts:42-51 | the handler leaves the store as `ApplyNodeNpubBound` describes |
| NodeNft.ApplyNodeActivated | src/nodenft.ts:53-64 | an unknown node changes nothing; otherwise the node gets its LND key and npub, status 2 and the update time, keeps its owner and identity, and ACTIVATED is logged |
| NodeNft.HandleNodeActivated | src/nodenft.ts:53-64 | the handler leaves the store as `ApplyNodeActivated` describes |
| NodeNft.ApplyNodeStatusChanged | src/nodenft.ts:66-75 | an unknown node changes nothing; otherwise its status becomes the log's status, whatever it was before, and STATUS_CHANGED is logged |
| NodeNft.HandleNodeStatusChanged | src/nodenft.ts:66-75 | the handler leaves the store as `ApplyNodeStatusChanged` describes |
| NodeNft.ApplyTransfer | src/nodenft.ts:77-86 | an unknown node changes nothing; otherwise only its owner (to the recipient) and update time change, and TRANSFERRED is logged |
| NodeNft.HandleTransfer | src/nodenft.ts:77-86 | the handler leaves the store as `ApplyTransfer` describes |
| NodeNft.ApplyRewardsAdded | src/nodenft.ts:88-128 | an unknown node changes nothing; otherwise exactly the node's three reward rows (types 0, 1, 2) are written with the static, dynamic and airdrop amounts and nothing claimed; other rows are kept and REWARDS_ADDED is logged |
| NodeNft.HandleRewardsAdded | src/nodenft.ts:88-128 | the handler leaves the store as `ApplyRewardsAdded` describes |
| NodeNft.RewardsRepeatOverwrites | src/nodenft.ts:94-124 | a second grant to the same node replaces the rows of the first; the totals are not summed |
| NodeNft.MintThenActivate | src/nodenft.ts:28-64 | a mint followed by an activation of the same token leaves its node active with the activation's keys and the mint's owner, and an ACTIVATED entry at the activation's id |
| NodeNft.Apply | src/nodenft.ts:12-128 | any LNNodeNFT log changes only nodes, rewards and the audit log, deletes nothing, keeps audit and reward references to nodes resolvable, and writes the audit log at its own id only |
| NodeSales.ApplyNodeSaleAdded | src/nodesales.ts:5-27 | the sale at the decimal id is written (created or replaced) with nothing sold and enabled, and a NODE_SALE_ADDED entry naming it is logged |
| NodeSales.HandleNodeSaleAdded | src/nodesales.ts:5-27 | the handler leaves the store as `ApplyNodeSaleAdded` describes |
| NodeSales.AddSold | src/nodesales.ts:48-52 | a known sale's `sold` grows by the count and nothing else of it, nor any other sale, changes; an unknown sale leaves the sales untouched and is not created |
| NodeSales.ApplyNodePurchased | src/nodesales.ts:29-65 | the purchase is always recorded at the log's id; a known sale's `sold` grows by the count and nothing else of it changes; an unknown sale is not created; NODE_PURCHASED is logged with the sale and buyer |
| NodeSales.HandleNodePurchased | src/nodesales.ts:29-65 | the handler leaves the store as `ApplyNodePurchased` describes |
| NodeSales.ApplyNodeBinded | src/nodesales.ts:67-75 | only the binding at the log's id is written, with the buyer, owner, npub and reward address |
| NodeSales.HandleNodeBinded | src/nodesales.ts:67-75 | the handler leaves the store as `ApplyNodeBinded` describes |
| NodeSales.PurchaseOfUnknownSale | src/nodesales.ts:48-52 | a purchase against an unknown sale is still recorded; its sale reference dangles and no sale is created |
| NodeSales.Apply | src/nodesales.ts:5-75 | any NodeSale log deletes nothing, writes the audit log at its own id only, and changes a known sale that it does not announce again only by adding the units it buys from it to `sold` |
| Indexer.Apply | src/htlcpay.ts:13-135 | (with src/nodenft.ts:12-128 and src/nodesales.ts:5-75) a log from any of the three contracts deletes nothing, keeps references resolvable, leaves other audit entries alone, keeps HTLC settlement unless it reopens the hashlock, and adds only purchases to `sold` |
| Indexer.ApplyAllPreservesRefs | src/htlcpay.ts:17-27 | after any stream of logs, nothing has been deleted and every pair, HTLC, audit entry and reward still names a stored record |
| Indexer.RefsResolveFromEmpty | src/nodenft.ts:44-45 | from an empty store, every reference the handlers check resolves after any stream of logs |
| Indexer.SoldAccumulates | src/nodesales.ts:48-52 | until a sale is announced again, its `sold` grows by exactly the counts of the purchases against it, and nothing else of it changes |
| Indexer.SoldIsSumOfPurchases | src/nodesales.ts:15 | after a sale is announced, its `sold` is the sum of the counts of the later purchases against it, and it stays enabled |
| Indexer.SettlementSticks | src/htlcpay.ts:92-135 | over any stream of logs that does not open the same hashlock, an HTLC keeps its terms and a set withdrawn or refunded flag stays set |
| Indexer.LogEntrySurvives | src/nodenft.ts:17-24 | an audit entry survives every later log whose id differs |
| Indexer.AuditEntryNeverOverwritten | src/nodesales.ts:21-26 | an audit entry survives every later log from a different (transaction, log index), so the audit log is append-only |

## Left out

- Logging (`log.info`, `log.error`) is not modelled; it does not change the store.
- The on-chain `getContractByKey` read in the withdraw and refund handlers is a parameter (`HtlcPay.ContractInfo`); the contract binding at `event.address` is not modelled.
- Addresses and byte strings are modelled as their `toHexString()` form, a string. Entity fields of type `Bytes` hold that string, and the hashlock is both the HTLC's id and its `hashlock` field.
- `BigInt` amounts, timestamps and ids are unbounded naturals. `BigInt.toString()` is modelled for non-negative values only, which covers every id the handlers render.
- NodeNft.ApplyNodeStatusChanged: the status is stored as the log's integer; the i32 range of `toI32()`, and its failure on values outside that range, are not modelled.
- Entity save is modelled as replacing the whole record at its id. The indexing host instead merges a saved entity with the stored one, keeping the fields the new entity leaves unset. This differs in two places: `HtlcPay.ApplyHTLCNew` states the preimage, watcher and close time empty when a hashlock is opened again, where the host keeps the old ones; and `NodeNft.ApplyNodeMinted` states `npub` and `lndPubkey` empty when a token id is minted again, where the host keeps the old ones. Elsewhere the two semantics agree: every other new record has all its fields set, or is an audit entry stored under the id of the one log that writes it, and the remaining saves write back a loaded record.
- The withdraw and refund handlers call `getContractByKey` directly, not through its `try_` form, so a reverting call aborts the handler. The model has no such failure path: withdraw and refund of a known HTLC always succeed.
- The host's routing of a log to its handler is idealised as the dispatch of `Indexer.Apply` on the log's payload. Block ordering, reorganisations, retries and the atomicity of a handler's saves belong to the indexing host and are not modelled; a stream of logs is applied in order (`Indexer.ApplyAll`).
- `handleNewPair` builds the pair before checking its asset and token; that order is not observable and is not modelled.
