/** The records the handlers write, and the entity store they write them to.

    Every collection of the schema is a finite map from the entity's id to
    its fields; an entity's id is the key it is stored under, so the records
    below carry no id field. Addresses and byte strings are held in their
    `toHexString()` form, amounts and timestamps as unbounded naturals. */
module Entities {
  import opened Keys

  datatype Option<T> = None | Some(value: T)

  /** An address or byte string, held as its hex form. */
  type Address = string

  /** What every decoded log carries besides its parameters:
      `event.block.timestamp`, `event.transaction.hash` and `event.logIndex`. */
  datatype Envelope = Envelope(timestamp: nat, txHash: string, logIndex: nat)

  /** The `<txHash>-<logIndex>` id of the records a log appends. */
  function LogKey(env: Envelope): (k: string)
    ensures ReadsAs(k, env.txHash, env.logIndex)
  {
    EventKey(env.txHash, env.logIndex)
  }

  datatype Asset = Asset(name: string, decimal: nat, createdAt: nat, transactionHash: string)

  datatype Token = Token(name: string, decimal: nat, createdAt: nat, transactionHash: string)

  datatype Pair = Pair(pairId: string, token: string, asset: string, createdAt: nat, transactionHash: string)

  datatype Htlc = Htlc(
    sender: Address,
    receiver: Address,
    pair: string,
    amount: nat,
    hashlock: string,
    timelock: nat,
    withdrawn: bool,
    refunded: bool,
    createdAt: nat,
    nodePubkey: string,
    preimage: Option<string>,
    watcher: Option<Address>,
    closedAt: Option<nat>)

  /** `status` is the schema's i32 (0 when minted, 2 once activated). */
  datatype LNNode = LNNode(
    tokenId: nat,
    owner: Address,
    buyer: Address,
    createdAt: nat,
    updatedAt: nat,
    status: int,
    npub: Option<string>,
    lndPubkey: Option<string>)

  /** An audit-log entry; `eventType` is one of the strings the handlers use. */
  datatype NodeEvent = NodeEvent(
    eventType: string,
    timestamp: nat,
    node: Option<string>,
    nodeSale: Option<string>,
    buyer: Option<string>)

  datatype NodeMiningReward = NodeMiningReward(
    node: string,
    rewardType: int,
    totalAmount: nat,
    claimedAmount: nat,
    createdAt: nat,
    updatedAt: nat)

  datatype NodeSale = NodeSale(
    startTime: nat,
    title: string,
    quoteToken: Address,
    price: nat,
    amount: nat,
    sold: nat,
    enabled: bool)

  datatype Purchase = Purchase(
    buyer: Address,
    saleId: nat,
    count: nat,
    inviteCode: string,
    timestamp: nat,
    nodeSale: string,
    transactionHash: string)

  datatype NodeBinding = NodeBinding(buyer: Address, owner: Address, npub: string, rewardAddress: Address)

  /** The whole store as a value: one map per collection. */
  datatype Tables = Tables(
    assets: map<string, Asset>,
    tokens: map<string, Token>,
    pairs: map<string, Pair>,
    htlcs: map<string, Htlc>,
    nodes: map<string, LNNode>,
    nodeEvents: map<string, NodeEvent>,
    rewards: map<string, NodeMiningReward>,
    sales: map<string, NodeSale>,
    purchases: map<string, Purchase>,
    bindings: map<string, NodeBinding>)

  const EMPTY_TABLES := Tables(map[], map[], map[], map[], map[], map[], map[], map[], map[], map[])

  /** No record of `t` is missing from `r`: the handlers never delete. */
  predicate Grows(t: Tables, r: Tables) {
    && t.assets.Keys <= r.assets.Keys && t.tokens.Keys <= r.tokens.Keys
    && t.pairs.Keys <= r.pairs.Keys && t.htlcs.Keys <= r.htlcs.Keys
    && t.nodes.Keys <= r.nodes.Keys && t.nodeEvents.Keys <= r.nodeEvents.Keys
    && t.rewards.Keys <= r.rewards.Keys && t.sales.Keys <= r.sales.Keys
    && t.purchases.Keys <= r.purchases.Keys && t.bindings.Keys <= r.bindings.Keys
  }

  /** Every reference a handler checks before writing resolves: a pair's
      asset and token, an HTLC's pair, an audit entry's node and a reward's
      node. (Purchases and sale audit entries are written unchecked and may
      name an unknown sale.) */
  predicate RefsResolve(t: Tables) {
    && (forall id :: id in t.pairs ==> t.pairs[id].asset in t.assets && t.pairs[id].token in t.tokens)
    && (forall id :: id in t.htlcs ==> t.htlcs[id].pair in t.pairs)
    && (forall id :: id in t.nodeEvents && t.nodeEvents[id].node.Some? ==> t.nodeEvents[id].node.value in t.nodes)
    && (forall id :: id in t.rewards ==> t.rewards[id].node in t.nodes)
  }

  /** `m'` is `m` with an entry written at key `k`: its keys are those of
      `m` plus `k`, and every other entry is unchanged. */
  predicate WritesOnly<V(==)>(m: map<string, V>, m': map<string, V>, k: string) {
    && m'.Keys == m.Keys + {k}
    && forall j :: j in m && j != k ==> m'[j] == m[j]
  }

  /** The entity store the handlers load from and save to. */
  class Store {
    var assets: map<string, Asset>
    var tokens: map<string, Token>
    var pairs: map<string, Pair>
    var htlcs: map<string, Htlc>
    var nodes: map<string, LNNode>
    var nodeEvents: map<string, NodeEvent>
    var rewards: map<string, NodeMiningReward>
    var sales: map<string, NodeSale>
    var purchases: map<string, Purchase>
    var bindings: map<string, NodeBinding>

    /** The store's contents as a value. */
    function Snapshot(): Tables
      reads this
    {
      Tables(assets, tokens, pairs, htlcs, nodes, nodeEvents, rewards, sales, purchases, bindings)
    }

    constructor ()
      ensures Snapshot() == EMPTY_TABLES
    {
      assets, tokens, pairs, htlcs, nodes := map[], map[], map[], map[], map[];
      nodeEvents, rewards, sales, purchases, bindings := map[], map[], map[], map[], map[];
    }
  }
}
