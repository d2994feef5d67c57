/** The LNNodeNFT handlers: a node record keyed by its token id, minted,
    then bound to an npub, activated, moved between statuses and
    transferred; every such change appends an entry to the NodeEvent log.
    A rewards grant writes one NodeMiningReward row per reward type. */
module NodeNft {
  import opened Keys
  import opened Entities

  // NodeEvent types written by this file.
  const MINTED := "MINTED"
  const NPUB_BOUND := "NPUB_BOUND"
  const ACTIVATED := "ACTIVATED"
  const STATUS_CHANGED := "STATUS_CHANGED"
  const TRANSFERRED := "TRANSFERRED"
  const REWARDS_ADDED := "REWARDS_ADDED"

  // The two node statuses the handlers set themselves.
  const STATUS_MINTED := 0
  const STATUS_ACTIVE := 2

  // Decoded parameters of the contract's logs.
  datatype NodeMinted = NodeMinted(tokenId: nat, owner: Address, buyer: Address)
  datatype NodeNpubBound = NodeNpubBound(tokenId: nat, nodeNpub: string)
  datatype NodeActivated = NodeActivated(tokenId: nat, lndPubkey: string, nodeNpub: string)
  datatype NodeStatusChanged = NodeStatusChanged(tokenId: nat, status: int)
  datatype Transfer = Transfer(from: Address, to: Address, tokenId: nat)
  datatype RewardsAdded = RewardsAdded(tokenId: nat, staticAmount: nat, dynamicAmount: nat, airdropAmount: nat)

  /** A node's id: its token id in decimal. */
  function NodeKey(tokenId: nat): string {
    NatToString(tokenId)
  }

  /** The id of a node's reward row of one type: `<node>-<rewardType>`. */
  function RewardKey(node: string, rewardType: nat): (k: string)
    ensures ReadsAs(k, node, rewardType)
  {
    DecimalRoundTrip(rewardType);
    node + "-" + NatToString(rewardType)
  }

  /** The amount a grant gives for reward type 0 (static), 1 (dynamic) or 2 (airdrop). */
  function RewardAmount(ev: RewardsAdded, rewardType: nat): nat
    requires rewardType < 3
  {
    if rewardType == 0 then ev.staticAmount
    else if rewardType == 1 then ev.dynamicAmount
    else ev.airdropAmount
  }

  /** The three reward ids of a node. */
  function RewardKeys(node: string): set<string> {
    {RewardKey(node, 0), RewardKey(node, 1), RewardKey(node, 2)}
  }

  /** Reward rows of different nodes, or of different types, never share an id. */
  lemma RewardKeyInjective(t1: nat, r1: nat, t2: nat, r2: nat)
    ensures RewardKey(NodeKey(t1), r1) == RewardKey(NodeKey(t2), r2) <==> t1 == t2 && r1 == r2
  {
    if RewardKey(NodeKey(t1), r1) == RewardKey(NodeKey(t2), r2) {
      NoDashInDecimal(t1);
      NoDashInDecimal(t2);
      DashSplit(NodeKey(t1), NatToString(r1), NodeKey(t2), NatToString(r2));
      NatToStringInjective(t1, t2);
      NatToStringInjective(r1, r2);
    }
  }

  /** `r` differs from `t` only in the entry at the log's key, which records
      an event of the given type about `node`. */
  predicate Logged(t: map<string, NodeEvent>, r: map<string, NodeEvent>, env: Envelope, eventType: string, node: string) {
    && WritesOnly(t, r, LogKey(env))
    && r[LogKey(env)] == NodeEvent(eventType, env.timestamp, Some(node), None, None)
  }

  /** The fields no handler changes after mint. */
  predicate SameIdentity(n: LNNode, n': LNNode) {
    n'.tokenId == n.tokenId && n'.buyer == n.buyer && n'.createdAt == n.createdAt
  }

  /** `createNodeEvent`: one audit entry at the log's key; its node is set only
      when a node is passed. */
  function ApplyCreateNodeEvent(t: Tables, env: Envelope, eventType: string, node: Option<string>): (r: Tables)
    ensures r == t.(nodeEvents := r.nodeEvents)
    ensures WritesOnly(t.nodeEvents, r.nodeEvents, LogKey(env))
    ensures r.nodeEvents[LogKey(env)].eventType == eventType
    ensures r.nodeEvents[LogKey(env)].timestamp == env.timestamp
    ensures r.nodeEvents[LogKey(env)].node == node
    ensures r.nodeEvents[LogKey(env)].nodeSale == None && r.nodeEvents[LogKey(env)].buyer == None
  {
    t.(nodeEvents := t.nodeEvents[LogKey(env) := NodeEvent(eventType, env.timestamp, node, None, None)])
  }

  /** Mint writes a fresh node record (replacing any old one) and logs MINTED. */
  function ApplyNodeMinted(t: Tables, env: Envelope, ev: NodeMinted): (r: Tables)
    ensures r == t.(nodes := r.nodes, nodeEvents := r.nodeEvents)
    ensures WritesOnly(t.nodes, r.nodes, NodeKey(ev.tokenId))
    ensures var n := r.nodes[NodeKey(ev.tokenId)];
      && n.tokenId == ev.tokenId && n.owner == ev.owner && n.buyer == ev.buyer
      && n.createdAt == env.timestamp && n.updatedAt == env.timestamp
      && n.status == STATUS_MINTED && n.npub == None && n.lndPubkey == None
    ensures Logged(t.nodeEvents, r.nodeEvents, env, MINTED, NodeKey(ev.tokenId))
  {
    var k := NodeKey(ev.tokenId);
    var n := LNNode(ev.tokenId, ev.owner, ev.buyer, env.timestamp, env.timestamp, STATUS_MINTED, None, None);
    ApplyCreateNodeEvent(t.(nodes := t.nodes[k := n]), env, MINTED, Some(k))
  }

  /** Binding an npub to a known node sets its npub and logs NPUB_BOUND. */
  function ApplyNodeNpubBound(t: Tables, env: Envelope, ev: NodeNpubBound): (r: Tables)
    ensures NodeKey(ev.tokenId) !in t.nodes ==> r == t
    ensures NodeKey(ev.tokenId) in t.nodes ==>
      && r == t.(nodes := r.nodes, nodeEvents := r.nodeEvents)
      && WritesOnly(t.nodes, r.nodes, NodeKey(ev.tokenId))
      && (var n, n' := t.nodes[NodeKey(ev.tokenId)], r.nodes[NodeKey(ev.tokenId)];
          && SameIdentity(n, n')
          && n'.npub == Some(ev.nodeNpub) && n'.updatedAt == env.timestamp
          && n'.owner == n.owner && n'.status == n.status && n'.lndPubkey == n.lndPubkey)
      && Logged(t.nodeEvents, r.nodeEvents, env, NPUB_BOUND, NodeKey(ev.tokenId))
  {
    var k := NodeKey(ev.tokenId);
    if k !in t.nodes then t
    else
      var n := t.nodes[k].(npub := Some(ev.nodeNpub), updatedAt := env.timestamp);
      ApplyCreateNodeEvent(t.(nodes := t.nodes[k := n]), env, NPUB_BOUND, Some(k))
  }

  /** Activating a known node records its LND key and npub, sets status
      Active and logs ACTIVATED. */
  function ApplyNodeActivated(t: Tables, env: Envelope, ev: NodeActivated): (r: Tables)
    ensures NodeKey(ev.tokenId) !in t.nodes ==> r == t
    ensures NodeKey(ev.tokenId) in t.nodes ==>
      && r == t.(nodes := r.nodes, nodeEvents := r.nodeEvents)
      && WritesOnly(t.nodes, r.nodes, NodeKey(ev.tokenId))
      && (var n, n' := t.nodes[NodeKey(ev.tokenId)], r.nodes[NodeKey(ev.tokenId)];
          && SameIdentity(n, n')
          && n'.lndPubkey == Some(ev.lndPubkey) && n'.npub == Some(ev.nodeNpub)
          && n'.status == STATUS_ACTIVE && n'.updatedAt == env.timestamp
          && n'.owner == n.owner)
      && Logged(t.nodeEvents, r.nodeEvents, env, ACTIVATED, NodeKey(ev.tokenId))
  {
    var k := NodeKey(ev.tokenId);
    if k !in t.nodes then t
    else
      var n := t.nodes[k].(lndPubkey := Some(ev.lndPubkey), npub := Some(ev.nodeNpub),
                           status := STATUS_ACTIVE, updatedAt := env.timestamp);
      ApplyCreateNodeEvent(t.(nodes := t.nodes[k := n]), env, ACTIVATED, Some(k))
  }

  /** A status change stores whatever status the log carries (no transition
      is checked) and logs STATUS_CHANGED. */
  function ApplyNodeStatusChanged(t: Tables, env: Envelope, ev: NodeStatusChanged): (r: Tables)
    ensures NodeKey(ev.tokenId) !in t.nodes ==> r == t
    ensures NodeKey(ev.tokenId) in t.nodes ==>
      && r == t.(nodes := r.nodes, nodeEvents := r.nodeEvents)
      && WritesOnly(t.nodes, r.nodes, NodeKey(ev.tokenId))
      && (var n, n' := t.nodes[NodeKey(ev.tokenId)], r.nodes[NodeKey(ev.tokenId)];
          && SameIdentity(n, n')
          && n'.status == ev.status && n'.updatedAt == env.timestamp
          && n'.owner == n.owner && n'.npub == n.npub && n'.lndPubkey == n.lndPubkey)
      && Logged(t.nodeEvents, r.nodeEvents, env, STATUS_CHANGED, NodeKey(ev.tokenId))
  {
    var k := NodeKey(ev.tokenId);
    if k !in t.nodes then t
    else
      var n := t.nodes[k].(status := ev.status, updatedAt := env.timestamp);
      ApplyCreateNodeEvent(t.(nodes := t.nodes[k := n]), env, STATUS_CHANGED, Some(k))
  }

  /** A transfer of a known node changes its owner only, and logs TRANSFERRED. */
  function ApplyTransfer(t: Tables, env: Envelope, ev: Transfer): (r: Tables)
    ensures NodeKey(ev.tokenId) !in t.nodes ==> r == t
    ensures NodeKey(ev.tokenId) in t.nodes ==>
      && r == t.(nodes := r.nodes, nodeEvents := r.nodeEvents)
      && WritesOnly(t.nodes, r.nodes, NodeKey(ev.tokenId))
      && (var n, n' := t.nodes[NodeKey(ev.tokenId)], r.nodes[NodeKey(ev.tokenId)];
          && SameIdentity(n, n')
          && n'.owner == ev.to && n'.updatedAt == env.timestamp
          && n'.status == n.status && n'.npub == n.npub && n'.lndPubkey == n.lndPubkey)
      && Logged(t.nodeEvents, r.nodeEvents, env, TRANSFERRED, NodeKey(ev.tokenId))
  {
    var k := NodeKey(ev.tokenId);
    if k !in t.nodes then t
    else
      var n := t.nodes[k].(owner := ev.to, updatedAt := env.timestamp);
      ApplyCreateNodeEvent(t.(nodes := t.nodes[k := n]), env, TRANSFERRED, Some(k))
  }

  /** A grant to a known node writes its three reward rows, replacing any
      earlier rows of that node, and logs REWARDS_ADDED. */
  function ApplyRewardsAdded(t: Tables, env: Envelope, ev: RewardsAdded): (r: Tables)
    ensures NodeKey(ev.tokenId) !in t.nodes ==> r == t
    ensures NodeKey(ev.tokenId) in t.nodes ==>
      && r == t.(rewards := r.rewards, nodeEvents := r.nodeEvents)
      && r.rewards.Keys == t.rewards.Keys + RewardKeys(NodeKey(ev.tokenId))
      && (forall j :: j in t.rewards && j !in RewardKeys(NodeKey(ev.tokenId)) ==> r.rewards[j] == t.rewards[j])
      && (forall rt: nat | rt < 3 ::
            && RewardKey(NodeKey(ev.tokenId), rt) in r.rewards
            && (var w := r.rewards[RewardKey(NodeKey(ev.tokenId), rt)];
                && w.node == NodeKey(ev.tokenId) && w.rewardType == rt
                && w.totalAmount == RewardAmount(ev, rt) && w.claimedAmount == 0
                && w.createdAt == env.timestamp && w.updatedAt == env.timestamp))
      && Logged(t.nodeEvents, r.nodeEvents, env, REWARDS_ADDED, NodeKey(ev.tokenId))
  {
    var k := NodeKey(ev.tokenId);
    if k !in t.nodes then t
    else
      RewardKeyInjective(ev.tokenId, 0, ev.tokenId, 1);
      RewardKeyInjective(ev.tokenId, 0, ev.tokenId, 2);
      RewardKeyInjective(ev.tokenId, 1, ev.tokenId, 2);
      var rewards := t.rewards
        [RewardKey(k, 0) := NodeMiningReward(k, 0, ev.staticAmount, 0, env.timestamp, env.timestamp)]
        [RewardKey(k, 1) := NodeMiningReward(k, 1, ev.dynamicAmount, 0, env.timestamp, env.timestamp)]
        [RewardKey(k, 2) := NodeMiningReward(k, 2, ev.airdropAmount, 0, env.timestamp, env.timestamp)];
      ApplyCreateNodeEvent(t.(rewards := rewards), env, REWARDS_ADDED, Some(k))
  }

  // ---------------------------------------------------------------- handlers

  method CreateNodeEvent(store: Store, env: Envelope, eventType: string, node: Option<string>)
    returns (nodeEvent: NodeEvent)
    modifies store`nodeEvents
    ensures store.Snapshot() == ApplyCreateNodeEvent(old(store.Snapshot()), env, eventType, node)
    ensures nodeEvent == store.nodeEvents[LogKey(env)]
  {
    var id := LogKey(env);
    nodeEvent := NodeEvent(eventType := eventType, timestamp := env.timestamp,
                           node := None, nodeSale := None, buyer := None);
    if node.Some? {
      nodeEvent := nodeEvent.(node := node);
    }
    store.nodeEvents := store.nodeEvents[id := nodeEvent];
  }

  method HandleNodeMinted(store: Store, env: Envelope, ev: NodeMinted)
    modifies store`nodes, store`nodeEvents
    ensures store.Snapshot() == ApplyNodeMinted(old(store.Snapshot()), env, ev)
  {
    var tokenId := NodeKey(ev.tokenId);
    var node := LNNode(tokenId := ev.tokenId, owner := ev.owner, buyer := ev.buyer,
                       createdAt := env.timestamp, updatedAt := env.timestamp,
                       status := STATUS_MINTED, npub := None, lndPubkey := None);
    store.nodes := store.nodes[tokenId := node];
    var nodeEvent := CreateNodeEvent(store, env, MINTED, Some(tokenId));
  }

  method HandleNodeNpubBound(store: Store, env: Envelope, ev: NodeNpubBound)
    modifies store`nodes, store`nodeEvents
    ensures store.Snapshot() == ApplyNodeNpubBound(old(store.Snapshot()), env, ev)
  {
    var tokenId := NodeKey(ev.tokenId);
    if tokenId in store.nodes {
      var node := store.nodes[tokenId];
      node := node.(npub := Some(ev.nodeNpub));
      node := node.(updatedAt := env.timestamp);
      store.nodes := store.nodes[tokenId := node];
      var nodeEvent := CreateNodeEvent(store, env, NPUB_BOUND, Some(tokenId));
    }
  }

  method HandleNodeActivated(store: Store, env: Envelope, ev: NodeActivated)
    modifies store`nodes, store`nodeEvents
    ensures store.Snapshot() == ApplyNodeActivated(old(store.Snapshot()), env, ev)
  {
    var tokenId := NodeKey(ev.tokenId);
    if tokenId in store.nodes {
      var node := store.nodes[tokenId];
      node := node.(lndPubkey := Some(ev.lndPubkey));
      node := node.(npub := Some(ev.nodeNpub));
      node := node.(status := STATUS_ACTIVE);
      node := node.(updatedAt := env.timestamp);
      store.nodes := store.nodes[tokenId := node];
      var nodeEvent := CreateNodeEvent(store, env, ACTIVATED, Some(tokenId));
    }
  }

  method HandleNodeStatusChanged(store: Store, env: Envelope, ev: NodeStatusChanged)
    modifies store`nodes, store`nodeEvents
    ensures store.Snapshot() == ApplyNodeStatusChanged(old(store.Snapshot()), env, ev)
  {
    var tokenId := NodeKey(ev.tokenId);
    if tokenId in store.nodes {
      var node := store.nodes[tokenId];
      node := node.(status := ev.status);
      node := node.(updatedAt := env.timestamp);
      store.nodes := store.nodes[tokenId := node];
      var nodeEvent := CreateNodeEvent(store, env, STATUS_CHANGED, Some(tokenId));
    }
  }

  method HandleTransfer(store: Store, env: Envelope, ev: Transfer)
    modifies store`nodes, store`nodeEvents
    ensures store.Snapshot() == ApplyTransfer(old(store.Snapshot()), env, ev)
  {
    var tokenId := NodeKey(ev.tokenId);
    if tokenId in store.nodes {
      var node := store.nodes[tokenId];
      node := node.(owner := ev.to);
      node := node.(updatedAt := env.timestamp);
      store.nodes := store.nodes[tokenId := node];
      var nodeEvent := CreateNodeEvent(store, env, TRANSFERRED, Some(tokenId));
    }
  }

  method HandleRewardsAdded(store: Store, env: Envelope, ev: RewardsAdded)
    modifies store`rewards, store`nodeEvents
    ensures store.Snapshot() == ApplyRewardsAdded(old(store.Snapshot()), env, ev)
  {
    var tokenId := NodeKey(ev.tokenId);
    if tokenId in store.nodes {
      var staticReward := NodeMiningReward(node := tokenId, rewardType := 0,
        totalAmount := ev.staticAmount, claimedAmount := 0,
        createdAt := env.timestamp, updatedAt := env.timestamp);
      store.rewards := store.rewards[RewardKey(tokenId, 0) := staticReward];

      var dynamicReward := NodeMiningReward(node := tokenId, rewardType := 1,
        totalAmount := ev.dynamicAmount, claimedAmount := 0,
        createdAt := env.timestamp, updatedAt := env.timestamp);
      store.rewards := store.rewards[RewardKey(tokenId, 1) := dynamicReward];

      var airdropReward := NodeMiningReward(node := tokenId, rewardType := 2,
        totalAmount := ev.airdropAmount, claimedAmount := 0,
        createdAt := env.timestamp, updatedAt := env.timestamp);
      store.rewards := store.rewards[RewardKey(tokenId, 2) := airdropReward];

      var nodeEvent := CreateNodeEvent(store, env, REWARDS_ADDED, Some(tokenId));
    }
  }

  // ------------------------------------------------------------------ lemmas

  /** A second grant to the same node replaces the first one's totals: the
      rows hold the second grant's amounts, not the sums. */
  lemma RewardsRepeatOverwrites(t: Tables, env1: Envelope, ev1: RewardsAdded, env2: Envelope, ev2: RewardsAdded)
    requires ev1.tokenId == ev2.tokenId
    ensures ApplyRewardsAdded(ApplyRewardsAdded(t, env1, ev1), env2, ev2).rewards
         == ApplyRewardsAdded(t, env2, ev2).rewards
  {
  }

  /** Minting a token and then activating it leaves its node active, owned
      by the minter's owner, with the activation's keys, and an ACTIVATED
      entry about it at the activation's key. */
  lemma MintThenActivate(t: Tables, env1: Envelope, m: NodeMinted, env2: Envelope, a: NodeActivated)
    requires a.tokenId == m.tokenId
    ensures var r := ApplyNodeActivated(ApplyNodeMinted(t, env1, m), env2, a);
      && NodeKey(m.tokenId) in r.nodes
      && r.nodes[NodeKey(m.tokenId)].status == STATUS_ACTIVE
      && r.nodes[NodeKey(m.tokenId)].lndPubkey == Some(a.lndPubkey)
      && r.nodes[NodeKey(m.tokenId)].npub == Some(a.nodeNpub)
      && r.nodes[NodeKey(m.tokenId)].owner == m.owner
      && r.nodeEvents[LogKey(env2)] == NodeEvent(ACTIVATED, env2.timestamp, Some(NodeKey(m.tokenId)), None, None)
  {
  }

  // ---------------------------------------------------------------- dispatch

  /** A log of the LNNodeNFT contract. */
  datatype Log =
    | Minted(minted: NodeMinted)
    | NpubBound(npubBound: NodeNpubBound)
    | Activated(activated: NodeActivated)
    | StatusChanged(statusChanged: NodeStatusChanged)
    | Transferred(transfer: Transfer)
    | Rewarded(rewarded: RewardsAdded)

  /** The effect of one log on the store. Only nodes, audit entries and
      reward rows change, and nothing is deleted. Audit entries and reward
      rows are only written about a node that exists (mint creates it first),
      so resolvable references stay resolvable. At most one audit entry is
      written, at the log's own key, and every other entry is left as it was. */
  function Apply(t: Tables, env: Envelope, log: Log): (r: Tables)
    ensures r == t.(nodes := r.nodes, nodeEvents := r.nodeEvents, rewards := r.rewards)
    ensures Grows(t, r)
    ensures RefsResolve(t) ==> RefsResolve(r)
    ensures r.nodeEvents.Keys <= t.nodeEvents.Keys + {LogKey(env)}
    ensures forall j :: j in t.nodeEvents && j != LogKey(env) ==> r.nodeEvents[j] == t.nodeEvents[j]
  {
    match log
    case Minted(ev) => ApplyNodeMinted(t, env, ev)
    case NpubBound(ev) => ApplyNodeNpubBound(t, env, ev)
    case Activated(ev) => ApplyNodeActivated(t, env, ev)
    case StatusChanged(ev) => ApplyNodeStatusChanged(t, env, ev)
    case Transferred(ev) => ApplyTransfer(t, env, ev)
    case Rewarded(ev) => ApplyRewardsAdded(t, env, ev)
  }
}
