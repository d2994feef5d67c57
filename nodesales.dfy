/** The NodeSale handlers: a sale is announced, purchases are recorded
    against it (raising its `sold` counter when the sale is known) and
    buyers bind their nodes. Purchases and bindings are appended under the
    `<txHash>-<logIndex>` key of their log. */
module NodeSales {
  import opened Keys
  import opened Entities

  // NodeEvent types written by this file.
  const NODE_SALE_ADDED := "NODE_SALE_ADDED"
  const NODE_PURCHASED := "NODE_PURCHASED"

  // Decoded parameters of the contract's logs.
  datatype NodeSaleAdded = NodeSaleAdded(id: nat, startTime: nat, title: string, quoteToken: Address, price: nat, amount: nat)
  datatype NodePurchased = NodePurchased(buyer: Address, nodeId: nat, count: nat, inviteCode: string, timestamp: nat)
  datatype NodeBinded = NodeBinded(buyer: Address, owner: Address, npub: string, rewardAddress: Address)

  /** A sale's id: its number in decimal. */
  function SaleKey(id: nat): string {
    NatToString(id)
  }

  /** A sale announcement creates (or replaces) the sale with nothing sold,
      enabled, and logs NODE_SALE_ADDED about it. */
  function ApplyNodeSaleAdded(t: Tables, env: Envelope, ev: NodeSaleAdded): (r: Tables)
    ensures r == t.(sales := r.sales, nodeEvents := r.nodeEvents)
    ensures WritesOnly(t.sales, r.sales, SaleKey(ev.id))
    ensures var s := r.sales[SaleKey(ev.id)];
      && s.startTime == ev.startTime && s.title == ev.title && s.quoteToken == ev.quoteToken
      && s.price == ev.price && s.amount == ev.amount
      && s.sold == 0 && s.enabled
    ensures WritesOnly(t.nodeEvents, r.nodeEvents, LogKey(env))
    ensures r.nodeEvents[LogKey(env)] == NodeEvent(NODE_SALE_ADDED, env.timestamp, None, Some(SaleKey(ev.id)), None)
  {
    var sale := NodeSale(ev.startTime, ev.title, ev.quoteToken, ev.price, ev.amount, 0, true);
    var nodeEvent := NodeEvent(NODE_SALE_ADDED, env.timestamp, None, Some(SaleKey(ev.id)), None);
    t.(sales := t.sales[SaleKey(ev.id) := sale], nodeEvents := t.nodeEvents[LogKey(env) := nodeEvent])
  }

  /** `sold` of a known sale grows by `count`; an unknown sale is not created. */
  function AddSold(sales: map<string, NodeSale>, saleKey: string, count: nat): (r: map<string, NodeSale>)
    ensures saleKey !in sales ==> r == sales
    ensures saleKey in sales ==>
      && WritesOnly(sales, r, saleKey)
      && r[saleKey] == sales[saleKey].(sold := r[saleKey].sold)
      && r[saleKey].sold == sales[saleKey].sold + count
  {
    if saleKey in sales then sales[saleKey := sales[saleKey].(sold := sales[saleKey].sold + count)]
    else sales
  }

  /** A purchase is always recorded, whether or not its sale is known; a
      known sale's `sold` grows by the count and nothing else of it changes;
      NODE_PURCHASED is logged under the purchase's own key. */
  function ApplyNodePurchased(t: Tables, env: Envelope, ev: NodePurchased): (r: Tables)
    ensures r == t.(purchases := r.purchases, sales := r.sales, nodeEvents := r.nodeEvents)
    ensures WritesOnly(t.purchases, r.purchases, LogKey(env))
    ensures var p := r.purchases[LogKey(env)];
      && p.buyer == ev.buyer && p.saleId == ev.nodeId && p.count == ev.count
      && p.inviteCode == ev.inviteCode && p.timestamp == ev.timestamp
      && p.nodeSale == SaleKey(ev.nodeId) && p.transactionHash == env.txHash
    ensures SaleKey(ev.nodeId) !in t.sales ==> r.sales == t.sales
    ensures SaleKey(ev.nodeId) in t.sales ==>
      && WritesOnly(t.sales, r.sales, SaleKey(ev.nodeId))
      && r.sales[SaleKey(ev.nodeId)] == t.sales[SaleKey(ev.nodeId)].(sold := r.sales[SaleKey(ev.nodeId)].sold)
      && r.sales[SaleKey(ev.nodeId)].sold == t.sales[SaleKey(ev.nodeId)].sold + ev.count
    ensures WritesOnly(t.nodeEvents, r.nodeEvents, LogKey(env))
    ensures r.nodeEvents[LogKey(env)] == NodeEvent(NODE_PURCHASED, env.timestamp, None, Some(SaleKey(ev.nodeId)), Some(ev.buyer))
  {
    var key := LogKey(env);
    var saleKey := SaleKey(ev.nodeId);
    var purchase := Purchase(ev.buyer, ev.nodeId, ev.count, ev.inviteCode, ev.timestamp, saleKey, env.txHash);
    var sales := AddSold(t.sales, saleKey, ev.count);
    var nodeEvent := NodeEvent(NODE_PURCHASED, env.timestamp, None, Some(saleKey), Some(ev.buyer));
    t.(purchases := t.purchases[key := purchase], sales := sales, nodeEvents := t.nodeEvents[key := nodeEvent])
  }

  /** A binding is recorded under its log's key; nothing else changes. */
  function ApplyNodeBinded(t: Tables, env: Envelope, ev: NodeBinded): (r: Tables)
    ensures r == t.(bindings := r.bindings)
    ensures WritesOnly(t.bindings, r.bindings, LogKey(env))
    ensures var b := r.bindings[LogKey(env)];
      b.buyer == ev.buyer && b.owner == ev.owner && b.npub == ev.npub && b.rewardAddress == ev.rewardAddress
  {
    t.(bindings := t.bindings[LogKey(env) := NodeBinding(ev.buyer, ev.owner, ev.npub, ev.rewardAddress)])
  }

  // ---------------------------------------------------------------- handlers

  method HandleNodeSaleAdded(store: Store, env: Envelope, ev: NodeSaleAdded)
    modifies store`sales, store`nodeEvents
    ensures store.Snapshot() == ApplyNodeSaleAdded(old(store.Snapshot()), env, ev)
  {
    var saleId := SaleKey(ev.id);
    var sale := NodeSale(startTime := ev.startTime, title := ev.title, quoteToken := ev.quoteToken,
                         price := ev.price, amount := ev.amount, sold := 0, enabled := true);
    store.sales := store.sales[saleId := sale];

    var eventId := LogKey(env);
    var nodeEvent := NodeEvent(eventType := NODE_SALE_ADDED, timestamp := env.timestamp,
                               node := None, nodeSale := Some(saleId), buyer := None);
    store.nodeEvents := store.nodeEvents[eventId := nodeEvent];
  }

  method HandleNodePurchased(store: Store, env: Envelope, ev: NodePurchased)
    modifies store`purchases, store`sales, store`nodeEvents
    ensures store.Snapshot() == ApplyNodePurchased(old(store.Snapshot()), env, ev)
  {
    var purchaseId := LogKey(env);
    var purchase := Purchase(buyer := ev.buyer, saleId := ev.nodeId, count := ev.count,
                             inviteCode := ev.inviteCode, timestamp := ev.timestamp,
                             nodeSale := SaleKey(ev.nodeId), transactionHash := env.txHash);
    store.purchases := store.purchases[purchaseId := purchase];

    var saleId := SaleKey(ev.nodeId);
    if saleId in store.sales {
      var nodeSale := store.sales[saleId];
      nodeSale := nodeSale.(sold := nodeSale.sold + ev.count);
      store.sales := store.sales[saleId := nodeSale];
    }

    var nodeEvent := NodeEvent(eventType := NODE_PURCHASED, timestamp := env.timestamp,
                               node := None, nodeSale := Some(saleId), buyer := Some(ev.buyer));
    store.nodeEvents := store.nodeEvents[purchaseId := nodeEvent];
  }

  method HandleNodeBinded(store: Store, env: Envelope, ev: NodeBinded)
    modifies store`bindings
    ensures store.Snapshot() == ApplyNodeBinded(old(store.Snapshot()), env, ev)
  {
    var bindId := LogKey(env);
    var bind := NodeBinding(buyer := ev.buyer, owner := ev.owner, npub := ev.npub, rewardAddress := ev.rewardAddress);
    store.bindings := store.bindings[bindId := bind];
  }

  // ------------------------------------------------------------------ lemmas

  /** A purchase against an unknown sale is still recorded, with a sale
      reference and an audit entry that point at no sale, and no sale is
      created. */
  lemma PurchaseOfUnknownSale(t: Tables, env: Envelope, ev: NodePurchased)
    requires SaleKey(ev.nodeId) !in t.sales
    ensures var r := ApplyNodePurchased(t, env, ev);
      && LogKey(env) in r.purchases
      && r.purchases[LogKey(env)].nodeSale !in r.sales
      && r.nodeEvents[LogKey(env)].nodeSale == Some(SaleKey(ev.nodeId))
      && SaleKey(ev.nodeId) !in r.sales
      && r.sales == t.sales
  {
  }

  // ---------------------------------------------------------------- dispatch

  /** A log of the NodeSale contract. */
  datatype Log =
    | SaleAdded(saleAdded: NodeSaleAdded)
    | Purchased(purchased: NodePurchased)
    | Binded(binded: NodeBinded)

  /** Log `log` announces the sale stored under `saleKey`. */
  predicate Announces(log: Log, saleKey: string) {
    log.SaleAdded? && SaleKey(log.saleAdded.id) == saleKey
  }

  /** How many nodes `log` buys from the sale stored under `saleKey`. */
  function PurchasedFrom(log: Log, saleKey: string): nat {
    if log.Purchased? && SaleKey(log.purchased.nodeId) == saleKey then log.purchased.count else 0
  }

  /** The effect of one log on the store. Only sales, purchases, bindings and
      audit entries change, and nothing is deleted; no audit entry written
      here names a node, so resolvable references stay resolvable. At most
      one audit entry is written, at the log's own key. A known sale that
      the log does not announce again keeps everything but `sold`, which
      grows by exactly what the log buys from it. */
  function Apply(t: Tables, env: Envelope, log: Log): (r: Tables)
    ensures r == t.(sales := r.sales, purchases := r.purchases, nodeEvents := r.nodeEvents, bindings := r.bindings)
    ensures Grows(t, r)
    ensures RefsResolve(t) ==> RefsResolve(r)
    ensures r.nodeEvents.Keys <= t.nodeEvents.Keys + {LogKey(env)}
    ensures forall j :: j in t.nodeEvents && j != LogKey(env) ==> r.nodeEvents[j] == t.nodeEvents[j]
    ensures forall k :: k in t.sales && !Announces(log, k) ==>
      && r.sales[k] == t.sales[k].(sold := r.sales[k].sold)
      && r.sales[k].sold == t.sales[k].sold + PurchasedFrom(log, k)
  {
    match log
    case SaleAdded(ev) => ApplyNodeSaleAdded(t, env, ev)
    case Purchased(ev) => ApplyNodePurchased(t, env, ev)
    case Binded(ev) => ApplyNodeBinded(t, env, ev)
  }
}
