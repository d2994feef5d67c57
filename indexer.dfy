/** The three data sources as one indexer: every decoded log is one Event,
    routed to the handlers of the contract that emitted it, and a stream of
    logs is applied in order. The lemmas here are about whole streams:
    references between records stay resolvable, a sale's `sold` is the sum
    of its purchases, an HTLC's settlement flags stick unless its hashlock is
    opened again, and an audit entry is never overwritten by a later log. */
module Indexer {
  import opened Keys
  import opened Entities
  import HtlcPay
  import NodeNft
  import NodeSales

  /** A log of one of the three contracts. */
  datatype Payload =
    | HashedTimeLock(htlcLog: HtlcPay.Log)
    | NodeNFT(nftLog: NodeNft.Log)
    | NodeSaleContract(saleLog: NodeSales.Log)

  /** A decoded log: its envelope and its parameters. */
  datatype Event = Event(env: Envelope, payload: Payload)

  /** Log `e` opens an HTLC under hashlock `id`. */
  predicate Opens(e: Event, id: string) {
    e.payload.HashedTimeLock? && HtlcPay.Opens(e.payload.htlcLog, id)
  }

  /** Log `e` announces (again) the sale stored under `saleKey`, which resets it. */
  predicate Announces(e: Event, saleKey: string) {
    e.payload.NodeSaleContract? && NodeSales.Announces(e.payload.saleLog, saleKey)
  }

  /** Units that log `e` buys from the sale stored under `saleKey`. */
  function PurchasedBy(e: Event, saleKey: string): nat {
    if e.payload.NodeSaleContract? then NodeSales.PurchasedFrom(e.payload.saleLog, saleKey) else 0
  }

  /** The effect of one log, whichever contract emitted it: nothing is
      deleted, resolvable references stay resolvable, the audit log changes
      at most at the log's own key, an HTLC keeps its terms and its flags
      unless its hashlock is opened again, and a sale that is not announced
      again changes only by the units bought from it. */
  function Apply(t: Tables, e: Event): (r: Tables)
    ensures Grows(t, r)
    ensures RefsResolve(t) ==> RefsResolve(r)
    ensures forall j :: j in t.nodeEvents && j != LogKey(e.env) ==> r.nodeEvents[j] == t.nodeEvents[j]
    ensures forall id :: id in t.htlcs && !Opens(e, id) ==>
      && HtlcPay.SameTerms(t.htlcs[id], r.htlcs[id])
      && (t.htlcs[id].withdrawn ==> r.htlcs[id].withdrawn)
      && (t.htlcs[id].refunded ==> r.htlcs[id].refunded)
    ensures forall k :: k in t.sales && !Announces(e, k) ==>
      r.sales[k] == t.sales[k].(sold := t.sales[k].sold + PurchasedBy(e, k))
  {
    match e.payload
    case HashedTimeLock(log) => HtlcPay.Apply(t, e.env, log)
    case NodeNFT(log) => NodeNft.Apply(t, e.env, log)
    case NodeSaleContract(log) => NodeSales.Apply(t, e.env, log)
  }

  /** The store after the logs `es`, in order. */
  function ApplyAll(t: Tables, es: seq<Event>): Tables
    decreases |es|
  {
    if es == [] then t else ApplyAll(Apply(t, es[0]), es[1..])
  }

  // ------------------------------------------------------------- references

  /** Whatever logs arrive, in whatever order, no record is lost and the
      references the handlers check keep resolving. */
  lemma {:induction false} ApplyAllPreservesRefs(t: Tables, es: seq<Event>)
    requires RefsResolve(t)
    ensures Grows(t, ApplyAll(t, es))
    ensures RefsResolve(ApplyAll(t, es))
    decreases |es|
  {
    if es != [] {
      ApplyAllPreservesRefs(Apply(t, es[0]), es[1..]);
    }
  }

  /** Starting from an empty store, every reference the handlers check
      resolves after any stream of logs. */
  lemma RefsResolveFromEmpty(es: seq<Event>)
    ensures RefsResolve(ApplyAll(EMPTY_TABLES, es))
  {
    ApplyAllPreservesRefs(EMPTY_TABLES, es);
  }

  // ------------------------------------------------------------ sold counter

  /** Units that the logs `es` buy from the sale stored under `saleKey`. */
  function Purchased(es: seq<Event>, saleKey: string): nat
    decreases |es|
  {
    if es == [] then 0 else PurchasedBy(es[0], saleKey) + Purchased(es[1..], saleKey)
  }

  /** Until a sale is announced again, its `sold` grows by exactly the
      counts of the purchases made against it, and nothing else of it changes. */
  lemma {:induction false} SoldAccumulates(t: Tables, es: seq<Event>, saleKey: string)
    requires saleKey in t.sales
    requires forall i :: 0 <= i < |es| ==> !Announces(es[i], saleKey)
    ensures saleKey in ApplyAll(t, es).sales
    ensures ApplyAll(t, es).sales[saleKey] == t.sales[saleKey].(sold := t.sales[saleKey].sold + Purchased(es, saleKey))
    decreases |es|
  {
    if es != [] {
      SoldAccumulates(Apply(t, es[0]), es[1..], saleKey);
    }
  }

  /** After a sale is announced, its `sold` is the sum of the counts of the
      purchases against it, as long as it is not announced again. */
  lemma SoldIsSumOfPurchases(t: Tables, env: Envelope, sale: NodeSales.NodeSaleAdded, es: seq<Event>)
    requires forall i :: 0 <= i < |es| ==> !Announces(es[i], NodeSales.SaleKey(sale.id))
    ensures var r := ApplyAll(Apply(t, Event(env, NodeSaleContract(NodeSales.SaleAdded(sale)))), es);
      && NodeSales.SaleKey(sale.id) in r.sales
      && r.sales[NodeSales.SaleKey(sale.id)].sold == Purchased(es, NodeSales.SaleKey(sale.id))
      && r.sales[NodeSales.SaleKey(sale.id)].enabled
  {
    SoldAccumulates(Apply(t, Event(env, NodeSaleContract(NodeSales.SaleAdded(sale)))), es, NodeSales.SaleKey(sale.id));
  }

  // -------------------------------------------------------- HTLC settlement

  /** An HTLC keeps its terms, and once withdrawn (or refunded) stays so,
      for as long as no log opens an HTLC under the same hashlock. */
  lemma {:induction false} SettlementSticks(t: Tables, es: seq<Event>, id: string)
    requires id in t.htlcs
    requires forall i :: 0 <= i < |es| ==> !Opens(es[i], id)
    ensures id in ApplyAll(t, es).htlcs
    ensures var h, h' := t.htlcs[id], ApplyAll(t, es).htlcs[id];
      && HtlcPay.SameTerms(h, h')
      && (h.withdrawn ==> h'.withdrawn)
      && (h.refunded ==> h'.refunded)
    decreases |es|
  {
    if es != [] {
      SettlementSticks(Apply(t, es[0]), es[1..], id);
    }
  }

  // ------------------------------------------------------------- audit log

  /** An audit entry survives every log written at another key. */
  lemma {:induction false} LogEntrySurvives(t: Tables, es: seq<Event>, k: string)
    requires k in t.nodeEvents
    requires forall i :: 0 <= i < |es| ==> LogKey(es[i].env) != k
    ensures k in ApplyAll(t, es).nodeEvents && ApplyAll(t, es).nodeEvents[k] == t.nodeEvents[k]
    decreases |es|
  {
    if es != [] {
      LogEntrySurvives(Apply(t, es[0]), es[1..], k);
    }
  }

  /** The audit log is append-only: an entry written by the log at `env`
      survives every later log from a different (transaction, log index). */
  lemma AuditEntryNeverOverwritten(t: Tables, env: Envelope, es: seq<Event>)
    requires LogKey(env) in t.nodeEvents && IsHexString(env.txHash)
    requires forall i :: 0 <= i < |es| ==> IsHexString(es[i].env.txHash)
    requires forall i :: 0 <= i < |es| ==>
      es[i].env.txHash != env.txHash || es[i].env.logIndex != env.logIndex
    ensures LogKey(env) in ApplyAll(t, es).nodeEvents
    ensures ApplyAll(t, es).nodeEvents[LogKey(env)] == t.nodeEvents[LogKey(env)]
  {
    forall i | 0 <= i < |es|
      ensures LogKey(es[i].env) != LogKey(env)
    {
      EventKeyInjective(es[i].env.txHash, es[i].env.logIndex, env.txHash, env.logIndex);
    }
    LogEntrySurvives(t, es, LogKey(env));
  }
}
