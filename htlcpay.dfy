/** The HashedTimeLock handlers: assets, tokens and the pairs that join them,
    and the life of a hashed time-locked contract (created against a pair,
    then withdrawn with its preimage or refunded).

    Each handler is a method on the Store; its postcondition ties the new
    store to a function of the old one, and the properties of that function
    are stated in its own postcondition and in the lemmas below. */
module HtlcPay {
  import opened Entities

  // Decoded parameters of the contract's logs (ids are in hex form).
  datatype LogNewPair = LogNewPair(pairId: string, assetId: string, token: string)
  datatype LogNewAsset = LogNewAsset(assetId: string, name: string, decimal: nat)
  datatype LogNewToken = LogNewToken(token: string, name: string, decimal: nat)
  datatype LogHTLCNew = LogHTLCNew(
    sender: Address,
    receiver: Address,
    pairId: string,
    amount: nat,
    hashlock: string,
    timelock: nat,
    nodePubkey: string)
  datatype LogHTLCWithdraw = LogHTLCWithdraw(contractId: string)
  datatype LogHTLCRefund = LogHTLCRefund(contractId: string)

  /** The part of the contract's `getContractByKey` answer the handlers keep.
      The read itself is on-chain; its answer is a parameter here. */
  datatype ContractInfo = ContractInfo(preimage: string, watcher: Address)

  /** The terms an HTLC is created with, which withdraw and refund leave alone. */
  predicate SameTerms(h: Htlc, h': Htlc) {
    && h'.sender == h.sender
    && h'.receiver == h.receiver
    && h'.pair == h.pair
    && h'.amount == h.amount
    && h'.hashlock == h.hashlock
    && h'.timelock == h.timelock
    && h'.createdAt == h.createdAt
    && h'.nodePubkey == h.nodePubkey
  }

  /** A pair is written only when its asset and its token are both known. */
  function ApplyNewPair(t: Tables, env: Envelope, ev: LogNewPair): (r: Tables)
    ensures ev.assetId !in t.assets || ev.token !in t.tokens ==> r == t
    ensures ev.assetId in t.assets && ev.token in t.tokens ==>
      && r == t.(pairs := r.pairs)
      && WritesOnly(t.pairs, r.pairs, ev.pairId)
      && r.pairs[ev.pairId].pairId == ev.pairId
      && r.pairs[ev.pairId].token == ev.token
      && r.pairs[ev.pairId].asset == ev.assetId
      && r.pairs[ev.pairId].createdAt == env.timestamp
      && r.pairs[ev.pairId].transactionHash == env.txHash
  {
    if ev.assetId !in t.assets then t
    else if ev.token !in t.tokens then t
    else t.(pairs := t.pairs[ev.pairId := Pair(ev.pairId, ev.token, ev.assetId, env.timestamp, env.txHash)])
  }

  /** An asset is created, or overwritten, unconditionally. */
  function ApplyNewAsset(t: Tables, env: Envelope, ev: LogNewAsset): (r: Tables)
    ensures r == t.(assets := r.assets)
    ensures WritesOnly(t.assets, r.assets, ev.assetId)
    ensures r.assets[ev.assetId].name == ev.name
    ensures r.assets[ev.assetId].decimal == ev.decimal
    ensures r.assets[ev.assetId].createdAt == env.timestamp
    ensures r.assets[ev.assetId].transactionHash == env.txHash
  {
    t.(assets := t.assets[ev.assetId := Asset(ev.name, ev.decimal, env.timestamp, env.txHash)])
  }

  /** A token is created, or overwritten, unconditionally. */
  function ApplyNewToken(t: Tables, env: Envelope, ev: LogNewToken): (r: Tables)
    ensures r == t.(tokens := r.tokens)
    ensures WritesOnly(t.tokens, r.tokens, ev.token)
    ensures r.tokens[ev.token].name == ev.name
    ensures r.tokens[ev.token].decimal == ev.decimal
    ensures r.tokens[ev.token].createdAt == env.timestamp
    ensures r.tokens[ev.token].transactionHash == env.txHash
  {
    t.(tokens := t.tokens[ev.token := Token(ev.name, ev.decimal, env.timestamp, env.txHash)])
  }

  /** An HTLC is opened, keyed by its hashlock, only against a known pair. */
  function ApplyHTLCNew(t: Tables, env: Envelope, ev: LogHTLCNew): (r: Tables)
    ensures ev.pairId !in t.pairs ==> r == t
    ensures ev.pairId in t.pairs ==>
      && r == t.(htlcs := r.htlcs)
      && WritesOnly(t.htlcs, r.htlcs, ev.hashlock)
      && (var h := r.htlcs[ev.hashlock];
          && !h.withdrawn && !h.refunded
          && h.pair == ev.pairId
          && h.sender == ev.sender && h.receiver == ev.receiver
          && h.amount == ev.amount && h.hashlock == ev.hashlock && h.timelock == ev.timelock
          && h.nodePubkey == ev.nodePubkey && h.createdAt == env.timestamp
          && h.preimage == None && h.watcher == None && h.closedAt == None)
  {
    if ev.pairId !in t.pairs then t
    else
      var h := Htlc(ev.sender, ev.receiver, ev.pairId, ev.amount, ev.hashlock, ev.timelock,
                    false, false, env.timestamp, ev.nodePubkey, None, None, None);
      t.(htlcs := t.htlcs[ev.hashlock := h])
  }

  /** Withdraw marks a known HTLC withdrawn and records the preimage and
      watcher read from the contract; `refunded` is not looked at. */
  function ApplyHTLCWithdraw(t: Tables, env: Envelope, ev: LogHTLCWithdraw, info: ContractInfo): (r: Tables)
    ensures ev.contractId !in t.htlcs ==> r == t
    ensures ev.contractId in t.htlcs ==>
      && r == t.(htlcs := r.htlcs)
      && WritesOnly(t.htlcs, r.htlcs, ev.contractId)
      && (var h, h' := t.htlcs[ev.contractId], r.htlcs[ev.contractId];
          && SameTerms(h, h')
          && h'.withdrawn && h'.refunded == h.refunded
          && h'.preimage == Some(info.preimage)
          && h'.watcher == Some(info.watcher)
          && h'.closedAt == Some(env.timestamp))
  {
    if ev.contractId !in t.htlcs then t
    else
      var h := t.htlcs[ev.contractId];
      var h' := h.(withdrawn := true, preimage := Some(info.preimage),
                   watcher := Some(info.watcher), closedAt := Some(env.timestamp));
      t.(htlcs := t.htlcs[ev.contractId := h'])
  }

  /** Refund marks a known HTLC refunded and records the watcher; `withdrawn`
      and `preimage` are not touched. */
  function ApplyHTLCRefund(t: Tables, env: Envelope, ev: LogHTLCRefund, info: ContractInfo): (r: Tables)
    ensures ev.contractId !in t.htlcs ==> r == t
    ensures ev.contractId in t.htlcs ==>
      && r == t.(htlcs := r.htlcs)
      && WritesOnly(t.htlcs, r.htlcs, ev.contractId)
      && (var h, h' := t.htlcs[ev.contractId], r.htlcs[ev.contractId];
          && SameTerms(h, h')
          && h'.refunded && h'.withdrawn == h.withdrawn
          && h'.preimage == h.preimage
          && h'.watcher == Some(info.watcher)
          && h'.closedAt == Some(env.timestamp))
  {
    if ev.contractId !in t.htlcs then t
    else
      var h := t.htlcs[ev.contractId];
      var h' := h.(refunded := true, closedAt := Some(env.timestamp), watcher := Some(info.watcher));
      t.(htlcs := t.htlcs[ev.contractId := h'])
  }

  // ---------------------------------------------------------------- handlers

  method HandleNewPair(store: Store, env: Envelope, ev: LogNewPair)
    modifies store`pairs
    ensures store.Snapshot() == ApplyNewPair(old(store.Snapshot()), env, ev)
  {
    if ev.assetId !in store.assets {
      return; // asset not found: logged, nothing written
    }
    var asset := ev.assetId;
    if ev.token !in store.tokens {
      return; // token not found: logged, nothing written
    }
    var token := ev.token;
    var pair := Pair(pairId := ev.pairId, token := token, asset := asset,
                     createdAt := env.timestamp, transactionHash := env.txHash);
    store.pairs := store.pairs[ev.pairId := pair];
  }

  method HandleNewAsset(store: Store, env: Envelope, ev: LogNewAsset)
    modifies store`assets
    ensures store.Snapshot() == ApplyNewAsset(old(store.Snapshot()), env, ev)
  {
    var asset := Asset(name := ev.name, decimal := ev.decimal,
                       createdAt := env.timestamp, transactionHash := env.txHash);
    store.assets := store.assets[ev.assetId := asset];
  }

  method HandleNewToken(store: Store, env: Envelope, ev: LogNewToken)
    modifies store`tokens
    ensures store.Snapshot() == ApplyNewToken(old(store.Snapshot()), env, ev)
  {
    var token := Token(name := ev.name, decimal := ev.decimal,
                       createdAt := env.timestamp, transactionHash := env.txHash);
    store.tokens := store.tokens[ev.token := token];
  }

  method HandleHTLCNew(store: Store, env: Envelope, ev: LogHTLCNew)
    modifies store`htlcs
    ensures store.Snapshot() == ApplyHTLCNew(old(store.Snapshot()), env, ev)
  {
    var contractId := ev.hashlock;
    if ev.pairId !in store.pairs {
      return; // pair not found: logged, nothing written
    }
    var htlc := Htlc(
      sender := ev.sender, receiver := ev.receiver, pair := ev.pairId,
      amount := ev.amount, hashlock := ev.hashlock, timelock := ev.timelock,
      withdrawn := false, refunded := false, createdAt := env.timestamp,
      nodePubkey := ev.nodePubkey, preimage := None, watcher := None, closedAt := None);
    store.htlcs := store.htlcs[contractId := htlc];
  }

  method HandleHTLCWithdraw(store: Store, env: Envelope, ev: LogHTLCWithdraw, contractInfo: ContractInfo)
    modifies store`htlcs
    ensures store.Snapshot() == ApplyHTLCWithdraw(old(store.Snapshot()), env, ev, contractInfo)
  {
    var contractId := ev.contractId;
    if contractId in store.htlcs {
      var timeLock := store.htlcs[contractId];
      timeLock := timeLock.(withdrawn := true);
      timeLock := timeLock.(preimage := Some(contractInfo.preimage));
      timeLock := timeLock.(watcher := Some(contractInfo.watcher));
      timeLock := timeLock.(closedAt := Some(env.timestamp));
      store.htlcs := store.htlcs[contractId := timeLock];
    }
  }

  method HandleHTLCRefund(store: Store, env: Envelope, ev: LogHTLCRefund, contractInfo: ContractInfo)
    modifies store`htlcs
    ensures store.Snapshot() == ApplyHTLCRefund(old(store.Snapshot()), env, ev, contractInfo)
  {
    var contractId := ev.contractId;
    if contractId in store.htlcs {
      var timeLock := store.htlcs[contractId];
      timeLock := timeLock.(refunded := true);
      timeLock := timeLock.(closedAt := Some(env.timestamp));
      timeLock := timeLock.(watcher := Some(contractInfo.watcher));
      store.htlcs := store.htlcs[contractId := timeLock];
    }
  }

  // ------------------------------------------------------------------ lemmas

  /** Replaying a withdraw (same log, same contract answer) changes nothing more. */
  lemma WithdrawIdempotent(t: Tables, env: Envelope, ev: LogHTLCWithdraw, info: ContractInfo)
    ensures ApplyHTLCWithdraw(ApplyHTLCWithdraw(t, env, ev, info), env, ev, info)
         == ApplyHTLCWithdraw(t, env, ev, info)
  {
  }

  /** Replaying a refund (same log, same contract answer) changes nothing more. */
  lemma RefundIdempotent(t: Tables, env: Envelope, ev: LogHTLCRefund, info: ContractInfo)
    ensures ApplyHTLCRefund(ApplyHTLCRefund(t, env, ev, info), env, ev, info)
         == ApplyHTLCRefund(t, env, ev, info)
  {
  }

  /** Re-announcing an asset id keeps only the last announcement. */
  lemma NewAssetLastWriteWins(t: Tables, env1: Envelope, ev1: LogNewAsset, env2: Envelope, ev2: LogNewAsset)
    requires ev1.assetId == ev2.assetId
    ensures ApplyNewAsset(ApplyNewAsset(t, env1, ev1), env2, ev2) == ApplyNewAsset(t, env2, ev2)
  {
  }

  /** Re-announcing a token id keeps only the last announcement. */
  lemma NewTokenLastWriteWins(t: Tables, env1: Envelope, ev1: LogNewToken, env2: Envelope, ev2: LogNewToken)
    requires ev1.token == ev2.token
    ensures ApplyNewToken(ApplyNewToken(t, env1, ev1), env2, ev2) == ApplyNewToken(t, env2, ev2)
  {
  }

  /** Nothing keeps withdraw and refund apart: a refund after a withdraw
      leaves an HTLC both withdrawn and refunded, with the withdraw's
      preimage and the refund's watcher and close time. */
  lemma WithdrawThenRefundSetsBoth(
    t: Tables, env1: Envelope, w: LogHTLCWithdraw, info1: ContractInfo,
    env2: Envelope, rf: LogHTLCRefund, info2: ContractInfo)
    requires w.contractId in t.htlcs && rf.contractId == w.contractId
    ensures var h := ApplyHTLCRefund(ApplyHTLCWithdraw(t, env1, w, info1), env2, rf, info2).htlcs[w.contractId];
      && h.withdrawn && h.refunded
      && h.preimage == Some(info1.preimage)
      && h.watcher == Some(info2.watcher)
      && h.closedAt == Some(env2.timestamp)
  {
  }

  // ---------------------------------------------------------------- dispatch

  /** A log of the HashedTimeLock contract. Withdraw and refund also carry
      the answer of the contract read their handlers make. */
  datatype Log =
    | NewPair(newPair: LogNewPair)
    | NewAsset(newAsset: LogNewAsset)
    | NewToken(newToken: LogNewToken)
    | HTLCNew(htlcNew: LogHTLCNew)
    | HTLCWithdraw(withdraw: LogHTLCWithdraw, withdrawRead: ContractInfo)
    | HTLCRefund(refund: LogHTLCRefund, refundRead: ContractInfo)

  /** Log `log` opens an HTLC under hashlock `id`. */
  predicate Opens(log: Log, id: string) {
    log.HTLCNew? && log.htlcNew.hashlock == id
  }

  /** The effect of one log on the store. Only the asset, token, pair and
      HTLC collections change, and no record is deleted. A pair is only
      written over a known asset and token and an HTLC only over a known
      pair, so resolvable references stay resolvable. Short of re-opening
      its hashlock, no log changes an HTLC's terms or clears its withdrawn
      or refunded flag. */
  function Apply(t: Tables, env: Envelope, log: Log): (r: Tables)
    ensures r == t.(assets := r.assets, tokens := r.tokens, pairs := r.pairs, htlcs := r.htlcs)
    ensures Grows(t, r)
    ensures RefsResolve(t) ==> RefsResolve(r)
    ensures forall id :: id in t.htlcs && !Opens(log, id) ==>
      && SameTerms(t.htlcs[id], r.htlcs[id])
      && (t.htlcs[id].withdrawn ==> r.htlcs[id].withdrawn)
      && (t.htlcs[id].refunded ==> r.htlcs[id].refunded)
  {
    match log
    case NewPair(ev) => ApplyNewPair(t, env, ev)
    case NewAsset(ev) => ApplyNewAsset(t, env, ev)
    case NewToken(ev) => ApplyNewToken(t, env, ev)
    case HTLCNew(ev) => ApplyHTLCNew(t, env, ev)
    case HTLCWithdraw(ev, info) => ApplyHTLCWithdraw(t, env, ev, info)
    case HTLCRefund(ev, info) => ApplyHTLCRefund(t, env, ev, info)
  }

  /** Re-opening a withdrawn HTLC's hashlock against a known pair clears its
      flags: the handler does not check for an existing HTLC. */
  lemma ReopeningClearsSettlement(t: Tables, env: Envelope, ev: LogHTLCNew)
    requires ev.hashlock in t.htlcs && t.htlcs[ev.hashlock].withdrawn
    requires ev.pairId in t.pairs
    ensures var h' := Apply(t, env, HTLCNew(ev)).htlcs[ev.hashlock];
      !h'.withdrawn && !h'.refunded
  {
  }
}
