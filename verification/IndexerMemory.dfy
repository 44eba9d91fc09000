/** The store as the source keeps it: a map and a queue for each kind of keyed
    record, changed in place, refining the lists of `IndexerStore`. */
module IndexerMemory {
  import opened Common
  import opened IndexerTypes
  import opened IndexerDedupe
  import opened IndexerStore

  /** The records that `order` names, in that order. */
  ghost function Listed<T>(order: seq<string>, records: map<string, T>): (list: seq<T>)
    requires forall id :: id in order ==> id in records
    ensures |list| == |order|
  {
    seq(|order|, i requires 0 <= i < |order| => records[order[i]])
  }

  function KeepIds(order: seq<string>, removed: set<string>): (kept: seq<string>)
    ensures forall id :: id in kept <==> id in order && id !in removed
  {
    if order == [] then []
    else (if order[0] in removed then [] else [order[0]]) + KeepIds(order[1..], removed)
  }

  lemma {:induction false} KeepIdsDistinct(order: seq<string>, removed: set<string>)
    requires Distinct(order)
    ensures Distinct(KeepIds(order, removed))
  {
    if order != [] { KeepIdsDistinct(order[1..], removed); }
  }

  lemma {:induction false} DistinctSize(order: seq<string>)
    requires Distinct(order)
    ensures |ToSet(order)| == |order|
  {
    if order != [] {
      DistinctSize(order[1..]);
      assert ToSet(order) == {order[0]} + ToSet(order[1..]);
    }
  }

  lemma ListedCons<T>(order: seq<string>, records: map<string, T>)
    requires order != [] && forall id :: id in order ==> id in records
    ensures Listed(order, records) == [records[order[0]]] + Listed(order[1..], records)
    ensures Listed(order, records)[1..] == Listed(order[1..], records)
  {
  }

  /** Forgetting the front of the queue forgets the first record. */
  lemma ListedTail<T>(order: seq<string>, records: map<string, T>)
    requires order != [] && Distinct(order) && forall id :: id in order ==> id in records
    ensures Listed(order[1..], records - {order[0]}) == Listed(order, records)[1..]
  {
  }

  lemma {:induction false} KeepListedBlocks(order: seq<string>, blocks: map<string, Block>, removed: set<string>)
    requires forall id :: id in order ==> id in blocks && blocks[id].hash == id
    ensures KeepBlocks(Listed(order, blocks), removed) == Listed(KeepIds(order, removed), blocks)
  {
    hide Listed;
    if order != [] {
      KeepListedBlocks(order[1..], blocks, removed);
      ListedCons(order, blocks);
      var kept, rest := KeepIds(order, removed), KeepIds(order[1..], removed);
      if order[0] in removed {
        assert kept == rest;
      } else {
        assert kept == [order[0]] + rest && kept[1..] == rest;
        ListedCons(kept, blocks);
      }
    } else {
      ListedNone(blocks);
    }
  }

  lemma ListedNone<T>(records: map<string, T>)
    ensures Listed([], records) == []
  {
  }

  lemma {:induction false} KeepListedTransactions(order: seq<string>, txs: map<string, Transaction>, hashes: set<string>, ids: set<string>)
    requires forall id :: id in order ==> id in txs && (id in ids <==> InBlocks(txs[id], hashes))
    ensures KeepTransactions(Listed(order, txs), hashes) == Listed(KeepIds(order, ids), txs)
  {
    hide Listed, InBlocks;
    if order != [] {
      KeepListedTransactions(order[1..], txs, hashes, ids);
      ListedCons(order, txs);
      var kept, rest := KeepIds(order, ids), KeepIds(order[1..], ids);
      if order[0] in ids {
        assert kept == rest;
      } else {
        assert kept == [order[0]] + rest && kept[1..] == rest;
        ListedCons(kept, txs);
      }
    } else {
      ListedNone(txs);
    }
  }

  /** Keeping part of a map and the same part of its queue keeps them matched. */
  lemma KeepMatched<T>(order: seq<string>, records: map<string, T>, ids: set<string>, kept: map<string, T>)
    requires Distinct(order) && records.Keys == ToSet(order)
    requires kept == map id | id in records && id !in ids :: records[id]
    ensures Distinct(KeepIds(order, ids)) && kept.Keys == ToSet(KeepIds(order, ids))
    ensures Listed(KeepIds(order, ids), kept) == Listed(KeepIds(order, ids), records)
  {
    KeepIdsDistinct(order, ids);
  }

  lemma OrphansListed(order: seq<string>, txs: map<string, Transaction>, removed: set<string>, ids: set<string>)
    requires txs.Keys == ToSet(order) && (forall id :: id in txs ==> txs[id].txid == id)
    requires ids == set id | id in txs && InBlocks(txs[id], removed)
    ensures ids == OrphanIds(Listed(order, txs), removed)
  {
    var list := Listed(order, txs);
    assert forall i :: 0 <= i < |order| ==> list[i] == txs[order[i]];
    forall id | id in ids ensures id in OrphanIds(list, removed) {
      var i :| 0 <= i < |order| && order[i] == id;
      assert list[i] in list && InBlocks(list[i], removed);
    }
  }

  lemma TxidsSnoc(txs: seq<Transaction>, n: nat)
    requires n < |txs|
    ensures Txids(txs[..n + 1]) == Txids(txs[..n]) + [txs[n].txid]
    ensures txs[n..][1..] == txs[n + 1..]
  {
  }

  lemma TxidsSnocNone(txs: seq<Transaction>)
    ensures Txids(txs[..0]) == [] && txs[0..] == txs
  {
  }

  class MemoryStore {
    const config: Config
    var tx: map<string, Transaction>
    var txOrder: seq<string>
    var blocks: map<string, Block>
    var blockOrder: seq<string>
    var matches: seq<Match>
    var pendingEvictions: seq<Eviction>

    /** Each queue lists the keys of its map exactly once. */
    ghost predicate Valid()
      reads this
    {
      && Distinct(txOrder) && tx.Keys == ToSet(txOrder)
      && Distinct(blockOrder) && blocks.Keys == ToSet(blockOrder)
      && (forall id :: id in tx ==> tx[id].txid == id)
      && (forall id :: id in blocks ==> blocks[id].hash == id)
    }

    ghost function State(): Store
      requires Valid()
      reads this
    {
      Store(Listed(txOrder, tx), Listed(blockOrder, blocks), matches, pendingEvictions)
    }

    constructor (config: Config)
      ensures Valid() && this.config == config && State() == EMPTY_STORE
    {
      this.config := config;
      tx, txOrder, blocks, blockOrder := map[], [], map[], [];
      matches, pendingEvictions := [], [];
    }

    /** Takes the oldest transaction off the queue and out of the map. */
    method PopTransaction() returns (id: string)
      requires Valid() && txOrder != []
      modifies this`tx, this`txOrder
      ensures Valid() && |tx| == |old(tx)| - 1 && |txOrder| == |old(txOrder)| - 1
      ensures old(State()).txs != [] && id == old(State()).txs[0].txid
      ensures State() == old(State()).(txs := old(State()).txs[1..])
    {
      ListedTail(txOrder, tx);
      id := txOrder[0];
      txOrder := txOrder[1..];
      tx := tx - {id};
    }

    /** Drops the oldest transaction for want of room, and its matches. */
    method EvictTransaction()
      requires Valid() && txOrder != []
      modifies this
      ensures Valid() && |tx| == |old(tx)| - 1 && |txOrder| == |old(txOrder)| - 1
      ensures old(State()).txs != [] && State() == DropOldest(old(State()))
      ensures blocks == old(blocks) && blockOrder == old(blockOrder)
    {
      var id := PopTransaction();
      matches := WithoutTxids(matches, {id});
      pendingEvictions := pendingEvictions + [Eviction(TransactionSize, id, None)];
    }

    method TrimTransactionsInPlace()
      requires Valid()
      modifies this
      ensures Valid() && State() == TrimTransactions(config, old(State()))
      ensures blocks == old(blocks) && blockOrder == old(blockOrder)
    {
      DistinctSize(txOrder);
      ghost var before := State();
      hide MemoryStore.Valid, MemoryStore.State;
      while |tx| > config.maxTransactions
        invariant Valid() && |tx| == |txOrder|
        invariant |State().txs| == |tx|
        invariant TrimTransactions(config, State()) == TrimTransactions(config, before)
        invariant blocks == old(blocks) && blockOrder == old(blockOrder)
      {
        EvictTransaction();
      }
    }

    method EvictBlock()
      requires Valid() && blockOrder != []
      modifies this
      ensures Valid() && |blocks| == |old(blocks)| - 1 && |blockOrder| == |old(blockOrder)| - 1
      ensures var s := old(State());
              s.blocks != []
              && State() == s.(blocks := s.blocks[1..], pending := s.pending + [Eviction(BlockSize, s.blocks[0].hash, None)])
    {
      ListedTail(blockOrder, blocks);
      var id := blockOrder[0];
      blockOrder := blockOrder[1..];
      blocks := blocks - {id};
      pendingEvictions := pendingEvictions + [Eviction(BlockSize, id, None)];
    }

    method TrimBlocksInPlace()
      requires Valid()
      modifies this
      ensures Valid() && State() == TrimBlocks(config, old(State()))
    {
      DistinctSize(blockOrder);
      ghost var before := State();
      hide MemoryStore.Valid, MemoryStore.State;
      while |blocks| > config.maxBlocks
        invariant Valid() && |blocks| == |blockOrder| == |State().blocks|
        invariant TrimBlocks(config, State()) == TrimBlocks(config, before)
      {
        EvictBlock();
      }
    }

    method TrimMatchesInPlace()
      requires Valid()
      modifies this
      ensures Valid() && State() == TrimMatches(config, old(State()))
    {
      while |matches| > config.maxMatches
        invariant Valid()
        invariant TrimMatches(config, State()) == TrimMatches(config, old(State()))
      {
        var value := matches[0];
        matches := matches[1..];
        pendingEvictions := pendingEvictions + [Eviction(MatchSize, value.txid, Some(value.matcherId))];
      }
    }

    method InsertTransactionInPlace(value: Transaction) returns (isNew: bool)
      requires Valid()
      modifies this
      ensures Valid() && (State(), isNew) == InsertTransaction(config, old(State()), value)
    {
      assert value.txid in tx <==> value.txid in Txids(State().txs) by {
        assert forall i :: 0 <= i < |txOrder| ==> Txids(State().txs)[i] == txOrder[i];
      }
      if value.txid in tx { return false; }
      ghost var before := State();
      tx := tx[value.txid := value];
      txOrder := txOrder + [value.txid];
      assert Listed(txOrder, tx) == before.txs + [value];
      TrimTransactionsInPlace();
      return true;
    }

    method InsertBlockInPlace(value: Block) returns (isNew: bool)
      requires Valid()
      modifies this
      ensures Valid() && (State(), isNew) == InsertBlock(config, old(State()), value)
    {
      assert value.hash in blocks <==> value.hash in Hashes(State().blocks) by {
        assert forall i :: 0 <= i < |blockOrder| ==> Hashes(State().blocks)[i] == blockOrder[i];
      }
      if value.hash in blocks { return false; }
      ghost var before := State();
      blockOrder := blockOrder + [value.hash];
      blocks := blocks[value.hash := value];
      assert Listed(blockOrder, blocks) == before.blocks + [value];
      TrimBlocksInPlace();
      return true;
    }

    method InsertMatchInPlace(value: Match)
      requires Valid()
      modifies this
      ensures Valid() && State() == InsertMatch(config, old(State()), value)
    {
      matches := matches + [value];
      TrimMatchesInPlace();
    }

    lemma FrontTransaction()
      requires Valid()
      ensures |State().txs| == |txOrder|
      ensures txOrder != [] ==> txOrder[0] in tx && State().txs[0] == tx[txOrder[0]]
    {
    }

    method PurgeExpiredInPlace(now: uint64) returns (expired: seq<string>)
      requires Valid()
      modifies this
      ensures Valid() && (State(), expired) == PurgeExpired(config, old(State()), now)
    {
      if config.transactionTtlMs == 0 {
        WithoutNone(matches);
        assert State().txs[0..] == State().txs;
        return [];
      }
      expired := [];
      TxidsSnocNone(State().txs);
      hide Listed, Txids, WithoutTxids, MemoryStore.Valid, MemoryStore.State;
      ghost var before := State();
      FrontTransaction();
      ghost var n := ExpiredCount(config, now, before.txs);
      while txOrder != [] && Expired(config, now, tx[txOrder[0]])
        invariant Valid()
        invariant |expired| <= |before.txs| && expired == Txids(before.txs[..|expired|])
        invariant State() == before.(txs := before.txs[|expired|..])
        invariant n == |expired| + ExpiredCount(config, now, State().txs)
        invariant |State().txs| == |txOrder| && (txOrder != [] ==> State().txs[0] == tx[txOrder[0]])
        decreases |txOrder|
      {
        FrontTransaction();
        var id := PopTransaction();
        TxidsSnoc(before.txs, |expired|);
        expired := expired + [id];
        FrontTransaction();
      }
      ForgetMatches(ToSet(expired));
    }

    method ForgetMatches(ids: set<string>)
      requires Valid()
      modifies this`matches
      ensures Valid() && State() == old(State()).(matches := WithoutTxids(old(State()).matches, ids))
    {
      matches := WithoutTxids(matches, ids);
    }

    method RetainBlocks(removed: set<string>)
      requires Valid()
      modifies this`blocks, this`blockOrder
      ensures Valid() && State() == old(State()).(blocks := KeepBlocks(old(State()).blocks, removed))
    {
      hide Listed, KeepBlocks, KeepIds;
      ghost var oldBlocks, oldBlockOrder := blocks, blockOrder;
      KeepListedBlocks(blockOrder, blocks, removed);
      blocks := map hash | hash in blocks && hash !in removed :: blocks[hash];
      blockOrder := KeepIds(blockOrder, removed);
      KeepMatched(oldBlockOrder, oldBlocks, removed, blocks);
    }

    method RetainTransactions(removed: set<string>) returns (removedTxids: set<string>)
      requires Valid()
      modifies this`tx, this`txOrder
      ensures Valid() && State() == old(State()).(txs := KeepTransactions(old(State()).txs, removed))
      ensures removedTxids == OrphanIds(old(State()).txs, removed)
    {
      hide Listed, KeepTransactions, KeepIds, InBlocks, OrphanIds;
      ghost var oldTx, oldTxOrder := tx, txOrder;
      removedTxids := set id | id in tx && InBlocks(tx[id], removed);
      OrphansListed(txOrder, tx, removed, removedTxids);
      KeepListedTransactions(txOrder, tx, removed, removedTxids);
      tx := map id | id in tx && id !in removedTxids :: tx[id];
      txOrder := KeepIds(txOrder, removedTxids);
      KeepMatched(oldTxOrder, oldTx, removedTxids, tx);
    }

    ghost predicate Counted()
      requires Valid()
      reads this
    {
      |tx| == |State().txs| && |blocks| == |State().blocks|
    }

    lemma Counts()
      requires Valid()
      ensures Counted()
    {
      DistinctSize(txOrder);
      DistinctSize(blockOrder);
    }

    method RemoveChainBlocksInPlace(removed: set<string>) returns (counts: (int, int, int))
      requires Valid()
      modifies this
      ensures Valid() && State() == RemoveChainBlocks(old(State()), removed)
      ensures counts == (|old(State()).blocks| - |State().blocks|, |old(State()).txs| - |State().txs|,
                         |old(matches)| - |matches|)
    {
      if removed == {} { return (0, 0, 0); }
      hide Listed, KeepBlocks, KeepTransactions;
      Counts();
      var beforeBlocks, beforeTransactions, beforeMatches := |blocks|, |tx|, |matches|;
      RetainBlocks(removed);
      var removedTxids := RetainTransactions(removed);
      matches := WithoutTxids(matches, removedTxids);
      Counts();
      counts := (beforeBlocks - |blocks|, beforeTransactions - |tx|, beforeMatches - |matches|);
    }

    method TakeEvictions() returns (evictions: seq<Eviction>)
      requires Valid()
      modifies this
      ensures Valid() && evictions == old(pendingEvictions) && State() == old(State()).(pending := [])
    {
      evictions := pendingEvictions;
      pendingEvictions := [];
    }

    method ClearInPlace()
      modifies this
      ensures Valid() && State() == EMPTY_STORE
    {
      tx, txOrder, blocks, blockOrder := map[], [], map[], [];
      matches, pendingEvictions := [], [];
    }

    /** The stored transactions in the order of their queue. */
    method Transactions() returns (txs: seq<Transaction>)
      requires Valid()
      ensures txs == State().txs
    {
      txs := seq(|txOrder|, i requires 0 <= i < |txOrder| && txOrder[i] in tx reads this => tx[txOrder[i]]);
    }

    method TakeSnapshotNow() returns (snapshot: Snapshot)
      requires Valid()
      ensures snapshot == TakeSnapshot(State())
    {
      var txs := Transactions();
      var list := seq(|blockOrder|, i requires 0 <= i < |blockOrder| && blockOrder[i] in blocks reads this => blocks[blockOrder[i]]);
      snapshot := Snapshot(txs, list, matches);
    }
  }

  lemma {:induction false} WithoutNone(matches: seq<Match>)
    ensures WithoutTxids(matches, ToSet(Txids([]))) == matches
  {
    if matches != [] { WithoutNone(matches[1..]); }
  }

  /** A new store filled from a snapshot. */
  method RestoreStore(config: Config, snapshot: Snapshot) returns (store: MemoryStore)
    ensures fresh(store) && store.Valid() && store.config == config && store.State() == Restore(config, snapshot)
  {
    store := new MemoryStore(config);
    for i := 0 to |snapshot.transactions|
      invariant fresh(store) && store.Valid() && store.config == config
      invariant InsertTransactions(config, EMPTY_STORE, snapshot.transactions)
                == InsertTransactions(config, store.State(), snapshot.transactions[i..])
    {
      assert snapshot.transactions[i..][1..] == snapshot.transactions[i + 1..];
      var _ := store.InsertTransactionInPlace(snapshot.transactions[i]);
    }
    ghost var withTxs := store.State();
    for i := 0 to |snapshot.blocks|
      invariant fresh(store) && store.Valid() && store.config == config
      invariant InsertBlocks(config, withTxs, snapshot.blocks) == InsertBlocks(config, store.State(), snapshot.blocks[i..])
    {
      assert snapshot.blocks[i..][1..] == snapshot.blocks[i + 1..];
      var _ := store.InsertBlockInPlace(snapshot.blocks[i]);
    }
    ghost var withBlocks := store.State();
    for i := 0 to |snapshot.matches|
      invariant fresh(store) && store.Valid() && store.config == config
      invariant InsertMatches(config, withBlocks, snapshot.matches) == InsertMatches(config, store.State(), snapshot.matches[i..])
    {
      assert snapshot.matches[i..][1..] == snapshot.matches[i + 1..];
      store.InsertMatchInPlace(snapshot.matches[i]);
    }
    var _ := store.TakeEvictions();
  }
}
