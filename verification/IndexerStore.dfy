/** The bounded in-memory store (src/indexer/storage/memory.rs).

    Its value is three lists of records in insertion order and the evictions
    not yet reported. The class keeps the maps and queues of the source. */
module IndexerStore {
  import opened Common
  import opened IndexerTypes
  import opened IndexerDedupe

  datatype EvictionKind = TransactionSize | BlockSize | MatchSize | TransactionTtl

  /** A record that left the store: its key, and for a match its matcher too. */
  datatype Eviction = Eviction(kind: EvictionKind, id: string, matcherId: Option<uint64>)

  datatype Store = Store(txs: seq<Transaction>, blocks: seq<Block>, matches: seq<Match>, pending: seq<Eviction>)

  const EMPTY_STORE := Store([], [], [], [])

  datatype Snapshot = Snapshot(transactions: seq<Transaction>, blocks: seq<Block>, matches: seq<Match>)

  function Txids(txs: seq<Transaction>): (ids: seq<string>)
    ensures |ids| == |txs|
  {
    seq(|txs|, i requires 0 <= i < |txs| => txs[i].txid)
  }

  function Hashes(blocks: seq<Block>): (hashes: seq<string>)
    ensures |hashes| == |blocks|
  {
    seq(|blocks|, i requires 0 <= i < |blocks| => blocks[i].hash)
  }

  /** The matches whose transaction is not among `ids`. */
  function WithoutTxids(matches: seq<Match>, ids: set<string>): (kept: seq<Match>)
    ensures forall m :: m in kept <==> m in matches && m.txid !in ids
    ensures |kept| <= |matches|
  {
    if matches == [] then []
    else (if matches[0].txid in ids then [] else [matches[0]]) + WithoutTxids(matches[1..], ids)
  }

  // ----- Size limits -----

  function TrimTransactions(c: Config, s: Store): Store
    decreases |s.txs|
  {
    if |s.txs| <= c.maxTransactions then s
    else
      var id := s.txs[0].txid;
      TrimTransactions(c, s.(txs := s.txs[1..],
                             matches := WithoutTxids(s.matches, {id}),
                             pending := s.pending + [Eviction(TransactionSize, id, None)]))
  }

  function TrimBlocks(c: Config, s: Store): Store
    decreases |s.blocks|
  {
    if |s.blocks| <= c.maxBlocks then s
    else TrimBlocks(c, s.(blocks := s.blocks[1..],
                          pending := s.pending + [Eviction(BlockSize, s.blocks[0].hash, None)]))
  }

  function TrimMatches(c: Config, s: Store): Store
    decreases |s.matches|
  {
    if |s.matches| <= c.maxMatches then s
    else TrimMatches(c, s.(matches := s.matches[1..],
                           pending := s.pending + [Eviction(MatchSize, s.matches[0].txid, Some(s.matches[0].matcherId))]))
  }

  // ----- Inserts -----

  function InsertTransaction(c: Config, s: Store, tx: Transaction): (Store, bool) {
    if tx.txid in Txids(s.txs) then (s, false) else (TrimTransactions(c, s.(txs := s.txs + [tx])), true)
  }

  function InsertBlock(c: Config, s: Store, block: Block): (Store, bool) {
    if block.hash in Hashes(s.blocks) then (s, false) else (TrimBlocks(c, s.(blocks := s.blocks + [block])), true)
  }

  function InsertMatch(c: Config, s: Store, m: Match): Store {
    TrimMatches(c, s.(matches := s.matches + [m]))
  }

  // ----- Removal -----

  /** `now.saturating_sub(observed) > ttl`. */
  predicate Expired(c: Config, now: uint64, tx: Transaction) {
    now - tx.observedAtMs > c.transactionTtlMs
  }

  /** How many transactions leave from the front; a zero lifetime keeps all. */
  function ExpiredCount(c: Config, now: uint64, txs: seq<Transaction>): (n: nat)
    ensures n <= |txs|
  {
    if c.transactionTtlMs == 0 || txs == [] || !Expired(c, now, txs[0]) then 0
    else 1 + ExpiredCount(c, now, txs[1..])
  }

  function ToSet(ids: seq<string>): set<string> {
    set id | id in ids
  }

  /** The store without its expired front, and the ids that left. */
  function PurgeExpired(c: Config, s: Store, now: uint64): (Store, seq<string>) {
    var n := ExpiredCount(c, now, s.txs);
    var ids := Txids(s.txs[..n]);
    (s.(txs := s.txs[n..], matches := WithoutTxids(s.matches, ToSet(ids))), ids)
  }

  predicate InBlocks(tx: Transaction, hashes: set<string>) {
    tx.blockHash.Some? && tx.blockHash.value in hashes
  }

  function KeepBlocks(blocks: seq<Block>, removed: set<string>): (kept: seq<Block>)
    ensures forall b :: b in kept <==> b in blocks && b.hash !in removed
    ensures |kept| <= |blocks|
  {
    if blocks == [] then []
    else (if blocks[0].hash in removed then [] else [blocks[0]]) + KeepBlocks(blocks[1..], removed)
  }

  function KeepTransactions(txs: seq<Transaction>, removed: set<string>): (kept: seq<Transaction>)
    ensures forall t :: t in kept <==> t in txs && !InBlocks(t, removed)
    ensures |kept| <= |txs|
  {
    if txs == [] then []
    else (if InBlocks(txs[0], removed) then [] else [txs[0]]) + KeepTransactions(txs[1..], removed)
  }

  /** The ids of the stored transactions in removed blocks. */
  function OrphanIds(txs: seq<Transaction>, removed: set<string>): set<string> {
    set t | t in txs && InBlocks(t, removed) :: t.txid
  }

  function RemoveChainBlocks(s: Store, removed: set<string>): Store {
    if removed == {} then s
    else s.(blocks := KeepBlocks(s.blocks, removed),
            txs := KeepTransactions(s.txs, removed),
            matches := WithoutTxids(s.matches, OrphanIds(s.txs, removed)))
  }

  // ----- Snapshot and restore -----

  function TakeSnapshot(s: Store): Snapshot {
    Snapshot(s.txs, s.blocks, s.matches)
  }

  function InsertTransactions(c: Config, s: Store, txs: seq<Transaction>): Store
    decreases txs
  {
    if txs == [] then s else InsertTransactions(c, InsertTransaction(c, s, txs[0]).0, txs[1..])
  }

  function InsertBlocks(c: Config, s: Store, blocks: seq<Block>): Store
    decreases blocks
  {
    if blocks == [] then s else InsertBlocks(c, InsertBlock(c, s, blocks[0]).0, blocks[1..])
  }

  function InsertMatches(c: Config, s: Store, matches: seq<Match>): Store
    decreases matches
  {
    if matches == [] then s else InsertMatches(c, InsertMatch(c, s, matches[0]), matches[1..])
  }

  function Restore(c: Config, snapshot: Snapshot): Store {
    var withTxs := InsertTransactions(c, EMPTY_STORE, snapshot.transactions);
    var withBlocks := InsertBlocks(c, withTxs, snapshot.blocks);
    InsertMatches(c, withBlocks, snapshot.matches).(pending := [])
  }

  // ----- The invariant -----

  predicate DistinctTxids(txs: seq<Transaction>) {
    forall i, j :: 0 <= i < j < |txs| ==> txs[i].txid != txs[j].txid
  }

  predicate DistinctHashes(blocks: seq<Block>) {
    forall i, j :: 0 <= i < j < |blocks| ==> blocks[i].hash != blocks[j].hash
  }

  predicate NamesStored(m: Match, txs: seq<Transaction>) {
    exists i :: 0 <= i < |txs| && txs[i].txid == m.txid
  }

  /** Keys are stored once, counts are within the limits and every match names a
      stored transaction. */
  ghost predicate Consistent(c: Config, s: Store) {
    && DistinctTxids(s.txs) && DistinctHashes(s.blocks)
    && |s.txs| <= c.maxTransactions && |s.blocks| <= c.maxBlocks && |s.matches| <= c.maxMatches
    && forall m :: m in s.matches ==> NamesStored(m, s.txs)
  }

  /** The store without its oldest transaction and that one's matches. */
  function DropOldest(s: Store): Store
    requires s.txs != []
  {
    var id := s.txs[0].txid;
    s.(txs := s.txs[1..], matches := WithoutTxids(s.matches, {id}),
       pending := s.pending + [Eviction(TransactionSize, id, None)])
  }

  lemma DropOldestKeeps(s: Store)
    requires s.txs != [] && DistinctTxids(s.txs) && forall m :: m in s.matches ==> NamesStored(m, s.txs)
    ensures var t := DropOldest(s);
            DistinctTxids(t.txs) && forall m :: m in t.matches ==> m in s.matches && NamesStored(m, t.txs)
  {
    var t := DropOldest(s);
    forall m | m in t.matches ensures NamesStored(m, t.txs) {
      var i :| 0 <= i < |s.txs| && s.txs[i].txid == m.txid;
      assert t.txs[i - 1].txid == m.txid;
    }
  }

  /** Trimming drops the oldest transactions and, with each, its matches. */
  lemma {:induction false} TrimTransactionsKeeps(c: Config, s: Store)
    requires DistinctTxids(s.txs) && forall m :: m in s.matches ==> NamesStored(m, s.txs)
    ensures var t := TrimTransactions(c, s);
            && t.txs == LastN(s.txs, c.maxTransactions) && t.blocks == s.blocks
            && DistinctTxids(t.txs) && (forall m :: m in t.matches ==> NamesStored(m, t.txs))
            && |t.matches| <= |s.matches|
    decreases |s.txs|
  {
    hide NamesStored, WithoutTxids;
    if |s.txs| > c.maxTransactions {
      DropOldestKeeps(s);
      TrimTransactionsKeeps(c, DropOldest(s));
    }
  }

  lemma LastNTail<T>(s: seq<T>, n: nat)
    ensures |s| > n ==> LastN(s[1..], n) == LastN(s, n)
    ensures |s| <= n ==> LastN(s, n) == s
  {
  }

  lemma {:induction false} TrimBlocksKeeps(c: Config, s: Store)
    ensures var t := TrimBlocks(c, s);
            t.blocks == LastN(s.blocks, c.maxBlocks) && t.txs == s.txs && t.matches == s.matches
    decreases |s.blocks|
  {
    hide LastN;
    LastNTail(s.blocks, c.maxBlocks);
    if |s.blocks| > c.maxBlocks {
      TrimBlocksKeeps(c, s.(blocks := s.blocks[1..], pending := s.pending + [Eviction(BlockSize, s.blocks[0].hash, None)]));
    }
  }

  lemma {:induction false} TrimMatchesKeeps(c: Config, s: Store)
    ensures var t := TrimMatches(c, s);
            t.matches == LastN(s.matches, c.maxMatches) && t.txs == s.txs && t.blocks == s.blocks
    decreases |s.matches|
  {
    hide LastN;
    LastNTail(s.matches, c.maxMatches);
    if |s.matches| > c.maxMatches {
      TrimMatchesKeeps(c, s.(matches := s.matches[1..],
                             pending := s.pending + [Eviction(MatchSize, s.matches[0].txid, Some(s.matches[0].matcherId))]));
    }
  }

  /** A stored transaction is there afterwards, however small the store. */
  lemma InsertTransactionKeeps(c: Config, s: Store, tx: Transaction)
    requires c.Valid() && Consistent(c, s)
    ensures var (t, isNew) := InsertTransaction(c, s, tx);
            && Consistent(c, t) && t.blocks == s.blocks
            && tx.txid in Txids(t.txs)
            && (isNew ==> t.txs == LastN(s.txs + [tx], c.maxTransactions) && t.txs[|t.txs| - 1] == tx)
            && (!isNew ==> t == s)
  {
    if tx.txid !in Txids(s.txs) {
      var grown := s.(txs := s.txs + [tx]);
      assert forall i :: 0 <= i < |s.txs| ==> Txids(s.txs)[i] == s.txs[i].txid;
      forall m | m in grown.matches ensures NamesStored(m, grown.txs) {
        var i :| 0 <= i < |s.txs| && s.txs[i].txid == m.txid;
        assert grown.txs[i].txid == m.txid;
      }
      TrimTransactionsKeeps(c, grown);
      var t := TrimTransactions(c, grown);
      assert Txids(t.txs)[|t.txs| - 1] == tx.txid;
    }
  }

  lemma InsertBlockKeeps(c: Config, s: Store, block: Block)
    requires c.Valid() && Consistent(c, s)
    ensures var (t, isNew) := InsertBlock(c, s, block);
            && Consistent(c, t) && t.txs == s.txs && t.matches == s.matches
            && (isNew ==> t.blocks == LastN(s.blocks + [block], c.maxBlocks))
            && (!isNew ==> t == s)
  {
    if block.hash !in Hashes(s.blocks) {
      var grown := s.(blocks := s.blocks + [block]);
      assert forall i :: 0 <= i < |s.blocks| ==> Hashes(s.blocks)[i] == s.blocks[i].hash;
      TrimBlocksKeeps(c, grown);
    }
  }

  lemma InsertMatchKeeps(c: Config, s: Store, m: Match)
    requires Consistent(c, s) && NamesStored(m, s.txs)
    ensures var t := InsertMatch(c, s, m);
            Consistent(c, t) && t.txs == s.txs && t.blocks == s.blocks && t.matches == LastN(s.matches + [m], c.maxMatches)
  {
    TrimMatchesKeeps(c, s.(matches := s.matches + [m]));
  }

  lemma PurgeKeeps(c: Config, s: Store, now: uint64)
    requires Consistent(c, s)
    ensures Consistent(c, PurgeExpired(c, s, now).0)
  {
    var (t, ids) := PurgeExpired(c, s, now);
    var n := ExpiredCount(c, now, s.txs);
    assert forall i :: 0 <= i < n ==> ids[i] == s.txs[i].txid;
    forall m | m in t.matches ensures NamesStored(m, t.txs) {
      var i :| 0 <= i < |s.txs| && s.txs[i].txid == m.txid;
      assert i >= n;
      assert t.txs[i - n].txid == m.txid;
    }
  }

  /** Keeping some of the records keeps their keys distinct. */
  lemma {:induction false} KeepTransactionsDistinct(txs: seq<Transaction>, removed: set<string>)
    requires DistinctTxids(txs)
    ensures DistinctTxids(KeepTransactions(txs, removed))
  {
    if txs != [] {
      var rest := KeepTransactions(txs[1..], removed);
      KeepTransactionsDistinct(txs[1..], removed);
      assert forall i :: 0 <= i < |rest| ==> rest[i] in txs[1..];
    }
  }

  lemma {:induction false} KeepBlocksDistinct(blocks: seq<Block>, removed: set<string>)
    requires DistinctHashes(blocks)
    ensures DistinctHashes(KeepBlocks(blocks, removed))
  {
    if blocks != [] {
      var rest := KeepBlocks(blocks[1..], removed);
      KeepBlocksDistinct(blocks[1..], removed);
      assert forall i :: 0 <= i < |rest| ==> rest[i] in blocks[1..];
    }
  }

  /** After orphan removal the store is consistent and holds exactly the records
      that do not belong to a removed block. */
  lemma RemoveChainBlocksKeeps(c: Config, s: Store, removed: set<string>)
    requires Consistent(c, s)
    ensures var t := RemoveChainBlocks(s, removed);
            && Consistent(c, t)
            && (forall b :: b in t.blocks <==> b in s.blocks && b.hash !in removed)
            && (forall tx :: tx in t.txs <==> tx in s.txs && !InBlocks(tx, removed))
            && (forall m :: m in t.matches ==> exists tx :: tx in t.txs && tx.txid == m.txid)
  {
    var t := RemoveChainBlocks(s, removed);
    if removed != {} {
      KeepTransactionsDistinct(s.txs, removed);
      KeepBlocksDistinct(s.blocks, removed);
      forall m | m in t.matches ensures NamesStored(m, t.txs) {
        var i :| 0 <= i < |s.txs| && s.txs[i].txid == m.txid;
        assert s.txs[i] in t.txs;
      }
    }
    forall m | m in t.matches ensures exists tx :: tx in t.txs && tx.txid == m.txid {
      var i :| 0 <= i < |t.txs| && t.txs[i].txid == m.txid;
      assert t.txs[i] in t.txs;
    }
  }

  // ----- Restoring a snapshot of a consistent store -----

  lemma {:induction false} InsertTransactionsRestores(c: Config, s: Store, txs: seq<Transaction>)
    requires DistinctTxids(s.txs + txs) && |s.txs| + |txs| <= c.maxTransactions
    ensures InsertTransactions(c, s, txs) == s.(txs := s.txs + txs)
    decreases txs
  {
    if txs == [] {
      assert s.txs + [] == s.txs;
    } else {
      var all := s.txs + txs;
      assert all[|s.txs|] == txs[0] && forall i :: 0 <= i < |s.txs| ==> Txids(s.txs)[i] == all[i].txid;
      assert (s.txs + [txs[0]]) + txs[1..] == all;
      InsertTransactionsRestores(c, s.(txs := s.txs + [txs[0]]), txs[1..]);
    }
  }

  lemma {:induction false} InsertBlocksRestores(c: Config, s: Store, blocks: seq<Block>)
    requires DistinctHashes(s.blocks + blocks) && |s.blocks| + |blocks| <= c.maxBlocks
    ensures InsertBlocks(c, s, blocks) == s.(blocks := s.blocks + blocks)
    decreases blocks
  {
    if blocks == [] {
      assert s.blocks + [] == s.blocks;
    } else {
      var all := s.blocks + blocks;
      assert all[|s.blocks|] == blocks[0] && forall i :: 0 <= i < |s.blocks| ==> Hashes(s.blocks)[i] == all[i].hash;
      assert (s.blocks + [blocks[0]]) + blocks[1..] == all;
      InsertBlocksRestores(c, s.(blocks := s.blocks + [blocks[0]]), blocks[1..]);
    }
  }

  lemma {:induction false} InsertMatchesRestores(c: Config, s: Store, matches: seq<Match>)
    requires |s.matches| + |matches| <= c.maxMatches
    ensures InsertMatches(c, s, matches) == s.(matches := s.matches + matches)
    decreases matches
  {
    if matches == [] {
      assert s.matches + [] == s.matches;
    } else {
      assert (s.matches + [matches[0]]) + matches[1..] == s.matches + matches;
      InsertMatchesRestores(c, s.(matches := s.matches + [matches[0]]), matches[1..]);
    }
  }

  /** Restoring a consistent store's snapshot gives back every record in order. */
  lemma RestoreSnapshot(c: Config, s: Store)
    requires Consistent(c, s)
    ensures Restore(c, TakeSnapshot(s)) == s.(pending := [])
  {
    assert [] + s.txs == s.txs && [] + s.blocks == s.blocks && [] + s.matches == s.matches;
    InsertTransactionsRestores(c, EMPTY_STORE, s.txs);
    InsertBlocksRestores(c, EMPTY_STORE.(txs := s.txs), s.blocks);
    InsertMatchesRestores(c, EMPTY_STORE.(txs := s.txs, blocks := s.blocks), s.matches);
  }
}
