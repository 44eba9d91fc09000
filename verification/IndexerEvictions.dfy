/** Which records the limits push out of the store, and that each is reported. */
module IndexerEvictions {
  import opened Common
  import opened IndexerTypes
  import opened IndexerDedupe
  import opened IndexerStore

  function SizeEvictions(kind: EvictionKind, ids: seq<string>): (evictions: seq<Eviction>)
    ensures |evictions| == |ids| && forall i :: 0 <= i < |ids| ==> evictions[i] == Eviction(kind, ids[i], None)
  {
    seq(|ids|, i requires 0 <= i < |ids| => Eviction(kind, ids[i], None))
  }

  function MatchEvictions(matches: seq<Match>): (evictions: seq<Eviction>)
    ensures |evictions| == |matches|
    ensures forall i :: 0 <= i < |matches| ==> evictions[i] == Eviction(MatchSize, matches[i].txid, Some(matches[i].matcherId))
  {
    seq(|matches|, i requires 0 <= i < |matches| => Eviction(MatchSize, matches[i].txid, Some(matches[i].matcherId)))
  }

  /** What is beyond the limit: the oldest records. */
  function Surplus<T>(records: seq<T>, limit: nat): seq<T> {
    if |records| <= limit then [] else records[..|records| - limit]
  }

  lemma SurplusFirst<T>(records: seq<T>, limit: nat)
    ensures |records| > limit ==> Surplus(records, limit) == [records[0]] + Surplus(records[1..], limit)
    ensures |records| <= limit ==> Surplus(records, limit) == []
    ensures Surplus(records, limit) + LastN(records, limit) == records
  {
    if |records| > limit { assert records[..|records| - limit] == [records[0]] + records[1..][..|records| - 1 - limit]; }
  }

  /** Trimming drops the oldest transactions beyond the limit, and of the matches
      exactly theirs, and reports each transaction in order. */
  lemma {:induction false} TrimmedTransactions(c: Config, s: Store)
    ensures var t, dropped := TrimTransactions(c, s), Txids(Surplus(s.txs, c.maxTransactions));
            && t.txs == LastN(s.txs, c.maxTransactions) && t.blocks == s.blocks
            && t.pending == s.pending + SizeEvictions(TransactionSize, dropped)
            && forall m :: m in t.matches <==> m in s.matches && m.txid !in dropped
    decreases |s.txs|
  {
    hide LastN, Surplus, WithoutTxids;
    SurplusFirst(s.txs, c.maxTransactions);
    LastNTail(s.txs, c.maxTransactions);
    if |s.txs| <= c.maxTransactions {
      assert s.pending + SizeEvictions(TransactionSize, []) == s.pending;
    } else {
      var first := s.txs[0];
      var next := DropOldest(s);
      TrimmedTransactions(c, next);
      var rest := Txids(Surplus(s.txs[1..], c.maxTransactions));
      var dropped := Txids(Surplus(s.txs, c.maxTransactions));
      assert dropped == [first.txid] + rest;
      assert SizeEvictions(TransactionSize, dropped)
          == [Eviction(TransactionSize, first.txid, None)] + SizeEvictions(TransactionSize, rest);
    }
  }

  /** Likewise for blocks, which no match names. */
  lemma {:induction false} TrimmedBlocks(c: Config, s: Store)
    ensures var t := TrimBlocks(c, s);
            && t.blocks == LastN(s.blocks, c.maxBlocks) && t.txs == s.txs && t.matches == s.matches
            && t.pending == s.pending + SizeEvictions(BlockSize, Hashes(Surplus(s.blocks, c.maxBlocks)))
    decreases |s.blocks|
  {
    hide LastN, Surplus;
    SurplusFirst(s.blocks, c.maxBlocks);
    LastNTail(s.blocks, c.maxBlocks);
    if |s.blocks| <= c.maxBlocks {
      assert s.pending + SizeEvictions(BlockSize, []) == s.pending;
    } else {
      var eviction := Eviction(BlockSize, s.blocks[0].hash, None);
      TrimmedBlocks(c, s.(blocks := s.blocks[1..], pending := s.pending + [eviction]));
      var rest := Hashes(Surplus(s.blocks[1..], c.maxBlocks));
      assert Hashes(Surplus(s.blocks, c.maxBlocks)) == [s.blocks[0].hash] + rest;
      assert SizeEvictions(BlockSize, [s.blocks[0].hash] + rest) == [eviction] + SizeEvictions(BlockSize, rest);
    }
  }

  /** And for matches, reported with their matcher. */
  lemma {:induction false} TrimmedMatches(c: Config, s: Store)
    ensures var t := TrimMatches(c, s);
            && t.matches == LastN(s.matches, c.maxMatches) && t.txs == s.txs && t.blocks == s.blocks
            && t.pending == s.pending + MatchEvictions(Surplus(s.matches, c.maxMatches))
    decreases |s.matches|
  {
    hide LastN, Surplus;
    SurplusFirst(s.matches, c.maxMatches);
    LastNTail(s.matches, c.maxMatches);
    if |s.matches| <= c.maxMatches {
      assert s.pending + MatchEvictions([]) == s.pending;
    } else {
      var first := s.matches[0];
      var eviction := Eviction(MatchSize, first.txid, Some(first.matcherId));
      TrimmedMatches(c, s.(matches := s.matches[1..], pending := s.pending + [eviction]));
      var rest := Surplus(s.matches[1..], c.maxMatches);
      assert MatchEvictions([first] + rest) == [eviction] + MatchEvictions(rest);
    }
  }

  /** Orphan removal drops exactly the matches of the transactions it drops, and
      reports nothing as evicted. */
  lemma OrphanedMatches(s: Store, removed: set<string>)
    ensures var t := RemoveChainBlocks(s, removed);
            && t.pending == s.pending
            && forall m :: m in t.matches <==> m in s.matches && !exists tx :: tx in s.txs && InBlocks(tx, removed) && tx.txid == m.txid
  {
  }
}
