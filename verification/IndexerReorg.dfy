/** What a chain reorganisation does to the index: orphans leave completely, and
    one that comes back is indexed anew. */
module IndexerReorg {
  import opened Common
  import opened IndexerTypes
  import opened IndexerDedupe
  import opened IndexerStore
  import opened IndexerEngine
  import opened IndexerInvariant

  /** After orphan removal nothing stored belongs to a removed block, everything
      else is still there, and the dedupe window is the last ids stored. */
  lemma OrphansAreGone(e: Engine, removed: set<string>)
    requires Inv(e)
    ensures var r := RemoveOrphans(e, removed);
            && (forall b :: b in r.store.blocks <==> b in e.store.blocks && b.hash !in removed)
            && (forall t :: t in r.store.txs <==> t in e.store.txs && !InBlocks(t, removed))
            && (forall m :: m in r.store.matches ==> exists t :: t in r.store.txs && t.txid == m.txid)
            && r.recent == LastN(Txids(r.store.txs), e.config.dedupeWindow)
  {
    RemoveChainBlocksKeeps(e.config, e.store, removed);
    WindowOfStored(e.config, RemoveChainBlocks(e.store, removed));
  }

  /** Neither stored nor remembered. */
  ghost predicate Unknown(e: Engine, id: string) {
    id !in e.recent && forall t :: t in e.store.txs ==> t.txid != id
  }

  lemma OrphansAreUnknown(e: Engine, removed: set<string>, id: string)
    requires Inv(e) && id in OrphanIds(e.store.txs, removed)
    ensures Unknown(RemoveOrphans(e, removed), id)
  {
    OrphansAreGone(e, removed);
    var r := RemoveOrphans(e, removed);
    var orphan :| orphan in e.store.txs && InBlocks(orphan, removed) && orphan.txid == id;
    forall t | t in r.store.txs ensures t.txid != id {
      var i :| 0 <= i < |e.store.txs| && e.store.txs[i] == t;
      var j :| 0 <= j < |e.store.txs| && e.store.txs[j] == orphan;
    }
    assert forall i :: 0 <= i < |r.store.txs| ==> Txids(r.store.txs)[i] == r.store.txs[i].txid && r.store.txs[i] in r.store.txs;
  }

  // ----- Other records keep it unknown -----

  lemma PurgeKeepsUnknown(e: Engine, now: uint64, id: string)
    requires Unknown(e, id)
    ensures Unknown(Purge(e, now), id) && e.events <= Purge(e, now).events && Purge(e, now).config == e.config
  {
  }

  lemma {:induction false} TrimShrinks(c: Config, s: Store)
    ensures forall t :: t in TrimTransactions(c, s).txs ==> t in s.txs
    decreases |s.txs|
  {
    if |s.txs| > c.maxTransactions { TrimShrinks(c, DropOldest(s)); }
  }

  lemma {:induction false} PublishKeepsTransactions(e: Engine, matches: seq<Match>)
    ensures var p := Publish(e, matches);
            && p.store.txs == e.store.txs && p.recent == e.recent && p.config == e.config && e.events <= p.events
            && forall i :: 0 <= i < |matches| ==> MatchFound(matches[i].matcherId, matches[i].txid) in p.events[|e.events|..]
    decreases matches
  {
    if matches != [] {
      hide InsertMatch;
      var next := PublishOne(e, matches[0]);
      var p := Publish(e, matches);
      TrimMatchesKeeps(e.config, e.store.(matches := e.store.matches + [matches[0]]));
      assert InsertMatch(e.config, e.store, matches[0]).txs == e.store.txs by { InsertMatchKeepsTxs(e.config, e.store, matches[0]); }
      PublishKeepsTransactions(next, matches[1..]);
      assert p.events[|e.events|] == next.events[|e.events|] == MatchFound(matches[0].matcherId, matches[0].txid);
      forall i | 0 <= i < |matches| ensures MatchFound(matches[i].matcherId, matches[i].txid) in p.events[|e.events|..] {
        if i > 0 {
          assert matches[i] == matches[1..][i - 1];
          SuffixContains(p.events, |e.events|, |next.events|, MatchFound(matches[i].matcherId, matches[i].txid));
        } else {
          assert p.events[|e.events|..][0] == p.events[|e.events|];
        }
      }
    }
  }

  lemma InsertMatchKeepsTxs(c: Config, s: Store, m: Match)
    ensures InsertMatch(c, s, m).txs == s.txs
  {
    TrimMatchesKeeps(c, s.(matches := s.matches + [m]));
  }

  lemma SuffixContains<T>(s: seq<T>, m: nat, n: nat, x: T)
    requires m <= n <= |s| && x in s[n..]
    ensures x in s[m..]
  {
    var i :| 0 <= i < |s[n..]| && s[n..][i] == x;
    assert s[m..][n - m + i] == x;
  }

  /** Retaining `tx` reports it when it was unknown, and touches no other id. */
  lemma RetainReports(e: Engine, tx: Transaction, isMatch: bool, id: string)
    ensures var r := Retain(e, tx, isMatch);
            && r.recent == e.recent && r.config == e.config && e.events <= r.events
            && (Unknown(e, id) && tx.txid != id ==> Unknown(r, id))
            && (Unknown(e, tx.txid) && e.config.mode.RetainsTransaction(isMatch) ==>
                  r.events == e.events + [TransactionStored(tx.txid)])
  {
    TrimShrinks(e.config, e.store.(txs := e.store.txs + [tx]));
    assert Unknown(e, tx.txid) ==> tx.txid !in Txids(e.store.txs) by {
      assert forall i :: 0 <= i < |e.store.txs| ==> Txids(e.store.txs)[i] == e.store.txs[i].txid && e.store.txs[i] in e.store.txs;
    }
  }

  lemma OtherKeepsUnknown(e: Engine, tx: Transaction, order: seq<Matcher>, id: string)
    requires Unknown(e, id) && tx.txid != id
    ensures var next := IngestTransaction(e, tx, order).0;
            Unknown(next, id) && e.events <= next.events && next.config == e.config
  {
    hide InsertTransaction, PurgeExpired, Publish;
    if e.config.Admits(tx) {
      var purged := Purge(e, tx.observedAtMs);
      PurgeKeepsUnknown(e, tx.observedAtMs, id);
      var (recent, isNew) := Observe(purged.recent, e.config.dedupeWindow, tx.txid);
      var seen, matches := purged.(recent := recent), Scan(tx, order);
      RetainReports(seen, tx, matches != [], id);
      PublishKeepsTransactions(Retain(seen, tx, matches != []), matches);
    }
  }

  lemma BlockKeepsUnknown(e: Engine, block: Block, id: string)
    requires Unknown(e, id)
    ensures var next := IngestBlock(e, block).0;
            Unknown(next, id) && e.events <= next.events && next.config == e.config
  {
    PurgeKeepsUnknown(e, block.observedAtMs, id);
    var purged := Purge(e, block.observedAtMs);
    TrimBlocksKeeps(e.config, purged.store.(blocks := purged.store.blocks + [block]));
  }

  lemma OnlyAppends(e: Engine, tx: Transaction, order: seq<Matcher>)
    ensures e.events <= IngestTransaction(e, tx, order).0.events
    ensures IngestTransaction(e, tx, order).0.config == e.config
  {
    hide InsertTransaction, PurgeExpired, Publish, Observe;
    if e.config.Admits(tx) {
      var purged := Purge(e, tx.observedAtMs);
      var (recent, isNew) := Observe(purged.recent, e.config.dedupeWindow, tx.txid);
      var seen, matches := purged.(recent := recent), Scan(tx, order);
      assert e.events <= purged.events;
      RetainReports(seen, tx, matches != [], tx.txid);
      PublishKeepsTransactions(Retain(seen, tx, matches != []), matches);
    }
  }

  // ----- The unknown transaction itself -----

  /** The events that say `tx` was scanned with its matches, and stored where
      the mode retains it. */
  ghost predicate Indexed(c: Config, tx: Transaction, order: seq<Matcher>, events: seq<Event>) {
    var matches := Scan(tx, order);
    && (forall i :: 0 <= i < |matches| ==> MatchFound(matches[i].matcherId, tx.txid) in events)
    && (c.mode.RetainsTransaction(matches != []) ==> TransactionStored(tx.txid) in events)
  }

  lemma UnknownIsIndexed(e: Engine, tx: Transaction, order: seq<Matcher>)
    requires Unknown(e, tx.txid) && e.config.Admits(tx)
    ensures var (next, r) := IngestTransaction(e, tx, order);
            && r == Ok(Scan(tx, order)) && e.events <= next.events
            && Indexed(e.config, tx, order, next.events[|e.events|..])
  {
    hide InsertTransaction, PurgeExpired, Publish;
    var purged := Purge(e, tx.observedAtMs);
    PurgeKeepsUnknown(e, tx.observedAtMs, tx.txid);
    var (recent, isNew) := Observe(purged.recent, e.config.dedupeWindow, tx.txid);
    var seen, matches := purged.(recent := recent), Scan(tx, order);
    var kept := Retain(seen, tx, matches != []);
    assert Unknown(purged, tx.txid);
    RetainStores(seen, tx, matches != []);
    RetainReports(seen, tx, matches != [], tx.txid);
    PublishKeepsTransactions(kept, matches);
    var published := Publish(kept, matches);
    var next := IngestTransaction(e, tx, order).0;
    assert next.events == published.events + EvictionEvents(published.store.pending);
    forall i | 0 <= i < |matches| ensures MatchFound(matches[i].matcherId, tx.txid) in next.events[|e.events|..] {
      PrefixContains(published.events, next.events, |kept.events|, MatchFound(matches[i].matcherId, tx.txid));
      SuffixContains(next.events, |e.events|, |kept.events|, MatchFound(matches[i].matcherId, tx.txid));
    }
    if e.config.mode.RetainsTransaction(matches != []) {
      assert next.events[|purged.events|] == TransactionStored(tx.txid);
      assert next.events[|e.events|..][|purged.events| - |e.events|] == TransactionStored(tx.txid);
    }
  }

  /** An unknown transaction that the mode retains is in the store right after. */
  lemma UnknownIsStored(e: Engine, tx: Transaction, order: seq<Matcher>)
    requires Inv(e) && Unknown(e, tx.txid) && e.config.Admits(tx)
    ensures e.config.mode.RetainsTransaction(Scan(tx, order) != []) ==> tx in IngestTransaction(e, tx, order).0.store.txs
  {
    hide InsertTransaction, PurgeExpired, Publish, Consistent, Distinct;
    var purged := Purge(e, tx.observedAtMs);
    PurgeKeepsUnknown(e, tx.observedAtMs, tx.txid);
    PurgeSound(e, tx.observedAtMs);
    var (recent, isNew) := Observe(purged.recent, e.config.dedupeWindow, tx.txid);
    var seen, matches := purged.(recent := recent), Scan(tx, order);
    RetainStores(seen, tx, matches != []);
    InsertTransactionKeeps(seen.config, seen.store, tx);
    NotListed(seen.store.txs, tx.txid);
    assert tx.txid !in Txids(seen.store.txs);
    assert InsertTransaction(seen.config, seen.store, tx).1 by { NewInsert(seen.config, seen.store, tx); }
    PublishKeepsTransactions(Retain(seen, tx, matches != []), matches);
  }

  lemma NotListed(txs: seq<Transaction>, id: string)
    requires forall t :: t in txs ==> t.txid != id
    ensures id !in Txids(txs)
  {
    assert forall i :: 0 <= i < |txs| ==> Txids(txs)[i] == txs[i].txid && txs[i] in txs;
  }

  lemma NewInsert(c: Config, s: Store, tx: Transaction)
    requires tx.txid !in Txids(s.txs)
    ensures InsertTransaction(c, s, tx).1
  {
  }

  lemma PrefixContains<T>(a: seq<T>, b: seq<T>, n: nat, x: T)
    requires a <= b && n <= |a| && x in a[n..]
    ensures x in b[n..]
  {
    var i :| 0 <= i < |a[n..]| && a[n..][i] == x;
    assert b[n..][i] == x;
  }

  lemma RetainStores(e: Engine, tx: Transaction, isMatch: bool)
    requires forall t :: t in e.store.txs ==> t.txid != tx.txid
    ensures e.config.mode.RetainsTransaction(isMatch) ==>
              Retain(e, tx, isMatch).events == e.events + [TransactionStored(tx.txid)]
  {
    assert forall i :: 0 <= i < |e.store.txs| ==> Txids(e.store.txs)[i] == e.store.txs[i].txid && e.store.txs[i] in e.store.txs;
  }

  // ----- Lists of records -----

  lemma {:induction false} TransactionsIndex(e: Engine, txs: seq<Transaction>, order: seq<Matcher>, id: string, at: nat)
    requires Unknown(e, id) && at <= |txs| && forall i :: 0 <= i < at ==> txs[i].txid != id
    requires at < |txs| ==> txs[at].txid == id
    requires forall i :: 0 <= i < |txs| && i <= at ==> e.config.Admits(txs[i])
    ensures at == |txs| ==> IngestTransactions(e, txs, order).1.Ok?
    ensures var next := IngestTransactions(e, txs, order).0;
            && e.events <= next.events && next.config == e.config
            && (at < |txs| ==> Indexed(e.config, txs[at], order, next.events[|e.events|..]))
            && (at == |txs| ==> Unknown(next, id))
    decreases txs
  {
    hide IngestTransaction, Unknown, Indexed;
    if txs != [] {
      var first := IngestTransaction(e, txs[0], order).0;
      AdmittedIsOk(e, txs[0], order);
      if at == 0 {
        UnknownIsIndexed(e, txs[0], order);
        OnlyAppends(e, txs[0], order);
        TransactionsOnlyAppend(first, txs[1..], order);
        IndexedStays(e.config, txs[0], order, e.events, first.events, IngestTransactions(e, txs, order).0.events);
      } else {
        OtherKeepsUnknown(e, txs[0], order, id);
        OnlyAppends(e, txs[0], order);
        assert forall i :: 0 <= i < |txs| - 1 ==> txs[1..][i] == txs[i + 1];
        TransactionsIndex(first, txs[1..], order, id, at - 1);
        if at < |txs| { IndexedEarlier(e.config, txs[at], order, e.events, first.events, IngestTransactions(e, txs, order).0.events); }
      }
    }
  }

  lemma AdmittedIsOk(e: Engine, tx: Transaction, order: seq<Matcher>)
    ensures IngestTransaction(e, tx, order).1.Ok? <==> e.config.Admits(tx)
  {
  }

  lemma {:induction false} TransactionsOnlyAppend(e: Engine, txs: seq<Transaction>, order: seq<Matcher>)
    ensures e.events <= IngestTransactions(e, txs, order).0.events
    ensures IngestTransactions(e, txs, order).0.config == e.config
    decreases txs
  {
    hide IngestTransaction;
    if txs != [] {
      OnlyAppends(e, txs[0], order);
      TransactionsOnlyAppend(IngestTransaction(e, txs[0], order).0, txs[1..], order);
    }
  }

  lemma BlockOnlyAppends(e: Engine, block: Block)
    ensures e.events <= IngestBlock(e, block).0.events && IngestBlock(e, block).0.config == e.config
  {
  }

  lemma {:induction false} BatchesOnlyAppend(e: Engine, batches: seq<Batch>, order: seq<Matcher>)
    ensures e.events <= IngestBatches(e, batches, order).0.events
    decreases batches
  {
    hide IngestBlock, IngestTransactions;
    if batches != [] {
      BlockOnlyAppends(e, batches[0].block);
      TransactionsOnlyAppend(IngestBlock(e, batches[0].block).0, batches[0].transactions, order);
      BatchesOnlyAppend(IngestBatch(e, batches[0], order).0, batches[1..], order);
    }
  }

  lemma IndexedStays(c: Config, tx: Transaction, order: seq<Matcher>, e0: seq<Event>, e1: seq<Event>, e2: seq<Event>)
    requires e0 <= e1 <= e2 && Indexed(c, tx, order, e1[|e0|..])
    ensures Indexed(c, tx, order, e2[|e0|..])
  {
    assert e1[|e0|..] <= e2[|e0|..];
  }

  lemma IndexedEarlier(c: Config, tx: Transaction, order: seq<Matcher>, e0: seq<Event>, e1: seq<Event>, e2: seq<Event>)
    requires e0 <= e1 <= e2 && Indexed(c, tx, order, e2[|e1|..])
    ensures Indexed(c, tx, order, e2[|e0|..])
  {
    assert e2[|e0|..] == e2[|e0|..|e1|] + e2[|e1|..];
  }

  /** The transactions of a list of batches, in the order they are ingested. */
  function AllTransactions(batches: seq<Batch>): seq<Transaction> {
    if batches == [] then [] else batches[0].transactions + AllTransactions(batches[1..])
  }

  /** Nothing is refused up to and including transaction `at`. */
  predicate AcceptedUpTo(c: Config, batches: seq<Batch>, at: nat)
    decreases batches
  {
    batches != [] ==>
      var txs := batches[0].transactions;
      && !Blank(batches[0].block.hash)
      && (forall i :: 0 <= i < |txs| && i <= at ==> c.Admits(txs[i]))
      && (at >= |txs| ==> AcceptedUpTo(c, batches[1..], at - |txs|))
  }

  /** The transaction is in the first batch. */
  lemma FirstBatchIndexes(e: Engine, batches: seq<Batch>, order: seq<Matcher>, id: string, at: nat)
    requires batches != [] && AcceptedUpTo(e.config, batches, at) && Unknown(e, id)
    requires var txs := batches[0].transactions;
             at < |txs| && txs[at].txid == id && forall i :: 0 <= i < at ==> txs[i].txid != id
    ensures var next := IngestBatches(e, batches, order).0;
            e.events <= next.events && Indexed(e.config, batches[0].transactions[at], order, next.events[|e.events|..])
  {
    hide IngestBlock, IngestTransactions, Unknown, Indexed, Blank, Config.Admits, Grown;
    var batch := batches[0];
    var begun := IngestBlock(e, batch.block).0;
    var first := IngestBatch(e, batch, order).0;
    BlockKeepsUnknown(e, batch.block, id);
    NamedBlockIsOk(e, batch.block);
    TransactionsIndex(begun, batch.transactions, order, id, at);
    BatchesOnlyAppend(first, batches[1..], order);
    IndexedEarlier(e.config, batch.transactions[at], order, e.events, begun.events, first.events);
    IndexedStays(e.config, batch.transactions[at], order, e.events, first.events, IngestBatches(e, batches, order).0.events);
  }

  /** The first batch is accepted and does not hold the transaction. */
  lemma FirstBatchPasses(e: Engine, batches: seq<Batch>, order: seq<Matcher>, id: string, at: nat)
    requires batches != [] && AcceptedUpTo(e.config, batches, at) && Unknown(e, id)
    requires var txs := batches[0].transactions;
             |txs| <= at && forall i :: 0 <= i < |txs| ==> txs[i].txid != id
    ensures var first := IngestBatch(e, batches[0], order).0;
            && Unknown(first, id) && first.config == e.config && e.events <= first.events
            && IngestBatches(e, batches, order).0 == IngestBatches(first, batches[1..], order).0
  {
    hide IngestBlock, IngestTransactions, Unknown, Blank, Config.Admits, Grown;
    var batch := batches[0];
    BlockKeepsUnknown(e, batch.block, id);
    NamedBlockIsOk(e, batch.block);
    TransactionsIndex(IngestBlock(e, batch.block).0, batch.transactions, order, id, |batch.transactions|);
  }

  lemma {:induction false} BatchesIndex(e: Engine, batches: seq<Batch>, order: seq<Matcher>, id: string, at: nat)
    requires var txs := AllTransactions(batches);
             && at < |txs| && txs[at].txid == id && forall i :: 0 <= i < at ==> txs[i].txid != id
    requires Unknown(e, id) && AcceptedUpTo(e.config, batches, at)
    ensures var next := IngestBatches(e, batches, order).0;
            e.events <= next.events && Indexed(e.config, AllTransactions(batches)[at], order, next.events[|e.events|..])
    decreases batches
  {
    hide IngestBatch, IngestBatches, Unknown, Indexed, Blank, Config.Admits;
    var txs, here, rest := AllTransactions(batches), batches[0].transactions, AllTransactions(batches[1..]);
    var n := |here|;
    assert txs == here + rest;
    assert forall i :: 0 <= i < n ==> here[i] == txs[i];
    hide AllTransactions;
    if at < n {
      FirstBatchIndexes(e, batches, order, id, at);
    } else {
      var first := IngestBatch(e, batches[0], order).0;
      FirstBatchPasses(e, batches, order, id, at);
      assert forall i :: 0 <= i < |rest| ==> rest[i] == txs[i + n];
      BatchesIndex(first, batches[1..], order, id, at - n);
      IndexedEarlier(e.config, txs[at], order, e.events, first.events, IngestBatches(e, batches, order).0.events);
    }
  }

  lemma NamedBlockIsOk(e: Engine, block: Block)
    requires !Blank(block.hash)
    ensures IngestBlock(e, block).1.Ok?
  {
  }

  /** The first time an orphaned transaction reappears among the accepted
      batches it is scanned again against every matcher, and stored again where
      the mode retains it, whatever the dedupe window remembered before and
      whatever is refused after it. */
  lemma OrphanIsIndexedAgain(e: Engine, d: Delta, order: seq<Matcher>, at: nat)
    requires Inv(e) && ValidateDelta(d).Ok? && AcceptedUpTo(e.config, d.accepted, at)
    requires var txs := AllTransactions(d.accepted);
             && at < |txs| && txs[at].txid in OrphanIds(e.store.txs, ToSet(d.removedBlockHashes))
             && forall i :: 0 <= i < at ==> txs[i].txid != txs[at].txid
    ensures var next := Reconcile(e, d, order).0;
            e.events <= next.events && Indexed(e.config, AllTransactions(d.accepted)[at], order, next.events[|e.events|..])
  {
    hide RemoveOrphans, IngestBatches, Indexed, Unknown, Inv, OrphanIds, AcceptedUpTo, ValidateDelta;
    var removed, tx := ToSet(d.removedBlockHashes), AllTransactions(d.accepted)[at];
    var pruned := RemoveOrphans(e, removed);
    OrphansAreUnknown(e, removed, tx.txid);
    RemovalIsSilent(e, removed);
    BatchesIndex(pruned, d.accepted, order, tx.txid, at);
    BatchesOnlyAppend(pruned, d.accepted, order);
    IndexedStays(e.config, tx, order, e.events, IngestBatches(pruned, d.accepted, order).0.events, Reconcile(e, d, order).0.events);
  }

  lemma RemovalIsSilent(e: Engine, removed: set<string>)
    ensures RemoveOrphans(e, removed).events == e.events && RemoveOrphans(e, removed).config == e.config
  {
  }
}
