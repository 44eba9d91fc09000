/** The invariant of the indexer, which its operations keep. */
module IndexerInvariant {
  import opened Common
  import opened IndexerTypes
  import opened IndexerDedupe
  import opened IndexerStore
  import opened IndexerEngine

  ghost predicate AdmittedStore(c: Config, s: Store) {
    (forall t :: t in s.txs ==> c.Admits(t)) && (forall b :: b in s.blocks ==> !Blank(b.hash))
  }

  /** Matchers are stored under their own ids, which are above 0 and below the
      next one to be given out. */
  ghost predicate MatchersInOrder(matchers: map<uint64, Matcher>, next: uint64) {
    && 1 <= next && |matchers| <= MAX_MATCHERS
    && forall id :: id in matchers ==> matchers[id].id == id && 1 <= id < next && matchers[id].rule.Valid()
  }

  /** All but the size evictions, which an operation reports at its end. */
  ghost predicate Sound(e: Engine) {
    && e.config.Valid() && Consistent(e.config, e.store) && AdmittedStore(e.config, e.store)
    && e.checkpoint.Valid() && MatchersInOrder(e.matchers, e.nextMatcherId)
    && Distinct(e.recent) && |e.recent| <= e.config.dedupeWindow
  }

  /** The state between operations. */
  ghost predicate Inv(e: Engine) {
    Sound(e) && e.store.pending == []
  }

  lemma NewEngineIsSound(config: Config)
    requires config.Valid()
    ensures Inv(NewEngine(config))
  {
  }

  // ----- Operations -----

  lemma AddMatcherKeeps(e: Engine, rule: MatchRule)
    requires Inv(e)
    ensures Inv(AddMatcher(e, rule).0) && AddMatcher(e, rule).0.config == e.config
    ensures var (next, r) := AddMatcher(e, rule);
            r.Ok? ==> r.value !in e.matchers && next.matchers == e.matchers[r.value := Matcher(r.value, rule)]
  {
  }

  lemma RemoveMatcherKeeps(e: Engine, id: uint64)
    requires Inv(e)
    ensures Inv(RemoveMatcher(e, id).0) && RemoveMatcher(e, id).0.config == e.config
  {
    assert (e.matchers - {id}).Keys <= e.matchers.Keys;
    SmallerKeys((e.matchers - {id}).Keys, e.matchers.Keys);
  }

  lemma SmallerKeys(a: set<uint64>, b: set<uint64>)
    requires a <= b
    ensures |a| <= |b|
  {
    assert b == a + (b - a);
  }

  lemma ObserveKeeps(window: seq<string>, capacity: nat, key: string)
    requires Distinct(window) && |window| <= capacity
    ensures var (next, _) := Observe(window, capacity, key); Distinct(next) && |next| <= capacity
  {
  }

  lemma PurgeSound(e: Engine, now: uint64)
    requires Sound(e)
    ensures Sound(Purge(e, now)) && Purge(e, now).store.pending == e.store.pending
  {
    PurgeKeeps(e.config, e.store, now);
  }

  lemma RetainSound(e: Engine, tx: Transaction, isMatch: bool)
    requires Sound(e) && e.config.Admits(tx)
    ensures var r := Retain(e, tx, isMatch);
            && Sound(r) && r.config == e.config && r.recent == e.recent
            && (e.config.mode.RetainsTransaction(isMatch) ==> tx.txid in Txids(r.store.txs))
  {
    InsertTransactionKeeps(e.config, e.store, tx);
    var (store, isNew) := InsertTransaction(e.config, e.store, tx);
    assert forall t :: t in LastN(e.store.txs + [tx], e.config.maxTransactions) ==> t in e.store.txs || t == tx;
  }

  lemma {:induction false} PublishSound(e: Engine, matches: seq<Match>)
    requires Sound(e)
    requires e.config.mode.RetainsMatches() ==> forall i :: 0 <= i < |matches| ==> NamesStored(matches[i], e.store.txs)
    ensures Sound(Publish(e, matches)) && Publish(e, matches).store.txs == e.store.txs
    ensures Publish(e, matches).recent == e.recent && Publish(e, matches).config == e.config
    decreases matches
  {
    hide Consistent, NamesStored, InsertMatch;
    if matches != [] {
      if e.config.mode.RetainsMatches() { InsertMatchKeeps(e.config, e.store, matches[0]); }
      PublishSound(PublishOne(e, matches[0]), matches[1..]);
    }
  }

  lemma TxidNamed(txs: seq<Transaction>, m: Match)
    requires m.txid in Txids(txs)
    ensures NamesStored(m, txs)
  {
    var i :| 0 <= i < |Txids(txs)| && Txids(txs)[i] == m.txid;
    assert txs[i].txid == m.txid;
  }

  /** A match is stored only with its transaction, in every mode. */
  lemma IngestTransactionKeeps(e: Engine, tx: Transaction, order: seq<Matcher>)
    requires Inv(e)
    ensures Inv(IngestTransaction(e, tx, order).0) && IngestTransaction(e, tx, order).0.config == e.config
  {
    hide Consistent, NamesStored, PurgeExpired, InsertTransaction, Observe, Distinct;
    if e.config.Admits(tx) {
      var purged := Purge(e, tx.observedAtMs);
      PurgeSound(e, tx.observedAtMs);
      ObserveKeeps(purged.recent, e.config.dedupeWindow, tx.txid);
      var (recent, isNew) := Observe(purged.recent, e.config.dedupeWindow, tx.txid);
      if isNew {
        var seen, matches := purged.(recent := recent), Scan(tx, order);
        var kept := Retain(seen, tx, matches != []);
        RetainSound(seen, tx, matches != []);
        if matches != [] && e.config.mode.RetainsMatches() {
          forall i | 0 <= i < |matches| ensures NamesStored(matches[i], kept.store.txs) {
            TxidNamed(kept.store.txs, matches[i]);
          }
        }
        PublishSound(kept, matches);
        ReportSound(Publish(kept, matches));
      }
    }
  }

  lemma ReportSound(e: Engine)
    requires Sound(e)
    ensures Inv(ReportEvictions(e))
  {
  }

  lemma StoreBlockSound(e: Engine, block: Block)
    requires Sound(e) && !Blank(block.hash)
    ensures Sound(e.(store := InsertBlock(e.config, e.store, block).0))
  {
    hide InsertBlock, Consistent, Distinct;
    InsertBlockKeeps(e.config, e.store, block);
    assert forall b :: b in LastN(e.store.blocks + [block], e.config.maxBlocks) ==> b in e.store.blocks || b == block;
  }

  lemma IngestBlockKeeps(e: Engine, block: Block)
    requires Inv(e)
    ensures Inv(IngestBlock(e, block).0) && IngestBlock(e, block).0.config == e.config
  {
    hide Purge, InsertBlock, Consistent, AdmittedStore, MatchersInOrder, Distinct;
    if !Blank(block.hash) {
      var purged := Purge(e, block.observedAtMs);
      PurgeSound(e, block.observedAtMs);
      StoreBlockSound(purged, block);
      PurgeKeepsConfig(e, block.observedAtMs);
      var stored := if e.config.mode.RetainsBlocks()
                    then purged.(store := InsertBlock(e.config, purged.store, block).0) else purged;
      ReportSound(stored.(events := stored.events + [BlockSeen(block.hash)]));
    }
  }

  lemma PurgeKeepsConfig(e: Engine, now: uint64)
    ensures Purge(e, now).config == e.config
  {
  }

  lemma PurgeKeepsInv(e: Engine, now: uint64)
    requires Inv(e)
    ensures Inv(Purge(e, now)) && Purge(e, now).config == e.config
  {
    hide Purge, Consistent;
    PurgeSound(e, now);
    PurgeKeepsConfig(e, now);
  }

  lemma {:induction false} IngestTransactionsKeep(e: Engine, txs: seq<Transaction>, order: seq<Matcher>)
    requires Inv(e)
    ensures Inv(IngestTransactions(e, txs, order).0) && IngestTransactions(e, txs, order).0.config == e.config
    decreases txs
  {
    hide Inv, IngestTransaction;
    if txs != [] {
      IngestTransactionKeeps(e, txs[0], order);
      IngestTransactionsKeep(IngestTransaction(e, txs[0], order).0, txs[1..], order);
    }
  }

  lemma {:induction false} IngestBatchesKeep(e: Engine, batches: seq<Batch>, order: seq<Matcher>)
    requires Inv(e)
    ensures Inv(IngestBatches(e, batches, order).0) && IngestBatches(e, batches, order).0.config == e.config
    decreases batches
  {
    hide Inv, IngestBlock, IngestTransactions;
    if batches != [] {
      IngestBlockKeeps(e, batches[0].block);
      IngestTransactionsKeep(IngestBlock(e, batches[0].block).0, batches[0].transactions, order);
      IngestBatchesKeep(IngestBatch(e, batches[0], order).0, batches[1..], order);
    }
  }

  lemma SetCheckpointKeeps(e: Engine, checkpoint: Checkpoint)
    requires Inv(e)
    ensures Inv(SetCheckpoint(e, checkpoint).0) && SetCheckpoint(e, checkpoint).0.config == e.config
  {
  }

  lemma {:induction false} ObserveAllKeeps(window: seq<string>, capacity: nat, keys: seq<string>)
    requires Distinct(window) && |window| <= capacity
    ensures Distinct(ObserveAll(window, capacity, keys)) && |ObserveAll(window, capacity, keys)| <= capacity
    decreases keys
  {
    if keys != [] {
      ObserveKeeps(window, capacity, keys[0]);
      ObserveAllKeeps(Observe(window, capacity, keys[0]).0, capacity, keys[1..]);
    }
  }

  lemma RemoveOrphansKeeps(e: Engine, removed: set<string>)
    requires Inv(e)
    ensures Inv(RemoveOrphans(e, removed)) && RemoveOrphans(e, removed).config == e.config
  {
    RemoveChainBlocksKeeps(e.config, e.store, removed);
    ObserveAllKeeps([], e.config.dedupeWindow, Txids(RemoveChainBlocks(e.store, removed).txs));
  }

  lemma ApplySyncKeeps(e: Engine, batches: seq<Batch>, checkpoint: Checkpoint, order: seq<Matcher>)
    requires Inv(e)
    ensures Inv(ApplySyncBatches(e, batches, checkpoint, order).0) && ApplySyncBatches(e, batches, checkpoint, order).0.config == e.config
  {
    hide Inv, IngestBatches, SetCheckpoint;
    IngestBatchesKeep(e, batches, order);
    SetCheckpointKeeps(IngestBatches(e, batches, order).0, checkpoint);
  }

  lemma AppendEventKeeps(e: Engine, event: Event)
    requires Inv(e)
    ensures Inv(e.(events := e.events + [event]))
  {
  }

  lemma ReconcileKeeps(e: Engine, d: Delta, order: seq<Matcher>)
    requires Inv(e)
    ensures Inv(Reconcile(e, d, order).0) && Reconcile(e, d, order).0.config == e.config
  {
    hide Inv, IngestBatches, SetCheckpoint, RemoveOrphans;
    var pruned := RemoveOrphans(e, ToSet(d.removedBlockHashes));
    RemoveOrphansKeeps(e, ToSet(d.removedBlockHashes));
    IngestBatchesKeep(pruned, d.accepted, order);
    var (next, done) := IngestBatches(pruned, d.accepted, order);
    if done.Ok? {
      SetCheckpointKeeps(next, d.checkpoint);
      AppendEventKeeps(SetCheckpoint(next, d.checkpoint).0,
                       Reconciled(Grown(|pruned.store.blocks|, |e.store.blocks|), done.value.blocks));
    }
  }

  // ----- Persisting and restoring -----

  /** `list` holds the matchers with an id below `n`, by ascending id. */
  ghost predicate ListsBelow(list: seq<Matcher>, matchers: map<uint64, Matcher>, n: uint64) {
    && (forall i :: 0 <= i < |list| ==> list[i].id < n && list[i].id in matchers && matchers[list[i].id] == list[i])
    && (forall id :: id in matchers && id < n ==> matchers[id] in list)
    && (forall i, j :: 0 <= i < j < |list| ==> list[i].id < list[j].id)
  }

  lemma ListsOneMore(list: seq<Matcher>, matchers: map<uint64, Matcher>, n: uint64)
    requires n < MAX_UINT64 && ListsBelow(list, matchers, n)
    requires forall id :: id in matchers ==> matchers[id].id == id
    ensures ListsBelow(list + if n in matchers then [matchers[n]] else [], matchers, n + 1)
  {
    if n !in matchers { assert list + [] == list; }
  }

  lemma {:induction false} MatchersBelowMeans(matchers: map<uint64, Matcher>, n: uint64)
    requires forall id :: id in matchers ==> matchers[id].id == id
    ensures ListsBelow(MatchersBelow(matchers, n), matchers, n)
  {
    hide ListsBelow;
    if n > 0 {
      MatchersBelowMeans(matchers, n - 1);
      ListsOneMore(MatchersBelow(matchers, n - 1), matchers, n - 1);
    } else {
      ListsNone(matchers);
    }
  }

  lemma ListsNone(matchers: map<uint64, Matcher>)
    ensures ListsBelow([], matchers, 0)
  {
  }

  lemma {:induction false} ByIdMeans(list: seq<Matcher>, matchers: map<uint64, Matcher>)
    requires forall i, j :: 0 <= i < j < |list| ==> list[i].id != list[j].id
    ensures forall i :: 0 <= i < |list| ==> list[i].id in ById(list) && ById(list)[list[i].id] == list[i]
    ensures forall id :: id in ById(list) ==> exists i :: 0 <= i < |list| && list[i].id == id
    ensures |ById(list)| == |list|
  {
    if list != [] {
      var init, last := list[..|list| - 1], list[|list| - 1];
      ByIdMeans(init, matchers);
      assert forall i :: 0 <= i < |init| ==> init[i] == list[i] && list[i].id != last.id;
      assert last.id !in ById(init);
      assert ById(list).Keys == ById(init).Keys + {last.id};
    }
  }

  /** The sorted list of matchers holds each once and rebuilds the map. */
  lemma SortedMatchersRestore(matchers: map<uint64, Matcher>, next: uint64)
    requires MatchersInOrder(matchers, next)
    ensures var list := SortedMatchers(matchers);
            ValidMatchers(list) && ById(list) == matchers && LargestId(list) < next
  {
    hide ById, LargestId;
    var list := SortedMatchers(matchers);
    SortedLists(matchers, next);
    ByIdMeans(list, matchers);
    SameMatchers(list, ById(list), matchers);
    hide SortedMatchers;
    SmallerKeys(ById(list).Keys, matchers.Keys);
  }

  lemma SortedLists(matchers: map<uint64, Matcher>, next: uint64)
    requires MatchersInOrder(matchers, next)
    ensures ListsBelow(SortedMatchers(matchers), matchers, MAX_UINT64)
  {
    hide MatchersBelow, ListsBelow;
    MatchersBelowMeans(matchers, MAX_UINT64);
    assert MatchersBelow(matchers, MAX_UINT64) + [] == MatchersBelow(matchers, MAX_UINT64);
  }

  lemma SameMatchers(list: seq<Matcher>, rebuilt: map<uint64, Matcher>, matchers: map<uint64, Matcher>)
    requires forall i :: 0 <= i < |list| ==> list[i].id in rebuilt && rebuilt[list[i].id] == list[i]
    requires forall id :: id in rebuilt ==> exists i :: 0 <= i < |list| && list[i].id == id
    requires forall i :: 0 <= i < |list| ==> list[i].id in matchers && matchers[list[i].id] == list[i]
    requires forall id :: id in matchers ==> matchers[id] in list && matchers[id].id == id
    ensures rebuilt == matchers
  {
    forall id | id in matchers ensures id in rebuilt && rebuilt[id] == matchers[id] {
      var i :| 0 <= i < |list| && list[i] == matchers[id];
    }
  }

  /** The rebuilt window is the last ids of the stored transactions. */
  lemma WindowOfStored(c: Config, s: Store)
    requires Consistent(c, s)
    ensures ObserveAll([], c.dedupeWindow, Txids(s.txs)) == LastN(Txids(s.txs), c.dedupeWindow)
  {
    var ids := Txids(s.txs);
    assert Distinct(ids);
    var none: seq<string> := [];
    assert none + ids == ids && LastN(none, c.dedupeWindow) == none;
    DistinctAllAccepted([], c.dedupeWindow, ids);
    WindowIsLastAccepted([], c.dedupeWindow, ids);
  }
}
