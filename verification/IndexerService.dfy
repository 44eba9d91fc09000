/** The indexer engine as the source writes it: one object whose methods update
    its store, window, matchers, checkpoint and events in place. */
module IndexerService {
  import opened Common
  import opened IndexerTypes
  import opened IndexerDedupe
  import opened IndexerStore
  import opened IndexerEngine
  import M = IndexerMemory

  lemma UnfoldTransactions(e: Engine, txs: seq<Transaction>, i: nat, order: seq<Matcher>, n: nat)
    requires i < |txs|
    ensures var (next, first) := IngestTransaction(e, txs[i], order);
            Counting(n, IngestTransactions(e, txs[i..], order)) ==
            if first.Err? then (next, Err(first.error))
            else Counting(n + |first.value|, IngestTransactions(next, txs[i + 1..], order))
  {
    hide IngestTransaction;
    var rest := txs[i..];
    assert rest[0] == txs[i] && rest[1..] == txs[i + 1..];
    var first := IngestTransaction(e, rest[0], order);
    assert IngestTransactions(e, rest, order)
        == if first.1.Err? then (first.0, Err(first.1.error))
           else Counting(|first.1.value|, IngestTransactions(first.0, rest[1..], order));
  }

  lemma UnfoldBatches(e: Engine, batches: seq<Batch>, i: nat, order: seq<Matcher>, added: Added)
    requires i < |batches|
    ensures var (next, first) := IngestBatch(e, batches[i], order);
            Adding(added, IngestBatches(e, batches[i..], order)) ==
            if first.Err? then (next, Err(first.error))
            else Adding(Added(added.blocks + Grown(|e.store.blocks|, |next.store.blocks|),
                              added.transactions + Grown(|e.store.txs|, |next.store.txs|),
                              added.matches + first.value),
                        IngestBatches(next, batches[i + 1..], order))
  {
    hide IngestBatch;
    var rest := batches[i..];
    assert rest[0] == batches[i] && rest[1..] == batches[i + 1..];
    var first := IngestBatch(e, rest[0], order);
    assert IngestBatches(e, rest, order)
        == if first.1.Err? then (first.0, Err(first.1.error))
           else Adding(Added(Grown(|e.store.blocks|, |first.0.store.blocks|), Grown(|e.store.txs|, |first.0.store.txs|),
                             first.1.value), IngestBatches(first.0, rest[1..], order));
  }

  lemma NothingAdded(e: Engine, txs: seq<Transaction>, batches: seq<Batch>, order: seq<Matcher>)
    ensures Counting(0, IngestTransactions(e, txs, order)) == IngestTransactions(e, txs, order)
    ensures Adding(Added(0, 0, 0), IngestBatches(e, batches, order)) == IngestBatches(e, batches, order)
  {
  }

  lemma EndsHere(e: Engine, order: seq<Matcher>, n: nat, added: Added)
    ensures Counting(n, IngestTransactions(e, [], order)) == (e, Ok(n))
    ensures Adding(added, IngestBatches(e, [], order)) == (e, Ok(added))
  {
  }

  class Indexer {
    const config: Config
    const recent: RecentKeys
    var store: M.MemoryStore
    var matchers: map<uint64, Matcher>
    var nextMatcherId: uint64
    var checkpoint: Checkpoint
    var events: seq<Event>

    ghost predicate Valid()
      reads this, store, recent
    {
      store.Valid() && recent.Valid() && store.config == config && recent.capacity == config.dedupeWindow
    }

    ghost function State(): Engine
      requires Valid()
      reads this, store, recent
    {
      Engine(config, store.State(), recent.order, matchers, nextMatcherId, checkpoint, events)
    }

    constructor (config: Config)
      ensures Valid() && fresh(store) && fresh(recent) && State() == NewEngine(config)
    {
      this.config := config;
      store := new M.MemoryStore(config);
      recent := new RecentKeys(config.dedupeWindow);
      matchers, nextMatcherId := map[], 1;
      checkpoint, events := NO_CHECKPOINT, [];
    }

    method AddMatcherInPlace(rule: MatchRule) returns (r: Result<uint64, IndexerError>)
      requires Valid()
      modifies this`matchers, this`nextMatcherId
      ensures Valid() && (State(), r) == AddMatcher(old(State()), rule)
    {
      if !rule.Valid() { return Err(InvalidRule); }
      if |matchers| >= MAX_MATCHERS { return Err(MatcherLimit); }
      var id := nextMatcherId;
      if id == MAX_UINT64 { return Err(MatcherIdExhausted); }
      nextMatcherId := id + 1;
      matchers := matchers[id := Matcher(id, rule)];
      return Ok(id);
    }

    method RemoveMatcherInPlace(id: uint64) returns (removed: bool)
      requires Valid()
      modifies this`matchers
      ensures Valid() && (State(), removed) == RemoveMatcher(old(State()), id)
    {
      removed := id in matchers;
      matchers := matchers - {id};
    }

    method PurgeInPlace(now: uint64)
      requires Valid()
      modifies this`events, store
      ensures Valid() && State() == Purge(old(State()), now)
    {
      var expired := store.PurgeExpiredInPlace(now);
      ghost var before := events;
      for i := 0 to |expired|
        modifies this`events
        invariant events == before + TtlEvents(expired[..i])
      {
        assert TtlEvents(expired[..i + 1]) == TtlEvents(expired[..i]) + [Evicted(Eviction(TransactionTtl, expired[i], None))];
        events := events + [Evicted(Eviction(TransactionTtl, expired[i], None))];
      }
      assert expired[..|expired|] == expired;
    }

    method RecordSizeEvictions()
      requires Valid()
      modifies this`events, store
      ensures Valid() && State() == ReportEvictions(old(State()))
    {
      var evictions := store.TakeEvictions();
      ghost var before := events;
      for i := 0 to |evictions|
        modifies this`events
        invariant events == before + EvictionEvents(evictions[..i])
      {
        assert EvictionEvents(evictions[..i + 1]) == EvictionEvents(evictions[..i]) + [Evicted(evictions[i])];
        events := events + [Evicted(evictions[i])];
      }
      assert evictions[..|evictions|] == evictions;
    }

    method RetainTransaction(tx: Transaction, isMatch: bool)
      requires Valid()
      modifies this`events, store
      ensures Valid() && State() == Retain(old(State()), tx, isMatch)
    {
      if !config.mode.RetainsTransaction(isMatch) { return; }
      var isNew := store.InsertTransactionInPlace(tx);
      if isNew { events := events + [TransactionStored(tx.txid)]; }
    }

    method PublishMatches(matches: seq<Match>)
      requires Valid()
      modifies this`events, store
      ensures Valid() && State() == Publish(old(State()), matches)
    {
      for i := 0 to |matches|
        invariant Valid() && Publish(old(State()), matches) == Publish(State(), matches[i..])
      {
        assert matches[i..][0] == matches[i] && matches[i..][1..] == matches[i + 1..];
        if config.mode.RetainsMatches() { store.InsertMatchInPlace(matches[i]); }
        events := events + [MatchFound(matches[i].matcherId, matches[i].txid)];
      }
    }

    method IngestTransactionInPlace(tx: Transaction, order: seq<Matcher>) returns (r: Result<seq<Match>, IndexerError>)
      requires Valid()
      modifies this`events, store, recent
      ensures Valid() && (State(), r) == IngestTransaction(old(State()), tx, order)
    {
      if !config.Admits(tx) { return Err(InvalidTransaction); }
      PurgeInPlace(tx.observedAtMs);
      var isNew := recent.ObserveInPlace(tx.txid);
      if !isNew { return Ok([]); }
      var matches := Scan(tx, order);
      RetainTransaction(tx, matches != []);
      PublishMatches(matches);
      RecordSizeEvictions();
      return Ok(matches);
    }

    method IngestBlockInPlace(block: Block) returns (r: Result<(), IndexerError>)
      requires Valid()
      modifies this`events, store
      ensures Valid() && (State(), r) == IngestBlock(old(State()), block)
    {
      if Blank(block.hash) { return Err(EmptyBlockHash); }
      PurgeInPlace(block.observedAtMs);
      if config.mode.RetainsBlocks() { var _ := store.InsertBlockInPlace(block); }
      events := events + [BlockSeen(block.hash)];
      RecordSizeEvictions();
      return Ok(());
    }

    method SetCheckpointInPlace(checkpoint: Checkpoint) returns (r: Result<(), IndexerError>)
      requires Valid()
      modifies this`checkpoint, this`events
      ensures Valid() && (State(), r) == SetCheckpoint(old(State()), checkpoint)
    {
      if !checkpoint.Valid() { return Err(InvalidCheckpoint); }
      this.checkpoint := checkpoint;
      events := events + [CheckpointSet(checkpoint)];
      return Ok(());
    }

    method IngestBatchInPlace(batch: Batch, order: seq<Matcher>) returns (r: Result<nat, IndexerError>)
      requires Valid()
      modifies this`events, store, recent
      ensures Valid() && (State(), r) == IngestBatch(old(State()), batch, order)
    {
      hide Valid, State, IngestTransaction, IngestTransactions, IngestBlock, Counting;
      var begun := IngestBlockInPlace(batch.block);
      if begun.Err? { return Err(begun.error); }
      ghost var start := State();
      var matches: nat := 0;
      NothingAdded(start, batch.transactions, [], order);
      assert batch.transactions[0..] == batch.transactions;
      for i := 0 to |batch.transactions|
        invariant Valid()
        invariant IngestTransactions(start, batch.transactions, order)
                  == Counting(matches, IngestTransactions(State(), batch.transactions[i..], order))
      {
        UnfoldTransactions(State(), batch.transactions, i, order, matches);
        var step := IngestTransactionInPlace(batch.transactions[i], order);
        if step.Err? { return Err(step.error); }
        matches := matches + |step.value|;
      }
      EndsHere(State(), order, matches, Added(0, 0, 0));
      assert batch.transactions[|batch.transactions|..] == [];
      return Ok(matches);
    }

    method Counts() returns (counts: (nat, nat))
      requires Valid()
      ensures counts == (|State().store.blocks|, |State().store.txs|)
    {
      M.DistinctSize(store.txOrder);
      M.DistinctSize(store.blockOrder);
      counts := (|store.blocks|, |store.tx|);
    }

    method IngestBatchesInPlace(batches: seq<Batch>, order: seq<Matcher>) returns (r: Result<Added, IndexerError>)
      requires Valid()
      modifies this`events, store, recent
      ensures Valid() && (State(), r) == IngestBatches(old(State()), batches, order)
    {
      hide Valid, State, IngestBatch, IngestBatches, Adding;
      var added := Added(0, 0, 0);
      ghost var start := State();
      NothingAdded(start, [], batches, order);
      assert batches[0..] == batches;
      for i := 0 to |batches|
        invariant Valid()
        invariant IngestBatches(start, batches, order) == Adding(added, IngestBatches(State(), batches[i..], order))
      {
        UnfoldBatches(State(), batches, i, order, added);
        var before := Counts();
        var step := IngestBatchInPlace(batches[i], order);
        if step.Err? { return Err(step.error); }
        var after := Counts();
        added := Added(added.blocks + Grown(before.0, after.0), added.transactions + Grown(before.1, after.1),
                       added.matches + step.value);
      }
      EndsHere(State(), order, 0, added);
      assert batches[|batches|..] == [];
      return Ok(added);
    }

    method ApplySyncBatchesInPlace(batches: seq<Batch>, checkpoint: Checkpoint, order: seq<Matcher>)
      returns (r: Result<Added, IndexerError>)
      requires Valid()
      modifies this`events, this`checkpoint, store, recent
      ensures Valid() && (State(), r) == ApplySyncBatches(old(State()), batches, checkpoint, order)
    {
      if !checkpoint.Valid() { return Err(InvalidCheckpoint); }
      if |batches| > MAX_BATCHES { return Err(TooManyBatches); }
      var before := Counts();
      var done := IngestBatchesInPlace(batches, order);
      if done.Err? { return Err(done.error); }
      var after := Counts();
      var _ := SetCheckpointInPlace(checkpoint);
      return Ok(Added(Grown(before.0, after.0), Grown(before.1, after.1), done.value.matches));
    }

    method RebuildRecentTxids()
      requires Valid()
      modifies recent
      ensures Valid() && State() == RebuildRecent(old(State()))
    {
      recent.Clear();
      var txs := store.Transactions();
      for i := 0 to |txs|
        invariant Valid() && State() == old(State()).(recent := recent.order)
        invariant ObserveAll([], config.dedupeWindow, Txids(txs))
                  == ObserveAll(recent.order, config.dedupeWindow, Txids(txs)[i..])
      {
        assert Txids(txs)[i..][0] == txs[i].txid && Txids(txs)[i..][1..] == Txids(txs)[i + 1..];
        var _ := recent.ObserveInPlace(txs[i].txid);
      }
    }

    method ReconcileInPlace(d: Delta, order: seq<Matcher>) returns (r: Result<Report, IndexerError>)
      requires Valid()
      modifies this`events, this`checkpoint, store, recent
      ensures Valid() && (State(), r) == Reconcile(old(State()), d, order)
    {
      hide IngestBatches, ValidateDelta, RemoveChainBlocks, RebuildRecent;
      var valid := ValidateDelta(d);
      if valid.Err? { return Err(valid.error); }
      ghost var start := State();
      var removed := ToSet(d.removedBlockHashes);
      var counts := store.RemoveChainBlocksInPlace(removed);
      RebuildRecentTxids();
      ghost var pruned := State();
      assert pruned == RemoveOrphans(start, removed);
      var done := IngestBatchesInPlace(d.accepted, order);
      if done.Err? { return Err(done.error); }
      var _ := SetCheckpointInPlace(d.checkpoint);
      Shrinks(start.store, removed);
      events := events + [Reconciled(counts.0, done.value.blocks)];
      return Ok(Report(counts.0, counts.1, counts.2, done.value));
    }

    method PersistedStateNow() returns (state: Persisted)
      requires Valid()
      ensures state == PersistedState(State())
    {
      var snapshot := store.TakeSnapshotNow();
      state := Persisted(SCHEMA, snapshot, checkpoint, SortedMatchers(matchers));
    }

    method RestoreStateInPlace(state: Persisted) returns (r: Result<(), IndexerError>)
      requires Valid()
      modifies this, recent
      ensures Valid() && (store == old(store) || fresh(store)) && (State(), r) == RestoreState(old(State()), state)
    {
      hide Restore, ById, LargestId, AdmittedSnapshot, ValidMatchers, RebuildRecent;
      if state.schema != SCHEMA { return Err(UnsupportedSchema); }
      if !state.checkpoint.Valid() { return Err(InvalidCheckpoint); }
      if !ValidMatchers(state.matchers) { return Err(InvalidMatchers); }
      if !AdmittedSnapshot(config, state.snapshot) { return Err(InvalidTransaction); }
      store := M.RestoreStore(config, state.snapshot);
      matchers := ById(state.matchers);
      var largest := LargestId(state.matchers);
      if largest == MAX_UINT64 { return Err(MatcherIdExhausted); }
      nextMatcherId := largest + 1;
      checkpoint := state.checkpoint;
      RebuildRecentTxids();
      events := [];
      return Ok(());
    }

    method RestoreSnapshotInPlace(snapshot: Snapshot) returns (r: Result<(), IndexerError>)
      requires Valid()
      modifies this`store, this`events, recent
      ensures Valid() && (store == old(store) || fresh(store)) && (State(), r) == RestoreSnapshotInto(old(State()), snapshot)
    {
      hide Restore, AdmittedSnapshot, RebuildRecent;
      if !AdmittedSnapshot(config, snapshot) { return Err(InvalidTransaction); }
      store := M.RestoreStore(config, snapshot);
      RebuildRecentTxids();
      events := [];
      return Ok(());
    }

    method ClearInPlace()
      requires Valid()
      modifies this`checkpoint, this`events, store, recent
      ensures Valid() && State() == Cleared(old(State()))
    {
      store.ClearInPlace();
      recent.Clear();
      events, checkpoint := [], NO_CHECKPOINT;
    }
  }

  lemma Shrinks(s: Store, removed: set<string>)
    ensures var t := RemoveChainBlocks(s, removed);
            |t.blocks| <= |s.blocks| && |t.txs| <= |s.txs| && |t.matches| <= |s.matches|
  {
  }
}
