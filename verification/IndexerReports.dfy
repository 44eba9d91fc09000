/** What a finished synchronisation and a finished reorganisation report, against
    the store and the events. */
module IndexerReports {
  import opened Common
  import opened IndexerTypes
  import opened IndexerDedupe
  import opened IndexerStore
  import opened IndexerEngine

  /** How many matches the events announce. */
  function Announced(events: seq<Event>): nat {
    if events == [] then 0
    else Announced(events[..|events| - 1]) + if events[|events| - 1].MatchFound? then 1 else 0
  }

  lemma {:induction false} AnnouncedOn(events: seq<Event>, more: seq<Event>)
    ensures Announced(events + more) == Announced(events) + Announced(more)
    decreases more
  {
    if more == [] {
      assert events + more == events;
    } else {
      var all := events + more;
      assert all[..|all| - 1] == events + more[..|more| - 1];
      AnnouncedOn(events, more[..|more| - 1]);
    }
  }

  lemma {:induction false} NoneAnnounced(events: seq<Event>)
    requires forall i :: 0 <= i < |events| ==> !events[i].MatchFound?
    ensures Announced(events) == 0
  {
    if events != [] { NoneAnnounced(events[..|events| - 1]); }
  }

  lemma PurgeAnnounces(e: Engine, now: uint64)
    ensures Announced(Purge(e, now).events) == Announced(e.events)
  {
    hide PurgeExpired;
    var ids := PurgeExpired(e.config, e.store, now).1;
    NoneAnnounced(TtlEvents(ids));
    AnnouncedOn(e.events, TtlEvents(ids));
  }

  lemma ReportAnnounces(e: Engine)
    ensures Announced(ReportEvictions(e).events) == Announced(e.events)
  {
    NoneAnnounced(EvictionEvents(e.store.pending));
    AnnouncedOn(e.events, EvictionEvents(e.store.pending));
  }

  lemma {:induction false} PublishAnnounces(e: Engine, matches: seq<Match>)
    ensures Announced(Publish(e, matches).events) == Announced(e.events) + |matches|
    decreases matches
  {
    if matches != [] {
      var next := PublishOne(e, matches[0]);
      assert next.events[..|e.events|] == e.events;
      PublishAnnounces(next, matches[1..]);
    }
  }

  lemma RetainAnnounces(e: Engine, tx: Transaction, isMatch: bool)
    ensures Announced(Retain(e, tx, isMatch).events) == Announced(e.events)
  {
    assert (e.events + [TransactionStored(tx.txid)])[..|e.events|] == e.events;
  }

  lemma TransactionAnnounces(e: Engine, tx: Transaction, order: seq<Matcher>)
    ensures var (next, found) := IngestTransaction(e, tx, order);
            found.Ok? ==> Announced(next.events) == Announced(e.events) + |found.value|
  {
    hide Purge, Observe, Retain, Publish, ReportEvictions, Announced, Scan;
    var purged := Purge(e, tx.observedAtMs);
    var seen := purged.(recent := Observe(purged.recent, e.config.dedupeWindow, tx.txid).0);
    var matches := Scan(tx, order);
    PurgeAnnounces(e, tx.observedAtMs);
    RetainAnnounces(seen, tx, matches != []);
    PublishAnnounces(Retain(seen, tx, matches != []), matches);
    ReportAnnounces(Publish(Retain(seen, tx, matches != []), matches));
  }

  lemma BlockAnnounces(e: Engine, block: Block)
    ensures var (next, done) := IngestBlock(e, block);
            done.Ok? ==> Announced(next.events) == Announced(e.events)
  {
    hide Purge, ReportEvictions, InsertBlock;
    var purged := Purge(e, block.observedAtMs);
    PurgeAnnounces(e, block.observedAtMs);
    var events := purged.events + [BlockSeen(block.hash)];
    assert events[..|purged.events|] == purged.events;
    var stored := if e.config.mode.RetainsBlocks()
                  then purged.(store := InsertBlock(e.config, purged.store, block).0) else purged;
    ReportAnnounces(stored.(events := events));
  }

  lemma {:induction false} TransactionsAnnounce(e: Engine, txs: seq<Transaction>, order: seq<Matcher>)
    ensures var (next, found) := IngestTransactions(e, txs, order);
            found.Ok? ==> Announced(next.events) == Announced(e.events) + found.value
    decreases txs
  {
    hide IngestTransaction, Announced;
    if txs != [] {
      TransactionAnnounces(e, txs[0], order);
      TransactionsAnnounce(IngestTransaction(e, txs[0], order).0, txs[1..], order);
    }
  }

  lemma BatchAnnounces(e: Engine, batch: Batch, order: seq<Matcher>)
    ensures var (next, found) := IngestBatch(e, batch, order);
            found.Ok? ==> Announced(next.events) == Announced(e.events) + found.value
  {
    hide IngestBlock, IngestTransactions, Announced;
    BlockAnnounces(e, batch.block);
    TransactionsAnnounce(IngestBlock(e, batch.block).0, batch.transactions, order);
  }

  /** The counts of added records are of what the batches left in the store, or
      more where the limits made some of it leave again. */
  lemma {:induction false} BatchesCount(e: Engine, batches: seq<Batch>, order: seq<Matcher>)
    ensures var (next, done) := IngestBatches(e, batches, order);
            done.Ok? ==>
              && Announced(next.events) == Announced(e.events) + done.value.matches
              && |next.store.txs| <= |e.store.txs| + done.value.transactions
              && |next.store.blocks| <= |e.store.blocks| + done.value.blocks
    decreases batches
  {
    hide IngestBatch, Announced;
    if batches != [] {
      BatchAnnounces(e, batches[0], order);
      BatchesCount(IngestBatch(e, batches[0], order).0, batches[1..], order);
    }
  }

  // ----- What orphan removal takes -----

  function BlocksAmong(blocks: seq<Block>, hashes: set<string>): nat {
    if blocks == [] then 0 else (if blocks[0].hash in hashes then 1 else 0) + BlocksAmong(blocks[1..], hashes)
  }

  function TransactionsAmong(txs: seq<Transaction>, hashes: set<string>): nat {
    if txs == [] then 0 else (if InBlocks(txs[0], hashes) then 1 else 0) + TransactionsAmong(txs[1..], hashes)
  }

  function MatchesAmong(matches: seq<Match>, ids: set<string>): nat {
    if matches == [] then 0 else (if matches[0].txid in ids then 1 else 0) + MatchesAmong(matches[1..], ids)
  }

  lemma {:induction false} KeptBlocks(blocks: seq<Block>, hashes: set<string>)
    ensures |KeepBlocks(blocks, hashes)| + BlocksAmong(blocks, hashes) == |blocks|
  {
    if blocks != [] { KeptBlocks(blocks[1..], hashes); }
  }

  lemma {:induction false} KeptTransactions(txs: seq<Transaction>, hashes: set<string>)
    ensures |KeepTransactions(txs, hashes)| + TransactionsAmong(txs, hashes) == |txs|
  {
    if txs != [] { KeptTransactions(txs[1..], hashes); }
  }

  lemma {:induction false} KeptMatches(matches: seq<Match>, ids: set<string>)
    ensures |WithoutTxids(matches, ids)| + MatchesAmong(matches, ids) == |matches|
  {
    if matches != [] { KeptMatches(matches[1..], ids); }
  }

  lemma {:induction false} NothingAmongNone(s: Store)
    ensures BlocksAmong(s.blocks, {}) == 0 && TransactionsAmong(s.txs, {}) == 0 && MatchesAmong(s.matches, OrphanIds(s.txs, {})) == 0
  {
    KeptBlocks(s.blocks, {});
    KeptTransactions(s.txs, {});
    KeptMatches(s.matches, {});
    KeepAll(s);
    assert OrphanIds(s.txs, {}) == {};
  }

  lemma KeepAll(s: Store)
    ensures |KeepBlocks(s.blocks, {})| == |s.blocks| && |KeepTransactions(s.txs, {})| == |s.txs|
    ensures |WithoutTxids(s.matches, {})| == |s.matches|
  {
    AllBlocks(s.blocks);
    AllTransactions(s.txs);
    AllMatches(s.matches);
  }

  lemma {:induction false} AllBlocks(blocks: seq<Block>)
    ensures KeepBlocks(blocks, {}) == blocks
  {
    if blocks != [] { AllBlocks(blocks[1..]); }
  }

  lemma {:induction false} AllTransactions(txs: seq<Transaction>)
    ensures KeepTransactions(txs, {}) == txs
  {
    if txs != [] { AllTransactions(txs[1..]); }
  }

  lemma {:induction false} AllMatches(matches: seq<Match>)
    ensures WithoutTxids(matches, {}) == matches
  {
    if matches != [] { AllMatches(matches[1..]); }
  }

  lemma RemovedCounts(s: Store, removed: set<string>)
    ensures var t := RemoveChainBlocks(s, removed);
            && |s.blocks| == |t.blocks| + BlocksAmong(s.blocks, removed)
            && |s.txs| == |t.txs| + TransactionsAmong(s.txs, removed)
            && |s.matches| == |t.matches| + MatchesAmong(s.matches, OrphanIds(s.txs, removed))
  {
    if removed == {} {
      NothingAmongNone(s);
    } else {
      KeptBlocks(s.blocks, removed);
      KeptTransactions(s.txs, removed);
      KeptMatches(s.matches, OrphanIds(s.txs, removed));
    }
  }

  // ----- When it succeeds -----

  predicate AdmittedBatch(c: Config, batch: Batch) {
    !Blank(batch.block.hash) && forall i :: 0 <= i < |batch.transactions| ==> c.Admits(batch.transactions[i])
  }

  predicate AdmittedBatches(c: Config, batches: seq<Batch>) {
    forall i :: 0 <= i < |batches| ==> AdmittedBatch(c, batches[i])
  }

  lemma {:induction false} PublishKeepsConfig(e: Engine, matches: seq<Match>)
    ensures Publish(e, matches).config == e.config
    decreases matches
  {
    if matches != [] { PublishKeepsConfig(PublishOne(e, matches[0]), matches[1..]); }
  }

  /** One record fails exactly when the limits refuse it. */
  lemma RecordSucceedsExactly(e: Engine, tx: Transaction, block: Block, order: seq<Matcher>)
    ensures IngestTransaction(e, tx, order).1.Ok? <==> e.config.Admits(tx)
    ensures IngestBlock(e, block).1.Ok? <==> !Blank(block.hash)
    ensures IngestTransaction(e, tx, order).0.config == e.config && IngestBlock(e, block).0.config == e.config
  {
    hide PurgeExpired, Scan, Blank, Config.Admits;
    var seen := Purge(e, tx.observedAtMs).(recent := Observe(Purge(e, tx.observedAtMs).recent, e.config.dedupeWindow, tx.txid).0);
    PublishKeepsConfig(Retain(seen, tx, Scan(tx, order) != []), Scan(tx, order));
  }

  lemma {:induction false} TransactionsSucceedExactly(e: Engine, txs: seq<Transaction>, order: seq<Matcher>)
    ensures IngestTransactions(e, txs, order).1.Ok? <==> forall i :: 0 <= i < |txs| ==> e.config.Admits(txs[i])
    ensures IngestTransactions(e, txs, order).0.config == e.config
    decreases txs
  {
    hide IngestTransaction, IngestBlock, Config.Admits, Blank;
    if txs != [] {
      RecordSucceedsExactly(e, txs[0], Block("", None, 0, []), order);
      TransactionsSucceedExactly(IngestTransaction(e, txs[0], order).0, txs[1..], order);
      assert forall i :: 1 <= i < |txs| ==> txs[i] == txs[1..][i - 1];
      assert forall i :: 0 <= i < |txs[1..]| ==> txs[1..][i] == txs[i + 1];
    }
  }

  lemma BatchSucceedsExactly(e: Engine, batch: Batch, order: seq<Matcher>)
    ensures IngestBatch(e, batch, order).1.Ok? <==> AdmittedBatch(e.config, batch)
    ensures IngestBatch(e, batch, order).0.config == e.config
  {
    hide IngestTransactions, IngestTransaction, IngestBlock, Config.Admits, Blank;
    RecordSucceedsExactly(e, Transaction("", None, None, 0, [], []), batch.block, order);
    TransactionsSucceedExactly(IngestBlock(e, batch.block).0, batch.transactions, order);
  }

  lemma {:induction false} BatchesSucceedExactly(e: Engine, batches: seq<Batch>, order: seq<Matcher>)
    ensures IngestBatches(e, batches, order).1.Ok? <==> AdmittedBatches(e.config, batches)
    decreases batches
  {
    hide IngestBatch, AdmittedBatch;
    if batches != [] {
      BatchSucceedsExactly(e, batches[0], order);
      BatchesSucceedExactly(IngestBatch(e, batches[0], order).0, batches[1..], order);
      assert forall i :: 1 <= i < |batches| ==> batches[i] == batches[1..][i - 1];
      assert forall i :: 0 <= i < |batches[1..]| ==> batches[1..][i] == batches[i + 1];
    }
  }

  predicate AdmittedDelta(d: Delta) {
    && d.checkpoint.Valid() && |d.removedBlockHashes| <= MAX_BATCHES && |d.accepted| <= MAX_BATCHES
    && (forall i :: 0 <= i < |d.removedBlockHashes| ==> !Blank(d.removedBlockHashes[i]))
  }

  /** A synchronisation or a reorganisation succeeds exactly when its checkpoint is
      valid, its lists are within bounds and name blocks, and every record in it is
      admitted; refused for anything but a record, it has changed nothing. */
  lemma SucceedsExactly(e: Engine, batches: seq<Batch>, checkpoint: Checkpoint, d: Delta, order: seq<Matcher>)
    ensures ApplySyncBatches(e, batches, checkpoint, order).1.Ok?
       <==> checkpoint.Valid() && |batches| <= MAX_BATCHES && AdmittedBatches(e.config, batches)
    ensures !checkpoint.Valid() || |batches| > MAX_BATCHES ==> ApplySyncBatches(e, batches, checkpoint, order).0 == e
    ensures Reconcile(e, d, order).1.Ok? <==> AdmittedDelta(d) && AdmittedBatches(e.config, d.accepted)
    ensures !AdmittedDelta(d) ==> Reconcile(e, d, order).0 == e
  {
    hide IngestBatches, RemoveOrphans, AdmittedBatches, Blank, Checkpoint.Valid;
    BatchesSucceedExactly(e, batches, order);
    var pruned := RemoveOrphans(e, ToSet(d.removedBlockHashes));
    BatchesSucceedExactly(pruned, d.accepted, order);
    PruningKeepsConfig(e, ToSet(d.removedBlockHashes));
  }

  lemma PruningKeepsConfig(e: Engine, removed: set<string>)
    ensures RemoveOrphans(e, removed).config == e.config
  {
  }

  // ----- Main results -----

  /** A synchronisation succeeds only with a valid checkpoint; then the engine
      stands at it, the last event says so, and the report counts by how much the
      store grew and how many matches the events announce. */
  lemma SyncReportsItsWork(e: Engine, batches: seq<Batch>, checkpoint: Checkpoint, order: seq<Matcher>)
    ensures var (end, done) := ApplySyncBatches(e, batches, checkpoint, order);
            done.Ok? ==>
              && checkpoint.Valid() && end.checkpoint == checkpoint
              && end.events != [] && end.events[|end.events| - 1] == CheckpointSet(checkpoint)
              && Announced(end.events) == Announced(e.events) + done.value.matches
              && done.value.transactions == (if |end.store.txs| >= |e.store.txs| then |end.store.txs| - |e.store.txs| else 0)
              && done.value.blocks == (if |end.store.blocks| >= |e.store.blocks| then |end.store.blocks| - |e.store.blocks| else 0)
  {
    hide IngestBatches;
    BatchesCount(e, batches, order);
    var next := IngestBatches(e, batches, order).0;
    assert (next.events + [CheckpointSet(checkpoint)])[..|next.events|] == next.events;
  }

  /** A reorganisation that succeeds leaves the engine at its checkpoint; the last
      two events say so; and the report counts the stored blocks that were
      removed, the transactions in them and the matches of those, the matches
      announced since, and at least the records that came. */
  lemma ReconcileReportsItsWork(e: Engine, d: Delta, order: seq<Matcher>)
    ensures var (end, done) := Reconcile(e, d, order);
            var removed := ToSet(d.removedBlockHashes);
            done.Ok? ==>
              && d.checkpoint.Valid() && end.checkpoint == d.checkpoint
              && |end.events| >= 2 && end.events[|end.events| - 2] == CheckpointSet(d.checkpoint)
              && end.events[|end.events| - 1] == Reconciled(done.value.removedBlocks, done.value.added.blocks)
              && done.value.removedBlocks == BlocksAmong(e.store.blocks, removed)
              && done.value.removedTransactions == TransactionsAmong(e.store.txs, removed)
              && done.value.removedMatches == MatchesAmong(e.store.matches, OrphanIds(e.store.txs, removed))
              && Announced(end.events) == Announced(e.events) + done.value.added.matches
              && |end.store.txs| + done.value.removedTransactions <= |e.store.txs| + done.value.added.transactions
              && |end.store.blocks| + done.value.removedBlocks <= |e.store.blocks| + done.value.added.blocks
  {
    hide IngestBatches, RemoveChainBlocks, RebuildRecent, BlocksAmong, TransactionsAmong, MatchesAmong, OrphanIds;
    if ValidateDelta(d).Ok? {
      var removed := ToSet(d.removedBlockHashes);
      RemovedCounts(e.store, removed);
      RebuildKeeps(e.(store := RemoveChainBlocks(e.store, removed)));
      var pruned := RemoveOrphans(e, removed);
      BatchesCount(pruned, d.accepted, order);
      var next := IngestBatches(pruned, d.accepted, order).0;
      var marked := next.events + [CheckpointSet(d.checkpoint)];
      assert marked[..|next.events|] == next.events;
      assert forall r :: (marked + [r])[..|marked|] == marked;
    }
  }

  lemma RebuildKeeps(e: Engine)
    ensures RebuildRecent(e).store == e.store && RebuildRecent(e).events == e.events
  {
  }
}
