/** What restoring keeps: an engine's own state in any engine of the same
    configuration, and foreign states. */
module IndexerRestore {
  import opened Common
  import opened IndexerTypes
  import opened IndexerDedupe
  import opened IndexerStore
  import opened IndexerEngine
  import opened IndexerInvariant

  // ----- Any snapshot -----

  /** The ids that are left of a list of transactions: repeated ones are skipped
      and the oldest give way. */
  function SurvivingIds(c: Config, txs: seq<Transaction>): seq<string> {
    ObserveAll([], c.maxTransactions, Txids(txs))
  }

  /** Each of the matches that fit names a transaction that is left. */
  predicate NamesSurvivors(c: Config, snapshot: Snapshot) {
    forall m :: m in LastN(snapshot.matches, c.maxMatches) ==> m.txid in SurvivingIds(c, snapshot.transactions)
  }

  lemma TxidsOfLast(txs: seq<Transaction>, n: nat)
    ensures Txids(LastN(txs, n)) == LastN(Txids(txs), n)
  {
  }

  lemma InsertObserves(c: Config, s: Store, tx: Transaction)
    requires c.Valid() && DistinctTxids(s.txs) && |s.txs| <= c.maxTransactions && s.matches == []
    ensures var t := InsertTransaction(c, s, tx).0;
            && Txids(t.txs) == Observe(Txids(s.txs), c.maxTransactions, tx.txid).0
            && DistinctTxids(t.txs) && |t.txs| <= c.maxTransactions && t.matches == [] && t.blocks == s.blocks
            && (forall x :: x in t.txs ==> x in s.txs || x == tx)
  {
    if tx.txid !in Txids(s.txs) {
      var grown := s.(txs := s.txs + [tx]);
      assert forall i :: 0 <= i < |s.txs| ==> Txids(s.txs)[i] == s.txs[i].txid;
      assert Txids(grown.txs) == Txids(s.txs) + [tx.txid];
      TrimTransactionsKeeps(c, grown);
      TxidsOfLast(grown.txs, c.maxTransactions);
    }
  }

  lemma {:induction false} InsertAllObserves(c: Config, s: Store, txs: seq<Transaction>)
    requires c.Valid() && DistinctTxids(s.txs) && |s.txs| <= c.maxTransactions && s.matches == []
    ensures var t := InsertTransactions(c, s, txs);
            && Txids(t.txs) == ObserveAll(Txids(s.txs), c.maxTransactions, Txids(txs))
            && DistinctTxids(t.txs) && |t.txs| <= c.maxTransactions && t.matches == [] && t.blocks == s.blocks
            && (forall x :: x in t.txs ==> x in s.txs || x in txs)
    decreases txs
  {
    if txs == [] {
      assert Txids(txs) == [];
    } else {
      hide InsertTransaction, Observe;
      InsertObserves(c, s, txs[0]);
      InsertAllObserves(c, InsertTransaction(c, s, txs[0]).0, txs[1..]);
      assert Txids(txs)[0] == txs[0].txid && Txids(txs)[1..] == Txids(txs[1..]);
    }
  }

  lemma {:induction false} InsertBlocksKeeps(c: Config, s: Store, blocks: seq<Block>)
    requires c.Valid() && Consistent(c, s)
    ensures var t := InsertBlocks(c, s, blocks);
            && Consistent(c, t) && t.txs == s.txs && t.matches == s.matches
            && (forall b :: b in t.blocks ==> b in s.blocks || b in blocks)
    decreases blocks
  {
    hide Consistent, InsertBlock;
    if blocks != [] {
      InsertBlockKeeps(c, s, blocks[0]);
      var t, isNew := InsertBlock(c, s, blocks[0]).0, InsertBlock(c, s, blocks[0]).1;
      assert forall b :: b in t.blocks ==> b in s.blocks || b == blocks[0];
      InsertBlocksKeeps(c, t, blocks[1..]);
    }
  }

  lemma LastOfJoined<T>(a: seq<T>, b: seq<T>, n: nat)
    ensures LastN(LastN(a, n) + b, n) == LastN(a + b, n)
  {
  }

  lemma {:induction false} InsertMatchesAppends(c: Config, s: Store, matches: seq<Match>)
    requires |s.matches| <= c.maxMatches
    ensures var t := InsertMatches(c, s, matches);
            t.matches == LastN(s.matches + matches, c.maxMatches) && t.txs == s.txs && t.blocks == s.blocks
    decreases matches
  {
    if matches == [] {
      assert s.matches + [] == s.matches;
    } else {
      var grown := s.(matches := s.matches + [matches[0]]);
      TrimMatchesKeeps(c, grown);
      InsertMatchesAppends(c, TrimMatches(c, grown), matches[1..]);
      LastOfJoined(grown.matches, matches[1..], c.maxMatches);
      assert grown.matches + matches[1..] == s.matches + matches;
    }
  }

  /** What a restored snapshot comes to, whatever it holds. */
  lemma RestoredStore(c: Config, snapshot: Snapshot)
    requires c.Valid()
    ensures var t := Restore(c, snapshot);
            && Txids(t.txs) == SurvivingIds(c, snapshot.transactions) && DistinctTxids(t.txs) && DistinctHashes(t.blocks)
            && |t.txs| <= c.maxTransactions && |t.blocks| <= c.maxBlocks
            && t.matches == LastN(snapshot.matches, c.maxMatches) && t.pending == []
            && (forall x :: x in t.txs ==> x in snapshot.transactions) && (forall b :: b in t.blocks ==> b in snapshot.blocks)
  {
    var withTxs := InsertTransactions(c, EMPTY_STORE, snapshot.transactions);
    InsertAllObserves(c, EMPTY_STORE, snapshot.transactions);
    assert Txids([]) == [];
    InsertBlocksKeeps(c, withTxs, snapshot.blocks);
    InsertMatchesAppends(c, InsertBlocks(c, withTxs, snapshot.blocks), snapshot.matches);
    assert [] + snapshot.matches == snapshot.matches;
  }

  /** A snapshot from anywhere restores to a consistent store exactly when the
      matches that fit name transactions that are left of it. */
  lemma RestoreIsConsistentExactly(c: Config, snapshot: Snapshot)
    requires c.Valid()
    ensures Consistent(c, Restore(c, snapshot)) <==> NamesSurvivors(c, snapshot)
  {
    RestoredStore(c, snapshot);
    hide Restore, SurvivingIds;
    var t := Restore(c, snapshot);
    assert forall i :: 0 <= i < |t.txs| ==> Txids(t.txs)[i] == t.txs[i].txid;
  }

  /** For one, a match without its transaction is accepted and kept. */
  lemma DanglingMatchIsAccepted(config: Config, m: Match)
    requires config.Valid()
    ensures var (r, done) := RestoreSnapshotInto(NewEngine(config), Snapshot([], [], [m]));
            done.Ok? && r.store.matches == [m] && !Consistent(config, r.store)
  {
    var snapshot := Snapshot([], [], [m]);
    RestoredStore(config, snapshot);
    RestoreIsConsistentExactly(config, snapshot);
    assert Txids([]) == [] && m in LastN([m], config.maxMatches);
  }

  // ----- Foreign states -----

  /** The state passes every check that comes before the store is replaced. */
  predicate Accepted(c: Config, state: Persisted) {
    && state.schema == SCHEMA && state.checkpoint.Valid() && ValidMatchers(state.matchers)
    && AdmittedSnapshot(c, state.snapshot)
  }

  /** Restoring it leaves the invariant in place. */
  predicate Harmless(c: Config, state: Persisted) {
    Accepted(c, state) ==> LargestId(state.matchers) != MAX_UINT64 && NamesSurvivors(c, state.snapshot)
  }

  /** An id that no matcher may follow. */
  lemma LastIdIsTaken(matchers: seq<Matcher>)
    requires ValidMatchers(matchers) && LargestId(matchers) == MAX_UINT64
    ensures MAX_UINT64 in ById(matchers)
  {
    ByIdMeans(matchers, map[]);
    hide ById, LargestId;
    var i :| 0 <= i < |matchers| && matchers[i].id == MAX_UINT64;
  }

  lemma ListedInOrder(matchers: seq<Matcher>)
    requires ValidMatchers(matchers) && LargestId(matchers) != MAX_UINT64
    ensures MatchersInOrder(ById(matchers), LargestId(matchers) + 1)
  {
    ByIdMeans(matchers, map[]);
    hide ById, LargestId;
  }

  lemma RefilledStore(c: Config, snapshot: Snapshot)
    requires c.Valid() && AdmittedSnapshot(c, snapshot)
    ensures AdmittedStore(c, Restore(c, snapshot)) && Restore(c, snapshot).pending == []
    ensures var recent := ObserveAll([], c.dedupeWindow, Txids(Restore(c, snapshot).txs)); Distinct(recent) && |recent| <= c.dedupeWindow
  {
    RestoredStore(c, snapshot);
    hide Restore, ObserveAll;
    ObserveAllKeeps([], c.dedupeWindow, Txids(Restore(c, snapshot).txs));
  }

  /** Restoring a state from anywhere keeps the invariant exactly when it is
      harmless: refused before anything is replaced, or without dangling matches
      and with an id left for the next matcher. */
  lemma RestoreKeepsExactly(e: Engine, state: Persisted)
    requires Inv(e)
    ensures Inv(RestoreState(e, state).0) <==> Harmless(e.config, state)
  {
    hide Restore, NamesSurvivors, ById, Consistent, AdmittedStore, AdmittedSnapshot, ObserveAll, LargestId, ValidMatchers, Distinct;
    if Accepted(e.config, state) {
      RefilledStore(e.config, state.snapshot);
      RestoreIsConsistentExactly(e.config, state.snapshot);
      if LargestId(state.matchers) == MAX_UINT64 {
        LastIdIsTaken(state.matchers);
      } else {
        ListedInOrder(state.matchers);
      }
    }
  }

  /** A refused restore leaves the engine as it was exactly when the refusal is
      not for want of a matcher id. */
  lemma RefusalChangesNothingExactly(e: Engine, state: Persisted)
    requires Inv(e) && RestoreState(e, state).1.Err?
    ensures RestoreState(e, state).0 == e <==> !(Accepted(e.config, state) && LargestId(state.matchers) == MAX_UINT64)
    ensures RestoreState(e, state).1 == Err(MatcherIdExhausted) <==> Accepted(e.config, state) && LargestId(state.matchers) == MAX_UINT64
  {
    hide Restore, ById, LargestId, Consistent, AdmittedStore, AdmittedSnapshot, ValidMatchers;
    if Accepted(e.config, state) && LargestId(state.matchers) == MAX_UINT64 { LastIdIsTaken(state.matchers); }
  }

  /** It happens: the last id is taken, the restore fails, and the new matcher is
      there all the same. */
  lemma ARefusalReplacesMatchers(config: Config, rule: MatchRule)
    requires config.Valid() && rule.Valid()
    ensures var last := Matcher(MAX_UINT64, rule);
            var (r, done) := RestoreState(NewEngine(config), Persisted(SCHEMA, Snapshot([], [], []), NO_CHECKPOINT, [last]));
            done == Err(MatcherIdExhausted) && r.matchers == map[MAX_UINT64 := last] && r != NewEngine(config)
  {
    var last := Matcher(MAX_UINT64, rule);
    assert [last][..0] == [];
    assert ById([last]) == map[][MAX_UINT64 := last];
    assert LargestId([last]) == MAX_UINT64;
    var state := Persisted(SCHEMA, Snapshot([], [], []), NO_CHECKPOINT, [last]);
    assert Accepted(config, state);
    NewEngineIsSound(config);
    hide Restore, LargestId, ById;
    RefusalChangesNothingExactly(NewEngine(config), state);
  }

  lemma RestoreSnapshotKeepsExactly(e: Engine, snapshot: Snapshot)
    requires Inv(e)
    ensures Inv(RestoreSnapshotInto(e, snapshot).0) <==>
            (AdmittedSnapshot(e.config, snapshot) ==> NamesSurvivors(e.config, snapshot))
  {
    hide Restore, NamesSurvivors, Consistent, AdmittedStore, AdmittedSnapshot, ObserveAll, Distinct;
    if AdmittedSnapshot(e.config, snapshot) {
      RefilledStore(e.config, snapshot);
      RestoreIsConsistentExactly(e.config, snapshot);
    }
  }

  lemma ClearKeeps(e: Engine)
    requires Inv(e)
    ensures Inv(Cleared(e))
  {
  }

  // ----- An engine's own state -----

  /** Any engine of the same configuration, a new one above all, accepts the
      state of a consistent engine `e`: it then has every record of `e` in order,
      its checkpoint and its matchers, and the next matcher id is above every
      live one. */
  lemma RestorePersisted(e: Engine, f: Engine)
    requires Inv(e) && f.config == e.config
    ensures var (r, done) := RestoreState(f, PersistedState(e));
            && done.Ok?
            && r.store == e.store && r.checkpoint == e.checkpoint && r.matchers == e.matchers
            && (forall id :: id in r.matchers ==> id < r.nextMatcherId) && r.nextMatcherId <= e.nextMatcherId
            && r.recent == LastN(Txids(e.store.txs), e.config.dedupeWindow)
            && Inv(r)
  {
    SortedMatchersRestore(e.matchers, e.nextMatcherId);
    RestoreSnapshot(e.config, e.store);
    WindowOfStored(e.config, e.store);
    ObserveAllKeeps([], e.config.dedupeWindow, Txids(e.store.txs));
    var list := SortedMatchers(e.matchers);
    ByIdMeans(list, e.matchers);
  }

  lemma PersistedIsHarmless(e: Engine)
    requires Inv(e)
    ensures Harmless(e.config, PersistedState(e))
  {
    RestorePersisted(e, e);
    RestoreKeepsExactly(e, PersistedState(e));
  }
}
