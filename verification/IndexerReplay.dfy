/** The events account for the store: whoever replays them knows which
    transactions are stored, in order. */
module IndexerReplay {
  import opened Common
  import opened IndexerTypes
  import opened IndexerDedupe
  import opened IndexerStore
  import opened IndexerEngine
  import opened IndexerInvariant
  import opened IndexerRuns

  function Without(ids: seq<string>, id: string): seq<string> {
    if ids == [] then []
    else if ids[0] == id then ids[1..]
    else [ids[0]] + Without(ids[1..], id)
  }

  /** What one event says about the stored transaction ids. */
  function ReplayOne(ids: seq<string>, event: Event): seq<string> {
    match event
    case TransactionStored(txid) => ids + [txid]
    case Evicted(Eviction(kind, id, _)) =>
      if kind == TransactionSize || kind == TransactionTtl then Without(ids, id) else ids
    case _ => ids
  }

  function Replay(ids: seq<string>, events: seq<Event>): seq<string> {
    if events == [] then ids
    else ReplayOne(Replay(ids, events[..|events| - 1]), events[|events| - 1])
  }

  lemma {:induction false} ReplayConcat(ids: seq<string>, a: seq<Event>, b: seq<Event>)
    ensures Replay(ids, a + b) == Replay(Replay(ids, a), b)
  {
    if b == [] {
      assert a + b == a;
    } else {
      ReplayConcat(ids, a, b[..|b| - 1]);
      assert (a + b)[..|a + b| - 1] == a + b[..|b| - 1];
    }
  }

  /** The front of the queue leaves first. */
  lemma ReplayFront(txs: seq<Transaction>, kind: EvictionKind)
    requires txs != [] && (kind == TransactionSize || kind == TransactionTtl)
    ensures ReplayOne(Txids(txs), Evicted(Eviction(kind, txs[0].txid, None))) == Txids(txs[1..])
  {
    assert Txids(txs)[1..] == Txids(txs[1..]);
  }

  lemma ReplaySingle(ids: seq<string>, event: Event)
    ensures Replay(ids, [event]) == ReplayOne(ids, event)
  {
    assert [event][..0] == [];
  }

  lemma {:induction false} ReplayTtl(txs: seq<Transaction>, n: nat)
    requires n <= |txs|
    ensures Replay(Txids(txs), TtlEvents(Txids(txs[..n]))) == Txids(txs[n..])
  {
    var events := TtlEvents(Txids(txs[..n]));
    if n > 0 {
      ReplayTtl(txs, n - 1);
      assert events[..n - 1] == TtlEvents(Txids(txs[..n - 1]));
      ReplayFront(txs[n - 1..], TransactionTtl);
      assert txs[n - 1..][1..] == txs[n..] && events[n - 1] == Evicted(Eviction(TransactionTtl, txs[n - 1].txid, None));
    } else {
      assert txs[0..] == txs;
    }
  }

  /** The transactions stored, as the reported events followed by the evictions
      still to be reported tell it. */
  ghost predicate Told(ids: seq<string>, from: nat, e: Engine) {
    from <= |e.events| && Replay(ids, e.events[from..] + EvictionEvents(e.store.pending)) == Txids(e.store.txs)
  }

  lemma {:induction false} ReplayTrim(c: Config, s: Store)
    ensures var t := TrimTransactions(c, s);
            s.pending <= t.pending && Replay(Txids(s.txs), EvictionEvents(t.pending[|s.pending|..])) == Txids(t.txs)
    decreases |s.txs|
  {
    var t := TrimTransactions(c, s);
    if |s.txs| <= c.maxTransactions {
      assert t.pending[|s.pending|..] == [];
    } else {
      var next := DropOldest(s);
      ReplayTrim(c, next);
      var gone := Eviction(TransactionSize, s.txs[0].txid, None);
      assert next.pending == s.pending + [gone];
      assert t.pending[|s.pending|..] == [gone] + t.pending[|next.pending|..];
      assert EvictionEvents(t.pending[|s.pending|..]) == [Evicted(gone)] + EvictionEvents(t.pending[|next.pending|..]);
      ReplayConcat(Txids(s.txs), [Evicted(gone)], EvictionEvents(t.pending[|next.pending|..]));
      ReplaySingle(Txids(s.txs), Evicted(gone));
      ReplayFront(s.txs, TransactionSize);
    }
  }

  /** Evictions of other records say nothing about transactions. */
  ghost predicate Silent(events: seq<Event>) {
    forall i :: 0 <= i < |events| ==>
      match events[i]
      case TransactionStored(_) => false
      case Evicted(eviction) => eviction.kind == BlockSize || eviction.kind == MatchSize
      case _ => true
  }

  lemma {:induction false} ReplaySilent(ids: seq<string>, events: seq<Event>)
    requires Silent(events)
    ensures Replay(ids, events) == ids
  {
    if events != [] { ReplaySilent(ids, events[..|events| - 1]); }
  }

  lemma {:induction false} TrimMatchesSilent(c: Config, s: Store)
    ensures var t := TrimMatches(c, s);
            s.pending <= t.pending && Silent(EvictionEvents(t.pending[|s.pending|..])) && t.txs == s.txs
    decreases |s.matches|
  {
    if |s.matches| > c.maxMatches {
      var next := s.(matches := s.matches[1..],
                     pending := s.pending + [Eviction(MatchSize, s.matches[0].txid, Some(s.matches[0].matcherId))]);
      TrimMatchesSilent(c, next);
      SilentCons(s.pending, next.pending[|s.pending|], TrimMatches(c, s).pending);
    } else {
      assert s.pending[|s.pending|..] == [];
    }
  }

  lemma {:induction false} TrimBlocksSilent(c: Config, s: Store)
    ensures var t := TrimBlocks(c, s);
            s.pending <= t.pending && Silent(EvictionEvents(t.pending[|s.pending|..])) && t.txs == s.txs
    decreases |s.blocks|
  {
    if |s.blocks| > c.maxBlocks {
      var next := s.(blocks := s.blocks[1..], pending := s.pending + [Eviction(BlockSize, s.blocks[0].hash, None)]);
      TrimBlocksSilent(c, next);
      SilentCons(s.pending, next.pending[|s.pending|], TrimBlocks(c, s).pending);
    } else {
      assert s.pending[|s.pending|..] == [];
    }
  }

  lemma SilentCons(before: seq<Eviction>, first: Eviction, after: seq<Eviction>)
    requires before + [first] <= after && (first.kind == BlockSize || first.kind == MatchSize)
    requires Silent(EvictionEvents(after[|before| + 1..]))
    ensures Silent(EvictionEvents(after[|before|..]))
  {
    var rest, all := EvictionEvents(after[|before| + 1..]), EvictionEvents(after[|before|..]);
    forall i | 0 <= i < |all| ensures Silent([all[i]]) {
      if i > 0 { assert all[i] == rest[i - 1]; } else { assert all[0] == Evicted(first); }
    }
    assert forall i :: 0 <= i < |all| ==> [all[i]][0] == all[i];
  }

  // ----- Operations -----

  lemma PurgeTells(e: Engine, now: uint64, ids: seq<string>, from: nat)
    requires Told(ids, from, e) && e.store.pending == []
    ensures Told(ids, from, Purge(e, now)) && Purge(e, now).store.pending == []
  {
    var n := ExpiredCount(e.config, now, e.store.txs);
    var expired := TtlEvents(Txids(e.store.txs[..n]));
    var p := Purge(e, now);
    ReplayTtl(e.store.txs, n);
    assert e.events[from..] + EvictionEvents([]) == e.events[from..];
    assert p.events[from..] + EvictionEvents([]) == e.events[from..] + expired;
    ReplayConcat(ids, e.events[from..], expired);
  }

  lemma RetainTells(e: Engine, tx: Transaction, isMatch: bool, ids: seq<string>, from: nat)
    requires Told(ids, from, e) && e.store.pending == []
    ensures Told(ids, from, Retain(e, tx, isMatch))
  {
    hide TrimTransactions;
    var r := Retain(e, tx, isMatch);
    if e.config.mode.RetainsTransaction(isMatch) && tx.txid !in Txids(e.store.txs) {
      var grown := e.store.(txs := e.store.txs + [tx]);
      ReplayTrim(e.config, grown);
      var told, stored, evicted := e.events[from..], [TransactionStored(tx.txid)], EvictionEvents(r.store.pending);
      assert told + EvictionEvents([]) == told && r.store.pending[0..] == r.store.pending;
      assert r.events[from..] + evicted == told + (stored + evicted);
      ReplayConcat(ids, told, stored + evicted);
      ReplayConcat(Txids(e.store.txs), stored, evicted);
      ReplaySingle(Txids(e.store.txs), TransactionStored(tx.txid));
      assert Txids(grown.txs) == Txids(e.store.txs) + [tx.txid];
    }
  }

  /** A store that changed no transaction and evicted none tells the same. */
  lemma StoreTells(e: Engine, store: Store, ids: seq<string>, from: nat)
    requires Told(ids, from, e) && store.txs == e.store.txs && e.store.pending <= store.pending
    requires Silent(EvictionEvents(store.pending[|e.store.pending|..]))
    ensures Told(ids, from, e.(store := store))
  {
    hide Silent, Replay;
    var told, pending := e.events[from..], EvictionEvents(e.store.pending);
    var extra := EvictionEvents(store.pending[|e.store.pending|..]);
    assert store.pending == e.store.pending + store.pending[|e.store.pending|..];
    assert EvictionEvents(store.pending) == pending + extra;
    assert told + (pending + extra) == (told + pending) + extra;
    ReplayConcat(ids, told + pending, extra);
    ReplaySilent(Replay(ids, told + pending), extra);
  }

  lemma MatchTells(e: Engine, m: Match, ids: seq<string>, from: nat)
    requires Told(ids, from, e)
    ensures Told(ids, from, PublishOne(e, m))
  {
    hide TrimMatches, Told, EvictionEvents;
    var grown := e.store.(matches := e.store.matches + [m]);
    TrimMatchesSilent(e.config, grown);
    StoreTells(e, TrimMatches(e.config, grown), ids, from);
    var stored := if e.config.mode.RetainsMatches() then e.(store := InsertMatch(e.config, e.store, m)) else e;
    SilentEventTells(stored, MatchFound(m.matcherId, m.txid), ids, from);
  }

  lemma SilentInside(ids: seq<string>, told: seq<Event>, found: seq<Event>, pending: seq<Event>, extra: seq<Event>)
    requires Silent(found) && Silent(extra)
    ensures Replay(ids, ((told + found) + pending) + extra) == Replay(ids, told + pending)
  {
    ReplayConcat(ids, (told + found) + pending, extra);
    ReplaySilent(Replay(ids, (told + found) + pending), extra);
    ReplayConcat(ids, told + found, pending);
    ReplayConcat(ids, told, found);
    ReplaySilent(Replay(ids, told), found);
    ReplayConcat(ids, told, pending);
  }

  lemma {:induction false} PublishTells(e: Engine, matches: seq<Match>, ids: seq<string>, from: nat)
    requires Told(ids, from, e)
    ensures Told(ids, from, Publish(e, matches))
    decreases matches
  {
    hide Told, PublishOne;
    if matches != [] {
      MatchTells(e, matches[0], ids, from);
      PublishTells(PublishOne(e, matches[0]), matches[1..], ids, from);
    }
  }

  lemma ReportTells(e: Engine, ids: seq<string>, from: nat)
    requires Told(ids, from, e)
    ensures Told(ids, from, ReportEvictions(e)) && ReportEvictions(e).store.pending == []
  {
    var r := ReportEvictions(e);
    assert r.events[from..] + EvictionEvents([]) == e.events[from..] + EvictionEvents(e.store.pending);
  }

  lemma SilentEventTells(e: Engine, event: Event, ids: seq<string>, from: nat)
    requires Told(ids, from, e) && Silent([event])
    ensures Told(ids, from, e.(events := e.events + [event]))
  {
    hide Replay;
    var told, pending := e.events[from..], EvictionEvents(e.store.pending);
    SilentInside(ids, told, [event], pending, []);
    assert (e.events + [event])[from..] == told + [event];
    assert ((told + [event]) + pending) + [] == (told + [event]) + pending;
  }

  lemma IngestTransactionTells(e: Engine, tx: Transaction, order: seq<Matcher>, ids: seq<string>, from: nat)
    requires Told(ids, from, e) && e.store.pending == []
    ensures var next := IngestTransaction(e, tx, order).0; Told(ids, from, next) && next.store.pending == []
  {
    hide Told, Purge, Retain, Publish, ReportEvictions, Observe;
    PurgeTells(e, tx.observedAtMs, ids, from);
    var purged := Purge(e, tx.observedAtMs);
    var (recent, isNew) := Observe(purged.recent, e.config.dedupeWindow, tx.txid);
    var seen, matches := purged.(recent := recent), Scan(tx, order);
    WindowTells(purged, recent, ids, from);
    var kept := Retain(seen, tx, matches != []);
    RetainTells(seen, tx, matches != [], ids, from);
    PublishTells(kept, matches, ids, from);
    ReportTells(Publish(kept, matches), ids, from);
  }

  lemma WindowTells(e: Engine, recent: seq<string>, ids: seq<string>, from: nat)
    requires Told(ids, from, e)
    ensures Told(ids, from, e.(recent := recent))
  {
  }

  lemma IngestBlockTells(e: Engine, block: Block, ids: seq<string>, from: nat)
    requires Told(ids, from, e) && e.store.pending == []
    ensures var next := IngestBlock(e, block).0; Told(ids, from, next) && next.store.pending == []
  {
    hide Purge, TrimBlocks, Told, EvictionEvents;
    PurgeTells(e, block.observedAtMs, ids, from);
    var purged := Purge(e, block.observedAtMs);
    var grown := purged.store.(blocks := purged.store.blocks + [block]);
    TrimBlocksSilent(e.config, grown);
    StoreTells(purged, TrimBlocks(e.config, grown), ids, from);
    var stored := if e.config.mode.RetainsBlocks()
                  then purged.(store := InsertBlock(e.config, purged.store, block).0) else purged;
    SilentEventTells(stored, BlockSeen(block.hash), ids, from);
    ReportTells(stored.(events := stored.events + [BlockSeen(block.hash)]), ids, from);
  }

  lemma {:induction false} TransactionsTell(e: Engine, txs: seq<Transaction>, order: seq<Matcher>, ids: seq<string>, from: nat)
    requires Told(ids, from, e) && e.store.pending == []
    ensures var next := IngestTransactions(e, txs, order).0; Told(ids, from, next) && next.store.pending == []
    decreases txs
  {
    hide Told, IngestTransaction;
    if txs != [] {
      IngestTransactionTells(e, txs[0], order, ids, from);
      TransactionsTell(IngestTransaction(e, txs[0], order).0, txs[1..], order, ids, from);
    }
  }

  lemma {:induction false} BatchesTell(e: Engine, batches: seq<Batch>, order: seq<Matcher>, ids: seq<string>, from: nat)
    requires Told(ids, from, e) && e.store.pending == []
    ensures var next := IngestBatches(e, batches, order).0; Told(ids, from, next) && next.store.pending == []
    decreases batches
  {
    hide Told, IngestBlock, IngestTransactions;
    if batches != [] {
      IngestBlockTells(e, batches[0].block, ids, from);
      TransactionsTell(IngestBlock(e, batches[0].block).0, batches[0].transactions, order, ids, from);
      BatchesTell(IngestBatch(e, batches[0], order).0, batches[1..], order, ids, from);
    }
  }

  /** Operations that report every change of the stored transactions: all but
      reorganisations, restores, clearing and draining the events. */
  predicate Reports(op: Operation) {
    !op.OpReconcile? && !op.OpRestoreState? && !op.OpRestoreSnapshot? && !op.OpClear? && !op.OpDrainEvents?
  }

  lemma ApplyTells(e: Engine, op: Operation, ids: seq<string>, from: nat)
    requires Told(ids, from, e) && e.store.pending == [] && Reports(op)
    ensures Told(ids, from, Apply(e, op)) && Apply(e, op).store.pending == []
  {
    hide Replay, IngestTransaction, IngestBlock, Purge;
    match op
    case OpIngestTransaction(tx, order) => IngestTransactionTells(e, tx, order, ids, from);
    case OpIngestBlock(block) => IngestBlockTells(e, block, ids, from);
    case OpPurge(now) => PurgeTells(e, now, ids, from);
    case OpCheckpoint(checkpoint) => SilentEventTells(e, CheckpointSet(checkpoint), ids, from);
    case OpSync(batches, checkpoint, order) =>
      hide IngestBatches, Told;
      BatchesTell(e, batches, order, ids, from);
      SilentEventTells(IngestBatches(e, batches, order).0, CheckpointSet(checkpoint), ids, from);
    case _ =>
  }

  lemma {:induction false} RunTells(e: Engine, ops: seq<Operation>, ids: seq<string>, from: nat)
    requires Told(ids, from, e) && e.store.pending == [] && forall i :: 0 <= i < |ops| ==> Reports(ops[i])
    ensures Told(ids, from, Run(e, ops)) && Run(e, ops).store.pending == []
    decreases ops
  {
    hide Told, Apply;
    if ops != [] {
      ApplyTells(e, ops[0], ids, from);
      RunTells(Apply(e, ops[0]), ops[1..], ids, from);
    }
  }

  /** Over every run of reporting operations, replaying the new events on the
      ids stored before gives the ids stored after, in order. */
  lemma EventsTellTheStore(e: Engine, ops: seq<Operation>)
    requires Inv(e) && forall i :: 0 <= i < |ops| ==> Reports(ops[i])
    ensures var end := Run(e, ops);
            |e.events| <= |end.events| && Replay(Txids(e.store.txs), end.events[|e.events|..]) == Txids(end.store.txs)
  {
    var ids, from := Txids(e.store.txs), |e.events|;
    assert e.events[from..] + EvictionEvents([]) == [];
    RunTells(e, ops, ids, from);
    var end := Run(e, ops);
    assert end.events[from..] + EvictionEvents([]) == end.events[from..];
  }
}
