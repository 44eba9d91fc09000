/** The indexer engine as operations on its value (src/indexer/engine.rs).
    Metrics, health and the running flag are not part of the value.

    A scan visits the matchers in the iteration order of their hash map; that
    order is an argument, `order`, of every operation that scans. */
module IndexerEngine {
  import opened Common
  import opened IndexerTypes
  import opened IndexerDedupe
  import opened IndexerStore

  datatype Event =
    | TransactionStored(txid: string)
    | BlockSeen(hash: string)
    | MatchFound(matcherId: uint64, txid: string)
    | Evicted(eviction: Eviction)
    | CheckpointSet(checkpoint: Checkpoint)
    | Reconciled(removedBlocks: nat, acceptedBlocks: nat)

  datatype IndexerError =
    | InvalidRule
    | MatcherLimit
    | MatcherIdExhausted
    | EmptyBlockHash
    | InvalidTransaction
    | InvalidCheckpoint
    | TooManyBatches
    | EmptyRemovedHash
    | UnsupportedSchema
    | InvalidMatchers

  datatype Engine = Engine(
    config: Config, store: Store, recent: seq<string>, matchers: map<uint64, Matcher>,
    nextMatcherId: uint64, checkpoint: Checkpoint, events: seq<Event>)

  function NewEngine(config: Config): Engine {
    Engine(config, EMPTY_STORE, [], map[], 1, NO_CHECKPOINT, [])
  }

  // ----- Matchers -----

  function AddMatcher(e: Engine, rule: MatchRule): (Engine, Result<uint64, IndexerError>) {
    if !rule.Valid() then (e, Err(InvalidRule))
    else if |e.matchers| >= MAX_MATCHERS then (e, Err(MatcherLimit))
    else if e.nextMatcherId == MAX_UINT64 then (e, Err(MatcherIdExhausted))
    else
      var id := e.nextMatcherId;
      (e.(nextMatcherId := id + 1, matchers := e.matchers[id := Matcher(id, rule)]), Ok(id))
  }

  function RemoveMatcher(e: Engine, id: uint64): (Engine, bool) {
    (e.(matchers := e.matchers - {id}), id in e.matchers)
  }

  // ----- One record -----

  function TtlEvents(ids: seq<string>): (events: seq<Event>)
    ensures |events| == |ids|
  {
    seq(|ids|, i requires 0 <= i < |ids| => Evicted(Eviction(TransactionTtl, ids[i], None)))
  }

  function EvictionEvents(evictions: seq<Eviction>): (events: seq<Event>)
    ensures |events| == |evictions|
  {
    seq(|evictions|, i requires 0 <= i < |evictions| => Evicted(evictions[i]))
  }

  function Purge(e: Engine, now: uint64): Engine {
    var (store, ids) := PurgeExpired(e.config, e.store, now);
    e.(store := store, events := e.events + TtlEvents(ids))
  }

  /** Moves the size evictions from the store to the events. */
  function ReportEvictions(e: Engine): Engine {
    e.(store := e.store.(pending := []), events := e.events + EvictionEvents(e.store.pending))
  }

  function Retain(e: Engine, tx: Transaction, isMatch: bool): Engine {
    if !e.config.mode.RetainsTransaction(isMatch) then e
    else
      var (store, isNew) := InsertTransaction(e.config, e.store, tx);
      if isNew then e.(store := store, events := e.events + [TransactionStored(tx.txid)]) else e.(store := store)
  }

  function PublishOne(e: Engine, m: Match): Engine {
    var stored := if e.config.mode.RetainsMatches() then e.(store := InsertMatch(e.config, e.store, m)) else e;
    stored.(events := stored.events + [MatchFound(m.matcherId, m.txid)])
  }

  function Publish(e: Engine, matches: seq<Match>): Engine
    decreases matches
  {
    if matches == [] then e else Publish(PublishOne(e, matches[0]), matches[1..])
  }

  function IngestTransaction(e: Engine, tx: Transaction, order: seq<Matcher>): (Engine, Result<seq<Match>, IndexerError>) {
    if !e.config.Admits(tx) then (e, Err(InvalidTransaction))
    else
      var purged := Purge(e, tx.observedAtMs);
      var (recent, isNew) := Observe(purged.recent, e.config.dedupeWindow, tx.txid);
      var seen := purged.(recent := recent);
      if !isNew then (seen, Ok([]))
      else
        var matches := Scan(tx, order);
        (ReportEvictions(Publish(Retain(seen, tx, matches != []), matches)), Ok(matches))
  }

  function IngestBlock(e: Engine, block: Block): (Engine, Result<(), IndexerError>) {
    if Blank(block.hash) then (e, Err(EmptyBlockHash))
    else
      var purged := Purge(e, block.observedAtMs);
      var stored := if e.config.mode.RetainsBlocks()
                    then purged.(store := InsertBlock(e.config, purged.store, block).0) else purged;
      (ReportEvictions(stored.(events := stored.events + [BlockSeen(block.hash)])), Ok(()))
  }

  function SetCheckpoint(e: Engine, checkpoint: Checkpoint): (Engine, Result<(), IndexerError>) {
    if !checkpoint.Valid() then (e, Err(InvalidCheckpoint))
    else (e.(checkpoint := checkpoint, events := e.events + [CheckpointSet(checkpoint)]), Ok(()))
  }

  // ----- Batches -----

  datatype Batch = Batch(block: Block, transactions: seq<Transaction>)

  /** What a list of batches added. */
  datatype Added = Added(blocks: nat, transactions: nat, matches: nat)

  const MAX_BATCHES: nat := 100_000

  /** A result with `n` more matches. */
  function Counting(n: nat, end: (Engine, Result<nat, IndexerError>)): (Engine, Result<nat, IndexerError>) {
    (end.0, match end.1 case Ok(more) => Ok(n + more) case Err(error) => Err(error))
  }

  /** A result with `added` more records. */
  function Adding(added: Added, end: (Engine, Result<Added, IndexerError>)): (Engine, Result<Added, IndexerError>) {
    (end.0, match end.1
            case Err(error) => Err(error)
            case Ok(more) => Ok(Added(added.blocks + more.blocks, added.transactions + more.transactions,
                                      added.matches + more.matches)))
  }

  /** The transactions in order, stopping at the first error, and how many
      matches they had. */
  function IngestTransactions(e: Engine, txs: seq<Transaction>, order: seq<Matcher>): (Engine, Result<nat, IndexerError>)
    decreases txs
  {
    if txs == [] then (e, Ok(0))
    else
      var (next, first) := IngestTransaction(e, txs[0], order);
      match first
      case Err(error) => (next, Err(error))
      case Ok(matches) => Counting(|matches|, IngestTransactions(next, txs[1..], order))
  }

  function IngestBatch(e: Engine, batch: Batch, order: seq<Matcher>): (Engine, Result<nat, IndexerError>) {
    var (next, done) := IngestBlock(e, batch.block);
    match done
    case Err(error) => (next, Err(error))
    case Ok(_) => IngestTransactions(next, batch.transactions, order)
  }

  function Grown(before: nat, after: nat): nat {
    if after >= before then after - before else 0
  }

  function IngestBatches(e: Engine, batches: seq<Batch>, order: seq<Matcher>): (Engine, Result<Added, IndexerError>)
    decreases batches
  {
    if batches == [] then (e, Ok(Added(0, 0, 0)))
    else
      var (next, first) := IngestBatch(e, batches[0], order);
      match first
      case Err(error) => (next, Err(error))
      case Ok(matches) =>
        Adding(Added(Grown(|e.store.blocks|, |next.store.blocks|), Grown(|e.store.txs|, |next.store.txs|), matches),
               IngestBatches(next, batches[1..], order))
  }

  function ApplySyncBatches(e: Engine, batches: seq<Batch>, checkpoint: Checkpoint, order: seq<Matcher>)
    : (Engine, Result<Added, IndexerError>)
  {
    if !checkpoint.Valid() then (e, Err(InvalidCheckpoint))
    else if |batches| > MAX_BATCHES then (e, Err(TooManyBatches))
    else
      var (next, done) := IngestBatches(e, batches, order);
      match done
      case Err(error) => (next, Err(error))
      case Ok(added) =>
        var (end, _) := SetCheckpoint(next, checkpoint);
        (end, Ok(Added(Grown(|e.store.blocks|, |next.store.blocks|), Grown(|e.store.txs|, |next.store.txs|), added.matches)))
  }

  // ----- Reorganisations -----

  datatype Delta = Delta(removedBlockHashes: seq<string>, accepted: seq<Batch>, checkpoint: Checkpoint)

  datatype Report = Report(removedBlocks: nat, removedTransactions: nat, removedMatches: nat, added: Added)

  function ValidateDelta(d: Delta): Result<(), IndexerError> {
    if !d.checkpoint.Valid() then Err(InvalidCheckpoint)
    else if exists i :: 0 <= i < |d.removedBlockHashes| && Blank(d.removedBlockHashes[i]) then Err(EmptyRemovedHash)
    else if |d.removedBlockHashes| > MAX_BATCHES || |d.accepted| > MAX_BATCHES then Err(TooManyBatches)
    else Ok(())
  }

  /** The window rebuilt from the stored transactions alone. */
  function RebuildRecent(e: Engine): Engine {
    e.(recent := ObserveAll([], e.config.dedupeWindow, Txids(e.store.txs)))
  }

  function RemoveOrphans(e: Engine, removed: set<string>): Engine {
    RebuildRecent(e.(store := RemoveChainBlocks(e.store, removed)))
  }

  function Reconcile(e: Engine, d: Delta, order: seq<Matcher>): (Engine, Result<Report, IndexerError>) {
    match ValidateDelta(d)
    case Err(error) => (e, Err(error))
    case Ok(_) =>
      var pruned := RemoveOrphans(e, ToSet(d.removedBlockHashes));
      var (next, done) := IngestBatches(pruned, d.accepted, order);
      match done
      case Err(error) => (next, Err(error))
      case Ok(added) =>
        var removedBlocks := Grown(|pruned.store.blocks|, |e.store.blocks|);
        var (marked, _) := SetCheckpoint(next, d.checkpoint);
        (marked.(events := marked.events + [Reconciled(removedBlocks, added.blocks)]),
         Ok(Report(removedBlocks, Grown(|pruned.store.txs|, |e.store.txs|),
                   Grown(|pruned.store.matches|, |e.store.matches|), added)))
  }

  // ----- Persisted state -----

  const SCHEMA: nat := 1

  datatype Persisted = Persisted(schema: nat, snapshot: Snapshot, checkpoint: Checkpoint, matchers: seq<Matcher>)

  /** The matchers with an id below `n`, by ascending id. */
  function MatchersBelow(matchers: map<uint64, Matcher>, n: uint64): seq<Matcher> {
    if n == 0 then []
    else MatchersBelow(matchers, n - 1) + if n - 1 in matchers then [matchers[n - 1]] else []
  }

  /** All matchers by ascending id. */
  function SortedMatchers(matchers: map<uint64, Matcher>): seq<Matcher> {
    MatchersBelow(matchers, MAX_UINT64) + if MAX_UINT64 in matchers then [matchers[MAX_UINT64]] else []
  }

  function PersistedState(e: Engine): Persisted {
    Persisted(SCHEMA, TakeSnapshot(e.store), e.checkpoint, SortedMatchers(e.matchers))
  }

  predicate ValidMatchers(matchers: seq<Matcher>) {
    && |matchers| <= MAX_MATCHERS
    && (forall i :: 0 <= i < |matchers| ==> matchers[i].rule.Valid() && matchers[i].id != 0)
    && (forall i, j :: 0 <= i < j < |matchers| ==> matchers[i].id != matchers[j].id)
  }

  predicate AdmittedSnapshot(c: Config, snapshot: Snapshot) {
    && (forall i :: 0 <= i < |snapshot.transactions| ==> c.Admits(snapshot.transactions[i]))
    && (forall i :: 0 <= i < |snapshot.blocks| ==> !Blank(snapshot.blocks[i].hash))
  }

  function ById(matchers: seq<Matcher>): map<uint64, Matcher> {
    if matchers == [] then map[]
    else ById(matchers[..|matchers| - 1])[matchers[|matchers| - 1].id := matchers[|matchers| - 1]]
  }

  /** The largest id of a list of matchers, 0 when there is none. */
  function LargestId(matchers: seq<Matcher>): (id: uint64)
    ensures forall i :: 0 <= i < |matchers| ==> matchers[i].id <= id
    ensures id == 0 || exists i :: 0 <= i < |matchers| && matchers[i].id == id
  {
    if matchers == [] then 0
    else
      var rest := LargestId(matchers[..|matchers| - 1]);
      var last := matchers[|matchers| - 1].id;
      if last > rest then last else rest
  }

  /** A failing restore may already have replaced the store and the matchers. */
  function RestoreState(e: Engine, state: Persisted): (Engine, Result<(), IndexerError>) {
    if state.schema != SCHEMA then (e, Err(UnsupportedSchema))
    else if !state.checkpoint.Valid() then (e, Err(InvalidCheckpoint))
    else if !ValidMatchers(state.matchers) then (e, Err(InvalidMatchers))
    else if !AdmittedSnapshot(e.config, state.snapshot) then (e, Err(InvalidTransaction))
    else
      var filled := e.(store := Restore(e.config, state.snapshot), matchers := ById(state.matchers));
      var largest := LargestId(state.matchers);
      if largest == MAX_UINT64 then (filled, Err(MatcherIdExhausted))
      else
        (RebuildRecent(filled.(nextMatcherId := largest + 1, checkpoint := state.checkpoint)).(events := []), Ok(()))
  }

  /** Replaces the store alone. */
  function RestoreSnapshotInto(e: Engine, snapshot: Snapshot): (Engine, Result<(), IndexerError>) {
    if !AdmittedSnapshot(e.config, snapshot) then (e, Err(InvalidTransaction))
    else (RebuildRecent(e.(store := Restore(e.config, snapshot))).(events := []), Ok(()))
  }

  /** Forgets everything but the matchers. */
  function Cleared(e: Engine): Engine {
    e.(store := EMPTY_STORE, recent := [], events := [], checkpoint := NO_CHECKPOINT)
  }
}
