/** What every run of the indexer keeps. */
module IndexerRuns {
  import opened Common
  import opened IndexerTypes
  import opened IndexerDedupe
  import opened IndexerStore
  import opened IndexerEngine
  import opened IndexerInvariant
  import opened IndexerRestore

  datatype Operation =
    | OpAddMatcher(rule: MatchRule)
    | OpRemoveMatcher(id: uint64)
    | OpIngestTransaction(tx: Transaction, order: seq<Matcher>)
    | OpIngestBlock(block: Block)
    | OpPurge(now: uint64)
    | OpCheckpoint(checkpoint: Checkpoint)
    | OpSync(batches: seq<Batch>, checkpoint: Checkpoint, order: seq<Matcher>)
    | OpReconcile(delta: Delta, order: seq<Matcher>)
    | OpRestoreState(state: Persisted)
    | OpRestoreSnapshot(snapshot: Snapshot)
    | OpClear
    | OpDrainEvents

  function Apply(e: Engine, op: Operation): Engine {
    match op
    case OpAddMatcher(rule) => AddMatcher(e, rule).0
    case OpRemoveMatcher(id) => RemoveMatcher(e, id).0
    case OpIngestTransaction(tx, order) => IngestTransaction(e, tx, order).0
    case OpIngestBlock(block) => IngestBlock(e, block).0
    case OpPurge(now) => Purge(e, now)
    case OpCheckpoint(checkpoint) => SetCheckpoint(e, checkpoint).0
    case OpSync(batches, checkpoint, order) => ApplySyncBatches(e, batches, checkpoint, order).0
    case OpReconcile(delta, order) => Reconcile(e, delta, order).0
    case OpRestoreState(state) => RestoreState(e, state).0
    case OpRestoreSnapshot(snapshot) => RestoreSnapshotInto(e, snapshot).0
    case OpClear => Cleared(e)
    case OpDrainEvents => e.(events := [])
  }

  function Run(e: Engine, ops: seq<Operation>): Engine
    decreases ops
  {
    if ops == [] then e else Run(Apply(e, ops[0]), ops[1..])
  }

  /** What is restored does no harm; nothing else is asked of a caller. */
  predicate Safe(c: Config, op: Operation) {
    match op
    case OpRestoreState(state) => Harmless(c, state)
    case OpRestoreSnapshot(snapshot) => AdmittedSnapshot(c, snapshot) ==> NamesSurvivors(c, snapshot)
    case _ => true
  }

  /** An operation keeps the invariant exactly when it is safe. */
  lemma ApplyKeepsExactly(e: Engine, op: Operation)
    requires Inv(e)
    ensures Inv(Apply(e, op)) <==> Safe(e.config, op)
    ensures Apply(e, op).config == e.config
  {
    hide Inv, Harmless, NamesSurvivors, IngestTransaction, IngestBlock, ApplySyncBatches, Reconcile, RestoreState, Consistent, Purge, AddMatcher,
      RemoveMatcher, SetCheckpoint, RestoreSnapshotInto, AdmittedSnapshot;
    match op
    case OpAddMatcher(rule) => AddMatcherKeeps(e, rule);
    case OpRemoveMatcher(id) => RemoveMatcherKeeps(e, id);
    case OpIngestTransaction(tx, order) => IngestTransactionKeeps(e, tx, order);
    case OpIngestBlock(block) => IngestBlockKeeps(e, block);
    case OpPurge(now) => PurgeKeepsInv(e, now);
    case OpCheckpoint(checkpoint) => SetCheckpointKeeps(e, checkpoint);
    case OpSync(batches, checkpoint, order) => ApplySyncKeeps(e, batches, checkpoint, order);
    case OpReconcile(delta, order) => ReconcileKeeps(e, delta, order);
    case OpRestoreState(state) =>
      RestoreKeepsExactly(e, state);
      RestoreKeepsConfig(e, state);
    case OpRestoreSnapshot(snapshot) =>
      RestoreSnapshotKeepsExactly(e, snapshot);
      SnapshotKeepsConfig(e, snapshot);
    case OpClear => ClearKeeps(e);
    case OpDrainEvents => DrainKeeps(e);
  }

  lemma DrainKeeps(e: Engine)
    requires Inv(e)
    ensures Inv(e.(events := []))
  {
  }

  lemma RestoreKeepsConfig(e: Engine, state: Persisted)
    ensures RestoreState(e, state).0.config == e.config
  {
  }

  lemma SnapshotKeepsConfig(e: Engine, snapshot: Snapshot)
    ensures RestoreSnapshotInto(e, snapshot).0.config == e.config
  {
  }

  /** After every run of a new engine, in every mode: each stored key is listed
      once, all three counts are within the limits, every stored match names a
      stored transaction, and no eviction is left unreported. What is restored in
      between, from anywhere, must be harmless under the configuration. */
  lemma EveryRunIsConsistent(config: Config, ops: seq<Operation>)
    requires config.Valid() && forall i :: 0 <= i < |ops| ==> Safe(config, ops[i])
    ensures Inv(Run(NewEngine(config), ops))
  {
    NewEngineIsSound(config);
    RunKeeps(NewEngine(config), ops);
  }

  lemma {:induction false} RunKeeps(e: Engine, ops: seq<Operation>)
    requires Inv(e) && forall i :: 0 <= i < |ops| ==> Safe(e.config, ops[i])
    ensures Inv(Run(e, ops)) && Run(e, ops).config == e.config
    decreases ops
  {
    hide Inv, Apply, Safe;
    if ops != [] {
      ApplyKeepsExactly(e, ops[0]);
      RunKeeps(Apply(e, ops[0]), ops[1..]);
    }
  }

  /** The state of one reachable engine is restored in another of the same
      configuration, wherever that one stands. */
  lemma ReachableStatesRestore(config: Config, ops: seq<Operation>, others: seq<Operation>)
    requires config.Valid()
    requires forall i :: 0 <= i < |ops| ==> Safe(config, ops[i])
    requires forall i :: 0 <= i < |others| ==> Safe(config, others[i])
    ensures var e, f := Run(NewEngine(config), ops), Run(NewEngine(config), others);
            && Safe(config, OpRestoreState(PersistedState(e)))
            && RestoreState(f, PersistedState(e)).1.Ok?
            && PersistedState(Apply(f, OpRestoreState(PersistedState(e)))) == PersistedState(e)
  {
    hide Inv, Run, RestoreState, Harmless;
    var e, f := Run(NewEngine(config), ops), Run(NewEngine(config), others);
    NewEngineIsSound(config);
    RunKeeps(NewEngine(config), ops);
    RunKeeps(NewEngine(config), others);
    RestorePersisted(e, f);
    PersistedIsHarmless(e);
  }
}
