# Verification of kaspa-portal

A Dafny model of five cores of kaspa-portal, with proofs.

**Covenants.** Two parsers read the same script bytes. `CovenantResolver` is the flat pass that keeps, for every signature
key, masks of the IF/NOTIF/ELSE path above it. `CovenantParser` builds a tree, and `CovenantTrace` executes that tree
symbolically and lists the witness items an assignment of the selectors consumes. `CovenantAgreement` proves that the two
parsers see the same keys on the same paths; `CovenantSignatures` that the trace signs the resolver's matching keys;
`CovenantHeights` that the stack estimate of key-free blocks is exact. `CovenantOpcodes` says opcode by opcode what happens
to the items of a stack, and that the tracer's table of stack effects is exactly that. `CovenantMachine` is a concrete stack
machine that reads the bytes and works by those opcodes, `CovenantWitness` proves that the trace is the one witness that
machine runs on and uses up, and `CovenantRefusals` that what the tracer refuses no witness runs.

**Addresses.** `AddressBits` regroups bits through a 32-bit accumulator that loses its old bits, `AddressChecksum` is the
40-bit checksum of the CashAddr specification (section "Checksum"), `Address` the codec. `AddressField` proves that the
checksum is the remainder by the specification's polynomial over GF(32), and `AddressDetection` which mistyped addresses it
refuses. Machine words are natural numbers with the shifts and exclusive or of `Bits`.

**Indexer.** `IndexerStore` is the bounded store as sequences of records, `IndexerMemory` the class of maps and queues that
refines it, `IndexerDedupe` the window of recent ids, `IndexerEngine` the engine's operations as functions of its state and
`IndexerService` the class that refines them. `IndexerInvariant` is kept by every operation and `IndexerRuns` says what holds
over every run; `IndexerRestore`, `IndexerReorg` and `IndexerReplay` are about restored states, reorganisations and the event
log; `IndexerPurge` and `IndexerEvictions` say which records age and limits take away, `IndexerRules` what a scan finds,
`IndexerReports` when a synchronisation or reorganisation succeeds and what is then reported. The order in which the source
visits its hash map of matchers is an argument.

**Transport driver.** `WrpcDriver` is one pass of the driver loop as a function of its state and of what the environment
does in that pass (connects, sends, delivers frames, commands, deadlines), with a history of what it told others. `WrpcTask`
is the loop with its mutable variables, refining that function. `WrpcReplies` says what holds of calls over every run and
which frames their replies are, `WrpcOutcomes` what each failure does to calls, waiters and stream and in which order calls
are answered, `WrpcArrivals` what becomes of every notification that arrives, `WrpcSubscriptions` and
`WrpcAcknowledged` what is remembered and replayed; `WrpcCalls`, `WrpcNotifications` and `WrpcQuiet` hold the invariants
behind them. `WrpcClient` is the callers' retry.

**Codecs, trees, money and signatures.** `ScriptNumber` writes and reads pushes and script numbers. `MerkleScript` and
`ShippingEscrow` are template builders with their recognisers. `ScriptMachine` runs what they build against any spending
transaction; `MerkleTree` has roots and proofs for any hash, `MerkleMachine` says what spending the vault takes and
`EscrowSpending` what spending an escrow takes. `Withdrawal` prices a covenant withdrawal and searches for the largest.
`SchnorrGroup` is a group of prime order with an x-only map and BIP-340 verification (section "Verification") over it;
`Adaptor` and `AntiKlepto` are the two protocols built on it.

A function here is the specification of a method that loops and mutates as the source does; the method's contract equates
the two, and what the source promises is proved about the function.

Where the code and its own comments disagree, the model follows the code:

- `src/transaction/mass.rs:339-340` says that a fit is monotone in the amount. It is not, nor do the fitting amounts form
  one stretch, and `maximum_withdraw` can answer 0 although a withdrawal fits (`Withdrawal.AnswerCanMissEveryFit`).
  `Withdrawal.SearchAnswer` says exactly what it answers, `Withdrawal.AnswerReaches` when it answers enough.
- `src/contract/merkle/script.rs:139-140` documents direction 0 as the left child; the code uses 1 for it.
- `src/contract/merkle/script.rs:13-15` says that a whitelist spend binds output zero to the proved destination. The script
  compares output zero with another item of the witness, which nothing ties to the proved one; the two agree exactly when the
  spender offers the same destination in both places (`MerkleMachine.OutputIsProvedExactly`, `MerkleMachine.OutputCanDiffer`).

Behaviour a caller may not expect:

- `extract_cltv_locktime` fails on a vault whose locktime is 2^63 or more, which the vault's own recogniser reads
  (`MerkleScript.VaultLocktime`).
- A notification handed to a requester that gave up is gone (`WrpcArrivals.AFrameCanBeLost`), while a frame offered to a
  waiter that gave up goes to the next one.
- An indexer state with a match of no stored transaction is accepted, and a restore that runs out of matcher ids fails after
  it has replaced store and matchers (`IndexerRestore.DanglingMatchIsAccepted`, `IndexerRestore.ARefusalReplacesMatchers`).
- An escrow for a product below two sompi holds the same amount before and after pickup
  (`ShippingEscrow.StatesAreToldApart`).

## Model

| member | source | states |
|---|---|---|
| CovenantAgreement.ParsersAgree | src/contract/covenant/branch.rs:257-294 | the resolver accepts a script exactly when the tree parser does and no two keys share bytes and both masks; then position p is the same byte offset with the same path in both, and the selectors agree; refusals have the same reason unless a repeated key came first |
| CovenantAgreement.ParsersAgreeFrom | src/contract/covenant/execution.rs:175-207 | the same from any two mirrored states in the middle of a script |
| CovenantAgreement.TreeNumbersKeys | src/contract/covenant/execution.rs:146-164 | the tree numbers its keys 0, 1, ... in script order, one for each 32-byte push followed by a signature check, and never reuses a selector on a path |
| CovenantAgreement.StepMirrors | src/contract/covenant/branch.rs:259-273 | one element moves both parsers to mirrored states and the same offset, or fails alike |
| CovenantAgreement.KeyElement | src/contract/covenant/branch.rs:241-255 | a checked key is one element of the tree parser and two of the resolver |
| CovenantAgreement.EmitBindings | src/contract/covenant/execution.rs:96-105 | appending a node adds its keys, under the path of the open branches, after all others |
| CovenantParser.Parser.ParseInPlace | src/contract/covenant/execution.rs:194-208 | the loop over positions with skips parses exactly as the recursive specification |
| CovenantParser.Parser.ParseElementInPlace | src/contract/covenant/execution.rs:175-192 | one element: the new open branches, root, counters and the end of its operands |
| CovenantResolver.ResolveCovenantBranches | src/contract/covenant/branch.rs:284-298 | the walk over suffixes with fixed arrays resolves exactly as the specification |
| CovenantResolver.BranchParser.StepInPlace | src/contract/covenant/branch.rs:259-273 | one element: the new frames, masks and keys, and the width |
| CovenantHeights.PureEffectIsExact | src/contract/covenant/execution.rs:241-277 | `need` is the least height from which no outcome of the nested conditions underflows, and every outcome ends exactly `delta` higher, never below zero |
| CovenantHeights.StepIsExact | src/contract/covenant/execution.rs:244-266 | one node moves the running depth and need exactly |
| CovenantTrace.ComputePureEffect | src/contract/covenant/execution.rs:242-268 | the loop computes the effect of a key-free block |
| CovenantTrace.Walk.Run | src/contract/covenant/execution.rs:304-306 | the walk over a block updates produced and items as specified, or fails with that error |
| CovenantTrace.Walk.Step | src/contract/covenant/execution.rs:308-361 | the walk over a node, branches included |
| CovenantTrace.TraceWitness | src/contract/covenant/execution.rs:365-392 | parsing, checking the selector masks and walking give the specified trace |
| CovenantOpcodes.StackEffectIsExact | src/contract/covenant/execution.rs:210-231 | the tracer knows an effect of an opcode exactly when the opcode, told on its own terms as what it does to named items, always needs that many items and leaves that many, each new or one of those, in their place |
| CovenantOpcodes.EffectHolds | src/contract/covenant/execution.rs:210-231 | an opcode with a known effect works on a stack exactly when the items it takes are the script's own, keeps everything below them and leaves as many as told |
| CovenantOpcodes.NumberDecides | src/contract/covenant/execution.rs:229 | picking and rolling have no fixed effect: how deep they reach is the number on top |
| CovenantOpcodes.OperatedErased | src/contract/covenant/execution.rs:175-207 | which element pushed an item makes no difference to any opcode |
| CovenantSignatures.TraceSignsTheMatchingKeys | src/contract/covenant/branch.rs:49-53 | the signatures of a trace are, in ascending order, exactly the resolver positions whose key matches the assignment |
| CovenantSignatures.TakenAreMatching | src/contract/covenant/branch.rs:50-53 | a key lies on the assigned path exactly when `matches_selectors` accepts |
| CovenantMachine.ParsingKeepsExecution | src/contract/covenant/execution.rs:194-208 | on every witness and under every outcome of computed conditions, the machine on the bytes and the execution of the parsed tree stop together or end alike |
| CovenantMachine.RunsInStep | src/contract/covenant/execution.rs:175-207 | the same from any state in the middle of a script |
| CovenantMachine.KeyInStep | src/contract/covenant/execution.rs:146-164 | a key node does what its push and its check do in turn |
| CovenantWitness.TraceIsTheWitness | src/contract/covenant/execution.rs:289-392 | the listed items are the one witness that runs the script along the assigned path and is used up, spent in the listed order, under every outcome of the conditions whose arms hold no key check; less or other witness stops the machine |
| CovenantWitness.NodeConsumes | src/contract/covenant/execution.rs:308-361 | executing a node takes from any witness exactly the items the walk lists for it, or stops |
| CovenantWitness.PureBlockRuns | src/contract/covenant/execution.rs:347-360 | with `need` items below it a key-free block touches no witness, whatever its conditions turn out to be |
| CovenantRefusals.RefusedHasNoWitness | src/contract/covenant/execution.rs:289-388 | conversely, what the tracer refuses for want of items or for a signature out of place no witness runs along the assigned path, however computed conditions turn out, unless it stops at a branch without keys; and an unsupported opcode is one without a fixed effect |
| CovenantRefusals.NodesRefused | src/contract/covenant/execution.rs:304-361 | the same for a list of nodes, from any state of the walk |
| CovenantRefusals.KeyFreeRefusals | src/contract/covenant/execution.rs:354-359 | a branch without keys is refused as dependent on data exactly when its arms end at different heights, and for want of items exactly when an arm may underflow |
| ScriptElements.ReadFromSuffix | src/primitives/script.rs:24-46 | reading an element depends only on the bytes from its offset on |
| ScriptElements.Elements.Next | src/primitives/script.rs:79-93 | the iterator advances over one element, or marks the script malformed and stays |
| ScriptElements.CompleteElements | src/contract/script/mod.rs:17-23 | draining the iterator gives every element exactly when all are well formed |
| AddressBits.PadMeans | src/primitives/address/mod.rs:393-422 | with padding, the conversion answers exactly the zero-padded regrouping of the bits |
| AddressBits.NoPadMeans | src/primitives/address/mod.rs:393-422 | without padding, it succeeds on exactly the values that are such a regrouping |
| AddressBits.DrainMeans | src/primitives/address/mod.rs:405-412 | draining the accumulator emits its high bits and keeps the rest, although older bits were shifted out |
| AddressBits.ComputeConvertBits | src/primitives/address/mod.rs:393-422 | the loops over accumulator and buffer compute the conversion, its errors included |
| AddressChecksum.ChecksumIsUnique | src/primitives/address/mod.rs:357-377 | for every prefix and every payload of symbols exactly one tail of eight symbols verifies, the created checksum |
| AddressChecksum.StatesFit | src/primitives/address/mod.rs:379-391 | the state stays below 2^40 after every symbol |
| AddressChecksum.PolymodIsLinear | src/primitives/address/mod.rs:379-391 | the checksum of a symbolwise exclusive or is the exclusive or of the checksums |
| AddressChecksum.ComputePolymod | src/primitives/address/mod.rs:379-391 | the loop over symbols and generators computes the checksum |
| AddressField.SpelledIsPower | src/primitives/address/mod.rs:8-14 | symbol by symbol each of the five constants is the one before it times x in GF(32), and the first spells the coefficients of the specification's generator |
| AddressField.StepIsRemainder | src/primitives/address/mod.rs:379-391 | one symbol more multiplies the checksum's polynomial by x, adds the symbol and takes away the leading coefficient times the generator, in GF(32) |
| AddressField.ChecksumIsRemainder | src/primitives/address/mod.rs:379-391 | the checksum of any symbols is the remainder by the generator of the polynomial they spell after a leading 1: quotient times generator plus checksum is that polynomial |
| AddressDetection.StepIsInjective | src/primitives/address/mod.rs:379-391 | the state before a symbol can be told from the state after it |
| AddressDetection.BurstsAreDetected | src/primitives/address/mod.rs:379-391 | up to eight consecutive symbols are determined by the checksum and the symbols around them |
| AddressDetection.MistypedSymbolsAreRefused | src/primitives/address/mod.rs:357-367 | of symbols that verify under a prefix, none is another one with up to eight consecutive symbols wrong |
| AddressDetection.MistypedAddressesAreRefused | src/primitives/address/mod.rs:357-367 | an accepted address never becomes another accepted one of its prefix by mistyping up to eight consecutive characters |
| AddressDetection.NetworksAreApart | src/primitives/address/mod.rs:357-367 | symbols that verify under the prefix of one network verify under no other |
| AddressDetection.OneNetworkOnly | src/primitives/address/mod.rs:357-367 | no data are an accepted address of two networks |
| Address.DecodeEncode | src/primitives/address/mod.rs:272-330 | decoding an encoded address of a legal payload gives back prefix, version and payload |
| Address.EncodeDecode | src/primitives/address/mod.rs:272-330 | re-encoding what an accepted string decodes to gives that string |
| Address.DecoderAcceptsExactlyEncodings | src/primitives/address/mod.rs:272-298 | a string is accepted exactly when it is the encoding of something legal |
| Address.ConversionsAreInverse | src/primitives/address/mod.rs:284-293 | regrouping to symbols and back are inverse, the zero padding included |
| Address.CharsRoundTrip | src/primitives/address/mod.rs:345-355 | characters and symbols spell each other |
| Address.EncodeAddressBytes | src/primitives/address/mod.rs:312-330 | the encoder's loop builds the encoding |
| Address.DecodeAddressBytes | src/primitives/address/mod.rs:272-298 | the decoder answers as specified, with the same error in the same case |
| IndexerDedupe.WindowIsLastAccepted | src/indexer/storage/dedupe.rs:22-44 | the window is the last `capacity` accepted keys, so a key is refused exactly when it is among them |
| IndexerDedupe.DistinctAllAccepted | src/indexer/storage/dedupe.rs:22-31 | distinct new keys are all accepted |
| IndexerDedupe.RecentKeys.ObserveInPlace | src/indexer/storage/dedupe.rs:22-31 | set and queue stay in step and observe as specified |
| IndexerStore.TrimTransactionsKeeps | src/indexer/storage/memory.rs:139-151 | trimming keeps the newest transactions and no match of a dropped one |
| IndexerStore.InsertTransactionKeeps | src/indexer/storage/memory.rs:180-189 | a new transaction is stored last, a known one changes nothing, and the store stays consistent |
| IndexerStore.InsertBlockKeeps | src/indexer/storage/memory.rs:191-200 | the same for blocks |
| IndexerStore.InsertMatchKeeps | src/indexer/storage/memory.rs:202-205 | a match of a stored transaction keeps the store consistent |
| IndexerStore.PurgeKeeps | src/indexer/storage/memory.rs:72-92 | purging by age keeps the store consistent |
| IndexerPurge.PurgesExactlyTheOldFront | src/indexer/storage/memory.rs:72-92 | a purge drops exactly the front transactions whose time and lifetime have passed, none with lifetime zero, stops at the first younger one, answers their ids in order, drops exactly their matches and touches nothing else |
| IndexerPurge.NothingOldIsLeft | src/indexer/storage/memory.rs:78-88 | nothing too old is left exactly when nothing too old stands behind something younger, as when records come in the order of observation |
| IndexerEvictions.TrimmedTransactions | src/indexer/storage/memory.rs:139-151 | the size limit drops exactly the oldest transactions beyond it and exactly their matches, and reports each in order |
| IndexerEvictions.TrimmedBlocks | src/indexer/storage/memory.rs:153-164 | the same for blocks |
| IndexerEvictions.TrimmedMatches | src/indexer/storage/memory.rs:166-176 | the same for matches, reported with their matcher |
| IndexerEvictions.OrphanedMatches | src/indexer/storage/memory.rs:94-129 | orphan removal drops exactly the matches of the transactions it drops and reports no eviction |
| IndexerRules.PayloadRulesMean | src/indexer/matcher/mod.rs:29-55 | a rule on payloads matches exactly when the payload can be cut around its value with nothing before it, nothing after it, or neither, as the rule asks |
| IndexerRules.ScanFindsExactly | src/indexer/scanner/mod.rs:22-32 | a scan finds exactly the matchers whose rule matches, with the transaction's id and time |
| IndexerStore.RemoveChainBlocksKeeps | src/indexer/storage/memory.rs:94-129 | afterwards the store holds exactly the records of no removed block, and every match names a stored transaction |
| IndexerStore.RestoreSnapshot | src/indexer/storage/memory.rs:49-70 | restoring a snapshot gives back every record in order |
| IndexerMemory.MemoryStore.TrimTransactionsInPlace | src/indexer/storage/memory.rs:139-151 | map, queue, matches and evictions after trimming are those of the specification |
| IndexerMemory.MemoryStore.TrimBlocksInPlace | src/indexer/storage/memory.rs:153-164 | the same for blocks |
| IndexerMemory.MemoryStore.TrimMatchesInPlace | src/indexer/storage/memory.rs:166-176 | the same for matches |
| IndexerMemory.MemoryStore.InsertTransactionInPlace | src/indexer/storage/memory.rs:180-189 | insertion into map and queue, with trimming |
| IndexerMemory.MemoryStore.InsertBlockInPlace | src/indexer/storage/memory.rs:191-200 | insertion of a block |
| IndexerMemory.MemoryStore.InsertMatchInPlace | src/indexer/storage/memory.rs:202-205 | insertion of a match |
| IndexerMemory.MemoryStore.PurgeExpiredInPlace | src/indexer/storage/memory.rs:72-92 | pops expired transactions from the front and tells their ids |
| IndexerMemory.MemoryStore.RemoveChainBlocksInPlace | src/indexer/storage/memory.rs:94-129 | rebuilds queues and maps without the removed blocks and counts what went |
| IndexerMemory.RestoreStore | src/indexer/storage/memory.rs:57-70 | a new store filled from a snapshot |
| IndexerRuns.EveryRunIsConsistent | src/indexer/engine.rs:28-303 | after every run of a new engine, in every mode, clearing and restoring from anywhere included: order queues list each key once, counts are within the limits, every match names a stored transaction, no eviction is left unreported; what is restored must be harmless under the configuration |
| IndexerRuns.ApplyKeepsExactly | src/indexer/engine.rs:53-303 | an operation keeps that invariant exactly when what it restores, if anything, is harmless |
| IndexerRuns.ReachableStatesRestore | src/indexer/engine.rs:179-202 | the state of any reachable engine is restored in any other of the same configuration, which then persists the same state |
| IndexerInvariant.IngestTransactionKeeps | src/indexer/engine.rs:71-101 | ingesting a transaction keeps that invariant |
| IndexerInvariant.IngestBlockKeeps | src/indexer/engine.rs:103-118 | ingesting a block keeps it |
| IndexerInvariant.PurgeSound | src/indexer/engine.rs:120-129 | purging by age keeps it but for the size evictions still to report |
| IndexerInvariant.AddMatcherKeeps | src/indexer/engine.rs:53-65 | a new matcher gets an unused id and the others stay |
| IndexerInvariant.ApplySyncKeeps | src/indexer/engine.rs:204-230 | applying batches keeps the invariant |
| IndexerInvariant.ReconcileKeeps | src/indexer/engine.rs:232-282 | so does reconciling a reorganisation |
| IndexerPurge.PurgeReportsEach | src/indexer/engine.rs:120-129 | the engine reports one eviction by age for each transaction that a purge dropped, in order, and changes nothing else |
| IndexerPurge.IngestPurgesFirst | src/indexer/engine.rs:71-118 | an accepted transaction or block first purges by its own time, and reports that before anything else |
| IndexerReports.SyncReportsItsWork | src/indexer/engine.rs:204-230 | a synchronisation that succeeds leaves the engine at its checkpoint, says so in the last event, and reports the growth of the store and the number of matches announced |
| IndexerReports.ReconcileReportsItsWork | src/indexer/engine.rs:232-282 | a reorganisation that succeeds leaves the engine at its checkpoint and reports exactly the blocks, transactions and matches removed and the matches announced since |
| IndexerReports.SucceedsExactly | src/indexer/engine.rs:204-282 | a synchronisation or a reorganisation succeeds exactly when its checkpoint is valid, its lists are within bounds and name blocks, and every record is admitted; refused for anything but a record it has changed nothing |
| IndexerRestore.RestorePersisted | src/indexer/engine.rs:179-202 | any engine of the same configuration, a new one above all, accepts the persisted state of a consistent engine and then has its records in order, its checkpoint and its matchers, with the next matcher id above every live one |
| IndexerRestore.RestoreIsConsistentExactly | src/indexer/storage/memory.rs:57-70 | a snapshot from anywhere restores to a consistent store exactly when the matches that fit name transactions that are left of it |
| IndexerRestore.RestoredStore | src/indexer/storage/memory.rs:57-70 | what any snapshot restores to: repeated ids skipped, the oldest given way, the last matches |
| IndexerRestore.RestoreKeepsExactly | src/indexer/engine.rs:185-202 | restoring a state from anywhere keeps the invariant exactly when it is refused at once, or has no dangling match and leaves an id for the next matcher |
| IndexerRestore.RefusalChangesNothingExactly | src/indexer/engine.rs:185-202 | a refused restore leaves the engine as it was exactly when the refusal is not for want of a matcher id |
| IndexerRestore.ARefusalReplacesMatchers | src/indexer/engine.rs:191-197 | a restore that fails after replacing the matchers |
| IndexerRestore.DanglingMatchIsAccepted | src/indexer/engine.rs:284-290 | a match of no stored transaction is accepted and kept |
| IndexerRestore.RestoreSnapshotKeepsExactly | src/indexer/engine.rs:284-290 | restoring a snapshot alone keeps the invariant exactly when its matches name transactions that are left |
| IndexerInvariant.SortedMatchersRestore | src/indexer/engine.rs:364-386 | the sorted list of matchers is valid and rebuilds the map |
| IndexerInvariant.WindowOfStored | src/indexer/engine.rs:317-322 | the rebuilt window is the last ids stored |
| IndexerReorg.OrphansAreGone | src/indexer/engine.rs:248-262 | after orphan removal the store holds exactly the other records and the window is the last ids that survived |
| IndexerReorg.OrphansAreUnknown | src/indexer/engine.rs:317-322 | an orphaned id is neither stored nor remembered |
| IndexerReorg.UnknownIsIndexed | src/indexer/engine.rs:71-101 | an unknown transaction is scanned by every matcher and reported |
| IndexerReorg.UnknownIsStored | src/indexer/engine.rs:324-337 | and stored where the mode retains it |
| IndexerReorg.OrphanIsIndexedAgain | src/indexer/engine.rs:232-282 | the first reappearance of an orphaned transaction in the accepted batches is scanned and reported again, whatever the window remembered and whatever is refused after it |
| IndexerReplay.EventsTellTheStore | src/indexer/engine.rs:324-362 | replaying the events of any run of reporting operations on the stored ids gives the ids stored afterwards, in order |
| IndexerService.Indexer.IngestTransactionInPlace | src/indexer/engine.rs:71-101 | store, window, events and answer after a transaction are those of the specification |
| IndexerService.Indexer.IngestBlockInPlace | src/indexer/engine.rs:103-118 | the same for a block |
| IndexerService.Indexer.PurgeInPlace | src/indexer/engine.rs:120-129 | the same for purging |
| IndexerService.Indexer.ApplySyncBatchesInPlace | src/indexer/engine.rs:204-230 | the same for synchronisation, its loops and early errors included |
| IndexerService.Indexer.ReconcileInPlace | src/indexer/engine.rs:232-282 | the same for a reorganisation |
| IndexerService.Indexer.RestoreStateInPlace | src/indexer/engine.rs:185-202 | the same for restoring, refusals included, also the one that comes after store and matchers are replaced |
| IndexerService.Indexer.RestoreSnapshotInPlace | src/indexer/engine.rs:284-290 | the same for restoring a snapshot alone |
| IndexerService.Indexer.ClearInPlace | src/indexer/engine.rs:296-303 | clearing forgets records, window, events and checkpoint, and keeps the matchers |
| IndexerService.Indexer.PersistedStateNow | src/indexer/engine.rs:179-183 | the persisted state has the records in order and the matchers by ascending id |
| IndexerService.Indexer.RemoveMatcherInPlace | src/indexer/engine.rs:67-69 | removing a matcher tells whether it was there |
| IndexerService.Indexer.AddMatcherInPlace | src/indexer/engine.rs:53-65 | the same for adding a matcher |
| WrpcTypes.ValidateResponse | src/platform/native/websocket_io.rs:51-87 | a payload is returned exactly from a successful frame with the expected request id that names the expected operation or none |
| WrpcReplies.CallsOverEveryRun | src/platform/native/websocket_driver.rs:41-147 | over every run each accepted call is in exactly one of queued, active and resolved, resolved and on the wire at most once; an active call has a stream; ids are never reused; every reply is a frame that arrived |
| WrpcReplies.RepliesArrived | src/platform/native/websocket_driver.rs:216-262 | every reply is a frame that arrived on a live stream, in a turn of the run, after its request went on the wire and while that was the active one, and is a successful response with that request's id |
| WrpcReplies.ArrivalResolves | src/platform/native/websocket_driver.rs:233-262 | conversely a frame with an id resolves the active call, with its payload when it is that response and with an error otherwise |
| WrpcOutcomes.StreamBreaksExactly | src/platform/native/websocket_driver.rs:98-140 | an event costs the live stream exactly when it is a fault, a deadline of an active call, or a frame that cannot be decoded, answers nobody or another request, or finds no room; then the call on the wire and every waiter get that reason and queued calls stay |
| WrpcOutcomes.DeadlineFailsTheCall | src/platform/native/websocket_driver.rs:132-139 | a deadline resolves the active call, and only it, with a timeout, tells every waiter and drops the stream |
| WrpcOutcomes.NothingToBreak | src/platform/native/websocket_driver.rs:76-98 | without a stream, or without a call to time out, such events change nothing |
| WrpcOutcomes.FailedConnectionFailsTheQueue | src/platform/native/websocket_driver.rs:48-66 | a stream that cannot be made, or on which a subscription cannot be replayed, fails all queued calls in their order and all waiters, with its error |
| WrpcOutcomes.StreamIsMadeWhenNeeded | src/platform/native/websocket_driver.rs:179-185 | a turn that can connect has a stream exactly when it had one or somebody waits for one |
| WrpcOutcomes.LongestQueuedIsNext | src/platform/native/websocket_driver.rs:149-214 | with no call on the wire the longest queued one goes there under the next id; one that cannot be encoded is dropped, one that cannot be sent fails, and either costs the stream and is told to the waiters |
| WrpcOutcomes.StoppingFailsEveryone | src/platform/native/websocket_driver.rs:142-147 | a driver told to stop fails the active call, the queued ones in their order and all waiters |
| WrpcOutcomes.AnsweredInOrderOverEveryRun | src/platform/native/websocket_driver.rs:149-170 | over every run calls are answered in the order in which they were accepted: those answered, then the one on the wire, then those queued |
| WrpcCalls.StoppedResolvesAll | src/platform/native/websocket_driver.rs:143-147 | a driver that stopped has resolved every call it accepted |
| WrpcCalls.StartAccounted | src/platform/native/websocket_driver.rs:149-214 | starting a call keeps the account, and leaves no active call when it fails |
| WrpcCalls.ResponseAccounted | src/platform/native/websocket_driver.rs:233-262 | so does a response, whoever it answers |
| WrpcCalls.ReplayAccounted | src/platform/native/websocket_driver.rs:299-329 | replaying subscriptions touches no call |
| WrpcArrivals.NotificationsOverEveryRun | src/platform/native/websocket_driver.rs:310-395 | notifications and waiters never queue together, at most 256 frames queue, the notifications that arrived, during replays too, and did not overflow are those handed out in order followed by those queued, every waiter is accounted for once, and waiters are served in order |
| WrpcArrivals.OverflowLosesTheStream | src/platform/native/websocket_driver.rs:117-130 | an overflow is the last thing a turn reads, and it costs the stream |
| WrpcArrivals.NotificationIsTaken | src/platform/native/websocket_driver.rs:216-231 | a notification that arrives goes to the first waiter that listens or else to the end of the queue, and is refused exactly when nobody listens and the queue is full |
| WrpcArrivals.ReplayedNotificationIsTaken | src/platform/native/websocket_driver.rs:310-327 | a notification that comes while a replay is awaited is taken in the same way |
| WrpcArrivals.AwaitPasses | src/platform/native/websocket_driver.rs:310-327 | no notification read while a replay is awaited is lost but by overflow |
| WrpcArrivals.LiveWaitersMissNothing | src/platform/native/websocket_driver.rs:363-367 | if everyone who asks keeps listening, what arrived and did not overflow is what reached someone followed by what is queued |
| WrpcArrivals.NothingLostExactlyWhenNoneGivenAway | src/platform/native/websocket_driver.rs:280-286 | nothing that arrived and did not overflow is lost exactly when every request that the driver reads while a notification is queued comes from a requester that still listens |
| WrpcArrivals.AFrameCanBeLost | src/platform/native/websocket_driver.rs:280-282 | a run in which a frame is lost that way |
| WrpcNotifications.DispatchIsIdle | src/platform/native/websocket_driver.rs:377-395 | between turns there is never anything to dispatch |
| WrpcSubscriptions.SubscriptionsOverEveryRun | src/platform/native/websocket_driver.rs:248-256 | the remembered subscriptions are the acknowledged payloads, each once in order of first success, and a live stream has carried every one of them |
| WrpcAcknowledged.RememberedAreAnswered | src/platform/native/websocket_driver.rs:248-256 | over every run, told from the wire: they are the distinct payloads of the subscription requests that were answered successfully, in the order of the first answers, and each answer is a frame that arrived while its request was active |
| WrpcSubscriptions.EveryEstablishedStreamReplays | src/platform/native/websocket_driver.rs:290-330 | every established stream has first replayed exactly those, in that order, each acknowledged |
| WrpcSubscriptions.ReplayIsExact | src/platform/native/websocket_driver.rs:299-328 | a replay that succeeds sent exactly the given payloads in order and each was acknowledged |
| WrpcSubscriptions.FirstOccurrencesAreASet | src/platform/native/websocket_driver.rs:250-253 | nothing acknowledged is remembered twice or forgotten |
| WrpcSubscriptions.FirstOccurrencesInOrder | src/platform/native/websocket_driver.rs:250-253 | what is remembered only grows at its end |
| WrpcClient.Transport.DriverSender | src/platform/native/websocket.rs:86-110 | the running driver is reused, a stopped or missing one replaced by a new one |
| WrpcClient.Transport.CallOnce | src/platform/native/websocket.rs:138-164 | one attempt submits at most one call, to the current driver, and forgets that driver only if it has stopped |
| WrpcClient.Transport.NextNotificationOnce | src/platform/native/websocket.rs:187-207 | one attempt waits at the current driver, submits no call, and forgets that driver only if it has stopped |
| WrpcClient.Transport.CallInner | src/platform/native/websocket.rs:166-185 | a second attempt is made exactly when the first failed reconnectably and the operation is not `SubmitTransaction`; the answer is the last attempt's |
| WrpcClient.Transport.NextNotificationInner | src/platform/native/websocket.rs:209-222 | the same for waiting: a second wait exactly when the first failed reconnectably, and the answer is the last one's |
| WrpcClient.SubmissionsOnWire | src/platform/native/websocket_driver.rs:191-214 | submissions are on the wire at most as often as they were made, over all drivers |
| WrpcClient.CallOnWire | src/platform/native/websocket.rs:166-185 | one API call is on the wire at most once for `SubmitTransaction` and at most twice otherwise |
| WrpcTask.Task.OfferFrame | src/platform/native/websocket_driver.rs:363-367 | pops waiters until one still listens |
| WrpcTask.Task.Dispatch | src/platform/native/websocket_driver.rs:377-395 | the nested loops dispatch as specified, putting an undelivered frame back |
| WrpcTask.Task.QueueOrDeliverFrame | src/platform/native/websocket_driver.rs:358-375 | delivers, queues or reports overflow as specified |
| WrpcTask.Task.Handle | src/platform/native/websocket_driver.rs:264-288 | a command changes queues and waiters as specified |
| WrpcTask.Task.StartNext | src/platform/native/websocket_driver.rs:149-214 | the next call is taken, sent and made active, or failed, as specified |
| WrpcTask.Task.HandleFrame | src/platform/native/websocket_driver.rs:216-262 | a frame is demultiplexed as specified |
| WrpcTask.Task.Establish | src/platform/native/websocket_driver.rs:290-330 | connecting and replaying, as specified |
| WrpcTask.Task.Turn | src/platform/native/websocket_driver.rs:41-141 | one pass of the loop is the specified turn |
| WrpcTask.RunDriver | src/platform/native/websocket_driver.rs:26-147 | the whole task is the specified run |
| ScriptNumber.IntegerReadsBack | src/contract/script/number.rs:72-84 | every unsigned 64-bit number that is pushed reads back as itself, sign byte included |
| ScriptNumber.IntegerClassified | src/contract/script/number.rs:40-46 | without dropping the sign byte it does exactly below 2^63 |
| ScriptNumber.DigitsAreUnique | src/contract/script/number.rs:15-18 | no other bytes without leading zeros have the same value |
| ScriptNumber.TrimmedBytes | src/contract/script/number.rs:15-18 | the pop loop leaves those bytes |
| ScriptNumber.ScriptBuffer.PushInt | src/contract/script/number.rs:5-24 | appends the shortest script number |
| ScriptNumber.ScriptBuffer.PushData | src/contract/script/push.rs:3-23 | appends a push with the shortest length field |
| ScriptNumber.ReadsFirst | src/primitives/script.rs:24-46 | an element that is written is read back, for every push form |
| ScriptNumber.ReadsAll | src/primitives/script.rs:52-93 | the elements of a written script are the elements it was written from |
| ScriptNumber.FindPrecedingScriptInteger | src/contract/script/number.rs:86-109 | the bounded loop finds the integer before the first target opcode |
| ScriptNumber.PrecedingIsAmong | src/contract/script/number.rs:86-109 | on a written script that is the integer among its elements |
| MerkleTree.ComputeMerkleRoot | src/contract/merkle/script.rs:109-136 | the level loop computes the root defined by halves from the top |
| MerkleTree.GenerateMerkleProof | src/contract/merkle/script.rs:141-183 | the level loop collects the siblings on the way up |
| MerkleTree.RootOfNextLevel | src/contract/merkle/script.rs:124-133 | hashing pairs keeps the root |
| MerkleTree.GeneratedProofsHold | src/contract/merkle/script.rs:141-183 | for any hash, any leaves and every index, folding the generated proof from that leaf gives the root |
| MerkleTree.ProofsBind | src/contract/merkle/script.rs:109-136 | a proof that reaches the root from another node than the tree's exhibits a hash collision, computed from tree and proof |
| MerkleTree.OnlyLeavesAreProved | src/contract/merkle/script.rs:106-136 | what is proved is the leaf at the proof's place, or a collision, or a preimage of the padding |
| MerkleMachine.LayersExecute | src/contract/merkle/script.rs:52-61 | the emitted level code folds the proof it finds on the stack, on any stack, and fails when it finds none |
| MerkleMachine.LayerExecutes | src/contract/merkle/script.rs:54-61 | one level of code, for either direction and any malformed stack |
| MerkleMachine.MembershipExecutes | src/contract/merkle/script.rs:50-64 | hashing, levels and comparison pass exactly when the proof leads from the destination to the root |
| MerkleMachine.ListedDestinationsPass | src/contract/merkle/script.rs:11-15 | every listed destination passes with its generated proof |
| MerkleMachine.OnlyListedDestinationsPass | src/contract/merkle/script.rs:11-15 | nothing else passes without breaking the hash |
| MerkleMachine.ItemsTakenBack | src/contract/merkle/script.rs:52-53 | the stack layout of a proof is read back as that proof |
| MerkleMachine.VaultAcceptsExactly | src/contract/merkle/script.rs:16-69 | the whole vault, run on any items, accepts exactly two spends: the owner's signature after the locktime, or the owner's signature, a proof that leads from a destination to the root, and output zero paying the item below the proof |
| MerkleMachine.OutputIsProvedExactly | src/contract/merkle/script.rs:11-15 | before the locktime the proved destination is a listed one or the hash is broken, and output zero pays it exactly when the item below the proof is the same destination |
| MerkleMachine.OutputCanDiffer | src/contract/merkle/script.rs:62-69 | a spend that proves a listed destination and pays another one |
| MerkleScript.BuildMerkleWhitelistScript | src/contract/merkle/script.rs:16-69 | the appending builder writes the template, for every depth |
| MerkleScript.MerkleWhitelistScriptFields | src/contract/merkle/script.rs:82-104 | reading, rebuilding and comparing recognise as specified |
| MerkleScript.RecognisesExactlyWhatIsBuilt | src/contract/merkle/script.rs:80-104 | a script is recognised with some fields exactly when it is built from them |
| MerkleScript.VaultLocktime | src/contract/script/locktime.rs:5-7 | the locktime reader gives a vault's locktime below 2^63 and fails from there on |
| MerkleScript.LockedForEver | src/contract/script/number.rs:97-101 | for one, on a vault locked for ever, which the recogniser reads |
| ShippingEscrow.NewTranches | src/contract/shipping_escrow/script.rs:32-46 | the amounts of a split add up, the seller's two differ by at most one, and only a total out of range fails |
| ShippingEscrow.BuildShipEscrowScript | src/contract/shipping_escrow/script.rs:49-93 | the appending builder writes the template, or fails on the total |
| ShippingEscrow.AppendStateZero | src/contract/shipping_escrow/state_zero.rs:23-45 | the funded state's part of it |
| ShippingEscrow.AppendPickup | src/contract/shipping_escrow/state_zero.rs:47-67 | its pickup branch |
| ShippingEscrow.AppendPickupRefund | src/contract/shipping_escrow/state_zero.rs:69-85 | its refund branch |
| ShippingEscrow.AppendStateOne | src/contract/shipping_escrow/state_one.rs:18-29 | the part of the state in transit |
| ShippingEscrow.AppendDelivery | src/contract/shipping_escrow/state_one.rs:45-60 | its payments on delivery |
| ShippingEscrow.AppendDeliveryRefund | src/contract/shipping_escrow/state_one.rs:62-73 | its refund branch |
| ShippingEscrow.EscrowAt | src/contract/shipping_escrow/terms.rs:12-21 | the variable fields stand at the recogniser's element positions |
| ShippingEscrow.ShipEscrowTerms | src/contract/shipping_escrow/terms.rs:39-55 | reading, rebuilding and comparing recognise as specified |
| ShippingEscrow.RecognisesExactlyEscrows | src/contract/shipping_escrow/terms.rs:37-55 | a script is recognised with some terms exactly when it is built from them, for every request whose total fits |
| ShippingEscrow.StatesAreToldApart | src/contract/shipping_escrow/state_zero.rs:23-30 | the two states have different amounts exactly when the product is worth two sompi or more |
| EscrowSpending.EscrowAcceptsExactly | src/contract/shipping_escrow/script.rs:49-93 | for every transaction and whatever items are offered, the built script, run element by element, accepts exactly what the terms allow: while it holds the total, pickup signed by the deliverer with the remainder kept and the seller paid, or the buyer repaid on the arbiter's signature or after the deadline; while it holds the remainder, seller and deliverer paid on the buyer's or arbiter's signature or after the deadline, the fee exact, or the buyer repaid on the arbiter's; nothing at any other amount; and no further outputs |
| EscrowSpending.FundedDemands | src/contract/shipping_escrow/state_zero.rs:47-85 | the funded state's branches demand exactly that |
| EscrowSpending.TransitDemands | src/contract/shipping_escrow/state_one.rs:31-73 | so do those of the state in transit |
| EscrowSpending.EscrowSpells | src/contract/shipping_escrow/script.rs:67-90 | the tree of branches that is run spells the template, element by element |
| EscrowSpending.AfterPickup | src/contract/shipping_escrow/state_zero.rs:47-67 | what a pickup leaves is spent by delivery or given back, exactly when the product is worth two sompi or more; below that it is picked up or called off again |
| EscrowSpending.PaidToItsKey | src/contract/shipping_escrow/script.rs:95-102 | what an escrow pays to a key is spent by a signature of that key and by nothing else |
| EscrowSpending.NobodySpendsAlone | src/contract/shipping_escrow/state_one.rs:31-43 | until a deadline passes every spend carries a good signature of deliverer, buyer or arbiter |
| Withdrawal.FindMaximumWithdraw | src/transaction/mass.rs:333-349 | the 64-step loop is the specified search |
| Withdrawal.SearchAnswer | src/transaction/mass.rs:339-348 | the answer is the greatest 64-bit amount all of whose nonzero bit prefixes fit |
| Withdrawal.FindsGreatestExactlyWhenPrefixesFit | src/transaction/mass.rs:339-348 | it is the greatest fitting amount exactly when every nonzero bit prefix of that amount fits |
| Withdrawal.AnswerIsGreatestExactlyWhenPrefixesFit | src/transaction/mass.rs:329-349 | the same for a thread, a cap and a minimum return |
| Withdrawal.DownwardClosedIsExact | src/transaction/mass.rs:339-340 | among amounts that fit downward, as the comment assumes, the search is exact |
| Withdrawal.AnswerIsCeilingExactly | src/transaction/mass.rs:333-349 | the answer is the whole ceiling exactly when every nonzero bit prefix of the ceiling fits |
| Withdrawal.AnswerIsBetweenPowers | src/transaction/mass.rs:341-348 | the highest power of two in the answer is the highest one that fits |
| Withdrawal.AnswerReaches | src/transaction/mass.rs:296-359 | a sufficient condition in closed form: if the price is affordable at both ends of the range from the highest power of two in an amount to that amount, the answer is at least that amount, and for the ceiling it is the ceiling |
| Withdrawal.RangeFits | src/transaction/mass.rs:296-359 | then everything in that range fits |
| Withdrawal.ALargeThreadGivesItsCeiling | src/transaction/mass.rs:333-349 | a thread that meets that condition |
| Withdrawal.FittingHasGaps | src/transaction/mass.rs:339-340 | an amount that does not fit between two that do |
| Withdrawal.ZeroExactlyWhenNoPowerFits | src/transaction/mass.rs:330-331 | it answers zero exactly when no power of two fits |
| Withdrawal.AnswerIsSafe | src/transaction/mass.rs:351-359 | a non-zero answer is within the cap and its priced fee leaves the minimum return |
| Withdrawal.Price | src/transaction/mass.rs:296-327 | the price, its floor and each refusal in closed form |
| Withdrawal.EstimateIsStorageMass | src/transaction/builder/planning/amounts.rs:47-101 | the checked folds of the storage mass never overflow for a withdrawal and give the closed form |
| Withdrawal.FittingIsNotMonotone | src/transaction/mass.rs:339-340 | a large withdrawal that fits beside a tiny one that does not |
| Withdrawal.AnswerCanMissEveryFit | src/transaction/mass.rs:329-331 | a thread for which the answer is zero although 3,300,000 sompi can be withdrawn |
| SchnorrGroup.EqualSquares | src/crypto/anti_klepto.rs:159-164 | in a prime field squares agree exactly when the roots agree up to sign |
| SchnorrGroup.EvenIsLifted | src/crypto/adaptor.rs:321-326 | the point lifted from an x coordinate is the even one of a point and its negative |
| SchnorrGroup.Decompressed | src/crypto/adaptor.rs:328-332 | decoding a compressed point gives it back, for both parities |
| SchnorrGroup.VerifiesMeans | src/crypto/schnorr/mod.rs:108-127 | a signature verifies exactly when its response is nonce plus challenge times key |
| SchnorrGroup.DefaultSignaturesVerify | src/crypto/schnorr/mod.rs:70-87 | default signatures verify under the key's x coordinate |
| SchnorrGroup.ChallengeBindsEverything | src/crypto/anti_klepto.rs:259-266 | a challenge is hashed from bytes that are equal only for the same nonce point, key and message |
| SchnorrGroup.NonceBindsEverything | src/crypto/anti_klepto.rs:170-182 | with one mask a default nonce is hashed from bytes that are equal only for the same secret, key and message |
| Adaptor.ExchangeSucceeds | src/crypto/adaptor.rs:76-238 | for both parities, a created pre-signature verifies, the host accepts it against the committed nonce, completing it gives a BIP-340 signature, and extraction gives exactly the secret |
| Adaptor.CreationOutcome | src/crypto/adaptor.rs:76-124 | creation refuses only for its inputs and nonces; its own verification never fails |
| Adaptor.CreationSucceedsExactly | src/crypto/adaptor.rs:84-123 | creation succeeds exactly when key and adaptor point are valid and no nonce on the way is zero |
| Adaptor.VerifiedCompletes | src/crypto/adaptor.rs:126-198 | any pre-signature that verifies, whoever made it, completes to a BIP-340 signature from which the secret is extracted |
| Adaptor.CompletionRevealsTheSecret | src/crypto/adaptor.rs:147-169 | any BIP-340 signature with a verified pre-signature's nonce is its completion and reveals the secret |
| Adaptor.HostAcceptsExactly | src/crypto/adaptor.rs:200-238 | the host accepts exactly the nonce points that are, up to the recorded sign, committed point plus contribution plus adaptor point |
| Adaptor.DerivedSecretIsThePoints | src/crypto/adaptor.rs:37-46 | the normalised secret is the one of the even adaptor point |
| Adaptor.BaseNonceBindsEverything | src/crypto/adaptor.rs:240-258 | the device's nonce is hashed from bytes that are equal only for equal secret, key, message, adaptor point, session and randomness |
| Adaptor.HostBindsEverything | src/crypto/adaptor.rs:260-278 | so is the host's contribution, in all it binds |
| Adaptor.DomainsAreApart | src/crypto/adaptor.rs:240-278 | the two are never hashed from the same bytes |
| AntiKlepto.RefusedExactlyWhenReusable | src/crypto/anti_klepto.rs:140-166 | a valid provisional signature is refused as reusable exactly when its nonce is plus or minus the zero-aux nonce |
| AntiKlepto.DefaultSignaturesAreRefused | src/crypto/anti_klepto.rs:157-182 | so every default signature without randomness is refused |
| AntiKlepto.TweakOutcome | src/crypto/anti_klepto.rs:100-138 | otherwise the outcome is a refused contribution or a BIP-340 signature of the same key and message that satisfies the nonce relation, which the last check refuses exactly where its response is zero and the library refuses zero |
| AntiKlepto.AcceptedIsTheTweak | src/crypto/anti_klepto.rs:219-250 | a final signature that verifies and satisfies the nonce relation is the one the device had to make |
| SchnorrGroup.SomeCurve | src/crypto/adaptor.rs:321-332 | the laws asked of the curve can be met |
| AntiKlepto.RecoveredNonce | src/crypto/anti_klepto.rs:147-158 | what is recovered from a valid provisional signature is the multiple of its even nonce point |
| AntiKlepto.HostBindsEverything | src/crypto/anti_klepto.rs:44-61 | the contribution is hashed from bytes that are equal only for the same session, secret, input, slot, key and nonce point |

## Left out

- Sockets, TLS, timers, task scheduling, reconnect backoff and the browser transport: what they do arrives in the driver model as the argument of a turn.
- Decoding of response bytes and encoding of requests: a frame carries its decoding, and whether a request could be encoded and sent is an argument.
- Request ids are natural numbers; their wrap after 2^64 requests is not modelled.
- Masks of sixteen selectors are sets of bit positions, not machine words.
- `SHA-256`, `BLAKE2b` and secp256k1 are parameters: any hash, and any group of prime order with the laws of an x-only map.
- Verification is as BIP-340 states it; whether the library behind `schnorr_verify` refuses a zero response is a parameter of the curve.
- The covenant machine keeps where an item came from, not its value: signatures are items for a key occurrence, and the number that picking asks for and the outcome of a computed condition are arguments.
- In the covenant machine the opcodes the tracer refuses, but for picking and rolling, simply fail: an engine may know more of them.
- Acceptance under consensus rules beyond the script itself. In the contracts' machine a good signature and a reached locktime are judged by functions of the transaction, a locktime by its value whatever its length in bytes.
- Other callers that share a transport and replace its driver between two steps of one attempt.
- Raw JSON of indexed records, metrics, health, the running flag, paging and queries of the indexer.
- The length of an address text is counted in characters, not in bytes.
- The fee of ordinary covenant spends and the size estimators of `mass.rs`: straight arithmetic without a search.
- PSKT and KSPT interchange, transaction building, key derivation, mnemonics, stealth payments and randomness.
- AddressBits.PadMeans: for group sizes whose sum fits the 32-bit accumulator; the source only uses 8 and 5.
- AddressBits.NoPadMeans: likewise, and from the smaller to the larger size.
