# A verified model of the rp node

This project models the node of the rp blockchain in Dafny 4.11 and proves what its parts promise over every input and
every run. `dafny verify dfyconfig.toml` checks everything.

It covers three layers.

* **The ledger** (`Base`, `Models`, `Encoding`, `Merkle`, `Ledger`, `LedgerLaws`, `Effects`, `Leader`, `Snapshot`): the canonical
  encodings behind every hash, the state root, the block transition with u64 arithmetic, leader selection and the
  snapshot codec.
* **The node** (`Mempool`, `Chain`, `Walks`, `World`, `Delivery`, `Engine`, `EngineLaws`, `Parking`, `Accounting`,
  `Replays`, `Sync`, `Backfill`, `Agreement`, `Blockchains`, `NodeEngines`): the block tree and its fork choice, the engine as a transition
  function and as a class that mutates its fields, and what holds over whole runs and between two nodes.
* **The runtime cores** (`Nvs`, `System`, `Restarts`, `RunLaws`, `Wake`, `Noise`, `NoiseStreams`, `Frames`): the slot
  store and restarts, the wake protocol, the encrypted stream and length-prefixed framing.

`Scenarios` holds concrete runs: one that meets the hypotheses of the theorems about two nodes, and one for each property
of runs that fails.

Pure logic is written as functions; what the program mutates in place is a class or a method with loops, proved equal to
those functions (`Ledger.LedgerState`, `Mempool.TransactionPool`, `Blockchains.Blockchain`, `NodeEngines.NodeEngine`,
`Nvs.NvsStorage`, `Wake.WakeManager`, `NoiseStreams.NoiseStream`). The theorems are about the functions, so they hold of
the methods.

**Cryptography** is the parameter `Crypto` (SHA-256, signature checks, point decoding, the genesis key) and the parameter
`Aead` (the transport cipher, with the two laws that ciphertexts are 16 bytes longer and open to what was sealed).
Nothing assumes that SHA-256 is injective: binding theorems return an explicit collision, and theorems about the block
tree quantify over a universe `u` of blocks in which no two collide. Encoded blocks in storage go through a `Postcard`
pair whose decoder inverts its encoder.

**Truth** is defined once, outside any node: a `World` records the blocks ever accepted since genesis, and
`Replay(w, h)` is the state after block `h`. `EngineOk`, `ChainIn` and `Validated` say that a node's tree lies in the
world, that its state is the replay of its head, and that each of its blocks was validated on the replay of its parent.

Results that are not what one would expect of the code:

* A node starts from the empty state and no transaction mints, so on every reachable node the total of balances, stakes and
  unstaking is 0 and the leader check is never in force (`RunLaws.TreeLaws`). The laws about other states, fairness of
  leader selection among them, are about the code, not about what a node can reach.
* *Delivered is a prefix of accepted* is false for the encrypted stream while a write is pending
  (`Noise.AheadOfAcceptance`); `Noise.Transparent` gives the exact condition under which it holds.
* Restoring a snapshot into a running engine can leave a child of the new head parked (`Scenarios.RestoreLeavesChild`);
  `Restarts.ClearExactly` says over whole runs exactly when.
* Catch-up succeeds exactly for requests that reach down to the block after the requester's head
  (`Sync.CatchUpExactly`); two reachable nodes that never agree are in `Scenarios.GapPair`.
* An imported block releases what waits for it only if it becomes the head, so a parked side branch is imported one level
  at a time (`Parking.SideBranchWaits`).
* A frame whose five-byte prefix has bits above the u32 is accepted with those bits dropped; `Frames.FrameCanonical`
  says exactly which frames are canonical.
* The storage worker stops for good at its first error, and a bucket rejects its 257th hash (`Nvs.SaveFailsWhenFull`).

## Model

| member | source | states |
|---|---|---|
| `Models.BlockToBytes` | rp-core/src/models/block.rs:31-43 | the buffer built field by field is the canonical encoding that every hash theorem below is about |
| `Models.TransactionToBytes` | rp-core/src/models/transaction.rs:48-75 | the same for a transaction, by variant |
| `Models.ProofToBytes` | rp-core/src/models/slashing.rs:41-49 | the same for a slash proof and its two nested blocks |
| `Models.TransactionsToBytes` | rp-core/src/traits.rs:42-52 | the `Vec` loop writes the count, then each item |
| `Encoding.BlockUnique` | rp-core/src/models/block.rs:31-43 | equal block bytes, whatever is appended to each, force equal blocks up to signatures (at every nesting depth) and equal suffixes |
| `Encoding.TxUnique` | rp-core/src/models/transaction.rs:48-75 | the same for transactions |
| `Encoding.ProofUnique` | rp-core/src/models/slashing.rs:41-49 | the same for slash proofs |
| `Encoding.BlockPreimage` | rp-core/src/models/block.rs:31-43 | two blocks share a hash preimage if and only if they differ at most in signatures |
| `Encoding.TxPreimage` | rp-core/src/models/transaction.rs:48-75 | two transactions share a preimage if and only if they differ at most in signatures |
| `Encoding.BlockHashBinding` | rp-core/src/traits.rs:72-82 | equal block hashes mean equal unsigned content, or the two encodings are an explicit SHA-256 collision |
| `Encoding.SlashProofSound` | rp-core/src/models/slashing.rs:19-39 | an accepted slash proof holds two blocks of really different content, for one slot, both by the accused, with a signature of each over its unsigned encoding that verifies under the accused's key |
| `Encoding.BlockLayout` | rp-core/src/models/block.rs:31-43 | at which bytes each field of a block is, counts included |
| `Encoding.TxsLayout` | rp-core/src/traits.rs:42-52 | the transactions of a block follow each other in order |
| `Encoding.ProofsLayout` | rp-core/src/traits.rs:42-52 | and so do its slash proofs |
| `Encoding.TxLayout` | rp-core/src/models/transaction.rs:48-75 | at which bytes the sender, the kind's tag and contents, the sequence number and the fee are |
| `Encoding.ProofLayout` | rp-core/src/models/slashing.rs:41-49 | the accused, then the two blocks |
| `Base.BigEndianDigit` | rp-core/src/traits.rs:25-30 | which digit of the number each byte of a word is |
| `Base.LessNumeric` | rp-core/src/blockchain.rs:67-67 | the order of hashes is that of the numbers they spell |
| `Merkle.ComputeStateRoot` | rp-core/src/state.rs:155-190 | the level-by-level loop computes the root function that the binding theorem is about |
| `Merkle.ComputeNextLevel` | rp-core/src/state.rs:172-185 | one level of pairing, the last odd node paired with itself |
| `Merkle.SameDepthBinding` | rp-core/src/state.rs:172-185 | two levels of distinct hashes with trees of one depth and one root are equal, or a collision is returned, odd-node duplication included |
| `Merkle.DepthBinding` | rp-core/src/state.rs:155-190 | 41-byte leaves and 64-byte inner nodes turn equal roots of trees of different depth into a collision |
| `Merkle.StateRootBinding` | rp-core/src/state.rs:155-190 | from two different non-empty balance maps with one state root an explicit collision is constructed |
| `Merkle.BalanceIncluded` | rp-core/src/state.rs:155-190 | every balance has an inclusion proof: the hash of its key and amount, at the key's place in key order, climbs to the state root over one sibling a level, left and right as in the tree, an odd last node being its own sibling |
| `Ledger.LedgerState.ApplyTransaction` | rp-core/src/state.rs:89-120 | updating the four maps in place is the transition function on states, or stops where u64 arithmetic would overflow |
| `Ledger.LedgerState.ApplySlashProof` | rp-core/src/state.rs:192-199 | a valid proof removes the stake and unstaking of the accused, an invalid one changes nothing and reports which check failed |
| `Ledger.GetExpectedValidator` | rp-core/src/state.rs:122-153 | the filter, sum and cumulative-stake loops compute the leader function that fairness is about |
| `Ledger.ValidateAndApplyBlock` | rp-core/src/blockchain.rs:9-51 | the checks in order and the two loops over a cloned state compute the block transition function, with the same error for the same block |
| `Effects.BlockVerdict` | rp-core/src/blockchain.rs:9-51 | a block is accepted exactly if its signature verifies over its unsigned encoding, it is one above its parent and later, the expected validator is none or its own, its body applies and its state root is that of the result |
| `Effects.BlockRefusal` | rp-core/src/blockchain.rs:14-48 | each error names the first check that fails |
| `Effects.AcceptedSigner` | rp-core/src/blockchain.rs:14-30 | an accepted block carries a verifying signature of its own validator, which is the expected one if there is one |
| `Effects.TxVerdict` | rp-core/src/state.rs:51-85 | a transaction is valid exactly if its sender signed it, it has the sender's next sequence number, and the sender holds the balance or stake it moves, or its proof shows an equivocation |
| `Effects.TxsAdmissible` | rp-core/src/blockchain.rs:32-37 | in an accepted block every transaction is valid in that sense in the state the ones before it lead to |
| `Effects.AdmissibleTxs` | rp-core/src/blockchain.rs:32-37 | and a list is accepted exactly if all but its last is, the last is valid in the resulting state, and its arithmetic fits |
| `Effects.ProofVerdict` | rp-core/src/models/slashing.rs:19-39 | a proof passes exactly if it shows two signed blocks of different hash for one slot by the accused; each error names the first check that fails |
| `Effects.ProofsShown` | rp-core/src/blockchain.rs:39-43 | the proofs of a block are accepted exactly if every one passes |
| `Effects.TransferEffect` | rp-core/src/state.rs:92-97 | for every account: the sender falls and the receiver rises by the amount, the receiver has an entry, to oneself nothing changes, and nothing else moves but the sender's nonce |
| `Effects.StakeEffect` | rp-core/src/state.rs:98-102 | for every account: the amount moves from the sender's balance to the sender's stake, and nothing else |
| `Effects.UnstakeEffect` | rp-core/src/state.rs:103-113 | for every account: the amount leaves the sender's stake and is queued behind the sender's requests, unlocking 64 slots later, and nothing else moves |
| `Effects.SlashTxEffect` | rp-core/src/state.rs:114-118 | the accused loses stake and queue, the sender's nonce moves, and nothing else |
| `Effects.SlashEffect` | rp-core/src/state.rs:192-199 | a proof takes effect exactly if it shows an equivocation, and costs the accused stake and queue and nobody anything else |
| `Effects.SlashesEffect` | rp-core/src/blockchain.rs:39-43 | after the proofs of a block exactly the accused have neither stake nor queue |
| `Ledger.AcceptedContent` | rp-core/src/blockchain.rs:9-51 | two accepted blocks that differ at most in signatures lead to the same state |
| `LedgerLaws.AcceptedBody` | rp-core/src/blockchain.rs:18-48 | an accepted block is one above its parent, in a later slot, and commits to the balances it leads to |
| `LedgerLaws.BlockConserves` | rp-core/src/state.rs:89-120 | an accepted block changes balances + stakes + unstaking by exactly what its slashes burn |
| `LedgerLaws.ChainConserves` | rp-core/src/blockchain.rs:25-43 | along every accepted chain the total changes by exactly the stake and unstaking burned at each slash |
| `LedgerLaws.BlockFits` | rp-core/src/state.rs:51-120 | with a total below 2^64 and counters away from their maximum, no operation in validation, application or leader selection of any block overflows, self-transfers included |
| `LedgerLaws.ChainFits` | rp-core/src/blockchain.rs:9-51 | the same along any chain of blocks, from conditions on the initial state only |
| `LedgerLaws.ChainSequential` | rp-core/src/state.rs:80-120 | along every accepted chain each sender's sequence numbers continue its nonce without gap or repeat |
| `LedgerLaws.NoReplay` | rp-core/src/state.rs:80-120 | from genesis, each sender's sequence numbers are 0, 1, 2, ... in order, the nonce at the tip is its transaction count, and no (sender, sequence) pair occurs twice |
| `Leader.LeaderExists` | rp-core/src/state.rs:122-153 | with positive total valid stake that fits u64, selection always returns a decodable key with positive stake |
| `Leader.LeaderFairness` | rp-core/src/state.rs:136-152 | over any T consecutive heights, T the total valid stake, each valid key leads exactly as often as its stake and no other key ever leads |
| `Leader.LeaderAt` | rp-core/src/state.rs:144-151 | which one: the decodable keys in ascending order share out the total stake slice by slice, and the height modulo the total falls into the slice of the expected validator |
| `Leader.NoLeader` | rp-core/src/state.rs:123-142 | nobody is expected exactly when no decodable key has stake |
| `Leader.RoundOfTickets` | rp-core/src/state.rs:144-152 | any T consecutive heights draw every ticket exactly once, so the leads are the wins of the T tickets |
| `Snapshot.ToBytes` | rp-core/src/state.rs:202-232 | the three counted map loops and the nested unstaking loop write the snapshot function of the round trip |
| `Snapshot.FromBytes` | rp-core/src/state.rs:234-291 | the cursor-driven reader, on arbitrary bytes, never reads outside them and computes the parse function of the round trip, with the same error |
| `Snapshot.ReadMapAt` | rp-core/src/state.rs:258-270 | the counted loop of one map: the parsed map and the cursor after it, or the error, with the cursor inside the buffer |
| `Snapshot.StateRoundTrip` | rp-core/src/state.rs:202-291 | decoding the snapshot of any state, with anything appended, returns exactly that state |
| `Snapshot.SnapshotInjective` | rp-core/src/state.rs:202-232 | different states have different snapshots |
| `Snapshot.TruncatedRejected` | rp-core/src/state.rs:234-291 | every proper prefix of a snapshot is rejected |
| `Snapshot.SnapshotLayout` | rp-core/src/state.rs:202-231 | the order of the tables and counts, and 41 bytes an entry |
| `Snapshot.EntryAt` | rp-core/src/state.rs:207-213 | entry `i` of a table is its `i`-th key in key order and that key's value |
| `Snapshot.QueueAt` | rp-core/src/state.rs:220-228 | each account is followed by the count and the requests of its queue, in key order |
| `Snapshot.RequestAt` | rp-core/src/state.rs:224-227 | request `i` of a queue is its amount and its unlock slot |
| `Mempool.TransactionPool.AddTransaction` | rp-node/src/mempool.rs:21-41 | the in-place insertion and eviction is the offer function of the optimality theorems, with its three refusals |
| `Mempool.TransactionPool.GetPendingTransactions` | rp-node/src/mempool.rs:43-45 | the first transactions of the order, none with a lower fee than one left out |
| `Mempool.TransactionPool.RemoveTransaction` | rp-node/src/mempool.rs:47-49 | exactly the transactions with that hash go |
| `Mempool.OfferBest` | rp-node/src/mempool.rs:21-41 | after any sequence of offers the pool is ordered, duplicate-free, within capacity, and every distinct offer left out pays no more than any kept while the pool is full |
| `Mempool.MempoolOptimal` | rp-node/src/mempool.rs:21-41 | no choice of at most `max_size` distinct offers has a larger fee sum than the pool |
| `Mempool.AddVerdict` | rp-node/src/mempool.rs:21-41 | the answer and the pool after one offer: turned away exactly if its identity is there, refused exactly if the pool is full of transactions that pay at least as much, otherwise put in its place, the last one of a full pool giving way |
| `Chain.AddBlockValid` | rp-node/src/blockchain.rs:95-139 | every accepted block keeps the tree keyed by hash, rooted with heights and slots rising, its children lists duplicate-free and the exact inverse of `previous_hash`, and its head above every other block: higher, or as high in a later slot, or in the same slot with a larger hash; a repeated block changes nothing |
| `Chain.ForkChoice` | rp-core/src/blockchain.rs:53-68 | an accepted block becomes the head exactly if it is higher than the head, or as high in a later slot, or in the same slot with a larger hash; then the state is its own, otherwise head and state stay |
| `Chain.AddRefused` | rp-node/src/blockchain.rs:100-108 | a block is refused exactly because its parent is unknown or as validation on its parent refuses it |
| `Chain.PoolAfterBlock` | rp-node/src/blockchain.rs:127-133 | a block that becomes the head takes exactly its own transactions, by hash, out of the pool and leaves the others in order; any other accepted block leaves the pool alone |
| `Chain.BeatsIsAbove` | rp-core/src/blockchain.rs:53-68 | the comparison is by height, then slot, then hash, the larger winning each time |
| `Chain.SingletonValid` | rp-node/src/blockchain.rs:61-68 | a restored tree of one block satisfies the same invariant |
| `Chain.GenesisLaw` | rp-node/src/blockchain.rs:30-53 | the fields of the genesis block and of a new chain |
| `Chain.BeatsTotal` | rp-core/src/blockchain.rs:53-68 | of two different blocks exactly one replaces the other |
| `Chain.BeatsTransitive` | rp-core/src/blockchain.rs:53-68 | replacement is transitive, so the head is a maximum whatever the order |
| `Walks.EarliestIsRoot` | rp-node/src/blockchain.rs:70-85 | `earliest_contiguous_height` is the root's height from every block of the tree |
| `Walks.PathShape` | rp-node/src/blockchain.rs:145-173 | the path from the root to a block is hash-linked and its heights count up by one |
| `Walks.GetBlocksExact` | rp-node/src/blockchain.rs:145-173 | `get_blocks` returns precisely the ascending hash-linked slice of the head's ancestor path for the range, and nothing when the start is outside it or the range is inverted |
| `Blockchains.Blockchain.constructor` | rp-node/src/blockchain.rs:30-53 | a new chain is the genesis tree with the empty state and an empty pool of 10000 |
| `Blockchains.Blockchain.RestoreHead` | rp-node/src/blockchain.rs:61-68 | the tree, head, state and pool are replaced by those of one block |
| `Blockchains.Blockchain.EarliestContiguousHeight` | rp-node/src/blockchain.rs:70-85 | the loop over a moving hash ends in every reachable tree and returns the root's height |
| `Blockchains.Blockchain.AddTransaction` | rp-node/src/blockchain.rs:87-93 | a transaction valid in the head state is offered to the pool, any other is refused without change |
| `Blockchains.Blockchain.AddBlock` | rp-node/src/blockchain.rs:95-139 | the in-place update of tree, head, state and pool is the transition the tree theorems are about; on an error nothing changes |
| `Blockchains.Blockchain.GetBlocks` | rp-node/src/blockchain.rs:145-173 | the downward walk, collected and reversed, ends and returns the slice of `Walks.GetBlocksExact` |
| `World.ReplayStable` | rp-node/src/blockchain.rs:95-139 | recording more accepted blocks never changes the true state of a block |
| `World.AcceptSound` | rp-node/src/blockchain.rs:95-139 | accepting a block on its parent's true state computes that block's true state and keeps the head state true |
| `World.ReplayIsChain` | rp-core/src/blockchain.rs:9-51 | the true state of a block is the replay of a chain of accepted blocks from the origin to it |
| `Delivery.AnyCallsValid` | rp-node/src/blockchain.rs:95-139 | after any sequence of `add_block` calls, refused ones and false parent states included, the tree is valid and every other block is lower than the head, or as high in an earlier slot, or in the same slot with a smaller hash |
| `Delivery.HeadIsBest` | rp-node/src/blockchain.rs:95-139 | after any blocks handed over in any order with the true states of their parents, accepted or refused, the head is above every other block in that sense and the state is the replay of the head |
| `Delivery.OrderIndependent` | rp-core/src/blockchain.rs:53-68 | two parent-first orders of the same blocks, some of which may be refused, accept the same hashes and end with the same contents, the same head and the same state |
| `Delivery.OrderIndependentBlocks` | rp-node/src/blockchain.rs:95-139 | if no two given blocks differ only in signatures, the block maps are equal outright |
| `Parking.StepClear` | rp-node/src/node_engine.rs:256-446 | every step keeps the head free of parked children |
| `Parking.NoParkedChildOfHead` | rp-node/src/node_engine.rs:154-254 | over every run from a fresh engine no parked block is a child of the current head |
| `Parking.RestoreClear` | rp-node/src/node_engine.rs:55-86 | one restore keeps that if and only if no block was waiting for the restored one |
| `Parking.SideBranchWaits` | rp-node/src/node_engine.rs:154-193 | when no block waiting for a parent would become the head, importing them leaves the head, the state and everything parked under them as they were |
| `Restarts.ClearExactly` | rp-node/src/node_engine.rs:55-86 | over every run, crashes and restarts included, no parked block is ever a child of the head if and only if no restore happens while a block waits for the restored one |
| `Scenarios.RestoreLeavesChild` | rp-node/src/node_engine.rs:55-86 | a run that ends with a child of the head parked: accept and write a block, crash, hear of its child, restore |
| `Parking.ImportParkedAccount` | rp-node/src/node_engine.rs:154-193 | an import emits, block by block, one persist pair or one failure report, and the blocks so reported are exactly those that left `pending_blocks` |
| `Parking.ImportsInOrder` | rp-node/src/node_engine.rs:165-190 | blocks that wait for one parent are imported in the order they came |
| `Parking.ImportsOne` | rp-node/src/node_engine.rs:166-189 | one of them is refused with a report, or persisted with its state and, if it became the head, followed by everything that waits for it |
| `Accounting.IngestBalanced` | rp-node/src/node_engine.rs:214-254 | one received block is persisted, refused with a report, or parked, together with whatever it releases |
| `Accounting.NoBlockLost` | rp-node/src/node_engine.rs:256-446 | over every run the multiset of received blocks is exactly the persisted, the parked and the refused ones, with one failure report for each refused |
| `Replays.AcceptOk` | rp-node/src/node_engine.rs:214-238 | an import on the true parent state keeps the replay invariant, and the persisted block and snapshot are true |
| `Replays.ImportParkedOk` | rp-node/src/node_engine.rs:154-193 | the parked-block recursion keeps the replay invariant and persists only true pairs, each snapshot right after its block |
| `Replays.StepOk` | rp-node/src/node_engine.rs:256-446 | every step whose storage results are true keeps the replay invariant: each tree block signed and validated on its parent's true state, head state true, every emitted snapshot the true state of its block |
| `Engine.ExpireMembers` | rp-node/src/node_engine.rs:88-90 | a tick drops exactly the requests whose deadline has come |
| `Engine.RequestsOfMembers` | rp-node/src/node_engine.rs:346-350 | a response completes exactly that peer's requests |
| `Engine.RequestsNotOfMembers` | rp-node/src/node_engine.rs:351-351 | and leaves exactly the others |
| `NodeEngines.NodeEngine.constructor` | rp-node/src/node_engine.rs:44-53 | no peers, requests or parked blocks, clock 0, no wake-up |
| `NodeEngines.NodeEngine.RestoreLatestSnapshot` | rp-node/src/node_engine.rs:55-86 | the four outcomes of a restore and the engine after each, `pending_blocks` untouched |
| `NodeEngines.NodeEngine.PruneExpiredRequests` | rp-node/src/node_engine.rs:88-90 | exactly the requests with a later deadline stay, in order |
| `NodeEngines.NodeEngine.SyncWakeAction` | rp-node/src/node_engine.rs:92-108 | the minimum loop and the command it emits are the function the wake theorems are about |
| `NodeEngines.NodeEngine.QueueBlockRequest` | rp-node/src/node_engine.rs:125-143 | one request more, with a saturating deadline, and the matching action |
| `NodeEngines.NodeEngine.ImportParkedBlocks` | rp-node/src/node_engine.rs:154-193 | the recursion that mutates as it goes terminates, because each level removes a key and none is added, and is the import function |
| `NodeEngines.NodeEngine.ContinueRequests` | rp-node/src/node_engine.rs:195-212 | each completed request is continued over the range of the continuation rule |
| `NodeEngines.NodeEngine.IngestBlock` | rp-node/src/node_engine.rs:214-254 | a child of the head is imported and releases what waits for it, any other block is parked under its parent |
| `NodeEngines.NodeEngine.OnSyncRequest` | rp-node/src/node_engine.rs:307-342 | the answer's blocks, `has_more` and `next_height` |
| `NodeEngines.NodeEngine.OnSyncResponse` | rp-node/src/node_engine.rs:343-375 | all of the peer's requests complete, the blocks are ingested in order, the continuations follow |
| `NodeEngines.NodeEngine.OnStorageLoaded` | rp-node/src/node_engine.rs:402-430 | the five outcomes of a snapshot load |
| `NodeEngines.NodeEngine.Step` | rp-node/src/node_engine.rs:256-446 | the whole mutation of the engine and its action list are the transition function that every theorem about runs is about |
| `EngineLaws.GossipLaw` | rp-node/src/node_engine.rs:298-305 | an announced transaction is relayed exactly if it is valid in the head state, was not in the pool by identity and is in it after, to exactly the connected peers other than its source; one that is pending passes in silence, an invalid one is reported, and nothing but the pool changes |
| `EngineLaws.SubmitLaw` | rp-node/src/node_engine.rs:386-400 | the same for a transaction submitted locally and its broadcast |
| `EngineLaws.OfferLaw` | rp-node/src/blockchain.rs:87-93 | the four answers of an offer to the node's pool and the pool after each |
| `EngineLaws.PoolLaw` | rp-node/src/blockchain.rs:87-133 | over every run, crashes and restarts included, the pool is strictly ordered and within capacity |
| `EngineLaws.PeersLaw` | rp-node/src/node_engine.rs:265-289 | over every run gossip reaches exactly the peers last heard to connect |
| `EngineLaws.SilenceLaw` | rp-node/src/node_engine.rs:256-446 | no other input makes the engine send a transaction or an answer |
| `EngineLaws.ConnectLaw` | rp-node/src/node_engine.rs:265-281 | a new peer is asked for the hundred heights after the head, within thirty seconds, saturating |
| `EngineLaws.DisconnectLaw` | rp-node/src/node_engine.rs:283-289 | a lost peer goes with its requests and no others |
| `EngineLaws.TickLaw` | rp-node/src/node_engine.rs:258-263 | a tick sets the clock and drops what is due |
| `EngineLaws.ImportLaw` | rp-node/src/node_engine.rs:436-438 | an import asks for exactly its range |
| `EngineLaws.TraceLaw` | rp-node/src/node_engine.rs:376-383 | inputs that change nothing and what they report |
| `EngineLaws.AskLaw` | rp-node/src/node_engine.rs:307-342 | a range is answered to the peer that asked and nothing changes |
| `EngineLaws.ContinueLaw` | rp-node/src/node_engine.rs:195-212 | each completed request goes on from the next height to its own end, or over a span as long as its own, in order, unless the next height is 0 |
| `EngineLaws.SaturationExact` | rp-node/src/node_engine.rs:135-135 | saturating arithmetic is exact arithmetic cut off at both ends of u64 |
| `EngineLaws.ResponseLaw` | rp-node/src/node_engine.rs:343-375 | a response completes exactly the peer's requests, ingests its blocks in order, continues the requests, and is acknowledged if nothing came of it |
| `EngineLaws.ParkLaw` | rp-node/src/node_engine.rs:244-252 | a block on another parent than the head is filed last behind those that wait for that parent, and that state is loaded |
| `EngineLaws.RefuseLaw` | rp-node/src/node_engine.rs:215-224 | a refused child of the head changes nothing and is reported |
| `EngineLaws.ExtendLaw` | rp-node/src/node_engine.rs:226-243 | an accepted child of the head becomes the head, is persisted with its state and reported, and releases what waits for it |
| `EngineLaws.LoadLaw` | rp-node/src/node_engine.rs:402-430 | the five outcomes of a snapshot load, the height asked for below a missing one included |
| `EngineLaws.RestoreLaw` | rp-node/src/node_engine.rs:55-86 | the four outcomes of a restore and the chain after a successful one |
| `Sync.CatchUp` | rp-node/src/node_engine.rs:195-254 | a requester with nothing parked, one request from no later than just above its head, and its head on the responder's canonical chain reaches the responder's exact head and state, for any chunk limit, within one round per missing height plus one |
| `Sync.RoundStep` | rp-runtime/src/network/manager.rs:460-473 | every clamped and served round finishes or strictly raises the height asked for |
| `Sync.ClampExact` | rp-runtime/src/network/manager.rs:460-473 | a peer is asked from the same height for exactly as many heights as its limit and the range allow |
| `Sync.AnswerIsResponse` | rp-node/src/node_engine.rs:307-342 | the answer to any range: which slice of the canonical chain, whether there is more, and from which height to go on |
| `Sync.GapStalls` | rp-node/src/node_engine.rs:343-375 | a request that starts above the block after the head, or is inverted at or above the responder's first block, never moves the head however many rounds follow |
| `Sync.CatchUpExactly` | rp-node/src/node_engine.rs:307-375 | the loop ends with the responder's head and state if and only if the requester has them or its request reaches down to the block after its head and is a range or starts below the responder's history |
| `Agreement.JoinReplay` | rp-node/src/blockchain.rs:95-139 | two nodes' records of accepted blocks join into one in which every block keeps its true state |
| `Agreement.NodesAgree` | rp-node/src/node_engine.rs:307-375 | for any two nodes after any runs of their own, crashes and restarts included, the catch-up loop ends in agreement under exactly that condition |
| `Agreement.FreshNodeSyncs` | rp-node/src/node_engine.rs:265-281 | a node that has just started and connects to any reachable node with history down to genesis ends with that node's exact head and state, for any chunk limit |
| `Scenarios.ResponderMoves` | rp-node/src/node_engine.rs:214-254 | those hypotheses are met by a responder past genesis: one announced empty block with a verifying signature becomes the head above a full history |
| `Scenarios.GapPair` | rp-node/src/node_engine.rs:436-438 | two reachable nodes with different heads, the requester's on the responder's chain, that no number of rounds brings together, because the import asked for leaves a gap |
| `Backfill.Cascade` | rp-node/src/node_engine.rs:154-193 | when a block becomes the head and every later block of the responder's chain is parked, one import brings in the whole chain |
| `Backfill.NeverStalls` | rp-node/src/node_engine.rs:145-152 | after the responder's head is announced, in whatever order loads and ranges are answered, until the requester has the responder's head the load or request that moves the walk down is waiting, and the walk never goes back up |
| `Backfill.AnnouncedHeadReached` | rp-node/src/node_engine.rs:402-430 | a node any number of blocks behind on the responder's chain, told only of the responder's head, asks its way down one parent at a time and ends with the responder's exact head and state, for any chunk limit, answers first come, first served |
| `Nvs.SlotKeyInjective` | erp-runtime/src/storage/nvs_storage.rs:37-47 | different prefix, bucket or slot means a different key, and none is the snapshot pointer's |
| `Nvs.SlotKeyFormat` | erp-runtime/src/storage/nvs_storage.rs:37-47 | a key spells out its prefix, the first six bytes of the hash and the slot, two lower-case hexadecimal digits a byte |
| `Nvs.LoadExact` | erp-runtime/src/storage/nvs_storage.rs:79-101 | on any store, damaged ones included, which slot decides a load and how |
| `Nvs.SaveExact` | erp-runtime/src/storage/nvs_storage.rs:103-132 | on any store, which slot a save writes, and when it fails |
| `Nvs.BundleExact` | erp-runtime/src/storage/nvs_storage.rs:152-228 | a bundle is found exactly if the latest hash is whole, its block loads, decodes and has that hash, and its snapshot loads |
| `Nvs.NvsStorage.LoadHashedBlob` | erp-runtime/src/storage/nvs_storage.rs:79-101 | the probe over 256 slots, skipping empty ones and failing on a short blob, computes the lookup |
| `Nvs.NvsStorage.SaveHashedBlob` | erp-runtime/src/storage/nvs_storage.rs:103-132 | the probe writes the hash's own slot or the first free one, or fails and writes nothing |
| `Nvs.NvsStorage.PersistSnapshot` | erp-runtime/src/storage/nvs_storage.rs:230-237 | the snapshot blob, then the pointer |
| `Nvs.NvsStorage.LoadLatestSnapshotBundle` | erp-runtime/src/storage/nvs_storage.rs:152-206 | the pointer, block and snapshot loads and their six ways to yield nothing |
| `Nvs.SaveRefinesUpdate` | erp-runtime/src/storage/nvs_storage.rs:79-132 | a successful save is an update of one entry of a plain map from full hash to payload: that hash reads back, every other hash and the pointer are unchanged, and the slot invariant is kept |
| `Nvs.SaveFailsWhenFull` | erp-runtime/src/storage/nvs_storage.rs:103-132 | a save fails if and only if 256 other hashes with its six-byte prefix are stored |
| `System.ExecOk` | erp-runtime/src/storage/manager.rs:22-79 | every event of a node with storage (input, write, load, restore, crash) keeps the replay invariant, the truth of flash, queued writes and loads under way, and that every stored or queued block is one the engine emitted |
| `System.RunReplays` | rp-node/src/node_engine.rs:154-254 | over every run, restarts included, one genesis-rooted record, whose every other block this run handed to storage, holds the node's tree; its state is the replay of its head, each block was validated on its parent's replay, each but genesis carries a verifying signature of its validator, and every persist emitted or queued is true and paired with its snapshot |
| `System.RestartSafe` | erp-runtime/src/storage/nvs_storage.rs:152-237 | cutting the writes of any run anywhere leaves no pointer, or a block and state bytes that the engine emitted as one persist pair in this run; they are that block's true state, a restart loads them and the root check accepts them |
| `RunLaws.TreeLaws` | rp-node/src/blockchain.rs:30-53 | every block of every reachable tree ends an accepted chain from genesis on which each sender's sequence numbers are 0, 1, 2, ..., after which every balance and stake is 0 and no validator is expected at any height; at the head that state is the node's |
| `RunLaws.NodeHoldsNothing` | rp-node/src/blockchain.rs:30-53 | the state of every reachable node totals 0 and its leader check accepts any validator |
| `Wake.WakeManager.constructor` | erp-runtime/src/wake/manager.rs:26-33 | a heartbeat one second ahead, saturating |
| `Wake.WakeManager.HandleCommand` | erp-runtime/src/wake/manager.rs:65-70 | a schedule replaces the alarm, a cancel clears it |
| `Wake.WakeManager.Run` | erp-runtime/src/wake/manager.rs:35-63 | the select loop, whatever wakes it in whatever order, is the sequence of timer turns of the protocol |
| `Wake.StepWake` | rp-node/src/node_engine.rs:92-108 | after every step the recorded wake-up is the earliest pending deadline, and one command goes out exactly when it changed |
| `Wake.NoLostWake` | rp-node/src/node_engine.rs:256-263 | in every interleaving of engine steps, commands, alarms and ticks the earliest deadline is armed, is the last queued command, or has a tick at or past it under way |
| `Wake.DeadlineMet` | erp-runtime/src/wake/manager.rs:35-96 | from every such state some turns of the timer and its ticks alone carry the engine past its earliest deadline and drop no request that outlives the ticks |
| `Wake.DeadlineFair` | erp-runtime/src/wake/manager.rs:35-96 | in every schedule that, once the time is past `d`, delivers the ticks under way, handles the waiting commands, looks at the alarm and delivers a tick, whatever else happens in between, there is a moment at which no request due by `d` is pending |
| `Noise.LengthFits` | erp-runtime/src/network/transport/noise.rs:167-180 | the 16-bit length of a frame never truncates (65535-byte limit, section 3 of the Noise Protocol Framework) and reads back |
| `Noise.Flush` | erp-runtime/src/network/transport/noise.rs:182-219 | the inner stream takes the queued frame in order, each byte once; done means all of it, anything else leaves the frame as it was |
| `Noise.FillFrameFlow` | erp-runtime/src/network/transport/noise.rs:67-165 | however short the reads, filling moves whole plaintext chunks from the byte flow to the buffer, in order, and fails only if the inner stream failed or ended |
| `Noise.Transparent` | erp-runtime/src/network/transport/noise.rs:222-313 | for every schedule of short reads, short writes, not-ready answers, flushes and failures, what is delivered is a prefix of what was accepted or is in flight, equal once drained; and a prefix of what was reported accepted exactly unless the pending write's frame is open and partly handed out |
| `Noise.AheadOfAcceptance` | erp-runtime/src/network/transport/noise.rs:251-305 | a schedule in which delivered is not a prefix of accepted |
| `Noise.ReadsSucceed` | erp-runtime/src/network/transport/noise.rs:223-247 | in every run a read fails or reports the end only if the inner stream did |
| `Noise.ReadAmount` | erp-runtime/src/network/transport/noise.rs:223-247 | a read hands out as much as fits of what is open, opening the next chunk first if nothing is, and keeps the rest |
| `Noise.WriteAmount` | erp-runtime/src/network/transport/noise.rs:167-180 | a fresh write seals at most 65519 bytes, reports that many, and sends exactly their length and ciphertext |
| `Noise.WriteVerdict` | erp-runtime/src/network/transport/noise.rs:251-305 | a resumed write seals nothing new, reports the pending bytes when done, forgets them on an error and keeps them otherwise; a fresh write that must wait remembers what it took |
| `Noise.StreamEnd` | erp-runtime/src/network/transport/noise.rs:88-150 | the end of the inner stream is the end between frames and an error within one |
| `Noise.FlushVerdict` | erp-runtime/src/network/transport/noise.rs:307-313 | a flush is done only when everything queued was taken and the inner stream flushed |
| `Noise.Drains` | erp-runtime/src/network/transport/noise.rs:222-313 | from every run without a writer failure further polls report the pending write accepted and deliver every accepted byte |
| `NoiseStreams.NoiseStream.PollFillPlaintext` | erp-runtime/src/network/transport/noise.rs:67-165 | the nested polling loops terminate and compute the reader function of the theorems |
| `NoiseStreams.NoiseStream.PollFlushPendingFrame` | erp-runtime/src/network/transport/noise.rs:182-219 | the polling loop and the final flush are the writer's flush function |
| `NoiseStreams.NoiseStream.QueueEncryptedFrame` | erp-runtime/src/network/transport/noise.rs:167-180 | at most 65519 bytes are sealed into one frame behind their 16-bit length |
| `NoiseStreams.NoiseStream.PollRead` | erp-runtime/src/network/transport/noise.rs:223-247 | at most the buffer's size is copied out of the plaintext, which is refilled when empty |
| `NoiseStreams.NoiseStream.PollWrite` | erp-runtime/src/network/transport/noise.rs:251-305 | a pending write is finished before anything new is sealed, and reports what that write took |
| `NoiseStreams.NoiseStream.PollFlush` | erp-runtime/src/network/transport/noise.rs:307-313 | the queued frame, then the inner stream |
| `Frames.ReadLengthPrefixedFrame` | rp-codec/src/length_prefixed.rs:63-91 | the byte-by-byte prefix loop and the body read compute the frame function of the round trip, with the same error, and leave exactly the rest of the stream |
| `Frames.VarintRoundTrip` | rp-codec/src/length_prefixed.rs:5-19 | every u32 reads back from its unsigned varint, whatever follows, in at most five bytes |
| `Frames.VarintDigits` | rp-codec/src/length_prefixed.rs:12-13 | a length is spelled seven bits a byte, low bits first, the high bit marking all but the last byte |
| `Frames.EncodeVerdict` | rp-codec/src/length_prefixed.rs:5-19 | a payload is framed exactly if it is within the limit |
| `Frames.OverLimit` | rp-codec/src/length_prefixed.rs:21-61 | a frame over the limit is refused whatever follows |
| `Frames.ShortFrame` | rp-codec/src/length_prefixed.rs:63-91 | every proper prefix of a frame is an unexpected end |
| `Frames.FrameRoundTrip` | rp-codec/src/length_prefixed.rs:5-45 | a framed payload at the front of any stream is read and decoded exactly, and only its bytes are taken |
| `Frames.StreamRoundTrip` | rp-codec/src/length_prefixed.rs:63-91 | any list of payloads within the limit comes back from the concatenation of its frames, and exactly those bytes are consumed |
| `Frames.FrameCanonical` | rp-codec/src/length_prefixed.rs:21-91 | every frame read decodes to a payload within the limit, and is the frame of that payload if and only if no fifth prefix byte is 16 or more |
| `Frames.LostBits` | rp-codec/src/length_prefixed.rs:47-61 | a five-byte prefix with a dropped bit is accepted as the frame of the empty payload |

## Left out

- P-256, SHA-256, the AEAD and the Noise handshake are parameters; key and signature bytes are not interpreted, and a `VerifyingKey` is identified with its 33-byte encoding.
- Arithmetic that overflows is modelled as in an overflow-checked build: the block is refused with `ArithmeticOverflow` (and counted as refused by `Accounting.NoBlockLost`), where the program panics. Builds without the checks, which wrap, are not modelled; `LedgerLaws.ChainFits` says when the two agree.
- `Vec::with_capacity` in the snapshot reader can abort on a huge declared length before the short read is noticed; allocation is not modelled.
- Frames reach the engine decoded: a message, or nothing for bytes that do not decode. Postcard and protobuf payload codecs are taken as inverse pairs.
- Relaying a transaction is one action with the set of recipients; the program emits one frame for each in key order.
- `StepsDown`, the guard of the tree walks, also stops at a parent that is not lower, so that the walks are total functions; `Walks.RootedStep` shows that no reachable tree has one, and the loops in `Blockchains.Blockchain` do not test for it.
- `NodeEngines.NodeEngine.Step` takes the root of the tree as a ghost argument and asks that the tree hangs from it, which `System.RunReplays` and `World.RootDetached` give for every reachable engine; without it the walks need not end.
- The responder in `Sync`, `Backfill` and `Agreement` does not change and no deadline passes during the loop; each round serves the requester's outstanding request, which is the range of the `RequestBlocks` action it emitted.
- A writer of the encrypted stream that reported an error is not used again, and a pending write is offered the same bytes again, as the asynchronous write interface asks of its callers. Message numbers do not run out. `poll_close` is not modelled.
- `unsigned-varint` and the framing of a stream that blocks between bytes are modelled by what they read, not by their polling.
- `Backfill` starts from the announcement of the responder's head with none of the missing states stored; a requester on a fork, whose walk meets a stored state below its head, is covered only by `Parking.SideBranchWaits`. That the walk stops asking once it has arrived is not claimed: leftover answers can park old blocks again.
- Channel capacities: every queue is an unbounded FIFO. The order in which storage answers loads is arbitrary, which is more than the program allows.
- Flash errors of the underlying key-value driver; only the errors the slot store itself raises are modelled. The six-byte bucket and 256 slots are.
- Sled storage, the libp2p swarm, gossip, peer registries, multistream negotiation, sockets, Wi-Fi, yamux, identity handling, the command line, configuration and logging: plumbing around libraries, or members that would only add easy claims. From the network manager only `clamp_sync_request` is modelled.
- Fee payment, withdrawal of unlocked stake and the heaviest-chain rule of the documentation do not exist in the code: fees only order the mempool, unlocked stake stays where it is, and the highest chain wins.
