/**
 Backfill from an announcement: the responder's head is announced to a node several blocks behind.  The block is parked,
 its parent's snapshot is not stored, and the engine asks for one parent after another, downwards, until a served block
 meets its head; then the parked chain is imported at once.
 */
module Backfill {
  import opened Base
  import opened Models
  import opened Ledger
  import opened LedgerLaws
  import opened Chain
  import opened Walks
  import opened World
  import opened Engine
  import opened Sync

  // ---------------------------------------------------------------- importing a parked chain

  /** The chain's head is place `k` of the responder's chain, in the true state of that block. */
  ghost predicate Tip(c: Crypto, w: World, ch: Chain, server: Chain, path: seq<Hash>, k: nat) {
    && ch.head in ch.nodes && k < |path| && ch.head == path[k]
    && Replay(c, w, path[k]) == Some(ch.state) && Agree(ch.nodes, server.nodes)
  }

  /** Blocks of a tree stay as they are. */
  ghost predicate KeepsNodes(nodes: Nodes, next: Nodes) {
    forall h {:trigger nodes[h]} :: h in nodes ==> h in next && next[h].block == nodes[h].block
  }

  /** The block of place `i`. */
  ghost function At(server: Chain, path: seq<Hash>, i: nat): (r: Block)
    requires i < |path| && path[i] in server.nodes
  {
    server.nodes[path[i]].block
  }

  /** Every hash of the path is a block of the responder. */
  ghost predicate Placed(server: Chain, path: seq<Hash>) {
    && path != [] && path[0] in server.nodes
    && (forall i: nat {:trigger path[i]} :: i < |path| ==> path[i] in server.nodes)
    && (forall h :: h in path ==> h in server.nodes)
  }

  lemma PlaceIn(c: Crypto, w: World, server: Chain, path: seq<Hash>)
    requires Serves(c, w, server, path)
    ensures Placed(server, path)
  {
    hide Replay, ValidatedAt, BlockHash;
  }

  /** Different places are different blocks. */
  lemma PlacesDiffer(c: Crypto, w: World, server: Chain, path: seq<Hash>, i: nat, j: nat)
    requires Serves(c, w, server, path) && i < |path| && j < |path| && i != j
    ensures path[i] != path[j]
  {
    hide Replay, ValidatedAt, BlockHash, Serves;
    PlaceAt(c, w, server, path, i);
    PlaceAt(c, w, server, path, j);
  }

  /** The next block of the chain is accepted on top of the head and becomes the head. */
  lemma NextAdded(c: Crypto, w: World, ch: Chain, server: Chain, path: seq<Hash>, k: nat)
    requires Serves(c, w, server, path) && Tip(c, w, ch, server, path, k) && k + 1 < |path|
    ensures path[k + 1] in server.nodes && path[k] in ch.nodes
    ensures var x := At(server, path, k + 1); var r := AddBlock(c, ch, x, ch.state);
            && x.prev == path[k] && BlockHash(c, x) == path[k + 1]
            && ValidateAndApply(c, ch.nodes[path[k]].block, ch.state, x).Ok?
            && r.Ok? && r.value.1.becameHead && r.value.1.nextState == r.value.0.state
            && Tip(c, w, r.value.0, server, path, k + 1) && KeepsNodes(ch.nodes, r.value.0.nodes)
  {
    hide Replay, BlockHash, ValidateAndApply, Grow, Serves, AddBlock;
    PlaceAt(c, w, server, path, k);
    PlaceAt(c, w, server, path, k + 1);
    var x := At(server, path, k + 1);
    var head := ch.nodes[path[k]].block;
    assert head.height == server.nodes[path[k]].block.height && head.slot == server.nodes[path[k]].block.slot;
    ParentContent(c, server.nodes[path[k]].block, head, ch.state, x);
    AcceptedAtHead(c, ch, x);
    AcceptedDescends(c, ch, x, ch.state);
    GrowBlocks(ch.nodes, path[k + 1], x);
  }

  /** A block of the chain at or below the head changes neither head nor state when it is added again. */
  lemma RepeatAdded(c: Crypto, w: World, ch: Chain, server: Chain, path: seq<Hash>, k: nat, t: nat, ps: State)
    requires Serves(c, w, server, path) && Tip(c, w, ch, server, path, t) && k < t && path[k] in ch.nodes
    requires path[k + 1] in server.nodes && ValidateAndApply(c, ch.nodes[path[k]].block, ps, At(server, path, k + 1)).Ok?
    ensures var r := AddBlock(c, ch, At(server, path, k + 1), ps);
            && r.Ok? && !r.value.1.becameHead
            && Tip(c, w, r.value.0, server, path, t) && KeepsNodes(ch.nodes, r.value.0.nodes)
  {
    hide Replay, BlockHash, ValidateAndApply, Grow, Serves, RemoveMined, ValidatedAt, Less;
    PlaceAt(c, w, server, path, k + 1);
    PlaceAt(c, w, server, path, t);
    var x := At(server, path, k + 1);
    GrowBlocks(ch.nodes, path[k + 1], x);
    assert ch.nodes[path[t]].block.height == server.nodes[path[t]].block.height;
    LessIrreflexive(path[t]);
  }

  /** Whatever is parked under a place from `k` on is the block of the next place. */
  ghost predicate Filed(parked: Parked, server: Chain, path: seq<Hash>, peer: PeerId, k: nat)
    requires Placed(server, path)
  {
    && path != [] && path[|path| - 1] !in parked
    && (forall i: nat {:trigger path[i]} :: k <= i < |path| - 1 && path[i] in parked ==>
          parked[path[i]] != [] && Same(parked[path[i]], ParkedBlock(peer, At(server, path, i + 1))))
  }

  ghost predicate Same(ps: seq<ParkedBlock>, p: ParkedBlock) {
    forall i :: 0 <= i < |ps| ==> ps[i] == p
  }

  /** Every place from `k` to the one before the last has its successor parked. */
  ghost predicate Full(parked: Parked, path: seq<Hash>, k: nat) {
    forall i: nat {:trigger path[i]} :: k <= i < |path| - 1 ==> path[i] in parked
  }

  /** What an import of the parked chain leaves. */
  ghost predicate Landed(c: Crypto, w: World, e: Engine, e': Engine, server: Chain, path: seq<Hash>) {
    && path != [] && Tip(c, w, e'.chain, server, path, |path| - 1) && KeepsNodes(e.chain.nodes, e'.chain.nodes)
    && e'.requests == e.requests
  }

  /** Once place `k` is the head, importing what is parked under it imports the whole parked chain. */
  lemma {:induction false} Cascade(c: Crypto, w: World, e: Engine, server: Chain, path: seq<Hash>, peer: PeerId, k: nat)
    requires Serves(c, w, server, path) && Live(e) && k < |path| && Tip(c, w, e.chain, server, path, k)
    requires Placed(server, path)
    requires Filed(e.parked, server, path, peer, k) && Full(e.parked, path, k)
    ensures Landed(c, w, e, ImportParked(c, e, path[k], e.chain.state).0, server, path)
    decreases |path| - k, 0, 0
  {
    hide Serves, Tip, ImportAll, Replay;
    if k < |path| - 1 {
      var h := path[k];
      assert h in e.parked;
      assert (e.parked - {h}).Keys == e.parked.Keys - {h};
      var e1 := e.(parked := e.parked - {h});
      FiledLess(c, w, e.parked, server, path, peer, k);
      CascadeAll(c, w, e1, server, path, peer, k, e.parked[h]);
    }
  }

  lemma FiledLess(c: Crypto, w: World, parked: Parked, server: Chain, path: seq<Hash>, peer: PeerId, k: nat)
    requires Serves(c, w, server, path) && k < |path|
    requires Placed(server, path)
    requires Filed(parked, server, path, peer, k) && Full(parked, path, k)
    ensures Filed(parked - {path[k]}, server, path, peer, k + 1) && Full(parked - {path[k]}, path, k + 1)
  {
    hide Serves, Same;
    forall i: nat {:trigger path[i]} | k + 1 <= i < |path| ensures path[i] != path[k] { PlacesDiffer(c, w, server, path, i, k); }
  }

  lemma {:induction false} CascadeAll(c: Crypto, w: World, e: Engine, server: Chain, path: seq<Hash>, peer: PeerId, k: nat, blocks: seq<ParkedBlock>)
    requires Serves(c, w, server, path) && Live(e) && Tip(c, w, e.chain, server, path, k) && k + 1 < |path|
    requires Placed(server, path)
    requires Filed(e.parked, server, path, peer, k + 1) && Full(e.parked, path, k + 1)
    requires blocks != [] && Same(blocks, ParkedBlock(peer, At(server, path, k + 1)))
    ensures Landed(c, w, e, ImportAll(c, e, blocks, e.chain.state).0, server, path)
    decreases |path| - k - 1, 1, 0
  {
    hide Serves, Tip, ImportParked, Filed, Full, AddBlock, BlockHash, PersistPair, ValidateAndApply, ImportAll, Replay;
    var x := At(server, path, k + 1);
    NextAdded(c, w, e.chain, server, path, k);
    var ch := AddBlock(c, e.chain, x, e.chain.state).value.0;
    var e1 := e.(chain := ch);
    Cascade(c, w, e1, server, path, peer, k + 1);
    var e2 := ImportOne(c, e, x, e.chain.state).0;
    assert e2 == ImportParked(c, e1, path[k + 1], ch.state).0;
    KeepsThen(e.chain.nodes, ch.nodes, e2.chain.nodes);
    assert path[k] in e.chain.nodes && e.chain.nodes[path[k]] == e.chain.nodes[path[k]];
    RepeatAll(c, w, e2, server, path, k, blocks[1..], e.chain.state, peer);
    ImportAllFirst(c, e, blocks, e.chain.state);
    KeepsThen(e.chain.nodes, e2.chain.nodes, ImportAll(c, e, blocks, e.chain.state).0.chain.nodes);
  }

  lemma ImportAllFirst(c: Crypto, e: Engine, blocks: seq<ParkedBlock>, ps: State)
    requires Live(e) && blocks != []
    ensures var e1 := ImportOne(c, e, blocks[0].block, ps).0;
            ImportAll(c, e, blocks, ps).0 == ImportAll(c, e1, blocks[1..], ps).0
  {
    hide ImportOne;
  }

  lemma KeepsThen(a: Nodes, b: Nodes, d: Nodes)
    requires KeepsNodes(a, b) && KeepsNodes(b, d)
    ensures KeepsNodes(a, d)
  {
  }

  /** Further copies of a block that is in by now. */
  lemma {:induction false} RepeatAll(c: Crypto, w: World, e: Engine, server: Chain, path: seq<Hash>, k: nat, blocks: seq<ParkedBlock>, ps: State, peer: PeerId)
    requires Serves(c, w, server, path) && Live(e) && k + 1 < |path| && Tip(c, w, e.chain, server, path, |path| - 1)
    requires path[k + 1] in server.nodes && path[k] in e.chain.nodes
    requires ValidateAndApply(c, e.chain.nodes[path[k]].block, ps, At(server, path, k + 1)).Ok?
    requires Same(blocks, ParkedBlock(peer, At(server, path, k + 1)))
    ensures Landed(c, w, e, ImportAll(c, e, blocks, ps).0, server, path)
    decreases |blocks|
  {
    hide Serves, Tip, ImportParked, AddBlock, BlockHash, PersistPair, ValidateAndApply, Replay;
    if blocks != [] {
      var x := At(server, path, k + 1);
      assert blocks[0].block == x;
      RepeatAdded(c, w, e.chain, server, path, k, |path| - 1, ps);
      var e1 := ImportOne(c, e, x, ps).0;
      assert e1 == e.(chain := AddBlock(c, e.chain, x, ps).value.0);
      assert e.chain.nodes[path[k]] == e.chain.nodes[path[k]];
      RepeatAll(c, w, e1, server, path, k, blocks[1..], ps, peer);
      KeepsThen(e.chain.nodes, e1.chain.nodes, ImportAll(c, e, blocks, ps).0.chain.nodes);
    }
  }

  // ---------------------------------------------------------------- parking what is served

  /** What the engine's actions leave for others to do: a snapshot to load, or a range to ask the peer for. */
  datatype Job = Load(hash: Hash) | Ask(lo: u64, hi: u64)

  function JobOf(act: Action): (r: seq<Job>) {
    match act
    case LoadSnapshot(h) => [Load(h)]
    case RequestBlocks(_, lo, hi) => [Ask(lo, hi)]
    case _ => []
  }

  function Jobs(acts: seq<Action>): (r: seq<Job>) {
    if acts == [] then [] else Jobs(acts[..|acts| - 1]) + JobOf(acts[|acts| - 1])
  }

  lemma {:induction false} JobsConcat(a: seq<Action>, b: seq<Action>)
    ensures Jobs(a + b) == Jobs(a) + Jobs(b)
    decreases |b|
  {
    hide JobOf;
    if b == [] {
      assert a + b == a;
    } else {
      var n := |b| - 1;
      assert (a + b)[..|a| + n] == a + b[..n] && (a + b)[|a| + n] == b[n];
      JobsConcat(a, b[..n]);
      Regroup(Jobs(a), Jobs(b[..n]), JobOf(b[n]));
    }
  }

  lemma JobsOne(act: Action)
    ensures Jobs([act]) == JobOf(act)
  {
    assert [act][..0] == [];
    assert Jobs([]) == [];
  }

  /** A job from place `f` on: a snapshot of such a place, or a range that starts there. */
  ghost predicate FromPlace(j: Job, first: u64, path: seq<Hash>, f: nat)
    requires f <= |path|
  {
    match j
    case Load(h) => h in path[f..]
    case Ask(lo, _) => lo >= first + f
  }

  ghost predicate AllFrom(jobs: seq<Job>, first: u64, path: seq<Hash>, f: nat)
    requires f <= |path|
  {
    forall i :: 0 <= i < |jobs| ==> FromPlace(jobs[i], first, path, f)
  }

  /** What parking served blocks from place `i` to place `j - 1` leaves, when `parked` held the places from `a + 1` right. */
  ghost predicate Parks(e: Engine, e': Engine, jobs: seq<Job>, server: Chain, path: seq<Hash>, peer: PeerId, a: nat, i: nat, j: nat)
    requires Placed(server, path)
  {
    && 0 < i <= j <= |path|
    && e'.chain == e.chain && e'.requests == e.requests
    && Filed(e'.parked, server, path, peer, a + 1)
    && (forall n: nat {:trigger path[n]} :: n < |path| && path[n] in e.parked ==> path[n] in e'.parked)
    && (forall n: nat {:trigger path[n]} :: i <= n + 1 < j ==> path[n] in e'.parked)
    && AllFrom(jobs, First(server, path), path, i - 1)
    && (i < j ==> Load(path[i - 1]) in jobs)
  }

  /** One block from above a gap is parked under the place below it. */
  lemma ParkOne(c: Crypto, w: World, e: Engine, server: Chain, path: seq<Hash>, peer: PeerId, a: nat, i: nat)
    requires Serves(c, w, server, path) && Live(e) && a < |path| && e.chain.head == path[a] && a + 1 < i < |path|
    requires Placed(server, path)
    requires Filed(e.parked, server, path, peer, a + 1)
    ensures var (e', acts) := IngestBlock(c, e, peer, At(server, path, i));
            && e'.chain == e.chain && e'.requests == e.requests && acts == [LoadSnapshot(path[i - 1])]
            && Filed(e'.parked, server, path, peer, a + 1)
            && e'.parked.Keys == e.parked.Keys + {path[i - 1]}
  {
    hide Serves, AddBlock, ImportParked, PersistPair, BlockHash;
    NotTheParent(c, w, server, path, a, i);
    BlockBelow(c, w, server, path, i);
    var x := At(server, path, i);
    PlacesDiffer(c, w, server, path, i - 1, |path| - 1);
    FiledPark(c, w, e.parked, server, path, peer, a, i);
  }

  lemma BlockBelow(c: Crypto, w: World, server: Chain, path: seq<Hash>, i: nat)
    requires Serves(c, w, server, path) && 0 < i < |path|
    ensures path[i] in server.nodes && At(server, path, i).prev == path[i - 1]
    ensures path[0] in server.nodes && At(server, path, i).height == First(server, path) + i
  {
    hide Serves, ValidatedAt, BlockHash;
    PlaceAt(c, w, server, path, i);
  }

  lemma FiledPark(c: Crypto, w: World, parked: Parked, server: Chain, path: seq<Hash>, peer: PeerId, a: nat, i: nat)
    requires Serves(c, w, server, path) && a + 1 < i < |path|
    requires Placed(server, path)
    requires At(server, path, i).prev == path[i - 1] && path[i - 1] != path[|path| - 1]
    requires Filed(parked, server, path, peer, a + 1)
    ensures Filed(Park(parked, peer, At(server, path, i)), server, path, peer, a + 1)
  {
    hide Serves;
    var x, next := At(server, path, i), Park(parked, peer, At(server, path, i));
    assert path[i - 1] in server.nodes;
    forall n: nat {:trigger path[n]} | a + 1 <= n < |path| - 1 && path[n] in next
      ensures next[path[n]] != [] && Same(next[path[n]], ParkedBlock(peer, At(server, path, n + 1)))
    {
      if n != i - 1 { PlacesDiffer(c, w, server, path, n, i - 1); }
    }
  }

  /** Serving a slice from above a gap parks every block of it. */
  lemma {:induction false} ParkSlice(c: Crypto, w: World, e: Engine, server: Chain, path: seq<Hash>, peer: PeerId, a: nat, i: nat, j: nat)
    requires Serves(c, w, server, path) && Live(e) && a < |path| && e.chain.head == path[a] && a + 1 < i <= j <= |path|
    requires Placed(server, path)
    requires Filed(e.parked, server, path, peer, a + 1)
    ensures var (e', acts) := IngestAll(c, e, peer, BlocksAt(server.nodes, path[i..j]));
            Parks(e, e', Jobs(acts), server, path, peer, a, i, j)
    decreases j
  {
    hide Serves, BlocksAt, IngestBlock, Filed, Jobs, AllFrom, First;
    if i == j {
      assert path[i..j] == [];
      EmptyIngest(c, e, peer, server.nodes);
      NoJobs();
      NoneFrom(First(server, path), path, i - 1);
    } else {
      var n := j - 1;
      assert path[i..j] == path[i..n] + [path[n]];
      assert path[n] in path;
      BlocksSnoc(server.nodes, path[i..n], path[n]);
      var blocks := BlocksAt(server.nodes, path[i..n]);
      ParkSlice(c, w, e, server, path, peer, a, i, n);
      var (e1, acts) := IngestAll(c, e, peer, blocks);
      ParkOne(c, w, e1, server, path, peer, a, n);
      IngestSnocActs(c, e, peer, blocks, At(server, path, n));
      JobsConcat(acts, [LoadSnapshot(path[n - 1])]);
      JobsOne(LoadSnapshot(path[n - 1]));
      ParksSnoc(c, w, e, e1, IngestBlock(c, e1, peer, At(server, path, n)).0, Jobs(acts), server, path, peer, a, i, n);
    }
  }

  lemma NoJobs()
    ensures Jobs([]) == []
  {
  }

  lemma IngestSnocActs(c: Crypto, e: Engine, peer: PeerId, blocks: seq<Block>, x: Block)
    requires Live(e)
    ensures var (e1, acts) := IngestAll(c, e, peer, blocks); var (e2, more) := IngestBlock(c, e1, peer, x);
            IngestAll(c, e, peer, blocks + [x]) == (e2, acts + more)
  {
    hide IngestBlock;
    assert (blocks + [x])[..|blocks|] == blocks;
  }

  lemma ParksSnoc(c: Crypto, w: World, e: Engine, e1: Engine, e2: Engine, jobs: seq<Job>, server: Chain, path: seq<Hash>, peer: PeerId, a: nat, i: nat, n: nat)
    requires Placed(server, path)
    requires 0 < i <= n < |path| && Parks(e, e1, jobs, server, path, peer, a, i, n)
    requires e2.chain == e1.chain && e2.requests == e1.requests && Filed(e2.parked, server, path, peer, a + 1)
    requires e2.parked.Keys == e1.parked.Keys + {path[n - 1]}
    ensures Parks(e, e2, jobs + [Load(path[n - 1])], server, path, peer, a, i, n + 1)
  {
    hide Filed, AllFrom;
    var one := [Load(path[n - 1])];
    LoadFrom(First(server, path), path, i - 1, n - 1);
    AllFromConcat(jobs, one, First(server, path), path, i - 1);
    assert one[0] in jobs + one;
    assert path[n - 1] in e2.parked;
  }

  lemma NoneFrom(first: u64, path: seq<Hash>, f: nat)
    requires f <= |path|
    ensures AllFrom([], first, path, f)
  {
  }

  lemma LoadFrom(first: u64, path: seq<Hash>, f: nat, n: nat)
    requires f <= n < |path|
    ensures AllFrom([Load(path[n])], first, path, f)
  {
    assert path[f..][n - f] == path[n];
  }

  // ---------------------------------------------------------------- the block that closes the gap

  /** The block after the head is served while everything above it is parked: the whole chain is imported. */
  lemma LandFirst(c: Crypto, w: World, e: Engine, server: Chain, path: seq<Hash>, peer: PeerId, a: nat)
    requires Serves(c, w, server, path) && Live(e) && a + 1 < |path| && Tip(c, w, e.chain, server, path, a)
    requires Placed(server, path)
    requires Filed(e.parked, server, path, peer, a + 1) && Full(e.parked, path, a + 1)
    ensures Landed(c, w, e, IngestBlock(c, e, peer, At(server, path, a + 1)).0, server, path)
  {
    hide Serves, Filed, Full, ImportParked, AddBlock, BlockHash, PersistPair, ValidateAndApply, Replay;
    var x := At(server, path, a + 1);
    NextAdded(c, w, e.chain, server, path, a);
    var ch := AddBlock(c, e.chain, x, e.chain.state).value.0;
    var e1 := e.(chain := ch);
    Cascade(c, w, e1, server, path, peer, a + 1);
    var e2 := IngestBlock(c, e, peer, x).0;
    assert e2 == ImportParked(c, e1, path[a + 1], ch.state).0;
    KeepsThen(e.chain.nodes, ch.nodes, e2.chain.nodes);
  }

  lemma {:induction false} LandSlice(c: Crypto, w: World, e: Engine, server: Chain, path: seq<Hash>, peer: PeerId, a: nat, j: nat)
    requires Serves(c, w, server, path) && Live(e) && a + 1 < j <= |path| && Tip(c, w, e.chain, server, path, a)
    requires Placed(server, path)
    requires Filed(e.parked, server, path, peer, a + 1) && Full(e.parked, path, a + 1)
    ensures Landed(c, w, e, IngestAll(c, e, peer, BlocksAt(server.nodes, path[a + 1..j])).0, server, path)
    decreases j
  {
    hide Serves, BlocksAt, IngestBlock, Filed, Full, Landed, Tip;
    var n := j - 1;
    assert path[n] in path;
    assert path[a + 1..j] == path[a + 1..n] + [path[n]];
    BlocksSnoc(server.nodes, path[a + 1..n], path[n]);
    var blocks := BlocksAt(server.nodes, path[a + 1..n]);
    IngestSnoc(c, e, peer, blocks, At(server, path, n));
    if n == a + 1 {
      assert path[a + 1..n] == [];
      EmptyIngest(c, e, peer, server.nodes);
      LandFirst(c, w, e, server, path, peer, a);
    } else {
      LandSlice(c, w, e, server, path, peer, a, n);
      LandedMore(c, w, e, IngestAll(c, e, peer, blocks).0, server, path, peer, n);
    }
  }

  lemma LandedMore(c: Crypto, w: World, e: Engine, e1: Engine, server: Chain, path: seq<Hash>, peer: PeerId, n: nat)
    requires Serves(c, w, server, path) && Live(e1) && 0 < n < |path| && Landed(c, w, e, e1, server, path)
    requires path[n] in server.nodes
    ensures Landed(c, w, e, IngestBlock(c, e1, peer, At(server, path, n)).0, server, path)
  {
    hide Serves, AddBlock, ImportParked, PersistPair, Replay, Agree, KeepsNodes;
    NotTheParent(c, w, server, path, |path| - 1, n);
  }

  // ---------------------------------------------------------------- jobs

  datatype Walk = Walk(engine: Engine, jobs: seq<Job>)

  /** Handle one job, whichever: storage answers a load, the responder a range. */
  function HandleJob(c: Crypto, k: Walk, server: Chain, peer: PeerId, limit: Option<u64>, stored: Hash -> Option<Bytes>, n: nat): (r: Walk)
    requires Live(k.engine) && server.head in server.nodes && n < |k.jobs|
    ensures Live(r.engine)
  {
    var rest := k.jobs[..n] + k.jobs[n + 1..];
    var (e, acts) := Step(c, k.engine, JobInput(k.jobs[n], server, peer, limit, stored));
    Walk(e, rest + Jobs(acts))
  }

  function JobInput(j: Job, server: Chain, peer: PeerId, limit: Option<u64>, stored: Hash -> Option<Bytes>): (r: Input)
    requires server.head in server.nodes
  {
    match j
    case Load(h) => StorageLoaded(h, stored(h))
    case Ask(lo, hi) => var (l, u) := Clamp(limit, lo, hi); FrameReceived(peer, Some(Respond(server, l, u)))
  }

  /** The wake-up at the end of a step is no job. */
  lemma StepJobs(c: Crypto, e: Engine, i: Input)
    requires Live(e)
    ensures var (e1, acts1) := React(c, e, i); var (e2, acts2) := Step(c, e, i);
            e2.chain == e1.chain && e2.parked == e1.parked && Jobs(acts2) == Jobs(acts1)
  {
    hide React, EarliestDeadline, Jobs;
    var (e1, acts1) := React(c, e, i);
    var wake := SyncWake(e1).1;
    JobsConcat(acts1, wake);
    NoJobs();
    if wake != [] { JobsOne(wake[0]); }
  }

  ghost predicate AsksFrom(jobs: seq<Job>, next: u64) {
    forall i :: 0 <= i < |jobs| ==> jobs[i].Ask? && jobs[i].lo == next
  }

  lemma {:induction false} ContinueJobs(e: Engine, done: seq<PendingRequest>, next: u64)
    ensures AsksFrom(Jobs(ContinueAll(e, done, next).1), next)
    decreases |done|
  {
    hide Jobs;
    NoJobs();
    if done != [] && next != 0 {
      var n := |done| - 1;
      ContinueJobs(e, done[..n], next);
      var (e1, acts) := ContinueAll(e, done[..n], next);
      var q := done[n];
      var act := QueueRequest(e1, q.peer, NextRange(q, next).0, NextRange(q, next).1).1;
      JobsConcat(acts, [act]);
      JobsOne(act);
    } else if done != [] {
      ContinueJobs(e, done[..|done| - 1], next);
      assert ContinueAll(e, done, next).1 == ContinueAll(e, done[..|done| - 1], next).1;
    }
  }

  /** A response: its blocks are ingested, and every further job asks from the height it names next. */
  lemma ResponseJobs(c: Crypto, e: Engine, peer: PeerId, blocks: seq<Block>, more: bool, next: Option<u64>) returns (e0: Engine, extra: seq<Job>)
    requires Live(e)
    ensures Live(e0) && e0.chain == e.chain && e0.parked == e.parked
    ensures var (e', acts) := Step(c, e, FrameReceived(peer, Some(SyncResponse(blocks, more, next))));
            var (e1, acts1) := IngestAll(c, e0, peer, blocks);
            && e'.chain == e1.chain && e'.parked == e1.parked
            && Jobs(acts) == Jobs(acts1) + extra
            && (if next.Some? then AsksFrom(extra, next.value) else extra == [])
  {
    hide IngestAll, ContinueAll, RequestsOf, RequestsNotOf, Jobs, Step;
    StepJobs(c, e, FrameReceived(peer, Some(SyncResponse(blocks, more, next))));
    e0 := e.(requests := RequestsNotOf(e.requests, peer));
    var done := RequestsOf(e.requests, peer);
    var (e1, acts) := IngestAll(c, e0, peer, blocks);
    var further := if next.Some? then ContinueAll(e1, done, next.value).1 else [];
    extra := Jobs(further);
    NoJobs();
    if next.Some? {
      ContinueJobs(e1, done, next.value);
    }
    JobsConcat(acts, further);
    JobsOne(FrameIgnored(peer));
  }

  // ---------------------------------------------------------------- the walk

  /** The job that moves the walk on from place `f`: its snapshot to load, or its block to ask for. */
  ghost predicate Front(j: Job, first: u64, path: seq<Hash>, f: nat)
    requires f < |path|
  {
    j == Load(path[f]) || (j.Ask? && j.lo == j.hi == first + f)
  }

  /** The walk has come down to place `f`: everything above it is parked, nothing below it is asked for, and the job that
      moves it on is waiting at place `p` of the jobs. */
  ghost predicate Walking(c: Crypto, w: World, k: Walk, server: Chain, path: seq<Hash>, peer: PeerId, a: nat, f: nat, p: nat)
    requires Placed(server, path)
  {
    && Live(k.engine) && Tip(c, w, k.engine.chain, server, path, a) && a < f < |path| - 1
    && Filed(k.engine.parked, server, path, peer, a + 1) && Full(k.engine.parked, path, f)
    && AllFrom(k.jobs, First(server, path), path, f)
    && p < |k.jobs| && Front(k.jobs[p], First(server, path), path, f)
  }

  /** The responder's head and state. */
  ghost predicate Arrived(e: Engine, server: Chain) { e.chain.head == server.head && e.chain.state == server.state }

  lemma LandedArrives(c: Crypto, w: World, e: Engine, e': Engine, server: Chain, path: seq<Hash>)
    requires Serves(c, w, server, path) && Landed(c, w, e, e', server, path)
    ensures Arrived(e', server)
  {
    hide Replay, Place, Agree, KeepsNodes;
  }

  ghost predicate Unstored(stored: Hash -> Option<Bytes>, path: seq<Hash>, a: nat) {
    forall i: nat {:trigger path[i]} :: a < i < |path| ==> stored(path[i]) == None
  }

  /** A load of place `i` that is not stored asks for the block of place `i`, if something waits for it. */
  lemma LoadJob(c: Crypto, w: World, e: Engine, server: Chain, path: seq<Hash>, peer: PeerId, a: nat, i: nat)
    requires Serves(c, w, server, path) && Live(e) && a < i < |path|
    requires Placed(server, path)
    requires Filed(e.parked, server, path, peer, a + 1)
    ensures var (e', acts) := Step(c, e, StorageLoaded(path[i], None));
            && e'.chain == e.chain && e'.parked == e.parked
            && (path[i] !in e.parked ==> Jobs(acts) == [])
            && (path[i] in e.parked ==> exists h: u64 :: h == First(server, path) + i && Jobs(acts) == [Ask(h, h)])
  {
    hide Serves, Jobs, Step, ImportParked;
    StepJobs(c, e, StorageLoaded(path[i], None));
    JobsOne(ReportEvent(UnexpectedSnapshotResult));
    if path[i] in e.parked {
      assert i < |path| - 1;
      BlockBelow(c, w, server, path, i + 1);
      assert e.parked[path[i]][0] == ParkedBlock(peer, At(server, path, i + 1));
      var h: u64 := First(server, path) + i;
      JobsConcat([ReportEvent(ParentSnapshotMissing)], [RequestBlocks(peer, h, h)]);
      JobsOne(ReportEvent(ParentSnapshotMissing));
      JobsOne(RequestBlocks(peer, h, h));
      assert [ReportEvent(ParentSnapshotMissing), RequestBlocks(peer, h, h)] == [ReportEvent(ParentSnapshotMissing)] + [RequestBlocks(peer, h, h)];
      assert Jobs(React(c, e, StorageLoaded(path[i], None)).1) == [Ask(h, h)];
    }
  }

  lemma AllFromLess(jobs: seq<Job>, first: u64, path: seq<Hash>, f: nat, g: nat)
    requires g <= f <= |path| && AllFrom(jobs, first, path, f)
    ensures AllFrom(jobs, first, path, g)
  {
    forall i | 0 <= i < |jobs| ensures FromPlace(jobs[i], first, path, g) {
      assert FromPlace(jobs[i], first, path, f);
      if jobs[i].Load? {
        var n :| 0 <= n < |path[f..]| && path[f..][n] == jobs[i].hash;
        assert path[g..][f - g + n] == jobs[i].hash;
      }
    }
  }

  lemma AllFromConcat(a: seq<Job>, b: seq<Job>, first: u64, path: seq<Hash>, f: nat)
    requires f <= |path| && AllFrom(a, first, path, f) && AllFrom(b, first, path, f)
    ensures AllFrom(a + b, first, path, f)
  {
    hide FromPlace;
  }

  /** The head has not moved, everything from place `f` up is parked, and new jobs are from there on. */
  ghost predicate Stays(e: Engine, e': Engine, jobs: seq<Job>, server: Chain, path: seq<Hash>, peer: PeerId, a: nat, f: nat)
    requires Placed(server, path)
  {
    && f <= |path| && e'.chain == e.chain
    && Filed(e'.parked, server, path, peer, a + 1) && Full(e'.parked, path, f)
    && AllFrom(jobs, First(server, path), path, f)
  }

  /** The walk has come one place down. */
  ghost predicate Lowers(e: Engine, e': Engine, jobs: seq<Job>, server: Chain, path: seq<Hash>, peer: PeerId, a: nat, f: nat)
    requires Placed(server, path)
  {
    a < f - 1 < |path| && Stays(e, e', jobs, server, path, peer, a, f - 1) && Load(path[f - 1]) in jobs
  }

  /** What an answer can do: complete the chain, leave the walk where it is, or bring it down; a served front moves it. */
  ghost predicate Progress(e: Engine, e': Engine, jobs: seq<Job>, server: Chain, path: seq<Hash>, peer: PeerId, a: nat, f: nat, front: bool)
    requires Placed(server, path)
  {
    || Arrived(e', server)
    || (!front && Stays(e, e', jobs, server, path, peer, a, f))
    || Lowers(e, e', jobs, server, path, peer, a, f)
  }

  /** A served slice from place `i` on. */
  lemma SliceJob(c: Crypto, w: World, e: Engine, server: Chain, path: seq<Hash>, peer: PeerId, a: nat, f: nat, i: nat, j: nat, more: bool, next: Option<u64>)
    requires Serves(c, w, server, path) && Live(e) && Tip(c, w, e.chain, server, path, a) && a < f <= i < j <= |path|
    requires Placed(server, path)
    requires Filed(e.parked, server, path, peer, a + 1) && Full(e.parked, path, f)
    requires next.Some? ==> next.value >= First(server, path) + f
    ensures var m := SyncResponse(BlocksAt(server.nodes, path[i..j]), more, next);
            var (e', acts) := Step(c, e, FrameReceived(peer, Some(m)));
            Progress(e, e', Jobs(acts), server, path, peer, a, f, i == f)
  {
    hide Serves, Tip, Filed, Full, Step, Jobs, IngestAll, BlocksAt, Landed, AllFrom, First;
    var blocks := BlocksAt(server.nodes, path[i..j]);
    var e0, extra := ResponseJobs(c, e, peer, blocks, more, next);
    var (e1, acts1) := IngestAll(c, e0, peer, blocks);
    TipHead(c, w, e.chain, server, path, a);
    if i == a + 1 {
      LandSlice(c, w, e0, server, path, peer, a, j);
      LandedArrives(c, w, e0, e1, server, path);
    } else {
      ParkSlice(c, w, e0, server, path, peer, a, i, j);
      var g := if i > f then f else f - 1;
      FullKept(e0, e1, Jobs(acts1), server, path, peer, a, f, i, j);
      AllFromLess(Jobs(acts1), First(server, path), path, i - 1, g);
      ExtraFrom(extra, next, First(server, path), path, g);
      AllFromConcat(Jobs(acts1), extra, First(server, path), path, g);
    }
  }

  lemma TipHead(c: Crypto, w: World, ch: Chain, server: Chain, path: seq<Hash>, a: nat)
    requires Tip(c, w, ch, server, path, a)
    ensures ch.head in ch.nodes && a < |path| && ch.head == path[a]
  {
    hide Replay;
  }

  lemma ExtraFrom(extra: seq<Job>, next: Option<u64>, first: u64, path: seq<Hash>, g: nat)
    requires g <= |path| && (if next.Some? then AsksFrom(extra, next.value) else extra == [])
    requires next.Some? ==> next.value >= first + g
    ensures AllFrom(extra, first, path, g)
  {
  }

  lemma FullKept(e: Engine, e': Engine, jobs: seq<Job>, server: Chain, path: seq<Hash>, peer: PeerId, a: nat, f: nat, i: nat, j: nat)
    requires Placed(server, path)
    requires 0 < f <= i < j <= |path| && Parks(e, e', jobs, server, path, peer, a, i, j) && Full(e.parked, path, f)
    ensures Full(e'.parked, path, f) && (i == f ==> Full(e'.parked, path, f - 1))
  {
    hide Filed, AllFrom;
  }

  /** Asking from place `f` on: the chain is complete, or the walk stays, or it comes down one place; asking for place `f`
      itself always moves it. */
  lemma AskJob(c: Crypto, w: World, e: Engine, server: Chain, root: Hash, path: seq<Hash>, peer: PeerId, a: nat, f: nat, lo: u64, hi: u64)
    requires Serves(c, w, server, path) && Live(e) && Tip(c, w, e.chain, server, path, a) && a < f < |path| - 1
    requires Rooted(server.nodes, root) && server.head in server.nodes && Detached(server.nodes, root)
    requires path == Path(server.nodes, root, server.head)
    requires Placed(server, path)
    requires Filed(e.parked, server, path, peer, a + 1) && Full(e.parked, path, f) && lo >= First(server, path) + f
    ensures var (e', acts) := Step(c, e, FrameReceived(peer, Some(Respond(server, lo, hi))));
            Progress(e, e', Jobs(acts), server, path, peer, a, f, lo == First(server, path) + f && lo <= hi)
  {
    hide Path, Respond, Rooted, Detached, Serves, Tip, Filed, Full, Step, BlocksAt, Stays, Lowers, Arrived, Jobs;
    AnswerIsResponse(c, server, root, lo, hi);
    var first, top := First(server, path), LatestBlock(server).height;
    if lo > top || lo > hi {
      EmptyJob(c, w, e, server, path, peer, a, f);
    } else {
      var j := if hi < top then hi - first + 1 else |path|;
      SliceJob(c, w, e, server, path, peer, a, f, lo - first, j, hi < top, if hi < top then Some(hi + 1) else None);
    }
  }

  lemma EmptyJob(c: Crypto, w: World, e: Engine, server: Chain, path: seq<Hash>, peer: PeerId, a: nat, f: nat)
    requires Live(e) && f <= |path|
    requires Placed(server, path)
    requires Filed(e.parked, server, path, peer, a + 1) && Full(e.parked, path, f)
    ensures var (e', acts) := Step(c, e, FrameReceived(peer, Some(SyncResponse([], false, None))));
            Stays(e, e', Jobs(acts), server, path, peer, a, f)
  {
    hide Filed, Full, Step, Jobs;
    var e0, extra := ResponseJobs(c, e, peer, [], false, None);
    assert IngestAll(c, e0, peer, []) == (e0, []);
    NoJobs();
  }

  // ---------------------------------------------------------------- any order of jobs

  /** The setting of a walk: an unchanging responder, and storage without the blocks above the requester's head. */
  ghost predicate Setting(c: Crypto, w: World, server: Chain, root: Hash, path: seq<Hash>, stored: Hash -> Option<Bytes>, a: nat) {
    && Serves(c, w, server, path) && server.head in server.nodes && Rooted(server.nodes, root) && Detached(server.nodes, root)
    && path == Path(server.nodes, root, server.head) && Unstored(stored, path, a)
    && Placed(server, path)
  }

  function Without(jobs: seq<Job>, n: nat): (r: seq<Job>)
    requires n < |jobs|
  {
    jobs[..n] + jobs[n + 1..]
  }

  lemma WithoutFrom(jobs: seq<Job>, n: nat, first: u64, path: seq<Hash>, f: nat, more: seq<Job>)
    requires n < |jobs| && f <= |path| && AllFrom(jobs, first, path, f) && AllFrom(more, first, path, f)
    ensures AllFrom(Without(jobs, n) + more, first, path, f)
  {
    hide FromPlace;
  }

  /** Where a job that is not the handled one is afterwards. */
  function Shifted(p: nat, n: nat): (r: nat)
    requires p != n
  {
    if n < p then p - 1 else p
  }

  lemma ShiftedJob(jobs: seq<Job>, n: nat, p: nat, more: seq<Job>)
    requires n < |jobs| && p < |jobs| && p != n
    ensures Shifted(p, n) < |Without(jobs, n) + more| && (Without(jobs, n) + more)[Shifted(p, n)] == jobs[p]
  {
  }

  lemma AppendedJob(jobs: seq<Job>, more: seq<Job>, j: Job) returns (p: nat)
    requires j in more
    ensures p < |jobs + more| && (jobs + more)[p] == j
  {
    var i :| 0 <= i < |more| && more[i] == j;
    p := |jobs| + i;
  }

  /** How one handled job changes the walk: it arrives, or comes down one place, or stays with its front job shifted, or,
      if the front job was a load, now asks for that place. */
  ghost predicate WalksOn(c: Crypto, w: World, k: Walk, k': Walk, server: Chain, path: seq<Hash>, peer: PeerId, a: nat, f: nat, p: nat, n: nat, f': nat, p': nat)
    requires Placed(server, path)
    requires p < |k.jobs|
  {
    || Arrived(k'.engine, server)
    || (&& Walking(c, w, k', server, path, peer, a, f', p')
        && (|| f' == f - 1
            || (f' == f && n != p && p' == Shifted(p, n) && k'.jobs[p'] == k.jobs[p])
            || (f' == f && n == p && k.jobs[p].Load? && k'.jobs[p'].Ask?)))
  }

  lemma LoadWalks(c: Crypto, w: World, k: Walk, server: Chain, root: Hash, path: seq<Hash>, peer: PeerId, limit: Option<u64>, stored: Hash -> Option<Bytes>,
                  a: nat, f: nat, p: nat, n: nat) returns (p': nat)
    requires Setting(c, w, server, root, path, stored, a) && Live(k.engine)
    requires Walking(c, w, k, server, path, peer, a, f, p) && n < |k.jobs| && k.jobs[n].Load?
    ensures WalksOn(c, w, k, HandleJob(c, k, server, peer, limit, stored, n), server, path, peer, a, f, p, n, f, p')
  {
    hide Serves, Step, Jobs, Tip, Filed, Replay, Path, Rooted, Detached;
    assert FromPlace(k.jobs[n], First(server, path), path, f);
    var m :| 0 <= m < |path[f..]| && path[f..][m] == k.jobs[n].hash;
    var i := f + m;
    assert path[i] == k.jobs[n].hash;
    LoadJob(c, w, k.engine, server, path, peer, a, i);
    var (e', acts) := Step(c, k.engine, StorageLoaded(path[i], None));
    var more := Jobs(acts);
    WithoutFrom(k.jobs, n, First(server, path), path, f, more);
    if n == p {
      FrontPlace(c, w, server, path, f, i, k.jobs[p]);
      assert path[f] in k.engine.parked;
      p' := AppendedJob(Without(k.jobs, n), more, more[0]);
    } else {
      p' := Shifted(p, n);
      ShiftedJob(k.jobs, n, p, more);
    }
  }

  lemma FrontPlace(c: Crypto, w: World, server: Chain, path: seq<Hash>, f: nat, i: nat, j: Job)
    requires Serves(c, w, server, path) && path != [] && path[0] in server.nodes && f < |path| && i < |path|
    requires j == Load(path[i]) && Front(j, First(server, path), path, f)
    ensures i == f
  {
    hide Serves;
    if i != f { PlacesDiffer(c, w, server, path, i, f); }
  }

  lemma AskWalks(c: Crypto, w: World, k: Walk, server: Chain, root: Hash, path: seq<Hash>, peer: PeerId, limit: Option<u64>, stored: Hash -> Option<Bytes>,
                 a: nat, f: nat, p: nat, n: nat) returns (f': nat, p': nat)
    requires Setting(c, w, server, root, path, stored, a) && Live(k.engine)
    requires Walking(c, w, k, server, path, peer, a, f, p) && n < |k.jobs| && k.jobs[n].Ask?
    ensures WalksOn(c, w, k, HandleJob(c, k, server, peer, limit, stored, n), server, path, peer, a, f, p, n, f', p')
  {
    hide Serves, Step, Jobs, Tip, Filed, Full, Replay, Path, Rooted, Detached, Respond, Arrived, AllFrom;
    var j := k.jobs[n];
    JobFrom(k.jobs, n, First(server, path), path, f);
    var (lo, hi) := Clamp(limit, j.lo, j.hi);
    AskJob(c, w, k.engine, server, root, path, peer, a, f, lo, hi);
    var (e', acts) := Step(c, k.engine, FrameReceived(peer, Some(Respond(server, lo, hi))));
    var more := Jobs(acts);
    f', p' := f, p;
    if !Arrived(e', server) {
      if Lowers(k.engine, e', more, server, path, peer, a, f) {
        f' := f - 1;
        AllFromLess(k.jobs, First(server, path), path, f, f - 1);
        WithoutFrom(k.jobs, n, First(server, path), path, f - 1, more);
        p' := AppendedJob(Without(k.jobs, n), more, Load(path[f - 1]));
      } else {
        WithoutFrom(k.jobs, n, First(server, path), path, f, more);
        p' := Shifted(p, n);
        ShiftedJob(k.jobs, n, p, more);
      }
    }
  }

  lemma JobFrom(jobs: seq<Job>, n: nat, first: u64, path: seq<Hash>, f: nat)
    requires n < |jobs| && f <= |path| && AllFrom(jobs, first, path, f)
    ensures FromPlace(jobs[n], first, path, f)
  {
  }

  lemma OneJob(c: Crypto, w: World, k: Walk, server: Chain, root: Hash, path: seq<Hash>, peer: PeerId, limit: Option<u64>, stored: Hash -> Option<Bytes>,
               a: nat, f: nat, p: nat, n: nat) returns (f': nat, p': nat)
    requires Setting(c, w, server, root, path, stored, a) && Live(k.engine)
    requires Walking(c, w, k, server, path, peer, a, f, p) && n < |k.jobs|
    ensures WalksOn(c, w, k, HandleJob(c, k, server, peer, limit, stored, n), server, path, peer, a, f, p, n, f', p')
  {
    hide WalksOn, HandleJob, Setting, Walking;
    SettingPlaces(c, w, server, root, path, stored, a);
    if k.jobs[n].Load? {
      f' := f;
      p' := LoadWalks(c, w, k, server, root, path, peer, limit, stored, a, f, p, n);
    } else {
      f', p' := AskWalks(c, w, k, server, root, path, peer, limit, stored, a, f, p, n);
    }
  }

  lemma SettingPlaces(c: Crypto, w: World, server: Chain, root: Hash, path: seq<Hash>, stored: Hash -> Option<Bytes>, a: nat)
    requires Setting(c, w, server, root, path, stored, a)
    ensures server.head in server.nodes && Placed(server, path)
  {
    hide Serves, Rooted, Path;
  }

  /** Handle jobs in the order `picks` chooses, one for each number. */
  function HandleJobs(c: Crypto, k: Walk, server: Chain, peer: PeerId, limit: Option<u64>, stored: Hash -> Option<Bytes>, picks: seq<nat>): (r: Walk)
    requires Live(k.engine) && server.head in server.nodes
    ensures Live(r.engine)
  {
    if picks == [] then k else
      var k1 := HandleJobs(c, k, server, peer, limit, stored, picks[..|picks| - 1]);
      if k1.jobs == [] then k1 else HandleJob(c, k1, server, peer, limit, stored, picks[|picks| - 1] % |k1.jobs|)
  }

  /** The head and state were the responder's at some moment. */
  ghost predicate EverArrived(c: Crypto, k: Walk, server: Chain, peer: PeerId, limit: Option<u64>, stored: Hash -> Option<Bytes>, picks: seq<nat>)
    requires Live(k.engine) && server.head in server.nodes
  {
    || Arrived(HandleJobs(c, k, server, peer, limit, stored, picks).engine, server)
    || (picks != [] && EverArrived(c, k, server, peer, limit, stored, picks[..|picks| - 1]))
  }

  /** In whatever order jobs are handled, the walk never stalls: until it has arrived, the job that moves it on is waiting,
      and it never goes back up. */
  lemma {:induction false} NeverStalls(c: Crypto, w: World, k: Walk, server: Chain, root: Hash, path: seq<Hash>, peer: PeerId, limit: Option<u64>,
                                       stored: Hash -> Option<Bytes>, a: nat, f: nat, p: nat, picks: seq<nat>) returns (f': nat, p': nat)
    requires Setting(c, w, server, root, path, stored, a) && Live(k.engine) && Walking(c, w, k, server, path, peer, a, f, p)
    ensures EverArrived(c, k, server, peer, limit, stored, picks)
            || (f' <= f && Walking(c, w, HandleJobs(c, k, server, peer, limit, stored, picks), server, path, peer, a, f', p'))
    decreases |picks|
  {
    hide HandleJob, Setting, Arrived, Tip, Filed, Full, AllFrom, Front;
    SettingPlaces(c, w, server, root, path, stored, a);
    f', p' := f, p;
    if picks != [] {
      var n := |picks| - 1;
      f', p' := NeverStalls(c, w, k, server, root, path, peer, limit, stored, a, f, p, picks[..n]);
      if !EverArrived(c, k, server, peer, limit, stored, picks[..n]) {
        var k1 := HandleJobs(c, k, server, peer, limit, stored, picks[..n]);
        f', p' := OneJob(c, w, k1, server, root, path, peer, limit, stored, a, f', p', picks[n] % |k1.jobs|);
      }
    }
  }

  // ---------------------------------------------------------------- first come, first served

  function Serve(c: Crypto, k: Walk, server: Chain, peer: PeerId, limit: Option<u64>, stored: Hash -> Option<Bytes>, n: nat): (r: Walk)
    requires Live(k.engine) && server.head in server.nodes
    ensures Live(r.engine)
    decreases n
  {
    if n == 0 || k.jobs == [] then k else Serve(c, HandleJob(c, k, server, peer, limit, stored, 0), server, peer, limit, stored, n - 1)
  }

  lemma {:induction false} WalkEnds(c: Crypto, w: World, k: Walk, server: Chain, root: Hash, path: seq<Hash>, peer: PeerId, limit: Option<u64>,
                                    stored: Hash -> Option<Bytes>, a: nat, f: nat, p: nat) returns (n: nat)
    requires Setting(c, w, server, root, path, stored, a) && Live(k.engine) && Walking(c, w, k, server, path, peer, a, f, p)
    ensures server.head in server.nodes && Arrived(Serve(c, k, server, peer, limit, stored, n).engine, server)
    decreases f, if k.jobs[p].Load? then 1 else 0, p
  {
    hide HandleJob, Setting, Arrived, Tip, Filed, Full, AllFrom, Front;
    SettingPlaces(c, w, server, root, path, stored, a);
    var k1 := HandleJob(c, k, server, peer, limit, stored, 0);
    var f', p' := OneJob(c, w, k, server, root, path, peer, limit, stored, a, f, p, 0);
    assert Serve(c, k1, server, peer, limit, stored, 0) == k1;
    if Arrived(k1.engine, server) {
      n := 1;
    } else {
      var m := WalkEnds(c, w, k1, server, root, path, peer, limit, stored, a, f', p');
      n := m + 1;
    }
  }

  // ---------------------------------------------------------------- from the announcement

  function Announce(c: Crypto, e: Engine, peer: PeerId, b: Block): (r: Walk)
    requires Live(e)
    ensures Live(r.engine)
  {
    var (e', acts) := Step(c, e, FrameReceived(peer, Some(AnnounceBlock(b))));
    Walk(e', Jobs(acts))
  }

  lemma AnnounceStep(c: Crypto, e: Engine, peer: PeerId, b: Block)
    requires Live(e)
    ensures var k := Announce(c, e, peer, b); var (e1, acts) := IngestBlock(c, e, peer, b);
            k.engine.chain == e1.chain && k.engine.parked == e1.parked && k.jobs == Jobs(acts)
  {
    hide Jobs, IngestBlock, Step;
    StepJobs(c, e, FrameReceived(peer, Some(AnnounceBlock(b))));
  }

  /** The announced head is the block after the requester's head. */
  lemma AnnouncedNext(c: Crypto, w: World, e: Engine, server: Chain, path: seq<Hash>, peer: PeerId, a: nat)
    requires Serves(c, w, server, path) && Placed(server, path) && Live(e) && a + 2 == |path| && Tip(c, w, e.chain, server, path, a)
    requires server.head in server.nodes && ParkedBelow(e.parked, path, a + 1)
    ensures Arrived(Announce(c, e, peer, LatestBlock(server)).engine, server)
  {
    hide Serves, Tip, IngestBlock, Landed, Arrived, Announce;
    HeadIsLast(c, w, server, path);
    AnnounceStep(c, e, peer, LatestBlock(server));
    LandFirst(c, w, e, server, path, peer, a);
    LandedArrives(c, w, e, IngestBlock(c, e, peer, LatestBlock(server)).0, server, path);
    ArrivedChain(IngestBlock(c, e, peer, LatestBlock(server)).0, Announce(c, e, peer, LatestBlock(server)).engine, server);
  }

  /** The announced head is further up: the walk begins at the place below it. */
  lemma AnnouncedFar(c: Crypto, w: World, e: Engine, server: Chain, path: seq<Hash>, peer: PeerId, a: nat)
    requires Serves(c, w, server, path) && Placed(server, path) && Live(e) && a + 2 < |path| && Tip(c, w, e.chain, server, path, a)
    requires server.head in server.nodes && ParkedBelow(e.parked, path, a + 1)
    ensures Walking(c, w, Announce(c, e, peer, LatestBlock(server)), server, path, peer, a, |path| - 2, 0)
  {
    hide Serves, Tip, Jobs, IngestBlock, Announce;
    var t := |path| - 1;
    HeadIsLast(c, w, server, path);
    AnnounceStep(c, e, peer, LatestBlock(server));
    TipHead(c, w, e.chain, server, path, a);
    ParkOne(c, w, e, server, path, peer, a, t);
    JobsOne(LoadSnapshot(path[t - 1]));
    assert path[t - 1] in path[t - 1..];
  }

  lemma ArrivedChain(e: Engine, e': Engine, server: Chain)
    requires Arrived(e, server) && e'.chain == e.chain
    ensures Arrived(e', server)
  {
  }

  lemma HeadIsLast(c: Crypto, w: World, server: Chain, path: seq<Hash>)
    requires Serves(c, w, server, path)
    ensures server.head in server.nodes && path != [] && path[|path| - 1] in server.nodes && At(server, path, |path| - 1) == LatestBlock(server)
  {
    hide Replay, Place;
  }

  /** Backfill.  Both nodes satisfy the replay invariant in one world; the requester's head is below the responder's head on
      its canonical chain, nothing is parked under the blocks in between, and storage does not hold their states.  Then the
      announcement of the responder's head, with loads and ranges answered first come, first served and for any chunk limit,
      ends with the responder's exact head and state. */
  lemma AnnouncedHeadReached(c: Crypto, w: World, e: Engine, root: Hash, server: Chain, peer: PeerId, limit: Option<u64>,
                             stored: Hash -> Option<Bytes>, a: nat) returns (n: nat)
    requires Live(e) && ChainIn(c, w, e.chain)
    requires ValidTree(c, server, root) && ChainIn(c, w, server) && Validated(c, w, server.nodes, root)
    requires server.nodes[root].block.prev !in server.nodes
    requires a + 1 < |Canonical(server, root)| && e.chain.head == Canonical(server, root)[a]
    requires ParkedBelow(e.parked, Canonical(server, root), a + 1) && Unstored(stored, Canonical(server, root), a)
    ensures Arrived(Serve(c, Announce(c, e, peer, LatestBlock(server)), server, peer, limit, stored, n).engine, server)
  {
    hide Serve, Path, Validated, Replay, Serves, Rooted, Keyed, ChildrenExact, SameContent, Beats, Announce, Arrived, Walking, Unstored, ParkedBelow;
    var path := Canonical(server, root);
    OkServes(c, w, server, root);
    OkAgree(c, w, e.chain, server);
    PlaceIn(c, w, server, path);
    var k := Announce(c, e, peer, LatestBlock(server));
    if a + 2 == |path| {
      n := 0;
      AnnouncedNext(c, w, e, server, path, peer, a);
      ServeNone(c, k, server, peer, limit, stored);
    } else {
      AnnouncedFar(c, w, e, server, path, peer, a);
      n := WalkEnds(c, w, k, server, root, path, peer, limit, stored, a, |path| - 2, 0);
    }
  }

  lemma ServeNone(c: Crypto, k: Walk, server: Chain, peer: PeerId, limit: Option<u64>, stored: Hash -> Option<Bytes>)
    requires Live(k.engine) && server.head in server.nodes
    ensures Serve(c, k, server, peer, limit, stored, 0) == k
  {
  }
}
