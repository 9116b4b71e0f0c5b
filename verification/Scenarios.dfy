/**
 Concrete runs: what the theorems about runs assume is met by a node that moves, and where a property of runs fails, a
 run in which it fails.
 */
module Scenarios {
  import opened Base
  import opened Models
  import opened Ledger
  import opened Snapshot
  import opened Chain
  import opened Delivery
  import opened Engine
  import opened Nvs
  import S = System
  import P = Parking
  import opened Sync
  import opened Agreement

  /** An empty block on top of genesis. */
  function FirstBlock(c: Crypto, key: Key, sig: Signature): (r: Block) {
    Block(1, 1, BlockHash(c, Genesis(c)), key, [], Some(sig), [], ZERO_HASH)
  }

  /** The hypotheses are met by a responder that has moved: one announced block, signed by any key, whose hash is not
      that of genesis, becomes the head above a full history. */
  lemma ResponderMoves(c: Crypto, pc: Postcard, peer: PeerId, key: Key, sig: Signature)
    requires var b := FirstBlock(c, key, sig);
             && c.verify(key, BlockHash(c, b), sig) && BlockHash(c, b) != BlockHash(c, Genesis(c))
             && BlockHash(c, b) != ZERO_HASH && BlockHash(c, Genesis(c)) != ZERO_HASH
    ensures var b := FirstBlock(c, key, sig); var u := iset{Genesis(c), b};
            var evs := [S.Receive(FrameReceived(peer, Some(AnnounceBlock(b))))]; var ch := S.Run(c, pc, evs).engine.chain;
            && CollisionFree(c, u) && Genesis(c) in u && S.LegalEvent(u, evs[0])
            && ch.head == BlockHash(c, b) && LatestBlock(ch) == b
            && EarliestContiguousHeight(ch) == 0 && ZERO_HASH !in ch.nodes
  {
    hide BlockHash, S.Run, EarliestContiguousHeight, EncBlock;
    FirstAccepted(c, key, sig);
    Announced(c, pc, peer, key, sig);
    FirstHistory(c, S.Run(c, pc, [S.Receive(FrameReceived(peer, Some(AnnounceBlock(FirstBlock(c, key, sig)))))]).engine.chain, key, sig);
  }

  /** The tree of genesis and one block above it. */
  ghost function FirstTree(c: Crypto, b: Block): (r: Nodes) {
    map[BlockHash(c, Genesis(c)) := BlockNode(Genesis(c), [BlockHash(c, b)]), BlockHash(c, b) := BlockNode(b, [])]
  }

  lemma FirstValid(c: Crypto, key: Key, sig: Signature)
    requires c.verify(key, BlockHash(c, FirstBlock(c, key, sig)), sig)
    ensures ValidateAndApply(c, Genesis(c), EMPTY_STATE, FirstBlock(c, key, sig)) == Ok(EMPTY_STATE)
  {
    hide BlockHash, Merkle.StateRoot;
    S.EmptyRoot(c);
  }

  lemma FirstAccepted(c: Crypto, key: Key, sig: Signature)
    requires var b := FirstBlock(c, key, sig);
             c.verify(key, BlockHash(c, b), sig) && BlockHash(c, b) != BlockHash(c, Genesis(c))
    ensures var b := FirstBlock(c, key, sig); var r := AddBlock(c, NewChain(c), b, EMPTY_STATE);
            r.Ok? && r.value.1 == Imported(EMPTY_STATE, true) && r.value.0.head == BlockHash(c, b) && r.value.0.nodes == FirstTree(c, b)
  {
    hide BlockHash, ValidateAndApply, Grow;
    FirstValid(c, key, sig);
    var b := FirstBlock(c, key, sig);
    var nodes := NewChain(c).nodes;
    var g, h := BlockHash(c, Genesis(c)), BlockHash(c, b);
    GrowShape(nodes, h, b);
    var grown := Grow(nodes, h, b);
    assert nodes[g].children + [h] == [h];
    assert grown.Keys == FirstTree(c, b).Keys;
    assert grown[g] == FirstTree(c, b)[g] && grown[h] == FirstTree(c, b)[h];
    assert grown == FirstTree(c, b);
  }

  lemma Announced(c: Crypto, pc: Postcard, peer: PeerId, key: Key, sig: Signature)
    requires var b := FirstBlock(c, key, sig); var r := AddBlock(c, NewChain(c), b, EMPTY_STATE);
             r.Ok? && r.value.1 == Imported(EMPTY_STATE, true)
    ensures var b := FirstBlock(c, key, sig);
            S.Run(c, pc, [S.Receive(FrameReceived(peer, Some(AnnounceBlock(b))))]).engine.chain == AddBlock(c, NewChain(c), b, EMPTY_STATE).value.0
  {
    hide BlockHash, AddBlock, PersistPair, EarliestDeadline;
    var b := FirstBlock(c, key, sig);
    var ev := S.Receive(FrameReceived(peer, Some(AnnounceBlock(b))));
    assert [ev][..0] == [];
    assert S.Run(c, pc, []) == S.Boot(c, map[]);
  }

  lemma FirstHistory(c: Crypto, ch: Chain, key: Key, sig: Signature)
    requires var b := FirstBlock(c, key, sig);
             && ch.nodes == FirstTree(c, b) && ch.head == BlockHash(c, b) && BlockHash(c, b) != BlockHash(c, Genesis(c))
             && BlockHash(c, b) != ZERO_HASH && BlockHash(c, Genesis(c)) != ZERO_HASH
    ensures ch.head in ch.nodes && EarliestContiguousHeight(ch) == 0 && ZERO_HASH !in ch.nodes
    ensures LatestBlock(ch) == FirstBlock(c, key, sig)
  {
    hide BlockHash;
    assert EarliestFrom(ch.nodes, BlockHash(c, Genesis(c))) == 0;
  }

  // ---------------------------------------------------------------- a restore that leaves a child of the head parked

  /** The engine's answer to the announcement. */
  lemma FirstStep(c: Crypto, peer: PeerId, key: Key, sig: Signature)
    requires var b := FirstBlock(c, key, sig);
             c.verify(key, BlockHash(c, b), sig) && BlockHash(c, b) != BlockHash(c, Genesis(c))
    ensures var b := FirstBlock(c, key, sig);
            Step(c, NewEngine(NewChain(c)), FrameReceived(peer, Some(AnnounceBlock(b)))).1
            == PersistPair(c, b, EMPTY_STATE) + [ReportEvent(BlockAdded)]
  {
    hide BlockHash, AddBlock, PersistPair;
    FirstAccepted(c, key, sig);
    var pair := PersistPair(c, FirstBlock(c, key, sig), EMPTY_STATE);
    assert pair + [ReportEvent(BlockAdded)] + [] + [] == pair + [ReportEvent(BlockAdded)];
  }

  ghost function FirstWrites(c: Crypto, b: Block): (r: seq<S.Write>) {
    [S.BlockWrite(b), S.SnapshotWrite(BlockHash(c, b), StateBytes(EMPTY_STATE)), S.PointerWrite(BlockHash(c, b))]
  }

  lemma FirstQueue(c: Crypto, b: Block)
    ensures S.Writes(PersistPair(c, b, EMPTY_STATE) + [ReportEvent(BlockAdded)]) == FirstWrites(c, b)
  {
    hide BlockHash, StateBytes;
    var x, y, z := PersistBlock(b), PersistSnapshot(BlockHash(c, b), StateBytes(EMPTY_STATE)), ReportEvent(BlockAdded);
    var acts := PersistPair(c, b, EMPTY_STATE) + [z];
    assert acts == [x, y, z];
    assert acts[..2] == [x, y] && acts[..2][..1] == [x] && acts[..2][..1][..0] == [];
    assert S.Writes([x]) == S.ActionWrites(x);
    assert S.Writes([x, y]) == S.ActionWrites(x) + S.ActionWrites(y);
  }

  /** The flash after the three writes. */
  ghost function FirstFlash(c: Crypto, pc: Postcard, b: Block): (r: Store) {
    var h := BlockHash(c, b);
    map[SlotKey(BLOCK_KEY_PREFIX, BucketOf(h), 0) := Envelope(h, pc.encode(b)),
        SlotKey(SNAPSHOT_KEY_PREFIX, BucketOf(h), 0) := Envelope(h, StateBytes(EMPTY_STATE)),
        LATEST_SNAPSHOT_KEY := h]
  }

  lemma FirstPersisted(c: Crypto, pc: Postcard, b: Block, n: S.Node)
    requires n.kv == map[] && n.storageUp && n.queue == FirstWrites(c, b)
    ensures var n3 := S.PersistOne(c, pc, S.PersistOne(c, pc, S.PersistOne(c, pc, n))); n3.kv == FirstFlash(c, pc, b)
  {
    hide BlockHash, StateBytes, SlotKey, Envelope;
    var h := BlockHash(c, b);
    SlotKeyInjective(BLOCK_KEY_PREFIX, BucketOf(h), 0, SNAPSHOT_KEY_PREFIX, BucketOf(h), 0);
    SlotKeyInjective(SNAPSHOT_KEY_PREFIX, BucketOf(h), 0, SNAPSHOT_KEY_PREFIX, BucketOf(h), 0);
    var n1 := S.PersistOne(c, pc, n);
    assert n1.kv == map[SlotKey(BLOCK_KEY_PREFIX, BucketOf(h), 0) := Envelope(h, pc.encode(b))] && n1.queue == FirstWrites(c, b)[1..];
    var n2 := S.PersistOne(c, pc, n1);
    assert n2.queue == FirstWrites(c, b)[2..] && n2.storageUp;
  }

  lemma FirstBundle(c: Crypto, pc: Postcard, b: Block)
    requires RoundTrips(pc)
    ensures LatestBundle(c, pc, FirstFlash(c, pc, b)) == Some((b, StateBytes(EMPTY_STATE)))
  {
    hide BlockHash, StateBytes, SlotKey;
    var h, kv := BlockHash(c, b), FirstFlash(c, pc, b);
    SlotKeyInjective(BLOCK_KEY_PREFIX, BucketOf(h), 0, SNAPSHOT_KEY_PREFIX, BucketOf(h), 0);
    SlotKeyInjective(SNAPSHOT_KEY_PREFIX, BucketOf(h), 0, SNAPSHOT_KEY_PREFIX, BucketOf(h), 0);
    assert pc.decode(pc.encode(b)) == Some(b);
    assert Load(kv, BLOCK_KEY_PREFIX, h, 0) == Ok(Some(pc.encode(b)));
    assert Load(kv, SNAPSHOT_KEY_PREFIX, h, 0) == Ok(Some(StateBytes(EMPTY_STATE)));
  }

  lemma FirstRestores(c: Crypto, e: Engine, key: Key, sig: Signature)
    ensures Restore(c, e, Some(FirstBlock(c, key, sig)), Some(StateBytes(EMPTY_STATE))).1 == SnapshotRestored
  {
    hide BlockHash, StateBytes, StateFromBytes, Merkle.StateRoot;
    StateRoundTrip(EMPTY_STATE, []);
    assert StateBytes(EMPTY_STATE) + [] == StateBytes(EMPTY_STATE);
    S.EmptyRoot(c);
  }

  /** A block is accepted and written; the node crashes; a child of the block is announced before the startup snapshot is
      read and restored. */
  ghost function LateChild(c: Crypto, peer: PeerId, b: Block, child: Block): (r: seq<S.Event>) {
    [S.Receive(FrameReceived(peer, Some(AnnounceBlock(b)))), S.PersistNext, S.PersistNext, S.PersistNext, S.Crash,
     S.Receive(FrameReceived(peer, Some(AnnounceBlock(child)))), S.ReadLatest, S.RestoreLatest]
  }

  lemma {:induction false} RunSnoc(c: Crypto, pc: Postcard, evs: seq<S.Event>, n: nat)
    requires n < |evs|
    ensures S.Run(c, pc, evs[..n + 1]) == S.Exec(c, pc, S.Run(c, pc, evs[..n]), evs[n])
  {
    hide S.Exec;
    assert evs[..n + 1][..n] == evs[..n];
  }

  lemma FirstNode(c: Crypto, pc: Postcard, peer: PeerId, key: Key, sig: Signature)
    requires var b := FirstBlock(c, key, sig);
             c.verify(key, BlockHash(c, b), sig) && BlockHash(c, b) != BlockHash(c, Genesis(c))
    ensures var b := FirstBlock(c, key, sig);
            var n := S.Exec(c, pc, S.Boot(c, map[]), S.Receive(FrameReceived(peer, Some(AnnounceBlock(b)))));
            n.kv == map[] && n.storageUp && n.queue == FirstWrites(c, b)
  {
    hide BlockHash, Step, PersistPair, S.Writes;
    FirstStep(c, peer, key, sig);
    FirstQueue(c, FirstBlock(c, key, sig));
    assert [] + FirstWrites(c, FirstBlock(c, key, sig)) == FirstWrites(c, FirstBlock(c, key, sig));
  }

  /** The child is parked: the new head is genesis. */
  lemma ChildParked(c: Crypto, pc: Postcard, kv: Store, peer: PeerId, child: Block)
    requires child.prev != BlockHash(c, Genesis(c))
    ensures var n := S.Exec(c, pc, S.Boot(c, kv), S.Receive(FrameReceived(peer, Some(AnnounceBlock(child)))));
            n.kv == kv && child.prev in n.engine.parked
  {
    hide BlockHash, AddBlock;
  }

  /** A reachable run that ends with a child of the head parked. */
  lemma RestoreLeavesChild(c: Crypto, pc: Postcard, peer: PeerId, key: Key, sig: Signature, child: Block)
    requires RoundTrips(pc)
    requires var b := FirstBlock(c, key, sig);
             && c.verify(key, BlockHash(c, b), sig) && BlockHash(c, b) != BlockHash(c, Genesis(c))
             && child.prev == BlockHash(c, b)
    ensures !P.HeadClear(S.Run(c, pc, LateChild(c, peer, FirstBlock(c, key, sig), child)).engine)
  {
    hide BlockHash, S.Exec, RoundTrips, StateBytes, P.HeadClear, Restore, S.Run;
    var b := FirstBlock(c, key, sig);
    var evs := LateChild(c, peer, b, child);
    LateWrites(c, pc, peer, key, sig, child);
    LateParks(c, pc, peer, b, child);
    LateEnds(c, pc, peer, b, child);
    FirstRestores(c, S.Run(c, pc, evs[..7]).engine, key, sig);
    LeavesChild(c, pc, S.Run(c, pc, evs[..7]), b, StateBytes(EMPTY_STATE));
  }

  /** The first four events: the block and its state are on flash as the latest snapshot. */
  lemma LateWrites(c: Crypto, pc: Postcard, peer: PeerId, key: Key, sig: Signature, child: Block)
    requires var b := FirstBlock(c, key, sig);
             c.verify(key, BlockHash(c, b), sig) && BlockHash(c, b) != BlockHash(c, Genesis(c))
    ensures var b := FirstBlock(c, key, sig); S.Run(c, pc, LateChild(c, peer, b, child)[..4]).kv == FirstFlash(c, pc, b)
  {
    hide BlockHash, S.Exec, StateBytes, S.Boot, FirstFlash, FirstWrites, S.PersistOne;
    var b := FirstBlock(c, key, sig);
    var evs := LateChild(c, peer, b, child);
    assert evs[..0] == [];
    RunSnoc(c, pc, evs, 0);
    RunSnoc(c, pc, evs, 1);
    RunSnoc(c, pc, evs, 2);
    RunSnoc(c, pc, evs, 3);
    FirstNode(c, pc, peer, key, sig);
    var n := S.Run(c, pc, evs[..1]);
    Writing(c, pc, n);
    Writing(c, pc, S.PersistOne(c, pc, n));
    Writing(c, pc, S.PersistOne(c, pc, S.PersistOne(c, pc, n)));
    FirstPersisted(c, pc, b, n);
  }

  lemma Writing(c: Crypto, pc: Postcard, n: S.Node)
    requires Live(n.engine)
    ensures S.Exec(c, pc, n, S.PersistNext) == S.PersistOne(c, pc, n)
  {
    hide S.PersistOne, S.StepNode;
  }

  /** The next three: the node restarts empty, the child is parked, and the startup snapshot is read. */
  lemma LateParks(c: Crypto, pc: Postcard, peer: PeerId, b: Block, child: Block)
    requires RoundTrips(pc) && S.Run(c, pc, LateChild(c, peer, b, child)[..4]).kv == FirstFlash(c, pc, b)
    requires child.prev == BlockHash(c, b) && BlockHash(c, b) != BlockHash(c, Genesis(c))
    ensures var n := S.Run(c, pc, LateChild(c, peer, b, child)[..7]);
            n.latest == Some((b, StateBytes(EMPTY_STATE))) && BlockHash(c, b) in n.engine.parked
  {
    hide BlockHash, S.Exec, StateBytes, S.Boot, FirstFlash, RoundTrips, LatestBundle, S.Run;
    var evs := LateChild(c, peer, b, child);
    RunSnoc(c, pc, evs, 4);
    RunSnoc(c, pc, evs, 5);
    RunSnoc(c, pc, evs, 6);
    Crashing(c, pc, S.Run(c, pc, evs[..4]));
    ChildParked(c, pc, FirstFlash(c, pc, b), peer, child);
    LatestRead(c, pc, S.Run(c, pc, evs[..6]));
    FirstBundle(c, pc, b);
  }

  lemma Crashing(c: Crypto, pc: Postcard, n: S.Node)
    requires Live(n.engine)
    ensures S.Exec(c, pc, n, S.Crash) == S.Boot(c, n.kv)
  {
    hide S.Boot, S.StepNode;
  }

  lemma LateEnds(c: Crypto, pc: Postcard, peer: PeerId, b: Block, child: Block)
    ensures var evs := LateChild(c, peer, b, child);
            S.Run(c, pc, evs) == S.Exec(c, pc, S.Run(c, pc, evs[..7]), S.RestoreLatest)
  {
    hide S.Exec, S.Run;
    var evs := LateChild(c, peer, b, child);
    RunSnoc(c, pc, evs, 7);
    assert evs[..8] == evs;
  }

  lemma LatestRead(c: Crypto, pc: Postcard, n: S.Node)
    requires Live(n.engine)
    ensures S.Exec(c, pc, n, S.ReadLatest) == n.(latest := LatestBundle(c, pc, n.kv))
  {
    hide LatestBundle, S.StepNode;
  }

  lemma LeavesChild(c: Crypto, pc: Postcard, n: S.Node, b: Block, bytes: Bytes)
    requires Live(n.engine) && n.latest == Some((b, bytes)) && BlockHash(c, b) in n.engine.parked
    requires Restore(c, n.engine, Some(b), Some(bytes)).1 == SnapshotRestored
    ensures !P.HeadClear(S.Exec(c, pc, n, S.RestoreLatest).engine)
  {
    hide BlockHash, Restore, P.HeadClear;
    P.RestoreClear(c, n.engine, b, bytes);
  }

  // ---------------------------------------------------------------- two nodes that never agree

  /** A fresh node told to import from a height that leaves a gap. */
  lemma ImportAsked(c: Crypto, pc: Postcard, peer: PeerId)
    ensures var e := S.Run(c, pc, [S.Receive(ImportRequested(peer, 2, 2))]).engine;
            && e.chain == NewChain(c) && e.parked == map[]
            && |e.requests| == 1 && e.requests[0].peer == peer && e.requests[0].fromHeight == 2 && e.requests[0].toHeight == 2
  {
    hide BlockHash, EarliestDeadline;
    var ev := S.Receive(ImportRequested(peer, 2, 2));
    assert [ev][..0] == [];
    assert S.Run(c, pc, []) == S.Boot(c, map[]);
  }

  lemma FirstAncestor(c: Crypto, ch: Chain, b: Block)
    requires ch.nodes == FirstTree(c, b) && ch.head == BlockHash(c, b) && b.prev == BlockHash(c, Genesis(c)) && b.height == 1
    requires BlockHash(c, b) != BlockHash(c, Genesis(c))
    ensures ch.head in ch.nodes && Ancestor(ch.nodes, BlockHash(c, Genesis(c)), ch.head)
  {
    hide BlockHash;
    assert Ancestor(ch.nodes, BlockHash(c, Genesis(c)), BlockHash(c, Genesis(c)));
  }

  /** A reachable pair that meets the hypotheses of agreement except that the request leaves a gap: their heads differ and
      no number of rounds brings them together. */
  lemma GapPair(c: Crypto, pc: Postcard, peer: PeerId, limit: Option<u64>, key: Key, sig: Signature, n: nat)
    requires RoundTrips(pc)
    requires var b := FirstBlock(c, key, sig);
             && c.verify(key, BlockHash(c, b), sig) && BlockHash(c, b) != BlockHash(c, Genesis(c))
             && BlockHash(c, b) != ZERO_HASH && BlockHash(c, Genesis(c)) != ZERO_HASH
    ensures var b := FirstBlock(c, key, sig);
            var e := S.Run(c, pc, [S.Receive(ImportRequested(peer, 2, 2))]).engine;
            var server := S.Run(c, pc, [S.Receive(FrameReceived(peer, Some(AnnounceBlock(b))))]).engine.chain;
            && e.parked == map[] && |e.requests| == 1 && Ancestor(server.nodes, e.chain.head, server.head)
            && e.chain.head != server.head
            && !CaughtUp(Rounds(c, e, server, peer, limit, n), server)
  {
    hide BlockHash, S.Run, EarliestContiguousHeight, EncBlock, Ancestor, Rounds, CollisionFree, RoundTrips;
    var b := FirstBlock(c, key, sig);
    var u := iset{Genesis(c), b};
    var mine, theirs := [S.Receive(ImportRequested(peer, 2, 2))], [S.Receive(FrameReceived(peer, Some(AnnounceBlock(b))))];
    ResponderMoves(c, pc, peer, key, sig);
    ImportAsked(c, pc, peer);
    FirstAccepted(c, key, sig);
    Announced(c, pc, peer, key, sig);
    FirstAncestor(c, S.Run(c, pc, theirs).engine.chain, b);
    NodesAgree(c, pc, u, mine, theirs, peer, limit);
  }
}
