/**
 Two nodes, each after any run of its own with crashes and restarts, live in one record of accepted blocks; so the
 catch-up loop between them ends in agreement exactly when its one request reaches the requester's head.
 */
module Agreement {
  import opened Base
  import opened Models
  import opened Ledger
  import opened Chain
  import opened Walks
  import opened World
  import opened Delivery
  import opened Engine
  import opened Replays
  import opened Nvs
  import S = System
  import opened Sync

  // ---------------------------------------------------------------- joining two records

  ghost function Joined(w: World, v: World): (r: World) {
    w.(blocks := map h | h in w.blocks.Keys + v.blocks.Keys :: if h in w.blocks then w.blocks[h] else v.blocks[h])
  }

  /** Two records of accepted blocks from one origin, without collisions between them. */
  ghost predicate Joinable(c: Crypto, u: iset<Block>, w: World, v: World) {
    CollisionFree(c, u) && WorldOk(c, u, w) && WorldOk(c, u, v) && w.origin == v.origin && w.start == v.start
  }

  lemma JoinExtends(w: World, v: World)
    ensures Extends(w, Joined(w, v))
  {
  }

  lemma JoinContent(c: Crypto, u: iset<Block>, w: World, v: World, h: Hash)
    requires Joinable(c, u, w, v) && h in v.blocks
    ensures h in Joined(w, v).blocks && SameContent(Joined(w, v).blocks[h], v.blocks[h])
    ensures h in w.blocks ==> SameContent(w.blocks[h], v.blocks[h])
    ensures h !in w.blocks ==> Joined(w, v).blocks[h] == v.blocks[h]
  {
    hide Replay, CollisionFree, BlockHash, EraseBlock;
    if h in w.blocks { SameHash(c, u, w.blocks[h], v.blocks[h]); }
  }

  /** A block recorded in both has one true state. */
  lemma SharedReplay(c: Crypto, w: World, v: World, h: Hash, ps: State)
    requires h in w.blocks && h in v.blocks && h != w.origin && w.origin == v.origin
    requires Replay(c, w, h).Some? && Replay(c, v, h).Some? && SameContent(w.blocks[h], v.blocks[h])
    requires Replay(c, w, w.blocks[h].prev) == Some(ps) && Replay(c, v, v.blocks[h].prev) == Some(ps)
    ensures Replay(c, w, h) == Replay(c, v, h)
  {
    hide ValidateAndApply, Merkle.StateRoot, Replay, SameContent;
    ReplayStep(c, w, h);
    ReplayStep(c, v, h);
    AcceptedContent(c, w.blocks[w.blocks[h].prev], v.blocks[v.blocks[h].prev], ps, w.blocks[h], v.blocks[h]);
  }

  /** Joining keeps every replay of the second record too. */
  lemma {:induction false} JoinReplay(c: Crypto, u: iset<Block>, w: World, v: World, h: Hash)
    requires Joinable(c, u, w, v) && h in v.blocks
    ensures Replay(c, v, h).Some? && Replay(c, Joined(w, v), h) == Replay(c, v, h)
    decreases v.blocks[h].height
  {
    hide ValidateAndApply, Merkle.StateRoot, CollisionFree, BlockHash, SameContent, Joined, Replay;
    var j := Joined(w, v);
    JoinExtends(w, v);
    OriginReplays(c, j);
    OriginReplays(c, v);
    if h != v.origin {
      ReplayStep(c, v, h);
      var p := v.blocks[h].prev;
      JoinReplay(c, u, w, v, p);
      JoinContent(c, u, w, v, h);
      JoinContent(c, u, w, v, p);
      SameLinks(j.blocks[h], v.blocks[h]);
      SameLinks(j.blocks[p], v.blocks[p]);
      var ps := Replay(c, v, p).value;
      if h in w.blocks {
        ReplayStable(c, w, j, h);
        SharedReplay(c, j, v, h, ps);
      } else {
        ParentContent(c, j.blocks[p], v.blocks[p], ps, v.blocks[h]);
        ReplayOnto(c, j, h, ps);
      }
    }
  }

  lemma OriginReplays(c: Crypto, w: World)
    ensures Replay(c, w, w.origin) == Some(w.start)
  {
  }

  lemma SameLinks(a: Block, b: Block)
    requires SameContent(a, b)
    ensures a.prev == b.prev && a.height == b.height && a.slot == b.slot
  {
  }

  lemma ReplayOnto(c: Crypto, w: World, h: Hash, ps: State)
    requires h != w.origin && Linked(w, h) && Replay(c, w, w.blocks[h].prev) == Some(ps)
    requires ValidateAndApply(c, w.blocks[w.blocks[h].prev], ps, w.blocks[h]).Ok?
    ensures Replay(c, w, h) == Some(ValidateAndApply(c, w.blocks[w.blocks[h].prev], ps, w.blocks[h]).value)
  {
    hide ValidateAndApply;
  }

  lemma JoinChain(c: Crypto, u: iset<Block>, w: World, v: World, ch: Chain)
    requires Joinable(c, u, w, v) && ChainIn(c, v, ch)
    ensures ChainIn(c, Joined(w, v), ch)
  {
    hide CollisionFree, WorldOk, Joined, Replay, EraseBlock;
    JoinReplay(c, u, w, v, ch.head);
    forall h {:trigger ch.nodes[h]} | h in ch.nodes
      ensures h in Joined(w, v).blocks && SameContent(ch.nodes[h].block, Joined(w, v).blocks[h])
    {
      JoinContent(c, u, w, v, h);
    }
  }

  lemma JoinValidated(c: Crypto, u: iset<Block>, w: World, v: World, ch: Chain, root: Hash)
    requires Joinable(c, u, w, v) && ChainIn(c, v, ch) && Validated(c, v, ch.nodes, root)
    ensures Validated(c, Joined(w, v), ch.nodes, root)
  {
    hide Joinable, Joined, Replay, SameContent, ValidateAndApply;
    forall h | h in ch.nodes && h != root ensures ValidatedAt(c, Joined(w, v), ch.nodes, h) {
      assert ValidatedAt(c, v, ch.nodes, h);
      var p := ch.nodes[h].block.prev;
      assert p in ch.nodes && ch.nodes[p] == ch.nodes[p];
      JoinReplay(c, u, w, v, h);
      JoinReplay(c, u, w, v, p);
    }
  }

  // ---------------------------------------------------------------- the canonical chain, from the head

  /** `h` is the block `from` or reached from it by following parents in the tree. */
  ghost predicate Ancestor(nodes: Nodes, h: Hash, from: Hash)
    requires from in nodes
    decreases nodes[from].block.height
  {
    h == from || (StepsDown(nodes, from) && Ancestor(nodes, h, nodes[from].block.prev))
  }

  lemma {:induction false} AncestorPlace(nodes: Nodes, root: Hash, h: Hash, from: Hash) returns (a: nat)
    requires Rooted(nodes, root) && Detached(nodes, root) && from in nodes && Ancestor(nodes, h, from)
    ensures a < |Path(nodes, root, from)| && Path(nodes, root, from)[a] == h
    decreases nodes[from].block.height
  {
    hide Rooted, Detached, StepsDown, Path;
    RootHeight(nodes, root, from);
    PathShape(nodes, root, from);
    var path := Path(nodes, root, from);
    a := |path| - 1;
    if h != from {
      RootedStep(nodes, root, from);
      Smaller(nodes, from);
      var p := nodes[from].block.prev;
      a := AncestorPlace(nodes, root, h, p);
      PathStep(nodes, root, from);
    }
  }

  lemma PathStep(nodes: Nodes, root: Hash, from: Hash)
    requires Rooted(nodes, root) && from in nodes && from != root && nodes[from].block.prev in nodes
    ensures Path(nodes, root, from) == Path(nodes, root, nodes[from].block.prev) + [from]
  {
  }

  /** The root of a node's tree names a parent outside it, unless some block hashes to zero. */
  lemma RootIsOrphan(c: Crypto, w: World, ch: Chain, root: Hash)
    requires Sound(c, w) && Extends(S.Origin(c), w) && ChainIn(c, w, ch) && Rooted(ch.nodes, root)
    requires ZERO_HASH !in ch.nodes
    ensures ch.nodes[root].block.prev !in ch.nodes && Detached(ch.nodes, root)
  {
    hide Replay, Rooted, BlockHash, SameContent, Sound;
    var o := BlockHash(c, Genesis(c));
    assert S.Origin(c).blocks[o] == Genesis(c);
    assert w.origin == o && w.blocks[o] == Genesis(c);
    RootIn(ch.nodes, root);
    RootDetached(c, w, ch, root);
    var b := ch.nodes[root].block;
    SameLinks(b, w.blocks[root]);
    if b.height == 0 && root != w.origin { HeightAboveOrigin(c, w, root); }
  }

  lemma RootIn(nodes: Nodes, root: Hash)
    requires Rooted(nodes, root)
    ensures root in nodes
  {
  }

  lemma HeightAboveOrigin(c: Crypto, w: World, h: Hash)
    requires Sound(c, w) && h in w.blocks && h != w.origin
    ensures w.blocks[h].height > 0
  {
    hide ValidateAndApply, Merkle.StateRoot, BlockHash, Replay;
    ReplayStep(c, w, h);
  }

  // ---------------------------------------------------------------- agreement

  /** Agreement between two reachable nodes.  The requester has nothing parked, one outstanding request, and its head on
      the responder's canonical chain; no two blocks of the runs collide and none hashes to zero.  The request / clamp /
      serve / continue loop ends with the responder's exact head and state if and only if the requester has them already
      or its request reaches down to the block after its head. */
  lemma NodesAgree(c: Crypto, pc: Postcard, u: iset<Block>, mine: seq<S.Event>, theirs: seq<S.Event>, peer: PeerId, limit: Option<u64>)
    requires CollisionFree(c, u) && RoundTrips(pc) && Genesis(c) in u
    requires forall i :: 0 <= i < |mine| ==> S.LegalEvent(u, mine[i])
    requires forall i :: 0 <= i < |theirs| ==> S.LegalEvent(u, theirs[i])
    requires var e, server := S.Run(c, pc, mine).engine, S.Run(c, pc, theirs).engine.chain;
             && e.parked == map[] && |e.requests| == 1 && e.requests[0].peer == peer
             && Ancestor(server.nodes, e.chain.head, server.head) && ZERO_HASH !in server.nodes
    ensures var e, server := S.Run(c, pc, mine).engine, S.Run(c, pc, theirs).engine.chain;
            (exists n: nat :: CaughtUp(Rounds(c, e, server, peer, limit, n), server)) <==>
              (e.chain.head == server.head || Reaches(e.requests[0], LatestBlock(e.chain).height, EarliestContiguousHeight(server)))
  {
    hide CollisionFree, RoundTrips, S.LegalEvent, S.Run, S.NodeOk, Rounds, Replay, Ancestor, Reaches, EarliestContiguousHeight,
         Joined, Path, WorldOk, ValidTree, ChainIn, Validated, S.Origin;
    var e, server := S.Run(c, pc, mine).engine, S.Run(c, pc, theirs).engine.chain;
    var w, r1 := S.RunOk(c, pc, u, mine);
    var v, root := S.RunOk(c, pc, u, theirs);
    S.NodeParts(c, pc, u, w, r1, S.Run(c, pc, mine));
    S.NodeParts(c, pc, u, v, root, S.Run(c, pc, theirs));
    assert Joinable(c, u, w, v);
    var j := Joined(w, v);
    JoinExtends(w, v);
    ChainInStable(c, w, j, e.chain);
    JoinChain(c, u, w, v, server);
    JoinValidated(c, u, w, v, server, root);
    OrphanRoot(c, u, v, server, root);
    EarliestAtRoot(server, root);
    var a := AncestorPlace(server.nodes, root, e.chain.head, server.head);
    CatchUpExactly(c, j, e, root, server, peer, limit, a);
  }

  lemma OrphanRoot(c: Crypto, u: iset<Block>, w: World, ch: Chain, root: Hash)
    requires WorldOk(c, u, w) && S.GenesisWorld(c, w) && ValidTree(c, ch, root) && ChainIn(c, w, ch) && ZERO_HASH !in ch.nodes
    ensures ch.head in ch.nodes && Rooted(ch.nodes, root) && Detached(ch.nodes, root)
    ensures ch.nodes[root].block.prev !in ch.nodes
  {
    hide Replay, Rooted, BlockHash, SameContent, Keyed, ChildrenExact, Beats, S.Origin, Sound;
    RootIn(ch.nodes, root);
    RootIsOrphan(c, w, ch, root);
  }

  lemma EarliestAtRoot(ch: Chain, root: Hash)
    requires ch.head in ch.nodes && Rooted(ch.nodes, root) && Detached(ch.nodes, root)
    ensures EarliestContiguousHeight(ch) == ch.nodes[root].block.height
  {
    EarliestIsRoot(ch.nodes, root, ch.head);
  }

  // ---------------------------------------------------------------- a fresh node

  lemma {:induction false} RootIsAncestor(nodes: Nodes, root: Hash, from: Hash)
    requires Rooted(nodes, root) && Detached(nodes, root) && from in nodes
    ensures Ancestor(nodes, root, from)
    decreases nodes[from].block.height
  {
    hide Rooted, Detached, StepsDown;
    if from != root {
      RootedStep(nodes, root, from);
      Smaller(nodes, from);
      RootIsAncestor(nodes, root, nodes[from].block.prev);
    }
  }

  lemma RootIsGenesis(c: Crypto, u: iset<Block>, w: World, ch: Chain, root: Hash)
    requires WorldOk(c, u, w) && S.GenesisWorld(c, w) && ChainIn(c, w, ch)
    requires root in ch.nodes && ch.nodes[root].block.height == 0
    ensures root == BlockHash(c, Genesis(c))
  {
    hide Replay, BlockHash, SameContent, Sound;
    assert ch.nodes[root] == ch.nodes[root];
    SameLinks(ch.nodes[root].block, w.blocks[root]);
    if root != w.origin { HeightAboveOrigin(c, w, root); }
  }

  lemma NodeChain(c: Crypto, pc: Postcard, u: iset<Block>, w: World, root: Hash, n: S.Node)
    requires S.NodeOk(c, pc, u, w, root, n)
    ensures WorldOk(c, u, w) && S.GenesisWorld(c, w) && ValidTree(c, n.engine.chain, root) && ChainIn(c, w, n.engine.chain)
  {
    hide WorldOk, ValidTree, ChainIn, Validated, S.Origin, S.TrueStore, S.PointerBacked, Replay, S.NodeOk;
    S.NodeParts(c, pc, u, w, root, n);
  }

  lemma ReachesGenesis(c: Crypto, pc: Postcard, u: iset<Block>, w: World, root: Hash, n: S.Node)
    requires S.NodeOk(c, pc, u, w, root, n) && Live(n.engine)
    requires ZERO_HASH !in n.engine.chain.nodes && EarliestContiguousHeight(n.engine.chain) == 0
    ensures Ancestor(n.engine.chain.nodes, BlockHash(c, Genesis(c)), n.engine.chain.head)
  {
    hide S.NodeOk, Ancestor, EarliestContiguousHeight, BlockHash, ValidTree, Rooted, Detached, WorldOk, ChainIn, S.GenesisWorld;
    NodeChain(c, pc, u, w, root, n);
    var ch := n.engine.chain;
    OrphanRoot(c, u, w, ch, root);
    EarliestAtRoot(ch, root);
    RootIn(ch.nodes, root);
    RootIsGenesis(c, u, w, ch, root);
    RootIsAncestor(ch.nodes, root, ch.head);
  }

  /** The canonical chain of a node with history down to height 0 starts at the genesis block. */
  lemma GenesisIsAncestor(c: Crypto, pc: Postcard, u: iset<Block>, evs: seq<S.Event>)
    requires CollisionFree(c, u) && RoundTrips(pc) && Genesis(c) in u
    requires forall i :: 0 <= i < |evs| ==> S.LegalEvent(u, evs[i])
    requires var ch := S.Run(c, pc, evs).engine.chain; ZERO_HASH !in ch.nodes && EarliestContiguousHeight(ch) == 0
    ensures var ch := S.Run(c, pc, evs).engine.chain; Ancestor(ch.nodes, BlockHash(c, Genesis(c)), ch.head)
  {
    hide CollisionFree, RoundTrips, S.LegalEvent, S.Run, S.NodeOk, Ancestor, EarliestContiguousHeight, BlockHash;
    var w, root := S.RunOk(c, pc, u, evs);
    ReachesGenesis(c, pc, u, w, root, S.Run(c, pc, evs));
  }

  /** A node that has just started and connects to any node with full history ends with that node's exact head and
      state, whatever run brought the other there and whatever the chunk limit. */
  lemma FreshNodeSyncs(c: Crypto, pc: Postcard, u: iset<Block>, theirs: seq<S.Event>, peer: PeerId, limit: Option<u64>) returns (n: nat)
    requires CollisionFree(c, u) && RoundTrips(pc) && Genesis(c) in u
    requires forall i :: 0 <= i < |theirs| ==> S.LegalEvent(u, theirs[i])
    requires var server := S.Run(c, pc, theirs).engine.chain; ZERO_HASH !in server.nodes && EarliestContiguousHeight(server) == 0
    ensures var server := S.Run(c, pc, theirs).engine.chain;
            CaughtUp(Rounds(c, Step(c, NewEngine(NewChain(c)), PeerConnected(peer)).0, server, peer, limit, n), server)
  {
    hide CollisionFree, RoundTrips, Rounds, Ancestor, EarliestContiguousHeight, CaughtUp, BlockHash, Step;
    var server := S.Run(c, pc, theirs).engine.chain;
    var connect := S.Receive(PeerConnected(peer));
    Connected(c, pc, peer);
    GenesisIsAncestor(c, pc, u, theirs);
    NodesAgree(c, pc, u, [connect], theirs, peer, limit);
    var e := Step(c, NewEngine(NewChain(c)), PeerConnected(peer)).0;
    n :| CaughtUp(Rounds(c, e, server, peer, limit, n), server);
  }

  lemma Connected(c: Crypto, pc: Postcard, peer: PeerId)
    ensures var e := Step(c, NewEngine(NewChain(c)), PeerConnected(peer)).0;
            && S.Run(c, pc, [S.Receive(PeerConnected(peer))]).engine == e
            && e.chain == NewChain(c) && e.parked == map[]
            && |e.requests| == 1 && e.requests[0].peer == peer && e.requests[0].fromHeight == 1 && e.requests[0].toHeight == 100
  {
    hide BlockHash, EarliestDeadline;
    var connect := S.Receive(PeerConnected(peer));
    assert [connect][..0] == [];
    assert S.Run(c, pc, []) == S.Boot(c, map[]);
  }
}
