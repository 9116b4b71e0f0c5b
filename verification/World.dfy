/**
 The true state of every block, independent of any node: replay from a fixed origin over the blocks
 accepted so far, in whatever order and in however many sessions they were accepted.
 */
module World {
  import opened Base
  import opened Models
  import opened Ledger
  import opened LedgerLaws
  import opened Chain
  import opened Walks

  /** The blocks ever accepted, with the origin they descend from and the state at the origin. */
  datatype World = World(origin: Hash, start: State, blocks: map<Hash, Block>)

  /** The state after block `h`, if its ancestry is recorded and every block on it is accepted. */
  ghost function Replay(c: Crypto, w: World, h: Hash): (r: Option<State>)
    decreases if h in w.blocks then w.blocks[h].height else 0
  {
    if h == w.origin then Some(w.start)
    else if !Linked(w, h) then None
    else
      match Replay(c, w, w.blocks[h].prev)
      case None => None
      case Some(ps) =>
        match ValidateAndApply(c, w.blocks[w.blocks[h].prev], ps, w.blocks[h])
        case Err(_) => None
        case Ok(s) => Some(s)
  }

  ghost predicate Linked(w: World, h: Hash) {
    h in w.blocks && w.blocks[h].prev in w.blocks && w.blocks[w.blocks[h].prev].height < w.blocks[h].height
  }

  /** Keys are hashes and every recorded block replays. */
  ghost predicate Sound(c: Crypto, w: World) {
    && w.origin in w.blocks
    && (forall h :: h in w.blocks ==> BlockHash(c, w.blocks[h]) == h)
    && (forall h :: h in w.blocks ==> Replay(c, w, h).Some?)
  }

  ghost predicate Extends(w: World, w': World) {
    && w'.origin == w.origin && w'.start == w.start
    && (forall h :: h in w.blocks ==> h in w'.blocks && w'.blocks[h] == w.blocks[h])
  }

  /** Record an accepted block unless a block with its hash is there. */
  ghost function Record(c: Crypto, w: World, b: Block): (r: World) {
    if BlockHash(c, b) in w.blocks then w else w.(blocks := w.blocks[BlockHash(c, b) := b])
  }

  lemma ExtendsTransitive(w1: World, w2: World, w3: World)
    requires Extends(w1, w2) && Extends(w2, w3)
    ensures Extends(w1, w3)
  {
  }

  /** Recording more blocks never changes a replay. */
  lemma {:induction false} ReplayStable(c: Crypto, w: World, w': World, h: Hash)
    requires Extends(w, w') && Replay(c, w, h).Some?
    ensures Replay(c, w', h) == Replay(c, w, h)
    decreases if h in w.blocks then w.blocks[h].height else 0
  {
    hide ValidateAndApply;
    if h != w.origin { ReplayStable(c, w, w', w.blocks[h].prev); }
  }

  /** One step of a replay, seen from above. */
  lemma ReplayStep(c: Crypto, w: World, h: Hash)
    requires h != w.origin && Replay(c, w, h).Some?
    ensures Linked(w, h) && Replay(c, w, w.blocks[h].prev).Some?
    ensures ValidateAndApply(c, w.blocks[w.blocks[h].prev], Replay(c, w, w.blocks[h].prev).value, w.blocks[h])
            == Ok(Replay(c, w, h).value)
    ensures w.blocks[h].height == w.blocks[w.blocks[h].prev].height + 1
    ensures w.blocks[h].stateRoot == Merkle.StateRoot(c, Replay(c, w, h).value.balances)
  {
    hide ValidateAndApply, ApplyBody, Merkle.StateRoot;
    AcceptedBody(c, w.blocks[w.blocks[h].prev], Replay(c, w, w.blocks[h].prev).value, w.blocks[h]);
  }

  lemma {:induction false} ReplayHeight(c: Crypto, w: World, h: Hash)
    requires w.origin in w.blocks && h in w.blocks && Replay(c, w, h).Some?
    ensures w.blocks[w.origin].height <= w.blocks[h].height
    decreases w.blocks[h].height
  {
    hide ValidateAndApply, Merkle.StateRoot;
    if h != w.origin {
      ReplayStep(c, w, h);
      ReplayHeight(c, w, w.blocks[h].prev);
    }
  }

  /** A replay is the replay of a chain of blocks, so every law of accepted chains holds at every block. */
  lemma {:induction false} ReplayIsChain(c: Crypto, w: World, h: Hash) returns (bs: seq<Block>)
    requires w.origin in w.blocks && h in w.blocks && Replay(c, w, h).Some?
    ensures ReplayChain(c, w.blocks[w.origin], w.start, bs) == Ok(Replay(c, w, h).value)
    ensures Tip(w.blocks[w.origin], bs) == w.blocks[h]
    decreases w.blocks[h].height
  {
    hide ValidateAndApply, Merkle.StateRoot;
    bs := [];
    if h != w.origin {
      ReplayStep(c, w, h);
      var prefix := ReplayIsChain(c, w, w.blocks[h].prev);
      bs := prefix + [w.blocks[h]];
      assert bs[..|prefix|] == prefix;
    }
  }

  // ---------------------------------------------------------------- a node's tree inside the world

  /** The tree holds recorded blocks, and its state is the true state of its head. */
  ghost predicate ChainIn(c: Crypto, w: World, ch: Chain) {
    && ch.head in ch.nodes
    && (forall h {:trigger ch.nodes[h]} :: h in ch.nodes ==> h in w.blocks && SameContent(ch.nodes[h].block, w.blocks[h]))
    && Replay(c, w, ch.head) == Some(ch.state)
  }

  lemma ChainInStable(c: Crypto, w: World, w': World, ch: Chain)
    requires Extends(w, w') && ChainIn(c, w, ch)
    ensures ChainIn(c, w', ch)
  {
    hide SameContent;
    ReplayStable(c, w, w', ch.head);
  }

  /** Validation looks only at the parent's height and slot. */
  lemma ParentContent(c: Crypto, p: Block, q: Block, s: State, b: Block)
    requires p.height == q.height && p.slot == q.slot
    ensures ValidateAndApply(c, p, s, b) == ValidateAndApply(c, q, s, b)
  {
    hide ApplyBody, ExpectedValidator, Merkle.StateRoot, IsValidBlock;
  }

  /** A block of the world whose hash the accepted block repeats has the state the acceptance computed. */
  lemma RepeatedBlock(c: Crypto, w: World, b: Block, p: Block, ps: State)
    requires Sound(c, w) && b.prev in w.blocks && SameContent(p, w.blocks[b.prev])
    requires Replay(c, w, b.prev) == Some(ps)
    requires ValidateAndApply(c, p, ps, b).Ok?
    requires BlockHash(c, b) in w.blocks && SameContent(w.blocks[BlockHash(c, b)], b)
    ensures Replay(c, w, BlockHash(c, b)) == Some(ValidateAndApply(c, p, ps, b).value)
  {
    hide ValidateAndApply, BlockHash, Merkle.StateRoot, ApplyBody;
    var h := BlockHash(c, b);
    AcceptedBody(c, p, ps, b);
    ReplayHeight(c, w, b.prev);
    assert w.blocks[h].height == b.height && p.height == w.blocks[b.prev].height;
    ReplayStep(c, w, h);
    AcceptedContent(c, w.blocks[b.prev], p, ps, w.blocks[h], b);
  }

  lemma NewBlock(c: Crypto, w: World, b: Block, p: Block, ps: State)
    requires Sound(c, w) && b.prev in w.blocks && SameContent(p, w.blocks[b.prev])
    requires Replay(c, w, b.prev) == Some(ps)
    requires ValidateAndApply(c, p, ps, b).Ok? && BlockHash(c, b) !in w.blocks
    ensures Sound(c, Record(c, w, b))
    ensures Replay(c, Record(c, w, b), BlockHash(c, b)) == Some(ValidateAndApply(c, p, ps, b).value)
  {
    hide ValidateAndApply, BlockHash, ApplyBody, Merkle.StateRoot;
    var h, w' := BlockHash(c, b), Record(c, w, b);
    AcceptedBody(c, p, ps, b);
    ParentContent(c, p, w.blocks[b.prev], ps, b);
    ReplayStable(c, w, w', b.prev);
    assert w'.blocks[h] == b && w'.blocks[b.prev] == w.blocks[b.prev];
    forall k | k in w'.blocks ensures Replay(c, w', k).Some? {
      if k != h { ReplayStable(c, w, w', k); }
    }
  }

  /** Accepting a block on top of its parent's true state keeps the node's tree inside the world, and the state
      the node computed is the true state of the block. */
  lemma AcceptSound(c: Crypto, w: World, ch: Chain, b: Block, ps: State)
    requires Sound(c, w) && ChainIn(c, w, ch)
    requires BlockHash(c, b) in w.blocks ==> SameContent(w.blocks[BlockHash(c, b)], b)
    requires b.prev in ch.nodes ==> Replay(c, w, b.prev) == Some(ps)
    requires AddBlock(c, ch, b, ps).Ok?
    ensures var w' := Record(c, w, b); var (ch', imported) := AddBlock(c, ch, b, ps).value;
            && Sound(c, w') && Extends(w, w')
            && ChainIn(c, w', ch')
            && Replay(c, w', BlockHash(c, b)) == Some(imported.nextState)
            && BlockHash(c, b) in w'.blocks && SameContent(w'.blocks[BlockHash(c, b)], b)
  {
    hide ValidateAndApply, BlockHash, Beats, RemoveMined, Grow, SameContent, Replay, Sound;
    var h, w' := BlockHash(c, b), Record(c, w, b);
    AcceptedDescends(c, ch, b, ps);
    var p := ch.nodes[b.prev].block;
    if h in w.blocks {
      RepeatedBlock(c, w, b, p, ps);
    } else {
      NewBlock(c, w, b, p, ps);
    }
    ReplayStable(c, w, w', ch.head);
    SameContentReflexive(b);
    GrowInWorld(ch.nodes, h, b, w');
  }

  lemma SameContentReflexive(b: Block)
    ensures SameContent(b, b)
  {
  }

  lemma GrowInWorld(nodes: Nodes, h: Hash, b: Block, w: World)
    requires b.prev in nodes && h in w.blocks && SameContent(w.blocks[h], b)
    requires forall k {:trigger nodes[k]} :: k in nodes ==> k in w.blocks && SameContent(nodes[k].block, w.blocks[k])
    ensures var grown := Grow(nodes, h, b);
            forall k {:trigger grown[k]} :: k in grown ==> k in w.blocks && SameContent(grown[k].block, w.blocks[k])
  {
    hide EraseBlock;
    GrowBlocks(nodes, h, b);
  }

  lemma GrowBlocks(nodes: Nodes, h: Hash, b: Block)
    requires b.prev in nodes
    ensures forall k :: k in nodes ==> Grow(nodes, h, b)[k].block == nodes[k].block
    ensures h !in nodes ==> Grow(nodes, h, b)[h].block == b
  {
  }

  // ---------------------------------------------------------------- validated trees

  /** The tree's block `h` is accepted on the true state of its parent and leads to the true state of `h`. */
  ghost predicate ValidatedAt(c: Crypto, w: World, nodes: Nodes, h: Hash) {
    && h in nodes && nodes[h].block.prev in nodes
    && Replay(c, w, nodes[h].block.prev).Some? && Replay(c, w, h).Some?
    && ValidateAndApply(c, nodes[nodes[h].block.prev].block, Replay(c, w, nodes[h].block.prev).value, nodes[h].block)
       == Ok(Replay(c, w, h).value)
  }

  /** Every block of the tree but its root was validated against the true state of its parent. */
  ghost predicate Validated(c: Crypto, w: World, nodes: Nodes, root: Hash) {
    forall h {:trigger nodes[h]} :: h in nodes && h != root ==> ValidatedAt(c, w, nodes, h)
  }

  lemma ValidatedAtStable(c: Crypto, w: World, w': World, nodes: Nodes, nodes': Nodes, h: Hash)
    requires Extends(w, w') && ValidatedAt(c, w, nodes, h)
    requires forall k :: k in nodes ==> k in nodes' && nodes'[k].block == nodes[k].block
    ensures ValidatedAt(c, w', nodes', h)
  {
    hide ValidateAndApply, Replay;
    ReplayStable(c, w, w', h);
    ReplayStable(c, w, w', nodes[h].block.prev);
  }

  lemma ValidatedStable(c: Crypto, w: World, w': World, nodes: Nodes, root: Hash)
    requires Extends(w, w') && Validated(c, w, nodes, root)
    ensures Validated(c, w', nodes, root)
  {
    hide ValidatedAt;
    forall h | h in nodes && h != root ensures ValidatedAt(c, w', nodes, h) {
      ValidatedAtStable(c, w, w', nodes, nodes, h);
    }
  }

  lemma ValidatedGrows(c: Crypto, w: World, w': World, ch: Chain, root: Hash, b: Block, ps: State)
    requires Extends(w, w') && Validated(c, w, ch.nodes, root)
    requires ch.head in ch.nodes && AddBlock(c, ch, b, ps).Ok? && Replay(c, w, b.prev) == Some(ps)
    requires Replay(c, w', BlockHash(c, b)) == Some(AddBlock(c, ch, b, ps).value.1.nextState)
    requires BlockHash(c, b) in ch.nodes ==> AddBlock(c, ch, b, ps).value.0 == ch
    ensures Validated(c, w', AddBlock(c, ch, b, ps).value.0.nodes, root)
  {
    hide ValidateAndApply, Replay, AddBlock, BlockHash, Grow;
    var h := BlockHash(c, b);
    if h in ch.nodes {
      ValidatedStable(c, w, w', ch.nodes, root);
    } else {
      AcceptedDescends(c, ch, b, ps);
      DescendsParent(ch.nodes, b);
      GrowBlocks(ch.nodes, h, b);
      var grown := Grow(ch.nodes, h, b);
      ReplayStable(c, w, w', b.prev);
      forall k | k in grown && k != root ensures ValidatedAt(c, w', grown, k) {
        if k != h { ValidatedAtStable(c, w, w', ch.nodes, grown, k); }
      }
    }
  }

  /** In the world of a genesis at height 0 no block of a rooted tree has the hash of the root's parent. */
  lemma RootDetached(c: Crypto, w: World, ch: Chain, root: Hash)
    requires Sound(c, w) && w.blocks[w.origin].height == 0
    requires ChainIn(c, w, ch) && Rooted(ch.nodes, root)
    ensures Detached(ch.nodes, root)
  {
    hide ValidateAndApply, Merkle.StateRoot, BlockHash;
    var b := ch.nodes[root].block;
    assert SameContent(b, w.blocks[root]);
    if root != w.origin { ReplayStep(c, w, root); }
  }
}
