/**
 The head does not depend on arrival order: any two parent-first deliveries of the same blocks, whether the tree accepts
 or refuses them, end with the same blocks, the same head and the same state.
 */
module Delivery {
  import opened Base
  import opened Models
  import opened Encoding
  import opened Ledger
  import opened Chain
  import opened World

  /** No two of these blocks are a SHA-256 collision. */
  ghost predicate CollisionFree(c: Crypto, u: iset<Block>) {
    forall a, b :: a in u && b in u && BlockHash(c, a) == BlockHash(c, b) ==> EncBlock(a) == EncBlock(b)
  }

  lemma SameHash(c: Crypto, u: iset<Block>, a: Block, b: Block)
    requires CollisionFree(c, u) && a in u && b in u && BlockHash(c, a) == BlockHash(c, b)
    ensures SameContent(a, b)
  {
    hide EncBlock, BlockHash, SameContent;
    BlockPreimage(a, b);
  }

  // ---------------------------------------------------------------- any blocks, any parent states

  /** One `add_block`; a refused block changes nothing. */
  function Offered(c: Crypto, ch: Chain, b: Block, ps: State): (r: Chain)
    requires ch.head in ch.nodes
    ensures r.head in r.nodes
  {
    match AddBlock(c, ch, b, ps)
    case Err(_) => ch
    case Ok((next, _)) => next
  }

  /** Any sequence of `add_block` calls, each with whatever parent state the caller claims. */
  function Calls(c: Crypto, first: Block, s: State, calls: seq<(Block, State)>): (r: Chain)
    ensures r.head in r.nodes
  {
    if calls == [] then RestoreHead(c, first, s)
    else Offered(c, Calls(c, first, s, calls[..|calls| - 1]), calls[|calls| - 1].0, calls[|calls| - 1].1)
  }

  ghost predicate TreeAmong(nodes: Nodes, u: iset<Block>) {
    forall h {:trigger nodes[h]} :: h in nodes ==> nodes[h].block in u
  }

  lemma OfferedValid(c: Crypto, u: iset<Block>, root: Hash, ch: Chain, b: Block, ps: State)
    requires ch.head in ch.nodes && CollisionFree(c, u) && b in u && ValidTree(c, ch, root) && TreeAmong(ch.nodes, u)
    ensures var next := Offered(c, ch, b, ps); ValidTree(c, next, root) && TreeAmong(next.nodes, u)
  {
    hide AddBlock, BlockHash, ValidTree, CollisionFree, SameContent, Grow, ValidateAndApply;
    var h := BlockHash(c, b);
    TreeKeyed(c, ch, root);
    if h in ch.nodes { SameHash(c, u, ch.nodes[h].block, b); }
    if AddBlock(c, ch, b, ps).Ok? {
      AddBlockValid(c, ch, root, b, ps);
      AcceptedDescends(c, ch, b, ps);
      DescendsParent(ch.nodes, b);
      GrowBlocks(ch.nodes, h, b);
    }
  }

  /** After any sequence of `add_block` calls, refused ones and false parent states included, the tree is valid: in
      particular its head is the unique maximum of (height, slot, hash) over the whole tree. */
  lemma {:induction false} AnyCallsValid(c: Crypto, u: iset<Block>, first: Block, s: State, calls: seq<(Block, State)>)
    requires CollisionFree(c, u) && first in u && (forall i :: 0 <= i < |calls| ==> calls[i].0 in u)
    ensures var ch := Calls(c, first, s, calls);
            ValidTree(c, ch, BlockHash(c, first)) && HeadIsMax(ch) && TreeAmong(ch.nodes, u)
    decreases |calls|
  {
    hide BlockHash, CollisionFree, Offered, Keyed, Rooted, ChildrenExact, HeadIsMax;
    if calls == [] {
      SingletonValid(c, first, s);
    } else {
      var n := |calls| - 1;
      AnyCallsValid(c, u, first, s, calls[..n]);
      OfferedValid(c, u, BlockHash(c, first), Calls(c, first, s, calls[..n]), calls[n].0, calls[n].1);
    }
  }

  // ---------------------------------------------------------------- true parent states

  ghost function Blocks(nodes: Nodes): (r: map<Hash, Block>) {
    map h | h in nodes :: nodes[h].block
  }

  ghost function TreeWorld(ch: Chain, root: Hash, s: State): (r: World) {
    World(root, s, Blocks(ch.nodes))
  }

  /** Hand over one block with the true state of its parent, if the tree has one; a refused block changes nothing. */
  ghost function DeliverOne(c: Crypto, root: Hash, s: State, ch: Chain, b: Block): (r: Chain)
    requires ch.head in ch.nodes
    ensures r.head in r.nodes
  {
    match Replay(c, TreeWorld(ch, root, s), b.prev)
    case None => ch
    case Some(ps) => Offered(c, ch, b, ps)
  }

  ghost function Deliver(c: Crypto, first: Block, s: State, bs: seq<Block>): (r: Chain)
    ensures r.head in r.nodes
  {
    if bs == [] then RestoreHead(c, first, s)
    else DeliverOne(c, BlockHash(c, first), s, Deliver(c, first, s, bs[..|bs| - 1]), bs[|bs| - 1])
  }

  /** The blocks a delivery hands over, the first one included. */
  ghost predicate Given(b: Block, first: Block, bs: seq<Block>) { b == first || b in bs }

  ghost predicate Among(first: Block, bs: seq<Block>, u: iset<Block>) {
    first in u && forall i :: 0 <= i < |bs| ==> bs[i] in u
  }

  /** What every delivery keeps: a valid tree of given blocks, all of which replay, with the true state at its head. */
  ghost predicate Delivered(c: Crypto, first: Block, s: State, bs: seq<Block>, ch: Chain) {
    var root := BlockHash(c, first);
    && ValidTree(c, ch, root)
    && Sound(c, TreeWorld(ch, root, s)) && ChainIn(c, TreeWorld(ch, root, s), ch)
    && (forall h {:trigger ch.nodes[h]} :: h in ch.nodes ==> Given(ch.nodes[h].block, first, bs))
  }

  /** Blocks of the tree stay as they are. */
  ghost predicate Keeps(ch: Chain, next: Chain) {
    forall h {:trigger ch.nodes[h]} :: h in ch.nodes ==> h in next.nodes && next.nodes[h].block == ch.nodes[h].block
  }

  lemma KeepsExtends(ch: Chain, next: Chain, root: Hash, s: State)
    requires Keeps(ch, next)
    ensures Extends(TreeWorld(ch, root, s), TreeWorld(next, root, s))
  {
    forall h | h in ch.nodes ensures h in Blocks(next.nodes) && Blocks(next.nodes)[h] == Blocks(ch.nodes)[h] {
      assert ch.nodes[h] == ch.nodes[h];
    }
  }

  /** Accepted: its parent is in the tree with a true state on which it validates. */
  ghost predicate Accepts(c: Crypto, root: Hash, s: State, ch: Chain, b: Block) {
    && b.prev in ch.nodes && Replay(c, TreeWorld(ch, root, s), b.prev).Some?
    && ValidateAndApply(c, ch.nodes[b.prev].block, Replay(c, TreeWorld(ch, root, s), b.prev).value, b).Ok?
  }

  lemma AcceptedNodes(c: Crypto, root: Hash, s: State, ch: Chain, b: Block)
    requires ch.head in ch.nodes && Accepts(c, root, s, ch, b)
    ensures var next := DeliverOne(c, root, s, ch, b); var w := TreeWorld(ch, root, s); var ps := Replay(c, w, b.prev).value;
            && AddBlock(c, ch, b, ps).Ok? && next == AddBlock(c, ch, b, ps).value.0
            && next.nodes == Grow(ch.nodes, BlockHash(c, b), b) && Keeps(ch, next)
            && TreeWorld(next, root, s) == Record(c, w, b)
            && ValidateAndApply(c, ch.nodes[b.prev].block, ps, b) == Ok(AddBlock(c, ch, b, ps).value.1.nextState)
  {
    hide AddBlock, BlockHash, Replay, Grow, ValidateAndApply;
    var w := TreeWorld(ch, root, s);
    var ps := Replay(c, w, b.prev).value;
    AddRefused(c, ch, b, ps);
    AcceptedDescends(c, ch, b, ps);
    GrowBlocks(ch.nodes, BlockHash(c, b), b);
    assert Blocks(DeliverOne(c, root, s, ch, b).nodes) == Record(c, w, b).blocks;
  }

  lemma RefusedNodes(c: Crypto, root: Hash, s: State, ch: Chain, b: Block)
    requires ch.head in ch.nodes && !Accepts(c, root, s, ch, b)
    ensures DeliverOne(c, root, s, ch, b) == ch
  {
    hide AddBlock, Replay, ValidateAndApply;
    var ps := Replay(c, TreeWorld(ch, root, s), b.prev);
    if ps.Some? { AddRefused(c, ch, b, ps.value); }
  }

  /** Handing over one block keeps everything; if it is accepted its hash has the state the acceptance computed. */
  lemma StepDelivered(c: Crypto, u: iset<Block>, first: Block, s: State, bs: seq<Block>, ch: Chain, b: Block)
    requires CollisionFree(c, u) && Among(first, bs + [b], u) && ch.head in ch.nodes && Delivered(c, first, s, bs, ch)
    ensures var root := BlockHash(c, first); var next := DeliverOne(c, root, s, ch, b); var w := TreeWorld(ch, root, s);
            && Delivered(c, first, s, bs + [b], next) && Keeps(ch, next)
            && (Accepts(c, root, s, ch, b) ==>
                  && BlockHash(c, b) in next.nodes
                  && Replay(c, TreeWorld(next, root, s), BlockHash(c, b)).Some?
                  && ValidateAndApply(c, ch.nodes[b.prev].block, Replay(c, w, b.prev).value, b)
                     == Ok(Replay(c, TreeWorld(next, root, s), BlockHash(c, b)).value))
  {
    hide AddBlock, BlockHash, Replay, SameContent, ValidTree, CollisionFree, ChainIn, Sound, DeliverOne, Record, ValidateAndApply,
         Accepts, Grow;
    var root, h := BlockHash(c, first), BlockHash(c, b);
    if Accepts(c, root, s, ch, b) {
      AcceptedNodes(c, root, s, ch, b);
      ParentReplays(c, root, s, ch, b);
      var w := TreeWorld(ch, root, s);
      var ps := Replay(c, w, b.prev).value;
      assert b in u by { assert (bs + [b])[|bs|] == b; }
      TreeKeyed(c, ch, root);
      if h in ch.nodes {
        InUniverse(first, bs, b, u, ch.nodes[h].block);
        SameHash(c, u, ch.nodes[h].block, b);
      }
      AddBlockValid(c, ch, root, b, ps);
      AcceptSound(c, w, ch, b, ps);
      GrowGiven(first, bs, ch.nodes, h, b);
    } else {
      RefusedNodes(c, root, s, ch, b);
    }
  }

  lemma InUniverse(first: Block, bs: seq<Block>, b: Block, u: iset<Block>, x: Block)
    requires Among(first, bs + [b], u) && Given(x, first, bs)
    ensures x in u
  {
    if x != first {
      var i :| 0 <= i < |bs| && bs[i] == x;
      assert (bs + [b])[i] == x;
    }
  }

  lemma ParentReplays(c: Crypto, root: Hash, s: State, ch: Chain, b: Block)
    requires Accepts(c, root, s, ch, b)
    ensures b.prev in ch.nodes && Replay(c, TreeWorld(ch, root, s), b.prev).Some?
  {
  }

  lemma GrowGiven(first: Block, bs: seq<Block>, nodes: Nodes, h: Hash, b: Block)
    requires b.prev in nodes && (forall k {:trigger nodes[k]} :: k in nodes ==> Given(nodes[k].block, first, bs))
    ensures var grown := Grow(nodes, h, b);
            forall k {:trigger grown[k]} :: k in grown ==> Given(grown[k].block, first, bs + [b])
  {
    GrowBlocks(nodes, h, b);
    assert b in bs + [b];
  }

  lemma {:induction false} DeliverKeeps(c: Crypto, u: iset<Block>, first: Block, s: State, bs: seq<Block>)
    requires CollisionFree(c, u) && Among(first, bs, u)
    ensures Delivered(c, first, s, bs, Deliver(c, first, s, bs))
    decreases |bs|
  {
    hide BlockHash, DeliverOne, CollisionFree, Accepts, Replay, ValidTree;
    if bs == [] {
      SingletonValid(c, first, s);
      StartSound(c, first, s);
    } else {
      var n := |bs| - 1;
      hide Delivered;
      assert bs == bs[..n] + [bs[n]];
      DeliverKeeps(c, u, first, s, bs[..n]);
      StepDelivered(c, u, first, s, bs[..n], Deliver(c, first, s, bs[..n]), bs[n]);
    }
  }

  lemma StartSound(c: Crypto, first: Block, s: State)
    ensures var ch := RestoreHead(c, first, s); var w := TreeWorld(ch, BlockHash(c, first), s);
            Sound(c, w) && ChainIn(c, w, ch)
  {
    hide BlockHash;
  }

  /** After any delivery the head is the unique maximum of (height, slot, hash) over the whole tree, and the state
      is the true replay of the head. */
  lemma HeadIsBest(c: Crypto, u: iset<Block>, first: Block, s: State, bs: seq<Block>)
    requires CollisionFree(c, u) && Among(first, bs, u)
    ensures var ch := Deliver(c, first, s, bs);
            && HeadIsMax(ch)
            && Replay(c, TreeWorld(ch, BlockHash(c, first), s), ch.head) == Some(ch.state)
  {
    hide BlockHash, Deliver, Replay, HeadIsMax, CollisionFree, Keyed, Rooted, ChildrenExact, Sound;
    DeliverKeeps(c, u, first, s, bs);
  }

  // ---------------------------------------------------------------- prefixes of a delivery

  /** A prefix of a delivery is kept by the whole. */
  lemma {:induction false} PrefixKept(c: Crypto, u: iset<Block>, first: Block, s: State, bs: seq<Block>, j: nat)
    requires CollisionFree(c, u) && Among(first, bs, u) && j <= |bs|
    ensures Keeps(Deliver(c, first, s, bs[..j]), Deliver(c, first, s, bs))
    decreases |bs|
  {
    hide BlockHash, DeliverOne, CollisionFree, Delivered, Accepts, Replay;
    if j == |bs| {
      assert bs[..j] == bs;
    } else {
      var n := |bs| - 1;
      assert bs == bs[..n] + [bs[n]] && bs[..n][..j] == bs[..j];
      PrefixKept(c, u, first, s, bs[..n], j);
      DeliverKeeps(c, u, first, s, bs[..n]);
      StepDelivered(c, u, first, s, bs[..n], Deliver(c, first, s, bs[..n]), bs[n]);
    }
  }

  /** A block of the tree has the same content and state in every later tree of the delivery. */
  lemma PrefixReplay(c: Crypto, u: iset<Block>, first: Block, s: State, bs: seq<Block>, j: nat, h: Hash)
    requires CollisionFree(c, u) && Among(first, bs, u) && j <= |bs| && h in Deliver(c, first, s, bs[..j]).nodes
    ensures var early, late := Deliver(c, first, s, bs[..j]), Deliver(c, first, s, bs); var root := BlockHash(c, first);
            && h in late.nodes && late.nodes[h].block == early.nodes[h].block
            && Replay(c, TreeWorld(early, root, s), h).Some?
            && Replay(c, TreeWorld(late, root, s), h) == Replay(c, TreeWorld(early, root, s), h)
  {
    hide BlockHash, Deliver, CollisionFree, ValidTree, ChainIn, Replay;
    var early, late := Deliver(c, first, s, bs[..j]), Deliver(c, first, s, bs);
    var root := BlockHash(c, first);
    PrefixKept(c, u, first, s, bs, j);
    KeepsExtends(early, late, root, s);
    DeliverKeeps(c, u, first, s, bs[..j]);
    assert h in TreeWorld(early, root, s).blocks;
    ReplayStable(c, TreeWorld(early, root, s), TreeWorld(late, root, s), h);
  }

  /** A block handed over at position `j` onto an accepted parent on which it validates is in the final tree, with
      the state that validation computes. */
  lemma AcceptedAt(c: Crypto, u: iset<Block>, first: Block, s: State, bs: seq<Block>, j: nat)
    requires CollisionFree(c, u) && Among(first, bs, u) && j < |bs|
    requires Accepts(c, BlockHash(c, first), s, Deliver(c, first, s, bs[..j]), bs[j])
    ensures var ch, root := Deliver(c, first, s, bs), BlockHash(c, first); var h := BlockHash(c, bs[j]);
            && h in Deliver(c, first, s, bs[..j + 1]).nodes && h in ch.nodes
            && bs[j].prev in ch.nodes && Replay(c, TreeWorld(ch, root, s), bs[j].prev).Some?
            && Replay(c, TreeWorld(ch, root, s), h).Some?
            && ValidateAndApply(c, ch.nodes[bs[j].prev].block, Replay(c, TreeWorld(ch, root, s), bs[j].prev).value, bs[j])
               == Ok(Replay(c, TreeWorld(ch, root, s), h).value)
  {
    hide BlockHash, CollisionFree, Accepts, Replay, DeliverOne, Delivered, ValidateAndApply;
    var early, b := Deliver(c, first, s, bs[..j]), bs[j];
    assert bs[..j + 1] == bs[..j] + [b];
    assert bs[..j + 1][..j] == bs[..j];
    DeliverKeeps(c, u, first, s, bs[..j]);
    StepDelivered(c, u, first, s, bs[..j], early, b);
    ParentReplays(c, BlockHash(c, first), s, early, b);
    PrefixReplay(c, u, first, s, bs, j, b.prev);
    PrefixReplay(c, u, first, s, bs, j + 1, BlockHash(c, b));
  }

  /** Every block of the tree but the first validates on its parent there, onto its own state. */
  lemma TreeAccepts(c: Crypto, u: iset<Block>, first: Block, s: State, bs: seq<Block>, h: Hash)
    requires CollisionFree(c, u) && Among(first, bs, u)
    requires h in Deliver(c, first, s, bs).nodes && h != BlockHash(c, first)
    ensures var ch, root := Deliver(c, first, s, bs), BlockHash(c, first); var b := ch.nodes[h].block; var w := TreeWorld(ch, root, s);
            && b in bs && BlockHash(c, b) == h && Accepts(c, root, s, ch, b)
            && ch.nodes[b.prev].block.height < b.height
            && Replay(c, w, h).Some?
            && ValidateAndApply(c, ch.nodes[b.prev].block, Replay(c, w, b.prev).value, b) == Ok(Replay(c, w, h).value)
  {
    hide BlockHash, Deliver, CollisionFree, ValidTree, Replay, ValidateAndApply, Merkle.StateRoot, ChainIn;
    DeliverKeeps(c, u, first, s, bs);
    var ch, root := Deliver(c, first, s, bs), BlockHash(c, first);
    var b := ch.nodes[h].block;
    TreeKeyed(c, ch, root);
    assert BlockHash(c, b) == h;
    ReplayStep(c, TreeWorld(ch, root, s), h);
  }

  // ---------------------------------------------------------------- two deliveries

  /** Parent-first: before a block, every given block that could be its parent has been handed over. */
  ghost predicate ParentFirst(c: Crypto, first: Block, bs: seq<Block>) {
    forall i, j :: 0 <= i < |bs| && 0 <= j < |bs| && BlockHash(c, bs[i]) == bs[j].prev ==> Given(bs[i], first, bs[..j])
  }

  ghost predicate SameGiven(first: Block, bs: seq<Block>, ds: seq<Block>) {
    forall b :: Given(b, first, bs) <==> Given(b, first, ds)
  }

  /** If the whole delivery accepts a parent of `bs[j]`, it has accepted it before position `j`. */
  lemma {:induction false} InTime(c: Crypto, u: iset<Block>, first: Block, s: State, bs: seq<Block>, j: nat, h: Hash)
    requires CollisionFree(c, u) && Among(first, bs, u) && ParentFirst(c, first, bs)
    requires j <= |bs| && h in Deliver(c, first, s, bs).nodes
    requires forall i :: 0 <= i < |bs| && BlockHash(c, bs[i]) == h ==> Given(bs[i], first, bs[..j])
    ensures h in Deliver(c, first, s, bs[..j]).nodes
    decreases Deliver(c, first, s, bs).nodes[h].block.height
  {
    hide BlockHash, Deliver, CollisionFree, Accepts, Replay, ValidateAndApply;
    var ch, root := Deliver(c, first, s, bs), BlockHash(c, first);
    if h == root {
      RootDelivered(c, u, first, s, bs[..j]);
    } else {
      TreeAccepts(c, u, first, s, bs, h);
      var g := ch.nodes[h].block;
      var i :| 0 <= i < |bs| && bs[i] == g;
      var k := IndexBefore(first, bs, j, g) by { assert g != first; }
      ParentReplays(c, root, s, ch, g);
      InTime(c, u, first, s, bs, k, g.prev);
      SameAcceptance(c, u, first, s, bs, k, ch, g);
      AcceptedAt(c, u, first, s, bs, k);
      PrefixOfPrefix(c, u, first, s, bs, k + 1, j, h);
    }
  }

  lemma IndexBefore(first: Block, bs: seq<Block>, j: nat, g: Block) returns (k: nat)
    requires j <= |bs| && g != first && Given(g, first, bs[..j])
    ensures k < j && bs[k] == g
  {
    k :| k < j && bs[..j][k] == g;
  }

  lemma RootDelivered(c: Crypto, u: iset<Block>, first: Block, s: State, bs: seq<Block>)
    requires CollisionFree(c, u) && Among(first, bs, u)
    ensures BlockHash(c, first) in Deliver(c, first, s, bs).nodes
  {
    hide BlockHash, CollisionFree, DeliverOne;
    PrefixKept(c, u, first, s, bs, 0);
    assert bs[..0] == [];
    var start := Deliver(c, first, s, []);
    assert start.nodes[BlockHash(c, first)] == BlockNode(first, []);
  }

  lemma PrefixOfPrefix(c: Crypto, u: iset<Block>, first: Block, s: State, bs: seq<Block>, k: nat, j: nat, h: Hash)
    requires CollisionFree(c, u) && Among(first, bs, u) && k <= j <= |bs| && h in Deliver(c, first, s, bs[..k]).nodes
    ensures h in Deliver(c, first, s, bs[..j]).nodes
  {
    hide BlockHash, CollisionFree, Deliver;
    PrefixKept(c, u, first, s, bs[..j], k);
    assert bs[..j][..k] == bs[..k];
    assert Deliver(c, first, s, bs[..k]).nodes[h] == Deliver(c, first, s, bs[..k]).nodes[h];
  }

  /** A block accepted by a tree `ch` is accepted by a prefix that holds its parent with the same content and state. */
  lemma SameAcceptance(c: Crypto, u: iset<Block>, first: Block, s: State, bs: seq<Block>, k: nat, ch: Chain, g: Block)
    requires CollisionFree(c, u) && Among(first, bs, u) && k <= |bs|
    requires var late, root := Deliver(c, first, s, bs), BlockHash(c, first);
             && Accepts(c, root, s, ch, g)
             && g.prev in Deliver(c, first, s, bs[..k]).nodes && g.prev in late.nodes
             && SameContent(late.nodes[g.prev].block, ch.nodes[g.prev].block)
             && Replay(c, TreeWorld(late, root, s), g.prev) == Replay(c, TreeWorld(ch, root, s), g.prev)
    ensures Accepts(c, BlockHash(c, first), s, Deliver(c, first, s, bs[..k]), g)
  {
    hide BlockHash, CollisionFree, Deliver, Replay, ValidateAndApply;
    var early, late := Deliver(c, first, s, bs[..k]), Deliver(c, first, s, bs);
    PrefixReplay(c, u, first, s, bs, k, g.prev);
    assert SameContent(early.nodes[g.prev].block, ch.nodes[g.prev].block);
    ParentContent(c, early.nodes[g.prev].block, ch.nodes[g.prev].block, Replay(c, TreeWorld(ch, BlockHash(c, first), s), g.prev).value, g);
  }

  /** What one parent-first delivery accepts, every other one accepts, with the same content and state. */
  lemma {:induction false} Included(c: Crypto, u: iset<Block>, first: Block, s: State, bs: seq<Block>, ds: seq<Block>, h: Hash)
    requires CollisionFree(c, u) && Among(first, bs, u) && Among(first, ds, u) && SameGiven(first, bs, ds)
    requires ParentFirst(c, first, ds) && h in Deliver(c, first, s, bs).nodes
    ensures var ch1, ch2, root := Deliver(c, first, s, bs), Deliver(c, first, s, ds), BlockHash(c, first);
            && h in ch2.nodes && SameContent(ch2.nodes[h].block, ch1.nodes[h].block)
            && Replay(c, TreeWorld(ch2, root, s), h) == Replay(c, TreeWorld(ch1, root, s), h)
    decreases Deliver(c, first, s, bs).nodes[h].block.height
  {
    hide BlockHash, Deliver, CollisionFree, Accepts, Replay, ValidateAndApply, SameContent, ParentFirst;
    var ch1, ch2, root := Deliver(c, first, s, bs), Deliver(c, first, s, ds), BlockHash(c, first);
    if h == root {
      RootDelivered(c, u, first, s, ds);
      OriginState(c, ch1, root, s);
      OriginState(c, ch2, root, s);
    } else {
      TreeAccepts(c, u, first, s, bs, h);
      var b := ch1.nodes[h].block;
      var p := b.prev;
      ParentReplays(c, root, s, ch1, b);
      Included(c, u, first, s, bs, ds, p);
      assert Given(b, first, ds);
      var j := IndexBefore(first, ds, |ds|, b) by { assert ds[..|ds|] == ds; assert b != first; }
      ParentsBefore(c, first, ds, j);
      InTime(c, u, first, s, ds, j, p);
      SameAcceptance(c, u, first, s, ds, j, ch1, b);
      AcceptedAt(c, u, first, s, ds, j);
      SameState(c, ch1.nodes[p].block, ch2.nodes[p].block, Replay(c, TreeWorld(ch1, root, s), p).value, b);
    }
    SharedContent(c, u, first, s, bs, ds, h);
  }

  lemma OriginState(c: Crypto, ch: Chain, root: Hash, s: State)
    ensures Replay(c, TreeWorld(ch, root, s), root) == Some(s)
  {
  }

  lemma ParentsBefore(c: Crypto, first: Block, bs: seq<Block>, j: nat)
    requires ParentFirst(c, first, bs) && j < |bs|
    ensures forall i :: 0 <= i < |bs| && BlockHash(c, bs[i]) == bs[j].prev ==> Given(bs[i], first, bs[..j])
  {
    hide BlockHash;
  }

  lemma SameState(c: Crypto, p: Block, q: Block, s: State, b: Block)
    requires SameContent(q, p)
    ensures ValidateAndApply(c, p, s, b) == ValidateAndApply(c, q, s, b)
  {
    hide ValidateAndApply;
    ParentContent(c, p, q, s, b);
  }

  lemma SharedContent(c: Crypto, u: iset<Block>, first: Block, s: State, bs: seq<Block>, ds: seq<Block>, h: Hash)
    requires CollisionFree(c, u) && Among(first, bs, u) && Among(first, ds, u)
    requires h in Deliver(c, first, s, bs).nodes && h in Deliver(c, first, s, ds).nodes
    ensures SameContent(Deliver(c, first, s, ds).nodes[h].block, Deliver(c, first, s, bs).nodes[h].block)
  {
    hide BlockHash, Deliver, CollisionFree, SameContent, ValidTree, Sound, ChainIn;
    var ch1, ch2 := Deliver(c, first, s, bs), Deliver(c, first, s, ds);
    DeliverKeeps(c, u, first, s, bs);
    DeliverKeeps(c, u, first, s, ds);
    TreeKeyed(c, ch1, BlockHash(c, first));
    TreeKeyed(c, ch2, BlockHash(c, first));
    assert BlockHash(c, ch1.nodes[h].block) == h && BlockHash(c, ch2.nodes[h].block) == h;
    GivenAmong(first, bs, u, ch1.nodes[h].block);
    GivenAmong(first, ds, u, ch2.nodes[h].block);
    SameHash(c, u, ch2.nodes[h].block, ch1.nodes[h].block);
  }

  lemma GivenAmong(first: Block, bs: seq<Block>, u: iset<Block>, b: Block)
    requires Among(first, bs, u) && Given(b, first, bs)
    ensures b in u
  {
  }

  lemma SameHead(ch1: Chain, ch2: Chain)
    requires HeadIsMax(ch1) && HeadIsMax(ch2) && ch1.nodes.Keys == ch2.nodes.Keys
    requires forall h {:trigger ch1.nodes[h]} :: h in ch1.nodes ==> SameContent(ch2.nodes[h].block, ch1.nodes[h].block)
    ensures ch1.head == ch2.head
  {
    var a, b := ch1.head, ch2.head;
    assert SameContent(ch2.nodes[a].block, ch1.nodes[a].block) && SameContent(ch2.nodes[b].block, ch1.nodes[b].block);
    if a != b {
      BeatsTotal(a, ch1.nodes[a].block, b, ch1.nodes[b].block);
      BeatsIsAbove(a, ch1.nodes[a].block, b, ch1.nodes[b].block);
      BeatsIsAbove(b, ch2.nodes[b].block, a, ch2.nodes[a].block);
    }
  }

  /** Order independence: two parent-first orders of the same blocks, refused ones included, accept the same hashes
      and end with the same contents, the same head and the same state. */
  lemma OrderIndependent(c: Crypto, u: iset<Block>, first: Block, s: State, bs: seq<Block>, ds: seq<Block>)
    requires CollisionFree(c, u) && Among(first, bs, u) && SameGiven(first, bs, ds)
    requires ParentFirst(c, first, bs) && ParentFirst(c, first, ds)
    ensures var ch1, ch2 := Deliver(c, first, s, bs), Deliver(c, first, s, ds);
            && ch1.nodes.Keys == ch2.nodes.Keys
            && (forall h {:trigger ch1.nodes[h]} :: h in ch1.nodes ==> SameContent(ch2.nodes[h].block, ch1.nodes[h].block))
            && ch1.head == ch2.head && ch1.state == ch2.state
  {
    hide BlockHash, Deliver, Replay, CollisionFree, SameContent, HeadIsMax, ParentFirst;
    AmongSame(first, bs, ds, u);
    var ch1, ch2 := Deliver(c, first, s, bs), Deliver(c, first, s, ds);
    forall h | h in ch1.nodes ensures h in ch2.nodes && SameContent(ch2.nodes[h].block, ch1.nodes[h].block) {
      Included(c, u, first, s, bs, ds, h);
    }
    forall h | h in ch2.nodes ensures h in ch1.nodes { Included(c, u, first, s, ds, bs, h); }
    HeadIsBest(c, u, first, s, bs);
    HeadIsBest(c, u, first, s, ds);
    SameHead(ch1, ch2);
    Included(c, u, first, s, bs, ds, ch1.head);
  }

  lemma AmongSame(first: Block, bs: seq<Block>, ds: seq<Block>, u: iset<Block>)
    requires Among(first, bs, u) && SameGiven(first, bs, ds)
    ensures Among(first, ds, u)
  {
    forall i | 0 <= i < |ds| ensures ds[i] in u { assert Given(ds[i], first, ds); assert Given(ds[i], first, bs); }
  }

  /** When no two given blocks share a hash, the block maps are equal outright. */
  lemma OrderIndependentBlocks(c: Crypto, u: iset<Block>, first: Block, s: State, bs: seq<Block>, ds: seq<Block>)
    requires CollisionFree(c, u) && Among(first, bs, u) && SameGiven(first, bs, ds)
    requires ParentFirst(c, first, bs) && ParentFirst(c, first, ds)
    requires forall a, b :: Given(a, first, bs) && Given(b, first, bs) && BlockHash(c, a) == BlockHash(c, b) ==> a == b
    ensures Blocks(Deliver(c, first, s, bs).nodes) == Blocks(Deliver(c, first, s, ds).nodes)
  {
    hide BlockHash, Deliver, CollisionFree, ValidTree, Sound, ChainIn, ParentFirst, SameContent;
    AmongSame(first, bs, ds, u);
    OrderIndependent(c, u, first, s, bs, ds);
    DeliverKeeps(c, u, first, s, bs);
    DeliverKeeps(c, u, first, s, ds);
    var ch1, ch2 := Deliver(c, first, s, bs), Deliver(c, first, s, ds);
    TreeKeyed(c, ch1, BlockHash(c, first));
    TreeKeyed(c, ch2, BlockHash(c, first));
    forall h | h in ch1.nodes ensures ch1.nodes[h].block == ch2.nodes[h].block {
      assert BlockHash(c, ch1.nodes[h].block) == h && BlockHash(c, ch2.nodes[h].block) == h;
      assert Given(ch2.nodes[h].block, first, ds);
    }
  }

  lemma TreeKeyed(c: Crypto, ch: Chain, root: Hash)
    requires ValidTree(c, ch, root)
    ensures Keyed(c, ch.nodes)
  {
  }
}
