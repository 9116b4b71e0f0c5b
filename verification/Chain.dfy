/**
 The block tree and its fork choice (rp-node/src/blockchain.rs): a hash-keyed tree that grows by
 `add_block`, is replaced by `restore_head`, and is walked from the head to serve history.
 */
module Chain {
  import opened Base
  import opened Models
  import opened Ledger
  import opened LedgerLaws
  import opened Mempool

  const MEMPOOL_SIZE: nat := 10000

  datatype BlockNode = BlockNode(block: Block, children: seq<Hash>)

  type Nodes = map<Hash, BlockNode>

  datatype Chain = Chain(nodes: Nodes, head: Hash, state: State, pool: Pool)

  datatype NodeError = ParentBlockNotFound | BlockRejected(error: BlockError)

  datatype Imported = Imported(nextState: State, becameHead: bool)

  function Genesis(c: Crypto): (r: Block) {
    Block(0, 0, ZERO_HASH, c.genesisKey, [], None, [], ZERO_HASH)
  }

  /** `restore_head`: a tree of one block. */
  function RestoreHead(c: Crypto, b: Block, s: State): (r: Chain) {
    Chain(map[BlockHash(c, b) := BlockNode(b, [])], BlockHash(c, b), s, [])
  }

  function NewChain(c: Crypto): (r: Chain) { RestoreHead(c, Genesis(c), EMPTY_STATE) }

  /** A new chain: an unsigned block at height and slot 0 without parent, content or state, and nobody with anything. */
  lemma GenesisLaw(c: Crypto)
    ensures var ch := NewChain(c); var g := Block(0, 0, ZERO_HASH, c.genesisKey, [], None, [], ZERO_HASH); var h := c.sha(EncBlock(g));
            ch.nodes == map[h := BlockNode(g, [])] && ch.head == h && ch.state == State(map[], map[], map[], map[]) && ch.pool == []
  {
    hide EncBlock;
  }

  function LatestBlock(ch: Chain): (r: Block)
    requires ch.head in ch.nodes
  {
    ch.nodes[ch.head].block
  }

  /** Record `h` under its parent, once. */
  function Link(nodes: Nodes, p: Hash, h: Hash): (r: Nodes)
    requires p in nodes
  {
    if h in nodes[p].children then nodes
    else nodes[p := nodes[p].(children := nodes[p].children + [h])]
  }

  function Grow(nodes: Nodes, h: Hash, b: Block): (r: Nodes)
    requires b.prev in nodes
    ensures r.Keys == nodes.Keys + {h}
  {
    var linked := Link(nodes, b.prev, h);
    if h in linked then linked else linked[h := BlockNode(b, [])]
  }

  function RemoveMined(c: Crypto, pool: Pool, txs: seq<Transaction>): (r: Pool) {
    if txs == [] then pool
    else Without(c, RemoveMined(c, pool, txs[..|txs| - 1]), TxHash(c, txs[|txs| - 1]))
  }

  function AddBlock(c: Crypto, ch: Chain, b: Block, ps: State): (r: Result<(Chain, Imported), NodeError>)
    requires ch.head in ch.nodes
    ensures r.Ok? ==> r.value.0.head in r.value.0.nodes
  {
    if b.prev !in ch.nodes then Err(ParentBlockNotFound) else
      match ValidateAndApply(c, ch.nodes[b.prev].block, ps, b)
      case Err(e) => Err(BlockRejected(e))
      case Ok(next) =>
        var h := BlockHash(c, b);
        var nodes := Grow(ch.nodes, h, b);
        if Beats(h, b, ch.head, nodes[ch.head].block)
        then Ok((Chain(nodes, h, next, RemoveMined(c, ch.pool, b.transactions)), Imported(next, true)))
        else Ok((ch.(nodes := nodes), Imported(next, false)))
  }

  // ---------------------------------------------------------------- walks from the head

  /** Follow `previous_hash` while it stays in the tree.  A parent that is not lower than its child, which no
      reachable tree holds, ends the walk here; the source's loop has no such test. */
  predicate StepsDown(nodes: Nodes, h: Hash)
    requires h in nodes
  {
    var b := nodes[h].block;
    b.height != 0 && b.prev in nodes && nodes[b.prev].block.height < b.height
  }

  function EarliestFrom(nodes: Nodes, h: Hash): (r: u64)
    requires h in nodes
    decreases nodes[h].block.height
  {
    if StepsDown(nodes, h) then EarliestFrom(nodes, nodes[h].block.prev) else nodes[h].block.height
  }

  function Collect(nodes: Nodes, h: Hash, lo: u64, hi: u64, earliest: u64): (r: seq<Block>)
    requires h in nodes
    decreases nodes[h].block.height
  {
    var b := nodes[h].block;
    (if b.height == earliest || !StepsDown(nodes, h) then [] else Collect(nodes, b.prev, lo, hi, earliest))
    + (if lo <= b.height <= hi then [b] else [])
  }

  function EarliestContiguousHeight(ch: Chain): (r: u64)
    requires ch.head in ch.nodes
  {
    EarliestFrom(ch.nodes, ch.head)
  }

  function GetBlocks(ch: Chain, lo: u64, hi: u64): (r: seq<Block>)
    requires ch.head in ch.nodes
  {
    var earliest := EarliestContiguousHeight(ch);
    if lo > hi || lo < earliest || lo > LatestBlock(ch).height then []
    else Collect(ch.nodes, ch.head, lo, hi, earliest)
  }

  // ---------------------------------------------------------------- the shape of every reachable tree

  /** Keys are hashes of their blocks. */
  ghost predicate Keyed(c: Crypto, nodes: Nodes) {
    forall h :: h in nodes ==> BlockHash(c, nodes[h].block) == h
  }

  /** Every block but the root sits one above, and in a later slot than, a parent in the tree. */
  ghost predicate Rooted(nodes: Nodes, root: Hash) {
    && root in nodes
    && (forall h {:trigger nodes[h]} :: h in nodes ==> nodes[root].block.height <= nodes[h].block.height)
    && (forall h {:trigger nodes[h]} :: h in nodes && h != root ==> Descends(nodes, nodes[h].block))
  }

  ghost predicate Descends(nodes: Nodes, b: Block) {
    b.prev in nodes && b.height == nodes[b.prev].block.height + 1 && nodes[b.prev].block.slot < b.slot
  }

  /** `children` lists are duplicate-free and the exact inverse of `previous_hash`. */
  ghost predicate ChildrenExact(nodes: Nodes, root: Hash) {
    forall p :: p in nodes ==> ChildrenOf(nodes, root, p, nodes[p].children)
  }

  ghost predicate ChildrenOf(nodes: Nodes, root: Hash, p: Hash, children: seq<Hash>) {
    && (forall h :: h in children <==> h in nodes && h != root && nodes[h].block.prev == p)
    && Distinct(children)
  }

  /** Block `b1` comes above block `b2` in the order of (height, slot, hash). */
  ghost predicate Above(h1: Hash, b1: Block, h2: Hash, b2: Block) {
    || b1.height > b2.height
    || (b1.height == b2.height && b1.slot > b2.slot)
    || (b1.height == b2.height && b1.slot == b2.slot && Less(h2, h1))
  }

  /** The head is the unique maximum of (height, slot, hash): every other block is lower, or as high in an earlier slot, or
      as high in the same slot with a smaller hash. */
  ghost predicate HeadIsMax(ch: Chain) {
    && ch.head in ch.nodes
    && forall h {:trigger ch.nodes[h]} :: h in ch.nodes && h != ch.head ==>
         Above(ch.head, ch.nodes[ch.head].block, h, ch.nodes[h].block)
  }

  ghost predicate ValidTree(c: Crypto, ch: Chain, root: Hash) {
    Keyed(c, ch.nodes) && Rooted(ch.nodes, root) && ChildrenExact(ch.nodes, root) && HeadIsMax(ch)
  }

  /** `b` does not collide with a different block of the tree. */
  ghost predicate Agrees(c: Crypto, nodes: Nodes, b: Block) {
    BlockHash(c, b) in nodes ==> SameContent(nodes[BlockHash(c, b)].block, b)
  }

  /** `should_replace_head` compares height, then slot, then hash, the larger one winning each time. */
  lemma BeatsIsAbove(h1: Hash, b1: Block, h2: Hash, b2: Block)
    ensures Beats(h1, b1, h2, b2) <==> Above(h1, b1, h2, b2)
  {
  }

  lemma BeatsTransitive(h1: Hash, b1: Block, h2: Hash, b2: Block, h3: Hash, b3: Block)
    requires Beats(h1, b1, h2, b2) && Beats(h2, b2, h3, b3)
    ensures Beats(h1, b1, h3, b3)
  {
    if b1.height == b2.height == b3.height && b1.slot == b2.slot == b3.slot { LessTransitive(h3, h2, h1); }
  }

  lemma BeatsTotal(h1: Hash, b1: Block, h2: Hash, b2: Block)
    requires h1 != h2
    ensures Beats(h1, b1, h2, b2) <==> !Beats(h2, b2, h1, b1)
  {
    LessTotal(h1, h2);
    if Less(h1, h2) && Less(h2, h1) {
      LessTransitive(h1, h2, h1);
      LessIrreflexive(h1);
    }
  }

  lemma SingletonValid(c: Crypto, b: Block, s: State)
    ensures ValidTree(c, RestoreHead(c, b, s), BlockHash(c, b))
  {
  }

  lemma GrowUnchanged(c: Crypto, nodes: Nodes, root: Hash, b: Block)
    requires Rooted(nodes, root) && ChildrenExact(nodes, root) && Agrees(c, nodes, b)
    requires BlockHash(c, b) in nodes && Descends(nodes, b)
    ensures Grow(nodes, BlockHash(c, b), b) == nodes
    ensures BlockHash(c, b) != root
  {
    hide BlockHash;
    var h := BlockHash(c, b);
    assert nodes[h].block.prev == b.prev && nodes[h].block.height == b.height;
    assert nodes[root].block.height <= nodes[b.prev].block.height;
    assert ChildrenOf(nodes, root, b.prev, nodes[b.prev].children);
    assert h in nodes[b.prev].children;
  }

  lemma GrowRooted(nodes: Nodes, root: Hash, h: Hash, b: Block)
    requires Rooted(nodes, root) && h !in nodes && Descends(nodes, b)
    ensures Rooted(Grow(nodes, h, b), root)
  {
    var grown := Grow(nodes, h, b);
    assert forall k :: k in nodes ==> grown[k].block == nodes[k].block;
    assert grown[h].block == b;
    forall k | k in grown && k != root ensures Descends(grown, grown[k].block) {
      if k in nodes { assert Descends(nodes, nodes[k].block); }
    }
  }

  /** What growing by a new block changes: its parent's children and its own entry. */
  lemma GrowShape(nodes: Nodes, h: Hash, b: Block)
    requires b.prev in nodes && h !in nodes && h !in nodes[b.prev].children
    ensures var grown := Grow(nodes, h, b);
            && grown[h] == BlockNode(b, [])
            && grown[b.prev] == BlockNode(nodes[b.prev].block, nodes[b.prev].children + [h])
            && (forall k :: k in nodes && k != b.prev ==> grown[k] == nodes[k])
  {
  }

  lemma GrowChildren(nodes: Nodes, root: Hash, h: Hash, b: Block)
    requires Rooted(nodes, root) && ChildrenExact(nodes, root) && h !in nodes && Descends(nodes, b)
    ensures ChildrenExact(Grow(nodes, h, b), root)
  {
    hide Rooted, ChildrenOf, Descends;
    DescendsParent(nodes, b);
    NoStrayChild(nodes, root, h, b.prev);
    var grown := Grow(nodes, h, b);
    forall q | q in grown ensures ChildrenOf(grown, root, q, grown[q].children) {
      GrowChildrenOf(nodes, root, h, b, q);
    }
  }

  lemma NoStrayChild(nodes: Nodes, root: Hash, h: Hash, p: Hash)
    requires ChildrenExact(nodes, root) && h !in nodes && p in nodes
    ensures h !in nodes[p].children
  {
    assert ChildrenOf(nodes, root, p, nodes[p].children);
  }

  lemma GrowChildrenOf(nodes: Nodes, root: Hash, h: Hash, b: Block, q: Hash)
    requires Rooted(nodes, root) && ChildrenExact(nodes, root) && h !in nodes && b.prev in nodes
    requires h !in nodes[b.prev].children && q in Grow(nodes, h, b)
    ensures ChildrenOf(Grow(nodes, h, b), root, q, Grow(nodes, h, b)[q].children)
  {
    hide Grow, Descends, Distinct, ChildrenExact;
    var grown := Grow(nodes, h, b);
    GrowShape(nodes, h, b);
    var before := if q in nodes then nodes[q].children else [];
    assert q in nodes ==> ChildrenOf(nodes, root, q, before) by { assert ChildrenExact(nodes, root); ChildrenAt(nodes, root, q); }
    SnocDistinct(before, h);
    forall k ensures k in grown[q].children <==> k in grown && k != root && grown[k].block.prev == q {
      if k in nodes {
        assert grown[k].block == nodes[k].block;
        if k != root { DescendsParent(nodes, nodes[k].block); }
      }
    }
  }

  lemma ChildrenAt(nodes: Nodes, root: Hash, q: Hash)
    requires ChildrenExact(nodes, root)
    ensures q in nodes ==> ChildrenOf(nodes, root, q, nodes[q].children)
  {
  }

  lemma SnocDistinct(s: seq<Hash>, h: Hash)
    ensures Distinct(s) && h !in s ==> Distinct(s + [h])
    ensures Distinct<Hash>([])
  {
  }

  lemma DescendsParent(nodes: Nodes, b: Block)
    requires Descends(nodes, b)
    ensures b.prev in nodes
  {
  }

  lemma GrowHead(c: Crypto, ch: Chain, b: Block, ps: State)
    requires HeadIsMax(ch) && BlockHash(c, b) !in ch.nodes && AddBlock(c, ch, b, ps).Ok?
    ensures HeadIsMax(AddBlock(c, ch, b, ps).value.0)
  {
    hide ValidateAndApply, BlockHash, RemoveMined, Beats, Above;
    var h := BlockHash(c, b);
    var next := AddBlock(c, ch, b, ps).value.0;
    assert forall k :: k in ch.nodes ==> next.nodes[k].block == ch.nodes[k].block;
    assert next.nodes[h].block == b;
    var head := ch.nodes[ch.head].block;
    BeatsTotal(h, b, ch.head, head);
    BeatsIsAbove(h, b, ch.head, head);
    BeatsIsAbove(ch.head, head, h, b);
    forall k {:trigger next.nodes[k]} | k in next.nodes && k != next.head
      ensures Above(next.head, next.nodes[next.head].block, k, next.nodes[k].block)
    {
      if next.head == h && k != ch.head {
        assert Above(ch.head, head, k, ch.nodes[k].block);
        BeatsIsAbove(ch.head, head, k, ch.nodes[k].block);
        BeatsTransitive(h, b, ch.head, head, k, ch.nodes[k].block);
        BeatsIsAbove(h, b, k, ch.nodes[k].block);
      }
    }
  }

  /** A block is refused because its parent is not in the tree, or as validation on its parent refuses it. */
  lemma AddRefused(c: Crypto, ch: Chain, b: Block, ps: State)
    requires ch.head in ch.nodes
    ensures AddBlock(c, ch, b, ps) == Err(ParentBlockNotFound) <==> b.prev !in ch.nodes
    ensures forall e :: AddBlock(c, ch, b, ps) == Err(BlockRejected(e)) <==>
                          b.prev in ch.nodes && ValidateAndApply(c, ch.nodes[b.prev].block, ps, b) == Err(e)
    ensures AddBlock(c, ch, b, ps).Ok? <==> b.prev in ch.nodes && ValidateAndApply(c, ch.nodes[b.prev].block, ps, b).Ok?
  {
    hide BlockHash, ValidateAndApply, Grow, RemoveMined, Beats;
  }

  /** Fork choice: an accepted block becomes the head exactly when it comes above the head in (height, slot, hash); then
      the state is its own, and otherwise head and state stay. */
  lemma ForkChoice(c: Crypto, ch: Chain, b: Block, ps: State)
    requires ch.head in ch.nodes && AddBlock(c, ch, b, ps).Ok?
    ensures var (next, imported) := AddBlock(c, ch, b, ps).value;
            && (imported.becameHead <==> Above(BlockHash(c, b), b, ch.head, ch.nodes[ch.head].block))
            && next.head == (if imported.becameHead then BlockHash(c, b) else ch.head)
            && next.state == (if imported.becameHead then imported.nextState else ch.state)
  {
    hide ValidateAndApply, BlockHash, RemoveMined, Beats, Above;
    BeatsIsAbove(BlockHash(c, b), b, ch.head, ch.nodes[ch.head].block);
  }

  lemma AcceptedDescends(c: Crypto, ch: Chain, b: Block, ps: State)
    requires ch.head in ch.nodes && AddBlock(c, ch, b, ps).Ok?
    ensures Descends(ch.nodes, b)
    ensures ValidateAndApply(c, ch.nodes[b.prev].block, ps, b) == Ok(AddBlock(c, ch, b, ps).value.1.nextState)
    ensures AddBlock(c, ch, b, ps).value.0.nodes == Grow(ch.nodes, BlockHash(c, b), b)
  {
    hide ValidateAndApply, BlockHash, RemoveMined, Beats, ApplyBody, Merkle.StateRoot;
    AcceptedBody(c, ch.nodes[b.prev].block, ps, b);
  }

  /** Every accepted block keeps the tree valid. */
  lemma AddBlockValid(c: Crypto, ch: Chain, root: Hash, b: Block, ps: State)
    requires ValidTree(c, ch, root) && Agrees(c, ch.nodes, b)
    requires AddBlock(c, ch, b, ps).Ok?
    ensures ValidTree(c, AddBlock(c, ch, b, ps).value.0, root) && HeadIsMax(AddBlock(c, ch, b, ps).value.0)
    ensures BlockHash(c, b) in ch.nodes ==> AddBlock(c, ch, b, ps).value.0 == ch
  {
    hide ValidateAndApply, BlockHash, RemoveMined, Rooted, ChildrenExact, Grow;
    var h := BlockHash(c, b);
    AcceptedDescends(c, ch, b, ps);
    if h in ch.nodes {
      GrowUnchanged(c, ch.nodes, root, b);
      if h == ch.head {
        LessIrreflexive(h);
      } else {
        BeatsTotal(h, b, ch.head, ch.nodes[ch.head].block);
        BeatsIsAbove(ch.head, ch.nodes[ch.head].block, h, ch.nodes[h].block);
      }
    } else {
      GrowRooted(ch.nodes, root, h, b);
      GrowChildren(ch.nodes, root, h, b);
      GrowHead(c, ch, b, ps);
      GrowKeyed(c, ch.nodes, b);
    }
  }

  lemma GrowKeyed(c: Crypto, nodes: Nodes, b: Block)
    requires Keyed(c, nodes) && b.prev in nodes && BlockHash(c, b) !in nodes
    ensures Keyed(c, Grow(nodes, BlockHash(c, b), b))
  {
    hide BlockHash;
    var grown := Grow(nodes, BlockHash(c, b), b);
    assert forall k :: k in nodes ==> grown[k].block == nodes[k].block;
  }

  // ---------------------------------------------------------------- the pool after a block

  /** None of the listed transactions has the hash of `t`. */
  ghost predicate Unmined(c: Crypto, t: Transaction, txs: seq<Transaction>) {
    forall i :: 0 <= i < |txs| ==> TxHash(c, txs[i]) != TxHash(c, t)
  }

  lemma {:induction false} MinedRemoved(c: Crypto, pool: Pool, txs: seq<Transaction>)
    ensures Sublist(RemoveMined(c, pool, txs), pool)
    ensures forall t :: t in RemoveMined(c, pool, txs) <==> t in pool && Unmined(c, t, txs)
    decreases |txs|
  {
    hide TxHash, Without, Sublist;
    if txs == [] {
      SublistReflexive(pool);
    } else {
      var n := |txs| - 1;
      var mid := RemoveMined(c, pool, txs[..n]);
      MinedRemoved(c, pool, txs[..n]);
      WithoutSublist(c, mid, TxHash(c, txs[n]));
      SublistTransitive(Without(c, mid, TxHash(c, txs[n])), mid, pool);
      forall t ensures Unmined(c, t, txs) <==> Unmined(c, t, txs[..n]) && TxHash(c, txs[n]) != TxHash(c, t) {
        UnminedSnoc(c, t, txs);
      }
    }
  }

  lemma UnminedSnoc(c: Crypto, t: Transaction, txs: seq<Transaction>)
    requires txs != []
    ensures Unmined(c, t, txs) <==> Unmined(c, t, txs[..|txs| - 1]) && TxHash(c, txs[|txs| - 1]) != TxHash(c, t)
  {
    hide TxHash;
    var n := |txs| - 1;
    if Unmined(c, t, txs) {
      forall i | 0 <= i < n ensures TxHash(c, txs[..n][i]) != TxHash(c, t) { assert txs[..n][i] == txs[i]; }
    }
    if Unmined(c, t, txs[..n]) && TxHash(c, txs[n]) != TxHash(c, t) {
      forall i | 0 <= i < |txs| ensures TxHash(c, txs[i]) != TxHash(c, t) { if i < n { assert txs[..n][i] == txs[i]; } }
    }
  }

  /** A block that becomes the head takes exactly its own transactions, by hash, out of the pool, whose order stays; any
      other accepted block leaves the pool alone. */
  lemma PoolAfterBlock(c: Crypto, ch: Chain, b: Block, ps: State)
    requires ch.head in ch.nodes && AddBlock(c, ch, b, ps).Ok?
    ensures var (next, imported) := AddBlock(c, ch, b, ps).value;
            && (!imported.becameHead ==> next.pool == ch.pool)
            && (imported.becameHead ==>
                  && Sublist(next.pool, ch.pool)
                  && (forall t :: t in next.pool <==> t in ch.pool && Unmined(c, t, b.transactions)))
  {
    hide ValidateAndApply, BlockHash, RemoveMined, Beats, Sublist, Unmined;
    MinedRemoved(c, ch.pool, b.transactions);
  }
}
