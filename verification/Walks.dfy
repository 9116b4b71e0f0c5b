/**
 The ancestor walks are exact: in a valid tree `earliest_contiguous_height` is the root's height and
 `get_blocks` returns precisely the requested slice of the head's hash-linked ancestor path.
 */
module Walks {
  import opened Base
  import opened Models
  import opened Chain

  /** The walk from the root stops there: the root is the genesis block, or its parent is not in the tree. */
  ghost predicate Detached(nodes: Nodes, root: Hash)
    requires root in nodes
  {
    nodes[root].block.height == 0 || nodes[root].block.prev !in nodes
  }

  /** The hashes from the root to `h`. */
  ghost function Path(nodes: Nodes, root: Hash, h: Hash): (r: seq<Hash>)
    requires Rooted(nodes, root) && h in nodes
    decreases nodes[h].block.height
  {
    if h == root then [root] else
      assert Descends(nodes, nodes[h].block);
      Path(nodes, root, nodes[h].block.prev) + [h]
  }

  /** The path is hash-linked and its heights count up from the root's. */
  lemma {:induction false} PathShape(nodes: Nodes, root: Hash, h: Hash)
    requires Rooted(nodes, root) && h in nodes
    ensures var p := Path(nodes, root, h);
            && |p| == nodes[h].block.height - nodes[root].block.height + 1
            && p[0] == root && p[|p| - 1] == h
            && (forall i :: 0 <= i < |p| ==> p[i] in nodes && nodes[p[i]].block.height == nodes[root].block.height + i)
            && (forall i :: 0 < i < |p| ==> nodes[p[i]].block.prev == p[i - 1])
    decreases nodes[h].block.height
  {
    if h != root {
      assert Descends(nodes, nodes[h].block);
      var q := nodes[h].block.prev;
      PathShape(nodes, root, q);
      var p := Path(nodes, root, q);
      assert Path(nodes, root, h) == p + [h];
    }
  }

  ghost function BlocksAt(nodes: Nodes, path: seq<Hash>): (r: seq<Block>)
    requires forall h :: h in path ==> h in nodes
    ensures |r| == |path|
    ensures forall i :: 0 <= i < |path| ==> r[i] == nodes[path[i]].block
  {
    if path == [] then [] else
      BlocksAt(nodes, path[..|path| - 1]) + [nodes[path[|path| - 1]].block]
  }

  lemma RootedStep(nodes: Nodes, root: Hash, h: Hash)
    requires Rooted(nodes, root) && Detached(nodes, root) && h in nodes
    ensures StepsDown(nodes, h) <==> h != root
    ensures h != root ==> nodes[h].block.prev in nodes && nodes[h].block.height > nodes[root].block.height
  {
    if h != root {
      assert Descends(nodes, nodes[h].block);
      assert nodes[root].block.height <= nodes[nodes[h].block.prev].block.height;
    } else if nodes[root].block.prev in nodes {
      assert nodes[root].block.height <= nodes[nodes[root].block.prev].block.height;
    }
  }

  /** `earliest_contiguous_height` is the root's height. */
  lemma {:induction false} EarliestIsRoot(nodes: Nodes, root: Hash, h: Hash)
    requires Rooted(nodes, root) && Detached(nodes, root) && h in nodes
    ensures EarliestFrom(nodes, h) == nodes[root].block.height
    decreases nodes[h].block.height
  {
    hide Rooted, Detached, StepsDown;
    RootedStep(nodes, root, h);
    if h != root { Smaller(nodes, h); EarliestIsRoot(nodes, root, nodes[h].block.prev); }
  }

  lemma Smaller(nodes: Nodes, h: Hash)
    requires h in nodes && StepsDown(nodes, h)
    ensures nodes[h].block.prev in nodes && nodes[nodes[h].block.prev].block.height < nodes[h].block.height
  {
  }

  /** The part of a path with heights in `[lo, hi]`, when its first height is `e`. */
  ghost function Slice(p: seq<Hash>, e: nat, lo: nat, hi: nat): (r: seq<Hash>)
    requires e <= lo <= hi
  {
    p[Min(lo - e, |p|)..Min(hi - e + 1, |p|)]
  }

  lemma SliceSnoc(p: seq<Hash>, h: Hash, e: nat, lo: nat, hi: nat)
    requires e <= lo <= hi
    ensures Slice(p + [h], e, lo, hi) == Slice(p, e, lo, hi) + (if lo <= e + |p| <= hi then [h] else [])
  {
  }

  lemma BlocksSnoc(nodes: Nodes, path: seq<Hash>, h: Hash)
    requires (forall k :: k in path ==> k in nodes) && h in nodes
    ensures BlocksAt(nodes, path + [h]) == BlocksAt(nodes, path) + [nodes[h].block]
  {
    assert (path + [h])[..|path|] == path;
  }

  lemma {:induction false} CollectSlice(nodes: Nodes, root: Hash, h: Hash, lo: u64, hi: u64)
    requires Rooted(nodes, root) && Detached(nodes, root) && h in nodes
    requires nodes[root].block.height <= lo <= hi
    ensures var s := Slice(Path(nodes, root, h), nodes[root].block.height, lo, hi);
            && (forall k :: k in s ==> k in nodes)
            && Collect(nodes, h, lo, hi, nodes[root].block.height) == BlocksAt(nodes, s)
    decreases nodes[h].block.height
  {
    hide Rooted, Detached, StepsDown, BlocksAt, Slice;
    RootHeight(nodes, root, h);
    var e := nodes[root].block.height;
    RootedStep(nodes, root, h);
    PathShape(nodes, root, h);
    if h == root {
      SliceSnoc([], root, e, lo, hi);
      assert [] + [root] == [root];
      EmptySlice(e, lo, hi);
      BlocksSnoc(nodes, [], root);
      assert BlocksAt(nodes, []) == [];
    } else {
      Smaller(nodes, h);
      var q := nodes[h].block.prev;
      CollectSlice(nodes, root, q, lo, hi);
      PathShape(nodes, root, q);
      SliceSnoc(Path(nodes, root, q), h, e, lo, hi);
      BlocksSnoc(nodes, Slice(Path(nodes, root, q), e, lo, hi), h);
    }
  }

  lemma EmptySlice(e: nat, lo: nat, hi: nat)
    requires e <= lo <= hi
    ensures Slice([], e, lo, hi) == []
  {
  }

  /** Tree walks are exact. */
  lemma GetBlocksExact(ch: Chain, root: Hash, lo: u64, hi: u64)
    requires ch.head in ch.nodes && Rooted(ch.nodes, root) && Detached(ch.nodes, root)
    ensures var e := ch.nodes[root].block.height; var top := LatestBlock(ch).height;
            var p := Path(ch.nodes, root, ch.head);
            && EarliestContiguousHeight(ch) == e
            && e <= top && |p| == top - e + 1
            && (forall k :: k in p ==> k in ch.nodes)
            && GetBlocks(ch, lo, hi) ==
                 if lo <= hi && e <= lo <= top then BlocksAt(ch.nodes, p[lo - e..Min(hi, top) - e + 1]) else []
  {
    hide Rooted, Detached, Collect, EarliestFrom, BlocksAt, Path;
    RootHeight(ch.nodes, root, ch.head);
    EarliestIsRoot(ch.nodes, root, ch.head);
    PathShape(ch.nodes, root, ch.head);
    if lo <= hi && ch.nodes[root].block.height <= lo { CollectSlice(ch.nodes, root, ch.head, lo, hi); }
  }

  lemma RootHeight(nodes: Nodes, root: Hash, h: Hash)
    requires Rooted(nodes, root) && h in nodes
    ensures root in nodes && nodes[root].block.height <= nodes[h].block.height
  {
  }
}
