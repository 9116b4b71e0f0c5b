/**
 The state root (rp-core/src/state.rs, `compute_state_root`): a Merkle tree over the balances in
 key order, in which an odd level repeats its last node.  Despite the repetition the root binds
 the balances: two different non-empty balance tables with one root yield an explicit collision.
 */
module Merkle {
  import opened Base
  import opened Models

  function LeafData(k: Key, v: u64): (r: Bytes)
    ensures |r| == 41
  {
    k + Be64(v)
  }

  function LeafList(balances: map<Key, u64>): (r: seq<Bytes>)
    ensures |r| == |balances|
    ensures forall i :: 0 <= i < |r| ==> |r[i]| == 41
  {
    LeavesFor(SortedKeys(balances.Keys), balances)
  }

  function LeavesFor(ks: seq<Key>, balances: map<Key, u64>): (r: seq<Bytes>)
    requires forall k :: k in ks ==> k in balances
    ensures |r| == |ks|
    ensures forall i :: 0 <= i < |r| ==> r[i] == LeafData(ks[i], balances[ks[i]])
  {
    if ks == [] then [] else
      var n := |ks| - 1;
      assert forall k :: k in ks[..n] ==> k in ks;
      LeavesFor(ks[..n], balances) + [LeafData(ks[n], balances[ks[n]])]
  }

  function HashAll(c: Crypto, xs: seq<Bytes>): (r: seq<Hash>)
    ensures |r| == |xs|
    ensures forall i :: 0 <= i < |r| ==> r[i] == c.sha(xs[i])
  {
    if xs == [] then [] else HashAll(c, xs[..|xs| - 1]) + [c.sha(xs[|xs| - 1])]
  }

  function Join(left: Bytes, right: Bytes): (r: Bytes) { left + right }

  /** The 64 bytes hashed into node `i` of the level above `level`. */
  function NodeData(level: seq<Hash>, i: nat): (r: Bytes)
    requires 2 * i < |level|
    ensures |r| == 64
  {
    Join(level[2 * i], if 2 * i + 1 < |level| then level[2 * i + 1] else level[2 * i])
  }

  function NodeList(level: seq<Hash>): (r: seq<Bytes>)
    ensures |r| == (|level| + 1) / 2
    ensures forall i :: 0 <= i < |r| ==> r[i] == NodeData(level, i)
  {
    FirstNodes(level, (|level| + 1) / 2)
  }

  function FirstNodes(level: seq<Hash>, n: nat): (r: seq<Bytes>)
    requires n <= (|level| + 1) / 2
    ensures |r| == n
    ensures forall i :: 0 <= i < n ==> r[i] == NodeData(level, i)
  {
    if n == 0 then [] else FirstNodes(level, n - 1) + [NodeData(level, n - 1)]
  }

  function NextLevel(c: Crypto, level: seq<Hash>): (r: seq<Hash>)
    ensures |r| == (|level| + 1) / 2
  {
    HashAll(c, NodeList(level))
  }

  function MerkleRoot(c: Crypto, level: seq<Hash>): (r: Hash)
    decreases |level|
  {
    if |level| == 0 then ZERO_HASH
    else if |level| == 1 then level[0]
    else MerkleRoot(c, NextLevel(c, level))
  }

  function StateRoot(c: Crypto, balances: map<Key, u64>): (r: Hash) {
    MerkleRoot(c, HashAll(c, LeafList(balances)))
  }

  /** `compute_state_root` as written: hash the leaves, then halve the level until one node is left. */
  method ComputeStateRoot(c: Crypto, balances: map<Key, u64>) returns (root: Hash)
    ensures root == StateRoot(c, balances)
  {
    var ks := SortedKeys(balances.Keys);
    var hashes: seq<Hash> := [];
    for i := 0 to |ks|
      invariant |hashes| == i
      invariant forall j :: 0 <= j < i ==> hashes[j] == c.sha(LeafData(ks[j], balances[ks[j]]))
    {
      hashes := hashes + [c.sha(LeafData(ks[i], balances[ks[i]]))];
    }
    assert hashes == HashAll(c, LeafList(balances));
    while |hashes| > 1
      invariant MerkleRoot(c, hashes) == StateRoot(c, balances)
      decreases |hashes|
    {
      hashes := ComputeNextLevel(c, hashes);
    }
    root := if |hashes| > 0 then hashes[|hashes| - 1] else ZERO_HASH;
  }

  /** The inner loop: hash pairs, repeating the last node of an odd level. */
  method ComputeNextLevel(c: Crypto, hashes: seq<Hash>) returns (nextLevel: seq<Hash>)
    ensures nextLevel == NextLevel(c, hashes)
  {
    nextLevel := [];
    var i := 0;
    while i < |hashes|
      invariant i == 2 * |nextLevel| && |nextLevel| <= (|hashes| + 1) / 2
      invariant forall j :: 0 <= j < |nextLevel| ==> nextLevel[j] == c.sha(NodeData(hashes, j))
    {
      var left := hashes[i];
      var right := if i + 1 < |hashes| then hashes[i + 1] else left;
      nextLevel := nextLevel + [c.sha(Join(left, right))];
      i := i + 2;
    }
  }

  // ---------------------------------------------------------------- binding

  /** Equal digest lists of equal length: equal preimages, or a collision. */
  lemma SameDigests(c: Crypto, xs: seq<Bytes>, ys: seq<Bytes>) returns (x: Bytes, y: Bytes)
    requires |xs| == |ys| && HashAll(c, xs) == HashAll(c, ys)
    ensures xs == ys || Collides(c, x, y)
  {
    x, y := [], [];
    if xs != ys {
      var i :| 0 <= i < |xs| && xs[i] != ys[i];
      assert HashAll(c, xs)[i] == HashAll(c, ys)[i];
      x, y := xs[i], ys[i];
    }
  }

  /** Digests of distinct preimages are distinct, or there is a collision. */
  lemma DistinctDigests(c: Crypto, xs: seq<Bytes>) returns (x: Bytes, y: Bytes)
    requires Distinct(xs)
    ensures Distinct(HashAll(c, xs)) || Collides(c, x, y)
  {
    x, y := [], [];
    if !Distinct(HashAll(c, xs)) {
      var i, j :| 0 <= i < j < |xs| && HashAll(c, xs)[i] == HashAll(c, xs)[j];
      x, y := xs[i], xs[j];
    }
  }

  lemma DistinctNodes(level: seq<Hash>)
    requires Distinct(level)
    ensures Distinct(NodeList(level))
  {
    forall i, j | 0 <= i < j < |NodeList(level)| ensures NodeList(level)[i] != NodeList(level)[j] {
      assert NodeData(level, i)[..32] == level[2 * i];
      assert NodeData(level, j)[..32] == level[2 * j];
    }
  }

  /** Node data determine a duplicate-free level, even though an odd level repeats its last node. */
  lemma NodesDetermineLevel(a: seq<Hash>, b: seq<Hash>)
    requires Distinct(a) && Distinct(b) && NodeList(a) == NodeList(b)
    ensures a == b
  {
    forall i | 0 <= i < |NodeList(a)|
      ensures a[2 * i] == b[2 * i]
      ensures (2 * i + 1 < |a|) == (2 * i + 1 < |b|)
      ensures 2 * i + 1 < |a| ==> a[2 * i + 1] == b[2 * i + 1]
    {
      var x, y := NodeData(a, i), NodeData(b, i);
      assert NodeList(a)[i] == x && NodeList(b)[i] == y;
      assert x[..32] == a[2 * i] && y[..32] == b[2 * i];
      assert x[32..] == if 2 * i + 1 < |a| then a[2 * i + 1] else a[2 * i];
      assert y[32..] == if 2 * i + 1 < |b| then b[2 * i + 1] else b[2 * i];
    }
    forall k | 0 <= k < |a| ensures a[k] == b[k] {
      var i := k / 2;
      assert a[2 * i] == b[2 * i];
    }
  }

  ghost function Depth(n: nat): (r: nat)
    requires n > 0
  {
    if n == 1 then 0 else 1 + Depth((n + 1) / 2)
  }

  lemma {:induction false} SameDepthBinding(c: Crypto, a: seq<Hash>, b: seq<Hash>) returns (x: Bytes, y: Bytes)
    requires |a| > 0 && |b| > 0 && Depth(|a|) == Depth(|b|)
    requires Distinct(a) && Distinct(b) && MerkleRoot(c, a) == MerkleRoot(c, b)
    ensures a == b || Collides(c, x, y)
    decreases |a|
  {
    hide NodeList, NodeData, HashAll, Distinct;
    x, y := [], [];
    if |a| > 1 {
      DistinctNodes(a);
      DistinctNodes(b);
      x, y := DistinctDigests(c, NodeList(a));
      if Collides(c, x, y) { return; }
      x, y := DistinctDigests(c, NodeList(b));
      if Collides(c, x, y) { return; }
      x, y := SameDepthBinding(c, NextLevel(c, a), NextLevel(c, b));
      if Collides(c, x, y) { return; }
      x, y := SameDigests(c, NodeList(a), NodeList(b));
      if NodeList(a) == NodeList(b) { NodesDetermineLevel(a, b); }
    }
  }

  /** `spine` lists the children of `h`, of its left child, of that node's left child, and so on. */
  ghost predicate IsSpine(c: Crypto, h: Hash, spine: seq<(Hash, Hash)>)
    decreases |spine|
  {
    spine == [] || (h == c.sha(Join(spine[0].0, spine[0].1)) && IsSpine(c, spine[0].0, spine[1..]))
  }

  lemma FirstNode(c: Crypto, level: seq<Hash>)
    requires |level| > 1
    ensures NextLevel(c, level)[0] == c.sha(Join(level[0], level[1]))
  {
    assert NodeList(level)[0] == NodeData(level, 0);
  }

  /** Every tree has a left spine as long as it is deep. */
  lemma {:induction false} RootSpine(c: Crypto, level: seq<Hash>, below: seq<(Hash, Hash)>)
    returns (spine: seq<(Hash, Hash)>)
    requires |level| > 0 && IsSpine(c, level[0], below)
    ensures IsSpine(c, MerkleRoot(c, level), spine) && |spine| == |below| + Depth(|level|)
    decreases |level|
  {
    if |level| == 1 {
      spine := below;
    } else {
      FirstNode(c, level);
      var longer := [(level[0], level[1])] + below;
      assert longer[1..] == below;
      spine := RootSpine(c, NextLevel(c, level), longer);
    }
  }

  /** A root whose spine is longer than its own tree passes the excess down to the first leaf. */
  lemma {:induction false} ExcessSpine(c: Crypto, level: seq<Hash>, spine: seq<(Hash, Hash)>) returns (x: Bytes, y: Bytes)
    requires |level| > 0 && IsSpine(c, MerkleRoot(c, level), spine) && Depth(|level|) <= |spine|
    ensures IsSpine(c, level[0], spine[Depth(|level|)..]) || Collides(c, x, y)
    decreases |level|
  {
    x, y := [], [];
    if |level| > 1 {
      x, y := ExcessSpine(c, NextLevel(c, level), spine);
      if Collides(c, x, y) { return; }
      var d := Depth(|level|) - 1;
      assert Depth(|NextLevel(c, level)|) == d && d < |spine|;
      FirstNode(c, level);
      x, y := Join(spine[d].0, spine[d].1), Join(level[0], level[1]);
      assert spine[d..][1..] == spine[d + 1..];
      if x == y { Peel(spine[d].0, level[0], spine[d].1, level[1]); }
    }
  }

  /** Trees of different depth: following the left spine meets a 41-byte leaf and a 64-byte node. */
  lemma DepthBinding(c: Crypto, xs: seq<Bytes>, b: seq<Hash>) returns (x: Bytes, y: Bytes)
    requires |xs| > 0 && |b| > 0 && Depth(|xs|) < Depth(|b|)
    requires |xs[0]| == 41
    requires MerkleRoot(c, HashAll(c, xs)) == MerkleRoot(c, b)
    ensures Collides(c, x, y)
  {
    var spine := RootSpine(c, b, []);
    x, y := ExcessSpine(c, HashAll(c, xs), spine);
    if Collides(c, x, y) { return; }
    var d := Depth(|xs|);
    x, y := Join(spine[d].0, spine[d].1), xs[0];
  }

  lemma LeavesDistinct(m: map<Key, u64>)
    ensures Distinct(LeafList(m))
  {
    var ks := SortedKeys(m.Keys);
    forall i, j | 0 <= i < j < |ks| ensures LeafList(m)[i] != LeafList(m)[j] {
      SortedKeysDistinct(m.Keys, i, j);
      assert LeafList(m)[i][..33] == ks[i] && LeafList(m)[j][..33] == ks[j];
    }
  }

  lemma LeavesDetermineTable(m: map<Key, u64>, n: map<Key, u64>)
    requires LeafList(m) == LeafList(n)
    ensures m == n
  {
    hide LeafList;
    LeavesContained(m, n);
    LeavesContained(n, m);
    assert m.Keys == n.Keys;
  }

  lemma LeavesContained(m: map<Key, u64>, n: map<Key, u64>)
    requires LeafList(m) == LeafList(n)
    ensures forall k :: k in m ==> k in n && m[k] == n[k]
  {
    var ks, js := SortedKeys(m.Keys), SortedKeys(n.Keys);
    forall k | k in m ensures k in n && m[k] == n[k] {
      assert k in ks;
      var i :| 0 <= i < |ks| && ks[i] == k;
      assert LeafList(m)[i] == LeafData(k, m[k]) && LeafList(n)[i] == LeafData(js[i], n[js[i]]);
      Peel(k, js[i], Be64(m[k]), Be64(n[js[i]]));
      assert js[i] in js;
      Be64RoundTrip(m[k]);
      Be64RoundTrip(n[k]);
    }
  }

  /** Merkle binding: one root for two different non-empty tables is an explicit SHA-256 collision. */
  lemma StateRootBinding(c: Crypto, m: map<Key, u64>, n: map<Key, u64>) returns (x: Bytes, y: Bytes)
    requires m != map[] && n != map[] && m != n
    requires StateRoot(c, m) == StateRoot(c, n)
    ensures Collides(c, x, y)
  {
    var xs, ys := LeafList(m), LeafList(n);
    if Depth(|xs|) < Depth(|ys|) {
      x, y := DepthBinding(c, xs, HashAll(c, ys));
    } else if Depth(|ys|) < Depth(|xs|) {
      x, y := DepthBinding(c, ys, HashAll(c, xs));
    } else {
      LeavesDistinct(m);
      LeavesDistinct(n);
      x, y := DistinctDigests(c, xs);
      if Collides(c, x, y) { return; }
      x, y := DistinctDigests(c, ys);
      if Collides(c, x, y) { return; }
      x, y := SameDepthBinding(c, HashAll(c, xs), HashAll(c, ys));
      if Collides(c, x, y) { return; }
      x, y := SameDigests(c, xs, ys);
      if xs == ys { LeavesDetermineTable(m, n); }
    }
  }

  // ---------------------------------------------------------------- every balance is in the root

  /** The parent of two nodes. */
  function ParentHash(c: Crypto, left: Bytes, right: Bytes): (r: Hash) { c.sha(left + right) }

  /** Hash up from node `i` of a level: an even node is the left one of its pair, an odd node the right one. */
  function Climb(c: Crypto, h: Hash, i: nat, siblings: seq<Hash>): (r: Hash)
    decreases |siblings|
  {
    if siblings == [] then h else
      Climb(c, if i % 2 == 0 then ParentHash(c, h, siblings[0]) else ParentHash(c, siblings[0], h), i / 2, siblings[1..])
  }

  /** Every node of a level climbs to the root over one sibling for each level; the last node of an odd level is its own
      sibling. */
  lemma {:induction false} NodeIncluded(c: Crypto, level: seq<Hash>, i: nat) returns (siblings: seq<Hash>)
    requires i < |level|
    ensures |siblings| == Depth(|level|) && Climb(c, level[i], i, siblings) == MerkleRoot(c, level)
    decreases |level|
  {
    hide NextLevel, ParentHash;
    siblings := [];
    if |level| > 1 {
      var sibling := if i % 2 == 1 then level[i - 1] else if i + 1 < |level| then level[i + 1] else level[i];
      PairHash(c, level, i / 2);
      var rest := NodeIncluded(c, NextLevel(c, level), i / 2);
      siblings := [sibling] + rest;
      assert siblings[1..] == rest && siblings[0] == sibling;
      assert if i % 2 == 1 then 2 * (i / 2) == i - 1 else 2 * (i / 2) == i;
    }
  }

  lemma PairHash(c: Crypto, level: seq<Hash>, j: nat)
    requires 2 * j < |level|
    ensures NextLevel(c, level)[j] == ParentHash(c, level[2 * j], if 2 * j + 1 < |level| then level[2 * j + 1] else level[2 * j])
  {
    assert NodeList(level)[j] == NodeData(level, j);
  }

  /** A proof for every balance: the hash of key and amount, at the key's place in key order, climbs to the state root. */
  lemma BalanceIncluded(c: Crypto, balances: map<Key, u64>, k: Key) returns (i: nat, siblings: seq<Hash>)
    requires k in balances
    ensures i < |balances| && SortedKeys(balances.Keys)[i] == k && |siblings| == Depth(|balances|)
    ensures Climb(c, c.sha(k + Be64(balances[k])), i, siblings) == StateRoot(c, balances)
  {
    hide Be64, MerkleRoot, Climb, SortedKeys, HashAll, LeavesFor;
    var ks := SortedKeys(balances.Keys);
    i :| 0 <= i < |ks| && ks[i] == k;
    var leaves := LeafList(balances);
    assert leaves[i] == LeafData(k, balances[k]);
    siblings := NodeIncluded(c, HashAll(c, leaves), i);
  }
}
