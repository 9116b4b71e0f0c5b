/**
 Catch-up: a requester whose head lies on an unchanging responder's canonical chain, with one outstanding request
 that starts no later than just above its head, ends the request / clamp / serve / continue loop with the responder's
 exact head and state, for any chunk limit.  A request that starts higher leaves a gap and never moves the head.
 */
module Sync {
  import opened Base
  import opened Models
  import opened Ledger
  import opened LedgerLaws
  import opened Chain
  import opened Walks
  import opened World
  import opened Engine

  /** `clamp_sync_request`: the peer's chunk limit, if it announced one. */
  function Clamp(limit: Option<u64>, lo: u64, hi: u64): (r: (u64, u64)) {
    if limit.None? || limit.value == 0 || lo > hi then (lo, hi)
    else (lo, Min(hi, SaturatingAdd(lo, SaturatingSub(limit.value, 1))))
  }

  /** A peer that announced a limit is asked from the same height for at most that many heights, and for the whole range
      otherwise. */
  lemma ClampExact(limit: Option<u64>, lo: u64, hi: u64)
    requires lo <= hi
    ensures var (l, h) := Clamp(limit, lo, hi);
            && l == lo && lo <= h <= hi
            && h - l + 1 == (if limit.Some? && limit.value > 0 then Min(hi - lo + 1, limit.value) else hi - lo + 1)
  {
  }

  /** One round: the outstanding request is clamped and served, and the requester handles the answer. */
  function Round(c: Crypto, e: Engine, server: Chain, peer: PeerId, limit: Option<u64>): (r: Engine)
    requires Live(e) && server.head in server.nodes
    ensures Live(r)
  {
    if e.requests == [] then e else
      var (lo, hi) := Clamp(limit, e.requests[0].fromHeight, e.requests[0].toHeight);
      Step(c, e, FrameReceived(peer, Some(Respond(server, lo, hi)))).0
  }

  function Rounds(c: Crypto, e: Engine, server: Chain, peer: PeerId, limit: Option<u64>, n: nat): (r: Engine)
    requires Live(e) && server.head in server.nodes
    ensures Live(r)
    decreases n
  {
    if n == 0 then e else Rounds(c, Round(c, e, server, peer, limit), server, peer, limit, n - 1)
  }

  // ---------------------------------------------------------------- the two nodes

  /** Place `i` of the responder's canonical chain: a validated block one above the place before it. */
  ghost predicate Place(c: Crypto, w: World, nodes: Nodes, path: seq<Hash>, i: nat)
    requires i < |path| && path[0] in nodes
  {
    && path[i] in nodes && nodes[path[i]].block.height == nodes[path[0]].block.height + i
    && BlockHash(c, nodes[path[i]].block) == path[i]
    && (i > 0 ==> nodes[path[i]].block.prev == path[i - 1] && ValidatedAt(c, w, nodes, path[i]))
  }

  /** The responder: a canonical chain of validated blocks, from an orphan up to its head. */
  ghost predicate Serves(c: Crypto, w: World, server: Chain, path: seq<Hash>) {
    && server.head in server.nodes && path != [] && path[0] in server.nodes && path[|path| - 1] == server.head
    && server.nodes[path[0]].block.prev !in server.nodes
    && Replay(c, w, server.head) == Some(server.state)
    && (forall i: nat {:trigger path[i]} :: i < |path| ==> Place(c, w, server.nodes, path, i))
  }

  ghost function First(server: Chain, path: seq<Hash>): (r: u64)
    requires path != [] && path[0] in server.nodes
  {
    server.nodes[path[0]].block.height
  }

  /** Shared blocks agree in what fork choice and validation look at. */
  ghost predicate Agree(nodes: Nodes, served: Nodes) {
    forall h {:trigger nodes[h]} :: h in nodes && h in served ==>
      nodes[h].block.height == served[h].block.height && nodes[h].block.slot == served[h].block.slot
  }

  /** The requester stands at place `a` of the responder's chain, in the true state of that block. */
  ghost predicate Stands(c: Crypto, w: World, e: Engine, server: Chain, path: seq<Hash>, a: nat) {
    && Live(e) && a < |path| && e.chain.head == path[a]
    && Replay(c, w, path[a]) == Some(e.chain.state)
    && Agree(e.chain.nodes, server.nodes)
    && ParkedBelow(e.parked, path, a)
  }

  /** Nothing is parked under the head or anything after it on the chain. */
  ghost predicate ParkedBelow(parked: Parked, path: seq<Hash>, a: nat) {
    forall i {:trigger path[i]} :: a <= i < |path| ==> path[i] !in parked
  }

  lemma PlaceAt(c: Crypto, w: World, server: Chain, path: seq<Hash>, i: nat)
    requires Serves(c, w, server, path) && i < |path|
    ensures path[0] in server.nodes && Place(c, w, server.nodes, path, i)
  {
    hide Place, Replay;
    assert path[i] == path[i];
  }

  /** The next block of the chain is accepted, becomes the head, and finds nothing parked under it. */
  lemma IngestNext(c: Crypto, w: World, e: Engine, server: Chain, path: seq<Hash>, a: nat, peer: PeerId, x: Block)
    requires Serves(c, w, server, path) && Stands(c, w, e, server, path, a)
    requires a + 1 < |path| && path[a + 1] in server.nodes && x == server.nodes[path[a + 1]].block
    ensures var e' := IngestBlock(c, e, peer, x).0;
            Stands(c, w, e', server, path, a + 1) && e'.requests == e.requests
  {
    hide Replay, BlockHash, ValidateAndApply, Beats, RemoveMined, Grow, PersistPair, Serves, AddBlock;
    PlaceAt(c, w, server, path, a);
    PlaceAt(c, w, server, path, a + 1);
    var head := e.chain.nodes[path[a]].block;
    assert head.height == server.nodes[path[a]].block.height && head.slot == server.nodes[path[a]].block.slot;
    ParentContent(c, server.nodes[path[a]].block, head, e.chain.state, x);
    AcceptedAtHead(c, e.chain, x);
    GrowBlocks(e.chain.nodes, path[a + 1], x);
    assert path[a + 1] !in e.parked;
  }

  /** A block on top of the head that validates is added and becomes the head. */
  lemma AcceptedAtHead(c: Crypto, ch: Chain, x: Block)
    requires ch.head in ch.nodes && x.prev == ch.head
    requires ValidateAndApply(c, ch.nodes[ch.head].block, ch.state, x).Ok?
    ensures AddBlock(c, ch, x, ch.state).Ok?
    ensures var (next, imported) := AddBlock(c, ch, x, ch.state).value;
            && imported.becameHead && next.head == BlockHash(c, x)
            && next.state == ValidateAndApply(c, ch.nodes[ch.head].block, ch.state, x).value
            && next.nodes == Grow(ch.nodes, BlockHash(c, x), x)
  {
    hide BlockHash, ValidateAndApply, RemoveMined, Grow, ApplyBody, Merkle.StateRoot;
    AcceptedBody(c, ch.nodes[ch.head].block, ch.state, x);
    GrowBlocks(ch.nodes, BlockHash(c, x), x);
  }

  /** A block at or below the head is only parked, under the hash below it. */
  lemma IngestOld(c: Crypto, w: World, e: Engine, server: Chain, path: seq<Hash>, a: nat, j: nat, peer: PeerId, x: Block)
    requires Serves(c, w, server, path) && Stands(c, w, e, server, path, a)
    requires j <= a && path[j] in server.nodes && x == server.nodes[path[j]].block
    ensures var e' := IngestBlock(c, e, peer, x).0;
            Stands(c, w, e', server, path, a) && e'.requests == e.requests
  {
    hide Replay, BlockHash, AddBlock, ImportParked, PersistPair, ValidatedAt, Agree;
    forall i: nat | a <= i < |path| ensures path[i] != x.prev { NotTheParent(c, w, server, path, i, j); }
  }

  lemma NotTheParent(c: Crypto, w: World, server: Chain, path: seq<Hash>, i: nat, j: nat)
    requires Serves(c, w, server, path) && i < |path| && j < |path| && i + 1 != j && path[j] in server.nodes
    ensures path[i] != server.nodes[path[j]].block.prev
  {
    hide Replay, BlockHash, ValidatedAt;
    PlaceAt(c, w, server, path, i);
    PlaceAt(c, w, server, path, j);
    if j > 0 { PlaceAt(c, w, server, path, j - 1); }
  }

  /** Serving a slice that starts no later than just above the head leaves the requester at the slice's end, or where
      it was if the slice ends below the head. */
  lemma {:induction false} IngestSlice(c: Crypto, w: World, e: Engine, server: Chain, path: seq<Hash>, a: nat, i: nat, j: nat, peer: PeerId)
    returns (a': nat)
    requires Serves(c, w, server, path) && Stands(c, w, e, server, path, a) && Live(e)
    requires i <= j <= |path| && i <= a + 1
    requires forall h :: h in path ==> h in server.nodes
    ensures var e' := IngestAll(c, e, peer, BlocksAt(server.nodes, path[i..j])).0;
            && Stands(c, w, e', server, path, a') && e'.requests == e.requests
            && a' == (if j <= a + 1 then a else j - 1)
    decreases j
  {
    hide IngestBlock, Stands, Serves, BlocksAt;
    a' := a;
    if i == j {
      assert path[i..j] == [];
      EmptyIngest(c, e, peer, server.nodes);
    } else {
      var n := j - 1;
      assert path[n] in path;
      assert path[i..j] == path[i..n] + [path[n]];
      BlocksSnoc(server.nodes, path[i..n], path[n]);
      var blocks, x := BlocksAt(server.nodes, path[i..n]), server.nodes[path[n]].block;
      a' := IngestSlice(c, w, e, server, path, a, i, n, peer);
      IngestSnoc(c, e, peer, blocks, x);
      var e1 := IngestAll(c, e, peer, blocks).0;
      if n <= a {
        IngestOld(c, w, e1, server, path, a', n, peer, x);
      } else {
        IngestNext(c, w, e1, server, path, a', peer, x);
        a' := n;
      }
    }
  }

  lemma EmptyIngest(c: Crypto, e: Engine, peer: PeerId, nodes: Nodes)
    requires Live(e)
    ensures IngestAll(c, e, peer, BlocksAt(nodes, [])) == (e, [])
  {
  }

  lemma IngestSnoc(c: Crypto, e: Engine, peer: PeerId, blocks: seq<Block>, x: Block)
    requires Live(e)
    ensures IngestAll(c, e, peer, blocks + [x]).0 == IngestBlock(c, IngestAll(c, e, peer, blocks).0, peer, x).0
  {
    hide IngestBlock;
    assert (blocks + [x])[..|blocks|] == blocks;
  }

  // ---------------------------------------------------------------- one round

  /** What the answer to a range contains. */
  ghost function Answer(server: Chain, path: seq<Hash>, lo: u64, hi: u64): (r: Message)
    requires path != [] && path[0] in server.nodes && (forall h :: h in path ==> h in server.nodes)
  {
    var first := First(server, path);
    var top := first + |path| - 1;
    if lo < first then SyncResponse([], false, Some(first))
    else if lo > top || lo > hi then SyncResponse([], false, None)
    else if hi < top && hi + 1 < U64_LIMIT then SyncResponse(BlocksAt(server.nodes, path[lo - first..hi - first + 1]), true, Some(hi + 1))
    else SyncResponse(BlocksAt(server.nodes, path[lo - first..|path|]), false, None)
  }

  lemma AnswerIsResponse(c: Crypto, server: Chain, root: Hash, lo: u64, hi: u64)
    requires server.head in server.nodes && Rooted(server.nodes, root) && Detached(server.nodes, root)
    ensures var path := Path(server.nodes, root, server.head);
            && path != [] && path[0] in server.nodes && (forall h :: h in path ==> h in server.nodes)
            && Respond(server, lo, hi) == Answer(server, path, lo, hi)
            && First(server, path) + |path| - 1 == LatestBlock(server).height
  {
    hide Path, GetBlocks, EarliestContiguousHeight, Rooted, BlocksAt, Detached;
    RootHeight(server.nodes, root, server.head);
    GetBlocksExact(server, root, lo, hi);
    ChainStart(server, root);
    var first, top := server.nodes[root].block.height, LatestBlock(server).height;
    if first <= lo <= top && lo <= hi { LastServed(server, root, lo, Min(hi, top)); }
  }

  lemma ChainStart(server: Chain, root: Hash)
    requires server.head in server.nodes && Rooted(server.nodes, root)
    ensures var path := Path(server.nodes, root, server.head);
            && path != [] && path[0] == root && root in server.nodes
            && server.nodes[root].block.height + |path| - 1 == LatestBlock(server).height
  {
    hide Path, Rooted;
    RootHeight(server.nodes, root, server.head);
    PathShape(server.nodes, root, server.head);
  }

  lemma LastServed(server: Chain, root: Hash, lo: u64, m: u64)
    requires server.head in server.nodes && Rooted(server.nodes, root) && root in server.nodes
    requires server.nodes[root].block.height <= lo <= m <= LatestBlock(server).height
    requires forall h :: h in Path(server.nodes, root, server.head) ==> h in server.nodes
    ensures var first, path := server.nodes[root].block.height, Path(server.nodes, root, server.head);
            && m - first + 1 <= |path|
            && BlocksAt(server.nodes, path[lo - first..m - first + 1])[m - lo].height == m
  {
    hide Path, Rooted;
    PathShape(server.nodes, root, server.head);
  }

  /** How the requester's bookkeeping changes: its one request is replaced by the continuation, if any. */
  lemma OneRequest(c: Crypto, e: Engine, peer: PeerId, q: PendingRequest, blocks: seq<Block>, more: bool, next: Option<u64>)
    requires Live(e) && e.requests == [q] && q.peer == peer && next != Some(0)
    requires IngestAll(c, e.(requests := []), peer, blocks).0.requests == []
    ensures var e' := Step(c, e, FrameReceived(peer, Some(SyncResponse(blocks, more, next)))).0;
            var e1 := IngestAll(c, e.(requests := []), peer, blocks).0;
            && e'.chain == e1.chain && e'.parked == e1.parked
            && Continues(e', peer, q, next)
  {
    hide IngestAll, EarliestDeadline, RequestsOf, RequestsNotOf, ContinueAll;
    OnlyRequest(peer, q);
    var e1 := IngestAll(c, e.(requests := []), peer, blocks).0;
    if next.Some? { ContinueOnly(e1, q, next.value); }
  }

  ghost predicate Continues(e: Engine, peer: PeerId, q: PendingRequest, next: Option<u64>) {
    && (next.None? ==> e.requests == [])
    && (next.Some? ==>
          && |e.requests| == 1 && e.requests[0].peer == peer
          && (e.requests[0].fromHeight, e.requests[0].toHeight) == NextRange(q, next.value))
  }

  lemma OnlyRequest(peer: PeerId, q: PendingRequest)
    requires q.peer == peer
    ensures RequestsOf([q], peer) == [q] && RequestsNotOf([q], peer) == []
  {
    assert [q][..0] == [];
    assert RequestsOf([], peer) == [] && RequestsNotOf([], peer) == [];
    assert RequestsOf([q], peer) == RequestsOf([q][..0], peer) + [q];
    assert RequestsNotOf([q], peer) == RequestsNotOf([q][..0], peer) + [];
  }

  lemma ContinueOnly(e: Engine, q: PendingRequest, next: u64)
    requires next != 0
    ensures ContinueAll(e, [q], next).0 == QueueRequest(e, q.peer, NextRange(q, next).0, NextRange(q, next).1).0
  {
    assert [q][..0] == [];
    assert ContinueAll(e, [], next) == (e, []);
  }

  /** Handling one answer that carries a slice of the chain. */
  lemma ServeSlice(c: Crypto, w: World, e: Engine, server: Chain, path: seq<Hash>, peer: PeerId, a: nat, i: nat, j: nat,
                   q: PendingRequest, blocks: seq<Block>, more: bool, next: Option<u64>)
    returns (a': nat)
    requires Serves(c, w, server, path) && Stands(c, w, e, server, path, a) && Live(e)
    requires e.requests == [q] && q.peer == peer && next != Some(0)
    requires i <= j <= |path| && i <= a + 1
    requires forall h :: h in path ==> h in server.nodes
    requires blocks == BlocksAt(server.nodes, path[i..j])
    ensures var e' := Step(c, e, FrameReceived(peer, Some(SyncResponse(blocks, more, next)))).0;
            && a' == (if j <= a + 1 then a else j - 1)
            && Stands(c, w, e', server, path, a')
            && Continues(e', peer, q, next)
  {
    hide Replay, IngestAll, Step, BlocksAt, ParkedBelow, Agree, Serves, Continues;
    var e0 := e.(requests := []);
    assert Stands(c, w, e0, server, path, a);
    a' := IngestSlice(c, w, e0, server, path, a, i, j, peer);
    OneRequest(c, e, peer, q, blocks, more, next);
  }

  /** The loop invariant: where the requester stands, and a well-formed request from no later than just above it. */
  ghost predicate Catching(c: Crypto, w: World, e: Engine, server: Chain, path: seq<Hash>, peer: PeerId, a: nat) {
    && Serves(c, w, server, path) && Stands(c, w, e, server, path, a)
    && |e.requests| == 1 && e.requests[0].peer == peer
    && e.requests[0].fromHeight <= e.requests[0].toHeight
    && e.requests[0].fromHeight <= First(server, path) + a + 1
  }

  /** The responder's head and state, and nothing outstanding. */
  ghost predicate CaughtUp(e: Engine, server: Chain) {
    e.chain.head == server.head && e.chain.state == server.state && e.requests == []
  }

  /** One answer either finishes or strictly raises the height asked for. */
  lemma AnswerStep(c: Crypto, w: World, e: Engine, server: Chain, path: seq<Hash>, peer: PeerId, a: nat, hi: u64)
    returns (a': nat)
    requires Live(e) && Catching(c, w, e, server, path, peer, a)
    requires forall h :: h in path ==> h in server.nodes
    requires e.requests[0].fromHeight <= hi && First(server, path) + |path| - 1 < U64_LIMIT
    ensures var e' := Step(c, e, FrameReceived(peer, Some(Answer(server, path, e.requests[0].fromHeight, hi)))).0;
            || CaughtUp(e', server)
            || (&& Catching(c, w, e', server, path, peer, a')
                && e.requests[0].fromHeight < e'.requests[0].fromHeight <= First(server, path) + |path| - 1)
  {
    hide Replay, Step, BlocksAt, ParkedBelow, Agree, Place;
    var q := e.requests[0];
    assert e.requests == [q];
    var lo, first := q.fromHeight, First(server, path);
    var top := first + |path| - 1;
    var nothing := BlocksAt(server.nodes, path[0..0]);
    assert nothing == [];
    if lo < first {
      a' := ServeSlice(c, w, e, server, path, peer, a, 0, 0, q, nothing, false, Some(first));
    } else if lo > top {
      a' := ServeSlice(c, w, e, server, path, peer, a, 0, 0, q, nothing, false, None);
    } else if hi < top {
      a' := ServeSlice(c, w, e, server, path, peer, a, lo - first, hi - first + 1, q,
                       BlocksAt(server.nodes, path[lo - first..hi - first + 1]), true, Some(hi + 1));
    } else {
      a' := ServeSlice(c, w, e, server, path, peer, a, lo - first, |path|, q, BlocksAt(server.nodes, path[lo - first..|path|]), false, None);
    }
  }

  lemma RoundStep(c: Crypto, w: World, e: Engine, server: Chain, root: Hash, peer: PeerId, limit: Option<u64>, path: seq<Hash>, a: nat)
    returns (a': nat)
    requires Live(e) && server.head in server.nodes && Rooted(server.nodes, root) && Detached(server.nodes, root)
    requires path == Path(server.nodes, root, server.head) && Catching(c, w, e, server, path, peer, a)
    ensures var e' := Round(c, e, server, peer, limit);
            || CaughtUp(e', server)
            || (&& Catching(c, w, e', server, path, peer, a')
                && e.requests[0].fromHeight < e'.requests[0].fromHeight <= LatestBlock(server).height)
  {
    hide Path, Step, Respond, Answer, Rooted, Detached, Serves, Stands;
    var (lo, hi) := Clamp(limit, e.requests[0].fromHeight, e.requests[0].toHeight);
    AnswerIsResponse(c, server, root, lo, hi);
    a' := AnswerStep(c, w, e, server, path, peer, a, hi);
  }

  lemma {:induction false} CatchUpLoop(c: Crypto, w: World, e: Engine, server: Chain, root: Hash, peer: PeerId, limit: Option<u64>, path: seq<Hash>, a: nat)
    returns (n: nat)
    requires Live(e) && server.head in server.nodes && Rooted(server.nodes, root) && Detached(server.nodes, root)
    requires path == Path(server.nodes, root, server.head) && Catching(c, w, e, server, path, peer, a)
    ensures CaughtUp(Rounds(c, e, server, peer, limit, n), server)
    ensures n <= 1 + (if e.requests[0].fromHeight <= LatestBlock(server).height then LatestBlock(server).height - e.requests[0].fromHeight else 0)
    decreases U64_LIMIT - e.requests[0].fromHeight
  {
    hide Round, Rooted, Detached, Serves, Stands, Path;
    var e' := Round(c, e, server, peer, limit);
    var a' := RoundStep(c, w, e, server, root, peer, limit, path, a);
    assert Rounds(c, e', server, peer, limit, 0) == e';
    if CaughtUp(e', server) {
      n := 1;
    } else {
      var m := CatchUpLoop(c, w, e', server, root, peer, limit, path, a');
      n := m + 1;
    }
  }

  // ---------------------------------------------------------------- from the replay invariant

  /** The canonical chain of a node: its head's ancestor path. */
  ghost function Canonical(ch: Chain, root: Hash): (r: seq<Hash>)
    requires Rooted(ch.nodes, root) && ch.head in ch.nodes
  {
    Path(ch.nodes, root, ch.head)
  }

  lemma OkPlace(c: Crypto, w: World, ch: Chain, root: Hash, i: nat)
    requires Keyed(c, ch.nodes) && Rooted(ch.nodes, root) && ch.head in ch.nodes && Validated(c, w, ch.nodes, root)
    requires i < |Canonical(ch, root)|
    ensures Canonical(ch, root)[0] == root && Place(c, w, ch.nodes, Canonical(ch, root), i)
  {
    hide Rooted, ValidatedAt, BlockHash, Path;
    RootHeight(ch.nodes, root, ch.head);
    PathShape(ch.nodes, root, ch.head);
    var h := Canonical(ch, root)[i];
    assert h in ch.nodes && BlockHash(c, ch.nodes[h].block) == h;
    assert i > 0 ==> h != root;
  }

  /** A node that satisfies the replay invariant is a responder. */
  lemma OkServes(c: Crypto, w: World, ch: Chain, root: Hash)
    requires ValidTree(c, ch, root) && ChainIn(c, w, ch) && Validated(c, w, ch.nodes, root)
    requires ch.nodes[root].block.prev !in ch.nodes
    ensures Serves(c, w, ch, Canonical(ch, root))
  {
    hide Replay, Rooted, ChildrenExact, Beats, SameContent, Validated, Keyed, Path, Place;
    RootHeight(ch.nodes, root, ch.head);
    PathShape(ch.nodes, root, ch.head);
    var path := Canonical(ch, root);
    forall i: nat | i < |path| ensures Place(c, w, ch.nodes, path, i) {
      OkPlace(c, w, ch, root, i);
    }
  }

  lemma OkAgree(c: Crypto, w: World, a: Chain, b: Chain)
    requires ChainIn(c, w, a) && ChainIn(c, w, b)
    ensures Agree(a.nodes, b.nodes)
  {
    hide Replay;
    forall h | h in a.nodes && h in b.nodes
      ensures a.nodes[h].block.height == b.nodes[h].block.height && a.nodes[h].block.slot == b.nodes[h].block.slot
    {
      assert SameContent(a.nodes[h].block, w.blocks[h]) && SameContent(b.nodes[h].block, w.blocks[h]);
    }
  }

  /** Catch-up.  Both nodes satisfy the replay invariant in one world; the requester has nothing parked, one outstanding
      request, and its head on the responder's canonical chain. */
  lemma CatchUp(c: Crypto, w: World, e: Engine, root: Hash, server: Chain, peer: PeerId, limit: Option<u64>, a: nat)
    returns (n: nat)
    requires Live(e) && ChainIn(c, w, e.chain)
    requires ValidTree(c, server, root) && ChainIn(c, w, server) && Validated(c, w, server.nodes, root)
    requires server.nodes[root].block.prev !in server.nodes
    requires e.parked == map[] && |e.requests| == 1 && e.requests[0].peer == peer
    requires a < |Canonical(server, root)| && e.chain.head == Canonical(server, root)[a]
    requires e.requests[0].fromHeight <= e.requests[0].toHeight
    requires e.requests[0].fromHeight <= LatestBlock(e.chain).height + 1
    ensures CaughtUp(Rounds(c, e, server, peer, limit, n), server)
    ensures n <= 1 + (if e.requests[0].fromHeight <= LatestBlock(server).height
                      then LatestBlock(server).height - e.requests[0].fromHeight else 0)
  {
    hide Rounds, Path, Validated, Replay, Serves, Rooted, Keyed, ChildrenExact, SameContent, Beats;
    var path := Canonical(server, root);
    OkServes(c, w, server, root);
    OkAgree(c, w, e.chain, server);
    PlaceAt(c, w, server, path, a);
    n := CatchUpLoop(c, w, e, server, root, peer, limit, path, a);
  }

  // ---------------------------------------------------------------- a gap stalls

  /** A served block from above a gap is parked: the head does not move. */
  lemma {:induction false} IngestBeyondGap(c: Crypto, w: World, e: Engine, server: Chain, path: seq<Hash>, a: nat, i: nat, j: nat, peer: PeerId)
    requires Serves(c, w, server, path) && Live(e) && a < |path| && e.chain.head == path[a]
    requires a + 1 < i <= j <= |path|
    requires forall h :: h in path ==> h in server.nodes
    ensures IngestAll(c, e, peer, BlocksAt(server.nodes, path[i..j])).0.chain == e.chain
    ensures IngestAll(c, e, peer, BlocksAt(server.nodes, path[i..j])).0.requests == e.requests
    decreases j
  {
    hide Serves, BlocksAt, AddBlock, ImportParked, PersistPair, Park;
    if i == j {
      assert path[i..j] == [];
      EmptyIngest(c, e, peer, server.nodes);
    } else {
      var n := j - 1;
      assert path[n] in path;
      assert path[i..j] == path[i..n] + [path[n]];
      BlocksSnoc(server.nodes, path[i..n], path[n]);
      IngestBeyondGap(c, w, e, server, path, a, i, n, peer);
      IngestSnoc(c, e, peer, BlocksAt(server.nodes, path[i..n]), server.nodes[path[n]].block);
      NotTheParent(c, w, server, path, a, n);
    }
  }

  /** A request that cannot move the head: it starts above the block after the head, or is an inverted range. */
  ghost predicate Stuck(requests: seq<PendingRequest>, peer: PeerId, first: u64, a: nat) {
    && |requests| <= 1
    && (requests != [] ==>
          && requests[0].peer == peer
          && (requests[0].fromHeight > first + a + 1 || (first <= requests[0].fromHeight && requests[0].toHeight < requests[0].fromHeight)))
  }

  lemma GapRound(c: Crypto, w: World, e: Engine, server: Chain, root: Hash, peer: PeerId, limit: Option<u64>, path: seq<Hash>, a: nat)
    requires Live(e) && server.head in server.nodes && Rooted(server.nodes, root) && Detached(server.nodes, root)
    requires path == Path(server.nodes, root, server.head) && Serves(c, w, server, path)
    requires a < |path| && e.chain.head == path[a]
    requires path[0] in server.nodes && Stuck(e.requests, peer, First(server, path), a)
    ensures var e' := Round(c, e, server, peer, limit);
            && e'.chain == e.chain && Stuck(e'.requests, peer, First(server, path), a)
            && (a == |path| - 1 ==> e'.requests == [])
  {
    hide Path, Step, Respond, Rooted, Detached, BlocksAt, Serves, IngestAll;
    if e.requests != [] {
      var q := e.requests[0];
      assert e.requests == [q];
      var (lo, hi) := Clamp(limit, q.fromHeight, q.toHeight);
      AnswerIsResponse(c, server, root, lo, hi);
      var first, top := First(server, path), LatestBlock(server).height;
      var e0 := e.(requests := []);
      var nothing := BlocksAt(server.nodes, []);
      if lo > top || lo > hi {
        EmptyIngest(c, e0, peer, server.nodes);
        OneRequest(c, e, peer, q, nothing, false, None);
      } else {
        var j := if hi < top then hi - first + 1 else |path|;
        IngestBeyondGap(c, w, e0, server, path, a, lo - first, j, peer);
        OneRequest(c, e, peer, q, BlocksAt(server.nodes, path[lo - first..j]), hi < top, if hi < top then Some(hi + 1) else None);
      }
    }
  }

  /** A stuck request never moves the head, however many rounds. */
  lemma {:induction false} GapStalls(c: Crypto, w: World, e: Engine, server: Chain, root: Hash, peer: PeerId, limit: Option<u64>, path: seq<Hash>, a: nat, n: nat)
    requires Live(e) && server.head in server.nodes && Rooted(server.nodes, root) && Detached(server.nodes, root)
    requires path == Path(server.nodes, root, server.head) && Serves(c, w, server, path)
    requires a < |path| && e.chain.head == path[a]
    requires path[0] in server.nodes && Stuck(e.requests, peer, First(server, path), a)
    ensures Rounds(c, e, server, peer, limit, n).chain == e.chain
    decreases n
  {
    hide Round, Rooted, Detached, Serves, Path, Stuck;
    if n > 0 {
      GapRound(c, w, e, server, root, peer, limit, path, a);
      GapStalls(c, w, Round(c, e, server, peer, limit), server, root, peer, limit, path, a, n - 1);
    }
  }

  // ---------------------------------------------------------------- exactly when catch-up succeeds

  /** The request starts no later than just above the requester's head, and is a range, or starts below the
      responder's first block (whose answer then replaces it by a range). */
  predicate Reaches(q: PendingRequest, height: u64, first: u64) {
    q.fromHeight <= height + 1 && (q.fromHeight <= q.toHeight || q.fromHeight < first)
  }

  /** An inverted range below the responder's first block is answered by that block's height. */
  lemma InvertedRound(c: Crypto, w: World, e: Engine, server: Chain, root: Hash, peer: PeerId, limit: Option<u64>, path: seq<Hash>, a: nat)
    requires Live(e) && server.head in server.nodes && Rooted(server.nodes, root) && Detached(server.nodes, root)
    requires path == Path(server.nodes, root, server.head)
    requires Serves(c, w, server, path) && Stands(c, w, e, server, path, a) && path[0] in server.nodes
    requires |e.requests| == 1 && e.requests[0].peer == peer
    requires e.requests[0].toHeight < e.requests[0].fromHeight < First(server, path)
    ensures Catching(c, w, Round(c, e, server, peer, limit), server, path, peer, a)
  {
    hide Path, Step, Respond, Rooted, Detached, Serves, Stands;
    var q := e.requests[0];
    assert e.requests == [q];
    AnswerIsResponse(c, server, root, q.fromHeight, q.toHeight);
    assert path[0..0] == [];
    var a' := ServeSlice(c, w, e, server, path, peer, a, 0, 0, q, [], false, Some(First(server, path)));
  }

  /** Exactly when the loop ends with the responder's head and state: the requester has them already, or its one
      request reaches down to the block after its head. */
  lemma CatchUpExactly(c: Crypto, w: World, e: Engine, root: Hash, server: Chain, peer: PeerId, limit: Option<u64>, a: nat)
    requires Live(e) && ChainIn(c, w, e.chain)
    requires ValidTree(c, server, root) && ChainIn(c, w, server) && Validated(c, w, server.nodes, root)
    requires server.nodes[root].block.prev !in server.nodes
    requires e.parked == map[] && |e.requests| == 1 && e.requests[0].peer == peer
    requires a < |Canonical(server, root)| && e.chain.head == Canonical(server, root)[a]
    ensures (exists n: nat :: CaughtUp(Rounds(c, e, server, peer, limit, n), server)) <==>
              (e.chain.head == server.head || Reaches(e.requests[0], LatestBlock(e.chain).height, server.nodes[root].block.height))
  {
    hide Rounds, Path, Validated, Replay, Serves, Rooted, Keyed, ChildrenExact, SameContent, Beats, Round;
    var path := Canonical(server, root);
    OkServes(c, w, server, root);
    OkAgree(c, w, e.chain, server);
    PlaceAt(c, w, server, path, a);
    CanonicalEnds(c, w, server, root, path, a);
    var q, first := e.requests[0], server.nodes[root].block.height;
    if Reaches(q, LatestBlock(e.chain).height, first) {
      if q.fromHeight <= q.toHeight {
        var n := CatchUpLoop(c, w, e, server, root, peer, limit, path, a);
      } else {
        InvertedRound(c, w, e, server, root, peer, limit, path, a);
        var m := CatchUpLoop(c, w, Round(c, e, server, peer, limit), server, root, peer, limit, path, a);
        MoreRounds(c, e, server, peer, limit, m);
      }
    } else {
      GapRound(c, w, e, server, root, peer, limit, path, a);
      if e.chain.head == server.head {
        OneRound(c, e, server, peer, limit);
        assert CaughtUp(Rounds(c, e, server, peer, limit, 1), server);
      } else {
        forall n: nat ensures !CaughtUp(Rounds(c, e, server, peer, limit, n), server) {
          GapStalls(c, w, e, server, root, peer, limit, path, a, n);
        }
      }
    }
  }

  lemma CanonicalEnds(c: Crypto, w: World, server: Chain, root: Hash, path: seq<Hash>, a: nat)
    requires Serves(c, w, server, path) && Rooted(server.nodes, root) && path == Canonical(server, root) && a < |path|
    ensures path[0] == root && (path[a] == server.head <==> a == |path| - 1)
  {
    hide Path, Replay, ValidatedAt, BlockHash, Rooted;
    RootHeight(server.nodes, root, server.head);
    PathShape(server.nodes, root, server.head);
    PlaceAt(c, w, server, path, a);
    PlaceAt(c, w, server, path, |path| - 1);
  }

  lemma MoreRounds(c: Crypto, e: Engine, server: Chain, peer: PeerId, limit: Option<u64>, n: nat)
    requires Live(e) && server.head in server.nodes
    ensures Rounds(c, e, server, peer, limit, n + 1) == Rounds(c, Round(c, e, server, peer, limit), server, peer, limit, n)
  {
    hide Round;
  }

  lemma OneRound(c: Crypto, e: Engine, server: Chain, peer: PeerId, limit: Option<u64>)
    requires Live(e) && server.head in server.nodes
    ensures Rounds(c, e, server, peer, limit, 1) == Round(c, e, server, peer, limit)
  {
    hide Round;
    assert Rounds(c, Round(c, e, server, peer, limit), server, peer, limit, 0) == Round(c, e, server, peer, limit);
  }
}
