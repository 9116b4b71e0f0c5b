/**
 `NodeEngine` as it runs (rp-node/src/node_engine.rs): peers, pending requests, parked blocks and clock updated in
 place over a `Blockchain`, proved against the transition function of `Engine`.
 */
module NodeEngines {
  import opened Base
  import opened Models
  import opened Ledger
  import opened Snapshot
  import C = Chain
  import opened E = Engine
  import opened Blockchains

  class NodeEngine {
    const blockchain: Blockchain
    var peers: map<PeerId, PeerState>
    var pendingRequests: seq<PendingRequest>
    var pendingBlocks: Parked
    var currentTimeMs: u64
    var scheduledWakeAtMs: Option<u64>

    function View(): (r: Engine)
      reads this, blockchain, blockchain.mempool
    {
      Engine(blockchain.View(), peers, pendingRequests, pendingBlocks, currentTimeMs, scheduledWakeAtMs)
    }

    ghost predicate Valid()
      reads this, blockchain, blockchain.mempool
    {
      blockchain.Valid()
    }

    constructor (blockchain: Blockchain)
      requires blockchain.Valid()
      ensures Valid() && this.blockchain == blockchain && View() == NewEngine(old(blockchain.View()))
    {
      this.blockchain := blockchain;
      peers := map[];
      pendingRequests := [];
      pendingBlocks := map[];
      currentTimeMs := 0;
      scheduledWakeAtMs := None;
    }

    method RestoreLatestSnapshot(c: Crypto, block: Option<Block>, stateBytes: Option<Bytes>) returns (event: Event)
      requires Valid()
      modifies blockchain
      ensures Valid() && (blockchain.mempool == old(blockchain.mempool) || fresh(blockchain.mempool))
      ensures (View(), event) == Restore(c, old(View()), block, stateBytes)
    {
      if block.None? || stateBytes.None? {
        return NoSnapshotRestored;
      }
      var restored := FromBytes(stateBytes.value);
      if restored.Err? {
        return InvalidStartupSnapshot;
      }
      var root := Merkle.ComputeStateRoot(c, restored.value.balances);
      if block.value.stateRoot != root {
        return StartupRootMismatch;
      }
      blockchain.RestoreHead(c, block.value, restored.value);
      event := SnapshotRestored;
    }

    method PruneExpiredRequests(nowMs: u64)
      modifies this`pendingRequests
      ensures pendingRequests == Expire(old(pendingRequests), nowMs)
    {
      var all := pendingRequests;
      pendingRequests := [];
      for i := 0 to |all|
        invariant pendingRequests == Expire(all[..i], nowMs)
      {
        assert all[..i + 1][..i] == all[..i];
        if all[i].deadlineMs > nowMs {
          pendingRequests := pendingRequests + [all[i]];
        }
      }
      assert all[..|all|] == all;
    }

    method NextDeadline() returns (next: Option<u64>)
      ensures next == EarliestDeadline(pendingRequests)
    {
      hide EarliestDeadline;
      next := None;
      for i := 0 to |pendingRequests|
        invariant next == EarliestDeadline(pendingRequests[..i])
      {
        DeadlineSnoc(pendingRequests[..i], pendingRequests[i]);
        assert pendingRequests[..i + 1] == pendingRequests[..i] + [pendingRequests[i]];
        var d := pendingRequests[i].deadlineMs;
        next := Some(if next.Some? then Min(next.value, d) else d);
      }
      assert pendingRequests[..|pendingRequests|] == pendingRequests;
    }

    method SyncWakeAction() returns (acts: seq<Action>)
      modifies this`scheduledWakeAtMs
      ensures (View(), acts) == SyncWake(old(View()))
    {
      hide EarliestDeadline;
      var next := NextDeadline();
      if next == scheduledWakeAtMs {
        return [];
      }
      scheduledWakeAtMs := next;
      acts := [if next.Some? then ScheduleWake(next.value) else CancelWake];
    }

    method QueueBlockRequest(peer: PeerId, lo: u64, hi: u64) returns (act: Action)
      modifies this`pendingRequests
      ensures (View(), act) == QueueRequest(old(View()), peer, lo, hi)
    {
      pendingRequests := pendingRequests + [PendingRequest(peer, lo, hi, SaturatingAdd(currentTimeMs, REQUEST_TIMEOUT_MS))];
      act := RequestBlocks(peer, lo, hi);
    }

    /** Each level takes a key out of `pendingBlocks` and none puts one in. */
    method ImportParkedBlocks(c: Crypto, parent: Hash, ps: State) returns (acts: seq<Action>)
      requires Valid()
      modifies this`pendingBlocks, blockchain, blockchain.mempool
      ensures Valid() && blockchain.mempool == old(blockchain.mempool)
      ensures (View(), acts) == ImportParked(c, old(View()), parent, ps)
      decreases |pendingBlocks|, 0
    {
      hide ImportAll, ImportParked, ImportOne;
      ParkedUnfolds(c, View(), parent, ps);
      acts := [];
      if parent !in pendingBlocks {
        return;
      }
      var blocks := pendingBlocks[parent];
      assert (pendingBlocks - {parent}).Keys == pendingBlocks.Keys - {parent};
      pendingBlocks := pendingBlocks - {parent};
      ghost var e0 := View();
      ghost var all := ImportAll(c, e0, blocks, ps);
      assert blocks[0..] == blocks && [] + all.1 == all.1;
      for i := 0 to |blocks|
        invariant Valid() && blockchain.mempool == old(blockchain.mempool)
        invariant |pendingBlocks| < old(|pendingBlocks|)
        invariant var rest := ImportAll(c, View(), blocks[i..], ps); all == (rest.0, acts + rest.1)
        invariant peers == old(peers) && pendingRequests == old(pendingRequests)
        invariant currentTimeMs == old(currentTimeMs) && scheduledWakeAtMs == old(scheduledWakeAtMs)
      {
        AllUnfolds(c, View(), blocks[i..], ps);
        assert blocks[i..][1..] == blocks[i + 1..];
        var one := ImportBlock(c, blocks[i].block, ps);
        Regroup(acts, one, ImportAll(c, View(), blocks[i + 1..], ps).1);
        acts := acts + one;
      }
      AllUnfolds(c, View(), blocks[|blocks|..], ps);
      assert acts + [] == acts;
    }

    /** One turn of the loop of `import_parked_blocks`. */
    method ImportBlock(c: Crypto, block: Block, ps: State) returns (acts: seq<Action>)
      requires Valid()
      modifies this`pendingBlocks, blockchain, blockchain.mempool
      ensures Valid() && blockchain.mempool == old(blockchain.mempool) && |pendingBlocks| <= old(|pendingBlocks|)
      ensures (View(), acts) == ImportOne(c, old(View()), block, ps)
      decreases |pendingBlocks|, 1
    {
      hide C.AddBlock, BlockHash, StateBytes, ImportParked;
      var r := blockchain.AddBlock(c, block, ps);
      if r.Err? {
        return [ReportEvent(FailedImportingParkedBlock)];
      }
      var imported := r.value;
      var blockHash := BlockHash(c, block);
      acts := [PersistBlock(block)];
      var stateBytes := ToBytes(imported.nextState);
      acts := acts + [PersistSnapshot(blockHash, stateBytes)];
      assert acts == PersistPair(c, block, imported.nextState) && acts + [] == acts;
      assert View() == old(View()).(chain := blockchain.View());
      if imported.becameHead {
        var below := ImportParkedBlocks(c, blockHash, imported.nextState);
        acts := acts + below;
      }
    }

    method IngestBlock(c: Crypto, peer: PeerId, block: Block) returns (acts: seq<Action>)
      requires Valid()
      modifies this`pendingBlocks, blockchain, blockchain.mempool
      ensures Valid() && blockchain.mempool == old(blockchain.mempool)
      ensures (View(), acts) == E.IngestBlock(c, old(View()), peer, block)
    {
      hide C.AddBlock, BlockHash, StateBytes, ImportParked;
      if blockchain.headHash == block.prev {
        var parentState := blockchain.state;
        var r := blockchain.AddBlock(c, block, parentState);
        if r.Err? {
          return [ReportEvent(FailedImportingBlock)];
        }
        var imported := r.value;
        var blockHash := BlockHash(c, block);
        var stateBytes := ToBytes(imported.nextState);
        acts := [PersistBlock(block), PersistSnapshot(blockHash, stateBytes), ReportEvent(BlockAdded)];
        assert acts == PersistPair(c, block, imported.nextState) + [ReportEvent(BlockAdded)] && acts + [] == acts;
        assert View() == old(View()).(chain := blockchain.View());
        if imported.becameHead {
          var below := ImportParkedBlocks(c, blockHash, imported.nextState);
          acts := acts + below;
        }
      } else {
        var parked := if block.prev in pendingBlocks then pendingBlocks[block.prev] else [];
        pendingBlocks := pendingBlocks[block.prev := parked + [ParkedBlock(peer, block)]];
        acts := [LoadSnapshot(block.prev)];
      }
    }

    method IngestBlocks(c: Crypto, peer: PeerId, blocks: seq<Block>) returns (acts: seq<Action>)
      requires Valid()
      modifies this`pendingBlocks, blockchain, blockchain.mempool
      ensures Valid() && blockchain.mempool == old(blockchain.mempool)
      ensures (View(), acts) == IngestAll(c, old(View()), peer, blocks)
    {
      hide E.IngestBlock;
      acts := [];
      for i := 0 to |blocks|
        invariant Valid() && blockchain.mempool == old(blockchain.mempool)
        invariant (View(), acts) == IngestAll(c, old(View()), peer, blocks[..i])
      {
        assert blocks[..i + 1][..i] == blocks[..i];
        var more := IngestBlock(c, peer, blocks[i]);
        acts := acts + more;
      }
      assert blocks[..|blocks|] == blocks;
    }

    method RequestsOfPeer(peer: PeerId) returns (r: seq<PendingRequest>)
      ensures r == RequestsOf(pendingRequests, peer)
    {
      r := [];
      for i := 0 to |pendingRequests|
        invariant r == RequestsOf(pendingRequests[..i], peer)
      {
        assert pendingRequests[..i + 1][..i] == pendingRequests[..i];
        if pendingRequests[i].peer == peer {
          r := r + [pendingRequests[i]];
        }
      }
      assert pendingRequests[..|pendingRequests|] == pendingRequests;
    }

    method DropRequestsOfPeer(peer: PeerId)
      modifies this`pendingRequests
      ensures pendingRequests == RequestsNotOf(old(pendingRequests), peer)
    {
      var all := pendingRequests;
      pendingRequests := [];
      for i := 0 to |all|
        invariant pendingRequests == RequestsNotOf(all[..i], peer)
      {
        assert all[..i + 1][..i] == all[..i];
        if all[i].peer != peer {
          pendingRequests := pendingRequests + [all[i]];
        }
      }
      assert all[..|all|] == all;
    }

    method ContinueRequests(done: seq<PendingRequest>, nextHeight: u64) returns (acts: seq<Action>)
      modifies this`pendingRequests
      ensures (View(), acts) == ContinueAll(old(View()), done, nextHeight)
    {
      acts := [];
      for i := 0 to |done|
        invariant (View(), acts) == ContinueAll(old(View()), done[..i], nextHeight)
      {
        assert done[..i + 1][..i] == done[..i];
        if nextHeight != 0 {
          var q := done[i];
          var toHeight :=
            if nextHeight <= q.toHeight then q.toHeight
            else SaturatingAdd(nextHeight, SaturatingSub(q.toHeight, q.fromHeight));
          var act := QueueBlockRequest(q.peer, nextHeight, toHeight);
          acts := acts + [act];
        }
      }
      assert done[..|done|] == done;
    }

    method OnSyncRequest(lo: u64, hi: u64, ghost root: Hash) returns (m: Message)
      requires Valid() && Walkable(blockchain.chain, root)
      ensures m == Respond(blockchain.View(), lo, hi)
    {
      hide C.GetBlocks, C.EarliestContiguousHeight;
      var blocks := blockchain.GetBlocks(lo, hi, root);
      var earliest := blockchain.EarliestContiguousHeight(root);
      var latest := blockchain.GetLatestBlock();
      var hasMore := blocks != [] && blocks[|blocks| - 1].height < latest.height;
      var next := None;
      if blocks != [] {
        if hasMore {
          next := Some(SaturatingAdd(blocks[|blocks| - 1].height, 1));
        }
      } else if lo < earliest && earliest <= latest.height {
        next := Some(earliest);
      }
      m := SyncResponse(blocks, hasMore, next);
    }

    method OnSyncResponse(c: Crypto, peer: PeerId, blocks: seq<Block>, next: Option<u64>) returns (acts: seq<Action>)
      requires Valid()
      modifies this`pendingRequests, this`pendingBlocks, blockchain, blockchain.mempool
      ensures Valid() && blockchain.mempool == old(blockchain.mempool)
      ensures (View(), acts) == E.OnSyncResponse(c, old(View()), peer, blocks, next)
    {
      hide IngestAll, ContinueAll, RequestsOf, RequestsNotOf;
      var done := RequestsOfPeer(peer);
      DropRequestsOfPeer(peer);
      acts := IngestBlocks(c, peer, blocks);
      if next.Some? {
        var more := ContinueRequests(done, next.value);
        acts := acts + more;
      } else {
        assert acts + [] == acts;
      }
      if acts == [] {
        acts := [FrameIgnored(peer)];
      }
    }

    method OnMessage(c: Crypto, peer: PeerId, m: Message, ghost root: Hash) returns (acts: seq<Action>)
      requires Valid() && Walkable(blockchain.chain, root)
      modifies this`pendingRequests, this`pendingBlocks, blockchain, blockchain.mempool
      ensures Valid() && blockchain.mempool == old(blockchain.mempool)
      ensures (View(), acts) == E.OnMessage(c, old(View()), peer, m)
    {
      hide E.IngestBlock, E.OnSyncResponse, AddTransaction, Respond, Walkable;
      match m {
        case AnnounceBlock(b) => acts := IngestBlock(c, peer, b);
        case AnnounceTransaction(t) =>
          var added := blockchain.AddTransaction(c, t);
          match added {
            case Ok(true) => acts := [RelayFrames(RelayTargets(peers, peer), m)];
            case Ok(false) => acts := [];
            case Err(event) => acts := [ReportEvent(event)];
          }
        case SyncRequest(lo, hi) =>
          var answer := OnSyncRequest(lo, hi, root);
          acts := [SendFrame(peer, answer)];
        case SyncResponse(blocks, _, next) => acts := OnSyncResponse(c, peer, blocks, next);
        case AnnounceResponse(_) => acts := [FrameIgnored(peer)];
      }
    }

    method OnStorageLoaded(c: Crypto, blockHash: Hash, stateBytes: Option<Bytes>) returns (acts: seq<Action>)
      requires Valid()
      modifies this`pendingRequests, this`pendingBlocks, blockchain, blockchain.mempool
      ensures Valid() && blockchain.mempool == old(blockchain.mempool)
      ensures (View(), acts) == E.OnStorageLoaded(c, old(View()), blockHash, stateBytes)
    {
      hide ImportParked, StateFromBytes;
      if blockHash !in pendingBlocks || pendingBlocks[blockHash] == [] {
        return [ReportEvent(UnexpectedSnapshotResult)];
      }
      var first := pendingBlocks[blockHash][0];
      var parentHeight := SaturatingSub(first.block.height, 1);
      if stateBytes.None? {
        var act := QueueBlockRequest(first.peer, parentHeight, parentHeight);
        return [ReportEvent(ParentSnapshotMissing), act];
      }
      var loaded := FromBytes(stateBytes.value);
      match loaded {
        case Ok(s) => acts := ImportParkedBlocks(c, blockHash, s);
        case Err(_) => acts := [ReportEvent(InvalidSnapshotBytes)];
      }
    }

    /** Handle one input and return the actions, the wake-up last. */
    method Step(c: Crypto, input: Input, ghost root: Hash) returns (acts: seq<Action>)
      requires Valid() && Walkable(blockchain.chain, root)
      modifies this, blockchain, blockchain.mempool
      ensures Valid() && blockchain.mempool == old(blockchain.mempool)
      ensures (View(), acts) == E.Step(c, old(View()), input)
    {
      hide React, SyncWake;
      acts := Handle(c, input, root);
      var wake := SyncWakeAction();
      acts := acts + wake;
    }

    method Handle(c: Crypto, input: Input, ghost root: Hash) returns (acts: seq<Action>)
      requires Valid() && Walkable(blockchain.chain, root)
      modifies this, blockchain, blockchain.mempool
      ensures Valid() && blockchain.mempool == old(blockchain.mempool)
      ensures (View(), acts) == React(c, old(View()), input)
    {
      hide E.OnMessage, E.OnStorageLoaded, AddTransaction, Expire, RequestsOf, RequestsNotOf, Walkable;
      match input {
        case Tick(now) =>
          currentTimeMs := now;
          PruneExpiredRequests(now);
          acts := [];
        case PeerConnected(peer) =>
          peers := peers[peer := PeerState(true, 0)];
          var latest := blockchain.GetLatestBlock();
          var act := QueueBlockRequest(peer, SaturatingAdd(latest.height, 1), SaturatingAdd(latest.height, 100));
          acts := [ReportEvent(PeerIsConnected), act];
        case PeerDisconnected(peer) =>
          peers := peers - {peer};
          DropRequestsOfPeer(peer);
          acts := [ReportEvent(PeerIsDisconnected)];
        case FrameReceived(peer, message) =>
          if message.Some? {
            acts := OnMessage(c, peer, message.value, root);
          } else {
            acts := [ReportEvent(InvalidFrame)];
          }
        case LocalTransactionSubmitted(t) =>
          var added := blockchain.AddTransaction(c, t);
          match added {
            case Ok(true) => acts := [BroadcastFrame(AnnounceTransaction(t))];
            case Ok(false) => acts := [];
            case Err(_) => acts := [ReportEvent(InvalidLocalTransaction)];
          }
        case StorageLoaded(h, bytes) => acts := OnStorageLoaded(c, h, bytes);
        case PersistCompleted(kind) => acts := [PersistReported(kind)];
        case ImportRequested(peer, lo, hi) =>
          var act := QueueBlockRequest(peer, lo, hi);
          acts := [act];
      }
    }
  }

  lemma DeadlineSnoc(requests: seq<PendingRequest>, q: PendingRequest)
    ensures EarliestDeadline(requests + [q]) ==
              match EarliestDeadline(requests)
              case None => Some(q.deadlineMs)
              case Some(d) => Some(Min(d, q.deadlineMs))
  {
    assert (requests + [q])[..|requests|] == requests;
  }

  lemma ParkedUnfolds(c: Crypto, e: Engine, parent: Hash, ps: State)
    requires Live(e)
    ensures parent !in e.parked ==> ImportParked(c, e, parent, ps) == (e, [])
    ensures parent in e.parked ==>
              ImportParked(c, e, parent, ps) == ImportAll(c, e.(parked := e.parked - {parent}), e.parked[parent], ps)
  {
    hide ImportAll;
  }

  lemma AllUnfolds(c: Crypto, e: Engine, blocks: seq<ParkedBlock>, ps: State)
    requires Live(e)
    ensures blocks == [] ==> ImportAll(c, e, blocks, ps) == (e, [])
    ensures blocks != [] ==>
              var (e1, acts) := ImportOne(c, e, blocks[0].block, ps); var (e2, rest) := ImportAll(c, e1, blocks[1..], ps);
              ImportAll(c, e, blocks, ps) == (e2, acts + rest)
  {
    hide ImportOne;
  }
}
