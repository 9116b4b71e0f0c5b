/**
 The node engine as a transition function (rp-node/src/node_engine.rs): one input, the next engine and the
 actions it emits.  Frames are taken after decoding; `None` is a frame that does not decode.
 */
module Engine {
  import opened Base
  import opened Models
  import opened Ledger
  import opened Snapshot
  import opened Mempool
  import opened Chain

  const REQUEST_TIMEOUT_MS: u64 := 30000

  type PeerId = Hash

  datatype PeerState = PeerState(connected: bool, lastSeenMs: u64)

  datatype PendingRequest = PendingRequest(peer: PeerId, fromHeight: u64, toHeight: u64, deadlineMs: u64)

  datatype ParkedBlock = ParkedBlock(peer: PeerId, block: Block)

  datatype Message =
    | AnnounceBlock(block: Block)
    | AnnounceTransaction(transaction: Transaction)
    | SyncRequest(fromHeight: u64, toHeight: u64)
    | SyncResponse(blocks: seq<Block>, hasMore: bool, nextHeight: Option<u64>)
    | AnnounceResponse(accepted: bool)

  datatype PersistKind = SnapshotKind | BlockKind

  datatype Input =
    | Tick(nowMs: u64)
    | PeerConnected(peer: PeerId)
    | PeerDisconnected(peer: PeerId)
    | FrameReceived(peer: PeerId, message: Option<Message>)
    | LocalTransactionSubmitted(transaction: Transaction)
    | StorageLoaded(blockHash: Hash, stateBytes: Option<Bytes>)
    | PersistCompleted(kind: PersistKind)
    | ImportRequested(peer: PeerId, fromHeight: u64, toHeight: u64)

  datatype Event =
    | NoSnapshotRestored
    | InvalidStartupSnapshot
    | StartupRootMismatch
    | SnapshotRestored
    | ParentSnapshotMissing
    | FailedImportingParkedBlock
    | FailedImportingBlock
    | BlockAdded
    | PeerIsConnected
    | PeerIsDisconnected
    | InvalidTransactionReceived
    | MempoolRefused(reason: PoolError)
    | InvalidLocalTransaction
    | InvalidFrame
    | InvalidSnapshotBytes
    | UnexpectedSnapshotResult

  datatype Action =
    | SendFrame(peer: PeerId, message: Message)
    | RelayFrames(peers: set<PeerId>, message: Message)
    | BroadcastFrame(message: Message)
    | PersistBlock(block: Block)
    | PersistSnapshot(blockHash: Hash, stateBytes: Bytes)
    | RequestBlocks(peer: PeerId, fromHeight: u64, toHeight: u64)
    | ScheduleWake(atMs: u64)
    | CancelWake
    | ReportEvent(event: Event)
    | FrameIgnored(peer: PeerId)
    | PersistReported(kind: PersistKind)
    | LoadSnapshot(blockHash: Hash)

  type Parked = map<Hash, seq<ParkedBlock>>

  datatype Engine = Engine(
    chain: Chain,
    peers: map<PeerId, PeerState>,
    requests: seq<PendingRequest>,
    parked: Parked,
    nowMs: u64,
    wakeAtMs: Option<u64>)

  /** The head block is in the tree, as `get_latest_block` expects. */
  predicate Live(e: Engine) { e.chain.head in e.chain.nodes }

  type Outcome = (Engine, seq<Action>)

  function NewEngine(ch: Chain): (r: Engine) { Engine(ch, map[], [], map[], 0, None) }

  // ---------------------------------------------------------------- requests and wake-ups

  function Expire(requests: seq<PendingRequest>, nowMs: u64): (r: seq<PendingRequest>)
  {
    if requests == [] then [] else
      var n := |requests| - 1;
      Expire(requests[..n], nowMs) + (if requests[n].deadlineMs > nowMs then [requests[n]] else [])
  }

  lemma {:induction false} ExpireMembers(requests: seq<PendingRequest>, nowMs: u64)
    ensures forall q :: q in Expire(requests, nowMs) <==> q in requests && q.deadlineMs > nowMs
    decreases |requests|
  {
    if requests != [] {
      var n := |requests| - 1;
      assert requests == requests[..n] + [requests[n]];
      ExpireMembers(requests[..n], nowMs);
    }
  }

  function RequestsOf(requests: seq<PendingRequest>, peer: PeerId): (r: seq<PendingRequest>)
  {
    if requests == [] then [] else
      var n := |requests| - 1;
      RequestsOf(requests[..n], peer) + (if requests[n].peer == peer then [requests[n]] else [])
  }

  lemma {:induction false} RequestsOfMembers(requests: seq<PendingRequest>, peer: PeerId)
    ensures forall q :: q in RequestsOf(requests, peer) <==> q in requests && q.peer == peer
    decreases |requests|
  {
    if requests != [] {
      var n := |requests| - 1;
      assert requests == requests[..n] + [requests[n]];
      RequestsOfMembers(requests[..n], peer);
    }
  }

  function RequestsNotOf(requests: seq<PendingRequest>, peer: PeerId): (r: seq<PendingRequest>)
  {
    if requests == [] then [] else
      var n := |requests| - 1;
      RequestsNotOf(requests[..n], peer) + (if requests[n].peer != peer then [requests[n]] else [])
  }

  lemma {:induction false} RequestsNotOfMembers(requests: seq<PendingRequest>, peer: PeerId)
    ensures forall q :: q in RequestsNotOf(requests, peer) <==> q in requests && q.peer != peer
    decreases |requests|
  {
    if requests != [] {
      var n := |requests| - 1;
      assert requests == requests[..n] + [requests[n]];
      RequestsNotOfMembers(requests[..n], peer);
    }
  }

  function EarliestDeadline(requests: seq<PendingRequest>): (r: Option<u64>)
    ensures r.None? <==> requests == []
    ensures r.Some? ==> (exists q :: q in requests && q.deadlineMs == r.value)
    ensures r.Some? ==> (forall q :: q in requests ==> r.value <= q.deadlineMs)
  {
    if requests == [] then None else
      var n := |requests| - 1;
      assert requests == requests[..n] + [requests[n]];
      match EarliestDeadline(requests[..n])
      case None => Some(requests[n].deadlineMs)
      case Some(d) => Some(Min(d, requests[n].deadlineMs))
  }

  /** `sync_wake_action`, run at the end of every step. */
  function SyncWake(e: Engine): (r: Outcome)
    ensures r.0.chain == e.chain
  {
    var next := EarliestDeadline(e.requests);
    if next == e.wakeAtMs then (e, [])
    else (e.(wakeAtMs := next), [if next.Some? then ScheduleWake(next.value) else CancelWake])
  }

  function QueueRequest(e: Engine, peer: PeerId, lo: u64, hi: u64): (r: (Engine, Action))
    ensures r.0.chain == e.chain
  {
    (e.(requests := e.requests + [PendingRequest(peer, lo, hi, SaturatingAdd(e.nowMs, REQUEST_TIMEOUT_MS))]),
     RequestBlocks(peer, lo, hi))
  }

  /** The range `continue_request` asks for next. */
  function NextRange(q: PendingRequest, nextHeight: u64): (r: (u64, u64)) {
    (nextHeight,
     if nextHeight <= q.toHeight then q.toHeight
     else SaturatingAdd(nextHeight, SaturatingSub(q.toHeight, q.fromHeight)))
  }

  function ContinueAll(e: Engine, done: seq<PendingRequest>, nextHeight: u64): (r: Outcome)
    ensures r.0.chain == e.chain && r.0.parked == e.parked
  {
    if done == [] then (e, []) else
      var (e1, acts) := ContinueAll(e, done[..|done| - 1], nextHeight);
      var q := done[|done| - 1];
      if nextHeight == 0 then (e1, acts) else
        var (lo, hi) := NextRange(q, nextHeight);
        var (e2, act) := QueueRequest(e1, q.peer, lo, hi);
        (e2, acts + [act])
  }

  // ---------------------------------------------------------------- importing blocks

  function PersistPair(c: Crypto, b: Block, next: State): (r: seq<Action>) {
    [PersistBlock(b), PersistSnapshot(BlockHash(c, b), StateBytes(next))]
  }

  /** `import_parked_blocks`: each level removes a key of `parked` and none is added. */
  function ImportParked(c: Crypto, e: Engine, parent: Hash, ps: State): (r: Outcome)
    requires Live(e)
    ensures Live(r.0) && r.0.parked.Keys <= e.parked.Keys && |r.0.parked| <= |e.parked|
    decreases |e.parked|, 0, 0
  {
    if parent !in e.parked then (e, []) else
      assert (e.parked - {parent}).Keys == e.parked.Keys - {parent};
      ImportAll(c, e.(parked := e.parked - {parent}), e.parked[parent], ps)
  }

  /** The loop of `import_parked_blocks` over the blocks taken out. */
  function ImportAll(c: Crypto, e: Engine, blocks: seq<ParkedBlock>, ps: State): (r: Outcome)
    requires Live(e)
    ensures Live(r.0) && r.0.parked.Keys <= e.parked.Keys && |r.0.parked| <= |e.parked|
    decreases |e.parked|, 2, |blocks|
  {
    if blocks == [] then (e, []) else
      var (e1, acts) := ImportOne(c, e, blocks[0].block, ps);
      var (e2, rest) := ImportAll(c, e1, blocks[1..], ps);
      (e2, acts + rest)
  }

  /** One iteration: import the block and, if it became the head, everything parked under it. */
  function ImportOne(c: Crypto, e: Engine, b: Block, ps: State): (r: Outcome)
    requires Live(e)
    ensures Live(r.0) && r.0.parked.Keys <= e.parked.Keys && |r.0.parked| <= |e.parked|
    decreases |e.parked|, 1, 0
  {
    match AddBlock(c, e.chain, b, ps)
    case Err(_) => (e, [ReportEvent(FailedImportingParkedBlock)])
    case Ok((ch, imported)) =>
      var e1 := e.(chain := ch);
      var (e2, below) :=
        if imported.becameHead then ImportParked(c, e1, BlockHash(c, b), imported.nextState) else (e1, []);
      (e2, PersistPair(c, b, imported.nextState) + below)
  }

  function Park(parked: Parked, peer: PeerId, b: Block): (r: Parked) {
    var before := if b.prev in parked then parked[b.prev] else [];
    parked[b.prev := before + [ParkedBlock(peer, b)]]
  }

  function IngestBlock(c: Crypto, e: Engine, peer: PeerId, b: Block): (r: Outcome)
    requires Live(e)
    ensures Live(r.0)
  {
    if e.chain.head == b.prev then
      match AddBlock(c, e.chain, b, e.chain.state)
      case Err(_) => (e, [ReportEvent(FailedImportingBlock)])
      case Ok((ch, imported)) =>
        var e1 := e.(chain := ch);
        var (e2, below) :=
          if imported.becameHead then ImportParked(c, e1, BlockHash(c, b), imported.nextState) else (e1, []);
        (e2, PersistPair(c, b, imported.nextState) + [ReportEvent(BlockAdded)] + below)
    else
      (e.(parked := Park(e.parked, peer, b)), [LoadSnapshot(b.prev)])
  }

  function IngestAll(c: Crypto, e: Engine, peer: PeerId, blocks: seq<Block>): (r: Outcome)
    requires Live(e)
    ensures Live(r.0)
  {
    if blocks == [] then (e, []) else
      var (e1, acts) := IngestAll(c, e, peer, blocks[..|blocks| - 1]);
      var (e2, more) := IngestBlock(c, e1, peer, blocks[|blocks| - 1]);
      (e2, acts + more)
  }

  // ---------------------------------------------------------------- transactions and sync

  function AddTransaction(c: Crypto, ch: Chain, t: Transaction): (r: (Chain, Result<bool, Event>))
    ensures r.0.nodes == ch.nodes && r.0.head == ch.head && r.0.state == ch.state
  {
    if !IsValidTx(c, ch.state, t) then (ch, Err(InvalidTransactionReceived)) else
      var (pool, added) := Add(c, ch.pool, MEMPOOL_SIZE, t);
      (ch.(pool := pool),
       match added
       case Ok(isNew) => Ok(isNew)
       case Err(reason) => Err(MempoolRefused(reason)))
  }

  function RelayTargets(peers: map<PeerId, PeerState>, source: PeerId): (r: set<PeerId>) {
    set p | p in peers && p != source && peers[p].connected
  }

  /** The answer to a `SyncRequest`. */
  function Respond(ch: Chain, lo: u64, hi: u64): (r: Message)
    requires ch.head in ch.nodes
  {
    var blocks := GetBlocks(ch, lo, hi);
    var latest := LatestBlock(ch).height;
    var earliest := EarliestContiguousHeight(ch);
    var hasMore := blocks != [] && blocks[|blocks| - 1].height < latest;
    var next :=
      if blocks != [] then (if hasMore then Some(SaturatingAdd(blocks[|blocks| - 1].height, 1)) else None)
      else if lo < earliest && earliest <= latest then Some(earliest)
      else None;
    SyncResponse(blocks, hasMore, next)
  }

  function OnSyncResponse(c: Crypto, e: Engine, peer: PeerId, blocks: seq<Block>, next: Option<u64>): (r: Outcome)
    requires Live(e)
    ensures Live(r.0)
  {
    var done := RequestsOf(e.requests, peer);
    var e0 := e.(requests := RequestsNotOf(e.requests, peer));
    var (e1, acts) := IngestAll(c, e0, peer, blocks);
    var (e2, more) := if next.Some? then ContinueAll(e1, done, next.value) else (e1, []);
    (e2, if acts + more == [] then [FrameIgnored(peer)] else acts + more)
  }

  function OnMessage(c: Crypto, e: Engine, peer: PeerId, m: Message): (r: Outcome)
    requires Live(e)
    ensures Live(r.0)
  {
    match m
    case AnnounceBlock(b) => IngestBlock(c, e, peer, b)
    case AnnounceTransaction(t) =>
      var (ch, added) := AddTransaction(c, e.chain, t);
      (e.(chain := ch),
       match added
       case Ok(true) => [RelayFrames(RelayTargets(e.peers, peer), m)]
       case Ok(false) => []
       case Err(event) => [ReportEvent(event)])
    case SyncRequest(lo, hi) => (e, [SendFrame(peer, Respond(e.chain, lo, hi))])
    case SyncResponse(blocks, _, next) => OnSyncResponse(c, e, peer, blocks, next)
    case AnnounceResponse(_) => (e, [FrameIgnored(peer)])
  }

  function OnStorageLoaded(c: Crypto, e: Engine, h: Hash, bytes: Option<Bytes>): (r: Outcome)
    requires Live(e)
    ensures Live(r.0)
  {
    if h !in e.parked || e.parked[h] == [] then (e, [ReportEvent(UnexpectedSnapshotResult)])
    else if bytes.None? then
      var first := e.parked[h][0];
      var parentHeight := SaturatingSub(first.block.height, 1);
      var (e1, act) := QueueRequest(e, first.peer, parentHeight, parentHeight);
      (e1, [ReportEvent(ParentSnapshotMissing), act])
    else
      match StateFromBytes(bytes.value)
      case Err(_) => (e, [ReportEvent(InvalidSnapshotBytes)])
      case Ok(s) => ImportParked(c, e, h, s)
  }

  /** Everything `step` does before `sync_wake_action`. */
  function React(c: Crypto, e: Engine, i: Input): (r: Outcome)
    requires Live(e)
    ensures Live(r.0)
  {
    match i
    case Tick(now) => (e.(nowMs := now, requests := Expire(e.requests, now)), [])
    case PeerConnected(peer) =>
      var height := LatestBlock(e.chain).height;
      var (e1, act) := QueueRequest(e.(peers := e.peers[peer := PeerState(true, 0)]), peer,
                                    SaturatingAdd(height, 1), SaturatingAdd(height, 100));
      (e1, [ReportEvent(PeerIsConnected), act])
    case PeerDisconnected(peer) =>
      (e.(peers := e.peers - {peer}, requests := RequestsNotOf(e.requests, peer)), [ReportEvent(PeerIsDisconnected)])
    case FrameReceived(peer, message) =>
      (match message
       case Some(m) => OnMessage(c, e, peer, m)
       case None => (e, [ReportEvent(InvalidFrame)]))
    case LocalTransactionSubmitted(t) =>
      var (ch, added) := AddTransaction(c, e.chain, t);
      (e.(chain := ch),
       match added
       case Ok(true) => [BroadcastFrame(AnnounceTransaction(t))]
       case Ok(false) => []
       case Err(_) => [ReportEvent(InvalidLocalTransaction)])
    case StorageLoaded(h, bytes) => OnStorageLoaded(c, e, h, bytes)
    case PersistCompleted(kind) => (e, [PersistReported(kind)])
    case ImportRequested(peer, lo, hi) =>
      var (e1, act) := QueueRequest(e, peer, lo, hi);
      (e1, [act])
  }

  /** `NodeEngine::step`. */
  function Step(c: Crypto, e: Engine, i: Input): (r: Outcome)
    requires Live(e)
    ensures Live(r.0)
  {
    var (e1, acts) := React(c, e, i);
    var (e2, wake) := SyncWake(e1);
    (e2, acts + wake)
  }

  /** `restore_latest_snapshot`. */
  function Restore(c: Crypto, e: Engine, block: Option<Block>, bytes: Option<Bytes>): (r: (Engine, Event)) {
    if block.None? || bytes.None? then (e, NoSnapshotRestored) else
      match StateFromBytes(bytes.value)
      case Err(_) => (e, InvalidStartupSnapshot)
      case Ok(s) =>
        if block.value.stateRoot != Merkle.StateRoot(c, s.balances) then (e, StartupRootMismatch)
        else (e.(chain := RestoreHead(c, block.value, s)), SnapshotRestored)
  }
}
