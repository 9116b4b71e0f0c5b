/**
 What the engine does with each input, stated about `Step` in the terms of its fields: who is told of a transaction, what
 is asked for and until when, and what the pool holds over whole runs.
 */
module EngineLaws {
  import opened Base
  import opened Models
  import opened Ledger
  import opened Effects
  import opened Snapshot
  import opened Mempool
  import opened Chain
  import opened Engine
  import opened Nvs
  import S = System
  import W = Wake
  import P = Parking

  function Saturated(x: int): (r: int) { if x < 0 then 0 else Min(x, 0xFFFF_FFFF_FFFF_FFFF) }

  /** Saturating arithmetic is exact arithmetic cut off at both ends of u64. */
  lemma SaturationExact(a: u64, b: u64)
    ensures SaturatingAdd(a, b) == Saturated(a + b) && SaturatingSub(a, b) == Saturated(a - b)
  {
  }

  /** The wake-up a step ends with. */
  ghost function WakeTail(before: Option<u64>, after: Option<u64>): (r: seq<Action>) {
    if before == after then [] else if after.Some? then [ScheduleWake(after.value)] else [CancelWake]
  }

  /** The step turns `e` into `next`, up to the recorded wake-up, and emits `acts`, then the wake-up if it changed. */
  ghost predicate Becomes(c: Crypto, e: Engine, i: Input, next: Engine, acts: seq<Action>)
    requires Live(e)
  {
    var wake := EarliestDeadline(next.requests);
    Step(c, e, i) == (next.(wakeAtMs := wake), acts + WakeTail(e.wakeAtMs, wake))
  }

  lemma ReactBecomes(c: Crypto, e: Engine, i: Input)
    requires Live(e)
    ensures Becomes(c, e, i, React(c, e, i).0, React(c, e, i).1)
  {
    hide React, EarliestDeadline;
    W.ReactSilent(c, e, i);
  }

  // ---------------------------------------------------------------- time, peers and requests

  /** A request made now: answered or dropped within thirty seconds. */
  function NewRequest(e: Engine, peer: PeerId, lo: u64, hi: u64): (r: PendingRequest) {
    PendingRequest(peer, lo, hi, Saturated(e.nowMs + 30000))
  }

  lemma TickLaw(c: Crypto, e: Engine, now: u64)
    requires Live(e)
    ensures Becomes(c, e, Tick(now), e.(nowMs := now, requests := Expire(e.requests, now)), [])
  {
    hide EarliestDeadline, Expire;
    ReactBecomes(c, e, Tick(now));
  }

  /** A new peer is connected and asked for the hundred heights after the head. */
  lemma ConnectLaw(c: Crypto, e: Engine, peer: PeerId)
    requires Live(e)
    ensures var h := e.chain.nodes[e.chain.head].block.height; var lo, hi := Saturated(h + 1), Saturated(h + 100);
            Becomes(c, e, PeerConnected(peer),
                    e.(peers := e.peers[peer := PeerState(true, 0)], requests := e.requests + [NewRequest(e, peer, lo, hi)]),
                    [ReportEvent(PeerIsConnected), RequestBlocks(peer, lo, hi)])
  {
    hide EarliestDeadline;
    ReactBecomes(c, e, PeerConnected(peer));
  }

  /** A lost peer is forgotten, with its requests and no others. */
  lemma DisconnectLaw(c: Crypto, e: Engine, peer: PeerId)
    requires Live(e)
    ensures Becomes(c, e, PeerDisconnected(peer),
                    e.(peers := e.peers - {peer}, requests := RequestsNotOf(e.requests, peer)), [ReportEvent(PeerIsDisconnected)])
  {
    hide EarliestDeadline, RequestsNotOf;
    ReactBecomes(c, e, PeerDisconnected(peer));
  }

  lemma ImportLaw(c: Crypto, e: Engine, peer: PeerId, lo: u64, hi: u64)
    requires Live(e)
    ensures Becomes(c, e, ImportRequested(peer, lo, hi), e.(requests := e.requests + [NewRequest(e, peer, lo, hi)]),
                    [RequestBlocks(peer, lo, hi)])
  {
    hide EarliestDeadline;
    ReactBecomes(c, e, ImportRequested(peer, lo, hi));
  }

  /** Inputs that only leave a trace. */
  lemma TraceLaw(c: Crypto, e: Engine, peer: PeerId, kind: PersistKind, accepted: bool)
    requires Live(e)
    ensures Becomes(c, e, PersistCompleted(kind), e, [PersistReported(kind)])
    ensures Becomes(c, e, FrameReceived(peer, None), e, [ReportEvent(InvalidFrame)])
    ensures Becomes(c, e, FrameReceived(peer, Some(AnnounceResponse(accepted))), e, [FrameIgnored(peer)])
  {
    hide EarliestDeadline;
    ReactBecomes(c, e, PersistCompleted(kind));
    ReactBecomes(c, e, FrameReceived(peer, None));
    ReactBecomes(c, e, FrameReceived(peer, Some(AnnounceResponse(accepted))));
  }

  /** A range is answered to the peer that asked, and nothing changes. */
  lemma AskLaw(c: Crypto, e: Engine, peer: PeerId, lo: u64, hi: u64)
    requires Live(e)
    ensures Becomes(c, e, FrameReceived(peer, Some(SyncRequest(lo, hi))), e, [SendFrame(peer, Respond(e.chain, lo, hi))])
  {
    hide EarliestDeadline, Respond;
    ReactBecomes(c, e, FrameReceived(peer, Some(SyncRequest(lo, hi))));
  }

  /** How a completed request goes on: from the next height to its own end, or over a span as long as its own. */
  ghost function Continued(e: Engine, q: PendingRequest, next: u64): (r: PendingRequest) {
    NewRequest(e, q.peer, next, if next <= q.toHeight then q.toHeight else Saturated(next + Saturated(q.toHeight - q.fromHeight)))
  }

  ghost function AllContinued(e: Engine, done: seq<PendingRequest>, next: u64): (r: seq<PendingRequest>) {
    seq(|done|, i requires 0 <= i < |done| => Continued(e, done[i], next))
  }

  ghost function Asking(qs: seq<PendingRequest>): (r: seq<Action>) {
    seq(|qs|, i requires 0 <= i < |qs| => RequestBlocks(qs[i].peer, qs[i].fromHeight, qs[i].toHeight))
  }

  /** Each completed request is continued, in order, unless the next height is 0; its action asks for the new range. */
  lemma {:induction false} ContinueLaw(e: Engine, done: seq<PendingRequest>, next: u64)
    ensures ContinueAll(e, done, next) ==
              if next == 0 then (e, [])
              else (e.(requests := e.requests + AllContinued(e, done, next)), Asking(AllContinued(e, done, next)))
    decreases |done|
  {
    if done != [] {
      var m := |done| - 1;
      ContinueLaw(e, done[..m], next);
      var before, last := AllContinued(e, done[..m], next), Continued(e, done[m], next);
      if next != 0 {
        assert AllContinued(e, done, next) == before + [last];
        assert Asking(before + [last]) == Asking(before) + [RequestBlocks(last.peer, last.fromHeight, last.toHeight)];
        Regroup(e.requests, before, [last]);
        ContinueOne(e.(requests := e.requests + before), done[m], next);
      }
    } else {
      assert AllContinued(e, done, next) == [] && Asking([]) == [];
      assert e.requests + [] == e.requests;
    }
  }

  lemma ContinueOne(e: Engine, q: PendingRequest, next: u64)
    ensures var (lo, hi) := NextRange(q, next); var last := Continued(e, q, next);
            QueueRequest(e, q.peer, lo, hi) == (e.(requests := e.requests + [last]), RequestBlocks(last.peer, last.fromHeight, last.toHeight))
  {
  }

  // ---------------------------------------------------------------- announced blocks

  /** A block on another parent than the head is filed behind those that wait for that parent, and its state is loaded. */
  lemma ParkLaw(c: Crypto, e: Engine, peer: PeerId, b: Block)
    requires Live(e) && b.prev != e.chain.head
    ensures var waiting := if b.prev in e.parked then e.parked[b.prev] else [];
            Becomes(c, e, FrameReceived(peer, Some(AnnounceBlock(b))),
                    e.(parked := e.parked[b.prev := waiting + [ParkedBlock(peer, b)]]), [LoadSnapshot(b.prev)])
  {
    hide EarliestDeadline, AddBlock;
    ReactBecomes(c, e, FrameReceived(peer, Some(AnnounceBlock(b))));
  }

  /** A child of the head that is refused changes nothing. */
  lemma RefuseLaw(c: Crypto, e: Engine, peer: PeerId, b: Block)
    requires Live(e) && b.prev == e.chain.head && AddBlock(c, e.chain, b, e.chain.state).Err?
    ensures Becomes(c, e, FrameReceived(peer, Some(AnnounceBlock(b))), e, [ReportEvent(FailedImportingBlock)])
  {
    hide EarliestDeadline, AddBlock, PersistPair, BlockHash;
    ReactBecomes(c, e, FrameReceived(peer, Some(AnnounceBlock(b))));
  }

  /** A child of the head that is accepted becomes the head, is persisted with its state, and releases what waits for it. */
  lemma ExtendLaw(c: Crypto, e: Engine, peer: PeerId, b: Block)
    requires Live(e) && b.prev == e.chain.head && AddBlock(c, e.chain, b, e.chain.state).Ok?
    ensures var (ch, imported) := AddBlock(c, e.chain, b, e.chain.state).value; var h := c.sha(EncBlock(b));
            var (e1, released) := ImportParked(c, e.(chain := ch), h, imported.nextState);
            && ch.head == h && ch.state == imported.nextState
            && Becomes(c, e, FrameReceived(peer, Some(AnnounceBlock(b))), e1,
                       [PersistBlock(b), PersistSnapshot(h, StateBytes(imported.nextState)), ReportEvent(BlockAdded)] + released)
  {
    hide EarliestDeadline, AddBlock, ImportParked, EncBlock, StateBytes, Above;
    ForkChoice(c, e.chain, b, e.chain.state);
    ChildAbove(c, e.chain, b);
    var (ch, imported) := AddBlock(c, e.chain, b, e.chain.state).value;
    var (e1, released) := ImportParked(c, e.(chain := ch), BlockHash(c, b), imported.nextState);
    assert PersistPair(c, b, imported.nextState) + [ReportEvent(BlockAdded)]
           == [PersistBlock(b), PersistSnapshot(BlockHash(c, b), StateBytes(imported.nextState)), ReportEvent(BlockAdded)];
    ReactBecomes(c, e, FrameReceived(peer, Some(AnnounceBlock(b))));
  }

  lemma ChildAbove(c: Crypto, ch: Chain, b: Block)
    requires ch.head in ch.nodes && b.prev == ch.head && AddBlock(c, ch, b, ch.state).Ok?
    ensures Above(BlockHash(c, b), b, ch.head, ch.nodes[ch.head].block)
  {
    hide AddBlock, BlockHash, ValidateAndApply;
    AcceptedDescends(c, ch, b, ch.state);
  }

  // ---------------------------------------------------------------- loaded states

  /** The five outcomes of a load. */
  lemma LoadLaw(c: Crypto, e: Engine, h: Hash, bytes: Option<Bytes>)
    requires Live(e)
    ensures var i := StorageLoaded(h, bytes);
            if h !in e.parked || e.parked[h] == [] then Becomes(c, e, i, e, [ReportEvent(UnexpectedSnapshotResult)])
            else if bytes.None? then
              var first := e.parked[h][0]; var below := Saturated(first.block.height - 1);
              Becomes(c, e, i, e.(requests := e.requests + [NewRequest(e, first.peer, below, below)]),
                      [ReportEvent(ParentSnapshotMissing), RequestBlocks(first.peer, below, below)])
            else if StateFromBytes(bytes.value).Err? then Becomes(c, e, i, e, [ReportEvent(InvalidSnapshotBytes)])
            else
              var (e1, acts) := ImportParked(c, e, h, StateFromBytes(bytes.value).value);
              Becomes(c, e, i, e1, acts)
  {
    hide EarliestDeadline, ImportParked, StateFromBytes;
    ReactBecomes(c, e, StorageLoaded(h, bytes));
  }

  /** The four outcomes of a restore. */
  lemma RestoreLaw(c: Crypto, e: Engine, block: Option<Block>, bytes: Option<Bytes>)
    ensures var (e', event) := Restore(c, e, block, bytes);
            if block.None? || bytes.None? then e' == e && event == NoSnapshotRestored
            else if StateFromBytes(bytes.value).Err? then e' == e && event == InvalidStartupSnapshot
            else
              var s := StateFromBytes(bytes.value).value; var h := c.sha(EncBlock(block.value));
              if block.value.stateRoot != Merkle.StateRoot(c, s.balances) then e' == e && event == StartupRootMismatch
              else
                && event == SnapshotRestored
                && e' == e.(chain := Chain(map[h := BlockNode(block.value, [])], h, s, []))
  {
    hide StateFromBytes, Merkle.StateRoot, EncBlock;
  }

  // ---------------------------------------------------------------- transactions

  /** The frames among the actions. */
  ghost function Frames(acts: seq<Action>): (r: seq<Action>) {
    if acts == [] then [] else
      var last := acts[|acts| - 1];
      Frames(acts[..|acts| - 1]) + if last.SendFrame? || last.RelayFrames? || last.BroadcastFrame? then [last] else []
  }

  lemma FramesThenWake(acts: seq<Action>, before: Option<u64>, after: Option<u64>)
    requires |acts| <= 1
    ensures Frames(acts + WakeTail(before, after)) == Frames(acts)
  {
    var tail := WakeTail(before, after);
    if tail == [] {
      assert acts + tail == acts;
    } else {
      assert (acts + tail)[..|acts|] == acts;
    }
  }

  lemma FramesOne(act: Action)
    ensures Frames([act]) == if act.SendFrame? || act.RelayFrames? || act.BroadcastFrame? then [act] else []
    ensures Frames([]) == []
  {
    assert [act][..0] == [];
  }

  /** The pool is ordered and within capacity. */
  ghost predicate PoolOk(c: Crypto, pool: Pool) { Ordered(c, pool) && |pool| <= 10000 }

  /** The transaction is new: admissible in the head state, not in the pool by identity before, and in it after. */
  ghost predicate Enters(c: Crypto, ch: Chain, ch': Chain, t: Transaction) {
    Admissible(c, ch.state, t) && IdOf(c, t) !in Ids(c, ch.pool) && IdOf(c, t) in Ids(c, ch'.pool)
  }

  /** What an offer to the node's pool does to the chain and what it says. */
  lemma OfferLaw(c: Crypto, ch: Chain, t: Transaction)
    requires PoolOk(c, ch.pool)
    ensures var (ch', r) := AddTransaction(c, ch, t);
            && ch' == ch.(pool := ch'.pool) && PoolOk(c, ch'.pool)
            && (r == Ok(true) <==> Enters(c, ch, ch', t))
            && (r == Ok(false) <==> Admissible(c, ch.state, t) && IdOf(c, t) in Ids(c, ch.pool))
            && (r == Err(InvalidTransactionReceived) <==> !Admissible(c, ch.state, t))
            && (r != Ok(true) ==> ch' == ch)
            && (r == Ok(true) ==> multiset(ch'.pool) == multiset(Kept(ch.pool, 10000)) + multiset{t})
  {
    hide Ordered, Ids, IsValidTx, Admissible, Add, IdOf;
    TxVerdict(c, ch.state, t);
    AddVerdict(c, ch.pool, MEMPOOL_SIZE, t);
    if IsValidTx(c, ch.state, t) { AddFits(c, ch.pool, t); }
  }

  lemma AddFits(c: Crypto, pool: Pool, t: Transaction)
    requires PoolOk(c, pool)
    ensures PoolOk(c, Add(c, pool, MEMPOOL_SIZE, t).0)
  {
    hide TxHash, Insert, Ordered;
    AddVerdict(c, pool, MEMPOOL_SIZE, t);
    var (next, r) := Add(c, pool, MEMPOOL_SIZE, t);
    if r == Ok(true) { assert |multiset(next)| == |multiset(Kept(pool, MEMPOOL_SIZE))| + 1; }
  }

  /** The connected peers other than `source`. */
  ghost function Others(e: Engine, source: PeerId): (r: set<PeerId>) {
    set p | p in e.peers && e.peers[p].connected && p != source
  }

  /** Gossip: an announced transaction is relayed if and only if it is new, once, to exactly the connected peers other than
      the one it came from; one that is pending already passes in silence. */
  lemma GossipLaw(c: Crypto, e: Engine, peer: PeerId, t: Transaction)
    requires Live(e) && PoolOk(c, e.chain.pool)
    ensures var (e', acts) := Step(c, e, FrameReceived(peer, Some(AnnounceTransaction(t))));
            && Frames(acts) == (if Enters(c, e.chain, e'.chain, t) then [RelayFrames(Others(e, peer), AnnounceTransaction(t))] else [])
            && (Admissible(c, e.chain.state, t) && IdOf(c, t) in Ids(c, e.chain.pool) ==> acts == WakeTail(e.wakeAtMs, e'.wakeAtMs))
            && (!Admissible(c, e.chain.state, t) ==>
                  acts == [ReportEvent(InvalidTransactionReceived)] + WakeTail(e.wakeAtMs, e'.wakeAtMs))
            && e' == e.(chain := e.chain.(pool := e'.chain.pool), wakeAtMs := e'.wakeAtMs) && PoolOk(c, e'.chain.pool)
            && (!Enters(c, e.chain, e'.chain, t) ==> e'.chain == e.chain)
  {
    hide EarliestDeadline, Ordered, Ids, Admissible, IdOf, Step, PoolOk, Frames, AddTransaction;
    var i := FrameReceived(peer, Some(AnnounceTransaction(t)));
    OfferLaw(c, e.chain, t);
    ReactBecomes(c, e, i);
    var (ch, r) := AddTransaction(c, e.chain, t);
    var (e1, acts) := React(c, e, i);
    assert RelayTargets(e.peers, peer) == Others(e, peer);
    FramesThenWake(acts, e.wakeAtMs, EarliestDeadline(e1.requests));
    if acts != [] { FramesOne(acts[0]); } else { FramesOne(FrameIgnored(peer)); }
    Regroup(acts, WakeTail(e.wakeAtMs, EarliestDeadline(e1.requests)), []);
  }

  /** A transaction submitted locally is broadcast if and only if it is new. */
  lemma SubmitLaw(c: Crypto, e: Engine, t: Transaction)
    requires Live(e) && PoolOk(c, e.chain.pool)
    ensures var (e', acts) := Step(c, e, LocalTransactionSubmitted(t));
            && Frames(acts) == (if Enters(c, e.chain, e'.chain, t) then [BroadcastFrame(AnnounceTransaction(t))] else [])
            && (Admissible(c, e.chain.state, t) && IdOf(c, t) in Ids(c, e.chain.pool) ==> acts == WakeTail(e.wakeAtMs, e'.wakeAtMs))
            && (!Admissible(c, e.chain.state, t) ==>
                  acts == [ReportEvent(InvalidLocalTransaction)] + WakeTail(e.wakeAtMs, e'.wakeAtMs))
            && e' == e.(chain := e.chain.(pool := e'.chain.pool), wakeAtMs := e'.wakeAtMs) && PoolOk(c, e'.chain.pool)
            && (!Enters(c, e.chain, e'.chain, t) ==> e'.chain == e.chain)
  {
    hide EarliestDeadline, Ordered, Ids, Admissible, IdOf, Step, PoolOk, Frames, AddTransaction;
    var i := LocalTransactionSubmitted(t);
    OfferLaw(c, e.chain, t);
    ReactBecomes(c, e, i);
    var (ch, r) := AddTransaction(c, e.chain, t);
    var (e1, acts) := React(c, e, i);
    FramesThenWake(acts, e.wakeAtMs, EarliestDeadline(e1.requests));
    if acts != [] { FramesOne(acts[0]); } else { FramesOne(CancelWake); }
    Regroup(acts, WakeTail(e.wakeAtMs, EarliestDeadline(e1.requests)), []);
  }

  // ---------------------------------------------------------------- imports touch only the chain and what is parked

  ghost predicate Confined(c: Crypto, e: Engine, e': Engine) {
    && e' == e.(chain := e'.chain, parked := e'.parked)
    && (PoolOk(c, e.chain.pool) ==> PoolOk(c, e'.chain.pool))
  }

  lemma AddBlockPool(c: Crypto, ch: Chain, b: Block, ps: State)
    requires ch.head in ch.nodes && AddBlock(c, ch, b, ps).Ok? && PoolOk(c, ch.pool)
    ensures PoolOk(c, AddBlock(c, ch, b, ps).value.0.pool)
  {
    hide AddBlock, Sublist, Ordered;
    PoolAfterBlock(c, ch, b, ps);
    var (next, imported) := AddBlock(c, ch, b, ps).value;
    if imported.becameHead { SublistOrdered(c, next.pool, ch.pool); }
  }

  lemma {:induction false} ImportParkedConfined(c: Crypto, e: Engine, parent: Hash, ps: State)
    requires Live(e)
    ensures Confined(c, e, ImportParked(c, e, parent, ps).0)
    decreases |e.parked|, 0, 0
  {
    hide ImportAll, PoolOk;
    if parent in e.parked {
      assert (e.parked - {parent}).Keys == e.parked.Keys - {parent};
      ImportAllConfined(c, e.(parked := e.parked - {parent}), e.parked[parent], ps);
    }
  }

  lemma {:induction false} ImportAllConfined(c: Crypto, e: Engine, blocks: seq<ParkedBlock>, ps: State)
    requires Live(e)
    ensures Confined(c, e, ImportAll(c, e, blocks, ps).0)
    decreases |e.parked|, 2, |blocks|
  {
    hide ImportOne, PoolOk;
    if blocks != [] {
      ImportOneConfined(c, e, blocks[0].block, ps);
      ImportAllConfined(c, ImportOne(c, e, blocks[0].block, ps).0, blocks[1..], ps);
    }
  }

  lemma {:induction false} ImportOneConfined(c: Crypto, e: Engine, b: Block, ps: State)
    requires Live(e)
    ensures Confined(c, e, ImportOne(c, e, b, ps).0)
    decreases |e.parked|, 1, 0
  {
    hide AddBlock, BlockHash, ImportParked, PersistPair, PoolOk;
    var r := AddBlock(c, e.chain, b, ps);
    if r.Ok? {
      if PoolOk(c, e.chain.pool) { AddBlockPool(c, e.chain, b, ps); }
      if r.value.1.becameHead { ImportParkedConfined(c, e.(chain := r.value.0), BlockHash(c, b), r.value.1.nextState); }
    }
  }

  lemma IngestConfined(c: Crypto, e: Engine, peer: PeerId, b: Block)
    requires Live(e)
    ensures Confined(c, e, IngestBlock(c, e, peer, b).0)
  {
    hide AddBlock, BlockHash, ImportParked, PersistPair, PoolOk;
    var r := AddBlock(c, e.chain, b, e.chain.state);
    if r.Ok? {
      if PoolOk(c, e.chain.pool) { AddBlockPool(c, e.chain, b, e.chain.state); }
      if r.value.1.becameHead { ImportParkedConfined(c, e.(chain := r.value.0), BlockHash(c, b), r.value.1.nextState); }
    }
  }

  lemma {:induction false} IngestAllConfined(c: Crypto, e: Engine, peer: PeerId, blocks: seq<Block>)
    requires Live(e)
    ensures Confined(c, e, IngestAll(c, e, peer, blocks).0)
    decreases |blocks|
  {
    hide IngestBlock, PoolOk;
    if blocks != [] {
      var n := |blocks| - 1;
      IngestAllConfined(c, e, peer, blocks[..n]);
      IngestConfined(c, IngestAll(c, e, peer, blocks[..n]).0, peer, blocks[n]);
    }
  }

  /** A response ingests its blocks in order, completes exactly that peer's requests, and continues them. */
  lemma ResponseLaw(c: Crypto, e: Engine, peer: PeerId, blocks: seq<Block>, more: bool, next: Option<u64>)
    requires Live(e)
    ensures var e0 := e.(requests := RequestsNotOf(e.requests, peer)); var (e1, acts) := IngestAll(c, e0, peer, blocks);
            var further := if next.None? || next.value == 0 then [] else AllContinued(e1, RequestsOf(e.requests, peer), next.value);
            var all := acts + Asking(further);
            && e1 == e0.(chain := e1.chain, parked := e1.parked)
            && Becomes(c, e, FrameReceived(peer, Some(SyncResponse(blocks, more, next))), e1.(requests := e1.requests + further),
                       if all == [] then [FrameIgnored(peer)] else all)
  {
    hide EarliestDeadline, IngestAll, RequestsOf, RequestsNotOf, PoolOk, AllContinued, ContinueAll, Step, Becomes;
    var i := FrameReceived(peer, Some(SyncResponse(blocks, more, next)));
    ReactBecomes(c, e, i);
    var e0 := e.(requests := RequestsNotOf(e.requests, peer));
    IngestAllConfined(c, e0, peer, blocks);
    var (e1, acts) := IngestAll(c, e0, peer, blocks);
    if next.Some? { ContinueLaw(e1, RequestsOf(e.requests, peer), next.value); }
    assert Asking([]) == [] && e1.requests + [] == e1.requests && acts + [] == acts;
  }

  // ---------------------------------------------------------------- the pool and the peers over runs

  lemma ReactPool(c: Crypto, e: Engine, i: Input)
    requires Live(e) && PoolOk(c, e.chain.pool)
    ensures PoolOk(c, React(c, e, i).0.chain.pool)
  {
    hide PoolOk, AddTransaction, IngestBlock, IngestAll, ImportParked, StateFromBytes, Respond, ContinueAll, Expire, RequestsOf, RequestsNotOf;
    match i {
      case FrameReceived(peer, Some(AnnounceBlock(b))) => IngestConfined(c, e, peer, b);
      case FrameReceived(peer, Some(SyncResponse(blocks, _, _))) =>
        IngestAllConfined(c, e.(requests := RequestsNotOf(e.requests, peer)), peer, blocks);
      case FrameReceived(_, Some(AnnounceTransaction(t))) => OfferLaw(c, e.chain, t);
      case LocalTransactionSubmitted(t) => OfferLaw(c, e.chain, t);
      case StorageLoaded(h, Some(bytes)) =>
        var s := StateFromBytes(bytes);
        if s.Ok? { ImportParkedConfined(c, e, h, s.value); }
      case _ =>
    }
  }

  /** Over every run, crashes and restarts included, the pool is ordered, duplicate-free and within capacity. */
  lemma {:induction false} PoolLaw(c: Crypto, pc: Postcard, evs: seq<S.Event>)
    ensures PoolOk(c, S.Run(c, pc, evs).engine.chain.pool)
    decreases |evs|
  {
    hide S.Exec;
    if evs != [] {
      var n := |evs| - 1;
      PoolLaw(c, pc, evs[..n]);
      ExecPool(c, pc, S.Run(c, pc, evs[..n]), evs[n]);
    } else {
      hide BlockHash;
    }
  }

  lemma ExecPool(c: Crypto, pc: Postcard, n: S.Node, ev: S.Event)
    requires Live(n.engine) && PoolOk(c, n.engine.chain.pool)
    ensures PoolOk(c, S.Exec(c, pc, n, ev).engine.chain.pool)
  {
    hide React, StateFromBytes, Load, LatestBundle, Save, BlockHash, Merkle.StateRoot, EarliestDeadline;
    match ev {
      case Receive(i) => ReactPool(c, n.engine, i);
      case DeliverLoad(k) => if k < |n.loads| { ReactPool(c, n.engine, StorageLoaded(n.loads[k].0, n.loads[k].1)); }
      case _ =>
    }
  }

  /** Whether the last the engine heard of a peer is that it connected. */
  ghost predicate Heard(inputs: seq<Input>, p: PeerId) {
    inputs != [] &&
    match inputs[|inputs| - 1]
    case PeerConnected(q) => q == p || Heard(inputs[..|inputs| - 1], p)
    case PeerDisconnected(q) => q != p && Heard(inputs[..|inputs| - 1], p)
    case _ => Heard(inputs[..|inputs| - 1], p)
  }

  lemma ReactPeers(c: Crypto, e: Engine, i: Input)
    requires Live(e)
    ensures React(c, e, i).0.peers ==
              match i
              case PeerConnected(p) => e.peers[p := PeerState(true, 0)]
              case PeerDisconnected(p) => e.peers - {p}
              case _ => e.peers
  {
    hide PoolOk, AddTransaction, IngestBlock, IngestAll, ImportParked, StateFromBytes, Respond, ContinueAll, Expire, RequestsOf, RequestsNotOf;
    match i {
      case FrameReceived(peer, Some(AnnounceBlock(b))) => IngestConfined(c, e, peer, b);
      case FrameReceived(peer, Some(SyncResponse(blocks, _, next))) =>
        var e0 := e.(requests := RequestsNotOf(e.requests, peer));
        IngestAllConfined(c, e0, peer, blocks);
        if next.Some? { ContinueLaw(IngestAll(c, e0, peer, blocks).0, RequestsOf(e.requests, peer), next.value); }
      case StorageLoaded(h, Some(bytes)) =>
        var s := StateFromBytes(bytes);
        if s.Ok? { ImportParkedConfined(c, e, h, s.value); }
      case _ =>
    }
  }

  /** The engine takes as connected exactly the peers it last heard connect, so these are the ones gossip reaches. */
  lemma {:induction false} PeersLaw(c: Crypto, ch: Chain, inputs: seq<Input>, source: PeerId)
    requires ch.head in ch.nodes
    ensures forall p :: p in Others(P.Run(c, NewEngine(ch), inputs), source) <==> p != source && Heard(inputs, p)
    ensures forall p :: p in P.Run(c, NewEngine(ch), inputs).peers ==> P.Run(c, NewEngine(ch), inputs).peers[p].connected
    decreases |inputs|
  {
    hide React, EarliestDeadline;
    if inputs != [] {
      var n := |inputs| - 1;
      PeersLaw(c, ch, inputs[..n], source);
      ReactPeers(c, P.Run(c, NewEngine(ch), inputs[..n]), inputs[n]);
    }
  }

  // ---------------------------------------------------------------- nothing else is sent

  lemma {:induction false} FramesConcat(a: seq<Action>, b: seq<Action>)
    ensures Frames(a + b) == Frames(a) + Frames(b)
    decreases |b|
  {
    if b == [] {
      assert a + b == a;
    } else {
      var n := |b| - 1;
      assert (a + b)[..|a| + n] == a + b[..n] && (a + b)[|a| + n] == b[n];
      FramesConcat(a, b[..n]);
    }
  }

  /** Only actions that are no frames. */
  ghost predicate Frameless(acts: seq<Action>) {
    forall i :: 0 <= i < |acts| ==> !acts[i].SendFrame? && !acts[i].RelayFrames? && !acts[i].BroadcastFrame?
  }

  lemma {:induction false} FramelessFrames(acts: seq<Action>)
    requires Frameless(acts)
    ensures Frames(acts) == []
    decreases |acts|
  {
    if acts != [] { FramelessFrames(acts[..|acts| - 1]); }
  }

  lemma {:induction false} ReportsFrameless(c: Crypto, log: seq<P.Import>)
    ensures Frameless(P.Reports(c, log))
    decreases |log|
  {
    hide BlockHash, StateBytes;
    if log != [] { ReportsFrameless(c, log[1..]); }
  }

  lemma IngestFrameless(c: Crypto, e: Engine, peer: PeerId, b: Block)
    requires Live(e)
    ensures Frameless(IngestBlock(c, e, peer, b).1)
  {
    hide AddBlock, BlockHash, ImportParked, StateBytes, P.Reports;
    var r := AddBlock(c, e.chain, b, e.chain.state);
    if r.Ok? && r.value.1.becameHead {
      var log := P.ImportParkedAccount(c, e.(chain := r.value.0), BlockHash(c, b), r.value.1.nextState);
      ReportsFrameless(c, log);
    }
  }

  lemma {:induction false} IngestAllFrameless(c: Crypto, e: Engine, peer: PeerId, blocks: seq<Block>)
    requires Live(e)
    ensures Frameless(IngestAll(c, e, peer, blocks).1)
    decreases |blocks|
  {
    hide IngestBlock;
    if blocks != [] {
      var n := |blocks| - 1;
      IngestAllFrameless(c, e, peer, blocks[..n]);
      IngestFrameless(c, IngestAll(c, e, peer, blocks[..n]).0, peer, blocks[n]);
    }
  }

  /** No input but an announced or submitted transaction and a range asked for makes the engine send a frame. */
  lemma SilenceLaw(c: Crypto, e: Engine, i: Input)
    requires Live(e) && !i.LocalTransactionSubmitted?
    requires i.FrameReceived? && i.message.Some? ==> !i.message.value.AnnounceTransaction? && !i.message.value.SyncRequest?
    ensures Frames(Step(c, e, i).1) == []
  {
    hide React, Step, EarliestDeadline, Frames, Frameless;
    ReactBecomes(c, e, i);
    var (e1, acts) := React(c, e, i);
    var tail := WakeTail(e.wakeAtMs, EarliestDeadline(e1.requests));
    ReactFrameless(c, e, i);
    TailFrameless(e.wakeAtMs, EarliestDeadline(e1.requests));
    FramelessFrames(acts);
    FramelessFrames(tail);
    FramesConcat(acts, tail);
  }

  lemma TailFrameless(before: Option<u64>, after: Option<u64>)
    ensures Frameless(WakeTail(before, after))
  {
  }

  lemma ReactFrameless(c: Crypto, e: Engine, i: Input)
    requires Live(e) && !i.LocalTransactionSubmitted?
    requires i.FrameReceived? && i.message.Some? ==> !i.message.value.AnnounceTransaction? && !i.message.value.SyncRequest?
    ensures Frameless(React(c, e, i).1)
  {
    hide AddTransaction, IngestBlock, IngestAll, ImportParked, StateFromBytes, Respond, ContinueAll, Expire, RequestsOf, RequestsNotOf,
         P.Reports, P.AllParked, P.Imported;
    match i {
      case FrameReceived(peer, Some(AnnounceBlock(b))) => IngestFrameless(c, e, peer, b);
      case FrameReceived(peer, Some(SyncResponse(blocks, _, next))) =>
        var e0 := e.(requests := RequestsNotOf(e.requests, peer));
        IngestAllFrameless(c, e0, peer, blocks);
        if next.Some? { ContinueLaw(IngestAll(c, e0, peer, blocks).0, RequestsOf(e.requests, peer), next.value); }
      case StorageLoaded(h, Some(bytes)) =>
        var s := StateFromBytes(bytes);
        if s.Ok? {
          var log := P.ImportParkedAccount(c, e, h, s.value);
          ReportsFrameless(c, log);
        }
      case _ =>
    }
  }
}
