/**
 The replay invariant of the engine: every block in its tree was validated against the true state of its parent,
 its state is the true state of its head, and every snapshot it hands to storage is the true state of its block.
 */
module Replays {
  import opened Base
  import opened Models
  import opened Ledger
  import opened Snapshot
  import opened Chain
  import opened World
  import opened Delivery
  import opened Effects
  import opened Engine

  /** `bytes` is the snapshot of the true state of block `h`. */
  ghost predicate TrueSnapshot(c: Crypto, w: World, h: Hash, bytes: Bytes) {
    h in w.blocks && Replay(c, w, h).Some? && bytes == StateBytes(Replay(c, w, h).value)
  }

  /** `b` is, up to signatures, the recorded block of its hash, and is signed by its validator. */
  ghost predicate TrueBlock(c: Crypto, u: iset<Block>, w: World, b: Block) {
    b in u && BlockHash(c, b) in w.blocks && SameContent(w.blocks[BlockHash(c, b)], b) && SignedBlock(c, b)
  }

  ghost predicate TrueAction(c: Crypto, u: iset<Block>, w: World, a: Action) {
    match a
    case PersistBlock(b) => TrueBlock(c, u, w, b)
    case PersistSnapshot(h, bytes) => TrueSnapshot(c, w, h, bytes)
    case _ => true
  }

  /** A block followed by a snapshot under its hash. */
  ghost predicate PairAt(c: Crypto, acts: seq<Action>, i: int) {
    && 0 <= i && i + 1 < |acts| && acts[i].PersistBlock? && acts[i + 1].PersistSnapshot?
    && acts[i + 1].blockHash == BlockHash(c, acts[i].block)
  }

  /** Every block is handed to storage right before its snapshot, and every snapshot right after its block. */
  ghost predicate Paired(c: Crypto, acts: seq<Action>) {
    forall i {:trigger acts[i]} :: 0 <= i < |acts| ==>
      (acts[i].PersistBlock? ==> PairAt(c, acts, i)) && (acts[i].PersistSnapshot? ==> PairAt(c, acts, i - 1))
  }

  /** Every block the world gained was handed to storage. */
  ghost predicate Accounted(c: Crypto, w: World, w': World, acts: seq<Action>) {
    forall h :: h in w'.blocks ==> h in w.blocks || HandedOver(c, h, acts)
  }

  ghost predicate HandedOver(c: Crypto, h: Hash, acts: seq<Action>) {
    exists i :: 0 <= i < |acts| && acts[i].PersistBlock? && BlockHash(c, acts[i].block) == h
  }

  ghost predicate TrueActions(c: Crypto, u: iset<Block>, w: World, acts: seq<Action>) {
    Paired(c, acts) && forall i :: 0 <= i < |acts| ==> TrueAction(c, u, w, acts[i])
  }

  /** Parked blocks sit under their parent's hash. */
  ghost predicate ParkedRight(u: iset<Block>, parked: Parked) {
    forall h, i :: h in parked && 0 <= i < |parked[h]| ==> parked[h][i].block in u && parked[h][i].block.prev == h
  }

  ghost predicate WorldOk(c: Crypto, u: iset<Block>, w: World) {
    Sound(c, w) && (forall h :: h in w.blocks ==> w.blocks[h] in u)
  }

  /** The invariant: the engine's tree is valid and signed and lies in the world with the true state at its head. */
  ghost predicate EngineOk(c: Crypto, u: iset<Block>, w: World, root: Hash, e: Engine) {
    && WorldOk(c, u, w)
    && ValidTree(c, e.chain, root) && ChainIn(c, w, e.chain)
    && Validated(c, w, e.chain.nodes, root)
    && TreeAmong(e.chain.nodes, u)
    && SignedTree(c, e.chain.nodes)
    && ParkedRight(u, e.parked)
  }

  /** Every block of the tree but genesis is signed by its validator. */
  ghost predicate SignedTree(c: Crypto, nodes: Nodes) {
    forall h {:trigger nodes[h]} :: h in nodes && h != BlockHash(c, Genesis(c)) ==> SignedBlock(c, nodes[h].block)
  }

  lemma AmongAt(nodes: Nodes, u: iset<Block>, h: Hash)
    requires TreeAmong(nodes, u) && h in nodes
    ensures nodes[h].block in u
  {
  }

  lemma AmongGrows(nodes: Nodes, u: iset<Block>, h: Hash, b: Block)
    requires TreeAmong(nodes, u) && b.prev in nodes && b in u
    ensures TreeAmong(Grow(nodes, h, b), u)
  {
    GrowBlocks(nodes, h, b);
  }

  lemma SignedGrows(c: Crypto, nodes: Nodes, h: Hash, b: Block)
    requires SignedTree(c, nodes) && b.prev in nodes && SignedBlock(c, b)
    ensures SignedTree(c, Grow(nodes, h, b))
  {
    hide SignedBlock, BlockHash;
    GrowBlocks(nodes, h, b);
  }

  // ---------------------------------------------------------------- stability

  lemma TrueActionStable(c: Crypto, u: iset<Block>, w: World, w': World, a: Action)
    requires Extends(w, w') && TrueAction(c, u, w, a)
    ensures TrueAction(c, u, w', a)
  {
    hide SameContent, StateBytes, BlockHash, Replay;
    if a.PersistSnapshot? { ReplayStable(c, w, w', a.blockHash); }
  }

  lemma TrueActionsStable(c: Crypto, u: iset<Block>, w: World, w': World, acts: seq<Action>)
    requires Extends(w, w') && TrueActions(c, u, w, acts)
    ensures TrueActions(c, u, w', acts)
  {
    hide TrueAction;
    forall i | 0 <= i < |acts| ensures TrueAction(c, u, w', acts[i]) { TrueActionStable(c, u, w, w', acts[i]); }
  }

  lemma TrueActionsConcat(c: Crypto, u: iset<Block>, w: World, xs: seq<Action>, ys: seq<Action>)
    requires TrueActions(c, u, w, xs) && TrueActions(c, u, w, ys)
    ensures TrueActions(c, u, w, xs + ys)
  {
    hide TrueAction, Paired;
    PairedConcat(c, xs, ys);
  }

  lemma PairedConcat(c: Crypto, xs: seq<Action>, ys: seq<Action>)
    requires Paired(c, xs) && Paired(c, ys)
    ensures Paired(c, xs + ys)
  {
    hide BlockHash;
    var zs := xs + ys;
    forall i {:trigger zs[i]} | 0 <= i < |zs|
      ensures (zs[i].PersistBlock? ==> PairAt(c, zs, i)) && (zs[i].PersistSnapshot? ==> PairAt(c, zs, i - 1))
    {
      if i < |xs| { assert zs[i] == xs[i]; } else { assert zs[i] == ys[i - |xs|]; }
    }
  }

  lemma AccountedThen(c: Crypto, w: World, w1: World, w2: World, xs: seq<Action>, ys: seq<Action>)
    requires Accounted(c, w, w1, xs) && Accounted(c, w1, w2, ys)
    ensures Accounted(c, w, w2, xs + ys)
  {
    hide HandedOver;
    forall h | h in w2.blocks ensures h in w.blocks || HandedOver(c, h, xs + ys) {
      HandedOverEither(c, h, xs, ys);
    }
  }

  lemma HandedOverEither(c: Crypto, h: Hash, xs: seq<Action>, ys: seq<Action>)
    ensures HandedOver(c, h, xs) || HandedOver(c, h, ys) ==> HandedOver(c, h, xs + ys)
  {
    hide BlockHash;
    var zs := xs + ys;
    if HandedOver(c, h, xs) {
      var i :| 0 <= i < |xs| && xs[i].PersistBlock? && BlockHash(c, xs[i].block) == h;
      assert zs[i] == xs[i];
    } else if HandedOver(c, h, ys) {
      var i :| 0 <= i < |ys| && ys[i].PersistBlock? && BlockHash(c, ys[i].block) == h;
      assert zs[|xs| + i] == ys[i];
    }
  }

  /** Handing over more accounts for no less. */
  lemma AccountedMore(c: Crypto, w: World, w': World, xs: seq<Action>, ys: seq<Action>)
    requires Accounted(c, w, w', xs)
    ensures Accounted(c, w, w', xs + ys)
  {
    hide HandedOver;
    AccountedThen(c, w, w', w', xs, ys);
  }

  lemma PairTrue(c: Crypto, u: iset<Block>, w: World, b: Block, s: State)
    requires TrueBlock(c, u, w, b) && TrueSnapshot(c, w, BlockHash(c, b), StateBytes(s))
    ensures TrueActions(c, u, w, PersistPair(c, b, s)) && HandedOver(c, BlockHash(c, b), PersistPair(c, b, s))
  {
    hide BlockHash, TrueBlock, TrueSnapshot, StateBytes;
    assert PersistPair(c, b, s)[0] == PersistBlock(b);
  }

  /** Actions that persist nothing. */
  ghost predicate Quiet(acts: seq<Action>) {
    forall i :: 0 <= i < |acts| ==> !acts[i].PersistBlock? && !acts[i].PersistSnapshot?
  }

  lemma QuietTrue(c: Crypto, u: iset<Block>, w: World, acts: seq<Action>)
    requires Quiet(acts)
    ensures TrueActions(c, u, w, acts)
  {
    hide TrueBlock, TrueSnapshot;
  }

  // ---------------------------------------------------------------- one accepted block

  lemma AcceptOk(c: Crypto, u: iset<Block>, w: World, root: Hash, e: Engine, b: Block, ps: State)
    requires CollisionFree(c, u) && EngineOk(c, u, w, root, e) && b in u && Live(e)
    requires Replay(c, w, b.prev) == Some(ps)
    requires AddBlock(c, e.chain, b, ps).Ok?
    ensures var w' := Record(c, w, b); var (ch, imported) := AddBlock(c, e.chain, b, ps).value;
            && Extends(w, w')
            && EngineOk(c, u, w', root, e.(chain := ch))
            && TrueActions(c, u, w', PersistPair(c, b, imported.nextState))
            && Accounted(c, w, w', PersistPair(c, b, imported.nextState))
            && Replay(c, w', BlockHash(c, b)) == Some(imported.nextState)
  {
    hide AddBlock, BlockHash, Replay, SameContent, ValidTree, CollisionFree, ChainIn, Sound, ValidateAndApply,
         ParkedRight, StateBytes, Grow, Validated, TrueActions, HandedOver, PersistPair, SignedBlock, SignedTree, TreeAmong;
    var h := BlockHash(c, b);
    if h in w.blocks {
      SoundKeyed(c, w, h);
      SameHash(c, u, w.blocks[h], b);
    }
    if h in e.chain.nodes {
      TreeKeyed(c, e.chain, root);
      AmongAt(e.chain.nodes, u, h);
      SameHash(c, u, e.chain.nodes[h].block, b);
    }
    AddBlockValid(c, e.chain, root, b, ps);
    AcceptSound(c, w, e.chain, b, ps);
    AcceptedDescends(c, e.chain, b, ps);
    DescendsParent(e.chain.nodes, b);
    ValidatedGrows(c, w, Record(c, w, b), e.chain, root, b, ps);
    AcceptedSigned(c, e.chain.nodes[b.prev].block, ps, b);
    SignedGrows(c, e.chain.nodes, h, b);
    AmongGrows(e.chain.nodes, u, h, b);
    PairTrue(c, u, Record(c, w, b), b, AddBlock(c, e.chain, b, ps).value.1.nextState);
  }

  lemma AcceptedSigned(c: Crypto, p: Block, s: State, b: Block)
    requires ValidateAndApply(c, p, s, b).Ok?
    ensures SignedBlock(c, b)
  {
    hide ValidateAndApply, EncBlock;
    AcceptedSigner(c, p, s, b);
  }

  lemma SoundKeyed(c: Crypto, w: World, h: Hash)
    requires Sound(c, w) && h in w.blocks
    ensures BlockHash(c, w.blocks[h]) == h
  {
  }

  // ---------------------------------------------------------------- imports

  lemma {:induction false} ImportParkedOk(c: Crypto, u: iset<Block>, w: World, root: Hash, e: Engine, parent: Hash, ps: State)
    returns (w': World)
    requires CollisionFree(c, u) && EngineOk(c, u, w, root, e) && Live(e)
    requires Replay(c, w, parent) == Some(ps)
    ensures Extends(w, w') && EngineOk(c, u, w', root, ImportParked(c, e, parent, ps).0)
    ensures TrueActions(c, u, w', ImportParked(c, e, parent, ps).1)
    ensures Accounted(c, w, w', ImportParked(c, e, parent, ps).1)
    decreases |e.parked|, 0, 0
  {
    hide Replay, ValidTree, CollisionFree, ChainIn, WorldOk, TrueActions, Validated, HandedOver, SignedTree, TreeAmong;
    w' := w;
    NoActions(c, u, w);
    if parent in e.parked {
      assert (e.parked - {parent}).Keys == e.parked.Keys - {parent};
      var e1 := e.(parked := e.parked - {parent});
      w' := ImportAllOk(c, u, w, root, e1, e.parked[parent], parent, ps);
    }
  }

  lemma {:induction false} ImportAllOk(c: Crypto, u: iset<Block>, w: World, root: Hash, e: Engine, blocks: seq<ParkedBlock>,
                                       parent: Hash, ps: State)
    returns (w': World)
    requires CollisionFree(c, u) && EngineOk(c, u, w, root, e) && Live(e)
    requires Replay(c, w, parent) == Some(ps)
    requires forall i :: 0 <= i < |blocks| ==> blocks[i].block in u && blocks[i].block.prev == parent
    ensures Extends(w, w') && EngineOk(c, u, w', root, ImportAll(c, e, blocks, ps).0)
    ensures TrueActions(c, u, w', ImportAll(c, e, blocks, ps).1)
    ensures Accounted(c, w, w', ImportAll(c, e, blocks, ps).1)
    decreases |e.parked|, 2, |blocks|
  {
    hide Replay, CollisionFree, EngineOk, TrueActions, ImportOne;
    if blocks == [] {
      w' := w;
      NoActions(c, u, w);
    } else {
      var b := blocks[0].block;
      var w1 := ImportOneOk(c, u, w, root, e, b, ps);
      ReplayStable(c, w, w1, parent);
      var (e1, acts) := ImportOne(c, e, b, ps);
      w' := ImportAllOk(c, u, w1, root, e1, blocks[1..], parent, ps);
      ExtendsTransitive(w, w1, w');
      TrueActionsStable(c, u, w1, w', acts);
      TrueActionsConcat(c, u, w', acts, ImportAll(c, e1, blocks[1..], ps).1);
      AccountedThen(c, w, w1, w', acts, ImportAll(c, e1, blocks[1..], ps).1);
    }
  }

  lemma NoActions(c: Crypto, u: iset<Block>, w: World)
    ensures TrueActions(c, u, w, [])
  {
  }

  lemma {:induction false} ImportOneOk(c: Crypto, u: iset<Block>, w: World, root: Hash, e: Engine, b: Block, ps: State)
    returns (w': World)
    requires CollisionFree(c, u) && EngineOk(c, u, w, root, e) && Live(e) && b in u
    requires Replay(c, w, b.prev) == Some(ps)
    ensures Extends(w, w') && EngineOk(c, u, w', root, ImportOne(c, e, b, ps).0)
    ensures TrueActions(c, u, w', ImportOne(c, e, b, ps).1)
    ensures Accounted(c, w, w', ImportOne(c, e, b, ps).1)
    decreases |e.parked|, 1, 0
  {
    hide Replay, CollisionFree, EngineOk, AddBlock, BlockHash, PersistPair, TrueActions, HandedOver;
    w' := w;
    var r := AddBlock(c, e.chain, b, ps);
    if r.Err? {
      QuietTrue(c, u, w, [ReportEvent(FailedImportingParkedBlock)]);
    } else {
      AcceptOk(c, u, w, root, e, b, ps);
      var (ch, imported) := r.value;
      var w1 := Record(c, w, b);
      w' := w1;
      var pair := PersistPair(c, b, imported.nextState);
      if imported.becameHead {
        var e1 := e.(chain := ch);
        w' := ImportParkedOk(c, u, w1, root, e1, BlockHash(c, b), imported.nextState);
        ExtendsTransitive(w, w1, w');
        TrueActionsStable(c, u, w1, w', pair);
        TrueActionsConcat(c, u, w', pair, ImportParked(c, e1, BlockHash(c, b), imported.nextState).1);
        AccountedThen(c, w, w1, w', pair, ImportParked(c, e1, BlockHash(c, b), imported.nextState).1);
      } else {
        assert pair + [] == pair;
      }
    }
  }

  // ---------------------------------------------------------------- ingesting

  lemma ParkKeepsRight(u: iset<Block>, parked: Parked, peer: PeerId, b: Block)
    requires ParkedRight(u, parked) && b in u
    ensures ParkedRight(u, Park(parked, peer, b))
  {
  }

  lemma IngestOk(c: Crypto, u: iset<Block>, w: World, root: Hash, e: Engine, peer: PeerId, b: Block)
    returns (w': World)
    requires CollisionFree(c, u) && EngineOk(c, u, w, root, e) && Live(e) && b in u
    ensures Extends(w, w') && EngineOk(c, u, w', root, IngestBlock(c, e, peer, b).0)
    ensures TrueActions(c, u, w', IngestBlock(c, e, peer, b).1)
    ensures Accounted(c, w, w', IngestBlock(c, e, peer, b).1)
  {
    hide Replay, CollisionFree, WorldOk, ValidTree, AddBlock, BlockHash, PersistPair, ImportParked, Park, ParkedRight,
         SameContent, TrueActions, Validated, HandedOver;
    w' := w;
    if e.chain.head == b.prev {
      w' := IngestHeadOk(c, u, w, root, e, peer, b);
    } else {
      ParkKeepsRight(u, e.parked, peer, b);
      QuietTrue(c, u, w, [LoadSnapshot(b.prev)]);
    }
  }

  lemma IngestHeadOk(c: Crypto, u: iset<Block>, w: World, root: Hash, e: Engine, peer: PeerId, b: Block)
    returns (w': World)
    requires CollisionFree(c, u) && EngineOk(c, u, w, root, e) && Live(e) && b in u
    requires e.chain.head == b.prev
    ensures Extends(w, w') && EngineOk(c, u, w', root, IngestBlock(c, e, peer, b).0)
    ensures TrueActions(c, u, w', IngestBlock(c, e, peer, b).1)
    ensures Accounted(c, w, w', IngestBlock(c, e, peer, b).1)
  {
    hide Replay, CollisionFree, EngineOk, AddBlock, BlockHash, PersistPair, ImportParked, Park, TrueActions, HandedOver;
    HeadState(c, u, w, root, e);
    w' := w;
    var r := AddBlock(c, e.chain, b, e.chain.state);
    if r.Err? {
      QuietTrue(c, u, w, [ReportEvent(FailedImportingBlock)]);
    } else {
      AcceptOk(c, u, w, root, e, b, e.chain.state);
      var (ch, imported) := r.value;
      var e1 := e.(chain := ch);
      var w1 := Record(c, w, b);
      w' := w1;
      var pair := PersistPair(c, b, imported.nextState);
      var added := [ReportEvent(BlockAdded)];
      QuietTrue(c, u, w1, added);
      AccountedMore(c, w, w1, pair, added);
      if imported.becameHead {
        w' := ImportParkedOk(c, u, w1, root, e1, BlockHash(c, b), imported.nextState);
        ExtendsTransitive(w, w1, w');
        TrueActionsConcat(c, u, w1, pair, added);
        TrueActionsStable(c, u, w1, w', pair + added);
        TrueActionsConcat(c, u, w', pair + added, ImportParked(c, e1, BlockHash(c, b), imported.nextState).1);
        AccountedThen(c, w, w1, w', pair + added, ImportParked(c, e1, BlockHash(c, b), imported.nextState).1);
      } else {
        TrueActionsConcat(c, u, w', pair, added);
        assert pair + added + [] == pair + added;
      }
    }
  }

  lemma HeadState(c: Crypto, u: iset<Block>, w: World, root: Hash, e: Engine)
    requires EngineOk(c, u, w, root, e)
    ensures Replay(c, w, e.chain.head) == Some(e.chain.state)
  {
  }

  lemma {:induction false} IngestAllOk(c: Crypto, u: iset<Block>, w: World, root: Hash, e: Engine, peer: PeerId, blocks: seq<Block>)
    returns (w': World)
    requires CollisionFree(c, u) && EngineOk(c, u, w, root, e) && Live(e)
    requires forall i :: 0 <= i < |blocks| ==> blocks[i] in u
    ensures Extends(w, w') && EngineOk(c, u, w', root, IngestAll(c, e, peer, blocks).0)
    ensures TrueActions(c, u, w', IngestAll(c, e, peer, blocks).1)
    ensures Accounted(c, w, w', IngestAll(c, e, peer, blocks).1)
    decreases |blocks|
  {
    hide CollisionFree, EngineOk, TrueActions, IngestBlock;
    if blocks == [] {
      w' := w;
      NoActions(c, u, w);
    } else {
      var n := |blocks| - 1;
      var w1 := IngestAllOk(c, u, w, root, e, peer, blocks[..n]);
      var (e1, acts) := IngestAll(c, e, peer, blocks[..n]);
      w' := IngestOk(c, u, w1, root, e1, peer, blocks[n]);
      ExtendsTransitive(w, w1, w');
      TrueActionsStable(c, u, w1, w', acts);
      TrueActionsConcat(c, u, w', acts, IngestBlock(c, e1, peer, blocks[n]).1);
      AccountedThen(c, w, w1, w', acts, IngestBlock(c, e1, peer, blocks[n]).1);
    }
  }

  // ---------------------------------------------------------------- every input

  /** Blocks come from the collision-free universe, and storage returns only true snapshots. */
  ghost predicate LegalMessage(u: iset<Block>, m: Message) {
    match m
    case AnnounceBlock(b) => b in u
    case SyncResponse(blocks, _, _) => forall i :: 0 <= i < |blocks| ==> blocks[i] in u
    case _ => true
  }

  ghost predicate LegalInput(c: Crypto, u: iset<Block>, w: World, i: Input) {
    match i
    case FrameReceived(_, Some(m)) => LegalMessage(u, m)
    case StorageLoaded(h, Some(bytes)) => TrueSnapshot(c, w, h, bytes)
    case _ => true
  }

  /** Nothing but the chain, the parked blocks and the world matters to the invariant. */
  lemma SameChainOk(c: Crypto, u: iset<Block>, w: World, root: Hash, e: Engine, e': Engine)
    requires EngineOk(c, u, w, root, e)
    requires e'.chain.nodes == e.chain.nodes && e'.chain.head == e.chain.head && e'.chain.state == e.chain.state
    requires e'.parked == e.parked
    ensures EngineOk(c, u, w, root, e')
  {
    hide Sound, Replay, SameContent, Keyed, Rooted, ChildrenExact, Above, Validated, SignedTree, TreeAmong;
  }

  lemma {:induction false} ContinueAllQuiet(e: Engine, done: seq<PendingRequest>, next: u64)
    ensures Quiet(ContinueAll(e, done, next).1)
    decreases |done|
  {
    if done != [] { ContinueAllQuiet(e, done[..|done| - 1], next); }
  }

  lemma SyncResponseOk(c: Crypto, u: iset<Block>, w: World, root: Hash, e: Engine, peer: PeerId, blocks: seq<Block>, next: Option<u64>)
    returns (w': World)
    requires CollisionFree(c, u) && EngineOk(c, u, w, root, e) && Live(e)
    requires forall i :: 0 <= i < |blocks| ==> blocks[i] in u
    ensures Extends(w, w') && EngineOk(c, u, w', root, OnSyncResponse(c, e, peer, blocks, next).0)
    ensures TrueActions(c, u, w', OnSyncResponse(c, e, peer, blocks, next).1)
    ensures Accounted(c, w, w', OnSyncResponse(c, e, peer, blocks, next).1)
  {
    hide CollisionFree, EngineOk, IngestAll, ContinueAll, RequestsOf, RequestsNotOf, TrueActions, HandedOver;
    var done := RequestsOf(e.requests, peer);
    var e0 := e.(requests := RequestsNotOf(e.requests, peer));
    SameChainOk(c, u, w, root, e, e0);
    w' := IngestAllOk(c, u, w, root, e0, peer, blocks);
    var (e1, acts) := IngestAll(c, e0, peer, blocks);
    if next.Some? {
      ContinueAllQuiet(e1, done, next.value);
      QuietTrue(c, u, w', ContinueAll(e1, done, next.value).1);
      SameChainOk(c, u, w', root, e1, ContinueAll(e1, done, next.value).0);
      TrueActionsConcat(c, u, w', acts, ContinueAll(e1, done, next.value).1);
      AccountedMore(c, w, w', acts, ContinueAll(e1, done, next.value).1);
    } else {
      assert acts + [] == acts;
    }
    QuietTrue(c, u, w', [FrameIgnored(peer)]);
    if acts + (if next.Some? then ContinueAll(e1, done, next.value).1 else []) == [] {
      AccountedMore(c, w, w', acts, [FrameIgnored(peer)]);
      assert acts == [] && acts + [FrameIgnored(peer)] == [FrameIgnored(peer)];
    }
  }

  lemma MessageOk(c: Crypto, u: iset<Block>, w: World, root: Hash, e: Engine, peer: PeerId, m: Message) returns (w': World)
    requires CollisionFree(c, u) && EngineOk(c, u, w, root, e) && Live(e) && LegalMessage(u, m)
    ensures Extends(w, w') && EngineOk(c, u, w', root, OnMessage(c, e, peer, m).0)
    ensures TrueActions(c, u, w', OnMessage(c, e, peer, m).1)
    ensures Accounted(c, w, w', OnMessage(c, e, peer, m).1)
  {
    hide CollisionFree, EngineOk, IngestBlock, OnSyncResponse, AddTransaction, Respond, TrueActions, HandedOver;
    w' := w;
    match m {
      case AnnounceBlock(b) => w' := IngestOk(c, u, w, root, e, peer, b);
      case SyncResponse(blocks, _, next) => w' := SyncResponseOk(c, u, w, root, e, peer, blocks, next);
      case AnnounceTransaction(t) =>
        SameChainOk(c, u, w, root, e, e.(chain := AddTransaction(c, e.chain, t).0));
        QuietTrue(c, u, w, OnMessage(c, e, peer, m).1);
      case SyncRequest(_, _) => QuietTrue(c, u, w, OnMessage(c, e, peer, m).1);
      case AnnounceResponse(_) => QuietTrue(c, u, w, OnMessage(c, e, peer, m).1);
    }
  }

  lemma StorageOk(c: Crypto, u: iset<Block>, w: World, root: Hash, e: Engine, h: Hash, bytes: Option<Bytes>) returns (w': World)
    requires CollisionFree(c, u) && EngineOk(c, u, w, root, e) && Live(e)
    requires bytes.Some? ==> TrueSnapshot(c, w, h, bytes.value)
    ensures Extends(w, w') && EngineOk(c, u, w', root, OnStorageLoaded(c, e, h, bytes).0)
    ensures TrueActions(c, u, w', OnStorageLoaded(c, e, h, bytes).1)
    ensures Accounted(c, w, w', OnStorageLoaded(c, e, h, bytes).1)
  {
    hide CollisionFree, EngineOk, ImportParked, StateFromBytes, StateBytes, Replay, TrueActions, HandedOver;
    w' := w;
    if h !in e.parked || e.parked[h] == [] {
      QuietTrue(c, u, w, OnStorageLoaded(c, e, h, bytes).1);
    } else {
      if bytes.Some? {
        var s := Replay(c, w, h).value;
        StateRoundTrip(s, []);
        assert StateBytes(s) + [] == StateBytes(s);
        w' := ImportParkedOk(c, u, w, root, e, h, s);
      } else {
        SameChainOk(c, u, w, root, e, OnStorageLoaded(c, e, h, bytes).0);
        QuietTrue(c, u, w, OnStorageLoaded(c, e, h, bytes).1);
      }
    }
  }

  lemma ReactOk(c: Crypto, u: iset<Block>, w: World, root: Hash, e: Engine, i: Input) returns (w': World)
    requires CollisionFree(c, u) && EngineOk(c, u, w, root, e) && Live(e) && LegalInput(c, u, w, i)
    ensures Extends(w, w') && EngineOk(c, u, w', root, React(c, e, i).0)
    ensures TrueActions(c, u, w', React(c, e, i).1)
    ensures Accounted(c, w, w', React(c, e, i).1)
  {
    hide CollisionFree, EngineOk, OnMessage, OnStorageLoaded, AddTransaction, Expire, RequestsNotOf, TrueActions, HandedOver;
    w' := w;
    if i.StorageLoaded? {
      w' := StorageOk(c, u, w, root, e, i.blockHash, i.stateBytes);
    } else if i.FrameReceived? && i.message.Some? {
      w' := MessageOk(c, u, w, root, e, i.peer, i.message.value);
    } else {
      SameChainOk(c, u, w, root, e, React(c, e, i).0);
      QuietTrue(c, u, w, React(c, e, i).1);
    }
  }

  /** Replay invariant: every step keeps it, and every snapshot and block it persists is true. */
  lemma StepOk(c: Crypto, u: iset<Block>, w: World, root: Hash, e: Engine, i: Input) returns (w': World)
    requires CollisionFree(c, u) && EngineOk(c, u, w, root, e) && Live(e) && LegalInput(c, u, w, i)
    ensures Extends(w, w') && EngineOk(c, u, w', root, Step(c, e, i).0)
    ensures TrueActions(c, u, w', Step(c, e, i).1)
    ensures Accounted(c, w, w', Step(c, e, i).1)
  {
    hide CollisionFree, EngineOk, React, EarliestDeadline, TrueActions, HandedOver;
    w' := ReactOk(c, u, w, root, e, i);
    var (e1, acts) := React(c, e, i);
    SameChainOk(c, u, w', root, e1, SyncWake(e1).0);
    QuietTrue(c, u, w', SyncWake(e1).1);
    TrueActionsConcat(c, u, w', acts, SyncWake(e1).1);
    AccountedMore(c, w, w', acts, SyncWake(e1).1);
  }
}
