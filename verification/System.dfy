/**
 Whole runs of a node: the engine, the storage worker with its queue of flash writes, snapshot loads in flight, and
 crashes at any point between two writes.  However the events interleave, the engine's state is the true replay of its
 head, and what is on flash is always safe to restart from.
 */
module System {
  import opened Base
  import opened Models
  import opened Ledger
  import opened Snapshot
  import opened Chain
  import opened World
  import opened Delivery
  import opened Engine
  import opened Replays
  import opened Nvs

  /** One flash write. */
  datatype Write =
    | BlockWrite(block: Block)
    | SnapshotWrite(hash: Hash, bytes: Bytes)
    | PointerWrite(hash: Hash)

  function ActionWrites(a: Action): (r: seq<Write>) {
    match a
    case PersistBlock(b) => [BlockWrite(b)]
    case PersistSnapshot(h, bytes) => [SnapshotWrite(h, bytes), PointerWrite(h)]
    case _ => []
  }

  function Writes(acts: seq<Action>): (r: seq<Write>) {
    if acts == [] then [] else Writes(acts[..|acts| - 1]) + ActionWrites(acts[|acts| - 1])
  }

  function Perform(c: Crypto, pc: Postcard, kv: Store, w: Write): (r: Result<Store, StorageError>) {
    match w
    case BlockWrite(b) => SaveBlock(c, pc, kv, b)
    case SnapshotWrite(h, bytes) => SaveSnapshotBlob(kv, h, bytes)
    case PointerWrite(h) => Ok(WritePointer(kv, h))
  }

  /** A node: its engine, its flash, whether its storage worker is running, the writes still queued, the snapshot
      results on their way to the engine, and the startup bundle on its way to the engine. */
  datatype Node = Node(
    engine: Engine,
    kv: Store,
    storageUp: bool,
    queue: seq<Write>,
    loads: seq<(Hash, Option<Bytes>)>,
    latest: Option<(Block, Bytes)>)

  datatype Event =
    | Receive(input: Input)
    | PersistNext
    | ReadSnapshot(hash: Hash)
    | DeliverLoad(index: nat)
    | ReadLatest
    | RestoreLatest
    | Crash

  function Boot(c: Crypto, kv: Store): (r: Node) {
    Node(NewEngine(NewChain(c)), kv, true, [], [], None)
  }

  function StepNode(c: Crypto, n: Node, i: Input): (r: Node)
    requires Live(n.engine)
    ensures Live(r.engine)
  {
    var (e, acts) := Step(c, n.engine, i);
    n.(engine := e, queue := n.queue + Writes(acts))
  }

  /** The storage worker stops at its first error. */
  function PersistOne(c: Crypto, pc: Postcard, n: Node): (r: Node)
    ensures r.engine == n.engine
  {
    if !n.storageUp || n.queue == [] then n else
      match Perform(c, pc, n.kv, n.queue[0])
      case Ok(kv) => n.(kv := kv, queue := n.queue[1..])
      case Err(_) => n.(storageUp := false)
  }

  function ReadOne(n: Node, h: Hash): (r: Node)
    ensures r.engine == n.engine
  {
    if !n.storageUp then n else
      match Load(n.kv, SNAPSHOT_KEY_PREFIX, h, 0)
      case Ok(bytes) => n.(loads := n.loads + [(h, bytes)])
      case Err(_) => n.(storageUp := false)
  }

  function RestoreNode(c: Crypto, n: Node): (r: Node)
    requires Live(n.engine)
    ensures Live(r.engine)
  {
    match n.latest
    case None => n.(engine := Restore(c, n.engine, None, None).0)
    case Some((b, bytes)) => n.(engine := Restore(c, n.engine, Some(b), Some(bytes)).0)
  }

  function Exec(c: Crypto, pc: Postcard, n: Node, ev: Event): (r: Node)
    requires Live(n.engine)
    ensures Live(r.engine)
  {
    match ev
    case Receive(i) => if i.StorageLoaded? then n else StepNode(c, n, i)
    case PersistNext => PersistOne(c, pc, n)
    case ReadSnapshot(h) => ReadOne(n, h)
    case DeliverLoad(k) => if k < |n.loads| then StepNode(c, n, StorageLoaded(n.loads[k].0, n.loads[k].1)) else n
    case ReadLatest => n.(latest := LatestBundle(c, pc, n.kv))
    case RestoreLatest => RestoreNode(c, n)
    case Crash => Boot(c, n.kv)
  }

  function Run(c: Crypto, pc: Postcard, evs: seq<Event>): (r: Node)
    ensures Live(r.engine)
  {
    if evs == [] then Boot(c, map[]) else Exec(c, pc, Run(c, pc, evs[..|evs| - 1]), evs[|evs| - 1])
  }

  /** What the engine emits in an event. */
  function EventActions(c: Crypto, n: Node, ev: Event): (r: seq<Action>)
    requires Live(n.engine)
  {
    match ev
    case Receive(i) => if i.StorageLoaded? then [] else Step(c, n.engine, i).1
    case DeliverLoad(k) => if k < |n.loads| then Step(c, n.engine, StorageLoaded(n.loads[k].0, n.loads[k].1)).1 else []
    case _ => []
  }

  /** Every action the engine emitted in a run, over all restarts. */
  function Emitted(c: Crypto, pc: Postcard, evs: seq<Event>): (r: seq<Action>) {
    if evs == [] then []
    else Emitted(c, pc, evs[..|evs| - 1]) + EventActions(c, Run(c, pc, evs[..|evs| - 1]), evs[|evs| - 1])
  }

  // ---------------------------------------------------------------- the invariant

  ghost function Origin(c: Crypto): (r: World) {
    World(BlockHash(c, Genesis(c)), EMPTY_STATE, map[BlockHash(c, Genesis(c)) := Genesis(c)])
  }

  ghost predicate TrueWrite(c: Crypto, u: iset<Block>, w: World, x: Write) {
    match x
    case BlockWrite(b) => TrueBlock(c, u, w, b)
    case SnapshotWrite(h, bytes) => TrueSnapshot(c, w, h, bytes)
    case PointerWrite(_) => true
  }

  /** What the flash holds under a hash is true. */
  ghost predicate TrueStore(c: Crypto, pc: Postcard, u: iset<Block>, w: World, kv: Store) {
    && Compact(kv)
    && (forall h: Hash :: TrueSlot(c, pc, u, w, h, Lookup(kv, BLOCK_KEY_PREFIX, h), Lookup(kv, SNAPSHOT_KEY_PREFIX, h)))
  }

  ghost predicate TrueSlot(c: Crypto, pc: Postcard, u: iset<Block>, w: World, h: Hash, block: Option<Bytes>, snapshot: Option<Bytes>) {
    && (block.Some? ==>
          && pc.decode(block.value).Some? && BlockHash(c, pc.decode(block.value).value) == h
          && TrueBlock(c, u, w, pc.decode(block.value).value))
    && (snapshot.Some? ==> TrueSnapshot(c, w, h, snapshot.value))
  }

  ghost predicate TrueLoads(c: Crypto, w: World, loads: seq<(Hash, Option<Bytes>)>) {
    forall i :: 0 <= i < |loads| ==> loads[i].1.Some? ==> TrueSnapshot(c, w, loads[i].0, loads[i].1.value)
  }

  ghost predicate TrueBundle(c: Crypto, u: iset<Block>, w: World, b: Block, bytes: Bytes) {
    TrueBlock(c, u, w, b) && TrueSnapshot(c, w, BlockHash(c, b), bytes)
  }

  /** Every pointer in the queue comes after the block and the snapshot it names, given those already stored. */
  ghost predicate Backed(c: Crypto, blocks: iset<Hash>, snapshots: iset<Hash>, q: seq<Write>)
    decreases |q|
  {
    q == [] ||
    match q[0]
    case BlockWrite(b) => Backed(c, blocks + iset{BlockHash(c, b)}, snapshots, q[1..])
    case SnapshotWrite(h, _) => Backed(c, blocks, snapshots + iset{h}, q[1..])
    case PointerWrite(h) => h in blocks && h in snapshots && Backed(c, blocks, snapshots, q[1..])
  }

  ghost function Stored(kv: Store, p: char): (r: iset<Hash>) {
    iset h: Hash | Lookup(kv, p, h).Some?
  }

  /** The pointer, once written, names a stored block and a stored snapshot. */
  ghost predicate PointerBacked(kv: Store) {
    LATEST_SNAPSHOT_KEY in kv ==>
      && |kv[LATEST_SNAPSHOT_KEY]| == 32
      && Lookup(kv, BLOCK_KEY_PREFIX, kv[LATEST_SNAPSHOT_KEY]).Some?
      && Lookup(kv, SNAPSHOT_KEY_PREFIX, kv[LATEST_SNAPSHOT_KEY]).Some?
  }

  ghost predicate OrderedStore(c: Crypto, kv: Store, q: seq<Write>) {
    PointerBacked(kv) && Backed(c, Stored(kv, BLOCK_KEY_PREFIX), Stored(kv, SNAPSHOT_KEY_PREFIX), q)
  }

  ghost predicate TrueQueue(c: Crypto, u: iset<Block>, w: World, q: seq<Write>) {
    forall i :: 0 <= i < |q| ==> TrueWrite(c, u, w, q[i])
  }

  ghost predicate GenesisWorld(c: Crypto, w: World) { Extends(Origin(c), w) }

  ghost predicate NodeOk(c: Crypto, pc: Postcard, u: iset<Block>, w: World, root: Hash, n: Node) {
    && GenesisWorld(c, w)
    && EngineOk(c, u, w, root, n.engine)
    && TrueStore(c, pc, u, w, n.kv)
    && OrderedStore(c, n.kv, n.queue)
    && TrueQueue(c, u, w, n.queue)
    && TrueLoads(c, w, n.loads)
    && (n.latest.Some? ==> TrueBundle(c, u, w, n.latest.value.0, n.latest.value.1))
  }

  // ---------------------------------------------------------------- stability in a growing world

  lemma TrueBlockStable(c: Crypto, u: iset<Block>, w: World, w': World, b: Block)
    requires Extends(w, w') && TrueBlock(c, u, w, b)
    ensures TrueBlock(c, u, w', b)
  {
    hide BlockHash, SameContent;
  }

  lemma TrueSnapshotStable(c: Crypto, w: World, w': World, h: Hash, bytes: Bytes)
    requires Extends(w, w') && TrueSnapshot(c, w, h, bytes)
    ensures TrueSnapshot(c, w', h, bytes)
  {
    hide Replay, StateBytes;
    ReplayStable(c, w, w', h);
  }

  lemma TrueStoreStable(c: Crypto, pc: Postcard, u: iset<Block>, w: World, w': World, kv: Store)
    requires Extends(w, w') && TrueStore(c, pc, u, w, kv)
    ensures TrueStore(c, pc, u, w', kv)
  {
    hide Lookup, Compact, TrueBlock, TrueSnapshot, BlockHash, Extends;
    forall h: Hash
      ensures TrueSlot(c, pc, u, w', h, Lookup(kv, BLOCK_KEY_PREFIX, h), Lookup(kv, SNAPSHOT_KEY_PREFIX, h))
    {
      var b, s := Lookup(kv, BLOCK_KEY_PREFIX, h), Lookup(kv, SNAPSHOT_KEY_PREFIX, h);
      assert TrueSlot(c, pc, u, w, h, b, s);
      if b.Some? { TrueBlockStable(c, u, w, w', pc.decode(b.value).value); }
      if s.Some? { TrueSnapshotStable(c, w, w', h, s.value); }
    }
  }

  lemma TrueWriteStable(c: Crypto, u: iset<Block>, w: World, w': World, x: Write)
    requires Extends(w, w') && TrueWrite(c, u, w, x)
    ensures TrueWrite(c, u, w', x)
  {
    hide TrueBlock, TrueSnapshot, Extends;
    match x {
      case BlockWrite(b) => TrueBlockStable(c, u, w, w', b);
      case SnapshotWrite(h, bytes) => TrueSnapshotStable(c, w, w', h, bytes);
      case PointerWrite(_) =>
    }
  }

  lemma WorldGrows(c: Crypto, pc: Postcard, u: iset<Block>, w: World, w': World, n: Node)
    requires Extends(w, w') && GenesisWorld(c, w) && TrueStore(c, pc, u, w, n.kv)
    requires TrueQueue(c, u, w, n.queue) && TrueLoads(c, w, n.loads)
    requires n.latest.Some? ==> TrueBundle(c, u, w, n.latest.value.0, n.latest.value.1)
    ensures GenesisWorld(c, w') && TrueStore(c, pc, u, w', n.kv)
    ensures TrueQueue(c, u, w', n.queue) && TrueLoads(c, w', n.loads)
    ensures n.latest.Some? ==> TrueBundle(c, u, w', n.latest.value.0, n.latest.value.1)
  {
    hide TrueStore, TrueBlock, TrueSnapshot, TrueWrite, Extends, BlockHash;
    ExtendsTransitive(Origin(c), w, w');
    TrueStoreStable(c, pc, u, w, w', n.kv);
    forall i | 0 <= i < |n.queue| ensures TrueWrite(c, u, w', n.queue[i]) { TrueWriteStable(c, u, w, w', n.queue[i]); }
    forall i | 0 <= i < |n.loads| && n.loads[i].1.Some?
      ensures TrueSnapshot(c, w', n.loads[i].0, n.loads[i].1.value)
    {
      TrueSnapshotStable(c, w, w', n.loads[i].0, n.loads[i].1.value);
    }
    if n.latest.Some? {
      TrueBlockStable(c, u, w, w', n.latest.value.0);
      TrueSnapshotStable(c, w, w', BlockHash(c, n.latest.value.0), n.latest.value.1);
    }
  }

  // ---------------------------------------------------------------- the order of writes

  lemma {:induction false} BackedMonotone(c: Crypto, b: iset<Hash>, s: iset<Hash>, b': iset<Hash>, s': iset<Hash>, q: seq<Write>)
    requires b <= b' && s <= s' && Backed(c, b, s, q)
    ensures Backed(c, b', s', q)
    decreases |q|
  {
    hide BlockHash;
    if q != [] {
      match q[0] {
        case BlockWrite(x) => BackedMonotone(c, b + iset{BlockHash(c, x)}, s, b' + iset{BlockHash(c, x)}, s', q[1..]);
        case SnapshotWrite(h, _) => BackedMonotone(c, b, s + iset{h}, b', s' + iset{h}, q[1..]);
        case PointerWrite(h) => BackedMonotone(c, b, s, b', s', q[1..]);
      }
    }
  }

  lemma {:induction false} BackedConcat(c: Crypto, b: iset<Hash>, s: iset<Hash>, q: seq<Write>, x: seq<Write>)
    requires Backed(c, b, s, q) && Backed(c, iset{}, iset{}, x)
    ensures Backed(c, b, s, q + x)
    decreases |q|
  {
    hide BlockHash;
    if q == [] {
      assert q + x == x;
      BackedMonotone(c, iset{}, iset{}, b, s, x);
    } else {
      assert (q + x)[0] == q[0] && (q + x)[1..] == q[1..] + x;
      match q[0] {
        case BlockWrite(y) => BackedConcat(c, b + iset{BlockHash(c, y)}, s, q[1..], x);
        case SnapshotWrite(h, _) => BackedConcat(c, b, s + iset{h}, q[1..], x);
        case PointerWrite(h) => BackedConcat(c, b, s, q[1..], x);
      }
    }
  }

  /** The writes of one step name only what they wrote. */
  lemma {:induction false} StepWritesBacked(c: Crypto, acts: seq<Action>)
    requires Paired(c, acts)
    ensures Backed(c, iset{}, iset{}, Writes(acts))
    decreases |acts|
  {
    hide BlockHash, Backed, ActionWrites, Writes;
    if acts == [] {
      NothingBacked(c);
    } else {
      var n := |acts| - 1;
      var last := acts[n];
      if last.PersistSnapshot? {
        var b := acts[n - 1].block;
        var triple := [BlockWrite(b)] + [SnapshotWrite(last.blockHash, last.stateBytes), PointerWrite(last.blockHash)];
        WritesPair(acts);
        StepWritesBacked(c, acts[..n - 1]);
        TripleBacked(c, b, last.blockHash, last.stateBytes);
        BackedConcat(c, iset{}, iset{}, Writes(acts[..n - 1]), triple);
      } else {
        StepWritesBacked(c, acts[..n]);
        PlainBacked(c, last);
        BackedConcat(c, iset{}, iset{}, Writes(acts[..n]), ActionWrites(last));
        WritesLast(acts);
      }
    }
  }

  lemma NothingBacked(c: Crypto)
    ensures Backed(c, iset{}, iset{}, Writes([]))
  {
  }

  lemma WritesLast(acts: seq<Action>)
    requires acts != []
    ensures Writes(acts) == Writes(acts[..|acts| - 1]) + ActionWrites(acts[|acts| - 1])
  {
  }

  lemma WritesPair(acts: seq<Action>)
    requires |acts| >= 2 && acts[|acts| - 2].PersistBlock? && acts[|acts| - 1].PersistSnapshot?
    ensures var n := |acts| - 1; var last := acts[n];
            Writes(acts) == Writes(acts[..n - 1])
              + ([BlockWrite(acts[n - 1].block)] + [SnapshotWrite(last.blockHash, last.stateBytes), PointerWrite(last.blockHash)])
  {
    var n := |acts| - 1;
    assert acts[..n][..n - 1] == acts[..n - 1];
    assert Writes(acts[..n]) == Writes(acts[..n - 1]) + [BlockWrite(acts[n - 1].block)];
  }

  lemma PlainBacked(c: Crypto, a: Action)
    requires !a.PersistSnapshot?
    ensures Backed(c, iset{}, iset{}, ActionWrites(a))
  {
    hide BlockHash;
  }

  lemma TripleBacked(c: Crypto, b: Block, h: Hash, bytes: Bytes)
    requires BlockHash(c, b) == h
    ensures Backed(c, iset{}, iset{}, [BlockWrite(b)] + [SnapshotWrite(h, bytes), PointerWrite(h)])
  {
    hide BlockHash;
    var q := [BlockWrite(b)] + [SnapshotWrite(h, bytes), PointerWrite(h)];
    assert q[1..] == [SnapshotWrite(h, bytes), PointerWrite(h)];
    assert q[1..][1..] == [PointerWrite(h)];
    assert Backed(c, iset{} + iset{h}, iset{} + iset{h}, [PointerWrite(h)]);
  }

  lemma {:induction false} StepWritesTrue(c: Crypto, u: iset<Block>, w: World, acts: seq<Action>)
    requires forall i :: 0 <= i < |acts| ==> TrueAction(c, u, w, acts[i])
    ensures TrueQueue(c, u, w, Writes(acts))
    decreases |acts|
  {
    hide TrueBlock, TrueSnapshot;
    if acts != [] {
      var n := |acts| - 1;
      StepWritesTrue(c, u, w, acts[..n]);
      assert TrueAction(c, u, w, acts[n]);
    }
  }

  // ---------------------------------------------------------------- every event keeps the invariant

  lemma StepNodeOk(c: Crypto, pc: Postcard, u: iset<Block>, w: World, root: Hash, n: Node, i: Input, log: seq<Action>) returns (w': World)
    requires CollisionFree(c, u) && NodeOk(c, pc, u, w, root, n) && Live(n.engine) && LegalInput(c, u, w, i)
    requires HistoryOk(c, pc, u, w, n, log)
    ensures NodeOk(c, pc, u, w', root, StepNode(c, n, i))
    ensures HistoryOk(c, pc, u, w', StepNode(c, n, i), log + Step(c, n.engine, i).1)
  {
    hide CollisionFree, EngineOk, Step, TrueStore, TrueAction, TrueWrite, TrueLoads, TrueBundle, GenesisWorld, PointerBacked,
         Stored, Backed, LegalInput, HistoryOk, Accounted;
    w' := StepOk(c, u, w, root, n.engine, i);
    var acts := Step(c, n.engine, i).1;
    WorldGrows(c, pc, u, w, w', n);
    StepWritesTrue(c, u, w', acts);
    StepWritesBacked(c, acts);
    BackedConcat(c, Stored(n.kv, BLOCK_KEY_PREFIX), Stored(n.kv, SNAPSHOT_KEY_PREFIX), n.queue, Writes(acts));
    HistoryStep(c, pc, u, w, w', n, StepNode(c, n, i), log, acts);
  }

  /** Saving a true payload keeps the store true, and the sets of stored hashes grow by that hash. */
  lemma SaveOk(c: Crypto, pc: Postcard, u: iset<Block>, w: World, kv: Store, p: char, h: Hash, payload: Bytes)
    requires TrueStore(c, pc, u, w, kv) && PointerBacked(kv) && Save(kv, p, h, payload, 0).Ok?
    requires p == BLOCK_KEY_PREFIX ==> TrueSlot(c, pc, u, w, h, Some(payload), None)
    requires p == SNAPSHOT_KEY_PREFIX ==> TrueSlot(c, pc, u, w, h, None, Some(payload))
    ensures var kv' := Save(kv, p, h, payload, 0).value;
            && TrueStore(c, pc, u, w, kv') && PointerBacked(kv')
            && (forall q :: Stored(kv', q) == Stored(kv, q) + (if q == p then iset{h} else iset{}))
  {
    hide Save, Lookup, Compact, TrueBlock, TrueSnapshot, BlockHash;
    SaveRefinesUpdate(kv, p, h, payload);
    var kv' := Save(kv, p, h, payload, 0).value;
    forall g: Hash
      ensures TrueSlot(c, pc, u, w, g, Lookup(kv', BLOCK_KEY_PREFIX, g), Lookup(kv', SNAPSHOT_KEY_PREFIX, g))
    {
      assert TrueSlot(c, pc, u, w, g, Lookup(kv, BLOCK_KEY_PREFIX, g), Lookup(kv, SNAPSHOT_KEY_PREFIX, g));
    }
    forall q ensures Stored(kv', q) == Stored(kv, q) + (if q == p then iset{h} else iset{}) {
      forall g: Hash ensures g in Stored(kv', q) <==> g in Stored(kv, q) + (if q == p then iset{h} else iset{}) {
        if q != p || g != h { assert Lookup(kv', q, g) == Lookup(kv, q, g); }
      }
    }
  }

  lemma PointerOk(c: Crypto, pc: Postcard, u: iset<Block>, w: World, kv: Store, h: Hash)
    requires TrueStore(c, pc, u, w, kv)
    requires h in Stored(kv, BLOCK_KEY_PREFIX) && h in Stored(kv, SNAPSHOT_KEY_PREFIX)
    ensures TrueStore(c, pc, u, w, WritePointer(kv, h)) && PointerBacked(WritePointer(kv, h))
    ensures forall q :: Stored(WritePointer(kv, h), q) == Stored(kv, q)
  {
    hide Load, Compact, TrueSlot;
    PointerKeepsCompact(kv, h);
    forall q, g: Hash ensures Lookup(WritePointer(kv, h), q, g) == Lookup(kv, q, g) { PointerKeepsLoads(kv, h, q, g, 0); }
  }

  lemma PersistOk(c: Crypto, pc: Postcard, u: iset<Block>, w: World, root: Hash, n: Node)
    requires RoundTrips(pc) && NodeOk(c, pc, u, w, root, n)
    ensures NodeOk(c, pc, u, w, root, PersistOne(c, pc, n))
  {
    hide EngineOk, TrueStore, TrueBlock, TrueSnapshot, TrueLoads, TrueBundle, GenesisWorld, PointerBacked, Stored,
         Save, BlockHash;
    if n.storageUp && n.queue != [] && Perform(c, pc, n.kv, n.queue[0]).Ok? {
      assert TrueWrite(c, u, w, n.queue[0]);
      match n.queue[0] {
        case BlockWrite(b) =>
          assert pc.decode(pc.encode(b)) == Some(b);
          SaveOk(c, pc, u, w, n.kv, BLOCK_KEY_PREFIX, BlockHash(c, b), pc.encode(b));
        case SnapshotWrite(h, bytes) =>
          SaveOk(c, pc, u, w, n.kv, SNAPSHOT_KEY_PREFIX, h, bytes);
        case PointerWrite(h) =>
          PointerOk(c, pc, u, w, n.kv, h);
      }
      NoMore(Stored(n.kv, BLOCK_KEY_PREFIX));
      NoMore(Stored(n.kv, SNAPSHOT_KEY_PREFIX));
    }
  }

  lemma NoMore(s: iset<Hash>)
    ensures s + iset{} == s
  {
  }

  lemma ReadOk(c: Crypto, pc: Postcard, u: iset<Block>, w: World, root: Hash, n: Node, h: Hash)
    requires NodeOk(c, pc, u, w, root, n)
    ensures NodeOk(c, pc, u, w, root, ReadOne(n, h))
  {
    hide EngineOk, TrueBlock, TrueSnapshot, TrueBundle, GenesisWorld, OrderedStore, Load, Compact, BlockHash, TrueQueue;
    assert TrueSlot(c, pc, u, w, h, Lookup(n.kv, BLOCK_KEY_PREFIX, h), Lookup(n.kv, SNAPSHOT_KEY_PREFIX, h));
  }

  /** What a restart would load: nothing before the first pointer is written, afterwards always a true bundle. */
  lemma BundleTrue(c: Crypto, pc: Postcard, u: iset<Block>, w: World, kv: Store)
    requires TrueStore(c, pc, u, w, kv) && PointerBacked(kv)
    ensures LatestBundle(c, pc, kv).Some? <==> LATEST_SNAPSHOT_KEY in kv
    ensures LatestBundle(c, pc, kv).Some? ==>
              var (b, bytes) := LatestBundle(c, pc, kv).value;
              TrueBundle(c, u, w, b, bytes) && BlockHash(c, b) == kv[LATEST_SNAPSHOT_KEY]
  {
    hide TrueBlock, TrueSnapshot, Load, Compact, BlockHash;
    if LATEST_SNAPSHOT_KEY in kv {
      var h: Hash := kv[LATEST_SNAPSHOT_KEY];
      LoadTotal(kv, BLOCK_KEY_PREFIX, h, 0);
      LoadTotal(kv, SNAPSHOT_KEY_PREFIX, h, 0);
      assert TrueSlot(c, pc, u, w, h, Lookup(kv, BLOCK_KEY_PREFIX, h), Lookup(kv, SNAPSHOT_KEY_PREFIX, h));
    }
  }

  /** A true bundle passes the restore check, and restoring it puts the engine at the true state of that block. */
  lemma RestoreTrue(c: Crypto, u: iset<Block>, w: World, e: Engine, b: Block, bytes: Bytes)
    requires GenesisWorld(c, w) && Sound(c, w) && TrueBundle(c, u, w, b, bytes)
    ensures Restore(c, e, Some(b), Some(bytes)).1 == SnapshotRestored
    ensures Restore(c, e, Some(b), Some(bytes)).0 == e.(chain := RestoreHead(c, b, Replay(c, w, BlockHash(c, b)).value))
  {
    hide StateFromBytes, StateBytes, Merkle.StateRoot, Sound, EncBlock, ValidateAndApply;
    var h := BlockHash(c, b);
    var s := Replay(c, w, h).value;
    StateRoundTrip(s, []);
    assert StateBytes(s) + [] == StateBytes(s);
    if h == w.origin {
      EmptyRoot(c);
    } else {
      ReplayStep(c, w, h);
    }
  }

  lemma EmptyRoot(c: Crypto)
    ensures Merkle.StateRoot(c, EMPTY_STATE.balances) == ZERO_HASH
  {
  }

  lemma RestoreOk(c: Crypto, pc: Postcard, u: iset<Block>, w: World, root: Hash, n: Node) returns (root': Hash)
    requires NodeOk(c, pc, u, w, root, n) && Live(n.engine)
    ensures NodeOk(c, pc, u, w, root', RestoreNode(c, n))
  {
    hide TrueStore, OrderedStore, TrueQueue, TrueLoads, GenesisWorld, ParkedRight, Restore, Replay, Sound, ValidTree,
         BlockHash, SameContent, StateBytes, ValidatedAt;
    root' := root;
    if n.latest.Some? {
      var (b, bytes) := n.latest.value;
      var h := BlockHash(c, b);
      RestoreTrue(c, u, w, n.engine, b, bytes);
      SingletonValid(c, b, Replay(c, w, h).value);
      SameContentSymmetric(w.blocks[h], b);
      root' := h;
    } else {
      RestoreNothing(c, n.engine);
    }
  }

  lemma SameContentSymmetric(a: Block, b: Block)
    requires SameContent(a, b)
    ensures SameContent(b, a)
  {
  }

  lemma RestoreNothing(c: Crypto, e: Engine)
    ensures Restore(c, e, None, None).0 == e
  {
  }

  lemma BootOk(c: Crypto, pc: Postcard, u: iset<Block>, w: World, kv: Store)
    requires GenesisWorld(c, w) && WorldOk(c, u, w) && TrueStore(c, pc, u, w, kv) && PointerBacked(kv)
    ensures NodeOk(c, pc, u, w, BlockHash(c, Genesis(c)), Boot(c, kv))
  {
    hide TrueStore, PointerBacked, Stored, EngineOk, GenesisWorld, NewChain, WorldOk;
    BootEngineOk(c, u, w);
  }

  lemma BootEngineOk(c: Crypto, u: iset<Block>, w: World)
    requires GenesisWorld(c, w) && WorldOk(c, u, w)
    ensures EngineOk(c, u, w, BlockHash(c, Genesis(c)), NewEngine(NewChain(c)))
  {
    hide ValidTree, BlockHash, Sound, SameContent, ValidatedAt;
    var g := BlockHash(c, Genesis(c));
    SingletonValid(c, Genesis(c), EMPTY_STATE);
    assert g in Origin(c).blocks;
    assert w.origin == g && w.start == EMPTY_STATE && w.blocks[g] == Genesis(c);
    SameContentReflexive(Genesis(c));
  }

  lemma OriginOk(c: Crypto, pc: Postcard, u: iset<Block>)
    requires Genesis(c) in u
    ensures NodeOk(c, pc, u, Origin(c), BlockHash(c, Genesis(c)), Boot(c, map[]))
  {
    hide BlockHash, NodeOk, TrueStore, PointerBacked, Boot;
    EmptyStore(c, pc, u);
    BootOk(c, pc, u, Origin(c), map[]);
  }

  lemma EmptyStore(c: Crypto, pc: Postcard, u: iset<Block>)
    ensures TrueStore(c, pc, u, Origin(c), map[]) && PointerBacked(map[])
  {
    hide BlockHash, SlotKey;
    forall p, h: Hash ensures Lookup(map[], p, h) == None { EmptyLoad(p, h, 0); }
  }

  lemma {:induction false} EmptyLoad(p: char, h: Hash, slot: nat)
    requires slot <= SLOTS
    ensures Load(map[], p, h, slot) == Ok(None)
    decreases SLOTS - slot
  {
    if slot < SLOTS { EmptyLoad(p, h, slot + 1); }
  }

  /** Blocks received come from the collision-free universe; nothing else is asked of the environment. */
  ghost predicate LegalEvent(u: iset<Block>, ev: Event) {
    ev.Receive? && ev.input.FrameReceived? && ev.input.message.Some? ==> LegalMessage(u, ev.input.message.value)
  }

  /** Every event keeps the invariant and the history. */
  lemma ExecOk(c: Crypto, pc: Postcard, u: iset<Block>, w: World, root: Hash, n: Node, ev: Event, log: seq<Action>)
    returns (w': World, root': Hash)
    requires CollisionFree(c, u) && RoundTrips(pc) && NodeOk(c, pc, u, w, root, n) && Live(n.engine) && LegalEvent(u, ev)
    requires HistoryOk(c, pc, u, w, n, log)
    ensures NodeOk(c, pc, u, w', root', Exec(c, pc, n, ev))
    ensures HistoryOk(c, pc, u, w', Exec(c, pc, n, ev), log + EventActions(c, n, ev))
  {
    hide CollisionFree, NodeOk, StepNode, PersistOne, ReadOne, RestoreNode, LatestBundle, Boot, LegalMessage, TrueSnapshot, RoundTrips,
         HistoryOk, Step;
    w', root' := w, root;
    if ev.Receive? && !ev.input.StorageLoaded? {
      w' := StepNodeOk(c, pc, u, w, root, n, ev.input, log);
    } else if ev.DeliverLoad? && ev.index < |n.loads| {
      LoadIsLegal(c, pc, u, w, root, n, ev.index);
      w' := StepNodeOk(c, pc, u, w, root, n, StorageLoaded(n.loads[ev.index].0, n.loads[ev.index].1), log);
    } else {
      assert log + [] == log;
      root' := SilentOk(c, pc, u, w, root, n, ev);
      HistorySilent(c, pc, u, w, root, n, ev, log);
    }
  }

  /** Events in which the engine takes no step. */
  ghost predicate Silent(n: Node, ev: Event) {
    (ev.Receive? ==> ev.input.StorageLoaded?) && (ev.DeliverLoad? ==> ev.index >= |n.loads|)
  }

  lemma SilentOk(c: Crypto, pc: Postcard, u: iset<Block>, w: World, root: Hash, n: Node, ev: Event) returns (root': Hash)
    requires RoundTrips(pc) && NodeOk(c, pc, u, w, root, n) && Live(n.engine) && Silent(n, ev)
    ensures NodeOk(c, pc, u, w, root', Exec(c, pc, n, ev))
  {
    hide NodeOk, StepNode, PersistOne, ReadOne, RestoreNode, LatestBundle, Boot, RoundTrips;
    root' := root;
    match ev {
      case PersistNext => PersistOk(c, pc, u, w, root, n);
      case ReadSnapshot(h) => ReadOk(c, pc, u, w, root, n, h);
      case ReadLatest => ReadLatestOk(c, pc, u, w, root, n);
      case RestoreLatest => root' := RestoreOk(c, pc, u, w, root, n);
      case Crash =>
        NodeParts(c, pc, u, w, root, n);
        root' := BlockHash(c, Genesis(c));
        BootOk(c, pc, u, w, n.kv);
      case _ =>
    }
  }

  lemma HistorySilent(c: Crypto, pc: Postcard, u: iset<Block>, w: World, root: Hash, n: Node, ev: Event, log: seq<Action>)
    requires RoundTrips(pc) && NodeOk(c, pc, u, w, root, n) && Live(n.engine) && Silent(n, ev) && HistoryOk(c, pc, u, w, n, log)
    ensures HistoryOk(c, pc, u, w, Exec(c, pc, n, ev), log)
  {
    hide NodeOk, HistoryOk, PersistOne, RoundTrips, Restore, Load, LatestBundle, StepNode;
    if ev.PersistNext? {
      HistoryPersists(c, pc, u, w, root, n, log);
    } else {
      HistoryIdle(c, pc, u, w, n, Exec(c, pc, n, ev), log);
    }
  }

  // ---------------------------------------------------------------- where the writes come from

  /** The emitted persists are true and paired, they account for every recorded block, and every block that is queued or
      stored was emitted. */
  ghost predicate HistoryOk(c: Crypto, pc: Postcard, u: iset<Block>, w: World, n: Node, log: seq<Action>) {
    && TrueActions(c, u, w, log) && Accounted(c, Origin(c), w, log)
    && QueueEmitted(n.queue, log) && StoreEmitted(pc, n.kv, log)
  }

  ghost predicate QueueEmitted(q: seq<Write>, log: seq<Action>) {
    forall i :: 0 <= i < |q| && q[i].BlockWrite? ==> PersistBlock(q[i].block) in log
  }

  ghost predicate StoreEmitted(pc: Postcard, kv: Store, log: seq<Action>) {
    forall h: Hash :: Lookup(kv, BLOCK_KEY_PREFIX, h).Some? ==> PayloadEmitted(pc, Lookup(kv, BLOCK_KEY_PREFIX, h).value, log)
  }

  ghost predicate PayloadEmitted(pc: Postcard, payload: Bytes, log: seq<Action>) {
    pc.decode(payload).Some? && PersistBlock(pc.decode(payload).value) in log
  }

  /** The queue and the flash are as before, or the queue is gone. */
  lemma HistoryIdle(c: Crypto, pc: Postcard, u: iset<Block>, w: World, n: Node, n': Node, log: seq<Action>)
    requires HistoryOk(c, pc, u, w, n, log) && n'.kv == n.kv && (n'.queue == n.queue || n'.queue == [])
    ensures HistoryOk(c, pc, u, w, n', log)
  {
    hide TrueActions, Accounted, StoreEmitted;
  }

  lemma HistoryStep(c: Crypto, pc: Postcard, u: iset<Block>, w: World, w': World, n: Node, n': Node, log: seq<Action>, acts: seq<Action>)
    requires HistoryOk(c, pc, u, w, n, log) && Extends(w, w') && TrueActions(c, u, w', acts) && Accounted(c, w, w', acts)
    requires n'.kv == n.kv && n'.queue == n.queue + Writes(acts)
    ensures HistoryOk(c, pc, u, w', n', log + acts)
  {
    hide TrueActions, Accounted, Writes, Lookup;
    TrueActionsStable(c, u, w, w', log);
    TrueActionsConcat(c, u, w', log, acts);
    AccountedThen(c, Origin(c), w, w', log, acts);
    WritesEmitted(acts);
    forall i | 0 <= i < |n'.queue| && n'.queue[i].BlockWrite? ensures PersistBlock(n'.queue[i].block) in log + acts {
      if i >= |n.queue| { assert n'.queue[i] == Writes(acts)[i - |n.queue|]; }
    }
  }

  lemma {:induction false} WritesEmitted(acts: seq<Action>)
    ensures QueueEmitted(Writes(acts), acts)
    decreases |acts|
  {
    if acts != [] {
      var n := |acts| - 1;
      WritesEmitted(acts[..n]);
      assert acts == acts[..n] + [acts[n]];
    }
  }

  lemma HistoryPersists(c: Crypto, pc: Postcard, u: iset<Block>, w: World, root: Hash, n: Node, log: seq<Action>)
    requires RoundTrips(pc) && NodeOk(c, pc, u, w, root, n) && HistoryOk(c, pc, u, w, n, log)
    ensures HistoryOk(c, pc, u, w, PersistOne(c, pc, n), log)
  {
    hide TrueActions, Accounted, Save, EngineOk, Lookup, TrueSlot, OrderedStore, TrueQueue, TrueLoads, TrueBundle, BlockHash, GenesisWorld;
    if n.storageUp && n.queue != [] && Perform(c, pc, n.kv, n.queue[0]).Ok? {
      var next := PersistOne(c, pc, n);
      match n.queue[0] {
        case BlockWrite(b) =>
          assert pc.decode(pc.encode(b)) == Some(b);
          assert PersistBlock(n.queue[0].block) in log;
          SaveRefinesUpdate(n.kv, BLOCK_KEY_PREFIX, BlockHash(c, b), pc.encode(b));
        case SnapshotWrite(h, bytes) => SaveRefinesUpdate(n.kv, SNAPSHOT_KEY_PREFIX, h, bytes);
        case PointerWrite(h) => PointerKeepsLookups(n.kv, h);
      }
      forall h: Hash | Lookup(next.kv, BLOCK_KEY_PREFIX, h).Some?
        ensures PayloadEmitted(pc, Lookup(next.kv, BLOCK_KEY_PREFIX, h).value, log)
      {
        assert Lookup(next.kv, BLOCK_KEY_PREFIX, h) == Lookup(n.kv, BLOCK_KEY_PREFIX, h)
               || (n.queue[0].BlockWrite? && Lookup(next.kv, BLOCK_KEY_PREFIX, h) == Some(pc.encode(n.queue[0].block)));
      }
      QueueRest(n.queue, log);
    }
  }

  lemma PointerKeepsLookups(kv: Store, h: Hash)
    ensures forall q, g: Hash :: Lookup(WritePointer(kv, h), q, g) == Lookup(kv, q, g)
  {
    hide Load;
    forall q, g: Hash ensures Lookup(WritePointer(kv, h), q, g) == Lookup(kv, q, g) { PointerKeepsLoads(kv, h, q, g, 0); }
  }

  lemma QueueRest(q: seq<Write>, log: seq<Action>)
    requires q != [] && QueueEmitted(q, log)
    ensures QueueEmitted(q[1..], log)
  {
  }

  lemma LoadIsLegal(c: Crypto, pc: Postcard, u: iset<Block>, w: World, root: Hash, n: Node, k: nat)
    requires NodeOk(c, pc, u, w, root, n) && k < |n.loads|
    ensures LegalInput(c, u, w, StorageLoaded(n.loads[k].0, n.loads[k].1))
  {
    hide EngineOk, TrueStore, OrderedStore, TrueQueue, GenesisWorld, TrueSnapshot, TrueBundle;
  }

  lemma NodeParts(c: Crypto, pc: Postcard, u: iset<Block>, w: World, root: Hash, n: Node)
    requires NodeOk(c, pc, u, w, root, n)
    ensures GenesisWorld(c, w) && WorldOk(c, u, w) && TrueStore(c, pc, u, w, n.kv) && PointerBacked(n.kv)
    ensures EngineOk(c, u, w, root, n.engine)
    ensures Replay(c, w, n.engine.chain.head) == Some(n.engine.chain.state)
  {
    hide TrueStore, TrueQueue, GenesisWorld, TrueLoads, TrueBundle, Backed, PointerBacked;
  }

  lemma ReadLatestOk(c: Crypto, pc: Postcard, u: iset<Block>, w: World, root: Hash, n: Node)
    requires NodeOk(c, pc, u, w, root, n)
    ensures NodeOk(c, pc, u, w, root, n.(latest := LatestBundle(c, pc, n.kv)))
  {
    hide EngineOk, TrueStore, TrueQueue, GenesisWorld, TrueLoads, TrueBundle, Backed, PointerBacked, LatestBundle;
    BundleTrue(c, pc, u, w, n.kv);
  }

  // ---------------------------------------------------------------- theorems about whole runs

  lemma {:induction false} RunOk(c: Crypto, pc: Postcard, u: iset<Block>, evs: seq<Event>) returns (w: World, root: Hash)
    requires CollisionFree(c, u) && RoundTrips(pc) && Genesis(c) in u
    requires forall i :: 0 <= i < |evs| ==> LegalEvent(u, evs[i])
    ensures NodeOk(c, pc, u, w, root, Run(c, pc, evs))
    ensures HistoryOk(c, pc, u, w, Run(c, pc, evs), Emitted(c, pc, evs))
    decreases |evs|
  {
    hide CollisionFree, NodeOk, Exec, LegalEvent, RoundTrips, HistoryOk, EventActions;
    if evs == [] {
      w, root := Origin(c), BlockHash(c, Genesis(c));
      OriginOk(c, pc, u);
      OriginHistory(c, pc, u);
    } else {
      var n := |evs| - 1;
      w, root := RunOk(c, pc, u, evs[..n]);
      w, root := ExecOk(c, pc, u, w, root, Run(c, pc, evs[..n]), evs[n], Emitted(c, pc, evs[..n]));
    }
  }

  lemma OriginHistory(c: Crypto, pc: Postcard, u: iset<Block>)
    ensures HistoryOk(c, pc, u, Origin(c), Boot(c, map[]), [])
  {
    hide BlockHash, Load;
    NoActions(c, u, Origin(c));
    forall h: Hash ensures Lookup(map[], BLOCK_KEY_PREFIX, h).None? { EmptyLoad(BLOCK_KEY_PREFIX, h, 0); }
  }

  /** Replay invariant over whole runs, restarts included: there is one genesis-rooted record, of blocks this run accepted
      and handed to storage, in which the node's tree lies; its state is the true state of its head, and every persist it
      ever emitted, or still has queued, is true. */
  lemma RunReplays(c: Crypto, pc: Postcard, u: iset<Block>, evs: seq<Event>) returns (w: World, root: Hash)
    requires CollisionFree(c, u) && RoundTrips(pc) && Genesis(c) in u
    requires forall i :: 0 <= i < |evs| ==> LegalEvent(u, evs[i])
    ensures var n := Run(c, pc, evs);
            && Extends(Origin(c), w) && Sound(c, w)
            && ValidTree(c, n.engine.chain, root) && ChainIn(c, w, n.engine.chain)
            && Validated(c, w, n.engine.chain.nodes, root) && SignedTree(c, n.engine.chain.nodes)
            && TrueQueue(c, u, w, n.queue)
            && TrueActions(c, u, w, Emitted(c, pc, evs)) && Accounted(c, Origin(c), w, Emitted(c, pc, evs))
  {
    hide CollisionFree, LegalEvent, RoundTrips, Run, ValidTree, ChainIn, TrueStore, TrueWrite, Validated, Emitted, TrueActions, Accounted,
         StoreEmitted;
    w, root := RunOk(c, pc, u, evs);
  }

  /** A stored block was emitted together with the true snapshot of its hash. */
  lemma EmittedPair(c: Crypto, u: iset<Block>, w: World, log: seq<Action>, b: Block, bytes: Bytes) returns (i: nat)
    requires TrueActions(c, u, w, log) && PersistBlock(b) in log && TrueSnapshot(c, w, BlockHash(c, b), bytes)
    ensures i + 1 < |log| && log[i] == PersistBlock(b) && log[i + 1] == PersistSnapshot(BlockHash(c, b), bytes)
  {
    hide BlockHash, StateBytes, Replay;
    i :| 0 <= i < |log| && log[i] == PersistBlock(b);
    assert PairAt(c, log, i);
    assert TrueAction(c, u, w, log[i + 1]);
  }

  /** Restart safety: cut the writes of any run at any point; either no pointer was ever written, or a restart loads
      a block and a state that the engine itself handed over as a pair when it accepted the block in this run, the state
      is the true one of the block, and the restore check passes. */
  lemma RestartSafe(c: Crypto, pc: Postcard, u: iset<Block>, evs: seq<Event>) returns (w: World, i: nat)
    requires CollisionFree(c, u) && RoundTrips(pc) && Genesis(c) in u
    requires forall k :: 0 <= k < |evs| ==> LegalEvent(u, evs[k])
    ensures Extends(Origin(c), w) && Sound(c, w)
    ensures var kv := Run(c, pc, evs).kv; var acts := Emitted(c, pc, evs);
            && (LatestBundle(c, pc, kv).None? <==> LATEST_SNAPSHOT_KEY !in kv)
            && (LatestBundle(c, pc, kv).Some? ==>
                  var (b, bytes) := LatestBundle(c, pc, kv).value;
                  var h := BlockHash(c, b);
                  && h == kv[LATEST_SNAPSHOT_KEY]
                  && i + 1 < |acts| && acts[i] == PersistBlock(b) && acts[i + 1] == PersistSnapshot(h, bytes)
                  && h in w.blocks && SameContent(w.blocks[h], b) && Replay(c, w, h).Some?
                  && Restore(c, NewEngine(NewChain(c)), Some(b), Some(bytes))
                     == (NewEngine(RestoreHead(c, b, Replay(c, w, h).value)), SnapshotRestored))
  {
    hide CollisionFree, LegalEvent, RoundTrips, Run, NodeOk, HistoryOk, LatestBundle, Restore, Replay, SameContent, BlockHash, Sound,
         Origin, Emitted, TrueStore, PointerBacked, StateBytes, RestoreHead, NewChain, EngineOk;
    var root;
    w, root := RunOk(c, pc, u, evs);
    i := 0;
    var n := Run(c, pc, evs);
    NodeParts(c, pc, u, w, root, n);
    BundleTrue(c, pc, u, w, n.kv);
    if LatestBundle(c, pc, n.kv).Some? {
      var (b, bytes) := LatestBundle(c, pc, n.kv).value;
      RestoreTrue(c, u, w, NewEngine(NewChain(c)), b, bytes);
      i := BundlePair(c, pc, u, w, n, Emitted(c, pc, evs));
    }
  }

  lemma BundlePair(c: Crypto, pc: Postcard, u: iset<Block>, w: World, n: Node, log: seq<Action>) returns (i: nat)
    requires HistoryOk(c, pc, u, w, n, log) && LatestBundle(c, pc, n.kv).Some?
    requires var (b, bytes) := LatestBundle(c, pc, n.kv).value; TrueBundle(c, u, w, b, bytes)
    ensures var (b, bytes) := LatestBundle(c, pc, n.kv).value;
            i + 1 < |log| && log[i] == PersistBlock(b) && log[i + 1] == PersistSnapshot(BlockHash(c, b), bytes)
  {
    hide LatestBundle, BlockHash, TrueBlock, TrueSnapshot, TrueActions, Accounted, QueueEmitted, StoreEmitted;
    BundleEmitted(c, pc, n.kv, log);
    var (b, bytes) := LatestBundle(c, pc, n.kv).value;
    i := EmittedPair(c, u, w, log, b, bytes);
  }

  lemma BundleEmitted(c: Crypto, pc: Postcard, kv: Store, log: seq<Action>)
    requires StoreEmitted(pc, kv, log) && LatestBundle(c, pc, kv).Some?
    ensures PersistBlock(LatestBundle(c, pc, kv).value.0) in log
  {
    hide Load, BlockHash;
    var h := LatestHash(kv).value;
    assert PayloadEmitted(pc, Lookup(kv, BLOCK_KEY_PREFIX, h).value, log);
  }
}
