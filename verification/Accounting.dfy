/**
 No received block is lost: over every run, the blocks received are exactly those persisted, those reported as
 failed, and those still parked, counted with multiplicity.
 */
module Accounting {
  import opened Base
  import opened Models
  import opened Ledger
  import opened Snapshot
  import opened Chain
  import opened Engine
  import P = Parking

  /** The blocks handed to storage. */
  ghost function Persisted(acts: seq<Action>): (r: multiset<Block>) {
    if acts == [] then multiset{} else
      Persisted(acts[..|acts| - 1]) +
      if acts[|acts| - 1].PersistBlock? then multiset{acts[|acts| - 1].block} else multiset{}
  }

  /** How many blocks were reported as refused. */
  ghost function Failures(acts: seq<Action>): (r: nat) {
    if acts == [] then 0 else
      Failures(acts[..|acts| - 1]) +
      if acts[|acts| - 1] in {ReportEvent(FailedImportingBlock), ReportEvent(FailedImportingParkedBlock)} then 1 else 0
  }

  /** Parked before and received are together parked after, persisted and failed, one report for each that failed. */
  ghost predicate Balanced(before: multiset<Block>, received: multiset<Block>, after: multiset<Block>, acts: seq<Action>, failed: multiset<Block>) {
    before + received == after + (Persisted(acts) + failed) && |failed| == Failures(acts)
  }

  lemma {:induction false} Additive(a: seq<Action>, b: seq<Action>)
    ensures Persisted(a + b) == Persisted(a) + Persisted(b) && Failures(a + b) == Failures(a) + Failures(b)
    decreases |b|
  {
    if b == [] {
      assert a + b == a;
    } else {
      var n := |b| - 1;
      assert (a + b)[..|a| + n] == a + b[..n];
      Additive(a, b[..n]);
    }
  }

  lemma One(act: Action)
    ensures Persisted([act]) == if act.PersistBlock? then multiset{act.block} else multiset{}
    ensures Failures([act]) ==
              if act in {ReportEvent(FailedImportingBlock), ReportEvent(FailedImportingParkedBlock)} then 1 else 0
  {
    assert [act][..0] == [];
    assert Persisted([]) == multiset{} && Failures([]) == 0;
  }

  lemma BalancedThen(p0: multiset<Block>, r1: multiset<Block>, p1: multiset<Block>, a1: seq<Action>, f1: multiset<Block>,
                     r2: multiset<Block>, p2: multiset<Block>, a2: seq<Action>, f2: multiset<Block>)
    requires Balanced(p0, r1, p1, a1, f1) && Balanced(p1, r2, p2, a2, f2)
    ensures Balanced(p0, r1 + r2, p2, a1 + a2, f1 + f2)
  {
    hide Persisted, Failures;
    Additive(a1, a2);
    var l1, l2 := Persisted(a1) + f1, Persisted(a2) + f2;
    P.Balance(p0, r1, r2, p1, l1, p2, l2);
    assert l1 + l2 == Persisted(a1 + a2) + (f1 + f2);
  }

  /** Actions that neither persist nor refuse a block. */
  ghost predicate Neutral(acts: seq<Action>) {
    forall i :: 0 <= i < |acts| ==>
      !acts[i].PersistBlock? && acts[i] != ReportEvent(FailedImportingBlock) && acts[i] != ReportEvent(FailedImportingParkedBlock)
  }

  lemma {:induction false} NeutralCounts(acts: seq<Action>)
    requires Neutral(acts)
    ensures Persisted(acts) == multiset{} && Failures(acts) == 0
    decreases |acts|
  {
    if acts != [] { NeutralCounts(acts[..|acts| - 1]); }
  }

  lemma NeutralBalanced(p: multiset<Block>, acts: seq<Action>)
    requires Neutral(acts)
    ensures Balanced(p, multiset{}, p, acts, multiset{})
  {
    hide Persisted, Failures;
    NeutralCounts(acts);
  }

  // ---------------------------------------------------------------- imports

  lemma PairCounts(c: Crypto, b: Block, s: State)
    ensures Persisted(PersistPair(c, b, s)) == multiset{b} && Failures(PersistPair(c, b, s)) == 0
  {
    hide Persisted, Failures, BlockHash, StateBytes;
    var x, y := PersistBlock(b), PersistSnapshot(BlockHash(c, b), StateBytes(s));
    assert PersistPair(c, b, s) == [x] + [y];
    Additive([x], [y]);
    One(x);
    One(y);
  }

  lemma {:induction false} ReportsSettle(c: Crypto, log: seq<P.Import>) returns (failed: multiset<Block>)
    ensures P.Imported(log) == Persisted(P.Reports(c, log)) + failed
    ensures |failed| == Failures(P.Reports(c, log))
    decreases |log|
  {
    hide Persisted, Failures, PersistPair;
    if log == [] {
      failed := multiset{};
      NeutralCounts([]);
    } else {
      var rest := ReportsSettle(c, log[1..]);
      Additive(P.Report(c, log[0]), P.Reports(c, log[1..]));
      if log[0].outcome.Some? {
        failed := rest;
        PairCounts(c, log[0].block, log[0].outcome.value);
      } else {
        failed := multiset{log[0].block} + rest;
        One(ReportEvent(FailedImportingParkedBlock));
      }
    }
  }

  lemma ImportParkedBalanced(c: Crypto, e: Engine, parent: Hash, ps: State) returns (failed: multiset<Block>)
    requires Live(e)
    ensures var (e', acts) := ImportParked(c, e, parent, ps);
            Balanced(P.AllParked(e.parked), multiset{}, P.AllParked(e'.parked), acts, failed)
  {
    hide ImportParked, P.AllParked, Persisted, Failures, P.Reports, P.Imported;
    var log := P.ImportParkedAccount(c, e, parent, ps);
    failed := ReportsSettle(c, log);
    assert P.AllParked(e.parked) + multiset{} == P.AllParked(e.parked);
  }

  lemma {:induction false} BlocksSnoc(ps: seq<ParkedBlock>, p: ParkedBlock)
    ensures P.Blocks(ps + [p]) == P.Blocks(ps) + multiset{p.block}
    decreases |ps|
  {
    if ps == [] {
      assert ps + [p] == [p] && [p][1..] == [];
    } else {
      assert (ps + [p])[1..] == ps[1..] + [p];
      BlocksSnoc(ps[1..], p);
    }
  }

  lemma ParkBalanced(parked: Parked, peer: PeerId, b: Block)
    ensures P.AllParked(Park(parked, peer, b)) == P.AllParked(parked) + multiset{b}
  {
    hide P.AllParked, P.Blocks;
    var h, next := b.prev, Park(parked, peer, b);
    var before := if h in parked then parked[h] else [];
    P.AllParkedSplit(next, h);
    BlocksSnoc(before, ParkedBlock(peer, b));
    assert next - {h} == parked - {h};
    if h in parked {
      P.AllParkedSplit(parked, h);
    } else {
      assert parked - {h} == parked;
      NoBlocks();
    }
  }

  lemma NoBlocks()
    ensures P.Blocks([]) == multiset{}
  {
  }

  // ---------------------------------------------------------------- steps

  lemma IngestBalanced(c: Crypto, e: Engine, peer: PeerId, b: Block) returns (failed: multiset<Block>)
    requires Live(e)
    ensures var (e', acts) := IngestBlock(c, e, peer, b);
            Balanced(P.AllParked(e.parked), multiset{b}, P.AllParked(e'.parked), acts, failed)
  {
    hide P.AllParked, Persisted, Failures, ImportParked, PersistPair, AddBlock, BlockHash, Park;
    failed := multiset{};
    if e.chain.head == b.prev {
      var r := AddBlock(c, e.chain, b, e.chain.state);
      if r.Err? {
        failed := multiset{b};
        One(ReportEvent(FailedImportingBlock));
      } else {
        failed := AcceptedBalanced(c, e, peer, b);
      }
    } else {
      ParkBalanced(e.parked, peer, b);
      One(LoadSnapshot(b.prev));
    }
  }

  lemma AcceptedBalanced(c: Crypto, e: Engine, peer: PeerId, b: Block) returns (failed: multiset<Block>)
    requires Live(e) && e.chain.head == b.prev && AddBlock(c, e.chain, b, e.chain.state).Ok?
    ensures var (e', acts) := IngestBlock(c, e, peer, b);
            Balanced(P.AllParked(e.parked), multiset{b}, P.AllParked(e'.parked), acts, failed)
  {
    hide P.AllParked, Persisted, Failures, ImportParked, PersistPair, AddBlock, BlockHash;
    var (ch, imported) := AddBlock(c, e.chain, b, e.chain.state).value;
    var e1 := e.(chain := ch);
    var pair, added := PersistPair(c, b, imported.nextState), [ReportEvent(BlockAdded)];
    PairCounts(c, b, imported.nextState);
    One(ReportEvent(BlockAdded));
    Additive(pair, added);
    var p := P.AllParked(e.parked);
    assert Balanced(p, multiset{b}, p, pair + added, multiset{});
    var below := [];
    failed := multiset{};
    if imported.becameHead {
      failed := ImportParkedBalanced(c, e1, BlockHash(c, b), imported.nextState);
      below := ImportParked(c, e1, BlockHash(c, b), imported.nextState).1;
    } else {
      NeutralBalanced(p, []);
    }
    BalancedThen(p, multiset{b}, p, pair + added, multiset{},
                 multiset{}, P.AllParked(IngestBlock(c, e, peer, b).0.parked), below, failed);
    assert multiset{b} + multiset{} == multiset{b} && multiset{} + failed == failed;
  }

  lemma {:induction false} IngestAllBalanced(c: Crypto, e: Engine, peer: PeerId, blocks: seq<Block>) returns (failed: multiset<Block>)
    requires Live(e)
    ensures var (e', acts) := IngestAll(c, e, peer, blocks);
            Balanced(P.AllParked(e.parked), multiset(blocks), P.AllParked(e'.parked), acts, failed)
    decreases |blocks|
  {
    hide P.AllParked, Balanced, IngestBlock;
    if blocks == [] {
      failed := multiset{};
      NeutralBalanced(P.AllParked(e.parked), []);
    } else {
      var n := |blocks| - 1;
      var f1 := IngestAllBalanced(c, e, peer, blocks[..n]);
      var (e1, a1) := IngestAll(c, e, peer, blocks[..n]);
      var f2 := IngestBalanced(c, e1, peer, blocks[n]);
      var (e2, a2) := IngestBlock(c, e1, peer, blocks[n]);
      BalancedThen(P.AllParked(e.parked), multiset(blocks[..n]), P.AllParked(e1.parked), a1, f1,
                   multiset{blocks[n]}, P.AllParked(e2.parked), a2, f2);
      failed := f1 + f2;
      assert blocks == blocks[..n] + [blocks[n]];
    }
  }

  /** The blocks an input carries. */
  function Received(i: Input): (r: multiset<Block>) {
    match i
    case FrameReceived(_, Some(AnnounceBlock(b))) => multiset{b}
    case FrameReceived(_, Some(SyncResponse(blocks, _, _))) => multiset(blocks)
    case _ => multiset{}
  }

  lemma {:induction false} ContinueNeutral(e: Engine, done: seq<PendingRequest>, next: u64)
    ensures Neutral(ContinueAll(e, done, next).1)
    decreases |done|
  {
    if done != [] { ContinueNeutral(e, done[..|done| - 1], next); }
  }

  /** Neutral actions appended to a balanced step leave it balanced. */
  lemma AppendNeutral(before: multiset<Block>, received: multiset<Block>, after: multiset<Block>, acts: seq<Action>, failed: multiset<Block>,
                      more: seq<Action>)
    requires Balanced(before, received, after, acts, failed) && Neutral(more)
    ensures Balanced(before, received, after, acts + more, failed)
  {
    hide Persisted, Failures;
    Additive(acts, more);
    NeutralCounts(more);
  }

  lemma ResponseBalanced(c: Crypto, e: Engine, peer: PeerId, blocks: seq<Block>, next: Option<u64>) returns (failed: multiset<Block>)
    requires Live(e)
    ensures var (e', acts) := OnSyncResponse(c, e, peer, blocks, next);
            Balanced(P.AllParked(e.parked), multiset(blocks), P.AllParked(e'.parked), acts, failed)
  {
    hide P.AllParked, Balanced, IngestAll, ContinueAll, RequestsOf, RequestsNotOf;
    var done := RequestsOf(e.requests, peer);
    var e0 := e.(requests := RequestsNotOf(e.requests, peer));
    failed := IngestAllBalanced(c, e0, peer, blocks);
    var (e1, acts) := IngestAll(c, e0, peer, blocks);
    var more := if next.Some? then ContinueAll(e1, done, next.value).1 else [];
    if next.Some? { ContinueNeutral(e1, done, next.value); }
    var before, after := P.AllParked(e.parked), P.AllParked(e1.parked);
    AppendNeutral(before, multiset(blocks), after, acts, failed, more);
    AppendNeutral(before, multiset(blocks), after, acts + more, failed, [FrameIgnored(peer)]);
    if acts + more == [] { assert acts + more + [FrameIgnored(peer)] == [FrameIgnored(peer)]; }
  }

  lemma StorageBalanced(c: Crypto, e: Engine, h: Hash, bytes: Option<Bytes>) returns (failed: multiset<Block>)
    requires Live(e)
    ensures var (e', acts) := OnStorageLoaded(c, e, h, bytes);
            Balanced(P.AllParked(e.parked), multiset{}, P.AllParked(e'.parked), acts, failed)
  {
    hide P.AllParked, Balanced, ImportParked, StateFromBytes;
    failed := multiset{};
    var acts := OnStorageLoaded(c, e, h, bytes).1;
    if h in e.parked && e.parked[h] != [] && bytes.Some? && StateFromBytes(bytes.value).Ok? {
      failed := ImportParkedBalanced(c, e, h, StateFromBytes(bytes.value).value);
    } else {
      NeutralBalanced(P.AllParked(e.parked), acts);
    }
  }

  lemma ReactBalanced(c: Crypto, e: Engine, i: Input) returns (failed: multiset<Block>)
    requires Live(e)
    ensures var (e', acts) := React(c, e, i);
            Balanced(P.AllParked(e.parked), Received(i), P.AllParked(e'.parked), acts, failed)
  {
    hide P.AllParked, Balanced, IngestBlock, OnSyncResponse, OnStorageLoaded, AddTransaction, Respond, Expire, RequestsNotOf;
    failed := multiset{};
    match i {
      case FrameReceived(peer, Some(AnnounceBlock(b))) => failed := IngestBalanced(c, e, peer, b);
      case FrameReceived(peer, Some(SyncResponse(blocks, _, next))) => failed := ResponseBalanced(c, e, peer, blocks, next);
      case StorageLoaded(h, bytes) => failed := StorageBalanced(c, e, h, bytes);
      case _ => NeutralReact(c, e, i);
    }
  }

  lemma NeutralReact(c: Crypto, e: Engine, i: Input)
    requires Live(e) && !i.StorageLoaded?
    requires !(i.FrameReceived? && i.message.Some? && (i.message.value.AnnounceBlock? || i.message.value.SyncResponse?))
    ensures var (e', acts) := React(c, e, i);
            Balanced(P.AllParked(e.parked), multiset{}, P.AllParked(e'.parked), acts, multiset{})
  {
    hide P.AllParked, Balanced, AddTransaction, Respond, Expire, RequestsNotOf;
    var (e', acts) := React(c, e, i);
    assert e'.parked == e.parked;
    TransactionNeutral(c, e, i);
    NeutralBalanced(P.AllParked(e.parked), acts);
  }

  lemma TransactionNeutral(c: Crypto, e: Engine, i: Input)
    requires Live(e) && !i.StorageLoaded?
    requires !(i.FrameReceived? && i.message.Some? && (i.message.value.AnnounceBlock? || i.message.value.SyncResponse?))
    ensures Neutral(React(c, e, i).1)
  {
    hide Respond, Expire, RequestsNotOf, IsValidTx;
  }

  lemma StepBalanced(c: Crypto, e: Engine, i: Input) returns (failed: multiset<Block>)
    requires Live(e)
    ensures var (e', acts) := Step(c, e, i);
            Balanced(P.AllParked(e.parked), Received(i), P.AllParked(e'.parked), acts, failed)
  {
    hide P.AllParked, Balanced, React, EarliestDeadline, Received;
    failed := ReactBalanced(c, e, i);
    var (e1, acts) := React(c, e, i);
    AppendNeutral(P.AllParked(e.parked), Received(i), P.AllParked(e1.parked), acts, failed, SyncWake(e1).1);
  }

  // ---------------------------------------------------------------- runs

  ghost function AllReceived(inputs: seq<Input>): (r: multiset<Block>) {
    if inputs == [] then multiset{} else AllReceived(inputs[..|inputs| - 1]) + Received(inputs[|inputs| - 1])
  }

  ghost function RunActions(c: Crypto, e: Engine, inputs: seq<Input>): (r: seq<Action>)
    requires Live(e)
  {
    if inputs == [] then [] else
      RunActions(c, e, inputs[..|inputs| - 1]) + Step(c, P.Run(c, e, inputs[..|inputs| - 1]), inputs[|inputs| - 1]).1
  }

  /** Conservation of blocks: over any run from a fresh engine, what was received is exactly what was persisted, what is
      parked, and what was refused with one report each.  A block whose arithmetic overflows counts as refused here; the
      program panics on it and reports nothing.  `LedgerLaws.ChainFits` says when that cannot happen. */
  lemma {:induction false} NoBlockLost(c: Crypto, ch: Chain, inputs: seq<Input>) returns (failed: multiset<Block>)
    requires ch.head in ch.nodes
    ensures var acts := RunActions(c, NewEngine(ch), inputs);
            && AllReceived(inputs) == P.AllParked(P.Run(c, NewEngine(ch), inputs).parked) + (Persisted(acts) + failed)
            && |failed| == Failures(acts)
    decreases |inputs|
  {
    hide P.AllParked, Step, Persisted, Failures, Received;
    if inputs == [] {
      failed := multiset{};
      NeutralCounts([]);
      NothingParked();
    } else {
      var n := |inputs| - 1;
      var f1 := NoBlockLost(c, ch, inputs[..n]);
      var e1 := P.Run(c, NewEngine(ch), inputs[..n]);
      var f2 := StepBalanced(c, e1, inputs[n]);
      var (e2, acts) := Step(c, e1, inputs[n]);
      NothingParked();
      BalancedThen(multiset{}, AllReceived(inputs[..n]), P.AllParked(e1.parked), RunActions(c, NewEngine(ch), inputs[..n]), f1,
                   Received(inputs[n]), P.AllParked(e2.parked), acts, f2);
      failed := f1 + f2;
    }
  }

  lemma NothingParked()
    ensures P.AllParked(map[]) == multiset{}
  {
  }
}
