/**
 Parked blocks: the import recursion loses nothing, reports everything once, and never leaves a parked block
 whose parent is the head.
 */
module Parking {
  import opened Base
  import opened Models
  import opened Ledger
  import opened Chain
  import World
  import Snapshot
  import opened Engine

  // ---------------------------------------------------------------- no parked child of the head

  ghost predicate HeadClear(e: Engine) { e.chain.head !in e.parked }

  lemma {:induction false} ImportParkedClear(c: Crypto, e: Engine, parent: Hash, ps: State)
    requires Live(e) && (parent == e.chain.head || HeadClear(e))
    ensures HeadClear(ImportParked(c, e, parent, ps).0)
    decreases |e.parked|, 0, 0
  {
    hide AddBlock, BlockHash, PersistPair;
    if parent in e.parked {
      assert (e.parked - {parent}).Keys == e.parked.Keys - {parent};
      ImportAllClear(c, e.(parked := e.parked - {parent}), e.parked[parent], ps);
    }
  }

  lemma {:induction false} ImportAllClear(c: Crypto, e: Engine, blocks: seq<ParkedBlock>, ps: State)
    requires Live(e) && HeadClear(e)
    ensures HeadClear(ImportAll(c, e, blocks, ps).0)
    decreases |e.parked|, 2, |blocks|
  {
    if blocks != [] {
      ImportOneClear(c, e, blocks[0].block, ps);
      ImportAllClear(c, ImportOne(c, e, blocks[0].block, ps).0, blocks[1..], ps);
    }
  }

  lemma {:induction false} ImportOneClear(c: Crypto, e: Engine, b: Block, ps: State)
    requires Live(e) && HeadClear(e)
    ensures HeadClear(ImportOne(c, e, b, ps).0)
    decreases |e.parked|, 1, 0
  {
    hide AddBlock, BlockHash, PersistPair;
    var r := AddBlock(c, e.chain, b, ps);
    if r.Ok? {
      ForkChoice(c, e.chain, b, ps);
      var (ch, imported) := r.value;
      if imported.becameHead { ImportParkedClear(c, e.(chain := ch), BlockHash(c, b), imported.nextState); }
    }
  }

  lemma IngestClear(c: Crypto, e: Engine, peer: PeerId, b: Block)
    requires Live(e) && HeadClear(e)
    ensures HeadClear(IngestBlock(c, e, peer, b).0)
  {
    hide AddBlock, BlockHash, ImportParked, PersistPair;
    if e.chain.head == b.prev {
      var r := AddBlock(c, e.chain, b, e.chain.state);
      if r.Ok? {
        ForkChoice(c, e.chain, b, e.chain.state);
        var (ch, imported) := r.value;
        if imported.becameHead { ImportParkedClear(c, e.(chain := ch), BlockHash(c, b), imported.nextState); }
      }
    }
  }

  lemma {:induction false} IngestAllClear(c: Crypto, e: Engine, peer: PeerId, blocks: seq<Block>)
    requires Live(e) && HeadClear(e)
    ensures HeadClear(IngestAll(c, e, peer, blocks).0)
    decreases |blocks|
  {
    hide IngestBlock;
    if blocks != [] {
      IngestAllClear(c, e, peer, blocks[..|blocks| - 1]);
      IngestClear(c, IngestAll(c, e, peer, blocks[..|blocks| - 1]).0, peer, blocks[|blocks| - 1]);
    }
  }

  lemma MessageClear(c: Crypto, e: Engine, peer: PeerId, m: Message)
    requires Live(e) && HeadClear(e)
    ensures HeadClear(OnMessage(c, e, peer, m).0)
  {
    hide IngestBlock, IngestAll, ContinueAll, AddTransaction, Respond, RequestsOf, RequestsNotOf;
    match m {
      case AnnounceBlock(b) => IngestClear(c, e, peer, b);
      case SyncResponse(blocks, _, next) =>
        IngestAllClear(c, e.(requests := RequestsNotOf(e.requests, peer)), peer, blocks);
      case AnnounceTransaction(_) =>
      case SyncRequest(_, _) =>
      case AnnounceResponse(_) =>
    }
  }

  lemma ReactClear(c: Crypto, e: Engine, i: Input)
    requires Live(e) && HeadClear(e)
    ensures HeadClear(React(c, e, i).0)
  {
    hide OnMessage, ImportParked, AddTransaction, Expire, RequestsNotOf;
    match i {
      case FrameReceived(peer, message) => if message.Some? { MessageClear(c, e, peer, message.value); }
      case StorageLoaded(h, bytes) =>
        if bytes.Some? && Snapshot.StateFromBytes(bytes.value).Ok? {
          ImportParkedClear(c, e, h, Snapshot.StateFromBytes(bytes.value).value);
        }
      case _ =>
    }
  }

  /** Every step keeps the head free of parked children. */
  lemma StepClear(c: Crypto, e: Engine, i: Input)
    requires Live(e) && HeadClear(e)
    ensures HeadClear(Step(c, e, i).0)
  {
    hide React;
    ReactClear(c, e, i);
  }

  ghost function Run(c: Crypto, e: Engine, inputs: seq<Input>): (r: Engine)
    requires Live(e)
    ensures Live(r)
  {
    if inputs == [] then e else Step(c, Run(c, e, inputs[..|inputs| - 1]), inputs[|inputs| - 1]).0
  }

  /** From a fresh engine, no parked block is ever a child of the current head. */
  lemma {:induction false} NoParkedChildOfHead(c: Crypto, ch: Chain, inputs: seq<Input>)
    requires ch.head in ch.nodes
    ensures HeadClear(Run(c, NewEngine(ch), inputs))
    decreases |inputs|
  {
    hide Step;
    if inputs != [] {
      NoParkedChildOfHead(c, ch, inputs[..|inputs| - 1]);
      StepClear(c, Run(c, NewEngine(ch), inputs[..|inputs| - 1]), inputs[|inputs| - 1]);
    }
  }

  /** Restoring a snapshot into a running engine is the one operation that can leave a child of the head parked,
      and it does so exactly when a block was already waiting for the restored one. */
  lemma RestoreClear(c: Crypto, e: Engine, b: Block, bytes: Bytes)
    requires Restore(c, e, Some(b), Some(bytes)).1 == SnapshotRestored
    ensures HeadClear(Restore(c, e, Some(b), Some(bytes)).0) <==> BlockHash(c, b) !in e.parked
  {
    hide BlockHash;
  }

  // ---------------------------------------------------------------- order

  /** Blocks that wait for one parent are imported in the order they came: a list is imported by importing any front part of
      it and then the rest. */
  lemma {:induction false} ImportsInOrder(c: Crypto, e: Engine, front: seq<ParkedBlock>, rest: seq<ParkedBlock>, ps: State)
    requires Live(e)
    ensures var (e1, acts1) := ImportAll(c, e, front, ps); var (e2, acts2) := ImportAll(c, e1, rest, ps);
            ImportAll(c, e, front + rest, ps) == (e2, acts1 + acts2)
    decreases |front|
  {
    hide ImportOne;
    if front == [] {
      assert front + rest == rest;
      assert [] + ImportAll(c, e, rest, ps).1 == ImportAll(c, e, rest, ps).1;
    } else {
      assert (front + rest)[1..] == front[1..] + rest;
      var (e0, acts0) := ImportOne(c, e, front[0].block, ps);
      ImportsInOrder(c, e0, front[1..], rest, ps);
      var (e1, acts1) := ImportAll(c, e0, front[1..], ps);
      Regroup(acts0, acts1, ImportAll(c, e1, rest, ps).1);
    }
  }

  /** One of them: refused with a report, or persisted with its state, and if it became the head everything that waits for
      it follows. */
  lemma ImportsOne(c: Crypto, e: Engine, p: ParkedBlock, ps: State)
    requires Live(e)
    ensures var r := AddBlock(c, e.chain, p.block, ps); var h := c.sha(EncBlock(p.block));
            ImportAll(c, e, [p], ps) ==
              if r.Err? then (e, [ReportEvent(FailedImportingParkedBlock)])
              else
                var pair := [PersistBlock(p.block), PersistSnapshot(h, Snapshot.StateBytes(r.value.1.nextState))];
                var e1 := e.(chain := r.value.0);
                if !r.value.1.becameHead then (e1, pair)
                else
                  var (e2, below) := ImportParked(c, e1, h, r.value.1.nextState);
                  (e2, pair + below)
  {
    hide AddBlock, ImportParked, EncBlock, Snapshot.StateBytes;
    assert [p][1..] == [];
    var (e1, acts) := ImportOne(c, e, p.block, ps);
    assert ImportAll(c, e1, [], ps) == (e1, []);
    assert acts + [] == acts;
    assert ImportAll(c, e, [p], ps) == (e1, acts);
    var r := AddBlock(c, e.chain, p.block, ps);
    if r.Ok? {
      var pair := PersistPair(c, p.block, r.value.1.nextState);
      assert pair + [] == pair;
    }
  }

  // ---------------------------------------------------------------- side branches

  /** None of the blocks would become the head. */
  ghost predicate NoneAbove(c: Crypto, ch: Chain, blocks: seq<ParkedBlock>)
    requires ch.head in ch.nodes
  {
    forall i :: 0 <= i < |blocks| ==> !Above(BlockHash(c, blocks[i].block), blocks[i].block, ch.head, ch.nodes[ch.head].block)
  }

  lemma {:induction false} SideAll(c: Crypto, e: Engine, blocks: seq<ParkedBlock>, ps: State)
    requires Live(e) && NoneAbove(c, e.chain, blocks)
    ensures var e' := ImportAll(c, e, blocks, ps).0;
            e'.chain.head == e.chain.head && e'.chain.state == e.chain.state && e'.parked == e.parked
    decreases |blocks|
  {
    hide BlockHash, Above, AddBlock, PersistPair, ImportParked;
    if blocks != [] {
      var b := blocks[0].block;
      SideOne(c, e.chain, b, ps);
      SideAll(c, ImportOne(c, e, b, ps).0, blocks[1..], ps);
    }
  }

  lemma SideOne(c: Crypto, ch: Chain, b: Block, ps: State)
    requires ch.head in ch.nodes && !Above(BlockHash(c, b), b, ch.head, ch.nodes[ch.head].block)
    ensures AddBlock(c, ch, b, ps).Ok? ==>
              var (next, imported) := AddBlock(c, ch, b, ps).value;
              && !imported.becameHead && next.head == ch.head && next.state == ch.state
              && next.nodes[next.head].block == ch.nodes[ch.head].block
  {
    hide BlockHash, Beats, Above, ValidateAndApply, Grow, RemoveMined;
    BeatsIsAbove(BlockHash(c, b), b, ch.head, ch.nodes[ch.head].block);
    if b.prev in ch.nodes { World.GrowBlocks(ch.nodes, BlockHash(c, b), b); }
  }

  /** A side branch is imported one level at a time: when none of the blocks waiting for `parent` would become the head,
      importing them releases nothing that waits for them. */
  lemma SideBranchWaits(c: Crypto, e: Engine, parent: Hash, ps: State)
    requires Live(e) && parent in e.parked && NoneAbove(c, e.chain, e.parked[parent])
    ensures var e' := ImportParked(c, e, parent, ps).0;
            e'.chain.head == e.chain.head && e'.chain.state == e.chain.state && e'.parked == e.parked - {parent}
  {
    hide ImportAll, NoneAbove, AddBlock;
    assert (e.parked - {parent}).Keys == e.parked.Keys - {parent};
    SideAll(c, e.(parked := e.parked - {parent}), e.parked[parent], ps);
  }

  // ---------------------------------------------------------------- accounting

  /** What became of one block taken out of `parked`: imported with a state, or refused. */
  datatype Import = Import(block: Block, outcome: Option<State>)

  ghost function Report(c: Crypto, i: Import): (r: seq<Action>) {
    match i.outcome
    case Some(s) => PersistPair(c, i.block, s)
    case None => [ReportEvent(FailedImportingParkedBlock)]
  }

  ghost function Reports(c: Crypto, log: seq<Import>): (r: seq<Action>) {
    if log == [] then [] else Report(c, log[0]) + Reports(c, log[1..])
  }

  ghost function Blocks(ps: seq<ParkedBlock>): (r: multiset<Block>) {
    if ps == [] then multiset{} else multiset{ps[0].block} + Blocks(ps[1..])
  }

  ghost function Imported(log: seq<Import>): (r: multiset<Block>) {
    if log == [] then multiset{} else multiset{log[0].block} + Imported(log[1..])
  }

  ghost function AllParked(parked: Parked): (r: multiset<Block>)
    decreases |parked|
  {
    if parked == map[] then multiset{} else
      var h :| h in parked;
      Blocks(parked[h]) + AllParked(parked - {h})
  }

  lemma {:induction false} AllParkedSplit(parked: Parked, h: Hash)
    requires h in parked
    ensures AllParked(parked) == Blocks(parked[h]) + AllParked(parked - {h})
    decreases |parked|
  {
    var k :| k in parked && AllParked(parked) == Blocks(parked[k]) + AllParked(parked - {k});
    if k != h {
      assert parked - {k} - {h} == parked - {h} - {k};
      AllParkedSplit(parked - {k}, h);
      AllParkedSplit(parked - {h}, k);
    }
  }

  lemma {:induction false} ReportsConcat(c: Crypto, xs: seq<Import>, ys: seq<Import>)
    ensures Reports(c, xs + ys) == Reports(c, xs) + Reports(c, ys)
    ensures Imported(xs + ys) == Imported(xs) + Imported(ys)
    decreases |xs|
  {
    hide Report;
    if xs == [] {
      assert xs + ys == ys;
    } else {
      assert (xs + ys)[1..] == xs[1..] + ys;
      ReportsConcat(c, xs[1..], ys);
    }
  }

  lemma Balance(p0: multiset<Block>, b: multiset<Block>, bs: multiset<Block>, p1: multiset<Block>, l1: multiset<Block>,
                p2: multiset<Block>, l2: multiset<Block>)
    requires p0 + b == p1 + l1 && p1 + bs == p2 + l2
    ensures p0 + (b + bs) == p2 + (l1 + l2)
  {
    assert p0 + (b + bs) == (p0 + b) + bs;
    assert (p1 + l1) + bs == (p1 + bs) + l1;
    assert (p2 + l2) + l1 == p2 + (l1 + l2);
  }

  /** Accounting for one import: the actions are, block by block, one persist pair or one failure report, and the
      blocks reported are exactly those that left `parked`. */
  lemma {:induction false} ImportParkedAccount(c: Crypto, e: Engine, parent: Hash, ps: State) returns (log: seq<Import>)
    requires Live(e)
    ensures ImportParked(c, e, parent, ps).1 == Reports(c, log)
    ensures AllParked(e.parked) == AllParked(ImportParked(c, e, parent, ps).0.parked) + Imported(log)
    decreases |e.parked|, 0, 0
  {
    hide AddBlock, BlockHash, Report;
    log := [];
    if parent in e.parked {
      assert (e.parked - {parent}).Keys == e.parked.Keys - {parent};
      AllParkedSplit(e.parked, parent);
      log := ImportAllAccount(c, e.(parked := e.parked - {parent}), e.parked[parent], ps);
    }
  }

  lemma {:induction false} ImportAllAccount(c: Crypto, e: Engine, blocks: seq<ParkedBlock>, ps: State) returns (log: seq<Import>)
    requires Live(e)
    ensures ImportAll(c, e, blocks, ps).1 == Reports(c, log)
    ensures AllParked(e.parked) + Blocks(blocks) == AllParked(ImportAll(c, e, blocks, ps).0.parked) + Imported(log)
    decreases |e.parked|, 2, |blocks|
  {
    hide ImportOne, AllParked, Reports, Imported;
    if blocks == [] {
      log := [];
      NoReports(c);
      assert AllParked(e.parked) + multiset{} == AllParked(e.parked);
    } else {
      var first := ImportOneAccount(c, e, blocks[0].block, ps);
      var rest := ImportAllAccount(c, ImportOne(c, e, blocks[0].block, ps).0, blocks[1..], ps);
      ReportsConcat(c, first, rest);
      log := first + rest;
      var e1 := ImportOne(c, e, blocks[0].block, ps).0;
      Balance(AllParked(e.parked), multiset{blocks[0].block}, Blocks(blocks[1..]), AllParked(e1.parked), Imported(first),
              AllParked(ImportAll(c, e1, blocks[1..], ps).0.parked), Imported(rest));
    }
  }

  lemma {:induction false} ImportOneAccount(c: Crypto, e: Engine, b: Block, ps: State) returns (log: seq<Import>)
    requires Live(e)
    ensures ImportOne(c, e, b, ps).1 == Reports(c, log)
    ensures AllParked(e.parked) + multiset{b} == AllParked(ImportOne(c, e, b, ps).0.parked) + Imported(log)
    decreases |e.parked|, 1, 0
  {
    hide AddBlock, BlockHash, AllParked, ImportParked, Reports, Imported, PersistPair;
    var r := AddBlock(c, e.chain, b, ps);
    NoReports(c);
    if r.Err? {
      log := [Import(b, None)] + [];
      ReportsCons(c, Import(b, None), []);
      assert multiset{b} + multiset{} == multiset{b};
    } else {
      var (ch, imported) := r.value;
      var below := [];
      if imported.becameHead {
        below := ImportParkedAccount(c, e.(chain := ch), BlockHash(c, b), imported.nextState);
      }
      log := [Import(b, Some(imported.nextState))] + below;
      ReportsCons(c, Import(b, Some(imported.nextState)), below);
      var after := AllParked(ImportOne(c, e, b, ps).0.parked);
      assert AllParked(e.parked) == after + Imported(below);
      assert (after + Imported(below)) + multiset{b} == after + (multiset{b} + Imported(below));
    }
  }

  lemma ReportsCons(c: Crypto, i: Import, log: seq<Import>)
    ensures Reports(c, [i] + log) == Report(c, i) + Reports(c, log)
    ensures Imported([i] + log) == multiset{i.block} + Imported(log)
  {
    hide Report;
    assert ([i] + log)[1..] == log;
  }

  lemma NoReports(c: Crypto)
    ensures Reports(c, []) == [] && Imported([]) == multiset{}
  {
  }
}
