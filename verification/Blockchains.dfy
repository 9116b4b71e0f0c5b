/**
 `Blockchain` as it runs (rp-node/src/blockchain.rs): the tree, head, state and mempool updated in place, and the
 walks as loops over a moving hash, proved against the functions of `Chain`.
 */
module Blockchains {
  import opened Base
  import opened Models
  import opened Ledger
  import opened Mempool
  import C = Chain
  import opened Walks
  import E = Engine

  function Reversed<T>(s: seq<T>): (r: seq<T>)
    ensures |r| == |s| && forall i :: 0 <= i < |s| ==> r[i] == s[|s| - 1 - i]
  {
    if s == [] then [] else [s[|s| - 1]] + Reversed(s[..|s| - 1])
  }

  /** In every reachable tree the walks end: all blocks descend from `root`, whose parent is not in the tree. */
  ghost predicate Walkable(nodes: C.Nodes, root: Hash) {
    C.Rooted(nodes, root) && Detached(nodes, root)
  }

  /** One turn of the loop of `get_blocks`. */
  lemma WalkTurn(nodes: C.Nodes, root: Hash, h: Hash, lo: u64, hi: u64, before: seq<Block>)
    requires Walkable(nodes, root) && h in nodes
    ensures var e := nodes[root].block.height; var b := nodes[h].block;
            var after := if lo <= b.height <= hi then before + [b] else before;
            && (b.height == e || b.height == 0 <==> h == root)
            && (h == root ==> C.Collect(nodes, h, lo, hi, e) + Reversed(before) == Reversed(after))
            && (h != root ==>
                  && b.prev in nodes && nodes[b.prev].block.height < b.height
                  && C.Collect(nodes, h, lo, hi, e) + Reversed(before) == C.Collect(nodes, b.prev, lo, hi, e) + Reversed(after))
  {
    hide C.Rooted, Detached;
    RootedStep(nodes, root, h);
    RootHeight(nodes, root, h);
    var b := nodes[h].block;
    if lo <= b.height <= hi {
      assert (before + [b])[..|before|] == before;
    }
  }

  class Blockchain {
    var chain: C.Nodes
    var headHash: Hash
    var state: State
    var mempool: TransactionPool

    function View(): (r: C.Chain)
      reads this, mempool
    {
      C.Chain(chain, headHash, state, mempool.transactions)
    }

    ghost predicate Valid()
      reads this, mempool
    {
      headHash in chain && mempool.maxSize == C.MEMPOOL_SIZE
    }

    constructor (c: Crypto)
      ensures Valid() && fresh(mempool) && View() == C.NewChain(c)
    {
      var genesis := C.Genesis(c);
      var genesisHash := BlockHash(c, genesis);
      chain := map[genesisHash := C.BlockNode(genesis, [])];
      headHash := genesisHash;
      state := EMPTY_STATE;
      mempool := new TransactionPool(C.MEMPOOL_SIZE);
    }

    method GetLatestBlock() returns (b: Block)
      requires Valid()
      ensures b == C.LatestBlock(View())
    {
      b := chain[headHash].block;
    }

    method RestoreHead(c: Crypto, block: Block, restored: State)
      modifies this
      ensures Valid() && fresh(mempool) && View() == C.RestoreHead(c, block, restored)
    {
      var blockHash := BlockHash(c, block);
      chain := map[];
      chain := chain[blockHash := C.BlockNode(block, [])];
      headHash := blockHash;
      state := restored;
      mempool := new TransactionPool(C.MEMPOOL_SIZE);
    }

    /** The lowest height the head's ancestor path reaches. */
    method EarliestContiguousHeight(ghost root: Hash) returns (earliest: u64)
      requires Valid() && Walkable(chain, root)
      ensures earliest == C.EarliestContiguousHeight(View()) == chain[root].block.height
    {
      hide C.Rooted;
      EarliestIsRoot(chain, root, headHash);
      var current := headHash;
      earliest := chain[headHash].block.height;
      while current in chain
        invariant current in chain && C.EarliestFrom(chain, current) == C.EarliestFrom(chain, headHash)
        decreases chain[current].block.height
      {
        RootedStep(chain, root, current);
        var node := chain[current];
        earliest := node.block.height;
        if node.block.height == 0 || node.block.prev !in chain {
          break;
        }
        current := node.block.prev;
      }
    }

    method AddTransaction(c: Crypto, t: Transaction) returns (r: Result<bool, E.Event>)
      requires Valid()
      modifies mempool
      ensures Valid()
      ensures (View(), r) == E.AddTransaction(c, old(View()), t)
    {
      if IsValidTx(c, state, t) {
        var added := mempool.AddTransaction(c, t);
        match added {
          case Ok(isNew) => r := Ok(isNew);
          case Err(reason) => r := Err(E.MempoolRefused(reason));
        }
      } else {
        r := Err(E.InvalidTransactionReceived);
      }
    }

    method AddBlock(c: Crypto, block: Block, parentState: State) returns (r: Result<C.Imported, C.NodeError>)
      requires Valid()
      modifies this, mempool
      ensures Valid() && mempool == old(mempool)
      ensures var spec := C.AddBlock(c, old(View()), block, parentState);
              && (spec.Err? ==> r == Err(spec.error) && View() == old(View()))
              && (spec.Ok? ==> r == Ok(spec.value.1) && View() == spec.value.0)
    {
      hide ValidateAndApply, BlockHash, Beats;
      if block.prev !in chain {
        return Err(C.ParentBlockNotFound);
      }
      var parent := chain[block.prev].block;
      var applied := ValidateAndApplyBlock(c, parent, parentState, block);
      if applied.Err? {
        return Err(C.BlockRejected(applied.error));
      }
      var blockHash := BlockHash(c, block);
      var parentNode := chain[block.prev];
      if blockHash !in parentNode.children {
        chain := chain[block.prev := parentNode.(children := parentNode.children + [blockHash])];
      }
      if blockHash !in chain {
        chain := chain[blockHash := C.BlockNode(block, [])];
      }
      assert chain == C.Grow(old(chain), blockHash, block);
      var replaceHead := Beats(blockHash, block, headHash, chain[headHash].block);
      if replaceHead {
        headHash := blockHash;
        state := applied.value;
        RemoveTransactions(c, block.transactions);
      }
      r := Ok(C.Imported(applied.value, replaceHead));
    }

    /** Drop the transactions a new head carries. */
    method RemoveTransactions(c: Crypto, txs: seq<Transaction>)
      modifies mempool
      ensures mempool.transactions == C.RemoveMined(c, old(mempool.transactions), txs)
    {
      for i := 0 to |txs|
        invariant mempool.transactions == C.RemoveMined(c, old(mempool.transactions), txs[..i])
      {
        assert txs[..i + 1][..i] == txs[..i];
        mempool.RemoveTransaction(c, TxHash(c, txs[i]));
      }
      assert txs[..|txs|] == txs;
    }

    method GetBlocks(lo: u64, hi: u64, ghost root: Hash) returns (blocks: seq<Block>)
      requires Valid() && Walkable(chain, root)
      ensures blocks == C.GetBlocks(View(), lo, hi)
    {
      hide C.Rooted, Detached, C.EarliestFrom, C.Collect, Reversed;
      blocks := [];
      if lo > hi {
        return;
      }
      var earliest := EarliestContiguousHeight(root);
      var latest := GetLatestBlock();
      if lo < earliest || lo > latest.height {
        return;
      }
      var current := headHash;
      while current in chain
        invariant current in chain
        invariant C.Collect(chain, headHash, lo, hi, earliest) == C.Collect(chain, current, lo, hi, earliest) + Reversed(blocks)
        decreases chain[current].block.height
      {
        WalkTurn(chain, root, current, lo, hi, blocks);
        var node := chain[current];
        if lo <= node.block.height <= hi {
          blocks := blocks + [node.block];
        }
        if node.block.height == earliest || node.block.height == 0 {
          break;
        }
        current := node.block.prev;
      }
      blocks := Reversed(blocks);
    }
  }
}
