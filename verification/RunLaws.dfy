/**
 The laws of the ledger at every block of every reachable node.  A node starts from the empty state and no transaction
 mints, so along with no-replay comes a fact about the whole system: nothing is ever held by anyone, and the leader
 check is never in force.
 */
module RunLaws {
  import opened Base
  import opened Models
  import opened Ledger
  import opened LedgerLaws
  import opened Chain
  import opened World
  import opened Delivery
  import opened Engine
  import opened Replays
  import opened Nvs
  import S = System

  lemma EmptyTotal()
    ensures Total(EMPTY_STATE) == 0
  {
  }

  /** A chain that starts from the empty state holds nothing. */
  lemma NothingMinted(c: Crypto, root: Block, bs: seq<Block>)
    requires ReplayChain(c, root, EMPTY_STATE, bs).Ok?
    ensures Total(ReplayChain(c, root, EMPTY_STATE, bs).value) == 0
  {
    hide ReplayChain, Total, ChainBurn;
    ChainConserves(c, root, EMPTY_STATE, bs);
    EmptyTotal();
  }

  /** With nothing held no account has anything, and no validator is ever expected. */
  lemma NothingHeld(c: Crypto, s: State, k: Key, height: u64)
    requires Total(s) == 0
    ensures Get(s.balances, k) == 0 && Get(s.stakes, k) == 0 && ExpectedValidator(c, s.stakes, height) == Value(None)
  {
    hide Sum, Validators, Winner;
    EntrySum(s.balances, k);
    EntrySum(s.stakes, k);
    ValidatorsDistinct(c, s.stakes);
    StakeWithinSum(Validators(c, s.stakes), s.stakes);
  }

  /** What holds of a state at the end of a chain of blocks from genesis. */
  ghost predicate Lawful(c: Crypto, bs: seq<Block>, s: State) {
    && ReplayChain(c, Genesis(c), EMPTY_STATE, bs) == Ok(s)
    && Total(s) == 0
    && (forall k: Key :: Get(s.balances, k) == 0 && Get(s.stakes, k) == 0)
    && (forall height: u64 :: ExpectedValidator(c, s.stakes, height) == Value(None))
    && CountedOnce(AllTxs(bs), s)
  }

  /** Each sender's sequence numbers are 0, 1, 2, ... in order, and its nonce is its number of transactions. */
  ghost predicate CountedOnce(txs: seq<Transaction>, s: State) {
    && (forall k: Key :: Get(s.nonces, k) == CountBy(txs, k))
    && (forall i {:trigger txs[i]} :: 0 <= i < |txs| ==> txs[i].sequence == CountBy(txs[..i], txs[i].sender))
    && (forall i, j :: 0 <= i < j < |txs| && txs[i].sender == txs[j].sender ==> txs[i].sequence < txs[j].sequence)
  }

  lemma ChainCounted(c: Crypto, bs: seq<Block>)
    requires ReplayChain(c, Genesis(c), EMPTY_STATE, bs).Ok?
    ensures CountedOnce(AllTxs(bs), ReplayChain(c, Genesis(c), EMPTY_STATE, bs).value)
  {
    hide ReplayChain, AllTxs, CountBy;
    NoReplay(c, Genesis(c), bs);
  }

  lemma ChainLawful(c: Crypto, bs: seq<Block>)
    requires ReplayChain(c, Genesis(c), EMPTY_STATE, bs).Ok?
    ensures Lawful(c, bs, ReplayChain(c, Genesis(c), EMPTY_STATE, bs).value)
  {
    hide ReplayChain, Total, ExpectedValidator, CountedOnce, Get;
    var s := ReplayChain(c, Genesis(c), EMPTY_STATE, bs).value;
    NothingMinted(c, Genesis(c), bs);
    ChainCounted(c, bs);
    forall k: Key ensures Get(s.balances, k) == 0 && Get(s.stakes, k) == 0 { NothingHeld(c, s, k, 0); }
    forall height: u64 ensures ExpectedValidator(c, s.stakes, height) == Value(None) { NothingHeld(c, s, c.genesisKey, height); }
  }

  /** At every block of the tree of every reachable node, restarts included: the block ends a chain of blocks from genesis
      that the ledger accepts, on which no transaction is replayed, after which nothing is held by anyone and no
      validator is expected at any height; at the head the resulting state is the node's own. */
  lemma TreeLaws(c: Crypto, pc: Postcard, u: iset<Block>, evs: seq<S.Event>, h: Hash) returns (bs: seq<Block>, s: State)
    requires CollisionFree(c, u) && RoundTrips(pc) && Genesis(c) in u
    requires forall i :: 0 <= i < |evs| ==> S.LegalEvent(u, evs[i])
    requires h in S.Run(c, pc, evs).engine.chain.nodes
    ensures var ch := S.Run(c, pc, evs).engine.chain;
            && Lawful(c, bs, s) && SameContent(ch.nodes[h].block, Tip(Genesis(c), bs))
            && (h == ch.head ==> s == ch.state)
  {
    hide CollisionFree, RoundTrips, S.LegalEvent, S.Run, ValidTree, Validated, Replay, BlockHash, SameContent, Lawful, ReplayChain,
         S.Emitted, TrueActions, Accounted, S.TrueQueue;
    var w, root := S.RunReplays(c, pc, u, evs);
    var ch := S.Run(c, pc, evs).engine.chain;
    OriginOf(c, w);
    assert ch.nodes[h] == ch.nodes[h];
    bs := ReplayIsChain(c, w, h);
    s := Replay(c, w, h).value;
    ChainLawful(c, bs);
  }

  lemma OriginOf(c: Crypto, w: World)
    requires Extends(S.Origin(c), w)
    ensures w.origin in w.blocks && w.blocks[w.origin] == Genesis(c) && w.start == EMPTY_STATE
  {
    hide BlockHash;
    var o := S.Origin(c);
    assert o.blocks[o.origin] == Genesis(c);
  }

  /** The state of every reachable node holds nothing, and its leader check accepts any validator. */
  lemma NodeHoldsNothing(c: Crypto, pc: Postcard, u: iset<Block>, evs: seq<S.Event>)
    requires CollisionFree(c, u) && RoundTrips(pc) && Genesis(c) in u
    requires forall i :: 0 <= i < |evs| ==> S.LegalEvent(u, evs[i])
    ensures var s := S.Run(c, pc, evs).engine.chain.state;
            Total(s) == 0 && forall height: u64 :: ExpectedValidator(c, s.stakes, height) == Value(None)
  {
    hide CollisionFree, RoundTrips, S.LegalEvent, S.Run, Total, ExpectedValidator, ReplayChain, CountedOnce, SameContent;
    var ch := S.Run(c, pc, evs).engine.chain;
    var bs, s := TreeLaws(c, pc, u, evs, ch.head);
  }
}
