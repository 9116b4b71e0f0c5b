/**
 What every accepted chain of blocks keeps: value is conserved up to slashing, no addition or
 subtraction leaves u64, and no transaction is applied twice.
 */
module LedgerLaws {
  import opened Base
  import opened Models
  import opened Ledger

  // ---------------------------------------------------------------- chains of blocks

  function Tip(root: Block, bs: seq<Block>): (r: Block) {
    if bs == [] then root else bs[|bs| - 1]
  }

  /** The state after a chain of blocks on top of `root`. */
  function ReplayChain(c: Crypto, root: Block, s: State, bs: seq<Block>): (r: Result<State, BlockError>) {
    if bs == [] then Ok(s) else
      var n := |bs| - 1;
      match ReplayChain(c, root, s, bs[..n])
      case Err(e) => Err(e)
      case Ok(mid) => ValidateAndApply(c, Tip(root, bs[..n]), mid, bs[n])
  }

  /** An accepted block is one above its parent, in a later slot, and commits to the balances it leads to. */
  lemma AcceptedBody(c: Crypto, p: Block, s: State, b: Block)
    requires ValidateAndApply(c, p, s, b).Ok?
    ensures ApplyBody(c, s, b) == ValidateAndApply(c, p, s, b)
    ensures b.height == p.height + 1 && p.slot < b.slot
    ensures b.stateRoot == Merkle.StateRoot(c, ValidateAndApply(c, p, s, b).value.balances)
  {
    hide ApplyBody, ExpectedValidator, Merkle.StateRoot, IsValidBlock;
  }

  // ---------------------------------------------------------------- totals

  ghost function Amount(v: u64): (r: nat) { v }

  ghost function QueueTotal(q: Vec<UnstakeRequest>): (r: nat) {
    if q == [] then 0 else QueueTotal(q[..|q| - 1]) + q[|q| - 1].amount
  }

  ghost function SumU64(m: Table<u64>): (r: nat) { Sum(m, Amount) }

  ghost function SumQueues(m: Table<Vec<UnstakeRequest>>): (r: nat) { Sum(m, QueueTotal) }

  /** Everything the ledger holds: balances, stakes and unstaking queues. */
  ghost function Total(s: State): (r: nat) {
    SumU64(s.balances) + SumU64(s.stakes) + SumQueues(s.unstaking)
  }

  lemma EntrySum(m: Table<u64>, k: Key)
    ensures SumU64(m) == Sum(m - {k}, Amount) + Get(m, k)
  {
    SumRemove(m, Amount, k);
  }

  lemma PutSum(m: Table<u64>, k: Key, v: u64)
    requires Put(m, k, v).Value?
    ensures SumU64(Put(m, k, v).value) + Get(m, k) == SumU64(m) + v
  {
    SumUpdate(m, Amount, k, v);
    EntrySum(m, k);
  }

  lemma CreditSum(m: Table<u64>, k: Key, x: u64)
    requires Credit(m, k, x).Value?
    ensures SumU64(Credit(m, k, x).value) == SumU64(m) + x
  {
    hide SumU64;
    PutSum(m, k, Get(m, k) + x);
  }

  lemma DebitSum(m: Table<u64>, k: Key, x: u64)
    requires Debit(m, k, x).Value?
    ensures SumU64(Debit(m, k, x).value) + x == SumU64(m)
  {
    hide SumU64;
    PutSum(m, k, Get(m, k) - x);
  }

  lemma EnqueueSum(m: Table<Vec<UnstakeRequest>>, k: Key, q: UnstakeRequest)
    requires Enqueue(m, k, q).Value?
    ensures SumQueues(Enqueue(m, k, q).value) == SumQueues(m) + q.amount
  {
    var queue: Vec<UnstakeRequest> := Requests(m, k) + [q];
    assert queue[..|queue| - 1] == Requests(m, k);
    SumUpdate<Vec<UnstakeRequest>>(m, QueueTotal, k, queue);
    SumRemove<Vec<UnstakeRequest>>(m, QueueTotal, k);
  }

  // ---------------------------------------------------------------- conservation

  /** What slashing `k` destroys. */
  ghost function Holdings(s: State, k: Key): (r: nat) { Get(s.stakes, k) + QueueTotal(Requests(s.unstaking, k)) }

  ghost function DataBurn(s: State, data: TransactionData): (r: nat) {
    if data.Slash? then Holdings(s, data.proof.validator) else 0
  }

  ghost function TxsBurn(c: Crypto, s: State, txs: seq<Transaction>, slot: u64): (r: nat)
    requires ApplyTxs(c, s, txs, slot).Ok?
  {
    if txs == [] then 0 else
      var n := |txs| - 1;
      TxsBurn(c, s, txs[..n], slot) + DataBurn(ApplyTxs(c, s, txs[..n], slot).value, txs[n].data)
  }

  ghost function SlashesBurn(c: Crypto, s: State, proofs: seq<SlashProof>): (r: nat)
    requires ApplySlashes(c, s, proofs).Ok?
  {
    if proofs == [] then 0 else
      var n := |proofs| - 1;
      SlashesBurn(c, s, proofs[..n]) + Holdings(ApplySlashes(c, s, proofs[..n]).value, proofs[n].validator)
  }

  ghost function BlockBurn(c: Crypto, s: State, b: Block): (r: nat)
    requires ApplyBody(c, s, b).Ok?
  {
    TxsBurn(c, s, b.transactions, b.slot)
    + SlashesBurn(c, ApplyTxs(c, s, b.transactions, b.slot).value, b.slashProofs)
  }

  ghost function ChainBurn(c: Crypto, root: Block, s: State, bs: seq<Block>): (r: nat)
    requires ReplayChain(c, root, s, bs).Ok?
  {
    if bs == [] then 0 else
      var n := |bs| - 1;
      var mid := ReplayChain(c, root, s, bs[..n]).value;
      AcceptedBody(c, Tip(root, bs[..n]), mid, bs[n]);
      ChainBurn(c, root, s, bs[..n]) + BlockBurn(c, mid, bs[n])
  }

  lemma SlashConserves(c: Crypto, s: State, p: SlashProof)
    requires ApplySlash(c, s, p).Ok?
    ensures Total(ApplySlash(c, s, p).value) + Holdings(s, p.validator) == Total(s)
  {
    SumRemove(s.stakes, Amount, p.validator);
    SumRemove(s.unstaking, QueueTotal, p.validator);
  }

  lemma DataConserves(c: Crypto, s: State, k: Key, data: TransactionData, slot: u64)
    requires ApplyData(c, s, k, data, slot).Value?
    requires data.Slash? ==> ValidateProof(c, data.proof).Ok?
    ensures Total(ApplyData(c, s, k, data, slot).value) + DataBurn(s, data) == Total(s)
  {
    hide Debit, Credit, Enqueue, ValidateProof, SumU64, SumQueues;
    match data {
      case Transfer(receiver, amount) =>
        DebitSum(s.balances, k, amount);
        CreditSum(Debit(s.balances, k, amount).value, receiver, amount);
      case Stake(amount) =>
        DebitSum(s.balances, k, amount);
        CreditSum(s.stakes, k, amount);
      case Unstake(amount) =>
        DebitSum(s.stakes, k, amount);
        EnqueueSum(s.unstaking, k, UnstakeRequest(amount, slot + UNSTAKE_LOCK_SLOTS));
      case Slash(proof) =>
        SlashConserves(c, s, proof);
    }
  }

  lemma TxConserves(c: Crypto, s: State, tx: Transaction, slot: u64)
    requires IsValidTx(c, s, tx) && ApplyTx(c, s, tx, slot).Value?
    ensures Total(ApplyTx(c, s, tx, slot).value) + DataBurn(s, tx.data) == Total(s)
  {
    hide ApplyData, Credit, DataBurn, SumU64, SumQueues;
    DataConserves(c, s, tx.sender, tx.data, slot);
  }

  lemma {:induction false} TxsConserve(c: Crypto, s: State, txs: seq<Transaction>, slot: u64)
    requires ApplyTxs(c, s, txs, slot).Ok?
    ensures Total(ApplyTxs(c, s, txs, slot).value) + TxsBurn(c, s, txs, slot) == Total(s)
    decreases |txs|
  {
    hide IsValidTx, ApplyTx, DataBurn, Total;
    if txs != [] {
      var n := |txs| - 1;
      TxsConserve(c, s, txs[..n], slot);
      TxConserves(c, ApplyTxs(c, s, txs[..n], slot).value, txs[n], slot);
    }
  }

  lemma {:induction false} SlashesConserve(c: Crypto, s: State, proofs: seq<SlashProof>)
    requires ApplySlashes(c, s, proofs).Ok?
    ensures Total(ApplySlashes(c, s, proofs).value) + SlashesBurn(c, s, proofs) == Total(s)
    decreases |proofs|
  {
    hide ApplySlash, Total, Holdings;
    if proofs != [] {
      var n := |proofs| - 1;
      SlashesConserve(c, s, proofs[..n]);
      SlashConserves(c, ApplySlashes(c, s, proofs[..n]).value, proofs[n]);
    }
  }

  /** An accepted block changes the total by exactly what its slashes burn. */
  lemma BlockConserves(c: Crypto, p: Block, s: State, b: Block)
    requires ValidateAndApply(c, p, s, b).Ok?
    ensures ApplyBody(c, s, b).Ok?
    ensures Total(ValidateAndApply(c, p, s, b).value) + BlockBurn(c, s, b) == Total(s)
  {
    hide ApplyTxs, ApplySlashes, ValidateAndApply, Total;
    AcceptedBody(c, p, s, b);
    TxsConserve(c, s, b.transactions, b.slot);
    SlashesConserve(c, ApplyTxs(c, s, b.transactions, b.slot).value, b.slashProofs);
  }

  /** Conservation along every accepted chain. */
  lemma {:induction false} ChainConserves(c: Crypto, root: Block, s: State, bs: seq<Block>)
    requires ReplayChain(c, root, s, bs).Ok?
    ensures Total(ReplayChain(c, root, s, bs).value) + ChainBurn(c, root, s, bs) == Total(s)
    decreases |bs|
  {
    hide ValidateAndApply, ApplyBody, BlockBurn, Total;
    if bs != [] {
      var n := |bs| - 1;
      ChainConserves(c, root, s, bs[..n]);
      BlockConserves(c, Tip(root, bs[..n]), ReplayChain(c, root, s, bs[..n]).value, bs[n]);
    }
  }

  // ---------------------------------------------------------------- arithmetic safety

  /** Room in every counter and collection for `n` more transactions. */
  ghost predicate Room(s: State, n: nat) {
    && |s.balances| + 2 * n < U64_LIMIT
    && |s.nonces| + n < U64_LIMIT
    && |s.stakes| + n < U64_LIMIT
    && |s.unstaking| + n < U64_LIMIT
    && (forall k: Key :: Get(s.nonces, k) + n < U64_LIMIT)
    && (forall k: Key :: |Requests(s.unstaking, k)| + n < U64_LIMIT)
  }

  /** A credit fits when the table has room and its new sum fits. */
  lemma CreditFits(m: Table<u64>, k: Key, x: u64)
    requires |m| + 1 < U64_LIMIT
    requires Get(m, k) + x < U64_LIMIT
    ensures Credit(m, k, x).Value? && |Credit(m, k, x).value| <= |m| + 1
    ensures forall j: Key :: Get(Credit(m, k, x).value, j) == Get(m, j) + (if j == k then x else 0)
  {
    InsertSize(m, k, Get(m, k) + x);
  }

  lemma DebitFits(m: Table<u64>, k: Key, x: u64)
    requires |m| + 1 < U64_LIMIT && x <= Get(m, k)
    ensures Debit(m, k, x).Value? && |Debit(m, k, x).value| <= |m| + 1
  {
    InsertSize(m, k, Get(m, k) - x);
  }

  lemma EnqueueFits(m: Table<Vec<UnstakeRequest>>, k: Key, q: UnstakeRequest)
    requires |m| + 1 < U64_LIMIT && |Requests(m, k)| + 1 < U64_LIMIT
    ensures Enqueue(m, k, q).Value? && |Enqueue(m, k, q).value| <= |m| + 1
    ensures forall j: Key :: |Requests(Enqueue(m, k, q).value, j)| == |Requests(m, j)| + (if j == k then 1 else 0)
  {
    InsertSize(m, k, Requests(m, k) + [q]);
  }

  lemma RoomShrinks(s: State, n: nat)
    requires n > 0 && Room(s, n)
    ensures Room(s, n - 1)
  {
    hide Get, Requests;
    forall k: Key ensures Get(s.nonces, k) + (n - 1) < U64_LIMIT {
      assert Get(s.nonces, k) + n < U64_LIMIT;
    }
    forall k: Key ensures |Requests(s.unstaking, k)| + (n - 1) < U64_LIMIT {
      assert |Requests(s.unstaking, k)| + n < U64_LIMIT;
    }
  }

  lemma SlashFits(c: Crypto, s: State, p: SlashProof, n: nat)
    requires Room(s, n) && ApplySlash(c, s, p).Ok?
    ensures Room(ApplySlash(c, s, p).value, n)
    ensures ApplySlash(c, s, p).value.nonces == s.nonces
  {
    hide ValidateProof, Get;
    var k := p.validator;
    var t := ApplySlash(c, s, p).value;
    assert t.stakes.Keys == s.stakes.Keys - {k} && t.unstaking.Keys == s.unstaking.Keys - {k};
    forall j: Key ensures |Requests(t.unstaking, j)| + n < U64_LIMIT {
      assert |Requests(t.unstaking, j)| <= |Requests(s.unstaking, j)|;
    }
  }

  lemma DataFits(c: Crypto, s: State, tx: Transaction, slot: u64, n: nat)
    requires n > 0 && Room(s, n) && Total(s) < U64_LIMIT && slot + UNSTAKE_LOCK_SLOTS < U64_LIMIT
    requires IsValidTx(c, s, tx)
    ensures var r := ApplyData(c, s, tx.sender, tx.data, slot);
            r.Value? && r.value.nonces == s.nonces && Room(r.value, n - 1)
  {
    hide Debit, Credit, Enqueue, SumU64, SumQueues, ValidateProof;
    var k := tx.sender;
    match tx.data {
      case Transfer(receiver, amount) =>
        DebitFits(s.balances, k, amount);
        DebitSum(s.balances, k, amount);
        var b0 := Debit(s.balances, k, amount).value;
        EntrySum(b0, receiver);
        CreditFits(b0, receiver, amount);
      case Stake(amount) =>
        DebitFits(s.balances, k, amount);
        EntrySum(s.stakes, k);
        EntrySum(s.balances, k);
        CreditFits(s.stakes, k, amount);
      case Unstake(amount) =>
        DebitFits(s.stakes, k, amount);
        EnqueueFits(s.unstaking, k, UnstakeRequest(amount, slot + UNSTAKE_LOCK_SLOTS));
      case Slash(proof) =>
        SlashFits(c, s, proof, n);
        RoomShrinks(ApplySlash(c, s, proof).value, n);
    }
  }

  lemma TxFits(c: Crypto, s: State, tx: Transaction, slot: u64, n: nat)
    requires n > 0 && Room(s, n) && Total(s) < U64_LIMIT && slot + UNSTAKE_LOCK_SLOTS < U64_LIMIT
    requires IsValidTx(c, s, tx)
    ensures ApplyTx(c, s, tx, slot).Value? && Room(ApplyTx(c, s, tx, slot).value, n - 1)
  {
    hide ApplyData, Total, Credit, IsValidTx;
    DataFits(c, s, tx, slot, n);
    var next := ApplyData(c, s, tx.sender, tx.data, slot).value;
    CreditFits(next.nonces, tx.sender, 1);
  }

  lemma {:induction false} TxsFit(c: Crypto, s: State, txs: seq<Transaction>, slot: u64, n: nat)
    requires |txs| <= n && Room(s, n) && Total(s) < U64_LIMIT && slot + UNSTAKE_LOCK_SLOTS < U64_LIMIT
    ensures ApplyTxs(c, s, txs, slot) != Err(ArithmeticOverflow)
    ensures ApplyTxs(c, s, txs, slot).Ok? ==> Room(ApplyTxs(c, s, txs, slot).value, n - |txs|)
    decreases |txs|
  {
    hide Room, IsValidTx, ApplyTx, Total;
    if txs != [] {
      var m := |txs| - 1;
      TxsFit(c, s, txs[..m], slot, n);
      if ApplyTxs(c, s, txs[..m], slot).Ok? {
        var mid := ApplyTxs(c, s, txs[..m], slot).value;
        TxsConserve(c, s, txs[..m], slot);
        if IsValidTx(c, mid, txs[m]) { TxFits(c, mid, txs[m], slot, n - m); }
      }
    }
  }

  lemma {:induction false} SlashesFit(c: Crypto, s: State, proofs: seq<SlashProof>, n: nat)
    requires Room(s, n)
    ensures ApplySlashes(c, s, proofs) != Err(ArithmeticOverflow)
    ensures ApplySlashes(c, s, proofs).Ok? ==> Room(ApplySlashes(c, s, proofs).value, n)
    decreases |proofs|
  {
    hide ApplySlash, Room;
    if proofs != [] {
      var m := |proofs| - 1;
      SlashesFit(c, s, proofs[..m], n);
      var r := ApplySlashes(c, s, proofs[..m]);
      if r.Ok? && ApplySlash(c, r.value, proofs[m]).Ok? { SlashFits(c, r.value, proofs[m], n); }
    }
  }

  lemma {:induction false} StakeWithinSum(ks: seq<Key>, m: map<Key, u64>)
    requires forall i, j :: 0 <= i < j < |ks| ==> ks[i] != ks[j]
    requires forall k :: k in ks ==> k in m
    ensures TotalStake(ks, m) <= Sum(m, Amount)
    decreases |ks|
  {
    if ks != [] {
      var n := |ks| - 1;
      var rest := m - {ks[n]};
      assert forall k :: k in ks[..n] ==> k in ks && k in rest;
      StakeWithinSum(ks[..n], rest);
      SameStakes(ks[..n], m, rest);
      SumRemove(m, Amount, ks[n]);
    }
  }

  lemma {:induction false} SameStakes(ks: seq<Key>, m: map<Key, u64>, n: map<Key, u64>)
    requires forall k :: k in ks ==> k in m && k in n && m[k] == n[k]
    ensures TotalStake(ks, m) == TotalStake(ks, n)
    decreases |ks|
  {
    if ks != [] { SameStakes(ks[..|ks| - 1], m, n); }
  }

  lemma {:induction false} PointsDistinct(c: Crypto, ks: seq<Key>)
    requires forall i, j :: 0 <= i < j < |ks| ==> ks[i] != ks[j]
    ensures forall i, j :: 0 <= i < j < |Points(c, ks)| ==> Points(c, ks)[i] != Points(c, ks)[j]
    decreases |ks|
  {
    if ks != [] {
      PointsDistinct(c, ks[..|ks| - 1]);
      assert ks[|ks| - 1] !in ks[..|ks| - 1];
    }
  }

  lemma ValidatorsDistinct(c: Crypto, stakes: map<Key, u64>)
    ensures var ks := Validators(c, stakes); forall i, j :: 0 <= i < j < |ks| ==> ks[i] != ks[j]
  {
    var ks := SortedKeys(stakes.Keys);
    forall i, j | 0 <= i < j < |ks| ensures ks[i] != ks[j] { SortedKeysDistinct(stakes.Keys, i, j); }
    PointsDistinct(c, ks);
  }

  lemma LeaderFits(c: Crypto, stakes: Table<u64>, height: u64)
    requires SumU64(stakes) < U64_LIMIT
    ensures ExpectedValidator(c, stakes, height).Value?
  {
    hide Validators, Winner;
    ValidatorsDistinct(c, stakes);
    StakeWithinSum(Validators(c, stakes), stakes);
  }

  /** Arithmetic safety of one block: with the total within u64 and the counters away from it, nothing in
      validation, application or leader selection overflows, self-transfers included. */
  lemma BlockFits(c: Crypto, p: Block, s: State, b: Block, n: nat)
    requires Total(s) < U64_LIMIT && |b.transactions| <= n && Room(s, n)
    requires p.height + 1 < U64_LIMIT && b.slot + UNSTAKE_LOCK_SLOTS < U64_LIMIT
    ensures ValidateAndApply(c, p, s, b) != Err(ArithmeticOverflow)
    ensures ValidateAndApply(c, p, s, b).Ok? ==> Room(ValidateAndApply(c, p, s, b).value, n - |b.transactions|)
  {
    hide Room, ApplyTxs, ApplySlashes, ExpectedValidator, Merkle.StateRoot, IsValidBlock, SumU64, SumQueues;
    LeaderFits(c, s.stakes, b.height);
    TxsFit(c, s, b.transactions, b.slot, n);
    var r := ApplyTxs(c, s, b.transactions, b.slot);
    if r.Ok? { SlashesFit(c, r.value, b.slashProofs, n - |b.transactions|); }
  }

  /** Arithmetic safety along a chain: if the initial total fits u64 and the counters have room for the chain's
      transactions, slots and heights, replaying it never overflows. */
  lemma {:induction false} ChainFits(c: Crypto, root: Block, s: State, bs: seq<Block>, n: nat)
    requires Total(s) < U64_LIMIT && |AllTxs(bs)| <= n && Room(s, n)
    requires root.height + |bs| < U64_LIMIT
    requires forall b :: b in bs ==> b.slot + UNSTAKE_LOCK_SLOTS < U64_LIMIT
    ensures ReplayChain(c, root, s, bs) != Err(ArithmeticOverflow)
    ensures ReplayChain(c, root, s, bs).Ok? ==>
              && Room(ReplayChain(c, root, s, bs).value, n - |AllTxs(bs)|)
              && Tip(root, bs).height == root.height + |bs|
    decreases |bs|
  {
    hide Room, ValidateAndApply, Total;
    if bs != [] {
      var m := |bs| - 1;
      var b := bs[m];
      ChainFits(c, root, s, bs[..m], n);
      var r := ReplayChain(c, root, s, bs[..m]);
      if r.Ok? {
        var p := Tip(root, bs[..m]);
        ChainConserves(c, root, s, bs[..m]);
        BlockFits(c, p, r.value, b, n - |AllTxs(bs[..m])|);
        if ValidateAndApply(c, p, r.value, b).Ok? { AcceptedBody(c, p, r.value, b); }
      }
    }
  }

  // ---------------------------------------------------------------- no replay

  ghost function CountBy(txs: seq<Transaction>, k: Key): (r: nat) {
    if txs == [] then 0 else
      CountBy(txs[..|txs| - 1], k) + (if txs[|txs| - 1].sender == k then 1 else 0)
  }

  /** The transactions of a chain of blocks, in order of application. */
  ghost function AllTxs(bs: seq<Block>): (r: seq<Transaction>) {
    if bs == [] then [] else AllTxs(bs[..|bs| - 1]) + bs[|bs| - 1].transactions
  }

  /** Starting from the nonces of `s`, every sender's sequence numbers count up by one. */
  ghost predicate Sequential(s: State, txs: seq<Transaction>) {
    forall i {:trigger txs[i]} :: 0 <= i < |txs| ==>
      txs[i].sequence == Get(s.nonces, txs[i].sender) + CountBy(txs[..i], txs[i].sender)
  }

  /** The nonces of `t` are those of `s` advanced by each sender's transactions in `txs`. */
  ghost predicate Advanced(s: State, txs: seq<Transaction>, t: State) {
    forall k: Key :: Get(t.nonces, k) == Get(s.nonces, k) + CountBy(txs, k)
  }

  lemma TxAdvances(c: Crypto, s: State, tx: Transaction, slot: u64)
    requires ApplyTx(c, s, tx, slot).Value?
    ensures forall k: Key :: Get(ApplyTx(c, s, tx, slot).value.nonces, k) == Get(s.nonces, k) + (if k == tx.sender then 1 else 0)
  {
    hide Debit, Enqueue, ApplySlash;
    var next := ApplyData(c, s, tx.sender, tx.data, slot).value;
    assert next.nonces == s.nonces by {
      if tx.data.Slash? { SlashKeepsNonces(c, s, tx.data.proof); }
    }
  }

  lemma SlashKeepsNonces(c: Crypto, s: State, p: SlashProof)
    ensures ApplySlash(c, s, p).Ok? ==> ApplySlash(c, s, p).value.nonces == s.nonces
  {
  }

  lemma {:induction false} SlashesKeepNonces(c: Crypto, s: State, proofs: seq<SlashProof>)
    requires ApplySlashes(c, s, proofs).Ok?
    ensures ApplySlashes(c, s, proofs).value.nonces == s.nonces
    decreases |proofs|
  {
    hide ValidateProof;
    if proofs != [] { SlashesKeepNonces(c, s, proofs[..|proofs| - 1]); }
  }

  lemma SequentialSnoc(s: State, txs: seq<Transaction>, tx: Transaction)
    requires Sequential(s, txs)
    requires tx.sequence == Get(s.nonces, tx.sender) + CountBy(txs, tx.sender)
    ensures Sequential(s, txs + [tx])
  {
    var all := txs + [tx];
    forall i | 0 <= i < |all|
      ensures all[i].sequence == Get(s.nonces, all[i].sender) + CountBy(all[..i], all[i].sender)
    {
      if i < |txs| {
        assert all[i] == txs[i] && all[..i] == txs[..i];
      } else {
        assert all[..i] == txs;
      }
    }
  }

  lemma AdvancedSnoc(s: State, txs: seq<Transaction>, mid: State, tx: Transaction, t: State)
    requires Advanced(s, txs, mid)
    requires forall k: Key :: Get(t.nonces, k) == Get(mid.nonces, k) + (if k == tx.sender then 1 else 0)
    ensures Advanced(s, txs + [tx], t)
  {
    assert (txs + [tx])[..|txs|] == txs;
  }

  lemma {:induction false} TxsSequential(c: Crypto, s: State, mid: State, before: seq<Transaction>, txs: seq<Transaction>, slot: u64)
    requires ApplyTxs(c, mid, txs, slot).Ok?
    requires Sequential(s, before) && Advanced(s, before, mid)
    ensures Sequential(s, before + txs) && Advanced(s, before + txs, ApplyTxs(c, mid, txs, slot).value)
    decreases |txs|
  {
    hide ApplyTx, Sequential, CountBy, Get;
    if txs == [] {
      assert before + txs == before;
    } else {
      var n := |txs| - 1;
      var tx := txs[n];
      TxsSequential(c, s, mid, before, txs[..n], slot);
      var here := ApplyTxs(c, mid, txs[..n], slot).value;
      var done := before + txs[..n];
      assert before + txs == done + [tx];
      assert Get(here.nonces, tx.sender) == Get(s.nonces, tx.sender) + CountBy(done, tx.sender);
      SequentialSnoc(s, done, tx);
      TxAdvances(c, here, tx, slot);
      AdvancedSnoc(s, done, here, tx, ApplyTxs(c, mid, txs, slot).value);
    }
  }

  lemma {:induction false} ChainSequential(c: Crypto, root: Block, s: State, bs: seq<Block>)
    requires ReplayChain(c, root, s, bs).Ok?
    ensures Sequential(s, AllTxs(bs)) && Advanced(s, AllTxs(bs), ReplayChain(c, root, s, bs).value)
    decreases |bs|
  {
    hide ValidateAndApply, ApplyTxs, ApplySlashes, Sequential;
    if bs != [] {
      var n := |bs| - 1;
      var b := bs[n];
      ChainSequential(c, root, s, bs[..n]);
      var mid := ReplayChain(c, root, s, bs[..n]).value;
      AcceptedBody(c, Tip(root, bs[..n]), mid, b);
      TxsSequential(c, s, mid, AllTxs(bs[..n]), b.transactions, b.slot);
      SlashesKeepNonces(c, ApplyTxs(c, mid, b.transactions, b.slot).value, b.slashProofs);
    } else {
      EmptySequential(s);
    }
  }

  lemma EmptySequential(s: State)
    ensures Sequential(s, [])
  {
  }

  lemma {:induction false} CountMonotone(txs: seq<Transaction>, i: nat, j: nat, k: Key)
    requires i <= j <= |txs|
    ensures CountBy(txs[..i], k) <= CountBy(txs[..j], k)
    decreases j - i
  {
    if i < j {
      CountMonotone(txs, i, j - 1, k);
      assert txs[..j][..j - 1] == txs[..j - 1];
    }
  }

  /** No replay: on a chain from genesis the `i`-th transaction of an account carries sequence number `i`,
      the nonce at the tip counts the account's transactions, and no (sender, sequence) pair, so no
      transaction, occurs twice. */
  lemma NoReplay(c: Crypto, genesis: Block, bs: seq<Block>)
    requires ReplayChain(c, genesis, EMPTY_STATE, bs).Ok?
    ensures var txs := AllTxs(bs);
            && (forall k: Key :: Get(ReplayChain(c, genesis, EMPTY_STATE, bs).value.nonces, k) == CountBy(txs, k))
            && (forall i {:trigger txs[i]} :: 0 <= i < |txs| ==> txs[i].sequence == CountBy(txs[..i], txs[i].sender))
            && (forall i, j :: 0 <= i < j < |txs| && txs[i].sender == txs[j].sender ==> txs[i].sequence < txs[j].sequence)
  {
    hide ReplayChain, AllTxs, CountBy;
    ChainSequential(c, genesis, EMPTY_STATE, bs);
    Ascending(AllTxs(bs));
  }

  lemma Ascending(txs: seq<Transaction>)
    requires Sequential(EMPTY_STATE, txs)
    ensures forall i {:trigger txs[i]} :: 0 <= i < |txs| ==> txs[i].sequence == CountBy(txs[..i], txs[i].sender)
    ensures forall i, j :: 0 <= i < j < |txs| && txs[i].sender == txs[j].sender ==> txs[i].sequence < txs[j].sequence
  {
    hide CountBy;
    forall i, j | 0 <= i < j < |txs| && txs[i].sender == txs[j].sender
      ensures txs[i].sequence < txs[j].sequence
    {
      CountMonotone(txs, i + 1, j, txs[i].sender);
      CountSnoc(txs, i);
    }
  }

  lemma CountSnoc(txs: seq<Transaction>, i: nat)
    requires i < |txs|
    ensures CountBy(txs[..i + 1], txs[i].sender) == CountBy(txs[..i], txs[i].sender) + 1
  {
    assert txs[..i + 1][..i] == txs[..i];
  }
}
