/**
 The canonical encodings are uniquely decodable: across the mutual recursion of blocks,
 transactions and slash proofs, equal bytes (whatever follows them) force equal unsigned
 content and equal remainders.  Hash equality therefore means equal unsigned content, or an
 explicit SHA-256 collision.
 */
module Encoding {
  import opened Base
  import opened Models

  lemma Word(x: u64, y: u64, s: Bytes, t: Bytes)
    requires Be64(x) + s == Be64(y) + t
    ensures x == y && s == t
  {
    Peel(Be64(x), Be64(y), s, t);
    Be64RoundTrip(x);
    Be64RoundTrip(y);
  }

  lemma {:induction false} BlockUnique(a: Block, b: Block, s: Bytes, t: Bytes)
    requires EncBlock(a) + s == EncBlock(b) + t
    ensures SameContent(a, b) && s == t
    decreases a, 1
  {
    var a4, b4 := a.stateRoot + s, b.stateRoot + t;
    var a3, b3 := CatProofs(a.slashProofs) + a4, CatProofs(b.slashProofs) + b4;
    var a2, b2 := CatTxs(a.transactions) + (Be64(|a.slashProofs|) + a3), CatTxs(b.transactions) + (Be64(|b.slashProofs|) + b3);
    var a1, b1 := Be64(|a.transactions|) + a2, Be64(|b.transactions|) + b2;
    var a0, b0 := a.prev + (a.validator + a1), b.prev + (b.validator + b1);
    BlockFields(a, s, a0, a1, a2, a3, a4);
    BlockFields(b, t, b0, b1, b2, b3, b4);
    Word(a.height, b.height, Be64(a.slot) + a0, Be64(b.slot) + b0);
    Word(a.slot, b.slot, a0, b0);
    Peel(a.prev, b.prev, a.validator + a1, b.validator + b1);
    Peel(a.validator, b.validator, a1, b1);
    Word(|a.transactions|, |b.transactions|, a2, b2);
    TxsUnique(a.transactions, b.transactions, Be64(|a.slashProofs|) + a3, Be64(|b.slashProofs|) + b3);
    Word(|a.slashProofs|, |b.slashProofs|, a3, b3);
    ProofsUnique(a.slashProofs, b.slashProofs, a4, b4);
    Peel(a.stateRoot, b.stateRoot, s, t);
  }

  /** The encoding of a block followed by `s`, regrouped field by field. */
  lemma BlockFields(a: Block, s: Bytes, a0: Bytes, a1: Bytes, a2: Bytes, a3: Bytes, a4: Bytes)
    requires a4 == a.stateRoot + s
    requires a3 == CatProofs(a.slashProofs) + a4
    requires a2 == CatTxs(a.transactions) + (Be64(|a.slashProofs|) + a3)
    requires a1 == Be64(|a.transactions|) + a2
    requires a0 == a.prev + (a.validator + a1)
    ensures EncBlock(a) + s == Be64(a.height) + (Be64(a.slot) + a0)
  {
    hide Be64, CatTxs, CatProofs;
    var txs := Be64(|a.transactions|) + CatTxs(a.transactions);
    var proofs := Be64(|a.slashProofs|) + CatProofs(a.slashProofs);
    assert proofs + a4 == Be64(|a.slashProofs|) + a3;
    assert txs + (proofs + a4) == a1;
    assert EncBlock(a) + s == Be64(a.height) + Be64(a.slot) + a.prev + a.validator + (txs + (proofs + a4));
  }

  lemma {:induction false} TxsUnique(ts: seq<Transaction>, us: seq<Transaction>, s: Bytes, t: Bytes)
    requires |ts| == |us| && CatTxs(ts) + s == CatTxs(us) + t
    ensures EraseTxs(ts) == EraseTxs(us) && s == t
    decreases ts, 0
  {
    if ts != [] {
      var n := |ts| - 1;
      var x, y := EncTx(ts[n]), EncTx(us[n]);
      assert CatTxs(ts) + s == CatTxs(ts[..n]) + (x + s);
      assert CatTxs(us) + t == CatTxs(us[..n]) + (y + t);
      TxsUnique(ts[..n], us[..n], x + s, y + t);
      TxUnique(ts[n], us[n], s, t);
    } else {
      Peel([], [], s, t);
    }
  }

  lemma {:induction false} ProofsUnique(ps: seq<SlashProof>, qs: seq<SlashProof>, s: Bytes, t: Bytes)
    requires |ps| == |qs| && CatProofs(ps) + s == CatProofs(qs) + t
    ensures EraseProofs(ps) == EraseProofs(qs) && s == t
    decreases ps, 0
  {
    if ps != [] {
      var n := |ps| - 1;
      var x, y := EncProof(ps[n]), EncProof(qs[n]);
      assert CatProofs(ps) + s == CatProofs(ps[..n]) + (x + s);
      assert CatProofs(qs) + t == CatProofs(qs[..n]) + (y + t);
      ProofsUnique(ps[..n], qs[..n], x + s, y + t);
      ProofUnique(ps[n], qs[n], s, t);
    } else {
      Peel([], [], s, t);
    }
  }

  lemma {:induction false} TxUnique(a: Transaction, b: Transaction, s: Bytes, t: Bytes)
    requires EncTx(a) + s == EncTx(b) + t
    ensures EraseTx(a) == EraseTx(b) && s == t
    decreases a, 1
  {
    var a1, b1 := Be64(a.sequence) + (Be64(a.fee) + s), Be64(b.sequence) + (Be64(b.fee) + t);
    assert EncTx(a) + s == a.sender + (EncData(a.data) + a1);
    assert EncTx(b) + t == b.sender + (EncData(b.data) + b1);
    Peel(a.sender, b.sender, EncData(a.data) + a1, EncData(b.data) + b1);
    DataUnique(a.data, b.data, a1, b1);
    Word(a.sequence, b.sequence, Be64(a.fee) + s, Be64(b.fee) + t);
    Word(a.fee, b.fee, s, t);
  }

  lemma {:induction false} DataUnique(a: TransactionData, b: TransactionData, s: Bytes, t: Bytes)
    requires EncData(a) + s == EncData(b) + t
    ensures EraseData(a) == EraseData(b) && s == t
    decreases a, 1
  {
    hide Be64, EncProof;
    assert (EncData(a) + s)[0] == EncData(a)[0] && (EncData(b) + t)[0] == EncData(b)[0];
    var x, y := EncData(a)[1..] + s, EncData(b)[1..] + t;
    assert x == (EncData(a) + s)[1..] && y == (EncData(b) + t)[1..];
    match a {
      case Transfer(receiver, amount) =>
        assert x == receiver + (Be64(amount) + s) && y == b.receiver + (Be64(b.amount) + t);
        Peel(receiver, b.receiver, Be64(amount) + s, Be64(b.amount) + t);
        Word(amount, b.amount, s, t);
      case Stake(amount) =>
        assert x == Be64(amount) + s && y == Be64(b.amount) + t;
        Word(amount, b.amount, s, t);
      case Unstake(amount) =>
        assert x == Be64(amount) + s && y == Be64(b.amount) + t;
        Word(amount, b.amount, s, t);
      case Slash(proof) =>
        assert x == EncProof(proof) + s && y == EncProof(b.proof) + t;
        ProofUnique(proof, b.proof, s, t);
    }
  }

  lemma {:induction false} ProofUnique(a: SlashProof, b: SlashProof, s: Bytes, t: Bytes)
    requires EncProof(a) + s == EncProof(b) + t
    ensures EraseProof(a) == EraseProof(b) && s == t
    decreases a, 1
  {
    hide EncBlock;
    var a1, b1 := EncBlock(a.blockB) + s, EncBlock(b.blockB) + t;
    assert EncProof(a) + s == a.validator + (EncBlock(a.blockA) + a1);
    assert EncProof(b) + t == b.validator + (EncBlock(b.blockA) + b1);
    Peel(a.validator, b.validator, EncBlock(a.blockA) + a1, EncBlock(b.blockA) + b1);
    BlockUnique(a.blockA, b.blockA, a1, b1);
    BlockUnique(a.blockB, b.blockB, s, t);
  }

  // ---------------------------------------------------------------- the converse, and hashes

  lemma {:induction false} BlockErasure(b: Block)
    ensures EncBlock(EraseBlock(b)) == EncBlock(b)
    decreases b, 1
  {
    TxsErasure(b.transactions);
    ProofsErasure(b.slashProofs);
  }

  lemma {:induction false} TxsErasure(ts: seq<Transaction>)
    ensures CatTxs(EraseTxs(ts)) == CatTxs(ts)
    decreases ts, 0
  {
    if ts != [] {
      var n := |ts| - 1;
      TxsErasure(ts[..n]);
      TxErasure(ts[n]);
      assert EraseTxs(ts)[..n] == EraseTxs(ts[..n]);
    }
  }

  lemma {:induction false} ProofsErasure(ps: seq<SlashProof>)
    ensures CatProofs(EraseProofs(ps)) == CatProofs(ps)
    decreases ps, 0
  {
    if ps != [] {
      var n := |ps| - 1;
      ProofsErasure(ps[..n]);
      ProofErasure(ps[n]);
      assert EraseProofs(ps)[..n] == EraseProofs(ps[..n]);
    }
  }

  lemma {:induction false} TxErasure(t: Transaction)
    ensures EncTx(EraseTx(t)) == EncTx(t)
    decreases t, 1
  {
    if t.data.Slash? { ProofErasure(t.data.proof); }
  }

  lemma {:induction false} ProofErasure(p: SlashProof)
    ensures EncProof(EraseProof(p)) == EncProof(p)
    decreases p, 1
  {
    BlockErasure(p.blockA);
    BlockErasure(p.blockB);
  }

  /** Two blocks share a hash preimage exactly when they differ at most in signatures. */
  lemma BlockPreimage(a: Block, b: Block)
    ensures EncBlock(a) == EncBlock(b) <==> SameContent(a, b)
  {
    if EncBlock(a) == EncBlock(b) {
      BlockUnique(a, b, [], []);
    }
    BlockErasure(a);
    BlockErasure(b);
  }

  /** Two transactions share a hash preimage exactly when they differ at most in signatures. */
  lemma TxPreimage(a: Transaction, b: Transaction)
    ensures EncTx(a) == EncTx(b) <==> EraseTx(a) == EraseTx(b)
  {
    if EncTx(a) == EncTx(b) {
      TxUnique(a, b, [], []);
    }
    TxErasure(a);
    TxErasure(b);
  }

  /** Equal block hashes: equal unsigned content, or the two encodings are a SHA-256 collision. */
  lemma BlockHashBinding(c: Crypto, a: Block, b: Block)
    requires BlockHash(c, a) == BlockHash(c, b)
    ensures SameContent(a, b) || Collides(c, EncBlock(a), EncBlock(b))
  {
    BlockPreimage(a, b);
  }

  /** A validated slash proof really shows two different blocks signed for one slot. */
  lemma SlashProofSound(c: Crypto, p: SlashProof)
    requires ValidateProof(c, p).Ok?
    ensures !SameContent(p.blockA, p.blockB)
    ensures p.blockA.slot == p.blockB.slot
    ensures p.blockA.validator == p.blockB.validator == p.validator
    ensures p.blockA.signature.Some? && c.verify(p.validator, c.sha(EncBlock(p.blockA)), p.blockA.signature.value)
    ensures p.blockB.signature.Some? && c.verify(p.validator, c.sha(EncBlock(p.blockB)), p.blockB.signature.value)
  {
    hide EncBlock, SameContent;
    BlockPreimage(p.blockA, p.blockB);
  }

  // ---------------------------------------------------------------- where the fields are

  /** A block: height, slot, parent, validator, counted transactions, counted proofs, state root. */
  lemma BlockLayout(b: Block)
    ensures var e := EncBlock(b); var n := |CatTxs(b.transactions)|; var m := |CatProofs(b.slashProofs)|;
            && |e| == 129 + n + m
            && e[..8] == Be64(b.height) && e[8..16] == Be64(b.slot) && e[16..48] == b.prev && e[48..81] == b.validator
            && e[81..89] == Be64(|b.transactions|) && e[89..89 + n] == CatTxs(b.transactions)
            && e[89 + n..97 + n] == Be64(|b.slashProofs|) && e[97 + n..97 + n + m] == CatProofs(b.slashProofs)
            && e[97 + n + m..] == b.stateRoot
  {
    hide Be64, CatTxs, CatProofs;
  }

  /** The transactions of a block follow each other in order. */
  lemma {:induction false} TxsLayout(ts: seq<Transaction>, i: nat)
    requires i < |ts|
    ensures CatTxs(ts[..i]) + EncTx(ts[i]) <= CatTxs(ts)
    decreases |ts|
  {
    hide EncTx;
    var n := |ts| - 1;
    if i < n {
      TxsLayout(ts[..n], i);
      assert ts[..n][..i] == ts[..i] && ts[..n][i] == ts[i];
    }
  }

  lemma {:induction false} ProofsLayout(ps: seq<SlashProof>, i: nat)
    requires i < |ps|
    ensures CatProofs(ps[..i]) + EncProof(ps[i]) <= CatProofs(ps)
    decreases |ps|
  {
    hide EncProof;
    var n := |ps| - 1;
    if i < n {
      ProofsLayout(ps[..n], i);
      assert ps[..n][..i] == ps[..i] && ps[..n][i] == ps[i];
    }
  }

  /** A transaction: sender, kind, what the kind carries, sequence number, fee. */
  lemma TxLayout(t: Transaction)
    ensures var e := EncTx(t); var n := |e| - 16;
            && n >= 34 && e[..33] == t.sender && e[n..n + 8] == Be64(t.sequence) && e[n + 8..] == Be64(t.fee)
            && match t.data
               case Transfer(receiver, amount) => e[33] == 0 && e[34..n] == receiver + Be64(amount)
               case Stake(amount) => e[33] == 1 && e[34..n] == Be64(amount)
               case Unstake(amount) => e[33] == 2 && e[34..n] == Be64(amount)
               case Slash(proof) => e[33] == 3 && e[34..n] == EncProof(proof)
  {
    hide Be64, EncProof;
  }

  /** A slash proof: the accused, then the two blocks. */
  lemma ProofLayout(p: SlashProof)
    ensures var e := EncProof(p); var n := |EncBlock(p.blockA)|;
            n + 33 <= |e| && e[..33] == p.validator && e[33..33 + n] == EncBlock(p.blockA) && e[33 + n..] == EncBlock(p.blockB)
  {
    hide EncBlock;
  }
}
