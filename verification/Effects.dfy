/**
 What the ledger's operations do, account by account, and exactly which transactions, proofs and blocks it takes:
 stated in the terms of the fields of a block, a transaction and a state.
 */
module Effects {
  import opened Base
  import opened Models
  import opened Ledger

  // ---------------------------------------------------------------- who signed

  ghost predicate SignedBlock(c: Crypto, b: Block) {
    b.signature.Some? && c.verify(b.validator, c.sha(EncBlock(b)), b.signature.value)
  }

  ghost predicate SignedTx(c: Crypto, t: Transaction) {
    t.signature.Some? && c.verify(t.sender, c.sha(EncTx(t)), t.signature.value)
  }

  /** The accused signed two blocks with different hashes for one slot. */
  ghost predicate Equivocation(c: Crypto, p: SlashProof) {
    && p.blockA.slot == p.blockB.slot && c.sha(EncBlock(p.blockA)) != c.sha(EncBlock(p.blockB))
    && p.blockA.validator == p.validator && p.blockB.validator == p.validator
    && SignedBlock(c, p.blockA) && SignedBlock(c, p.blockB)
  }

  /** A proof passes exactly if it shows an equivocation; otherwise the error names the first check that fails. */
  lemma ProofVerdict(c: Crypto, p: SlashProof)
    ensures ValidateProof(c, p).Ok? <==> Equivocation(c, p)
    ensures ValidateProof(c, p) == Err(DifferentSlots) <==> p.blockA.slot != p.blockB.slot
    ensures ValidateProof(c, p) == Err(IdenticalBlocks) <==>
              p.blockA.slot == p.blockB.slot && c.sha(EncBlock(p.blockA)) == c.sha(EncBlock(p.blockB))
    ensures ValidateProof(c, p) == Err(InvalidBlockA) ==> p.blockA.validator == p.validator && !SignedBlock(c, p.blockA)
    ensures ValidateProof(c, p) == Err(InvalidBlockB) ==>
              p.blockB.validator == p.validator && SignedBlock(c, p.blockA) && !SignedBlock(c, p.blockB)
    ensures ValidateProof(c, p) == Err(ValidatorMismatchA) ==> p.blockA.validator != p.validator
    ensures ValidateProof(c, p) == Err(ValidatorMismatchB) ==> p.blockA.validator == p.validator && p.blockB.validator != p.validator
  {
    hide EncBlock;
  }

  // ---------------------------------------------------------------- which transactions

  /** The sender signed it, it carries the sender's next sequence number, and the sender has what it moves. */
  ghost predicate Admissible(c: Crypto, s: State, t: Transaction) {
    && SignedTx(c, t)
    && t.sequence == Get(s.nonces, t.sender)
    && (t.data.Transfer? || t.data.Stake? ==> t.data.amount <= Get(s.balances, t.sender))
    && (t.data.Unstake? ==> t.data.amount <= Get(s.stakes, t.sender))
    && (t.data.Slash? ==> Equivocation(c, t.data.proof))
  }

  lemma TxVerdict(c: Crypto, s: State, t: Transaction)
    ensures IsValidTx(c, s, t) <==> Admissible(c, s, t)
  {
    hide EncTx, Equivocation, ValidateProof;
    if t.data.Slash? { ProofVerdict(c, t.data.proof); }
  }

  // ---------------------------------------------------------------- what a transaction does

  /** The only account whose nonce moves is the sender's, by one. */
  ghost predicate SenderCounted(s: State, t: State, sender: Key) {
    && t.nonces.Keys == s.nonces.Keys + {sender}
    && (forall k: Key :: Get(t.nonces, k) == Get(s.nonces, k) + (if k == sender then 1 else 0))
  }

  lemma CreditEntry(m: Table<u64>, k: Key, x: u64)
    requires Credit(m, k, x).Value?
    ensures var n := Credit(m, k, x).value;
            n.Keys == m.Keys + {k} && forall j: Key :: Get(n, j) == Get(m, j) + (if j == k then x else 0)
  {
  }

  lemma DebitEntry(m: Table<u64>, k: Key, x: u64)
    requires Debit(m, k, x).Value?
    ensures var n := Debit(m, k, x).value;
            n.Keys == m.Keys + {k} && forall j: Key :: Get(n, j) == Get(m, j) - (if j == k then x else 0)
  {
  }

  lemma NonceEffect(c: Crypto, s: State, tx: Transaction, slot: u64)
    requires ApplyTx(c, s, tx, slot).Value?
    ensures ApplyData(c, s, tx.sender, tx.data, slot).Value?
    ensures var d := ApplyData(c, s, tx.sender, tx.data, slot).value; var t := ApplyTx(c, s, tx, slot).value;
            && t.balances == d.balances && t.stakes == d.stakes && t.unstaking == d.unstaking
            && SenderCounted(s, t, tx.sender)
  {
    hide Debit, Enqueue, ApplySlash;
    var d := ApplyData(c, s, tx.sender, tx.data, slot).value;
    KeepsNonces(c, s, tx.sender, tx.data, slot);
    CreditEntry(d.nonces, tx.sender, 1);
  }

  lemma KeepsNonces(c: Crypto, s: State, sender: Key, data: TransactionData, slot: u64)
    requires ApplyData(c, s, sender, data, slot).Value?
    ensures ApplyData(c, s, sender, data, slot).value.nonces == s.nonces
  {
    hide Debit, Credit, Enqueue, ValidateProof;
  }

  /** A transfer takes the amount from the sender and gives it to the receiver, who gets an entry; to oneself it changes no
      balance.  Nothing else moves. */
  lemma TransferEffect(c: Crypto, s: State, tx: Transaction, slot: u64)
    requires tx.data.Transfer? && ApplyTx(c, s, tx, slot).Value?
    ensures var t := ApplyTx(c, s, tx, slot).value; var receiver := tx.data.receiver;
            && t.balances.Keys == s.balances.Keys + {tx.sender, receiver}
            && (forall k: Key :: Get(t.balances, k) == Get(s.balances, k) - (if k == tx.sender then tx.data.amount else 0)
                                                                          + (if k == receiver then tx.data.amount else 0))
            && t.stakes == s.stakes && t.unstaking == s.unstaking && SenderCounted(s, t, tx.sender)
  {
    hide Debit, Credit, SenderCounted, ApplyTx;
    NonceEffect(c, s, tx, slot);
    var b0 := Debit(s.balances, tx.sender, tx.data.amount).value;
    DebitEntry(s.balances, tx.sender, tx.data.amount);
    CreditEntry(b0, tx.data.receiver, tx.data.amount);
  }

  /** Staking moves the amount from the sender's balance to the sender's stake. */
  lemma StakeEffect(c: Crypto, s: State, tx: Transaction, slot: u64)
    requires tx.data.Stake? && ApplyTx(c, s, tx, slot).Value?
    ensures var t := ApplyTx(c, s, tx, slot).value;
            && t.balances.Keys == s.balances.Keys + {tx.sender} && t.stakes.Keys == s.stakes.Keys + {tx.sender}
            && (forall k: Key :: Get(t.balances, k) == Get(s.balances, k) - (if k == tx.sender then tx.data.amount else 0))
            && (forall k: Key :: Get(t.stakes, k) == Get(s.stakes, k) + (if k == tx.sender then tx.data.amount else 0))
            && t.unstaking == s.unstaking && SenderCounted(s, t, tx.sender)
  {
    hide Debit, Credit, SenderCounted, ApplyTx;
    NonceEffect(c, s, tx, slot);
    DebitEntry(s.balances, tx.sender, tx.data.amount);
    CreditEntry(s.stakes, tx.sender, tx.data.amount);
  }

  /** Unstaking takes the amount from the sender's stake and queues it for the sender, locked for two epochs of 32 slots. */
  lemma UnstakeEffect(c: Crypto, s: State, tx: Transaction, slot: u64)
    requires tx.data.Unstake? && ApplyTx(c, s, tx, slot).Value?
    ensures slot + 64 < U64_LIMIT
    ensures var t := ApplyTx(c, s, tx, slot).value;
            && t.balances == s.balances && t.stakes.Keys == s.stakes.Keys + {tx.sender}
            && (forall k: Key :: Get(t.stakes, k) == Get(s.stakes, k) - (if k == tx.sender then tx.data.amount else 0))
            && (forall k: Key :: Requests(t.unstaking, k)
                                 == Requests(s.unstaking, k) + (if k == tx.sender then [UnstakeRequest(tx.data.amount, slot + 64)] else []))
            && SenderCounted(s, t, tx.sender)
  {
    hide Debit, Credit, SenderCounted, ApplyTx;
    NonceEffect(c, s, tx, slot);
    DebitEntry(s.stakes, tx.sender, tx.data.amount);
  }

  /** What an equivocation costs: the accused loses its stake and its queue, and nobody else anything. */
  ghost predicate Slashed(s: State, t: State, accused: Key) {
    && t.balances == s.balances && t.nonces == s.nonces
    && t.stakes == s.stakes - {accused} && t.unstaking == s.unstaking - {accused}
  }

  /** A proof takes effect exactly if it shows an equivocation. */
  lemma SlashEffect(c: Crypto, s: State, p: SlashProof)
    ensures ApplySlash(c, s, p).Ok? <==> Equivocation(c, p)
    ensures ApplySlash(c, s, p).Ok? ==> Slashed(s, ApplySlash(c, s, p).value, p.validator)
    ensures ApplySlash(c, s, p).Err? ==> ValidateProof(c, p) == Err(ApplySlash(c, s, p).error)
  {
    hide ValidateProof, Equivocation;
    ProofVerdict(c, p);
  }

  /** A slash transaction slashes the accused and moves the sender's nonce. */
  lemma SlashTxEffect(c: Crypto, s: State, tx: Transaction, slot: u64)
    requires tx.data.Slash? && Equivocation(c, tx.data.proof) && ApplyTx(c, s, tx, slot).Value?
    ensures var t := ApplyTx(c, s, tx, slot).value;
            Slashed(s, t.(nonces := s.nonces), tx.data.proof.validator) && SenderCounted(s, t, tx.sender)
  {
    hide Debit, Credit, SenderCounted, ApplyTx, Equivocation, ValidateProof, ApplySlash;
    NonceEffect(c, s, tx, slot);
    SlashEffect(c, s, tx.data.proof);
  }

  // ---------------------------------------------------------------- which blocks

  /** In an accepted list every transaction is admissible in the state the ones before it lead to. */
  lemma {:induction false} TxsAdmissible(c: Crypto, s: State, txs: seq<Transaction>, slot: u64, i: nat)
    requires ApplyTxs(c, s, txs, slot).Ok? && i < |txs|
    ensures ApplyTxs(c, s, txs[..i], slot).Ok? && ApplyTxs(c, s, txs[..i + 1], slot).Ok?
    ensures var mid := ApplyTxs(c, s, txs[..i], slot).value;
            Admissible(c, mid, txs[i]) && ApplyTx(c, mid, txs[i], slot) == Value(ApplyTxs(c, s, txs[..i + 1], slot).value)
    decreases |txs|
  {
    hide IsValidTx, ApplyTx, Admissible;
    var n := |txs| - 1;
    if i == n {
      TxVerdict(c, ApplyTxs(c, s, txs[..n], slot).value, txs[n]);
      assert txs[..i + 1] == txs;
    } else {
      TxsAdmissible(c, s, txs[..n], slot, i);
      assert txs[..n][..i] == txs[..i] && txs[..n][..i + 1] == txs[..i + 1] && txs[..n][i] == txs[i];
    }
  }

  /** Conversely, a list each of whose transactions is admissible in its turn, and whose arithmetic fits, is accepted. */
  lemma {:induction false} AdmissibleTxs(c: Crypto, s: State, txs: seq<Transaction>, slot: u64)
    ensures ApplyTxs(c, s, txs, slot).Ok? <==>
              txs == [] || (&& ApplyTxs(c, s, txs[..|txs| - 1], slot).Ok?
                            && Admissible(c, ApplyTxs(c, s, txs[..|txs| - 1], slot).value, txs[|txs| - 1])
                            && ApplyTx(c, ApplyTxs(c, s, txs[..|txs| - 1], slot).value, txs[|txs| - 1], slot).Value?)
  {
    hide IsValidTx, ApplyTx, Admissible;
    if txs != [] && ApplyTxs(c, s, txs[..|txs| - 1], slot).Ok? {
      TxVerdict(c, ApplyTxs(c, s, txs[..|txs| - 1], slot).value, txs[|txs| - 1]);
    }
  }

  /** A list of proofs is accepted exactly if every one shows an equivocation. */
  lemma {:induction false} ProofsShown(c: Crypto, s: State, proofs: seq<SlashProof>)
    ensures ApplySlashes(c, s, proofs).Ok? <==> forall p :: p in proofs ==> Equivocation(c, p)
    decreases |proofs|
  {
    hide ApplySlash, Equivocation;
    if proofs != [] {
      var n := |proofs| - 1;
      ProofsShown(c, s, proofs[..n]);
      assert forall p :: p in proofs <==> p in proofs[..n] || p == proofs[n];
      var mid := ApplySlashes(c, s, proofs[..n]);
      if mid.Ok? { SlashEffect(c, mid.value, proofs[n]); }
    }
  }

  ghost function Accused(proofs: seq<SlashProof>): (r: set<Key>) {
    if proofs == [] then {} else Accused(proofs[..|proofs| - 1]) + {proofs[|proofs| - 1].validator}
  }

  /** After the slash proofs of a block nobody accused has stake or queue left; nothing else moves. */
  lemma {:induction false} SlashesEffect(c: Crypto, s: State, proofs: seq<SlashProof>)
    requires ApplySlashes(c, s, proofs).Ok?
    ensures var t := ApplySlashes(c, s, proofs).value;
            && t.balances == s.balances && t.nonces == s.nonces
            && t.stakes == s.stakes - Accused(proofs) && t.unstaking == s.unstaking - Accused(proofs)
    decreases |proofs|
  {
    hide ApplySlash, Equivocation;
    if proofs != [] {
      var n := |proofs| - 1;
      SlashesEffect(c, s, proofs[..n]);
      SlashEffect(c, ApplySlashes(c, s, proofs[..n]).value, proofs[n]);
      MinusBoth(s.stakes, Accused(proofs[..n]), proofs[n].validator);
      MinusBoth(s.unstaking, Accused(proofs[..n]), proofs[n].validator);
    }
  }

  lemma MinusBoth<V>(m: map<Key, V>, a: set<Key>, k: Key)
    ensures m - a - {k} == m - (a + {k})
  {
  }

  /** The header of a block fits on top of `p` in state `s`: one above it, later, signed, and by the expected validator. */
  ghost predicate HeaderFits(c: Crypto, p: Block, s: State, b: Block) {
    && SignedBlock(c, b)
    && b.height == p.height + 1 && b.slot > p.slot
    && LeaderMatches(c, s, b)
  }

  /** No validator is expected at the block's height, or the block's own one is. */
  ghost predicate LeaderMatches(c: Crypto, s: State, b: Block) {
    var expected := ExpectedValidator(c, s.stakes, b.height);
    expected.Value? && (expected.value == None || expected.value == Some(b.validator))
  }

  /** An accepted block is signed over its unsigned encoding by its own validator, which is the one expected at its height
      if there is one. */
  lemma AcceptedSigner(c: Crypto, p: Block, s: State, b: Block)
    requires ValidateAndApply(c, p, s, b).Ok?
    ensures b.signature.Some? && c.verify(b.validator, c.sha(EncBlock(b)), b.signature.value)
    ensures var expected := ExpectedValidator(c, s.stakes, b.height);
            expected.Value? && (expected.value == None || expected.value == Some(b.validator))
  {
    hide ApplyBody, ExpectedValidator, Merkle.StateRoot, EncBlock;
    BlockVerdict(c, p, s, b);
  }

  /** A block is accepted exactly if its header fits, its body applies, and its state root is that of the result. */
  lemma BlockVerdict(c: Crypto, p: Block, s: State, b: Block)
    ensures ValidateAndApply(c, p, s, b).Ok? <==>
              HeaderFits(c, p, s, b) && ApplyBody(c, s, b).Ok? && b.stateRoot == Merkle.StateRoot(c, ApplyBody(c, s, b).value.balances)
    ensures ValidateAndApply(c, p, s, b).Ok? ==> ValidateAndApply(c, p, s, b) == ApplyBody(c, s, b)
  {
    hide ApplyBody, ExpectedValidator, Merkle.StateRoot, EncBlock;
  }

  /** What a refusal says: the first check that fails. */
  lemma BlockRefusal(c: Crypto, p: Block, s: State, b: Block)
    requires ValidateAndApply(c, p, s, b).Err?
    ensures Refused(c, p, s, b, ValidateAndApply(c, p, s, b).error)
  {
    hide ExpectedValidator, Merkle.StateRoot, EncBlock, ApplyBody;
    BodyErrors(c, s, b);
  }

  ghost predicate Refused(c: Crypto, p: Block, s: State, b: Block, e: BlockError) {
    match e
    case InvalidSignature => !SignedBlock(c, b)
    case InvalidHeight => SignedBlock(c, b) && b.height != p.height + 1
    case InvalidSlot => SignedBlock(c, b) && b.height == p.height + 1 && b.slot <= p.slot
    case InvalidValidator => SignedBlock(c, b) && b.height == p.height + 1 && b.slot > p.slot && !LeaderMatches(c, s, b)
    case InvalidTransaction => HeaderFits(c, p, s, b) && ApplyBody(c, s, b) == Err(InvalidTransaction)
    case InvalidSlashProof(x) => HeaderFits(c, p, s, b) && ApplyBody(c, s, b) == Err(InvalidSlashProof(x))
    case InvalidStateRoot =>
      HeaderFits(c, p, s, b) && ApplyBody(c, s, b).Ok? && b.stateRoot != Merkle.StateRoot(c, ApplyBody(c, s, b).value.balances)
    case ArithmeticOverflow => SignedBlock(c, b)
  }

  lemma BodyErrors(c: Crypto, s: State, b: Block)
    ensures ApplyBody(c, s, b).Err? ==>
              var e := ApplyBody(c, s, b).error; e == InvalidTransaction || e.InvalidSlashProof? || e == ArithmeticOverflow
  {
    TxsErrors(c, s, b.transactions, b.slot);
    if ApplyTxs(c, s, b.transactions, b.slot).Ok? { SlashesErrors(c, ApplyTxs(c, s, b.transactions, b.slot).value, b.slashProofs); }
  }

  lemma {:induction false} TxsErrors(c: Crypto, s: State, txs: seq<Transaction>, slot: u64)
    ensures ApplyTxs(c, s, txs, slot).Err? ==> ApplyTxs(c, s, txs, slot).error in {InvalidTransaction, ArithmeticOverflow}
    decreases |txs|
  {
    hide IsValidTx, ApplyTx;
    if txs != [] { TxsErrors(c, s, txs[..|txs| - 1], slot); }
  }

  lemma {:induction false} SlashesErrors(c: Crypto, s: State, proofs: seq<SlashProof>)
    ensures ApplySlashes(c, s, proofs).Err? ==> ApplySlashes(c, s, proofs).error.InvalidSlashProof?
    decreases |proofs|
  {
    hide ApplySlash;
    if proofs != [] { SlashesErrors(c, s, proofs[..|proofs| - 1]); }
  }
}
