/**
 Blocks, transactions and slash proofs, their canonical (unsigned) encodings, and the
 checks each model carries (rp-core/src/models, rp-core/src/traits.rs).
 */
module Models {
  import opened Base

  type Signature = Bytes

  datatype Block = Block(
    height: u64,
    slot: u64,
    prev: Hash,
    validator: Key,
    transactions: Vec<Transaction>,
    signature: Option<Signature>,
    slashProofs: Vec<SlashProof>,
    stateRoot: Hash)

  datatype Transaction = Transaction(
    sender: Key,
    data: TransactionData,
    sequence: u64,
    fee: u64,
    signature: Option<Signature>)

  datatype TransactionData =
    | Transfer(receiver: Key, amount: u64)
    | Stake(amount: u64)
    | Unstake(amount: u64)
    | Slash(proof: SlashProof)

  datatype SlashProof = SlashProof(validator: Key, blockA: Block, blockB: Block)

  datatype SlashError =
    | DifferentSlots
    | IdenticalBlocks
    | ValidatorMismatchA
    | ValidatorMismatchB
    | InvalidBlockA
    | InvalidBlockB

  /**
   The foreign cryptography, left uninterpreted: SHA-256, ECDSA verification, whether 33 bytes
   decode to a curve point, and the fixed genesis key.
   */
  datatype Crypto = Crypto(
    sha: Bytes -> Hash,
    verify: (Key, Hash, Signature) -> bool,
    isPoint: Key -> bool,
    genesisKey: Key)

  /** Two different byte strings with one digest. */
  ghost predicate Collides(c: Crypto, x: Bytes, y: Bytes) {
    x != y && c.sha(x) == c.sha(y)
  }

  // ---------------------------------------------------------------- canonical encodings

  function EncBlock(b: Block): (r: Bytes)
    decreases b, 1
  {
    Be64(b.height) + Be64(b.slot) + b.prev + b.validator
    + (Be64(|b.transactions|) + CatTxs(b.transactions))
    + (Be64(|b.slashProofs|) + CatProofs(b.slashProofs))
    + b.stateRoot
  }

  function CatTxs(ts: seq<Transaction>): (r: Bytes)
    decreases ts, 0
  {
    if ts == [] then [] else CatTxs(ts[..|ts| - 1]) + EncTx(ts[|ts| - 1])
  }

  function CatProofs(ps: seq<SlashProof>): (r: Bytes)
    decreases ps, 0
  {
    if ps == [] then [] else CatProofs(ps[..|ps| - 1]) + EncProof(ps[|ps| - 1])
  }

  function EncTx(t: Transaction): (r: Bytes)
    decreases t, 1
  {
    t.sender + EncData(t.data) + Be64(t.sequence) + Be64(t.fee)
  }

  function EncData(d: TransactionData): (r: Bytes)
    decreases d, 1
  {
    match d
    case Transfer(receiver, amount) => [0] + receiver + Be64(amount)
    case Stake(amount) => [1] + Be64(amount)
    case Unstake(amount) => [2] + Be64(amount)
    case Slash(proof) => [3] + EncProof(proof)
  }

  function EncProof(p: SlashProof): (r: Bytes)
    decreases p, 1
  {
    p.validator + EncBlock(p.blockA) + EncBlock(p.blockB)
  }

  function BlockHash(c: Crypto, b: Block): (r: Hash) { c.sha(EncBlock(b)) }

  function TxHash(c: Crypto, t: Transaction): (r: Hash) { c.sha(EncTx(t)) }

  // ---------------------------------------------------------------- the encoders as written

  method BlockToBytes(b: Block) returns (bytes: Bytes)
    ensures bytes == EncBlock(b)
    decreases b, 1
  {
    bytes := Be64(b.height);
    bytes := bytes + Be64(b.slot);
    bytes := bytes + b.prev;
    bytes := bytes + b.validator;
    var txs := TransactionsToBytes(b.transactions);
    bytes := bytes + txs;
    var proofs := ProofsToBytes(b.slashProofs);
    bytes := bytes + proofs;
    bytes := bytes + b.stateRoot;
  }

  method TransactionsToBytes(ts: Vec<Transaction>) returns (bytes: Bytes)
    ensures bytes == Be64(|ts|) + CatTxs(ts)
    decreases ts, 0
  {
    bytes := Be64(|ts|);
    for i := 0 to |ts|
      invariant bytes == Be64(|ts|) + CatTxs(ts[..i])
    {
      var item := TransactionToBytes(ts[i]);
      bytes := bytes + item;
      assert ts[..i + 1][..i] == ts[..i];
    }
    assert ts[..|ts|] == ts;
  }

  method ProofsToBytes(ps: Vec<SlashProof>) returns (bytes: Bytes)
    ensures bytes == Be64(|ps|) + CatProofs(ps)
    decreases ps, 0
  {
    bytes := Be64(|ps|);
    for i := 0 to |ps|
      invariant bytes == Be64(|ps|) + CatProofs(ps[..i])
    {
      var item := ProofToBytes(ps[i]);
      bytes := bytes + item;
      assert ps[..i + 1][..i] == ps[..i];
    }
    assert ps[..|ps|] == ps;
  }

  method TransactionToBytes(t: Transaction) returns (bytes: Bytes)
    ensures bytes == EncTx(t)
    decreases t, 1
  {
    bytes := t.sender;
    match t.data {
      case Transfer(receiver, amount) =>
        bytes := bytes + [0];
        bytes := bytes + receiver;
        bytes := bytes + Be64(amount);
      case Stake(amount) =>
        bytes := bytes + [1];
        bytes := bytes + Be64(amount);
      case Unstake(amount) =>
        bytes := bytes + [2];
        bytes := bytes + Be64(amount);
      case Slash(proof) =>
        bytes := bytes + [3];
        var p := ProofToBytes(proof);
        bytes := bytes + p;
    }
    bytes := bytes + Be64(t.sequence);
    bytes := bytes + Be64(t.fee);
  }

  method ProofToBytes(p: SlashProof) returns (bytes: Bytes)
    ensures bytes == EncProof(p)
    decreases p, 1
  {
    bytes := p.validator;
    var a := BlockToBytes(p.blockA);
    bytes := bytes + a;
    var b := BlockToBytes(p.blockB);
    bytes := bytes + b;
  }

  // ---------------------------------------------------------------- validity checks

  predicate IsValidBlock(c: Crypto, b: Block) {
    match b.signature
    case Some(sig) => c.verify(b.validator, BlockHash(c, b), sig)
    case None => false
  }

  predicate IsSignedTx(c: Crypto, t: Transaction) {
    match t.signature
    case Some(sig) => c.verify(t.sender, TxHash(c, t), sig)
    case None => false
  }

  function ValidateProof(c: Crypto, p: SlashProof): (r: Result<(), SlashError>) {
    if p.blockA.slot != p.blockB.slot then Err(DifferentSlots)
    else if BlockHash(c, p.blockA) == BlockHash(c, p.blockB) then Err(IdenticalBlocks)
    else if p.blockA.validator != p.validator then Err(ValidatorMismatchA)
    else if p.blockB.validator != p.validator then Err(ValidatorMismatchB)
    else if !IsValidBlock(c, p.blockA) then Err(InvalidBlockA)
    else if !IsValidBlock(c, p.blockB) then Err(InvalidBlockB)
    else Ok(())
  }

  // ---------------------------------------------------------------- unsigned content

  /** The block with every signature, at every depth, erased. */
  ghost function EraseBlock(b: Block): (r: Block)
    decreases b, 1
  {
    b.(transactions := EraseTxs(b.transactions), signature := None, slashProofs := EraseProofs(b.slashProofs))
  }

  ghost function EraseTxs(ts: seq<Transaction>): (r: seq<Transaction>)
    ensures |r| == |ts|
    decreases ts, 0
  {
    if ts == [] then [] else EraseTxs(ts[..|ts| - 1]) + [EraseTx(ts[|ts| - 1])]
  }

  ghost function EraseProofs(ps: seq<SlashProof>): (r: seq<SlashProof>)
    ensures |r| == |ps|
    decreases ps, 0
  {
    if ps == [] then [] else EraseProofs(ps[..|ps| - 1]) + [EraseProof(ps[|ps| - 1])]
  }

  ghost function EraseTx(t: Transaction): (r: Transaction)
    decreases t, 1
  {
    t.(data := EraseData(t.data), signature := None)
  }

  ghost function EraseData(d: TransactionData): (r: TransactionData)
    decreases d, 1
  {
    if d.Slash? then Slash(EraseProof(d.proof)) else d
  }

  ghost function EraseProof(p: SlashProof): (r: SlashProof)
    decreases p, 1
  {
    SlashProof(p.validator, EraseBlock(p.blockA), EraseBlock(p.blockB))
  }

  /** Two blocks that differ at most in signatures. */
  ghost predicate SameContent(a: Block, b: Block) {
    EraseBlock(a) == EraseBlock(b)
  }
}
