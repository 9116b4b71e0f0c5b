/**
 The account ledger and the block transition (rp-core/src/state.rs, rp-core/src/blockchain.rs).
 Arithmetic follows the overflow-checked build: an addition or subtraction that leaves u64 aborts
 the block, which the model reports as `ArithmeticOverflow`.
 */
module Ledger {
  import opened Base
  import opened Models
  import opened Merkle

  const EPOCH_LENGTH: u64 := 32
  const UNSTAKE_LOCK_EPOCHS: u64 := 2
  const UNSTAKE_LOCK_SLOTS: u64 := UNSTAKE_LOCK_EPOCHS * EPOCH_LENGTH

  datatype UnstakeRequest = UnstakeRequest(amount: u64, unlockSlot: u64)

  datatype State = State(
    balances: Table<u64>,
    nonces: Table<u64>,
    stakes: Table<u64>,
    unstaking: Table<Vec<UnstakeRequest>>)

  datatype BlockError =
    | InvalidSignature
    | InvalidHeight
    | InvalidSlot
    | InvalidValidator
    | InvalidTransaction
    | InvalidSlashProof(slash: SlashError)
    | InvalidStateRoot
    | ArithmeticOverflow

  const EMPTY_STATE: State := State(map[], map[], map[], map[])

  // ---------------------------------------------------------------- table entries

  function Get(m: Table<u64>, k: Key): (r: u64) { if k in m then m[k] else 0 }

  function Requests(m: Table<Vec<UnstakeRequest>>, k: Key): (r: Vec<UnstakeRequest>) {
    if k in m then m[k] else []
  }

  function Put(m: Table<u64>, k: Key, v: u64): (r: Checked<Table<u64>>) {
    if |m[k := v]| < U64_LIMIT then Value(m[k := v]) else Overflow
  }

  function Remove<V>(m: Table<V>, k: Key): (r: Table<V>) {
    assert (m - {k}).Keys == m.Keys - {k};
    m - {k}
  }

  /** `*entry(k).or_insert(0) += x` */
  function Credit(m: Table<u64>, k: Key, x: u64): (r: Checked<Table<u64>>) {
    var v :- CheckU64(Get(m, k) + x);
    Put(m, k, v)
  }

  /** `*entry(k).or_insert(0) -= x` */
  function Debit(m: Table<u64>, k: Key, x: u64): (r: Checked<Table<u64>>) {
    var v :- CheckU64(Get(m, k) - x);
    Put(m, k, v)
  }

  // ---------------------------------------------------------------- transactions

  predicate IsValidTx(c: Crypto, s: State, tx: Transaction) {
    && (match tx.data
        case Transfer(_, amount) => Get(s.balances, tx.sender) >= amount
        case Stake(amount) => Get(s.balances, tx.sender) >= amount
        case Unstake(amount) => Get(s.stakes, tx.sender) >= amount
        case Slash(proof) => ValidateProof(c, proof).Ok?)
    && tx.sequence == Get(s.nonces, tx.sender)
    && IsSignedTx(c, tx)
  }

  function ApplySlash(c: Crypto, s: State, proof: SlashProof): (r: Result<State, SlashError>) {
    match ValidateProof(c, proof)
    case Err(e) => Err(e)
    case Ok(_) => Ok(s.(stakes := Remove(s.stakes, proof.validator), unstaking := Remove(s.unstaking, proof.validator)))
  }

  /** `entry(k).or_insert(vec![]).push(request)` */
  function Enqueue(m: Table<Vec<UnstakeRequest>>, k: Key, request: UnstakeRequest): (r: Checked<Table<Vec<UnstakeRequest>>>) {
    var queue := Requests(m, k) + [request];
    if |queue| < U64_LIMIT && |m[k := queue]| < U64_LIMIT then Value(m[k := queue]) else Overflow
  }

  function ApplyData(c: Crypto, s: State, sender: Key, data: TransactionData, slot: u64): (r: Checked<State>) {
    match data
    case Transfer(receiver, amount) =>
      var b0 :- Debit(s.balances, sender, amount);
      var b1 :- Credit(b0, receiver, amount);
      Value(s.(balances := b1))
    case Stake(amount) =>
      var b :- Debit(s.balances, sender, amount);
      var st :- Credit(s.stakes, sender, amount);
      Value(s.(balances := b, stakes := st))
    case Unstake(amount) =>
      var st :- Debit(s.stakes, sender, amount);
      var unlock :- CheckU64(slot + UNSTAKE_LOCK_SLOTS);
      var u :- Enqueue(s.unstaking, sender, UnstakeRequest(amount, unlock));
      Value(s.(stakes := st, unstaking := u))
    case Slash(proof) =>
      match ApplySlash(c, s, proof)
      case Ok(next) => Value(next)
      case Err(_) => Value(s)
  }

  function ApplyTx(c: Crypto, s: State, tx: Transaction, slot: u64): (r: Checked<State>) {
    var next :- ApplyData(c, s, tx.sender, tx.data, slot);
    var n :- Credit(next.nonces, tx.sender, 1);
    Value(next.(nonces := n))
  }

  /** The transaction loop of `validate_and_apply_block`. */
  function ApplyTxs(c: Crypto, s: State, txs: seq<Transaction>, slot: u64): (r: Result<State, BlockError>) {
    if txs == [] then Ok(s) else
      var n := |txs| - 1;
      match ApplyTxs(c, s, txs[..n], slot)
      case Err(e) => Err(e)
      case Ok(mid) =>
        if !IsValidTx(c, mid, txs[n]) then Err(InvalidTransaction) else
          match ApplyTx(c, mid, txs[n], slot)
          case Overflow => Err(ArithmeticOverflow)
          case Value(next) => Ok(next)
  }

  /** The slash-proof loop of `validate_and_apply_block`. */
  function ApplySlashes(c: Crypto, s: State, proofs: seq<SlashProof>): (r: Result<State, BlockError>) {
    if proofs == [] then Ok(s) else
      var n := |proofs| - 1;
      match ApplySlashes(c, s, proofs[..n])
      case Err(e) => Err(e)
      case Ok(mid) =>
        match ApplySlash(c, mid, proofs[n])
        case Err(e) => Err(InvalidSlashProof(e))
        case Ok(next) => Ok(next)
  }

  function ApplyBody(c: Crypto, s: State, b: Block): (r: Result<State, BlockError>) {
    match ApplyTxs(c, s, b.transactions, b.slot)
    case Err(e) => Err(e)
    case Ok(mid) => ApplySlashes(c, mid, b.slashProofs)
  }

  // ---------------------------------------------------------------- leader selection

  /** The keys that decode to a curve point, in key order. */
  function Points(c: Crypto, ks: seq<Key>): (r: seq<Key>)
    ensures forall k :: k in r <==> k in ks && c.isPoint(k)
  {
    if ks == [] then [] else
      Points(c, ks[..|ks| - 1]) + (if c.isPoint(ks[|ks| - 1]) then [ks[|ks| - 1]] else [])
  }

  function Validators(c: Crypto, stakes: map<Key, u64>): (r: seq<Key>)
    ensures forall k :: k in r <==> k in stakes && c.isPoint(k)
  {
    Points(c, SortedKeys(stakes.Keys))
  }

  function TotalStake(ks: seq<Key>, stakes: map<Key, u64>): (r: nat)
    requires forall k :: k in ks ==> k in stakes
  {
    if ks == [] then 0 else TotalStake(ks[..|ks| - 1], stakes) + stakes[ks[|ks| - 1]]
  }

  /** The first key whose cumulative stake exceeds the ticket. */
  function Winner(ks: seq<Key>, stakes: map<Key, u64>, ticket: nat): (r: Option<Key>)
    requires forall k :: k in ks ==> k in stakes
  {
    if ks == [] then None else
      var n := |ks| - 1;
      var earlier := Winner(ks[..n], stakes, ticket);
      if earlier.Some? then earlier
      else if ticket < TotalStake(ks, stakes) then Some(ks[n])
      else None
  }

  function ExpectedValidator(c: Crypto, stakes: Table<u64>, height: u64): (r: Checked<Option<Key>>) {
    if stakes == map[] then Value(None) else
      var ks := Validators(c, stakes);
      var total := TotalStake(ks, stakes);
      if total >= U64_LIMIT then Overflow
      else if total == 0 then Value(None)
      else Value(Winner(ks, stakes, height % total))
  }

  // ---------------------------------------------------------------- the block transition

  function ValidateAndApply(c: Crypto, parent: Block, ps: State, b: Block): (r: Result<State, BlockError>) {
    if !IsValidBlock(c, b) then Err(InvalidSignature)
    else if parent.height + 1 >= U64_LIMIT then Err(ArithmeticOverflow)
    else if b.height != parent.height + 1 then Err(InvalidHeight)
    else if b.slot <= parent.slot then Err(InvalidSlot)
    else
      match ExpectedValidator(c, ps.stakes, b.height)
      case Overflow => Err(ArithmeticOverflow)
      case Value(expected) =>
        if expected.Some? && b.validator != expected.value then Err(InvalidValidator)
        else
          match ApplyBody(c, ps, b)
          case Err(e) => Err(e)
          case Ok(next) =>
            if b.stateRoot != StateRoot(c, next.balances) then Err(InvalidStateRoot) else Ok(next)
  }

  /** `should_replace_head`: higher block, then later slot, then larger hash. */
  predicate Beats(h: Hash, b: Block, headHash: Hash, head: Block) {
    if b.height != head.height then b.height > head.height
    else if b.slot != head.slot then b.slot > head.slot
    else Less(headHash, h)
  }

  // ---------------------------------------------------------------- signatures do not matter

  lemma TxContent(c: Crypto, s: State, t: Transaction, u: Transaction, slot: u64)
    requires EraseTx(t) == EraseTx(u)
    requires IsValidTx(c, s, t) && IsValidTx(c, s, u)
    ensures ApplyTx(c, s, t, slot) == ApplyTx(c, s, u, slot)
  {
    hide ValidateProof, IsSignedTx, Credit, Debit, Enqueue;
    assert EraseData(t.data) == EraseData(u.data);
    if t.data.Slash? {
      assert EraseProof(t.data.proof) == EraseProof(u.data.proof);
    } else {
      assert t.data == u.data;
    }
  }

  lemma {:induction false} TxsContent(c: Crypto, s: State, ts: seq<Transaction>, us: seq<Transaction>, slot: u64)
    requires EraseTxs(ts) == EraseTxs(us)
    requires ApplyTxs(c, s, ts, slot).Ok? && ApplyTxs(c, s, us, slot).Ok?
    ensures ApplyTxs(c, s, ts, slot) == ApplyTxs(c, s, us, slot)
    decreases |ts|
  {
    if ts != [] {
      var n := |ts| - 1;
      assert EraseTxs(ts)[..n] == EraseTxs(ts[..n]) && EraseTxs(us)[..n] == EraseTxs(us[..n]);
      assert EraseTxs(ts)[n] == EraseTx(ts[n]) && EraseTxs(us)[n] == EraseTx(us[n]);
      TxsContent(c, s, ts[..n], us[..n], slot);
      TxContent(c, ApplyTxs(c, s, ts[..n], slot).value, ts[n], us[n], slot);
    }
  }

  lemma {:induction false} SlashesContent(c: Crypto, s: State, ps: seq<SlashProof>, qs: seq<SlashProof>)
    requires EraseProofs(ps) == EraseProofs(qs)
    requires ApplySlashes(c, s, ps).Ok? && ApplySlashes(c, s, qs).Ok?
    ensures ApplySlashes(c, s, ps) == ApplySlashes(c, s, qs)
    decreases |ps|
  {
    if ps != [] {
      var n := |ps| - 1;
      assert EraseProofs(ps)[..n] == EraseProofs(ps[..n]) && EraseProofs(qs)[..n] == EraseProofs(qs[..n]);
      assert EraseProofs(ps)[n] == EraseProof(ps[n]) && EraseProofs(qs)[n] == EraseProof(qs[n]);
      SlashesContent(c, s, ps[..n], qs[..n]);
    }
  }

  lemma BodyContent(c: Crypto, s: State, a: Block, b: Block)
    requires SameContent(a, b)
    requires ApplyBody(c, s, a).Ok? && ApplyBody(c, s, b).Ok?
    ensures ApplyBody(c, s, a) == ApplyBody(c, s, b)
  {
    TxsContent(c, s, a.transactions, b.transactions, a.slot);
    SlashesContent(c, ApplyTxs(c, s, a.transactions, a.slot).value, a.slashProofs, b.slashProofs);
  }

  /** Two accepted blocks with the same unsigned content lead from one state to one state. */
  lemma AcceptedContent(c: Crypto, p: Block, q: Block, s: State, a: Block, b: Block)
    requires SameContent(a, b)
    requires ValidateAndApply(c, p, s, a).Ok? && ValidateAndApply(c, q, s, b).Ok?
    ensures ValidateAndApply(c, p, s, a) == ValidateAndApply(c, q, s, b)
  {
    hide ApplyBody, ExpectedValidator, StateRoot, IsValidBlock;
    BodyContent(c, s, a, b);
  }

  // ---------------------------------------------------------------- the mutable ledger

  /** `State` as the node mutates it: four maps updated in place. */
  class LedgerState {
    var balances: Table<u64>
    var nonces: Table<u64>
    var stakes: Table<u64>
    var unstaking: Table<Vec<UnstakeRequest>>

    function View(): (r: State)
      reads this
    {
      State(balances, nonces, stakes, unstaking)
    }

    /** `State::clone`. */
    constructor (s: State)
      ensures View() == s
    {
      balances, nonces, stakes, unstaking := s.balances, s.nonces, s.stakes, s.unstaking;
    }

    method ApplySlashProof(c: Crypto, proof: SlashProof) returns (r: Result<(), SlashError>)
      modifies this
      ensures r.Ok? <==> ApplySlash(c, old(View()), proof).Ok?
      ensures r.Ok? ==> Ok(View()) == ApplySlash(c, old(View()), proof)
      ensures r.Err? ==> View() == old(View()) && ApplySlash(c, View(), proof) == Err(r.error)
    {
      r := ValidateProof(c, proof);
      if r.Ok? {
        stakes := Remove(stakes, proof.validator);
        unstaking := Remove(unstaking, proof.validator);
      }
    }

    /** `apply_tx`; `ok` is false exactly when the checked build would have panicked. */
    method ApplyTransaction(c: Crypto, tx: Transaction, slot: u64) returns (ok: bool)
      modifies this
      ensures ok <==> ApplyTx(c, old(View()), tx, slot).Value?
      ensures ok ==> Value(View()) == ApplyTx(c, old(View()), tx, slot)
    {
      hide Credit, Debit, Enqueue, ApplySlash;
      ok := false;
      match tx.data {
        case Transfer(receiver, amount) =>
          var r := Debit(balances, tx.sender, amount);
          if r.Overflow? { return; }
          balances := r.value;
          r := Credit(balances, receiver, amount);
          if r.Overflow? { return; }
          balances := r.value;
        case Stake(amount) =>
          var r := Debit(balances, tx.sender, amount);
          if r.Overflow? { return; }
          balances := r.value;
          r := Credit(stakes, tx.sender, amount);
          if r.Overflow? { return; }
          stakes := r.value;
        case Unstake(amount) =>
          var r := Debit(stakes, tx.sender, amount);
          if r.Overflow? { return; }
          stakes := r.value;
          var unlock := CheckU64(slot + UNSTAKE_LOCK_SLOTS);
          if unlock.Overflow? { return; }
          var u := Enqueue(unstaking, tx.sender, UnstakeRequest(amount, unlock.value));
          if u.Overflow? { return; }
          unstaking := u.value;
        case Slash(proof) =>
          var _ := ApplySlashProof(c, proof);
      }
      var n := Credit(nonces, tx.sender, 1);
      if n.Overflow? { return; }
      nonces := n.value;
      ok := true;
    }
  }

  /** `get_expected_validator` as written: filter, total, then walk the cumulative stake. */
  method GetExpectedValidator(c: Crypto, stakes: Table<u64>, height: u64) returns (r: Checked<Option<Key>>)
    ensures r == ExpectedValidator(c, stakes, height)
  {
    if |stakes| == 0 { return Value(None); }
    var ks := Validators(c, stakes);
    var total := SumStakes(ks, stakes);
    if total >= U64_LIMIT { return Overflow; }
    if total == 0 { return Value(None); }
    var winner := DrawWinner(ks, stakes, height % total);
    r := Value(winner);
  }

  method SumStakes(ks: seq<Key>, stakes: map<Key, u64>) returns (total: nat)
    requires forall k :: k in ks ==> k in stakes
    ensures total == TotalStake(ks, stakes)
  {
    total := 0;
    for i := 0 to |ks|
      invariant total == TotalStake(ks[..i], stakes)
    {
      assert ks[..i + 1][..i] == ks[..i];
      total := total + stakes[ks[i]];
    }
    assert ks[..|ks|] == ks;
  }

  method DrawWinner(ks: seq<Key>, stakes: map<Key, u64>, ticket: nat) returns (winner: Option<Key>)
    requires forall k :: k in ks ==> k in stakes
    ensures winner == Winner(ks, stakes, ticket)
  {
    var cumulative: nat := 0;
    for i := 0 to |ks|
      invariant cumulative == TotalStake(ks[..i], stakes)
      invariant Winner(ks[..i], stakes, ticket) == None
    {
      assert ks[..i + 1][..i] == ks[..i];
      cumulative := cumulative + stakes[ks[i]];
      if ticket < cumulative {
        WinnerExtends(ks, stakes, ticket, i + 1);
        return Some(ks[i]);
      }
    }
    assert ks[..|ks|] == ks;
    winner := None;
  }

  lemma {:induction false} WinnerExtends(ks: seq<Key>, stakes: map<Key, u64>, ticket: nat, i: nat)
    requires forall k :: k in ks ==> k in stakes
    requires i <= |ks| && Winner(ks[..i], stakes, ticket).Some?
    ensures Winner(ks, stakes, ticket) == Winner(ks[..i], stakes, ticket)
    decreases |ks|
  {
    if i < |ks| {
      assert ks[..|ks| - 1][..i] == ks[..i];
      WinnerExtends(ks[..|ks| - 1], stakes, ticket, i);
    } else {
      assert ks[..i] == ks;
    }
  }

  /** `validate_and_apply_block` as written: mutate a clone of the parent state, transaction by transaction. */
  method ValidateAndApplyBlock(c: Crypto, parent: Block, parentState: State, b: Block)
    returns (r: Result<State, BlockError>)
    ensures r == ValidateAndApply(c, parent, parentState, b)
  {
    hide ApplyTxs, ApplySlashes, ExpectedValidator, StateRoot, IsValidBlock;
    if !IsValidBlock(c, b) { return Err(InvalidSignature); }
    if parent.height + 1 >= U64_LIMIT { return Err(ArithmeticOverflow); }
    if b.height != parent.height + 1 { return Err(InvalidHeight); }
    if b.slot <= parent.slot { return Err(InvalidSlot); }
    var nextState := new LedgerState(parentState);
    var expected := GetExpectedValidator(c, nextState.stakes, b.height);
    if expected.Overflow? { return Err(ArithmeticOverflow); }
    if expected.value.Some? && b.validator != expected.value.value { return Err(InvalidValidator); }
    var error := ApplyTransactions(c, nextState, b.transactions, b.slot);
    if error.Some? { return Err(error.value); }
    error := ApplyProofs(c, nextState, b.slashProofs);
    if error.Some? { return Err(error.value); }
    var root := ComputeStateRoot(c, nextState.balances);
    if b.stateRoot != root { return Err(InvalidStateRoot); }
    r := Ok(nextState.View());
  }

  /** The transaction loop. */
  method ApplyTransactions(c: Crypto, st: LedgerState, txs: seq<Transaction>, slot: u64) returns (error: Option<BlockError>)
    modifies st
    ensures match ApplyTxs(c, old(st.View()), txs, slot)
            case Err(e) => error == Some(e)
            case Ok(next) => error == None && st.View() == next
  {
    hide IsValidTx, ApplyTx;
    ghost var start := st.View();
    for i := 0 to |txs|
      invariant ApplyTxs(c, start, txs[..i], slot) == Ok(st.View())
    {
      assert txs[..i + 1][..i] == txs[..i];
      ghost var here := st.View();
      if !IsValidTx(c, st.View(), txs[i]) {
        assert ApplyTxs(c, start, txs[..i + 1], slot) == Err(InvalidTransaction);
        TxsError(c, start, txs, slot, i + 1);
        return Some(InvalidTransaction);
      }
      var ok := st.ApplyTransaction(c, txs[i], slot);
      if !ok {
        assert ApplyTxs(c, start, txs[..i + 1], slot) == Err(ArithmeticOverflow);
        TxsError(c, start, txs, slot, i + 1);
        return Some(ArithmeticOverflow);
      }
      assert ApplyTx(c, here, txs[i], slot) == Value(st.View());
    }
    assert txs[..|txs|] == txs;
    error := None;
  }

  /** The slash-proof loop. */
  method ApplyProofs(c: Crypto, st: LedgerState, proofs: seq<SlashProof>) returns (error: Option<BlockError>)
    modifies st
    ensures match ApplySlashes(c, old(st.View()), proofs)
            case Err(e) => error == Some(e)
            case Ok(next) => error == None && st.View() == next
  {
    hide ApplySlash;
    ghost var start := st.View();
    for i := 0 to |proofs|
      invariant ApplySlashes(c, start, proofs[..i]) == Ok(st.View())
    {
      assert proofs[..i + 1][..i] == proofs[..i];
      var r := st.ApplySlashProof(c, proofs[i]);
      if r.Err? {
        SlashesError(c, start, proofs, i + 1);
        return Some(InvalidSlashProof(r.error));
      }
    }
    assert proofs[..|proofs|] == proofs;
    error := None;
  }

  lemma {:induction false} TxsError(c: Crypto, s: State, txs: seq<Transaction>, slot: u64, i: nat)
    requires i <= |txs| && ApplyTxs(c, s, txs[..i], slot).Err?
    ensures ApplyTxs(c, s, txs, slot) == ApplyTxs(c, s, txs[..i], slot)
    decreases |txs|
  {
    if i < |txs| {
      assert txs[..|txs| - 1][..i] == txs[..i];
      TxsError(c, s, txs[..|txs| - 1], slot, i);
    } else {
      assert txs[..i] == txs;
    }
  }

  lemma {:induction false} SlashesError(c: Crypto, s: State, proofs: seq<SlashProof>, i: nat)
    requires i <= |proofs| && ApplySlashes(c, s, proofs[..i]).Err?
    ensures ApplySlashes(c, s, proofs) == ApplySlashes(c, s, proofs[..i])
    decreases |proofs|
  {
    if i < |proofs| {
      assert proofs[..|proofs| - 1][..i] == proofs[..i];
      SlashesError(c, s, proofs[..|proofs| - 1], i);
    } else {
      assert proofs[..i] == proofs;
    }
  }
}
