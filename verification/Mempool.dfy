/**
 The fee-ordered mempool (rp-node/src/mempool.rs): a `BTreeSet<Transaction>` under the ordering of
 rp-core/src/models/transaction.rs, i.e. a strictly ordered list by descending fee, then ascending hash.
 */
module Mempool {
  import opened Base
  import opened Models

  type Pool = seq<Transaction>

  datatype PoolError = FeeTooLow | EvictionFailed

  /** `Ord for Transaction`. */
  predicate Before(c: Crypto, a: Transaction, b: Transaction) {
    a.fee > b.fee || (a.fee == b.fee && Less(TxHash(c, a), TxHash(c, b)))
  }

  /** What the ordering distinguishes. */
  type Id = (u64, Hash)

  function IdOf(c: Crypto, t: Transaction): (r: Id) { (t.fee, TxHash(c, t)) }

  predicate Contains(c: Crypto, pool: Pool, t: Transaction) {
    exists i :: 0 <= i < |pool| && IdOf(c, pool[i]) == IdOf(c, t)
  }

  function Insert(c: Crypto, pool: Pool, t: Transaction): (r: Pool) {
    if pool == [] then [t]
    else if Before(c, t, pool[0]) then [t] + pool
    else [pool[0]] + Insert(c, pool[1..], t)
  }

  function Add(c: Crypto, pool: Pool, maxSize: nat, t: Transaction): (r: (Pool, Result<bool, PoolError>)) {
    if Contains(c, pool, t) then (pool, Ok(false))
    else if |pool| < maxSize then (Insert(c, pool, t), Ok(true))
    else if pool == [] then (pool, Err(EvictionFailed))
    else
      var lowest := pool[|pool| - 1];
      if t.fee > lowest.fee then (Insert(c, pool[..|pool| - 1], t), Ok(true))
      else (pool, Err(FeeTooLow))
  }

  /** `remove_transaction`: retain everything whose hash differs. */
  function Without(c: Crypto, pool: Pool, h: Hash): (r: Pool)
    ensures forall t :: t in r <==> t in pool && TxHash(c, t) != h
  {
    if pool == [] then [] else
      var rest := Without(c, pool[..|pool| - 1], h);
      var last := pool[|pool| - 1];
      assert pool == pool[..|pool| - 1] + [last];
      if TxHash(c, last) != h then rest + [last] else rest
  }

  // ---------------------------------------------------------------- order

  /** A higher fee first, and the smaller hash first among equal fees. */
  ghost predicate Precedes(c: Crypto, a: Transaction, b: Transaction) {
    b.fee < a.fee || (a.fee == b.fee && Less(TxHash(c, a), TxHash(c, b)))
  }

  lemma BeforeIsPrecedes(c: Crypto, a: Transaction, b: Transaction)
    ensures Before(c, a, b) <==> Precedes(c, a, b)
  {
  }

  ghost predicate Ordered(c: Crypto, pool: Pool) {
    forall i, j :: 0 <= i < j < |pool| ==> Precedes(c, pool[i], pool[j])
  }

  lemma PrecedesTransitive(c: Crypto, a: Transaction, b: Transaction, d: Transaction)
    requires Precedes(c, a, b) && Precedes(c, b, d)
    ensures Precedes(c, a, d)
  {
    if a.fee == b.fee == d.fee { LessTransitive(TxHash(c, a), TxHash(c, b), TxHash(c, d)); }
  }

  lemma PrecedesTotal(c: Crypto, a: Transaction, b: Transaction)
    requires IdOf(c, a) != IdOf(c, b)
    ensures Precedes(c, a, b) || Precedes(c, b, a)
  {
    if a.fee == b.fee { LessTotal(TxHash(c, a), TxHash(c, b)); }
  }

  ghost function Ids(c: Crypto, pool: Pool): (r: set<Id>) {
    set i | 0 <= i < |pool| :: IdOf(c, pool[i])
  }

  lemma NotContainedPart(c: Crypto, pool: Pool, t: Transaction, lo: nat, hi: nat)
    requires !Contains(c, pool, t) && lo <= hi <= |pool|
    ensures !Contains(c, pool[lo..hi], t)
  {
    hide TxHash, IdOf;
    forall i | 0 <= i < hi - lo ensures IdOf(c, pool[lo..hi][i]) != IdOf(c, t) {
      assert pool[lo..hi][i] == pool[lo + i];
    }
  }

  /** Everything in an inserted-into tail still comes after a head that preceded the tail and the newcomer. */
  lemma HeadStaysFirst(c: Crypto, head: Transaction, rest: Pool, t: Transaction, out: Pool)
    requires Ordered(c, [head] + rest) && Precedes(c, head, t)
    requires multiset(out) == multiset(rest) + multiset{t}
    ensures forall j :: 0 <= j < |out| ==> Precedes(c, head, out[j])
  {
    hide TxHash, Precedes;
    forall j | 0 <= j < |out| ensures Precedes(c, head, out[j]) {
      assert out[j] in multiset(out);
      if out[j] != t {
        assert out[j] in multiset(rest) && out[j] in rest;
        var i :| 0 <= i < |rest| && rest[i] == out[j];
        assert ([head] + rest)[0] == head && ([head] + rest)[i + 1] == rest[i];
      }
    }
  }

  /** Inserting a new transaction adds exactly its identity and keeps the order. */
  lemma {:induction false} InsertKeepsOrder(c: Crypto, pool: Pool, t: Transaction)
    requires Ordered(c, pool) && !Contains(c, pool, t)
    ensures Ordered(c, Insert(c, pool, t))
    ensures multiset(Insert(c, pool, t)) == multiset(pool) + multiset{t}
    decreases |pool|
  {
    hide TxHash, Precedes, Before;
    if pool != [] {
      BeforeIsPrecedes(c, t, pool[0]);
      if Before(c, t, pool[0]) {
        forall j | 0 < j < |pool| ensures Precedes(c, t, pool[j]) { PrecedesTransitive(c, t, pool[0], pool[j]); }
        OrderedCons(c, t, pool);
      } else {
        PrecedesTotal(c, t, pool[0]);
        var rest := pool[1..];
        NotContainedPart(c, pool, t, 1, |pool|);
        assert pool[1..|pool|] == rest;
        InsertKeepsOrder(c, rest, t);
        var out := Insert(c, rest, t);
        assert pool == [pool[0]] + rest;
        HeadStaysFirst(c, pool[0], rest, t, out);
        OrderedCons(c, pool[0], out);
      }
    }
  }

  lemma OrderedCons(c: Crypto, head: Transaction, rest: Pool)
    requires Ordered(c, rest) && forall j :: 0 <= j < |rest| ==> Precedes(c, head, rest[j])
    ensures Ordered(c, [head] + rest)
  {
    hide Precedes;
    var all := [head] + rest;
    forall i, j | 0 <= i < j < |all| ensures Precedes(c, all[i], all[j]) {
      assert all[j] == rest[j - 1];
      if i > 0 { assert all[i] == rest[i - 1]; }
    }
  }

  lemma IdsOfMultiset(c: Crypto, p: Pool, q: Pool, t: Transaction)
    requires multiset(p) == multiset(q) + multiset{t}
    ensures |p| == |q| + 1
    ensures Ids(c, p) == Ids(c, q) + {IdOf(c, t)}
  {
    hide TxHash;
    assert |multiset(p)| == |p| && |multiset(q)| == |q|;
    forall id ensures id in Ids(c, p) <==> id in Ids(c, q) + {IdOf(c, t)} {
      if id in Ids(c, p) {
        var i :| 0 <= i < |p| && IdOf(c, p[i]) == id;
        assert p[i] in multiset(q) + multiset{t};
        if p[i] != t {
          assert p[i] in q;
          var j :| 0 <= j < |q| && q[j] == p[i];
        }
      }
      if id in Ids(c, q) {
        var i :| 0 <= i < |q| && IdOf(c, q[i]) == id;
        assert q[i] in multiset(p);
        assert q[i] in p;
        var j :| 0 <= j < |p| && p[j] == q[i];
      }
      if id == IdOf(c, t) {
        assert t in multiset(p);
        assert t in p;
        var j :| 0 <= j < |p| && p[j] == t;
      }
    }
  }

  lemma {:induction false} IdsDistinct(c: Crypto, pool: Pool)
    requires Ordered(c, pool)
    ensures |Ids(c, pool)| == |pool|
    decreases |pool|
  {
    hide TxHash;
    if pool != [] {
      var n := |pool| - 1;
      IdsDistinct(c, pool[..n]);
      var last := IdOf(c, pool[n]);
      assert Ids(c, pool) == Ids(c, pool[..n]) + {last};
      assert last !in Ids(c, pool[..n]) by {
        if last in Ids(c, pool[..n]) {
          var i :| 0 <= i < n && IdOf(c, pool[i]) == last;
          assert Precedes(c, pool[i], pool[n]);
          LessIrreflexive(last.1);
        }
      }
    }
  }

  // ---------------------------------------------------------------- runs of offers

  function Offer(c: Crypto, maxSize: nat, offers: seq<Transaction>): (r: Pool) {
    if offers == [] then [] else
      Add(c, Offer(c, maxSize, offers[..|offers| - 1]), maxSize, offers[|offers| - 1]).0
  }

  /** Everything outside the pool pays no more than anything inside, and only a full pool leaves anything out. */
  ghost predicate Best(pool: set<Id>, offered: set<Id>, maxSize: nat) {
    && pool <= offered
    && (forall x, y :: x in offered - pool && y in pool ==> x.0 <= y.0)
    && (offered != pool ==> |pool| == maxSize)
    && |pool| <= maxSize
  }

  lemma LowestIsLast(c: Crypto, pool: Pool, y: Id)
    requires Ordered(c, pool) && pool != [] && y in Ids(c, pool)
    ensures pool[|pool| - 1].fee <= y.0
  {
    hide TxHash;
    var i :| 0 <= i < |pool| && IdOf(c, pool[i]) == y;
    if i < |pool| - 1 { assert Precedes(c, pool[i], pool[|pool| - 1]); }
  }

  lemma AddKeepsBest(c: Crypto, pool: Pool, maxSize: nat, t: Transaction, offered: set<Id>)
    requires Ordered(c, pool) && Best(Ids(c, pool), offered, maxSize)
    ensures var next := Add(c, pool, maxSize, t).0;
            Ordered(c, next) && Best(Ids(c, next), offered + {IdOf(c, t)}, maxSize)
  {
    hide TxHash, Insert, Best, Ordered, Ids;
    IdsDistinct(c, pool);
    ContainedId(c, pool, t);
    if Contains(c, pool, t) {
      RepeatBest(Ids(c, pool), IdOf(c, t), offered, maxSize);
    } else if |pool| < maxSize {
      InsertKeepsOrder(c, pool, t);
      IdsOfMultiset(c, Insert(c, pool, t), pool, t);
      InsertBest(Ids(c, pool), IdOf(c, t), offered, maxSize);
    } else if pool == [] {
      RefuseBest(Ids(c, pool), IdOf(c, t), offered);
    } else {
      EvictionKeepsBest(c, pool, maxSize, t, offered);
    }
  }

  lemma ContainedId(c: Crypto, pool: Pool, t: Transaction)
    ensures Contains(c, pool, t) <==> IdOf(c, t) in Ids(c, pool)
  {
    hide TxHash;
  }

  lemma RepeatBest(pool: set<Id>, id: Id, offered: set<Id>, maxSize: nat)
    requires Best(pool, offered, maxSize) && id in pool
    ensures Best(pool, offered + {id}, maxSize)
  {
    assert offered + {id} == offered;
  }

  lemma InsertBest(pool: set<Id>, id: Id, offered: set<Id>, maxSize: nat)
    requires Best(pool, offered, maxSize) && id !in pool && |pool| < maxSize
    ensures Best(pool + {id}, offered + {id}, maxSize)
  {
  }

  lemma RefuseBest(pool: set<Id>, id: Id, offered: set<Id>)
    requires Best(pool, offered, 0)
    ensures Best(pool, offered + {id}, 0)
  {
  }

  /** The set-level content of an eviction: the lowest identity gives way to a better one, or the offer is refused. */
  lemma EvictBest(kept: set<Id>, low: Id, id: Id, offered: set<Id>, maxSize: nat)
    requires Best(kept + {low}, offered, maxSize) && low !in kept && id !in kept + {low}
    requires |kept + {low}| == maxSize
    requires forall y :: y in kept ==> low.0 <= y.0
    ensures id.0 > low.0 ==> Best(kept + {id}, offered + {id}, maxSize)
    ensures id.0 <= low.0 ==> Best(kept + {low}, offered + {id}, maxSize)
  {
    var pool := kept + {low};
    if id.0 > low.0 {
      var next := kept + {id};
      forall x, y | x in offered + {id} - next && y in next ensures x.0 <= y.0 {
        if x != low { assert x in offered - pool && x.0 <= low.0; }
      }
    } else {
      forall x, y | x in offered + {id} - pool && y in pool ensures x.0 <= y.0 {
        if x != id { assert x in offered - pool; }
      }
    }
  }

  lemma EvictionKeepsBest(c: Crypto, pool: Pool, maxSize: nat, t: Transaction, offered: set<Id>)
    requires Ordered(c, pool) && Best(Ids(c, pool), offered, maxSize)
    requires !Contains(c, pool, t) && pool != [] && |pool| >= maxSize
    ensures var next := Add(c, pool, maxSize, t).0;
            Ordered(c, next) && Best(Ids(c, next), offered + {IdOf(c, t)}, maxSize)
  {
    hide TxHash, Insert, Precedes, Best;
    var n := |pool| - 1;
    var kept, low := Ids(c, pool[..n]), IdOf(c, pool[n]);
    assert Ids(c, pool) == kept + {low};
    IdsDistinct(c, pool);
    IdsDistinct(c, pool[..n]);
    BestSize(Ids(c, pool), offered, maxSize);
    forall y | y in kept ensures low.0 <= y.0 { LowestIsLast(c, pool, y); }
    EvictBest(kept, low, IdOf(c, t), offered, maxSize);
    if t.fee > pool[n].fee {
      NotContainedPart(c, pool, t, 0, n);
      assert pool[0..n] == pool[..n];
      InsertKeepsOrder(c, pool[..n], t);
      IdsOfMultiset(c, Insert(c, pool[..n], t), pool[..n], t);
    }
  }

  lemma BestSize(pool: set<Id>, offered: set<Id>, maxSize: nat)
    requires Best(pool, offered, maxSize)
    ensures |pool| <= maxSize
  {
  }

  /** After any sequence of offers the pool is ordered, duplicate-free, within capacity, and holds the best offers. */
  lemma {:induction false} OfferBest(c: Crypto, maxSize: nat, offers: seq<Transaction>)
    ensures var pool := Offer(c, maxSize, offers);
            && Ordered(c, pool)
            && |Ids(c, pool)| == |pool|
            && Best(Ids(c, pool), Ids(c, offers), maxSize)
    decreases |offers|
  {
    hide TxHash, Add, Best, Ordered;
    if offers == [] {
      EmptyBest(c, maxSize);
    } else {
      var n := |offers| - 1;
      OfferBest(c, maxSize, offers[..n]);
      AddKeepsBest(c, Offer(c, maxSize, offers[..n]), maxSize, offers[n], Ids(c, offers[..n]));
      assert Ids(c, offers) == Ids(c, offers[..n]) + {IdOf(c, offers[n])};
    }
    IdsDistinct(c, Offer(c, maxSize, offers));
  }

  lemma EmptyBest(c: Crypto, maxSize: nat)
    ensures Ordered(c, []) && Best(Ids(c, []), Ids(c, []), maxSize)
  {
    assert Ids(c, []) == {};
  }

  // ---------------------------------------------------------------- optimality

  ghost function FeeSum(ids: set<Id>): (r: nat)
    decreases |ids|
  {
    if ids == {} then 0 else
      var x :| x in ids;
      x.0 + FeeSum(ids - {x})
  }

  lemma {:induction false} FeeSplit(ids: set<Id>, x: Id)
    requires x in ids
    ensures FeeSum(ids) == x.0 + FeeSum(ids - {x})
    decreases |ids|
  {
    var y :| y in ids && FeeSum(ids) == y.0 + FeeSum(ids - {y});
    if y != x {
      FeeSplit(ids - {y}, x);
      FeeSplit(ids - {x}, y);
      assert ids - {y} - {x} == ids - {x} - {y};
    }
  }

  lemma SwapPartner(p: set<Id>, q: set<Id>, x: Id) returns (y: Id)
    requires |q| <= |p| && x in q && x !in p
    ensures y in p && y !in q
  {
    assert |p - q| == |p| - |p * q| && |q - p| == |q| - |q * p|;
    assert p * q == q * p && x in q - p;
    y :| y in p - q;
  }

  /** The exchange argument. */
  lemma {:induction false} Exchange(p: set<Id>, q: set<Id>)
    requires |q| <= |p|
    requires forall x, y :: x in q - p && y in p - q ==> x.0 <= y.0
    ensures FeeSum(q) <= FeeSum(p)
    decreases |q|
  {
    if q != {} {
      var x :| x in q;
      FeeSplit(q, x);
      if x in p {
        FeeSplit(p, x);
        Exchange(p - {x}, q - {x});
      } else {
        var y := SwapPartner(p, q, x);
        FeeSplit(p, y);
        Exchange(p - {y}, q - {x});
      }
    }
  }

  lemma {:induction false} SubsetSize(a: set<Id>, b: set<Id>)
    requires a <= b
    ensures |a| <= |b|
  {
    assert b == a + (b - a);
  }

  /** Online optimality: no choice of `maxSize` distinct offers pays more in total than the pool. */
  lemma MempoolOptimal(c: Crypto, maxSize: nat, offers: seq<Transaction>, choice: set<Id>)
    requires choice <= Ids(c, offers) && |choice| <= maxSize
    ensures FeeSum(choice) <= FeeSum(Ids(c, Offer(c, maxSize, offers)))
  {
    hide Offer, Ids;
    OfferBest(c, maxSize, offers);
    var pool := Ids(c, Offer(c, maxSize, offers));
    if Ids(c, offers) == pool { SubsetSize(choice, pool); }
    Exchange(pool, choice);
  }

  // ---------------------------------------------------------------- the mutable pool

  // ---------------------------------------------------------------- what one offer does

  /** The transactions an accepted newcomer joins: all, or all but the last if the pool is full. */
  ghost function Kept(pool: Pool, maxSize: nat): (r: Pool) {
    if |pool| < maxSize || pool == [] then pool else pool[..|pool| - 1]
  }

  ghost predicate PaysLeast(pool: Pool, t: Transaction) {
    forall x :: x in pool ==> t.fee <= x.fee
  }

  /** The answer of an offer, and the pool after it: a transaction whose identity is there is turned away without error;
      one with room is put in; a full pool takes it in place of its last one unless every one there pays at least as much. */
  lemma AddVerdict(c: Crypto, pool: Pool, maxSize: nat, t: Transaction)
    requires Ordered(c, pool)
    ensures var (next, r) := Add(c, pool, maxSize, t);
            && (r == Ok(false) <==> IdOf(c, t) in Ids(c, pool))
            && (r == Ok(true) <==> IdOf(c, t) !in Ids(c, pool) && IdOf(c, t) in Ids(c, next))
            && (r == Err(EvictionFailed) <==> pool == [] && maxSize == 0)
            && (r == Err(FeeTooLow) <==> IdOf(c, t) !in Ids(c, pool) && pool != [] && |pool| >= maxSize && PaysLeast(pool, t))
            && (r != Ok(true) ==> next == pool)
            && (r == Ok(true) ==> Ordered(c, next) && multiset(next) == multiset(Kept(pool, maxSize)) + multiset{t})
  {
    hide TxHash, Insert, Precedes, Ids, Ordered, PaysLeast;
    ContainedId(c, pool, t);
    if pool != [] { LastPaysLeast(c, pool, t); }
    if !Contains(c, pool, t) && (|pool| < maxSize || (pool != [] && t.fee > pool[|pool| - 1].fee)) {
      KeptOrdered(c, pool, maxSize, t);
      InsertAdds(c, Kept(pool, maxSize), t);
    }
  }

  lemma LastPaysLeast(c: Crypto, pool: Pool, t: Transaction)
    requires Ordered(c, pool) && pool != []
    ensures PaysLeast(pool, t) <==> t.fee <= pool[|pool| - 1].fee
  {
    hide TxHash, Less;
    forall x | x in pool ensures pool[|pool| - 1].fee <= x.fee {
      var i :| 0 <= i < |pool| && pool[i] == x;
      if i < |pool| - 1 { assert Precedes(c, pool[i], pool[|pool| - 1]); }
    }
  }

  lemma KeptOrdered(c: Crypto, pool: Pool, maxSize: nat, t: Transaction)
    requires Ordered(c, pool) && !Contains(c, pool, t)
    ensures Ordered(c, Kept(pool, maxSize)) && !Contains(c, Kept(pool, maxSize), t)
  {
    hide TxHash, Precedes;
    if |pool| >= maxSize && pool != [] {
      NotContainedPart(c, pool, t, 0, |pool| - 1);
      assert pool[0..|pool| - 1] == pool[..|pool| - 1];
    }
  }

  lemma InsertAdds(c: Crypto, pool: Pool, t: Transaction)
    requires Ordered(c, pool) && !Contains(c, pool, t)
    ensures var next := Insert(c, pool, t);
            Ordered(c, next) && multiset(next) == multiset(pool) + multiset{t} && IdOf(c, t) in Ids(c, next)
  {
    hide TxHash, Insert, Ordered;
    InsertKeepsOrder(c, pool, t);
    IdsOfMultiset(c, Insert(c, pool, t), pool, t);
  }

  // ---------------------------------------------------------------- what a removal leaves

  /** `a` is `b` with some transactions left out, in the same order. */
  ghost predicate Sublist(a: Pool, b: Pool) {
    if b == [] then a == []
    else if a != [] && a[|a| - 1] == b[|b| - 1] && Sublist(a[..|a| - 1], b[..|b| - 1]) then true
    else Sublist(a, b[..|b| - 1])
  }

  lemma {:induction false} SublistReflexive(a: Pool)
    ensures Sublist(a, a)
    decreases |a|
  {
    if a != [] { SublistReflexive(a[..|a| - 1]); }
  }

  lemma {:induction false} SublistTransitive(a: Pool, b: Pool, d: Pool)
    requires Sublist(a, b) && Sublist(b, d)
    ensures Sublist(a, d)
    decreases |d|, |b|
  {
    if d != [] {
      var d0 := d[..|d| - 1];
      if b != [] && b[|b| - 1] == d[|d| - 1] && Sublist(b[..|b| - 1], d0) {
        var b0 := b[..|b| - 1];
        if a != [] && a[|a| - 1] == b[|b| - 1] && Sublist(a[..|a| - 1], b0) {
          SublistTransitive(a[..|a| - 1], b0, d0);
        } else {
          SublistTransitive(a, b0, d0);
        }
      } else {
        SublistTransitive(a, b, d0);
      }
    }
  }

  lemma {:induction false} SublistOrdered(c: Crypto, a: Pool, b: Pool)
    requires Sublist(a, b) && Ordered(c, b)
    ensures Ordered(c, a) && |a| <= |b| && (forall t :: t in a ==> t in b)
    decreases |b|
  {
    hide Precedes;
    if b != [] {
      var b0 := b[..|b| - 1];
      if a != [] && a[|a| - 1] == b[|b| - 1] && Sublist(a[..|a| - 1], b0) {
        var a0, last := a[..|a| - 1], a[|a| - 1];
        SublistOrdered(c, a0, b0);
        assert a == a0 + [last];
        forall i | 0 <= i < |a0| ensures Precedes(c, a0[i], last) {
          assert a0[i] in b0;
          var k :| 0 <= k < |b0| && b0[k] == a0[i];
          assert Precedes(c, b[k], b[|b| - 1]);
        }
      } else {
        SublistOrdered(c, a, b0);
      }
    }
  }

  lemma {:induction false} WithoutSublist(c: Crypto, pool: Pool, h: Hash)
    ensures Sublist(Without(c, pool, h), pool)
    decreases |pool|
  {
    hide TxHash;
    if pool != [] { WithoutSublist(c, pool[..|pool| - 1], h); }
  }

  class TransactionPool {
    var transactions: Pool
    const maxSize: nat

    constructor (maxSize: nat)
      ensures transactions == [] && this.maxSize == maxSize
    {
      this.maxSize := maxSize;
      transactions := [];
    }

    method AddTransaction(c: Crypto, t: Transaction) returns (r: Result<bool, PoolError>)
      modifies this
      ensures (transactions, r) == Add(c, old(transactions), maxSize, t)
    {
      if Contains(c, transactions, t) { return Ok(false); }
      if |transactions| < maxSize {
        transactions := Insert(c, transactions, t);
        return Ok(true);
      }
      if transactions != [] {
        var lowest := transactions[|transactions| - 1];
        if t.fee > lowest.fee {
          transactions := transactions[..|transactions| - 1];
          transactions := Insert(c, transactions, t);
          return Ok(true);
        }
        return Err(FeeTooLow);
      }
      r := Err(EvictionFailed);
    }

    /** The `count` best transactions, best first. */
    method GetPendingTransactions(c: Crypto, count: nat) returns (r: seq<Transaction>)
      requires Ordered(c, transactions)
      ensures |r| == Min(count, |transactions|) && r <= transactions && Ordered(c, r)
      ensures forall t, u :: t in r && u in transactions[|r|..] ==> t.fee >= u.fee
    {
      r := transactions[..Min(count, |transactions|)];
    }

    method RemoveTransaction(c: Crypto, h: Hash)
      modifies this
      ensures transactions == Without(c, old(transactions), h)
    {
      var kept: Pool := [];
      for i := 0 to |transactions|
        invariant transactions == old(transactions)
        invariant kept == Without(c, transactions[..i], h)
      {
        assert transactions[..i + 1][..i] == transactions[..i];
        if TxHash(c, transactions[i]) != h {
          kept := kept + [transactions[i]];
        }
      }
      assert transactions[..|transactions|] == transactions;
      transactions := kept;
    }
  }
}
