/**
 Stake-weighted leader selection is exactly fair (rp-core/src/state.rs, `get_expected_validator`):
 over any run of consecutive heights as long as the total stake, every valid key leads exactly as
 often as its stake, and nobody else ever leads.
 */
module Leader {
  import opened Base
  import opened Models
  import opened Ledger
  import opened LedgerLaws

  /** How many tickets in `[lo, hi)` elect `k`. */
  ghost function TicketWins(ks: seq<Key>, m: map<Key, u64>, lo: nat, hi: nat, k: Key): (r: nat)
    requires forall j :: j in ks ==> j in m
    decreases hi
  {
    if hi <= lo then 0 else
      TicketWins(ks, m, lo, hi - 1, k) + (if Winner(ks, m, hi - 1) == Some(k) then 1 else 0)
  }

  /** How many of the `n` heights from `first` on have `k` as their expected validator. */
  ghost function Leads(c: Crypto, stakes: Table<u64>, first: nat, n: nat, k: Key): (r: nat)
    requires first + n <= U64_LIMIT
  {
    if n == 0 then 0 else
      Leads(c, stakes, first, n - 1, k)
      + (if ExpectedValidator(c, stakes, first + n - 1) == Value(Some(k)) then 1 else 0)
  }

  lemma {:induction false} TotalMonotone(ks: seq<Key>, m: map<Key, u64>, i: nat, j: nat)
    requires forall k :: k in ks ==> k in m
    requires i <= j <= |ks|
    ensures TotalStake(ks[..i], m) <= TotalStake(ks[..j], m)
    decreases j
  {
    if i < j {
      assert ks[..j][..j - 1] == ks[..j - 1];
      TotalMonotone(ks, m, i, j - 1);
    }
  }

  lemma SliceWidth(ks: seq<Key>, m: map<Key, u64>, i: nat)
    requires forall k :: k in ks ==> k in m
    requires i < |ks|
    ensures TotalStake(ks[..i + 1], m) == TotalStake(ks[..i], m) + m[ks[i]]
    ensures TotalStake(ks[..i + 1], m) <= TotalStake(ks, m)
  {
    assert ks[..i + 1][..i] == ks[..i];
    assert ks[..|ks|] == ks;
    TotalMonotone(ks, m, i + 1, |ks|);
  }

  /** A ticket elects the key whose slice of the cumulative stake contains it. */
  lemma {:induction false} WinnerSlice(ks: seq<Key>, m: map<Key, u64>, t: nat, i: nat)
    requires forall k :: k in ks ==> k in m
    requires i < |ks| && TotalStake(ks[..i], m) <= t < TotalStake(ks[..i + 1], m)
    ensures Winner(ks, m, t) == Some(ks[i])
    decreases |ks|
  {
    var n := |ks| - 1;
    assert ks[..n + 1] == ks;
    if i < n {
      assert ks[..n][..i] == ks[..i] && ks[..n][..i + 1] == ks[..i + 1];
      WinnerSlice(ks[..n], m, t, i);
    } else {
      WinnerNone(ks[..n], m, t);
    }
  }

  lemma {:induction false} WinnerNone(ks: seq<Key>, m: map<Key, u64>, t: nat)
    requires forall k :: k in ks ==> k in m
    requires TotalStake(ks, m) <= t
    ensures Winner(ks, m, t) == None
    decreases |ks|
  {
    if ks != [] { WinnerNone(ks[..|ks| - 1], m, t); }
  }

  /** Every ticket below the total lies in the slice of its winner. */
  lemma {:induction false} WinnerFound(ks: seq<Key>, m: map<Key, u64>, t: nat) returns (i: nat)
    requires forall k :: k in ks ==> k in m
    requires t < TotalStake(ks, m)
    ensures i < |ks| && TotalStake(ks[..i], m) <= t < TotalStake(ks[..i + 1], m)
    decreases |ks|
  {
    var n := |ks| - 1;
    assert ks[..n + 1] == ks;
    if TotalStake(ks[..n], m) <= t {
      i := n;
    } else {
      i := WinnerFound(ks[..n], m, t);
      assert ks[..n][..i] == ks[..i] && ks[..n][..i + 1] == ks[..i + 1];
    }
  }

  lemma {:induction false} SliceCount(ks: seq<Key>, m: map<Key, u64>, hi: nat, i: nat)
    requires forall k :: k in ks ==> k in m
    requires forall a, b :: 0 <= a < b < |ks| ==> ks[a] != ks[b]
    requires i < |ks| && hi <= TotalStake(ks, m)
    ensures var a, b := TotalStake(ks[..i], m), TotalStake(ks[..i + 1], m);
            TicketWins(ks, m, 0, hi, ks[i]) == if hi <= a then 0 else if hi <= b then hi - a else b - a
    decreases hi
  {
    hide Winner, TotalStake;
    TotalMonotone(ks, m, i, i + 1);
    if hi > 0 {
      var t := hi - 1;
      SliceCount(ks, m, t, i);
      var j := WinnerFound(ks, m, t);
      WinnerSlice(ks, m, t, j);
      if j < i {
        TotalMonotone(ks, m, j + 1, i);
      } else if i < j {
        TotalMonotone(ks, m, i + 1, j);
      }
    }
  }

  lemma {:induction false} NobodyElse(ks: seq<Key>, m: map<Key, u64>, lo: nat, hi: nat, k: Key)
    requires forall j :: j in ks ==> j in m
    requires k !in ks
    ensures TicketWins(ks, m, lo, hi, k) == 0
    decreases hi
  {
    if lo < hi {
      NobodyElse(ks, m, lo, hi - 1, k);
      WinnerListed(ks, m, hi - 1);
    }
  }

  lemma {:induction false} WinnerListed(ks: seq<Key>, m: map<Key, u64>, t: nat)
    requires forall j :: j in ks ==> j in m
    ensures Winner(ks, m, t).Some? ==> Winner(ks, m, t).value in ks
    decreases |ks|
  {
    if ks != [] { WinnerListed(ks[..|ks| - 1], m, t); }
  }

  lemma {:induction false} SplitTickets(ks: seq<Key>, m: map<Key, u64>, mid: nat, hi: nat, k: Key)
    requires forall j :: j in ks ==> j in m
    requires mid <= hi
    ensures TicketWins(ks, m, 0, hi, k) == TicketWins(ks, m, 0, mid, k) + TicketWins(ks, m, mid, hi, k)
    decreases hi
  {
    if mid < hi { SplitTickets(ks, m, mid, hi - 1, k); }
  }

  // ---------------------------------------------------------------- from tickets to heights

  lemma MulAtLeast(a: int, t: nat)
    requires a >= 1
    ensures a * t >= t
  {
  }

  lemma ModOfMultiple(q: nat, r: nat, t: nat)
    requires r < t
    ensures (q * t + r) % t == r
  {
    var x := q * t + r;
    var q', r' := x / t, x % t;
    assert x == q' * t + r';
    assert (q - q') * t == q * t - q' * t;
    assert (q' - q) * t == q' * t - q * t;
    if q' < q {
      MulAtLeast(q - q', t);
    } else if q < q' {
      MulAtLeast(q' - q, t);
    }
  }

  lemma ModShift(x: nat, j: nat, t: nat)
    requires t > 0 && x % t + j < t
    ensures (x + j) % t == x % t + j
  {
    var q := x / t;
    assert x + j == q * t + (x % t + j);
    ModOfMultiple(q, x % t + j, t);
  }

  lemma HeightTicket(c: Crypto, stakes: Table<u64>, first: nat, j: nat, t: nat, r: nat)
    requires first + j < U64_LIMIT && stakes != map[]
    requires t == TotalStake(Validators(c, stakes), stakes) && 0 < t < U64_LIMIT
    requires r == first % t && r + j < t
    ensures ExpectedValidator(c, stakes, first + j) == Value(Winner(Validators(c, stakes), stakes, r + j))
  {
    hide Winner, Validators, TotalStake;
    ModShift(first, j, t);
  }

  /** As long as the residues do not wrap, heights draw consecutive tickets. */
  lemma {:induction false} HeightsAreTickets(c: Crypto, stakes: Table<u64>, first: nat, n: nat, t: nat, r: nat, k: Key)
    requires first + n <= U64_LIMIT && stakes != map[]
    requires t == TotalStake(Validators(c, stakes), stakes) && 0 < t < U64_LIMIT
    requires r == first % t && r + n <= t
    ensures Leads(c, stakes, first, n, k) == TicketWins(Validators(c, stakes), stakes, r, r + n, k)
    decreases n
  {
    hide Winner, Validators, TotalStake, ExpectedValidator;
    if n > 0 {
      HeightsAreTickets(c, stakes, first, n - 1, t, r, k);
      HeightTicket(c, stakes, first, n - 1, t, r);
    }
  }

  lemma {:induction false} LeadsSplit(c: Crypto, stakes: Table<u64>, first: nat, m: nat, n: nat, k: Key)
    requires first + m + n <= U64_LIMIT
    ensures Leads(c, stakes, first, m + n, k) == Leads(c, stakes, first, m, k) + Leads(c, stakes, first + m, n, k)
    decreases n
  {
    hide ExpectedValidator;
    if n > 0 { LeadsSplit(c, stakes, first, m, n - 1, k); }
  }

  /** A window of one full round of heights draws every ticket exactly once. */
  lemma RoundOfTickets(c: Crypto, stakes: Table<u64>, first: nat, k: Key)
    requires stakes != map[]
    requires 0 < TotalStake(Validators(c, stakes), stakes) < U64_LIMIT
    requires first + TotalStake(Validators(c, stakes), stakes) <= U64_LIMIT
    ensures var ks := Validators(c, stakes); var t := TotalStake(ks, stakes);
            Leads(c, stakes, first, t, k) == TicketWins(ks, stakes, 0, t, k)
  {
    hide Winner, Validators, TotalStake, ExpectedValidator, Leads;
    var ks := Validators(c, stakes);
    var t := TotalStake(ks, stakes);
    var r := first % t;
    LeadsSplit(c, stakes, first, t - r, r, k);
    HeightsAreTickets(c, stakes, first, t - r, t, r, k);
    NextRound(first, t);
    HeightsAreTickets(c, stakes, first + (t - r), r, t, 0, k);
    SplitTickets(ks, stakes, r, t, k);
  }

  lemma NextRound(first: nat, t: nat)
    requires t > 0
    ensures (first + (t - first % t)) % t == 0
  {
    var q := first / t;
    assert first + (t - first % t) == (q + 1) * t + 0;
    ModOfMultiple(q + 1, 0, t);
  }

  lemma StakedNonEmpty(c: Crypto, stakes: Table<u64>)
    requires 0 < TotalStake(Validators(c, stakes), stakes)
    ensures stakes != map[]
  {
    assert Validators(c, stakes)[0] in stakes;
  }

  /** Exact fairness. */
  lemma LeaderFairness(c: Crypto, stakes: Table<u64>, first: nat, k: Key)
    requires 0 < TotalStake(Validators(c, stakes), stakes) < U64_LIMIT
    requires first + TotalStake(Validators(c, stakes), stakes) <= U64_LIMIT
    ensures Leads(c, stakes, first, TotalStake(Validators(c, stakes), stakes), k)
            == if k in stakes && c.isPoint(k) then stakes[k] else 0
  {
    hide Winner, ExpectedValidator, Leads, Validators, TicketWins, TotalStake;
    var ks := Validators(c, stakes);
    var t := TotalStake(ks, stakes);
    StakedNonEmpty(c, stakes);
    RoundOfTickets(c, stakes, first, k);
    if k in ks {
      var i :| 0 <= i < |ks| && ks[i] == k;
      ValidatorsDistinct(c, stakes);
      SliceCount(ks, stakes, t, i);
      SliceWidth(ks, stakes, i);
    } else {
      NobodyElse(ks, stakes, 0, t, k);
    }
  }

  /** Selection always finds a validator, and only one with positive stake and a decodable key. */
  lemma LeaderExists(c: Crypto, stakes: Table<u64>, height: u64)
    requires 0 < TotalStake(Validators(c, stakes), stakes) < U64_LIMIT
    ensures var r := ExpectedValidator(c, stakes, height);
            r.Value? && r.value.Some? && r.value.value in stakes && stakes[r.value.value] > 0 && c.isPoint(r.value.value)
  {
    var ks := Validators(c, stakes);
    var i := WinnerFound(ks, stakes, height % TotalStake(ks, stakes));
    WinnerSlice(ks, stakes, height % TotalStake(ks, stakes), i);
    SliceWidth(ks, stakes, i);
  }

  /** Which validator: the keys that decode, in ascending order, share out the total stake one slice after another, and the
      height modulo the total falls into the slice of the expected one. */
  lemma LeaderAt(c: Crypto, stakes: Table<u64>, height: u64) returns (i: nat)
    requires 0 < TotalStake(Validators(c, stakes), stakes) < U64_LIMIT
    ensures var ks := Validators(c, stakes); var ticket := height % TotalStake(ks, stakes);
            && i < |ks| && TotalStake(ks[..i], stakes) <= ticket < TotalStake(ks[..i], stakes) + stakes[ks[i]]
            && ExpectedValidator(c, stakes, height) == Value(Some(ks[i]))
            && Ascending(ks)
  {
    hide Winner, TotalStake, Less;
    var ks := Validators(c, stakes);
    StakedNonEmpty(c, stakes);
    i := WinnerFound(ks, stakes, height % TotalStake(ks, stakes));
    WinnerSlice(ks, stakes, height % TotalStake(ks, stakes), i);
    SliceWidth(ks, stakes, i);
    ValidatorsAscend(c, stakes);
  }

  ghost predicate Ascending(ks: seq<Key>) {
    forall a, b :: 0 <= a < b < |ks| ==> Less(ks[a], ks[b])
  }

  lemma ValidatorsAscend(c: Crypto, stakes: map<Key, u64>)
    ensures Ascending(Validators(c, stakes))
  {
    hide Less, Points;
    var all := SortedKeys(stakes.Keys);
    forall a, b | 0 <= a < b < |all| ensures Less(all[a], all[b]) { SortedKeysAscend(stakes.Keys, a, b); }
    PointsAscend(c, all);
  }

  lemma {:induction false} PointsAscend(c: Crypto, ks: seq<Key>)
    requires Ascending(ks)
    ensures Ascending(Points(c, ks))
    decreases |ks|
  {
    hide Less;
    if ks != [] {
      var n := |ks| - 1;
      PointsAscend(c, ks[..n]);
      var ps := Points(c, ks[..n]);
      forall a | 0 <= a < |ps| ensures Less(ps[a], ks[n]) {
        assert ps[a] in ks[..n];
        var k :| 0 <= k < n && ks[..n][k] == ps[a];
        assert ks[k] == ps[a];
      }
    }
  }

  /** Nobody is expected exactly when no key that decodes has stake. */
  lemma NoLeader(c: Crypto, stakes: Table<u64>, height: u64)
    requires TotalStake(Validators(c, stakes), stakes) < U64_LIMIT
    ensures ExpectedValidator(c, stakes, height) == Value(None) <==> TotalStake(Validators(c, stakes), stakes) == 0
  {
    hide Winner;
    var ks := Validators(c, stakes);
    if TotalStake(ks, stakes) > 0 {
      LeaderExists(c, stakes, height);
    } else if stakes == map[] {
      assert ks == [];
    }
  }
}
