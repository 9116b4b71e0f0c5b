/**
 The hand-written snapshot codec (rp-core/src/state.rs, `ToBytes`/`FromBytes` for `State`):
 decoding the encoding of any state returns that state, whatever bytes follow it.
 */
module Snapshot {
  import opened Base
  import opened Ledger

  datatype ReadError = EofReadingU64 | EofReadingKey

  /** A decoded value and the bytes left after it. */
  type Read<T> = Result<(T, Bytes), ReadError>

  // ---------------------------------------------------------------- encoding

  function EntryBytes(ks: seq<Key>, m: map<Key, u64>): (r: Bytes)
    requires forall k :: k in ks ==> k in m
  {
    if ks == [] then [] else ks[0] + (Be64(m[ks[0]]) + EntryBytes(ks[1..], m))
  }

  function MapBytes(m: Table<u64>): (r: Bytes) {
    Be64(|m|) + EntryBytes(SortedKeys(m.Keys), m)
  }

  function QueueBytes(q: seq<UnstakeRequest>): (r: Bytes) {
    if q == [] then [] else Be64(q[0].amount) + (Be64(q[0].unlockSlot) + QueueBytes(q[1..]))
  }

  function QueuesBytes(ks: seq<Key>, m: map<Key, Vec<UnstakeRequest>>): (r: Bytes)
    requires forall k :: k in ks ==> k in m
  {
    if ks == [] then [] else
      ks[0] + (Be64(|m[ks[0]]|) + (QueueBytes(m[ks[0]]) + QueuesBytes(ks[1..], m)))
  }

  function StateBytes(s: State): (r: Bytes) {
    MapBytes(s.balances) + (MapBytes(s.nonces) + (MapBytes(s.stakes)
      + (Be64(|s.unstaking|) + QueuesBytes(SortedKeys(s.unstaking.Keys), s.unstaking))))
  }

  // ---------------------------------------------------------------- decoding

  function ReadU64(s: Bytes): (r: Read<u64>) {
    if |s| < 8 then Err(EofReadingU64) else Ok((FromBe64(s[..8]), s[8..]))
  }

  function ReadKey(s: Bytes): (r: Read<Key>) {
    if |s| < 33 then Err(EofReadingKey) else Ok((s[..33], s[33..]))
  }

  function ReadEntries(s: Bytes, n: nat, acc: map<Key, u64>): (r: Read<Table<u64>>)
    requires |acc| + n < U64_LIMIT
    decreases n
  {
    if n == 0 then Ok((acc, s)) else
      match ReadKey(s)
      case Err(e) => Err(e)
      case Ok((k, s1)) =>
        match ReadU64(s1)
        case Err(e) => Err(e)
        case Ok((v, s2)) => InsertSize(acc, k, v); ReadEntries(s2, n - 1, acc[k := v])
  }

  function ReadMap(s: Bytes): (r: Read<Table<u64>>) {
    match ReadU64(s)
    case Err(e) => Err(e)
    case Ok((n, s1)) => ReadEntries(s1, n, map[])
  }

  function ReadQueue(s: Bytes, n: nat, acc: seq<UnstakeRequest>): (r: Read<Vec<UnstakeRequest>>)
    requires |acc| + n < U64_LIMIT
    decreases n
  {
    if n == 0 then Ok((acc, s)) else
      match ReadU64(s)
      case Err(e) => Err(e)
      case Ok((amount, s1)) =>
        match ReadU64(s1)
        case Err(e) => Err(e)
        case Ok((unlock, s2)) => ReadQueue(s2, n - 1, acc + [UnstakeRequest(amount, unlock)])
  }

  function ReadQueues(s: Bytes, n: nat, acc: map<Key, Vec<UnstakeRequest>>): (r: Read<Table<Vec<UnstakeRequest>>>)
    requires |acc| + n < U64_LIMIT
    decreases n
  {
    if n == 0 then Ok((acc, s)) else
      match ReadKey(s)
      case Err(e) => Err(e)
      case Ok((k, s1)) =>
        match ReadU64(s1)
        case Err(e) => Err(e)
        case Ok((len, s2)) =>
          match ReadQueue(s2, len, [])
          case Err(e) => Err(e)
          case Ok((q, s3)) => InsertSize(acc, k, q); ReadQueues(s3, n - 1, acc[k := q])
  }

  function StateFromBytes(bytes: Bytes): (r: Result<State, ReadError>) {
    match ReadMap(bytes)
    case Err(e) => Err(e)
    case Ok((balances, s1)) =>
      match ReadMap(s1)
      case Err(e) => Err(e)
      case Ok((nonces, s2)) =>
        match ReadMap(s2)
        case Err(e) => Err(e)
        case Ok((stakes, s3)) =>
          match ReadU64(s3)
          case Err(e) => Err(e)
          case Ok((n, s4)) =>
            match ReadQueues(s4, n, map[])
            case Err(e) => Err(e)
            case Ok((unstaking, _)) => Ok(State(balances, nonces, stakes, unstaking))
  }

  // ---------------------------------------------------------------- round trip

  lemma U64RoundTrip(x: u64, rest: Bytes)
    ensures ReadU64(Be64(x) + rest) == Ok((x, rest))
  {
    hide Be64, FromBe64;
    Be64RoundTrip(x);
    assert (Be64(x) + rest)[..8] == Be64(x) && (Be64(x) + rest)[8..] == rest;
  }

  lemma KeyRoundTrip(k: Key, rest: Bytes)
    ensures ReadKey(k + rest) == Ok((k, rest))
  {
    assert (k + rest)[..33] == k && (k + rest)[33..] == rest;
  }

  /** `m` restricted to the keys of `ks`, added to `acc`. */
  ghost function Filled<V>(ks: seq<Key>, m: map<Key, V>, acc: map<Key, V>): (r: map<Key, V>)
    requires forall k :: k in ks ==> k in m
  {
    if ks == [] then acc else Filled(ks[1..], m, acc[ks[0] := m[ks[0]]])
  }

  lemma {:induction false} FilledLookup<V>(ks: seq<Key>, m: map<Key, V>, acc: map<Key, V>)
    requires forall k :: k in ks ==> k in m
    ensures var f := Filled(ks, m, acc);
            && f.Keys == acc.Keys + (set k | k in ks)
            && (forall k :: k in f ==> f[k] == if k in ks then m[k] else acc[k])
    decreases |ks|
  {
    if ks != [] {
      FilledLookup(ks[1..], m, acc[ks[0] := m[ks[0]]]);
      assert ks == [ks[0]] + ks[1..];
    }
  }

  lemma FilledWhole<V>(m: map<Key, V>)
    ensures Filled(SortedKeys(m.Keys), m, map[]) == m
  {
    hide SortedKeys;
    FilledLookup(SortedKeys(m.Keys), m, map[]);
  }

  lemma NoEntryBytes(m: map<Key, u64>, rest: Bytes)
    ensures EntryBytes([], m) + rest == rest
  {
  }

  lemma EntryBytesCons(ks: seq<Key>, m: map<Key, u64>, rest: Bytes)
    requires ks != [] && forall k :: k in ks ==> k in m
    ensures EntryBytes(ks, m) + rest == ks[0] + (Be64(m[ks[0]]) + (EntryBytes(ks[1..], m) + rest))
  {
    hide Be64;
    Regroup(Be64(m[ks[0]]), EntryBytes(ks[1..], m), rest);
    Regroup(ks[0], Be64(m[ks[0]]) + EntryBytes(ks[1..], m), rest);
  }

  lemma {:induction false} EntriesRoundTrip(ks: seq<Key>, m: map<Key, u64>, acc: map<Key, u64>, rest: Bytes)
    requires forall k :: k in ks ==> k in m
    requires |acc| + |ks| < U64_LIMIT
    ensures ReadEntries(EntryBytes(ks, m) + rest, |ks|, acc) == Ok((Filled(ks, m, acc), rest))
    decreases |ks|
  {
    hide ReadU64, ReadKey, Be64, EntryBytes;
    if ks == [] {
      NoEntryBytes(m, rest);
    } else {
      var k, tail := ks[0], EntryBytes(ks[1..], m) + rest;
      EntryBytesCons(ks, m, rest);
      KeyRoundTrip(k, Be64(m[k]) + tail);
      U64RoundTrip(m[k], tail);
      InsertSize(acc, k, m[k]);
      EntriesRoundTrip(ks[1..], m, acc[k := m[k]], rest);
    }
  }

  lemma MapRoundTrip(m: Table<u64>, rest: Bytes)
    ensures ReadMap(MapBytes(m) + rest) == Ok((m, rest))
  {
    hide ReadU64, ReadEntries, EntryBytes, Be64, SortedKeys, Filled;
    var ks := SortedKeys(m.Keys);
    assert MapBytes(m) + rest == Be64(|m|) + (EntryBytes(ks, m) + rest);
    U64RoundTrip(|m|, EntryBytes(ks, m) + rest);
    EntriesRoundTrip(ks, m, map[], rest);
    FilledWhole(m);
  }

  lemma {:induction false} QueueRoundTrip(q: seq<UnstakeRequest>, acc: seq<UnstakeRequest>, rest: Bytes)
    requires |acc| + |q| < U64_LIMIT
    ensures ReadQueue(QueueBytes(q) + rest, |q|, acc) == Ok((acc + q, rest))
    decreases |q|
  {
    hide ReadU64, Be64;
    if q == [] {
      assert QueueBytes(q) + rest == rest && acc + q == acc;
    } else {
      var tail := QueueBytes(q[1..]) + rest;
      assert QueueBytes(q) + rest == Be64(q[0].amount) + (Be64(q[0].unlockSlot) + tail);
      U64RoundTrip(q[0].amount, Be64(q[0].unlockSlot) + tail);
      U64RoundTrip(q[0].unlockSlot, tail);
      QueueRoundTrip(q[1..], acc + [q[0]], rest);
      assert acc + [q[0]] + q[1..] == acc + q;
    }
  }

  lemma {:induction false} QueuesRoundTrip(ks: seq<Key>, m: map<Key, Vec<UnstakeRequest>>, acc: map<Key, Vec<UnstakeRequest>>, rest: Bytes)
    requires forall k :: k in ks ==> k in m
    requires |acc| + |ks| < U64_LIMIT
    ensures ReadQueues(QueuesBytes(ks, m) + rest, |ks|, acc) == Ok((Filled(ks, m, acc), rest))
    decreases |ks|
  {
    hide ReadU64, ReadKey, ReadQueue, QueueBytes, Be64;
    if ks == [] {
      assert QueuesBytes(ks, m) + rest == rest;
    } else {
      var k, tail := ks[0], QueuesBytes(ks[1..], m) + rest;
      var q := m[k];
      assert QueuesBytes(ks, m) + rest == k + (Be64(|q|) + (QueueBytes(q) + tail));
      KeyRoundTrip(k, Be64(|q|) + (QueueBytes(q) + tail));
      U64RoundTrip(|q|, QueueBytes(q) + tail);
      QueueRoundTrip(q, [], tail);
      assert [] + q == q;
      InsertSize(acc, k, q);
      QueuesRoundTrip(ks[1..], m, acc[k := q], rest);
    }
  }

  /** The snapshot codec round trip, with any trailing bytes. */
  lemma StateRoundTrip(s: State, rest: Bytes)
    ensures StateFromBytes(StateBytes(s) + rest) == Ok(s)
  {
    hide ReadMap, ReadU64, ReadQueues, MapBytes, QueuesBytes, Be64, SortedKeys, Filled;
    var ks := SortedKeys(s.unstaking.Keys);
    var t4 := QueuesBytes(ks, s.unstaking) + rest;
    var t3 := Be64(|s.unstaking|) + t4;
    var t2 := MapBytes(s.stakes) + t3;
    var t1 := MapBytes(s.nonces) + t2;
    assert StateBytes(s) + rest == MapBytes(s.balances) + t1;
    MapRoundTrip(s.balances, t1);
    MapRoundTrip(s.nonces, t2);
    MapRoundTrip(s.stakes, t3);
    U64RoundTrip(|s.unstaking|, t4);
    QueuesRoundTrip(ks, s.unstaking, map[], rest);
    FilledWhole(s.unstaking);
  }

  /** Snapshots determine states. */
  lemma SnapshotInjective(s: State, t: State)
    requires StateBytes(s) == StateBytes(t)
    ensures s == t
  {
    hide StateFromBytes, StateBytes;
    StateRoundTrip(s, []);
    StateRoundTrip(t, []);
  }

  // ---------------------------------------------------------------- truncated snapshots

  lemma U64Local(s: Bytes, t: Bytes)
    requires ReadU64(s).Ok?
    ensures ReadU64(s + t) == Ok((ReadU64(s).value.0, ReadU64(s).value.1 + t))
  {
    assert (s + t)[..8] == s[..8] && (s + t)[8..] == s[8..] + t;
  }

  lemma KeyLocal(s: Bytes, t: Bytes)
    requires ReadKey(s).Ok?
    ensures ReadKey(s + t) == Ok((ReadKey(s).value.0, ReadKey(s).value.1 + t))
  {
    assert (s + t)[..33] == s[..33] && (s + t)[33..] == s[33..] + t;
  }

  lemma {:induction false} EntriesLocal(s: Bytes, n: nat, acc: map<Key, u64>, t: Bytes)
    requires |acc| + n < U64_LIMIT && ReadEntries(s, n, acc).Ok?
    ensures ReadEntries(s + t, n, acc) == Ok((ReadEntries(s, n, acc).value.0, ReadEntries(s, n, acc).value.1 + t))
    decreases n
  {
    hide ReadU64, ReadKey;
    if n > 0 {
      KeyLocal(s, t);
      var (k, s1) := ReadKey(s).value;
      U64Local(s1, t);
      var (v, s2) := ReadU64(s1).value;
      InsertSize(acc, k, v);
      EntriesLocal(s2, n - 1, acc[k := v], t);
    }
  }

  lemma MapLocal(s: Bytes, t: Bytes)
    requires ReadMap(s).Ok?
    ensures ReadMap(s + t) == Ok((ReadMap(s).value.0, ReadMap(s).value.1 + t))
  {
    hide ReadU64, ReadEntries;
    U64Local(s, t);
    var (n, s1) := ReadU64(s).value;
    EntriesLocal(s1, n, map[], t);
  }

  lemma {:induction false} QueueLocal(s: Bytes, n: nat, acc: seq<UnstakeRequest>, t: Bytes)
    requires |acc| + n < U64_LIMIT && ReadQueue(s, n, acc).Ok?
    ensures ReadQueue(s + t, n, acc) == Ok((ReadQueue(s, n, acc).value.0, ReadQueue(s, n, acc).value.1 + t))
    decreases n
  {
    hide ReadU64;
    if n > 0 {
      U64Local(s, t);
      var (amount, s1) := ReadU64(s).value;
      U64Local(s1, t);
      var (unlock, s2) := ReadU64(s1).value;
      QueueLocal(s2, n - 1, acc + [UnstakeRequest(amount, unlock)], t);
    }
  }

  lemma {:induction false} QueuesLocal(s: Bytes, n: nat, acc: map<Key, Vec<UnstakeRequest>>, t: Bytes)
    requires |acc| + n < U64_LIMIT && ReadQueues(s, n, acc).Ok?
    ensures ReadQueues(s + t, n, acc) == Ok((ReadQueues(s, n, acc).value.0, ReadQueues(s, n, acc).value.1 + t))
    decreases n
  {
    hide ReadU64, ReadKey, ReadQueue;
    if n > 0 {
      KeyLocal(s, t);
      var (k, s1) := ReadKey(s).value;
      U64Local(s1, t);
      var (len, s2) := ReadU64(s1).value;
      QueueLocal(s2, len, [], t);
      var (q, s3) := ReadQueue(s2, len, []).value;
      InsertSize(acc, k, q);
      QueuesLocal(s3, n - 1, acc[k := q], t);
    }
  }

  /** What is left after a snapshot has been read. */
  function Leftover(bytes: Bytes): (r: Option<Bytes>) {
    match ReadMap(bytes)
    case Err(_) => None
    case Ok((_, s1)) =>
      match ReadMap(s1)
      case Err(_) => None
      case Ok((_, s2)) =>
        match ReadMap(s2)
        case Err(_) => None
        case Ok((_, s3)) =>
          match ReadU64(s3)
          case Err(_) => None
          case Ok((n, s4)) =>
            match ReadQueues(s4, n, map[])
            case Err(_) => None
            case Ok((_, rest)) => Some(rest)
  }

  lemma StateLocal(bytes: Bytes, t: Bytes)
    requires StateFromBytes(bytes).Ok?
    ensures Leftover(bytes).Some? && Leftover(bytes + t) == Some(Leftover(bytes).value + t)
  {
    hide ReadMap, ReadU64, ReadQueues;
    MapLocal(bytes, t);
    var s1 := ReadMap(bytes).value.1;
    MapLocal(s1, t);
    var s2 := ReadMap(s1).value.1;
    MapLocal(s2, t);
    var s3 := ReadMap(s2).value.1;
    U64Local(s3, t);
    var (n, s4) := ReadU64(s3).value;
    QueuesLocal(s4, n, map[], t);
  }

  lemma SnapshotConsumed(s: State)
    ensures Leftover(StateBytes(s)) == Some([])
  {
    hide ReadMap, ReadU64, ReadQueues, MapBytes, QueuesBytes, Be64, SortedKeys, Filled;
    var ks := SortedKeys(s.unstaking.Keys);
    var t4 := QueuesBytes(ks, s.unstaking);
    var t3 := Be64(|s.unstaking|) + t4;
    var t2 := MapBytes(s.stakes) + t3;
    MapRoundTrip(s.balances, MapBytes(s.nonces) + t2);
    MapRoundTrip(s.nonces, t2);
    MapRoundTrip(s.stakes, t3);
    U64RoundTrip(|s.unstaking|, t4);
    QueuesRoundTrip(ks, s.unstaking, map[], []);
    assert t4 + [] == t4;
  }

  /** Every proper prefix of a snapshot is rejected. */
  lemma TruncatedRejected(s: State, k: nat)
    requires k < |StateBytes(s)|
    ensures StateFromBytes(StateBytes(s)[..k]).Err?
  {
    hide StateBytes, StateFromBytes, Leftover;
    var whole := StateBytes(s);
    if StateFromBytes(whole[..k]).Ok? {
      StateLocal(whole[..k], whole[k..]);
      assert whole[..k] + whole[k..] == whole;
      SnapshotConsumed(s);
    }
  }

  // ---------------------------------------------------------------- where the entries are

  /** A table: its count, then key and value of each entry in key order, 41 bytes each. */
  lemma {:induction false} EntryAt(ks: seq<Key>, m: map<Key, u64>, i: nat)
    requires i < |ks| && forall k :: k in ks ==> k in m
    ensures |EntryBytes(ks, m)| == 41 * |ks|
    ensures EntryBytes(ks, m)[41 * i..41 * i + 33] == ks[i] && EntryBytes(ks, m)[41 * i + 33..41 * i + 41] == Be64(m[ks[i]])
    decreases |ks|
  {
    hide Be64;
    var tail := EntryBytes(ks[1..], m);
    if |ks| > 1 { EntryAt(ks[1..], m, if i > 0 then i - 1 else 0); }
    assert EntryBytes(ks, m) == ks[0] + Be64(m[ks[0]]) + tail;
    if i > 0 {
      EntryShift(ks[0] + Be64(m[ks[0]]), tail, 41 * (i - 1), 33);
      EntryShift(ks[0] + Be64(m[ks[0]]), tail, 41 * (i - 1) + 33, 8);
    }
  }

  lemma EntryShift(x: Bytes, tail: Bytes, at: nat, n: nat)
    requires at + n <= |tail|
    ensures (x + tail)[|x| + at..|x| + at + n] == tail[at..at + n]
  {
  }

  /** A queue: amount and unlock slot of each request in order, 16 bytes each. */
  lemma {:induction false} RequestAt(q: seq<UnstakeRequest>, i: nat)
    requires i < |q|
    ensures |QueueBytes(q)| == 16 * |q|
    ensures QueueBytes(q)[16 * i..16 * i + 8] == Be64(q[i].amount) && QueueBytes(q)[16 * i + 8..16 * i + 16] == Be64(q[i].unlockSlot)
    decreases |q|
  {
    hide Be64;
    var tail := QueueBytes(q[1..]);
    if |q| > 1 { RequestAt(q[1..], if i > 0 then i - 1 else 0); }
    var head := Be64(q[0].amount) + Be64(q[0].unlockSlot);
    assert QueueBytes(q) == head + tail;
    if i > 0 {
      EntryShift(head, tail, 16 * (i - 1), 8);
      EntryShift(head, tail, 16 * (i - 1) + 8, 8);
    }
  }

  /** Each account's queue follows the account and its count. */
  lemma {:induction false} QueueAt(ks: seq<Key>, m: map<Key, Vec<UnstakeRequest>>, i: nat)
    requires i < |ks| && forall k :: k in ks ==> k in m
    ensures forall k :: k in ks[..i] ==> k in m
    ensures QueuesBytes(ks[..i], m) + (ks[i] + (Be64(|m[ks[i]]|) + QueueBytes(m[ks[i]]))) <= QueuesBytes(ks, m)
    decreases |ks|
  {
    hide Be64, QueueBytes;
    var one := ks[0] + (Be64(|m[ks[0]]|) + QueueBytes(m[ks[0]]));
    assert QueuesBytes(ks, m) == one + QueuesBytes(ks[1..], m);
    if i == 0 {
      assert ks[..0] == [] && [] + one == one;
    } else {
      QueueAt(ks[1..], m, i - 1);
      assert ks[..i][0] == ks[0] && ks[..i][1..] == ks[1..][..i - 1];
      assert QueuesBytes(ks[..i], m) == one + QueuesBytes(ks[1..][..i - 1], m);
      var last := ks[i] + (Be64(|m[ks[i]]|) + QueueBytes(m[ks[i]]));
      Regroup(one, QueuesBytes(ks[1..][..i - 1], m), last);
    }
  }

  /** A snapshot: balances, nonces, stakes, then the unstaking queues, each behind its count; the three tables take 41 bytes
      an entry. */
  lemma SnapshotLayout(s: State)
    ensures var b, n, k := EntryBytes(SortedKeys(s.balances.Keys), s.balances), EntryBytes(SortedKeys(s.nonces.Keys), s.nonces),
                           EntryBytes(SortedKeys(s.stakes.Keys), s.stakes);
            && |b| == 41 * |s.balances| && |n| == 41 * |s.nonces| && |k| == 41 * |s.stakes|
            && StateBytes(s) == Be64(|s.balances|) + b + Be64(|s.nonces|) + n + Be64(|s.stakes|) + k
                                + Be64(|s.unstaking|) + QueuesBytes(SortedKeys(s.unstaking.Keys), s.unstaking)
  {
    hide Be64, QueuesBytes, EntryBytes, SortedKeys;
    MapWidth(s.balances);
    MapWidth(s.nonces);
    MapWidth(s.stakes);
    var b, n, k := EntryBytes(SortedKeys(s.balances.Keys), s.balances), EntryBytes(SortedKeys(s.nonces.Keys), s.nonces),
                   EntryBytes(SortedKeys(s.stakes.Keys), s.stakes);
    FlatThree(Be64(|s.balances|), b, Be64(|s.nonces|), n, Be64(|s.stakes|), k, Be64(|s.unstaking|),
              QueuesBytes(SortedKeys(s.unstaking.Keys), s.unstaking));
  }

  lemma FlatThree(a: Bytes, b: Bytes, c: Bytes, d: Bytes, e: Bytes, f: Bytes, g: Bytes, h: Bytes)
    ensures (a + b) + ((c + d) + ((e + f) + (g + h))) == a + b + c + d + e + f + g + h
  {
    Regroup(a + b, c, d);
    Regroup(a + b, c + d, (e + f) + (g + h));
    Regroup(a + b + c + d, e, f);
    Regroup(a + b + c + d, e + f, g + h);
    Regroup(a + b + c + d + e + f, g, h);
  }

  lemma MapWidth(m: Table<u64>)
    ensures |EntryBytes(SortedKeys(m.Keys), m)| == 41 * |m| && |MapBytes(m)| == 8 + 41 * |m|
  {
    var ks := SortedKeys(m.Keys);
    if ks != [] { EntryAt(ks, m, 0); }
  }

  // ---------------------------------------------------------------- the codec as written

  method WriteMap(m: Table<u64>, out: Bytes) returns (r: Bytes)
    ensures r == out + MapBytes(m)
  {
    hide SortedKeys, Be64;
    var ks := SortedKeys(m.Keys);
    r := out + Be64(|m|);
    ghost var goal := r + EntryBytes(ks, m);
    assert ks[0..] == ks;
    for i := 0 to |ks|
      invariant r + EntryBytes(ks[i..], m) == goal
    {
      ghost var before := r;
      r := r + ks[i] + Be64(m[ks[i]]);
      assert ks[i..][1..] == ks[i + 1..];
      assert before + EntryBytes(ks[i..], m) == r + EntryBytes(ks[i + 1..], m);
    }
    assert ks[|ks|..] == [] && r == goal;
  }

  lemma RegroupQueue(a: Bytes, b: Bytes, c: Bytes, d: Bytes, e: Bytes)
    ensures a + (b + (c + (d + e))) == a + b + c + d + e
  {
  }

  method WriteQueues(m: Table<Vec<UnstakeRequest>>, out: Bytes) returns (r: Bytes)
    ensures r == out + (Be64(|m|) + QueuesBytes(SortedKeys(m.Keys), m))
  {
    hide SortedKeys, Be64, QueueBytes;
    var ks := SortedKeys(m.Keys);
    r := out + Be64(|m|);
    ghost var goal := r + QueuesBytes(ks, m);
    assert ks[0..] == ks;
    for i := 0 to |ks|
      invariant r + QueuesBytes(ks[i..], m) == goal
    {
      var q := m[ks[i]];
      ghost var before := r;
      r := r + ks[i] + Be64(|q|);
      r := WriteQueue(q, r);
      assert ks[i..][1..] == ks[i + 1..];
      RegroupQueue(before, ks[i], Be64(|q|), QueueBytes(q), QueuesBytes(ks[i + 1..], m));
    }
    assert ks[|ks|..] == [] && r == goal;
  }

  method WriteQueue(q: Vec<UnstakeRequest>, out: Bytes) returns (r: Bytes)
    ensures r == out + QueueBytes(q)
  {
    hide Be64;
    r := out;
    assert q[0..] == q;
    for j := 0 to |q|
      invariant r + QueueBytes(q[j..]) == out + QueueBytes(q)
    {
      r := r + Be64(q[j].amount) + Be64(q[j].unlockSlot);
      assert q[j..][1..] == q[j + 1..];
    }
  }

  /** `State::to_bytes`. */
  method ToBytes(s: State) returns (bytes: Bytes)
    ensures bytes == StateBytes(s)
  {
    hide MapBytes, QueuesBytes, SortedKeys, Be64;
    bytes := WriteMap(s.balances, []);
    bytes := WriteMap(s.nonces, bytes);
    bytes := WriteMap(s.stakes, bytes);
    bytes := WriteQueues(s.unstaking, bytes);
  }

  method ReadU64At(bytes: Bytes, i: nat) returns (r: Result<u64, ReadError>)
    requires i <= |bytes|
    ensures match ReadU64(bytes[i..])
            case Err(e) => r == Err(e)
            case Ok((v, rest)) => r == Ok(v) && i + 8 <= |bytes| && rest == bytes[i + 8..]
  {
    if i + 8 > |bytes| { return Err(EofReadingU64); }
    assert bytes[i..][..8] == bytes[i..i + 8] && bytes[i..][8..] == bytes[i + 8..];
    r := Ok(FromBe64(bytes[i..i + 8]));
  }

  method ReadKeyAt(bytes: Bytes, i: nat) returns (r: Result<Key, ReadError>)
    requires i <= |bytes|
    ensures match ReadKey(bytes[i..])
            case Err(e) => r == Err(e)
            case Ok((k, rest)) => r == Ok(k) && i + 33 <= |bytes| && rest == bytes[i + 33..]
  {
    if i + 33 > |bytes| { return Err(EofReadingKey); }
    assert bytes[i..][..33] == bytes[i..i + 33] && bytes[i..][33..] == bytes[i + 33..];
    r := Ok(bytes[i..i + 33]);
  }

  /** `read_u64_map`, with its cursor: `i` never passes the end of the buffer. */
  method ReadMapAt(bytes: Bytes, start: nat) returns (r: Result<Table<u64>, ReadError>, i: nat)
    requires start <= |bytes|
    ensures i <= |bytes|
    ensures match ReadMap(bytes[start..])
            case Err(e) => r == Err(e)
            case Ok((m, rest)) => r == Ok(m) && rest == bytes[i..]
  {
    hide ReadU64, ReadKey;
    i := start;
    var len := ReadU64At(bytes, i);
    if len.Err? { return Err(len.error), i; }
    i := i + 8;
    var m: map<Key, u64> := map[];
    ghost var goal := ReadEntries(bytes[i..], len.value, m);
    for j := 0 to len.value
      invariant i <= |bytes| && |m| <= j
      invariant ReadEntries(bytes[i..], len.value - j, m) == goal
    {
      var k := ReadKeyAt(bytes, i);
      if k.Err? { return Err(k.error), i; }
      i := i + 33;
      var v := ReadU64At(bytes, i);
      if v.Err? { return Err(v.error), i; }
      i := i + 8;
      InsertSize(m, k.value, v.value);
      m := m[k.value := v.value];
    }
    r := Ok(m);
  }

  /** The inner unstaking loop. */
  method ReadQueueAt(bytes: Bytes, start: nat, len: u64) returns (r: Result<Vec<UnstakeRequest>, ReadError>, i: nat)
    requires start <= |bytes|
    ensures i <= |bytes|
    ensures match ReadQueue(bytes[start..], len, [])
            case Err(e) => r == Err(e)
            case Ok((q, rest)) => r == Ok(q) && rest == bytes[i..]
  {
    hide ReadU64;
    i := start;
    var q: seq<UnstakeRequest> := [];
    ghost var goal := ReadQueue(bytes[i..], len, q);
    for j := 0 to len
      invariant i <= |bytes| && |q| == j
      invariant ReadQueue(bytes[i..], len - j, q) == goal
    {
      var amount := ReadU64At(bytes, i);
      if amount.Err? { return Err(amount.error), i; }
      i := i + 8;
      var unlock := ReadU64At(bytes, i);
      if unlock.Err? { return Err(unlock.error), i; }
      i := i + 8;
      q := q + [UnstakeRequest(amount.value, unlock.value)];
    }
    r := Ok(q);
  }

  /** The outer unstaking loop. */
  method ReadQueuesAt(bytes: Bytes, start: nat, len: u64) returns (r: Result<Table<Vec<UnstakeRequest>>, ReadError>)
    requires start <= |bytes|
    ensures match ReadQueues(bytes[start..], len, map[])
            case Err(e) => r == Err(e)
            case Ok((m, _)) => r == Ok(m)
  {
    hide ReadU64, ReadKey, ReadQueue;
    var i: nat := start;
    var m: map<Key, Vec<UnstakeRequest>> := map[];
    ghost var goal := ReadQueues(bytes[i..], len, m);
    for j := 0 to len
      invariant i <= |bytes| && |m| <= j
      invariant ReadQueues(bytes[i..], len - j, m) == goal
    {
      var k := ReadKeyAt(bytes, i);
      if k.Err? { return Err(k.error); }
      i := i + 33;
      var n := ReadU64At(bytes, i);
      if n.Err? { return Err(n.error); }
      i := i + 8;
      var q;
      q, i := ReadQueueAt(bytes, i, n.value);
      if q.Err? { return Err(q.error); }
      InsertSize(m, k.value, q.value);
      m := m[k.value := q.value];
    }
    r := Ok(m);
  }

  /** `State::from_bytes`, total on arbitrary input. */
  method FromBytes(bytes: Bytes) returns (r: Result<State, ReadError>)
    ensures r == StateFromBytes(bytes)
  {
    hide ReadMap, ReadU64, ReadQueues;
    var i: nat := 0;
    assert bytes[0..] == bytes;
    var balances;
    balances, i := ReadMapAt(bytes, i);
    if balances.Err? { return Err(balances.error); }
    var nonces;
    nonces, i := ReadMapAt(bytes, i);
    if nonces.Err? { return Err(nonces.error); }
    var stakes;
    stakes, i := ReadMapAt(bytes, i);
    if stakes.Err? { return Err(stakes.error); }
    var n := ReadU64At(bytes, i);
    if n.Err? { return Err(n.error); }
    i := i + 8;
    var unstaking := ReadQueuesAt(bytes, i, n.value);
    if unstaking.Err? { return Err(unstaking.error); }
    r := Ok(State(balances.value, nonces.value, stakes.value, unstaking.value));
  }
}
