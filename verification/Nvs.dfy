/**
 The flash store (erp-runtime/src/storage/nvs_storage.rs): 256 slots per six-byte hash prefix, probed in order, each
 holding the full hash in front of its payload.  It behaves as a map from full hash to payload.
 */
module Nvs {
  import opened Base
  import opened Models

  const SLOTS: nat := 256
  const HASH_BUCKET_BYTES: nat := 6
  const BLOCK_KEY_PREFIX: char := 'b'
  const SNAPSHOT_KEY_PREFIX: char := 's'
  const LATEST_SNAPSHOT_KEY: string := "latest_snap"

  type Bucket = s: Bytes | |s| == 6 witness [0, 0, 0, 0, 0, 0]
  type Store = map<string, Bytes>

  datatype StorageError = StorageError

  /** The postcard codec of blocks, of which only the round trip is used. */
  datatype Postcard = Postcard(encode: Block -> Bytes, decode: Bytes -> Option<Block>)

  ghost predicate RoundTrips(pc: Postcard) {
    forall b :: pc.decode(pc.encode(b)) == Some(b)
  }

  // ---------------------------------------------------------------- keys

  function BucketOf(h: Hash): (r: Bucket) { h[..HASH_BUCKET_BYTES] }

  function HexDigit(n: nat): (r: char)
    requires n < 16
  {
    if n < 10 then '0' + n as char else 'a' + (n - 10) as char
  }

  function Hex(s: Bytes): (r: string)
    ensures |r| == 2 * |s|
  {
    if s == [] then [] else Hex(s[..|s| - 1]) + [HexDigit(s[|s| - 1] / 16), HexDigit(s[|s| - 1] % 16)]
  }

  /** `slot_key`: the prefix, six bytes of hash and the slot, in hexadecimal. */
  function SlotKey(prefix: char, k: Bucket, slot: nat): (r: string)
    requires slot < SLOTS
    ensures |r| == 15
  {
    [prefix] + Hex(k) + Hex([slot])
  }

  lemma HexDigitInjective(m: nat, n: nat)
    requires m < 16 && n < 16 && HexDigit(m) == HexDigit(n)
    ensures m == n
  {
  }

  lemma {:induction false} HexInjective(s: Bytes, t: Bytes)
    requires |s| == |t| && Hex(s) == Hex(t)
    ensures s == t
    decreases |s|
  {
    hide HexDigit;
    if s != [] {
      var n := |s| - 1;
      var x, y := Hex(s), Hex(t);
      assert x[..2 * n] == Hex(s[..n]) && y[..2 * n] == Hex(t[..n]);
      HexInjective(s[..n], t[..n]);
      assert x[2 * n] == HexDigit(s[n] / 16) && y[2 * n] == HexDigit(t[n] / 16);
      assert x[2 * n + 1] == HexDigit(s[n] % 16) && y[2 * n + 1] == HexDigit(t[n] % 16);
      HexDigitInjective(s[n] / 16, t[n] / 16);
      HexDigitInjective(s[n] % 16, t[n] % 16);
      assert s == s[..n] + [s[n]] && t == t[..n] + [t[n]];
    }
  }

  /** Different slots never share a key, and no slot has the key of the latest pointer. */
  lemma SlotKeyInjective(p: char, k: Bucket, s: nat, q: char, j: Bucket, t: nat)
    requires s < SLOTS && t < SLOTS
    ensures SlotKey(p, k, s) == SlotKey(q, j, t) <==> p == q && k == j && s == t
    ensures SlotKey(p, k, s) != LATEST_SNAPSHOT_KEY
  {
    hide Hex;
    var x, y := SlotKey(p, k, s), SlotKey(q, j, t);
    assert x[0] == p && x[1..13] == Hex(k) && x[13..] == Hex([s]);
    assert y[0] == q && y[1..13] == Hex(j) && y[13..] == Hex([t]);
    if x == y {
      HexInjective(k, j);
      HexInjective([s], [t]);
      assert [s][0] == [t][0];
    }
  }

  /** The value of a lower-case hexadecimal digit. */
  function DigitValue(d: char): (r: int) {
    if '0' <= d <= '9' then d as int - '0' as int else d as int - 'a' as int + 10
  }

  lemma {:induction false} HexReads(s: Bytes, i: nat)
    requires i < |s|
    ensures s[i] == 16 * DigitValue(Hex(s)[2 * i]) + DigitValue(Hex(s)[2 * i + 1])
    decreases |s|
  {
    var n := |s| - 1;
    if i < n {
      HexReads(s[..n], i);
      assert Hex(s)[2 * i] == Hex(s[..n])[2 * i] && Hex(s)[2 * i + 1] == Hex(s[..n])[2 * i + 1];
    }
  }

  /** A key spells out its prefix, the first six bytes of the hash and the slot, two lower-case digits a byte. */
  lemma SlotKeyFormat(p: char, h: Hash, slot: nat, i: nat)
    requires slot < SLOTS && i < 6
    ensures var key := SlotKey(p, BucketOf(h), slot);
            && key[0] == p && h[i] == 16 * DigitValue(key[1 + 2 * i]) + DigitValue(key[2 + 2 * i])
            && slot == 16 * DigitValue(key[13]) + DigitValue(key[14])
  {
    hide Hex, DigitValue;
    HexReads(BucketOf(h), i);
    HexReads([slot], 0);
    var x := SlotKey(p, BucketOf(h), slot);
    assert x[1 + 2 * i] == Hex(BucketOf(h))[2 * i] && x[2 + 2 * i] == Hex(BucketOf(h))[2 * i + 1];
    assert x[13] == Hex([slot])[0] && x[14] == Hex([slot])[1];
  }

  // ---------------------------------------------------------------- probing

  function Envelope(h: Hash, payload: Bytes): (r: Bytes)
    ensures |r| >= 32 && r[..32] == h && r[32..] == payload
  {
    h + payload
  }

  /** `load_hashed_blob`, from `slot` on. */
  function Load(kv: Store, p: char, h: Hash, slot: nat): (r: Result<Option<Bytes>, StorageError>)
    requires slot <= SLOTS
    decreases SLOTS - slot
  {
    if slot == SLOTS then Ok(None) else
      var key := SlotKey(p, BucketOf(h), slot);
      if key !in kv then Load(kv, p, h, slot + 1)
      else if |kv[key]| < 32 then Err(StorageError)
      else if kv[key][..32] == h then Ok(Some(kv[key][32..]))
      else Load(kv, p, h, slot + 1)
  }

  /** `save_hashed_blob`, from `slot` on. */
  function Save(kv: Store, p: char, h: Hash, payload: Bytes, slot: nat): (r: Result<Store, StorageError>)
    requires slot <= SLOTS
    decreases SLOTS - slot
  {
    if slot == SLOTS then Err(StorageError) else
      var key := SlotKey(p, BucketOf(h), slot);
      if key !in kv then Ok(kv[key := Envelope(h, payload)])
      else if |kv[key]| < 32 then Err(StorageError)
      else if kv[key][..32] == h then Ok(kv[key := Envelope(h, payload)])
      else Save(kv, p, h, payload, slot + 1)
  }

  /** A slot that holds another hash. */
  ghost predicate HoldsOther(kv: Store, p: char, h: Hash, s: nat)
    requires s < SLOTS
  {
    var key := SlotKey(p, BucketOf(h), s);
    key in kv && |kv[key]| >= 32 && kv[key][..32] != h
  }

  /** A load, on any store, is decided by the first slot that is damaged or holds the hash; empty slots are passed over. */
  lemma {:induction false} LoadExact(kv: Store, p: char, h: Hash, slot: nat) returns (s: nat)
    requires slot <= SLOTS
    ensures slot <= s <= SLOTS
    ensures forall t: nat {:trigger SlotKey(p, BucketOf(h), t)} :: slot <= t < s ==> SlotKey(p, BucketOf(h), t) !in kv || HoldsOther(kv, p, h, t)
    ensures s == SLOTS ==> Load(kv, p, h, slot) == Ok(None)
    ensures s < SLOTS ==>
              var key := SlotKey(p, BucketOf(h), s);
              && key in kv && !HoldsOther(kv, p, h, s)
              && Load(kv, p, h, slot) == if |kv[key]| < 32 then Err(StorageError) else Ok(Some(kv[key][32..]))
    decreases SLOTS - slot
  {
    hide SlotKey, BucketOf;
    s := slot;
    if slot < SLOTS && (SlotKey(p, BucketOf(h), slot) !in kv || HoldsOther(kv, p, h, slot)) { s := LoadExact(kv, p, h, slot + 1); }
  }

  /** A save, on any store, writes the first slot that is empty or holds the hash, unless a damaged one comes first. */
  lemma {:induction false} SaveExact(kv: Store, p: char, h: Hash, payload: Bytes, slot: nat) returns (s: nat)
    requires slot <= SLOTS
    ensures slot <= s <= SLOTS
    ensures forall t: nat :: slot <= t < s ==> HoldsOther(kv, p, h, t)
    ensures s == SLOTS ==> Save(kv, p, h, payload, slot) == Err(StorageError)
    ensures s < SLOTS ==>
              var key := SlotKey(p, BucketOf(h), s);
              && !HoldsOther(kv, p, h, s)
              && Save(kv, p, h, payload, slot) == if key in kv && |kv[key]| < 32 then Err(StorageError) else Ok(kv[key := h + payload])
    decreases SLOTS - slot
  {
    hide SlotKey, BucketOf;
    s := slot;
    if slot < SLOTS && HoldsOther(kv, p, h, slot) { s := SaveExact(kv, p, h, payload, slot + 1); }
  }

  // ---------------------------------------------------------------- the invariant

  /** The full hash stored in a slot. */
  ghost function Resident(kv: Store, p: char, k: Bucket, s: nat): (r: Option<Hash>)
    requires s < SLOTS
  {
    var key := SlotKey(p, k, s);
    if key in kv && |kv[key]| >= 32 then Some(kv[key][..32]) else None
  }

  /** Occupied slots come first, hold whole envelopes of hashes of their bucket, and no hash twice. */
  ghost predicate Compact(kv: Store) {
    && (forall p, k: Bucket, s: nat {:trigger SlotKey(p, k, s)} :: s < SLOTS && SlotKey(p, k, s) in kv ==>
          Resident(kv, p, k, s).Some? && BucketOf(Resident(kv, p, k, s).value) == k)
    && (forall p, k: Bucket, s: nat, t: nat {:trigger SlotKey(p, k, s), SlotKey(p, k, t)} ::
          s < t < SLOTS && SlotKey(p, k, t) in kv ==>
            SlotKey(p, k, s) in kv && Resident(kv, p, k, s) != Resident(kv, p, k, t))
  }

  lemma SlotWhole(kv: Store, p: char, k: Bucket, s: nat)
    requires Compact(kv) && s < SLOTS && SlotKey(p, k, s) in kv
    ensures |kv[SlotKey(p, k, s)]| >= 32 && Resident(kv, p, k, s) == Some(kv[SlotKey(p, k, s)][..32])
  {
    hide SlotKey;
    assert Resident(kv, p, k, s).Some?;
  }

  /** A save of `h` writes slot `t`: the first that is empty or holds `h`; all earlier slots hold other hashes. */
  ghost predicate Target(kv: Store, p: char, h: Hash, t: nat, slot: nat)
    requires t <= SLOTS
  {
    && (forall s: nat {:trigger Resident(kv, p, BucketOf(h), s)} :: slot <= s < t ==>
          SlotKey(p, BucketOf(h), s) in kv && Resident(kv, p, BucketOf(h), s) != Some(h))
    && (t < SLOTS && SlotKey(p, BucketOf(h), t) in kv ==> Resident(kv, p, BucketOf(h), t) == Some(h))
  }

  lemma {:induction false} SaveSlot(kv: Store, p: char, h: Hash, payload: Bytes, slot: nat) returns (t: nat)
    requires slot <= SLOTS && Compact(kv)
    ensures slot <= t <= SLOTS && Target(kv, p, h, t, slot)
    ensures Save(kv, p, h, payload, slot) ==
              if t < SLOTS then Ok(kv[SlotKey(p, BucketOf(h), t) := Envelope(h, payload)]) else Err(StorageError)
    decreases SLOTS - slot
  {
    hide SlotKey, Compact, BucketOf;
    t := slot;
    if slot < SLOTS {
      var key := SlotKey(p, BucketOf(h), slot);
      if key in kv {
        SlotWhole(kv, p, BucketOf(h), slot);
        if kv[key][..32] != h {
          t := SaveSlot(kv, p, h, payload, slot + 1);
          forall s: nat | slot <= s < t
            ensures SlotKey(p, BucketOf(h), s) in kv && Resident(kv, p, BucketOf(h), s) != Some(h)
          {
            if s > slot { assert Resident(kv, p, BucketOf(h), s) != Some(h); }
          }
        }
      }
    }
  }

  ghost predicate Written(kv: Store, p: char, h: Hash, payload: Bytes, t: nat, kv': Store) {
    && t < SLOTS && Target(kv, p, h, t, 0)
    && kv' == kv[SlotKey(p, BucketOf(h), t) := Envelope(h, payload)]
  }

  lemma WrittenElsewhere(kv: Store, p: char, h: Hash, payload: Bytes, t: nat, kv': Store, q: char, k: Bucket, s: nat)
    requires Written(kv, p, h, payload, t, kv') && s < SLOTS
    ensures q == p && k == BucketOf(h) && s == t ==> Resident(kv', q, k, s) == Some(h)
    ensures !(q == p && k == BucketOf(h) && s == t) ==>
              && (SlotKey(q, k, s) in kv' <==> SlotKey(q, k, s) in kv)
              && (SlotKey(q, k, s) in kv ==> kv'[SlotKey(q, k, s)] == kv[SlotKey(q, k, s)])
              && Resident(kv', q, k, s) == Resident(kv, q, k, s)
  {
    hide SlotKey, BucketOf, Target;
    SlotKeyInjective(q, k, s, p, BucketOf(h), t);
  }

  lemma WrittenCompact(kv: Store, p: char, h: Hash, payload: Bytes, t: nat, kv': Store)
    requires Compact(kv) && Written(kv, p, h, payload, t, kv')
    ensures Compact(kv')
  {
    hide SlotKey, Resident, Target, BucketOf;
    forall q, k: Bucket, s: nat | s < SLOTS && SlotKey(q, k, s) in kv'
      ensures Resident(kv', q, k, s).Some? && BucketOf(Resident(kv', q, k, s).value) == k
    {
      WrittenElsewhere(kv, p, h, payload, t, kv', q, k, s);
    }
    forall q, k: Bucket, s: nat, r: nat | s < r < SLOTS && SlotKey(q, k, r) in kv'
      ensures SlotKey(q, k, s) in kv' && Resident(kv', q, k, s) != Resident(kv', q, k, r)
    {
      WrittenElsewhere(kv, p, h, payload, t, kv', q, k, s);
      WrittenElsewhere(kv, p, h, payload, t, kv', q, k, r);
      if q == p && k == BucketOf(h) { WrittenPair(kv, p, h, payload, t, kv', s, r); }
    }
  }

  /** Within the written bucket: earlier slots hold other hashes, and a slot past an empty one is empty. */
  lemma WrittenPair(kv: Store, p: char, h: Hash, payload: Bytes, t: nat, kv': Store, s: nat, r: nat)
    requires Compact(kv) && Written(kv, p, h, payload, t, kv') && s < r < SLOTS
    requires SlotKey(p, BucketOf(h), r) in kv'
    ensures SlotKey(p, BucketOf(h), s) in kv'
    ensures Resident(kv', p, BucketOf(h), s) != Resident(kv', p, BucketOf(h), r)
  {
    hide SlotKey, BucketOf, Resident;
    var k := BucketOf(h);
    WrittenElsewhere(kv, p, h, payload, t, kv', p, k, s);
    WrittenElsewhere(kv, p, h, payload, t, kv', p, k, r);
    if r == t {
      assert Resident(kv, p, k, s) != Some(h);
    } else {
      assert SlotKey(p, k, r) in kv;
      assert SlotKey(p, k, s) in kv && Resident(kv, p, k, s) != Resident(kv, p, k, r);
    }
  }

  // ---------------------------------------------------------------- refinement of a map

  lemma {:induction false} LoadTotal(kv: Store, p: char, h: Hash, slot: nat)
    requires Compact(kv) && slot <= SLOTS
    ensures Load(kv, p, h, slot).Ok?
    decreases SLOTS - slot
  {
    hide SlotKey, Compact;
    if slot < SLOTS {
      if SlotKey(p, BucketOf(h), slot) in kv { SlotWhole(kv, p, BucketOf(h), slot); }
      LoadTotal(kv, p, h, slot + 1);
    }
  }

  /** The map the store represents. */
  ghost function Lookup(kv: Store, p: char, h: Hash): (r: Option<Bytes>) {
    var r := Load(kv, p, h, 0);
    if r.Ok? then r.value else None
  }

  lemma {:induction false} LoadWritten(kv: Store, p: char, h: Hash, payload: Bytes, t: nat, kv': Store, slot: nat)
    requires Compact(kv) && Written(kv, p, h, payload, t, kv') && slot <= t
    ensures Load(kv', p, h, slot) == Ok(Some(payload))
    decreases SLOTS - slot
  {
    hide SlotKey, Compact;
    WrittenElsewhere(kv, p, h, payload, t, kv', p, BucketOf(h), slot);
    if slot < t {
      SlotWhole(kv, p, BucketOf(h), slot);
      LoadWritten(kv, p, h, payload, t, kv', slot + 1);
    }
  }

  lemma {:induction false} LoadOther(kv: Store, p: char, h: Hash, payload: Bytes, t: nat, kv': Store, q: char, g: Hash, slot: nat)
    requires Compact(kv) && Written(kv, p, h, payload, t, kv') && slot <= SLOTS
    requires q != p || g != h
    ensures Load(kv', q, g, slot) == Load(kv, q, g, slot)
    decreases SLOTS - slot
  {
    hide SlotKey, Compact, BucketOf;
    if slot < SLOTS {
      var k := BucketOf(g);
      WrittenElsewhere(kv, p, h, payload, t, kv', q, k, slot);
      LoadOther(kv, p, h, payload, t, kv', q, g, slot + 1);
      if q == p && k == BucketOf(h) && slot == t {
        assert kv'[SlotKey(q, k, slot)] == Envelope(h, payload);
        if SlotKey(q, k, slot) in kv { SlotWhole(kv, q, k, slot); }
      }
    }
  }

  /** Saving is map update: the hash now maps to the payload and every other entry is unchanged. */
  lemma SaveRefinesUpdate(kv: Store, p: char, h: Hash, payload: Bytes)
    requires Compact(kv) && Save(kv, p, h, payload, 0).Ok?
    ensures var kv' := Save(kv, p, h, payload, 0).value;
            && Compact(kv')
            && Lookup(kv', p, h) == Some(payload)
            && (forall q, g: Hash :: q != p || g != h ==> Lookup(kv', q, g) == Lookup(kv, q, g))
            && (LATEST_SNAPSHOT_KEY in kv' <==> LATEST_SNAPSHOT_KEY in kv)
            && (LATEST_SNAPSHOT_KEY in kv ==> kv'[LATEST_SNAPSHOT_KEY] == kv[LATEST_SNAPSHOT_KEY])
  {
    hide SlotKey, Compact, BucketOf, Load, Save;
    var t := SaveSlot(kv, p, h, payload, 0);
    var kv' := Save(kv, p, h, payload, 0).value;
    assert Written(kv, p, h, payload, t, kv');
    WrittenCompact(kv, p, h, payload, t, kv');
    LoadWritten(kv, p, h, payload, t, kv', 0);
    forall q, g: Hash | q != p || g != h ensures Lookup(kv', q, g) == Lookup(kv, q, g) {
      LoadOther(kv, p, h, payload, t, kv', q, g, 0);
    }
    SlotKeyInjective(p, BucketOf(h), t, p, BucketOf(h), t);
  }

  // ---------------------------------------------------------------- when a save fails

  /** The first `n` residents of a bucket. */
  ghost function Residents(kv: Store, p: char, k: Bucket, n: nat): (r: set<Hash>)
    requires n <= SLOTS
  {
    set s: nat | s < n && Resident(kv, p, k, s).Some? :: Resident(kv, p, k, s).value
  }

  lemma {:induction false} ResidentsCount(kv: Store, p: char, k: Bucket, n: nat)
    requires Compact(kv) && n <= SLOTS
    requires forall s: nat :: s < n ==> SlotKey(p, k, s) in kv
    ensures |Residents(kv, p, k, n)| == n
    decreases n
  {
    hide SlotKey, Resident;
    if n > 0 {
      ResidentsCount(kv, p, k, n - 1);
      assert SlotKey(p, k, n - 1) in kv;
      var x := Resident(kv, p, k, n - 1).value;
      assert Residents(kv, p, k, n) == Residents(kv, p, k, n - 1) + {x};
      forall s | 0 <= s < n - 1 ensures Resident(kv, p, k, s) != Some(x) {
        assert SlotKey(p, k, s) in kv;
      }
    } else {
      assert Residents(kv, p, k, 0) == {};
    }
  }

  lemma {:induction false} LoadResident(kv: Store, p: char, h: Hash, slot: nat, s: nat)
    requires Compact(kv) && slot <= s < SLOTS && Resident(kv, p, BucketOf(h), s) == Some(h)
    ensures Load(kv, p, h, slot).Ok? && Load(kv, p, h, slot).value.Some?
    decreases SLOTS - slot
  {
    hide SlotKey, Compact, BucketOf;
    if slot < s {
      if SlotKey(p, BucketOf(h), slot) in kv { SlotWhole(kv, p, BucketOf(h), slot); }
      LoadResident(kv, p, h, slot + 1, s);
    }
  }

  lemma {:induction false} LoadFound(kv: Store, p: char, h: Hash, slot: nat) returns (s: nat)
    requires slot <= SLOTS && Load(kv, p, h, slot).Ok? && Load(kv, p, h, slot).value.Some?
    ensures slot <= s < SLOTS && Resident(kv, p, BucketOf(h), s) == Some(h)
    decreases SLOTS - slot
  {
    hide SlotKey, BucketOf;
    var key := SlotKey(p, BucketOf(h), slot);
    if key in kv && kv[key][..32] == h {
      s := slot;
    } else {
      s := LoadFound(kv, p, h, slot + 1);
    }
  }

  /** The residents of a bucket are exactly the stored hashes with its prefix. */
  lemma ResidentIsStored(kv: Store, p: char, k: Bucket, g: Hash)
    requires Compact(kv)
    ensures g in Residents(kv, p, k, SLOTS) <==> BucketOf(g) == k && Lookup(kv, p, g).Some?
  {
    hide SlotKey, Load;
    if g in Residents(kv, p, k, SLOTS) {
      var s :| 0 <= s < SLOTS && Resident(kv, p, k, s) == Some(g);
      assert SlotKey(p, k, s) in kv && BucketOf(g) == k;
      LoadResident(kv, p, g, 0, s);
    } else if BucketOf(g) == k && Lookup(kv, p, g).Some? {
      var s := LoadFound(kv, p, g, 0);
      assert false;
    }
  }

  /** A save fails exactly when 256 other stored hashes already share the six-byte prefix. */
  lemma SaveFailsWhenFull(kv: Store, p: char, h: Hash, payload: Bytes)
    requires Compact(kv)
    ensures Save(kv, p, h, payload, 0).Err? <==>
              && |Residents(kv, p, BucketOf(h), SLOTS)| == SLOTS
              && h !in Residents(kv, p, BucketOf(h), SLOTS)
    ensures forall g: Hash :: g in Residents(kv, p, BucketOf(h), SLOTS) <==> BucketOf(g) == BucketOf(h) && Lookup(kv, p, g).Some?
  {
    hide SlotKey, Load, Save;
    var k := BucketOf(h);
    forall g: Hash ensures g in Residents(kv, p, k, SLOTS) <==> BucketOf(g) == k && Lookup(kv, p, g).Some? {
      ResidentIsStored(kv, p, k, g);
    }
    var t := SaveSlot(kv, p, h, payload, 0);
    if t == SLOTS {
      forall s: nat | s < SLOTS ensures SlotKey(p, k, s) in kv && Resident(kv, p, k, s) != Some(h) {
        assert Resident(kv, p, k, s) != Some(h);
      }
      ResidentsCount(kv, p, k, SLOTS);
    } else if SlotKey(p, k, t) in kv {
      SlotWhole(kv, p, k, t);
      assert Resident(kv, p, k, t) == Some(h);
    } else {
      PartlyFilled(kv, p, k, t);
    }
  }

  lemma NoneBeyond(kv: Store, p: char, k: Bucket, t: nat, s: nat)
    requires Compact(kv) && t <= s < SLOTS && SlotKey(p, k, t) !in kv
    ensures SlotKey(p, k, s) !in kv
  {
    hide SlotKey, Resident;
  }

  lemma PartlyFilled(kv: Store, p: char, k: Bucket, t: nat)
    requires Compact(kv) && t < SLOTS && SlotKey(p, k, t) !in kv
    ensures |Residents(kv, p, k, SLOTS)| < SLOTS
  {
    hide SlotKey;
    forall s: nat | t <= s < SLOTS ensures Resident(kv, p, k, s).None? {
      NoneBeyond(kv, p, k, t, s);
    }
    assert Residents(kv, p, k, SLOTS) == Residents(kv, p, k, t);
    ResidentsBound(kv, p, k, t);
  }

  lemma {:induction false} ResidentsBound(kv: Store, p: char, k: Bucket, n: nat)
    requires n <= SLOTS
    ensures |Residents(kv, p, k, n)| <= n
    decreases n
  {
    hide Resident;
    if n > 0 {
      ResidentsBound(kv, p, k, n - 1);
      var last := Resident(kv, p, k, n - 1);
      assert Residents(kv, p, k, n) == Residents(kv, p, k, n - 1) + (if last.Some? then {last.value} else {});
    } else {
      assert Residents(kv, p, k, 0) == {};
    }
  }

  // ---------------------------------------------------------------- blocks, snapshots and the latest pointer

  function SaveBlock(c: Crypto, pc: Postcard, kv: Store, b: Block): (r: Result<Store, StorageError>) {
    Save(kv, BLOCK_KEY_PREFIX, BlockHash(c, b), pc.encode(b), 0)
  }

  function LoadBlock(c: Crypto, pc: Postcard, kv: Store, h: Hash): (r: Result<Option<Block>, StorageError>) {
    match Load(kv, BLOCK_KEY_PREFIX, h, 0)
    case Err(e) => Err(e)
    case Ok(None) => Ok(None)
    case Ok(Some(bytes)) =>
      match pc.decode(bytes)
      case None => Err(StorageError)
      case Some(b) => if BlockHash(c, b) != h then Err(StorageError) else Ok(Some(b))
  }

  function SaveSnapshotBlob(kv: Store, h: Hash, bytes: Bytes): (r: Result<Store, StorageError>) {
    Save(kv, SNAPSHOT_KEY_PREFIX, h, bytes, 0)
  }

  function WritePointer(kv: Store, h: Hash): (r: Store) { kv[LATEST_SNAPSHOT_KEY := h] }

  /** `save_snapshot`: the blob, then the pointer. */
  function SaveSnapshot(kv: Store, h: Hash, bytes: Bytes): (r: Result<Store, StorageError>) {
    match SaveSnapshotBlob(kv, h, bytes)
    case Err(e) => Err(e)
    case Ok(kv') => Ok(WritePointer(kv', h))
  }

  /** The hash the latest pointer names; a malformed pointer is ignored. */
  function LatestHash(kv: Store): (r: Option<Hash>) {
    if LATEST_SNAPSHOT_KEY in kv && |kv[LATEST_SNAPSHOT_KEY]| == 32 then Some(kv[LATEST_SNAPSHOT_KEY]) else None
  }

  /** `load_latest_snapshot_bundle`: anything missing or damaged means starting without a snapshot. */
  function LatestBundle(c: Crypto, pc: Postcard, kv: Store): (r: Option<(Block, Bytes)>) {
    match LatestHash(kv)
    case None => None
    case Some(h) =>
      match LoadBlock(c, pc, kv, h)
      case Ok(Some(b)) =>
        (match Load(kv, SNAPSHOT_KEY_PREFIX, h, 0)
         case Ok(Some(bytes)) => Some((b, bytes))
         case _ => None)
      case _ => None
  }

  /** A bundle is found exactly if the latest hash is whole and both its block, which must decode and have that hash, and its
      snapshot load. */
  lemma BundleExact(c: Crypto, pc: Postcard, kv: Store, b: Block, bytes: Bytes)
    ensures LatestBundle(c, pc, kv) == Some((b, bytes)) <==>
              && LATEST_SNAPSHOT_KEY in kv && kv[LATEST_SNAPSHOT_KEY] == c.sha(EncBlock(b))
              && Load(kv, 'b', c.sha(EncBlock(b)), 0).Ok? && Load(kv, 'b', c.sha(EncBlock(b)), 0).value.Some?
              && pc.decode(Load(kv, 'b', c.sha(EncBlock(b)), 0).value.value) == Some(b)
              && Load(kv, 's', c.sha(EncBlock(b)), 0) == Ok(Some(bytes))
  {
    hide Load, EncBlock;
  }

  lemma {:induction false} PointerKeepsLoads(kv: Store, h: Hash, p: char, g: Hash, slot: nat)
    requires slot <= SLOTS
    ensures Load(WritePointer(kv, h), p, g, slot) == Load(kv, p, g, slot)
    decreases SLOTS - slot
  {
    hide SlotKey, BucketOf;
    if slot < SLOTS {
      SlotKeyInjective(p, BucketOf(g), slot, p, BucketOf(g), slot);
      PointerKeepsLoads(kv, h, p, g, slot + 1);
    }
  }

  lemma PointerKeepsCompact(kv: Store, h: Hash)
    requires Compact(kv)
    ensures Compact(WritePointer(kv, h))
  {
    hide SlotKey;
    var kv' := WritePointer(kv, h);
    forall p, k: Bucket, s: nat | s < SLOTS
      ensures SlotKey(p, k, s) in kv' <==> SlotKey(p, k, s) in kv
      ensures Resident(kv', p, k, s) == Resident(kv, p, k, s)
    {
      SlotKeyInjective(p, k, s, p, k, s);
    }
  }

  // ---------------------------------------------------------------- the store as written

  class NvsStorage {
    var kv: Store

    constructor ()
      ensures kv == map[]
    {
      kv := map[];
    }

    method LoadHashedBlob(p: char, h: Hash) returns (r: Result<Option<Bytes>, StorageError>)
      ensures r == Load(kv, p, h, 0)
    {
      for slot := 0 to SLOTS
        invariant Load(kv, p, h, slot) == Load(kv, p, h, 0)
      {
        var key := SlotKey(p, BucketOf(h), slot);
        if key in kv {
          var buffer := kv[key];
          if |buffer| < 32 { return Err(StorageError); }
          if buffer[..32] == h { return Ok(Some(buffer[32..])); }
        }
      }
      r := Ok(None);
    }

    method SaveHashedBlob(p: char, h: Hash, payload: Bytes) returns (r: Result<(), StorageError>)
      modifies this
      ensures match Save(old(kv), p, h, payload, 0)
              case Ok(next) => r.Ok? && kv == next
              case Err(e) => r == Err(e) && kv == old(kv)
    {
      var encoded := Envelope(h, payload);
      for slot := 0 to SLOTS
        invariant kv == old(kv) && Save(kv, p, h, payload, slot) == Save(kv, p, h, payload, 0)
      {
        var key := SlotKey(p, BucketOf(h), slot);
        if key in kv {
          var buffer := kv[key];
          if |buffer| < 32 { return Err(StorageError); }
          if buffer[..32] == h {
            kv := kv[key := encoded];
            return Ok(());
          }
        } else {
          kv := kv[key := encoded];
          return Ok(());
        }
      }
      r := Err(StorageError);
    }

    method PersistSnapshot(h: Hash, bytes: Bytes) returns (r: Result<(), StorageError>)
      modifies this
      ensures match SaveSnapshot(old(kv), h, bytes)
              case Ok(next) => r.Ok? && kv == next
              case Err(e) => r == Err(e) && kv == old(kv)
    {
      r := SaveHashedBlob(SNAPSHOT_KEY_PREFIX, h, bytes);
      if r.Err? { return; }
      kv := kv[LATEST_SNAPSHOT_KEY := h];
    }

    method LoadLatestSnapshotBundle(c: Crypto, pc: Postcard) returns (r: Option<(Block, Bytes)>)
      ensures r == LatestBundle(c, pc, kv)
    {
      if LATEST_SNAPSHOT_KEY !in kv || |kv[LATEST_SNAPSHOT_KEY]| != 32 { return None; }
      var h: Hash := kv[LATEST_SNAPSHOT_KEY];
      var blob := LoadHashedBlob(BLOCK_KEY_PREFIX, h);
      if blob.Err? || blob.value.None? { return None; }
      var block := pc.decode(blob.value.value);
      if block.None? || BlockHash(c, block.value) != h { return None; }
      var state := LoadHashedBlob(SNAPSHOT_KEY_PREFIX, h);
      if state.Err? || state.value.None? { return None; }
      r := Some((block.value, state.value.value));
    }
  }
}
