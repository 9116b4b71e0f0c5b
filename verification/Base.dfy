/**
 The machine integers, byte strings and collections the node is written in:
 big-endian words, the lexicographic order of byte arrays, the ascending key order
 in which a `BTreeMap` is iterated, and sums over tables.
 */
module Base {

  const U64_LIMIT: int := 0x1_0000_0000_0000_0000

  type byte = x: int | 0 <= x < 256
  type u64 = x: int | 0 <= x < U64_LIMIT
  type Bytes = seq<byte>
  type Hash = s: Bytes | |s| == 32 witness seq(32, _ => 0)
  /** A compressed P-256 public key; `VerifyingKey` is identified with this encoding. */
  type Key = s: Bytes | |s| == 33 witness seq(33, _ => 0)
  /** `Vec<T>` and `BTreeMap<PublicKeyBytes, V>`: their length is a `usize`. */
  type Vec<T> = s: seq<T> | |s| < U64_LIMIT witness []
  type Table<V> = m: map<Key, V> | |m| < U64_LIMIT witness map[]

  const ZERO_HASH: Hash :=
    [0, 0, 0, 0, 0, 0, 0, 0, 0, 0, 0, 0, 0, 0, 0, 0, 0, 0, 0, 0, 0, 0, 0, 0, 0, 0, 0, 0, 0, 0, 0, 0]

  datatype Option<+T> = None | Some(value: T)

  datatype Result<+T, +E> = Ok(value: T) | Err(error: E)

  /** The outcome of arithmetic that panics when it leaves u64 (or when a collection outgrows `usize`). */
  datatype Checked<+T> = Value(value: T) | Overflow {
    predicate IsFailure() { Overflow? }

    function PropagateFailure<U>(): (r: Checked<U>)
      requires Overflow?
    {
      Overflow
    }

    function Extract(): (r: T)
      requires Value?
    {
      value
    }
  }

  function Min(a: int, b: int): (r: int) { if a <= b then a else b }

  function CheckU64(x: int): (r: Checked<u64>) {
    if 0 <= x < U64_LIMIT then Value(x) else Overflow
  }

  function SaturatingAdd(a: u64, b: u64): (r: u64) {
    if a + b < U64_LIMIT then a + b else U64_LIMIT - 1
  }

  function SaturatingSub(a: u64, b: u64): (r: u64) {
    if a < b then 0 else a - b
  }

  // ---------------------------------------------------------------- big-endian words

  function Pow256(n: nat): (r: nat)
    ensures r > 0
  {
    if n == 0 then 1 else 256 * Pow256(n - 1)
  }

  /** `to_be_bytes`: the `n` low-order bytes of `x`, most significant first. */
  function BigEndian(n: nat, x: nat): (r: Bytes)
    ensures |r| == n
  {
    if n == 0 then [] else BigEndian(n - 1, x / 256) + [x % 256]
  }

  /** `from_be_bytes`. */
  function FromBigEndian(s: Bytes): (r: nat) {
    if s == [] then 0 else 256 * FromBigEndian(s[..|s| - 1]) + s[|s| - 1]
  }

  lemma {:induction false} BigEndianRoundTrip(n: nat, x: nat)
    requires x < Pow256(n)
    ensures FromBigEndian(BigEndian(n, x)) == x
  {
    if n > 0 {
      BigEndianRoundTrip(n - 1, x / 256);
      assert BigEndian(n, x)[..n - 1] == BigEndian(n - 1, x / 256);
    }
  }

  lemma {:induction false} FromBigEndianBound(s: Bytes)
    ensures FromBigEndian(s) < Pow256(|s|)
  {
    if s != [] {
      FromBigEndianBound(s[..|s| - 1]);
    }
  }

  lemma DivDiv(x: nat, p: nat)
    requires p > 0
    ensures x / (256 * p) == (x / 256) / p
  {
    var y, r := x / 256, x % 256;
    var q, t := y / p, y % p;
    assert x == 256 * y + r && y == p * q + t;
    assert x == (256 * p) * q + (256 * t + r);
    assert 0 <= 256 * t + r < 256 * p;
    DivUnique(x, 256 * p, q, 256 * t + r);
  }

  lemma DivUnique(x: nat, d: nat, q: nat, r: nat)
    requires d > 0 && x == d * q + r && r < d
    ensures x / d == q
  {
    var q', r' := x / d, x % d;
    assert x == d * q' + r';
    if q' < q {
      MulMonotone(d, q' + 1, q);
    } else if q < q' {
      MulMonotone(d, q + 1, q');
    }
  }

  lemma MulMonotone(d: nat, a: nat, b: nat)
    requires a <= b
    ensures d * a <= d * b
  {
  }

  /** Byte `i` of a big-endian word is its digit of weight 256 to the power of the bytes after it. */
  lemma {:induction false} BigEndianDigit(n: nat, x: nat, i: nat)
    requires i < n
    ensures BigEndian(n, x)[i] == (x / Pow256(n - 1 - i)) % 256
    decreases n
  {
    if i < n - 1 {
      BigEndianDigit(n - 1, x / 256, i);
      DivDiv(x, Pow256(n - 2 - i));
    }
  }

  lemma Pow256Of8()
    ensures Pow256(8) == U64_LIMIT
  {
    assert Pow256(2) == 0x1_0000;
    assert Pow256(4) == 0x1_0000_0000;
    assert Pow256(6) == 0x1_0000_0000_0000;
  }

  function Be64(x: u64): (r: Bytes)
    ensures |r| == 8
  {
    BigEndian(8, x)
  }

  function FromBe64(s: Bytes): (r: u64)
    requires |s| == 8
  {
    FromBigEndianBound(s);
    Pow256Of8();
    FromBigEndian(s)
  }

  lemma Be64RoundTrip(x: u64)
    ensures FromBe64(Be64(x)) == x
  {
    Pow256Of8();
    BigEndianRoundTrip(8, x);
  }

  /** Two concatenations whose first parts are equally long agree part by part. */
  lemma Peel(x: Bytes, y: Bytes, s: Bytes, t: Bytes)
    requires |x| == |y| && x + s == y + t
    ensures x == y && s == t
  {
    assert (x + s)[..|x|] == x && (y + t)[..|y|] == y;
    assert (x + s)[|x|..] == s && (y + t)[|y|..] == t;
  }

  lemma Regroup<T>(x: seq<T>, y: seq<T>, z: seq<T>)
    ensures x + (y + z) == x + y + z
    ensures x + [] == x && [] + x == x
  {
  }

  ghost predicate Distinct<T>(s: seq<T>) {
    forall i, j :: 0 <= i < j < |s| ==> s[i] != s[j]
  }

  lemma InsertSize<V>(m: map<Key, V>, k: Key, v: V)
    ensures |m| <= |m[k := v]| <= |m| + 1
  {
    assert m[k := v].Keys == m.Keys + {k};
  }

  // ---------------------------------------------------------------- lexicographic order

  /** The derived `Ord` of byte arrays. */
  predicate Less(a: Bytes, b: Bytes) {
    b != [] && (a == [] || a[0] < b[0] || (a[0] == b[0] && Less(a[1..], b[1..])))
  }

  lemma {:induction false} LessIrreflexive(a: Bytes)
    ensures !Less(a, a)
  {
    if a != [] { LessIrreflexive(a[1..]); }
  }

  lemma {:induction false} LessTransitive(a: Bytes, b: Bytes, c: Bytes)
    requires Less(a, b) && Less(b, c)
    ensures Less(a, c)
  {
    if a != [] && a[0] == b[0] == c[0] { LessTransitive(a[1..], b[1..], c[1..]); }
  }

  lemma {:induction false} LessTotal(a: Bytes, b: Bytes)
    requires a != b
    ensures Less(a, b) || Less(b, a)
  {
    if a != [] && b != [] && a[0] == b[0] {
      assert a == [a[0]] + a[1..] && b == [b[0]] + b[1..];
      LessTotal(a[1..], b[1..]);
    }
  }

  lemma {:induction false} FromBigEndianCons(x: byte, s: Bytes)
    ensures FromBigEndian([x] + s) == x * Pow256(|s|) + FromBigEndian(s)
    decreases |s|
  {
    if s == [] {
      assert [x] + s == [x] && [x][..0] == [];
    } else {
      var n := |s| - 1;
      assert ([x] + s)[..|s|] == [x] + s[..n];
      FromBigEndianCons(x, s[..n]);
      assert 256 * (x * Pow256(n)) == x * (256 * Pow256(n));
    }
  }

  /** On byte strings of one length the order is that of the numbers they spell. */
  lemma {:induction false} LessNumeric(a: Bytes, b: Bytes)
    requires |a| == |b|
    ensures Less(a, b) <==> FromBigEndian(a) < FromBigEndian(b)
    decreases |a|
  {
    hide FromBigEndian, Pow256;
    if a == [] {
      assert a == b;
    } else {
      var x, y, s, t := a[0], b[0], a[1..], b[1..];
      assert a == [x] + s && b == [y] + t;
      FromBigEndianCons(x, s);
      FromBigEndianCons(y, t);
      FromBigEndianBound(s);
      FromBigEndianBound(t);
      LessNumeric(s, t);
      DigitsCompare(x, y, Pow256(|s|), FromBigEndian(s), FromBigEndian(t));
    }
  }

  lemma DigitsCompare(x: nat, y: nat, p: nat, u: nat, v: nat)
    requires u < p && v < p
    ensures x * p + u < y * p + v <==> x < y || (x == y && u < v)
  {
    if x < y {
      MulMonotone(p, x + 1, y);
    } else if y < x {
      MulMonotone(p, y + 1, x);
    }
  }

  // ---------------------------------------------------------------- ordered iteration

  predicate Least(k: Key, s: set<Key>) {
    k in s && forall j <- s :: j == k || Less(k, j)
  }

  lemma {:induction false} LeastExists(s: set<Key>) returns (k: Key)
    requires s != {}
    ensures Least(k, s)
    decreases |s|
  {
    var x :| x in s;
    if s == {x} {
      return x;
    }
    var rest := s - {x};
    assert |rest| < |s| && s == rest + {x};
    var m := LeastExists(rest);
    LessTotal(x, m);
    if Less(x, m) {
      forall j | j in s ensures j == x || Less(x, j) {
        if j in rest && j != m { LessTransitive(x, m, j); }
      }
      k := x;
    } else {
      k := m;
    }
  }

  lemma LeastUnique(s: set<Key>)
    requires s != {}
    ensures exists k :: Least(k, s)
    ensures forall a, b :: Least(a, s) && Least(b, s) ==> a == b
  {
    var k := LeastExists(s);
    forall a: Key, b: Key | Least(a, s) && Least(b, s) ensures a == b {
      if a != b {
        LessTransitive(a, b, a);
        LessIrreflexive(a);
      }
    }
  }

  function LeastOf(s: set<Key>): (r: Key)
    requires s != {}
    ensures Least(r, s)
  {
    LeastUnique(s);
    var k :| Least(k, s);
    k
  }

  /** The keys of a `BTreeMap` in iteration order. */
  function SortedKeys(s: set<Key>): (r: seq<Key>)
    ensures forall k :: k in r <==> k in s
    ensures |r| == |s|
    decreases |s|
  {
    if s == {} then [] else
      var k := LeastOf(s);
      assert s == {k} + (s - {k});
      [k] + SortedKeys(s - {k})
  }

  lemma {:induction false} SortedKeysAscend(s: set<Key>, i: nat, j: nat)
    requires i < j < |s|
    ensures Less(SortedKeys(s)[i], SortedKeys(s)[j])
    decreases |s|
  {
    hide Less, LeastOf;
    var ks := SortedKeys(s);
    var rest := s - {ks[0]};
    assert ks == [ks[0]] + SortedKeys(rest);
    if i > 0 {
      SortedKeysAscend(rest, i - 1, j - 1);
    } else {
      assert ks[j] == SortedKeys(rest)[j - 1] && ks[j] in rest;
      assert Least(ks[0], s);
    }
  }

  lemma SortedKeysDistinct(s: set<Key>, i: nat, j: nat)
    requires i < |s| && j < |s| && i != j
    ensures SortedKeys(s)[i] != SortedKeys(s)[j]
  {
    var a, b := if i < j then i else j, if i < j then j else i;
    SortedKeysAscend(s, a, b);
    LessIrreflexive(SortedKeys(s)[a]);
  }

  // ---------------------------------------------------------------- sums over tables

  /** The sum of `f` over the entries of `m`. */
  ghost function Sum<V>(m: map<Key, V>, f: V -> nat): (r: nat)
    decreases |m|
  {
    if m == map[] then 0 else
      var k :| k in m;
      f(m[k]) + Sum(m - {k}, f)
  }

  lemma {:induction false} SumSplit<V>(m: map<Key, V>, f: V -> nat, k: Key)
    requires k in m
    ensures Sum(m, f) == f(m[k]) + Sum(m - {k}, f)
    decreases |m|
  {
    var j :| j in m && Sum(m, f) == f(m[j]) + Sum(m - {j}, f);
    if j != k {
      assert m - {j} - {k} == m - {k} - {j};
      SumSplit(m - {j}, f, k);
      SumSplit(m - {k}, f, j);
    }
  }

  lemma SumUpdate<V>(m: map<Key, V>, f: V -> nat, k: Key, v: V)
    ensures Sum(m[k := v], f) == Sum(m - {k}, f) + f(v)
  {
    SumSplit(m[k := v], f, k);
    assert m[k := v] - {k} == m - {k};
  }

  lemma SumRemove<V>(m: map<Key, V>, f: V -> nat, k: Key)
    ensures Sum(m, f) == Sum(m - {k}, f) + (if k in m then f(m[k]) else 0)
  {
    if k in m {
      SumSplit(m, f, k);
    } else {
      assert m - {k} == m;
    }
  }
}
