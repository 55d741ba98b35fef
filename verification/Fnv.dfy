/**
 The shard choice of internal/cache/l1.go: 32-bit FNV-1a (section 2 of
 draft-eastlake-fnv), reduced modulo 256.

 Only the low byte of the hash matters, and it obeys a recurrence of its own on
 8 bits. Multiplication by 147 is invertible modulo 256, so the shard index is a
 bijective function of any one byte of the key when the others are fixed.
 */
module Fnv {
  import opened CacheTypes

  const OFFSET_BASIS: bv32 := 2166136261
  const PRIME: bv32 := 16777619

  function Extend(h: bv32, b: bv8): bv32 {
    (h ^ (b as bv32)) * PRIME
  }

  /** FNV-1a of a byte string, the last byte mixed in last. */
  function Hash(key: Key): bv32 {
    if key == [] then OFFSET_BASIS else Extend(Hash(key[..|key| - 1]), key[|key| - 1])
  }

  function LowByte(h: bv32): bv8 {
    (h % 256) as bv8
  }

  /** The loop of `getShard` over the bytes of the key. */
  method ComputeHash(key: Key) returns (h: bv32)
    ensures h == Hash(key)
  {
    h := OFFSET_BASIS;
    for i := 0 to |key|
      invariant h == Hash(key[..i])
    {
      HashPrefix(key, i);
      h := Extend(h, key[i]);
    }
    assert key[..|key|] == key;
  }

  lemma HashPrefix(key: Key, i: nat)
    requires i < |key|
    ensures Hash(key[..i + 1]) == Extend(Hash(key[..i]), key[i])
  {
    assert key[..i + 1][..i] == key[..i];
  }

  /** `getShard`: the shard index of a key. */
  method GetShard(key: Key) returns (index: bv8)
    ensures index == LowByte(Hash(key)) == ShardOf(key)
  {
    var h := ComputeHash(key);
    index := (h % 256) as bv8;
    HashLowByte(key);
  }

  lemma HashOfAppend(key: Key, b: bv8)
    ensures Hash(key + [b]) == Extend(Hash(key), b)
  {
    assert (key + [b])[..|key|] == key;
  }

  /** Known values of 32-bit FNV-1a: for no bytes, for "a" and for "foobar". */
  lemma KnownHashes()
    ensures Hash([]) == 0x811c9dc5
    ensures Hash([0x61]) == 0xe40c292c
    ensures Hash([0x66, 0x6f, 0x6f, 0x62, 0x61, 0x72]) == 0xbf9cf968
  {
    Grows([], 0x61, 0x811c9dc5, [0x61], 0xe40c292c);
    Grows([], 0x66, 0x811c9dc5, [0x66], 0xe30c2799);
    Grows([0x66], 0x6f, 0xe30c2799, [0x66, 0x6f], 0x6222e842);
    Grows([0x66, 0x6f], 0x6f, 0x6222e842, [0x66, 0x6f, 0x6f], 0xa9f37ed7);
    Grows([0x66, 0x6f, 0x6f], 0x62, 0xa9f37ed7, [0x66, 0x6f, 0x6f, 0x62], 0x3f5076ef);
    Grows([0x66, 0x6f, 0x6f, 0x62], 0x61, 0x3f5076ef, [0x66, 0x6f, 0x6f, 0x62, 0x61], 0x39aaa18a);
    Grows([0x66, 0x6f, 0x6f, 0x62, 0x61], 0x72, 0x39aaa18a, [0x66, 0x6f, 0x6f, 0x62, 0x61, 0x72], 0xbf9cf968);
  }

  lemma Grows(key: Key, b: bv8, h: bv32, longer: Key, g: bv32)
    requires Hash(key) == h && longer == key + [b] && Extend(h, b) == g
    ensures Hash(longer) == g
  {
    HashOfAppend(key, b);
  }

  // ------------------------------------------------------ the 8-bit recurrence

  function Step(s: bv8, b: bv8): bv8 {
    (s ^ b) * 147
  }

  /** The shard index computed on 8 bits only. */
  function ShardFrom(s: bv8, key: Key): bv8 {
    if key == [] then s else Step(ShardFrom(s, key[..|key| - 1]), key[|key| - 1])
  }

  function ShardOf(key: Key): bv8 {
    ShardFrom(197, key)
  }

  lemma ExtendLowByte(h: bv32, b: bv8)
    ensures LowByte(Extend(h, b)) == Step(LowByte(h), b)
  {}

  lemma {:induction false} HashLowByte(key: Key)
    ensures LowByte(Hash(key)) == ShardOf(key)
  {
    if key != [] {
      HashLowByte(key[..|key| - 1]);
      ExtendLowByte(Hash(key[..|key| - 1]), key[|key| - 1]);
    }
  }

  /** 155 is the inverse of 147 modulo 256, so a step can be undone from either side. */
  lemma StepInverse(s: bv8, b: bv8)
    ensures (Step(s, b) * 155) ^ b == s
    ensures (Step(s, b) * 155) ^ s == b
  {}

  lemma StepInjective(s: bv8, t: bv8, b: bv8)
    requires s != t
    ensures Step(s, b) != Step(t, b)
  {}

  lemma {:induction false} ShardFromInjective(s: bv8, t: bv8, key: Key)
    requires s != t
    ensures ShardFrom(s, key) != ShardFrom(t, key)
  {
    if key != [] {
      var p, b := key[..|key| - 1], key[|key| - 1];
      ShardFromInjective(s, t, p);
      StepInjective(ShardFrom(s, p), ShardFrom(t, p), b);
    }
  }

  lemma {:induction false} ShardFromSplit(s: bv8, a: Key, b: Key)
    ensures ShardFrom(s, a + b) == ShardFrom(ShardFrom(s, a), b)
  {
    if b == [] {
      assert a + b == a;
    } else {
      var c := a + b;
      assert c[..|c| - 1] == a + b[..|b| - 1];
      ShardFromSplit(s, a, b[..|b| - 1]);
    }
  }

  /** Keys of one length that differ in exactly one byte are never in the same shard. */
  lemma OneByteApart(prefix: Key, x: bv8, y: bv8, suffix: Key)
    requires x != y
    ensures ShardOf(prefix + [x] + suffix) != ShardOf(prefix + [y] + suffix)
  {
    var s := ShardOf(prefix);
    StepInverse(s, x);
    StepInverse(s, y);
    SplitAround(prefix, x, suffix);
    SplitAround(prefix, y, suffix);
    ShardFromInjective(Step(s, x), Step(s, y), suffix);
  }

  lemma SplitAround(prefix: Key, x: bv8, suffix: Key)
    ensures ShardOf(prefix + [x] + suffix) == ShardFrom(Step(ShardOf(prefix), x), suffix)
  {
    ShardFromSplit(197, prefix + [x], suffix);
    assert (prefix + [x])[..|prefix|] == prefix;
  }

  // --------------------------------------------------------- even distribution

  function Number(b: bv8): (i: int)
    ensures 0 <= i < 256
  {
    b as int
  }

  lemma NumberInjective(x: bv8, y: bv8)
    requires Number(x) == Number(y)
    ensures x == y
  {}

  lemma NumberOfNext(b: bv8)
    requires Number(b) < 255
    ensures Number(b + 1) == Number(b) + 1
  {}

  /** The byte with a given number. */
  function Byte(i: int): (b: bv8)
    requires 0 <= i < 256
    ensures Number(b) == i
  {
    if i == 0 then 0
    else
      NumberOfNext(Byte(i - 1));
      Byte(i - 1) + 1
  }

  function Bytes(): set<bv8> {
    set i | 0 <= i < 256 :: Byte(i)
  }

  function KeysOfLength(n: nat): set<Key> {
    if n == 0 then {[]} else set p, b | p in KeysOfLength(n - 1) && b in Bytes() :: p + [b]
  }

  function InShard(n: nat, i: bv8): set<Key> {
    set k | k in KeysOfLength(n) && ShardOf(k) == i
  }

  function Pow256(n: nat): nat {
    if n == 0 then 1 else 256 * Pow256(n - 1)
  }

  lemma {:induction false} KeysOfLengthMeans(n: nat, k: Key)
    ensures k in KeysOfLength(n) <==> |k| == n
  {
    if n > 0 {
      forall p ensures p in KeysOfLength(n - 1) <==> |p| == n - 1 {
        KeysOfLengthMeans(n - 1, p);
      }
      if |k| == n {
        var p, b := k[..n - 1], k[n - 1];
        NumberInjective(Byte(Number(b)), b);
        assert b in Bytes();
        assert k == p + [b];
      }
    }
  }

  /** The one byte that takes a key of shard `s` to shard `i`. */
  function ByteTo(s: bv8, i: bv8): (b: bv8)
    ensures Step(s, b) == i
    ensures forall c :: Step(s, c) == i ==> c == b
  {
    assert forall c :: Step(s, c) == i ==> c == (i * 155) ^ s by {
      forall c ensures Step(s, c) == i ==> c == (i * 155) ^ s { StepInverse(s, c); }
    }
    (i * 155) ^ s
  }

  /** `p` extended by the one byte that puts it in shard `i`. */
  function Into(p: Key, i: bv8): (k: Key)
    ensures ShardOf(k) == i && |k| == |p| + 1 && k[..|p|] == p
  {
    var k := p + [ByteTo(ShardOf(p), i)];
    assert k[..|p|] == p;
    k
  }

  lemma OnlyInto(k: Key)
    requires k != []
    ensures k == Into(k[..|k| - 1], ShardOf(k))
  {}

  lemma ClassIsImage(n: nat, i: bv8)
    ensures InShard(n + 1, i) == set p | p in KeysOfLength(n) :: Into(p, i)
  {
    forall k | k in InShard(n + 1, i) ensures k[..|k| - 1] in KeysOfLength(n) && k == Into(k[..|k| - 1], i) {
      KeysOfLengthMeans(n + 1, k);
      KeysOfLengthMeans(n, k[..|k| - 1]);
      OnlyInto(k);
    }
    forall p | p in KeysOfLength(n) ensures Into(p, i) in InShard(n + 1, i) {
      KeysOfLengthMeans(n, p);
      KeysOfLengthMeans(n + 1, Into(p, i));
    }
  }

  lemma {:induction false} ImageSize(ps: set<Key>, f: Key -> Key)
    requires forall p, q :: p in ps && q in ps && f(p) == f(q) ==> p == q
    ensures |set p | p in ps :: f(p)| == |ps|
  {
    if ps != {} {
      var x :| x in ps;
      ImageSize(ps - {x}, f);
      assert (set p | p in ps :: f(p)) == (set p | p in ps - {x} :: f(p)) + {f(x)};
    }
  }

  lemma IntoInjective(p: Key, q: Key, i: bv8)
    requires |p| == |q| && Into(p, i) == Into(q, i)
    ensures p == q
  {}

  lemma ClassSize(n: nat, i: bv8)
    ensures |InShard(n + 1, i)| == |KeysOfLength(n)|
  {
    ClassIsImage(n, i);
    var f := (p: Key) => Into(p, i);
    forall p, q | p in KeysOfLength(n) && q in KeysOfLength(n) && f(p) == f(q) ensures p == q {
      KeysOfLengthMeans(n, p);
      KeysOfLengthMeans(n, q);
      IntoInjective(p, q, i);
    }
    ImageSize(KeysOfLength(n), f);
    assert InShard(n + 1, i) == set p | p in KeysOfLength(n) :: f(p);
  }

  function Below(n: nat, j: nat): set<Key> {
    set k | k in KeysOfLength(n) && Number(ShardOf(k)) < j
  }

  lemma NumberOfByte(b: bv8, i: int)
    requires 0 <= i < 256
    ensures Number(b) == i <==> b == Byte(i)
  {}

  lemma BelowSplits(n: nat, j: nat)
    requires 1 <= j <= 256
    ensures Below(n, j) == Below(n, j - 1) + InShard(n, Byte(j - 1))
    ensures |Below(n, j)| == |Below(n, j - 1)| + |InShard(n, Byte(j - 1))|
  {
    hide KeysOfLength, ShardOf, Number, Byte;
    forall k: Key ensures Number(ShardOf(k)) == j - 1 <==> ShardOf(k) == Byte(j - 1) {
      NumberOfByte(ShardOf(k), j - 1);
    }
    assert Below(n, j - 1) !! InShard(n, Byte(j - 1));
  }

  function Times(j: nat, c: nat): nat {
    if j == 0 then 0 else Times(j - 1, c) + c
  }

  lemma {:induction false} TimesMeans(j: nat, c: nat)
    ensures Times(j, c) == j * c
  {
    if j > 0 {
      TimesMeans(j - 1, c);
      assert (j - 1) * c + c == j * c;
    }
  }

  lemma {:induction false} SumOfClasses(n: nat, j: nat)
    requires j <= 256
    ensures |Below(n + 1, j)| == Times(j, |KeysOfLength(n)|)
  {
    if j == 0 {
      assert Below(n + 1, j) == {};
    } else {
      SumOfClasses(n, j - 1);
      ClassSize(n, Byte(j - 1));
      BelowSplits(n + 1, j);
    }
  }

  lemma {:induction false} KeyCount(n: nat)
    ensures |KeysOfLength(n)| == Pow256(n)
  {
    if n > 0 {
      KeyCount(n - 1);
      SumOfClasses(n - 1, 256);
      TimesMeans(256, |KeysOfLength(n - 1)|);
      assert Below(n, 256) == KeysOfLength(n);
    }
  }

  /** Of the 256^n keys of n bytes, every shard receives exactly 256^(n-1). */
  lemma EvenDistribution(n: nat, i: bv8)
    requires 1 <= n
    ensures |KeysOfLength(n)| == Pow256(n)
    ensures |set k | k in KeysOfLength(n) && ShardOf(k) == i| == Pow256(n - 1)
  {
    KeyCount(n);
    KeyCount(n - 1);
    ClassSize(n - 1, i);
    assert InShard(n, i) == set k | k in KeysOfLength(n) && ShardOf(k) == i;
  }
}
