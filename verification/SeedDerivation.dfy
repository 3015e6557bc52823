// The byte stream from which child random streams are derived: its framing tells
// any two derivations apart before they are hashed, and deriving many children at
// once gives what deriving each of them gives (src/variopt/randomness.py).
module SeedDerivation {
  import opened Outcomes

  type Byte = x: int | 0 <= x < 256 witness 0

  /** A random-state snapshot. Texts stand for their UTF-8 bytes; `cachedGaussian`
      is the text that `repr` gives for the cached value. */
  datatype Snapshot = Snapshot(
    algorithm: seq<Byte>, keyBytes: seq<Byte>, position: nat, hasGaussian: nat, cachedGaussian: seq<Byte>)

  // ----- big-endian numbers -----

  function Power(width: nat): (r: nat)
    ensures r > 0
  {
    if width == 0 then 1 else 256 * Power(width - 1)
  }

  predicate Fits(n: nat, width: nat) {
    n < Power(width)
  }

  function BigEndian(n: nat, width: nat): (r: seq<Byte>)
    ensures |r| == width
  {
    if width == 0 then [] else BigEndian(n / 256, width - 1) + [n % 256]
  }

  lemma {:induction false} BigEndianInjective(m: nat, n: nat, width: nat)
    requires Fits(m, width) && Fits(n, width) && BigEndian(m, width) == BigEndian(n, width)
    ensures m == n
  {
    if width > 0 {
      var a, b := BigEndian(m / 256, width - 1), BigEndian(n / 256, width - 1);
      var x: seq<Byte>, y: seq<Byte> := [m % 256], [n % 256];
      assert a == (a + x)[..width - 1] && b == (b + y)[..width - 1];
      assert (a + x)[width - 1] == m % 256 && (b + y)[width - 1] == n % 256;
      BigEndianInjective(m / 256, n / 256, width - 1);
      assert m == 256 * (m / 256) + m % 256 && n == 256 * (n / 256) + n % 256;
    }
  }

  // ----- framing -----

  const LENGTH_WIDTH := 8
  const POSITION_WIDTH := 8
  const FLAG_WIDTH := 1

  /** A text or byte string, after its length. */
  function Framed(bytes: seq<Byte>): (r: seq<Byte>) {
    BigEndian(|bytes|, LENGTH_WIDTH) + bytes
  }

  function FramedAll(keys: seq<seq<Byte>>): (r: seq<Byte>) {
    if keys == [] then [] else Framed(keys[0]) + FramedAll(keys[1..])
  }

  function Prefix(namespace: seq<Byte>, s: Snapshot): (r: seq<Byte>) {
    Framed(namespace) + Framed(s.algorithm) + Framed(s.keyBytes) + BigEndian(s.position, POSITION_WIDTH)
      + BigEndian(s.hasGaussian, FLAG_WIDTH) + Framed(s.cachedGaussian)
  }

  /** Everything that is hashed for one child stream. */
  function Stream(namespace: seq<Byte>, s: Snapshot, keys: seq<seq<Byte>>): (r: seq<Byte>) {
    Prefix(namespace, s) + FramedAll(keys)
  }

  /** Longer strings and larger numbers do not fit their fields and are refused. */
  predicate FramesFit(namespace: seq<Byte>, s: Snapshot, keys: seq<seq<Byte>>) {
    && Fits(|namespace|, LENGTH_WIDTH) && Fits(|s.algorithm|, LENGTH_WIDTH) && Fits(|s.keyBytes|, LENGTH_WIDTH)
    && Fits(s.position, POSITION_WIDTH) && Fits(s.hasGaussian, FLAG_WIDTH) && Fits(|s.cachedGaussian|, LENGTH_WIDTH)
    && forall k :: 0 <= k < |keys| ==> Fits(|keys[k]|, LENGTH_WIDTH)
  }

  /** A frame can be read off the front of a stream. */
  lemma FrameReads(a: seq<Byte>, x: seq<Byte>, b: seq<Byte>, y: seq<Byte>)
    requires Fits(|a|, LENGTH_WIDTH) && Fits(|b|, LENGTH_WIDTH) && Framed(a) + x == Framed(b) + y
    ensures a == b && x == y
  {
    var all, other := Framed(a) + x, Framed(b) + y;
    assert BigEndian(|a|, LENGTH_WIDTH) == all[..LENGTH_WIDTH];
    assert BigEndian(|b|, LENGTH_WIDTH) == other[..LENGTH_WIDTH];
    BigEndianInjective(|a|, |b|, LENGTH_WIDTH);
    assert a == all[LENGTH_WIDTH..LENGTH_WIDTH + |a|] && b == other[LENGTH_WIDTH..LENGTH_WIDTH + |b|];
    assert x == all[LENGTH_WIDTH + |a|..] && y == other[LENGTH_WIDTH + |b|..];
  }

  lemma NumberReads(m: nat, x: seq<Byte>, n: nat, y: seq<Byte>, width: nat)
    requires Fits(m, width) && Fits(n, width) && BigEndian(m, width) + x == BigEndian(n, width) + y
    ensures m == n && x == y
  {
    var all, other := BigEndian(m, width) + x, BigEndian(n, width) + y;
    assert BigEndian(m, width) == all[..width] && BigEndian(n, width) == other[..width];
    BigEndianInjective(m, n, width);
    assert x == all[width..] && y == other[width..];
  }

  lemma {:induction false} KeysRead(keys: seq<seq<Byte>>, other: seq<seq<Byte>>)
    requires forall k :: 0 <= k < |keys| ==> Fits(|keys[k]|, LENGTH_WIDTH)
    requires forall k :: 0 <= k < |other| ==> Fits(|other[k]|, LENGTH_WIDTH)
    requires FramedAll(keys) == FramedAll(other)
    ensures keys == other
  {
    if keys != [] && other != [] {
      FrameReads(keys[0], FramedAll(keys[1..]), other[0], FramedAll(other[1..]));
      KeysRead(keys[1..], other[1..]);
      assert keys == [keys[0]] + keys[1..] && other == [other[0]] + other[1..];
    }
  }

  lemma Regrouped(a: seq<Byte>, b: seq<Byte>, c: seq<Byte>, d: seq<Byte>, e: seq<Byte>, f: seq<Byte>, g: seq<Byte>)
    ensures a + b + c + d + e + f + g == a + (b + (c + (d + (e + (f + g)))))
  {
    assert a + b + c + d + e + f + g == a + b + c + d + e + (f + g);
    assert a + b + c + d + e + (f + g) == a + b + c + d + (e + (f + g));
    assert a + b + c + d + (e + (f + g)) == a + b + c + (d + (e + (f + g)));
  }

  /** The stream determines the namespace, every field of the snapshot, and the
      list of keys: two different derivations never hash the same bytes. */
  lemma StreamIsInjective(namespace: seq<Byte>, s: Snapshot, keys: seq<seq<Byte>>,
                          namespace': seq<Byte>, s': Snapshot, keys': seq<seq<Byte>>)
    requires FramesFit(namespace, s, keys) && FramesFit(namespace', s', keys')
    requires Stream(namespace, s, keys) == Stream(namespace', s', keys')
    ensures namespace == namespace' && s == s' && keys == keys'
  {
    var k, k' := FramedAll(keys), FramedAll(keys');
    var e, e' := Framed(s.cachedGaussian) + k, Framed(s'.cachedGaussian) + k';
    var d, d' := BigEndian(s.hasGaussian, FLAG_WIDTH) + e, BigEndian(s'.hasGaussian, FLAG_WIDTH) + e';
    var c, c' := BigEndian(s.position, POSITION_WIDTH) + d, BigEndian(s'.position, POSITION_WIDTH) + d';
    var b, b' := Framed(s.keyBytes) + c, Framed(s'.keyBytes) + c';
    var a, a' := Framed(s.algorithm) + b, Framed(s'.algorithm) + b';
    Regrouped(Framed(namespace), Framed(s.algorithm), Framed(s.keyBytes), BigEndian(s.position, POSITION_WIDTH),
              BigEndian(s.hasGaussian, FLAG_WIDTH), Framed(s.cachedGaussian), k);
    Regrouped(Framed(namespace'), Framed(s'.algorithm), Framed(s'.keyBytes), BigEndian(s'.position, POSITION_WIDTH),
              BigEndian(s'.hasGaussian, FLAG_WIDTH), Framed(s'.cachedGaussian), k');
    FrameReads(namespace, a, namespace', a');
    FrameReads(s.algorithm, b, s'.algorithm, b');
    FrameReads(s.keyBytes, c, s'.keyBytes, c');
    NumberReads(s.position, d, s'.position, d', POSITION_WIDTH);
    NumberReads(s.hasGaussian, e, s'.hasGaussian, e', FLAG_WIDTH);
    FrameReads(s.cachedGaussian, k, s'.cachedGaussian, k');
    KeysRead(keys, keys');
  }

  /** Reads a number with its largest byte first. */
  function Number(bytes: seq<Byte>): (r: nat) {
    if bytes == [] then 0 else 256 * Number(bytes[..|bytes| - 1]) + bytes[|bytes| - 1]
  }

  /** A number that fits its field is read back. */
  lemma {:induction false} NumberReadsBack(n: nat, width: nat)
    requires Fits(n, width)
    ensures Number(BigEndian(n, width)) == n
  {
    if width > 0 {
      NumberReadsBack(n / 256, width - 1);
      assert BigEndian(n, width)[..width - 1] == BigEndian(n / 256, width - 1);
    }
  }

  /** A text of the stream comes after eight bytes with its length, the largest first. */
  lemma FrameLayout(bytes: seq<Byte>)
    requires Fits(|bytes|, 8)
    ensures |Framed(bytes)| == 8 + |bytes| && Framed(bytes)[8..] == bytes && Number(Framed(bytes)[..8]) == |bytes|
  {
    NumberReadsBack(|bytes|, 8);
    assert Framed(bytes)[..8] == BigEndian(|bytes|, 8);
  }

  // ----- hashing and seeding -----

  /** The digest and the generator are any functions of their input. */
  datatype Primitives = Primitives(digest: seq<Byte> -> nat, seeded: nat -> int)

  /** The largest 32-bit signed integer. */
  const SEED_LIMIT: nat := 0x7FFF_FFFF

  class Hasher {
    var absorbed: seq<Byte>

    constructor (absorbed: seq<Byte>)
      ensures this.absorbed == absorbed
    {
      this.absorbed := absorbed;
    }

    method Update(bytes: seq<Byte>)
      modifies this
      ensures absorbed == old(absorbed) + bytes
    {
      absorbed := absorbed + bytes;
    }

    method UpdateText(text: seq<Byte>)
      modifies this
      ensures absorbed == old(absorbed) + Framed(text)
    {
      Update(BigEndian(|text|, LENGTH_WIDTH));
      Update(text);
    }

    method Copy() returns (copy: Hasher)
      ensures fresh(copy) && copy.absorbed == absorbed
    {
      copy := new Hasher(absorbed);
    }
  }

  /** A generator whose state is replaced when it is seeded again. */
  class RandomState {
    var state: int

    constructor (p: Primitives, seed: nat)
      ensures state == p.seeded(seed)
    {
      state := p.seeded(seed);
    }

    method Seed(p: Primitives, seed: nat)
      modifies this
      ensures state == p.seeded(seed)
    {
      state := p.seeded(seed);
    }
  }

  function DerivedSeed(p: Primitives, namespace: seq<Byte>, s: Snapshot, keys: seq<seq<Byte>>): (r: nat) {
    p.digest(Stream(namespace, s, keys)) % SEED_LIMIT
  }

  /** `None` for an empty namespace. */
  function Derived(p: Primitives, namespace: seq<Byte>, s: Snapshot, keys: seq<seq<Byte>>): (r: Option<int>) {
    if namespace == [] then None else Some(p.seeded(DerivedSeed(p, namespace, s, keys)))
  }

  /** Seeds are the numbers below the largest 32-bit signed integer, and each of them
      is one for some digest. */
  lemma SeedsInRange(p: Primitives, namespace: seq<Byte>, s: Snapshot, keys: seq<seq<Byte>>, n: nat)
    ensures DerivedSeed(p, namespace, s, keys) < 2147483647
    ensures n < 2147483647 ==> DerivedSeed(p.(digest := _ => n), namespace, s, keys) == n
  {
  }

  /** Nothing that goes into a derivation is ignored: two derivations that differ in
      anything are told apart by some digest, whatever the generator does with the seed. */
  lemma DerivationsDiffer(seeded: nat -> int, namespace: seq<Byte>, s: Snapshot, keys: seq<seq<Byte>>,
                          namespace': seq<Byte>, s': Snapshot, keys': seq<seq<Byte>>) returns (p: Primitives)
    requires FramesFit(namespace, s, keys) && FramesFit(namespace', s', keys')
    requires namespace != [] && namespace' != []
    requires namespace != namespace' || s != s' || keys != keys'
    ensures p.seeded == seeded && DerivedSeed(p, namespace, s, keys) == 0 && DerivedSeed(p, namespace', s', keys') == 1
    ensures Derived(p, namespace, s, keys) == Some(seeded(0))
    ensures Derived(p, namespace', s', keys') == Some(seeded(1))
  {
    if Stream(namespace, s, keys) == Stream(namespace', s', keys') {
      StreamIsInjective(namespace, s, keys, namespace', s', keys');
    }
    p := Primitives(bytes => if bytes == Stream(namespace, s, keys) then 0 else 1, seeded);
  }

  method DerivationPrefix(namespace: seq<Byte>, s: Snapshot) returns (r: Option<Hasher>)
    ensures r.None? <==> namespace == []
    ensures r.Some? ==> fresh(r.value) && r.value.absorbed == Prefix(namespace, s)
  {
    if |namespace| == 0 {
      return None;
    }
    var hasher := new Hasher([]);
    hasher.UpdateText(namespace);
    hasher.UpdateText(s.algorithm);
    ghost var before := hasher.absorbed;
    hasher.Update(BigEndian(|s.keyBytes|, LENGTH_WIDTH));
    hasher.Update(s.keyBytes);
    assert hasher.absorbed == before + Framed(s.keyBytes);
    hasher.Update(BigEndian(s.position, POSITION_WIDTH));
    hasher.Update(BigEndian(s.hasGaussian, FLAG_WIDTH));
    hasher.UpdateText(s.cachedGaussian);
    return Some(hasher);
  }

  /** The prefix is copied, so that it serves every child. */
  method DerivedRandomSeed(p: Primitives, prefix: Hasher, keys: seq<seq<Byte>>) returns (seed: nat)
    ensures seed == p.digest(prefix.absorbed + FramedAll(keys)) % SEED_LIMIT
  {
    var hasher := prefix.Copy();
    for k := 0 to |keys|
      invariant fresh(hasher)
      invariant hasher.absorbed + FramedAll(keys[k..]) == prefix.absorbed + FramedAll(keys)
    {
      assert keys[k..][1..] == keys[k + 1..];
      ghost var before := hasher.absorbed;
      hasher.UpdateText(keys[k]);
      assert before + (Framed(keys[k]) + FramedAll(keys[k + 1..])) == hasher.absorbed + FramedAll(keys[k + 1..]);
    }
    assert FramedAll(keys[|keys|..]) == [];
    assert hasher.absorbed == prefix.absorbed + FramedAll(keys);
    seed := p.digest(hasher.absorbed) % SEED_LIMIT;
  }

  method DeriveSnapshot(p: Primitives, s: Snapshot, namespace: seq<Byte>, keys: seq<seq<Byte>>)
    returns (r: Option<int>)
    ensures r == Derived(p, namespace, s, keys)
  {
    var prefix := DerivationPrefix(namespace, s);
    if prefix.None? {
      return None;
    }
    var seed := DerivedRandomSeed(p, prefix.value, keys);
    return Some(p.seeded(seed));
  }

  /** Children derived together, with one generator seeded again and again, are the
      ones derived each on its own; an empty namespace is refused even for none. */
  method DeriveSnapshots(p: Primitives, s: Snapshot, namespace: seq<Byte>, keyGroups: seq<seq<seq<Byte>>>)
    returns (r: Option<seq<int>>)
    ensures r.None? <==> namespace == []
    ensures r.Some? ==> |r.value| == |keyGroups|
    ensures r.Some? ==> forall k :: 0 <= k < |keyGroups| ==> Some(r.value[k]) == Derived(p, namespace, s, keyGroups[k])
  {
    var prefix := DerivationPrefix(namespace, s);
    if prefix.None? {
      return None;
    }
    var randomState: RandomState? := null;
    var snapshots: seq<int> := [];
    for k := 0 to |keyGroups|
      invariant prefix.value.absorbed == Prefix(namespace, s)
      invariant randomState == null || fresh(randomState)
      invariant |snapshots| == k
      invariant forall j :: 0 <= j < k ==> Some(snapshots[j]) == Derived(p, namespace, s, keyGroups[j])
    {
      var seed := DerivedRandomSeed(p, prefix.value, keyGroups[k]);
      if randomState == null {
        randomState := new RandomState(p, seed);
      } else {
        randomState.Seed(p, seed);
      }
      snapshots := snapshots + [randomState.state];
    }
    return Some(snapshots);
  }
}
