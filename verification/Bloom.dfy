/** The Bloom filter (internal/domain/bloom_filter.go): 64-bit wrap-around hashing into an
    array of words, and its byte encoding. */
module Bloom {
  import opened Text

  type Key = seq<bv8>

  const TWO64: nat := 0x1_0000_0000_0000_0000

  /** A filter as a value: `m` bits and `numHash` probes over 64-bit words. */
  datatype Filter = Filter(m: nat, numHash: nat, words: seq<bv64>)

  /** The word count, with Go's wrap-around of m + 63. */
  function WordCount(m: nat): nat { ((m + 63) % TWO64) / 64 }

  /** At least one bit, and a word for each bit. */
  ghost predicate Sized(f: Filter) {
    f.m >= 1 && |f.words| == (f.m + 63) / 64
  }

  /** What adding and asking need: a filter without probes never looks at its words. */
  ghost predicate Ready(f: Filter) {
    f.numHash == 0 || Sized(f)
  }

  // ------------------------------------------------------------------------- hashing

  function FnvStep(h: bv64, b: bv8): bv64 { Spread(Fed(h, b)) }

  function Fed(h: bv64, b: bv8): bv64 { Xor(h, b as bv64) }

  function Xor(h: bv64, g: bv64): bv64 { h ^ g }

  /** Multiplication by the FNV prime. */
  function Spread(h: bv64): bv64 { h * 1099511628211 }

  function Fnv(data: Key): bv64 {
    if data == [] then 14695981039346656037 else FnvStep(Fnv(data[..|data| - 1]), data[|data| - 1])
  }

  function Shuffle(h: bv64): bv64 { (h >> 33) ^ h }

  function First(h: bv64): bv64 { h * 0xff51afd7ed558ccd }

  function Second(h: bv64): bv64 { h * 0xc4ceb9fe1a85ec53 }

  function Mix(h: bv64): bv64 { Shuffle(Second(Shuffle(First(Shuffle(h))))) }

  method Hash(data: Key) returns (h1: bv64, h2: bv64)
    ensures h1 == Fnv(data) && h2 == Mix(h1)
  {
    hide FnvStep, Shuffle;
    h1 := 14695981039346656037;
    for i := 0 to |data|
      invariant h1 == Fnv(data[..i])
    {
      assert data[..i + 1][..i] == data[..i];
      h1 := FnvStep(h1, data[i]);
    }
    assert data[..|data|] == data;
    h2 := Mix(h1);
  }

  /** Published values of FNV-1a: the offset basis, and the hashes of "a" and "foobar". */
  lemma FnvValues()
    ensures Fnv([]) == 0xcbf29ce484222325
    ensures Fnv([0x61]) == 0xaf63dc4c8601ec8c
    ensures Fnv([0x66, 0x6f, 0x6f, 0x62, 0x61, 0x72]) == 0x85944171f73967e8
  {
    hide FnvStep;
    var foobar: Key := [0x66, 0x6f, 0x6f, 0x62, 0x61, 0x72];
    StepValues();
    FnvPrefix(foobar, 1);
    FnvPrefix(foobar, 2);
    FnvPrefix(foobar, 3);
    FnvPrefix(foobar, 4);
    FnvPrefix(foobar, 5);
    FnvPrefix(foobar, 6);
    assert foobar[..0] == [] && foobar[..6] == foobar;
    var a: Key := [0x61];
    FnvPrefix(a, 1);
    assert a[..0] == [] && a[..1] == a;
  }

  lemma StepValues()
    ensures FnvStep(0xcbf29ce484222325, 0x61) == 0xaf63dc4c8601ec8c
    ensures FnvStep(0xcbf29ce484222325, 0x66) == 0xaf63db4c8601ead9
    ensures FnvStep(0xaf63db4c8601ead9, 0x6f) == 0x08985907b541d342
    ensures FnvStep(0x08985907b541d342, 0x6f) == 0xdcb27518fed9d577
    ensures FnvStep(0xdcb27518fed9d577, 0x62) == 0xdd120e790c2512af
    ensures FnvStep(0xdd120e790c2512af, 0x61) == 0xcac165afa2fef40a
    ensures FnvStep(0xcac165afa2fef40a, 0x72) == 0x85944171f73967e8
  {
  }

  lemma FnvPrefix(data: Key, n: nat)
    requires 1 <= n <= |data|
    ensures Fnv(data[..n]) == FnvStep(Fnv(data[..n - 1]), data[n - 1])
  {
    hide FnvStep;
    assert data[..n][..n - 1] == data[..n - 1];
  }

  /** Values of the second hash. */
  lemma MixValues()
    ensures Mix(0) == 0 && Mix(1) == 0xb456bcfc34c2cb2c && Mix(0xcbf29ce484222325) == 0xefd01f60ba992926
  {
  }

  /** The identity, as a name that keeps products apart for the prover. */
  function Same(h: bv64): bv64 { h }

  lemma SameApart()
    ensures forall a, b :: Same(a) == Same(b) ==> a == b
  {
  }

  lemma Products(h: bv64)
    ensures Same(Spread(h)) == Same(h * 1099511628211)
    ensures Same(First(h)) == Same(h * 0xff51afd7ed558ccd)
    ensures Same(Second(h)) == Same(h * 0xc4ceb9fe1a85ec53)
  {
    hide Same;
  }

  lemma SpreadApart(h: bv64, g: bv64)
    requires Same(h * 1099511628211) == Same(g * 1099511628211)
    ensures h == g
  {
    hide Same;
    SameApart();
  }

  lemma FirstApart(h: bv64, g: bv64)
    requires Same(h * 0xff51afd7ed558ccd) == Same(g * 0xff51afd7ed558ccd)
    ensures h == g
  {
    hide Same;
    SameApart();
  }

  lemma SecondApart(h: bv64, g: bv64)
    requires Same(h * 0xc4ceb9fe1a85ec53) == Same(g * 0xc4ceb9fe1a85ec53)
    ensures h == g
  {
    hide Same;
    SameApart();
  }

  /** The three multipliers are odd, so multiplying by them modulo 2^64 loses nothing. */
  lemma OddMultipliers(h: bv64, g: bv64)
    ensures Spread(h) == Spread(g) || First(h) == First(g) || Second(h) == Second(g) ==> h == g
  {
    hide Same, Spread, First, Second;
    Products(h);
    Products(g);
    if Spread(h) == Spread(g) { SpreadApart(h, g); }
    if First(h) == First(g) { FirstApart(h, g); }
    if Second(h) == Second(g) { SecondApart(h, g); }
  }

  lemma XorCancels(a: bv64, b: bv64)
    ensures (0 ^ a) ^ (a ^ b) == b
  {
  }

  lemma ShiftOut(h: bv64)
    ensures (h >> 33) >> 33 == 0
  {
  }

  lemma ShiftXor(a: bv64, b: bv64)
    ensures (a ^ b) >> 33 == (a >> 33) ^ (b >> 33)
  {
  }

  /** Shifting out more than half the word undoes itself. */
  lemma ShuffleTwice(h: bv64)
    ensures Shuffle(Shuffle(h)) == h
  {
    ShiftOut(h);
    ShiftXor(h >> 33, h);
    XorCancels(h >> 33, h);
  }

  /** A step of the hash loses nothing: with the byte the state before it, and with that
      state the byte, can be found again. */
  lemma StepInjective(h: bv64, b: bv8, g: bv64, c: bv8)
    requires FnvStep(h, b) == FnvStep(g, c)
    ensures h == g <==> b == c
  {
    hide Spread, First, Second, Fed;
    OddMultipliers(Fed(h, b), Fed(g, c));
    Widened(h, b, g, c);
  }

  lemma Widened(h: bv64, b: bv8, g: bv64, c: bv8)
    requires Fed(h, b) == Fed(g, c)
    ensures h == g <==> b == c
  {
    hide Xor;
    XorBack(h, b as bv64);
    XorBack(g, c as bv64);
    if b != c { WidenApart(b, c); }
  }

  lemma XorBack(h: bv64, g: bv64)
    ensures Xor(Xor(h, g), h) == g && Xor(Xor(h, g), g) == h
  {
  }

  lemma WidenApart(b: bv8, c: bv8)
    requires b != c
    ensures b as bv64 != c as bv64
  {
  }

  /** The second hash is a permutation of the first. */
  lemma MixInjective(h: bv64, g: bv64)
    requires Mix(h) == Mix(g)
    ensures h == g
  {
    hide Shuffle, Spread, First, Second;
    var a, b := Shuffle(h), Shuffle(g);
    ShuffleTwice(Second(Shuffle(First(a))));
    ShuffleTwice(Second(Shuffle(First(b))));
    OddMultipliers(Shuffle(First(a)), Shuffle(First(b)));
    ShuffleTwice(First(a));
    ShuffleTwice(First(b));
    OddMultipliers(a, b);
    ShuffleTwice(h);
    ShuffleTwice(g);
  }

  /** So keys of one length that differ in one byte have different hashes, both of them. */
  lemma {:induction false} OneByteApart(a: Key, b: Key, n: nat)
    requires |a| == |b| && n < |a| && a[n] != b[n]
    requires forall i :: 0 <= i < |a| && i != n ==> a[i] == b[i]
    ensures Fnv(a) != Fnv(b) && Mix(Fnv(a)) != Mix(Fnv(b))
    decreases |a|
  {
    hide FnvStep, Mix;
    var last := |a| - 1;
    if n == last {
      assert a[..last] == b[..last];
    } else {
      OneByteApart(a[..last], b[..last], n);
    }
    if Fnv(a) == Fnv(b) { StepInjective(Fnv(a[..last]), a[last], Fnv(b[..last]), b[last]); }
    if Mix(Fnv(a)) == Mix(Fnv(b)) { MixInjective(Fnv(a), Fnv(b)); }
  }

  function Unsigned(h: bv64): nat { h as nat }

  /** The i-th probe of a key, with unsigned 64-bit wrap-around. */
  function Probe(h1: bv64, h2: bv64, i: nat, m: nat): (pos: nat)
    requires m >= 1
    ensures pos < m
  {
    Slot(Unsigned(h1), Unsigned(h2), i) % m
  }

  function Slot(start: nat, step: nat, i: nat): nat { (start + i * step) % TWO64 }

  lemma SlotSteps(start: nat, step: nat, i: nat)
    ensures Slot(start, step, 0) == start % TWO64
    ensures Slot(start, step, i + 1) == (Slot(start, step, i) + step) % TWO64
    ensures Slot(start, step, i) % TWO64 == Slot(start, step, i)
  {
    assert start + (i + 1) * step == start + i * step + step;
    Wrap(start + i * step, step);
  }

  lemma Wrap(a: nat, b: nat)
    ensures (a + b) % TWO64 == (a % TWO64 + b) % TWO64
  {
  }

  /** The probes start at the first hash and advance by the second, modulo 2^64; only then
      are they reduced to the size of the filter. */
  lemma ProbeSteps(h1: bv64, h2: bv64, i: nat, m: nat)
    requires m >= 1
    ensures Probe(h1, h2, 0, TWO64) == Unsigned(h1) % TWO64
    ensures Probe(h1, h2, i + 1, TWO64) == (Probe(h1, h2, i, TWO64) + Unsigned(h2)) % TWO64
    ensures Probe(h1, h2, i, m) == Probe(h1, h2, i, TWO64) % m
  {
    hide Unsigned, Slot;
    SlotSteps(Unsigned(h1), Unsigned(h2), i);
    SlotSteps(Unsigned(h1), Unsigned(h2), i + 1);
  }

  function Position(key: Key, i: nat, m: nat): (pos: nat)
    requires m >= 1
    ensures pos < m
  {
    Probe(Fnv(key), Mix(Fnv(key)), i, m)
  }

  // ---------------------------------------------------------------------------- bits

  function Bit(j: nat): bv64
    requires j < 64
  {
    (1 as bv64) << (j as bv6)
  }

  predicate Hit(w: bv64, j: nat)
    requires j < 64
  {
    w & Bit(j) != 0
  }

  function With(w: bv64, j: nat): bv64
    requires j < 64
  {
    w | Bit(j)
  }

  predicate IsSet(words: seq<bv64>, pos: nat)
    requires pos / 64 < |words|
  {
    Hit(words[pos / 64], pos % 64)
  }

  function Set(words: seq<bv64>, pos: nat): seq<bv64>
    requires pos / 64 < |words|
  {
    words[pos / 64 := With(words[pos / 64], pos % 64)]
  }

  lemma ShiftIsBit(j: nat)
    requires j < 64
    ensures (j as bv6) as nat == j
  {
  }

  lemma ShiftNonZero(a: bv6)
    ensures (1 as bv64) << a != 0
  {
  }

  lemma ShiftsApart(a: bv6, b: bv6)
    requires a != b
    ensures ((1 as bv64) << a) & ((1 as bv64) << b) == 0
  {
  }

  lemma OrHits(w: bv64, b: bv64)
    requires b != 0
    ensures (w | b) & b != 0
  {
  }

  lemma OrApart(w: bv64, b: bv64, c: bv64)
    requires b & c == 0
    ensures (w | b) & c == w & c
  {
  }

  lemma OrSets(w: bv64, j: nat)
    requires j < 64
    ensures (w | Bit(j)) & Bit(j) != 0
  {
    ShiftNonZero(j as bv6);
    OrHits(w, Bit(j));
  }

  lemma BitsApart(j: nat, k: nat)
    requires j < 64 && k < 64 && j != k
    ensures Bit(j) & Bit(k) == 0
  {
    ShiftIsBit(j);
    ShiftIsBit(k);
    ShiftsApart(j as bv6, k as bv6);
  }

  lemma OrOther(w: bv64, j: nat, k: nat)
    requires j < 64 && k < 64 && j != k
    ensures (w | Bit(j)) & Bit(k) == w & Bit(k)
  {
    BitsApart(j, k);
    hide Bit;
    OrApart(w, Bit(j), Bit(k));
  }

  lemma WithHits(w: bv64, j: nat, k: nat)
    requires j < 64 && k < 64
    ensures Hit(With(w, j), k) <==> j == k || Hit(w, k)
  {
    hide Bit;
    if j == k { OrSets(w, j); } else { OrOther(w, j, k); }
  }

  /** Setting a bit sets exactly that bit. */
  lemma SetExactly(words: seq<bv64>, pos: nat, other: nat)
    requires pos / 64 < |words| && other / 64 < |words|
    ensures IsSet(Set(words, pos), other) <==> other == pos || IsSet(words, other)
  {
    hide Hit, With;
    if pos / 64 == other / 64 {
      WithHits(words[pos / 64], pos % 64, other % 64);
    }
  }

  // ------------------------------------------------------------------ the set it keeps

  predicate Contains(f: Filter, key: Key)
    requires Ready(f)
  {
    forall i :: 0 <= i < f.numHash ==> IsSet(f.words, Position(key, i, f.m))
  }

  /** The words after the first `n` probes of an addition. */
  function SetProbes(words: seq<bv64>, m: nat, key: Key, n: nat): (r: seq<bv64>)
    requires n == 0 || (m >= 1 && |words| == (m + 63) / 64)
    ensures |r| == |words|
  {
    if n == 0 then words
    else Set(SetProbes(words, m, key, n - 1), Position(key, n - 1, m))
  }

  function Added(f: Filter, key: Key): (r: Filter)
    requires Ready(f)
    ensures Ready(r) && r.m == f.m && r.numHash == f.numHash && |r.words| == |f.words|
  {
    f.(words := SetProbes(f.words, f.m, key, f.numHash))
  }

  /** A bit is set after an addition iff it was before or is a probe of the key. */
  lemma {:induction false} SetProbesExactly(words: seq<bv64>, m: nat, key: Key, n: nat, pos: nat)
    requires m >= 1 && |words| == (m + 63) / 64 && pos < m
    ensures IsSet(SetProbes(words, m, key, n), pos) <==>
              IsSet(words, pos) || exists i :: 0 <= i < n && pos == Position(key, i, m)
  {
    hide IsSet, Position, Set;
    if n > 0 {
      SetProbesExactly(words, m, key, n - 1, pos);
      SetExactly(SetProbes(words, m, key, n - 1), Position(key, n - 1, m), pos);
    }
  }

  function AddedAll(f: Filter, keys: seq<Key>): (r: Filter)
    requires Ready(f)
    ensures Ready(r) && r.m == f.m && r.numHash == f.numHash && |r.words| == |f.words|
  {
    if keys == [] then f else Added(AddedAll(f, keys[..|keys| - 1]), keys[|keys| - 1])
  }

  function Empty(m: nat, numHash: nat): Filter
    requires m >= 1
  {
    Filter(m, numHash, seq((m + 63) / 64, _ => 0 as bv64))
  }

  /** Some key has this position among its probes. */
  ghost predicate Probed(keys: seq<Key>, numHash: nat, m: nat, pos: nat)
    requires m >= 1
  {
    exists j, i :: 0 <= j < |keys| && 0 <= i < numHash && pos == Position(keys[j], i, m)
  }

  /** After any sequence of additions to an empty filter, the set bits are exactly the
      probes of the added keys. */
  lemma {:induction false} BitsAreProbes(m: nat, numHash: nat, keys: seq<Key>, pos: nat)
    requires 1 <= m && pos < m
    ensures IsSet(AddedAll(Empty(m, numHash), keys).words, pos) <==>
            Probed(keys, numHash, m, pos)
  {
    hide IsSet, Position, SetProbes;
    if keys == [] {
      EmptyUnset(m, numHash, pos);
    } else {
      var n := |keys| - 1;
      BitsAreProbes(m, numHash, keys[..n], pos);
      SetProbesExactly(AddedAll(Empty(m, numHash), keys[..n]).words, m, keys[n], numHash, pos);
    }
  }

  lemma EmptyUnset(m: nat, numHash: nat, pos: nat)
    requires 1 <= m && pos < m
    ensures !IsSet(Empty(m, numHash).words, pos)
  {
    hide Bit;
  }

  /** Membership refines the set of added keys: a key is accepted iff each of its probes is
      a probe of some added key.  In particular no added key is ever rejected. */
  lemma ContainsIffProbed(m: nat, numHash: nat, keys: seq<Key>, key: Key)
    requires 1 <= m
    ensures var f := AddedAll(Empty(m, numHash), keys);
            && (Contains(f, key) <==> forall i :: 0 <= i < numHash ==>
                 Probed(keys, numHash, m, Position(key, i, m)))
            && (key in keys ==> Contains(f, key))
  {
    hide IsSet, Position, AddedAll;
    var f := AddedAll(Empty(m, numHash), keys);
    forall i | 0 <= i < numHash
      ensures IsSet(f.words, Position(key, i, m)) <==>
              Probed(keys, numHash, m, Position(key, i, m))
    {
      BitsAreProbes(m, numHash, keys, Position(key, i, m));
    }
    if key in keys {
      var j :| 0 <= j < |keys| && keys[j] == key;
      forall i | 0 <= i < numHash ensures Probed(keys, numHash, m, Position(key, i, m)) {
        assert Position(keys[j], i, m) == Position(key, i, m);
      }
    }
  }

  /** Additions to any filter, a loaded one included, keep every key it accepts. */
  lemma {:induction false} AddsKeep(f: Filter, keys: seq<Key>, key: Key)
    requires Ready(f) && (Contains(f, key) || key in keys)
    ensures Contains(AddedAll(f, keys), key)
  {
    hide IsSet, Position, SetProbes;
    if keys != [] {
      var n := |keys| - 1;
      var before := AddedAll(f, keys[..n]);
      if Contains(f, key) || key in keys[..n] { AddsKeep(f, keys[..n], key); }
      assert key in keys ==> key in keys[..n] || key == keys[n];
      forall i | 0 <= i < f.numHash ensures IsSet(AddedAll(f, keys).words, Position(key, i, f.m)) {
        SetProbesExactly(before.words, f.m, keys[n], f.numHash, Position(key, i, f.m));
      }
    }
  }

  // ------------------------------------------------------------------------ encoding

  type Byte = n: nat | n < 256

  function Narrow(w: bv64): bv8 { (w & 0xff) as bv8 }

  /** Little-endian bytes of a word. */
  function PutWord(w: bv64): (r: seq<Byte>)
    ensures |r| == 8
  {
    [Value(Narrow(w)), Value(Narrow(w >> 8)), Value(Narrow(w >> 16)), Value(Narrow(w >> 24)),
     Value(Narrow(w >> 32)), Value(Narrow(w >> 40)), Value(Narrow(w >> 48)), Value(Narrow(w >> 56))]
  }

  function Value(b: bv8): Byte { b as nat }

  function FromByte(n: Byte): bv8 { n as bv8 }

  function Widen(n: Byte): bv64 { FromByte(n) as bv64 }

  function GetWord(b: seq<Byte>): bv64
    requires |b| == 8
  {
    Widen(b[0]) | (Widen(b[1]) << 8) | (Widen(b[2]) << 16) | (Widen(b[3]) << 24)
    | (Widen(b[4]) << 32) | (Widen(b[5]) << 40) | (Widen(b[6]) << 48) | (Widen(b[7]) << 56)
  }

  /** The low byte of a word comes first. */
  lemma ByteOrder()
    ensures PutWord(0x0807060504030201) == [1, 2, 3, 4, 5, 6, 7, 8]
  {
  }

  lemma ByteKept(b: bv8)
    ensures FromByte(Value(b)) == b
  {
  }

  lemma SlicesRebuild(w: bv64)
    ensures w == (Narrow(w) as bv64) | ((Narrow(w >> 8) as bv64) << 8) 
                 | ((Narrow(w >> 16) as bv64) << 16) | ((Narrow(w >> 24) as bv64) << 24)
                 | ((Narrow(w >> 32) as bv64) << 32) | ((Narrow(w >> 40) as bv64) << 40)
                 | ((Narrow(w >> 48) as bv64) << 48) | ((Narrow(w >> 56) as bv64) << 56)
  {
  }

  lemma WordRoundTrip(w: bv64)
    ensures GetWord(PutWord(w)) == w
  {
    hide FromByte, Value, Narrow;
    ByteKept(Narrow(w));
    ByteKept(Narrow(w >> 8));
    ByteKept(Narrow(w >> 16));
    ByteKept(Narrow(w >> 24));
    ByteKept(Narrow(w >> 32));
    ByteKept(Narrow(w >> 40));
    ByteKept(Narrow(w >> 48));
    ByteKept(Narrow(w >> 56));
    SlicesRebuild(w);
  }

  function PutWords(ws: seq<bv64>): (r: seq<Byte>)
    ensures |r| == 8 * |ws|
  {
    if ws == [] then [] else PutWords(ws[..|ws| - 1]) + PutWord(ws[|ws| - 1])
  }

  /** Little-endian bytes of the header fields. */
  function PutUint(n: nat, width: nat): (r: seq<Byte>)
    ensures |r| == width
  {
    if width == 0 then [] else [n % 256] + PutUint(n / 256, width - 1)
  }

  function GetUint(b: seq<Byte>): nat {
    if b == [] then 0 else b[0] + 256 * GetUint(b[1..])
  }

  function Range(width: nat): nat { if width == 0 then 1 else 256 * Range(width - 1) }

  lemma {:induction false} UintRoundTrip(n: nat, width: nat)
    requires n < Range(width)
    ensures GetUint(PutUint(n, width)) == n
  {
    if width > 0 {
      UintRoundTrip(n / 256, width - 1);
      assert PutUint(n, width)[1..] == PutUint(n / 256, width - 1);
    }
  }

  /** Byte `i` of a header field holds the bits from 8 * i on. */
  lemma {:induction false} UintBytes(n: nat, width: nat, i: nat)
    requires i < width
    ensures Range(i) > 0 && PutUint(n, width)[i] == n / Range(i) % 256
  {
    if i > 0 {
      UintBytes(n / 256, width - 1, i - 1);
      DivTwice(n, Range(i - 1));
    }
  }

  lemma DivTwice(n: nat, r: nat)
    requires r > 0
    ensures n / 256 / r == n / (256 * r)
  {
    var q := n / 256 / r;
    var a, b := n / 256 % r, n % 256;
    assert n == 256 * (q * r + a) + b;
    assert 256 * (q * r + a) + b == q * (256 * r) + (256 * a + b);
    assert 256 * a + b < 256 * r;
    QuotientUnique(n, 256 * r, q, 256 * a + b);
  }

  lemma QuotientUnique(n: nat, d: nat, q: nat, r: nat)
    requires d > 0 && n == q * d + r && r < d
    ensures n / d == q
  {
    NoGap(d, n / d, n % d, q, r);
    NoGap(d, q, r, n / d, n % d);
  }

  lemma NoGap(d: nat, k: nat, s: nat, q: nat, r: nat)
    requires k * d + s == q * d + r && s < d
    ensures q <= k
  {
    Gap(d, k, q);
  }

  lemma Gap(d: nat, k: nat, q: nat)
    ensures k < q ==> q * d >= k * d + d
  {
    if k < q {
      var t := q - k - 1;
      assert q * d == k * d + d + t * d;
    }
  }

  lemma {:induction false} UintBound(b: seq<Byte>)
    ensures GetUint(b) < Range(|b|)
  {
    if b != [] { UintBound(b[1..]); }
  }

  lemma EightBytes()
    ensures Range(8) == TWO64
  {
    assert Range(4) == 0x1_0000_0000;
  }

  function Encoded(f: Filter): seq<Byte> {
    PutUint(f.m, 8) + PutUint(f.numHash, 8) + PutWords(f.words)
  }

  function Decoded(data: seq<Byte>): Option<Filter> {
    if |data| < 16 then None
    else
      var m, k := GetUint(data[0..8]), GetUint(data[8..16]);
      if |data| < 16 + WordCount(m) * 8 then None
      else Some(Filter(m, k,
          seq(WordCount(m), i requires 0 <= i < WordCount(m) => GetWord(data[16 + i * 8..24 + i * 8]))))
  }

  lemma {:induction false} WordsAt(ws: seq<bv64>, i: nat)
    requires i < |ws|
    ensures PutWords(ws)[i * 8..i * 8 + 8] == PutWord(ws[i])
  {
    hide PutWord;
    var n := |ws| - 1;
    if i < n {
      WordsAt(ws[..n], i);
      assert PutWords(ws)[i * 8..i * 8 + 8] == PutWords(ws[..n])[i * 8..i * 8 + 8];
    }
  }

  /** The fields fit 64 bits, and there are as many words as the word count says. */
  ghost predicate Encodable(f: Filter) {
    f.m < TWO64 && f.numHash < TWO64 && |f.words| == WordCount(f.m)
  }

  /** Saving and loading gives back the filter, whatever follows the encoding, so that it
      never introduces a false negative. */
  lemma SaveLoad(f: Filter, trailing: seq<Byte>)
    requires Encodable(f)
    ensures Decoded(Encoded(f) + trailing) == Some(f)
  {
    hide PutWord, GetWord, PutWords, WordCount, PutUint, GetUint;
    var data := Encoded(f) + trailing;
    assert data[0..8] == PutUint(f.m, 8);
    assert data[8..16] == PutUint(f.numHash, 8);
    EightBytes();
    UintRoundTrip(f.m, 8);
    UintRoundTrip(f.numHash, 8);
    forall i | 0 <= i < |f.words| ensures GetWord(data[16 + i * 8..24 + i * 8]) == f.words[i] {
      WordsAt(f.words, i);
      assert data[16 + i * 8..24 + i * 8] == PutWords(f.words)[i * 8..i * 8 + 8];
      WordRoundTrip(f.words[i]);
    }
    assert Decoded(data).value.words == f.words;
  }

  /** Truncated data is refused: no proper prefix of an encoding decodes. */
  lemma TruncatedRefused(f: Filter, n: nat)
    requires Encodable(f) && n < |Encoded(f)|
    ensures Decoded(Encoded(f)[..n]) == None
  {
    hide PutWord, GetWord, PutWords, WordCount, PutUint, GetUint;
    if n >= 16 {
      var data := Encoded(f)[..n];
      assert data[0..8] == PutUint(f.m, 8);
      EightBytes();
      UintRoundTrip(f.m, 8);
    }
  }

  /** Neither adding nor asking ever divides by zero or looks past the words. */
  ghost predicate Usable(f: Filter) {
    forall key: Key, i: nat :: i < f.numHash ==> ProbeInRange(f, key, i)
  }

  predicate ProbeInRange(f: Filter, key: Key, i: nat) {
    f.m >= 1 && Position(key, i, f.m) / 64 < |f.words|
  }

  /** Which loaded filters can be used: those without probes, and those whose size field is
      neither zero nor so large that the word count wraps around. */
  lemma LoadedUsableIff(data: seq<Byte>)
    requires Decoded(data).Some?
    ensures var f := Decoded(data).value;
            && (Usable(f) <==> f.numHash == 0 || (1 <= f.m && f.m + 63 < TWO64))
            && (Usable(f) <==> Ready(f))
  {
    hide GetWord, GetUint, Position, WordCount, ProbeInRange;
    var f := Decoded(data).value;
    UintBound(data[0..8]);
    EightBytes();
    WordCountOf(f.m);
    if Sized(f) { SizedUsable(f); }
    if Usable(f) && f.numHash > 0 { FirstProbe(f); }
  }

  lemma WordCountOf(m: nat)
    requires m < TWO64
    ensures WordCount(m) == if m + 63 < TWO64 then (m + 63) / 64 else 0
  {
  }

  lemma SizedUsable(f: Filter)
    requires Sized(f)
    ensures Usable(f)
  {
    hide Position;
    forall key: Key, i: nat | i < f.numHash ensures ProbeInRange(f, key, i) {
      WordInRange(Position(key, i, f.m), f.m);
    }
  }

  lemma FirstProbe(f: Filter)
    requires Usable(f) && f.numHash > 0
    ensures f.m >= 1 && |f.words| > 0
  {
    hide Position;
    assert ProbeInRange(f, [], 0);
  }

  lemma WordInRange(pos: nat, m: nat)
    requires pos < m
    ensures pos / 64 < (m + 63) / 64
  {
  }

  /** Both kinds of bad size have encodings that load without an error. */
  lemma UnusableLoads(m: nat, numHash: nat)
    requires m == 0 || TWO64 <= m + 63 < TWO64 + 63
    requires 1 <= numHash < TWO64
    ensures Decoded(Encoded(Filter(m, numHash, []))) == Some(Filter(m, numHash, []))
    ensures !Usable(Filter(m, numHash, []))
  {
    hide Encoded, Decoded;
    var f := Filter(m, numHash, []);
    SaveLoad(f, []);
    assert Encoded(f) + [] == Encoded(f);
    LoadedUsableIff(Encoded(f));
  }

  // --------------------------------------------------------------------- the program

  class BloomFilter {
    const bits: array<bv64>
    const numHash: nat
    const m: nat

    ghost function AsFilter(): Filter
      reads bits
    {
      Filter(m, numHash, bits[..])
    }

    constructor (m: nat, numHash: nat)
      requires 1 <= m && m + 63 < TWO64
      ensures AsFilter() == Empty(m, numHash) && fresh(bits)
    {
      var words := (m + 63) / 64;
      this.m, this.numHash := m, numHash;
      bits := new bv64[words](_ => 0 as bv64);
    }

    constructor FromWords(m: nat, numHash: nat, words: seq<bv64>)
      ensures AsFilter() == Filter(m, numHash, words) && fresh(bits)
    {
      this.m, this.numHash := m, numHash;
      bits := new bv64[|words|](i requires 0 <= i < |words| => words[i]);
    }

    method Add(key: Key)
      requires Ready(AsFilter())
      modifies bits
      ensures AsFilter() == Added(old(AsFilter()), key)
    {
      hide Hit, With, Probe;
      var h1, h2 := Hash(key);
      for i := 0 to numHash
        invariant bits[..] == SetProbes(old(bits[..]), m, key, i)
      {
        var pos := Probe(h1, h2, i, m);
        bits[pos / 64] := With(bits[pos / 64], pos % 64);
      }
    }

    method MayContain(key: Key) returns (r: bool)
      requires Ready(AsFilter())
      ensures r <==> Contains(AsFilter(), key)
    {
      hide Hit, With, Probe;
      var h1, h2 := Hash(key);
      for i := 0 to numHash
        invariant forall j :: 0 <= j < i ==> IsSet(bits[..], Position(key, j, m))
      {
        var pos := Probe(h1, h2, i, m);
        assert pos == Position(key, i, m);
        if !Hit(bits[pos / 64], pos % 64) {
          assert !IsSet(bits[..], Position(key, i, m));
          return false;
        }
      }
      r := true;
    }

    method MarshalBinary() returns (data: seq<Byte>)
      ensures data == Encoded(AsFilter())
    {
      hide PutWord, PutUint;
      var body: seq<Byte> := [];
      for i := 0 to bits.Length
        invariant body == PutWords(bits[..i])
      {
        assert bits[..i + 1][..i] == bits[..i];
        body := body + PutWord(bits[i]);
      }
      assert bits[..bits.Length] == bits[..];
      data := PutUint(m, 8) + PutUint(numHash, 8) + body;
    }
  }

  method UnmarshalBloomFilter(data: seq<Byte>) returns (r: Option<BloomFilter>)
    ensures r.Some? <==> Decoded(data).Some?
    ensures r.Some? ==> r.value.AsFilter() == Decoded(data).value && fresh(r.value) && fresh(r.value.bits)
  {
    hide GetWord, WordCount, GetUint;
    if |data| < 16 { return None; }
    var m, k := GetUint(data[0..8]), GetUint(data[8..16]);
    var n := WordCount(m);
    if |data| < 16 + n * 8 { return None; }
    var words: seq<bv64> := [];
    for i := 0 to n
      invariant |words| == i && forall j :: 0 <= j < i ==> words[j] == GetWord(data[16 + j * 8..24 + j * 8])
    {
      words := words + [GetWord(data[16 + i * 8..24 + i * 8])];
    }
    assert words == Decoded(data).value.words;
    var f := new BloomFilter.FromWords(m, k, words);
    r := Some(f);
  }
}
