/** The seeded generator (SplitMix64, crates/propsim-sim/src/rng.rs): its output function is a
    permutation of the 64-bit words, its state runs through all of them, and so the seeds derived
    for distinct run indices are distinct. */
module Rng {
  import opened Ops

  const GOLDEN: u64 := 0x9E37_79B9_7F4A_7C15
  const MUL_1: u64 := 0xBF58_476D_1CE4_E5B9
  const MUL_2: u64 := 0x94D0_49BB_1331_11EB

  // The inverses of the three odd constants modulo 2^64.
  const GOLDEN_INV: u64 := 0xF1DE_83E1_9937_733D
  const INV_1: u64 := 0x96DE_1B17_3F11_9089
  const INV_2: u64 := 0x3196_42B2_D24D_8EC3

  const SALT: u64 := 0x5EED_0000

  // ----- Words: exclusive or, shifts, wrapping arithmetic -----

  /** Bitwise exclusive or. */
  function Xor(a: nat, b: nat): nat {
    if a == 0 then b
    else if b == 0 then a
    else (a + b) % 2 + 2 * Xor(a / 2, b / 2)
  }

  function Pow2(k: nat): (p: nat)
    ensures p > 0
  {
    if k == 0 then 1 else 2 * Pow2(k - 1)
  }

  /** `z >> k`. */
  function Shift(z: nat, k: nat): (r: nat)
    ensures r <= z
  {
    if k == 0 then z else Shift(z / 2, k - 1)
  }

  lemma XorStep(a: nat, b: nat)
    ensures Xor(a, b) == (a + b) % 2 + 2 * Xor(a / 2, b / 2)
  {
  }

  lemma LowBit(low: nat, high: nat)
    requires low < 2
    ensures (low + 2 * high) % 2 == low && (low + 2 * high) / 2 == high
  {
  }

  lemma XorParts(a: nat, b: nat)
    ensures Xor(a, b) % 2 == (a + b) % 2 && Xor(a, b) / 2 == Xor(a / 2, b / 2)
  {
    XorStep(a, b);
    LowBit((a + b) % 2, Xor(a / 2, b / 2));
  }

  lemma Parity(x: nat, y: nat, c: nat)
    requires x % 2 == y % 2
    ensures (x + c) % 2 == (y + c) % 2
  {
  }

  lemma XorWith(x: nat, c: nat, low: nat, high: nat)
    requires x % 2 == low % 2 && x / 2 == high
    ensures Xor(x, c) == (low + c) % 2 + 2 * Xor(high, c / 2)
    ensures Xor(c, x) == (low + c) % 2 + 2 * Xor(c / 2, high)
  {
    XorStep(x, c);
    XorStep(c, x);
    Parity(x, low, c);
  }

  lemma {:induction false} XorAssociates(a: nat, b: nat, c: nat)
    ensures Xor(Xor(a, b), c) == Xor(a, Xor(b, c))
    decreases a + b + c
  {
    if a == 0 || b == 0 || c == 0 {
    } else {
      XorAssociates(a / 2, b / 2, c / 2);
      XorParts(a, b);
      XorParts(b, c);
      XorWith(Xor(a, b), c, a + b, Xor(a / 2, b / 2));
      XorWith(Xor(b, c), a, b + c, Xor(b / 2, c / 2));
    }
  }

  lemma {:induction false} XorSelf(a: nat)
    ensures Xor(a, a) == 0
  {
    if a == 0 {
    } else {
      XorSelf(a / 2);
    }
  }

  lemma XorTwice(a: nat, b: nat)
    ensures Xor(Xor(a, b), b) == a
  {
    XorAssociates(a, b, b);
    XorSelf(b);
  }

  lemma {:induction false} XorBounded(a: nat, b: nat, k: nat)
    requires a < Pow2(k) && b < Pow2(k)
    ensures Xor(a, b) < Pow2(k)
  {
    if k == 0 {
    } else {
      XorBounded(a / 2, b / 2, k - 1);
      XorStep(a, b);
    }
  }

  lemma {:induction false} ShiftXor(a: nat, b: nat, k: nat)
    ensures Shift(Xor(a, b), k) == Xor(Shift(a, k), Shift(b, k))
  {
    if k == 0 {
    } else {
      XorParts(a, b);
      ShiftXor(a / 2, b / 2, k - 1);
    }
  }

  lemma {:induction false} ShiftShift(z: nat, j: nat, k: nat)
    ensures Shift(Shift(z, j), k) == Shift(z, j + k)
  {
    if j == 0 {
    } else {
      ShiftShift(z / 2, j - 1, k);
    }
  }

  lemma {:induction false} ShiftOut(z: nat, k: nat)
    requires z < Pow2(k)
    ensures Shift(z, k) == 0
  {
    if k == 0 {
    } else {
      ShiftOut(z / 2, k - 1);
    }
  }

  lemma {:induction false} ShiftZero(k: nat)
    ensures Shift(0, k) == 0
  {
    if k == 0 {
    } else {
      ShiftZero(k - 1);
    }
  }

  lemma {:induction false} Pow2Adds(j: nat, k: nat)
    ensures Pow2(j + k) == Pow2(j) * Pow2(k)
  {
    if j == 0 {
    } else {
      Pow2Adds(j - 1, k);
    }
  }

  lemma WordWidth()
    ensures Pow2(64) == TWO_64
  {
    assert Pow2(8) == 0x100;
    Pow2Adds(8, 8);
    Pow2Adds(16, 16);
    Pow2Adds(32, 32);
  }

  function WrappingAdd(a: u64, b: u64): u64 {
    (a + b) % TWO_64
  }

  function WrappingMul(a: u64, b: u64): u64 {
    (a * b) % TWO_64
  }

  lemma XorWords(a: u64, b: nat)
    requires b < TWO_64
    ensures Xor(a, b) < TWO_64
  {
    WordWidth();
    XorBounded(a, b, 64);
  }

  /** `z ^ (z >> k)`. */
  function XorShift(z: u64, k: nat): u64 {
    XorWords(z, Shift(z, k));
    Xor(z, Shift(z, k))
  }

  // ----- The output function and its inverse -----

  function Mix(z: u64): u64 {
    XorShift(WrappingMul(XorShift(WrappingMul(XorShift(z, 30), MUL_1), 27), MUL_2), 31)
  }

  /** Undoes a shift by at least a third of the word. */
  function UnXorShift(z: u64, k: nat): u64 {
    XorWords(z, Shift(z, k));
    XorWords(Xor(z, Shift(z, k)), Shift(z, 2 * k));
    Xor(Xor(z, Shift(z, k)), Shift(z, 2 * k))
  }

  function Unmix(z: u64): u64 {
    UnXorShift(WrappingMul(UnXorShift(WrappingMul(UnXorShift(z, 31), INV_2), 27), INV_1), 30)
  }

  /** Shifting a word out of three times leaves nothing. */
  lemma ThirdShift(z: u64, k: nat)
    requires 3 * k >= 64
    ensures Shift(z, 3 * k) == 0
  {
    WordWidth();
    ShiftOut(z, 64);
    ShiftShift(z, 64, 3 * k - 64);
    ShiftZero(3 * k - 64);
  }

  lemma XorShiftUndone(z: u64, k: nat)
    requires 3 * k >= 64
    ensures UnXorShift(XorShift(z, k), k) == z
  {
    var s1, s2, s3 := Shift(z, k), Shift(z, 2 * k), Shift(z, 3 * k);
    ThirdShift(z, k);
    ShiftXor(z, s1, k);
    ShiftShift(z, k, k);
    ShiftXor(z, s1, 2 * k);
    ShiftShift(z, k, 2 * k);
    // z ^ s1 ^ (s1 ^ s2) ^ (s2 ^ s3)
    XorAssociates(Xor(z, s1), s1, s2);
    XorTwice(z, s1);
    XorTwice(z, s2);
  }

  lemma XorShiftRedone(z: u64, k: nat)
    requires 3 * k >= 64
    ensures XorShift(UnXorShift(z, k), k) == z
  {
    var s1, s2, s3 := Shift(z, k), Shift(z, 2 * k), Shift(z, 3 * k);
    ThirdShift(z, k);
    ShiftXor(Xor(z, s1), s2, k);
    ShiftXor(z, s1, k);
    ShiftShift(z, k, k);
    ShiftShift(z, 2 * k, k);
    // (z ^ s1 ^ s2) ^ (s1 ^ s2 ^ s3)
    XorAssociates(z, s1, s2);
    XorTwice(z, Xor(s1, s2));
  }

  lemma ModUnique(x: int, k: int, r: u64)
    requires x == k * TWO_64 + r
    ensures x % TWO_64 == r
  {
  }

  /** Multiplying by an odd constant is undone by multiplying by its inverse. */
  lemma MulUndone(z: nat, m: u64, inv: u64)
    requires (m * inv) % TWO_64 == 1
    ensures (((z * m) % TWO_64) * inv) % TWO_64 == z % TWO_64
  {
    var q, r := z * m / TWO_64, (z * m) % TWO_64;
    var p := m * inv / TWO_64;
    var y := z / TWO_64;
    assert r * inv == (z * p + y - q * inv) * TWO_64 + z % TWO_64 by {
      assert r == z * m - q * TWO_64;
      assert r * inv == z * m * inv - q * TWO_64 * inv;
      assert z * m * inv == z * (m * inv);
      assert z * (p * TWO_64 + 1) == z * p * TWO_64 + z;
    }
    ModUnique(r * inv, z * p + y - q * inv, z % TWO_64);
  }

  lemma Factors(z: u64)
    ensures WrappingMul(WrappingMul(z, MUL_1), INV_1) == z && WrappingMul(WrappingMul(z, INV_1), MUL_1) == z
    ensures WrappingMul(WrappingMul(z, MUL_2), INV_2) == z && WrappingMul(WrappingMul(z, INV_2), MUL_2) == z
  {
    MulUndone(z, MUL_1, INV_1);
    MulUndone(z, INV_1, MUL_1);
    MulUndone(z, MUL_2, INV_2);
    MulUndone(z, INV_2, MUL_2);
  }

  lemma MixUndone(z: u64)
    ensures Unmix(Mix(z)) == z
  {
    var a := XorShift(z, 30);
    var b := WrappingMul(a, MUL_1);
    var c := XorShift(b, 27);
    var d := WrappingMul(c, MUL_2);
    assert UnXorShift(Mix(z), 31) == d by { XorShiftUndone(d, 31); }
    assert WrappingMul(d, INV_2) == c by { Factors(c); }
    assert UnXorShift(c, 27) == b by { XorShiftUndone(b, 27); }
    assert WrappingMul(b, INV_1) == a by { Factors(a); }
    assert UnXorShift(a, 30) == z by { XorShiftUndone(z, 30); }
  }

  lemma MixRedone(z: u64)
    ensures Mix(Unmix(z)) == z
  {
    var a := UnXorShift(z, 31);
    var b := WrappingMul(a, INV_2);
    var c := UnXorShift(b, 27);
    var d := WrappingMul(c, INV_1);
    assert XorShift(Unmix(z), 30) == d by { XorShiftRedone(d, 30); }
    assert WrappingMul(d, MUL_1) == c by { Factors(c); }
    assert XorShift(c, 27) == b by { XorShiftRedone(b, 27); }
    assert WrappingMul(b, MUL_2) == a by { Factors(a); }
    assert XorShift(a, 31) == z by { XorShiftRedone(z, 31); }
  }

  /** `Mix` is a permutation of the words. */
  lemma MixIsPermutation(z: u64)
    ensures Unmix(Mix(z)) == z
    ensures Mix(Unmix(z)) == z
  {
    MixUndone(z);
    MixRedone(z);
  }

  // ----- The state -----

  /** The state after `n` steps. */
  function StateAfter(seed: u64, n: nat): u64 {
    (seed + n * GOLDEN) % TWO_64
  }

  lemma ModStep(a: nat, g: nat)
    ensures (a % TWO_64 + g) % TWO_64 == (a + g) % TWO_64
  {
  }

  lemma StateSteps(seed: u64, n: nat)
    ensures StateAfter(seed, 0) == seed
    ensures StateAfter(seed, n + 1) == WrappingAdd(StateAfter(seed, n), GOLDEN)
  {
    assert seed + (n + 1) * GOLDEN == (seed + n * GOLDEN) + GOLDEN;
    ModStep(seed + n * GOLDEN, GOLDEN);
  }

  lemma SubMod(s: nat, a: nat, b: nat)
    requires (s + a) % TWO_64 == (s + b) % TWO_64
    ensures a % TWO_64 == b % TWO_64
  {
  }

  lemma AddMod(s: nat, a: nat, b: nat)
    requires a % TWO_64 == b % TWO_64
    ensures (s + a) % TWO_64 == (s + b) % TWO_64
  {
  }

  lemma Multiple(k: nat, x: nat)
    ensures (k * TWO_64 + x) % TWO_64 == x % TWO_64
  {
  }

  lemma MulMod(i: nat, j: nat, g: u64)
    requires i % TWO_64 == j % TWO_64
    ensures (i * g) % TWO_64 == (j * g) % TWO_64
  {
    var r := i % TWO_64;
    var p, q := i / TWO_64, j / TWO_64;
    assert i * g == (p * g) * TWO_64 + r * g;
    assert j * g == (q * g) * TWO_64 + r * g;
    Multiple(p * g, r * g);
    Multiple(q * g, r * g);
  }

  /** Full period: two states agree exactly when the numbers of steps agree modulo 2^64. */
  lemma FullPeriod(seed: u64, i: nat, j: nat)
    ensures StateAfter(seed, i) == StateAfter(seed, j) <==> i % TWO_64 == j % TWO_64
  {
    if StateAfter(seed, i) == StateAfter(seed, j) {
      SubMod(seed, i * GOLDEN, j * GOLDEN);
      MulUndone(i, GOLDEN, GOLDEN_INV);
      MulUndone(j, GOLDEN, GOLDEN_INV);
    }
    if i % TWO_64 == j % TWO_64 {
      MulMod(i, j, GOLDEN);
      AddMod(seed, i * GOLDEN, j * GOLDEN);
    }
  }

  /** The outputs of a generator, as a tape of the kind the engine draws from. */
  function Tape(seed: u64): nat -> u64 {
    (i: nat) => Mix(StateAfter(seed, i + 1))
  }

  /** `SimRng`. `seed` and `drawn` say where on which tape the generator is. */
  class SimRng {
    var state: u64
    ghost var seed: u64
    ghost var drawn: nat

    ghost predicate Valid()
      reads this
    {
      state == StateAfter(seed, drawn)
    }

    constructor (seed: u64)
      ensures Valid() && this.seed == seed && drawn == 0
    {
      state, this.seed, drawn := seed, seed, 0;
    }

    /** The next output is the next cell of the tape. */
    method Next() returns (z: u64)
      requires Valid()
      modifies this
      ensures Valid() && seed == old(seed) && drawn == old(drawn) + 1
      ensures z == Tape(seed)(old(drawn))
    {
      StateSteps(seed, drawn);
      state := WrappingAdd(state, GOLDEN);
      drawn := drawn + 1;
      z := state;
      z := WrappingMul(XorShift(z, 30), MUL_1);
      z := WrappingMul(XorShift(z, 27), MUL_2);
      z := XorShift(z, 31);
    }

    /** A word of `[lo, hi)`, or `lo` when that is empty; only then is no output used up. */
    method RangeU64(lo: u64, hi: u64) returns (v: u64)
      requires Valid()
      modifies this
      ensures Valid() && seed == old(seed)
      ensures hi <= lo ==> v == lo && drawn == old(drawn)
      ensures lo < hi ==> lo <= v < hi && drawn == old(drawn) + 1 && v == lo + Tape(seed)(old(drawn)) % (hi - lo)
    {
      if hi <= lo {
        return lo;
      }
      var z := Next();
      v := lo + z % (hi - lo);
    }
  }

  // ----- Seeds -----

  /** The first output of a generator seeded with `salt ^ s`. */
  function SaltedSeed(salt: u64, s: u64): u64 {
    XorWords(salt, s);
    Tape(Xor(salt, s))(0)
  }

  /** `effective_seed` of run index `s`, without the environment override. */
  function EffectiveSeed(s: u64): u64 {
    SaltedSeed(SALT, s)
  }

  lemma FirstState(seed: u64)
    ensures StateAfter(seed, 1) == (GOLDEN + seed) % TWO_64 && seed % TWO_64 == seed
  {
  }

  lemma MixInjective(x: u64, y: u64)
    requires Mix(x) == Mix(y)
    ensures x == y
  {
    MixUndone(x);
    MixUndone(y);
  }

  /** The first output identifies the seed. */
  lemma FirstOutput(seed: u64, seed': u64)
    requires Tape(seed)(0) == Tape(seed')(0)
    ensures seed == seed'
  {
    MixInjective(StateAfter(seed, 1), StateAfter(seed', 1));
    FirstState(seed);
    FirstState(seed');
    SubMod(GOLDEN, seed, seed');
  }

  lemma SaltedDistinct(salt: u64, s: u64, t: u64)
    ensures SaltedSeed(salt, s) == SaltedSeed(salt, t) <==> s == t
  {
    XorWords(salt, s);
    XorWords(salt, t);
    if SaltedSeed(salt, s) == SaltedSeed(salt, t) {
      FirstOutput(Xor(salt, s), Xor(salt, t));
      XorAssociates(salt, salt, s);
      XorAssociates(salt, salt, t);
      XorSelf(salt);
    }
  }

  /** Distinct run indices get distinct seeds. */
  lemma SeedsDistinct(s: u64, t: u64)
    ensures EffectiveSeed(s) == EffectiveSeed(t) <==> s == t
  {
    SaltedDistinct(SALT, s, t);
  }
}
