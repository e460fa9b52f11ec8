/** The seeded generator of client_src/utils.js (mulberry32); the state is given by its unsigned 32-bit value. */
module SeededRng {

  const MODULUS := 0x1_0000_0000
  const INCREMENT := 0x6D2B79F5

  /** The inverse of the odd increment modulo 2^32, and the cofactor that shows it. */
  const INVERSE := 0xDC58AA5D
  const COFACTOR := 1576479847

  function Advance(s: nat): (r: nat)
    ensures r < MODULUS
  {
    (s + INCREMENT) % MODULUS
  }

  /** The mixing steps on 32-bit words, scaled to the unit interval. */
  function Output(s: nat): (r: real)
    requires s < MODULUS
    ensures 0.0 <= r < 1.0
  {
    var a := s as bv32;
    var t := (a ^ (a >> 15)) * (1 | a);
    var u := (t + (t ^ (t >> 7)) * (61 | t)) ^ t;
    var v := u ^ (u >> 14);
    (v as int) as real / 4294967296.0
  }

  /** The first outputs for seed 0, in units of 2^-32: they fix the mixing steps. */
  lemma FirstOutputs()
    ensures Output(0x6D2B79F5) * 4294967296.0 == 1144304738.0
    ensures Output(0xDA56F3EA) * 4294967296.0 == 1416247.0
    ensures Output(0x47826DDF) * 4294967296.0 == 958946056.0
  {}

  /** The state after `n` calls. */
  function StateAt(seed: nat, n: nat): nat {
    if n == 0 then seed else Advance(StateAt(seed, n - 1))
  }

  lemma {:induction false} StateIsAffine(seed: nat, n: nat)
    requires seed < MODULUS
    ensures StateAt(seed, n) == (seed + n * INCREMENT) % MODULUS
  {
    if n > 0 {
      StateIsAffine(seed, n - 1);
      ModAdd(seed + (n - 1) * INCREMENT, INCREMENT);
    }
  }

  lemma ModAdd(a: nat, b: nat)
    ensures (a % MODULUS + b) % MODULUS == (a + b) % MODULUS
  {}

  lemma ModShift(x: int, q: int)
    ensures (x + q * MODULUS) % MODULUS == x % MODULUS
  {}

  lemma ModUnique(x: int, q: int, r: int)
    requires x == q * MODULUS + r && 0 <= r < MODULUS
    ensures x % MODULUS == r && x / MODULUS == q
  {}

  /** Two calls see the same state exactly when they are a multiple of 2^32 calls apart: the period is full. */
  lemma FullPeriod(seed: nat, i: nat, j: nat)
    requires seed < MODULUS
    ensures StateAt(seed, i) == StateAt(seed, j) <==> (i - j) % MODULUS == 0
  {
    StateIsAffine(seed, i);
    StateIsAffine(seed, j);
    var d := i - j;
    var a, b := seed + i * INCREMENT, seed + j * INCREMENT;
    if StateAt(seed, i) == StateAt(seed, j) {
      var q := a / MODULUS - b / MODULUS;
      assert d * INCREMENT == q * MODULUS;
      var k := q * INVERSE - d * COFACTOR;
      assert d == k * MODULUS;
      ModUnique(d, k, 0);
    }
    if d % MODULUS == 0 {
      var k := d / MODULUS;
      assert a == b + (k * INCREMENT) * MODULUS;
      ModShift(b, k * INCREMENT);
    }
  }

  /** The call after which the state is `target`. */
  function WhenReached(seed: nat, target: nat): (n: nat)
    ensures n < MODULUS
  {
    ((target - seed) * INVERSE) % MODULUS
  }

  /** Every one of the 2^32 states occurs within the first 2^32 calls. */
  lemma ReachesEveryState(seed: nat, target: nat)
    requires seed < MODULUS && target < MODULUS
    ensures StateAt(seed, WhenReached(seed, target)) == target
  {
    var d := target - seed;
    var n := WhenReached(seed, target);
    var q := (d * INVERSE) / MODULUS;
    assert d * INVERSE == q * MODULUS + n;
    StateIsAffine(seed, n);
    var k := d * COFACTOR - q * INCREMENT;
    assert n * INCREMENT == d + k * MODULUS;
    ModShift(target, k);
    ModUnique(target, 0, target);
  }

  class Rng {
    var s: nat

    ghost predicate Valid()
      reads this
    {
      s < MODULUS
    }

    constructor (seed: nat)
      ensures Valid() && s == seed % MODULUS
    {
      s := seed % MODULUS;
    }

    method Next() returns (r: real)
      requires Valid()
      modifies this
      ensures Valid() && s == Advance(old(s)) && r == Output(s) && 0.0 <= r < 1.0
    {
      s := (s + INCREMENT) % MODULUS;
      r := Output(s);
    }
  }
}
