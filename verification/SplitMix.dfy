/** The seed mixer: SplitMix64 on 64-bit words. */
module SplitMix {

  const GOLDEN_RATIO: bv64 := 0x9E37_79B9_7F4A_7C15
  const SQRT2: bv64 := 0x6A09_E667_F3BC_C908
  /** Addition modulo 2^64. */
  function Add(a: bv64, b: bv64): bv64 { a + b }

  function Fold30(z: bv64): bv64 { z ^ (z >> 30) }

  function Fold27(z: bv64): bv64 { z ^ (z >> 27) }

  function Fold31(z: bv64): bv64 { z ^ (z >> 31) }

  function Mul1(z: bv64): bv64 { z * 0xBF58_476D_1CE4_E5B9 }

  function Mul2(z: bv64): bv64 { z * 0x94D0_49BB_1331_11EB }

  function Scramble(z: bv64): bv64 {
    Fold31(Mul2(Fold27(Mul1(Fold30(z)))))
  }

  function Mix(seed: bv64, gamma: bv64): bv64 {
    Scramble(Add(seed, gamma))
  }

  function DeriveSpawnSeed(seed: bv64): bv64 {
    Mix(seed, GOLDEN_RATIO)
  }

  function AdvanceSeed(seed: bv64): bv64 {
    Mix(seed, SQRT2)
  }

  // The inverse mixer: the inverse xor-shifts, and the inverses of the multipliers modulo 2^64.

  function Sub(a: bv64, b: bv64): bv64 { a - b }

  function Unfold30(z: bv64): bv64 { z ^ (z >> 30) ^ (z >> 60) }

  function Unfold27(z: bv64): bv64 { z ^ (z >> 27) ^ (z >> 54) }

  function Unfold31(z: bv64): bv64 { z ^ (z >> 31) ^ (z >> 62) }

  function Div1(z: bv64): bv64 { z * 0x96DE_1B17_3F11_9089 }

  function Div2(z: bv64): bv64 { z * 0x3196_42B2_D24D_8EC3 }

  function Unscramble(z: bv64): bv64 {
    Unfold30(Div1(Unfold27(Div2(Unfold31(z)))))
  }

  function Unmix(mixed: bv64, gamma: bv64): bv64 {
    Sub(Unscramble(mixed), gamma)
  }

  lemma Shifts30(z: bv64)
    ensures var y := z ^ (z >> 30); y ^ (y >> 30) ^ (y >> 60) == z
    ensures var y := z ^ (z >> 30) ^ (z >> 60); y ^ (y >> 30) == z
  {
  }

  lemma Fold30Inverts(z: bv64)
    ensures Unfold30(Fold30(z)) == z == Fold30(Unfold30(z))
  {
    Shifts30(z);
    assert Unfold30(z ^ (z >> 30)) == z;
    assert Fold30(z ^ (z >> 30) ^ (z >> 60)) == z;
  }

  lemma Shifts27(z: bv64)
    ensures var y := z ^ (z >> 27); y ^ (y >> 27) ^ (y >> 54) == z
    ensures var y := z ^ (z >> 27) ^ (z >> 54); y ^ (y >> 27) == z
  {
  }

  lemma Fold27Inverts(z: bv64)
    ensures Unfold27(Fold27(z)) == z == Fold27(Unfold27(z))
  {
    Shifts27(z);
    assert Unfold27(z ^ (z >> 27)) == z;
    assert Fold27(z ^ (z >> 27) ^ (z >> 54)) == z;
  }

  lemma Shifts31(z: bv64)
    ensures var y := z ^ (z >> 31); y ^ (y >> 31) ^ (y >> 62) == z
    ensures var y := z ^ (z >> 31) ^ (z >> 62); y ^ (y >> 31) == z
  {
  }

  lemma Fold31Inverts(z: bv64)
    ensures Unfold31(Fold31(z)) == z == Fold31(Unfold31(z))
  {
    Shifts31(z);
    assert Unfold31(z ^ (z >> 31)) == z;
    assert Fold31(z ^ (z >> 31) ^ (z >> 62)) == z;
  }

  lemma Factors1(z: bv64)
    ensures (z * 0xBF58_476D_1CE4_E5B9) * 0x96DE_1B17_3F11_9089 == z
    ensures (z * 0x96DE_1B17_3F11_9089) * 0xBF58_476D_1CE4_E5B9 == z
  {
  }

  lemma Mul1Inverts(z: bv64)
    ensures Div1(Mul1(z)) == z == Mul1(Div1(z))
  {
    Factors1(z);
    assert Div1(z * 0xBF58_476D_1CE4_E5B9) == z;
    assert Mul1(z * 0x96DE_1B17_3F11_9089) == z;
  }

  lemma Factors2(z: bv64)
    ensures (z * 0x94D0_49BB_1331_11EB) * 0x3196_42B2_D24D_8EC3 == z
    ensures (z * 0x3196_42B2_D24D_8EC3) * 0x94D0_49BB_1331_11EB == z
  {
  }

  lemma Mul2Inverts(z: bv64)
    ensures Div2(Mul2(z)) == z == Mul2(Div2(z))
  {
    Factors2(z);
    assert Div2(z * 0x94D0_49BB_1331_11EB) == z;
    assert Mul2(z * 0x3196_42B2_D24D_8EC3) == z;
  }

  lemma Sums(a: bv64, b: bv64)
    ensures (a + b) - b == a && (a - b) + b == a
    ensures a + b == b + a
  {
  }

  lemma AddInverts(a: bv64, b: bv64)
    ensures Sub(Add(a, b), b) == a == Add(Sub(a, b), b)
  {
    Sums(a, b);
    assert Sub(a + b, b) == a;
    assert Add(a - b, b) == a;
  }

  lemma AddCommutes(a: bv64, b: bv64)
    ensures Add(a, b) == Add(b, a)
  {
    Sums(a, b);
  }

  lemma AddCancels(a: bv64, b: bv64, c: bv64)
    ensures Add(a, b) == Add(a, c) <==> b == c
  {
    hide Add, Sub;
    AddCommutes(a, b);
    AddCommutes(a, c);
    AddInverts(b, a);
    AddInverts(c, a);
  }

  lemma ScrambleInverts(z: bv64)
    ensures Unscramble(Scramble(z)) == z == Scramble(Unscramble(z))
  {
    hide Fold30, Fold27, Fold31, Unfold30, Unfold27, Unfold31, Mul1, Mul2, Div1, Div2;
    Fold30Inverts(z);
    Mul1Inverts(Fold30(z));
    var b := Mul1(Fold30(z));
    Fold27Inverts(b);
    Mul2Inverts(Fold27(b));
    Fold31Inverts(Mul2(Fold27(b)));

    Fold31Inverts(z);
    Mul2Inverts(Unfold31(z));
    var c := Div2(Unfold31(z));
    Fold27Inverts(c);
    Mul1Inverts(Unfold27(c));
    Fold30Inverts(Div1(Unfold27(c)));
  }

  /** Each gamma's mixer has an inverse on both sides. */
  lemma MixInverts(seed: bv64, gamma: bv64)
    ensures Unmix(Mix(seed, gamma), gamma) == seed == Mix(Unmix(seed, gamma), gamma)
  {
    hide Add, Sub, Scramble, Unscramble;
    AddInverts(seed, gamma);
    ScrambleInverts(Add(seed, gamma));
    ScrambleInverts(seed);
    AddInverts(Unscramble(seed), gamma);
  }

  /** The mixer is a bijection on seeds for each gamma, and different gammas never agree on a seed. */
  lemma MixIsBijective(a: bv64, b: bv64, gamma: bv64, delta: bv64)
    ensures Mix(a, gamma) == Mix(b, gamma) <==> a == b
    ensures exists s :: Mix(s, gamma) == a
    ensures Mix(a, gamma) == Mix(a, delta) <==> gamma == delta
  {
    hide Add, Sub, Scramble, Unscramble, Unmix;
    MixInverts(a, gamma);
    MixInverts(b, gamma);
    assert Mix(Unmix(a, gamma), gamma) == a;
    ScrambleInverts(Add(a, gamma));
    ScrambleInverts(Add(a, delta));
    AddCancels(a, gamma, delta);
  }

  /**
    * Siblings get different seeds exactly when they were spawned from different seeds, and a child starts
    * from another seed than its parent goes on with.
    */
  lemma ForkDiverges(a: bv64, b: bv64)
    ensures DeriveSpawnSeed(a) == DeriveSpawnSeed(b) <==> a == b
    ensures AdvanceSeed(a) == AdvanceSeed(b) <==> a == b
    ensures DeriveSpawnSeed(a) != AdvanceSeed(a)
  {
    hide Mix;
    MixIsBijective(a, b, GOLDEN_RATIO, SQRT2);
    MixIsBijective(a, b, SQRT2, GOLDEN_RATIO);
  }

  /** The first output of the published SplitMix64 generator when its state is 0. */
  lemma KnownValue()
    ensures DeriveSpawnSeed(0) == 0xE220_A839_7B1D_CDAF
  {
  }

  function Xor(a: bv64, b: bv64): bv64 { a ^ b }

  /** The simulator's seed for its draw number `draw`. */
  function DrawSeed(runtimeSeed: bv64, draw: bv64): bv64 {
    Mix(Xor(runtimeSeed, Mix(draw, GOLDEN_RATIO)), GOLDEN_RATIO)
  }

  /** No two draws of a runtime get the same seed, and one draw differs between any two runtime seeds. */
  lemma DrawSeedsDiffer(s: bv64, t: bv64, i: bv64, j: bv64)
    ensures DrawSeed(s, i) == DrawSeed(s, j) <==> i == j
    ensures DrawSeed(s, i) == DrawSeed(t, i) <==> s == t
  {
    hide Mix, Xor;
    var mi, mj := Mix(i, GOLDEN_RATIO), Mix(j, GOLDEN_RATIO);
    MixIsBijective(i, j, GOLDEN_RATIO, SQRT2);
    MixIsBijective(Xor(s, mi), Xor(s, mj), GOLDEN_RATIO, SQRT2);
    MixIsBijective(Xor(s, mi), Xor(t, mi), GOLDEN_RATIO, SQRT2);
    XorCancels(s, mi, mj);
    XorCancels(mi, s, t);
  }

  lemma XorCancels(s: bv64, a: bv64, b: bv64)
    ensures Xor(s, a) == Xor(s, b) <==> a == b
    ensures Xor(a, s) == Xor(b, s) <==> a == b
  {
  }
}
