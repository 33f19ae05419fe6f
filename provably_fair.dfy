/**
 * The provably-fair derivation (lib/provablyFair.ts): a 32-bit string hash
 * (the recurrence of Java's String.hashCode), the seed commitment built from it,
 * the uniform value derived from the round's seed material, and the crash-point
 * formula. The skew `u -> u^(1/distributionBias)` is a parameter, because it is
 * floating-point exponentiation.
 */
module ProvablyFair {
  import opened Types
  import opened Constants
  import opened NumberText

  const TwoTo31: int := 0x8000_0000
  const TwoTo32: int := 0x1_0000_0000
  /** The divisor of the uniform value, 2^31 - 1. */
  const Int32Max: int := 0x7fff_ffff

  predicate IsInt32(x: int) { -TwoTo31 <= x < TwoTo31 }

  /** JavaScript's ToInt32 (what `x | 0` does to an integer): `x` reduced modulo 2^32 into the signed range. */
  function ToInt32(x: int): (r: int)
    ensures IsInt32(r)
    ensures (x - r) % TwoTo32 == 0
    ensures IsInt32(x) ==> r == x
  {
    (x + TwoTo31) % TwoTo32 - TwoTo31
  }

  /** Values congruent modulo 2^32 have the same ToInt32. */
  lemma ToInt32Congruent(x: int, y: int, k: int)
    requires x - y == k * TwoTo32
    ensures ToInt32(x) == ToInt32(y)
  {
    var a, b := x + TwoTo31, y + TwoTo31;
    assert a == b + k * TwoTo32;
    assert a % TwoTo32 == b % TwoTo32 by {
      var qa, qb := a / TwoTo32, b / TwoTo32;
      assert a == qa * TwoTo32 + a % TwoTo32;
      assert b == qb * TwoTo32 + b % TwoTo32;
      assert (qb + k) * TwoTo32 + b % TwoTo32 == a;
    }
  }

  /** Equal ToInt32 images differ by a multiple of 2^32. */
  lemma ToInt32Collision(x: int, y: int) returns (k: int)
    requires ToInt32(x) == ToInt32(y)
    ensures x - y == k * TwoTo32
  {
    var r := ToInt32(x);
    var kx := (x - r) / TwoTo32;
    var ky := (y - r) / TwoTo32;
    assert x - r == kx * TwoTo32;
    assert y - r == ky * TwoTo32;
    k := kx - ky;
  }

  /** JavaScript's `h << 5`: both the operand and the result are taken as 32-bit integers. */
  function ShiftLeft5(h: int): int
  {
    ToInt32(ToInt32(h) * 32)
  }

  /** One step of the hash recurrence, `int32(31 * h + code)`. */
  function HashStep(h: int, c: char): int
  {
    ToInt32(31 * h + c as int)
  }

  /** The hash accumulator after folding `HashStep` over `s` from the left, starting at 0. */
  function StringHash(s: string): (h: int)
    ensures IsInt32(h)
  {
    if s == [] then 0 else HashStep(StringHash(s[..|s| - 1]), s[|s| - 1])
  }

  /** The shift form `((h << 5) - h + code) | 0` of `simpleHash` computes the same step as `(h * 31 + code) | 0`. */
  lemma ShiftStepAgrees(h: int, c: char)
    ensures ToInt32(ShiftLeft5(h) - h + c as int) == HashStep(h, c)
  {
    var t := ToInt32(h);
    var kt := (h - t) / TwoTo32;
    assert h - t == kt * TwoTo32;
    var s := ShiftLeft5(h);
    var ks := (t * 32 - s) / TwoTo32;
    assert t * 32 - s == ks * TwoTo32;
    // 31h + c - (s - h + c) = 32h - s = 32(h - t) + (32t - s)
    ToInt32Congruent(31 * h + c as int, s - h + c as int, 32 * kt + ks);
  }

  /** `simpleHash` (its loop), returning the accumulator in hex as `toString(16)` does. */
  method SimpleHash(s: string) returns (r: string)
    ensures r == Hex(StringHash(s))
  {
    var hash := 0;
    var i := 0;
    while i < |s|
      invariant 0 <= i <= |s|
      invariant hash == StringHash(s[..i])
    {
      var code := s[i] as int;
      ShiftStepAgrees(hash, s[i]);
      hash := ToInt32(ShiftLeft5(hash) - hash + code);
      assert s[..i + 1][..i] == s[..i];
      i := i + 1;
    }
    assert s[..|s|] == s;
    r := Hex(hash);
  }

  /** The published commitment to a server seed. */
  function Commitment(seed: string): string
  {
    "hash(" + Hex(StringHash(seed)) + ")"
  }

  /** `generateSeedHash`. */
  method GenerateSeedHash(seed: string) returns (r: string)
    ensures r == Commitment(seed)
    ensures r[..5] == "hash(" && r[|r| - 1] == ')'
  {
    var digest := SimpleHash(seed);
    r := "hash(" + digest + ")";
  }

  /** Reads back the hash accumulator from a commitment. */
  function OpenCommitment(c: string): Option<int>
  {
    if |c| >= 6 && c[..5] == "hash(" && c[|c| - 1] == ')' then ParseHex(c[5..|c| - 1]) else None
  }

  lemma CommitmentOpens(seed: string)
    ensures OpenCommitment(Commitment(seed)) == Some(StringHash(seed))
  {
    var d := Hex(StringHash(seed));
    var c := Commitment(seed);
    assert |d| >= 1;
    assert c[..5] == "hash(";
    assert c[5..|c| - 1] == d;
    HexRoundTrip(StringHash(seed));
  }

  /** Two seeds have the same commitment exactly when their 32-bit hashes agree. */
  lemma CommitmentMatchesHash(a: string, b: string)
    ensures Commitment(a) == Commitment(b) <==> StringHash(a) == StringHash(b)
  {
    CommitmentOpens(a);
    CommitmentOpens(b);
  }

  /** For a fixed last character the step is injective on 32-bit accumulators (31 is invertible modulo 2^32). */
  lemma HashStepInjective(h1: int, h2: int, c: char)
    requires IsInt32(h1) && IsInt32(h2)
    requires HashStep(h1, c) == HashStep(h2, c)
    ensures h1 == h2
  {
    var q := ToInt32Collision(31 * h1 + c as int, 31 * h2 + c as int);
    var d := h1 - h2;
    assert 31 * d == q * TwoTo32;
    // 31 * 3186588639 == 1 + 23 * 2^32
    assert d == (3186588639 * q - 23 * d) * TwoTo32 by {
      assert 3186588639 * (31 * d) == 3186588639 * (q * TwoTo32);
    }
    var m := 3186588639 * q - 23 * d;
    assert d == m * TwoTo32;
    assert -TwoTo32 < d < TwoTo32;
  }

  /** The hash of a string extended by one character is one more step. */
  lemma HashSnoc(s: string, x: char)
    ensures StringHash(s + [x]) == HashStep(StringHash(s), x)
  {
    assert (s + [x])[..|s|] == s;
  }

  /** From the same accumulator, different characters give different steps. */
  lemma HashStepDistinct(h: int, c1: char, c2: char)
    requires c1 != c2
    ensures HashStep(h, c1) != HashStep(h, c2)
  {
    // Both sums lie within one window of 2^32, where ToInt32 is a shift.
    var a, b := 31 * h + c1 as int + TwoTo31, 31 * h + c2 as int + TwoTo31;
    assert a == (a / TwoTo32) * TwoTo32 + a % TwoTo32;
    assert b == (b / TwoTo32) * TwoTo32 + b % TwoTo32;
  }

  /** Replacing one character of a string by a different one always changes its hash. */
  lemma {:induction false} SubstitutionChangesHash(p: string, c1: char, c2: char, t: string)
    requires c1 != c2
    ensures StringHash(p + [c1] + t) != StringHash(p + [c2] + t)
    decreases |t|
  {
    if t == [] {
      assert p + [c1] + t == p + [c1] && p + [c2] + t == p + [c2];
      HashSnoc(p, c1);
      HashSnoc(p, c2);
      HashStepDistinct(StringHash(p), c1, c2);
    } else {
      var u, x := t[..|t| - 1], t[|t| - 1];
      assert p + [c1] + t == (p + [c1] + u) + [x];
      assert p + [c2] + t == (p + [c2] + u) + [x];
      HashSnoc(p + [c1] + u, x);
      HashSnoc(p + [c2] + u, x);
      SubstitutionChangesHash(p, c1, c2, u);
      if StringHash(p + [c1] + t) == StringHash(p + [c2] + t) {
        HashStepInjective(StringHash(p + [c1] + u), StringHash(p + [c2] + u), x);
      }
    }
  }

  /** Changing any single character of a server seed changes its commitment. */
  lemma SingleEditChangesCommitment(seed: string, i: nat, c: char)
    requires i < |seed| && c != seed[i]
    ensures Commitment(seed[i := c]) != Commitment(seed)
  {
    assert seed[i := c] == seed[..i] + [c] + seed[i + 1..];
    assert seed == seed[..i] + [seed[i]] + seed[i + 1..];
    SubstitutionChangesHash(seed[..i], c, seed[i], seed[i + 1..]);
    CommitmentMatchesHash(seed[i := c], seed);
  }

  /** Two edits can collide: the commitment is a 32-bit digest, not a collision-resistant hash. */
  lemma TwoEditsCanCollide()
    ensures "Aa" != "BB" && Commitment("Aa") == Commitment("BB")
  {
    assert "Aa"[..1] == "A" && "BB"[..1] == "B";
    assert "A"[..0] == [] && "B"[..0] == [];
    assert StringHash("A") == 65 && StringHash("B") == 66;
    assert StringHash("Aa") == 2112 && StringHash("BB") == 2112;
  }

  /** The string `${serverSeed}-${clientSeed}-${nonce}-${round}-${cursor}` the uniform value is drawn from. */
  function SeedMaterial(serverSeed: string, clientSeed: string, nonce: nat, round: nat, cursor: nat): string
  {
    serverSeed + "-" + clientSeed + "-" + Decimal(nonce) + "-" + Decimal(round) + "-" + Decimal(cursor)
  }

  /** `Math.abs(hash) / 2147483647`. */
  function Uniform(h: int): real
  {
    (if h < 0 then -h else h) as real / Int32Max as real
  }

  /**
   * The uniform value lies in [0, 2^31 / (2^31 - 1)]: it is exactly 1 for the two
   * accumulators of magnitude 2^31 - 1 and exceeds 1 only for -2^31.
   */
  lemma UniformRange(h: int)
    requires IsInt32(h)
    ensures 0.0 <= Uniform(h) <= TwoTo31 as real / Int32Max as real
    ensures Uniform(h) == 1.0 <==> (h == Int32Max || h == -Int32Max)
    ensures Uniform(h) > 1.0 <==> h == -TwoTo31
  {
  }

  /** `generateNumberFromSeeds` (its loop). */
  method GenerateNumberFromSeeds(serverSeed: string, clientSeed: string, nonce: nat, round: nat, cursor: nat)
    returns (u: real)
    ensures u == Uniform(StringHash(SeedMaterial(serverSeed, clientSeed, nonce, round, cursor)))
  {
    var combined := SeedMaterial(serverSeed, clientSeed, nonce, round, cursor);
    var n := |combined|;
    var hash := 0;
    var i := 0;
    while i < n
      invariant 0 <= i <= n
      invariant hash == StringHash(combined[..i])
    {
      var code := combined[i] as int;
      hash := ToInt32(hash * 31 + code);
      assert combined[..i + 1][..i] == combined[..i];
      i := i + 1;
    }
    assert combined[..|combined|] == combined;
    u := Uniform(hash);
  }

  /** The unfloored multiplier `(100 * (1 - houseEdge)) / (100 * (1 - uBiased))`. */
  function RawMultiplier(uBiased: real): real
    requires uBiased != 1.0
  {
    (100.0 * (1.0 - HouseEdge)) / (100.0 * (1.0 - uBiased))
  }

  /** `getCrashPoint` from the skewed value on. */
  function CrashPointFromBiased(uBiased: real): (r: real)
    ensures r >= 1.01
    ensures uBiased == 1.0 ==> r == MaxX
    ensures uBiased > 1.0 ==> r == 1.01
    ensures uBiased != 1.0 ==> (r * 100.0).Floor as real == r * 100.0
  {
    if uBiased == 1.0 then MaxX
    else MaxReal(1.01, (RawMultiplier(uBiased) * 100.0).Floor as real / 100.0)
  }

  /**
   * Below 1 the crash point is the raw multiplier floored to hundredths,
   * unless that falls short of 1.01, in which case it is 1.01.
   */
  lemma CrashPointFloorsRaw(uBiased: real)
    requires uBiased < 1.0
    ensures var raw, r := RawMultiplier(uBiased), CrashPointFromBiased(uBiased);
      (raw >= 1.01 ==> r <= raw < r + 0.01) && (raw < 1.01 ==> r == 1.01)
  {
    var raw := RawMultiplier(uBiased);
    var f := (raw * 100.0).Floor;
    assert f as real <= raw * 100.0 < f as real + 1.0;
    if raw >= 1.01 {
      assert raw * 100.0 >= 101.0;
      assert f >= 101;
    }
  }

  lemma RawMultiplierMonotone(a: real, b: real)
    requires a <= b < 1.0
    ensures RawMultiplier(a) <= RawMultiplier(b)
  {
    var x, y := 100.0 * (1.0 - a), 100.0 * (1.0 - b);
    assert x >= y > 0.0;
    var p, q := 98.0 / x, 98.0 / y;
    assert p * x == 98.0 && q * y == 98.0;
  }

  /** On [0, 1) (in fact below 1) the crash point never decreases as the skewed value grows. */
  lemma CrashPointMonotone(a: real, b: real)
    requires a <= b < 1.0
    ensures CrashPointFromBiased(a) <= CrashPointFromBiased(b)
  {
    RawMultiplierMonotone(a, b);
    var fa, fb := (RawMultiplier(a) * 100.0).Floor, (RawMultiplier(b) * 100.0).Floor;
    assert fa <= fb;
  }

  /** The worked example: house edge 0.02 and skewed value 0.5 give crash point 1.96. */
  lemma CrashPointExample()
    ensures CrashPointFromBiased(0.5) == 1.96
  {
    assert RawMultiplier(0.5) == 1.96;
    assert (1.96 * 100.0).Floor == 196;
  }

  /** The cap applies only to exactly 1: close to 1 the crash point exceeds `MaxX`. */
  lemma CrashPointNotCapped()
    ensures CrashPointFromBiased(0.99999) > MaxX
  {
    assert RawMultiplier(0.99999) == 98000.0;
    assert (98000.0 * 100.0).Floor == 9800000;
  }

  /** `getCrashPoint(u)`, where `skew` stands for `u -> Math.pow(u, 1 / distributionBias)`. */
  function GetCrashPoint(u: real, skew: real -> real): real
  {
    CrashPointFromBiased(skew(u))
  }

  /** The crash point of a round: the uniform value for round 0, cursor 1, through the skew and the formula. */
  function CrashPoint(serverSeed: string, clientSeed: string, nonce: nat, skew: real -> real): real
  {
    GetCrashPoint(Uniform(StringHash(SeedMaterial(serverSeed, clientSeed, nonce, 0, 1))), skew)
  }

  /** `calculateCrashPoint`. */
  method CalculateCrashPoint(serverSeed: string, clientSeed: string, nonce: nat, skew: real -> real)
    returns (r: real)
    ensures r == CrashPoint(serverSeed, clientSeed, nonce, skew)
    ensures r >= 1.01
  {
    var uRaw := GenerateNumberFromSeeds(serverSeed, clientSeed, nonce, 0, 1);
    r := GetCrashPoint(uRaw, skew);
  }

  /**
   * What anyone can check once the seed is revealed: it opens the published
   * commitment, and recomputing the crash point from the revealed material gives
   * the published crash point.
   */
  predicate Verifies(data: ProvablyFairData, crash: real, skew: real -> real)
  {
    Commitment(data.serverSeed) == data.serverSeedHash
    && CrashPoint(data.serverSeed, data.clientSeed, data.nonce, skew) == crash
  }
}
