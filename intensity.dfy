/**
 * `_normalizeIntensity`: maps a raw intensity (a value in [0, 1], or a tier-like
 * value in [1, 3]) onto one of the three animation tiers.
 */
module Intensity {
  import opened AnimationMetadata

  /** `Math.ceil` on a real number. */
  function Ceil(x: real): (c: int)
    ensures c as real >= x && (c as real) - 1.0 < x
  {
    -((-x).Floor)
  }

  /** `Math.min(3, Math.max(1, n))`. */
  function ClampToTier(n: int): (t: Tier)
    ensures 1 <= n <= 3 ==> t == n
    ensures n < 1 ==> t == 1
    ensures n > 3 ==> t == 3
  {
    if n < 1 then 1 else if n > 3 then 3 else n
  }

  /** Below 1 the raw value is read as a fraction of the top tier, from 3 up it is
      the top tier, and in between it is rounded up to a tier. */
  function Normalize(intensity: real): (t: Tier)
    ensures intensity * 3.0 <= 1.0 ==> t == 1
    ensures 1.0 < intensity * 3.0 && intensity < 1.0 ==> (t as real) - 1.0 < intensity * 3.0 <= t as real
    ensures 1.0 <= intensity < 3.0 ==> (t as real) - 1.0 < intensity <= t as real
    ensures intensity >= 3.0 ==> t == 3
  {
    if intensity < 1.0 then ClampToTier(Ceil(intensity * 3.0))
    else if intensity >= 3.0 then 3
    else Ceil(intensity)
  }

  /** The constant `setEmotionIntensity` scales a tier by to turn it back into a raw value. */
  const TierScale: real := 0.332

  /** Every tier is a fixed point: a tier passed where a raw value is expected stays that tier. */
  lemma NormalizeFixesTiers(t: Tier)
    ensures Normalize(t as real) == t
  {
    if t == 1 {
      assert Ceil(1.0) == 1;
    } else if t == 2 {
      assert Ceil(2.0) == 2;
    }
  }

  /** The complete picture of the mapping: which raw values land on which tier. */
  lemma NormalizeCharacterization(x: real)
    ensures Normalize(x) == 1 <==> x <= 1.0 / 3.0 || x == 1.0
    ensures Normalize(x) == 2 <==> (1.0 / 3.0 < x <= 2.0 / 3.0) || (1.0 < x <= 2.0)
    ensures Normalize(x) == 3 <==> (2.0 / 3.0 < x < 1.0) || x > 2.0
  {
    var c3 := Ceil(x * 3.0);
    var c1 := Ceil(x);
    if x < 1.0 {
      assert c3 <= 1 <==> x <= 1.0 / 3.0;
      assert c3 == 2 <==> 1.0 / 3.0 < x <= 2.0 / 3.0;
    } else if x < 3.0 {
      assert c1 == 1 <==> x == 1.0;
      assert c1 == 2 <==> 1.0 < x <= 2.0;
    }
  }

  /** Low raw values give the lowest tier, high ones the highest. */
  lemma NormalizeExtremes(x: real)
    ensures x <= 1.0 / 3.0 ==> Normalize(x) == 1
    ensures x >= 3.0 ==> Normalize(x) == 3
  {
    NormalizeCharacterization(x);
  }

  /** The mapping is not monotone: raw values just below 1 give tier 3 while 1 gives tier 1. */
  lemma NormalizeNotMonotone()
    ensures Normalize(0.9) == 3 && Normalize(1.0) == 1
  {
    NormalizeCharacterization(0.9);
    NormalizeCharacterization(1.0);
  }

  /** Scaling a tier by 0.332 gives a raw value that normalises back to that tier. */
  lemma TierRoundTrip(t: Tier)
    ensures Normalize(t as real * TierScale) == t
  {
    NormalizeCharacterization(t as real * TierScale);
  }

  /** Hence `setEmotionIntensity(x)` requests a raw value that normalises to the tier of `x`. */
  lemma ScaledTierRoundTrip(x: real)
    ensures Normalize(Normalize(x) as real * TierScale) == Normalize(x)
  {
    TierRoundTrip(Normalize(x));
  }

  /** The `intensity` of every catalog entry is already a normalised tier. */
  lemma MetadataIntensityIsNormal(m: AnimationMetadata)
    ensures Normalize(m.intensity as real) == m.intensity
  {
    NormalizeFixesTiers(m.intensity);
  }
}
