/**
 * The numeric core shared by the unit-aware stages: 16-bit magnitudes, the
 * two conversion ratios written as exact fractions, rounding to the nearest
 * integer with ties away from zero, and the saturating cast back to 16 bits.
 */
module Units {

  /** The largest 16-bit unsigned magnitude. */
  const U16Max: int := 65535

  /** A 16-bit unsigned magnitude. */
  type u16 = x: int | 0 <= x <= U16Max

  /** 2.20462 pounds per kilogram, as KgToLbNumerator / KgToLbScale. */
  const KgToLbNumerator: nat := 220462
  const KgToLbScale: nat := 100000

  /** 0.453592 kilograms per pound, as LbToKgNumerator / LbToKgScale. */
  const LbToKgNumerator: nat := 453592
  const LbToKgScale: nat := 1000000

  /** The largest kilogram magnitude whose pound value still fits in 16 bits. */
  const LargestConvertibleKilograms: nat := 29726

  /**
   * r is the integer nearest to num / scale, a tie going to the larger one:
   * num / scale lies in the half-open interval [r - 1/2, r + 1/2).
   */
  ghost predicate IsNearestHalfUp(num: nat, scale: nat, r: int)
  {
    (2 * r - 1) * scale <= 2 * num < (2 * r + 1) * scale
  }

  /**
   * r is what rounding num / scale and then casting it to 16 bits yields:
   * the nearest integer when that fits, and U16Max exactly when it does not.
   */
  ghost predicate IsSaturatedRound(num: nat, scale: nat, r: int)
  {
    && (r < U16Max ==> IsNearestHalfUp(num, scale, r))
    && (r == U16Max <==> 2 * num >= (2 * U16Max - 1) * scale)
    && 0 <= r <= U16Max
  }

  lemma DivisionBounds(x: nat, d: nat)
    requires d > 0
    ensures d * (x / d) <= x < d * (x / d) + d
  {
  }

  /**
   * Rounds the non-negative value num / scale to the nearest integer, ties
   * away from zero (the rounding of a non-negative float's round()).
   */
  function RoundHalfUp(num: nat, scale: nat): (r: nat)
    requires scale > 0
    ensures IsNearestHalfUp(num, scale, r)
  {
    var q := (2 * num + scale) / (2 * scale);
    DivisionBounds(2 * num + scale, 2 * scale);
    assert (2 * q - 1) * scale == 2 * scale * q - scale;
    assert (2 * q + 1) * scale == 2 * scale * q + scale;
    q
  }

  /**
   * The cast of a non-negative float to a 16-bit unsigned integer, which
   * saturates at the largest value instead of wrapping around.
   */
  function SaturateToU16(x: nat): (r: u16)
    ensures r <= x
    ensures x <= U16Max ==> r == x
    ensures x > U16Max ==> r == U16Max
  {
    if x > U16Max then U16Max else x
  }

  /** Kilograms to pounds: round(k * 2.20462) cast to 16 bits. */
  function KgToLb(k: u16): (r: u16)
    ensures IsSaturatedRound(k * KgToLbNumerator, KgToLbScale, r)
  {
    SaturateToU16(RoundHalfUp(k * KgToLbNumerator, KgToLbScale))
  }

  /**
   * Pounds to kilograms: round(p * 0.453592) cast to 16 bits. The product
   * never exceeds 29726.2, so the cast never saturates.
   */
  function LbToKg(p: u16): (r: u16)
    ensures IsNearestHalfUp(p * LbToKgNumerator, LbToKgScale, r)
    ensures r <= LargestConvertibleKilograms
  {
    var n := RoundHalfUp(p * LbToKgNumerator, LbToKgScale);
    assert n <= LargestConvertibleKilograms;
    SaturateToU16(n)
  }

  /** The pound value reaches 65535 exactly from LargestConvertibleKilograms on. */
  lemma KgToLbSaturation(k: u16)
    ensures KgToLb(k) == U16Max <==> k >= LargestConvertibleKilograms
  {
  }

  /** Converting to pounds preserves the order of magnitudes. */
  lemma {:induction false} KgToLbMonotone(a: u16, b: u16)
    requires a <= b
    ensures KgToLb(a) <= KgToLb(b)
  {
  }

  /** Converting to kilograms preserves the order of magnitudes. */
  lemma {:induction false} LbToKgMonotone(a: u16, b: u16)
    requires a <= b
    ensures LbToKg(a) <= LbToKg(b)
  {
  }

  /**
   * Kilograms to pounds and back is the identity on every magnitude whose
   * pound value fits in 16 bits; above that the saturated 65535 pounds come
   * back as LargestConvertibleKilograms.
   */
  lemma {:induction false} KilogramRoundTrip(k: u16)
    ensures LbToKg(KgToLb(k)) == if k <= LargestConvertibleKilograms then k else LargestConvertibleKilograms
  {
    var l := KgToLb(k);
    KgToLbSaturation(k);
    if k <= LargestConvertibleKilograms {
      if l < U16Max {
        assert 200000 * l - 100000 <= 440924 * k < 200000 * l + 100000;
        assert 1000000 * (2 * k - 1) <= 907184 * l < 1000000 * (2 * k + 1);
      } else {
        assert k == LargestConvertibleKilograms;
      }
    }
  }

  /**
   * Pounds to kilograms and back lands within one pound of the start: the
   * round trip may lose information, but never more than one pound.
   */
  lemma {:induction false} PoundRoundTrip(p: u16)
    ensures p - 1 <= KgToLb(LbToKg(p)) <= p + 1
  {
    var k := LbToKg(p);
    var l := KgToLb(k);
    assert 2000000 * k - 1000000 <= 907184 * p < 2000000 * k + 1000000;
    if l < U16Max {
      assert 200000 * l - 100000 <= 440924 * k < 200000 * l + 100000;
    } else {
      assert k == LargestConvertibleKilograms;
    }
  }

  /** One pound converts to 0 kg and back to 0 pound: the round trip is lossy. */
  lemma PoundRoundTripIsLossy()
    ensures KgToLb(LbToKg(1)) == 0
  {
  }

  /** A magnitude of 0 converts to 0 in both directions. */
  lemma ZeroConvertsToZero()
    ensures KgToLb(0) == 0 && LbToKg(0) == 0
  {
  }

  /** 90 kg is 198 pound, and 198 pound is 90 kg. */
  lemma SherlockMagnitudes()
    ensures KgToLb(90) == 198
    ensures LbToKg(198) == 90
  {
  }
}
