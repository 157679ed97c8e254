/**
  16.16 fixed-point samples (the Go type Fp32 / fp32, an int32). The value
  1 << 16 is full-scale amplitude 1.0. The same code appears in two packages
  (fp/fp32.go and audio/fp32.go); both are modelled by this one module.
 */
module Fp {
  import opened MachineInts

  /** Full scale, 1.0 in 16.16 fixed point. */
  const ONE: Int32 := 0x1_0000

  /**
    a.Mul(b): the 64-bit product shifted right 16 bits (arithmetic shift,
    i.e. floor division by 2^16), truncated back to 32 bits.
   */
  function Mul(a: Int32, b: Int32): Int32
  {
    Wrap32((a * b) / ONE)
  }

  /**
    Mul is the floor of a * b / 2^16 whenever that fits an int32: the
    result times 2^16 is within one unit of 2^16 below the exact product.
   */
  lemma MulIsFlooredProduct(a: Int32, b: Int32)
    requires -0x8000_0000 <= (a * b) / ONE < 0x8000_0000
    ensures Mul(a, b) * ONE <= a * b < Mul(a, b) * ONE + ONE
  {
  }

  /** The hard limiter of To16bit: clamp into [-(1 << 16), 1 << 16]. */
  function Clip(a: Int32): (c: Int32)
    ensures -ONE <= c <= ONE
    ensures -ONE <= a <= ONE ==> c == a
  {
    if a > ONE then ONE else if a < -ONE then -ONE else a
  }

  /**
    a.To16bit(): clamp, drop one bit (arithmetic >> 1), cast to int16.
    The clamp admits 1 << 16 itself, whose half 32768 does not fit an int16.
   */
  function To16bit(a: Int32): Int16
  {
    Wrap16(Clip(a) / 2)
  }

  /** Two factors of magnitude at most m have a product of magnitude at most m * m. */
  lemma ProductBounded(a: int, b: int, m: int)
    requires -m <= a <= m && -m <= b <= m
    ensures -(m * m) <= a * b <= m * m
  {
    if a >= 0 && b >= 0 {
      MulMonotone(a, b, m);
      MulMonotone(b, m, m);
    } else if a < 0 && b < 0 {
      MulMonotone(-a, -b, m);
      MulMonotone(-b, m, m);
      assert a * b == (-a) * (-b);
    } else if a < 0 {
      MulMonotone(-a, b, m);
      MulMonotone(b, m, m);
      assert a * b == -((-a) * b);
    } else {
      MulMonotone(a, -b, m);
      MulMonotone(-b, m, m);
      assert a * b == -(a * (-b));
    }
  }

  /** The 64-bit intermediate of Mul never overflows: int64(a) * int64(b) fits. */
  lemma ProductFitsInt64(a: Int32, b: Int32)
    ensures -0x8000_0000_0000_0000 <= a * b < 0x8000_0000_0000_0000
  {
    ProductBounded(a, b, 0x8000_0000);
  }

  /** Multiplying by full scale is the identity, on either side. */
  lemma MulByOne(a: Int32)
    ensures Mul(a, ONE) == a && Mul(ONE, a) == a
  {
    DivCancel(a, ONE);
  }

  /** Multiplying by zero gives zero. */
  lemma MulByZero(a: Int32)
    ensures Mul(a, 0) == 0 && Mul(0, a) == 0
  {
  }

  /** Mul is commutative. */
  lemma MulCommutes(a: Int32, b: Int32)
    ensures Mul(a, b) == Mul(b, a)
  {
    assert a * b == b * a;
  }

  /**
    Magnitudes of at most full scale multiply to a magnitude of at most full
    scale, and then the int32 truncation does not change the floored product.
   */
  lemma MulStaysInUnitRange(a: Int32, b: Int32)
    requires -ONE <= a <= ONE && -ONE <= b <= ONE
    ensures -ONE <= Mul(a, b) <= ONE
    ensures Mul(a, b) == (a * b) / ONE
  {
    ProductBounded(a, b, ONE);
    DivMonotone(a * b, ONE * ONE, ONE);
    DivMonotone(-(ONE * ONE), a * b, ONE);
    DivCancel(ONE, ONE);
    DivCancel(-ONE, ONE);
  }

  /** A non-negative weight w of at most full scale scales a unit-range value into [-w, w]. */
  lemma MulByWeightBounded(a: Int32, w: Int32)
    requires -ONE <= a <= ONE && 0 <= w <= ONE
    ensures -w <= Mul(a, w) <= w
  {
    MulStaysInUnitRange(a, w);
    if a >= 0 {
      MulMonotone(a, w, ONE);
      MulMonotone(0, w, a);
      DivMonotone(a * w, ONE * w, ONE);
      DivMonotone(0, a * w, ONE);
    } else {
      MulMonotone(-a, w, ONE);
      DivMonotone(-(ONE * w), a * w, ONE);
      DivMonotone(a * w, 0, ONE);
    }
    DivCancel(w, ONE);
    DivCancel(-w, ONE);
  }

  /**
    A ramp weight r in [0, 1 << 16] scales a non-negative width of up to
    twice full scale into [0, w], with no int32 truncation.
   */
  lemma MulRampWidth(r: Int32, w: Int32)
    requires 0 <= r <= ONE && 0 <= w <= 2 * ONE
    ensures 0 <= Mul(r, w) <= w
    ensures Mul(r, w) == (r * w) / ONE
  {
    MulMonotone(r, w, ONE);
    MulMonotone(0, w, r);
    DivMonotone(0, r * w, ONE);
    DivMonotone(r * w, ONE * w, ONE);
    DivCancel(w, ONE);
  }

  /** Above full scale, every input is limited to the result for full scale. */
  lemma To16bitLimitsHigh(a: Int32)
    requires a > ONE
    ensures To16bit(a) == To16bit(ONE)
  {
  }

  /** Below minus full scale, every input gives -32768. */
  lemma To16bitLimitsLow(a: Int32)
    requires a < -ONE
    ensures To16bit(a) == -0x8000
  {
  }

  /** Inside [-(1 << 16), (1 << 16) - 1] the conversion is the floored half, in int16 range. */
  lemma To16bitInBand(a: Int32)
    requires -ONE <= a < ONE
    ensures To16bit(a) == a / 2
    ensures 2 * To16bit(a) <= a < 2 * To16bit(a) + 2
  {
  }

  /** Inside [-(1 << 16), (1 << 16) - 1] the conversion is monotone. */
  lemma To16bitMonotoneInBand(a: Int32, b: Int32)
    requires -ONE <= a <= b < ONE
    ensures To16bit(a) <= To16bit(b)
  {
    To16bitInBand(a);
    To16bitInBand(b);
  }

  /**
    As written, full scale wraps: the limiter admits 1 << 16, whose half
    32768 becomes -32768 in the int16 cast, so a positive full-scale sample
    comes out as the most negative one.
   */
  lemma To16bitFullScaleWraps()
    ensures To16bit(ONE) == -0x8000
    ensures To16bit(ONE) < To16bit(ONE - 1)
  {
  }

  /**
    The conversion as the comments intend it: full scale is (1 << 16) - 1,
    so the limiter clamps to that and the int16 cast never wraps.
   */
  function To16bitClipped(a: Int32): (r: Int16)
    ensures a >= 0 ==> r >= 0
    ensures a < 0 ==> r < 0
    ensures a >= ONE - 1 ==> r == 0x7FFF
    ensures a <= -ONE ==> r == -0x8000
  {
    var c := if a > ONE - 1 then ONE - 1 else if a < -ONE then -ONE else a;
    c / 2
  }

  /** The intended conversion is monotone on every input. */
  lemma To16bitClippedMonotone(a: Int32, b: Int32)
    requires a <= b
    ensures To16bitClipped(a) <= To16bitClipped(b)
  {
  }

  /** The intended conversion differs from the written one only at and above full scale. */
  lemma To16bitClippedAgrees(a: Int32)
    requires a < ONE
    ensures To16bitClipped(a) == To16bit(a)
  {
  }
}
