/**
  Go's fixed-width integer types, modelled as ranges of the unbounded `int`,
  and the conversions between them. A Go conversion to a narrower type keeps
  the low bits, which is the unique value of the target range that is
  congruent to the operand modulo 2^width.
 */
module MachineInts {

  datatype Option<T> = None | Some(value: T)

  type Byte = x: int | 0 <= x < 0x100
  type Uint16 = x: int | 0 <= x < 0x1_0000
  type Uint32 = x: int | 0 <= x < 0x1_0000_0000
  type Int16 = x: int | -0x8000 <= x < 0x8000
  type Int32 = x: int | -0x8000_0000 <= x < 0x8000_0000

  /** int32(x): the int32 congruent to x modulo 2^32. */
  function Wrap32(x: int): (r: Int32)
    ensures -0x8000_0000 <= x < 0x8000_0000 ==> r == x
  {
    (x + 0x8000_0000) % 0x1_0000_0000 - 0x8000_0000
  }

  /** int16(x): the int16 congruent to x modulo 2^16. */
  function Wrap16(x: int): (r: Int16)
    ensures -0x8000 <= x < 0x8000 ==> r == x
  {
    (x + 0x8000) % 0x1_0000 - 0x8000
  }

  /** uint32(x): the uint32 congruent to x modulo 2^32. */
  function WrapU32(x: int): (r: Uint32)
    ensures 0 <= x < 0x1_0000_0000 ==> r == x
  {
    x % 0x1_0000_0000
  }

  /** uint16(x): the uint16 congruent to x modulo 2^16. */
  function WrapU16(x: int): (r: Uint16)
    ensures 0 <= x < 0x1_0000 ==> r == x
  {
    x % 0x1_0000
  }

  /** byte(x): the byte congruent to x modulo 2^8. */
  function WrapByte(x: int): (r: Byte)
    ensures 0 <= x < 0x100 ==> r == x
  {
    x % 0x100
  }

  /** A multiple of m leaves remainder 0. */
  lemma MultipleHasNoRemainder(y: int, q: int, m: int)
    requires m > 0 && y == m * q
    ensures y % m == 0
  {
    var d, r := y / m, y % m;
    assert y == m * d + r && 0 <= r < m;
    assert m * (q - d) == r;
    if q - d >= 1 {
      MulAtLeastOne(q - d, m);
    } else if q - d <= -1 {
      MulAtLeastOne(d - q, m);
    }
  }

  /** The 32-bit conversions keep the low bits: the result is congruent to the operand modulo 2^32. */
  lemma Wrap32KeepsLowBits(x: int)
    ensures (x - Wrap32(x)) % 0x1_0000_0000 == 0 && (x - WrapU32(x)) % 0x1_0000_0000 == 0
  {
    var q := (x + 0x8000_0000) / 0x1_0000_0000;
    assert x + 0x8000_0000 == 0x1_0000_0000 * q + (x + 0x8000_0000) % 0x1_0000_0000;
    MultipleHasNoRemainder(x - Wrap32(x), q, 0x1_0000_0000);
    var u := x / 0x1_0000_0000;
    assert x == 0x1_0000_0000 * u + x % 0x1_0000_0000;
    MultipleHasNoRemainder(x - WrapU32(x), u, 0x1_0000_0000);
  }

  /** The 16-bit conversions keep the low bits: the result is congruent to the operand modulo 2^16. */
  lemma Wrap16KeepsLowBits(x: int)
    ensures (x - Wrap16(x)) % 0x1_0000 == 0 && (x - WrapU16(x)) % 0x1_0000 == 0
  {
    var q := (x + 0x8000) / 0x1_0000;
    assert x + 0x8000 == 0x1_0000 * q + (x + 0x8000) % 0x1_0000;
    MultipleHasNoRemainder(x - Wrap16(x), q, 0x1_0000);
    var u := x / 0x1_0000;
    assert x == 0x1_0000 * u + x % 0x1_0000;
    MultipleHasNoRemainder(x - WrapU16(x), u, 0x1_0000);
  }

  /** The byte conversion keeps the low bits: the result is congruent to the operand modulo 2^8. */
  lemma WrapByteKeepsLowBits(x: int)
    ensures (x - WrapByte(x)) % 0x100 == 0
  {
    var u := x / 0x100;
    assert x == 0x100 * u + x % 0x100;
    MultipleHasNoRemainder(x - WrapByte(x), u, 0x100);
  }

  /** Product of two naturals is monotone in its first factor. */
  lemma MulMonotone(x: int, y: int, bound: int)
    requires 0 <= x <= bound && 0 <= y
    ensures x * y <= bound * y
  {
    assert (bound - x) * y >= 0;
  }

  /** A factor of at least one does not shrink a natural. */
  lemma MulAtLeastOne(a: int, d: int)
    requires d >= 0
    ensures a >= 1 ==> a * d >= d
  {
    if a >= 1 {
      MulMonotone(1, d, a);
    }
  }

  /** Floor division by a positive divisor: x < q * d implies x / d < q. */
  lemma DivBelow(x: int, d: int, q: int)
    requires d > 0 && x < q * d
    ensures x / d < q
  {
    var r := x / d;
    assert r * d <= x;
    assert (r - q + 1) * d < d;
    MulAtLeastOne(r - q + 1, d);
  }

  /** Floor division by a positive divisor is monotone. */
  lemma DivMonotone(x: int, y: int, d: int)
    requires d > 0 && x <= y
    ensures x / d <= y / d
  {
    var qx, qy := x / d, y / d;
    assert qx * d <= x && y < qy * d + d;
    assert (qx - qy) * d < d;
    MulAtLeastOne(qx - qy, d);
  }

  /** Multiplying then dividing by the same positive number is exact. */
  lemma DivCancel(q: int, d: int)
    requires d > 0
    ensures (q * d) / d == q
  {
    var r := (q * d) / d;
    var m := (q * d) % d;
    assert q * d == r * d + m && 0 <= m < d;
    assert (q - r) * d == m;
    if q - r >= 1 {
      MulMonotone(1, d, q - r);
    } else if q - r <= -1 {
      MulMonotone(1, d, r - q);
    }
  }
}
