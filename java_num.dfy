/** Java's fixed-width integers and the float-to-int cast, written out over unbounded ints and reals. */
module JavaNum {

  /** A Java byte is kept as its unsigned value, the value `b & 0xFF` gives. */
  type byte = x: int | 0 <= x < 256

  const TWO_31: int := 0x8000_0000
  const TWO_32: int := 0x1_0000_0000
  const TWO_63: int := 0x8000_0000_0000_0000
  const TWO_64: int := 0x1_0000_0000_0000_0000

  /** A Java `int`. */
  type int32 = x: int | -0x8000_0000 <= x < 0x8000_0000

  /** A Java `long`. */
  type int64 = x: int | -0x8000_0000_0000_0000 <= x < 0x8000_0000_0000_0000

  /** 256 to the power n. */
  function Pow256(n: nat): (r: nat)
    ensures r >= 1
  {
    if n == 0 then 1 else 256 * Pow256(n - 1)
  }

  /** The low 32 bits of v read as an unsigned number (`v & 0xFFFFFFFFL`). */
  function U32(v: int): (r: int)
    ensures 0 <= r < TWO_32
    ensures (v - r) % TWO_32 == 0
  {
    v % TWO_32
  }

  /** The low 32 bits of v read as a Java `int` (the `(int)` cast of a long). */
  function S32(v: int): (r: int32)
    ensures (v - r) % TWO_32 == 0
    ensures -TWO_31 <= v < TWO_31 ==> r == v
  {
    var u := v % TWO_32;
    if u >= TWO_31 then u - TWO_32 else u
  }

  /** The low 64 bits of v read as a Java `long`. */
  function S64(v: int): (r: int64)
    ensures (v - r) % TWO_64 == 0
    ensures -TWO_63 <= v < TWO_63 ==> r == v
  {
    var u := v % TWO_64;
    if u >= TWO_63 then u - TWO_64 else u
  }

  /** The unsigned big-endian number whose bytes are s, most significant first. */
  function BE(s: seq<byte>): (r: nat)
    ensures r < Pow256(|s|)
  {
    if s == [] then 0 else BE(s[..|s| - 1]) * 256 + s[|s| - 1]
  }

  /** Appending a byte shifts the number up by eight bits and adds the byte. */
  lemma BEAppend(s: seq<byte>, b: byte)
    ensures BE(s + [b]) == BE(s) * 256 + b
  {
    assert (s + [b])[..|s|] == s;
  }

  /** Java's `(int) x` for a float: truncation toward zero, saturating at the int range. */
  function FloatToInt(x: real): (r: int32)
    ensures 0.0 <= x < 2147483647.0 ==> r == x.Floor
    ensures -2147483648.0 < x < 0.0 ==> r == -((-x).Floor)
    ensures x >= 2147483647.0 ==> r == TWO_31 - 1
    ensures x <= -2147483648.0 ==> r == -TWO_31
  {
    if x >= 2147483647.0 then TWO_31 - 1
    else if x <= -2147483648.0 then -TWO_31
    else if x >= 0.0 then x.Floor
    else -((-x).Floor)
  }

  /** Java's integer division `a / b` for a positive divisor: the quotient truncated toward zero. */
  function JavaDiv(a: int, b: int): (r: int)
    requires b > 0
    ensures a >= 0 ==> 0 <= r && r * b <= a < r * b + b
    ensures a < 0 ==> r <= 0 && a <= r * b < a + b
  {
    if a >= 0 then a / b else -((-a) / b)
  }

  /** The float-to-int cast never decreases. */
  lemma FloatToIntMonotone(x: real, y: real)
    requires x <= y
    ensures FloatToInt(x) <= FloatToInt(y)
  {
    if 0.0 <= x && y < 2147483647.0 {
      assert x.Floor <= y.Floor;
    } else if -2147483648.0 < x && y < 0.0 {
      assert (-y).Floor <= (-x).Floor;
    }
  }

  /** Casting two ordered values in [0, m] gives two ordered whole numbers in 0..m. */
  lemma CastOrdered(x: real, y: real, m: nat)
    requires 0.0 <= x <= y <= m as real
    ensures 0 <= FloatToInt(x) <= FloatToInt(y) <= m
  {
    FloatToIntMonotone(x, y);
  }

  /** `(int) (x * m)`: x scaled by a whole number and cast. */
  function ScaleToInt(x: real, m: nat): int32
  {
    FloatToInt(x * m as real)
  }

  /** A fraction in [0, 1] scaled by m and cast lies in 0..m. */
  lemma ScaleToIntRange(a: real, m: nat)
    requires 0.0 <= a <= 1.0
    ensures 0 <= ScaleToInt(a, m) <= m
  {
    var x := a * m as real;
    assert m as real - x == (1.0 - a) * m as real;
    CastOrdered(x, x, m);
  }

  /** Scaling by m and casting keeps the order of non-negative values. */
  lemma ScaleToIntMonotone(a: real, b: real, m: nat)
    requires 0.0 <= a <= b
    ensures ScaleToInt(a, m) <= ScaleToInt(b, m)
  {
    var x, y := a * m as real, b * m as real;
    assert y - x == (b - a) * m as real;
    FloatToIntMonotone(x, y);
  }

  /** Scaling two ordered fractions in [0, 1] by m and casting keeps them ordered within 0..m. */
  lemma ScaledIndexOrdered(a: real, b: real, m: nat)
    requires 0.0 <= a <= b <= 1.0
    ensures 0 <= ScaleToInt(a, m) <= ScaleToInt(b, m) <= m
  {
    ScaleToIntRange(a, m);
    ScaleToIntRange(b, m);
    ScaleToIntMonotone(a, b, m);
  }

  /** A value of at least 1 scaled by m and cast is at least m. */
  lemma ScaleAtLeastOne(x: real, m: nat)
    requires 1.0 <= x && m < TWO_31
    ensures m <= ScaleToInt(x, m)
  {
    var y := x * m as real;
    assert y - m as real == (x - 1.0) * m as real;
    assert (m as real).Floor == m;
    assert FloatToInt(m as real) == m;
    FloatToIntMonotone(m as real, y);
  }
}
