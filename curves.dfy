/** Tone reproduction curves: the sampled and gamma curves of curveType and the parametric curves of
    parametricCurveType (sections 10.5 and 10.15 of ICC.1:2010), with the inverses the transformers use. */
module Curves {
  import opened Wrappers
  import opened JavaNum
  import opened TagTypes

  /** `Math.pow(base, exponent)`, given by the caller: the model does not compute powers. */
  type Pow = (real, real) -> real

  /** Linear interpolation: the point at x on the line through (smin, dmin) and (smax, dmax). */
  function Interpolate(x: real, smin: real, smax: real, dmin: real, dmax: real): real
    requires smin != smax
  {
    dmin + (x - smin) * ((dmax - dmin) / (smax - smin))
  }

  /** The interpolating line passes through both of its end points. */
  lemma InterpolateEnds(smin: real, smax: real, dmin: real, dmax: real)
    requires smin != smax
    ensures Interpolate(smin, smin, smax, dmin, dmax) == dmin
    ensures Interpolate(smax, smin, smax, dmin, dmax) == dmax
  {
    assert (smax - smin) * ((dmax - dmin) / (smax - smin)) == dmax - dmin;
  }

  /** Between its end points the line stays between the two end values. */
  lemma InterpolateBetween(x: real, smin: real, smax: real, dmin: real, dmax: real)
    requires smin < smax && smin <= x <= smax
    ensures dmin <= dmax ==> dmin <= Interpolate(x, smin, smax, dmin, dmax) <= dmax
    ensures dmax <= dmin ==> dmax <= Interpolate(x, smin, smax, dmin, dmax) <= dmin
  {
    var d := smax - smin;
    var t := (x - smin) / d;
    assert (x - smin) / d <= d / d;
    assert 0.0 <= t <= 1.0;
    assert Interpolate(x, smin, smax, dmin, dmax) == dmin + t * (dmax - dmin);
    if dmin <= dmax {
      ScaledBetween(t, dmax - dmin);
    } else {
      ScaledBetween(t, dmin - dmax);
      assert t * (dmax - dmin) == -(t * (dmin - dmax));
    }
  }

  /** A fraction t of a non-negative span a lies between 0 and a. */
  lemma ScaledBetween(t: real, a: real)
    requires 0.0 <= t <= 1.0 && 0.0 <= a
    ensures 0.0 <= t * a <= a
  {
    assert a - t * a == (1.0 - t) * a;
  }

  /** `1f / gamma`. IEEE arithmetic gives an infinity for a zero gamma; reals have none, and the model keeps 0. */
  function Reciprocal(x: real): real
  {
    if x == 0.0 then 0.0 else 1.0 / x
  }

  /** The slot range row i of the table inverse fills: `(int) (values[i] * (entryCount - 1))`. */
  function FillIndex(v: seq<real>, i: int): int
    requires 1 < |v| && 0 <= i < |v|
  {
    ScaleToInt(v[i], |v| - 1)
  }

  /** `prevIndex` as row i starts: 0 at first, then the previous row's fill index. */
  function PrevIndex(v: seq<real>, i: int): int
    requires 1 < |v| && 0 <= i < |v|
  {
    if i == 0 then 0 else FillIndex(v, i - 1)
  }

  /** Row i stores into slot j. */
  predicate Writes(v: seq<real>, i: int, j: int)
    requires 1 < |v| && 0 <= i < |v|
  {
    FillIndex(v, i) < |v| && PrevIndex(v, i) < j <= FillIndex(v, i)
  }

  /** Row i's first store is at a negative slot, which throws. */
  predicate Faults(v: seq<real>, i: int)
    requires 1 < |v| && 0 <= i < |v|
  {
    FillIndex(v, i) < |v| && PrevIndex(v, i) + 1 <= FillIndex(v, i) && PrevIndex(v, i) + 1 < 0
  }

  /** Slot j after rows 0..m-1: i/N for the last row i that stores into it, 0 when none does. */
  function Slot(v: seq<real>, m: nat, j: int): real
    requires 1 < |v| && m <= |v|
  {
    if m == 0 then 0.0
    else if Writes(v, m - 1, j) then (m - 1) as real / |v| as real
    else Slot(v, m - 1, j)
  }

  /** The inverse of a sampled table: every slot as the rows leave it. */
  function InverseTable(v: seq<real>): (r: seq<real>)
    requires 1 < |v|
    ensures |r| == |v|
  {
    seq(|v|, j requires 0 <= j < |v| => Slot(v, |v|, j))
  }

  /** The samples never decrease. */
  predicate NonDecreasing(v: seq<real>)
  {
    forall i, j :: 0 <= i <= j < |v| ==> v[i] <= v[j]
  }

  /** Every sample lies in [0, 1]. */
  predicate InUnit(v: seq<real>)
  {
    forall i :: 0 <= i < |v| ==> 0.0 <= v[i] <= 1.0
  }

  /** Row i is the first whose fill index reaches j. */
  predicate FirstReaching(v: seq<real>, j: int, i: int)
    requires 1 < |v| && 0 <= i < |v|
  {
    FillIndex(v, i) >= j && forall k :: 0 <= k < i ==> FillIndex(v, k) < j
  }

  /** The fill indexes of two ordered samples in [0, 1] lie in 0..N-1 and keep their order. */
  lemma FillIndexOrdered(v: seq<real>, i: int, k: int)
    requires 1 < |v| && 0 <= i < |v| && 0 <= k < |v| && 0.0 <= v[i] <= v[k] <= 1.0
    ensures 0 <= FillIndex(v, i) <= FillIndex(v, k) < |v|
  {
    ScaledIndexOrdered(v[i], v[k], |v| - 1);
  }

  /** For non-decreasing samples in [0, 1] the fill indexes lie in 0..N-1 and never decrease. */
  lemma FillIndexMonotone(v: seq<real>, i: int, k: int)
    requires 1 < |v| && NonDecreasing(v) && InUnit(v) && 0 <= i <= k < |v|
    ensures 0 <= FillIndex(v, i) <= FillIndex(v, k) < |v|
  {
    assert 0.0 <= v[i] <= v[k] <= 1.0;
    FillIndexOrdered(v, i, k);
  }

  /** Non-decreasing samples in [0, 1] never make the inverse store at a negative slot. */
  lemma MonotoneNeverFaults(v: seq<real>)
    requires 1 < |v| && NonDecreasing(v) && InUnit(v)
    ensures forall i :: 0 <= i < |v| ==> !Faults(v, i)
  {
    forall i | 0 <= i < |v|
      ensures !Faults(v, i)
    {
      if i > 0 {
        FillIndexMonotone(v, i - 1, i);
      }
    }
  }

  /** A row faults only when the row before it has a fill index of -2 or less and its own fill index is larger,
      so a sample below 0 alone does not make the inverse throw: [-2, 0.5] throws, [-0.1, 0.5, 1] and [0.5, -1]
      do not. */
  lemma NegativeSampleFaults()
    ensures forall i :: 0 <= i < 2 ==> (Faults([-2.0, 0.5], i) <==> i == 1)
    ensures forall i :: 0 <= i < 3 ==> !Faults([-0.1, 0.5, 1.0], i)
    ensures forall i :: 0 <= i < 2 ==> !Faults([0.5, -1.0], i)
  {
  }

  /** For non-decreasing samples in [0, 1], slot j >= 1 holds i/N for the first row i whose fill index reaches j
      (0 while no row has), and slot 0 is never written. */
  lemma {:induction false} MonotoneSlot(v: seq<real>, m: nat, j: int)
    requires 1 < |v| && NonDecreasing(v) && InUnit(v) && m <= |v| && 0 <= j
    ensures j == 0 ==> Slot(v, m, j) == 0.0
    ensures (forall k :: 0 <= k < m ==> FillIndex(v, k) < j) ==> Slot(v, m, j) == 0.0
    ensures 1 <= j ==> forall i :: 0 <= i < m && FirstReaching(v, j, i) ==> Slot(v, m, j) == i as real / |v| as real
  {
    if m > 0 {
      MonotoneSlot(v, m - 1, j);
      var last := m - 1;
      if last > 0 {
        FillIndexMonotone(v, last - 1, last);
      } else {
        FillIndexMonotone(v, 0, 0);
      }
      if 1 <= j {
        forall i | 0 <= i < m && FirstReaching(v, j, i)
          ensures Slot(v, m, j) == i as real / |v| as real
        {
          if i < last {
            FillIndexMonotone(v, i, last - 1);
            assert !Writes(v, last, j);
          }
        }
      }
    }
  }

  /** The table inverse of non-decreasing samples in [0, 1]: slot 0 is 0, and slot j >= 1 is i/N for the first
      row i with `(int) (values[i] * (N - 1)) >= j`, or 0 when no row reaches it. */
  lemma MonotoneInverseTable(v: seq<real>, j: int)
    requires 1 < |v| && NonDecreasing(v) && InUnit(v) && 0 <= j < |v|
    ensures j == 0 ==> InverseTable(v)[j] == 0.0
    ensures (forall k :: 0 <= k < |v| ==> FillIndex(v, k) < j) ==> InverseTable(v)[j] == 0.0
    ensures 1 <= j ==> forall i :: 0 <= i < |v| && FirstReaching(v, j, i) ==> InverseTable(v)[j] == i as real / |v| as real
  {
    MonotoneSlot(v, |v|, j);
  }

  /** One row of the fill loop of `Curve.inverse()`: stores i/N at the slots after `prevIndex` up to the row's
      fill index, when that index is below N; fails at the first negative slot. */
  method FillRow(ivalues: array<real>, v: seq<real>, i: int, prevIndex: int, index: int) returns (ok: bool)
    requires 1 < |v| && 0 <= i < |v| && ivalues.Length == |v|
    requires prevIndex == PrevIndex(v, i) && index == FillIndex(v, i)
    requires forall j :: 0 <= j < |v| ==> ivalues[j] == Slot(v, i, j)
    modifies ivalues
    ensures ok <==> !Faults(v, i)
    ensures ok ==> forall j :: 0 <= j < |v| ==> ivalues[j] == Slot(v, i + 1, j)
  {
    var n := |v|;
    if index < n {
      var j := prevIndex + 1;
      while j <= index
        invariant prevIndex + 1 <= j
        invariant j <= index + 1 || j == prevIndex + 1
        invariant j > prevIndex + 1 ==> prevIndex + 1 >= 0
        invariant forall k :: 0 <= k < n ==>
          ivalues[k] == (if prevIndex < k < j then i as real / n as real else Slot(v, i, k))
      {
        if j < 0 {
          return false;
        }
        ivalues[j] := i as real / n as real;
        j := j + 1;
      }
    }
    return true;
  }

  /** The fill loop of `Curve.inverse()` over a table of N > 1 samples: the inverse table, or the fault of the
      first row that stores at a negative slot. */
  method InvertTable(v: seq<real>) returns (r: Result<seq<real>>)
    requires 1 < |v|
    ensures r.Err? <==> exists i :: 0 <= i < |v| && Faults(v, i)
    ensures r.Err? ==> r == Err(IndexOutOfBounds)
    ensures r.Ok? ==> r.value == InverseTable(v)
  {
    var n := |v|;
    var ivalues := new real[n](_ => 0.0);
    var prevIndex := 0;
    for i := 0 to n
      invariant prevIndex == (if i == 0 then 0 else FillIndex(v, i - 1))
      invariant forall j :: 0 <= j < n ==> ivalues[j] == Slot(v, i, j)
      invariant forall k :: 0 <= k < i ==> !Faults(v, k)
    {
      var index := FillIndex(v, i);
      var ok := FillRow(ivalues, v, i, prevIndex, index);
      if !ok {
        return Err(IndexOutOfBounds);
      }
      prevIndex := index;
    }
    assert ivalues[..] == InverseTable(v);
    return Ok(ivalues[..]);
  }

  /** A `Curve`: no table (the identity), a single gamma, or a sampled table. */
  class Curve {
    const tagType: TagType
    /** The samples; `None` is a null array. */
    const values: Option<seq<real>>
    const entryCount: int
    const gamma: real
    /** The memoised inverse. */
    var inverse: Curve?
    /** The reserved field every tag carries. */
    var reserved: int

    /** What `setValues` establishes: the entry count follows the table, and a single entry is the gamma. */
    predicate Valid()
    {
      (values.None? && entryCount == 0) ||
      (values.Some? && |values.value| == 1 && entryCount == 1 && gamma == values.value[0]) ||
      (values.Some? && |values.value| != 1 && entryCount == |values.value|)
    }

    /** `Valid`, and the memoised inverse, once there, is a valid curve too. */
    predicate Consistent()
      reads this
    {
      Valid() && (inverse != null ==> inverse.Valid())
    }

    /** `Curve(tagType, values)` followed by `setValues`. */
    constructor (tagType: TagType, values: Option<seq<real>>)
      ensures this.tagType == tagType && this.values == values && Valid() && Consistent()
      ensures values.Some? && |values.value| == 1 ==> gamma == values.value[0]
      ensures !(values.Some? && |values.value| == 1) ==> gamma == 0.0
      ensures inverse == null && reserved == 0
    {
      this.tagType := tagType;
      this.values := values;
      if values.None? {
        entryCount := 0;
        gamma := 0.0;
      } else if |values.value| == 1 {
        gamma := values.value[0];
        entryCount := 1;
      } else {
        entryCount := |values.value|;
        gamma := 0.0;
      }
      inverse := null;
      reserved := 0;
    }

    /** `setReserved`. */
    method SetReserved(value: int)
      modifies this
      ensures reserved == value && inverse == old(inverse)
    {
      reserved := value;
    }

    predicate IsIdentity()
    {
      entryCount == 0
    }

    predicate IsGamma()
    {
      entryCount == 1
    }

    predicate IsCurve()
    {
      entryCount > 1
    }

    /** `get(a)`: a itself, a to the power gamma, or the table read with linear interpolation. */
    function Get(a: real, pow: Pow): real
      requires Valid()
    {
      if IsIdentity() then a
      else if IsGamma() then pow(a, gamma)
      else
        var v := values.value;
        var n := |v|;
        if a > 1.0 then v[n - 1]
        else if a < 0.0 then v[0]
        else
          var index := ScaleToInt(a, n);
          if index >= n then v[n - 1]
          else if index <= 0 then v[0]
          else Interpolate(a, index as real / n as real, (index + 1) as real / n as real, v[index - 1], v[index])
    }

    /** `inverse()`: memoised; the identity is its own inverse, a gamma inverts to one entry holding 1/gamma, and
        a table inverts by the fill loop, which throws when a row stores at a negative slot. The new curve's
        inverse is this curve again. */
    method Inverse() returns (r: Result<Curve>)
      requires Consistent()
      modifies this
      ensures Consistent() && (r.Ok? ==> r.value.Valid())
      ensures old(inverse) != null ==> r == Ok(old(inverse)) && inverse == old(inverse)
      ensures old(inverse) == null && IsIdentity() ==> r == Ok(this) && inverse == this
      ensures old(inverse) == null && IsGamma() ==>
        r.Ok? && fresh(r.value) && r.value.tagType == tagType && r.value.values == Some([Reciprocal(gamma)]) &&
        r.value.inverse == this && inverse == r.value
      ensures old(inverse) == null && IsCurve() ==>
        (r.Err? <==> exists i :: 0 <= i < entryCount && Faults(values.value, i))
      ensures old(inverse) == null && IsCurve() && r.Ok? ==>
        fresh(r.value) && r.value.tagType == tagType && r.value.values == Some(InverseTable(values.value)) &&
        r.value.inverse == this && inverse == r.value
      ensures old(inverse) == null && r.Err? ==> inverse == null && r == Err(IndexOutOfBounds)
      ensures old(inverse) == null && (IsIdentity() || (IsGamma() && gamma != 0.0)) ==>
        r.Ok? && SimpleInverse(this, r.value)
      ensures reserved == old(reserved)
    {
      if inverse != null {
        return Ok(inverse);
      }
      if entryCount > 1 {
        var table :- InvertTable(values.value);
        var c := new Curve(tagType, Some(table));
        c.inverse := this;
        inverse := c;
        return Ok(c);
      } else if entryCount == 1 {
        var c := new Curve(tagType, Some([Reciprocal(gamma)]));
        c.inverse := this;
        inverse := c;
        return Ok(c);
      } else {
        inverse := this;
        return Ok(this);
      }
    }
  }

  /** `get` of a table whose samples lie in [0, 1] lies in [0, 1] too, for any argument: outside [0, 1] and at the
      clamped indexes it is an end sample, and in between it interpolates between two neighbouring samples, the
      argument lying between their grid points. The table is shorter than the largest int, as a read one is. */
  lemma TableGetInUnit(c: Curve, a: real, pow: Pow)
    requires c.Valid() && c.IsCurve() && InUnit(c.values.value) && |c.values.value| < 0x7FFF_FFFF
    ensures 0.0 <= c.Get(a, pow) <= 1.0
  {
    var v := c.values.value;
    var n := |v|;
    if 0.0 <= a <= 1.0 {
      var index := ScaleToInt(a, n);
      if 0 < index < n {
        var x := a * n as real;
        assert 0.0 <= x < 2147483647.0;
        assert index == x.Floor;
        GridPointsAround(a, n, index);
        InterpolateBetween(a, index as real / n as real, (index + 1) as real / n as real, v[index - 1], v[index]);
      }
    }
  }

  /** An argument whose scaled value lies between index and index + 1 lies between the grid points index / n and
      (index + 1) / n. */
  lemma GridPointsAround(a: real, n: nat, index: int)
    requires 0 < n && index as real <= a * n as real < (index + 1) as real
    ensures index as real / n as real <= a <= (index + 1) as real / n as real
  {
    var m := n as real;
    assert a * m / m == a;
    assert index as real / m <= a * m / m;
    assert a * m / m <= (index + 1) as real / m;
  }

  /** A parametric curve of function type 0 is the gamma curve of its one parameter: both give `pow(x, g)`. */
  lemma TypeZeroIsGamma(p: ParametricCurve, c: Curve, x: real, pow: Pow)
    requires p.WellFormed() && p.functionType == 0 && c.Valid() && c.IsGamma() && c.gamma == p.params[0]
    ensures p.Get(x, pow) == c.Get(x, pow)
  {
  }

  /** `Math.pow` undoes itself for the exponent g and its reciprocal on [0, 1]: the law of exact powers that the
      inverse of a gamma curve relies on. */
  ghost predicate PowUndoes(pow: Pow, g: real)
  {
    forall x :: 0.0 <= x <= 1.0 ==> pow(pow(x, g), Reciprocal(g)) == x
  }

  /** inv is what `inverse()` makes of c when c has no memo yet and is the identity or a non-zero gamma: c itself,
      or the one entry 1/gamma. */
  predicate SimpleInverse(c: Curve, inv: Curve)
  {
    c.Valid() && inv.Valid() &&
    ((c.IsIdentity() && inv == c) || (c.IsGamma() && c.gamma != 0.0 && inv.values == Some([Reciprocal(c.gamma)])))
  }

  /** The inverse of the identity gives back every value; the inverse of a gamma gives back every value in [0, 1]
      once pow undoes itself for that gamma. */
  lemma SimpleInverseUndoes(c: Curve, inv: Curve, x: real, pow: Pow)
    requires SimpleInverse(c, inv)
    requires c.IsGamma() ==> 0.0 <= x <= 1.0 && PowUndoes(pow, c.gamma)
    ensures inv.Get(c.Get(x, pow), pow) == x
  {
    if c.IsGamma() {
      assert inv.gamma == Reciprocal(c.gamma) && inv.IsGamma();
    }
  }

  /** A curve that is the identity, or a gamma whose value pow undoes, paired with its inverse as `inverse()`
      makes it. */
  ghost predicate InvertiblePair(c: ICurve, inv: ICurve, pow: Pow)
  {
    c.TableCurve? && inv.TableCurve? && SimpleInverse(c.table, inv.table) &&
    (c.table.IsGamma() ==> PowUndoes(pow, c.table.gamma))
  }

  /** The number of parameters the reader reads for a function type; none for an unknown type. */
  function ParamCount(functionType: int): nat
  {
    if functionType == 0 then 1
    else if functionType == 1 then 3
    else if functionType == 2 then 4
    else if functionType == 3 then 5
    else if functionType == 4 then 7
    else 0
  }

  /** `x >= -b / a` in float arithmetic: for a zero `a` the bound is minus infinity when b > 0, and plus infinity
      or not a number otherwise, so the test fails. */
  predicate AtLeastRatio(x: real, a: real, b: real)
  {
    if a != 0.0 then x >= -b / a else b > 0.0
  }

  /** A `ParametricCurve` of one of the five function types of section 10.15 of ICC.1:2010. */
  class ParametricCurve {
    const tagType: TagType
    const functionType: int
    const params: seq<real>
    var reserved2: int
    /** The memoised inverse. */
    var inverse: Curve?
    /** The reserved field every tag carries. */
    var reserved: int

    /** The parameter array holds what the function type reads. */
    predicate WellFormed()
    {
      |params| >= ParamCount(functionType)
    }

    /** `WellFormed`, and the memoised inverse, once there, is a valid curve. */
    predicate Consistent()
      reads this
    {
      WellFormed() && (inverse != null ==> inverse.Valid())
    }

    /** `ParametricCurve(tagType, functionType, params)`. */
    constructor (tagType: TagType, functionType: int, params: seq<real>)
      ensures this.tagType == tagType && this.functionType == functionType && this.params == params
      ensures inverse == null && reserved == 0 && reserved2 == 0
    {
      this.tagType := tagType;
      this.functionType := functionType;
      this.params := params;
      inverse := null;
      reserved := 0;
      reserved2 := 0;
    }

    /** `setReserved`. */
    method SetReserved(value: int)
      modifies this
      ensures reserved == value && reserved2 == old(reserved2) && inverse == old(inverse)
    {
      reserved := value;
    }

    /** `setReserved2`. */
    method SetReserved2(value: int)
      modifies this
      ensures reserved2 == value && reserved == old(reserved) && inverse == old(inverse)
    {
      reserved2 := value;
    }

    /** `get(x)`: the branch of the function type; 0 for an unknown type. */
    function Get(x: real, pow: Pow): real
      requires WellFormed()
    {
      if functionType == 0 then pow(x, params[0])
      else if functionType == 1 then
        if AtLeastRatio(x, params[1], params[2]) then pow(params[1] * x + params[2], params[0]) else 0.0
      else if functionType == 2 then
        if AtLeastRatio(x, params[1], params[2]) then pow(params[1] * x + params[2], params[0]) + params[3]
        else params[3]
      else if functionType == 3 then
        if x >= params[4] then pow(params[1] * x + params[2], params[0]) else params[3] * x
      else if functionType == 4 then
        if x >= params[4] then pow(params[1] * x + params[2], params[0]) + params[5] else params[3] * x + params[6]
      else 0.0
    }

    /** The slot sample i of the inverse stores into: `(int) (get(i / 1024f) * 1024)`. */
    function SampleIndex(i: int, pow: Pow): int
      requires WellFormed()
    {
      ScaleToInt(Get(i as real / 1024.0, pow), 1024)
    }

    /** Slot j after samples 0..m-1: the raw index i of the last sample that stores there, 0 when none does. */
    function SampleSlot(m: nat, j: int, pow: Pow): real
      requires WellFormed()
    {
      if m == 0 then 0.0
      else if SampleIndex(m - 1, pow) == j then (m - 1) as real
      else SampleSlot(m - 1, j, pow)
    }

    /** The 1024 slots of the sampled inverse. */
    function SampledInverse(pow: Pow): (r: seq<real>)
      requires WellFormed()
      ensures |r| == 1024
    {
      seq(1024, j requires 0 <= j < 1024 => SampleSlot(1024, j, pow))
    }

    /** `inverse()`: memoised; samples the curve at i/1024 for i in 0..1023 and stores the raw index i at slot
        `(int) (get(i / 1024f) * 1024)`, which throws for a slot outside 0..1023. */
    method Inverse(pow: Pow) returns (r: Result<Curve>)
      requires Consistent()
      modifies this
      ensures Consistent() && (r.Ok? ==> r.value.Valid())
      ensures old(inverse) != null ==> r == Ok(old(inverse)) && inverse == old(inverse)
      ensures old(inverse) == null ==> (r.Err? <==> exists i :: 0 <= i < 1024 && !(0 <= SampleIndex(i, pow) < 1024))
      ensures old(inverse) == null && r.Ok? ==>
        fresh(r.value) && r.value.tagType == tagType && r.value.values == Some(SampledInverse(pow)) &&
        r.value.entryCount == 1024 && r.value.inverse == null && inverse == r.value
      ensures old(inverse) == null && r.Err? ==> inverse == null && r == Err(IndexOutOfBounds)
      ensures reserved == old(reserved) && reserved2 == old(reserved2)
    {
      if inverse != null {
        return Ok(inverse);
      }
      var table :- SampleInverse(pow);
      var c := new Curve(tagType, Some(table));
      inverse := c;
      return Ok(c);
    }

    /** The sampling loop of `inverse()`. */
    method SampleInverse(pow: Pow) returns (r: Result<seq<real>>)
      requires WellFormed()
      ensures r.Err? <==> exists i :: 0 <= i < 1024 && !(0 <= SampleIndex(i, pow) < 1024)
      ensures r.Err? ==> r == Err(IndexOutOfBounds)
      ensures r.Ok? ==> r.value == SampledInverse(pow)
    {
      var entryCount := 1024;
      var ivalues := new real[entryCount](_ => 0.0);
      for i := 0 to entryCount
        invariant forall j :: 0 <= j < 1024 ==> ivalues[j] == SampleSlot(i, j, pow)
        invariant forall k :: 0 <= k < i ==> 0 <= SampleIndex(k, pow) < 1024
      {
        var index := SampleIndex(i, pow);
        if index < 0 || index >= entryCount {
          return Err(IndexOutOfBounds);
        }
        ivalues[index] := i as real;
      }
      assert ivalues[..] == SampledInverse(pow);
      return Ok(ivalues[..]);
    }
  }

  /** Every slot of the sampled inverse holds a whole sample index in 0..1023, never the fraction i/1024. */
  lemma {:induction false} SampleSlotIsRawIndex(c: ParametricCurve, m: nat, j: int, pow: Pow)
    requires c.WellFormed() && m <= 1024
    ensures c.SampleSlot(m, j, pow) == (c.SampleSlot(m, j, pow)).Floor as real
    ensures 0.0 <= c.SampleSlot(m, j, pow) < 1024.0
    ensures c.SampleSlot(m, j, pow) != 0.0 ==> exists i :: 0 < i < m && c.SampleIndex(i, pow) == j && c.SampleSlot(m, j, pow) == i as real
  {
    if m > 0 {
      SampleSlotIsRawIndex(c, m - 1, j, pow);
    }
  }

  /** A sample at which the curve reaches 1 stores out of range, so the inverse throws. */
  lemma SampleAtOneFaults(c: ParametricCurve, i: int, pow: Pow)
    requires c.WellFormed() && 0 <= i < 1024 && c.Get(i as real / 1024.0, pow) >= 1.0
    ensures !(0 <= c.SampleIndex(i, pow) < 1024)
  {
    ScaleAtLeastOne(c.Get(i as real / 1024.0, pow), 1024);
  }

  /** An `ICurve`: the curve interface the transformers and the lutAToB sections hold, implemented by `Curve`
      and `ParametricCurve`. */
  datatype ICurve = TableCurve(table: Curve) | ParamCurve(param: ParametricCurve)
  {
    /** The object behind the interface. */
    function Object(): object
    {
      if TableCurve? then table else param
    }

    /** The curve can be evaluated. */
    predicate Valid()
    {
      if TableCurve? then table.Valid() else param.WellFormed()
    }

    /** The curve can be evaluated, and so can its memoised inverse. */
    predicate Consistent()
      reads Object()
    {
      if TableCurve? then table.Consistent() else param.Consistent()
    }

    /** The memoised inverse behind the interface. */
    function Memo(): Curve?
      reads Object()
    {
      if TableCurve? then table.inverse else param.inverse
    }

    /** `get(a)`. */
    function Get(a: real, pow: Pow): real
      requires Valid()
    {
      if TableCurve? then table.Get(a, pow) else param.Get(a, pow)
    }

    /** `inverse()`: always a `Curve`, the one the implementation memoises. */
    method Inverse(pow: Pow) returns (r: Result<ICurve>)
      requires Consistent()
      modifies Object()
      ensures Consistent()
      ensures r.Ok? ==> r.value.TableCurve? && r.value.Valid() && r.value.table == Memo()
      ensures old(Memo()) != null ==> r == Ok(TableCurve(old(Memo()))) && Memo() == old(Memo())
      ensures r.Err? ==> r == Err(IndexOutOfBounds) && Memo() == null
      ensures old(Memo()) == null && TableCurve? && (table.IsIdentity() || (table.IsGamma() && table.gamma != 0.0)) ==>
        r.Ok? && SimpleInverse(table, r.value.table)
    {
      var c: Curve;
      if TableCurve? {
        c :- table.Inverse();
      } else {
        c :- param.Inverse(pow);
      }
      return Ok(TableCurve(c));
    }
  }
}
