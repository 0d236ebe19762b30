/**
  Filtering a grey-scale picture: each output pixel is a weighted sum over a window
  whose indices are clamped at the edges, rounded to the nearest integer.  Sums are
  taken over the reals.
 */
module Convolution {

  type Picture = seq<seq<int>>

  type Filter = seq<seq<real>>

  predicate Shape<T>(rows: seq<seq<T>>, width: nat) {
    forall i :: 0 <= i < |rows| ==> |rows[i]| == width
  }

  datatype Task = Task(image: Picture, width: nat, filter: Filter) {
    predicate Valid() {
      Shape(image, width) && Shape(filter, |filter|)
    }

    function Height(): nat {
      |image|
    }

    predicate Inside(d1: nat, d2: nat) {
      d1 < Height() && d2 < width
    }
  }

  /** Rounds halves away from zero. */
  function Round(x: real): int {
    if x >= 0.0 then (x + 0.5).Floor else -(0.5 - x).Floor
  }

  lemma RoundIsNearest(x: real)
    ensures -0.5 <= Round(x) as real - x <= 0.5
    ensures x - Round(x) as real == 0.5 ==> x < 0.0
    ensures Round(x) as real - x == 0.5 ==> x >= 0.0
  {
  }

  lemma RoundIsMonotone(x: real, y: real)
    requires x <= y
    ensures Round(x) <= Round(y)
  {
  }

  lemma RoundOfInteger(n: int)
    ensures Round(n as real) == n
  {
  }

  function DivCeil(x: nat, divisor: nat): (q: nat)
    requires divisor > 0
  {
    if x % divisor == 0 then x / divisor else x / divisor + 1
  }

  /** The least number of divisors that reach x. */
  lemma DivCeilIsCeiling(x: nat, divisor: nat)
    requires divisor > 0
    ensures DivCeil(x, divisor) * divisor >= x
    ensures DivCeil(x, divisor) > 0 ==> (DivCeil(x, divisor) - 1) * divisor < x
  {
    assert x == x / divisor * divisor + x % divisor;
  }

  function GetIdx(origin: nat, offset: nat, size: nat, filterSize: nat): int {
    var idx := origin - DivCeil(filterSize, 2) + offset;
    if idx < 0 then 0 else if idx >= size then size - 1 else idx
  }

  /** The index is in range, and no index in range is nearer to the one wanted. */
  lemma GetIdxClamps(origin: nat, offset: nat, size: nat, filterSize: nat, other: nat)
    requires other < size
    ensures 0 <= GetIdx(origin, offset, size, filterSize) < size
    ensures var wanted, got := origin + offset - DivCeil(filterSize, 2), GetIdx(origin, offset, size, filterSize);
            (if got >= wanted then got - wanted else wanted - got)
            <= (if other >= wanted then other - wanted else wanted - other)
  {
  }

  // ----- The weighted sum

  /** The pixel under filter cell (i, j) when the output pixel is (d1, d2). */
  function Under(t: Task, d1: nat, d2: nat, i: nat, j: nat): int
    requires t.Valid() && t.Inside(d1, d2)
  {
    GetIdxClamps(d1, i, t.Height(), |t.filter|, d1);
    GetIdxClamps(d2, j, t.width, |t.filter|, d2);
    t.image[GetIdx(d1, i, t.Height(), |t.filter|)][GetIdx(d2, j, t.width, |t.filter|)]
  }

  /** The pixels under row `i` of the filter. */
  function RowUnder(t: Task, d1: nat, d2: nat, i: nat): (pixels: seq<int>)
    requires t.Valid() && t.Inside(d1, d2)
    ensures |pixels| == |t.filter|
  {
    seq(|t.filter|, j requires 0 <= j => Under(t, d1, d2, i, j))
  }

  function Times(color: int, weight: real): real {
    color as real * weight
  }

  function Dot(pixels: seq<int>, weights: seq<real>): real
    requires |pixels| == |weights|
  {
    if weights == [] then 0.0 else
    var n := |weights| - 1;
    Dot(pixels[..n], weights[..n]) + Times(pixels[n], weights[n])
  }

  /** The first `n` rows of the filter. */
  function Sum(t: Task, d1: nat, d2: nat, n: nat): real
    requires t.Valid() && t.Inside(d1, d2) && n <= |t.filter|
    decreases n
  {
    if n == 0 then 0.0 else Sum(t, d1, d2, n - 1) + Dot(RowUnder(t, d1, d2, n - 1), t.filter[n - 1])
  }

  function Pixel(t: Task, d1: nat, d2: nat): int
    requires t.Valid() && t.Inside(d1, d2)
  {
    Round(Sum(t, d1, d2, |t.filter|))
  }

  method CalcPixelValue(t: Task, d1: nat, d2: nat) returns (value: int)
    requires t.Valid() && t.Inside(d1, d2)
    ensures value == Pixel(t, d1, d2)
  {
    var sum := 0.0;
    for i := 0 to |t.filter|
      invariant sum == Sum(t, d1, d2, i)
    {
      ghost var pixels, weights := RowUnder(t, d1, d2, i), t.filter[i];
      for j := 0 to |t.filter|
        invariant sum == Sum(t, d1, d2, i) + Dot(pixels[..j], weights[..j])
      {
        assert pixels[..j + 1][..j] == pixels[..j] && weights[..j + 1][..j] == weights[..j];
        sum := sum + Times(Under(t, d1, d2, i, j), t.filter[i][j]);
      }
      assert pixels[..|t.filter|] == pixels && weights[..|t.filter|] == weights;
    }
    return Round(sum);
  }

  // ----- Which pixel a weight multiplies

  /** The filter is 1 in cell (i, j) and 0 everywhere else. */
  predicate Impulse(filter: Filter, i: nat, j: nat) {
    forall a, b :: 0 <= a < |filter| && 0 <= b < |filter[a]| ==> filter[a][b] == if a == i && b == j then 1.0 else 0.0
  }

  function Clamp(x: int, size: nat): (r: int)
    requires size > 0
    ensures 0 <= r < size
  {
    if x < 0 then 0 else if x >= size then size - 1 else x
  }

  lemma {:induction false} DotZero(pixels: seq<int>, weights: seq<real>)
    requires |pixels| == |weights| && forall b :: 0 <= b < |weights| ==> weights[b] == 0.0
    ensures Dot(pixels, weights) == 0.0
  {
    if weights != [] {
      DotZero(pixels[..|weights| - 1], weights[..|weights| - 1]);
    }
  }

  lemma {:induction false} DotImpulse(pixels: seq<int>, weights: seq<real>, j: nat)
    requires |pixels| == |weights| && j < |weights|
    requires forall b :: 0 <= b < |weights| ==> weights[b] == if b == j then 1.0 else 0.0
    ensures Dot(pixels, weights) == pixels[j] as real
  {
    var n := |weights| - 1;
    if j == n {
      DotZero(pixels[..n], weights[..n]);
    } else {
      DotImpulse(pixels[..n], weights[..n], j);
    }
  }

  lemma {:induction false} SumImpulse(t: Task, d1: nat, d2: nat, n: nat, i: nat, j: nat)
    requires t.Valid() && t.Inside(d1, d2) && n <= |t.filter| && i < |t.filter| && j < |t.filter|
    requires Impulse(t.filter, i, j)
    ensures Sum(t, d1, d2, n) == if i < n then Under(t, d1, d2, i, j) as real else 0.0
  {
    if n > 0 {
      SumImpulse(t, d1, d2, n - 1, i, j);
      var pixels, row := RowUnder(t, d1, d2, n - 1), t.filter[n - 1];
      if n - 1 == i {
        DotImpulse(pixels, row, j);
      } else {
        DotZero(pixels, row);
      }
    }
  }

  /**
    The weight in cell (i, j) multiplies the pixel i rows below and j columns right of
    the window's corner, which lies half the filter up and left; both indices are clamped.
   */
  lemma ImpulseResponse(t: Task, d1: nat, d2: nat, i: nat, j: nat)
    requires t.Valid() && t.Inside(d1, d2) && i < |t.filter| && j < |t.filter| && Impulse(t.filter, i, j)
    ensures var half := DivCeil(|t.filter|, 2);
            Pixel(t, d1, d2) == t.image[Clamp(d1 - half + i, t.Height())][Clamp(d2 - half + j, t.width)]
  {
    SumImpulse(t, d1, d2, |t.filter|, i, j);
    RoundOfInteger(Under(t, d1, d2, i, j));
  }

  lemma Distribute(color: int, a: real, b: real)
    ensures Times(color, a + b) == Times(color, a) + Times(color, b)
  {
  }

  lemma {:induction false} DotIsAdditive(pixels: seq<int>, a: seq<real>, b: seq<real>, c: seq<real>)
    requires |pixels| == |a| == |b| == |c| && forall k :: 0 <= k < |c| ==> c[k] == a[k] + b[k]
    ensures Dot(pixels, c) == Dot(pixels, a) + Dot(pixels, b)
  {
    if c != [] {
      var n := |c| - 1;
      DotIsAdditive(pixels[..n], a[..n], b[..n], c[..n]);
      Distribute(pixels[n], a[n], b[n]);
    }
  }

  /** The weights of `c` are those of `a` and `b` added up, over the same picture. */
  predicate Added(a: Task, b: Task, c: Task) {
    && a.Valid() && b.Valid() && c.Valid() && a.image == b.image == c.image && a.width == b.width == c.width
    && |a.filter| == |b.filter| == |c.filter|
    && forall i, j :: 0 <= i < |c.filter| && 0 <= j < |c.filter| ==> c.filter[i][j] == a.filter[i][j] + b.filter[i][j]
  }

  lemma SameWindow(t: Task, u: Task, d1: nat, d2: nat, i: nat)
    requires t.Valid() && u.Valid() && t.image == u.image && t.width == u.width && |t.filter| == |u.filter|
    requires t.Inside(d1, d2)
    ensures RowUnder(t, d1, d2, i) == RowUnder(u, d1, d2, i)
  {
  }

  lemma {:induction false} SumIsAdditive(a: Task, b: Task, c: Task, d1: nat, d2: nat, n: nat)
    requires Added(a, b, c) && c.Inside(d1, d2) && n <= |c.filter|
    ensures Sum(c, d1, d2, n) == Sum(a, d1, d2, n) + Sum(b, d1, d2, n)
  {
    if n > 0 {
      SumIsAdditive(a, b, c, d1, d2, n - 1);
      SameWindow(c, a, d1, d2, n - 1);
      SameWindow(c, b, d1, d2, n - 1);
      DotIsAdditive(RowUnder(c, d1, d2, n - 1), a.filter[n - 1], b.filter[n - 1], c.filter[n - 1]);
    }
  }

  function Scaled(factor: real, x: real): real {
    factor * x
  }

  lemma ScaledSum(factor: real, a: real, b: real)
    ensures Scaled(factor, a + b) == Scaled(factor, a) + Scaled(factor, b)
  {
  }

  lemma ScaledTimes(factor: real, color: int, weight: real)
    ensures Times(color, Scaled(factor, weight)) == Scaled(factor, Times(color, weight))
  {
  }

  lemma {:induction false} DotIsHomogeneous(pixels: seq<int>, a: seq<real>, b: seq<real>, factor: real)
    requires |pixels| == |a| == |b| && forall k :: 0 <= k < |b| ==> b[k] == Scaled(factor, a[k])
    ensures Dot(pixels, b) == Scaled(factor, Dot(pixels, a))
  {
    if b != [] {
      var n := |b| - 1;
      DotIsHomogeneous(pixels[..n], a[..n], b[..n], factor);
      ScaledTimes(factor, pixels[n], a[n]);
      ScaledSum(factor, Dot(pixels[..n], a[..n]), Times(pixels[n], a[n]));
    }
  }

  /** The weights of `b` are those of `a` times `factor`, over the same picture. */
  predicate Stretched(a: Task, b: Task, factor: real) {
    && a.Valid() && b.Valid() && a.image == b.image && a.width == b.width && |a.filter| == |b.filter|
    && forall i, j :: 0 <= i < |b.filter| && 0 <= j < |b.filter| ==> b.filter[i][j] == Scaled(factor, a.filter[i][j])
  }

  lemma {:induction false} SumIsHomogeneous(a: Task, b: Task, factor: real, d1: nat, d2: nat, n: nat)
    requires Stretched(a, b, factor) && b.Inside(d1, d2) && n <= |b.filter|
    ensures Sum(b, d1, d2, n) == Scaled(factor, Sum(a, d1, d2, n))
  {
    if n > 0 {
      var pixels := RowUnder(b, d1, d2, n - 1);
      SumIsHomogeneous(a, b, factor, d1, d2, n - 1);
      SameWindow(b, a, d1, d2, n - 1);
      DotIsHomogeneous(pixels, a.filter[n - 1], b.filter[n - 1], factor);
      ScaledSum(factor, Sum(a, d1, d2, n - 1), Dot(pixels, a.filter[n - 1]));
    }
  }

  // ----- What the filter does to the range of the picture

  function RowWeight(row: seq<real>): real {
    if row == [] then 0.0 else RowWeight(row[..|row| - 1]) + row[|row| - 1]
  }

  function Weight(filter: Filter): real {
    if filter == [] then 0.0 else Weight(filter[..|filter| - 1]) + RowWeight(filter[|filter| - 1])
  }

  predicate NonNegative(row: seq<real>) {
    forall j :: 0 <= j < |row| ==> row[j] >= 0.0
  }

  predicate AllNonNegative(filter: Filter) {
    forall i :: 0 <= i < |filter| ==> NonNegative(filter[i])
  }

  lemma Scale(a: int, b: int, weight: real)
    requires a <= b && weight >= 0.0
    ensures Times(a, weight) <= Times(b, weight)
  {
  }

  predicate RowBelow(a: seq<int>, b: seq<int>) {
    |a| == |b| && forall j :: 0 <= j < |a| ==> a[j] <= b[j]
  }

  predicate Below(a: Picture, b: Picture) {
    |a| == |b| && forall i :: 0 <= i < |a| ==> RowBelow(a[i], b[i])
  }

  lemma {:induction false} DotMonotone(a: seq<int>, b: seq<int>, weights: seq<real>)
    requires RowBelow(a, b) && |a| == |weights| && NonNegative(weights)
    ensures Dot(a, weights) <= Dot(b, weights)
  {
    if weights != [] {
      var n := |weights| - 1;
      DotMonotone(a[..n], b[..n], weights[..n]);
      Scale(a[n], b[n], weights[n]);
    }
  }

  lemma UnderMonotone(t: Task, u: Task, d1: nat, d2: nat, i: nat)
    requires t.Valid() && u.Valid() && t.Inside(d1, d2)
    requires u.width == t.width && u.filter == t.filter && Below(t.image, u.image)
    ensures RowBelow(RowUnder(t, d1, d2, i), RowUnder(u, d1, d2, i))
  {
    forall j | 0 <= j < |t.filter|
      ensures Under(t, d1, d2, i, j) <= Under(u, d1, d2, i, j)
    {
      GetIdxClamps(d1, i, t.Height(), |t.filter|, d1);
      GetIdxClamps(d2, j, t.width, |t.filter|, d2);
      var row := GetIdx(d1, i, t.Height(), |t.filter|);
      assert RowBelow(t.image[row], u.image[row]);
    }
  }

  lemma {:induction false} SumMonotone(t: Task, u: Task, d1: nat, d2: nat, n: nat)
    requires t.Valid() && u.Valid() && t.Inside(d1, d2) && n <= |t.filter|
    requires u.width == t.width && u.filter == t.filter && Below(t.image, u.image)
    requires AllNonNegative(t.filter)
    ensures Sum(t, d1, d2, n) <= Sum(u, d1, d2, n)
  {
    if n > 0 {
      SumMonotone(t, u, d1, d2, n - 1);
      UnderMonotone(t, u, d1, d2, n - 1);
      DotMonotone(RowUnder(t, d1, d2, n - 1), RowUnder(u, d1, d2, n - 1), t.filter[n - 1]);
    }
  }

  /** When no weight is negative, a brighter picture never gives a darker pixel. */
  lemma PixelIsMonotone(t: Task, u: Task, d1: nat, d2: nat)
    requires t.Valid() && u.Valid() && t.Inside(d1, d2)
    requires u.width == t.width && u.filter == t.filter && Below(t.image, u.image)
    requires AllNonNegative(t.filter)
    ensures Pixel(t, d1, d2) <= Pixel(u, d1, d2)
  {
    SumMonotone(t, u, d1, d2, |t.filter|);
    RoundIsMonotone(Sum(t, d1, d2, |t.filter|), Sum(u, d1, d2, |t.filter|));
  }

  function Constant(height: nat, width: nat, color: int): Picture {
    seq(height, _ => seq(width, _ => color))
  }

  lemma {:induction false} DotConstant(pixels: seq<int>, weights: seq<real>, color: int)
    requires |pixels| == |weights| && forall j :: 0 <= j < |pixels| ==> pixels[j] == color
    ensures Dot(pixels, weights) == Times(color, RowWeight(weights))
  {
    if weights != [] {
      var n := |weights| - 1;
      DotConstant(pixels[..n], weights[..n], color);
      Distribute(color, RowWeight(weights[..n]), weights[n]);
    }
  }

  lemma {:induction false} SumConstant(t: Task, d1: nat, d2: nat, n: nat, color: int)
    requires t.Valid() && t.Inside(d1, d2) && n <= |t.filter| && t.image == Constant(|t.image|, t.width, color)
    ensures Sum(t, d1, d2, n) == Times(color, Weight(t.filter[..n]))
  {
    if n > 0 {
      var row := t.filter[n - 1];
      SumConstant(t, d1, d2, n - 1, color);
      UnderConstant(t, d1, d2, n - 1, color);
      DotConstant(RowUnder(t, d1, d2, n - 1), row, color);
      var above := Weight(t.filter[..n - 1]);
      assert Weight(t.filter[..n]) == above + RowWeight(row) by {
        assert t.filter[..n][..n - 1] == t.filter[..n - 1];
      }
      Distribute(color, above, RowWeight(row));
    }
  }

  lemma UnderConstant(t: Task, d1: nat, d2: nat, i: nat, color: int)
    requires t.Valid() && t.Inside(d1, d2) && t.image == Constant(|t.image|, t.width, color)
    ensures forall j :: 0 <= j < |t.filter| ==> RowUnder(t, d1, d2, i)[j] == color
  {
    forall j | 0 <= j < |t.filter|
      ensures Under(t, d1, d2, i, j) == color
    {
      GetIdxClamps(d1, i, t.Height(), |t.filter|, d1);
      GetIdxClamps(d2, j, t.width, |t.filter|, d2);
    }
  }

  /** With any weights, a constant picture is scaled by their sum. */
  lemma ConstantIsScaled(t: Task, d1: nat, d2: nat, color: int)
    requires t.Valid() && t.Inside(d1, d2) && t.image == Constant(|t.image|, t.width, color)
    ensures Pixel(t, d1, d2) == Round(Times(color, Weight(t.filter)))
  {
    SumConstant(t, d1, d2, |t.filter|, color);
    assert t.filter[..|t.filter|] == t.filter;
  }

  /** A scaled color is unchanged exactly when it is less than a half off, or a half too near to zero. */
  lemma ConstantUnchangedExactlyWhen(t: Task, d1: nat, d2: nat, color: int)
    requires t.Valid() && t.Inside(d1, d2) && t.image == Constant(|t.image|, t.width, color)
    ensures var off := Times(color, Weight(t.filter)) - color as real;
            Pixel(t, d1, d2) == color <==> if color >= 0 then -0.5 <= off < 0.5 else -0.5 < off <= 0.5
  {
    ConstantIsScaled(t, d1, d2, color);
    RoundsBack(Times(color, Weight(t.filter)), color);
  }

  lemma RoundsBack(x: real, color: int)
    requires color == 0 ==> x == 0.0
    ensures Round(x) == color <==>
            if color >= 0 then -0.5 <= x - color as real < 0.5 else -0.5 < x - color as real <= 0.5
  {
  }

  predicate Within(image: Picture, low: int, high: int) {
    forall i, j :: 0 <= i < |image| && 0 <= j < |image[i]| ==> low <= image[i][j] <= high
  }

  /** Weights that are not negative and sum to one keep every pixel within the range of the picture. */
  lemma PixelStaysWithin(t: Task, d1: nat, d2: nat, low: int, high: int)
    requires t.Valid() && t.Inside(d1, d2) && Within(t.image, low, high)
    requires AllNonNegative(t.filter) && Weight(t.filter) == 1.0
    ensures low <= Pixel(t, d1, d2) <= high
  {
    var dark, light := t.(image := Constant(|t.image|, t.width, low)), t.(image := Constant(|t.image|, t.width, high));
    PixelIsMonotone(dark, t, d1, d2);
    PixelIsMonotone(t, light, d1, d2);
    ConstantIsScaled(dark, d1, d2, low);
    ConstantIsScaled(light, d1, d2, high);
    RoundOfInteger(low);
    RoundOfInteger(high);
  }
}
