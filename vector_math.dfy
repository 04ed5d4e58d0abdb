/**
 * The exact-arithmetic part of chempy's 3-space vector and matrix routines.
 * Python floats are modelled as `real`, so rounding is not modelled.
 * A vector is any sequence the routines can read three components from;
 * every routine returns a fresh three-component list, and a matrix is a
 * row-major list of rows.
 */
module VectorMath {
  import opened Wrappers

  type Vec = seq<real>
  type Mat = seq<seq<real>>

  /** Two three-component lists with equal components are equal. */
  lemma SameVec(a: Vec, b: Vec)
    requires |a| == 3 && |b| == 3 && a[0] == b[0] && a[1] == b[1] && a[2] == b[2]
    ensures a == b
  {
    assert forall i | 0 <= i < 3 :: a[i] == b[i];
  }

  /** The routines index components 0, 1 and 2, so a vector needs at least three. */
  predicate IsVec(v: Vec) { |v| >= 3 }

  /** Three rows, each readable as a vector. */
  predicate IsMat(m: Mat) { |m| >= 3 && IsVec(m[0]) && IsVec(m[1]) && IsVec(m[2]) }

  /** The shape every matrix-valued routine returns. */
  predicate IsMat3(m: Mat) { |m| == 3 && |m[0]| == 3 && |m[1]| == 3 && |m[2]| == 3 }

  function GetNull(): (r: Vec)
    ensures |r| == 3 && forall i :: 0 <= i < 3 ==> r[i] == 0.0
  {
    [0.0, 0.0, 0.0]
  }

  function GetIdentity(): (r: Mat)
    ensures IsMat3(r)
    ensures forall i, j :: 0 <= i < 3 && 0 <= j < 3 ==> r[i][j] == if i == j then 1.0 else 0.0
  {
    [[1.0, 0.0, 0.0], [0.0, 1.0, 0.0], [0.0, 0.0, 1.0]]
  }

  /** Squared Euclidean distance; zero when the two points coincide. */
  function DistanceSq(v1: Vec, v2: Vec): (r: real)
    requires IsVec(v1) && IsVec(v2)
    ensures r >= 0.0
    ensures v1[0] == v2[0] && v1[1] == v2[1] && v1[2] == v2[2] ==> r == 0.0
  {
    var d0 := v2[0] - v1[0];
    var d1 := v2[1] - v1[1];
    var d2 := v2[2] - v1[2];
    SquareNonnegative(d0);
    SquareNonnegative(d1);
    SquareNonnegative(d2);
    (d0 * d0) + (d1 * d1) + (d2 * d2)
  }

  lemma SquareNonnegative(x: real)
    ensures x * x >= 0.0
  {
    if x < 0.0 {
      assert x * x == (-x) * (-x);
    }
  }

  /** The distance does not depend on the order of the two points. */
  lemma DistanceSqSymmetric(v1: Vec, v2: Vec)
    requires IsVec(v1) && IsVec(v2)
    ensures DistanceSq(v1, v2) == DistanceSq(v2, v1)
  {
    var d0, d1, d2 := v2[0] - v1[0], v2[1] - v1[1], v2[2] - v1[2];
    assert (-d0) * (-d0) == d0 * d0;
    assert (-d1) * (-d1) == d1 * d1;
    assert (-d2) * (-d2) == d2 * d2;
  }

  function Add(v1: Vec, v2: Vec): (r: Vec)
    requires IsVec(v1) && IsVec(v2)
    ensures |r| == 3 && forall i :: 0 <= i < 3 ==> r[i] == v1[i] + v2[i]
  {
    [v1[0] + v2[0], v1[1] + v2[1], v1[2] + v2[2]]
  }

  function Average(v1: Vec, v2: Vec): (r: Vec)
    requires IsVec(v1) && IsVec(v2)
    ensures r == Scale(Add(v1, v2), 0.5)
  {
    [(v1[0] + v2[0]) / 2.0, (v1[1] + v2[1]) / 2.0, (v1[2] + v2[2]) / 2.0]
  }

  function Scale(v: Vec, factor: real): (r: Vec)
    requires IsVec(v)
    ensures |r| == 3 && forall i :: 0 <= i < 3 ==> r[i] == v[i] * factor
  {
    [v[0] * factor, v[1] * factor, v[2] * factor]
  }

  function Negate(v: Vec): (r: Vec)
    requires IsVec(v)
    ensures r == Scale(v, -1.0)
  {
    [-v[0], -v[1], -v[2]]
  }

  /** A second name for negation: the source defines the same expression twice. */
  function Reverse(v: Vec): (r: Vec)
    requires IsVec(v)
    ensures r == Negate(v)
  {
    [-v[0], -v[1], -v[2]]
  }

  function Sub(v1: Vec, v2: Vec): (r: Vec)
    requires IsVec(v1) && IsVec(v2)
    ensures r == Add(v1, Negate(v2))
  {
    [v1[0] - v2[0], v1[1] - v2[1], v1[2] - v2[2]]
  }

  function Dot(v1: Vec, v2: Vec): real
    requires IsVec(v1) && IsVec(v2)
  {
    v1[0] * v2[0] + v1[1] * v2[1] + v1[2] * v2[2]
  }

  function Cross(v1: Vec, v2: Vec): (r: Vec)
    requires IsVec(v1) && IsVec(v2)
    ensures |r| == 3
  {
    [(v1[1] * v2[2]) - (v1[2] * v2[1]),
     (v1[2] * v2[0]) - (v1[0] * v2[2]),
     (v1[0] * v2[1]) - (v1[1] * v2[0])]
  }

  /** Row i of the result is the dot product of row i of m with v. */
  function Transform(m: Mat, v: Vec): (r: Vec)
    requires IsMat(m) && IsVec(v)
    ensures |r| == 3 && forall i :: 0 <= i < 3 ==> r[i] == Dot(m[i], v)
  {
    [m[0][0] * v[0] + m[0][1] * v[1] + m[0][2] * v[2],
     m[1][0] * v[0] + m[1][1] * v[1] + m[1][2] * v[2],
     m[2][0] * v[0] + m[2][1] * v[1] + m[2][2] * v[2]]
  }

  function InverseTransform(m: Mat, v: Vec): (r: Vec)
    requires IsMat(m) && IsVec(v)
    ensures |r| == 3
  {
    [m[0][0] * v[0] + m[1][0] * v[1] + m[2][0] * v[2],
     m[0][1] * v[0] + m[1][1] * v[1] + m[2][1] * v[2],
     m[0][2] * v[0] + m[1][2] * v[1] + m[2][2] * v[2]]
  }

  /** The sum over k of m1[i][k] * m2[k][j]: one entry of the matrix product. */
  function Entry(m1: Mat, m2: Mat, i: nat, j: nat): real
    requires IsMat(m1) && IsMat(m2) && i < 3 && j < 3
  {
    m1[i][0] * m2[0][j] + m1[i][1] * m2[1][j] + m1[i][2] * m2[2][j]
  }

  function Multiply(m1: Mat, m2: Mat): (r: Mat)
    requires IsMat(m1) && IsMat(m2)
    ensures IsMat3(r)
  {
    [[Entry(m1, m2, 0, 0), Entry(m1, m2, 0, 1), Entry(m1, m2, 0, 2)],
     [Entry(m1, m2, 1, 0), Entry(m1, m2, 1, 1), Entry(m1, m2, 1, 2)],
     [Entry(m1, m2, 2, 0), Entry(m1, m2, 2, 1), Entry(m1, m2, 2, 2)]]
  }

  function Transpose(m: Mat): (r: Mat)
    requires IsMat(m)
    ensures IsMat3(r)
  {
    [[m[0][0], m[1][0], m[2][0]],
     [m[0][1], m[1][1], m[2][1]],
     [m[0][2], m[1][2], m[2][2]]]
  }

  function TransformAboutPoint(m: Mat, v: Vec, p: Vec): (r: Vec)
    requires IsMat(m) && IsVec(v) && IsVec(p)
    ensures |r| == 3
  {
    Add(Transform(m, Sub(v, p)), p)
  }

  function Project(v: Vec, n: Vec): (r: Vec)
    requires IsVec(v) && IsVec(n)
    ensures r == Scale(n, Dot(v, n))
  {
    var dot := v[0] * n[0] + v[1] * n[1] + v[2] * n[2];
    var r := [dot * n[0], dot * n[1], dot * n[2]];
    SameVec(r, Scale(n, dot));
    r
  }

  function RemoveComponent(v: Vec, n: Vec): (r: Vec)
    requires IsVec(v) && IsVec(n)
    ensures |r| == 3
  {
    var dot := v[0] * n[0] + v[1] * n[1] + v[2] * n[2];
    [v[0] - dot * n[0], v[1] - dot * n[1], v[2] - dot * n[2]]
  }

  predicate AllVecs(xs: seq<Vec>) { forall i :: 0 <= i < |xs| ==> IsVec(xs[i]) }

  function TransformArray(rot: Mat, xs: seq<Vec>): (r: seq<Vec>)
    requires IsMat(rot) && AllVecs(xs)
    ensures |r| == |xs| && forall i :: 0 <= i < |xs| ==> r[i] == Transform(rot, xs[i])
  {
    seq(|xs|, i requires 0 <= i < |xs| => Transform(rot, xs[i]))
  }

  function TranslateArray(t: Vec, xs: seq<Vec>): (r: seq<Vec>)
    requires IsVec(t) && AllVecs(xs)
    ensures |r| == |xs| && forall i :: 0 <= i < |xs| ==> r[i] == Add(t, xs[i])
  {
    seq(|xs|, i requires 0 <= i < |xs| => Add(t, xs[i]))
  }

  /** The (t1, t2, rotation, rmsd) tuple that fit returns. */
  datatype FitResult = FitResult(t1: Vec, t2: Vec, rot: Mat, rmsd: real)

  predicate WellFormedFit(f: FitResult) { IsVec(f.t1) && IsVec(f.t2) && IsMat(f.rot) }

  /** Adds t2 (it does not subtract it), rotates, then adds t1. */
  function FitApply(f: FitResult, xs: seq<Vec>): (r: seq<Vec>)
    requires WellFormedFit(f) && AllVecs(xs)
    ensures |r| == |xs|
    ensures forall i :: 0 <= i < |xs| ==> r[i] == Add(f.t1, Transform(f.rot, Add(f.t2, xs[i])))
  {
    seq(|xs|, i requires 0 <= i < |xs| => Add(f.t1, Transform(f.rot, Add(f.t2, xs[i]))))
  }

  /** Multiplies every row of s by factor, appending rows in order. */
  method ScaleSystem(s: seq<Vec>, factor: real) returns (r: seq<Vec>)
    requires AllVecs(s)
    ensures |r| == |s|
    ensures forall i :: 0 <= i < |s| ==> r[i] == Scale(s[i], factor)
  {
    r := [];
    for i := 0 to |s|
      invariant |r| == i
      invariant forall k :: 0 <= k < i ==> r[k] == Scale(s[k], factor)
    {
      var a := s[i];
      var row := [a[0] * factor, a[1] * factor, a[2] * factor];
      SameVec(row, Scale(a, factor));
      r := r + [row];
    }
  }

  // ---------------------------------------------------------------- identities

  lemma InverseTransformIsTransposed(m: Mat, v: Vec)
    requires IsMat(m) && IsVec(v)
    ensures InverseTransform(m, v) == Transform(Transpose(m), v)
  {
    SameVec(InverseTransform(m, v), Transform(Transpose(m), v));
  }

  lemma TransposeEntries(m: Mat)
    requires IsMat(m)
    ensures forall i, j :: 0 <= i < 3 && 0 <= j < 3 ==> Transpose(m)[i][j] == m[j][i]
  {
  }

  lemma TransposeInvolution(m: Mat)
    requires IsMat3(m)
    ensures Transpose(Transpose(m)) == m
  {
    var t := Transpose(Transpose(m));
    assert t[0] == m[0] && t[1] == m[1] && t[2] == m[2];
  }

  lemma MultiplyEntries(m1: Mat, m2: Mat)
    requires IsMat(m1) && IsMat(m2)
    ensures forall i, j :: 0 <= i < 3 && 0 <= j < 3 ==> Multiply(m1, m2)[i][j] == Entry(m1, m2, i, j)
  {
  }

  /** Applying the product is applying m2 and then m1. */
  lemma MultiplyComposesTransforms(m1: Mat, m2: Mat, v: Vec)
    requires IsMat(m1) && IsMat(m2) && IsVec(v)
    ensures Transform(Multiply(m1, m2), v) == Transform(m1, Transform(m2, v))
  {
    var p := Multiply(m1, m2);
    var w := Transform(m2, v);
    MultiplyEntries(m1, m2);
    RowComposes(m1, m2, v, 0);
    RowComposes(m1, m2, v, 1);
    RowComposes(m1, m2, v, 2);
    SameVec(Transform(p, v), Transform(m1, w));
  }

  lemma RowComposes(m1: Mat, m2: Mat, v: Vec, i: nat)
    requires IsMat(m1) && IsMat(m2) && IsVec(v) && i < 3
    requires forall j :: 0 <= j < 3 ==> Multiply(m1, m2)[i][j] == Entry(m1, m2, i, j)
    ensures Dot(Multiply(m1, m2)[i], v) == Dot(m1[i], Transform(m2, v))
  {
    RowTimesProduct(m1[i][0], m1[i][1], m1[i][2],
                    m2[0][0], m2[0][1], m2[0][2],
                    m2[1][0], m2[1][1], m2[1][2],
                    m2[2][0], m2[2][1], m2[2][2],
                    v[0], v[1], v[2]);
  }

  /** One row of the associativity of the matrix product, on scalars. */
  lemma RowTimesProduct(a0: real, a1: real, a2: real,
                        b00: real, b01: real, b02: real,
                        b10: real, b11: real, b12: real,
                        b20: real, b21: real, b22: real,
                        v0: real, v1: real, v2: real)
    ensures (a0 * b00 + a1 * b10 + a2 * b20) * v0
          + (a0 * b01 + a1 * b11 + a2 * b21) * v1
          + (a0 * b02 + a1 * b12 + a2 * b22) * v2
         == a0 * (b00 * v0 + b01 * v1 + b02 * v2)
          + a1 * (b10 * v0 + b11 * v1 + b12 * v2)
          + a2 * (b20 * v0 + b21 * v1 + b22 * v2)
  {
  }

  lemma CrossIsOrthogonal(a: Vec, b: Vec)
    requires IsVec(a) && IsVec(b)
    ensures Dot(Cross(a, b), a) == 0.0 && Dot(Cross(a, b), b) == 0.0
  {
  }

  lemma CrossWithItselfIsNull(v: Vec)
    requires IsVec(v)
    ensures Cross(v, v) == GetNull()
  {
  }

  lemma RemoveComponentIsSubProject(v: Vec, n: Vec)
    requires IsVec(v) && IsVec(n)
    ensures RemoveComponent(v, n) == Sub(v, Project(v, n))
  {
  }

  lemma TransformAboutPointFixesPoint(m: Mat, p: Vec)
    requires IsMat(m) && |p| == 3
    ensures TransformAboutPoint(m, p, p) == p
  {
  }

  // ---------------------------------------------------------------- fit prefix

  /** Why fit refuses its input; the first two are the ValueErrors it raises. */
  datatype FitError =
    | LengthMismatch        // the two arrays differ in length
    | NotThreeDimensional   // target_array[0] or source_array[0] is not 3 long
    | IndexOutOfRange       // an empty array, or a later vector with fewer than 3 components

  /** The sum of component j over all vectors. */
  function ColumnSum(xs: seq<Vec>, j: nat): real
    requires j < 3 && AllVecs(xs)
  {
    if xs == [] then 0.0 else ColumnSum(xs[..|xs| - 1], j) + xs[|xs| - 1][j]
  }

  /** The per-axis mean of a non-empty array. */
  function Centroid(xs: seq<Vec>): (c: Vec)
    requires |xs| > 0 && AllVecs(xs)
    ensures |c| == 3
  {
    var n := |xs| as real;
    [ColumnSum(xs, 0) / n, ColumnSum(xs, 1) / n, ColumnSum(xs, 2) / n]
  }

  /**
   * The input checks and the centre-of-mass loops that open fit:
   * it returns the translation vectors t1 (target) and t2 (source).
   */
  method FitCentroids(target: seq<Vec>, source: seq<Vec>) returns (r: Result<(Vec, Vec), FitError>)
    ensures |target| != |source| ==> r == Err(LengthMismatch)
    ensures |target| == |source| == 0 ==> r == Err(IndexOutOfRange)
    ensures |target| == |source| > 0 && (|target[0]| != 3 || |source[0]| != 3) ==> r == Err(NotThreeDimensional)
    ensures r.Ok? <==> |target| == |source| > 0 && |target[0]| == 3 && |source[0]| == 3
                       && AllVecs(target) && AllVecs(source)
    ensures r.Ok? ==> r.value.0 == Centroid(target) && r.value.1 == Centroid(source)
  {
    if |target| != |source| {
      return Err(LengthMismatch);
    }
    if |target| == 0 {
      return Err(IndexOutOfRange);
    }
    if |target[0]| != 3 || |source[0]| != 3 {
      return Err(NotThreeDimensional);
    }
    var nvec := |target|;
    var t1 := GetNull();
    var t2 := GetNull();
    for i := 0 to nvec
      invariant |t1| == 3 && |t2| == 3
      invariant AllVecs(target[..i]) && AllVecs(source[..i])
      invariant forall j :: 0 <= j < 3 ==> t1[j] == ColumnSum(target[..i], j) && t2[j] == ColumnSum(source[..i], j)
    {
      if |target[i]| < 3 || |source[i]| < 3 {
        return Err(IndexOutOfRange);
      }
      for j := 0 to 3
        invariant |t1| == 3 && |t2| == 3
        invariant AllVecs(target[..i + 1]) && AllVecs(source[..i + 1])
        invariant forall k :: 0 <= k < j ==> t1[k] == ColumnSum(target[..i + 1], k) && t2[k] == ColumnSum(source[..i + 1], k)
        invariant forall k :: j <= k < 3 ==> t1[k] == ColumnSum(target[..i], k) && t2[k] == ColumnSum(source[..i], k)
      {
        assert target[..i + 1][..i] == target[..i] && source[..i + 1][..i] == source[..i];
        t1 := t1[j := t1[j] + target[i][j]];
        t2 := t2[j := t2[j] + source[i][j]];
      }
    }
    assert target[..nvec] == target && source[..nvec] == source;
    for j := 0 to 3
      invariant |t1| == 3 && |t2| == 3
      invariant forall k :: 0 <= k < j ==> t1[k] == ColumnSum(target, k) / nvec as real && t2[k] == ColumnSum(source, k) / nvec as real
      invariant forall k :: j <= k < 3 ==> t1[k] == ColumnSum(target, k) && t2[k] == ColumnSum(source, k)
    {
      t1 := t1[j := t1[j] / nvec as real];
      t2 := t2[j := t2[j] / nvec as real];
    }
    return Ok((t1, t2));
  }

  /** Translating every point by t moves the centroid fit reports by t. */
  lemma CentroidOfTranslatedArray(t: Vec, xs: seq<Vec>)
    requires IsVec(t) && |xs| > 0 && AllVecs(xs)
    ensures Centroid(TranslateArray(t, xs)) == Add(t, Centroid(xs))
  {
    var c, d := Centroid(TranslateArray(t, xs)), Add(t, Centroid(xs));
    ColumnSumRepeats(t, xs, 0);
    ColumnSumRepeats(t, xs, 1);
    ColumnSumRepeats(t, xs, 2);
    MeanOfShifted(ColumnSum(xs, 0), |xs|, t[0]);
    MeanOfShifted(ColumnSum(xs, 1), |xs|, t[1]);
    MeanOfShifted(ColumnSum(xs, 2), |xs|, t[2]);
    SameVec(c, d);
  }

  /** Adding `t` to each of `n` summands moves their mean by `t`. */
  lemma MeanOfShifted(sum: real, n: nat, t: real)
    requires n > 0
    ensures (sum + Repeat(t, n)) / (n as real) == t + sum / (n as real)
  {
    RepeatIsProduct(t, n);
    assert ((n as real) * t) / (n as real) == t;
  }

  /** `v` added `n` times. */
  function Repeat(v: real, n: nat): real
  {
    if n == 0 then 0.0 else Repeat(v, n - 1) + v
  }

  lemma {:induction false} RepeatIsProduct(v: real, n: nat)
    ensures Repeat(v, n) == (n as real) * v
  {
    if n > 0 {
      RepeatIsProduct(v, n - 1);
      assert (n as real) * v == ((n - 1) as real) * v + v;
    }
  }

  lemma {:induction false} ColumnSumRepeats(t: Vec, xs: seq<Vec>, j: nat)
    requires IsVec(t) && j < 3 && AllVecs(xs)
    ensures ColumnSum(TranslateArray(t, xs), j) == ColumnSum(xs, j) + Repeat(t[j], |xs|)
  {
    if xs != [] {
      var init := xs[..|xs| - 1];
      var ys := TranslateArray(t, xs);
      ColumnSumRepeats(t, init, j);
      assert ys[..|ys| - 1] == TranslateArray(t, init);
    }
  }

  // ---------------------------------------------------------------------
  // Moving a whole array: rotation, translation and fit_apply

  /** Rotating every point rotates the centroid: `transform_array` commutes with the mean. */
  lemma CentroidOfTransformedArray(rot: Mat, xs: seq<Vec>)
    requires IsMat(rot) && |xs| > 0 && AllVecs(xs)
    ensures Centroid(TransformArray(rot, xs)) == Transform(rot, Centroid(xs))
  {
    var c, d := Centroid(TransformArray(rot, xs)), Transform(rot, Centroid(xs));
    CentroidRow(rot, xs, 0);
    CentroidRow(rot, xs, 1);
    CentroidRow(rot, xs, 2);
    SameVec(c, d);
  }

  /** Row `i` of the rotation applied to the centroid is the mean of component `i` of the rotated points. */
  lemma CentroidRow(rot: Mat, xs: seq<Vec>, i: nat)
    requires IsMat(rot) && |xs| > 0 && AllVecs(xs) && i < 3
    ensures ColumnSum(TransformArray(rot, xs), i) / (|xs| as real) == Dot(rot[i], Centroid(xs))
  {
    ColumnSumTransformed(rot, xs, i);
    DotSumLinear(rot[i], xs);
    MeanDot(rot[i], Sums(xs), |xs| as real);
    assert Centroid(xs) == [Sums(xs)[0] / (|xs| as real), Sums(xs)[1] / (|xs| as real), Sums(xs)[2] / (|xs| as real)];
  }

  /** The three column sums. */
  function Sums(xs: seq<Vec>): (r: Vec)
    requires AllVecs(xs)
    ensures |r| == 3
  {
    [ColumnSum(xs, 0), ColumnSum(xs, 1), ColumnSum(xs, 2)]
  }

  lemma MeanDot(row: Vec, v: Vec, n: real)
    requires IsVec(row) && IsVec(v) && n > 0.0
    ensures Dot(row, v) / n == Dot(row, [v[0] / n, v[1] / n, v[2] / n])
  {
    MeanOfCombination(row[0], row[1], row[2], v[0], v[1], v[2], n);
  }

  /** The sum of `row · x` over the points `x`. */
  function DotSum(row: Vec, xs: seq<Vec>): real
    requires IsVec(row) && AllVecs(xs)
  {
    if xs == [] then 0.0 else DotSum(row, xs[..|xs| - 1]) + Dot(row, xs[|xs| - 1])
  }

  /** Component `i` summed over a rotated array is the sum of row `i` dotted with each point. */
  lemma {:induction false} ColumnSumTransformed(rot: Mat, xs: seq<Vec>, i: nat)
    requires IsMat(rot) && AllVecs(xs) && i < 3
    ensures ColumnSum(TransformArray(rot, xs), i) == DotSum(rot[i], xs)
  {
    if xs != [] {
      var ys := TransformArray(rot, xs);
      ColumnSumTransformed(rot, xs[..|xs| - 1], i);
      assert ys[..|ys| - 1] == TransformArray(rot, xs[..|xs| - 1]);
    }
  }

  /** Dotting a fixed row is linear, so the sum of the dots is the row dotted with the column sums. */
  lemma {:induction false} DotSumLinear(row: Vec, xs: seq<Vec>)
    requires IsVec(row) && AllVecs(xs)
    ensures DotSum(row, xs) == Dot(row, Sums(xs))
  {
    if xs != [] {
      var init, x := xs[..|xs| - 1], xs[|xs| - 1];
      DotSumLinear(row, init);
      Regroup(row[0], row[1], row[2], ColumnSum(init, 0), ColumnSum(init, 1), ColumnSum(init, 2), x[0], x[1], x[2]);
    }
  }

  lemma Regroup(a: real, b: real, c: real, s0: real, s1: real, s2: real, x0: real, x1: real, x2: real)
    ensures (a * s0 + b * s1 + c * s2) + (a * x0 + b * x1 + c * x2) == a * (s0 + x0) + b * (s1 + x1) + c * (s2 + x2)
  {
  }

  lemma MeanOfCombination(a: real, b: real, c: real, s0: real, s1: real, s2: real, n: real)
    requires n > 0.0
    ensures (a * s0 + b * s1 + c * s2) / n == a * (s0 / n) + b * (s1 / n) + c * (s2 / n)
  {
    assert a * (s0 / n) == (a * s0) / n;
    assert b * (s1 / n) == (b * s1) / n;
    assert c * (s2 / n) == (c * s2) / n;
  }

  /** `fit_apply` is `translate_array(t1, transform_array(m, translate_array(t2, xs)))`. */
  lemma FitApplyComposes(f: FitResult, xs: seq<Vec>)
    requires WellFormedFit(f) && AllVecs(xs)
    ensures FitApply(f, xs) == TranslateArray(f.t1, TransformArray(f.rot, TranslateArray(f.t2, xs)))
  {
  }

  /** `fit_apply` moves the centroid the way it moves a single point. */
  lemma CentroidOfFitApply(f: FitResult, xs: seq<Vec>)
    requires WellFormedFit(f) && |xs| > 0 && AllVecs(xs)
    ensures Centroid(FitApply(f, xs)) == Add(f.t1, Transform(f.rot, Add(f.t2, Centroid(xs))))
  {
    var ys := TranslateArray(f.t2, xs);
    var zs := TransformArray(f.rot, ys);
    FitApplyComposes(f, xs);
    CentroidOfTranslatedArray(f.t2, xs);
    CentroidOfTransformedArray(f.rot, ys);
    CentroidOfTranslatedArray(f.t1, zs);
  }

  /**
   * As written, fit_apply adds `t2`, which fit sets to the source centroid
   * itself, so the source centroid lands at `t1 + m(2c)` rather than at `t1`.
   */
  lemma FitApplyDoublesCentroid(f: FitResult, xs: seq<Vec>)
    requires WellFormedFit(f) && |xs| > 0 && AllVecs(xs) && f.t2 == Centroid(xs)
    ensures Centroid(FitApply(f, xs)) == Add(f.t1, Transform(f.rot, Scale(Centroid(xs), 2.0)))
  {
    CentroidOfFitApply(f, xs);
    var c := Centroid(xs);
    SameVec(Add(c, c), Scale(c, 2.0));
  }

  /** One point at `[1, 0, 0]`, fitted with the identity: fit_apply moves it to `[2, 0, 0]`, not to `t1`. */
  lemma FitApplyMissesTarget()
    ensures var xs := [[1.0, 0.0, 0.0]];
            var f := FitResult([0.0, 0.0, 0.0], Centroid(xs), GetIdentity(), 0.0);
            FitApply(f, xs) == [[2.0, 0.0, 0.0]] && Centroid(FitApply(f, xs)) != f.t1
  {
    var xs := [[1.0, 0.0, 0.0]];
    assert ColumnSum(xs, 0) == 1.0 && ColumnSum(xs, 1) == 0.0 && ColumnSum(xs, 2) == 0.0;
    var f := FitResult([0.0, 0.0, 0.0], Centroid(xs), GetIdentity(), 0.0);
    assert f.t2 == [1.0, 0.0, 0.0];
    var ys := FitApply(f, xs);
    assert ys[0] == [2.0, 0.0, 0.0];
    assert ys == [[2.0, 0.0, 0.0]];
    assert ColumnSum(ys, 0) == 2.0;
  }

  /** The evidently intended fit_apply: subtract `t2` (the source centre), rotate, add `t1`. */
  function FitApplyCentered(f: FitResult, xs: seq<Vec>): (r: seq<Vec>)
    requires WellFormedFit(f) && AllVecs(xs)
    ensures r == TranslateArray(f.t1, TransformArray(f.rot, TranslateArray(Negate(f.t2), xs)))
  {
    seq(|xs|, i requires 0 <= i < |xs| => Add(f.t1, Transform(f.rot, Sub(xs[i], f.t2))))
  }

  /** Applied to the source it was fitted from, the corrected fit_apply puts the source centroid on `t1`. */
  lemma FitApplyCenteredHitsTarget(f: FitResult, xs: seq<Vec>)
    requires WellFormedFit(f) && |f.t1| == 3 && |xs| > 0 && AllVecs(xs) && f.t2 == Centroid(xs)
    ensures Centroid(FitApplyCentered(f, xs)) == f.t1
  {
    var c := Centroid(xs);
    var ys := TranslateArray(Negate(c), xs);
    var zs := TransformArray(f.rot, ys);
    CentroidOfTranslatedArray(Negate(c), xs);
    assert Centroid(ys) == [0.0, 0.0, 0.0];
    CentroidOfTransformedArray(f.rot, ys);
    assert Centroid(zs) == [0.0, 0.0, 0.0];
    CentroidOfTranslatedArray(f.t1, zs);
    SameVec(Add(f.t1, Centroid(zs)), f.t1);
  }
}
