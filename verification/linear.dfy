/**
 Dense 4x4 linear algebra over the reals: the part of numpy that the camera
 projection uses. A 4-vector is a sequence of four reals and a 4x4 matrix is a
 sequence of four rows; `MulVec` is numpy's `m.dot(v)` for a matrix and a vector.
 Floating-point rounding is not modelled: every value is an exact real.
 */
module Linear {

  type Vector4 = v: seq<real> | |v| == 4 witness [0.0, 0.0, 0.0, 0.0]

  type Matrix4 = m: seq<Vector4> | |m| == 4 witness [Zero, Zero, Zero, Zero]

  const Zero: Vector4 := [0.0, 0.0, 0.0, 0.0]

  /** The 4x4 identity matrix. */
  const Identity: Matrix4 :=
    [[1.0, 0.0, 0.0, 0.0], [0.0, 1.0, 0.0, 0.0], [0.0, 0.0, 1.0, 0.0], [0.0, 0.0, 0.0, 1.0]]

  function Dot(a: Vector4, b: Vector4): real
  {
    a[0] * b[0] + a[1] * b[1] + a[2] * b[2] + a[3] * b[3]
  }

  /**
   numpy's `m.dot(v)`: row i of the product is row i of `m` dotted with `v`.
   The j-th unit vector picks out column j.
   */
  function MulVec(m: Matrix4, v: Vector4): (r: Vector4)
    ensures forall j | 0 <= j < 4 :: v == Unit(j) ==> r == Column(m, j)
  {
    [Dot(m[0], v), Dot(m[1], v), Dot(m[2], v), Dot(m[3], v)]
  }

  function Column(m: Matrix4, j: int): Vector4
    requires 0 <= j < 4
  {
    [m[0][j], m[1][j], m[2][j], m[3][j]]
  }

  /** The j-th unit vector: one in component j, zero elsewhere. */
  function Unit(j: int): Vector4
    requires 0 <= j < 4
  {
    [if j == 0 then 1.0 else 0.0, if j == 1 then 1.0 else 0.0,
     if j == 2 then 1.0 else 0.0, if j == 3 then 1.0 else 0.0]
  }

  /** The matrix product `a · b`: cell (i, j) is row i of `a` dotted with column j of `b`. */
  function MatMul(a: Matrix4, b: Matrix4): Matrix4
  {
    [RowTimes(a[0], b), RowTimes(a[1], b), RowTimes(a[2], b), RowTimes(a[3], b)]
  }

  /** Every component of `v` multiplied by `k`. */
  function Scale(k: real, v: Vector4): Vector4
  {
    [k * v[0], k * v[1], k * v[2], k * v[3]]
  }

  /** The identity matrix leaves every vector unchanged. */
  lemma MulVecIdentity(v: Vector4)
    ensures MulVec(Identity, v) == v
  {
    var r := MulVec(Identity, v);
    assert r[0] == v[0] && r[1] == v[1] && r[2] == v[2] && r[3] == v[3];
  }

  /** Component-wise sum of two vectors. */
  function Add(u: Vector4, v: Vector4): Vector4
  {
    [u[0] + v[0], u[1] + v[1], u[2] + v[2], u[3] + v[3]]
  }

  /** The matrix-vector product is homogeneous in the vector: scaling commutes with it. */
  lemma MulVecScale(m: Matrix4, k: real, v: Vector4)
    ensures MulVec(m, Scale(k, v)) == Scale(k, MulVec(m, v))
  {
    DotScale(m[0], k, v);
    DotScale(m[1], k, v);
    DotScale(m[2], k, v);
    DotScale(m[3], k, v);
    var l, r := MulVec(m, Scale(k, v)), Scale(k, MulVec(m, v));
    assert l[0] == r[0] && l[1] == r[1] && l[2] == r[2] && l[3] == r[3];
  }

  /**
   The matrix-vector product is additive in the vector; with `MulVecScale` it is
   linear, so the columns picked out by the unit vectors determine it.
   */
  lemma MulVecAdd(m: Matrix4, u: Vector4, v: Vector4)
    ensures MulVec(m, Add(u, v)) == Add(MulVec(m, u), MulVec(m, v))
  {
    var l, r := MulVec(m, Add(u, v)), Add(MulVec(m, u), MulVec(m, v));
    assert l[0] == r[0] && l[1] == r[1] && l[2] == r[2] && l[3] == r[3];
  }

  lemma DotScale(a: Vector4, k: real, v: Vector4)
    ensures Dot(a, Scale(k, v)) == k * Dot(a, v)
  {
    Distribute(k, a[0] * v[0], a[1] * v[1], a[2] * v[2], a[3] * v[3]);
  }

  /** Multiplication distributes over a sum of four terms. */
  lemma Distribute(k: real, a: real, b: real, c: real, d: real)
    ensures k * (a + b + c + d) == k * a + k * b + k * c + k * d
  {
  }

  /**
   Applying `b` and then `a` to a vector is applying the single matrix `a · b`:
   the matrix-vector product is associative.
   */
  lemma MulVecAssociative(a: Matrix4, b: Matrix4, v: Vector4)
    ensures MulVec(a, MulVec(b, v)) == MulVec(MatMul(a, b), v)
  {
    RowAssociative(a[0], b, v);
    RowAssociative(a[1], b, v);
    RowAssociative(a[2], b, v);
    RowAssociative(a[3], b, v);
    var l, r := MulVec(a, MulVec(b, v)), MulVec(MatMul(a, b), v);
    assert l[0] == r[0] && l[1] == r[1] && l[2] == r[2] && l[3] == r[3];
  }

  /** The product of a row with the matrix `b`, as a row vector. */
  function RowTimes(row: Vector4, b: Matrix4): Vector4
  {
    [Dot(row, Column(b, 0)), Dot(row, Column(b, 1)), Dot(row, Column(b, 2)), Dot(row, Column(b, 3))]
  }

  /** One row of `MulVecAssociative`: regrouping the sixteen products of a double sum. */
  lemma RowAssociative(row: Vector4, b: Matrix4, v: Vector4)
    ensures Dot(row, MulVec(b, v)) == Dot(RowTimes(row, b), v)
  {
    // Expand the left side row by row of `b` ...
    Distribute(row[0], b[0][0] * v[0], b[0][1] * v[1], b[0][2] * v[2], b[0][3] * v[3]);
    Distribute(row[1], b[1][0] * v[0], b[1][1] * v[1], b[1][2] * v[2], b[1][3] * v[3]);
    Distribute(row[2], b[2][0] * v[0], b[2][1] * v[1], b[2][2] * v[2], b[2][3] * v[3]);
    Distribute(row[3], b[3][0] * v[0], b[3][1] * v[1], b[3][2] * v[2], b[3][3] * v[3]);
    // ... and the right side column by column.
    Distribute(v[0], row[0] * b[0][0], row[1] * b[1][0], row[2] * b[2][0], row[3] * b[3][0]);
    Distribute(v[1], row[0] * b[0][1], row[1] * b[1][1], row[2] * b[2][1], row[3] * b[3][1]);
    Distribute(v[2], row[0] * b[0][2], row[1] * b[1][2], row[2] * b[2][2], row[3] * b[3][2]);
    Distribute(v[3], row[0] * b[0][3], row[1] * b[1][3], row[2] * b[2][3], row[3] * b[3][3]);
  }
}
