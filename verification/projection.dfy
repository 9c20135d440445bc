/**
 The projection pipeline inlined in `Camera_VTK.timer_callback`
 (vtk_camera_projection.py), pulled out as pure functions: a world point is
 made homogeneous, taken to camera space by the model-view matrix, to clip space
 by the projection matrix, divided by its fourth component and scaled by half
 the window size, then mapped to an OpenCV pixel.

 The source never checks the fourth component: with a zero one numpy yields an
 infinity or a NaN and the later `int(...)` raises. The model reports that case
 as `Err(DegenerateProjection)`.
 */
module Projection {
  import opened Linear
  import opened Raster
  import MatrixCopy

  datatype ProjectionError = DegenerateProjection

  datatype Result<T> = Ok(value: T) | Err(error: ProjectionError)

  /** A world-space position. */
  datatype Point3 = Point3(x: real, y: real, z: real)

  /** The window size the source configures (`self.windowSize = 600`). */
  const DefaultWindowSize: int := 600

  /** `(x, y, z, 1)`: the point as a homogeneous 4-vector (`shperePos`). */
  function Homogeneous(p: Point3): (h: Vector4)
    ensures h[3] != 0.0 && Dehomogenise(h) == p
  {
    [p.x, p.y, p.z, 1.0]
  }

  /** The world point a homogeneous vector with a nonzero fourth component stands for. */
  function Dehomogenise(q: Vector4): Point3
    requires q[3] != 0.0
  {
    Point3(q[0] / q[3], q[1] / q[3], q[2] / q[3])
  }

  /**
   Camera-space position (`Rt.dot(shperePos)`): the model-view matrix applied to
   the homogeneous point. A rigid view transform, whose last row is `(0, 0, 0, 1)`
   as VTK's model-view matrix is, keeps the fourth component at 1.
   */
  function CameraCoords(p: Point3, modelView: Matrix4): (c: Vector4)
    ensures modelView[3] == [0.0, 0.0, 0.0, 1.0] ==> c[3] == 1.0
  {
    MulVec(modelView, Homogeneous(p))
  }

  /**
   Clip-space position of a homogeneous point: model-view first, then projection.
   It is the single combined matrix `projection · modelView` applied to the point.
   */
  function ClipOf(q: Vector4, modelView: Matrix4, projection: Matrix4): (v: Vector4)
    ensures v == MulVec(MatMul(projection, modelView), q)
  {
    MulVecAssociative(projection, modelView, q);
    MulVec(projection, MulVec(modelView, q))
  }

  /**
   Clip-space position of a world point (`K_c.dot(shpere_c)`). For a perspective
   projection, whose last row is `(0, 0, -1, 0)`, the fourth component is the
   negated camera-space depth; for a parallel projection with last row
   `(0, 0, 0, 1)` and a rigid view it stays 1.
   */
  function ClipCoords(p: Point3, modelView: Matrix4, projection: Matrix4): (v: Vector4)
    ensures v == ClipOf(Homogeneous(p), modelView, projection)
    ensures projection[3] == [0.0, 0.0, -1.0, 0.0] ==> v[3] == -CameraCoords(p, modelView)[2]
    ensures projection[3] == [0.0, 0.0, 0.0, 1.0] && modelView[3] == [0.0, 0.0, 0.0, 1.0] ==> v[3] == 1.0
  {
    MulVec(projection, CameraCoords(p, modelView))
  }

  /**
   The perspective divide and scaling `v / v[-1] * windowSize / 2.0`: every
   component divided by the fourth and multiplied by half the window size.
   */
  function DivideAndScale(v: Vector4, windowSize: int): (r: Vector4)
    requires v[3] != 0.0
    ensures r[3] == windowSize as real / 2.0
    ensures forall i :: 0 <= i < 4 ==> r[i] * v[3] == v[i] * (windowSize as real / 2.0)
  {
    [DivideComponent(v[0], v[3], windowSize), DivideComponent(v[1], v[3], windowSize),
     DivideComponent(v[2], v[3], windowSize), DivideComponent(v[3], v[3], windowSize)]
  }

  /** One component `c` of the clip vector divided by its fourth `w` and scaled. */
  function DivideComponent(c: real, w: real, windowSize: int): real
    requires w != 0.0
  {
    c / w * windowSize as real / 2.0
  }

  /** A raster position before the conversion to integers. */
  datatype RasterCoords = RasterCoords(x: real, y: real)

  /**
   `r` is what the clip vector `v` projects to: a failure exactly when its fourth
   component is zero, and otherwise the raster position whose offsets from the
   viewport centre (`x` rightward, `y` upward) are the first two components of
   `v` over the fourth, times half the window size.
   */
  predicate RasterOf(v: Vector4, width: int, height: int, windowSize: int, r: Result<RasterCoords>)
  {
    && (r.Err? <==> v[3] == 0.0)
    && (r.Ok? ==> (r.value.x - width as real / 2.0) * v[3] == v[0] * (windowSize as real / 2.0))
    && (r.Ok? ==> (height as real / 2.0 - r.value.y) * v[3] == v[1] * (windowSize as real / 2.0))
  }

  /** Raster position of a homogeneous point, or the failure of its perspective divide. */
  function ProjectHomogeneous(q: Vector4, modelView: Matrix4, projection: Matrix4,
                              width: int, height: int, windowSize: int): (r: Result<RasterCoords>)
    ensures RasterOf(ClipOf(q, modelView, projection), width, height, windowSize, r)
  {
    var v := ClipOf(q, modelView, projection);
    if v[3] == 0.0 then
      Err(DegenerateProjection)
    else
      var s := DivideAndScale(v, windowSize);
      Ok(RasterCoords(RasterX(width, s[0]), RasterY(height, s[1])))
  }

  /**
   Raster position of the world point `p`, before truncation: the two arguments
   of `int(...)`, or the failure of the perspective divide.
   */
  function ProjectToRaster(p: Point3, modelView: Matrix4, projection: Matrix4,
                           width: int, height: int, windowSize: int): (r: Result<RasterCoords>)
    ensures RasterOf(ClipCoords(p, modelView, projection), width, height, windowSize, r)
  {
    ProjectHomogeneous(Homogeneous(p), modelView, projection, width, height, windowSize)
  }

  /**
   The pixel at which the world point `p` is drawn: the projected raster
   position truncated toward zero, or the failure of the perspective divide.
   */
  function Project(p: Point3, modelView: Matrix4, projection: Matrix4,
                   width: int, height: int, windowSize: int): (r: Result<Pixel>)
    ensures var raster := ProjectToRaster(p, modelView, projection, width, height, windowSize);
            && (r.Err? <==> raster.Err?)
            && (r.Ok? ==> TruncatesTo(raster.value.x, r.value.px) && TruncatesTo(raster.value.y, r.value.py))
  {
    match ProjectToRaster(p, modelView, projection, width, height, windowSize)
    case Err(e) => Err(e)
    case Ok(raster) => Ok(ToPixel(raster.x, raster.y))
  }

  /**
   One timer tick: the projection and model-view matrices are copied out of
   their VTK objects and the point is projected with the copies.
   */
  method TimerCallbackProjection(p: Point3, projectionSource: MatrixCopy.VtkMatrix4x4,
                                 modelViewSource: MatrixCopy.VtkMatrix4x4,
                                 width: int, height: int, windowSize: int)
    returns (r: Result<Pixel>)
    ensures r == Project(p, MatrixCopy.Dense(modelViewSource), MatrixCopy.Dense(projectionSource),
                         width, height, windowSize)
  {
    var kc := MatrixCopy.CopyMatrix4x4(projectionSource);
    var rt := MatrixCopy.CopyMatrix4x4(modelViewSource);
    MatrixCopy.CopyIsDense(projectionSource, kc);
    MatrixCopy.CopyIsDense(modelViewSource, rt);
    r := Project(p, rt, kc, width, height, windowSize);
  }

  // ---------------------------------------------------------------------------
  // Properties of the pipeline

  /**
   With a perspective projection (last row `(0, 0, -1, 0)`) the projection fails
   exactly for points on the camera's eye plane, camera-space depth zero.
   */
  lemma PerspectiveFailsOnEyePlane(p: Point3, modelView: Matrix4, projection: Matrix4,
                                   width: int, height: int, windowSize: int)
    requires projection[3] == [0.0, 0.0, -1.0, 0.0]
    ensures Project(p, modelView, projection, width, height, windowSize).Err?
        <==> CameraCoords(p, modelView)[2] == 0.0
  {
  }

  /** Moving the point by `d` moves its camera-space position by the linear part of the view only. */
  lemma CameraDisplacement(p: Point3, d: Point3, modelView: Matrix4)
    ensures var moved := Point3(p.x + d.x, p.y + d.y, p.z + d.z);
            forall i | 0 <= i < 4 ::
              CameraCoords(moved, modelView)[i] - CameraCoords(p, modelView)[i]
              == modelView[i][0] * d.x + modelView[i][1] * d.y + modelView[i][2] * d.z
  {
  }

  /** Every nonzero multiple of `(x, y, z, 1)` stands for the same world point. */
  lemma DehomogeniseScale(p: Point3, k: real)
    requires k != 0.0
    ensures Scale(k, Homogeneous(p))[3] != 0.0
    ensures Dehomogenise(Scale(k, Homogeneous(p))) == p
  {
    var q := Scale(k, Homogeneous(p));
    CancelCommonFactor(k, p.x, 1.0);
    CancelCommonFactor(k, p.y, 1.0);
    CancelCommonFactor(k, p.z, 1.0);
  }

  /**
   The order matters: with a translation as model-view and a scaling as
   projection, applying them the other way round gives another clip vector.
   */
  lemma CompositionOrderMatters()
    ensures var translate: Matrix4 := [[1.0, 0.0, 0.0, 1.0], [0.0, 1.0, 0.0, 0.0], [0.0, 0.0, 1.0, 0.0], [0.0, 0.0, 0.0, 1.0]];
            var scale: Matrix4 := [[2.0, 0.0, 0.0, 0.0], [0.0, 2.0, 0.0, 0.0], [0.0, 0.0, 2.0, 0.0], [0.0, 0.0, 0.0, 1.0]];
            var origin := Point3(0.0, 0.0, 0.0);
            ClipCoords(origin, translate, scale)[0] == 2.0
            && ClipOf(Homogeneous(origin), scale, translate)[0] == 1.0
  {
  }

  /**
   Divide-invariance: scaling the clip vector by any nonzero constant leaves the
   divided and scaled vector unchanged.
   */
  lemma DivideInvariant(v: Vector4, k: real, windowSize: int)
    requires v[3] != 0.0 && k != 0.0
    ensures Scale(k, v)[3] != 0.0
    ensures DivideAndScale(Scale(k, v), windowSize) == DivideAndScale(v, windowSize)
  {
    var kv := Scale(k, v);
    assert kv[3] == k * v[3];
    ScaledComponent(k, v[0], v[3], kv[0], kv[3], windowSize);
    ScaledComponent(k, v[1], v[3], kv[1], kv[3], windowSize);
    ScaledComponent(k, v[2], v[3], kv[2], kv[3], windowSize);
    ScaledComponent(k, v[3], v[3], kv[3], kv[3], windowSize);
  }

  /** One component of `DivideInvariant`: the common factor cancels before the scaling. */
  lemma ScaledComponent(k: real, a: real, d: real, ka: real, kd: real, windowSize: int)
    requires k != 0.0 && d != 0.0 && ka == k * a && kd == k * d
    ensures kd != 0.0
    ensures DivideComponent(ka, kd, windowSize) == DivideComponent(a, d, windowSize)
  {
    CancelCommonFactor(k, a, d);
  }

  /** `(k*a) / (k*b) == a / b` for nonzero `k` and `b`. */
  lemma CancelCommonFactor(k: real, a: real, b: real)
    requires k != 0.0 && b != 0.0
    ensures (k * a) / (k * b) == a / b
  {
  }

  /**
   A homogeneous point and any nonzero multiple of it project to the same raster
   position (and both fail together).
   */
  lemma HomogeneousScaleInvariant(q: Vector4, k: real, modelView: Matrix4, projection: Matrix4,
                                  width: int, height: int, windowSize: int)
    requires k != 0.0
    ensures ProjectHomogeneous(Scale(k, q), modelView, projection, width, height, windowSize)
         == ProjectHomogeneous(q, modelView, projection, width, height, windowSize)
  {
    var v := ClipOf(q, modelView, projection);
    MulVecScale(modelView, k, q);
    MulVecScale(projection, k, MulVec(modelView, q));
    assert ClipOf(Scale(k, q), modelView, projection) == Scale(k, v);
    if v[3] != 0.0 {
      DivideInvariant(v, k, windowSize);
    }
  }

  /**
   With identity model-view and projection matrices the raster position is
   `(w*0.5 + x*windowSize/2, h/2 - y*windowSize/2)`.
   */
  lemma IdentityClosedForm(p: Point3, width: int, height: int, windowSize: int)
    ensures ProjectToRaster(p, Identity, Identity, width, height, windowSize)
         == Ok(RasterCoords(width as real * 0.5 + p.x * windowSize as real / 2.0,
                            height as real / 2.0 - p.y * windowSize as real / 2.0))
  {
    var q := Homogeneous(p);
    MulVecIdentity(q);
    MulVecIdentity(MulVec(Identity, q));
    var s := DivideAndScale(q, windowSize);
    assert s[0] == p.x * windowSize as real / 2.0;
    assert s[1] == p.y * windowSize as real / 2.0;
  }

  /**
   The sphere of the source at (10, 10, 10), identity matrices, a 600x600
   viewport and window size 600: drawn at (3300, -2700), off-screen and unclamped.
   */
  lemma SphereExample()
    ensures Project(Point3(10.0, 10.0, 10.0), Identity, Identity, 600, 600, DefaultWindowSize)
         == Ok(Pixel(3300, -2700))
  {
    IdentityClosedForm(Point3(10.0, 10.0, 10.0), 600, 600, DefaultWindowSize);
    TruncOfInt(3300);
    TruncOfInt(-2700);
  }

  /**
   Resizing the viewport moves the raster position by half the change of width
   and half the change of height, and does not change whether the divide fails.
   */
  lemma ProjectViewportShift(p: Point3, modelView: Matrix4, projection: Matrix4,
                             w1: int, h1: int, w2: int, h2: int, windowSize: int)
    ensures var r1 := ProjectToRaster(p, modelView, projection, w1, h1, windowSize);
            var r2 := ProjectToRaster(p, modelView, projection, w2, h2, windowSize);
            && r1.Ok? == r2.Ok?
            && (r1.Ok? ==> (&& r2.value.x - r1.value.x == (w2 - w1) as real / 2.0
                            && r2.value.y - r1.value.y == (h2 - h1) as real / 2.0))
  {
    var v := ClipCoords(p, modelView, projection);
    if v[3] != 0.0 {
      var s := DivideAndScale(v, windowSize);
      ViewportShift(w1, h1, w2, h2, s[0], s[1]);
    }
  }
}
