# Camera projection model

A Dafny model of the camera-projection arithmetic of `vtk_camera_projection.py`
(VTK_Camera_Projection). The program renders a sphere at world position
(10, 10, 10) with VTK and, on every timer tick, projects that position by hand onto
the rendered frame to draw an OpenCV circle there. The model covers the two pieces
of that arithmetic:

- **MatrixCopy** (`matrix_copy.dfy`): `CopyMatrix4x4`, which copies a `vtkMatrix4x4`
  (known only through `GetElement(i, j)`) into a dense 4x4 array initialised with
  `np.ones`, by a doubly nested loop.
- **Projection** (`projection.dfy`): the pipeline inlined in `timer_callback`, as pure
  functions. The world point becomes `(x, y, z, 1)`. It is multiplied by the
  model-view matrix `Rt`, then by the projection matrix `K_c`. The result is divided
  by its fourth component and multiplied by `windowSize / 2`. It is then mapped to
  the raster: the x offset by half the viewport width, the y negated and offset by
  half the viewport height.
- **Raster** (`raster.dfy`): the raster mapping and Python's `int(...)`, which
  truncates toward zero and clamps nothing.
- **Linear** (`linear.dfy`): 4-vectors and 4x4 matrices over `real`, numpy's `dot`,
  and the algebra the proofs need (associativity, linearity, identity).

All arithmetic is over exact reals. The source never checks the fourth clip
component before dividing. When it is zero, numpy produces an infinity or a NaN and
the `int(...)` on line 83 raises. The model returns `Err(DegenerateProjection)` in
exactly that case, so the call fails as it does in the source.

Three facts about the code shape the model:
- `int()` truncates toward zero; nothing rounds.
- The code checks neither the viewport size nor the elements `GetElement` returns.
- Nothing guards the divisor; the failure comes from `int()` on line 83.

## Model

| member | source | states |
|---|---|---|
| `MatrixCopy.CopyMatrix4x4` | vtk_camera_projection.py:9-21 | after the nested loop every cell (i, j), 0 <= i, j < 4, holds `GetElement(i, j)`; no initial one survives |
| `MatrixCopy.Dense` | vtk_camera_projection.py:17-20 | the dense matrix a VTK matrix stands for, characterised cell by cell |
| `MatrixCopy.CopyIsDense` | vtk_camera_projection.py:17-20 | any matrix agreeing with the source on all 16 cells is exactly the dense reference |
| `MatrixCopy.DenseAsVtk` | vtk_camera_projection.py:9-21 | round trip: wrapping a dense matrix as a VTK matrix and copying it back returns the same matrix |
| `MatrixCopy.CopyDistinctValues` | vtk_camera_projection.py:17-20 | running the copy loop on a VTK matrix of sixteen distinct values returns exactly those values at their (row, column) positions |
| `Linear.MulVec` | vtk_camera_projection.py:59-62 | numpy `dot` of a matrix and a vector; the j-th unit vector picks out column j of the matrix |
| `Linear.MulVecAssociative` | vtk_camera_projection.py:59-62 | applying `b` then `a` to a vector equals applying the product `a · b` |
| `Linear.MulVecScale` | vtk_camera_projection.py:59-62 | the matrix-vector product is homogeneous: scaling the vector scales the result |
| `Linear.MulVecAdd` | vtk_camera_projection.py:59-62 | the matrix-vector product is additive: the product of a sum is the sum of the products; with `MulVecScale` it is linear |
| `Linear.MulVecIdentity` | vtk_camera_projection.py:59-62 | the identity matrix leaves a vector unchanged |
| `Projection.Homogeneous` | vtk_camera_projection.py:46 | `(x, y, z, 1)` has a nonzero fourth component and dehomogenises back to the world point |
| `Projection.DehomogeniseScale` | vtk_camera_projection.py:46 | every nonzero multiple of `(x, y, z, 1)` stands for the same world point |
| `Projection.CameraCoords` | vtk_camera_projection.py:59 | the camera-space point `Rt · (x, y, z, 1)`; a rigid view (last row `0 0 0 1`) keeps its fourth component at 1 |
| `Projection.CameraDisplacement` | vtk_camera_projection.py:59 | moving the point by `d` moves its camera-space position by the first three columns of `Rt` applied to `d`; the translation column cancels |
| `Projection.ClipOf` | vtk_camera_projection.py:59-62 | model-view then projection applied to a homogeneous point equals the combined matrix `K_c · Rt` applied to it |
| `Projection.ClipCoords` | vtk_camera_projection.py:59-62 | the clip vector of a world point; with a perspective last row `0 0 -1 0` its fourth component is the negated camera depth, with a parallel last row `0 0 0 1` and a rigid view it is 1 |
| `Projection.PerspectiveFailsOnEyePlane` | vtk_camera_projection.py:62-83 | with a perspective projection the projection fails exactly for points at camera-space depth zero |
| `Projection.DivideAndScale` | vtk_camera_projection.py:65 | after the divide the fourth component is exactly `windowSize / 2`; each component times the old fourth equals the old component times `windowSize / 2` |
| `Projection.ProjectHomogeneous` | vtk_camera_projection.py:59-83 | fails exactly when the clip vector's fourth component is zero; otherwise the raster x minus `w/2` and `h/2` minus the raster y are the clip x and y over the fourth component, times `windowSize / 2` |
| `Projection.ProjectToRaster` | vtk_camera_projection.py:46-83 | the two arguments of `int(...)` for a world point: fails exactly when the clip fourth component is zero, otherwise the raster x minus `w/2` and `h/2` minus the raster y are the clip x and y over the fourth component, times `windowSize / 2` |
| `Projection.Project` | vtk_camera_projection.py:44-83 | fails exactly when the raster projection fails (a zero clip fourth component, by `ProjectHomogeneous`); otherwise the pixel is the raster position truncated toward zero in both coordinates |
| `Projection.TimerCallbackProjection` | vtk_camera_projection.py:53-83 | copying both VTK matrices and then projecting gives the projection with the dense matrices those objects stand for |
| `Projection.CompositionOrderMatters` | vtk_camera_projection.py:59-62 | with a translation and a scaling, swapping the order of the two matrices changes the clip vector |
| `Projection.DivideInvariant` | vtk_camera_projection.py:65 | multiplying the clip vector by any nonzero constant leaves the divided and scaled vector unchanged |
| `Projection.HomogeneousScaleInvariant` | vtk_camera_projection.py:46-65 | a homogeneous point and any nonzero multiple of it give the same raster position, or fail together |
| `Projection.IdentityClosedForm` | vtk_camera_projection.py:46-83 | with identity matrices the raster position is `(w*0.5 + x*windowSize/2, h/2 - y*windowSize/2)` |
| `Projection.SphereExample` | vtk_camera_projection.py:44-83 | point (10, 10, 10), identity matrices, 600x600 viewport, window size 600 gives pixel (3300, -2700), unclamped |
| `Projection.ProjectViewportShift` | vtk_camera_projection.py:83 | resizing the viewport moves the raster position by half the width change and half the height change, and does not change success |
| `Raster.Trunc` | vtk_camera_projection.py:83 | `int(r)` truncates toward zero: below `r` by less than one for `r >= 0`, above by less than one for `r < 0` |
| `Raster.TruncUnique` | vtk_camera_projection.py:83 | that truncation property determines the integer uniquely |
| `Raster.TruncOdd` | vtk_camera_projection.py:83 | truncation commutes with negation |
| `Raster.TruncTowardZero` | vtk_camera_projection.py:83 | the result lies between zero and `r`, within one of `r` |
| `Raster.TruncIsNotFloor` | vtk_camera_projection.py:83 | negative non-integers move up: `int(-0.5) = 0` where floor gives -1 |
| `Raster.TruncMonotone` | vtk_camera_projection.py:83 | truncation preserves order |
| `Raster.TruncOfInt` | vtk_camera_projection.py:83 | an integer-valued real truncates to itself |
| `Raster.RasterX` | vtk_camera_projection.py:83 | `w*0.5 + sx`; the inverse offset `ViewX` recovers `sx` from it |
| `Raster.RasterY` | vtk_camera_projection.py:83 | `h/2.0 - sy`; the inverse flip `ViewY` recovers `sy` from it |
| `Raster.RasterRoundTrip` | vtk_camera_projection.py:83 | every raster position comes from exactly one viewport position: mapping back with `ViewX`/`ViewY` and forward again returns it |
| `Raster.ToPixel` | vtk_camera_projection.py:83 | both raster coordinates are truncated toward zero |
| `Raster.AxisDirections` | vtk_camera_projection.py:83 | larger scaled x gives larger raster x (and no smaller pixel x); larger scaled y gives smaller raster y (and no larger pixel y) |
| `Raster.CentreMapsToMiddle` | vtk_camera_projection.py:83 | the viewport centre lands on pixel (w div 2, h div 2) |
| `Raster.ViewportShift` | vtk_camera_projection.py:83 | changing (w, h) shifts the raster coordinates by half of each change |
| `Raster.NoClamping` | vtk_camera_projection.py:83 | coordinates a pixel or more outside the image stay outside; those strictly between -1 and 0 truncate up to 0 |

## Left out

- VTK scene construction, renderer, window and interactor setup (lines 90-119): object plumbing of a library outside the model.
- How VTK builds the projection and model-view matrices (lines 48-56: `GetProjectionTransformMatrix`, `GetModelViewTransformMatrix`, clipping range, aspect ratio `w*1.0/h`). These are foreign calls, so the matrices are inputs. This also leaves out the `ZeroDivisionError` the aspect ratio raises for a zero viewport height.
- The repeating timer, event loop and `timer_count` (lines 35, 88, 116-117, 119): event-driven orchestration.
- Window-to-image capture, the numpy reshape and `cv2.flip` (lines 68-80), including the swapped `height, width` naming on line 77: raster I/O through libraries outside the model.
- Drawing and showing the circle (`cv2.circle` radius and colour, `cv2.imshow`, `cv2.waitKey`; lines 83-86). Only the coordinate expression of line 83 is modelled.
- `SetCenter(10,10,10)` on line 45: the sphere position is a parameter `Point3` of `Project`; `SphereExample` fixes it to (10, 10, 10).
- IEEE-754 rounding, infinities and NaNs: values are exact reals, and a zero fourth clip component is reported as `Err(DegenerateProjection)` instead of propagating inf/NaN into `int(...)`.
- The window size is a parameter of the model; the source fixes it to 600 (`DefaultWindowSize`).
