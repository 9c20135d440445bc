/**
 The adapter from VTK's opaque `vtkMatrix4x4` to a dense numpy array
 (`CopyMatrix4x4` in vtk_camera_projection.py). VTK only exposes the matrix
 through `GetElement(i, j)`, so the model sees it as nothing more than that
 accessor.
 */
module MatrixCopy {
  import opened Linear

  /** A `vtkMatrix4x4`, known only through its element accessor. */
  datatype VtkMatrix4x4 = VtkMatrix4x4(element: (int, int) -> real)
  {
    function GetElement(i: int, j: int): real
      requires 0 <= i < 4 && 0 <= j < 4
    {
      element(i, j)
    }
  }

  /** `np.ones((4, 4))`: the array the copy starts from. */
  const Ones: Matrix4 :=
    [[1.0, 1.0, 1.0, 1.0], [1.0, 1.0, 1.0, 1.0], [1.0, 1.0, 1.0, 1.0], [1.0, 1.0, 1.0, 1.0]]

  /** The dense matrix a VTK matrix stands for: cell (i, j) is its element (i, j). */
  function Dense(matrix: VtkMatrix4x4): (m: Matrix4)
    ensures forall i, j :: 0 <= i < 4 && 0 <= j < 4 ==> m[i][j] == matrix.GetElement(i, j)
  {
    seq(4, i requires 0 <= i < 4 => seq(4, j requires 0 <= j < 4 => matrix.GetElement(i, j)))
  }

  /** A VTK matrix holding the cells of `m`; out-of-range indices read as zero. */
  function AsVtk(m: Matrix4): VtkMatrix4x4
  {
    VtkMatrix4x4((i, j) => if 0 <= i < 4 && 0 <= j < 4 then m[i][j] else 0.0)
  }

  /**
   Copies a VTK matrix into a dense array, row by row and within a row column by
   column, overwriting the ones the array starts with.
   */
  method CopyMatrix4x4(matrix: VtkMatrix4x4) returns (m: Matrix4)
    ensures forall i, j :: 0 <= i < 4 && 0 <= j < 4 ==> m[i][j] == matrix.GetElement(i, j)
  {
    m := Ones;
    var i := 0;
    while i < 4
      invariant 0 <= i <= 4
      invariant forall r, c :: 0 <= r < i && 0 <= c < 4 ==> m[r][c] == matrix.GetElement(r, c)
      invariant forall r, c :: i <= r < 4 && 0 <= c < 4 ==> m[r][c] == 1.0
    {
      var j := 0;
      while j < 4
        invariant 0 <= j <= 4
        invariant forall r, c :: 0 <= r < i && 0 <= c < 4 ==> m[r][c] == matrix.GetElement(r, c)
        invariant forall c :: 0 <= c < j ==> m[i][c] == matrix.GetElement(i, c)
        invariant forall c :: j <= c < 4 ==> m[i][c] == 1.0
        invariant forall r, c :: i < r < 4 && 0 <= c < 4 ==> m[r][c] == 1.0
      {
        m := m[i := m[i][j := matrix.GetElement(i, j)]];
        j := j + 1;
      }
      i := i + 1;
    }
  }

  /** The copy is exactly the dense matrix the VTK matrix stands for. */
  lemma CopyIsDense(matrix: VtkMatrix4x4, m: Matrix4)
    requires forall i, j :: 0 <= i < 4 && 0 <= j < 4 ==> m[i][j] == matrix.GetElement(i, j)
    ensures m == Dense(matrix)
  {
    var d := Dense(matrix);
    forall i | 0 <= i < 4
      ensures m[i] == d[i]
    {
      assert m[i][0] == d[i][0] && m[i][1] == d[i][1] && m[i][2] == d[i][2] && m[i][3] == d[i][3];
    }
  }

  /** Wrapping a dense matrix as a VTK matrix and copying it back gives the same matrix. */
  lemma DenseAsVtk(m: Matrix4)
    ensures Dense(AsVtk(m)) == m
  {
    CopyIsDense(AsVtk(m), m);
  }

  /**
   Copying a VTK matrix of sixteen distinct values puts each value at exactly its
   (row, column) position, so none of the initial ones survives the copy.
   */
  method CopyDistinctValues() returns (m: Matrix4)
    ensures m == [[2.0, 3.0, 4.0, 5.0], [6.0, 7.0, 8.0, 9.0], [10.0, 11.0, 12.0, 13.0], [14.0, 15.0, 16.0, 17.0]]
  {
    var src := VtkMatrix4x4((i, j) => (4 * i + j) as real + 2.0);
    m := CopyMatrix4x4(src);
    var want: Matrix4 := [[2.0, 3.0, 4.0, 5.0], [6.0, 7.0, 8.0, 9.0], [10.0, 11.0, 12.0, 13.0], [14.0, 15.0, 16.0, 17.0]];
    CopyIsDense(src, m);
    CopyIsDense(src, want);
  }
}
