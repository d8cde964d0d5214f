/** Gauss-Jordan inversion with partial pivoting, over the reals. */
module GaussJordan {
  type Vector = seq<real>
  type Matrix = seq<Vector>

  /** The sum of the first `n` products. */
  function Dot(a: Vector, b: Vector, n: nat): real
    requires n <= |a| && n <= |b|
  {
    if n == 0 then 0.0 else Dot(a, b, n - 1) + a[n - 1] * b[n - 1]
  }

  predicate Shape(m: Matrix, rows: nat, columns: nat) {
    |m| == rows && forall i :: 0 <= i < rows ==> |m[i]| == columns
  }

  function Column(m: Matrix, j: nat): (c: Vector)
    requires forall i :: 0 <= i < |m| ==> j < |m[i]|
    ensures |c| == |m|
    ensures forall i :: 0 <= i < |m| ==> c[i] == m[i][j]
  {
    seq(|m|, i requires 0 <= i < |m| => m[i][j])
  }

  function Delta(i: int, j: int): real { if i == j then 1.0 else 0.0 }

  /** `x` solves the homogeneous system of the rows. */
  ghost predicate InKernel(rows: Matrix, x: Vector)
    requires Shape(rows, |rows|, |x|)
  {
    forall r :: 0 <= r < |rows| ==> Dot(rows[r], x, |x|) == 0.0
  }

  ghost predicate IsZero(x: Vector) { forall i :: 0 <= i < |x| ==> x[i] == 0.0 }

  ghost predicate Nonsingular(m: Matrix)
    requires Shape(m, |m|, |m|)
  {
    forall x: Vector :: |x| == |m| && InKernel(m, x) ==> IsZero(x)
  }

  ghost predicate IsProductIdentity(a: Matrix, b: Matrix)
    requires Shape(a, |b|, |b|) && Shape(b, |b|, |b|)
  {
    forall i, j :: 0 <= i < |b| && 0 <= j < |b| ==> Dot(a[i], Column(b, j), |b|) == Delta(i, j)
  }

  // ---------- Sums ----------

  lemma {:induction false} DotCombine(a: Vector, b: Vector, c: Vector, f: real, z: Vector, n: nat)
    requires n <= |a| && n <= |b| && n <= |c| && n <= |z|
    requires forall j :: 0 <= j < n ==> a[j] == b[j] - f * c[j]
    ensures Dot(a, z, n) == Dot(b, z, n) - f * Dot(c, z, n)
  {
    if n > 0 {
      DotCombine(a, b, c, f, z, n - 1);
      var j := n - 1;
      assert a[j] * z[j] == b[j] * z[j] - f * (c[j] * z[j]);
    }
  }

  lemma {:induction false} DotScale(a: Vector, b: Vector, f: real, z: Vector, n: nat)
    requires n <= |a| && n <= |b| && n <= |z|
    requires forall j :: 0 <= j < n ==> b[j] == f * a[j]
    ensures Dot(b, z, n) == f * Dot(a, z, n)
  {
    if n > 0 {
      DotScale(a, b, f, z, n - 1);
      assert b[n - 1] * z[n - 1] == f * (a[n - 1] * z[n - 1]);
    }
  }

  lemma {:induction false} DotEqual(a: Vector, b: Vector, y: Vector, z: Vector, n: nat)
    requires n <= |a| && n <= |b| && n <= |y| && n <= |z|
    requires forall j :: 0 <= j < n ==> a[j] == b[j] && y[j] == z[j]
    ensures Dot(a, y, n) == Dot(b, z, n)
  {
    if n > 0 { DotEqual(a, b, y, z, n - 1); }
  }

  lemma {:induction false} DotCommutes(a: Vector, b: Vector, n: nat)
    requires n <= |a| && n <= |b|
    ensures Dot(a, b, n) == Dot(b, a, n)
  {
    if n > 0 { DotCommutes(a, b, n - 1); }
  }

  /** A vector with one non-zero entry picks that entry. */
  lemma {:induction false} DotUnit(a: Vector, z: Vector, k: nat, n: nat)
    requires n <= |a| && n <= |z|
    requires forall j :: 0 <= j < n && j != k ==> z[j] == 0.0
    ensures Dot(a, z, n) == if k < n then a[k] * z[k] else 0.0
  {
    if n > 0 { DotUnit(a, z, k, n - 1); }
  }

  // ---------- Row operations keep the solutions ----------

  ghost predicate SameKernel(rows: Matrix, rows': Matrix, width: nat)
    requires Shape(rows, |rows|, width) && Shape(rows', |rows'|, width)
  {
    forall z: Vector :: |z| == width ==> (InKernel(rows, z) <==> InKernel(rows', z))
  }

  function Swapped(rows: Matrix, i: nat, j: nat): Matrix
    requires i < |rows| && j < |rows|
  {
    rows[i := rows[j]][j := rows[i]]
  }

  lemma SwapKeepsKernel(rows: Matrix, i: nat, j: nat, width: nat)
    requires Shape(rows, |rows|, width) && i < |rows| && j < |rows|
    ensures SameKernel(rows, Swapped(rows, i, j), width)
  {
    var rows' := Swapped(rows, i, j);
    forall z: Vector | |z| == width ensures InKernel(rows, z) <==> InKernel(rows', z) {
      if InKernel(rows', z) {
        forall r | 0 <= r < |rows| ensures Dot(rows[r], z, width) == 0.0 {
          var r' := if r == i then j else if r == j then i else r;
          assert rows'[r'] == rows[r];
        }
      }
    }
  }

  lemma ScaleKeepsKernel(rows: Matrix, col: nat, row: Vector, lead: real, width: nat)
    requires Shape(rows, |rows|, width) && col < |rows| && |row| == width && lead != 0.0
    requires forall j :: 0 <= j < width ==> rows[col][j] == lead * row[j]
    ensures SameKernel(rows, rows[col := row], width)
  {
    var rows' := rows[col := row];
    forall z: Vector | |z| == width ensures InKernel(rows, z) <==> InKernel(rows', z) {
      DotScale(row, rows[col], lead, z, width);
      assert forall r :: 0 <= r < |rows| && r != col ==> rows'[r] == rows[r];
      assert rows'[col] == row;
      var d := Dot(row, z, width);
      assert lead * d == 0.0 <==> d == 0.0;
      if InKernel(rows, z) {
        assert Dot(rows[col], z, width) == 0.0;
      }
      if InKernel(rows', z) {
        assert Dot(rows'[col], z, width) == 0.0;
        forall r | 0 <= r < |rows| ensures Dot(rows[r], z, width) == 0.0 {
          assert Dot(rows'[r], z, width) == 0.0;
        }
      }
    }
  }

  lemma EliminateKeepsKernel(rows: Matrix, r: nat, col: nat, row: Vector, factor: real, width: nat)
    requires Shape(rows, |rows|, width) && r < |rows| && col < |rows| && r != col && |row| == width
    requires forall j :: 0 <= j < width ==> row[j] == rows[r][j] - factor * rows[col][j]
    ensures SameKernel(rows, rows[r := row], width)
  {
    var rows' := rows[r := row];
    forall z: Vector | |z| == width ensures InKernel(rows, z) <==> InKernel(rows', z) {
      DotCombine(row, rows[r], rows[col], factor, z, width);
      assert forall i :: 0 <= i < |rows| && i != r ==> rows'[i] == rows[i];
      if InKernel(rows, z) {
        assert Dot(rows[col], z, width) == 0.0 && Dot(rows[r], z, width) == 0.0;
      }
      if InKernel(rows', z) {
        assert Dot(rows'[col], z, width) == 0.0 && Dot(rows'[r], z, width) == 0.0;
        forall i | 0 <= i < |rows| ensures Dot(rows[i], z, width) == 0.0 {
          assert Dot(rows'[i], z, width) == 0.0;
        }
      }
    }
  }

  lemma KernelTrans(a: Matrix, b: Matrix, c: Matrix, width: nat)
    requires Shape(a, |a|, width) && Shape(b, |b|, width) && Shape(c, |c|, width)
    requires SameKernel(a, b, width) && SameKernel(b, c, width)
    ensures SameKernel(a, c, width)
  {
  }

  // ---------- Elimination ----------

  /** The matrix with the identity beside it. */
  function Augmented(m: Matrix): (rows: Matrix)
    requires Shape(m, |m|, |m|)
    ensures Shape(rows, |m|, 2 * |m|)
  {
    seq(|m|, i requires 0 <= i < |m| => m[i] + Unit(|m|, i))
  }

  function Unit(n: nat, i: nat): (e: Vector)
    ensures |e| == n && forall k :: 0 <= k < n ==> e[k] == Delta(i, k)
  {
    seq(n, k => Delta(i, k))
  }

  /** The first `col` columns are those of the identity. */
  ghost predicate Reduced(rows: Matrix, n: nat, col: nat)
    requires Shape(rows, n, 2 * n) && col <= n
  {
    forall r, j :: 0 <= r < n && 0 <= j < col ==> rows[r][j] == Delta(r, j)
  }

  function Abs(x: real): real { if x < 0.0 then -x else x }

  /** The dependence of a column without a pivot on the reduced columns before it. */
  ghost function Dependence(rows: Matrix, n: nat, col: nat): (z: Vector)
    requires Shape(rows, n, 2 * n) && col < n
    ensures |z| == 2 * n
  {
    seq(2 * n, j requires 0 <= j < 2 * n => if j < col then -rows[j][col] else if j == col then 1.0 else 0.0)
  }

  lemma {:induction false} DependenceDot(rows: Matrix, n: nat, col: nat, r: nat, m: nat)
    requires Shape(rows, n, 2 * n) && col < n && r < n && m <= 2 * n && Reduced(rows, n, col)
    ensures Dot(rows[r], Dependence(rows, n, col), m) ==
              (if r < m && r < col then -rows[r][col] else 0.0) + (if col < m then rows[r][col] else 0.0)
  {
    if m > 0 {
      DependenceDot(rows, n, col, r, m - 1);
      assert m - 1 < col ==> rows[r][m - 1] == Delta(r, m - 1);
    }
  }

  lemma DependenceInKernel(rows: Matrix, n: nat, col: nat)
    requires Shape(rows, n, 2 * n) && col < n && Reduced(rows, n, col)
    requires forall r :: col <= r < n ==> rows[r][col] == 0.0
    ensures InKernel(rows, Dependence(rows, n, col))
  {
    hide Dot;
    forall r | 0 <= r < n ensures Dot(rows[r], Dependence(rows, n, col), 2 * n) == 0.0 {
      DependenceDot(rows, n, col, r, 2 * n);
    }
  }

  /** Two stacked rows applied to two stacked vectors. */
  lemma {:induction false} StackedDot(a: Vector, b: Vector, x: Vector, y: Vector, n: nat, m: nat)
    requires |a| == |x| == n && m <= |b| && m <= |y|
    ensures Dot(a + b, x + y, n + m) == Dot(a, x, n) + Dot(b, y, m)
  {
    if m == 0 {
      DotEqual(a + b, a, x + y, x, n);
    } else {
      StackedDot(a, b, x, y, n, m - 1);
      assert (a + b)[n + m - 1] == b[m - 1] && (x + y)[n + m - 1] == y[m - 1];
    }
  }

  /** A row that ends like row `i` of the identity, applied to two stacked vectors. */
  lemma UnitTailDot(row: Vector, a: Vector, z: Vector, x: Vector, y: Vector, i: nat, n: nat)
    requires |a| == |x| == |y| == n && i < n && row == a + Unit(n, i) && z == x + y
    ensures Dot(row, z, 2 * n) == Dot(a, x, n) + y[i]
  {
    hide Dot, Unit;
    StackedDot(a, Unit(n, i), x, y, n, n);
    DotIdentityRow(Unit(n, i), y, i, n);
  }

  /** A row of `[m | I]` applied to two stacked vectors. */
  lemma AugmentedDot(m: Matrix, z: Vector, x: Vector, y: Vector, i: nat)
    requires Shape(m, |m|, |m|) && |x| == |y| == |m| && z == x + y && i < |m|
    ensures Dot(Augmented(m)[i], z, 2 * |m|) == Dot(m[i], x, |m|) + y[i]
  {
    hide Dot;
    UnitTailDot(Augmented(m)[i], m[i], z, x, y, i, |m|);
  }

  /** A nonsingular matrix always has a pivot left: partial pivoting never divides by zero. */
  lemma PivotExists(m: Matrix, rows: Matrix, col: nat, pivot: nat)
    requires Shape(m, |m|, |m|) && Nonsingular(m) && Shape(rows, |m|, 2 * |m|)
    requires SameKernel(Augmented(m), rows, 2 * |m|) && col < |m| && Reduced(rows, |m|, col)
    requires col <= pivot < |m|
    requires forall r :: col <= r < |m| ==> Abs(rows[r][col]) <= Abs(rows[pivot][col])
    ensures rows[pivot][col] != 0.0
  {
    hide Dot, Reduced;
    var n := |m|;
    if rows[pivot][col] == 0.0 {
      var z := Dependence(rows, n, col);
      DependenceInKernel(rows, n, col);
      var x, y := z[..n], z[n..];
      assert x + y == z && x[col] == 1.0;
      NotZeroInKernel(m, x, y, z, col);
    }
  }

  lemma NotZeroInKernel(m: Matrix, x: Vector, y: Vector, z: Vector, col: nat)
    requires Shape(m, |m|, |m|) && |x| == |y| == |m| && z == x + y && col < |m| && x[col] != 0.0 && IsZero(y)
    requires InKernel(Augmented(m), z)
    ensures !Nonsingular(m)
  {
    hide Dot;
    forall i | 0 <= i < |m| ensures Dot(m[i], x, |m|) == 0.0 {
      AugmentedDot(m, z, x, y, i);
      assert Dot(Augmented(m)[i], z, 2 * |m|) == 0.0;
    }
    assert InKernel(m, x);
  }

  method FindPivot(a: array<Vector>, col: nat) returns (pivot: nat)
    requires col < a.Length && Shape(a[..], a.Length, 2 * a.Length)
    ensures col <= pivot < a.Length
    ensures forall r :: col <= r < a.Length ==> Abs(a[r][col]) <= Abs(a[pivot][col])
  {
    assert forall r :: 0 <= r < a.Length ==> a[..][r] == a[r];
    pivot := col;
    for r := col + 1 to a.Length
      invariant col <= pivot < a.Length
      invariant forall i :: col <= i < r ==> Abs(a[i][col]) <= Abs(a[pivot][col])
    {
      if Abs(a[r][col]) > Abs(a[pivot][col]) {
        pivot := r;
      }
    }
  }

  /** Divides row `col` by its lead, entry by entry. */
  method NormalizeRow(a: array<Vector>, col: nat, lead: real)
    requires col < a.Length && lead != 0.0
    modifies a
    ensures forall r :: 0 <= r < a.Length && r != col ==> a[r] == old(a[r])
    ensures |a[col]| == |old(a[col])|
    ensures forall j :: 0 <= j < |a[col]| ==> a[col][j] == old(a[col])[j] / lead
  {
    ghost var row := a[col];
    for j := 0 to |a[col]|
      invariant |a[col]| == |row|
      invariant forall r :: 0 <= r < a.Length && r != col ==> a[r] == old(a[r])
      invariant forall i :: 0 <= i < |row| ==> a[col][i] == if i < j then row[i] / lead else row[i]
    {
      a[col] := a[col][j := a[col][j] / lead];
    }
  }

  /** Subtracts a multiple of row `col` from row `r`, entry by entry. */
  method EliminateRow(a: array<Vector>, r: nat, col: nat, factor: real)
    requires r < a.Length && col < a.Length && r != col && |a[r]| == |a[col]|
    modifies a
    ensures forall i :: 0 <= i < a.Length && i != r ==> a[i] == old(a[i])
    ensures |a[r]| == |old(a[r])|
    ensures forall j :: 0 <= j < |a[r]| ==> a[r][j] == old(a[r])[j] - factor * old(a[col])[j]
  {
    ghost var row, lead := a[r], a[col];
    for j := 0 to |a[r]|
      invariant |a[r]| == |row| && a[col] == lead
      invariant forall i :: 0 <= i < a.Length && i != r ==> a[i] == old(a[i])
      invariant forall i :: 0 <= i < |row| ==> a[r][i] == if i < j then row[i] - factor * lead[i] else row[i]
    {
      a[r] := a[r][j := a[r][j] - factor * a[col][j]];
    }
  }

  /** Rows equivalent to `start` whose first `col` columns are reduced, and column `col` too up to row `r`. */
  ghost predicate Progress(rows: Matrix, start: Matrix, n: nat, col: nat, r: nat) {
    && Shape(start, n, 2 * n) && Shape(rows, n, 2 * n) && col <= n && r <= n
    && SameKernel(start, rows, 2 * n)
    && Reduced(rows, n, col)
    && (r > 0 ==> col < n)
    && (forall i :: 0 <= i < r ==> rows[i][col] == Delta(i, col))
  }

  lemma ClearStep(rows: Matrix, start: Matrix, n: nat, col: nat, r: nat, row: Vector)
    requires Progress(rows, start, n, col, r) && r < n && col < n && r != col && rows[col][col] == 1.0
    requires |row| == 2 * n
    requires forall j :: 0 <= j < 2 * n ==> row[j] == rows[r][j] - rows[r][col] * rows[col][j]
    ensures Progress(rows[r := row], start, n, col, r + 1)
  {
    hide InKernel, SameKernel, Dot;
    var rows' := rows[r := row];
    EliminateKeepsKernel(rows, r, col, row, rows[r][col], 2 * n);
    KernelTrans(start, rows, rows', 2 * n);
    forall i, j | 0 <= i < n && 0 <= j < col ensures rows'[i][j] == Delta(i, j) {
      assert rows[i][j] == Delta(i, j) && rows[col][j] == Delta(col, j);
    }
  }

  lemma ColumnDone(rows: Matrix, start: Matrix, n: nat, col: nat)
    requires Progress(rows, start, n, col, n) && col < n
    ensures Progress(rows, start, n, col + 1, 0)
  {
    hide SameKernel;
  }

  lemma PivotPlaced(rows: Matrix, start: Matrix, n: nat, col: nat, pivot: nat, row: Vector)
    requires Progress(rows, start, n, col, 0) && col <= pivot < n && rows[pivot][col] != 0.0
    requires |row| == 2 * n && forall j :: 0 <= j < 2 * n ==> row[j] == rows[pivot][j] / rows[pivot][col]
    ensures Progress(Swapped(rows, col, pivot)[col := row], start, n, col, 0)
    ensures row[col] == 1.0
  {
    hide InKernel, SameKernel, Dot, Reduced;
    var rows' := Swapped(rows, col, pivot)[col := row];
    PivotKernel(rows, n, col, pivot, row);
    KernelTrans(start, rows, rows', 2 * n);
    PivotReduced(rows, n, col, pivot, row);
  }

  lemma PivotKernel(rows: Matrix, n: nat, col: nat, pivot: nat, row: Vector)
    requires Shape(rows, n, 2 * n) && col <= pivot < n && rows[pivot][col] != 0.0
    requires |row| == 2 * n && forall j :: 0 <= j < 2 * n ==> row[j] == rows[pivot][j] / rows[pivot][col]
    ensures Shape(Swapped(rows, col, pivot)[col := row], n, 2 * n)
    ensures SameKernel(rows, Swapped(rows, col, pivot)[col := row], 2 * n)
  {
    hide InKernel, SameKernel, Dot;
    var swapped := Swapped(rows, col, pivot);
    SwapKeepsKernel(rows, col, pivot, 2 * n);
    ScaleKeepsKernel(swapped, col, row, rows[pivot][col], 2 * n);
    KernelTrans(rows, swapped, swapped[col := row], 2 * n);
  }

  /** The rows from `col` on are zero in the columns already reduced, and so is any multiple of one of them. */
  lemma PivotReduced(rows: Matrix, n: nat, col: nat, pivot: nat, row: Vector)
    requires Shape(rows, n, 2 * n) && col <= pivot < n && Reduced(rows, n, col) && rows[pivot][col] != 0.0
    requires |row| == 2 * n && forall j :: 0 <= j < 2 * n ==> row[j] == rows[pivot][j] / rows[pivot][col]
    ensures Reduced(Swapped(rows, col, pivot)[col := row], n, col)
  {
    var rows' := Swapped(rows, col, pivot)[col := row];
    forall i, j | 0 <= i < n && 0 <= j < col ensures rows'[i][j] == Delta(i, j) {
      assert rows[i][j] == Delta(i, j) && rows[col][j] == 0.0 && rows[pivot][j] == 0.0;
    }
  }

  /** Clears column `col` in every row but its own. */
  method ClearColumn(a: array<Vector>, col: nat, ghost start: Matrix)
    requires col < a.Length && Progress(a[..], start, a.Length, col, 0) && a[col][col] == 1.0
    modifies a
    ensures Progress(a[..], start, a.Length, col + 1, 0)
  {
    hide SameKernel, Reduced;
    var n := a.Length;
    for r := 0 to n
      invariant Progress(a[..], start, n, col, r) && a[col][col] == 1.0
    {
      ghost var rows := a[..];
      var factor := a[r][col];
      if r != col && factor != 0.0 {
        EliminateRow(a, r, col, factor);
        assert a[..] == rows[r := a[r]];
        ClearStep(rows, start, n, col, r, a[r]);
      }
    }
    ColumnDone(a[..], start, n, col);
  }

  /** Moves the pivot row up and divides it by its lead. */
  method PlacePivot(a: array<Vector>, col: nat, pivot: nat, ghost start: Matrix)
    requires Progress(a[..], start, a.Length, col, 0) && col <= pivot < a.Length && a[pivot][col] != 0.0
    modifies a
    ensures Progress(a[..], start, a.Length, col, 0) && a[col][col] == 1.0
  {
    hide SameKernel, Reduced;
    ghost var before := a[..];
    a[col], a[pivot] := a[pivot], a[col];
    var lead := a[col][col];
    NormalizeRow(a, col, lead);
    assert a[..] == Swapped(before, col, pivot)[col := a[col]];
    PivotPlaced(before, start, a.Length, col, pivot, a[col]);
  }

  /** In-place Gauss-Jordan on `[matrix | I]`; the right half ends as the two-sided inverse. */
  method Invert(matrix: Matrix) returns (inverse: Matrix)
    requires Shape(matrix, |matrix|, |matrix|) && Nonsingular(matrix)
    ensures Shape(inverse, |matrix|, |matrix|)
    ensures IsProductIdentity(matrix, inverse) && IsProductIdentity(inverse, matrix)
  {
    hide InKernel, Nonsingular, IsProductIdentity, Dot;
    var n := |matrix|;
    ghost var start := Augmented(matrix);
    var a := new Vector[n](i requires 0 <= i < n => Augmented(matrix)[i]);
    assert a[..] == start;
    for col := 0 to n
      invariant Progress(a[..], start, n, col, 0)
    {
      var pivot := FindPivot(a, col);
      PivotExists(matrix, a[..], col, pivot);
      PlacePivot(a, col, pivot, start);
      ClearColumn(a, col, start);
    }
    ghost var rows := a[..];
    inverse := seq(n, i requires 0 <= i < n && a.Length == n && n <= |a[i]| reads a => a[i][n..]);
    assert forall i :: 0 <= i < n ==> inverse[i] == rows[i][n..];
    RightHalfInverts(matrix, rows, inverse);
  }

  /** Once the left half is the identity, the right half inverts the matrix on both sides. */
  lemma RightHalfInverts(m: Matrix, rows: Matrix, inverse: Matrix)
    requires Shape(m, |m|, |m|) && Shape(rows, |m|, 2 * |m|) && Reduced(rows, |m|, |m|)
    requires SameKernel(Augmented(m), rows, 2 * |m|)
    requires Shape(inverse, |m|, |m|) && forall i :: 0 <= i < |m| ==> inverse[i] == rows[i][|m|..]
    ensures IsProductIdentity(m, inverse) && IsProductIdentity(inverse, m)
  {
    var n := |m|;
    forall i, j | 0 <= i < n && 0 <= j < n
      ensures Dot(m[i], Column(inverse, j), n) == Delta(i, j)
      ensures Dot(inverse[i], Column(m, j), n) == Delta(i, j)
    {
      var e := NegativeUnit(n, j);
      InverseColumnSolves(m, rows, inverse, i, j, Column(inverse, j) + e, Column(inverse, j), e);
      MatrixColumnSolves(m, rows, inverse, i, j, e + Column(m, j), Column(m, j), e);
    }
  }

  function NegativeUnit(n: nat, j: nat): (e: Vector)
    ensures |e| == n && forall k :: 0 <= k < n ==> e[k] == -Delta(k, j)
  {
    seq(n, k => -Delta(k, j))
  }

  /** A row that begins like row `r` of the identity picks entry `r`. */
  lemma DotIdentityRow(row: Vector, z: Vector, r: nat, n: nat)
    requires n <= |row| && n <= |z| && r < n && forall k :: 0 <= k < n ==> row[k] == Delta(r, k)
    ensures Dot(row, z, n) == z[r]
  {
    DotCommutes(row, z, n);
    DotUnit(z, row, r, n);
  }

  lemma DotNegativeUnit(row: Vector, j: nat, n: nat)
    requires |row| == n && j < n
    ensures Dot(row, NegativeUnit(n, j), n) == -row[j]
  {
    DotUnit(row, NegativeUnit(n, j), j, n);
    assert NegativeUnit(n, j)[j] == -1.0;
  }

  /** A row whose left half is reduced applied to two stacked vectors. */
  lemma ReducedDot(rows: Matrix, n: nat, z: Vector, x: Vector, y: Vector, r: nat)
    requires Shape(rows, n, 2 * n) && Reduced(rows, n, n) && |x| == |y| == n && z == x + y && r < n
    ensures Dot(rows[r], z, 2 * n) == x[r] + Dot(rows[r][n..], y, n)
  {
    hide Dot;
    var a, b := rows[r][..n], rows[r][n..];
    assert rows[r] == a + b;
    StackedDot(a, b, x, y, n, n);
    DotIdentityRow(a, x, r, n);
  }

  lemma InverseColumnInKernel(rows: Matrix, inverse: Matrix, n: nat, j: nat, z: Vector, c: Vector, e: Vector)
    requires Shape(rows, n, 2 * n) && Reduced(rows, n, n) && j < n
    requires Shape(inverse, n, n) && forall i :: 0 <= i < n ==> inverse[i] == rows[i][n..]
    requires c == Column(inverse, j) && e == NegativeUnit(n, j) && z == c + e
    ensures InKernel(rows, z)
  {
    hide Dot, Reduced;
    forall r | 0 <= r < n ensures Dot(rows[r], z, 2 * n) == 0.0 {
      ReducedDot(rows, n, z, c, e, r);
      DotNegativeUnit(inverse[r], j, n);
    }
  }

  lemma MatrixColumnInKernel(m: Matrix, j: nat, z: Vector, c: Vector, e: Vector)
    requires Shape(m, |m|, |m|) && j < |m|
    requires c == Column(m, j) && e == NegativeUnit(|m|, j) && z == e + c
    ensures InKernel(Augmented(m), z)
  {
    hide Dot, Augmented;
    forall r | 0 <= r < |m| ensures Dot(Augmented(m)[r], z, 2 * |m|) == 0.0 {
      AugmentedDot(m, z, e, c, r);
      DotNegativeUnit(m[r], j, |m|);
    }
  }

  lemma KernelDot(a: Matrix, b: Matrix, z: Vector, i: nat, width: nat)
    requires Shape(a, |a|, width) && Shape(b, |b|, width) && |z| == width && i < |b|
    requires SameKernel(a, b, width) || SameKernel(b, a, width)
    requires InKernel(a, z)
    ensures Dot(b[i], z, width) == 0.0
  {
    hide Dot;
  }

  lemma InverseColumnSolves(m: Matrix, rows: Matrix, inverse: Matrix, i: nat, j: nat, z: Vector, c: Vector, e: Vector)
    requires Shape(m, |m|, |m|) && Shape(rows, |m|, 2 * |m|) && Reduced(rows, |m|, |m|)
    requires SameKernel(Augmented(m), rows, 2 * |m|) && i < |m| && j < |m|
    requires Shape(inverse, |m|, |m|) && forall i :: 0 <= i < |m| ==> inverse[i] == rows[i][|m|..]
    requires c == Column(inverse, j) && e == NegativeUnit(|m|, j) && z == c + e
    ensures Dot(m[i], c, |m|) == Delta(i, j)
  {
    hide Dot, Reduced, Augmented, SameKernel, InKernel;
    InverseColumnInKernel(rows, inverse, |m|, j, z, c, e);
    KernelDot(rows, Augmented(m), z, i, 2 * |m|);
    AugmentedDot(m, z, c, e, i);
  }

  lemma MatrixColumnSolves(m: Matrix, rows: Matrix, inverse: Matrix, i: nat, j: nat, z: Vector, c: Vector, e: Vector)
    requires Shape(m, |m|, |m|) && Shape(rows, |m|, 2 * |m|) && Reduced(rows, |m|, |m|)
    requires SameKernel(Augmented(m), rows, 2 * |m|) && i < |m| && j < |m|
    requires Shape(inverse, |m|, |m|) && forall i :: 0 <= i < |m| ==> inverse[i] == rows[i][|m|..]
    requires c == Column(m, j) && e == NegativeUnit(|m|, j) && z == e + c
    ensures Dot(inverse[i], c, |m|) == Delta(i, j)
  {
    hide Dot, Reduced, Augmented, SameKernel, InKernel;
    MatrixColumnInKernel(m, j, z, c, e);
    KernelDot(Augmented(m), rows, z, i, 2 * |m|);
    ReducedDot(rows, |m|, z, e, c, i);
  }

  // ---------- Inverses and products ----------

  /** `a` times the matrix, as a row. */
  function RowTimes(a: Vector, m: Matrix, columns: nat): (row: Vector)
    requires |a| == |m| && Shape(m, |m|, columns)
    ensures |row| == columns && forall j :: 0 <= j < columns ==> row[j] == Dot(a, Column(m, j), |m|)
  {
    seq(columns, j requires 0 <= j < columns => Dot(a, Column(m, j), |m|))
  }

  function Times(m: Matrix, x: Vector): (y: Vector)
    requires Shape(m, |m|, |x|)
    ensures |y| == |m| && forall i :: 0 <= i < |m| ==> y[i] == Dot(m[i], x, |x|)
  {
    seq(|m|, i requires 0 <= i < |m| => Dot(m[i], x, |x|))
  }

  lemma {:induction false} ZeroDot(a: Vector, b: Vector, n: nat)
    requires n <= |a| && n <= |b| && forall j :: 0 <= j < n ==> a[j] == 0.0
    ensures Dot(a, b, n) == 0.0
  {
    if n > 0 { ZeroDot(a, b, n - 1); }
  }

  /** `(a m) x == a (m x)`: the order of the two sums does not matter. */
  lemma SumsCommute(a: Vector, m: Matrix, x: Vector)
    requires |a| == |m| && Shape(m, |m|, |x|)
    ensures Dot(RowTimes(a, m, |x|), x, |x|) == Dot(a, Times(m, x), |m|)
  {
    hide Dot, RowTimes, Times;
    SumsCommuteTo(a, m, x, |m|, RowTimes(a, m, |x|));
  }

  /** The same of the first `n` rows. */
  lemma {:induction false} SumsCommuteTo(a: Vector, m: Matrix, x: Vector, n: nat, row: Vector)
    requires n <= |a| == |m| && Shape(m, |m|, |x|)
    requires |row| == |x| && forall j :: 0 <= j < |x| ==> row[j] == Dot(a, Column(m, j), n)
    ensures Dot(row, x, |x|) == Dot(a, Times(m, x), n)
  {
    if n == 0 {
      ZeroDot(row, x, |x|);
    } else {
      hide Dot, Column, Times;
      var row' := seq(|x|, j requires 0 <= j < |x| => Dot(a, Column(m, j), n - 1));
      SumsCommuteTo(a, m, x, n - 1, row');
      LastRowOut(a, m, x, n, row, row');
      DotStep(a, Times(m, x), n);
      assert Times(m, x)[n - 1] == Dot(m[n - 1], x, |x|);
    }
  }

  lemma LastRowOut(a: Vector, m: Matrix, x: Vector, n: nat, row: Vector, row': Vector)
    requires 0 < n <= |a| == |m| && Shape(m, |m|, |x|) && |row| == |row'| == |x|
    requires forall j :: 0 <= j < |x| ==> row[j] == Dot(a, Column(m, j), n)
    requires forall j :: 0 <= j < |x| ==> row'[j] == Dot(a, Column(m, j), n - 1)
    ensures Dot(row, x, |x|) == Dot(row', x, |x|) + a[n - 1] * Dot(m[n - 1], x, |x|)
  {
    hide Dot, Column;
    var last := m[n - 1];
    forall j | 0 <= j < |x| ensures row[j] == row'[j] - -a[n - 1] * last[j] {
      DotStep(a, Column(m, j), n);
    }
    DotCombine(row, row', last, -a[n - 1], x, |x|);
  }

  lemma DotStep(a: Vector, b: Vector, n: nat)
    requires 0 < n <= |a| && n <= |b|
    ensures Dot(a, b, n) == Dot(a, b, n - 1) + a[n - 1] * b[n - 1]
  {
  }

  /** A right inverse solves every system. */
  lemma InverseSolves(m: Matrix, inverse: Matrix, r: Vector, i: nat)
    requires Shape(m, |m|, |m|) && Shape(inverse, |m|, |m|) && |r| == |m| && i < |m|
    requires IsProductIdentity(m, inverse)
    ensures Dot(m[i], Times(inverse, r), |m|) == r[i]
  {
    hide Dot;
    SumsCommute(m[i], inverse, r);
    DotIdentityRow(RowTimes(m[i], inverse, |m|), r, i, |m|);
  }

  /** Inversion asks for no more than it has to: a matrix with a left inverse is nonsingular. */
  lemma InvertibleIsNonsingular(m: Matrix, inverse: Matrix)
    requires Shape(m, |m|, |m|) && Shape(inverse, |m|, |m|) && IsProductIdentity(inverse, m)
    ensures Nonsingular(m)
  {
    hide Dot;
    forall x: Vector | |x| == |m| && InKernel(m, x) ensures IsZero(x) {
      forall i | 0 <= i < |x| ensures x[i] == 0.0 {
        SumsCommute(inverse[i], m, x);
        DotIdentityRow(RowTimes(inverse[i], m, |m|), x, i, |m|);
        DotCommutes(inverse[i], Times(m, x), |m|);
        ZeroDot(Times(m, x), inverse[i], |m|);
      }
    }
  }
}
