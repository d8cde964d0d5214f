/** The Newton system of the item-response fit: its blocks, its Schur complement and its solution. */
module AbilityMap {
  import opened GaussJordan

  /** Attempts that share one (model, role, task); models and roles index the first `k` parameters, tasks the
      `t` after them. */
  datatype Triple = Triple(model: nat, role: nat, task: nat, attempts: nat, successes: nat)

  predicate Fits(triples: seq<Triple>, k: nat, t: nat) {
    forall c :: 0 <= c < |triples| ==> triples[c].model < k && triples[c].role < k && triples[c].task < t
  }

  /** The logistic function, of which only its range matters here. */
  type Sigmoid = real -> real

  ghost predicate IsProbability(sigmoid: Sigmoid) {
    forall x :: 0.0 <= sigmoid(x) <= 1.0
  }

  // ---------- The posterior curvature as an operator ----------

  /** How much parameter `i` of the model and role block takes part in a cell. */
  function Part(cell: Triple, i: int): real {
    Delta(i, cell.model) + Delta(i, cell.role)
  }

  /** `e_model + e_role - e_task`. */
  function Direction(cell: Triple, k: nat, t: nat): (u: Vector)
    ensures |u| == k + t
    ensures forall i :: 0 <= i < k ==> u[i] == Part(cell, i)
    ensures forall i :: k <= i < k + t ==> u[i] == -Delta(i - k, cell.task)
  {
    seq(k + t, i => if i < k then Part(cell, i) else -Delta(i - k, cell.task))
  }

  /** The cell's linear predictor: ability of the model in the role less difficulty of the task. */
  function Eta(z: Vector, cell: Triple, k: nat): real
    requires cell.model < k && cell.role < k && k + cell.task < |z|
  {
    z[cell.model] + z[cell.role] - z[k + cell.task]
  }

  function Plus(a: Vector, f: real, b: Vector): (s: Vector)
    requires |a| == |b|
    ensures |s| == |a| && forall i :: 0 <= i < |a| ==> s[i] == a[i] + f * b[i]
  {
    seq(|a|, i requires 0 <= i < |a| => a[i] + f * b[i])
  }

  /** `precision z + sum w (u.z) u` over the first `n` cells. */
  ghost function Hessian(z: Vector, triples: seq<Triple>, w: Vector, n: nat, k: nat, t: nat,
                         precision: real): (h: Vector)
    requires |z| == k + t && n <= |triples| == |w| && Fits(triples, k, t)
    ensures |h| == k + t
  {
    if n == 0 then seq(k + t, i requires 0 <= i < k + t => precision * z[i])
    else
      var cell := triples[n - 1];
      Plus(Hessian(z, triples, w, n - 1, k, t, precision), w[n - 1] * Eta(z, cell, k), Direction(cell, k, t))
  }

  /** `sum w (u.y) (u.z)` over the first `n` cells. */
  ghost function Coupled(y: Vector, z: Vector, triples: seq<Triple>, w: Vector, n: nat, k: nat, t: nat): real
    requires |y| == |z| == k + t && n <= |triples| == |w| && Fits(triples, k, t)
  {
    if n == 0 then 0.0
    else Coupled(y, z, triples, w, n - 1, k, t) + w[n - 1] * Eta(z, triples[n - 1], k) * Eta(y, triples[n - 1], k)
  }

  lemma {:induction false} DirectionDot(y: Vector, cell: Triple, k: nat, t: nat, n: nat)
    requires |y| == k + t && cell.model < k && cell.role < k && cell.task < t && n <= k + t
    ensures Dot(Direction(cell, k, t), y, n) ==
              (if cell.model < n then y[cell.model] else 0.0) + (if cell.role < n then y[cell.role] else 0.0)
              - (if k + cell.task < n then y[k + cell.task] else 0.0)
  {
    if n > 0 { DirectionDot(y, cell, k, t, n - 1); }
  }

  lemma DirectionDotEta(y: Vector, cell: Triple, k: nat, t: nat)
    requires |y| == k + t && cell.model < k && cell.role < k && cell.task < t
    ensures Dot(Direction(cell, k, t), y, k + t) == Eta(y, cell, k)
  {
    DirectionDot(y, cell, k, t, k + t);
  }

  lemma PlusDot(a: Vector, f: real, b: Vector, y: Vector, n: nat)
    requires |a| == |b| == |y| == n
    ensures Dot(Plus(a, f, b), y, n) == Dot(a, y, n) + f * Dot(b, y, n)
  {
    DotCombine(Plus(a, f, b), a, b, -f, y, n);
  }

  lemma HessianStep(y: Vector, z: Vector, triples: seq<Triple>, w: Vector, n: nat, k: nat, t: nat, precision: real)
    requires |y| == |z| == k + t && 0 < n <= |triples| == |w| && Fits(triples, k, t)
    ensures Dot(Hessian(z, triples, w, n, k, t, precision), y, k + t) ==
              Dot(Hessian(z, triples, w, n - 1, k, t, precision), y, k + t)
              + w[n - 1] * Eta(z, triples[n - 1], k) * Eta(y, triples[n - 1], k)
  {
    hide Dot, Plus, Eta, Direction, Hessian;
    HessianUnfolds(z, triples, w, n, k, t, precision);
    PlusDot(Hessian(z, triples, w, n - 1, k, t, precision), w[n - 1] * Eta(z, triples[n - 1], k),
            Direction(triples[n - 1], k, t), y, k + t);
    DirectionDotEta(y, triples[n - 1], k, t);
    assert w[n - 1] * Eta(z, triples[n - 1], k) * Dot(Direction(triples[n - 1], k, t), y, k + t)
        == w[n - 1] * Eta(z, triples[n - 1], k) * Eta(y, triples[n - 1], k);
  }

  lemma HessianUnfolds(z: Vector, triples: seq<Triple>, w: Vector, n: nat, k: nat, t: nat, precision: real)
    requires |z| == k + t && 0 < n <= |triples| == |w| && Fits(triples, k, t)
    ensures Hessian(z, triples, w, n, k, t, precision) ==
              Plus(Hessian(z, triples, w, n - 1, k, t, precision), w[n - 1] * Eta(z, triples[n - 1], k),
                   Direction(triples[n - 1], k, t))
  {
    hide Plus, Eta, Direction;
  }

  /** The curvature is a symmetric form. */
  lemma {:induction false} HessianForm(y: Vector, z: Vector, triples: seq<Triple>, w: Vector, n: nat, k: nat, t: nat,
                                       precision: real)
    requires |y| == |z| == k + t && n <= |triples| == |w| && Fits(triples, k, t)
    ensures Dot(Hessian(z, triples, w, n, k, t, precision), y, k + t) ==
              precision * Dot(z, y, k + t) + Coupled(y, z, triples, w, n, k, t)
  {
    hide Dot;
    if n == 0 {
      DotScale(z, Hessian(z, triples, w, 0, k, t, precision), precision, y, k + t);
    } else {
      HessianForm(y, z, triples, w, n - 1, k, t, precision);
      var cell := triples[n - 1];
      HessianStep(y, z, triples, w, n, k, t, precision);
    }
  }

  lemma {:induction false} CoupledSymmetric(y: Vector, z: Vector, triples: seq<Triple>, w: Vector, n: nat, k: nat,
                                            t: nat)
    requires |y| == |z| == k + t && n <= |triples| == |w| && Fits(triples, k, t)
    ensures Coupled(y, z, triples, w, n, k, t) == Coupled(z, y, triples, w, n, k, t)
  {
    if n > 0 { CoupledSymmetric(y, z, triples, w, n - 1, k, t); }
  }

  /** Equal vectors are kept apart in this lemma and the next so that their products stay products. */
  lemma {:induction false} CoupledNonnegative(y: Vector, z: Vector, triples: seq<Triple>, w: Vector, n: nat, k: nat,
                                              t: nat)
    requires y == z && |y| == |z| == k + t && n <= |triples| == |w| && Fits(triples, k, t)
    requires forall c :: 0 <= c < |w| ==> w[c] >= 0.0
    ensures Coupled(y, z, triples, w, n, k, t) >= 0.0
  {
    if n > 0 {
      CoupledNonnegative(y, z, triples, w, n - 1, k, t);
      SameSigns(w[n - 1], Eta(z, triples[n - 1], k), Eta(y, triples[n - 1], k));
    }
  }

  lemma {:induction false} SelfDot(y: Vector, z: Vector, n: nat)
    requires y == z && n <= |z|
    ensures Dot(y, z, n) >= 0.0
    ensures Dot(y, z, n) == 0.0 ==> forall i :: 0 <= i < n ==> z[i] == 0.0
  {
    if n > 0 {
      SelfDot(y, z, n - 1);
      SameSigns(1.0, y[n - 1], z[n - 1]);
      var s := y[n - 1] * z[n - 1];
      assert s >= 0.0 && (z[n - 1] != 0.0 ==> s > 0.0);
    }
  }

  lemma SameSigns(w: real, a: real, b: real)
    requires w >= 0.0 && a == b
    ensures a * b >= 0.0 && (b != 0.0 ==> a * b > 0.0)
    ensures w * a * b >= 0.0
  {
    var s := a * b;
    if a > 0.0 {
      assert s > 0.0;
    } else if a < 0.0 {
      assert s > 0.0;
    } else {
      assert s == 0.0;
    }
    assert w * s >= 0.0;
    assert w * a * b == w * s;
  }

  /** With non-negative weights and a positive precision the curvature is positive definite. */
  lemma HessianPositiveDefinite(z: Vector, triples: seq<Triple>, w: Vector, k: nat, t: nat, precision: real)
    requires |z| == k + t && |triples| == |w| && Fits(triples, k, t) && precision > 0.0
    requires forall c :: 0 <= c < |w| ==> w[c] >= 0.0
    ensures Dot(Hessian(z, triples, w, |w|, k, t, precision), z, k + t) >= 0.0
    ensures Dot(Hessian(z, triples, w, |w|, k, t, precision), z, k + t) == 0.0 ==> IsZero(z)
  {
    hide Dot;
    HessianForm(z, z, triples, w, |w|, k, t, precision);
    CoupledNonnegative(z, z, triples, w, |w|, k, t);
    SelfDot(z, z, k + t);
    var d := Dot(z, z, k + t);
    assert precision * d >= 0.0;
    assert precision * d == 0.0 ==> d == 0.0;
  }

  // ---------- The blocks ----------

  ghost function BlockEntry(triples: seq<Triple>, w: Vector, n: nat, precision: real, i: int, j: int): real
    requires n <= |triples| == |w|
  {
    if n == 0 then precision * Delta(i, j)
    else BlockEntry(triples, w, n - 1, precision, i, j) + w[n - 1] * Part(triples[n - 1], i) * Part(triples[n - 1], j)
  }

  ghost function CouplingEntry(triples: seq<Triple>, w: Vector, n: nat, i: int, s: int): real
    requires n <= |triples| == |w|
  {
    if n == 0 then 0.0
    else CouplingEntry(triples, w, n - 1, i, s) - w[n - 1] * Part(triples[n - 1], i) * Delta(s, triples[n - 1].task)
  }

  ghost function DiagonalEntry(triples: seq<Triple>, w: Vector, n: nat, precision: real, s: int): real
    requires n <= |triples| == |w|
  {
    if n == 0 then precision
    else DiagonalEntry(triples, w, n - 1, precision, s) + w[n - 1] * Delta(s, triples[n - 1].task)
  }

  ghost predicate AreBlocks(a: Matrix, coupling: Matrix, diagonal: Vector, triples: seq<Triple>, w: Vector, n: nat,
                            k: nat, t: nat, precision: real)
  {
    && n <= |triples| == |w| && Shape(a, k, k) && Shape(coupling, k, t) && |diagonal| == t
    && (forall i, j :: 0 <= i < k && 0 <= j < k ==> a[i][j] == BlockEntry(triples, w, n, precision, i, j))
    && (forall i, s :: 0 <= i < k && 0 <= s < t ==> coupling[i][s] == CouplingEntry(triples, w, n, i, s))
    && (forall s :: 0 <= s < t ==> diagonal[s] == DiagonalEntry(triples, w, n, precision, s))
  }

  function At(r: int, i: int, c: int, j: int, w: real): real { if r == i && c == j then w else 0.0 }

  function AddedAt(m: Matrix, i: nat, j: nat, w: real): (m': Matrix)
    requires i < |m| && j < |m[i]|
    ensures |m'| == |m| && forall r :: 0 <= r < |m| ==> |m'[r]| == |m[r]|
    ensures forall r, c :: 0 <= r < |m| && 0 <= c < |m[r]| ==> m'[r][c] == m[r][c] + At(r, i, c, j, w)
  {
    m[i := m[i][j := m[i][j] + w]]
  }

  method AddAt(a: array<Vector>, i: nat, j: nat, w: real)
    requires i < a.Length && j < |a[i]|
    modifies a
    ensures a[..] == AddedAt(old(a[..]), i, j, w)
  {
    a[i] := a[i][j := a[i][j] + w];
  }

  lemma PartProduct(cell: Triple, w: real, i: int, j: int)
    ensures w * Part(cell, i) * Part(cell, j) ==
              At(i, cell.model, j, cell.model, w) + At(i, cell.role, j, cell.role, w)
              + At(i, cell.model, j, cell.role, w) + At(i, cell.role, j, cell.model, w)
  {
    if i == cell.model && i == cell.role {
      assert Part(cell, i) == 2.0;
    } else if i == cell.model || i == cell.role {
      assert Part(cell, i) == 1.0;
    } else {
      assert Part(cell, i) == 0.0;
    }
    if j == cell.model && j == cell.role {
      assert Part(cell, j) == 2.0;
    } else if j == cell.model || j == cell.role {
      assert Part(cell, j) == 1.0;
    } else {
      assert Part(cell, j) == 0.0;
    }
  }

  lemma PartTask(cell: Triple, w: real, i: int, s: int)
    ensures w * Part(cell, i) * Delta(s, cell.task) ==
              -(At(i, cell.model, s, cell.task, -w) + At(i, cell.role, s, cell.task, -w))
  {
    if s == cell.task { assert Delta(s, cell.task) == 1.0; } else { assert Delta(s, cell.task) == 0.0; }
  }

  /** The four updates one cell makes in the model and role block. */
  method AddBlock(a: array<Vector>, cell: Triple, w: real, k: nat)
    requires Shape(a[..], k, k) && cell.model < k && cell.role < k
    modifies a
    ensures Shape(a[..], k, k)
    ensures forall i, j :: 0 <= i < k && 0 <= j < k ==>
              a[..][i][j] == old(a[..])[i][j] + w * Part(cell, i) * Part(cell, j)
  {
    ghost var a0 := a[..];
    assert a.Length == k && |a[cell.model]| == |a0[cell.model]|;
    AddAt(a, cell.model, cell.model, w);
    ghost var a1 := a[..];
    assert |a[cell.role]| == |a1[cell.role]|;
    AddAt(a, cell.role, cell.role, w);
    ghost var a2 := a[..];
    assert |a[cell.model]| == |a2[cell.model]|;
    AddAt(a, cell.model, cell.role, w);
    ghost var a3 := a[..];
    assert |a[cell.role]| == |a3[cell.role]|;
    AddAt(a, cell.role, cell.model, w);
    FourUpdates(a0, a1, a2, a3, a[..], cell, w, k);
  }

  lemma FourUpdates(a0: Matrix, a1: Matrix, a2: Matrix, a3: Matrix, a4: Matrix, cell: Triple, w: real, k: nat)
    requires Shape(a0, k, k) && cell.model < k && cell.role < k
    requires a1 == AddedAt(a0, cell.model, cell.model, w) && a2 == AddedAt(a1, cell.role, cell.role, w)
    requires a3 == AddedAt(a2, cell.model, cell.role, w) && a4 == AddedAt(a3, cell.role, cell.model, w)
    ensures Shape(a4, k, k)
    ensures forall i, j :: 0 <= i < k && 0 <= j < k ==> a4[i][j] == a0[i][j] + w * Part(cell, i) * Part(cell, j)
  {
    hide At, Part, AddedAt;
    forall i, j | 0 <= i < k && 0 <= j < k ensures a4[i][j] == a0[i][j] + w * Part(cell, i) * Part(cell, j) {
      PartProduct(cell, w, i, j);
      assert a1[i][j] == a0[i][j] + At(i, cell.model, j, cell.model, w);
      assert a2[i][j] == a1[i][j] + At(i, cell.role, j, cell.role, w);
      assert a3[i][j] == a2[i][j] + At(i, cell.model, j, cell.role, w);
    }
  }

  method AddCoupling(coupling: array<Vector>, cell: Triple, w: real, k: nat, t: nat)
    requires Shape(coupling[..], k, t) && cell.model < k && cell.role < k && cell.task < t
    modifies coupling
    ensures Shape(coupling[..], k, t)
    ensures forall i, s :: 0 <= i < k && 0 <= s < t ==>
              coupling[..][i][s] == old(coupling[..])[i][s] - w * Part(cell, i) * Delta(s, cell.task)
  {
    ghost var c0 := coupling[..];
    assert coupling.Length == k && |coupling[cell.model]| == |c0[cell.model]|;
    AddAt(coupling, cell.model, cell.task, -w);
    ghost var c1 := coupling[..];
    assert |coupling[cell.role]| == |c1[cell.role]|;
    AddAt(coupling, cell.role, cell.task, -w);
    ghost var c2 := coupling[..];
    forall i, s | 0 <= i < k && 0 <= s < t
      ensures c2[i][s] == c0[i][s] - w * Part(cell, i) * Delta(s, cell.task)
    {
      PartTask(cell, w, i, s);
      assert c1[i][s] == c0[i][s] + At(i, cell.model, s, cell.task, -w);
    }
  }

  // ---------- The blocks are the blocks of the operator ----------

  ghost function BlockRow(triples: seq<Triple>, w: Vector, n: nat, precision: real, i: int, k: nat): (row: Vector)
    requires n <= |triples| == |w|
    ensures |row| == k && forall j :: 0 <= j < k ==> row[j] == BlockEntry(triples, w, n, precision, i, j)
  {
    seq(k, j => BlockEntry(triples, w, n, precision, i, j))
  }

  ghost function CouplingRow(triples: seq<Triple>, w: Vector, n: nat, i: int, t: nat): (row: Vector)
    requires n <= |triples| == |w|
    ensures |row| == t && forall s :: 0 <= s < t ==> row[s] == CouplingEntry(triples, w, n, i, s)
  {
    seq(t, s => CouplingEntry(triples, w, n, i, s))
  }

  ghost function CouplingColumn(triples: seq<Triple>, w: Vector, n: nat, s: int, k: nat): (column: Vector)
    requires n <= |triples| == |w|
    ensures |column| == k && forall i :: 0 <= i < k ==> column[i] == CouplingEntry(triples, w, n, i, s)
  {
    seq(k, i => CouplingEntry(triples, w, n, i, s))
  }

  function Parts(cell: Triple, k: nat): (u: Vector)
    ensures |u| == k && forall i :: 0 <= i < k ==> u[i] == Part(cell, i)
  {
    seq(k, i => Part(cell, i))
  }

  lemma {:induction false} PartsDot(cell: Triple, x: Vector, n: nat)
    requires n <= |x|
    ensures Dot(Parts(cell, |x|), x, n) ==
              (if cell.model < n then x[cell.model] else 0.0) + (if cell.role < n then x[cell.role] else 0.0)
  {
    if n > 0 { PartsDot(cell, x, n - 1); }
  }

  lemma PartsDotAll(cell: Triple, x: Vector)
    requires cell.model < |x| && cell.role < |x|
    ensures Dot(Parts(cell, |x|), x, |x|) == x[cell.model] + x[cell.role]
  {
    PartsDot(cell, x, |x|);
  }

  /** Adding one cell to a row of the model and role block. */
  lemma BlockRowStep(triples: seq<Triple>, w: Vector, n: nat, precision: real, i: int, x: Vector)
    requires 0 < n <= |triples| == |w| && triples[n - 1].model < |x| && triples[n - 1].role < |x|
    ensures Dot(BlockRow(triples, w, n, precision, i, |x|), x, |x|) ==
              Dot(BlockRow(triples, w, n - 1, precision, i, |x|), x, |x|)
              + w[n - 1] * Part(triples[n - 1], i) * (x[triples[n - 1].model] + x[triples[n - 1].role])
  {
    hide Dot, Part;
    DotCombine(BlockRow(triples, w, n, precision, i, |x|), BlockRow(triples, w, n - 1, precision, i, |x|),
               Parts(triples[n - 1], |x|), -(w[n - 1] * Part(triples[n - 1], i)), x, |x|);
    PartsDotAll(triples[n - 1], x);
  }

  lemma CouplingRowStep(triples: seq<Triple>, w: Vector, n: nat, i: int, y: Vector)
    requires 0 < n <= |triples| == |w| && triples[n - 1].task < |y|
    ensures Dot(CouplingRow(triples, w, n, i, |y|), y, |y|) ==
              Dot(CouplingRow(triples, w, n - 1, i, |y|), y, |y|)
              - w[n - 1] * Part(triples[n - 1], i) * y[triples[n - 1].task]
  {
    hide Dot, Part;
    DotCombine(CouplingRow(triples, w, n, i, |y|), CouplingRow(triples, w, n - 1, i, |y|),
               Unit(|y|, triples[n - 1].task), w[n - 1] * Part(triples[n - 1], i), y, |y|);
    DotIdentityRow(Unit(|y|, triples[n - 1].task), y, triples[n - 1].task, |y|);
  }

  lemma CouplingColumnStep(triples: seq<Triple>, w: Vector, n: nat, s: int, x: Vector)
    requires 0 < n <= |triples| == |w| && triples[n - 1].model < |x| && triples[n - 1].role < |x|
    ensures Dot(CouplingColumn(triples, w, n, s, |x|), x, |x|) ==
              Dot(CouplingColumn(triples, w, n - 1, s, |x|), x, |x|)
              - w[n - 1] * Delta(s, triples[n - 1].task) * (x[triples[n - 1].model] + x[triples[n - 1].role])
  {
    hide Dot, Part;
    DotCombine(CouplingColumn(triples, w, n, s, |x|), CouplingColumn(triples, w, n - 1, s, |x|),
               Parts(triples[n - 1], |x|), w[n - 1] * Delta(s, triples[n - 1].task), x, |x|);
    PartsDotAll(triples[n - 1], x);
  }

  lemma EtaStacked(z: Vector, x: Vector, y: Vector, cell: Triple)
    requires z == x + y && cell.model < |x| && cell.role < |x| && cell.task < |y|
    ensures Eta(z, cell, |x|) == x[cell.model] + x[cell.role] - y[cell.task]
  {
  }

  lemma HessianAt(z: Vector, triples: seq<Triple>, w: Vector, n: nat, k: nat, t: nat, precision: real, i: nat)
    requires |z| == k + t && 0 < n <= |triples| == |w| && Fits(triples, k, t) && i < k + t
    ensures Hessian(z, triples, w, n, k, t, precision)[i] ==
              Hessian(z, triples, w, n - 1, k, t, precision)[i]
              + w[n - 1] * Eta(z, triples[n - 1], k) * Direction(triples[n - 1], k, t)[i]
  {
    hide Eta, Direction;
    HessianUnfolds(z, triples, w, n, k, t, precision);
  }

  ghost function Top(triples: seq<Triple>, w: Vector, n: nat, precision: real, x: Vector, y: Vector, i: nat): real
    requires n <= |triples| == |w|
  {
    Dot(BlockRow(triples, w, n, precision, i, |x|), x, |x|) + Dot(CouplingRow(triples, w, n, i, |y|), y, |y|)
  }

  ghost function Bottom(triples: seq<Triple>, w: Vector, n: nat, precision: real, x: Vector, y: Vector, s: nat): real
    requires n <= |triples| == |w| && s < |y|
  {
    Dot(CouplingColumn(triples, w, n, s, |x|), x, |x|) + DiagonalEntry(triples, w, n, precision, s) * y[s]
  }

  lemma TopStep(triples: seq<Triple>, w: Vector, n: nat, precision: real, x: Vector, y: Vector, i: nat)
    requires 0 < n <= |triples| == |w| && Fits(triples, |x|, |y|)
    ensures Top(triples, w, n, precision, x, y, i) == Top(triples, w, n - 1, precision, x, y, i)
              + w[n - 1] * (x[triples[n - 1].model] + x[triples[n - 1].role] - y[triples[n - 1].task])
                * Part(triples[n - 1], i)
  {
    hide Dot, Part, BlockRow, CouplingRow;
    BlockRowStep(triples, w, n, precision, i, x);
    CouplingRowStep(triples, w, n, i, y);
    var cell := triples[n - 1];
    TopArithmetic(w[n - 1], Part(cell, i), x[cell.model] + x[cell.role], y[cell.task]);
  }

  lemma TopArithmetic(w: real, p: real, sum: real, task: real)
    ensures w * p * sum - w * p * task == w * (sum - task) * p
  {
  }

  lemma BottomStep(triples: seq<Triple>, w: Vector, n: nat, precision: real, x: Vector, y: Vector, s: nat)
    requires 0 < n <= |triples| == |w| && Fits(triples, |x|, |y|) && s < |y|
    ensures Bottom(triples, w, n, precision, x, y, s) == Bottom(triples, w, n - 1, precision, x, y, s)
              + w[n - 1] * (x[triples[n - 1].model] + x[triples[n - 1].role] - y[triples[n - 1].task])
                * -Delta(s, triples[n - 1].task)
  {
    hide Dot, CouplingColumn;
    CouplingColumnStep(triples, w, n, s, x);
    var cell := triples[n - 1];
    BottomArithmetic(DiagonalEntry(triples, w, n - 1, precision, s), w[n - 1], Delta(s, cell.task),
                     x[cell.model] + x[cell.role], y[cell.task], y[s]);
  }

  lemma BottomArithmetic(d: real, w: real, delta: real, sum: real, task: real, own: real)
    requires delta == 0.0 || (delta == 1.0 && own == task)
    ensures -(w * delta * sum) + (d + w * delta) * own == d * own + w * (sum - task) * -delta
  {
  }

  /** A row of the dense block and its coupling row act as the operator does. */
  lemma {:induction false} TopIsHessian(triples: seq<Triple>, w: Vector, n: nat, precision: real,
                                        z: Vector, x: Vector, y: Vector, i: nat)
    requires z == x + y && n <= |triples| == |w| && Fits(triples, |x|, |y|) && i < |x|
    ensures Top(triples, w, n, precision, x, y, i) == Hessian(z, triples, w, n, |x|, |y|, precision)[i]
  {
    hide *;
    if n == 0 {
      TopStart(triples, w, precision, z, x, y, i);
    } else {
      TopIsHessian(triples, w, n - 1, precision, z, x, y, i);
      TopStep(triples, w, n, precision, x, y, i);
      HessianTop(triples, w, n, precision, z, x, y, i);
    }
  }

  lemma TopStart(triples: seq<Triple>, w: Vector, precision: real, z: Vector, x: Vector, y: Vector, i: nat)
    requires z == x + y && |triples| == |w| && Fits(triples, |x|, |y|) && i < |x|
    ensures Top(triples, w, 0, precision, x, y, i) == Hessian(z, triples, w, 0, |x|, |y|, precision)[i]
  {
    hide Dot, Eta;
    var k, t := |x|, |y|;
    DotScale(Unit(k, i), BlockRow(triples, w, 0, precision, i, k), precision, x, k);
    DotIdentityRow(Unit(k, i), x, i, k);
    ZeroDot(CouplingRow(triples, w, 0, i, t), y, t);
  }

  lemma HessianTop(triples: seq<Triple>, w: Vector, n: nat, precision: real, z: Vector, x: Vector, y: Vector, i: nat)
    requires z == x + y && 0 < n <= |triples| == |w| && Fits(triples, |x|, |y|) && i < |x|
    ensures Hessian(z, triples, w, n, |x|, |y|, precision)[i] ==
              Hessian(z, triples, w, n - 1, |x|, |y|, precision)[i]
              + w[n - 1] * (x[triples[n - 1].model] + x[triples[n - 1].role] - y[triples[n - 1].task])
                * Part(triples[n - 1], i)
  {
    hide Eta, Hessian, Part;
    EtaStacked(z, x, y, triples[n - 1]);
    HessianAt(z, triples, w, n, |x|, |y|, precision, i);
  }

  lemma HessianBottom(triples: seq<Triple>, w: Vector, n: nat, precision: real, z: Vector, x: Vector, y: Vector, s: nat)
    requires z == x + y && 0 < n <= |triples| == |w| && Fits(triples, |x|, |y|) && s < |y|
    ensures Hessian(z, triples, w, n, |x|, |y|, precision)[|x| + s] ==
              Hessian(z, triples, w, n - 1, |x|, |y|, precision)[|x| + s]
              + w[n - 1] * (x[triples[n - 1].model] + x[triples[n - 1].role] - y[triples[n - 1].task])
                * -Delta(s, triples[n - 1].task)
  {
    hide Eta, Hessian;
    EtaStacked(z, x, y, triples[n - 1]);
    HessianAt(z, triples, w, n, |x|, |y|, precision, |x| + s);
  }

  /** A coupling column and its task's diagonal entry act as the operator does. */
  lemma {:induction false} BottomIsHessian(triples: seq<Triple>, w: Vector, n: nat, precision: real,
                                           z: Vector, x: Vector, y: Vector, s: nat)
    requires z == x + y && n <= |triples| == |w| && Fits(triples, |x|, |y|) && s < |y|
    ensures Bottom(triples, w, n, precision, x, y, s) == Hessian(z, triples, w, n, |x|, |y|, precision)[|x| + s]
  {
    hide *;
    if n == 0 {
      BottomStart(triples, w, precision, z, x, y, s);
    } else {
      BottomIsHessian(triples, w, n - 1, precision, z, x, y, s);
      BottomStep(triples, w, n, precision, x, y, s);
      HessianBottom(triples, w, n, precision, z, x, y, s);
    }
  }

  lemma BottomStart(triples: seq<Triple>, w: Vector, precision: real, z: Vector, x: Vector, y: Vector, s: nat)
    requires z == x + y && |triples| == |w| && Fits(triples, |x|, |y|) && s < |y|
    ensures Bottom(triples, w, 0, precision, x, y, s) == Hessian(z, triples, w, 0, |x|, |y|, precision)[|x| + s]
  {
    hide Dot, Eta;
    ZeroDot(CouplingColumn(triples, w, 0, s, |x|), x, |x|);
  }

  // ---------- The Schur complement ----------

  ghost function SchurEntry(a: Matrix, coupling: Matrix, diagonal: Vector, i: nat, j: nat, n: nat): real
    requires |a| == |coupling| && i < |a| && j < |a[i]| && j < |coupling|
    requires n <= |coupling[i]| && n <= |coupling[j]| && n <= |diagonal|
    requires forall s :: 0 <= s < |diagonal| ==> diagonal[s] > 0.0
  {
    if n == 0 then a[i][j]
    else SchurEntry(a, coupling, diagonal, i, j, n - 1) - (coupling[i][n - 1] * coupling[j][n - 1]) / diagonal[n - 1]
  }

  ghost predicate Blocked(a: Matrix, coupling: Matrix, diagonal: Vector, k: nat, t: nat) {
    && Shape(a, k, k) && Shape(coupling, k, t) && |diagonal| == t
    && forall s :: 0 <= s < t ==> diagonal[s] > 0.0
  }

  ghost function SchurRow(a: Matrix, coupling: Matrix, diagonal: Vector, k: nat, t: nat, i: nat, n: nat): (row: Vector)
    requires Blocked(a, coupling, diagonal, k, t) && i < k && n <= t
    ensures |row| == k && forall j :: 0 <= j < k ==> row[j] == SchurEntry(a, coupling, diagonal, i, j, n)
  {
    seq(k, j requires 0 <= j < k => SchurEntry(a, coupling, diagonal, i, j, n))
  }

  ghost function Schur(a: Matrix, coupling: Matrix, diagonal: Vector, k: nat, t: nat): (m: Matrix)
    requires Blocked(a, coupling, diagonal, k, t)
    ensures Shape(m, k, k) && forall i :: 0 <= i < k ==> m[i] == SchurRow(a, coupling, diagonal, k, t, i, t)
  {
    seq(k, i requires 0 <= i < k => SchurRow(a, coupling, diagonal, k, t, i, t))
  }

  method SchurComplement(a: Matrix, coupling: Matrix, diagonal: Vector, ghost k: nat, ghost t: nat)
    returns (schur: Matrix)
    requires Blocked(a, coupling, diagonal, k, t)
    ensures schur == Schur(a, coupling, diagonal, k, t)
  {
    schur := [];
    for i := 0 to |a|
      invariant |schur| == i && forall r :: 0 <= r < i ==> schur[r] == SchurRow(a, coupling, diagonal, k, t, r, t)
    {
      var row: Vector := [];
      for j := 0 to |a[i]|
        invariant |row| == j && forall c :: 0 <= c < j ==> row[c] == SchurEntry(a, coupling, diagonal, i, c, t)
      {
        var sum := a[i][j];
        for task := 0 to |diagonal|
          invariant sum == SchurEntry(a, coupling, diagonal, i, j, task)
        {
          sum := sum - (coupling[i][task] * coupling[j][task]) / diagonal[task];
        }
        row := row + [sum];
      }
      assert row == SchurRow(a, coupling, diagonal, k, t, i, t);
      schur := schur + [row];
    }
  }

  /** The task parameters that make the task rows vanish for given model and role parameters. */
  ghost function Back(coupling: Matrix, diagonal: Vector, x: Vector, t: nat): (y: Vector)
    requires Shape(coupling, |x|, t) && |diagonal| == t && forall s :: 0 <= s < t ==> diagonal[s] > 0.0
    ensures |y| == t
  {
    seq(t, s requires 0 <= s < t => -Dot(Column(coupling, s), x, |x|) / diagonal[s])
  }

  lemma BackAt(coupling: Matrix, diagonal: Vector, x: Vector, t: nat, s: nat)
    requires Shape(coupling, |x|, t) && |diagonal| == t && forall s :: 0 <= s < t ==> diagonal[s] > 0.0
    requires s < t
    ensures Back(coupling, diagonal, x, t)[s] == -Dot(Column(coupling, s), x, |x|) / diagonal[s]
  {
    hide Dot;
  }

  /** Eliminating the task block leaves the Schur complement. */
  lemma {:induction false} SchurEliminates(a: Matrix, coupling: Matrix, diagonal: Vector, x: Vector, t: nat, i: nat,
                                           n: nat)
    requires Blocked(a, coupling, diagonal, |x|, t) && i < |x| && n <= t
    ensures Dot(SchurRow(a, coupling, diagonal, |x|, t, i, n), x, |x|) ==
              Dot(a[i], x, |x|) + Dot(coupling[i], Back(coupling, diagonal, x, t), n)
  {
    var k := |x|;
    if n == 0 {
      DotEqual(SchurRow(a, coupling, diagonal, k, t, i, 0), a[i], x, x, k);
    } else {
      SchurEliminates(a, coupling, diagonal, x, t, i, n - 1);
      SchurRowStep(a, coupling, diagonal, x, t, i, n);
    }
  }

  lemma SchurRowStep(a: Matrix, coupling: Matrix, diagonal: Vector, x: Vector, t: nat, i: nat, n: nat)
    requires Blocked(a, coupling, diagonal, |x|, t) && i < |x| && 0 < n <= t
    ensures Dot(SchurRow(a, coupling, diagonal, |x|, t, i, n), x, |x|) ==
              Dot(SchurRow(a, coupling, diagonal, |x|, t, i, n - 1), x, |x|)
              + coupling[i][n - 1] * Back(coupling, diagonal, x, t)[n - 1]
  {
    hide Dot, SchurEntry, SchurRow, Back;
    forall j | 0 <= j < |x|
      ensures SchurRow(a, coupling, diagonal, |x|, t, i, n)[j] ==
                SchurRow(a, coupling, diagonal, |x|, t, i, n - 1)[j]
                - (coupling[i][n - 1] / diagonal[n - 1]) * Column(coupling, n - 1)[j]
    {
      SchurEntryStep(a, coupling, diagonal, |x|, t, i, j, n);
    }
    DotCombine(SchurRow(a, coupling, diagonal, |x|, t, i, n), SchurRow(a, coupling, diagonal, |x|, t, i, n - 1),
               Column(coupling, n - 1), coupling[i][n - 1] / diagonal[n - 1], x, |x|);
    QuotientSwap(coupling[i][n - 1], Dot(Column(coupling, n - 1), x, |x|), diagonal[n - 1]);
    BackAt(coupling, diagonal, x, t, n - 1);
  }

  lemma SchurEntryStep(a: Matrix, coupling: Matrix, diagonal: Vector, k: nat, t: nat, i: nat, j: nat, n: nat)
    requires Blocked(a, coupling, diagonal, k, t) && i < k && j < k && 0 < n <= t
    ensures SchurEntry(a, coupling, diagonal, i, j, n) == SchurEntry(a, coupling, diagonal, i, j, n - 1)
              - (coupling[i][n - 1] / diagonal[n - 1]) * coupling[j][n - 1]
  {
    QuotientOut(coupling[i][n - 1], coupling[j][n - 1], diagonal[n - 1]);
  }

  lemma QuotientOut(c: real, e: real, d: real)
    requires d > 0.0
    ensures (c * e) / d == (c / d) * e
  {
  }

  lemma QuotientSwap(c: real, e: real, d: real)
    requires d > 0.0
    ensures -((c / d) * e) == c * (-e / d)
  {
  }

  ghost predicate Weighted(triples: seq<Triple>, w: Vector, k: nat, t: nat, precision: real) {
    && |triples| == |w| && Fits(triples, k, t) && precision > 0.0
    && forall c :: 0 <= c < |w| ==> w[c] >= 0.0
  }

  lemma {:induction false} DiagonalPositive(triples: seq<Triple>, w: Vector, n: nat, k: nat, t: nat, precision: real,
                                            s: int)
    requires Weighted(triples, w, k, t, precision) && n <= |w|
    ensures DiagonalEntry(triples, w, n, precision, s) >= precision
  {
    if n > 0 { DiagonalPositive(triples, w, n - 1, k, t, precision, s); }
  }

  lemma BlocksAreBlocked(a: Matrix, coupling: Matrix, diagonal: Vector, triples: seq<Triple>, w: Vector, k: nat, t: nat,
                         precision: real)
    requires AreBlocks(a, coupling, diagonal, triples, w, |w|, k, t, precision)
    requires Weighted(triples, w, k, t, precision)
    ensures Blocked(a, coupling, diagonal, k, t)
  {
    forall s | 0 <= s < t ensures diagonal[s] > 0.0 { DiagonalPositive(triples, w, |w|, k, t, precision, s); }
  }

  /** The assembled blocks, applied to stacked vectors, are the operator. */
  lemma TopActs(a: Matrix, coupling: Matrix, diagonal: Vector, triples: seq<Triple>, w: Vector, precision: real,
                z: Vector, x: Vector, y: Vector, i: nat)
    requires AreBlocks(a, coupling, diagonal, triples, w, |w|, |x|, |y|, precision)
    requires Fits(triples, |x|, |y|) && z == x + y && i < |x|
    ensures Hessian(z, triples, w, |w|, |x|, |y|, precision)[i] == Dot(a[i], x, |x|) + Dot(coupling[i], y, |y|)
  {
    hide Dot, Hessian, BlockEntry, CouplingEntry, DiagonalEntry;
    TopIsHessian(triples, w, |w|, precision, z, x, y, i);
    DotEqual(BlockRow(triples, w, |w|, precision, i, |x|), a[i], x, x, |x|);
    DotEqual(CouplingRow(triples, w, |w|, i, |y|), coupling[i], y, y, |y|);
  }

  lemma BottomActs(a: Matrix, coupling: Matrix, diagonal: Vector, triples: seq<Triple>, w: Vector, precision: real,
                   z: Vector, x: Vector, y: Vector, s: nat)
    requires AreBlocks(a, coupling, diagonal, triples, w, |w|, |x|, |y|, precision)
    requires Fits(triples, |x|, |y|) && z == x + y && s < |y|
    ensures Hessian(z, triples, w, |w|, |x|, |y|, precision)[|x| + s] ==
              Dot(Column(coupling, s), x, |x|) + diagonal[s] * y[s]
  {
    hide *;
    BottomOf(a, coupling, diagonal, triples, w, precision, x, y, s);
    BottomIsHessian(triples, w, |w|, precision, z, x, y, s);
  }

  lemma BottomOf(a: Matrix, coupling: Matrix, diagonal: Vector, triples: seq<Triple>, w: Vector, precision: real,
                 x: Vector, y: Vector, s: nat)
    requires AreBlocks(a, coupling, diagonal, triples, w, |w|, |x|, |y|, precision) && s < |y|
    ensures Shape(coupling, |x|, |y|) && |diagonal| == |y| && |triples| == |w|
    ensures Bottom(triples, w, |w|, precision, x, y, s) == Dot(Column(coupling, s), x, |x|) + diagonal[s] * y[s]
  {
    hide Dot, BlockEntry, CouplingEntry, DiagonalEntry, CouplingColumn;
    assert diagonal[s] == DiagonalEntry(triples, w, |w|, precision, s);
    DotEqual(CouplingColumn(triples, w, |w|, s, |x|), Column(coupling, s), x, x, |x|);
  }

  /** Symmetric and positive definite. */
  ghost predicate IsSPD(m: Matrix)
    requires Shape(m, |m|, |m|)
  {
    && (forall i, j :: 0 <= i < |m| && 0 <= j < |m| ==> m[i][j] == m[j][i])
    && forall x: Vector :: |x| == |m| ==> PositiveOn(m, x)
  }

  ghost predicate PositiveOn(m: Matrix, x: Vector)
    requires Shape(m, |m|, |x|) && |m| == |x|
  {
    var form := Dot(Times(m, x), x, |x|);
    form >= 0.0 && (form == 0.0 ==> IsZero(x))
  }

  /** The Schur complement of the curvature is symmetric and positive definite. */
  lemma SchurPositiveDefinite(a: Matrix, coupling: Matrix, diagonal: Vector, triples: seq<Triple>, w: Vector, k: nat,
                              t: nat, precision: real)
    requires AreBlocks(a, coupling, diagonal, triples, w, |w|, k, t, precision)
    requires Weighted(triples, w, k, t, precision) && Blocked(a, coupling, diagonal, k, t)
    ensures IsSPD(Schur(a, coupling, diagonal, k, t))
  {
    hide AreBlocks, PositiveOn, SchurEntry, SchurRow, Back;
    var m := Schur(a, coupling, diagonal, k, t);
    forall i, j | 0 <= i < k && 0 <= j < k ensures m[i][j] == m[j][i] {
      BlockSymmetric(a, coupling, diagonal, triples, w, k, t, precision, i, j);
      SchurSymmetric(a, coupling, diagonal, k, t, i, j, t);
    }
    forall x: Vector | |x| == k ensures PositiveOn(m, x) {
      var y := Back(coupling, diagonal, x, t);
      PositiveLifts(a, coupling, diagonal, triples, w, precision, x + y, x, y);
    }
  }

  lemma BlockSymmetric(a: Matrix, coupling: Matrix, diagonal: Vector, triples: seq<Triple>, w: Vector, k: nat, t: nat,
                       precision: real, i: nat, j: nat)
    requires AreBlocks(a, coupling, diagonal, triples, w, |w|, k, t, precision) && i < k && j < k
    ensures a[i][j] == a[j][i]
  {
    hide BlockEntry, CouplingEntry, DiagonalEntry;
    EntrySymmetric(triples, w, |w|, precision, i, j);
  }

  lemma {:induction false} EntrySymmetric(triples: seq<Triple>, w: Vector, n: nat, precision: real, i: int, j: int)
    requires n <= |triples| == |w|
    ensures BlockEntry(triples, w, n, precision, i, j) == BlockEntry(triples, w, n, precision, j, i)
  {
    hide Part;
    if n > 0 {
      EntrySymmetric(triples, w, n - 1, precision, i, j);
      Swap(w[n - 1], Part(triples[n - 1], i), Part(triples[n - 1], j));
    }
  }

  lemma Swap(w: real, p: real, q: real)
    ensures w * p * q == w * q * p
  {
  }

  lemma {:induction false} SchurSymmetric(a: Matrix, coupling: Matrix, diagonal: Vector, k: nat, t: nat, i: nat, j: nat,
                                          n: nat)
    requires Blocked(a, coupling, diagonal, k, t) && i < k && j < k && n <= t && a[i][j] == a[j][i]
    ensures SchurEntry(a, coupling, diagonal, i, j, n) == SchurEntry(a, coupling, diagonal, j, i, n)
  {
    if n > 0 {
      SchurSymmetric(a, coupling, diagonal, k, t, i, j, n - 1);
      Swap(1.0, coupling[i][n - 1], coupling[j][n - 1]);
    }
  }

  /** On `x` the complement takes the value the whole curvature takes on `x` and the task parameters it forces. */
  lemma PositiveLifts(a: Matrix, coupling: Matrix, diagonal: Vector, triples: seq<Triple>, w: Vector, precision: real,
                      z: Vector, x: Vector, y: Vector)
    requires AreBlocks(a, coupling, diagonal, triples, w, |w|, |x|, |y|, precision)
    requires Weighted(triples, w, |x|, |y|, precision) && Blocked(a, coupling, diagonal, |x|, |y|)
    requires y == Back(coupling, diagonal, x, |y|) && z == x + y
    ensures PositiveOn(Schur(a, coupling, diagonal, |x|, |y|), x)
  {
    hide Dot, AreBlocks, Hessian, SchurRow, Back, Schur, Times;
    var k, t := |x|, |y|;
    var m := Schur(a, coupling, diagonal, k, t);
    var h := Hessian(z, triples, w, |w|, k, t, precision);
    forall i | 0 <= i < k ensures h[i] == Times(m, x)[i] && z[i] == x[i] {
      TopActs(a, coupling, diagonal, triples, w, precision, z, x, y, i);
      SchurEliminates(a, coupling, diagonal, x, t, i, t);
    }
    forall s | k <= s < k + t ensures h[s] == 0.0 {
      BottomActs(a, coupling, diagonal, triples, w, precision, z, x, y, s - k);
      BackAt(coupling, diagonal, x, t, s - k);
      QuotientCancels(diagonal[s - k], Dot(Column(coupling, s - k), x, k));
    }
    DotEqual(h, Times(m, x), z, x, k);
    ZeroTail(h, z, k, t);
    HessianPositiveDefinite(z, triples, w, k, t, precision);
  }

  lemma {:induction false} ZeroTail(h: Vector, z: Vector, k: nat, n: nat)
    requires k + n <= |h| && k + n <= |z| && forall i :: k <= i < k + n ==> h[i] == 0.0
    ensures Dot(h, z, k + n) == Dot(h, z, k)
  {
    if n > 0 { ZeroTail(h, z, k, n - 1); }
  }

  /** So it has an inverse. */
  lemma SchurNonsingular(a: Matrix, coupling: Matrix, diagonal: Vector, triples: seq<Triple>, w: Vector, k: nat, t: nat,
                         precision: real)
    requires AreBlocks(a, coupling, diagonal, triples, w, |w|, k, t, precision)
    requires Weighted(triples, w, k, t, precision) && Blocked(a, coupling, diagonal, k, t)
    ensures Nonsingular(Schur(a, coupling, diagonal, k, t))
  {
    hide AreBlocks, Schur, Weighted, Blocked, Dot;
    SchurPositiveDefinite(a, coupling, diagonal, triples, w, k, t, precision);
    PositiveDefiniteNonsingular(Schur(a, coupling, diagonal, k, t));
  }

  lemma PositiveDefiniteNonsingular(m: Matrix)
    requires Shape(m, |m|, |m|) && IsSPD(m)
    ensures Nonsingular(m)
  {
    hide Dot, Times;
    forall x: Vector | |x| == |m| && InKernel(m, x) ensures IsZero(x) {
      ZeroDot(Times(m, x), x, |x|);
      assert PositiveOn(m, x);
    }
  }

  lemma QuotientCancels(d: real, e: real)
    requires d > 0.0
    ensures d * (-e / d) == -e
  {
  }

  // ---------- Assembling and solving ----------

  datatype Curvature = Curvature(sInverse: Matrix, coupling: Matrix, taskDiagonal: Vector)

  ghost predicate IsCurvature(c: Curvature, a: Matrix, triples: seq<Triple>, w: Vector, k: nat, t: nat, precision: real)
  {
    && Weighted(triples, w, k, t, precision)
    && AreBlocks(a, c.coupling, c.taskDiagonal, triples, w, |w|, k, t, precision)
    && Blocked(a, c.coupling, c.taskDiagonal, k, t) && Shape(c.sInverse, k, k)
    && IsProductIdentity(Schur(a, c.coupling, c.taskDiagonal, k, t), c.sInverse)
    && IsProductIdentity(c.sInverse, Schur(a, c.coupling, c.taskDiagonal, k, t))
  }

  function Weight(x: Vector, cell: Triple, k: nat, sigmoid: Sigmoid): real
    requires cell.model < k && cell.role < k && k + cell.task < |x|
  {
    var p := sigmoid(Eta(x, cell, k));
    cell.attempts as real * p * (1.0 - p)
  }

  ghost function Weights(x: Vector, triples: seq<Triple>, k: nat, t: nat, sigmoid: Sigmoid): (w: Vector)
    requires |x| == k + t && Fits(triples, k, t) && IsProbability(sigmoid)
    ensures |w| == |triples|
    ensures forall c :: 0 <= c < |w| ==> w[c] == Weight(x, triples[c], k, sigmoid) && w[c] >= 0.0
  {
    WeightsNonnegative(x, triples, k, t, sigmoid);
    seq(|triples|, c requires 0 <= c < |triples| => Weight(x, triples[c], k, sigmoid))
  }

  lemma WeightsNonnegative(x: Vector, triples: seq<Triple>, k: nat, t: nat, sigmoid: Sigmoid)
    requires |x| == k + t && Fits(triples, k, t) && IsProbability(sigmoid)
    ensures forall c :: 0 <= c < |triples| ==> Weight(x, triples[c], k, sigmoid) >= 0.0
  {
    forall c | 0 <= c < |triples| ensures Weight(x, triples[c], k, sigmoid) >= 0.0 {
      var p := sigmoid(Eta(x, triples[c], k));
      NonnegativeProduct(triples[c].attempts as real, p, 1.0 - p);
    }
  }

  lemma NonnegativeProduct(a: real, b: real, c: real)
    requires a >= 0.0 && b >= 0.0 && c >= 0.0
    ensures a * b * c >= 0.0
  {
    var ab := a * b;
    assert ab >= 0.0;
    assert ab * c >= 0.0;
  }

  /** The seven updates one cell makes. */
  method AddCell(a: array<Vector>, c: array<Vector>, d: array<real>, triples: seq<Triple>, n: nat, weight: real,
                 ghost w: Vector, k: nat, t: nat, ghost precision: real)
    requires a != c && n < |triples| && Fits(triples, k, t)
    requires AreBlocks(a[..], c[..], d[..], triples, w, n, k, t, precision) && weight == w[n]
    modifies a, c, d
    ensures AreBlocks(a[..], c[..], d[..], triples, w, n + 1, k, t, precision)
  {
    hide BlockEntry, CouplingEntry, DiagonalEntry, Part;
    ghost var a0, c0, d0 := a[..], c[..], d[..];
    var cell := triples[n];
    AddBlock(a, cell, weight, k);
    AddCoupling(c, cell, weight, k, t);
    d[cell.task] := d[cell.task] + weight;
    CellAdded(a0, a[..], c0, c[..], d0, d[..], triples, w, n, k, t, precision);
  }

  /** The blocks at `x`, assembled in place cell by cell. */
  method AssembleBlocks(x: Vector, triples: seq<Triple>, k: nat, t: nat, precision: real, sigmoid: Sigmoid,
                        ghost w: Vector)
    returns (block: Matrix, coupling: Matrix, diagonal: Vector)
    requires |x| == k + t && Fits(triples, k, t) && IsProbability(sigmoid) && w == Weights(x, triples, k, t, sigmoid)
    ensures AreBlocks(block, coupling, diagonal, triples, w, |w|, k, t, precision)
  {
    hide AreBlocks, Weights, Weight, Eta;
    var a := new Vector[k](i => seq(k, j => if i == j then precision else 0.0));
    var c := new Vector[k](i => seq(t, j => 0.0));
    var d := new real[t](s => precision);
    StartingBlocks(a[..], c[..], d[..], triples, w, k, t, precision);
    for n := 0 to |triples|
      invariant AreBlocks(a[..], c[..], d[..], triples, w, n, k, t, precision)
    {
      var cell := triples[n];
      var p := sigmoid(x[cell.model] + x[cell.role] - x[k + cell.task]);
      WeightIs(x, cell, k, sigmoid, p);
      AddCell(a, c, d, triples, n, cell.attempts as real * p * (1.0 - p), w, k, t, precision);
    }
    block, coupling, diagonal := a[..], c[..], d[..];
  }

  /** The curvature at `x`: blocks assembled, task block eliminated, Schur complement inverted. */
  method CurvatureAt(x: Vector, triples: seq<Triple>, k: nat, t: nat, precision: real, sigmoid: Sigmoid)
    returns (c: Curvature, block: Matrix)
    requires |x| == k + t && Fits(triples, k, t) && precision > 0.0 && IsProbability(sigmoid)
    ensures IsCurvature(c, block, triples, Weights(x, triples, k, t, sigmoid), k, t, precision)
  {
    hide AreBlocks, Nonsingular, IsProductIdentity, Weight;
    ghost var w := Weights(x, triples, k, t, sigmoid);
    var a, coupling, diagonal := AssembleBlocks(x, triples, k, t, precision, sigmoid, w);
    BlocksAreBlocked(a, coupling, diagonal, triples, w, k, t, precision);
    SchurNonsingular(a, coupling, diagonal, triples, w, k, t, precision);
    var schur := SchurComplement(a, coupling, diagonal, k, t);
    var inverse := Invert(schur);
    c := Curvature(inverse, coupling, diagonal);
    block := a;
  }

  lemma WeightIs(x: Vector, cell: Triple, k: nat, sigmoid: Sigmoid, p: real)
    requires cell.model < k && cell.role < k && k + cell.task < |x|
    requires p == sigmoid(x[cell.model] + x[cell.role] - x[k + cell.task])
    ensures Weight(x, cell, k, sigmoid) == cell.attempts as real * p * (1.0 - p)
  {
  }

  lemma StartingBlocks(a: Matrix, coupling: Matrix, diagonal: Vector, triples: seq<Triple>, w: Vector, k: nat, t: nat,
                       precision: real)
    requires |triples| == |w| && Shape(a, k, k) && Shape(coupling, k, t) && |diagonal| == t
    requires forall i, j :: 0 <= i < k && 0 <= j < k ==> a[i][j] == if i == j then precision else 0.0
    requires forall i, s :: 0 <= i < k && 0 <= s < t ==> coupling[i][s] == 0.0
    requires forall s :: 0 <= s < t ==> diagonal[s] == precision
    ensures AreBlocks(a, coupling, diagonal, triples, w, 0, k, t, precision)
  {
  }

  lemma CellAdded(a: Matrix, a': Matrix, coupling: Matrix, coupling': Matrix, diagonal: Vector, diagonal': Vector,
                  triples: seq<Triple>, w: Vector, n: nat, k: nat, t: nat, precision: real)
    requires n < |triples| && AreBlocks(a, coupling, diagonal, triples, w, n, k, t, precision)
    requires Shape(a', k, k) && Shape(coupling', k, t) && |diagonal'| == t
    requires forall i, j :: 0 <= i < k && 0 <= j < k ==>
               a'[i][j] == a[i][j] + w[n] * Part(triples[n], i) * Part(triples[n], j)
    requires forall i, s :: 0 <= i < k && 0 <= s < t ==>
               coupling'[i][s] == coupling[i][s] - w[n] * Part(triples[n], i) * Delta(s, triples[n].task)
    requires forall s :: 0 <= s < t ==> diagonal'[s] == if s == triples[n].task then diagonal[s] + w[n] else diagonal[s]
    ensures AreBlocks(a', coupling', diagonal', triples, w, n + 1, k, t, precision)
  {
    hide Part;
  }
}
