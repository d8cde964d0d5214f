/** The variances of the reported effects: each is the quadratic form of the inverse curvature at its contrast. */
module AbilityVariance {
  import opened GaussJordan
  import opened AbilityMap
  import opened AbilityFit

  /** What the curvature is made of. */
  datatype System = System(triples: seq<Triple>, w: Vector, k: nat, t: nat, precision: real) {
    ghost predicate Ok() { Weighted(triples, w, k, t, precision) }

    ghost function Act(z: Vector): (h: Vector)
      requires Ok() && |z| == k + t
      ensures |h| == k + t
    {
      Hessian(z, triples, w, |w|, k, t, precision)
    }
  }

  /** `value` is `v' H^-1 v`, with `z` standing for `H^-1 v`. */
  ghost predicate IsVariance(value: real, v: Vector, z: Vector, system: System)
    requires system.Ok()
  {
    && |v| == |z| == system.k + system.t
    && system.Act(z) == v && value == Dot(v, z, system.k + system.t)
  }

  /** There is only one `H^-1 v`, so only one variance. */
  lemma VarianceUnique(value: real, value': real, v: Vector, z: Vector, z': Vector, system: System)
    requires system.Ok() && IsVariance(value, v, z, system) && IsVariance(value', v, z', system)
    ensures value == value' && z == z'
  {
    hide Dot, Hessian, Plus;
    var n := system.k + system.t;
    var d := Plus(z, -1.0, z');
    ActLinear(z, -1.0, z', d, system);
    forall i | 0 <= i < n ensures system.Act(d)[i] == 0.0 {}
    ZeroDot(system.Act(d), d, n);
    HessianPositiveDefinite(d, system.triples, system.w, system.k, system.t, system.precision);
    forall i | 0 <= i < n ensures z[i] == z'[i] { assert d[i] == 0.0; }
    assert z == z';
  }

  lemma VarianceNonnegative(value: real, v: Vector, z: Vector, system: System)
    requires system.Ok() && IsVariance(value, v, z, system)
    ensures value >= 0.0 && (value == 0.0 ==> IsZero(v))
  {
    hide Dot, IsZero;
    HessianPositiveDefinite(z, system.triples, system.w, system.k, system.t, system.precision);
    if IsZero(z) { ActZero(z, system.triples, system.w, |system.w|, system.k, system.t, system.precision); }
  }

  lemma {:induction false} ActZero(z: Vector, triples: seq<Triple>, w: Vector, n: nat, k: nat, t: nat, precision: real)
    requires |z| == k + t && n <= |triples| == |w| && Fits(triples, k, t) && IsZero(z)
    ensures IsZero(Hessian(z, triples, w, n, k, t, precision))
  {
    hide Direction;
    if n > 0 {
      ActZero(z, triples, w, n - 1, k, t, precision);
      assert w[n - 1] * Eta(z, triples[n - 1], k) == 0.0;
    }
  }

  // ---------- The curvature is linear ----------

  lemma EtaLinear(a: Vector, f: real, b: Vector, z: Vector, cell: Triple, k: nat)
    requires |a| == |b| && z == Plus(a, f, b) && cell.model < k && cell.role < k && k + cell.task < |z|
    ensures Eta(z, cell, k) == Eta(a, cell, k) + f * Eta(b, cell, k)
  {
  }

  lemma StepLinear(a: real, f: real, b: real, w: real, p: real, q: real, u: real)
    ensures (a + f * b) + (w * (p + f * q)) * u == (a + (w * p) * u) + f * (b + (w * q) * u)
  {
    assert (w * (p + f * q)) * u == (w * p) * u + f * ((w * q) * u);
  }

  lemma {:induction false} HessianLinear(a: Vector, f: real, b: Vector, z: Vector, triples: seq<Triple>, w: Vector,
                                         n: nat, k: nat, t: nat, precision: real)
    requires |a| == |b| == k + t && z == Plus(a, f, b) && n <= |triples| == |w| && Fits(triples, k, t)
    ensures Hessian(z, triples, w, n, k, t, precision) ==
              Plus(Hessian(a, triples, w, n, k, t, precision), f, Hessian(b, triples, w, n, k, t, precision))
  {
    hide Direction, Eta, Plus;
    var h := Hessian(z, triples, w, n, k, t, precision);
    var ha := Hessian(a, triples, w, n, k, t, precision);
    var hb := Hessian(b, triples, w, n, k, t, precision);
    if n == 0 {
      forall i | 0 <= i < k + t ensures h[i] == ha[i] + f * hb[i] {
        StepLinear(0.0, f, 0.0, 1.0, a[i], b[i], precision);
      }
    } else {
      HessianLinear(a, f, b, z, triples, w, n - 1, k, t, precision);
      HessianLinearStep(a, f, b, z, triples, w, n, k, t, precision);
    }
    assert h == Plus(ha, f, hb);
  }

  lemma HessianLinearStep(a: Vector, f: real, b: Vector, z: Vector, triples: seq<Triple>, w: Vector, n: nat,
                          k: nat, t: nat, precision: real)
    requires |a| == |b| == k + t && z == Plus(a, f, b) && 0 < n <= |triples| == |w| && Fits(triples, k, t)
    requires Hessian(z, triples, w, n - 1, k, t, precision) ==
               Plus(Hessian(a, triples, w, n - 1, k, t, precision), f, Hessian(b, triples, w, n - 1, k, t, precision))
    ensures forall i :: 0 <= i < k + t ==>
              Hessian(z, triples, w, n, k, t, precision)[i]
              == Hessian(a, triples, w, n, k, t, precision)[i] + f * Hessian(b, triples, w, n, k, t, precision)[i]
  {
    hide Direction, Eta, Plus, Hessian;
    var cell := triples[n - 1];
    var u := Direction(cell, k, t);
    HessianUnfolds(z, triples, w, n, k, t, precision);
    HessianUnfolds(a, triples, w, n, k, t, precision);
    HessianUnfolds(b, triples, w, n, k, t, precision);
    EtaLinear(a, f, b, z, cell, k);
    var ha, hb := Hessian(a, triples, w, n - 1, k, t, precision), Hessian(b, triples, w, n - 1, k, t, precision);
    forall i | 0 <= i < k + t
      ensures Hessian(z, triples, w, n, k, t, precision)[i] ==
                Hessian(a, triples, w, n, k, t, precision)[i] + f * Hessian(b, triples, w, n, k, t, precision)[i]
    {
      StepLinear(ha[i], f, hb[i], w[n - 1], Eta(a, cell, k), Eta(b, cell, k), u[i]);
    }
  }

  lemma ActLinear(a: Vector, f: real, b: Vector, z: Vector, system: System)
    requires system.Ok() && |a| == |b| == system.k + system.t && z == Plus(a, f, b)
    ensures system.Act(z) == Plus(system.Act(a), f, system.Act(b))
  {
    hide Plus, Hessian;
    HessianLinear(a, f, b, z, system.triples, system.w, |system.w|, system.k, system.t, system.precision);
  }

  lemma ActSymmetric(y: Vector, z: Vector, system: System)
    requires system.Ok() && |y| == |z| == system.k + system.t
    ensures Dot(system.Act(y), z, system.k + system.t) == Dot(system.Act(z), y, system.k + system.t)
  {
    hide Dot, Hessian, Coupled;
    var n := system.k + system.t;
    HessianForm(z, y, system.triples, system.w, |system.w|, system.k, system.t, system.precision);
    HessianForm(y, z, system.triples, system.w, |system.w|, system.k, system.t, system.precision);
    CoupledSymmetric(y, z, system.triples, system.w, |system.w|, system.k, system.t);
    DotCommutes(y, z, n);
  }

  /** The variance of `v + f u` from the variances of `v` and `u` and the covariance between them. */
  lemma CombinedVariance(va: real, v: Vector, a: Vector, vb: real, u: Vector, b: Vector, cov: real, f: real,
                         v': Vector, z: Vector, system: System)
    requires system.Ok() && IsVariance(va, v, a, system) && IsVariance(vb, u, b, system)
    requires v' == Plus(v, f, u) && z == Plus(a, f, b) && cov == Dot(v, b, system.k + system.t)
    ensures IsVariance(va + f * (cov + cov) + (f * f) * vb, v', z, system)
  {
    hide Dot, Hessian, Plus;
    var n := system.k + system.t;
    ActLinear(a, f, b, z, system);
    assert system.Act(z) == v';
    ActSymmetric(b, a, system);
    forall i | 0 <= i < n ensures IsSum(v'[i], v[i], f, u[i]) && IsSum(z[i], a[i], f, b[i]) {}
    DotOfSums(v, a, u, b, f, v', z, n);
  }

  ghost predicate IsSum(s: real, a: real, f: real, b: real) { s == a + f * b }

  ghost predicate IsForm(total: real, va: real, vb: real, ua: real, ub: real, f: real) {
    total == va + f * (vb + ua) + (f * f) * ub
  }

  lemma {:induction false} DotOfSums(v: Vector, a: Vector, u: Vector, b: Vector, f: real, v': Vector, z: Vector, n: nat)
    requires n <= |v| && n <= |a| && n <= |u| && n <= |b| && n <= |v'| && n <= |z|
    requires forall i :: 0 <= i < n ==> IsSum(v'[i], v[i], f, u[i]) && IsSum(z[i], a[i], f, b[i])
    ensures IsForm(Dot(v', z, n), Dot(v, a, n), Dot(v, b, n), Dot(u, a, n), Dot(u, b, n), f)
  {
    hide IsSum, IsForm;
    if n == 0 {
      Expand(0.0, 0.0, 0.0, 0.0, f, 0.0, 0.0, 0.0, 0.0, 0.0, 0.0, 0.0, 0.0, 0.0, 0.0, 0.0, 0.0);
    } else {
      var m := n - 1;
      DotOfSums(v, a, u, b, f, v', z, m);
      Expand(Dot(v, a, m), Dot(v, b, m), Dot(u, a, m), Dot(u, b, m), f, v[m], u[m], a[m], b[m], v'[m], z[m],
             Dot(v, a, n), Dot(v, b, n), Dot(u, a, n), Dot(u, b, n), Dot(v', z, m), Dot(v', z, n));
    }
  }

  lemma Expand(va: real, vb: real, ua: real, ub: real, f: real, v: real, u: real, a: real, b: real, v': real, z: real,
               va': real, vb': real, ua': real, ub': real, total: real, total': real)
    requires IsSum(v', v, f, u) && IsSum(z, a, f, b)
    requires va' == va + v * a && vb' == vb + v * b && ua' == ua + u * a && ub' == ub + u * b
    requires IsForm(total, va, vb, ua, ub, f) && total' == total + v' * z
    ensures IsForm(total', va', vb', ua', ub', f)
  {
    assert v' * z == v * z + f * (u * z);
    assert v * z == v * a + f * (v * b);
    assert u * z == u * a + f * (u * b);
  }

  // ---------- The reported variances ----------

  ghost predicate Describes(system: System, c: Curvature, block: Matrix) {
    system.Ok() && IsCurvature(c, block, system.triples, system.w, system.k, system.t, system.precision)
  }

  function Constant(n: nat, value: real): (v: Vector)
    ensures |v| == n && forall i :: 0 <= i < n ==> v[i] == value
  {
    seq(n, i => value)
  }

  method Quadratic(m: Matrix, c: Vector) returns (q: real)
    requires Shape(m, |c|, |c|)
    ensures q == Dot(c, Times(m, c), |c|)
  {
    q := 0.0;
    for i := 0 to |c|
      invariant q == Dot(c, Times(m, c), i)
    {
      var row := 0.0;
      for j := 0 to |c|
        invariant row == Dot(m[i], c, j)
      {
        row := row + m[i][j] * c[j];
      }
      q := q + c[i] * row;
    }
  }

  /** With nothing on the tasks, the solution is the inverse Schur complement applied to the contrast. */
  lemma SolveTop(system: System, c: Curvature, block: Matrix, v: Vector, xK: Vector, xT: Vector, zeros: Vector)
    requires Describes(system, c, block) && |v| == system.k && xK == Times(c.sInverse, v)
    requires xT == Back(c.coupling, c.taskDiagonal, xK, system.t) && zeros == Constant(system.t, 0.0)
    ensures |xK| == system.k && |xT| == system.t && Solves(xK, xT, v, zeros, system.triples, system.w, system.precision)
  {
    hide AreBlocks, IsProductIdentity, Schur, Dot, Solves, Back, Times, Weighted;
    var q := Quotients(zeros, c.taskDiagonal);
    forall s | 0 <= s < system.t ensures q[s] == 0.0 {}
    forall i | 0 <= i < system.k ensures v[i] == v[i] - Dot(c.coupling[i], q, system.t) {
      DotCommutes(q, c.coupling[i], system.t);
      ZeroDot(q, c.coupling[i], system.t);
    }
    assert xT == Plus(q, 1.0, xT);
    SolvesSystem(c, block, system.triples, system.w, system.precision, v, zeros, v, xK, xT, xK + xT, q);
  }

  /** A solution gives the variance of its right-hand side. */
  lemma SolutionVariance(system: System, vK: Vector, vT: Vector, xK: Vector, xT: Vector, v: Vector, z: Vector)
    requires system.Ok() && |vK| == |xK| == system.k && |vT| == |xT| == system.t && v == vK + vT && z == xK + xT
    requires Solves(xK, xT, vK, vT, system.triples, system.w, system.precision)
    ensures IsVariance(Dot(vK, xK, system.k) + Dot(vT, xT, system.t), v, z, system)
  {
    hide *;
    SplitDot(vK, vT, xK, xT, v, z, system.k, system.t);
    SolvesAct(system, vK, vT, xK, xT, v, z);
    AsVariance(system, v, z, Dot(vK, xK, system.k) + Dot(vT, xT, system.t));
  }

  lemma AsVariance(system: System, v: Vector, z: Vector, value: real)
    requires system.Ok() && |z| == system.k + system.t && system.Act(z) == v && value == Dot(v, z, system.k + system.t)
    ensures IsVariance(value, v, z, system)
  {
  }

  lemma SplitDot(vK: Vector, vT: Vector, xK: Vector, xT: Vector, v: Vector, z: Vector, k: nat, t: nat)
    requires |vK| == |xK| == k && |vT| == |xT| == t && v == vK + vT && z == xK + xT
    ensures Dot(v, z, k + t) == Dot(vK, xK, k) + Dot(vT, xT, t)
  {
    hide Dot;
    StackedDot(vK, vT, xK, xT, k, t);
  }

  lemma SolvesAct(system: System, vK: Vector, vT: Vector, xK: Vector, xT: Vector, v: Vector, z: Vector)
    requires system.Ok() && |vK| == |xK| == system.k && |vT| == |xT| == system.t && v == vK + vT && z == xK + xT
    requires Solves(xK, xT, vK, vT, system.triples, system.w, system.precision)
    ensures |z| == system.k + system.t && system.Act(z) == v
  {
    hide Hessian, Fits;
  }

  /** The variance of a contrast of models and roles. */
  lemma TopVariance(system: System, c: Curvature, block: Matrix, vK: Vector, xK: Vector, xT: Vector, zeros: Vector,
                    v: Vector, z: Vector)
    requires Describes(system, c, block) && |vK| == system.k && xK == Times(c.sInverse, vK)
    requires xT == Back(c.coupling, c.taskDiagonal, xK, system.t) && zeros == Constant(system.t, 0.0)
    requires v == vK + zeros && z == xK + xT
    ensures IsVariance(Dot(vK, xK, system.k), v, z, system)
  {
    hide IsCurvature, Solves, Dot, Back, Times, Weighted, Constant, IsVariance;
    SolveTop(system, c, block, vK, xK, xT, zeros);
    SolutionVariance(system, vK, zeros, xK, xT, v, z);
    ZeroDot(zeros, xT, system.t);
  }

  /** The solution against the all-ones task vector, and its total. */
  method Ones(system: System, c: Curvature, ghost block: Matrix) returns (xK: Vector, xT: Vector, total: real)
    requires Describes(system, c, block)
    ensures |xK| == system.k && |xT| == system.t
    ensures IsVariance(total, Constant(system.k, 0.0) + Constant(system.t, 1.0), xK + xT, system)
  {
    hide IsCurvature, Solves, Dot, IsVariance, Constant;
    var zeros, ones := Constant(system.k, 0.0), Constant(system.t, 1.0);
    xK, xT := Solve(c, zeros, ones, block, system.triples, system.w, system.precision);
    total := Total(xT);
    OnesVariance(system, zeros, ones, xK, xT, total);
  }

  method Total(x: Vector) returns (total: real)
    ensures total == Dot(Constant(|x|, 1.0), x, |x|)
  {
    total := 0.0;
    for i := 0 to |x|
      invariant total == Dot(Constant(|x|, 1.0), x, i)
    {
      total := total + x[i];
    }
  }

  lemma OnesVariance(system: System, zeros: Vector, ones: Vector, xK: Vector, xT: Vector, total: real)
    requires system.Ok() && |xK| == system.k && |xT| == system.t
    requires zeros == Constant(system.k, 0.0) && ones == Constant(system.t, 1.0)
    requires Solves(xK, xT, zeros, ones, system.triples, system.w, system.precision) && total == Dot(ones, xT, system.t)
    ensures IsVariance(total, zeros + ones, xK + xT, system)
  {
    hide Solves, Dot, Constant, IsVariance, Weighted;
    SolutionVariance(system, zeros, ones, xK, xT, zeros + ones, xK + xT);
    ZeroDot(zeros, xK, system.k);
  }

  /** `contrast` on models and roles, less the mean of the tasks. */
  method ModelVariance(system: System, c: Curvature, contrast: Vector, onesK: Vector, ghost onesT: Vector, total: real,
                       ghost block: Matrix)
    returns (value: real, ghost z: Vector)
    requires Describes(system, c, block) && |contrast| == |onesK| == system.k && |onesT| == system.t && system.t > 0
    requires IsVariance(total, Constant(system.k, 0.0) + Constant(system.t, 1.0), onesK + onesT, system)
    ensures value >= 0.0
    ensures IsVariance(value, contrast + Constant(system.t, -(1.0 / system.t as real)), z, system)
  {
    hide IsCurvature, Dot, IsVariance, Constant;
    CurvatureShape(system, c, block);
    var quadratic := Quadratic(c.sInverse, contrast);
    var cross := DotProduct(contrast, onesK);
    var t := system.t as real;
    value := quadratic - (2.0 * cross) / t + total / (t * t);
    z := CentredTop(system, c, contrast, onesK, onesT, total, block, quadratic, cross, value);
    VarianceNonnegative(value, contrast + Constant(system.t, -(1.0 / t)), z, system);
  }

  /** `contrast` on models and roles alone. */
  method RoleVariance(system: System, c: Curvature, contrast: Vector, ghost block: Matrix)
    returns (value: real, ghost z: Vector)
    requires Describes(system, c, block) && |contrast| == system.k
    ensures value >= 0.0 && IsVariance(value, contrast + Constant(system.t, 0.0), z, system)
  {
    hide IsCurvature, Dot, IsVariance, Constant;
    CurvatureShape(system, c, block);
    value := Quadratic(c.sInverse, contrast);
    ghost var xK := Times(c.sInverse, contrast);
    ghost var xT := Back(c.coupling, c.taskDiagonal, xK, system.t);
    z := xK + xT;
    TopVariance(system, c, block, contrast, xK, xT, Constant(system.t, 0.0), contrast + Constant(system.t, 0.0), z);
    VarianceNonnegative(value, contrast + Constant(system.t, 0.0), z, system);
  }

  method DotProduct(a: Vector, b: Vector) returns (d: real)
    requires |a| == |b|
    ensures d == Dot(a, b, |a|)
  {
    d := 0.0;
    for i := 0 to |a|
      invariant d == Dot(a, b, i)
    {
      d := d + a[i] * b[i];
    }
  }

  lemma CurvatureShape(system: System, c: Curvature, block: Matrix)
    requires Describes(system, c, block)
    ensures Shape(c.sInverse, system.k, system.k) && Shape(c.coupling, system.k, system.t)
    ensures |c.taskDiagonal| == system.t && forall s :: 0 <= s < system.t ==> c.taskDiagonal[s] > 0.0
  {
    hide AreBlocks, IsProductIdentity, Schur, Weighted;
  }

  lemma CentredTop(system: System, c: Curvature, contrast: Vector, onesK: Vector, onesT: Vector, total: real,
                   block: Matrix, quadratic: real, cross: real, value: real)
    returns (z: Vector)
    requires Describes(system, c, block) && |contrast| == |onesK| == system.k && |onesT| == system.t && system.t > 0
    requires IsVariance(total, Constant(system.k, 0.0) + Constant(system.t, 1.0), onesK + onesT, system)
    requires Shape(c.sInverse, system.k, system.k)
    requires quadratic == Dot(contrast, Times(c.sInverse, contrast), system.k)
             && cross == Dot(contrast, onesK, system.k)
    requires value == quadratic - (2.0 * cross) / system.t as real + total / (system.t as real * system.t as real)
    ensures IsVariance(value, contrast + Constant(system.t, -(1.0 / system.t as real)), z, system)
  {
    hide IsCurvature, Dot, IsVariance, Constant, Times, Back, Plus, Weighted;
    CurvatureShape(system, c, block);
    var xK := Times(c.sInverse, contrast);
    var xT := Back(c.coupling, c.taskDiagonal, xK, system.t);
    var zeros := Constant(system.t, 0.0);
    TopVariance(system, c, block, contrast, xK, xT, zeros, contrast + zeros, xK + xT);
    ZeroDot(zeros, onesT, system.t);
    z := Centred(system, contrast, zeros, quadratic, xK + xT, onesK, onesT, total, cross, value);
    CentredTasks(system.t, zeros, -(1.0 / system.t as real));
  }

  /** Taking the mean of the tasks away from a contrast. */
  lemma Centred(system: System, vK: Vector, vT: Vector, va: real, a: Vector, onesK: Vector, onesT: Vector, total: real,
                cross: real, value: real)
    returns (z: Vector)
    requires system.Ok() && |vK| == |onesK| == system.k && |vT| == |onesT| == system.t && system.t > 0
    requires IsVariance(va, vK + vT, a, system)
    requires IsVariance(total, Constant(system.k, 0.0) + Constant(system.t, 1.0), onesK + onesT, system)
    requires cross == Dot(vK, onesK, system.k) + Dot(vT, onesT, system.t)
    requires value == va - (2.0 * cross) / system.t as real + total / (system.t as real * system.t as real)
    ensures IsVariance(value, vK + Plus(vT, -(1.0 / system.t as real), Constant(system.t, 1.0)), z, system)
  {
    hide Dot, Plus, Constant, Weighted, Hessian;
    var f := -(1.0 / system.t as real);
    var u, b := Constant(system.k, 0.0) + Constant(system.t, 1.0), onesK + onesT;
    var v := vK + vT;
    SplitDot(vK, vT, onesK, onesT, v, b, system.k, system.t);
    z := Plus(a, f, b);
    CombinedVariance(va, v, a, total, u, b, cross, f, Plus(v, f, u), z, system);
    CentredValue(va, cross, total, system.t as real, f);
    PlusStacked(vK, vT, system.k, system.t, f, v, u);
  }

  lemma CentredValue(va: real, cross: real, total: real, t: real, f: real)
    requires t > 0.0 && f == -(1.0 / t)
    ensures va - (2.0 * cross) / t + total / (t * t) == va + f * (cross + cross) + (f * f) * total
  {
    assert (2.0 * cross) / t == (1.0 / t) * (cross + cross);
    assert total / (t * t) == ((1.0 / t) * (1.0 / t)) * total;
  }

  lemma PlusStacked(vK: Vector, vT: Vector, k: nat, t: nat, f: real, v: Vector, u: Vector)
    requires |vK| == k && |vT| == t && v == vK + vT && u == Constant(k, 0.0) + Constant(t, 1.0)
    ensures Plus(v, f, u) == vK + Plus(vT, f, Constant(t, 1.0))
  {
    hide Plus, Constant;
    assert Plus(v, f, u) == vK + Plus(vT, f, Constant(t, 1.0));
  }

  lemma CentredTasks(t: nat, zeros: Vector, f: real)
    requires zeros == Constant(t, 0.0)
    ensures Plus(zeros, f, Constant(t, 1.0)) == Constant(t, f)
  {
    assert Plus(zeros, f, Constant(t, 1.0)) == Constant(t, f);
  }

  /** One task's difficulty, less the mean of the tasks. */
  method TaskVariance(system: System, c: Curvature, task: nat, ghost onesK: Vector, onesT: Vector, total: real,
                      ghost block: Matrix)
    returns (value: real, ghost z: Vector)
    requires Describes(system, c, block) && task < system.t && |onesK| == system.k && |onesT| == system.t
    requires IsVariance(total, Constant(system.k, 0.0) + Constant(system.t, 1.0), onesK + onesT, system)
    ensures value >= 0.0
    ensures IsVariance(value, Constant(system.k, 0.0) + Plus(Unit(system.t, task), -(1.0 / system.t as real),
                                                             Constant(system.t, 1.0)), z, system)
  {
    hide IsCurvature, Dot, IsVariance, Constant, Unit, Plus;
    CurvatureShape(system, c, block);
    var column := Column(c.coupling, task);
    var inverseDiagonal := 1.0 / c.taskDiagonal[task];
    var quadratic := Quadratic(c.sInverse, column);
    var own := inverseDiagonal + inverseDiagonal * inverseDiagonal * quadratic;
    var t := system.t as real;
    value := own - (2.0 * onesT[task]) / t + total / (t * t);
    ghost var zeros, e := Constant(system.k, 0.0), Unit(system.t, task);
    ghost var a := OwnVariance(system, c, block, task, column, inverseDiagonal, quadratic, own, zeros, e);
    ZeroDot(zeros, onesK, system.k);
    DotIdentityRow(e, onesT, task, system.t);
    z := Centred(system, zeros, e, own, a, onesK, onesT, total, onesT[task], value);
    VarianceNonnegative(value, zeros + Plus(e, -(1.0 / t), Constant(system.t, 1.0)), z, system);
  }

  /** The variance of one task's parameter, through the elimination of the task block. */
  lemma OwnVariance(system: System, c: Curvature, block: Matrix, task: nat, column: Vector, inverse: real,
                    quadratic: real, own: real, zeros: Vector, e: Vector)
    returns (z: Vector)
    requires Describes(system, c, block) && task < system.t && Shape(c.coupling, system.k, system.t)
    requires Shape(c.sInverse, system.k, system.k) && column == Column(c.coupling, task)
    requires |c.taskDiagonal| == system.t && forall s :: 0 <= s < system.t ==> c.taskDiagonal[s] > 0.0
    requires inverse == 1.0 / c.taskDiagonal[task]
    requires quadratic == Dot(column, Times(c.sInverse, column), system.k)
    requires own == inverse + inverse * inverse * quadratic
    requires zeros == Constant(system.k, 0.0) && e == Unit(system.t, task)
    ensures IsVariance(own, zeros + e, z, system)
  {
    hide IsCurvature, Dot, IsVariance, Constant, Unit, Plus, Back, Times, Quotients, Solves, Weighted;
    var k, t := system.k, system.t;
    var q := Quotients(e, c.taskDiagonal);
    UnitQuotients(e, c.taskDiagonal, q, task, inverse);
    var r := seq(k, i requires 0 <= i < k => -inverse * column[i]);
    forall i | 0 <= i < k ensures r[i] == zeros[i] - Dot(c.coupling[i], q, t) {
      DotUnit(c.coupling[i], q, task, t);
      NegatedProduct(inverse, column[i]);
    }
    var xK := Times(c.sInverse, r);
    var back := Back(c.coupling, c.taskDiagonal, xK, t);
    var xT := Plus(q, 1.0, back);
    z := xK + xT;
    SolvesSystem(c, block, system.triples, system.w, system.precision, zeros, e, r, xK, xT, z, q);
    SolutionVariance(system, zeros, e, xK, xT, zeros + e, z);
    ZeroDot(zeros, xK, k);
    DotIdentityRow(e, xT, task, t);
    BackAt(c.coupling, c.taskDiagonal, xK, t, task);
    ScaledSolution(c.sInverse, column, -inverse, r, xK);
    OwnValue(c.taskDiagonal[task], inverse, quadratic, Dot(column, xK, k));
  }

  lemma UnitQuotients(e: Vector, d: Vector, q: Vector, s: nat, inverse: real)
    requires |e| == |d| && s < |d| && e == Unit(|d|, s) && forall i :: 0 <= i < |d| ==> d[i] > 0.0
    requires q == Quotients(e, d) && inverse == 1.0 / d[s]
    ensures forall i :: 0 <= i < |d| ==> q[i] == if i == s then inverse else 0.0
  {
  }

  lemma NegatedProduct(f: real, x: real)
    ensures -f * x == 0.0 - x * f
  {
  }

  /** Scaling the right-hand side scales what the solution weighs. */
  lemma ScaledSolution(m: Matrix, v: Vector, f: real, r: Vector, x: Vector)
    requires Shape(m, |v|, |v|) && |r| == |v| && x == Times(m, r)
    requires forall i :: 0 <= i < |v| ==> r[i] == f * v[i]
    ensures Dot(v, x, |v|) == f * Dot(v, Times(m, v), |v|)
  {
    hide Dot, Times;
    var y := Times(m, v);
    forall i | 0 <= i < |v| ensures x[i] == f * y[i] {
      DotCommutes(m[i], r, |v|);
      DotCommutes(m[i], v, |v|);
      DotScale(v, r, f, m[i], |v|);
    }
    DotCommutes(v, x, |v|);
    DotCommutes(v, y, |v|);
    DotScale(y, x, f, v, |v|);
  }

  lemma OwnValue(d: real, inverse: real, quadratic: real, e: real)
    requires d > 0.0 && inverse == 1.0 / d && e == -inverse * quadratic
    ensures inverse + 1.0 * (-e / d) == inverse + inverse * inverse * quadratic
  {
    assert -e / d == (-e) * inverse;
    assert (-e) * inverse == inverse * inverse * quadratic;
  }
}
