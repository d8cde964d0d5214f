/** Solving the Newton system, and one damped step of the fit. */
module AbilityFit {
  import opened GaussJordan
  import opened AbilityMap

  /** `(xK, xT)` solves the full system with right-hand side `(vK, vT)`. */
  ghost predicate Solves(xK: Vector, xT: Vector, vK: Vector, vT: Vector, triples: seq<Triple>, w: Vector,
                         precision: real)
    requires Weighted(triples, w, |xK|, |xT|, precision)
  {
    Hessian(xK + xT, triples, w, |w|, |xK|, |xT|, precision) == vK + vT
  }

  // ---------- Solving through the Schur complement ----------

  ghost function Quotients(v: Vector, d: Vector): (q: Vector)
    requires |v| == |d| && forall s :: 0 <= s < |d| ==> d[s] > 0.0
    ensures |q| == |v|
  {
    seq(|v|, s requires 0 <= s < |v| => v[s] / d[s])
  }

  /** The right-hand side left for the model and role block. */
  method Eliminate(c: Curvature, vK: Vector, vT: Vector, ghost k: nat, ghost t: nat) returns (r: Vector)
    requires Shape(c.coupling, k, t) && |c.taskDiagonal| == t && |vK| == k && |vT| == t
    requires forall s :: 0 <= s < t ==> c.taskDiagonal[s] > 0.0
    ensures |r| == k
    ensures forall i :: 0 <= i < k ==> r[i] == vK[i] - Dot(c.coupling[i], Quotients(vT, c.taskDiagonal), t)
  {
    r := [];
    ghost var q := Quotients(vT, c.taskDiagonal);
    for i := 0 to |vK|
      invariant |r| == i && forall j :: 0 <= j < i ==> r[j] == vK[j] - Dot(c.coupling[j], q, t)
    {
      var sum := vK[i];
      for task := 0 to |vT|
        invariant sum == vK[i] - Dot(c.coupling[i], q, task)
      {
        ProductQuotient(c.coupling[i][task], vT[task], c.taskDiagonal[task]);
        assert q[task] == vT[task] / c.taskDiagonal[task];
        sum := sum - (c.coupling[i][task] * vT[task]) / c.taskDiagonal[task];
      }
      r := r + [sum];
    }
  }

  lemma ProductQuotient(c: real, v: real, d: real)
    requires d > 0.0
    ensures (c * v) / d == c * (v / d)
  {
  }

  method Multiply(m: Matrix, r: Vector) returns (x: Vector)
    requires Shape(m, |m|, |r|)
    ensures x == Times(m, r)
  {
    x := [];
    for i := 0 to |m|
      invariant |x| == i && forall j :: 0 <= j < i ==> x[j] == Dot(m[j], r, |r|)
    {
      var sum := 0.0;
      for j := 0 to |m[i]|
        invariant sum == Dot(m[i], r, j)
      {
        sum := sum + m[i][j] * r[j];
      }
      x := x + [sum];
    }
  }

  /** The task parameters, from the model and role parameters. */
  method BackSubstitute(c: Curvature, xK: Vector, vT: Vector, ghost t: nat) returns (xT: Vector)
    requires Shape(c.coupling, |xK|, t) && |c.taskDiagonal| == t && |vT| == t
    requires forall s :: 0 <= s < t ==> c.taskDiagonal[s] > 0.0
    ensures |xT| == t
    ensures forall s :: 0 <= s < t ==> xT[s] == (vT[s] - Dot(Column(c.coupling, s), xK, |xK|)) / c.taskDiagonal[s]
  {
    xT := [];
    for task := 0 to |vT|
      invariant |xT| == task
      invariant forall s :: 0 <= s < task ==>
                  xT[s] == (vT[s] - Dot(Column(c.coupling, s), xK, |xK|)) / c.taskDiagonal[s]
    {
      var sum := vT[task];
      for i := 0 to |xK|
        invariant sum == vT[task] - Dot(Column(c.coupling, task), xK, i)
      {
        sum := sum - c.coupling[i][task] * xK[i];
      }
      xT := xT + [sum / c.taskDiagonal[task]];
    }
  }

  /** The task parameters are those of the right-hand side plus those forced by the other block. */
  lemma TaskParts(coupling: Matrix, diagonal: Vector, vT: Vector, xK: Vector, xT: Vector)
    requires Shape(coupling, |xK|, |vT|) && |xT| == |vT| == |diagonal|
    requires forall s :: 0 <= s < |diagonal| ==> diagonal[s] > 0.0
    requires forall s :: 0 <= s < |vT| ==> xT[s] == (vT[s] - Dot(Column(coupling, s), xK, |xK|)) / diagonal[s]
    ensures xT == Plus(Quotients(vT, diagonal), 1.0, Back(coupling, diagonal, xK, |vT|))
  {
    hide Dot, Back;
    var back, q := Back(coupling, diagonal, xK, |vT|), Quotients(vT, diagonal);
    forall s | 0 <= s < |vT| ensures xT[s] == q[s] + 1.0 * back[s] {
      BackAt(coupling, diagonal, xK, |vT|, s);
      SplitQuotient(vT[s], Dot(Column(coupling, s), xK, |xK|), diagonal[s]);
    }
  }

  lemma SplitQuotient(v: real, e: real, d: real)
    requires d > 0.0
    ensures (v - e) / d == v / d + 1.0 * (-e / d)
  {
  }

  /** `solve`: the solution of the whole (k+t)-dimensional system. */
  method Solve(c: Curvature, vK: Vector, vT: Vector, ghost block: Matrix, ghost triples: seq<Triple>, ghost w: Vector,
               ghost precision: real)
    returns (xK: Vector, xT: Vector)
    requires IsCurvature(c, block, triples, w, |vK|, |vT|, precision)
    ensures |xK| == |vK| && |xT| == |vT| && Solves(xK, xT, vK, vT, triples, w, precision)
  {
    hide AreBlocks, IsProductIdentity, Solves, Dot, Schur;
    ghost var k, t := |vK|, |vT|;
    var r := Eliminate(c, vK, vT, k, t);
    xK := Multiply(c.sInverse, r);
    xT := BackSubstitute(c, xK, vT, t);
    TaskParts(c.coupling, c.taskDiagonal, vT, xK, xT);
    SolvesSystem(c, block, triples, w, precision, vK, vT, r, xK, xT, xK + xT, Quotients(vT, c.taskDiagonal));
  }

  lemma SolvesSystem(c: Curvature, a: Matrix, triples: seq<Triple>, w: Vector, precision: real, vK: Vector, vT: Vector,
                     r: Vector, xK: Vector, xT: Vector, z: Vector, q: Vector)
    requires |r| == |xK| == |vK| && |xT| == |vT| && z == xK + xT
    requires IsCurvature(c, a, triples, w, |xK|, |xT|, precision) && q == Quotients(vT, c.taskDiagonal)
    requires forall i :: 0 <= i < |vK| ==> r[i] == vK[i] - Dot(c.coupling[i], q, |vT|)
    requires xK == Times(c.sInverse, r)
    requires xT == Plus(q, 1.0, Back(c.coupling, c.taskDiagonal, xK, |xT|))
    ensures Solves(xK, xT, vK, vT, triples, w, precision)
  {
    hide AreBlocks, Dot, Hessian, IsProductIdentity, Schur, Quotients, Times, Fits, Back, Plus, Blocked;
    var h := Hessian(z, triples, w, |w|, |xK|, |xT|, precision);
    forall i | 0 <= i < |vK| ensures h[i] == vK[i] {
      TopSolved(c, a, triples, w, precision, vK, r, xK, xT, z, q, i);
    }
    forall i | |vK| <= i < |vK| + |vT| ensures h[i] == vT[i - |vK|] {
      BottomSolved(c, a, triples, w, precision, vT, xK, xT, z, i - |vK|);
    }
    assert h == vK + vT;
  }

  lemma TopSolved(c: Curvature, a: Matrix, triples: seq<Triple>, w: Vector, precision: real, vK: Vector, r: Vector,
                  xK: Vector, xT: Vector, z: Vector, q: Vector, i: nat)
    requires |r| == |xK| == |vK| && |q| == |xT| && z == xK + xT && i < |vK|
    requires IsCurvature(c, a, triples, w, |xK|, |xT|, precision)
    requires r[i] == vK[i] - Dot(c.coupling[i], q, |q|) && xK == Times(c.sInverse, r)
    requires xT == Plus(q, 1.0, Back(c.coupling, c.taskDiagonal, xK, |xT|))
    ensures Hessian(z, triples, w, |w|, |xK|, |xT|, precision)[i] == vK[i]
  {
    hide AreBlocks, Dot, Hessian, IsProductIdentity, Schur, Times, Back, Plus;
    var back := Back(c.coupling, c.taskDiagonal, xK, |xT|);
    TopActs(a, c.coupling, c.taskDiagonal, triples, w, precision, z, xK, xT, i);
    PlusDot(q, 1.0, back, c.coupling[i], |q|);
    DotCommutes(xT, c.coupling[i], |q|);
    DotCommutes(q, c.coupling[i], |q|);
    DotCommutes(back, c.coupling[i], |q|);
    SchurPart(c, a, r, xK, |xT|, i);
  }

  lemma BottomSolved(c: Curvature, a: Matrix, triples: seq<Triple>, w: Vector, precision: real, vT: Vector,
                     xK: Vector, xT: Vector, z: Vector, s: nat)
    requires |xT| == |vT| && z == xK + xT && s < |vT|
    requires IsCurvature(c, a, triples, w, |xK|, |xT|, precision)
    requires xT == Plus(Quotients(vT, c.taskDiagonal), 1.0, Back(c.coupling, c.taskDiagonal, xK, |xT|))
    ensures Hessian(z, triples, w, |w|, |xK|, |xT|, precision)[|xK| + s] == vT[s]
  {
    hide AreBlocks, Dot, Hessian, Schur, IsProductIdentity, Back, Plus, Quotients, Fits;
    TaskEquation(c.coupling, c.taskDiagonal, vT, xK, xT, s);
    BottomEquation(a, c.coupling, c.taskDiagonal, triples, w, precision, z, xK, xT, s, vT[s]);
  }

  lemma BottomEquation(a: Matrix, coupling: Matrix, diagonal: Vector, triples: seq<Triple>, w: Vector, precision: real,
                       z: Vector, x: Vector, y: Vector, s: nat, v: real)
    requires AreBlocks(a, coupling, diagonal, triples, w, |w|, |x|, |y|, precision)
    requires Fits(triples, |x|, |y|) && z == x + y && s < |y|
    requires Dot(Column(coupling, s), x, |x|) + diagonal[s] * y[s] == v
    ensures Hessian(z, triples, w, |w|, |x|, |y|, precision)[|x| + s] == v
  {
    hide Dot, Hessian, Fits;
    BottomActs(a, coupling, diagonal, triples, w, precision, z, x, y, s);
  }

  lemma TaskEquation(coupling: Matrix, diagonal: Vector, vT: Vector, xK: Vector, xT: Vector, s: nat)
    requires Shape(coupling, |xK|, |vT|) && |xT| == |vT| == |diagonal| && s < |vT|
    requires forall s :: 0 <= s < |diagonal| ==> diagonal[s] > 0.0
    requires xT == Plus(Quotients(vT, diagonal), 1.0, Back(coupling, diagonal, xK, |vT|))
    ensures Dot(Column(coupling, s), xK, |xK|) + diagonal[s] * xT[s] == vT[s]
  {
    hide Dot, Back;
    BackAt(coupling, diagonal, xK, |vT|, s);
    BackSolves(diagonal[s], vT[s], Dot(Column(coupling, s), xK, |xK|));
  }

  lemma BackSolves(d: real, v: real, e: real)
    requires d > 0.0
    ensures e + d * (v / d + 1.0 * (-e / d)) == v
  {
  }

  lemma SchurPart(c: Curvature, a: Matrix, r: Vector, xK: Vector, t: nat, i: nat)
    requires |r| == |xK| && i < |r| && Shape(c.sInverse, |r|, |r|) && Blocked(a, c.coupling, c.taskDiagonal, |r|, t)
    requires IsProductIdentity(Schur(a, c.coupling, c.taskDiagonal, |r|, t), c.sInverse) && xK == Times(c.sInverse, r)
    ensures Dot(a[i], xK, |r|) + Dot(c.coupling[i], Back(c.coupling, c.taskDiagonal, xK, t), t) == r[i]
  {
    hide Dot, IsProductIdentity, SchurRow, Back, Times;
    InverseSolves(Schur(a, c.coupling, c.taskDiagonal, |r|, t), c.sInverse, r, i);
    SchurEliminates(a, c.coupling, c.taskDiagonal, xK, t, i, t);
  }

  // ---------- One damped Newton step ----------

  function Residual(x: Vector, cell: Triple, k: nat, sigmoid: Sigmoid): real
    requires cell.model < k && cell.role < k && k + cell.task < |x|
  {
    cell.attempts as real * sigmoid(Eta(x, cell, k)) - cell.successes as real
  }

  /** `precision x + sum residual u` over the first `n` cells. */
  ghost function GradientOf(x: Vector, triples: seq<Triple>, n: nat, k: nat, t: nat, precision: real, sigmoid: Sigmoid):
    (g: Vector)
    requires |x| == k + t && n <= |triples| && Fits(triples, k, t)
    ensures |g| == k + t
  {
    if n == 0 then seq(k + t, i requires 0 <= i < k + t => precision * x[i])
    else Plus(GradientOf(x, triples, n - 1, k, t, precision, sigmoid), Residual(x, triples[n - 1], k, sigmoid),
              Direction(triples[n - 1], k, t))
  }

  method AddResidual(g: array<real>, cell: Triple, residual: real, k: nat, ghost t: nat)
    requires g.Length == k + t && cell.model < k && cell.role < k && cell.task < t
    modifies g
    ensures g[..] == Plus(old(g[..]), residual, Direction(cell, k, t))
  {
    hide Direction, Plus;
    g[cell.model] := g[cell.model] + residual;
    g[cell.role] := g[cell.role] + residual;
    g[k + cell.task] := g[k + cell.task] - residual;
    ghost var u := Direction(cell, k, t);
    forall i | 0 <= i < k + t ensures g[i] == old(g[i]) + residual * u[i] {
      if i < k { ScaledPart(residual, Delta(i, cell.model), Delta(i, cell.role)); }
    }
    assert g[..] == Plus(old(g[..]), residual, u);
  }

  lemma ScaledPart(r: real, a: real, b: real)
    ensures r * (a + b) == r * a + r * b
  {
  }

  method Gradient(x: Vector, triples: seq<Triple>, k: nat, t: nat, precision: real, sigmoid: Sigmoid)
    returns (g: Vector)
    requires |x| == k + t && Fits(triples, k, t)
    ensures g == GradientOf(x, triples, |triples|, k, t, precision, sigmoid)
  {
    hide Plus, Direction, Eta;
    var a := new real[|x|](i requires 0 <= i < |x| => precision * x[i]);
    assert a[..] == GradientOf(x, triples, 0, k, t, precision, sigmoid);
    for n := 0 to |triples|
      invariant a[..] == GradientOf(x, triples, n, k, t, precision, sigmoid)
    {
      var cell := triples[n];
      var expected := cell.attempts as real * sigmoid(x[cell.model] + x[cell.role] - x[k + cell.task]);
      ResidualIs(x, cell, k, sigmoid, expected);
      AddResidual(a, cell, expected - cell.successes as real, k, t);
    }
    g := a[..];
  }

  lemma ResidualIs(x: Vector, cell: Triple, k: nat, sigmoid: Sigmoid, expected: real)
    requires cell.model < k && cell.role < k && k + cell.task < |x|
    requires expected == cell.attempts as real * sigmoid(x[cell.model] + x[cell.role] - x[k + cell.task])
    ensures Residual(x, cell, k, sigmoid) == expected - cell.successes as real
  {
  }

  const MAX_STEP := 4.0
  const NEWTON_TOLERANCE := 0.000000001

  method Largest(d: Vector) returns (largest: real)
    ensures largest >= 0.0 && forall i :: 0 <= i < |d| ==> Abs(d[i]) <= largest
    ensures largest == 0.0 || exists i :: 0 <= i < |d| && Abs(d[i]) == largest
  {
    largest := 0.0;
    for i := 0 to |d|
      invariant largest >= 0.0 && forall j :: 0 <= j < i ==> Abs(d[j]) <= largest
      invariant largest == 0.0 || exists j :: 0 <= j < i && Abs(d[j]) == largest
    {
      if Abs(d[i]) > largest { largest := Abs(d[i]); }
    }
  }

  lemma ScaledWithin(scale: real, d: real, largest: real)
    requires 0.0 <= scale && Abs(d) <= largest && scale * largest <= MAX_STEP
    ensures Abs(scale * d) <= MAX_STEP
  {
    var size := Abs(d);
    Scaled(scale, size, largest);
    Scaled(scale, d, size);
    Scaled(scale, -size, d);
  }

  lemma Scaled(f: real, a: real, b: real)
    requires 0.0 <= f && a <= b
    ensures f * a <= f * b
  {
  }

  /** One pass of the fit loop: the Newton direction for the gradient, shortened so that no parameter moves by
      more than four logits. It moves downhill unless it does not move at all. */
  method NewtonStep(x: Vector, triples: seq<Triple>, k: nat, t: nat, precision: real, sigmoid: Sigmoid)
    returns (x': Vector, converged: bool, direction: Vector, scale: real)
    requires |x| == k + t && Fits(triples, k, t) && precision > 0.0 && IsProbability(sigmoid)
    ensures |direction| == |x'| == k + t && 0.0 < scale <= 1.0
    ensures Hessian(direction, triples, Weights(x, triples, k, t, sigmoid), |triples|, k, t, precision) ==
              GradientOf(x, triples, |triples|, k, t, precision, sigmoid)
    ensures forall i :: 0 <= i < k + t ==>
              x'[i] == x[i] - scale * direction[i] && Abs(scale * direction[i]) <= MAX_STEP
    ensures scale < 1.0 ==> exists i :: 0 <= i < k + t && Abs(scale * direction[i]) == MAX_STEP
    ensures converged <==> forall i :: 0 <= i < k + t ==> scale * Abs(direction[i]) < NEWTON_TOLERANCE
    ensures var g := GradientOf(x, triples, |triples|, k, t, precision, sigmoid);
            Dot(g, direction, k + t) >= 0.0 && (Dot(g, direction, k + t) == 0.0 ==> IsZero(direction))
  {
    hide IsCurvature, Hessian, GradientOf, Weights, Weight, Abs, Solves;
    var g := Gradient(x, triples, k, t, precision, sigmoid);
    var c, block := CurvatureAt(x, triples, k, t, precision, sigmoid);
    var xK, xT := Solve(c, g[..k], g[k..], block, triples, Weights(x, triples, k, t, sigmoid), precision);
    direction := xK + xT;
    SolvesWhole(direction, xK, xT, g, triples, Weights(x, triples, k, t, sigmoid), precision);
    HessianPositiveDefinite(direction, triples, Weights(x, triples, k, t, sigmoid), k, t, precision);
    x', converged, scale := Damped(x, direction);
  }

  lemma SolvesWhole(d: Vector, xK: Vector, xT: Vector, g: Vector, triples: seq<Triple>, w: Vector, precision: real)
    requires Weighted(triples, w, |xK|, |xT|, precision) && d == xK + xT && |g| == |d|
    requires Solves(xK, xT, g[..|xK|], g[|xK|..], triples, w, precision)
    ensures Hessian(d, triples, w, |w|, |xK|, |xT|, precision) == g
  {
    hide Hessian;
    assert g[..|xK|] + g[|xK|..] == g;
  }

  /** `x` moved against `d`, shortened so that no parameter moves by more than four logits. */
  method Damped(x: Vector, d: Vector) returns (x': Vector, converged: bool, scale: real)
    requires |x| == |d|
    ensures |x'| == |x| && 0.0 < scale <= 1.0
    ensures forall i :: 0 <= i < |x| ==> x'[i] == x[i] - scale * d[i] && Abs(scale * d[i]) <= MAX_STEP
    ensures scale < 1.0 ==> exists i :: 0 <= i < |d| && Abs(scale * d[i]) == MAX_STEP
    ensures converged <==> forall i :: 0 <= i < |x| ==> scale * Abs(d[i]) < NEWTON_TOLERANCE
  {
    hide Abs;
    var largest := Largest(d);
    scale := if largest == 0.0 || MAX_STEP / largest > 1.0 then 1.0 else MAX_STEP / largest;
    DampingBounds(scale, d, largest);
    converged := scale * largest < NEWTON_TOLERANCE;
    x' := MovedAgainst(x, scale, d);
  }

  method MovedAgainst(x: Vector, scale: real, d: Vector) returns (x': Vector)
    requires |x| == |d|
    ensures |x'| == |x| && forall i :: 0 <= i < |x| ==> x'[i] == x[i] - scale * d[i]
  {
    x' := [];
    for i := 0 to |x|
      invariant |x'| == i && forall j :: 0 <= j < i ==> x'[j] == x[j] - scale * d[j]
    {
      x' := x' + [x[i] - scale * d[i]];
    }
  }

  lemma DampingBounds(s: real, d: Vector, largest: real)
    requires largest >= 0.0 && forall i :: 0 <= i < |d| ==> Abs(d[i]) <= largest
    requires largest == 0.0 || exists i :: 0 <= i < |d| && Abs(d[i]) == largest
    requires s == if largest == 0.0 || MAX_STEP / largest > 1.0 then 1.0 else MAX_STEP / largest
    ensures 0.0 < s <= 1.0
    ensures forall i :: 0 <= i < |d| ==> Abs(s * d[i]) <= MAX_STEP
    ensures s < 1.0 ==> exists i :: 0 <= i < |d| && Abs(s * d[i]) == MAX_STEP
    ensures s * largest < NEWTON_TOLERANCE <==> forall i :: 0 <= i < |d| ==> s * Abs(d[i]) < NEWTON_TOLERANCE
  {
    StepBounded(largest, s);
    forall i | 0 <= i < |d| ensures Abs(s * d[i]) <= MAX_STEP { ScaledWithin(s, d[i], largest); }
    if s < 1.0 { LargestMoves(s, d, largest); }
    ConvergedAll(s, d, largest);
  }

  lemma LargestMoves(s: real, d: Vector, largest: real)
    requires 0.0 < s && s * largest == MAX_STEP
    requires exists i :: 0 <= i < |d| && Abs(d[i]) == largest
    ensures exists i :: 0 <= i < |d| && Abs(s * d[i]) == MAX_STEP
  {
    var i :| 0 <= i < |d| && Abs(d[i]) == largest;
    if d[i] < 0.0 { Negated(s, d[i]); }
    Scaled(s, 0.0, largest);
    assert Abs(s * d[i]) == MAX_STEP;
  }

  lemma Negated(s: real, d: real)
    ensures s * (-d) == -(s * d)
  {
  }

  lemma StepBounded(largest: real, s: real)
    requires largest >= 0.0
    requires s == if largest == 0.0 || MAX_STEP / largest > 1.0 then 1.0 else MAX_STEP / largest
    ensures 0.0 < s <= 1.0 && s * largest <= MAX_STEP && (s < 1.0 ==> s * largest == MAX_STEP && largest > 0.0)
  {
    if largest > 0.0 {
      var q := MAX_STEP / largest;
      assert q * largest == MAX_STEP;
      if q <= 0.0 { Scaled(largest, q, 0.0); }
      if q > 1.0 { Scaled(largest, 1.0, q); }
    }
  }

  lemma ConvergedAll(s: real, d: Vector, largest: real)
    requires 0.0 < s && largest >= 0.0 && forall i :: 0 <= i < |d| ==> Abs(d[i]) <= largest
    requires largest == 0.0 || exists i :: 0 <= i < |d| && Abs(d[i]) == largest
    ensures s * largest < NEWTON_TOLERANCE <==> forall i :: 0 <= i < |d| ==> s * Abs(d[i]) < NEWTON_TOLERANCE
  {
    hide Abs;
    forall i | 0 <= i < |d| ensures s * Abs(d[i]) <= s * largest { Scaled(s, Abs(d[i]), largest); }
  }
}
