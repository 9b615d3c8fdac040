/** The reservoir ODE  dr/dt = gamma * (-r + tanh(A r + B x + d))  and the
    four-stage step that both runtimes (src/_prnn/reservoir.py and
    src/reservoir.py) use to advance it.  `tanh` and `arctanh` are parameters:
    their numeric behaviour is not part of the model. */
module Dynamics {
  import opened Linalg

  /** The parameters `del_r` and `propagate` read from a reservoir. */
  datatype Ode = Ode(A: Mat, B: Mat, d: Vector, gamma: real, timescale: real) {
    /** The shapes of the header comment: A is n x n, B is n x k, d has length n. */
    predicate Shaped() {
      A.Wf() && B.Wf() && A.cols == A.rows && B.rows == A.rows && |d| == A.rows
    }
    function N(): nat { A.rows }
    function K(): nat { B.cols }
  }

  /** A r + B x + d. */
  function PreActivation(p: Ode, r: Vector, x: Vector): (z: Vector)
    requires p.Shaped() && |r| == p.N() && |x| == p.K()
    ensures |z| == p.N()
  {
    Affine(p.A.at, p.B.at, p.d, r, x)
  }

  /** Row i of the result is  a[i] . r + b[i] . x + d[i]. */
  function Affine(a: seq<seq<real>>, b: seq<seq<real>>, d: Vector, r: Vector, x: Vector): (z: Vector)
    requires |a| == |d| && |b| == |d|
    requires forall i :: 0 <= i < |d| ==> |a[i]| == |r| && |b[i]| == |x|
    ensures |z| == |d|
  {
    if |d| == 0 then [] else [Dot(a[0], r) + Dot(b[0], x) + d[0]] + Affine(a[1..], b[1..], d[1..], r, x)
  }

  /** `del_r`: the right-hand side of the ODE at state r under input x,
      gamma * (-r + tanh(A r + B x + d)). */
  function DelR(p: Ode, tanh: real -> real, r: Vector, x: Vector): (dr: Vector)
    requires p.Shaped() && |r| == p.N() && |x| == p.K()
    ensures |dr| == p.N()
  {
    Relax(p.gamma, tanh, r, PreActivation(p, r, x))
  }

  /** gamma * (-r + tanh(z)), element by element. */
  function Relax(gamma: real, tanh: real -> real, r: Vector, z: Vector): (dr: Vector)
    requires |z| == |r|
    ensures |dr| == |r|
  {
    if |r| == 0 then [] else [gamma * (-r[0] + tanh(z[0]))] + Relax(gamma, tanh, r[1..], z[1..])
  }

  /** One stage of `propagate`: `global_timescale * del_r(r, x)`. */
  function Stage(p: Ode, tanh: real -> real, r: Vector, x: Vector): (k: Vector)
    requires p.Shaped() && |r| == p.N() && |x| == p.K()
    ensures |k| == p.N()
  {
    Scale(p.timescale, DelR(p, tanh, r, x))
  }

  /** The stage combination of `propagate` as written: r + (k1 + 2 k2 + 2 (k3 + k4)) / 6,
      so the fourth stage has weight 2 where classical RK4 gives it weight 1. */
  function Combine(r: Vector, k1: Vector, k2: Vector, k3: Vector, k4: Vector): (r': Vector)
    requires |k1| == |r| && |k2| == |r| && |k3| == |r| && |k4| == |r|
    ensures |r'| == |r|
  {
    if |r| == 0 then []
    else [r[0] + (k1[0] + 2.0 * k2[0] + 2.0 * (k3[0] + k4[0])) / 6.0]
         + Combine(r[1..], k1[1..], k2[1..], k3[1..], k4[1..])
  }

  /** Four input samples of the right width: the per-step input of `propagate`. */
  predicate StageInputs(p: Ode, xs: seq<Vector>) {
    |xs| == 4 && forall j :: 0 <= j < 4 ==> |xs[j]| == p.K()
  }

  /** `propagate`: k1 at r, k2 at r + k1/2, k3 at r + k2/2, k4 at r + k3, stage j
      reading input sample j, combined by `Combine`. */
  function Step(p: Ode, tanh: real -> real, r: Vector, xs: seq<Vector>): (r': Vector)
    requires p.Shaped() && |r| == p.N() && StageInputs(p, xs)
    ensures |r'| == p.N()
  {
    var k1 := Stage(p, tanh, r, xs[0]);
    var k2 := Stage(p, tanh, Add(r, Half(k1)), xs[1]);
    var k3 := Stage(p, tanh, Add(r, Half(k2)), xs[2]);
    var k4 := Stage(p, tanh, Add(r, k3), xs[3]);
    Combine(r, k1, k2, k3, k4)
  }

  /** Zero-order hold: one input sample copied into all four stage slots
      (numpy's `np.repeat(x, 4, axis=2)` on one column). */
  function Hold(x: Vector): (xs: seq<Vector>)
    ensures |xs| == 4 && forall j :: 0 <= j < 4 ==> xs[j] == x
  {
    [x, x, x, x]
  }

  /** The per-step inputs of a drive are well shaped for the first t steps. */
  predicate DriveShaped(p: Ode, drive: seq<seq<Vector>>, t: nat) {
    t <= |drive| && forall j :: 0 <= j < t ==> StageInputs(p, drive[j])
  }

  /** The state after t calls of `propagate`, the j-th one reading drive[j]. */
  function Evolve(p: Ode, tanh: real -> real, r0: Vector, drive: seq<seq<Vector>>, t: nat): (r: Vector)
    requires p.Shaped() && |r0| == p.N() && DriveShaped(p, drive, t)
    ensures |r| == p.N()
    decreases t
  {
    if t == 0 then r0 else Step(p, tanh, Evolve(p, tanh, r0, drive, t - 1), drive[t - 1])
  }

  /** The bias `arctanh(r_init) - A r_init - B x_init` that the constructors
      derive when no `d` is given: the pre-activation at (r_init, x_init) is
      then exactly arctanh(r_init). */
  function DefaultBias(A: Mat, B: Mat, rInit: Vector, xInit: Vector, arctanh: real -> real): (d: Vector)
    requires A.Wf() && B.Wf() && A.cols == |rInit| && B.cols == |xInit| && A.rows == |rInit| && B.rows == |rInit|
    ensures |d| == |rInit|
    ensures forall i :: 0 <= i < |rInit| ==>
      MatVec(A, rInit)[i] + MatVec(B, xInit)[i] + d[i] == arctanh(rInit[i])
  {
    var d := seq(|rInit|, i requires 0 <= i < |rInit| =>
      arctanh(rInit[i]) - MatVec(A, rInit)[i] - MatVec(B, xInit)[i]);
    d
  }

  // ---------------------------------------------------------------------------
  // Element-wise facts

  lemma {:induction false} AffineAt(a: seq<seq<real>>, b: seq<seq<real>>, d: Vector, r: Vector, x: Vector, i: nat)
    requires |a| == |d| && |b| == |d| && i < |d|
    requires forall j :: 0 <= j < |d| ==> |a[j]| == |r| && |b[j]| == |x|
    ensures Affine(a, b, d, r, x)[i] == Dot(a[i], r) + Dot(b[i], x) + d[i]
  {
    if i > 0 {
      AffineAt(a[1..], b[1..], d[1..], r, x, i - 1);
    }
  }

  lemma {:induction false} RelaxAt(gamma: real, tanh: real -> real, r: Vector, z: Vector, i: nat)
    requires |z| == |r| && i < |r|
    ensures Relax(gamma, tanh, r, z)[i] == gamma * (-r[i] + tanh(z[i]))
  {
    if i > 0 {
      RelaxAt(gamma, tanh, r[1..], z[1..], i - 1);
    }
  }

  /** Coordinate i of a step: the stage slopes weighted 1/6, 1/3, 1/3, 1/3. */
  lemma {:induction false} CombineAt(r: Vector, k1: Vector, k2: Vector, k3: Vector, k4: Vector, i: nat)
    requires |k1| == |r| && |k2| == |r| && |k3| == |r| && |k4| == |r| && i < |r|
    ensures Combine(r, k1, k2, k3, k4)[i] == r[i] + k1[i] / 6.0 + k2[i] / 3.0 + k3[i] / 3.0 + k4[i] / 3.0
  {
    if i > 0 {
      CombineAt(r[1..], k1[1..], k2[1..], k3[1..], k4[1..], i - 1);
    }
  }

  // ---------------------------------------------------------------------------
  // Properties of the step

  /** The stage slopes of one step, in order. */
  lemma StepStages(p: Ode, tanh: real -> real, r: Vector, xs: seq<Vector>)
      returns (k1: Vector, k2: Vector, k3: Vector, k4: Vector)
    requires p.Shaped() && |r| == p.N() && StageInputs(p, xs)
    ensures k1 == Stage(p, tanh, r, xs[0])
    ensures k2 == Stage(p, tanh, Add(r, Half(k1)), xs[1])
    ensures k3 == Stage(p, tanh, Add(r, Half(k2)), xs[2])
    ensures k4 == Stage(p, tanh, Add(r, k3), xs[3])
    ensures Step(p, tanh, r, xs) == Combine(r, k1, k2, k3, k4)
  {
    k1 := Stage(p, tanh, r, xs[0]);
    k2 := Stage(p, tanh, Add(r, Half(k1)), xs[1]);
    k3 := Stage(p, tanh, Add(r, Half(k2)), xs[2]);
    k4 := Stage(p, tanh, Add(r, k3), xs[3]);
  }

  /** For a non-zero decay rate, `del_r` vanishes in a coordinate exactly when
      tanh of the pre-activation equals the state there. */
  lemma DelRZeroIff(p: Ode, tanh: real -> real, r: Vector, x: Vector, i: nat)
    requires p.Shaped() && |r| == p.N() && |x| == p.K() && i < p.N() && p.gamma != 0.0
    ensures DelR(p, tanh, r, x)[i] == 0.0 <==> tanh(PreActivation(p, r, x)[i]) == r[i]
  {
    var z := PreActivation(p, r, x);
    RelaxAt(p.gamma, tanh, r, z, i);
    var y := -r[i] + tanh(z[i]);
    if y != 0.0 {
      assert (p.gamma * y) / y == p.gamma;
    }
  }

  /** If every stage had the same slope k, the step would move r by 7/6 k: the
      weights (1, 2, 2, 2)/6 written in `propagate` sum to 7/6, not to 1. */
  lemma CombineUniformSlope(r: Vector, k: Vector)
    requires |k| == |r|
    ensures forall i :: 0 <= i < |r| ==> Combine(r, k, k, k, k)[i] == r[i] + 7.0 * k[i] / 6.0
  {
    forall i | 0 <= i < |r| ensures Combine(r, k, k, k, k)[i] == r[i] + 7.0 * k[i] / 6.0 {
      CombineAt(r, k, k, k, k, i);
    }
  }

  /** A state where the ODE is at rest under all four input samples is left
      unchanged by a step. */
  lemma StepAtRest(p: Ode, tanh: real -> real, r: Vector, xs: seq<Vector>)
    requires p.Shaped() && |r| == p.N() && StageInputs(p, xs)
    requires forall j :: 0 <= j < 4 ==> DelR(p, tanh, r, xs[j]) == Zeros(p.N())
    ensures Step(p, tanh, r, xs) == r
  {
    var z := Zeros(p.N());
    ScaleZeros(p.timescale, p.N());
    HalfZeros(p.N());
    AddZeros(r, z);
    var k1, k2, k3, k4 := StepStages(p, tanh, r, xs);
    assert k1 == z;
    assert k2 == z;
    assert k3 == z;
    assert k4 == z;
    forall i | 0 <= i < |r| ensures Combine(r, z, z, z, z)[i] == r[i] {
      CombineAt(r, z, z, z, z, i);
    }
  }

  /** With the derived bias, and tanh inverting arctanh on the entries of
      r_init, r_init is a rest point of the ODE under the input x_init. */
  lemma DefaultBiasRest(p: Ode, tanh: real -> real, arctanh: real -> real, rInit: Vector, xInit: Vector)
    requires p.Shaped() && |rInit| == p.N() && |xInit| == p.K()
    requires p.d == DefaultBias(p.A, p.B, rInit, xInit, arctanh)
    requires forall i :: 0 <= i < |rInit| ==> tanh(arctanh(rInit[i])) == rInit[i]
    ensures DelR(p, tanh, rInit, xInit) == Zeros(p.N())
  {
    forall i | 0 <= i < p.N() ensures DelR(p, tanh, rInit, xInit)[i] == 0.0 {
      DefaultBiasRestAt(p, tanh, arctanh, rInit, xInit, i);
    }
  }

  lemma DefaultBiasRestAt(p: Ode, tanh: real -> real, arctanh: real -> real, rInit: Vector, xInit: Vector, i: nat)
    requires p.Shaped() && |rInit| == p.N() && |xInit| == p.K() && i < p.N()
    requires MatVec(p.A, rInit)[i] + MatVec(p.B, xInit)[i] + p.d[i] == arctanh(rInit[i])
    requires tanh(arctanh(rInit[i])) == rInit[i]
    ensures DelR(p, tanh, rInit, xInit)[i] == 0.0
  {
    hide Dot, Affine, Relax;
    var z := PreActivation(p, rInit, xInit);
    AffineAt(p.A.at, p.B.at, p.d, rInit, xInit, i);
    assert z[i] == arctanh(rInit[i]) by {
      assert MatVec(p.A, rInit)[i] == Dot(p.A.at[i], rInit);
      assert MatVec(p.B, xInit)[i] == Dot(p.B.at[i], xInit);
    }
    RelaxAt(p.gamma, tanh, rInit, z, i);
    assert -rInit[i] + tanh(z[i]) == 0.0;
  }

  /** A rest point of the ODE under all four input samples xs stays fixed
      under any number of steps that all read xs. */
  lemma {:induction false} EvolveAtRest(p: Ode, tanh: real -> real, r0: Vector, xs: seq<Vector>,
                                        drive: seq<seq<Vector>>, t: nat)
    requires p.Shaped() && |r0| == p.N() && StageInputs(p, xs)
    requires forall j :: 0 <= j < 4 ==> DelR(p, tanh, r0, xs[j]) == Zeros(p.N())
    requires t <= |drive| && forall j :: 0 <= j < t ==> drive[j] == xs
    ensures DriveShaped(p, drive, t) && Evolve(p, tanh, r0, drive, t) == r0
    decreases t
  {
    hide Step;
    if t > 0 {
      EvolveAtRest(p, tanh, r0, xs, drive, t - 1);
      StepAtRest(p, tanh, r0, xs);
    }
  }

  /** The reference state r_init stays fixed when the reservoir is driven by
      its reference input x_init held constant, provided the bias is the
      derived one and tanh inverts arctanh on the entries of r_init. */
  lemma ReferenceStateIsFixed(p: Ode, tanh: real -> real, arctanh: real -> real, rInit: Vector, xInit: Vector,
                              drive: seq<seq<Vector>>, t: nat)
    requires p.Shaped() && |rInit| == p.N() && |xInit| == p.K()
    requires p.d == DefaultBias(p.A, p.B, rInit, xInit, arctanh)
    requires forall i :: 0 <= i < |rInit| ==> tanh(arctanh(rInit[i])) == rInit[i]
    requires t <= |drive| && forall j :: 0 <= j < t ==> drive[j] == Hold(xInit)
    ensures DriveShaped(p, drive, t) && Evolve(p, tanh, rInit, drive, t) == rInit
  {
    DefaultBiasRest(p, tanh, arctanh, rInit, xInit);
    EvolveAtRest(p, tanh, rInit, Hold(xInit), drive, t);
  }

  /** Only the first t per-step inputs influence the state after t steps: two
      drives that agree on them give the same trajectory. */
  lemma {:induction false} EvolveUsesPrefix(p: Ode, tanh: real -> real, r0: Vector,
                                            drive: seq<seq<Vector>>, drive': seq<seq<Vector>>, t: nat)
    requires p.Shaped() && |r0| == p.N() && DriveShaped(p, drive, t) && DriveShaped(p, drive', t)
    requires drive[..t] == drive'[..t]
    ensures Evolve(p, tanh, r0, drive, t) == Evolve(p, tanh, r0, drive', t)
    decreases t
  {
    hide Step;
    if t > 0 {
      assert drive[..t - 1] == drive[..t][..t - 1];
      assert drive'[..t - 1] == drive'[..t][..t - 1];
      EvolveUsesPrefix(p, tanh, r0, drive, drive', t - 1);
      assert drive[t - 1] == drive[..t][t - 1];
      assert drive'[t - 1] == drive'[..t][t - 1];
    }
  }

  // ---------------------------------------------------------------------------
  // The recorded trajectory

  /** The states after 0, 1, ..., t steps, in order. */
  function States(p: Ode, tanh: real -> real, r0: Vector, drive: seq<seq<Vector>>, t: nat): (h: seq<Vector>)
    requires p.Shaped() && |r0| == p.N() && DriveShaped(p, drive, t)
    ensures |h| == t + 1 && forall j :: 0 <= j <= t ==> |h[j]| == p.N()
    decreases t
  {
    if t == 0 then [r0]
    else
      var h := States(p, tanh, r0, drive, t - 1);
      h + [Step(p, tanh, h[t - 1], drive[t - 1])]
  }

  /** Entry j of the list of states is the state after j steps. */
  lemma {:induction false} StatesAt(p: Ode, tanh: real -> real, r0: Vector, drive: seq<seq<Vector>>, t: nat, j: nat)
    requires p.Shaped() && |r0| == p.N() && DriveShaped(p, drive, t) && j <= t
    ensures States(p, tanh, r0, drive, t)[j] == Evolve(p, tanh, r0, drive, j)
    decreases t
  {
    hide Step;
    if j < t {
      StatesAt(p, tanh, r0, drive, t - 1, j);
    } else if t > 0 {
      StatesAt(p, tanh, r0, drive, t - 1, t - 1);
    }
  }

  /** The states matrix of a run: column j is the state after j steps, so
      column 0 is the state the run started from. */
  function Trajectory(p: Ode, tanh: real -> real, r0: Vector, drive: seq<seq<Vector>>, nx: nat): (S: Mat)
    requires p.Shaped() && |r0| == p.N() && nx >= 1 && DriveShaped(p, drive, nx - 1)
    ensures S.Wf() && S.rows == p.N() && S.cols == nx
  {
    var h := States(p, tanh, r0, drive, nx - 1);
    Mat(p.N(), nx, seq(p.N(), i requires 0 <= i < p.N() => seq(nx, j requires 0 <= j < nx => h[j][i])))
  }

  /** Column j of the trajectory is the state after j steps; column 0 is the
      starting state. */
  lemma TrajectoryColumn(p: Ode, tanh: real -> real, r0: Vector, drive: seq<seq<Vector>>, nx: nat, j: nat)
    requires p.Shaped() && |r0| == p.N() && nx >= 1 && DriveShaped(p, drive, nx - 1) && j < nx
    ensures Col(Trajectory(p, tanh, r0, drive, nx), j) == Evolve(p, tanh, r0, drive, j)
    ensures j == 0 ==> Col(Trajectory(p, tanh, r0, drive, nx), j) == r0
  {
    hide Step;
    StatesAt(p, tanh, r0, drive, nx - 1, j);
  }

  /** Matrices of one shape with the same entries are equal. */
  lemma MatExt(m: Mat, m': Mat)
    requires m.Wf() && m'.Wf() && m.rows == m'.rows && m.cols == m'.cols
    requires forall i, j :: 0 <= i < m.rows && 0 <= j < m.cols ==> m.at[i][j] == m'.at[i][j]
    ensures m == m'
  {
    forall i | 0 <= i < m.rows ensures m.at[i] == m'.at[i] {
    }
  }

  /** A run of nx columns takes nx - 1 steps and so never reads the last
      per-step input: drives that agree on the first nx - 1 entries give the
      same trajectory. */
  lemma TrajectoryIgnoresLastInput(p: Ode, tanh: real -> real, r0: Vector,
                                   drive: seq<seq<Vector>>, drive': seq<seq<Vector>>, nx: nat)
    requires p.Shaped() && |r0| == p.N() && nx >= 1
    requires DriveShaped(p, drive, nx - 1) && DriveShaped(p, drive', nx - 1)
    requires drive[..nx - 1] == drive'[..nx - 1]
    ensures Trajectory(p, tanh, r0, drive, nx) == Trajectory(p, tanh, r0, drive', nx)
  {
    forall j | 0 <= j < nx ensures Col(Trajectory(p, tanh, r0, drive, nx), j) == Col(Trajectory(p, tanh, r0, drive', nx), j) {
      assert drive[..j] == drive[..nx - 1][..j];
      assert drive'[..j] == drive'[..nx - 1][..j];
      EvolveUsesPrefix(p, tanh, r0, drive, drive', j);
      TrajectoryColumn(p, tanh, r0, drive, nx, j);
      TrajectoryColumn(p, tanh, r0, drive', nx, j);
    }
    MatFromColumns(Trajectory(p, tanh, r0, drive, nx), Trajectory(p, tanh, r0, drive', nx));
  }

  /** Matrices of one shape with the same columns are equal. */
  lemma MatFromColumns(m: Mat, m': Mat)
    requires m.Wf() && m'.Wf() && m.rows == m'.rows && m.cols == m'.cols
    requires forall j :: 0 <= j < m.cols ==> Col(m, j) == Col(m', j)
    ensures m == m'
  {
    forall i, j | 0 <= i < m.rows && 0 <= j < m.cols ensures m.at[i][j] == m'.at[i][j] {
      assert Col(m, j)[i] == Col(m', j)[i];
    }
    MatExt(m, m');
  }
}
