/** The older reservoir runtime of src/reservoir.py: the same ODE and the same
    four-stage `propagate`, a `run4input` driver that takes a three-dimensional
    input (rows x steps x stage samples, depth 1 or 4), a state that always
    starts at zero, and used-port lists that `copy` does not carry over.
    `tanh` and `arctanh` are parameters. */
module LegacyReservoir {
  import opened Wrappers
  import opened Linalg
  import opened Dynamics
  import PrnnReservoir

  /** A three-dimensional numpy array of shape (d0, d1, d2). */
  datatype Tensor3 = Tensor3(d0: nat, d1: nat, d2: nat, at: seq<seq<seq<real>>>) {
    predicate Wf() {
      |at| == d0 &&
      (forall a :: 0 <= a < d0 ==> |at[a]| == d1) &&
      (forall a, j :: 0 <= a < d0 && 0 <= j < d1 ==> |at[a][j]| == d2)
    }
  }

  /** The exceptions `run4input` raises. */
  datatype Run4Error =
    | BadDepth          // the third dimension is neither 1 nor 4
    | EmptyTrajectory   // `states[:, 0]` of a run without columns
    | ShapeMismatch     // a matrix product whose shapes disagree

  /** What `run4input` gives back: the outputs W states, the ValueError object
      it returns (not raises) when no readout is available, or an exception. */
  datatype Run4Outcome = Output(y: Mat) | ReturnedValueError | Raised(error: Run4Error)

  /** `inputs[:, j, s]`: stage sample s of step j, one entry per input row. */
  function Sample(X: Tensor3, j: nat, s: nat): (x: Vector)
    requires X.Wf() && j < X.d1 && s < X.d2
    ensures |x| == X.d0 && forall a :: 0 <= a < X.d0 ==> x[a] == X.at[a][j][s]
  {
    seq(X.d0, a requires 0 <= a < X.d0 => X.at[a][j][s])
  }

  /** The per-step inputs `run4input` feeds to `propagate`: a depth-1 input is
      repeated into the four stage slots, a depth-4 input is used as it is,
      and any other depth is refused. */
  function StageDrive(X: Tensor3): (drive: Option<seq<seq<Vector>>>)
    requires X.Wf()
    ensures drive.Some? <==> X.d2 == 1 || X.d2 == 4
    ensures drive.Some? ==> |drive.value| == X.d1
    ensures drive.Some? ==> forall j :: 0 <= j < X.d1 ==>
      (|drive.value[j]| == 4 &&
       forall s :: 0 <= s < 4 ==> drive.value[j][s] == Sample(X, j, if X.d2 == 1 then 0 else s))
  {
    if X.d2 == 1 then Some(seq(X.d1, j requires 0 <= j < X.d1 => Hold(Sample(X, j, 0))))
    else if X.d2 == 4 then Some(seq(X.d1, j requires 0 <= j < X.d1 => seq(4, s requires 0 <= s < 4 => Sample(X, j, s))))
    else None
  }

  lemma StageDriveShaped(p: Ode, X: Tensor3, t: nat)
    requires X.Wf() && StageDrive(X).Some? && t <= X.d1 && (t == 0 || X.d0 == p.K())
    ensures DriveShaped(p, StageDrive(X).value, t)
  {
  }

  /** A matrix seen as a depth-1 input, `M.reshape(rows, cols, 1)`. */
  function Lift(M: Mat): (X: Tensor3)
    requires M.Wf()
    ensures X.Wf() && X.d0 == M.rows && X.d1 == M.cols && X.d2 == 1
  {
    Tensor3(M.rows, M.cols, 1,
      seq(M.rows, a requires 0 <= a < M.rows => seq(M.cols, j requires 0 <= j < M.cols => [M.at[a][j]])))
  }

  /** The two runtimes hold inputs the same way: a matrix lifted to depth 1
      gives `run4input` exactly the per-step inputs that `run` builds from it. */
  lemma LiftedDriveIsHeld(M: Mat)
    requires M.Wf()
    ensures StageDrive(Lift(M)) == Some(PrnnReservoir.HeldDrive(M))
  {
    var X := Lift(M);
    var drive := StageDrive(X).value;
    var held := PrnnReservoir.HeldDrive(M);
    forall j | 0 <= j < M.cols ensures drive[j] == held[j] {
      forall a | 0 <= a < M.rows ensures Sample(X, j, 0)[a] == Col(M, j)[a] {
        assert X.at[a][j] == [M.at[a][j]];
      }
      assert Sample(X, j, 0) == Col(M, j);
    }
    assert drive == held;
  }

  class Reservoir {
    var A: Mat
    var B: Mat
    var rInit: Vector
    var r: Vector
    var xInit: Vector
    var timescale: real
    var gamma: real
    var d: Vector
    var W: Option<Mat>
    var usedInputs: seq<int>
    var usedOutputs: seq<int>

    /** The shapes of the header comment: A n x n, B n x k, r, r_init and d
        of length n, x_init of length k. */
    predicate Valid()
      reads this
    {
      Ode().Shaped() && |r| == A.rows && |rInit| == A.rows && |xInit| == B.cols &&
      (W.Some? ==> W.value.Wf())
    }

    /** The parameters of the ODE this reservoir integrates. */
    function Ode(): Ode
      reads this
    {
      Dynamics.Ode(A, B, d, gamma, timescale)
    }

    /** `__init__`: r_init defaults to zeros and r is zeros whatever r_init
        is; d is kept when given, derived from r_init when only r_init is
        given, and zeros otherwise; the used-port lists start empty. */
    constructor (A: Mat, B: Mat, rInit: Option<Vector>, xInit: Vector, arctanh: real -> real,
                 timescale: real := 0.1, gamma: real := 100.0, d: Option<Vector> := None,
                 W: Option<Mat> := None)
      requires A.Wf() && B.Wf() && A.cols == A.rows && B.rows == A.rows && |xInit| == B.cols
      requires rInit.Some? ==> |rInit.value| == A.rows
      requires d.Some? ==> |d.value| == A.rows
      requires W.Some? ==> W.value.Wf()
      ensures Valid()
      ensures this.A == A && this.B == B && this.xInit == xInit
      ensures this.rInit == (if rInit.Some? then rInit.value else Zeros(A.rows))
      ensures r == Zeros(A.rows)
      ensures this.d == (if d.Some? then d.value
                         else if rInit.Some? then DefaultBias(A, B, rInit.value, xInit, arctanh)
                         else Zeros(A.rows))
      ensures this.timescale == timescale && this.gamma == gamma && this.W == W
      ensures usedInputs == [] && usedOutputs == []
    {
      this.A := A;
      this.B := B;
      this.rInit := if rInit.Some? then rInit.value else Zeros(A.rows);
      this.r := Zeros(A.rows);
      this.xInit := xInit;
      this.timescale := timescale;
      this.gamma := gamma;
      this.d := if d.Some? then d.value
                else if rInit.Some? then DefaultBias(A, B, rInit.value, xInit, arctanh)
                else Zeros(A.rows);
      this.W := W;
      this.usedInputs := [];
      this.usedOutputs := [];
    }

    /** `copy`: a new reservoir with the same parameters and readout; its state
        is zero and its used-port lists are empty again. */
    method Copy() returns (c: Reservoir)
      requires Valid()
      ensures fresh(c) && c.Valid()
      ensures c.A == A && c.B == B && c.rInit == rInit && c.xInit == xInit && c.d == d
      ensures c.timescale == timescale && c.gamma == gamma && c.W == W
      ensures c.r == Zeros(A.rows) && c.usedInputs == [] && c.usedOutputs == []
    {
      // d is passed, so the arctanh argument is never applied
      c := new Reservoir(A, B, Some(rInit), xInit, x => x, timescale, gamma, Some(d), W);
    }

    /** `propagate`: one step of the integrator from the current state, stage
        j reading input sample xs[j]; the new state is stored and returned. */
    method Propagate(xs: seq<Vector>, tanh: real -> real) returns (r': Vector)
      requires Valid() && StageInputs(Ode(), xs)
      modifies this`r
      ensures Valid()
      ensures r == Step(Ode(), tanh, old(r), xs) && r' == r
    {
      r := Step(Ode(), tanh, r, xs);
      r' := r;
    }

    /** `run4input`: pick the readout (the argument W before self.W; with
        neither, the error object is returned and nothing steps), bring the
        input to depth 4, record nx state columns, column 0 the state at call
        time and column i the state after the i-th `propagate` on step i - 1
        of the input, and return W times them. */
    method Run4Input(inputs: Tensor3, argW: Option<Mat>, tanh: real -> real) returns (res: Run4Outcome)
      requires Valid() && inputs.Wf() && (argW.Some? ==> argW.value.Wf())
      modifies this`r
      ensures Valid()
      ensures var w := if argW.Some? then argW else W;
        if w.None? then res == ReturnedValueError && r == old(r)
        else if StageDrive(inputs).None? then res == Raised(BadDepth) && r == old(r)
        else if inputs.d1 == 0 then res == Raised(EmptyTrajectory) && r == old(r)
        else if inputs.d1 >= 2 && inputs.d0 != B.cols then res == Raised(ShapeMismatch) && r == old(r)
        else
          var drive := StageDrive(inputs).value;
          r == Evolve(Ode(), tanh, old(r), drive, inputs.d1 - 1) &&
          var S := Trajectory(Ode(), tanh, old(r), drive, inputs.d1);
          res == if w.value.cols != A.rows then Raised(ShapeMismatch) else Output(MatMul(w.value, S))
    {
      hide Step;
      var w := if argW.Some? then argW else W;
      if w.None? {
        return ReturnedValueError;
      }
      var drive := StageDrive(inputs);
      if drive.None? {
        return Raised(BadDepth);
      }
      var nx := inputs.d1;
      if nx == 0 {
        return Raised(EmptyTrajectory);
      }
      if nx >= 2 && inputs.d0 != B.cols {
        // `B @ x` in the first stage of the first step
        return Raised(ShapeMismatch);
      }
      StageDriveShaped(Ode(), inputs, nx - 1);
      var S := RecordStates(drive.value, nx, tanh);
      if w.value.cols != A.rows {
        return Raised(ShapeMismatch);
      }
      return Output(MatMul(w.value, S));
    }

    /** The stepping loop of `run4input`: column 0 of the states array is the
        current state, and each further column the state after one more
        `propagate` on the next per-step input. */
    method RecordStates(drive: seq<seq<Vector>>, nx: nat, tanh: real -> real) returns (S: Mat)
      requires Valid() && nx >= 1 && DriveShaped(Ode(), drive, nx - 1)
      modifies this`r
      ensures Valid()
      ensures r == Evolve(Ode(), tanh, old(r), drive, nx - 1)
      ensures S == Trajectory(Ode(), tanh, old(r), drive, nx)
    {
      hide Step;
      var n := A.rows;
      ghost var r0 := r;
      ghost var p := Ode();
      var states := new real[n, nx];
      forall row | 0 <= row < n {
        states[row, 0] := r[row];
      }
      ghost var columns := [r];
      var i := 1;
      while i < nx
        invariant 1 <= i <= nx && Valid() && Ode() == p && |r| == n
        invariant columns == States(p, tanh, r0, drive, i - 1) && r == columns[i - 1]
        invariant forall row, j :: 0 <= row < n && 0 <= j < i ==> states[row, j] == columns[j][row]
      {
        var _ := Propagate(drive[i - 1], tanh);
        forall row | 0 <= row < n {
          states[row, i] := r[row];
        }
        columns := columns + [r];
        i := i + 1;
      }
      StatesAt(p, tanh, r0, drive, nx - 1, nx - 1);
      assert r == Evolve(p, tanh, r0, drive, nx - 1);
      S := Snapshot(states);
      MatExt(S, Trajectory(p, tanh, r0, drive, nx));
    }
  }
}
