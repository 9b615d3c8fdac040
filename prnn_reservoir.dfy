/** The reservoir runtime of src/_prnn/reservoir.py: a reservoir object whose
    state `r` advances by `propagate`, whose `run` records a trajectory in a
    states array and reads it out through W, and whose readout `doubleOutput`
    extends in place.  `tanh` and `arctanh` are parameters. */
module PrnnReservoir {
  import opened Wrappers
  import opened Linalg
  import opened Dynamics

  /** The exceptions `run` can raise. */
  datatype RunError =
    | MissingReadout          // neither the argument W nor self.W is set
    | MissingTime             // no inputs and no time
    | NonZeroB                // no inputs but B has a non-zero entry
    | InvalidVoidInput        // no inputs but x_init does not hold exactly one zero
    | NegativeTime            // numpy refuses a negative dimension
    | InputDimensionMismatch  // input rows differ from the length of x_init
    | EmptyTrajectory         // `states[:, 0]` of a run without columns
    | ShapeMismatch           // a matrix product whose shapes disagree

  /** The exceptions `doubleOutput` can raise. */
  datatype DoubleError = NoReadout | OutputIndexOutOfRange

  /** The checks `run` makes before stepping, and what it then works with:
      the readout (the argument W takes precedence over self.W) and the input
      matrix (in the void case a 1 x time matrix of zeros). */
  function PrepareRun(selfW: Option<Mat>, B: Mat, xInit: Vector,
                      inputs: Option<Mat>, time: Option<int>, argW: Option<Mat>): (p: Result<(Mat, Mat), RunError>)
    requires B.Wf()
    ensures p.Ok? <==>
      (argW.Some? || selfW.Some?) &&
      (inputs.None? ==> time.Some? && time.value >= 0 && AllZero(B) && CountZeros(xInit) == 1) &&
      (inputs.Some? ==> inputs.value.rows == |xInit|)
    ensures p.Ok? ==> p.value.0 == (if argW.Some? then argW.value else selfW.value)
    ensures p.Ok? && inputs.Some? ==> p.value.1 == inputs.value
    ensures p.Ok? && inputs.None? ==> p.value.1 == ZeroMat(1, time.value)
    ensures argW.None? && selfW.None? ==> p == Err(MissingReadout)
  {
    var W := if argW.Some? then argW else selfW;
    if W.None? then Err(MissingReadout)
    else if inputs.None? then
      if time.None? then Err(MissingTime)
      else if !AllZero(B) then Err(NonZeroB)
      else if CountZeros(xInit) != 1 then Err(InvalidVoidInput)
      else if time.value < 0 then Err(NegativeTime)
      else Ok((W.value, ZeroMat(1, time.value)))
    else if inputs.value.rows != |xInit| then Err(InputDimensionMismatch)
    else Ok((W.value, inputs.value))
  }

  /** Zero-order hold of every input column: step j reads column j in all
      four stage slots (`np.repeat(inputs, 4, axis=2)`). */
  function HeldDrive(X: Mat): (drive: seq<seq<Vector>>)
    requires X.Wf()
    ensures |drive| == X.cols
  {
    seq(X.cols, j requires 0 <= j < X.cols => Hold(Col(X, j)))
  }

  lemma HeldDriveShaped(p: Ode, X: Mat, t: nat)
    requires X.Wf() && t <= X.cols && (t == 0 || X.rows == p.K())
    ensures DriveShaped(p, HeldDrive(X), t)
  {
  }

  /** The readout after `doubleOutput(idx)`: W with a copy of row `row`
      appended. */
  function AppendRow(W: Mat, row: nat): (W': Mat)
    requires W.Wf() && row < W.rows
    ensures W'.Wf() && W'.rows == W.rows + 1 && W'.cols == W.cols
  {
    Mat(W.rows + 1, W.cols, W.at + [W.at[row]])
  }

  /** Python's index into W's rows: a negative index counts from the end. */
  function RowIndex(idx: int, m: nat): (row: nat)
    requires -(m as int) <= idx < m
    ensures row < m && (idx >= 0 ==> row == idx) && (idx < 0 ==> row + (-idx) == m)
  {
    if idx >= 0 then idx else m + idx
  }

  /** Doubling output `row` keeps every output of the readout and adds one
      more equal to output `row`: applied to any states matrix S, the new
      readout gives the old outputs followed by a copy of output `row`. */
  lemma DoubledReadout(W: Mat, row: nat, S: Mat)
    requires W.Wf() && S.Wf() && W.cols == S.rows && row < W.rows
    ensures var Y := MatMul(W, S); var Y' := MatMul(AppendRow(W, row), S);
      Y'.rows == Y.rows + 1 && Y'.at[..Y.rows] == Y.at && Y'.at[Y.rows] == Y.at[row]
  {
    var Y := MatMul(W, S);
    var Y' := MatMul(AppendRow(W, row), S);
    forall i | 0 <= i < Y.rows ensures Y'.at[i] == Y.at[i] {
      assert AppendRow(W, row).at[i] == W.at[i];
    }
    assert AppendRow(W, row).at[W.rows] == W.at[row];
  }

  /** The guard of `doubleOutput`, `idx <= 0 and idx > W.shape[0]`, holds of
      no index, so the method never returns its error object. */
  lemma DoubleOutputGuardNeverHolds(idx: int, m: nat)
    ensures !(idx <= 0 && idx > m)
  {
  }

  class Reservoir {
    var name: Option<string>
    var inputNames: seq<string>
    var outputNames: seq<string>
    var A: Mat
    var B: Mat
    var rInit: Vector
    var r: Vector
    var xInit: Vector
    var timescale: real
    var gamma: real
    var d: Vector
    var W: Option<Mat>
    var usedInputs: set<int>
    var usedOutputs: set<int>

    /** The shapes of the header comment: A n x n, B n x k, r, r_init and d
        of length n, x_init of length k; W is any well-formed matrix (a width
        other than n is reported by `Run` as a shape error). */
    predicate Valid()
      reads this
    {
      Ode().Shaped() && |r| == A.rows && |rInit| == A.rows && |xInit| == B.cols &&
      (W.Some? ==> W.value.Wf())
    }

    /** The parameters of the ODE this reservoir integrates. */
    function Ode(): Ode
      reads this
    {
      Dynamics.Ode(A, B, d, gamma, timescale)
    }

    /** `__init__`: r and r_init default to zeros; d is kept when given,
        derived from r_init when only r_init is given, and zeros otherwise;
        the used-port sets start empty. */
    constructor (A: Mat, B: Mat, rInit: Option<Vector>, xInit: Vector, arctanh: real -> real,
                 timescale: real := 0.1, gamma: real := 100.0, d: Option<Vector> := None,
                 W: Option<Mat> := None, name: Option<string> := None,
                 inputNames: seq<string> := [], outputNames: seq<string> := [],
                 r: Option<Vector> := None)
      requires A.Wf() && B.Wf() && A.cols == A.rows && B.rows == A.rows && |xInit| == B.cols
      requires rInit.Some? ==> |rInit.value| == A.rows
      requires d.Some? ==> |d.value| == A.rows
      requires r.Some? ==> |r.value| == A.rows
      requires W.Some? ==> W.value.Wf()
      ensures Valid()
      ensures this.A == A && this.B == B && this.xInit == xInit
      ensures this.rInit == (if rInit.Some? then rInit.value else Zeros(A.rows))
      ensures this.r == (if r.Some? then r.value else Zeros(A.rows))
      ensures this.d == (if d.Some? then d.value
                         else if rInit.Some? then DefaultBias(A, B, rInit.value, xInit, arctanh)
                         else Zeros(A.rows))
      ensures this.timescale == timescale && this.gamma == gamma && this.W == W
      ensures this.name == name && this.inputNames == inputNames && this.outputNames == outputNames
      ensures usedInputs == {} && usedOutputs == {}
    {
      this.name := name;
      this.inputNames := inputNames;
      this.outputNames := outputNames;
      this.A := A;
      this.B := B;
      this.rInit := if rInit.Some? then rInit.value else Zeros(A.rows);
      this.r := if r.Some? then r.value else Zeros(A.rows);
      this.xInit := xInit;
      this.timescale := timescale;
      this.gamma := gamma;
      this.d := if d.Some? then d.value
                else if rInit.Some? then DefaultBias(A, B, rInit.value, xInit, arctanh)
                else Zeros(A.rows);
      this.W := W;
      this.usedInputs := {};
      this.usedOutputs := {};
    }

    /** `copy`: a new reservoir with the same parameters and readout and its
        own copies of the used-port sets; its state starts at zero and it has
        no name. */
    method Copy() returns (c: Reservoir)
      requires Valid()
      ensures fresh(c) && c.Valid()
      ensures c.A == A && c.B == B && c.rInit == rInit && c.xInit == xInit && c.d == d
      ensures c.timescale == timescale && c.gamma == gamma && c.W == W
      ensures c.r == Zeros(A.rows) && c.name == None && c.inputNames == [] && c.outputNames == []
      ensures c.usedInputs == usedInputs && c.usedOutputs == usedOutputs
    {
      // d is passed, so the arctanh argument is never applied
      c := new Reservoir(A, B, Some(rInit), xInit, x => x, timescale, gamma, Some(d), W);
      c.usedOutputs := usedOutputs;
      c.usedInputs := usedInputs;
    }

    /** `propagate`: one step of the integrator from the current state, stage
        j reading input sample xs[j]; the new state is stored and returned. */
    method Propagate(xs: seq<Vector>, tanh: real -> real) returns (r': Vector)
      requires Valid() && StageInputs(Ode(), xs)
      modifies this`r
      ensures Valid()
      ensures r == Step(Ode(), tanh, old(r), xs) && r' == r
    {
      r := Step(Ode(), tanh, r, xs);
      r' := r;
    }

    /** `run`: after the checks of `PrepareRun`, record nx state columns,
        column 0 the state at call time and column i the state after the i-th
        `propagate` on input column i - 1 held over the four stages; return
        them, or W times them. */
    method Run(inputs: Option<Mat>, time: Option<int>, argW: Option<Mat>, retStates: bool, tanh: real -> real)
        returns (res: Result<Mat, RunError>)
      requires Valid() && (inputs.Some? ==> inputs.value.Wf()) && (argW.Some? ==> argW.value.Wf())
      modifies this`r
      ensures Valid()
      ensures var p := PrepareRun(W, B, xInit, inputs, time, argW);
        if p.Err? then res == Err(p.error) && r == old(r)
        else
          var (Wm, X) := p.value;
          if X.cols == 0 then res == Err(EmptyTrajectory) && r == old(r)
          else if X.cols >= 2 && X.rows != B.cols then res == Err(ShapeMismatch) && r == old(r)
          else
            r == Evolve(Ode(), tanh, old(r), HeldDrive(X), X.cols - 1) &&
            var S := Trajectory(Ode(), tanh, old(r), HeldDrive(X), X.cols);
            res == if retStates then Ok(S)
                   else if Wm.cols != A.rows then Err(ShapeMismatch)
                   else Ok(MatMul(Wm, S))
    {
      hide Step;
      var p := PrepareRun(W, B, xInit, inputs, time, argW);
      if p.Err? {
        return Err(p.error);
      }
      var (Wm, X) := p.value;
      var nx := X.cols;
      var n := A.rows;
      if nx == 0 {
        return Err(EmptyTrajectory);
      }
      if nx >= 2 && X.rows != B.cols {
        // `B @ x` in the first stage of the first step
        return Err(ShapeMismatch);
      }
      HeldDriveShaped(Ode(), X, nx - 1);
      var S := RecordStates(HeldDrive(X), nx, tanh);
      if retStates {
        return Ok(S);
      }
      if Wm.cols != n {
        return Err(ShapeMismatch);
      }
      return Ok(MatMul(Wm, S));
    }

    /** The stepping loop of `run`: column 0 of the states array is the
        current state, and each further column the state after one more
        `propagate` on the next per-step input. */
    method RecordStates(drive: seq<seq<Vector>>, nx: nat, tanh: real -> real) returns (S: Mat)
      requires Valid() && nx >= 1 && DriveShaped(Ode(), drive, nx - 1)
      modifies this`r
      ensures Valid()
      ensures r == Evolve(Ode(), tanh, old(r), drive, nx - 1)
      ensures S == Trajectory(Ode(), tanh, old(r), drive, nx)
    {
      hide Step;
      var n := A.rows;
      ghost var r0 := r;
      ghost var p := Ode();
      var states := new real[n, nx];
      forall row | 0 <= row < n {
        states[row, 0] := r[row];
      }
      ghost var columns := [r];
      var i := 1;
      while i < nx
        invariant 1 <= i <= nx && Valid() && Ode() == p && |r| == n
        invariant columns == States(p, tanh, r0, drive, i - 1) && r == columns[i - 1]
        invariant forall row, j :: 0 <= row < n && 0 <= j < i ==> states[row, j] == columns[j][row]
      {
        var _ := Propagate(drive[i - 1], tanh);
        forall row | 0 <= row < n {
          states[row, i] := r[row];
        }
        columns := columns + [r];
        i := i + 1;
      }
      StatesAt(p, tanh, r0, drive, nx - 1, nx - 1);
      assert r == Evolve(p, tanh, r0, drive, nx - 1);
      S := Snapshot(states);
      MatExt(S, Trajectory(p, tanh, r0, drive, nx));
    }

    /** `doubleOutput(idx)`: append a copy of readout row idx (Python
        indexing, negative from the end) to W and return the reservoir itself.
        Indexing a missing W or a row outside it raises. */
    method DoubleOutput(idx: int) returns (res: Result<Reservoir, DoubleError>)
      requires Valid()
      modifies this`W
      ensures Valid()
      ensures old(W).None? ==> res == Err(NoReadout) && W == old(W)
      ensures old(W).Some? && !(-(old(W).value.rows as int) <= idx < old(W).value.rows) ==>
        res == Err(OutputIndexOutOfRange) && W == old(W)
      ensures old(W).Some? && -(old(W).value.rows as int) <= idx < old(W).value.rows ==>
        res == Ok(this) && W == Some(AppendRow(old(W).value, RowIndex(idx, old(W).value.rows)))
    {
      if W.None? {
        return Err(NoReadout);
      }
      var m := W.value.rows;
      if !(-(m as int) <= idx < m) {
        return Err(OutputIndexOutOfRange);
      }
      W := Some(AppendRow(W.value, RowIndex(idx, m)));
      return Ok(this);
    }
  }
}
