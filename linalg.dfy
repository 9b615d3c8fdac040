/** Real vectors and matrices with explicit shapes, standing for the numpy
    arrays of the reservoir runtime.  A `Mat` keeps its shape next to its rows,
    so that degenerate shapes such as (0, n) or (k, 0) are represented.
    The element-wise operations are defined by recursion on the vector, and
    the lemmas below give their value at an index. */
module Linalg {

  type Vector = seq<real>

  /** A rows x cols matrix stored row by row. */
  datatype Mat = Mat(rows: nat, cols: nat, at: seq<seq<real>>) {
    predicate Wf() {
      |at| == rows && forall i :: 0 <= i < rows ==> |at[i]| == cols
    }
  }

  function Zeros(n: nat): (z: Vector)
    ensures |z| == n
  {
    seq(n, i => 0.0)
  }

  function ZeroMat(rows: nat, cols: nat): (m: Mat)
    ensures m.Wf() && m.rows == rows && m.cols == cols
    ensures forall i, j :: 0 <= i < rows && 0 <= j < cols ==> m.at[i][j] == 0.0
  {
    Mat(rows, cols, seq(rows, i => Zeros(cols)))
  }

  function Add(u: Vector, v: Vector): (w: Vector)
    requires |u| == |v|
    ensures |w| == |u|
  {
    if |u| == 0 then [] else [u[0] + v[0]] + Add(u[1..], v[1..])
  }

  function Scale(c: real, v: Vector): (w: Vector)
    ensures |w| == |v|
  {
    if |v| == 0 then [] else [c * v[0]] + Scale(c, v[1..])
  }

  /** Element-wise division by two, numpy's `v / 2`. */
  function Half(v: Vector): (w: Vector)
    ensures |w| == |v|
  {
    if |v| == 0 then [] else [v[0] / 2.0] + Half(v[1..])
  }

  function Dot(u: Vector, v: Vector): real
    requires |u| == |v|
  {
    if |u| == 0 then 0.0 else u[0] * v[0] + Dot(u[1..], v[1..])
  }

  /** The matrix-vector product `M @ v`. */
  function MatVec(m: Mat, v: Vector): (w: Vector)
    requires m.Wf() && m.cols == |v|
    ensures |w| == m.rows
  {
    seq(m.rows, i requires 0 <= i < m.rows => Dot(m.at[i], v))
  }

  /** Column j of M, numpy's `M[:, j]`. */
  function Col(m: Mat, j: nat): (c: Vector)
    requires m.Wf() && j < m.cols
    ensures |c| == m.rows && forall i :: 0 <= i < m.rows ==> c[i] == m.at[i][j]
  {
    seq(m.rows, i requires 0 <= i < m.rows => m.at[i][j])
  }

  /** The matrix product `M @ N`. */
  function MatMul(m: Mat, n: Mat): (p: Mat)
    requires m.Wf() && n.Wf() && m.cols == n.rows
    ensures p.Wf() && p.rows == m.rows && p.cols == n.cols
    ensures forall i, j :: 0 <= i < m.rows && 0 <= j < n.cols ==> p.at[i][j] == Dot(m.at[i], Col(n, j))
  {
    Mat(m.rows, n.cols,
      seq(m.rows, i requires 0 <= i < m.rows =>
        seq(n.cols, j requires 0 <= j < n.cols => Dot(m.at[i], Col(n, j)))))
  }

  /** numpy's `np.all(M == 0)`. */
  predicate AllZero(m: Mat)
    requires m.Wf()
  {
    forall i, j :: 0 <= i < m.rows && 0 <= j < m.cols ==> m.at[i][j] == 0.0
  }

  /** numpy's `np.sum(v == 0)`: how many entries of v are zero. */
  function CountZeros(v: Vector): (c: nat)
    ensures c <= |v|
    ensures c == 0 <==> forall i :: 0 <= i < |v| ==> v[i] != 0.0
  {
    if |v| == 0 then 0 else (if v[0] == 0.0 then 1 else 0) + CountZeros(v[1..])
  }

  /** The value of a two-dimensional array as a matrix. */
  function Snapshot(a: array2<real>): (m: Mat)
    reads a
    ensures m.Wf() && m.rows == a.Length0 && m.cols == a.Length1
    ensures forall i, j :: 0 <= i < a.Length0 && 0 <= j < a.Length1 ==> m.at[i][j] == a[i, j]
  {
    Mat(a.Length0, a.Length1,
      seq(a.Length0, i requires 0 <= i < a.Length0 reads a =>
        seq(a.Length1, j requires 0 <= j < a.Length1 reads a => a[i, j])))
  }

  // ---------------------------------------------------------------------------
  // Element-wise facts

  lemma {:induction false} AddAt(u: Vector, v: Vector, i: nat)
    requires |u| == |v| && i < |u|
    ensures Add(u, v)[i] == u[i] + v[i]
  {
    if i > 0 {
      AddAt(u[1..], v[1..], i - 1);
    }
  }

  lemma {:induction false} ScaleAt(c: real, v: Vector, i: nat)
    requires i < |v|
    ensures Scale(c, v)[i] == c * v[i]
  {
    if i > 0 {
      ScaleAt(c, v[1..], i - 1);
    }
  }

  lemma {:induction false} HalfAt(v: Vector, i: nat)
    requires i < |v|
    ensures Half(v)[i] == v[i] / 2.0
  {
    if i > 0 {
      HalfAt(v[1..], i - 1);
    }
  }

  /** Adding a zero vector leaves a vector unchanged. */
  lemma {:induction false} AddZeros(u: Vector, z: Vector)
    requires z == Zeros(|u|)
    ensures Add(u, z) == u
  {
    forall i | 0 <= i < |u| ensures Add(u, z)[i] == u[i] {
      AddAt(u, z, i);
    }
  }

  /** Halving a zero vector gives a zero vector. */
  lemma {:induction false} HalfZeros(n: nat)
    ensures Half(Zeros(n)) == Zeros(n)
  {
    forall i | 0 <= i < n ensures Half(Zeros(n))[i] == 0.0 {
      HalfAt(Zeros(n), i);
    }
  }

  /** Scaling a zero vector gives a zero vector. */
  lemma {:induction false} ScaleZeros(c: real, n: nat)
    ensures Scale(c, Zeros(n)) == Zeros(n)
  {
    forall i | 0 <= i < n ensures Scale(c, Zeros(n))[i] == 0.0 {
      ScaleAt(c, Zeros(n), i);
    }
  }
}
