/**
 * Fixed-size numeric vectors and matrices over the three subsystems
 * (0 = Cardio, 1 = Musculoskeletal, 2 = Neurological), and the
 * element-wise NumPy operations the engine uses on them.
 */
module Vectors {

  /** Number of subsystems. */
  const N: nat := 3

  type Node = i: nat | i < N

  type Vec = v: seq<real> | |v| == N witness [0.0, 0.0, 0.0]

  const Zeros: Vec := [0.0, 0.0, 0.0]

  type Mat = m: seq<Vec> | |m| == N witness [Zeros, Zeros, Zeros]

  /** A value of NumPy's `random()`: a uniform draw in [0, 1). */
  type Unit = u: real | 0.0 <= u < 1.0

  type UnitVec = v: seq<Unit> | |v| == N witness [0.0, 0.0, 0.0]

  function Max(a: real, b: real): (r: real)
    ensures a <= r && b <= r && (r == a || r == b)
  {
    if a >= b then a else b
  }

  /** `np.clip(x, lo, hi)` on a scalar. */
  function Clip(x: real, lo: real, hi: real): (r: real)
    requires lo <= hi
    ensures lo <= r <= hi
    ensures lo <= x <= hi ==> r == x
    ensures x <= lo ==> r == lo
    ensures hi <= x ==> r == hi
  {
    if x < lo then lo else if x > hi then hi else x
  }

  function ClipVec(v: Vec, lo: real, hi: real): (r: Vec)
    requires lo <= hi
    ensures forall i: Node :: r[i] == Clip(v[i], lo, hi)
  {
    seq(N, i requires 0 <= i < N => Clip(v[i], lo, hi))
  }

  function Add(a: Vec, b: Vec): (r: Vec)
    ensures forall i: Node :: r[i] == a[i] + b[i]
  {
    seq(N, i requires 0 <= i < N => a[i] + b[i])
  }

  function Scale(v: Vec, c: real): (r: Vec)
    ensures forall i: Node :: r[i] == v[i] * c
  {
    seq(N, i requires 0 <= i < N => v[i] * c)
  }

  function Sum(v: Vec): real {
    v[0] + v[1] + v[2]
  }

  /** `v.mean()`: the cross-subsystem mean. */
  function Mean(v: Vec): real {
    Sum(v) / N as real
  }

  /** `np.any(v < thr)`. */
  predicate AnyBelow(v: Vec, thr: real) {
    exists i: Node :: v[i] < thr
  }

  /** `C @ v`. */
  function MatVec(m: Mat, v: Vec): (r: Vec)
    ensures forall i: Node :: r[i] == m[i][0] * v[0] + m[i][1] * v[1] + m[i][2] * v[2]
  {
    seq(N, i requires 0 <= i < N => m[i][0] * v[0] + m[i][1] * v[1] + m[i][2] * v[2])
  }

  /** `np.argmin(v)`: the first index of a minimal element. */
  function Argmin(v: Vec): (r: Node)
    ensures forall j: Node :: v[r] <= v[j]
    ensures forall j: Node :: j < r ==> v[r] < v[j]
  {
    if v[0] <= v[1] && v[0] <= v[2] then 0 else if v[1] <= v[2] then 1 else 2
  }

  ghost predicate NonNegative(v: Vec) {
    forall i: Node :: 0.0 <= v[i]
  }

  ghost predicate ZeroDiagonal(m: Mat) {
    forall i: Node :: m[i][i] == 0.0
  }

  ghost predicate Symmetric(m: Mat) {
    forall i: Node, j: Node :: m[i][j] == m[j][i]
  }

  ghost predicate NonNegativeMat(m: Mat) {
    forall i: Node, j: Node :: 0.0 <= m[i][j]
  }

  /** Health in [0, 1] and damage in [0, 1.5], element by element. */
  ghost predicate InBounds(x: Vec, d: Vec) {
    forall i: Node :: 0.0 <= x[i] <= 1.0 && 0.0 <= d[i] <= 1.5
  }
}
