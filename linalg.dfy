/** Small dense linear algebra over exact reals, with the 1-based (Fortran)
    indexing that `farray` uses. Matrices are stored flat in row-major order. */
module LinAlg {

  /** A Fortran index into a 3-vector or a 3x3 matrix. */
  type Ix = i: int | 1 <= i <= 3 witness 1

  type Vec3 = v: seq<real> | |v| == 3 witness [0.0, 0.0, 0.0]
  type Vec6 = v: seq<real> | |v| == 6 witness [0.0, 0.0, 0.0, 0.0, 0.0, 0.0]
  type Mat3 = m: seq<real> | |m| == 9 witness [0.0, 0.0, 0.0, 0.0, 0.0, 0.0, 0.0, 0.0, 0.0]

  /** Flat position of entry (i, j) of a 3x3 matrix. */
  function Pos(i: Ix, j: Ix): (n: nat)
    ensures n < 9
  {
    3 * (i - 1) + (j - 1)
  }

  function Row(n: nat): Ix
    requires n < 9
  {
    n / 3 + 1
  }

  function Col(n: nat): Ix
    requires n < 9
  {
    n % 3 + 1
  }

  lemma PosRowCol(n: nat)
    requires n < 9
    ensures Pos(Row(n), Col(n)) == n
  {
  }

  /** Entry m[i, j] in Fortran indexing. */
  function At(m: Mat3, i: Ix, j: Ix): real
  {
    m[Pos(i, j)]
  }

  /** Entry v[i] in Fortran indexing. */
  function V3(v: Vec3, i: Ix): real
  {
    v[i - 1]
  }

  /** Two matrices with the same entries are equal. */
  lemma MatExt(a: Mat3, b: Mat3)
    requires forall i: Ix, j: Ix :: At(a, i, j) == At(b, i, j)
    ensures a == b
  {
    forall n | 0 <= n < 9 ensures a[n] == b[n] {
      PosRowCol(n);
      assert At(a, Row(n), Col(n)) == At(b, Row(n), Col(n));
    }
  }

  /** The matrix whose entry (i, j) is f(i, j). */
  function Build(f: (Ix, Ix) -> real): (m: Mat3)
    ensures forall i: Ix, j: Ix :: At(m, i, j) == f(i, j)
  {
    var m: Mat3 := seq(9, n requires 0 <= n < 9 => f(Row(n), Col(n)));
    assert forall i: Ix, j: Ix :: Row(Pos(i, j)) == i && Col(Pos(i, j)) == j;
    m
  }

  function Zero3(): (z: Mat3)
    ensures forall i: Ix, j: Ix :: At(z, i, j) == 0.0
  {
    Build((i: Ix, j: Ix) => 0.0)
  }

  function Identity3(): (e: Mat3)
    ensures forall i: Ix, j: Ix :: At(e, i, j) == if i == j then 1.0 else 0.0
  {
    [1.0, 0.0, 0.0,
     0.0, 1.0, 0.0,
     0.0, 0.0, 1.0]
  }

  function Transpose(m: Mat3): (t: Mat3)
    ensures forall i: Ix, j: Ix :: At(t, i, j) == At(m, j, i)
  {
    Build((i: Ix, j: Ix) => At(m, j, i))
  }

  ghost predicate Symmetric(m: Mat3)
  {
    forall i: Ix, j: Ix :: At(m, i, j) == At(m, j, i)
  }

  function Add(a: Mat3, b: Mat3): (s: Mat3)
    ensures forall i: Ix, j: Ix :: At(s, i, j) == At(a, i, j) + At(b, i, j)
  {
    Build((i: Ix, j: Ix) => At(a, i, j) + At(b, i, j))
  }

  function Scale(k: real, a: Mat3): (s: Mat3)
    ensures forall i: Ix, j: Ix :: At(s, i, j) == k * At(a, i, j)
  {
    seq(9, n requires 0 <= n < 9 => k * a[n])
  }

  function Neg(a: Mat3): (s: Mat3)
    ensures forall i: Ix, j: Ix :: At(s, i, j) == -At(a, i, j)
  {
    Build((i: Ix, j: Ix) => -At(a, i, j))
  }

  /** Entry (i, j) of the product a * b. */
  function MulEntry(a: Mat3, b: Mat3, i: Ix, j: Ix): real
  {
    At(a, i, 1) * At(b, 1, j) + At(a, i, 2) * At(b, 2, j) + At(a, i, 3) * At(b, 3, j)
  }

  /** The matrix product a * b (numpy `dot` of two 3x3 arrays). */
  function Mul(a: Mat3, b: Mat3): (p: Mat3)
    ensures forall i: Ix, j: Ix :: At(p, i, j) == MulEntry(a, b, i, j)
  {
    Build((i: Ix, j: Ix) => MulEntry(a, b, i, j))
  }

  /** Elementwise sum of two vectors of equal length. */
  function VecAdd(u: seq<real>, v: seq<real>): (w: seq<real>)
    requires |u| == |v|
    ensures |w| == |u| && forall k :: 0 <= k < |w| ==> w[k] == u[k] + v[k]
  {
    seq(|u|, k requires 0 <= k < |u| => u[k] + v[k])
  }

  function VecScale(c: real, v: seq<real>): (w: seq<real>)
    ensures |w| == |v| && forall k :: 0 <= k < |w| ==> w[k] == c * v[k]
  {
    seq(|v|, k requires 0 <= k < |v| => c * v[k])
  }

  function VecSub(u: seq<real>, v: seq<real>): (w: seq<real>)
    requires |u| == |v|
    ensures |w| == |u| && forall k :: 0 <= k < |w| ==> w[k] == u[k] - v[k]
  {
    seq(|u|, k requires 0 <= k < |u| => u[k] - v[k])
  }

  /** numpy `dot` of two vectors of equal length. */
  function Dot(u: seq<real>, v: seq<real>): real
    requires |u| == |v|
    decreases |u|
  {
    if |u| == 0 then 0.0 else Dot(u[..|u| - 1], v[..|v| - 1]) + u[|u| - 1] * v[|v| - 1]
  }

  lemma {:induction false} DotComm(u: seq<real>, v: seq<real>)
    requires |u| == |v|
    ensures Dot(u, v) == Dot(v, u)
    decreases |u|
  {
    if |u| > 0 {
      DotComm(u[..|u| - 1], v[..|v| - 1]);
    }
  }

  /** One more term of a prefix dot product. */
  lemma DotPrefixStep(u: seq<real>, v: seq<real>, n: nat, acc: real)
    requires 0 < n <= |u| == |v| && Dot(u[..n - 1], v[..n - 1]) == acc
    ensures Dot(u[..n], v[..n]) == acc + u[n - 1] * v[n - 1]
  {
    assert u[..n][..n - 1] == u[..n - 1];
    assert v[..n][..n - 1] == v[..n - 1];
  }

  /** The dot product of two 6-vectors, written out. */
  lemma Dot6(u: seq<real>, v: seq<real>)
    requires |u| == |v| == 6
    ensures Dot(u, v) == u[0] * v[0] + u[1] * v[1] + u[2] * v[2] + u[3] * v[3] + u[4] * v[4] + u[5] * v[5]
  {
    assert Dot(u[..0], v[..0]) == 0.0;
    var p0 := u[0] * v[0];
    DotPrefixStep(u, v, 1, 0.0);
    DotPrefixStep(u, v, 2, 0.0 + p0);
    var p1 := u[1] * v[1];
    DotPrefixStep(u, v, 3, 0.0 + p0 + p1);
    var p2 := u[2] * v[2];
    DotPrefixStep(u, v, 4, 0.0 + p0 + p1 + p2);
    var p3 := u[3] * v[3];
    DotPrefixStep(u, v, 5, 0.0 + p0 + p1 + p2 + p3);
    DotLast(u, v);
  }

  /** The dot product of two 3-vectors, written out. */
  lemma Dot3(u: seq<real>, v: seq<real>)
    requires |u| == |v| == 3
    ensures Dot(u, v) == u[0] * v[0] + u[1] * v[1] + u[2] * v[2]
  {
    assert Dot(u[..0], v[..0]) == 0.0;
    DotPrefixStep(u, v, 1, 0.0);
    DotPrefixStep(u, v, 2, 0.0 + u[0] * v[0]);
    DotPrefixStep(u, v, 3, 0.0 + u[0] * v[0] + u[1] * v[1]);
    assert u[..3] == u && v[..3] == v;
  }

  lemma DotLast(u: seq<real>, v: seq<real>)
    requires |u| == |v| == 6
    ensures Dot(u, v) == Dot(u[..5], v[..5]) + u[5] * v[5]
  {
  }

  /** Column j of a matrix, as a vector (`m[:, j]`). */
  function Column(m: Mat3, j: Ix): (c: Vec3)
    ensures forall i: Ix :: V3(c, i) == At(m, i, j)
  {
    [At(m, 1, j), At(m, 2, j), At(m, 3, j)]
  }
}
