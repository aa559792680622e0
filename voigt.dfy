/** Voigt notation: the correspondence between a 6-component vector and a
    symmetric 3x3 tensor, in the strain convention (diagonal stored as 1 + e,
    off-diagonal components doubled in the vector) and the stress convention
    (plain copies). Indices are 1-based as in `farray`. */
module Voigt {
  import opened LinAlg

  /** A Voigt index, 1..6. */
  type VIx = p: int | 1 <= p <= 6 witness 1

  /** Component p of a 6-vector, 1-based. */
  function V6(v: Vec6, p: VIx): real
  {
    v[p - 1]
  }

  /** `voigt_map`: 1 = 11, 2 = 22, 3 = 33, 4 = 23, 5 = 31, 6 = 12. */
  function VoigtMap(p: VIx): (ij: (Ix, Ix))
    ensures p <= 3 <==> ij.0 == ij.1
  {
    match p
    case 1 => (1, 1)
    case 2 => (2, 2)
    case 3 => (3, 3)
    case 4 => (2, 3)
    case 5 => (3, 1)
    case 6 => (1, 2)
  }

  /** The Voigt index of the unordered pair {i, j}. */
  function VoigtIndex(i: Ix, j: Ix): VIx
  {
    if i == j then i
    else if i + j == 5 then 4
    else if i + j == 4 then 5
    else 6
  }

  /** `voigt_map` is a bijection from 1..6 onto the unordered index pairs. */
  lemma VoigtMapBijective(p: VIx, i: Ix, j: Ix)
    ensures VoigtIndex(VoigtMap(p).0, VoigtMap(p).1) == p
    ensures VoigtIndex(i, j) == VoigtIndex(j, i)
    ensures VoigtIndex(i, j) == p <==> VoigtMap(p) == (i, j) || VoigtMap(p) == (j, i)
  {
  }

  /** `strain_matrix`: a 6-vector of strains to the 3x3 deformation matrix. */
  function StrainMatrix(v: Vec6): (m: Mat3)
    ensures Symmetric(m)
  {
    [1.0 + v[0], 0.5 * v[5], 0.5 * v[4],
     0.5 * v[5], 1.0 + v[1], 0.5 * v[3],
     0.5 * v[4], 0.5 * v[3], 1.0 + v[2]]
  }

  /** `stress_matrix`: a 6-vector of stresses to the 3x3 stress tensor. */
  function StressMatrix(v: Vec6): (m: Mat3)
    ensures Symmetric(m)
  {
    [v[0], v[5], v[4],
     v[5], v[1], v[3],
     v[4], v[3], v[2]]
  }

  /** `strain_vector`: reads the upper triangle of a deformation matrix. */
  function StrainVector(m: Mat3): Vec6
  {
    seq(6, k requires 0 <= k < 6 => if k < 3 then At(m, k + 1, k + 1) - 1.0 else 2.0 * UpperAt(m, k + 1))
  }

  /** `stress_vector`: reads the upper triangle of a stress tensor. */
  function StressVector(m: Mat3): Vec6
  {
    seq(6, k requires 0 <= k < 6 => UpperAt(m, k + 1))
  }

  /** Each Voigt component of `strain_matrix` lands at both positions of its
      index pair: 1 + e on the diagonal, e / 2 off it. */
  lemma StrainMatrixAt(v: Vec6, p: VIx)
    ensures At(StrainMatrix(v), VoigtMap(p).0, VoigtMap(p).1) == At(StrainMatrix(v), VoigtMap(p).1, VoigtMap(p).0)
    ensures At(StrainMatrix(v), VoigtMap(p).0, VoigtMap(p).1) == if p <= 3 then 1.0 + V6(v, p) else V6(v, p) / 2.0
  {
  }

  /** Each Voigt component of `stress_matrix` lands at both positions of its
      index pair. */
  lemma StressMatrixAt(v: Vec6, p: VIx)
    ensures At(StressMatrix(v), VoigtMap(p).0, VoigtMap(p).1) == At(StressMatrix(v), VoigtMap(p).1, VoigtMap(p).0)
    ensures At(StressMatrix(v), VoigtMap(p).0, VoigtMap(p).1) == V6(v, p)
  {
  }

  /** The upper-triangle entry at the index pair of Voigt component p. */
  function UpperAt(m: Mat3, p: VIx): real
  {
    var (i, j) := VoigtMap(p);
    if i <= j then At(m, i, j) else At(m, j, i)
  }

  /** `strain_vector` reads component p from the upper triangle at its index
      pair: diagonal minus one, off-diagonal doubled. */
  lemma StrainVectorAt(m: Mat3, p: VIx)
    ensures V6(StrainVector(m), p) ==
      if p <= 3 then At(m, p, p) - 1.0 else 2.0 * UpperAt(m, p)
  {
  }

  /** `stress_vector` reads component p from the upper triangle at its index
      pair. */
  lemma StressVectorAt(m: Mat3, p: VIx)
    ensures V6(StressVector(m), p) == UpperAt(m, p)
  {
  }

  lemma StrainVectorOfMatrix(v: Vec6)
    ensures StrainVector(StrainMatrix(v)) == v
  {
  }

  lemma StrainMatrixOfVector(m: Mat3)
    requires Symmetric(m)
    ensures StrainMatrix(StrainVector(m)) == m
  {
    MatExt(StrainMatrix(StrainVector(m)), m);
  }

  lemma StressVectorOfMatrix(v: Vec6)
    ensures StressVector(StressMatrix(v)) == v
  {
  }

  lemma StressMatrixOfVector(m: Mat3)
    requires Symmetric(m)
    ensures StressMatrix(StressVector(m)) == m
  {
    MatExt(StressMatrix(StressVector(m)), m);
  }

  /** Zero strain is the undeformed (identity) matrix, and conversely. */
  lemma ZeroStrainIsIdentity(v: Vec6)
    ensures StrainMatrix(v) == Identity3() <==> v == [0.0, 0.0, 0.0, 0.0, 0.0, 0.0]
  {
    if v == [0.0, 0.0, 0.0, 0.0, 0.0, 0.0] {
      ZeroStrainMatrix(v);
    }
    if StrainMatrix(v) == Identity3() {
      IdentityStrainVector(v);
    }
  }

  lemma ZeroStrainMatrix(v: Vec6)
    requires v == [0.0, 0.0, 0.0, 0.0, 0.0, 0.0]
    ensures StrainMatrix(v) == Identity3()
  {
  }

  lemma IdentityStrainVector(v: Vec6)
    requires StrainMatrix(v) == Identity3()
    ensures v == [0.0, 0.0, 0.0, 0.0, 0.0, 0.0]
  {
    StrainVectorOfMatrix(v);
    var z := StrainVector(Identity3());
    forall k | 0 <= k < 6 ensures z[k] == 0.0 {
      StrainVectorAt(Identity3(), k + 1);
    }
  }

  /** A 6x6 matrix in Voigt indices, flat and row-major. */
  type Mat6 = m: seq<real> | |m| == 36 witness seq(36, k => 0.0)

  function Pos6(p: VIx, q: VIx): (n: nat)
    ensures n < 36
  {
    6 * (p - 1) + (q - 1)
  }

  /** Entry C[p, q] in Fortran indexing. */
  function At6(c: Mat6, p: VIx, q: VIx): real
  {
    c[Pos6(p, q)]
  }

  ghost predicate Symmetric6(c: Mat6)
  {
    forall p: VIx, q: VIx :: At6(c, p, q) == At6(c, q, p)
  }

  lemma Mat6Ext(a: Mat6, b: Mat6)
    requires forall p: VIx, q: VIx :: At6(a, p, q) == At6(b, p, q)
    ensures a == b
  {
    forall n | 0 <= n < 36 ensures a[n] == b[n] {
      var p: VIx, q: VIx := n / 6 + 1, n % 6 + 1;
      assert Pos6(p, q) == n;
      assert At6(a, p, q) == At6(b, p, q);
    }
  }

  /** The 6-vector C . v (numpy `dot` of a 6x6 matrix and a 6-vector). */
  function MatVec6(c: Mat6, v: Vec6): (w: Vec6)
    ensures forall p: VIx :: V6(w, p) == Dot(c[Pos6(p, 1)..Pos6(p, 1) + 6], v)
  {
    seq(6, k requires 0 <= k < 6 => Dot(c[6 * k..6 * k + 6], v))
  }
}
