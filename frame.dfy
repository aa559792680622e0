/** The local cubic frame of a four-fold coordinated atom in elastic_fields:
    the frame matrix E built from the neighbour separations, the rule that
    skips degenerate frames and the clean-up of E. */
module Frame {
  import opened LinAlg

  /** x / a, the scaling of every frame entry by the lattice constant. */
  function Over(x: real, a: real): real
    requires a != 0.0
  {
    x / a
  }

  /** (u + v - w) / a, one frame column. */
  function FrameColumn(u: Vec3, v: Vec3, w: Vec3, a: real): (c: Vec3)
    requires a != 0.0
  {
    seq(3, k requires 0 <= k < 3 => Over(u[k] + v[k] - w[k], a))
  }

  /** E[:,1] = (n1+n2-n3)/a, E[:,2] = (n2+n3-n1)/a, E[:,3] = (n3+n1-n2)/a. */
  function FrameMatrix(n1: Vec3, n2: Vec3, n3: Vec3, a: real): (e: Mat3)
    requires a != 0.0
  {
    var c1 := FrameColumn(n1, n2, n3, a);
    var c2 := FrameColumn(n2, n3, n1, a);
    var c3 := FrameColumn(n3, n1, n2, a);
    [c1[0], c2[0], c3[0], c1[1], c2[1], c3[1], c1[2], c2[2], c3[2]]
  }

  /** The columns of E are the three frame columns. */
  lemma FrameMatrixColumns(n1: Vec3, n2: Vec3, n3: Vec3, a: real, i: Ix)
    requires a != 0.0
    ensures At(FrameMatrix(n1, n2, n3, a), i, 1) == V3(FrameColumn(n1, n2, n3, a), i)
    ensures At(FrameMatrix(n1, n2, n3, a), i, 2) == V3(FrameColumn(n2, n3, n1, a), i)
    ensures At(FrameMatrix(n1, n2, n3, a), i, 3) == V3(FrameColumn(n3, n1, n2, a), i)
  {
    if i == 1 {
    } else if i == 2 {
    } else {
    }
  }

  /** Row i of E, entry by entry. */
  lemma FrameMatrixAt(n1: Vec3, n2: Vec3, n3: Vec3, a: real, i: Ix)
    requires a != 0.0
    ensures At(FrameMatrix(n1, n2, n3, a), i, 1) == Over(V3(n1, i) + V3(n2, i) - V3(n3, i), a)
    ensures At(FrameMatrix(n1, n2, n3, a), i, 2) == Over(V3(n2, i) + V3(n3, i) - V3(n1, i), a)
    ensures At(FrameMatrix(n1, n2, n3, a), i, 3) == Over(V3(n3, i) + V3(n1, i) - V3(n2, i), a)
  {
    FrameMatrixColumns(n1, n2, n3, a, i);
    FrameColumnAt(n1, n2, n3, a, i);
    FrameColumnAt(n2, n3, n1, a, i);
    FrameColumnAt(n3, n1, n2, a, i);
  }

  lemma FrameColumnAt(u: Vec3, v: Vec3, w: Vec3, a: real, i: Ix)
    requires a != 0.0
    ensures V3(FrameColumn(u, v, w, a), i) == Over(V3(u, i) + V3(v, i) - V3(w, i), a)
  {
  }

  /** Two frame entries built from x, y, z add up to 2 y / a. */
  lemma ColumnsAdd(x: real, y: real, z: real, a: real)
    requires a != 0.0
    ensures Over(x + y - z, a) + Over(y + z - x, a) == Over(2.0 * y, a)
  {
  }

  /** Row i of the frame, with the separations' entries x, y, z in row i. */
  lemma AdjacentColumns(n1: Vec3, n2: Vec3, n3: Vec3, a: real, i: Ix, x: real, y: real, z: real)
    requires a != 0.0
    requires x == V3(n1, i) && y == V3(n2, i) && z == V3(n3, i)
    ensures At(FrameMatrix(n1, n2, n3, a), i, 1) + At(FrameMatrix(n1, n2, n3, a), i, 2) == Over(2.0 * y, a)
    ensures At(FrameMatrix(n1, n2, n3, a), i, 2) + At(FrameMatrix(n1, n2, n3, a), i, 3) == Over(2.0 * z, a)
    ensures At(FrameMatrix(n1, n2, n3, a), i, 3) + At(FrameMatrix(n1, n2, n3, a), i, 1) == Over(2.0 * x, a)
  {
    FrameMatrixAt(n1, n2, n3, a, i);
    ColumnsAdd(x, y, z, a);
    ColumnsAdd(y, z, x, a);
    ColumnsAdd(z, x, y, a);
  }

  /** The frame determines the separations it was built from: the sum of two
      adjacent columns of E is 2 n / a for the separation n they share. */
  lemma FrameRecoversSeparations(n1: Vec3, n2: Vec3, n3: Vec3, a: real, i: Ix)
    requires a != 0.0
    ensures At(FrameMatrix(n1, n2, n3, a), i, 1) + At(FrameMatrix(n1, n2, n3, a), i, 2) == Over(2.0 * V3(n2, i), a)
    ensures At(FrameMatrix(n1, n2, n3, a), i, 2) + At(FrameMatrix(n1, n2, n3, a), i, 3) == Over(2.0 * V3(n3, i), a)
    ensures At(FrameMatrix(n1, n2, n3, a), i, 3) + At(FrameMatrix(n1, n2, n3, a), i, 1) == Over(2.0 * V3(n1, i), a)
  {
    AdjacentColumns(n1, n2, n3, a, i, V3(n1, i), V3(n2, i), V3(n3, i));
  }

  predicate AllZero(v: Vec3)
  {
    v[0] == 0.0 && v[1] == 0.0 && v[2] == 0.0
  }

  /** Python's `all(v)`: every entry is truthy, that is, nonzero. */
  predicate AllNonZero(v: Vec3)
  {
    v[0] != 0.0 && v[1] != 0.0 && v[2] != 0.0
  }

  /** The skip test as written:
      `all(E[:,1] == 0) or all(E[:,2] == 0) or all(E[:,3]) == 0`.
      The third test compares the boolean `all(E[:,3])` with 0, so it holds
      when E[:,3] has any zero entry. */
  predicate SkipAsWritten(e: Mat3)
  {
    AllZero(Column(e, 1)) || AllZero(Column(e, 2)) || !AllNonZero(Column(e, 3))
  }

  /** The evident intent: skip when any column of E vanishes. */
  predicate SkipCorrected(e: Mat3)
  {
    AllZero(Column(e, 1)) || AllZero(Column(e, 2)) || AllZero(Column(e, 3))
  }

  /** Which skip test the first loop applies: the one the source writes, or
      the evidently intended one. */
  datatype SkipRule = AsWritten | Corrected

  predicate Skips(rule: SkipRule, e: Mat3)
  {
    match rule
    case AsWritten => SkipAsWritten(e)
    case Corrected => SkipCorrected(e)
  }

  /** As written, the skip rule discards the atom of a perfect lattice; the
      corrected rule keeps it. */
  lemma SkipAsWrittenDiscardsIdealFrame()
    ensures SkipAsWritten([0.0, -1.0, 0.0, 0.0, 0.0, -1.0, -1.0, 0.0, 0.0])
    ensures !SkipCorrected([0.0, -1.0, 0.0, 0.0, 0.0, -1.0, -1.0, 0.0, 0.0])
  {
  }

  /** The two rules agree on frames without zero entries in E[:,3], and the
      corrected rule never skips more. */
  lemma SkipRulesCompared(e: Mat3)
    ensures SkipCorrected(e) ==> SkipAsWritten(e)
    ensures AllNonZero(Column(e, 3)) ==> (SkipAsWritten(e) <==> SkipCorrected(e))
  {
  }

  /** 1e-6, below which entries of E are set to zero. */
  const Tiny: real := 0.000001

  function Abs(x: real): real
  {
    if x < 0.0 then -x else x
  }

  /** `E[abs(E) < 1e-6] = 0.0`. */
  function ZeroSmall(e: Mat3): (z: Mat3)
    ensures forall n :: 0 <= n < 9 ==> z[n] == if Abs(e[n]) < Tiny then 0.0 else e[n]
  {
    seq(9, n requires 0 <= n < 9 => if Abs(e[n]) < Tiny then 0.0 else e[n])
  }

  /** `(E < 0.0).all()`. */
  predicate AllNegative(e: Mat3)
  {
    forall n :: 0 <= n < 9 ==> e[n] < 0.0
  }

  /** Kills near-zero entries, then negates E when every entry is negative. */
  function CleanFrame(e: Mat3): (c: Mat3)
    ensures forall n :: 0 <= n < 9 ==> c[n] == 0.0 || Abs(c[n]) >= Tiny
    ensures forall n :: 0 <= n < 9 ==> Abs(c[n]) == if Abs(e[n]) < Tiny then 0.0 else Abs(e[n])
    ensures !AllNegative(c)
  {
    var z := ZeroSmall(e);
    if AllNegative(z) then
      var c: Mat3 := seq(9, n requires 0 <= n < 9 => -z[n]);
      assert c[0] > 0.0;
      c
    else z
  }

  /** Cleaning a clean frame changes nothing. */
  lemma CleanFrameIdempotent(e: Mat3)
    ensures CleanFrame(CleanFrame(e)) == CleanFrame(e)
  {
    var c := CleanFrame(e);
    assert ZeroSmall(c) == c;
  }

  /** Cleaning keeps the sign pattern or flips all of it: E is either the
      zeroed E or its negation. */
  lemma CleanFrameSign(e: Mat3)
    ensures CleanFrame(e) == ZeroSmall(e) || CleanFrame(e) == seq(9, n requires 0 <= n < 9 => -ZeroSmall(e)[n])
    ensures CleanFrame(e) != ZeroSmall(e) <==> AllNegative(ZeroSmall(e))
  {
  }
}
