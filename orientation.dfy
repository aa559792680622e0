/** The permutation test of elastic_fields: after the polar decomposition
    E = S R, the rotation R is cycled by rotXYZ so that the x axis points the
    way the first column of R^T E says. */
module Orientation {
  import opened LinAlg

  /** The cyclic permutation rotXYZ, with ones at (1,2), (2,3) and (3,1). */
  function RotXYZ(): (p: Mat3)
    ensures At(p, 1, 2) == 1.0 && At(p, 2, 3) == 1.0 && At(p, 3, 1) == 1.0
  {
    [0.0, 1.0, 0.0,
     0.0, 0.0, 1.0,
     1.0, 0.0, 0.0]
  }

  /** The index after i in the cycle 1 -> 2 -> 3 -> 1. */
  function Next(i: Ix): Ix
  {
    if i == 3 then 1 else i + 1
  }

  function Prev(i: Ix): Ix
  {
    if i == 1 then 3 else i - 1
  }

  /** rotXYZ^T, written out. */
  function RotXYZT(): (p: Mat3)
  {
    [0.0, 0.0, 1.0,
     1.0, 0.0, 0.0,
     0.0, 1.0, 0.0]
  }

  /** RotXYZT is the transpose of rotXYZ. */
  lemma RotXYZTIsTranspose()
    ensures forall i: Ix, j: Ix :: At(RotXYZT(), i, j) == At(RotXYZ(), j, i)
  {
  }

  /** A sum of three products whose first factors form a unit vector picks
      out one second factor. */
  lemma PickFirst(a1: real, a2: real, a3: real, b1: real, b2: real, b3: real)
    requires a1 == 1.0 && a2 == 0.0 && a3 == 0.0
    ensures a1 * b1 + a2 * b2 + a3 * b3 == b1
  {
  }

  lemma PickSecond(a1: real, a2: real, a3: real, b1: real, b2: real, b3: real)
    requires a1 == 0.0 && a2 == 1.0 && a3 == 0.0
    ensures a1 * b1 + a2 * b2 + a3 * b3 == b2
  {
  }

  lemma PickThird(a1: real, a2: real, a3: real, b1: real, b2: real, b3: real)
    requires a1 == 0.0 && a2 == 0.0 && a3 == 1.0
    ensures a1 * b1 + a2 * b2 + a3 * b3 == b3
  {
  }

  /** Row i of rotXYZ is the unit vector of Next(i). */
  lemma RotXYZRow(i: Ix)
    ensures forall k: Ix :: At(RotXYZ(), i, k) == if k == Next(i) then 1.0 else 0.0
  {
  }

  /** Row i of rotXYZ^T is the unit vector of Prev(i). */
  lemma RotXYZTRow(i: Ix)
    ensures forall k: Ix :: At(RotXYZT(), i, k) == if k == Prev(i) then 1.0 else 0.0
  {
  }

  /** When row i of P is the unit vector of k, row i of P . R is row k
      of R. */
  lemma UnitRowProduct(p: Mat3, r: Mat3, i: Ix, j: Ix, k: Ix)
    requires forall m: Ix :: At(p, i, m) == if m == k then 1.0 else 0.0
    ensures At(Mul(p, r), i, j) == At(r, k, j)
  {
    MulAt(p, r, i, j);
    UnitRowEntry(p, r, i, j, k);
  }

  lemma MulAt(a: Mat3, b: Mat3, i: Ix, j: Ix)
    ensures At(Mul(a, b), i, j) == MulEntry(a, b, i, j)
  {
  }

  lemma UnitRowEntry(p: Mat3, r: Mat3, i: Ix, j: Ix, k: Ix)
    requires forall m: Ix :: At(p, i, m) == if m == k then 1.0 else 0.0
    ensures MulEntry(p, r, i, j) == At(r, k, j)
  {
    if k == 1 {
      PickFirst(At(p, i, 1), At(p, i, 2), At(p, i, 3), At(r, 1, j), At(r, 2, j), At(r, 3, j));
    } else if k == 2 {
      PickSecond(At(p, i, 1), At(p, i, 2), At(p, i, 3), At(r, 1, j), At(r, 2, j), At(r, 3, j));
    } else {
      PickThird(At(p, i, 1), At(p, i, 2), At(p, i, 3), At(r, 1, j), At(r, 2, j), At(r, 3, j));
    }
  }

  /** rotXYZ . R moves row i+1 of R to row i. */
  lemma RotXYZPermutesRows(r: Mat3)
    ensures forall i: Ix, j: Ix :: At(Mul(RotXYZ(), r), i, j) == At(r, Next(i), j)
  {
    forall i: Ix, j: Ix ensures At(Mul(RotXYZ(), r), i, j) == At(r, Next(i), j) {
      RotXYZRow(i);
      UnitRowProduct(RotXYZ(), r, i, j, Next(i));
    }
  }

  /** rotXYZ^T . R moves row i-1 of R to row i. */
  lemma RotXYZTPermutesRows(r: Mat3)
    ensures forall i: Ix, j: Ix :: At(Mul(RotXYZT(), r), i, j) == At(r, Prev(i), j)
  {
    forall i: Ix, j: Ix ensures At(Mul(RotXYZT(), r), i, j) == At(r, Prev(i), j) {
      RotXYZTRow(i);
      UnitRowProduct(RotXYZT(), r, i, j, Prev(i));
    }
  }

  /** rotXYZ is a rotation: its transpose is its inverse. */
  lemma RotXYZOrthogonal()
    ensures forall i: Ix, j: Ix :: At(Mul(RotXYZ(), RotXYZT()), i, j) == if i == j then 1.0 else 0.0
    ensures forall i: Ix, j: Ix :: At(Mul(RotXYZT(), RotXYZ()), i, j) == if i == j then 1.0 else 0.0
  {
    RotXYZPermutesRows(RotXYZT());
    RotXYZTPermutesRows(RotXYZ());
    forall i: Ix, j: Ix ensures At(Mul(RotXYZ(), RotXYZT()), i, j) == if i == j then 1.0 else 0.0 {
      RotXYZTRow(Next(i));
    }
    forall i: Ix, j: Ix ensures At(Mul(RotXYZT(), RotXYZ()), i, j) == if i == j then 1.0 else 0.0 {
      RotXYZRow(Prev(i));
    }
  }

  /** Which entry of the first column c of R^T . E is strictly the largest:
      2 or 3, or 1 when neither is. */
  function XAxis(c: Vec3): (k: Ix)
  {
    if V3(c, 2) > V3(c, 1) && V3(c, 2) > V3(c, 3) then 2
    else if V3(c, 3) > V3(c, 1) && V3(c, 3) > V3(c, 2) then 3
    else 1
  }

  /** `RtE = dot(R.T, E)`, first column: entry k is column k of R dotted
      with column 1 of E. */
  function FirstColumnOfRtE(r: Mat3, e: Mat3): (c: Vec3)
  {
    seq(3, k requires 0 <= k < 3 => Dot(Column(r, k + 1), Column(e, 1)))
  }

  /** FirstColumnOfRtE is column 1 of the product R^T . E that line 376
      computes: its entry k is entry (k, 1) of that product. */
  lemma FirstColumnOfRtEIsColumn(r: Mat3, e: Mat3)
    ensures forall k: Ix :: V3(FirstColumnOfRtE(r, e), k) == At(Mul(Transpose(r), e), k, 1)
  {
    forall k: Ix ensures V3(FirstColumnOfRtE(r, e), k) == At(Mul(Transpose(r), e), k, 1) {
      FirstColumnEntry(r, e, k);
      ProductEntry(Transpose(r), e, k);
      RtEEntry(r, e, k);
    }
  }

  /** Entry k of FirstColumnOfRtE, from its definition. */
  lemma FirstColumnEntry(r: Mat3, e: Mat3, k: Ix)
    ensures V3(FirstColumnOfRtE(r, e), k) == Dot(Column(r, k), Column(e, 1))
  {
  }

  /** Entry (k, 1) of a product, from the definition of Mul. */
  lemma ProductEntry(t: Mat3, e: Mat3, k: Ix)
    ensures At(Mul(t, e), k, 1) == MulEntry(t, e, k, 1)
  {
  }

  /** Entry k of the first column of R^T . E, written out both ways. */
  lemma RtEEntry(r: Mat3, e: Mat3, k: Ix)
    ensures Dot(Column(r, k), Column(e, 1)) == MulEntry(Transpose(r), e, k, 1)
  {
    ColumnsDot(r, e, k);
    TransposedEntry(r, e, k);
  }

  lemma ColumnsDot(r: Mat3, e: Mat3, k: Ix)
    ensures Dot(Column(r, k), Column(e, 1))
      == At(r, 1, k) * At(e, 1, 1) + At(r, 2, k) * At(e, 2, 1) + At(r, 3, k) * At(e, 3, 1)
  {
    Dot3(Column(r, k), Column(e, 1));
  }

  lemma TransposedEntry(r: Mat3, e: Mat3, k: Ix)
    ensures MulEntry(Transpose(r), e, k, 1)
      == At(r, 1, k) * At(e, 1, 1) + At(r, 2, k) * At(e, 2, 1) + At(r, 3, k) * At(e, 3, 1)
  {
    var t := Transpose(r);
    assert At(t, k, 1) == At(r, 1, k) && At(t, k, 2) == At(r, 2, k) && At(t, k, 3) == At(r, 3, k);
    RowOfTransposed(t, r, e, k);
  }

  /** Entry (k, 1) of t . e when row k of t is column k of r. */
  lemma RowOfTransposed(t: Mat3, r: Mat3, e: Mat3, k: Ix)
    requires At(t, k, 1) == At(r, 1, k) && At(t, k, 2) == At(r, 2, k) && At(t, k, 3) == At(r, 3, k)
    ensures MulEntry(t, e, k, 1)
      == At(r, 1, k) * At(e, 1, 1) + At(r, 2, k) * At(e, 2, 1) + At(r, 3, k) * At(e, 3, 1)
  {
  }

  /** The permutation test: R becomes rotXYZ . R when x points along the
      second axis, rotXYZ^T . R when it points along the third; c is the
      first column of R^T . E. */
  function Orient(r: Mat3, c: Vec3): (o: Mat3)
  {
    match XAxis(c)
    case 1 => r
    case 2 => Mul(RotXYZ(), r)
    case 3 => Mul(RotXYZT(), r)
  }

  /** XAxis names the strict maximum of c when it is not 1, and it is 1
      exactly when neither entry 2 nor entry 3 is a strict maximum. */
  lemma XAxisIsStrictMaximum(c: Vec3)
    ensures XAxis(c) != 1 ==> forall i: Ix :: i != XAxis(c) ==> V3(c, XAxis(c)) > V3(c, i)
    ensures XAxis(c) == 1 <==>
      !(forall i: Ix :: i != 2 ==> V3(c, 2) > V3(c, i)) &&
      !(forall i: Ix :: i != 3 ==> V3(c, 3) > V3(c, i))
  {
    if XAxis(c) == 1 {
      assert !(V3(c, 2) > V3(c, 1) && V3(c, 2) > V3(c, 3));
    }
  }

  function Gram(r: Mat3): (g: Mat3)
  {
    Mul(Transpose(r), r)
  }

  /** A product, kept as one term so that equal factors give equal
      products without arithmetic. */
  function Prod(x: real, y: real): real
  {
    x * y
  }

  /** The dot product of columns i and j of R. */
  function ColumnDot(r: Mat3, i: Ix, j: Ix): real
  {
    Prod(At(r, 1, i), At(r, 1, j)) + Prod(At(r, 2, i), At(r, 2, j)) + Prod(At(r, 3, i), At(r, 3, j))
  }

  /** Row i of R^T is column i of R. */
  lemma TransposeRow(r: Mat3, i: Ix)
    ensures At(Transpose(r), i, 1) == At(r, 1, i)
    ensures At(Transpose(r), i, 2) == At(r, 2, i)
    ensures At(Transpose(r), i, 3) == At(r, 3, i)
  {
  }

  /** Entry (i, j) of R^T . R: the dot product of columns i and j of R. */
  lemma GramAt(r: Mat3, i: Ix, j: Ix)
    ensures At(Gram(r), i, j) == ColumnDot(r, i, j)
  {
    var t := Transpose(r);
    TransposeRow(r, i);
    MulEntryOfTransposed(t, r, i, j);
    ColumnDotExpanded(r, i, j);
    MulAt(t, r, i, j);
  }

  /** Entry (i, j) of a product whose left factor has row i equal to
      column i of r. */
  lemma MulEntryOfTransposed(t: Mat3, r: Mat3, i: Ix, j: Ix)
    requires At(t, i, 1) == At(r, 1, i) && At(t, i, 2) == At(r, 2, i) && At(t, i, 3) == At(r, 3, i)
    ensures MulEntry(t, r, i, j) == At(r, 1, i) * At(r, 1, j) + At(r, 2, i) * At(r, 2, j) + At(r, 3, i) * At(r, 3, j)
  {
  }

  lemma ColumnDotExpanded(r: Mat3, i: Ix, j: Ix)
    ensures ColumnDot(r, i, j) == At(r, 1, i) * At(r, 1, j) + At(r, 2, i) * At(r, 2, j) + At(r, 3, i) * At(r, 3, j)
  {
  }

  /** Cycling the rows of R does not change the dot products of its
      columns. */
  lemma ColumnDotOfCycledRows(r: Mat3, q: Mat3, i: Ix, j: Ix, forward: bool)
    requires forward ==> At(q, 1, i) == At(r, 2, i) && At(q, 2, i) == At(r, 3, i) && At(q, 3, i) == At(r, 1, i)
    requires forward ==> At(q, 1, j) == At(r, 2, j) && At(q, 2, j) == At(r, 3, j) && At(q, 3, j) == At(r, 1, j)
    requires !forward ==> At(q, 1, i) == At(r, 3, i) && At(q, 2, i) == At(r, 1, i) && At(q, 3, i) == At(r, 2, i)
    requires !forward ==> At(q, 1, j) == At(r, 3, j) && At(q, 2, j) == At(r, 1, j) && At(q, 3, j) == At(r, 2, j)
    ensures ColumnDot(q, i, j) == ColumnDot(r, i, j)
  {
  }

  /** Permuting the rows of R cyclically leaves R^T . R unchanged. */
  lemma GramOfCycledRows(r: Mat3, q: Mat3, forward: bool)
    requires forward ==> forall i: Ix, j: Ix :: At(q, i, j) == At(r, Next(i), j)
    requires !forward ==> forall i: Ix, j: Ix :: At(q, i, j) == At(r, Prev(i), j)
    ensures Gram(q) == Gram(r)
  {
    forall i: Ix, j: Ix ensures At(Gram(q), i, j) == At(Gram(r), i, j) {
      GramAt(q, i, j);
      GramAt(r, i, j);
      ColumnDotOfCycledRows(r, q, i, j, forward);
    }
    MatExt(Gram(q), Gram(r));
  }

  /** The permutation test keeps a rotation a rotation: R^T . R is the same
      before and after. */
  lemma OrientKeepsGram(r: Mat3, c: Vec3)
    ensures Gram(Orient(r, c)) == Gram(r)
    ensures Orient(r, c) == r || Orient(r, c) == Mul(RotXYZ(), r) || Orient(r, c) == Mul(RotXYZT(), r)
  {
    match XAxis(c)
    case 1 =>
    case 2 =>
      RotXYZPermutesRows(r);
      GramOfCycledRows(r, Mul(RotXYZ(), r), true);
    case 3 =>
      RotXYZTPermutesRows(r);
      GramOfCycledRows(r, Mul(RotXYZT(), r), false);
  }
}
