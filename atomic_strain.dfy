/** `atomic_strain`: the per-atom strain measure of Zimmerman, the sum over
    the neighbours of an atom of the outer products of their separation
    vectors, divided by r0 squared and by a crystal factor. */
module AtomicStrain {
  import opened LinAlg

  /** The contribution of one neighbour at separation d to entry (i, j). */
  function PairTerm(d: Vec3, i: Ix, j: Ix, r0: real): real
    requires r0 != 0.0
  {
    V3(d, i) * V3(d, j) / (r0 * r0)
  }

  /** Entry (i, j) accumulated over the neighbours ds, in list order. */
  function StrainSum(ds: seq<Vec3>, i: Ix, j: Ix, r0: real): real
    requires r0 != 0.0
  {
    if |ds| == 0 then 0.0 else StrainSum(ds[..|ds| - 1], i, j, r0) + PairTerm(ds[|ds| - 1], i, j, r0)
  }

  /** The accumulated matrix of one atom divided by the crystal factor. */
  function AtomStrain(ds: seq<Vec3>, r0: real, crystalFactor: real): (m: Mat3)
    requires r0 != 0.0 && crystalFactor != 0.0
    ensures forall i: Ix, j: Ix :: At(m, i, j) == StrainSum(ds, i, j, r0) / crystalFactor
  {
    Build((i: Ix, j: Ix) => StrainSum(ds, i, j, r0) / crystalFactor)
  }

  /** The matrix of the contributions of one neighbour. */
  function Contribution(d: Vec3, r0: real): (t: Mat3)
    requires r0 != 0.0
    ensures forall i: Ix, j: Ix :: At(t, i, j) == PairTerm(d, i, j, r0)
  {
    Build((i: Ix, j: Ix) => PairTerm(d, i, j, r0))
  }

  /** The first m flat entries of a hold b plus t; the rest hold b. */
  ghost predicate AddedBelow(a: seq<real>, b: seq<real>, t: Mat3, m: nat)
    requires |a| == 9 && |b| == 9
  {
    forall n :: 0 <= n < 9 ==> a[n] == b[n] + if n < m then t[n] else 0.0
  }

  lemma AddedNext(a: seq<real>, b: seq<real>, t: Mat3, n: nat)
    requires |a| == 9 && |b| == 9 && n < 9
    requires AddedBelow(a, b, t, n)
    ensures AddedBelow(a[n := a[n] + t[n]], b, t, n + 1)
  {
  }

  /** The body of the (i, j) loops for one neighbour:
      strain[i,j,l] += d[i]*d[j]/r0**2 for every i and j. */
  method AddNeighbour(acc: array<real>, d: Vec3, r0: real)
    requires acc.Length == 9 && r0 != 0.0
    modifies acc
    ensures forall i: Ix, j: Ix :: acc[Pos(i, j)] == old(acc[Pos(i, j)]) + PairTerm(d, i, j, r0)
  {
    ghost var b := acc[..];
    ghost var t := Contribution(d, r0);
    for i := 1 to 4
      invariant AddedBelow(acc[..], b, t, 3 * (i - 1))
    {
      for j := 1 to 4
        invariant AddedBelow(acc[..], b, t, 3 * (i - 1) + (j - 1))
      {
        assert t[Pos(i, j)] == PairTerm(d, i, j, r0) by { assert At(t, i, j) == PairTerm(d, i, j, r0); }
        AddedNext(acc[..], b, t, Pos(i, j));
        acc[Pos(i, j)] := acc[Pos(i, j)] + PairTerm(d, i, j, r0);
      }
    }
    assert AddedBelow(acc[..], b, t, 9);
    forall i: Ix, j: Ix ensures acc[Pos(i, j)] == b[Pos(i, j)] + PairTerm(d, i, j, r0) {
      assert At(t, i, j) == PairTerm(d, i, j, r0);
    }
  }

  /** The neighbour loop of one atom, starting from the zero matrix. */
  method AccumulateAtom(ds: seq<Vec3>, r0: real) returns (m: Mat3)
    requires r0 != 0.0
    ensures forall i: Ix, j: Ix :: At(m, i, j) == StrainSum(ds, i, j, r0)
  {
    var acc := new real[9](n => 0.0);
    for k := 0 to |ds|
      invariant forall i: Ix, j: Ix :: acc[Pos(i, j)] == StrainSum(ds[..k], i, j, r0)
    {
      AddNeighbour(acc, ds[k], r0);
      assert ds[..k + 1][..k] == ds[..k];
    }
    assert ds[..|ds|] == ds;
    m := acc[..];
  }

  /** `atomic_strain(at, r0, crystal_factor)`, with the neighbour separations
      of atom l given as neighbours[l]. */
  method AtomicStrain(neighbours: seq<seq<Vec3>>, r0: real, crystalFactor: real)
    returns (strain: seq<Mat3>)
    requires r0 != 0.0 && crystalFactor != 0.0
    ensures |strain| == |neighbours|
    ensures forall l :: 0 <= l < |neighbours| ==> strain[l] == AtomStrain(neighbours[l], r0, crystalFactor)
  {
    var raw: seq<Mat3> := [];
    for l := 0 to |neighbours|
      invariant |raw| == l
      invariant forall k :: 0 <= k < l ==>
        forall i: Ix, j: Ix :: At(raw[k], i, j) == StrainSum(neighbours[k], i, j, r0)
    {
      var m := AccumulateAtom(neighbours[l], r0);
      raw := raw + [m];
    }
    // strain / crystal_factor
    strain := [];
    for l := 0 to |raw|
      invariant |strain| == l
      invariant forall k :: 0 <= k < l ==> strain[k] == AtomStrain(neighbours[k], r0, crystalFactor)
    {
      var m := Build((i: Ix, j: Ix) => At(raw[l], i, j) / crystalFactor);
      MatExt(m, AtomStrain(neighbours[l], r0, crystalFactor));
      strain := strain + [m];
    }
  }

  /** Each atom's strain is symmetric. */
  lemma {:induction false} StrainSumSymmetric(ds: seq<Vec3>, i: Ix, j: Ix, r0: real)
    requires r0 != 0.0
    ensures StrainSum(ds, i, j, r0) == StrainSum(ds, j, i, r0)
  {
    if |ds| > 0 {
      StrainSumSymmetric(ds[..|ds| - 1], i, j, r0);
      var d := ds[|ds| - 1];
      assert V3(d, i) * V3(d, j) == V3(d, j) * V3(d, i);
    }
  }

  lemma AtomStrainSymmetric(ds: seq<Vec3>, r0: real, crystalFactor: real)
    requires r0 != 0.0 && crystalFactor != 0.0
    ensures Symmetric(AtomStrain(ds, r0, crystalFactor))
  {
    forall i: Ix, j: Ix ensures At(AtomStrain(ds, r0, crystalFactor), i, j) == At(AtomStrain(ds, r0, crystalFactor), j, i) {
      StrainSumSymmetric(ds, i, j, r0);
    }
  }

  /** An atom without neighbours has zero strain. */
  lemma NoNeighboursNoStrain(r0: real, crystalFactor: real)
    requires r0 != 0.0 && crystalFactor != 0.0
    ensures AtomStrain([], r0, crystalFactor) == Zero3()
  {
    var m := AtomStrain([], r0, crystalFactor);
    forall i: Ix, j: Ix ensures At(m, i, j) == At(Zero3(), i, j) {
      assert StrainSum([], i, j, r0) == 0.0;
      assert At(m, i, j) == 0.0 / crystalFactor;
    }
    MatExt(m, Zero3());
  }

  /** The accumulation over a concatenated neighbour list is the sum of the
      accumulations over its parts. */
  lemma {:induction false} StrainSumAppend(xs: seq<Vec3>, ys: seq<Vec3>, i: Ix, j: Ix, r0: real)
    requires r0 != 0.0
    ensures StrainSum(xs + ys, i, j, r0) == StrainSum(xs, i, j, r0) + StrainSum(ys, i, j, r0)
    decreases |ys|
  {
    if |ys| == 0 {
      assert xs + ys == xs;
    } else {
      var zs := xs + ys;
      assert zs[..|zs| - 1] == xs + ys[..|ys| - 1];
      assert zs[|zs| - 1] == ys[|ys| - 1];
      StrainSumAppend(xs, ys[..|ys| - 1], i, j, r0);
    }
  }
}
