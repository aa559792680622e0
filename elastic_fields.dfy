/** The per-atom pieces of `elastic_fields`: argument checking, the
    reference cache in `at.params`, the frame of a four-fold atom, the
    stress in the sample frame, the energy density and the neighbour mean
    used for interpolation. The numerical solvers (polar decomposition,
    inverse, eigen decomposition) are parameters. */
module ElasticFields {
  import opened LinAlg
  import opened Voigt
  import opened Outcomes
  import opened Frame
  import opened Neighbours

  /** The numerical pieces elastic_fields takes from numpy: the polar
      decomposition E = S R of the frame (through eig, sqrt and D**-0.5),
      the matrix inverse, and the eigen decomposition of the stress
      (eigenvalues, and a matrix whose column k is the eigenvector of
      eigenvalue k). */
  datatype Numerics = Numerics(polar: Mat3 -> (Mat3, Mat3), inv: Mat3 -> Mat3, eig: Mat3 -> (Vec3, Mat3))

  /** The argument checks: exactly one of the lattice constant and the bond
      length, and `primitive_index` whenever the reference is saved or used.
      The lattice constant derived from a bond length is the parameter
      fromBondLength. */
  function Validate(a: Option<real>, bondLength: Option<real>, save: bool, use: bool, hasPrimitiveIndex: bool,
                    fromBondLength: real -> real): (r: Result<real>)
    ensures r.Ok? <==> a.Some? != bondLength.Some? && ((save || use) ==> hasPrimitiveIndex)
    ensures r.Err? ==> r.error == ValueError
    ensures r.Ok? && a.Some? ==> r.value == a.value
    ensures r.Ok? && bondLength.Some? ==> r.value == fromBondLength(bondLength.value)
  {
    if (if a.None? then 1 else 0) + (if bondLength.None? then 1 else 0) != 1 then Err(ValueError)
    else
      var lattice := if a.None? then fromBondLength(bondLength.value) else a.value;
      if (save || use) && !hasPrimitiveIndex then Err(ValueError) else Ok(lattice)
  }

  /** The keys of `at.params`: 'strain_inv_%d' and 'rotation_inv_%d' for a
      primitive index. */
  datatype ParamKey = StrainInv(k: int) | RotationInv(k: int)

  type Params = map<ParamKey, Mat3>

  /** `if key not in at.params: at.params[key] = value`. */
  function SaveFirst(params: Params, key: ParamKey, value: Mat3): (p: Params)
    ensures p.Keys == params.Keys + {key}
    ensures forall k :: k in params ==> p[k] == params[k]
    ensures key !in params ==> p[key] == value
  {
    if key in params then params else params[key := value]
  }

  /** `at.params[key]`, a KeyError when the key is missing. */
  function Lookup(params: Params, key: ParamKey): (r: Result<Mat3>)
    ensures r.Ok? <==> key in params
    ensures r.Ok? ==> r.value == params[key]
    ensures r.Err? ==> r.error == KeyError
  {
    if key in params then Ok(params[key]) else Err(KeyError)
  }

  /** A value saved under a key is found there, and a later save under the
      same key leaves it in place. */
  lemma SaveThenLookup(params: Params, key: ParamKey, first: Mat3, second: Mat3)
    ensures Lookup(SaveFirst(params, key, first), key).Ok?
    ensures SaveFirst(SaveFirst(params, key, first), key, second) == SaveFirst(params, key, first)
    ensures key !in params ==> Lookup(SaveFirst(params, key, first), key) == Ok(first)
  {
  }

  /** The frame E of an atom with four neighbours (list `nb`) before the
      clean-up: the three neighbour separations, taken in canonical order. */
  function RawFrame(nb: seq<Neighbour>, prim: Option<seq<int>>, a: real): (e: Mat3)
    requires |nb| == 4 && a != 0.0
    requires prim.Some? ==> forall t :: 0 <= t < 4 ==> 1 <= nb[t].j <= |prim.value|
  {
    CanonicalOrderIsPermutation(nb, prim);
    var (n1, n2, n3) := Separations(nb, CanonicalOrder(nb, prim));
    FrameMatrix(n1, n2, n3, a)
  }

  /** The cleaned frame E of an atom with four neighbours, or None when the
      skip rule fires on the raw frame and the atom is passed over. */
  function AtomFrame(nb: seq<Neighbour>, prim: Option<seq<int>>, a: real, rule: SkipRule): (r: Option<Mat3>)
    requires |nb| == 4 && a != 0.0
    requires prim.Some? ==> forall t :: 0 <= t < 4 ==> 1 <= nb[t].j <= |prim.value|
    ensures r.None? <==> Skips(rule, RawFrame(nb, prim, a))
  {
    var e := RawFrame(nb, prim, a);
    if Skips(rule, e) then None else Some(CleanFrame(e))
  }
  /** The raw frame of the ideal diamond tetrahedron is -rotXYZ. */
  lemma IdealRawFrame()
    ensures RawFrame(IdealNeighbours(), None, 4.0) == [0.0, -1.0, 0.0, 0.0, 0.0, -1.0, -1.0, 0.0, 0.0]
  {
    IdealFrame();
    var nb := IdealNeighbours();
    var (n1, n2, n3) := Separations(nb, [1, 2, 3, 4]);
    assert RawFrame(nb, None, 4.0) == FrameMatrix(n1, n2, n3, 4.0);
  }

  /** The written skip rule passes the ideal tetrahedron over, the
      corrected rule keeps its frame. */
  lemma IdealAtomFrame()
    ensures AtomFrame(IdealNeighbours(), None, 4.0, AsWritten).None?
    ensures AtomFrame(IdealNeighbours(), None, 4.0, Corrected).Some?
  {
    IdealAtomSkips();
  }

  lemma IdealAtomSkips()
    ensures Skips(AsWritten, RawFrame(IdealNeighbours(), None, 4.0))
    ensures !Skips(Corrected, RawFrame(IdealNeighbours(), None, 4.0))
  {
    var e: Mat3 := [0.0, -1.0, 0.0, 0.0, 0.0, -1.0, -1.0, 0.0, 0.0];
    assert RawFrame(IdealNeighbours(), None, 4.0) == e by {
      IdealRawFrame();
    }
    assert SkipAsWritten(e) && !SkipCorrected(e) by {
      SkipAsWrittenDiscardsIdealFrame();
    }
  }


  /** `(M + M.T)/2.0`. */
  function Symmetrised(m: Mat3): (s: Mat3)
    ensures forall i: Ix, j: Ix :: At(s, i, j) == 0.5 * (At(m, i, j) + At(m, j, i))
  {
    Scale(0.5, Add(m, Transpose(m)))
  }

  /** Symmetrising gives a symmetric matrix and leaves a symmetric matrix
      as it is. */
  lemma SymmetrisedIsSymmetric(m: Mat3)
    ensures Symmetric(Symmetrised(m))
    ensures Symmetric(m) ==> Symmetrised(m) == m
  {
    var s := Symmetrised(m);
    forall i: Ix, j: Ix ensures At(s, i, j) == At(s, j, i) {
      assert At(s, i, j) == 0.5 * (At(m, i, j) + At(m, j, i));
      assert At(s, j, i) == 0.5 * (At(m, j, i) + At(m, i, j));
    }
    if Symmetric(m) {
      forall i: Ix, j: Ix ensures At(s, i, j) == At(m, i, j) {
        assert At(s, i, j) == 0.5 * (At(m, i, j) + At(m, j, i));
      }
      MatExt(s, m);
    }
  }

  /** The stress of one atom in the crystal frame: C . strain_vector(Rt S R),
      as a stress matrix. */
  function CrystalStress(cij: Mat6, s: Mat3, r: Mat3): (sig: Mat3)
  {
    StressMatrix(MatVec6(cij, StrainVector(Mul(Mul(Transpose(r), s), r))))
  }

  /** The crystal-frame stress is the symmetric tensor whose Voigt vector is
      C times the Voigt strain of Rt S R. */
  lemma CrystalStressVoigt(cij: Mat6, s: Mat3, r: Mat3)
    ensures Symmetric(CrystalStress(cij, s, r))
    ensures StressVector(CrystalStress(cij, s, r)) == MatVec6(cij, StrainVector(Mul(Mul(Transpose(r), s), r)))
  {
    StressVectorOfMatrix(MatVec6(cij, StrainVector(Mul(Mul(Transpose(r), s), r))));
  }

  /** `stress_vector((R sig Rt + (R sig Rt).T)/2)`: the crystal-frame
      stress rotated back to the sample frame and symmetrised. */
  function SampleStress(cij: Mat6, s: Mat3, r: Mat3): (v: Vec6)
  {
    StressVector(Symmetrised(Mul(Mul(r, CrystalStress(cij, s, r)), Transpose(r))))
  }

  /** The stored stress vector holds the whole symmetrised tensor: reading
      it back with stress_matrix gives that tensor, so nothing is lost by
      storing six components. */
  lemma SampleStressIsTheSymmetrisedTensor(cij: Mat6, s: Mat3, r: Mat3)
    ensures StressMatrix(SampleStress(cij, s, r)) == Symmetrised(Mul(Mul(r, CrystalStress(cij, s, r)), Transpose(r)))
  {
    SymmetrisedIsSymmetric(Mul(Mul(r, CrystalStress(cij, s, r)), Transpose(r)));
    StressMatrixOfVector(Symmetrised(Mul(Mul(r, CrystalStress(cij, s, r)), Transpose(r))));
  }

  /** `0.5*np.dot(strain, stress)`. */
  function EnergyDensity(strain: Vec6, stress: Vec6): (w: real)
  {
    0.5 * Dot(strain, stress)
  }

  /** The double contraction (S - 1) : sig of a deformation S with a stress
      tensor, summed over all nine index pairs. */
  function StrainContraction(s: Mat3, sig: Mat3): (w: real)
  {
    (At(s, 1, 1) - 1.0) * At(sig, 1, 1) + (At(s, 2, 2) - 1.0) * At(sig, 2, 2) + (At(s, 3, 3) - 1.0) * At(sig, 3, 3) +
    At(s, 1, 2) * At(sig, 1, 2) + At(s, 2, 1) * At(sig, 2, 1) +
    At(s, 1, 3) * At(sig, 1, 3) + At(s, 3, 1) * At(sig, 3, 1) +
    At(s, 2, 3) * At(sig, 2, 3) + At(s, 3, 2) * At(sig, 3, 2)
  }

  /** With the engineering shears of strain_vector and the plain shears of
      stress_vector, 0.5 * strain . stress is the elastic energy density
      0.5 * (S - 1) : sig of the symmetric tensors they come from. */
  lemma EnergyDensityIsContraction(s: Mat3, sig: Mat3)
    requires Symmetric(s) && Symmetric(sig)
    ensures EnergyDensity(StrainVector(s), StressVector(sig)) == 0.5 * StrainContraction(s, sig)
  {
    SymmetricPairs(s);
    SymmetricPairs(sig);
    var u, v := StrainVector(s), StressVector(sig);
    assert u[3] == 2.0 * At(s, 2, 3) && u[4] == 2.0 * At(s, 1, 3) && u[5] == 2.0 * At(s, 1, 2);
    assert v[3] == At(sig, 2, 3) && v[4] == At(sig, 1, 3) && v[5] == At(sig, 1, 2);
    Dot6(u, v);
  }

  lemma SymmetricPairs(m: Mat3)
    requires Symmetric(m)
    ensures At(m, 2, 1) == At(m, 1, 2) && At(m, 3, 1) == At(m, 1, 3) && At(m, 3, 2) == At(m, 2, 3)
  {
  }

  /** Component-wise sum of a list of 6-vectors. */
  function SumVec(vs: seq<Vec6>): (s: Vec6)
    decreases |vs|
  {
    if |vs| == 0 then [0.0, 0.0, 0.0, 0.0, 0.0, 0.0]
    else VecAdd(SumVec(vs[..|vs| - 1]), vs[|vs| - 1])
  }

  /** `x[:, cols].mean(axis=2)`: the component-wise arithmetic mean of a
      non-empty list of 6-vectors, each listed vector counted once per
      occurrence. */
  function MeanVec(vs: seq<Vec6>): (m: Vec6)
    requires |vs| > 0
  {
    VecScale(1.0 / (|vs| as real), SumVec(vs))
  }

  /** Component p of the sum is the sum of the components p. */
  function SumAt(vs: seq<Vec6>, p: nat): real
    requires p < 6
    decreases |vs|
  {
    if |vs| == 0 then 0.0 else SumAt(vs[..|vs| - 1], p) + vs[|vs| - 1][p]
  }

  lemma {:induction false} SumVecAt(vs: seq<Vec6>, p: nat)
    requires p < 6
    ensures SumVec(vs)[p] == SumAt(vs, p)
    decreases |vs|
  {
    if |vs| > 0 {
      SumVecAt(vs[..|vs| - 1], p);
    }
  }

  /** Sum of m copies of x. */
  lemma {:induction false} SumAtOfCopies(vs: seq<Vec6>, v: Vec6, p: nat)
    requires p < 6
    requires forall t :: 0 <= t < |vs| ==> vs[t] == v
    ensures SumAt(vs, p) == (|vs| as real) * v[p]
    decreases |vs|
  {
    if |vs| > 0 {
      SumAtOfCopies(vs[..|vs| - 1], v, p);
    }
  }

  /** The mean of copies of one vector is that vector. */
  lemma MeanOfCopies(vs: seq<Vec6>, v: Vec6)
    requires |vs| > 0
    requires forall t :: 0 <= t < |vs| ==> vs[t] == v
    ensures MeanVec(vs) == v
  {
    forall p | 0 <= p < 6 ensures MeanVec(vs)[p] == v[p] {
      SumVecAt(vs, p);
      SumAtOfCopies(vs, v, p);
      DivideCount(|vs| as real, v[p]);
    }
  }

  lemma DivideCount(m: real, x: real)
    requires m > 0.0
    ensures 1.0 / m * (m * x) == x
  {
  }

  /** Each component of the mean is the component sum over the number of
      vectors. */
  lemma MeanVecAt(vs: seq<Vec6>, p: nat)
    requires |vs| > 0 && p < 6
    ensures MeanVec(vs)[p] == 1.0 / (|vs| as real) * SumAt(vs, p)
  {
    SumVecAt(vs, p);
  }
}
