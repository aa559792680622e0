/** `AtomResolvedStressField`: a calculator that turns the per-atom stress
    columns left by elastic_fields into per-atom 3x3 stress tensors and their
    total. The numpy slice assignments that fill `sigma` are modelled as
    functions on the stack of per-atom matrices. */
module StressField {
  import opened LinAlg
  import opened Voigt
  import opened Outcomes
  import opened ElasticFields

  /** Which elastic_fields routine fills the atoms' stress columns. */
  datatype Method = Fortran | Python

  /** A reference bulk cell: `bulk.cell[0,0]` and, when it has a calculator,
      the constants `get_elastic_constants(bulk)` returns. */
  datatype Bulk = Bulk(cell00: real, constants: Option<Mat6>)

  datatype Calculator = Calculator(routine: Method, a: Option<real>, cij: Option<Mat6>)

  /** `__init__`: the method name must be "fortran" or "python"; a bulk cell
      replaces the lattice constant and constants, and must carry a
      calculator. */
  function NewCalculator(bulk: Option<Bulk>, a: Option<real>, cij: Option<Mat6>, name: string): (r: Result<Calculator>)
    ensures r.Err? <==> (name != "fortran" && name != "python") || (bulk.Some? && bulk.value.constants.None?)
    ensures r.Err? ==> r.error == if name != "fortran" && name != "python" then ValueError else RuntimeError
    ensures r.Ok? ==> r.value.routine == (if name == "fortran" then Fortran else Python)
    ensures r.Ok? && bulk.None? ==> r.value.a == a && r.value.cij == cij
    ensures r.Ok? && bulk.Some? ==> r.value.a == Some(bulk.value.cell00) && r.value.cij == bulk.value.constants
  {
    if name != "fortran" && name != "python" then Err(ValueError)
    else
      var m := if name == "fortran" then Fortran else Python;
      match bulk
      case None => Ok(Calculator(m, a, cij))
      case Some(b) =>
        if b.constants.None? then Err(RuntimeError) else Ok(Calculator(m, Some(b.cell00), b.constants))
  }

  /** `np.zeros((n, 3, 3))`. */
  function Zeros(n: nat): (sigma: seq<Mat3>)
    ensures |sigma| == n && forall t :: 0 <= t < n ==> sigma[t] == Zero3()
  {
    seq(n, t => Zero3())
  }

  lemma ZeroEntries()
    ensures forall k :: 0 <= k < 9 ==> Zero3()[k] == 0.0
  {
    forall k | 0 <= k < 9 ensures Zero3()[k] == 0.0 {
      PosRowCol(k);
      assert Zero3()[k] == At(Zero3(), Row(k), Col(k));
    }
  }

  /** One matrix with entry (p, q) replaced by x. */
  function SetEntry(m: Mat3, p: Ix, q: Ix, x: real): (r: Mat3)
  {
    m[3 * (p - 1) + (q - 1) := x]
  }

  /** `sigma[:, p, q] = vals`: entry (p, q) of every atom's matrix. */
  function SetComponent(sigma: seq<Mat3>, p: Ix, q: Ix, vals: seq<real>): (r: seq<Mat3>)
    requires |vals| == |sigma|
    ensures |r| == |sigma| && forall t :: 0 <= t < |sigma| ==> r[t] == SetEntry(sigma[t], p, q, vals[t])
  {
    seq(|sigma|, t requires 0 <= t < |sigma| => SetEntry(sigma[t], p, q, vals[t]))
  }

  /** `sigma[:, i, j]`: entry (i, j) of every atom's matrix. */
  function Component(sigma: seq<Mat3>, i: Ix, j: Ix): (vals: seq<real>)
    ensures |vals| == |sigma| && forall t :: 0 <= t < |sigma| ==> vals[t] == At(sigma[t], i, j)
  {
    seq(|sigma|, t requires 0 <= t < |sigma| => At(sigma[t], i, j))
  }

  /** Row k (1-based) of the 6 x n array `atoms.stress`: component k of
      every atom's stress vector. */
  function StressRow(stress: seq<Vec6>, k: VIx): (vals: seq<real>)
    ensures |vals| == |stress| && forall t :: 0 <= t < |stress| ==> vals[t] == V6(stress[t], k)
  {
    seq(|stress|, t requires 0 <= t < |stress| => V6(stress[t], k))
  }

  /** One atom's matrix after `np.zeros` and the assignments of sig_xx,
      sig_yy, sig_zz, sig_yz and sig_xz, stored flat: xx, yy, zz on the
      diagonal, yz at (2, 3), xz at (1, 3), zero elsewhere. */
  function FiveUpper(v: Vec6): (m: Mat3)
  {
    seq(9, k requires 0 <= k < 9 =>
      if k == 0 then v[0] else if k == 4 then v[1] else if k == 8 then v[2]
      else if k == 5 then v[3] else if k == 2 then v[4] else 0.0)
  }

  /** The five assignments, in the order the code makes them, give
      FiveUpper. */
  lemma FiveUpperIsAssignments(v: Vec6)
    ensures SetEntry(SetEntry(SetEntry(SetEntry(SetEntry(Zero3(), 1, 1, V6(v, 1)), 2, 2, V6(v, 2)),
                                       3, 3, V6(v, 3)), 2, 3, V6(v, 4)), 1, 3, V6(v, 5)) == FiveUpper(v)
  {
    ZeroEntries();
    var m := SetEntry(SetEntry(SetEntry(SetEntry(SetEntry(Zero3(), 1, 1, V6(v, 1)), 2, 2, V6(v, 2)),
                                        3, 3, V6(v, 3)), 2, 3, V6(v, 4)), 1, 3, V6(v, 5));
    assert forall k | 0 <= k < 9 :: m[k] == FiveUpper(v)[k];
  }

  /** One atom's matrix with all six upper entries written, in Voigt order
      xx, yy, zz, yz, xz, xy. */
  function UpperMatrix(v: Vec6): (m: Mat3)
  {
    FiveUpper(v)[1 := v[5]]
  }

  /** The sixth assignment, of sig_xy to entry (1, 2), completes the upper
      triangle. */
  lemma UpperMatrixIsAssignment(v: Vec6)
    ensures SetEntry(FiveUpper(v), 1, 2, V6(v, 6)) == UpperMatrix(v)
  {
    var m := SetEntry(FiveUpper(v), 1, 2, V6(v, 6));
    assert forall k | 0 <= k < 9 :: m[k] == UpperMatrix(v)[k];
  }

  /** What the symmetric fill does to one atom's matrix, stored flat:
      entries (2, 1), (3, 2) and (3, 1) take the values of (1, 2), (2, 3)
      and (1, 3); the others are kept. */
  function FillMatrix(m: Mat3): (r: Mat3)
  {
    seq(9, k requires 0 <= k < 9 => if k == 3 then m[1] else if k == 7 then m[5] else if k == 6 then m[2] else m[k])
  }

  /** The three assignments `sigma[:,1,0] = sigma[:,0,1]`,
      `sigma[:,2,1] = sigma[:,1,2]` and `sigma[:,2,0] = sigma[:,0,2]`, in
      that order, give FillMatrix: none of them reads an entry an earlier
      one wrote. Entries (1, 2), (2, 3) and (1, 3) sit at flat positions 1,
      5 and 2. */
  lemma FillMatrixIsAssignments(m: Mat3, m1: Mat3, m2: Mat3, r: Mat3)
    requires m1 == SetEntry(m, 2, 1, m[1]) && m2 == SetEntry(m1, 3, 2, m1[5])
    requires r == SetEntry(m2, 3, 1, m2[2])
    ensures r == FillMatrix(m)
  {
    forall k | 0 <= k < 9 ensures r[k] == FillMatrix(m)[k] {
      assert k == 0 || k == 1 || k == 2 || k == 3 || k == 4 || k == 5 || k == 6 || k == 7 || k == 8;
    }
  }

  /** The fill gives a symmetric matrix whose upper triangle is that of m. */
  lemma FillMatrixSymmetric(m: Mat3)
    ensures Symmetric(FillMatrix(m))
    ensures forall i: Ix, j: Ix :: i <= j ==> At(FillMatrix(m), i, j) == At(m, i, j)
  {
    var r := FillMatrix(m);
    assert r[1] == r[3] && r[2] == r[6] && r[5] == r[7];
    SymmetricByEntries(r);
  }

  /** A matrix is symmetric when its three pairs of mirrored entries agree. */
  lemma SymmetricByEntries(m: Mat3)
    requires m[1] == m[3] && m[2] == m[6] && m[5] == m[7]
    ensures Symmetric(m)
  {
  }

  /** `sigma = np.zeros(...)` and the assignments of sig_xx, sig_yy,
      sig_zz, sig_yz and sig_xz, atom by atom. */
  function FirstFive(stress: seq<Vec6>): (sigma: seq<Mat3>)
    ensures |sigma| == |stress| && forall t :: 0 <= t < |stress| ==> sigma[t] == FiveUpper(stress[t])
  {
    seq(|stress|, t requires 0 <= t < |stress| => FiveUpper(stress[t]))
  }

  /** The six upper entries written from the six stress components. */
  function UpperFromStress(stress: seq<Vec6>): (sigma: seq<Mat3>)
    ensures |sigma| == |stress| && forall t :: 0 <= t < |stress| ==> sigma[t] == UpperMatrix(stress[t])
  {
    seq(|stress|, t requires 0 <= t < |stress| => UpperMatrix(stress[t]))
  }

  /** The symmetric fill of every atom's matrix. */
  function FillSymmetric(sigma: seq<Mat3>): (r: seq<Mat3>)
    ensures |r| == |sigma| && forall t :: 0 <= t < |r| ==> r[t] == FillMatrix(sigma[t])
  {
    seq(|sigma|, t requires 0 <= t < |sigma| => FillMatrix(sigma[t]))
  }

  /** `sigma[0, row] = vals`: row `row` of the first atom's matrix, with
      numpy broadcasting. An empty stack has no first atom (IndexError); a
      row of length 3 is copied and one of length 1 is repeated; any other
      length cannot be broadcast into a row of three, which numpy reports
      as a ValueError. */
  function SetFirstRow(sigma: seq<Mat3>, row: Ix, vals: seq<real>): (r: Result<seq<Mat3>>)
    ensures r.Err? <==> |sigma| == 0 || (|vals| != 1 && |vals| != 3)
    ensures r.Err? ==> r.error == if |sigma| == 0 then IndexError else ValueError
    ensures r.Ok? ==> |r.value| == |sigma| && forall t :: 0 < t < |sigma| ==> r.value[t] == sigma[t]
    ensures r.Ok? ==> r.value[0] == RowSet(sigma[0], row, vals)
  {
    if |sigma| == 0 then Err(IndexError)
    else if |vals| != 1 && |vals| != 3 then Err(ValueError)
    else Ok(sigma[0 := RowSet(sigma[0], row, vals)])
  }

  /** Row `row` of one matrix set to vals, a row of three or one value
      repeated; the other rows are kept. */
  function RowSet(m: Mat3, row: Ix, vals: seq<real>): (r: Mat3)
    requires |vals| == 1 || |vals| == 3
    ensures forall j: Ix :: At(r, row, j) == if |vals| == 3 then vals[j - 1] else vals[0]
    ensures forall i: Ix, j: Ix :: i != row ==> At(r, i, j) == At(m, i, j)
  {
    seq(9, k requires 0 <= k < 9 =>
      if 3 * (row - 1) <= k < 3 * row then (if |vals| == 3 then vals[k - 3 * (row - 1)] else vals[0]) else m[k])
  }

  /** The python branch of `get_stresses` as written, reading
      `atoms.stress` as its six component rows (row p holds component p of
      every atom): rows 1 to 5 go to the entries xx, yy, zz, yz and xz of
      every atom, and row 6, the xy row, goes to `sigma[0,1]`, row 2 of the
      first atom's matrix, instead of to entry (1, 2) of every atom. */
  function GetStressesAsWritten(stress: seq<Vec6>): (r: Result<seq<Mat3>>)
    ensures r.Err? <==> |stress| != 1 && |stress| != 3
    ensures r.Ok? ==> |r.value| == |stress|
  {
    var s6 := SetFirstRow(FirstFive(stress), 2, StressRow(stress, 6));
    if s6.Err? then Err(s6.error) else Ok(FillSymmetric(s6.value))
  }

  /** The python branch as written fails unless there are exactly one or
      three atoms: with none there is no first atom (IndexError), and any
      other number of xy values cannot be broadcast into a row of three
      (ValueError). */
  lemma AsWrittenErrors(stress: seq<Vec6>)
    ensures |stress| == 0 ==> GetStressesAsWritten(stress).Err? && GetStressesAsWritten(stress).error == IndexError
    ensures |stress| > 0 && |stress| != 1 && |stress| != 3 ==>
      GetStressesAsWritten(stress).Err? && GetStressesAsWritten(stress).error == ValueError
  {
  }

  /** Where the python branch as written succeeds, the xy shear stress of
      every atom is lost: entry (1, 2) is zero whatever the stress. */
  lemma AsWrittenLosesShear(stress: seq<Vec6>)
    ensures GetStressesAsWritten(stress).Ok? ==>
      forall t :: 0 <= t < |stress| ==> At(GetStressesAsWritten(stress).value[t], 1, 2) == 0.0
  {
    if GetStressesAsWritten(stress).Ok? {
      forall t | 0 <= t < |stress| ensures At(GetStressesAsWritten(stress).value[t], 1, 2) == 0.0 {
        ShearLostAt(stress, t);
      }
    }
  }

  lemma ShearLostAt(stress: seq<Vec6>, t: nat)
    requires GetStressesAsWritten(stress).Ok? && t < |stress|
    ensures At(GetStressesAsWritten(stress).value[t], 1, 2) == 0.0
  {
    var s5 := FirstFive(stress);
    var s6 := SetFirstRow(s5, 2, StressRow(stress, 6)).value;
    assert GetStressesAsWritten(stress).value[t] == FillMatrix(s6[t]);
    if t == 0 {
      RowKeepsShear(stress[0], StressRow(stress, 6));
    } else {
      FillMatrixSymmetric(FiveUpper(stress[t]));
    }
  }

  /** Row 2 written over the first atom leaves its (1, 2) entry, still zero. */
  lemma RowKeepsShear(v: Vec6, vals: seq<real>)
    requires |vals| == 1 || |vals| == 3
    ensures At(FillMatrix(RowSet(FiveUpper(v), 2, vals)), 1, 2) == 0.0
  {
    FillMatrixSymmetric(RowSet(FiveUpper(v), 2, vals));
    assert At(RowSet(FiveUpper(v), 2, vals), 1, 2) == At(FiveUpper(v), 1, 2);
  }

  /** Three atoms with xy shears 1 and 2 on the first two: the python
      branch as written gives the first atom a zero xy entry where
      `stress_matrix` has 1, and puts the second atom's shear on the first
      atom's yy entry. */
  lemma AsWrittenCounterexample()
    ensures var stress: seq<Vec6> := [[0.0, 0.0, 0.0, 0.0, 0.0, 1.0], [0.0, 0.0, 0.0, 0.0, 0.0, 2.0], [0.0, 0.0, 0.0, 0.0, 0.0, 0.0]];
      var r := GetStressesAsWritten(stress);
      r.Ok? && At(r.value[0], 1, 2) == 0.0 && At(r.value[0], 2, 2) == 2.0 &&
      At(StressMatrix(stress[0]), 1, 2) == 1.0
  {
    var stress: seq<Vec6> := [[0.0, 0.0, 0.0, 0.0, 0.0, 1.0], [0.0, 0.0, 0.0, 0.0, 0.0, 2.0], [0.0, 0.0, 0.0, 0.0, 0.0, 0.0]];
    ShearLostAt(stress, 0);
    var row := StressRow(stress, 6);
    var s6 := SetFirstRow(FirstFive(stress), 2, row).value;
    assert GetStressesAsWritten(stress).value[0] == FillMatrix(s6[0]);
    assert At(s6[0], 2, 2) == row[1];
  }

  /** The first atom's stress vector as the python branch as written leaves
      it: its yy and yz entries hold the xy stresses of the atoms at
      positions 1 and 2 (its own xy, repeated, when it is the only atom),
      and its xy entry is zero. */
  function FirstAtomAsWritten(stress: seq<Vec6>): (v: Vec6)
    requires |stress| == 1 || |stress| == 3
  {
    var xy := (j: nat) requires j < 3 => stress[if |stress| == 1 then 0 else j][5];
    [stress[0][0], xy(1), stress[0][2], xy(2), stress[0][4], 0.0]
  }

  /** Where the python branch as written succeeds, every atom but the first
      gets the stress tensor of its vector with the xy component dropped,
      and the first atom gets the tensor of FirstAtomAsWritten. */
  lemma AsWrittenMatrices(stress: seq<Vec6>)
    ensures GetStressesAsWritten(stress).Ok? ==>
      GetStressesAsWritten(stress).value[0] == StressMatrix(FirstAtomAsWritten(stress))
    ensures GetStressesAsWritten(stress).Ok? ==>
      forall t :: 0 < t < |stress| ==> GetStressesAsWritten(stress).value[t] == StressMatrix(stress[t][5 := 0.0])
  {
    if GetStressesAsWritten(stress).Ok? {
      var s6 := SetFirstRow(FirstFive(stress), 2, StressRow(stress, 6)).value;
      assert GetStressesAsWritten(stress).value == FillSymmetric(s6);
      FirstAtomAsWrittenAt(stress);
      forall t | 0 < t < |stress| ensures GetStressesAsWritten(stress).value[t] == StressMatrix(stress[t][5 := 0.0]) {
        FiveUpperWithoutShear(stress[t]);
      }
    }
  }

  /** Row 2 of the first atom, written with the xy row and filled. */
  lemma FirstAtomAsWrittenAt(stress: seq<Vec6>)
    requires |stress| == 1 || |stress| == 3
    ensures FillMatrix(RowSet(FiveUpper(stress[0]), 2, StressRow(stress, 6))) == StressMatrix(FirstAtomAsWritten(stress))
  {
    var vals := StressRow(stress, 6);
    var m := FillMatrix(RowSet(FiveUpper(stress[0]), 2, vals));
    var w := StressMatrix(FirstAtomAsWritten(stress));
    assert At(RowSet(FiveUpper(stress[0]), 2, vals), 2, 2) == vals[if |vals| == 3 then 1 else 0];
    assert At(RowSet(FiveUpper(stress[0]), 2, vals), 2, 3) == vals[if |vals| == 3 then 2 else 0];
    forall k | 0 <= k < 9 ensures m[k] == w[k] {
      assert k == 0 || k == 1 || k == 2 || k == 3 || k == 4 || k == 5 || k == 6 || k == 7 || k == 8;
    }
  }

  /** The five assignments and the fill give the stress tensor without its
      xy component. */
  lemma FiveUpperWithoutShear(v: Vec6)
    ensures FillMatrix(FiveUpper(v)) == StressMatrix(v[5 := 0.0])
  {
    var m := FillMatrix(FiveUpper(v));
    forall k | 0 <= k < 9 ensures m[k] == StressMatrix(v[5 := 0.0])[k] {
      assert k == 0 || k == 1 || k == 2 || k == 3 || k == 4 || k == 5 || k == 6 || k == 7 || k == 8;
    }
  }

  /** The same assignment with `atoms.stress` iterated atom by atom, along
      its last axis: the six targets take the stress vectors of the first
      six atoms, so unpacking fails (ValueError) unless there are exactly
      six; with six, the sixth atom's six components cannot be broadcast
      into row 2 of the first atom's matrix, which numpy reports as a
      ValueError too. Either way the call raises ValueError. */
  function GetStressesByAtoms(stress: seq<Vec6>): (r: Result<seq<Mat3>>)
    ensures r.Err? && r.error == ValueError
  {
    if |stress| != 6 then Err(ValueError)
    else
      var s1 := SetComponent(Zeros(6), 1, 1, stress[0]);
      var s2 := SetComponent(s1, 2, 2, stress[1]);
      var s3 := SetComponent(s2, 3, 3, stress[2]);
      var s4 := SetComponent(s3, 2, 3, stress[3]);
      var s5 := SetComponent(s4, 1, 3, stress[4]);
      var s6 := SetFirstRow(s5, 2, stress[5]);
      if s6.Err? then Err(s6.error) else assert false; Err(ValueError)
  }

  /** `get_stresses` as evidently intended, which is also what the fortran
      branch does with the columns `sig_xx` ... `sig_xy`: the six upper
      entries from the six stress components, then the symmetric fill. */
  function GetStresses(stress: seq<Vec6>): (sigma: seq<Mat3>)
    ensures |sigma| == |stress|
    ensures forall t :: 0 <= t < |stress| ==> Symmetric(sigma[t])
  {
    var r := FillSymmetric(UpperFromStress(stress));
    forall t | 0 <= t < |stress| ensures Symmetric(r[t]) {
      FillMatrixSymmetric(UpperMatrix(stress[t]));
    }
    r
  }

  /** `sigma[:, p, q] = vals` on the array itself. */
  method SetComponentInPlace(sigma: array<Mat3>, p: Ix, q: Ix, vals: seq<real>)
    requires |vals| == sigma.Length
    modifies sigma
    ensures sigma[..] == SetComponent(old(sigma[..]), p, q, vals)
  {
    forall t | 0 <= t < sigma.Length {
      sigma[t] := SetEntry(sigma[t], p, q, vals[t]);
    }
  }

  /** `np.zeros` and the first five assignments, on a new array. */
  method FirstFiveInPlace(stress: seq<Vec6>) returns (sigma: array<Mat3>)
    ensures fresh(sigma) && sigma[..] == FirstFive(stress)
  {
    sigma := new Mat3[|stress|](t => Zero3());
    ghost var s0 := sigma[..];
    assert s0 == Zeros(|stress|);
    SetComponentInPlace(sigma, 1, 1, StressRow(stress, 1));
    ghost var s1 := sigma[..];
    SetComponentInPlace(sigma, 2, 2, StressRow(stress, 2));
    ghost var s2 := sigma[..];
    SetComponentInPlace(sigma, 3, 3, StressRow(stress, 3));
    ghost var s3 := sigma[..];
    SetComponentInPlace(sigma, 2, 3, StressRow(stress, 4));
    ghost var s4 := sigma[..];
    SetComponentInPlace(sigma, 1, 3, StressRow(stress, 5));
    forall t | 0 <= t < |stress| ensures sigma[t] == FiveUpper(stress[t]) {
      var v := stress[t];
      assert s1[t] == SetEntry(Zero3(), 1, 1, V6(v, 1));
      assert s2[t] == SetEntry(s1[t], 2, 2, V6(v, 2));
      assert s3[t] == SetEntry(s2[t], 3, 3, V6(v, 3));
      assert s4[t] == SetEntry(s3[t], 2, 3, V6(v, 4));
      assert sigma[t] == SetEntry(s4[t], 1, 3, V6(v, 5));
      FiveUpperIsAssignments(v);
    }
    assert sigma[..] == FirstFive(stress);
  }

  /** The symmetric fill on the array itself. */
  method FillInPlace(sigma: array<Mat3>)
    modifies sigma
    ensures sigma[..] == FillSymmetric(old(sigma[..]))
  {
    ghost var s0 := sigma[..];
    SetComponentInPlace(sigma, 2, 1, Component(sigma[..], 1, 2));
    ghost var s1 := sigma[..];
    SetComponentInPlace(sigma, 3, 2, Component(sigma[..], 2, 3));
    ghost var s2 := sigma[..];
    SetComponentInPlace(sigma, 3, 1, Component(sigma[..], 1, 3));
    forall t | 0 <= t < sigma.Length ensures sigma[t] == FillMatrix(s0[t]) {
      assert s1[t] == SetEntry(s0[t], 2, 1, At(s0[t], 1, 2));
      assert s2[t] == SetEntry(s1[t], 3, 2, At(s1[t], 2, 3));
      assert sigma[t] == SetEntry(s2[t], 3, 1, At(s2[t], 1, 3));
      assert At(s0[t], 1, 2) == s0[t][1] && At(s1[t], 2, 3) == s1[t][5] && At(s2[t], 1, 3) == s2[t][2];
      FillMatrixIsAssignments(s0[t], s1[t], s2[t], sigma[t]);
    }
    assert sigma[..] == FillSymmetric(s0);
  }

  /** `get_stresses` as evidently intended, on the array it allocates:
      `np.zeros`, the six upper entries, the three lower ones. */
  method Stresses(stress: seq<Vec6>) returns (sigma: array<Mat3>)
    ensures fresh(sigma) && sigma[..] == GetStresses(stress)
  {
    sigma := FirstFiveInPlace(stress);
    ghost var s5 := sigma[..];
    SetComponentInPlace(sigma, 1, 2, StressRow(stress, 6));
    forall t | 0 <= t < |stress| ensures sigma[t] == UpperMatrix(stress[t]) {
      assert sigma[t] == SetEntry(s5[t], 1, 2, V6(stress[t], 6));
      UpperMatrixIsAssignment(stress[t]);
    }
    assert sigma[..] == UpperFromStress(stress);
    FillInPlace(sigma);
  }

  /** `sigma[0, row] = vals` on the array itself; on an error the array is
      left as it was. */
  method SetFirstRowInPlace(sigma: array<Mat3>, row: Ix, vals: seq<real>) returns (err: Option<Error>)
    modifies sigma
    ensures var r := SetFirstRow(old(sigma[..]), row, vals);
      match r
      case Err(e) => err == Some(e) && sigma[..] == old(sigma[..])
      case Ok(v) => err.None? && sigma[..] == v
  {
    var r := SetFirstRow(sigma[..], row, vals);
    if r.Err? {
      return Some(r.error);
    }
    sigma[0] := r.value[0];
    assert sigma[..] == r.value;
    return None;
  }

  /** The python branch of `get_stresses` as written, on the array it
      allocates; the exception, if any, is returned with the array as it
      was when it was raised. */
  method StressesAsWritten(stress: seq<Vec6>) returns (sigma: array<Mat3>, err: Option<Error>)
    ensures fresh(sigma)
    ensures err.Some? <==> GetStressesAsWritten(stress).Err?
    ensures err.Some? ==> err.value == GetStressesAsWritten(stress).error
    ensures err.None? ==> sigma[..] == GetStressesAsWritten(stress).value
  {
    sigma := FirstFiveInPlace(stress);
    err := SetFirstRowInPlace(sigma, 2, StressRow(stress, 6));
    if err.Some? {
      return;
    }
    FillInPlace(sigma);
  }

  /** The symmetric fill of the six upper entries is `stress_matrix`. */
  lemma FilledUpperIsStressMatrix(v: Vec6)
    ensures FillMatrix(UpperMatrix(v)) == StressMatrix(v)
  {
    var m := FillMatrix(UpperMatrix(v));
    forall k | 0 <= k < 9 ensures m[k] == StressMatrix(v)[k] {
      assert k == 0 || k == 1 || k == 2 || k == 3 || k == 4 || k == 5 || k == 6 || k == 7 || k == 8;
    }
  }

  /** Each atom's tensor is `stress_matrix` of its stress vector, so
      `stress_vector` of it gives the vector back. */
  lemma GetStressesAreStressMatrices(stress: seq<Vec6>, t: nat)
    requires t < |stress|
    ensures GetStresses(stress)[t] == StressMatrix(stress[t])
    ensures StressVector(GetStresses(stress)[t]) == stress[t]
  {
    FilledUpperIsStressMatrix(stress[t]);
    StressVectorOfMatrix(stress[t]);
  }

  /** The calculator's `get_stresses`, given the stress columns that its
      elastic_fields routine leaves in the atoms object; the calculator's
      method, a and cij act only through those columns. */
  function CalculatorStresses(sf: Calculator, stress: seq<Vec6>): (r: seq<Mat3>)
    ensures |r| == |stress| && forall t :: 0 <= t < |stress| ==> r[t] == StressMatrix(stress[t])
  {
    forall t | 0 <= t < |stress| ensures GetStresses(stress)[t] == StressMatrix(stress[t]) {
      GetStressesAreStressMatrices(stress, t);
    }
    GetStresses(stress)
  }

  /** Sum of a stack of matrices, `stresses.sum(axis=0)`. */
  function SumMat(ms: seq<Mat3>): (s: Mat3)
    decreases |ms|
  {
    if |ms| == 0 then Zero3() else Add(SumMat(ms[..|ms| - 1]), ms[|ms| - 1])
  }

  /** `get_stress`: the sum over atoms of the per-atom tensors, a 3x3
      matrix. */
  function CalculatorStress(sf: Calculator, stress: seq<Vec6>): (s: Mat3)
    ensures s == StressMatrix(SumVec(stress))
    ensures StressVector(s) == SumVec(stress)
  {
    var ms := CalculatorStresses(sf, stress);
    SumOfStressMatrices(ms, stress);
    StressVectorOfMatrix(SumVec(stress));
    SumMat(ms)
  }

  /** Summing stress matrices is the stress matrix of the summed vectors. */
  lemma {:induction false} SumOfStressMatrices(ms: seq<Mat3>, stress: seq<Vec6>)
    requires |ms| == |stress| && forall t :: 0 <= t < |ms| ==> ms[t] == StressMatrix(stress[t])
    ensures SumMat(ms) == StressMatrix(SumVec(stress))
    decreases |ms|
  {
    if |ms| == 0 {
      ZeroIsStressMatrix();
    } else {
      var n := |ms| - 1;
      PrefixesAreStressMatrices(ms, stress, n);
      SumOfStressMatrices(ms[..n], stress[..n]);
      SumOfStressMatricesStep(ms, stress);
    }
  }

  /** The induction step: one more matrix on each side. */
  lemma SumOfStressMatricesStep(ms: seq<Mat3>, stress: seq<Vec6>)
    requires |ms| == |stress| > 0 && ms[|ms| - 1] == StressMatrix(stress[|ms| - 1])
    requires SumMat(ms[..|ms| - 1]) == StressMatrix(SumVec(stress[..|ms| - 1]))
    ensures SumMat(ms) == StressMatrix(SumVec(stress))
  {
    var n := |ms| - 1;
    SumStep(SumMat(ms[..n]), SumVec(stress[..n]), ms[n], stress[n]);
  }

  lemma PrefixesAreStressMatrices(ms: seq<Mat3>, stress: seq<Vec6>, n: nat)
    requires n <= |ms| == |stress| && forall t :: 0 <= t < |ms| ==> ms[t] == StressMatrix(stress[t])
    ensures |ms[..n]| == |stress[..n]| && forall t :: 0 <= t < n ==> ms[..n][t] == StressMatrix(stress[..n][t])
  {
  }

  lemma ZeroIsStressMatrix()
    ensures Zero3() == StressMatrix([0.0, 0.0, 0.0, 0.0, 0.0, 0.0])
  {
    MatExt(Zero3(), StressMatrix([0.0, 0.0, 0.0, 0.0, 0.0, 0.0]));
  }

  lemma SumStep(a: Mat3, u: Vec6, m: Mat3, v: Vec6)
    requires a == StressMatrix(u) && m == StressMatrix(v)
    ensures Add(a, m) == StressMatrix(VecAdd(u, v))
  {
    StressMatrixAdd(u, v);
  }

  lemma StressMatrixAdd(u: Vec6, v: Vec6)
    ensures Add(StressMatrix(u), StressMatrix(v)) == StressMatrix(VecAdd(u, v))
  {
    MatExt(Add(StressMatrix(u), StressMatrix(v)), StressMatrix(VecAdd(u, v)));
  }

}
