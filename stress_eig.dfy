/** `compute_stress_eig` inside elastic_fields: the eigenvalues of an atom's
    stress matrix in decreasing order, each with its eigenvector. The
    eigen solver itself is a parameter: it gives the eigenvalues D and a
    matrix whose column k is the eigenvector of D[k]. */
module StressEig {
  import opened LinAlg
  import opened Sorting

  /** `order` of `sorted(zip(D, [1,2,3]), reverse=True)`: the column numbers
      sorted by decreasing (eigenvalue, column number). */
  function EigOrder(d: Vec3): (order: seq<int>)
    ensures |order| == 3
  {
    Tags(SortDescending(Tagged(d, 1)))
  }

  /** The order lists every column exactly once. */
  lemma EigOrderIsPermutation(d: Vec3)
    ensures forall k :: 0 <= k < 3 ==> 1 <= EigOrder(d)[k] <= 3
    ensures forall k, l :: 0 <= k < l < 3 ==> EigOrder(d)[k] != EigOrder(d)[l]
  {
    var r := SortDescending(Tagged(d, 1));
    PermutedTaggedEntries(r, d, 1);
    PermutedTagsDistinct(r, d, 1);
  }

  /** Eigenvalues come in decreasing order; equal eigenvalues put the
      larger column number first, as reversed tuple order does. */
  lemma EigOrderDescending(d: Vec3, k: nat, l: nat)
    requires k < l < 3
    ensures var o := EigOrder(d);
      1 <= o[k] <= 3 && 1 <= o[l] <= 3 &&
      (d[o[k] - 1] > d[o[l] - 1] || (d[o[k] - 1] == d[o[l] - 1] && o[k] > o[l]))
  {
    DescendingTaggedPair(SortDescending(Tagged(d, 1)), d, 1, k, l);
  }

  /** `at.stress_eval[:,i]` and `at.stress_evec1..3[:,i]`. */
  datatype Eigen = Eigen(evals: Vec3, evec1: Vec3, evec2: Vec3, evec3: Vec3)

  /** The eigen data of one atom from the solver's D and eigenvector
      matrix v: the sorted eigenvalues, and the columns of v in that order. */
  function StressEigen(d: Vec3, v: Mat3): (e: Eigen)
  {
    EigOrderIsPermutation(d);
    var o := EigOrder(d);
    Eigen([d[o[0] - 1], d[o[1] - 1], d[o[2] - 1]], Column(v, o[0]), Column(v, o[1]), Column(v, o[2]))
  }

  /** The stored eigenvalues are the solver's, rearranged in decreasing
      order, and each stored eigenvector is the solver's eigenvector of the
      eigenvalue stored at the same place. */
  lemma StressEigenSorted(d: Vec3, v: Mat3)
    ensures var e := StressEigen(d, v);
      e.evals[0] >= e.evals[1] >= e.evals[2]
    ensures var e := StressEigen(d, v);
      exists p: Ix, q: Ix, s: Ix :: p != q && q != s && p != s &&
        e.evals == [V3(d, p), V3(d, q), V3(d, s)] &&
        e.evec1 == Column(v, p) && e.evec2 == Column(v, q) && e.evec3 == Column(v, s)
  {
    EigOrderIsPermutation(d);
    EigOrderDescending(d, 0, 1);
    EigOrderDescending(d, 1, 2);
    var o := EigOrder(d);
    var p: Ix, q: Ix, s: Ix := o[0], o[1], o[2];
    assert StressEigen(d, v).evals == [V3(d, p), V3(d, q), V3(d, s)];
  }
}
