/** The four nearest neighbours of an atom in a tetrahedral crystal and the
    canonical order elastic_fields puts them in before building the frame. */
module Neighbours {
  import opened LinAlg
  import opened Sorting
  import opened Outcomes
  import opened Frame

  /** One entry of `at.neighbours[i]`: the neighbour's atom index j
      (1-based, as the Fortran arrays of the atoms object are) and the
      separation vector to it. Per-atom arrays are 0-based sequences here,
      so property p of atom j is p[j - 1]. */
  datatype Neighbour = Neighbour(j: nat, diff: Vec3)

  /** `at.primitive_index[n.j]` for each neighbour n, as a sort key. */
  function NeighbourKeys(nb: seq<Neighbour>, prim: seq<int>): (keys: seq<real>)
    requires forall t :: 0 <= t < |nb| ==> 1 <= nb[t].j <= |prim|
    ensures |keys| == |nb|
    ensures forall t :: 0 <= t < |nb| ==> keys[t] == prim[nb[t].j - 1] as real
  {
    seq(|nb|, t requires 0 <= t < |nb| => prim[nb[t].j - 1] as real)
  }

  /** The neighbour numbers (1-based, as `fenumerate` gives them) i1..i4 in
      the order the frame uses: sorted by (primitive index, number) when the
      atoms carry `primitive_index`, list order otherwise. */
  function CanonicalOrder(nb: seq<Neighbour>, prim: Option<seq<int>>): (order: seq<int>)
    requires |nb| == 4
    requires prim.Some? ==> forall t :: 0 <= t < 4 ==> 1 <= nb[t].j <= |prim.value|
    ensures |order| == 4
    ensures prim.None? ==> order == [1, 2, 3, 4]
  {
    match prim
    case None => [1, 2, 3, 4]
    case Some(p) => Tags(Sort(Tagged(NeighbourKeys(nb, p), 1)))
  }

  /** The order is a permutation of 1..4. */
  lemma CanonicalOrderIsPermutation(nb: seq<Neighbour>, prim: Option<seq<int>>)
    requires |nb| == 4
    requires prim.Some? ==> forall t :: 0 <= t < 4 ==> 1 <= nb[t].j <= |prim.value|
    ensures multiset(CanonicalOrder(nb, prim)) == multiset{1, 2, 3, 4}
    ensures forall k :: 0 <= k < 4 ==> 1 <= CanonicalOrder(nb, prim)[k] <= 4
  {
    match prim
    case None =>
    case Some(p) =>
      var keys := NeighbourKeys(nb, p);
      assert Tags(Tagged(keys, 1)) == [1, 2, 3, 4];
      SortedTagsArePermutation(keys, 1);
      PermutedTaggedEntries(Sort(Tagged(keys, 1)), keys, 1);
  }

  /** With primitive indices, the order lists the neighbours by
      nondecreasing primitive index, and neighbours with the same primitive
      index by their number. */
  lemma CanonicalOrderSorted(nb: seq<Neighbour>, p: seq<int>, k: nat, l: nat)
    requires |nb| == 4
    requires forall t :: 0 <= t < 4 ==> 1 <= nb[t].j <= |p|
    requires k < l < 4
    ensures var o := CanonicalOrder(nb, Some(p));
      1 <= o[k] <= 4 && 1 <= o[l] <= 4 &&
      (p[nb[o[k] - 1].j - 1] < p[nb[o[l] - 1].j - 1] || (p[nb[o[k] - 1].j - 1] == p[nb[o[l] - 1].j - 1] && o[k] <= o[l]))
  {
    var keys := NeighbourKeys(nb, p);
    var r := Sort(Tagged(keys, 1));
    PermutedTaggedEntries(r, keys, 1);
    assert Le(r[k], r[l]);
    var o := CanonicalOrder(nb, Some(p));
    assert o[k] == r[k].tag && o[l] == r[l].tag;
    assert keys[o[k] - 1] == p[nb[o[k] - 1].j - 1] as real;
    assert keys[o[l] - 1] == p[nb[o[l] - 1].j - 1] as real;
  }

  /** The separations n1, n2, n3 from the first neighbour in the canonical
      order to the other three. */
  function Separations(nb: seq<Neighbour>, order: seq<int>): (ns: (Vec3, Vec3, Vec3))
    requires |nb| == 4 && |order| == 4
    requires forall k :: 0 <= k < 4 ==> 1 <= order[k] <= 4
  {
    var d1 := nb[order[0] - 1].diff;
    (VecSub(nb[order[1] - 1].diff, d1), VecSub(nb[order[2] - 1].diff, d1), VecSub(nb[order[3] - 1].diff, d1))
  }

  /** The separations of the four neighbours of an atom in a perfect diamond
      lattice of cubic constant 4, in list order. */
  function IdealNeighbours(): (nb: seq<Neighbour>)
    ensures |nb| == 4
  {
    [Neighbour(1, [1.0, 1.0, 1.0]), Neighbour(2, [1.0, -1.0, -1.0]),
     Neighbour(3, [-1.0, 1.0, -1.0]), Neighbour(4, [-1.0, -1.0, 1.0])]
  }

  /** The frame of the perfect lattice is -rotXYZ: a signed permutation
      whose third column has two zero entries. */
  lemma IdealFrame()
    ensures CanonicalOrder(IdealNeighbours(), None) == [1, 2, 3, 4]
    ensures var (n1, n2, n3) := Separations(IdealNeighbours(), [1, 2, 3, 4]);
      FrameMatrix(n1, n2, n3, 4.0) == [0.0, -1.0, 0.0, 0.0, 0.0, -1.0, -1.0, 0.0, 0.0]
  {
  }

}
