/** The second loop of `elastic_fields`: with `interpolate`, every selected
    oxygen atom (z == 8) with neighbours gets the mean strain, and with a
    stiffness matrix the mean stress, of its neighbours, then its energy
    density. */
module Interpolation {
  import opened LinAlg
  import opened Outcomes
  import opened Neighbours
  import opened StressEig
  import opened ElasticFields
  import opened AtomSteps

  /** Whether the second loop interpolates atom i. */
  predicate Interpolated(st: Structure, opts: Options, i: nat)
    requires WellFormed(st) && 1 <= i <= |st.neighbours|
    requires opts.mask.Some? ==> |opts.mask.value| == |st.neighbours|
  {
    Selected(opts, i) && st.z[i - 1] == 8 && |st.neighbours[i - 1]| > 0
  }

  /** `x[:, [n.j for n in neighb]]`: the columns of the neighbours, in the
      order of the list and with repetitions. */
  function NeighbourValues(vs: seq<Vec6>, nb: seq<Neighbour>): (r: seq<Vec6>)
    requires forall t :: 0 <= t < |nb| ==> 1 <= nb[t].j <= |vs|
    ensures |r| == |nb| && forall t :: 0 <= t < |nb| ==> r[t] == vs[nb[t].j - 1]
  {
    seq(|nb|, t requires 0 <= t < |nb| => vs[nb[t].j - 1])
  }

  /** Writes the strain of atom i. */
  function StoreStrain(f: Fields, i: nat, v: Vec6): (g: Fields)
    requires 1 <= i <= |f.strain| && Sized(f, |f.strain|)
    ensures Sized(g, |f.strain|) && g.hasStress == f.hasStress && g.params == f.params
    ensures forall t :: 0 <= t < |f.strain| && t != i - 1 ==> Untouched(f, g, t)
    ensures g.strain[i - 1] == v && g.stress == f.stress
  {
    f.(strain := f.strain[i - 1 := v])
  }

  /** Writes the stress of atom i and its eigen data. */
  function StoreMeanStress(f: Fields, i: nat, v: Vec6, num: Numerics): (g: Fields)
    requires 1 <= i <= |f.strain| && Sized(f, |f.strain|)
    ensures Sized(g, |f.strain|) && g.hasStress == f.hasStress && g.params == f.params
    ensures forall t :: 0 <= t < |f.strain| && t != i - 1 ==> Untouched(f, g, t)
    ensures g.strain == f.strain && g.stress[i - 1] == v && g.eigen[i - 1] == EigenOf(num, v)
  {
    f.(stress := f.stress[i - 1 := v], eigen := f.eigen[i - 1 := EigenOf(num, v)])
  }

  /** Writes the energy density of atom i from its strain and stress. */
  function StoreEnergy(f: Fields, i: nat): (g: Fields)
    requires 1 <= i <= |f.strain| && Sized(f, |f.strain|)
    ensures Sized(g, |f.strain|) && g.hasStress == f.hasStress && g.params == f.params
    ensures forall t :: 0 <= t < |f.strain| && t != i - 1 ==> Untouched(f, g, t)
    ensures g.strain == f.strain && g.stress == f.stress && g.eigen == f.eigen
    ensures g.energy[i - 1] == EnergyDensity(f.strain[i - 1], f.stress[i - 1])
  {
    f.(energy := f.energy[i - 1 := EnergyDensity(f.strain[i - 1], f.stress[i - 1])])
  }

  /** What a turn of the second loop may change: the columns of atom i
      (keeping their sizes), never the cache. */
  predicate InterpChanges(st: Structure, opts: Options, f: Fields, g: Fields, i: nat)
    requires Ready(st, opts, f) && 1 <= i <= |st.neighbours|
  {
    Ready(st, opts, g) && g.hasStress == f.hasStress && g.params == f.params &&
    (forall t :: 0 <= t < |st.neighbours| && t != i - 1 ==> Untouched(f, g, t))
  }

  /** One turn of the second loop, at atom i. Without the stress columns
      (no stiffness matrix now or before) the energy write fails with an
      AttributeError after the strain is stored. */
  function InterpStep(st: Structure, opts: Options, num: Numerics, f: Fields, i: nat): (r: (Fields, Option<Error>))
    requires Ready(st, opts, f) && 1 <= i <= |st.neighbours|
    ensures InterpChanges(st, opts, f, r.0, i)
    ensures !Interpolated(st, opts, i) ==> r == (f, None)
    ensures r.1.Some? <==> Interpolated(st, opts, i) && !f.hasStress
    ensures r.1.Some? ==> r.1.value == AttributeError
  {
    if !Interpolated(st, opts, i) then (f, None)
    else InterpAt(st, opts, num, f, i)
  }

  /** The turn at an interpolated atom. */
  function InterpAt(st: Structure, opts: Options, num: Numerics, f: Fields, i: nat): (r: (Fields, Option<Error>))
    requires Ready(st, opts, f) && 1 <= i <= |st.neighbours| && |st.neighbours[i - 1]| > 0
    ensures InterpChanges(st, opts, f, r.0, i)
    ensures r.1.Some? <==> !f.hasStress
    ensures r.1.Some? ==> r.1.value == AttributeError
  {
    var nb := st.neighbours[i - 1];
    var f1 := StoreStrain(f, i, MeanVec(NeighbourValues(f.strain, nb)));
    var f2 := if opts.cij.Some? then StoreMeanStress(f1, i, MeanVec(NeighbourValues(f1.stress, nb)), num) else f1;
    if !f2.hasStress then (f2, Some(AttributeError))
    else (StoreEnergy(f2, i), None)
  }

  /** An interpolated atom gets the mean of its neighbours' strains, and with
      a stiffness matrix the mean of their stresses, with consistent energy
      and eigen data; the means count a neighbour once per occurrence in the
      list. */
  lemma InterpStepValues(st: Structure, opts: Options, num: Numerics, f: Fields, i: nat)
    requires Ready(st, opts, f) && 1 <= i <= |st.neighbours| && Interpolated(st, opts, i)
    ensures var nb := st.neighbours[i - 1]; var g := InterpStep(st, opts, num, f, i).0;
      g.strain[i - 1] == MeanVec(NeighbourValues(f.strain, nb)) &&
      (opts.cij.Some? ==>
        g.stress[i - 1] == MeanVec(NeighbourValues(f.stress, nb)) && Consistent(num, g, i - 1))
  {
  }

  /** The second loop over atoms 1..m, stopping at the first error. */
  function InterpRun(st: Structure, opts: Options, num: Numerics, f: Fields, m: nat): (r: (Fields, Option<Error>))
    requires Ready(st, opts, f) && m <= |st.neighbours|
    ensures Ready(st, opts, r.0) && r.0.hasStress == f.hasStress && r.0.params == f.params
    ensures forall t :: 0 <= t < |st.neighbours| && (t >= m || !Interpolated(st, opts, t + 1)) ==> Untouched(f, r.0, t)
    ensures r.1.Some? ==> r.1.value == AttributeError && !f.hasStress
    ensures f.hasStress ==> r.1.None?
    decreases m
  {
    if m == 0 then (f, None)
    else
      var (g, err) := InterpRun(st, opts, num, f, m - 1);
      if err.Some? then (g, err)
      else
        var (h, e2) := InterpStep(st, opts, num, g, m);
        UntouchedAfterStep(f, g, h, |st.neighbours|, m,
          t => 1 <= t <= |st.neighbours| && Interpolated(st, opts, t));
        (h, e2)
  }

  /** No interpolated atom lists an interpolated atom among its neighbours
      (oxygen atoms sit between four-fold atoms), so the order of the
      second loop does not matter. */
  ghost predicate NeighboursNotInterpolated(st: Structure, opts: Options)
    requires WellFormed(st) && (opts.mask.Some? ==> |opts.mask.value| == |st.neighbours|)
  {
    forall i, t :: 0 <= i < |st.neighbours| && 0 <= t < |st.neighbours[i]| && Interpolated(st, opts, i + 1) ==>
      !Interpolated(st, opts, st.neighbours[i][t].j)
  }

  /** Atom t (0-based) of g holds the interpolated fields computed from the
      columns of f. */
  ghost predicate InterpFacts(st: Structure, opts: Options, num: Numerics, f: Fields, g: Fields, t: nat)
    requires Ready(st, opts, f) && t < |st.neighbours| && Sized(g, |st.neighbours|)
  {
    var nb := st.neighbours[t];
    |nb| > 0 &&
    g.strain[t] == MeanVec(NeighbourValues(f.strain, nb)) &&
    (opts.cij.Some? ==> g.stress[t] == MeanVec(NeighbourValues(f.stress, nb)) && Consistent(num, g, t))
  }

  /** Neighbour columns read from two states that agree on every neighbour. */
  lemma NeighbourValuesAgree(f: Fields, g: Fields, nb: seq<Neighbour>)
    requires Sized(f, |f.strain|) && Sized(g, |f.strain|)
    requires forall t :: 0 <= t < |nb| ==> 1 <= nb[t].j <= |f.strain| && Untouched(f, g, nb[t].j - 1)
    ensures NeighbourValues(g.strain, nb) == NeighbourValues(f.strain, nb)
    ensures NeighbourValues(g.stress, nb) == NeighbourValues(f.stress, nb)
  {
  }

  /** After a second loop over atoms 1..m without error, when no
      interpolated atom neighbours another, every interpolated atom holds
      the mean of its neighbours' fields as the first loop left them. */
  lemma {:induction false} InterpRunMeans(st: Structure, opts: Options, num: Numerics, f: Fields, m: nat)
    requires Ready(st, opts, f) && m <= |st.neighbours| && NeighboursNotInterpolated(st, opts)
    ensures var (g, err) := InterpRun(st, opts, num, f, m);
      err.None? ==> forall t :: 0 <= t < m && Interpolated(st, opts, t + 1) ==> InterpFacts(st, opts, num, f, g, t)
    decreases m
  {
    if m > 0 {
      InterpRunMeans(st, opts, num, f, m - 1);
      var (g, err) := InterpRun(st, opts, num, f, m - 1);
      if err.None? {
        var (h, e2) := InterpStep(st, opts, num, g, m);
        if e2.None? && Interpolated(st, opts, m) {
          InterpStepValues(st, opts, num, g, m);
          var nb := st.neighbours[m - 1];
          forall t | 0 <= t < |nb| ensures Untouched(f, g, nb[t].j - 1) {
            assert !Interpolated(st, opts, nb[t].j);
          }
          NeighbourValuesAgree(f, g, nb);
        }
        InterpStepKeepsFacts(st, opts, num, f, g, h, e2, m);
      }
    }
  }

  /** The induction step of InterpRunMeans, over the states before and
      after the turn at atom m. */
  lemma InterpStepKeepsFacts(st: Structure, opts: Options, num: Numerics, f: Fields, g: Fields, h: Fields, e2: Option<Error>, m: nat)
    requires Ready(st, opts, f) && Ready(st, opts, g) && 1 <= m <= |st.neighbours|
    requires forall t :: 0 <= t < m - 1 && Interpolated(st, opts, t + 1) ==> InterpFacts(st, opts, num, f, g, t)
    requires InterpChanges(st, opts, g, h, m)
    requires e2.None? && Interpolated(st, opts, m) ==> InterpFacts(st, opts, num, f, h, m - 1)
    requires !Interpolated(st, opts, m) ==> h == g
    ensures e2.None? ==> forall t :: 0 <= t < m && Interpolated(st, opts, t + 1) ==> InterpFacts(st, opts, num, f, h, t)
  {
    if e2.None? {
      forall t | 0 <= t < m - 1 && Interpolated(st, opts, t + 1)
        ensures InterpFacts(st, opts, num, f, h, t)
      {
        InterpFactsKept(st, opts, num, f, g, h, t);
      }
    }
  }

  lemma InterpFactsKept(st: Structure, opts: Options, num: Numerics, f: Fields, g: Fields, h: Fields, t: nat)
    requires Ready(st, opts, f) && t < |st.neighbours| && Sized(g, |st.neighbours|) && Sized(h, |st.neighbours|)
    requires InterpFacts(st, opts, num, f, g, t) && Untouched(g, h, t)
    ensures InterpFacts(st, opts, num, f, h, t)
  {
  }
}
