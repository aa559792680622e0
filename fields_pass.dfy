/** `elastic_fields` as a whole: the argument checks, the new properties,
    the first loop over four-fold atoms and, with `interpolate`, the second
    loop over oxygen atoms. An exception leaves the atoms object as it was
    at the point of the raise. */
module FieldsPass {
  import opened LinAlg
  import opened Outcomes
  import opened StressEig
  import opened Frame
  import opened Neighbours
  import opened ElasticFields
  import opened AtomSteps
  import opened Interpolation

  /** The eigen data of a freshly added, zero-filled property. */
  function ZeroEigen(): (e: Eigen)
    ensures e.evals == [0.0, 0.0, 0.0] && e.evec1 == e.evals && e.evec2 == e.evals && e.evec3 == e.evals
  {
    Eigen([0.0, 0.0, 0.0], [0.0, 0.0, 0.0], [0.0, 0.0, 0.0], [0.0, 0.0, 0.0])
  }

  /** `add_property` of the stress, eigen and energy columns when a stiffness
      matrix is given: zero-filled when the atoms object lacks them, kept
      when it has them. The strain column is always present in this model. */
  function AddProperties(f: Fields, cij: bool): (g: Fields)
    requires Sized(f, |f.strain|)
    ensures Sized(g, |f.strain|) && g.hasStress == (f.hasStress || cij)
    ensures g.strain == f.strain && g.params == f.params
    ensures f.hasStress || !cij ==> g == f
    ensures !f.hasStress && cij ==> forall t :: 0 <= t < |f.strain| ==>
      g.stress[t] == [0.0, 0.0, 0.0, 0.0, 0.0, 0.0] && g.energy[t] == 0.0 && g.eigen[t] == ZeroEigen()
  {
    var n := |f.strain|;
    if f.hasStress || !cij then f
    else
      f.(stress := seq(n, t => [0.0, 0.0, 0.0, 0.0, 0.0, 0.0]), energy := seq(n, t => 0.0),
         eigen := seq(n, t => ZeroEigen()), hasStress := true)
  }

  /** What elastic_fields needs of its caller in this model: the atoms
      object's columns have one entry per atom, a mask has one flag per
      atom and the lattice constant, given or derived, is not zero. */
  predicate Arguments(st: Structure, opts: Options, a: Option<real>, bondLength: Option<real>,
                      fromBondLength: real -> real, f: Fields)
  {
    WellFormed(st) && Sized(f, |st.neighbours|) &&
    (opts.mask.Some? ==> |opts.mask.value| == |st.neighbours|) &&
    (a.Some? ==> a.value != 0.0) &&
    (bondLength.Some? ==> fromBondLength(bondLength.value) != 0.0)
  }

  /** The argument checks of elastic_fields. */
  function Checks(st: Structure, opts: Options, a: Option<real>, bondLength: Option<real>,
                  fromBondLength: real -> real): (r: Result<real>)
  {
    Validate(a, bondLength, opts.save, opts.use, st.prim.Some?, fromBondLength)
  }

  /** The state after the first loop, for lattice constant lat. */
  function FirstLoop(st: Structure, opts: Options, num: Numerics, lat: real, f: Fields): (r: (Fields, Option<Error>))
    requires WellFormed(st) && Sized(f, |st.neighbours|) && lat != 0.0
    requires (opts.mask.Some? ==> |opts.mask.value| == |st.neighbours|) && ((opts.save || opts.use) ==> st.prim.Some?)
    ensures Ready(st, opts, r.0) && r.0.hasStress == (f.hasStress || opts.cij.Some?)
    ensures CacheStep(f.params, r.0.params, r.1, opts.save, opts.use)
    ensures forall t :: 0 <= t < |st.neighbours| && !FourFold(st, opts, lat, t + 1) ==>
      Untouched(AddProperties(f, opts.cij.Some?), r.0, t)
  {
    var f1 := AddProperties(f, opts.cij.Some?);
    ComputesIsFourFold(st, opts, num, lat);
    FourFoldRun(st, opts, Poses(st, opts.rule, lat, num), num, f1, |st.neighbours|)
  }

  /** `elastic_fields(at, a, bond_length, cij=..., save_reference=...,
      use_reference=..., mask=..., interpolate=...)`: the new state of the
      atoms object and the exception raised, if any. */
  function ElasticFieldsPass(st: Structure, opts: Options, num: Numerics, a: Option<real>, bondLength: Option<real>,
                             fromBondLength: real -> real, f: Fields): (r: (Fields, Option<Error>))
    requires Arguments(st, opts, a, bondLength, fromBondLength, f)
    ensures Sized(r.0, |st.neighbours|)
    ensures r.1 == Some(ValueError) <==> Checks(st, opts, a, bondLength, fromBondLength).Err?
    ensures r.1 == Some(ValueError) ==> r.0 == f
    ensures r.1 != Some(ValueError) ==> r.0.hasStress == (f.hasStress || opts.cij.Some?)
    ensures forall key :: key in f.params ==> key in r.0.params && r.0.params[key] == f.params[key]
    ensures !opts.save ==> r.0.params == f.params
    ensures r.1 == Some(KeyError) ==> opts.use && !opts.save
    ensures r.1 == Some(AttributeError) ==> opts.interpolate && !f.hasStress && opts.cij.None?
    ensures r.1.Some? ==> r.1.value in {ValueError, KeyError, AttributeError}
  {
    match Checks(st, opts, a, bondLength, fromBondLength)
    case Err(e) => (f, Some(e))
    case Ok(lat) =>
      var (g, err) := FirstLoop(st, opts, num, lat, f);
      if err.Some? || !opts.interpolate then (g, err)
      else InterpRun(st, opts, num, g, |st.neighbours|)
  }

  /** Whether the first loop computes atom i: it is selected and has a
      frame. */
  predicate FourFold(st: Structure, opts: Options, lat: real, i: nat)
    requires WellFormed(st) && lat != 0.0 && 1 <= i <= |st.neighbours|
    requires opts.mask.Some? ==> |opts.mask.value| == |st.neighbours|
  {
    Selected(opts, i) && FrameOf(st, opts.rule, lat, i).Some?
  }

  /** Whether the second loop overwrites atom i. */
  predicate Overwritten(st: Structure, opts: Options, i: nat)
    requires WellFormed(st) && 1 <= i <= |st.neighbours|
    requires opts.mask.Some? ==> |opts.mask.value| == |st.neighbours|
  {
    opts.interpolate && Interpolated(st, opts, i)
  }

  lemma ComputesIsFourFold(st: Structure, opts: Options, num: Numerics, lat: real)
    requires WellFormed(st) && lat != 0.0
    requires opts.mask.Some? ==> |opts.mask.value| == |st.neighbours|
    ensures forall i :: 1 <= i <= |st.neighbours| ==>
      (Computes(opts, Poses(st, opts.rule, lat, num), i) <==> FourFold(st, opts, lat, i))
  {
  }

  /** An atom whose four neighbours sit as in the perfect diamond lattice
      (cubic constant 4, no primitive_index): the skip rule as written
      passes it over, so the first loop leaves its columns alone, while the
      corrected rule computes it whenever it is selected. */
  lemma IdealAtomFourFold(st: Structure, opts: Options, i: nat)
    requires WellFormed(st) && 1 <= i <= |st.neighbours|
    requires opts.mask.Some? ==> |opts.mask.value| == |st.neighbours|
    requires st.neighbours[i - 1] == IdealNeighbours() && st.prim.None?
    ensures opts.rule == AsWritten ==> !FourFold(st, opts, 4.0, i)
    ensures opts.rule == Corrected ==> (FourFold(st, opts, 4.0, i) <==> Selected(opts, i))
  {
    IdealFrameOf(st, opts.rule, i);
  }

  /** After a call without exception, an atom that neither loop computes
      keeps its columns as they were once the properties were added. */
  lemma PassLeavesOthers(st: Structure, opts: Options, num: Numerics, a: Option<real>, bondLength: Option<real>,
                         fromBondLength: real -> real, f: Fields, t: nat)
    requires Arguments(st, opts, a, bondLength, fromBondLength, f) && t < |st.neighbours|
    requires ElasticFieldsPass(st, opts, num, a, bondLength, fromBondLength, f).1.None?
    ensures Checks(st, opts, a, bondLength, fromBondLength).Ok?
    ensures var lat := Checks(st, opts, a, bondLength, fromBondLength).value;
      !FourFold(st, opts, lat, t + 1) && !Overwritten(st, opts, t + 1) ==>
        Untouched(AddProperties(f, opts.cij.Some?), ElasticFieldsPass(st, opts, num, a, bondLength, fromBondLength, f).0, t)
  {
    var lat := Checks(st, opts, a, bondLength, fromBondLength).value;
    var g := FirstLoop(st, opts, num, lat, f).0;
    if opts.interpolate {
      var h := InterpRun(st, opts, num, g, |st.neighbours|).0;
      if !FourFold(st, opts, lat, t + 1) && !Overwritten(st, opts, t + 1) {
        assert Untouched(AddProperties(f, opts.cij.Some?), g, t);
        assert Untouched(g, h, t);
      }
    }
  }

  /** After a call without exception, an atom computed by the first loop
      and not overwritten by the second holds the fields of its pose
      (AtomFacts): strain and stress of the polar decomposition of its
      frame, measured against the cached references under use_reference,
      with consistent energy and eigen data. */
  lemma PassFourFoldAtoms(st: Structure, opts: Options, num: Numerics, a: Option<real>, bondLength: Option<real>,
                          fromBondLength: real -> real, f: Fields, t: nat)
    requires Arguments(st, opts, a, bondLength, fromBondLength, f) && t < |st.neighbours|
    requires ElasticFieldsPass(st, opts, num, a, bondLength, fromBondLength, f).1.None?
    ensures Checks(st, opts, a, bondLength, fromBondLength).Ok?
    ensures var lat := Checks(st, opts, a, bondLength, fromBondLength).value;
      FourFold(st, opts, lat, t + 1) && !Overwritten(st, opts, t + 1) ==>
        AtomFacts(st, opts, num, ElasticFieldsPass(st, opts, num, a, bondLength, fromBondLength, f).0, t,
                  PoseOf(num, FrameOf(st, opts.rule, lat, t + 1).value))
  {
    var lat := Checks(st, opts, a, bondLength, fromBondLength).value;
    var (g, err) := FirstLoop(st, opts, num, lat, f);
    FirstLoopAtoms(st, opts, num, lat, f, t);
    if opts.interpolate && FourFold(st, opts, lat, t + 1) && !Overwritten(st, opts, t + 1) {
      var h := InterpRun(st, opts, num, g, |st.neighbours|).0;
      AtomFactsKept(st, opts, num, g, h, t, PoseOf(num, FrameOf(st, opts.rule, lat, t + 1).value));
    }
  }

  /** After a first loop without exception, every atom it computes holds
      the fields of its pose. */
  lemma FirstLoopAtoms(st: Structure, opts: Options, num: Numerics, lat: real, f: Fields, t: nat)
    requires WellFormed(st) && Sized(f, |st.neighbours|) && lat != 0.0 && t < |st.neighbours|
    requires (opts.mask.Some? ==> |opts.mask.value| == |st.neighbours|) && ((opts.save || opts.use) ==> st.prim.Some?)
    ensures var (g, err) := FirstLoop(st, opts, num, lat, f);
      err.None? && FourFold(st, opts, lat, t + 1) ==> AtomFacts(st, opts, num, g, t, PoseOf(num, FrameOf(st, opts.rule, lat, t + 1).value))
  {
    var poses := Poses(st, opts.rule, lat, num);
    ComputesIsFourFold(st, opts, num, lat);
    FourFoldRunAtoms(st, opts, poses, num, AddProperties(f, opts.cij.Some?), |st.neighbours|);
    assert FourFold(st, opts, lat, t + 1) ==> Computes(opts, poses, t + 1);
  }

  /** After a call with `interpolate` and without exception, when no
      interpolated atom neighbours another, every interpolated atom holds
      the mean of its neighbours' fields as the first loop left them. */
  lemma PassInterpolatedAtoms(st: Structure, opts: Options, num: Numerics, a: Option<real>, bondLength: Option<real>,
                              fromBondLength: real -> real, f: Fields, t: nat)
    requires Arguments(st, opts, a, bondLength, fromBondLength, f) && t < |st.neighbours|
    requires ElasticFieldsPass(st, opts, num, a, bondLength, fromBondLength, f).1.None?
    requires NeighboursNotInterpolated(st, opts)
    ensures Checks(st, opts, a, bondLength, fromBondLength).Ok?
    ensures var lat := Checks(st, opts, a, bondLength, fromBondLength).value;
      Overwritten(st, opts, t + 1) ==>
        InterpFacts(st, opts, num, FirstLoop(st, opts, num, lat, f).0,
                    ElasticFieldsPass(st, opts, num, a, bondLength, fromBondLength, f).0, t)
  {
    var lat := Checks(st, opts, a, bondLength, fromBondLength).value;
    PassIsLoops(st, opts, num, a, bondLength, fromBondLength, f);
    if opts.interpolate {
      var g := FirstLoop(st, opts, num, lat, f).0;
      InterpRunMeans(st, opts, num, g, |st.neighbours|);
    }
  }

  /** With the arguments accepted and no exception in the first loop, a call
      with `interpolate` is the second loop run on the first loop's state. */
  lemma PassIsLoops(st: Structure, opts: Options, num: Numerics, a: Option<real>, bondLength: Option<real>,
                    fromBondLength: real -> real, f: Fields)
    requires Arguments(st, opts, a, bondLength, fromBondLength, f)
    requires Checks(st, opts, a, bondLength, fromBondLength).Ok?
    ensures var lat := Checks(st, opts, a, bondLength, fromBondLength).value;
      var (g, err) := FirstLoop(st, opts, num, lat, f);
      err.None? && opts.interpolate ==>
        ElasticFieldsPass(st, opts, num, a, bondLength, fromBondLength, f) == InterpRun(st, opts, num, g, |st.neighbours|)
  {
  }
}
