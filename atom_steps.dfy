/** What one atom's turn in each loop of `elastic_fields` does to the
    per-atom columns of the atoms object and to `at.params`, and what the
    two loops do as a whole: the first over four-fold atoms, the second
    interpolating the fields of oxygen atoms. */
module AtomSteps {
  import opened LinAlg
  import opened Frame
  import opened Voigt
  import opened Outcomes
  import opened Neighbours
  import opened Orientation
  import opened StressEig
  import opened ElasticFields

  /** What elastic_fields reads from the atoms object and never changes:
      the neighbour lists, the atomic numbers and, when present, the
      `primitive_index` property. Atom i (1-based) is entry i - 1. */
  datatype Structure = Structure(neighbours: seq<seq<Neighbour>>, z: seq<int>, prim: Option<seq<int>>)

  predicate WellFormed(st: Structure)
  {
    |st.z| == |st.neighbours| &&
    (forall i, t :: 0 <= i < |st.neighbours| && 0 <= t < |st.neighbours[i]| ==>
      1 <= st.neighbours[i][t].j <= |st.neighbours|) &&
    (st.prim.Some? ==> |st.prim.value| == |st.neighbours|)
  }

  /** The columns elastic_fields writes: `strain`, `stress`, the
      `strain_energy_density` and the eigen data of each atom, whether the
      stress-related properties exist at all, and `at.params`. */
  datatype Fields = Fields(strain: seq<Vec6>, stress: seq<Vec6>, energy: seq<real>, eigen: seq<Eigen>,
                           hasStress: bool, params: Params)

  predicate Sized(f: Fields, n: nat)
  {
    |f.strain| == n && |f.stress| == n && |f.energy| == n && |f.eigen| == n
  }

  /** The keyword arguments that steer the loops, and the skip rule the
      first loop applies to degenerate frames. */
  datatype Options = Options(cij: Option<Mat6>, save: bool, use: bool, mask: Option<seq<bool>>, interpolate: bool,
                             rule: SkipRule)

  /** What a loop may assume, having passed the argument checks. */
  predicate Ready(st: Structure, opts: Options, f: Fields)
  {
    WellFormed(st) && Sized(f, |st.neighbours|) &&
    ((opts.save || opts.use) ==> st.prim.Some?) &&
    (opts.mask.Some? ==> |opts.mask.value| == |st.neighbours|) &&
    (opts.cij.Some? ==> f.hasStress)
  }

  /** `mask is None or mask[i]`. */
  predicate Selected(opts: Options, i: nat)
    requires 1 <= i
    requires opts.mask.Some? ==> i <= |opts.mask.value|
  {
    opts.mask.None? || opts.mask.value[i - 1]
  }

  /** `at.primitive_index[i]`, the k of the cache keys. */
  function PrimKey(st: Structure, i: nat): int
    requires 1 <= i && (st.prim.Some? ==> i <= |st.prim.value|)
  {
    if st.prim.Some? then st.prim.value[i - 1] else 0
  }

  /** `compute_stress_eig` on a stress vector. */
  function EigenOf(num: Numerics, sv: Vec6): Eigen
  {
    var (d, v) := num.eig(StressMatrix(sv));
    StressEigen(d, v)
  }

  /** Lines 363-369: save inv(S) under 'strain_inv_k' unless the key is
      there, then, with use_reference, S . at.params['strain_inv_k']. The
      cache comes back even when the lookup fails. */
  function ReferenceStrain(params: Params, k: int, s: Mat3, inv: Mat3 -> Mat3, save: bool, use: bool): (r: (Params, Result<Mat3>))
  {
    var p := if save then SaveFirst(params, StrainInv(k), inv(s)) else params;
    if !use then (p, Ok(s))
    else match Lookup(p, StrainInv(k))
      case Err(e) => (p, Err(e))
      case Ok(m) => (p, Ok(Mul(s, m)))
  }

  /** Lines 383-389: the same for R, saving R.T under 'rotation_inv_k' and
      using R . at.params['rotation_inv_k']. */
  function ReferenceRotation(params: Params, k: int, r: Mat3, save: bool, use: bool): (res: (Params, Result<Mat3>))
  {
    var p := if save then SaveFirst(params, RotationInv(k), Transpose(r)) else params;
    if !use then (p, Ok(r))
    else match Lookup(p, RotationInv(k))
      case Err(e) => (p, Err(e))
      case Ok(m) => (p, Ok(Mul(r, m)))
  }

  /** Lines 397-409 for atom i, with strain S and rotation R. */
  function StressAt(f: Fields, i: nat, cij: Mat6, s: Mat3, r: Mat3, num: Numerics): (g: Fields)
    requires 1 <= i <= |f.strain| && Sized(f, |f.strain|)
  {
    StoreStress(f, i, SampleStress(cij, s, r), num)
  }

  /** Stores stress vector sv of atom i, its energy density and its eigen
      data. */
  function StoreStress(f: Fields, i: nat, sv: Vec6, num: Numerics): (g: Fields)
    requires 1 <= i <= |f.strain| && Sized(f, |f.strain|)
  {
    f.(stress := f.stress[i - 1 := sv],
       energy := f.energy[i - 1 := EnergyDensity(f.strain[i - 1], sv)],
       eigen := f.eigen[i - 1 := EigenOf(num, sv)])
  }

  lemma StoreStressFacts(st: Structure, opts: Options, f: Fields, i: nat, sv: Vec6, num: Numerics)
    requires Ready(st, opts, f) && 1 <= i <= |st.neighbours|
    ensures TurnChanges(st, opts, f, StoreStress(f, i, sv, num), None, i)
  {
  }

  /** Lines 363-372 for atom i: the strain reference, then
      `at.strain[:,i] = strain_vector(S)`; S is passed on. */
  function StrainStage(st: Structure, opts: Options, f: Fields, i: nat, s0: Mat3, inv: Mat3 -> Mat3): (r: (Fields, Result<Mat3>))
    requires Ready(st, opts, f) && 1 <= i <= |st.neighbours|
  {
    var (p1, rs) := ReferenceStrain(f.params, PrimKey(st, i), s0, inv, opts.save, opts.use);
    if rs.Err? then (f.(params := p1), rs)
    else (f.(params := p1, strain := f.strain[i - 1 := StrainVector(rs.value)]), rs)
  }

  /** Lines 383-389 for atom i, with the rotation already oriented; R is
      passed on. */
  function RotationStage(st: Structure, opts: Options, f: Fields, i: nat, r1: Mat3): (r: (Fields, Result<Mat3>))
    requires Ready(st, opts, f) && 1 <= i <= |st.neighbours|
  {
    var (p2, rr) := ReferenceRotation(f.params, PrimKey(st, i), r1, opts.save, opts.use);
    (f.(params := p2), rr)
  }

  /** What the first loop derives from an atom's frame E before it looks at
      the cache: S of the polar decomposition E = S R, and R cycled by the
      permutation test. */
  datatype Pose = Pose(s: Mat3, r: Mat3)

  function PoseOf(num: Numerics, e: Mat3): (p: Pose)
  {
    var (s0, r0) := num.polar(e);
    Pose(s0, Orient(r0, FirstColumnOfRtE(r0, e)))
  }

  /** The oriented rotation is R or R with its rows cycled, and keeps R's
      column products (so it is a rotation when R is). */
  lemma PoseOfRotation(num: Numerics, e: Mat3)
    ensures var r0 := num.polar(e).1; var r := PoseOf(num, e).r;
      Gram(r) == Gram(r0) && (r == r0 || r == Mul(RotXYZ(), r0) || r == Mul(RotXYZT(), r0))
  {
    var (s0, r0) := num.polar(e);
    OrientKeepsGram(r0, FirstColumnOfRtE(r0, e));
  }

  /** One turn of the first loop, at atom i with pose (S, R). */
  function FrameStep(st: Structure, opts: Options, num: Numerics, f: Fields, i: nat, pose: Pose): (r: (Fields, Option<Error>))
    requires Ready(st, opts, f) && 1 <= i <= |st.neighbours|
    ensures TurnChanges(st, opts, f, r.0, r.1, i)
  {
    var (f1, rs) := StrainStage(st, opts, f, i, pose.s, num.inv);
    StrainStageFacts(st, opts, f, i, pose.s, num.inv);
    if rs.Err? then (f1, Some(rs.error))
    else
      var (f2, rr) := RotationStage(st, opts, f1, i, pose.r);
      RotationStageFacts(st, opts, f1, i, pose.r);
      TurnChangesTwice(st, opts, f, f1, f2, None, if rr.Err? then Some(rr.error) else None, i);
      if rr.Err? then (f2, Some(rr.error))
      else
        match opts.cij
        case None => (f2, None)
        case Some(c) =>
          StressAtFacts(st, opts, f2, i, c, rs.value, rr.value, num);
          TurnChangesTwice(st, opts, f, f2, StressAt(f2, i, c, rs.value, rr.value, num), None, None, i);
          (StressAt(f2, i, c, rs.value, rr.value, num), None)
  }

  /** The frame of atom i, or None when the first loop leaves the atom alone
      whatever the options: it has not exactly four neighbours, or its frame
      is degenerate. */
  function FrameOf(st: Structure, rule: SkipRule, a: real, i: nat): (r: Option<Mat3>)
    requires WellFormed(st) && a != 0.0 && 1 <= i <= |st.neighbours|
    ensures |st.neighbours[i - 1]| != 4 ==> r.None?
    ensures |st.neighbours[i - 1]| == 4 ==>
      (r.None? <==> Skips(rule, RawFrame(st.neighbours[i - 1], st.prim, a)))
  {
    var nb := st.neighbours[i - 1];
    if |nb| != 4 then None else AtomFrame(nb, st.prim, a, rule)
  }

  /** An atom whose neighbours sit as in the ideal tetrahedron has no frame
      under the written skip rule and one under the corrected rule. */
  lemma IdealFrameOf(st: Structure, rule: SkipRule, i: nat)
    requires WellFormed(st) && 1 <= i <= |st.neighbours|
    requires st.neighbours[i - 1] == IdealNeighbours() && st.prim.None?
    ensures rule == AsWritten ==> FrameOf(st, rule, 4.0, i).None?
    ensures rule == Corrected ==> FrameOf(st, rule, 4.0, i).Some?
  {
    assert FrameOf(st, rule, 4.0, i) == AtomFrame(IdealNeighbours(), None, 4.0, rule);
    IdealAtomFrame();
  }

  /** The poses of all atoms, None where there is no frame; they do not
      depend on the cache. */
  function Poses(st: Structure, rule: SkipRule, a: real, num: Numerics): (ps: seq<Option<Pose>>)
    requires WellFormed(st) && a != 0.0
    ensures |ps| == |st.neighbours|
    ensures forall t :: 0 <= t < |st.neighbours| ==>
      ps[t] == if FrameOf(st, rule, a, t + 1).Some? then Some(PoseOf(num, FrameOf(st, rule, a, t + 1).value)) else None
  {
    seq(|st.neighbours|, t requires 0 <= t < |st.neighbours| =>
      if FrameOf(st, rule, a, t + 1).Some? then Some(PoseOf(num, FrameOf(st, rule, a, t + 1).value)) else None)
  }

  /** The per-atom outputs agree with each other: the energy density is
      that of the stored strain and stress, and the eigen data are those of
      the stored stress. */
  predicate Consistent(num: Numerics, f: Fields, t: nat)
    requires t < |f.strain| && Sized(f, |f.strain|)
  {
    f.energy[t] == EnergyDensity(f.strain[t], f.stress[t]) && f.eigen[t] == EigenOf(num, f.stress[t])
  }

  /** A turn at atom i fails exactly when use_reference is given without
      save_reference and one of the atom's two cache entries is missing. */
  lemma FrameStepFails(st: Structure, opts: Options, num: Numerics, f: Fields, i: nat, pose: Pose)
    requires Ready(st, opts, f) && 1 <= i <= |st.neighbours|
    ensures var k := PrimKey(st, i);
      FrameStep(st, opts, num, f, i, pose).1.Some? <==>
        opts.use && !opts.save && (StrainInv(k) !in f.params || RotationInv(k) !in f.params)
  {
  }

  /** With save_reference the atom's two cache entries exist afterwards. */
  lemma FrameStepSaves(st: Structure, opts: Options, num: Numerics, f: Fields, i: nat, pose: Pose)
    requires Ready(st, opts, f) && 1 <= i <= |st.neighbours| && opts.save
    ensures var k := PrimKey(st, i); var g := FrameStep(st, opts, num, f, i, pose).0;
      StrainInv(k) in g.params && RotationInv(k) in g.params
  {
  }

  /** After a turn without error, the stored strain is that of S, measured
      against the cached reference when use_reference is given. */
  lemma FrameStepStrain(st: Structure, opts: Options, num: Numerics, f: Fields, i: nat, pose: Pose)
    requires Ready(st, opts, f) && 1 <= i <= |st.neighbours|
    requires FrameStep(st, opts, num, f, i, pose).1.None?
    ensures var k := PrimKey(st, i); var g := FrameStep(st, opts, num, f, i, pose).0;
      if opts.use then StrainInv(k) in g.params && g.strain[i - 1] == StrainVector(Mul(pose.s, g.params[StrainInv(k)]))
      else g.strain[i - 1] == StrainVector(pose.s)
  {
  }

  /** With a stiffness matrix, a turn without error stores the sample-frame
      stress of S and R, both measured against the cached references when
      use_reference is given. */
  lemma FrameStepStress(st: Structure, opts: Options, num: Numerics, f: Fields, i: nat, pose: Pose)
    requires Ready(st, opts, f) && 1 <= i <= |st.neighbours| && opts.cij.Some?
    requires FrameStep(st, opts, num, f, i, pose).1.None?
    ensures var k := PrimKey(st, i); var g := FrameStep(st, opts, num, f, i, pose).0;
      if opts.use then
        StrainInv(k) in g.params && RotationInv(k) in g.params &&
        g.stress[i - 1] == SampleStress(opts.cij.value, Mul(pose.s, g.params[StrainInv(k)]), Mul(pose.r, g.params[RotationInv(k)]))
      else g.stress[i - 1] == SampleStress(opts.cij.value, pose.s, pose.r)
  {
  }

  /** With a stiffness matrix, the atom's outputs are consistent afterwards. */
  lemma FrameStepConsistent(st: Structure, opts: Options, num: Numerics, f: Fields, i: nat, pose: Pose)
    requires Ready(st, opts, f) && 1 <= i <= |st.neighbours| && opts.cij.Some?
    requires FrameStep(st, opts, num, f, i, pose).1.None?
    ensures Consistent(num, FrameStep(st, opts, num, f, i, pose).0, i - 1)
  {
    var (f1, rs) := StrainStage(st, opts, f, i, pose.s, num.inv);
    StrainStageFacts(st, opts, f, i, pose.s, num.inv);
    var (f2, rr) := RotationStage(st, opts, f1, i, pose.r);
    StoreStressConsistent(f2, i, SampleStress(opts.cij.value, rs.value, rr.value), num);
  }

  lemma StoreStressConsistent(f: Fields, i: nat, sv: Vec6, num: Numerics)
    requires 1 <= i <= |f.strain| && Sized(f, |f.strain|)
    ensures Consistent(num, StoreStress(f, i, sv, num), i - 1)
  {
  }

  /** What the first loop leaves for a computed atom t with pose p: the
      cache entries under save_reference, the strain and (with a stiffness
      matrix) the stress of p measured against the cached references under
      use_reference, and consistent outputs. */
  ghost predicate AtomFacts(st: Structure, opts: Options, num: Numerics, g: Fields, t: nat, p: Pose)
    requires t < |st.neighbours| && (st.prim.Some? ==> t < |st.prim.value|)
    requires t < |g.strain| && Sized(g, |g.strain|)
  {
    var k := PrimKey(st, t + 1);
    (opts.save ==> StrainInv(k) in g.params && RotationInv(k) in g.params) &&
    (if opts.use then StrainInv(k) in g.params && g.strain[t] == StrainVector(Mul(p.s, g.params[StrainInv(k)]))
     else g.strain[t] == StrainVector(p.s)) &&
    (opts.cij.Some? ==>
      Consistent(num, g, t) &&
      if opts.use then
        RotationInv(k) in g.params &&
        g.stress[t] == SampleStress(opts.cij.value, Mul(p.s, g.params[StrainInv(k)]), Mul(p.r, g.params[RotationInv(k)]))
      else g.stress[t] == SampleStress(opts.cij.value, p.s, p.r))
  }

  /** A turn without error leaves its atom's facts. */
  lemma FrameStepAtomFacts(st: Structure, opts: Options, num: Numerics, f: Fields, i: nat, pose: Pose)
    requires Ready(st, opts, f) && 1 <= i <= |st.neighbours|
    requires FrameStep(st, opts, num, f, i, pose).1.None?
    ensures AtomFacts(st, opts, num, FrameStep(st, opts, num, f, i, pose).0, i - 1, pose)
  {
    FrameStepStrain(st, opts, num, f, i, pose);
    if opts.save {
      FrameStepSaves(st, opts, num, f, i, pose);
    }
    if opts.cij.Some? {
      FrameStepStress(st, opts, num, f, i, pose);
      FrameStepConsistent(st, opts, num, f, i, pose);
    }
  }

  /** Later turns keep an atom's facts: they leave its columns alone and
      never change a cache entry. */
  lemma AtomFactsKept(st: Structure, opts: Options, num: Numerics, g: Fields, h: Fields, t: nat, p: Pose)
    requires t < |st.neighbours| && (st.prim.Some? ==> t < |st.prim.value|)
    requires t < |g.strain| && Sized(g, |g.strain|) && Sized(h, |g.strain|)
    requires AtomFacts(st, opts, num, g, t, p) && Untouched(g, h, t)
    requires forall key :: key in g.params ==> key in h.params && h.params[key] == g.params[key]
    ensures AtomFacts(st, opts, num, h, t, p)
  {
  }

  /** One turn of the first loop, at atom i with its pose: unselected atoms
      and atoms without a frame are left alone. */
  function FourFoldStep(st: Structure, opts: Options, num: Numerics, f: Fields, i: nat, pose: Option<Pose>): (r: (Fields, Option<Error>))
    requires Ready(st, opts, f) && 1 <= i <= |st.neighbours|
    ensures TurnChanges(st, opts, f, r.0, r.1, i)
    ensures !(Selected(opts, i) && pose.Some?) ==> r == (f, None)
  {
    if !Selected(opts, i) || pose.None? then (f, None)
    else FrameStep(st, opts, num, f, i, pose.value)
  }

  /** The cache only grows and never changes an entry; without
      save_reference it stays as it is. A lookup fails only with KeyError,
      only with use_reference and never after a save under the same key. */
  predicate CacheStep(before: Params, after: Params, err: Option<Error>, save: bool, use: bool)
  {
    (forall key :: key in before ==> key in after && after[key] == before[key]) &&
    (!save ==> after == before) &&
    (err.Some? ==> err.value == KeyError && use && !save)
  }

  lemma ReferenceStrainFacts(params: Params, k: int, s: Mat3, inv: Mat3 -> Mat3, save: bool, use: bool)
    ensures var (p, rs) := ReferenceStrain(params, k, s, inv, save, use);
      CacheStep(params, p, if rs.Err? then Some(rs.error) else None, save, use)
  {
  }

  lemma ReferenceRotationFacts(params: Params, k: int, r: Mat3, save: bool, use: bool)
    ensures var (p, rr) := ReferenceRotation(params, k, r, save, use);
      CacheStep(params, p, if rr.Err? then Some(rr.error) else None, save, use)
  {
  }

  /** Keeping the cache's laws over two steps. */
  lemma CacheStepTwice(p0: Params, p1: Params, p2: Params, e1: Option<Error>, e2: Option<Error>, save: bool, use: bool)
    requires CacheStep(p0, p1, e1, save, use) && CacheStep(p1, p2, e2, save, use)
    ensures CacheStep(p0, p2, if e1.Some? then e1 else e2, save, use)
  {
  }

  /** What a turn may change: the columns of atom i (keeping their sizes)
      and the cache, under the cache's laws. */
  predicate TurnChanges(st: Structure, opts: Options, f: Fields, g: Fields, err: Option<Error>, i: nat)
    requires Ready(st, opts, f) && 1 <= i <= |st.neighbours|
  {
    Ready(st, opts, g) && g.hasStress == f.hasStress &&
    (forall t :: 0 <= t < |st.neighbours| && t != i - 1 ==> Untouched(f, g, t)) &&
    CacheStep(f.params, g.params, err, opts.save, opts.use)
  }

  lemma StressAtFacts(st: Structure, opts: Options, f: Fields, i: nat, cij: Mat6, s: Mat3, r: Mat3, num: Numerics)
    requires Ready(st, opts, f) && 1 <= i <= |st.neighbours|
    ensures TurnChanges(st, opts, f, StressAt(f, i, cij, s, r, num), None, i)
  {
    StoreStressFacts(st, opts, f, i, SampleStress(cij, s, r), num);
  }

  lemma StrainStageFacts(st: Structure, opts: Options, f: Fields, i: nat, s0: Mat3, inv: Mat3 -> Mat3)
    requires Ready(st, opts, f) && 1 <= i <= |st.neighbours|
    ensures var (g, rs) := StrainStage(st, opts, f, i, s0, inv);
      TurnChanges(st, opts, f, g, if rs.Err? then Some(rs.error) else None, i)
  {
    ReferenceStrainFacts(f.params, PrimKey(st, i), s0, inv, opts.save, opts.use);
  }

  lemma RotationStageFacts(st: Structure, opts: Options, f: Fields, i: nat, r1: Mat3)
    requires Ready(st, opts, f) && 1 <= i <= |st.neighbours|
    ensures var (g, rr) := RotationStage(st, opts, f, i, r1);
      TurnChanges(st, opts, f, g, if rr.Err? then Some(rr.error) else None, i)
  {
    ReferenceRotationFacts(f.params, PrimKey(st, i), r1, opts.save, opts.use);
  }

  /** Two turns at the same atom change no more than one. */
  lemma TurnChangesTwice(st: Structure, opts: Options, f0: Fields, f1: Fields, f2: Fields, e1: Option<Error>, e2: Option<Error>, i: nat)
    requires Ready(st, opts, f0) && Ready(st, opts, f1) && 1 <= i <= |st.neighbours|
    requires TurnChanges(st, opts, f0, f1, e1, i) && TurnChanges(st, opts, f1, f2, e2, i)
    ensures TurnChanges(st, opts, f0, f2, if e1.Some? then e1 else e2, i)
  {
    CacheStepTwice(f0.params, f1.params, f2.params, e1, e2, opts.save, opts.use);
    forall t | 0 <= t < |st.neighbours| && t != i - 1 ensures Untouched(f0, f2, t) {
      assert Untouched(f0, f1, t) && Untouched(f1, f2, t);
    }
  }

  /** Atom t's columns are the same in f and g. */
  predicate Untouched(f: Fields, g: Fields, t: nat)
    requires t < |f.strain| && Sized(f, |f.strain|) && Sized(g, |f.strain|)
  {
    g.strain[t] == f.strain[t] && g.stress[t] == f.stress[t] &&
    g.energy[t] == f.energy[t] && g.eigen[t] == f.eigen[t]
  }

  /** Whether the first loop computes fields for atom i: it is selected and
      has a pose. */
  predicate Computes(opts: Options, poses: seq<Option<Pose>>, i: nat)
    requires 1 <= i <= |poses|
    requires opts.mask.Some? ==> i <= |opts.mask.value|
  {
    Selected(opts, i) && poses[i - 1].Some?
  }

  /** The first loop over atoms 1..m, stopping at the first error. It keeps
      the loop's assumptions, touches only the atoms it computes, and keeps
      the cache's laws over the whole pass. */
  function FourFoldRun(st: Structure, opts: Options, poses: seq<Option<Pose>>, num: Numerics, f: Fields, m: nat): (r: (Fields, Option<Error>))
    requires Ready(st, opts, f) && |poses| == |st.neighbours| && m <= |st.neighbours|
    ensures Ready(st, opts, r.0) && r.0.hasStress == f.hasStress
    ensures CacheStep(f.params, r.0.params, r.1, opts.save, opts.use)
    ensures forall t :: 0 <= t < |st.neighbours| && (t >= m || !Computes(opts, poses, t + 1)) ==> Untouched(f, r.0, t)
    decreases m
  {
    if m == 0 then (f, None)
    else
      var (g, err) := FourFoldRun(st, opts, poses, num, f, m - 1);
      if err.Some? then (g, err)
      else
        var (h, e2) := FourFoldStep(st, opts, num, g, m, poses[m - 1]);
        CacheStepTwice(f.params, g.params, h.params, err, e2, opts.save, opts.use);
        UntouchedAfterStep(f, g, h, |st.neighbours|, m,
          t => 1 <= t <= |st.neighbours| && Computes(opts, poses, t));
        (h, e2)
  }

  /** Composing the atoms left alone by a pass over 1..m-1 with those left
      alone by the turn at atom m; comp(i) says whether atom i is computed. */
  lemma UntouchedAfterStep(f: Fields, g: Fields, h: Fields, n: nat, m: nat, comp: nat -> bool)
    requires Sized(f, n) && Sized(g, n) && Sized(h, n) && 1 <= m <= n
    requires forall t :: 0 <= t < n && (t >= m - 1 || !comp(t + 1)) ==> Untouched(f, g, t)
    requires forall t :: 0 <= t < n && t != m - 1 ==> Untouched(g, h, t)
    requires !comp(m) ==> h == g
    ensures forall t :: 0 <= t < n && (t >= m || !comp(t + 1)) ==> Untouched(f, h, t)
  {
    forall t | 0 <= t < n && (t >= m || !comp(t + 1)) ensures Untouched(f, h, t) {
      assert Untouched(f, g, t);
      if t != m - 1 {
        assert Untouched(g, h, t);
      }
    }
  }

  /** After a first loop over atoms 1..m without error, every computed atom
      has its facts. */
  lemma {:induction false} FourFoldRunAtoms(st: Structure, opts: Options, poses: seq<Option<Pose>>, num: Numerics, f: Fields, m: nat)
    requires Ready(st, opts, f) && |poses| == |st.neighbours| && m <= |st.neighbours|
    ensures var (g, err) := FourFoldRun(st, opts, poses, num, f, m);
      err.None? ==> forall t :: 0 <= t < m && Computes(opts, poses, t + 1) ==> AtomFacts(st, opts, num, g, t, poses[t].value)
    decreases m
  {
    if m > 0 {
      FourFoldRunAtoms(st, opts, poses, num, f, m - 1);
      var (g, err) := FourFoldRun(st, opts, poses, num, f, m - 1);
      if err.None? {
        var (h, e2) := FourFoldStep(st, opts, num, g, m, poses[m - 1]);
        if e2.None? && Computes(opts, poses, m) {
          FrameStepAtomFacts(st, opts, num, g, m, poses[m - 1].value);
        }
        RunStepKeepsFacts(st, opts, num, poses, g, h, e2, m);
      }
    }
  }

  /** The induction step of FourFoldRunAtoms, over the states before and
      after the turn at atom m. */
  lemma RunStepKeepsFacts(st: Structure, opts: Options, num: Numerics, poses: seq<Option<Pose>>, g: Fields, h: Fields, e2: Option<Error>, m: nat)
    requires Ready(st, opts, g) && |poses| == |st.neighbours| && 1 <= m <= |st.neighbours|
    requires forall t :: 0 <= t < m - 1 && Computes(opts, poses, t + 1) ==> AtomFacts(st, opts, num, g, t, poses[t].value)
    requires TurnChanges(st, opts, g, h, e2, m)
    requires e2.None? && Computes(opts, poses, m) ==> AtomFacts(st, opts, num, h, m - 1, poses[m - 1].value)
    requires !Computes(opts, poses, m) ==> h == g
    ensures e2.None? ==> forall t :: 0 <= t < m && Computes(opts, poses, t + 1) ==> AtomFacts(st, opts, num, h, t, poses[t].value)
  {
    if e2.None? {
      forall t | 0 <= t < m - 1 && Computes(opts, poses, t + 1)
        ensures AtomFacts(st, opts, num, h, t, poses[t].value)
      {
        AtomFactsKept(st, opts, num, g, h, t, poses[t].value);
      }
    }
  }
}
