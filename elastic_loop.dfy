/** `elastic_fields` as the source runs it: the argument checks, then a loop
    over the atoms that computes each four-fold atom in turn and leaves at
    the first exception, then, with `interpolate`, a second loop over the
    atoms. Each loop is proved to compute the pass of the FieldsPass
    module, so every property proved there holds of it. */
module FieldsLoop {
  import opened Outcomes
  import opened ElasticFields
  import opened AtomSteps
  import opened Interpolation
  import opened FieldsPass

  /** Once a first loop over atoms 1..k has raised, the loop over 1..m for
      any m >= k has the same outcome. */
  lemma {:induction false} FourFoldRunStops(st: Structure, opts: Options, poses: seq<Option<Pose>>, num: Numerics,
                                            f: Fields, k: nat, m: nat)
    requires Ready(st, opts, f) && |poses| == |st.neighbours| && k <= m <= |st.neighbours|
    requires FourFoldRun(st, opts, poses, num, f, k).1.Some?
    ensures FourFoldRun(st, opts, poses, num, f, m) == FourFoldRun(st, opts, poses, num, f, k)
    decreases m
  {
    if m > k {
      FourFoldRunStops(st, opts, poses, num, f, k, m - 1);
    }
  }

  /** The same for the second loop. */
  lemma {:induction false} InterpRunStops(st: Structure, opts: Options, num: Numerics, f: Fields, k: nat, m: nat)
    requires Ready(st, opts, f) && k <= m <= |st.neighbours|
    requires InterpRun(st, opts, num, f, k).1.Some?
    ensures InterpRun(st, opts, num, f, m) == InterpRun(st, opts, num, f, k)
    decreases m
  {
    if m > k {
      InterpRunStops(st, opts, num, f, k, m - 1);
    }
  }

  /** The first loop, `for i in frange(at.n)`: an atom that is selected and
      has a frame is computed; an exception ends the loop. */
  method FourFoldLoop(st: Structure, opts: Options, poses: seq<Option<Pose>>, num: Numerics, f: Fields)
    returns (g: Fields, err: Option<Error>)
    requires Ready(st, opts, f) && |poses| == |st.neighbours|
    ensures (g, err) == FourFoldRun(st, opts, poses, num, f, |st.neighbours|)
  {
    var n := |st.neighbours|;
    g, err := f, None;
    var i := 0;
    while i < n
      invariant 0 <= i <= n
      invariant (g, err) == FourFoldRun(st, opts, poses, num, f, i) && err.None?
    {
      FourFoldRunNext(st, opts, poses, num, f, i);
      var turn := FourFoldStep(st, opts, num, g, i + 1, poses[i]);
      g, err := turn.0, turn.1;
      i := i + 1;
      if err.Some? {
        FourFoldRunStops(st, opts, poses, num, f, i, n);
        return;
      }
    }
  }

  /** A run over atoms 1..m+1 without an earlier error is the run over
      1..m followed by the turn at atom m + 1. */
  lemma FourFoldRunNext(st: Structure, opts: Options, poses: seq<Option<Pose>>, num: Numerics, f: Fields, m: nat)
    requires Ready(st, opts, f) && |poses| == |st.neighbours| && m < |st.neighbours|
    requires FourFoldRun(st, opts, poses, num, f, m).1.None?
    ensures FourFoldRun(st, opts, poses, num, f, m + 1) ==
      FourFoldStep(st, opts, num, FourFoldRun(st, opts, poses, num, f, m).0, m + 1, poses[m])
  {
  }

  /** The second loop, `for i in frange(at.n)`: a selected oxygen atom with
      neighbours is interpolated; an exception ends the loop. */
  method InterpLoop(st: Structure, opts: Options, num: Numerics, f: Fields)
    returns (g: Fields, err: Option<Error>)
    requires Ready(st, opts, f)
    ensures (g, err) == InterpRun(st, opts, num, f, |st.neighbours|)
  {
    var n := |st.neighbours|;
    g, err := f, None;
    var i := 0;
    while i < n
      invariant 0 <= i <= n
      invariant (g, err) == InterpRun(st, opts, num, f, i) && err.None?
    {
      var turn := InterpStep(st, opts, num, g, i + 1);
      g, err := turn.0, turn.1;
      i := i + 1;
      if err.Some? {
        InterpRunStops(st, opts, num, f, i, n);
        return;
      }
    }
  }

  /** `elastic_fields(...)`: the checks, the new properties and the two
      loops. */
  method Run(st: Structure, opts: Options, num: Numerics, a: Option<real>, bondLength: Option<real>,
                       fromBondLength: real -> real, f: Fields) returns (g: Fields, err: Option<Error>)
    requires Arguments(st, opts, a, bondLength, fromBondLength, f)
    ensures (g, err) == ElasticFieldsPass(st, opts, num, a, bondLength, fromBondLength, f)
  {
    var checks := Checks(st, opts, a, bondLength, fromBondLength);
    if checks.Err? {
      return f, Some(checks.error);
    }
    var lat := checks.value;
    ComputesIsFourFold(st, opts, num, lat);
    g, err := FourFoldLoop(st, opts, Poses(st, opts.rule, lat, num), num, AddProperties(f, opts.cij.Some?));
    assert (g, err) == FirstLoop(st, opts, num, lat, f);
    if err.None? && opts.interpolate {
      g, err := InterpLoop(st, opts, num, g);
    }
  }
}
