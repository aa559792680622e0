/** `QuippyViewer.set_cutoffs`: one AtomEye bond cutoff for every unordered
    pair of species present, each pair patched once. The species are the
    elements of `set(at.z)` in its iteration order; the call to
    `rcut_patch` is recorded as a Patch. */
module Cutoffs {

  /** The unordered pair of two atomic numbers, as `(min(Z1,Z2), max(Z1,Z2))`. */
  function Key(z1: int, z2: int): (k: (int, int))
    ensures k.0 <= k.1 && (k == (z1, z2) || k == (z2, z1))
  {
    if z1 <= z2 then (z1, z2) else (z2, z1)
  }

  /** The settings set_cutoffs reads: `nneighb_only`, the atoms' `nneightol`,
      `use_uniform_cutoff` and `cutoff`, and QUIP's `bond_length` table. */
  datatype Settings = Settings(nneighbOnly: bool, nneightol: real, useUniform: bool, cutoff: real,
                               bondLength: (int, int) -> real)

  /** The cutoff for a pair: the neighbour tolerance times the bond length,
      the uniform cutoff, or the cutoff relative to the bond length. */
  function PairCutoff(s: Settings, z1: int, z2: int): (c: real)
    ensures s.nneighbOnly ==> c == s.nneightol * s.bondLength(z1, z2)
    ensures !s.nneighbOnly && s.useUniform ==> c == s.cutoff
    ensures !s.nneighbOnly && !s.useUniform ==> c == s.cutoff * s.bondLength(z1, z2)
  {
    if s.nneighbOnly then s.nneightol * s.bondLength(z1, z2)
    else if s.useUniform then s.cutoff
    else s.cutoff * s.bondLength(z1, z2)
  }

  /** `self.rcut_patch(sym1, sym2, cutoff, absolute=True)`, with the species
      as atomic numbers. */
  datatype Patch = Patch(z1: int, z2: int, cutoff: real)

  /** The pairs of the patches in order. */
  function Keys(ps: seq<Patch>): (ks: seq<(int, int)>)
    ensures |ks| == |ps| && forall k :: 0 <= k < |ps| ==> ks[k] == Key(ps[k].z1, ps[k].z2)
  {
    seq(|ps|, k requires 0 <= k < |ps| => Key(ps[k].z1, ps[k].z2))
  }

  /** What the loops keep: `seen` lists the pairs of the patches, once
      each, and every patch is for two present species with the cutoff of
      that pair. */
  ghost predicate Recorded(zs: seq<int>, s: Settings, seen: seq<(int, int)>, patches: seq<Patch>)
  {
    seen == Keys(patches) &&
    (forall k :: 0 <= k < |patches| ==>
      patches[k].z1 in zs && patches[k].z2 in zs && patches[k].cutoff == PairCutoff(s, patches[k].z1, patches[k].z2)) &&
    (forall k, l :: 0 <= k < l < |seen| ==> seen[k] != seen[l])
  }

  /** One turn of the inner loop, for species z1 and z2: the pair is
      patched unless it has been seen. */
  method Visit(zs: seq<int>, s: Settings, seen: seq<(int, int)>, patches: seq<Patch>, z1: int, z2: int)
    returns (seen': seq<(int, int)>, patches': seq<Patch>)
    requires Recorded(zs, s, seen, patches) && z1 in zs && z2 in zs
    ensures Recorded(zs, s, seen', patches')
    ensures Key(z1, z2) in seen' && forall x :: x in seen ==> x in seen'
    ensures Key(z1, z2) in seen ==> seen' == seen && patches' == patches
    ensures Key(z1, z2) !in seen ==> patches' == patches + [Patch(z1, z2, PairCutoff(s, z1, z2))]
  {
    var key := Key(z1, z2);
    if key in seen {
      seen', patches' := seen, patches;
    } else {
      seen' := seen + [key];
      patches' := patches + [Patch(z1, z2, PairCutoff(s, z1, z2))];
      assert seen'[|seen|] == key;
    }
  }

  /** Every pair the loops have met before species a, b (atoms in loop
      order) is in `seen`. */
  ghost predicate Covered(zs: seq<int>, seen: seq<(int, int)>, i: nat, j: nat)
  {
    forall a, b :: 0 <= a < |zs| && 0 <= b < |zs| && (a < i || (a == i && b < j)) ==> Key(zs[a], zs[b]) in seen
  }

  lemma CoveredStep(zs: seq<int>, seen: seq<(int, int)>, seen': seq<(int, int)>, i: nat, j: nat)
    requires i < |zs| && j < |zs| && Covered(zs, seen, i, j)
    requires Key(zs[i], zs[j]) in seen' && forall x :: x in seen ==> x in seen'
    ensures Covered(zs, seen', i, j + 1)
  {
  }

  lemma CoveredRow(zs: seq<int>, seen: seq<(int, int)>, i: nat)
    requires Covered(zs, seen, i, |zs|)
    ensures Covered(zs, seen, i + 1, 0)
  {
  }

  /** The two nested loops over the species, with the `seen` list of pairs
      already patched. Every patch is for two present species with the
      cutoff of that pair, every pair of present species is patched, and no
      pair is patched twice. */
  method SetCutoffs(zs: seq<int>, s: Settings) returns (patches: seq<Patch>)
    ensures forall k :: 0 <= k < |patches| ==>
      patches[k].z1 in zs && patches[k].z2 in zs && patches[k].cutoff == PairCutoff(s, patches[k].z1, patches[k].z2)
    ensures forall a, b :: 0 <= a < |zs| && 0 <= b < |zs| ==> Key(zs[a], zs[b]) in Keys(patches)
    ensures forall k, l :: 0 <= k < l < |patches| ==> Keys(patches)[k] != Keys(patches)[l]
  {
    var seen: seq<(int, int)> := [];
    patches := [];
    var i := 0;
    while i < |zs|
      invariant 0 <= i <= |zs|
      invariant Recorded(zs, s, seen, patches) && Covered(zs, seen, i, 0)
    {
      var j := 0;
      while j < |zs|
        invariant 0 <= j <= |zs|
        invariant Recorded(zs, s, seen, patches) && Covered(zs, seen, i, j)
      {
        var seen', patches' := Visit(zs, s, seen, patches, zs[i], zs[j]);
        CoveredStep(zs, seen, seen', i, j);
        seen, patches := seen', patches';
        j := j + 1;
      }
      CoveredRow(zs, seen, i);
      i := i + 1;
    }
    assert Covered(zs, seen, |zs|, 0);
  }
}
