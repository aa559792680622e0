/** qlab's registry of open viewers: the module-level dictionary
    `_viewers` from names to viewers and the variable `_current_viewer`,
    with the operations that update them and `find_viewer`, which picks
    the viewer for a source. */
module Viewers {
  import opened Outcomes
  import opened ViewerNames

  /** A viewer window. Its name is set once, when it is created. */
  class Viewer {
    const name: string

    constructor (name: string)
      ensures this.name == name
    {
      this.name := name;
    }
  }

  class Registry {
    var viewers: map<string, Viewer>
    var current: Option<Viewer>

    /** Every viewer is registered under its own name. */
    ghost predicate Valid()
      reads this
    {
      forall k :: k in viewers ==> viewers[k].name == k
    }

    /** The state at import: no viewers and no current viewer. */
    constructor ()
      ensures Valid() && viewers == map[] && current == None
    {
      viewers := map[];
      current := None;
    }

    /** `QuippyViewer.__init__`: the new viewer becomes the current one and
        is registered under its name, replacing any viewer of that name. */
    method Open(name: string) returns (v: Viewer)
      requires Valid()
      modifies this
      ensures Valid() && fresh(v) && v.name == name
      ensures viewers == old(viewers)[name := v] && current == Some(v)
      ensures CurrentViewer() == Ok(v)
    {
      v := new Viewer(name);
      current := Some(v);
      viewers := viewers[name := v];
    }

    /** `_close_hook`: the entry under the viewer's name goes, and the
        current viewer is cleared if it is this one. */
    method Close(v: Viewer)
      requires Valid()
      modifies this
      ensures Valid()
      ensures viewers == old(viewers) - {v.name}
      ensures current == if old(current) == Some(v) then None else old(current)
      ensures forall k :: k in viewers ==> viewers[k] != v
      ensures current != Some(v)
    {
      if v.name in viewers {
        viewers := viewers - {v.name};
      }
      if current == Some(v) {
        current := None;
      }
    }

    /** `scv(viewer)`: makes a viewer the current one. */
    method SetCurrent(v: Viewer)
      modifies this
      ensures current == Some(v) && viewers == old(viewers)
    {
      current := Some(v);
    }

    /** `show()` of a viewer makes it the current one before redrawing. */
    method Show(v: Viewer)
      modifies this
      ensures current == Some(v) && viewers == old(viewers)
    {
      SetCurrent(v);
    }

    /** `gcv()`: the current viewer, a ValueError when there is none. */
    function CurrentViewer(): (r: Result<Viewer>)
      reads this
      ensures r.Err? <==> current.None?
      ensures r.Err? ==> r.error == ValueError
      ensures r.Ok? ==> current == Some(r.value)
    {
      match current
      case None => Err(ValueError)
      case Some(v) => Ok(v)
    }

    /** `iterviewers()`: the (name, viewer) pairs of the registry, in no
        particular order. */
    function Pairs(): (r: set<(string, Viewer)>)
      reads this
      ensures forall k :: k in viewers ==> (k, viewers[k]) in r
      ensures forall p :: p in r ==> p.0 in viewers && viewers[p.0] == p.1
    {
      set k | k in viewers :: (k, viewers[k])
    }

    /** The unique-name loop of `find_viewer`: name itself when it is free,
        otherwise '%s_%d' % (name, n) for the smallest n >= 2 that is
        free. */
    method UniqueName(name: string) returns (r: string)
      ensures r !in viewers
      ensures name !in viewers ==> r == name
      ensures name in viewers ==>
        exists n :: (2 <= n <= |viewers| + 1 && r == Numbered(name, n) &&
                     forall m :: 2 <= m < n ==> Numbered(name, m) in viewers)
    {
      var n := 1;
      r := name;
      while r in viewers
        invariant 1 <= n
        invariant r == if n == 1 then name else Numbered(name, n)
        invariant n > 1 ==> name in viewers
        invariant forall m :: 2 <= m < n ==> Numbered(name, m) in viewers
        decreases |viewers| + 1 - n
      {
        NumberedTaken(name, n, viewers.Keys);
        n := n + 1;
        r := Numbered(name, n);
      }
      if n > 1 {
        NumberedTaken(name, n - 1, viewers.Keys);
      }
    }

    /** `find_viewer(source, name, recycle)`: the name (given, or derived
        from the source), made unique when recycling is off; the viewer
        already registered under it, if any, becomes the current one. */
    method FindViewer(source: Source, name: Option<string>, recycle: bool) returns (r: string, v: Option<Viewer>)
      requires Valid()
      modifies this
      ensures Valid() && viewers == old(viewers)
      ensures var base := if name.Some? then name.value else DefaultName(source);
        if recycle || base !in viewers then r == base
        else (r !in viewers &&
              exists n :: (2 <= n <= |viewers| + 1 && r == Numbered(base, n) &&
                           forall m :: 2 <= m < n ==> Numbered(base, m) in viewers))
      ensures v == if r in viewers then Some(viewers[r]) else None
      ensures current == if r in viewers then Some(viewers[r]) else old(current)
      ensures v.Some? ==> v.value.name == r
      ensures !recycle ==> v.None?
    {
      r := if name.Some? then name.value else DefaultName(source);
      if r in viewers && !recycle {
        r := UniqueName(r);
      }
      if r in viewers {
        SetCurrent(viewers[r]);
        v := Some(viewers[r]);
      } else {
        v := None;
      }
    }
  }

  /** The numbered names 2..n of a base name. */
  function NumberedUpTo(name: string, n: nat): (s: set<string>)
  {
    set m | 2 <= m <= n :: Numbered(name, m)
  }

  lemma {:induction false} NumberedUpToSize(name: string, n: nat)
    requires n >= 1
    ensures |NumberedUpTo(name, n)| == n - 1
    decreases n
  {
    if n == 1 {
      assert NumberedUpTo(name, 1) == {};
    } else {
      NumberedUpToSize(name, n - 1);
      NumberedUpToStep(name, n);
      if Numbered(name, n) in NumberedUpTo(name, n - 1) {
        var m :| 2 <= m <= n - 1 && Numbered(name, m) == Numbered(name, n);
        NumberedInjective(name, m, n);
      }
    }
  }

  lemma NumberedUpToStep(name: string, n: nat)
    requires n >= 2
    ensures NumberedUpTo(name, n) == NumberedUpTo(name, n - 1) + {Numbered(name, n)}
  {
    var a, b := NumberedUpTo(name, n), NumberedUpTo(name, n - 1) + {Numbered(name, n)};
    forall x | x in a ensures x in b {
      var m :| 2 <= m <= n && x == Numbered(name, m);
      if m < n {
        assert x in NumberedUpTo(name, n - 1);
      }
    }
    forall x | x in b ensures x in a {
      if x != Numbered(name, n) {
        var m :| 2 <= m <= n - 1 && x == Numbered(name, m);
      }
    }
  }

  /** When a name and its numbered names 2..n are all taken, there are at
      least n taken names. */
  lemma NumberedTaken(name: string, n: nat, taken: set<string>)
    requires n >= 1 && name in taken && forall m :: 2 <= m <= n ==> Numbered(name, m) in taken
    ensures n <= |taken|
  {
    NumberedUpToSize(name, n);
    assert name !in NumberedUpTo(name, n);
    assert NumberedUpTo(name, n) + {name} <= taken;
    SubsetSize(NumberedUpTo(name, n) + {name}, taken);
  }

  lemma {:induction false} SubsetSize<T>(a: set<T>, b: set<T>)
    requires a <= b
    ensures |a| <= |b|
    decreases |b|
  {
    if a != {} {
      var x :| x in a;
      SubsetSize(a - {x}, b - {x});
    }
  }
}
