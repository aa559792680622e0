/** Python's `sorted` on the pairs (key, tag) that elastic_fields sorts:
    (primitive index, neighbour number) to put the four neighbours of an atom
    in a canonical order, and (eigenvalue, column number) to order the
    eigenvectors of the stress. Tuples compare lexicographically. */
module Sorting {

  datatype Keyed = Keyed(key: real, tag: int)

  /** Tuple comparison a <= b. */
  predicate Le(a: Keyed, b: Keyed)
  {
    a.key < b.key || (a.key == b.key && a.tag <= b.tag)
  }

  lemma LeTotal(a: Keyed, b: Keyed)
    ensures Le(a, b) || Le(b, a)
    ensures Le(a, b) && Le(b, a) ==> a == b
  {
  }

  ghost predicate Ascending(s: seq<Keyed>)
  {
    forall i, j :: 0 <= i < j < |s| ==> Le(s[i], s[j])
  }

  ghost predicate Descending(s: seq<Keyed>)
  {
    forall i, j :: 0 <= i < j < |s| ==> Le(s[j], s[i])
  }

  /** Inserts x into an ascending sequence. */
  function Insert(x: Keyed, s: seq<Keyed>): (r: seq<Keyed>)
    requires Ascending(s)
    ensures |r| == |s| + 1
    ensures Ascending(r)
    ensures multiset(r) == multiset(s) + multiset{x}
  {
    if |s| == 0 then [x]
    else if Le(x, s[0]) then [x] + s
    else
      assert Ascending(s[1..]);
      var t := Insert(x, s[1..]);
      assert s == [s[0]] + s[1..];
      assert forall k :: 0 <= k < |t| ==> Le(s[0], t[k]) by {
        forall k | 0 <= k < |t| ensures Le(s[0], t[k]) {
          assert t[k] in multiset(t);
        }
      }
      [s[0]] + t
  }

  /** `sorted(s)`. */
  function Sort(s: seq<Keyed>): (r: seq<Keyed>)
    ensures |r| == |s|
    ensures Ascending(r)
    ensures multiset(r) == multiset(s)
  {
    if |s| == 0 then []
    else
      assert s == s[..|s| - 1] + [s[|s| - 1]];
      Insert(s[|s| - 1], Sort(s[..|s| - 1]))
  }

  function Reverse(s: seq<Keyed>): (r: seq<Keyed>)
    ensures |r| == |s| && forall k :: 0 <= k < |s| ==> r[k] == s[|s| - 1 - k]
  {
    if |s| == 0 then [] else [s[|s| - 1]] + Reverse(s[..|s| - 1])
  }

  lemma {:induction false} ReverseMultiset(s: seq<Keyed>)
    ensures multiset(Reverse(s)) == multiset(s)
  {
    if |s| > 0 {
      ReverseMultiset(s[..|s| - 1]);
      assert s == s[..|s| - 1] + [s[|s| - 1]];
    }
  }

  /** `sorted(s, reverse=True)`. Tuples that compare equal are identical, so
      reversing the ascending order is the descending order. */
  function SortDescending(s: seq<Keyed>): (r: seq<Keyed>)
    ensures |r| == |s|
    ensures Descending(r)
    ensures multiset(r) == multiset(s)
  {
    ReverseMultiset(Sort(s));
    Reverse(Sort(s))
  }

  /** The smallest element of an ascending sequence comes first. */
  lemma {:induction false} AscendingHeadMinimal(s: seq<Keyed>, x: Keyed)
    requires Ascending(s) && x in multiset(s)
    ensures Le(s[0], x)
  {
    var k :| 0 <= k < |s| && s[k] == x;
    if k > 0 {
      assert Le(s[0], s[k]);
    }
  }

  /** An ascending arrangement of a multiset is unique: `sorted` has only one
      possible result. */
  lemma {:induction false} AscendingUnique(s: seq<Keyed>, t: seq<Keyed>)
    requires Ascending(s) && Ascending(t) && multiset(s) == multiset(t)
    ensures s == t
    decreases |s|
  {
    assert |s| == |multiset(s)| == |t|;
    if |s| > 0 {
      assert s[0] in multiset(t) by { assert s[0] in multiset(s); }
      assert t[0] in multiset(s) by { assert t[0] in multiset(t); }
      AscendingHeadMinimal(t, s[0]);
      AscendingHeadMinimal(s, t[0]);
      LeTotal(s[0], t[0]);
      assert s == [s[0]] + s[1..];
      assert t == [t[0]] + t[1..];
      assert s[0] == t[0];
      assert multiset(s) == multiset{s[0]} + multiset(s[1..]);
      assert multiset(t) == multiset{t[0]} + multiset(t[1..]);
      assert multiset(s[1..]) == multiset(s) - multiset{s[0]};
      assert multiset(t[1..]) == multiset(t) - multiset{t[0]};
      assert Ascending(s[1..]) && Ascending(t[1..]);
      AscendingUnique(s[1..], t[1..]);
    }
  }

  /** `Sort` is the ascending arrangement of its input: any ascending
      permutation of s equals Sort(s). */
  lemma SortIsTheAscendingPermutation(s: seq<Keyed>, t: seq<Keyed>)
    requires Ascending(t) && multiset(t) == multiset(s)
    ensures Sort(s) == t
  {
    AscendingUnique(Sort(s), t);
  }

  /** The pairs (keys[i], i) for i in order, `zip(keys, range(|keys|))`. */
  function Tagged(keys: seq<real>, base: int): (r: seq<Keyed>)
    ensures |r| == |keys|
    ensures forall k :: 0 <= k < |r| ==> r[k] == Keyed(keys[k], base + k)
  {
    seq(|keys|, k requires 0 <= k < |keys| => Keyed(keys[k], base + k))
  }

  /** The tags of a sequence of pairs. */
  function Tags(s: seq<Keyed>): (r: seq<int>)
    ensures |r| == |s| && forall k :: 0 <= k < |s| ==> r[k] == s[k].tag
  {
    seq(|s|, k requires 0 <= k < |s| => s[k].tag)
  }

  lemma TagsAppend(u: seq<Keyed>, v: seq<Keyed>)
    ensures Tags(u + v) == Tags(u) + Tags(v)
  {
  }

  /** Permuting pairs permutes their tags. */
  lemma {:induction false} TagsOfPermutation(a: seq<Keyed>, b: seq<Keyed>)
    requires multiset(a) == multiset(b)
    ensures multiset(Tags(a)) == multiset(Tags(b))
    decreases |a|
  {
    if |a| == 0 {
      assert |b| == |multiset(b)| == 0;
    } else {
      var u := a[..|a| - 1];
      var x := a[|a| - 1];
      assert a == u + [x];
      assert x in multiset(b);
      var k :| 0 <= k < |b| && b[k] == x;
      assert b == b[..k] + [x] + b[k + 1..];
      var b' := b[..k] + b[k + 1..];
      assert multiset(b) == multiset(b[..k]) + multiset{x} + multiset(b[k + 1..]);
      assert multiset(a) == multiset(u) + multiset{x};
      assert multiset(b') == multiset(b) - multiset{x};
      assert multiset(u) == multiset(a) - multiset{x};
      TagsOfPermutation(u, b');
      TagsAppend(u, [x]);
      TagsAppend(b[..k], b[k + 1..]);
      TagsAppend(b[..k] + [x], b[k + 1..]);
      TagsAppend(b[..k], [x]);
    }
  }

  /** Sorting tagged keys permutes the tags, so each tag appears exactly once
      in the sorted order. */
  lemma SortedTagsArePermutation(keys: seq<real>, base: int)
    ensures multiset(Tags(Sort(Tagged(keys, base)))) == multiset(Tags(Tagged(keys, base)))
  {
    TagsOfPermutation(Sort(Tagged(keys, base)), Tagged(keys, base));
  }

  /** Every pair in a permutation of the tagged keys is one of them: its
      tag is in range and its key is the key carrying that tag. */
  lemma PermutedTaggedEntries(r: seq<Keyed>, keys: seq<real>, base: int)
    requires multiset(r) == multiset(Tagged(keys, base))
    ensures forall k :: 0 <= k < |r| ==> base <= r[k].tag < base + |keys| && r[k].key == keys[r[k].tag - base]
  {
    forall k | 0 <= k < |r|
      ensures base <= r[k].tag < base + |keys| && r[k].key == keys[r[k].tag - base]
    {
      assert r[k] in multiset(r);
      InTagged(r[k], keys, base);
    }
  }

  lemma InTagged(x: Keyed, keys: seq<real>, base: int)
    requires x in multiset(Tagged(keys, base))
    ensures base <= x.tag < base + |keys| && x.key == keys[x.tag - base]
  {
    var s := Tagged(keys, base);
    assert x in s;
    var m :| 0 <= m < |s| && s[m] == x;
  }

  ghost predicate Distinct<T>(s: seq<T>)
  {
    forall i, j :: 0 <= i < j < |s| ==> s[i] != s[j]
  }

  /** An element occurs at most once in a sequence without repetitions. */
  lemma {:induction false} DistinctCount<T>(s: seq<T>, x: T)
    requires Distinct(s)
    ensures multiset(s)[x] <= 1
    decreases |s|
  {
    if |s| > 0 {
      assert s == [s[0]] + s[1..];
      assert Distinct(s[1..]);
      DistinctCount(s[1..], x);
      if s[0] == x {
        assert x !in s[1..];
      }
    }
  }

  /** An element at two positions occurs at least twice. */
  lemma RepeatedCount<T>(s: seq<T>, k: nat, l: nat)
    requires k < l < |s| && s[k] == s[l]
    ensures multiset(s)[s[k]] >= 2
  {
    assert s == s[..l] + s[l..];
    assert s[k] in s[..l];
    assert s[l] in s[l..];
  }

  /** A permutation of a sequence without repetitions has none. */
  lemma PermutationOfDistinct<T>(a: seq<T>, b: seq<T>)
    requires multiset(a) == multiset(b) && Distinct(b)
    ensures Distinct(a)
  {
    forall i, j | 0 <= i < j < |a| ensures a[i] != a[j] {
      if a[i] == a[j] {
        RepeatedCount(a, i, j);
        DistinctCount(b, a[i]);
      }
    }
  }

  /** The tags of a permutation of tagged keys are pairwise different. */
  lemma PermutedTagsDistinct(r: seq<Keyed>, keys: seq<real>, base: int)
    requires multiset(r) == multiset(Tagged(keys, base))
    ensures forall k, l :: 0 <= k < l < |r| ==> r[k].tag != r[l].tag
  {
    assert Distinct(Tagged(keys, base));
    PermutationOfDistinct(r, Tagged(keys, base));
    PermutedTaggedEntries(r, keys, base);
  }

  /** In a descending permutation of tagged keys, an earlier pair has the
      larger key, or the same key and the larger tag. */
  lemma DescendingTaggedPair(r: seq<Keyed>, keys: seq<real>, base: int, k: nat, l: nat)
    requires multiset(r) == multiset(Tagged(keys, base)) && Descending(r)
    requires k < l < |r|
    ensures base <= r[k].tag < base + |keys| && base <= r[l].tag < base + |keys|
    ensures keys[r[k].tag - base] > keys[r[l].tag - base] ||
      (keys[r[k].tag - base] == keys[r[l].tag - base] && r[k].tag > r[l].tag)
  {
    PermutedTaggedEntries(r, keys, base);
    PermutedTagsDistinct(r, keys, base);
    assert Le(r[l], r[k]);
  }
}
