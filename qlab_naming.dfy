/** How `find_viewer` in qlab names a viewer: from the source's own `name`,
    from a file path (`os.path.basename`, then `os.path.splitext`, then the
    character clean-up), or the defaults 'al' for a sequence of
    configurations and 'at' otherwise; and the '%s_%d' names that make a
    name unique. */
module ViewerNames {

  /** Position of the last occurrence of c in s, or -1. */
  function LastIndex(s: string, c: char): (k: int)
    ensures -1 <= k < |s|
    ensures k >= 0 ==> s[k] == c
    ensures forall m :: k < m < |s| ==> s[m] != c
    decreases |s|
  {
    if |s| == 0 then -1
    else if s[|s| - 1] == c then |s| - 1
    else LastIndex(s[..|s| - 1], c)
  }

  /** `os.path.basename`: what follows the last '/'. */
  function Basename(path: string): (b: string)
    ensures forall m :: 0 <= m < |b| ==> b[m] != '/'
    ensures (forall m :: 0 <= m < |path| ==> path[m] != '/') ==> b == path
  {
    var k := LastIndex(path, '/');
    path[k + 1..]
  }

  /** A path ending in '/' followed by a name without '/' has that name as
      its base name. */
  lemma BasenameOfJoin(dir: string, name: string)
    requires '/' !in name
    ensures Basename(dir + "/" + name) == name
  {
    var p := dir + "/" + name;
    assert p[|dir|] == '/';
    var k := LastIndex(p, '/');
    assert k == |dir|;
    assert p[k + 1..] == name;
  }

  /** Whether s[..d] holds a character other than '.'. */
  predicate HasNonDot(s: string, d: nat)
    requires d <= |s|
  {
    exists m :: 0 <= m < d && s[m] != '.'
  }

  /** `os.path.splitext(name)[0]` for a name without '/': the name up to its
      last '.', unless only dots come before that '.' (a hidden file keeps
      its whole name). */
  function StripExtension(name: string): (root: string)
    ensures |root| <= |name| && root == name[..|root|]
    ensures root != name ==>
      name[|root|] == '.' && (forall m :: |root| < m < |name| ==> name[m] != '.') && HasNonDot(name, |root|)
  {
    var d := LastIndex(name, '.');
    if d > 0 && HasNonDot(name, d) then name[..d] else name
  }

  /** splitext changes a name exactly when some '.' after the first
      character has a character other than '.' before it: a name without a
      '.', or one whose only dots lead it, is kept whole. */
  lemma StripExtensionChanges(name: string)
    ensures StripExtension(name) != name <==>
      exists d :: 0 < d < |name| && name[d] == '.' && HasNonDot(name, d)
  {
    var k := LastIndex(name, '.');
    if d :| 0 < d < |name| && name[d] == '.' && HasNonDot(name, d) {
      assert d <= k;
      var m :| 0 <= m < d && name[m] != '.';
      assert HasNonDot(name, k);
    }
  }

  /** Adding an extension without '.' to a root that has a character other
      than '.' is undone by StripExtension. */
  lemma StripExtensionOfJoin(root: string, ext: string)
    requires '.' !in ext && exists m :: 0 <= m < |root| && root[m] != '.'
    ensures StripExtension(root + "." + ext) == root
  {
    var s := root + "." + ext;
    assert s[|root|] == '.';
    var d := LastIndex(s, '.');
    assert d == |root|;
    var m :| 0 <= m < |root| && root[m] != '.';
    assert s[m] == root[m];
    assert s[..d] == root;
  }

  /** `.replace('-','_').replace('.','_').replace('*','').replace('?','')`
      on one character, as the (possibly empty) string it becomes. */
  function CleanChar(c: char): (r: string)
  {
    if c == '-' || c == '.' then "_" else if c == '*' || c == '?' then "" else [c]
  }

  /** The four replacements, one character at a time: none of them creates
      a character another one replaces. */
  function Clean(s: string): (r: string)
    ensures |r| <= |s|
    decreases |s|
  {
    if |s| == 0 then "" else Clean(s[..|s| - 1]) + CleanChar(s[|s| - 1])
  }

  /** A character that the clean-up removes or replaces. */
  predicate Unclean(c: char)
  {
    c == '-' || c == '.' || c == '*' || c == '?'
  }

  /** The clean-up removes every '-', '.', '*' and '?', and keeps every other
      character of s in order. */
  lemma CleanRemovesUnclean(s: string)
    ensures forall m :: 0 <= m < |Clean(s)| ==> !Unclean(Clean(s)[m])
    ensures (forall m :: 0 <= m < |s| ==> !Unclean(s[m])) ==> Clean(s) == s
  {
    CleanIsClean(s);
    if forall m :: 0 <= m < |s| ==> !Unclean(s[m]) {
      CleanKeepsClean(s);
    }
  }

  lemma {:induction false} CleanIsClean(s: string)
    ensures forall m :: 0 <= m < |Clean(s)| ==> !Unclean(Clean(s)[m])
    decreases |s|
  {
    if |s| > 0 {
      CleanIsClean(s[..|s| - 1]);
      var t := Clean(s[..|s| - 1]);
      var c := CleanChar(s[|s| - 1]);
      assert Clean(s) == t + c;
      assert forall m :: 0 <= m < |c| ==> !Unclean(c[m]);
    }
  }

  lemma {:induction false} CleanKeepsClean(s: string)
    requires forall m :: 0 <= m < |s| ==> !Unclean(s[m])
    ensures Clean(s) == s
    decreases |s|
  {
    if |s| > 0 {
      var u := s[..|s| - 1];
      assert forall m :: 0 <= m < |u| ==> u[m] == s[m];
      CleanKeepsClean(u);
      assert s == u + [s[|s| - 1]];
    }
  }

  /** Cleaning twice is cleaning once. */
  lemma CleanIdempotent(s: string)
    ensures Clean(Clean(s)) == Clean(s)
  {
    CleanRemovesUnclean(s);
    CleanRemovesUnclean(Clean(s));
  }

  /** What `find_viewer` is given as `source`: an object with a `name`
      attribute, a file name, something iterable (a list of
      configurations), or anything else (a single configuration). */
  datatype Source = Named(name: string) | Path(path: string) | Iterable | Single

  /** The name `find_viewer` derives when none is given. */
  function DefaultName(source: Source): (name: string)
    ensures source.Named? ==> name == source.name
    ensures source.Iterable? ==> name == "al"
    ensures source.Single? ==> name == "at"
    ensures source.Path? ==> name == Clean(StripExtension(Basename(source.path)))
  {
    match source
    case Named(n) => n
    case Path(p) => Clean(StripExtension(Basename(p)))
    case Iterable => "al"
    case Single => "at"
  }

  /** A file name's viewer name: directory and extension dropped, and no
      character the clean-up removes. */
  lemma PathNameClean(dir: string, root: string, ext: string)
    requires '/' !in root && '/' !in ext && '.' !in ext
    requires exists m :: 0 <= m < |root| && root[m] != '.'
    ensures DefaultName(Path(dir + "/" + root + "." + ext)) == Clean(root)
    ensures forall m :: 0 <= m < |Clean(root)| ==> !Unclean(Clean(root)[m])
  {
    var file := root + "." + ext;
    assert dir + "/" + root + "." + ext == dir + "/" + file;
    NoSlashInFile(root, ext);
    BasenameOfJoin(dir, file);
    StripExtensionOfJoin(root, ext);
    CleanRemovesUnclean(root);
  }

  lemma NoSlashInFile(root: string, ext: string)
    requires '/' !in root && '/' !in ext
    ensures '/' !in root + "." + ext
  {
    var file := root + "." + ext;
    forall m | 0 <= m < |file| ensures file[m] != '/' {
      if m < |root| {
        assert file[m] == root[m];
      } else if m > |root| {
        assert file[m] == ext[m - |root| - 1];
      }
    }
  }

  /** The decimal digit of d. */
  function DigitChar(d: nat): (c: char)
    requires d < 10
  {
    ['0', '1', '2', '3', '4', '5', '6', '7', '8', '9'][d]
  }

  /** The value of a decimal digit character. */
  function DigitValue(c: char): (d: nat)
    ensures d < 10
  {
    if '0' <= c <= '9' then (c as int - '0' as int) else 0
  }

  lemma DigitRoundTrip(d: nat)
    requires d < 10
    ensures DigitValue(DigitChar(d)) == d && '0' <= DigitChar(d) <= '9'
  {
  }

  /** `'%d' % n` for n >= 0. */
  function NatToString(n: nat): (s: string)
    ensures |s| > 0 && forall m :: 0 <= m < |s| ==> '0' <= s[m] <= '9'
    decreases n
  {
    if n < 10 then [DigitChar(n)] else NatToString(n / 10) + [DigitChar(n % 10)]
  }

  /** The value of a string of decimal digits. */
  function ParseNat(s: string): (n: nat)
    decreases |s|
  {
    if |s| == 0 then 0 else 10 * ParseNat(s[..|s| - 1]) + DigitValue(s[|s| - 1])
  }

  /** Reading back the decimal form of n gives n. */
  lemma {:induction false} ParseNatToString(n: nat)
    ensures ParseNat(NatToString(n)) == n
    decreases n
  {
    DigitRoundTrip(n % 10);
    if n >= 10 {
      ParseNatToString(n / 10);
      var s := NatToString(n);
      assert s[..|s| - 1] == NatToString(n / 10);
    }
  }

  /** Different numbers are written differently. */
  lemma NatToStringInjective(m: nat, n: nat)
    requires NatToString(m) == NatToString(n)
    ensures m == n
  {
    ParseNatToString(m);
    ParseNatToString(n);
  }

  /** `'%s_%d' % (name, n)`. */
  function Numbered(name: string, n: nat): (r: string)
    ensures |r| > |name| + 1 && r[..|name|] == name && r[|name|] == '_'
  {
    name + "_" + NatToString(n)
  }

  /** The numbered names of one base name are pairwise different. */
  lemma NumberedInjective(name: string, m: nat, n: nat)
    requires Numbered(name, m) == Numbered(name, n)
    ensures m == n
  {
    assert NatToString(m) == Numbered(name, m)[|name| + 1..];
    assert NatToString(n) == Numbered(name, n)[|name| + 1..];
    NatToStringInjective(m, n);
  }
}
