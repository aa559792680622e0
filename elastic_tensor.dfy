/** The full rank-4 elastic tensor c_ijkl and its compressed 6x6 Voigt form,
    the conversions between them, and rotation of the tensor by a 3x3 matrix.
    A tensor is stored flat, entry (i, j, k, l) at 27(i-1) + 9(j-1) + 3(k-1) + (l-1). */
module ElasticTensor {
  import opened LinAlg
  import opened Voigt
  import opened Outcomes

  type Tensor4 = t: seq<real> | |t| == 81 witness seq(81, n => 0.0)

  /** A tensor index (i, j, k, l), each 1..3. */
  datatype Quad = Quad(i: Ix, j: Ix, k: Ix, l: Ix)

  function Idx(x: Quad): (n: nat)
    ensures n < 81
  {
    27 * (x.i - 1) + 9 * (x.j - 1) + 3 * (x.k - 1) + (x.l - 1)
  }

  /** The tensor index stored at flat position n (its base-3 digits). */
  function Digits(n: nat): (x: Quad)
    requires n < 81
    ensures Idx(x) == n
  {
    var i := n / 27;
    var j := (n - 27 * i) / 9;
    var k := (n - 27 * i - 9 * j) / 3;
    Quad(i + 1, j + 1, k + 1, n - 27 * i - 9 * j - 3 * k + 1)
  }

  /** Distinct tensor indices have distinct flat positions. */
  lemma IdxInjective(x: Quad, y: Quad)
    requires Idx(x) == Idx(y)
    ensures x == y
  {
  }

  lemma DigitsOfIdx(x: Quad)
    ensures Digits(Idx(x)) == x
  {
    IdxInjective(Digits(Idx(x)), x);
  }

  function At4(t: Tensor4, x: Quad): real
  {
    t[Idx(x)]
  }

  lemma TensorExt(a: Tensor4, b: Tensor4)
    requires forall x: Quad :: At4(a, x) == At4(b, x)
    ensures a == b
  {
    forall n | 0 <= n < 81 ensures a[n] == b[n] {
      assert At4(a, Digits(n)) == At4(b, Digits(n));
    }
  }

  /** The minor symmetries c_ijkl = c_jikl = c_ijlk and the major symmetry
      c_ijkl = c_klij of an elasticity tensor. */
  ghost predicate FullySymmetric(t: Tensor4)
  {
    forall x: Quad ::
      && At4(t, x) == At4(t, Quad(x.j, x.i, x.k, x.l))
      && At4(t, x) == At4(t, Quad(x.i, x.j, x.l, x.k))
      && At4(t, x) == At4(t, Quad(x.k, x.l, x.i, x.j))
  }

  // ---------------------------------------------------------------------
  // elasticity_matrix_to_tensor

  /** Entry (a, b, c, d) of `elasticity_matrix_to_tensor(C)` as the loop leaves
      it. With P, Q the Voigt indices of {a, b} and {c, d}, iteration (P, Q)
      writes C[P, Q] at every orientation; iteration (Q, P) writes C[Q, P] at the
      orientation (voigt_map[P], voigt_map[Q]) only. The later iteration wins. */
  function ExpandedEntry(C: Mat6, x: Quad): real
  {
    var P, Q := VoigtIndex(x.i, x.j), VoigtIndex(x.k, x.l);
    if P < Q && VoigtMap(P) == (x.i, x.j) && VoigtMap(Q) == (x.k, x.l) then At6(C, Q, P)
    else At6(C, P, Q)
  }

  function Expand(C: Mat6): (t: Tensor4)
    ensures forall x: Quad :: At4(t, x) == ExpandedEntry(C, x)
  {
    var t: Tensor4 := seq(81, n requires 0 <= n < 81 => ExpandedEntry(C, Digits(n)));
    forall x: Quad ensures Digits(Idx(x)) == x {
      DigitsOfIdx(x);
    }
    t
  }

  /** Entry x after the first m of the 36 iterations (p, q) of the fill loop,
      iteration (p, q) being number 6(p-1) + (q-1). */
  ghost function FilledAfter(C: Mat6, m: nat, x: Quad): real
  {
    var P, Q := VoigtIndex(x.i, x.j), VoigtIndex(x.k, x.l);
    var direct, mirrored := 6 * (P - 1) + (Q - 1), 6 * (Q - 1) + (P - 1);
    var fifth := VoigtMap(P) == (x.i, x.j) && VoigtMap(Q) == (x.k, x.l);
    if fifth && mirrored < m && (m <= direct || direct < mirrored) then At6(C, Q, P)
    else if direct < m then At6(C, P, Q)
    else 0.0
  }

  /** The five positions that iteration (p, q) assigns C[p, q] to. */
  predicate WrittenBy(p: VIx, q: VIx, x: Quad)
  {
    var (i, j) := VoigtMap(p);
    var (k, l) := VoigtMap(q);
    x == Quad(i, j, k, l) || x == Quad(j, i, k, l) || x == Quad(i, j, l, k)
    || x == Quad(j, i, l, k) || x == Quad(k, l, i, j)
  }

  lemma FillStep(C: Mat6, p: VIx, q: VIx, x: Quad)
    ensures FilledAfter(C, 6 * (p - 1) + q, x) ==
      if WrittenBy(p, q, x) then At6(C, p, q) else FilledAfter(C, 6 * (p - 1) + (q - 1), x)
  {
    VoigtMapBijective(p, x.i, x.j);
    VoigtMapBijective(q, x.k, x.l);
    VoigtMapBijective(p, x.k, x.l);
    VoigtMapBijective(q, x.i, x.j);
  }

  lemma FilledAll(C: Mat6, x: Quad)
    ensures FilledAfter(C, 36, x) == ExpandedEntry(C, x)
  {
  }

  /** One iteration of the fill loop: the chained assignment
      c[i,j,k,l] = c[j,i,k,l] = c[i,j,l,k] = c[j,i,l,k] = c[k,l,i,j] = C[p,q]. */
  method AssignFive(c: array<real>, C: Mat6, p: VIx, q: VIx)
    requires c.Length == 81
    modifies c
    ensures forall n :: 0 <= n < 81 ==>
      c[n] == if WrittenBy(p, q, Digits(n)) then At6(C, p, q) else old(c[n])
  {
    var (i, j) := VoigtMap(p);
    var (k, l) := VoigtMap(q);
    var v := At6(C, p, q);
    c[Idx(Quad(i, j, k, l))] := v;
    c[Idx(Quad(j, i, k, l))] := v;
    c[Idx(Quad(i, j, l, k))] := v;
    c[Idx(Quad(j, i, l, k))] := v;
    c[Idx(Quad(k, l, i, j))] := v;
    forall n | 0 <= n < 81
      ensures c[n] == if WrittenBy(p, q, Digits(n)) then v else old(c[n])
    {
      DigitsOfIdx(Quad(i, j, k, l));
      DigitsOfIdx(Quad(j, i, k, l));
      DigitsOfIdx(Quad(i, j, l, k));
      DigitsOfIdx(Quad(j, i, l, k));
      DigitsOfIdx(Quad(k, l, i, j));
    }
  }

  /** `elasticity_matrix_to_tensor` (the second definition). */
  method MatrixToTensor(C: Mat6) returns (t: Tensor4)
    ensures t == Expand(C)
  {
    var c := new real[81](n => 0.0);
    for p := 1 to 7
      invariant forall n :: 0 <= n < 81 ==> c[n] == FilledAfter(C, 6 * (p - 1), Digits(n))
    {
      for q := 1 to 7
        invariant forall n :: 0 <= n < 81 ==> c[n] == FilledAfter(C, 6 * (p - 1) + (q - 1), Digits(n))
      {
        AssignFive(c, C, p, q);
        forall n | 0 <= n < 81
          ensures c[n] == FilledAfter(C, 6 * (p - 1) + q, Digits(n))
        {
          FillStep(C, p, q, Digits(n));
        }
      }
    }
    t := c[..];
    forall x: Quad ensures At4(t, x) == ExpandedEntry(C, x) {
      DigitsOfIdx(x);
      FilledAll(C, x);
    }
    TensorExt(t, Expand(C));
  }

  /** For a symmetric C, every entry of the expanded tensor is the Voigt entry
      of its two index pairs, and the tensor has all three symmetries. */
  lemma ExpandSymmetric(C: Mat6)
    requires Symmetric6(C)
    ensures forall x: Quad :: At4(Expand(C), x) == At6(C, VoigtIndex(x.i, x.j), VoigtIndex(x.k, x.l))
    ensures FullySymmetric(Expand(C))
  {
    forall x: Quad ensures At4(Expand(C), x) == At6(C, VoigtIndex(x.i, x.j), VoigtIndex(x.k, x.l)) {
      VoigtMapBijective(1, x.i, x.j);
      VoigtMapBijective(1, x.k, x.l);
    }
  }

  /** For a C that is not symmetric the expansion does not follow the upper
      triangle: c_1122 and c_2211 both hold C[2,1]. */
  lemma ExpandTakesLowerOnDiagonalBlock(C: Mat6)
    ensures At4(Expand(C), Quad(1, 1, 2, 2)) == At6(C, 2, 1)
    ensures At4(Expand(C), Quad(2, 2, 1, 1)) == At6(C, 2, 1)
  {
    assert VoigtIndex(1, 1) == 1 && VoigtIndex(2, 2) == 2;
    assert ExpandedEntry(C, Quad(1, 1, 2, 2)) == At6(C, 2, 1);
    assert ExpandedEntry(C, Quad(2, 2, 1, 1)) == At6(C, 2, 1);
  }

  // ---------------------------------------------------------------------
  // elasticity_tensor_to_matrix

  /** The tolerance 1e-10 of the symmetry assertions. */
  const Tol: real := 0.0000000001

  /** The four one-sided assertions the code makes at index x. */
  predicate ChecksAt(t: Tensor4, x: Quad)
  {
    && At4(t, x) - At4(t, Quad(x.j, x.i, x.k, x.l)) < Tol
    && At4(t, x) - At4(t, Quad(x.i, x.j, x.l, x.k)) < Tol
    && At4(t, x) - At4(t, Quad(x.j, x.i, x.l, x.k)) < Tol
    && At4(t, x) - At4(t, Quad(x.k, x.l, x.i, x.j)) < Tol
  }

  ghost predicate AllChecksPass(t: Tensor4)
  {
    forall x: Quad :: ChecksAt(t, x)
  }

  /** Since each check is also made at the mirrored index, passing all of them
      bounds every symmetric difference by the tolerance on both sides. */
  lemma ChecksAreTwoSided(t: Tensor4, x: Quad)
    requires AllChecksPass(t)
    ensures -Tol < At4(t, x) - At4(t, Quad(x.j, x.i, x.k, x.l)) < Tol
    ensures -Tol < At4(t, x) - At4(t, Quad(x.k, x.l, x.i, x.j)) < Tol
  {
    assert Quad(x.i, x.j, x.k, x.l) == x;
    assert ChecksAt(t, x);
    assert ChecksAt(t, Quad(x.j, x.i, x.k, x.l));
    assert ChecksAt(t, Quad(x.k, x.l, x.i, x.j));
  }

  lemma SymmetricPassesChecks(t: Tensor4)
    requires FullySymmetric(t)
    ensures AllChecksPass(t)
  {
    forall x: Quad ensures ChecksAt(t, x) {
      assert At4(t, Quad(x.j, x.i, x.k, x.l)) == At4(t, Quad(x.j, x.i, x.l, x.k));
    }
  }

  /** Entry n = 6(p-1) + (q-1) of the compression: c[voigt_map[p], voigt_map[q]]. */
  function CompressedEntry(t: Tensor4, n: nat): real
    requires n < 36
  {
    var p: VIx, q: VIx := n / 6 + 1, n % 6 + 1;
    At4(t, Quad(VoigtMap(p).0, VoigtMap(p).1, VoigtMap(q).0, VoigtMap(q).1))
  }

  /** The entry at Voigt position (p, q). */
  lemma CompressedEntryAt(t: Tensor4, p: VIx, q: VIx)
    ensures CompressedEntry(t, Pos6(p, q)) == At4(t, Quad(VoigtMap(p).0, VoigtMap(p).1, VoigtMap(q).0, VoigtMap(q).1))
  {
    assert Pos6(p, q) / 6 + 1 == p && Pos6(p, q) % 6 + 1 == q;
  }

  function Compress(t: Tensor4): (C: Mat6)
    ensures forall p: VIx, q: VIx ::
      At6(C, p, q) == At4(t, Quad(VoigtMap(p).0, VoigtMap(p).1, VoigtMap(q).0, VoigtMap(q).1))
  {
    var C: Mat6 := seq(36, n requires 0 <= n < 36 => CompressedEntry(t, n));
    assert forall p: VIx, q: VIx :: Pos6(p, q) / 6 + 1 == p && Pos6(p, q) % 6 + 1 == q;
    C
  }

  ghost function CompressChecked(t: Tensor4): Result<Mat6>
  {
    if AllChecksPass(t) then Ok(Compress(t)) else Err(AssertionError)
  }

  /** The symmetry assertions of `elasticity_tensor_to_matrix`, in the loop
      order i, j, k, l; the first that fails raises AssertionError. */
  method CheckSymmetries(t: Tensor4) returns (ok: bool)
    ensures ok <==> AllChecksPass(t)
  {
    for n := 0 to 81
      invariant ChecksBelow(t, n)
    {
      if !ChecksAt(t, Digits(n)) {
        CheckFails(t, Digits(n));
        return false;
      }
      ChecksBelowNext(t, n);
    }
    ChecksInOrder(t);
    return true;
  }

  lemma CheckFails(t: Tensor4, x: Quad)
    requires !ChecksAt(t, x)
    ensures !AllChecksPass(t)
  {
  }

  ghost predicate ChecksBelow(t: Tensor4, n: nat)
  {
    forall m :: 0 <= m < n && m < 81 ==> ChecksAt(t, Digits(m))
  }

  lemma ChecksBelowNext(t: Tensor4, n: nat)
    requires n < 81 && ChecksBelow(t, n) && ChecksAt(t, Digits(n))
    ensures ChecksBelow(t, n + 1)
  {
  }

  lemma ChecksInOrder(t: Tensor4)
    requires ChecksBelow(t, 81)
    ensures AllChecksPass(t)
  {
    forall x: Quad ensures ChecksAt(t, x) {
      DigitsOfIdx(x);
      assert ChecksAt(t, Digits(Idx(x)));
    }
  }

  ghost predicate CompressedBelow(a: seq<real>, t: Tensor4, m: nat)
    requires |a| == 36
  {
    forall n :: 0 <= n < m && n < 36 ==> a[n] == CompressedEntry(t, n)
  }

  /** The compression loop of `elasticity_tensor_to_matrix`. */
  method CompressLoop(t: Tensor4) returns (r: Mat6)
    ensures r == Compress(t)
  {
    var C := new real[36](n => 0.0);
    for p := 1 to 7
      invariant CompressedBelow(C[..], t, 6 * (p - 1))
    {
      for q := 1 to 7
        invariant CompressedBelow(C[..], t, 6 * (p - 1) + (q - 1))
      {
        var (i, j) := VoigtMap(p);
        var (k, l) := VoigtMap(q);
        CompressedEntryAt(t, p, q);
        C[Pos6(p, q)] := At4(t, Quad(i, j, k, l));
      }
    }
    r := C[..];
    assert forall n :: 0 <= n < 36 ==> r[n] == Compress(t)[n];
  }

  /** `elasticity_tensor_to_matrix` (the second definition). */
  method TensorToMatrix(t: Tensor4) returns (r: Result<Mat6>)
    ensures r == CompressChecked(t)
  {
    var ok := CheckSymmetries(t);
    if !ok {
      return Err(AssertionError);
    }
    var C := CompressLoop(t);
    r := Ok(C);
  }

  /** Expanding a symmetric 6x6 matrix and compressing it again passes every
      assertion and gives back the matrix exactly. */
  lemma MatrixTensorRoundTrip(C: Mat6)
    requires Symmetric6(C)
    ensures AllChecksPass(Expand(C))
    ensures CompressChecked(Expand(C)) == Ok(C)
  {
    ExpandSymmetric(C);
    SymmetricPassesChecks(Expand(C));
    forall p: VIx, q: VIx ensures At6(Compress(Expand(C)), p, q) == At6(C, p, q) {
      VoigtMapBijective(p, 1, 1);
      VoigtMapBijective(q, 1, 1);
    }
    Mat6Ext(Compress(Expand(C)), C);
  }

  /** A fully symmetric tensor is recovered from its compression. */
  lemma TensorMatrixRoundTrip(t: Tensor4)
    requires FullySymmetric(t)
    ensures Expand(Compress(t)) == t
  {
    var C := Compress(t);
    forall x: Quad ensures At4(Expand(C), x) == At4(t, x) {
      var P, Q := VoigtIndex(x.i, x.j), VoigtIndex(x.k, x.l);
      VoigtMapBijective(P, x.i, x.j);
      VoigtMapBijective(Q, x.k, x.l);
    }
    TensorExt(Expand(C), t);
  }

  // ---------------------------------------------------------------------
  // transform_elasticity

  /** Sums of f over the trailing tensor indices, level by level. */
  function Sum1(f: Quad -> real, p: Ix, q: Ix, r: Ix): real
  {
    f(Quad(p, q, r, 1)) + f(Quad(p, q, r, 2)) + f(Quad(p, q, r, 3))
  }

  function Sum2(f: Quad -> real, p: Ix, q: Ix): real
  {
    Sum1(f, p, q, 1) + Sum1(f, p, q, 2) + Sum1(f, p, q, 3)
  }

  function Sum3(f: Quad -> real, p: Ix): real
  {
    Sum2(f, p, 1) + Sum2(f, p, 2) + Sum2(f, p, 3)
  }

  /** The sum of f over all 81 tensor indices. */
  function Sum4(f: Quad -> real): real
  {
    Sum3(f, 1) + Sum3(f, 2) + Sum3(f, 3)
  }

  /** Term (p, q, r, s) of entry o of the rotated tensor:
      R_ip R_jq R_kr R_ls c_pqrs. */
  function Term(c: Tensor4, R: Mat3, o: Quad, x: Quad): real
  {
    At(R, o.i, x.i) * At(R, o.j, x.j) * At(R, o.k, x.k) * At(R, o.l, x.l) * At4(c, x)
  }

  function TermsOf(c: Tensor4, R: Mat3, o: Quad): Quad -> real
  {
    x => Term(c, R, o, x)
  }

  /** c'_ijkl = sum over p, q, r, s of R_ip R_jq R_kr R_ls c_pqrs. */
  function RotatedEntry(c: Tensor4, R: Mat3, o: Quad): real
  {
    Sum4(TermsOf(c, R, o))
  }

  function Rotate(c: Tensor4, R: Mat3): (t: Tensor4)
    ensures forall o: Quad :: At4(t, o) == RotatedEntry(c, R, o)
  {
    var t: Tensor4 := seq(81, n requires 0 <= n < 81 => RotatedEntry(c, R, Digits(n)));
    forall o: Quad ensures Digits(Idx(o)) == o {
      DigitsOfIdx(o);
    }
    t
  }

  /** The running sum g(0) + ... + g(u - 1). */
  function FlatSum(g: nat -> real, u: nat): real
  {
    if u == 0 then 0.0 else FlatSum(g, u - 1) + g(u - 1)
  }

  /** f read through flat positions, as the loop over u visits them. */
  function InLoopOrder(f: Quad -> real): nat -> real
  {
    (n: nat) => if n < 81 then f(Digits(n)) else 0.0
  }

  lemma InLoopOrderAt(f: Quad -> real, x: Quad)
    ensures InLoopOrder(f)(Idx(x)) == f(x)
  {
    DigitsOfIdx(x);
  }

  lemma FlatThree(g: nat -> real, u: nat)
    ensures FlatSum(g, u + 3) == FlatSum(g, u) + g(u) + g(u + 1) + g(u + 2)
  {
    assert FlatSum(g, u + 3) == FlatSum(g, u + 2) + g(u + 2);
    assert FlatSum(g, u + 2) == FlatSum(g, u + 1) + g(u + 1);
  }

  /** g lists the values of f in flat order. */
  ghost predicate ListsInOrder(g: nat -> real, f: Quad -> real)
  {
    forall x: Quad {:trigger g(Idx(x))} :: g(Idx(x)) == f(x)
  }

  lemma InLoopOrderLists(f: Quad -> real)
    ensures ListsInOrder(InLoopOrder(f), f)
  {
    forall x: Quad ensures InLoopOrder(f)(Idx(x)) == f(x) {
      InLoopOrderAt(f, x);
    }
  }

  lemma FlatChunk1(g: nat -> real, f: Quad -> real, p: Ix, q: Ix, r: Ix)
    requires ListsInOrder(g, f)
    ensures var u := Idx(Quad(p, q, r, 1));
      FlatSum(g, u + 3) == FlatSum(g, u) + Sum1(f, p, q, r)
  {
    var u := Idx(Quad(p, q, r, 1));
    FlatThree(g, u);
    FlatEntries(g, f, p, q, r, u);
    AddThree(FlatSum(g, u), g(u), g(u + 1), g(u + 2), f(Quad(p, q, r, 1)), f(Quad(p, q, r, 2)), f(Quad(p, q, r, 3)));
  }

  /** The three entries of a chunk of three, in flat order. */
  lemma FlatEntries(g: nat -> real, f: Quad -> real, p: Ix, q: Ix, r: Ix, u: nat)
    requires ListsInOrder(g, f) && u == Idx(Quad(p, q, r, 1))
    ensures g(u) == f(Quad(p, q, r, 1)) && g(u + 1) == f(Quad(p, q, r, 2)) && g(u + 2) == f(Quad(p, q, r, 3))
  {
    assert Idx(Quad(p, q, r, 2)) == u + 1 && Idx(Quad(p, q, r, 3)) == u + 2;
  }

  lemma AddThree(s: real, a: real, b: real, c: real, x: real, y: real, z: real)
    requires a == x && b == y && c == z
    ensures s + a + b + c == s + (x + y + z)
  {
  }

  lemma FlatChunk2(g: nat -> real, f: Quad -> real, p: Ix, q: Ix)
    requires ListsInOrder(g, f)
    ensures var u := Idx(Quad(p, q, 1, 1));
      FlatSum(g, u + 9) == FlatSum(g, u) + Sum2(f, p, q)
  {
    var u := Idx(Quad(p, q, 1, 1));
    FlatChunk1(g, f, p, q, 1);
    FlatChunk1(g, f, p, q, 2);
    FlatChunk1(g, f, p, q, 3);
    assert Idx(Quad(p, q, 2, 1)) == u + 3 && Idx(Quad(p, q, 3, 1)) == u + 6;
  }

  lemma FlatChunk3(g: nat -> real, f: Quad -> real, p: Ix)
    requires ListsInOrder(g, f)
    ensures var u := Idx(Quad(p, 1, 1, 1));
      FlatSum(g, u + 27) == FlatSum(g, u) + Sum3(f, p)
  {
    var u := Idx(Quad(p, 1, 1, 1));
    FlatChunk2(g, f, p, 1);
    FlatChunk2(g, f, p, 2);
    FlatChunk2(g, f, p, 3);
    assert Idx(Quad(p, 2, 1, 1)) == u + 9 && Idx(Quad(p, 3, 1, 1)) == u + 18;
  }

  /** Accumulating the 81 listed terms one after another, from u = 0, gives
      the nested sum. */
  lemma FlatSumAll(g: nat -> real, f: Quad -> real, u: nat)
    requires ListsInOrder(g, f) && u == Idx(Quad(1, 1, 1, 1))
    ensures FlatSum(g, u + 81) == FlatSum(g, u) + Sum4(f)
  {
    var a, b, c := Sum3(f, 1), Sum3(f, 2), Sum3(f, 3);
    assert FlatSum(g, u + 27) == FlatSum(g, u) + a by { FlatChunk3(g, f, 1); }
    assert FlatSum(g, u + 54) == FlatSum(g, u + 27) + b by {
      FlatChunk3(g, f, 2);
      assert Idx(Quad(2, 1, 1, 1)) == u + 27;
    }
    assert FlatSum(g, u + 81) == FlatSum(g, u + 54) + c by {
      FlatChunk3(g, f, 3);
      assert Idx(Quad(3, 1, 1, 1)) == u + 54;
    }
  }

  /** Accumulating the 81 terms one after another, in loop order, gives the
      nested sum (u is the loop bound 81). */
  lemma FlatSumComplete(f: Quad -> real, u: nat)
    requires u == 81
    ensures FlatSum(InLoopOrder(f), u) == Sum4(f)
  {
    var g := InLoopOrder(f);
    var z := u - 81;
    assert ListsInOrder(g, f) by { InLoopOrderLists(f); }
    FlatSumAll(g, f, z);
  }

  ghost predicate RotatedBelow(a: seq<real>, c: Tensor4, R: Mat3, m: nat)
    requires |a| == 81
  {
    forall n :: 0 <= n < 81 ==> a[n] == if n < m then RotatedEntry(c, R, Digits(n)) else 0.0
  }

  /** The four inner loops of `transform_elasticity` for one entry o, run in
      the same order as one loop over flat positions u:
      cp[o] += R[i,p]*R[j,q]*R[k,r]*R[l,s]*c[p,q,r,s]. */
  method AccumulateEntry(c: Tensor4, R: Mat3, o: Quad) returns (acc: real)
    ensures acc == RotatedEntry(c, R, o)
  {
    acc := 0.0;
    var u := 0;
    while u < 81
      invariant u <= 81
      invariant acc == FlatSum(InLoopOrder(TermsOf(c, R, o)), u)
    {
      acc := acc + Term(c, R, o, Digits(u));
      u := u + 1;
    }
    FlatSumComplete(TermsOf(c, R, o), u);
  }

  /** The eight nested loops of `transform_elasticity`, the outer four run as
      one loop over the flat positions of the result. */
  method RotateTensor(c: Tensor4, R: Mat3) returns (t: Tensor4)
    ensures t == Rotate(c, R)
  {
    var cp := new real[81](n => 0.0);
    for n := 0 to 81
      invariant RotatedBelow(cp[..], c, R, n)
    {
      var e := AccumulateEntry(c, R, Digits(n));
      cp[n] := cp[n] + e;
    }
    t := cp[..];
    assert forall n :: 0 <= n < 81 ==> t[n] == Rotate(c, R)[n];
  }

  // Properties of the rotation

  /** Reindexing relations between two functions of a tensor index. */
  ghost predicate SwapsIJ(g: Quad -> real, f: Quad -> real)
  {
    forall x: Quad :: g(x) == f(Quad(x.j, x.i, x.k, x.l))
  }

  ghost predicate SwapsKL(g: Quad -> real, f: Quad -> real)
  {
    forall x: Quad :: g(x) == f(Quad(x.i, x.j, x.l, x.k))
  }

  ghost predicate SwapsPairs(g: Quad -> real, f: Quad -> real)
  {
    forall x: Quad :: g(x) == f(Quad(x.k, x.l, x.i, x.j))
  }

  /** The sum over the leading index pair, the trailing pair fixed at (r, s). */
  function Lead2(f: Quad -> real, r: Ix, s: Ix): real
  {
    f(Quad(1, 1, r, s)) + f(Quad(1, 2, r, s)) + f(Quad(1, 3, r, s)) +
    f(Quad(2, 1, r, s)) + f(Quad(2, 2, r, s)) + f(Quad(2, 3, r, s)) +
    f(Quad(3, 1, r, s)) + f(Quad(3, 2, r, s)) + f(Quad(3, 3, r, s))
  }

  lemma Sum2SwapIJ(g: Quad -> real, f: Quad -> real, p: Ix, q: Ix)
    requires SwapsIJ(g, f)
    ensures Sum2(g, p, q) == Sum2(f, q, p)
  {
  }

  /** Reindexing the 81-term sum by a swap of index positions leaves it
      unchanged. */
  lemma Sum4SwapIJ(g: Quad -> real, f: Quad -> real)
    requires SwapsIJ(g, f)
    ensures Sum4(g) == Sum4(f)
  {
    forall p: Ix, q: Ix ensures Sum2(g, p, q) == Sum2(f, q, p) {
      Sum2SwapIJ(g, f, p, q);
    }
  }

  lemma Sum2SwapKL(g: Quad -> real, f: Quad -> real, p: Ix, q: Ix)
    requires SwapsKL(g, f)
    ensures Sum2(g, p, q) == Sum2(f, p, q)
  {
  }

  lemma Sum4SwapKL(g: Quad -> real, f: Quad -> real)
    requires SwapsKL(g, f)
    ensures Sum4(g) == Sum4(f)
  {
    forall p: Ix, q: Ix ensures Sum2(g, p, q) == Sum2(f, p, q) {
      Sum2SwapKL(g, f, p, q);
    }
  }

  /** Summing over the trailing pair first or over the leading pair first. */
  lemma Sum4ByTrailing(f: Quad -> real)
    ensures Sum4(f) == Lead2(f, 1, 1) + Lead2(f, 1, 2) + Lead2(f, 1, 3)
                     + Lead2(f, 2, 1) + Lead2(f, 2, 2) + Lead2(f, 2, 3)
                     + Lead2(f, 3, 1) + Lead2(f, 3, 2) + Lead2(f, 3, 3)
  {
  }

  lemma Sum2SwapPairs(g: Quad -> real, f: Quad -> real, p: Ix, q: Ix)
    requires SwapsPairs(g, f)
    ensures Sum2(g, p, q) == Lead2(f, p, q)
  {
  }

  lemma Sum4SwapPairs(g: Quad -> real, f: Quad -> real)
    requires SwapsPairs(g, f)
    ensures Sum4(g) == Sum4(f)
  {
    forall p: Ix, q: Ix ensures Sum2(g, p, q) == Lead2(f, p, q) {
      Sum2SwapPairs(g, f, p, q);
    }
    Sum4ByTrailing(f);
  }

  lemma ProductSwap12(a: real, b: real, d: real, e: real, v: real)
    ensures a * b * d * e * v == b * a * d * e * v
  {
  }

  lemma ProductSwap34(a: real, b: real, d: real, e: real, v: real)
    ensures a * b * d * e * v == a * b * e * d * v
  {
    calc {
      a * b * d * e * v;
      (a * b) * (d * e) * v;
      (a * b) * (e * d) * v;
      a * b * e * d * v;
    }
  }

  lemma ProductSwapPairs(a: real, b: real, d: real, e: real, v: real)
    ensures a * b * d * e * v == d * e * a * b * v
  {
    calc {
      a * b * d * e * v;
      (a * b) * (d * e) * v;
      (d * e) * (a * b) * v;
      d * e * a * b * v;
    }
  }

  /** Swapping the first two indices of both the entry and the summation
      index leaves a term unchanged when c has that minor symmetry at x. */
  lemma TermSwapIJ(c: Tensor4, R: Mat3, o: Quad, x: Quad)
    requires At4(c, Quad(x.j, x.i, x.k, x.l)) == At4(c, x)
    ensures Term(c, R, Quad(o.j, o.i, o.k, o.l), x) == Term(c, R, o, Quad(x.j, x.i, x.k, x.l))
  {
    ProductSwap12(At(R, o.i, x.j), At(R, o.j, x.i), At(R, o.k, x.k), At(R, o.l, x.l), At4(c, x));
  }

  lemma TermSwapKL(c: Tensor4, R: Mat3, o: Quad, x: Quad)
    requires At4(c, Quad(x.i, x.j, x.l, x.k)) == At4(c, x)
    ensures Term(c, R, Quad(o.i, o.j, o.l, o.k), x) == Term(c, R, o, Quad(x.i, x.j, x.l, x.k))
  {
    ProductSwap34(At(R, o.i, x.i), At(R, o.j, x.j), At(R, o.k, x.l), At(R, o.l, x.k), At4(c, x));
  }

  lemma TermSwapPairs(c: Tensor4, R: Mat3, o: Quad, x: Quad)
    requires At4(c, Quad(x.k, x.l, x.i, x.j)) == At4(c, x)
    ensures Term(c, R, Quad(o.k, o.l, o.i, o.j), x) == Term(c, R, o, Quad(x.k, x.l, x.i, x.j))
  {
    ProductSwapPairs(At(R, o.i, x.k), At(R, o.j, x.l), At(R, o.k, x.i), At(R, o.l, x.j), At4(c, x));
  }

  /** The rotated entry at a permuted index, for each of the three symmetries. */
  lemma RotatedEntrySymmetric(c: Tensor4, R: Mat3, o: Quad)
    requires FullySymmetric(c)
    ensures RotatedEntry(c, R, Quad(o.j, o.i, o.k, o.l)) == RotatedEntry(c, R, o)
    ensures RotatedEntry(c, R, Quad(o.i, o.j, o.l, o.k)) == RotatedEntry(c, R, o)
    ensures RotatedEntry(c, R, Quad(o.k, o.l, o.i, o.j)) == RotatedEntry(c, R, o)
  {
    var f := TermsOf(c, R, o);
    var g1 := TermsOf(c, R, Quad(o.j, o.i, o.k, o.l));
    var g2 := TermsOf(c, R, Quad(o.i, o.j, o.l, o.k));
    var g3 := TermsOf(c, R, Quad(o.k, o.l, o.i, o.j));
    forall x: Quad ensures g1(x) == f(Quad(x.j, x.i, x.k, x.l)) {
      TermSwapIJ(c, R, o, x);
    }
    forall x: Quad ensures g2(x) == f(Quad(x.i, x.j, x.l, x.k)) {
      TermSwapKL(c, R, o, x);
    }
    forall x: Quad ensures g3(x) == f(Quad(x.k, x.l, x.i, x.j)) {
      TermSwapPairs(c, R, o, x);
    }
    Sum4SwapIJ(g1, f);
    Sum4SwapKL(g2, f);
    Sum4SwapPairs(g3, f);
  }

  /** Rotating a tensor with the minor and major symmetries of an elasticity
      tensor gives a tensor with the same symmetries. */
  lemma RotatePreservesSymmetry(c: Tensor4, R: Mat3)
    requires FullySymmetric(c)
    ensures FullySymmetric(Rotate(c, R))
  {
    forall o: Quad
      ensures && At4(Rotate(c, R), o) == At4(Rotate(c, R), Quad(o.j, o.i, o.k, o.l))
              && At4(Rotate(c, R), o) == At4(Rotate(c, R), Quad(o.i, o.j, o.l, o.k))
              && At4(Rotate(c, R), o) == At4(Rotate(c, R), Quad(o.k, o.l, o.i, o.j))
    {
      RotatedEntrySymmetric(c, R, o);
    }
  }

  /** f vanishes everywhere except at o, where it is v. */
  ghost predicate ConcentratedAt(f: Quad -> real, o: Quad, v: real)
  {
    forall x: Quad :: f(x) == if x == o then v else 0.0
  }

  lemma Sum1Concentrated(f: Quad -> real, o: Quad, v: real, p: Ix, q: Ix, r: Ix)
    requires ConcentratedAt(f, o, v)
    ensures Sum1(f, p, q, r) == if p == o.i && q == o.j && r == o.k then v else 0.0
  {
    assert f(Quad(p, q, r, 1)) == if Quad(p, q, r, 1) == o then v else 0.0;
    assert f(Quad(p, q, r, 2)) == if Quad(p, q, r, 2) == o then v else 0.0;
    assert f(Quad(p, q, r, 3)) == if Quad(p, q, r, 3) == o then v else 0.0;
  }

  lemma Sum2Concentrated(f: Quad -> real, o: Quad, v: real, p: Ix, q: Ix)
    requires ConcentratedAt(f, o, v)
    ensures Sum2(f, p, q) == if p == o.i && q == o.j then v else 0.0
  {
    Sum1Concentrated(f, o, v, p, q, 1);
    Sum1Concentrated(f, o, v, p, q, 2);
    Sum1Concentrated(f, o, v, p, q, 3);
  }

  lemma Sum3Concentrated(f: Quad -> real, o: Quad, v: real, p: Ix)
    requires ConcentratedAt(f, o, v)
    ensures Sum3(f, p) == if p == o.i then v else 0.0
  {
    Sum2Concentrated(f, o, v, p, 1);
    Sum2Concentrated(f, o, v, p, 2);
    Sum2Concentrated(f, o, v, p, 3);
  }

  /** A sum with a single nonzero term is that term. */
  lemma Sum4Concentrated(f: Quad -> real, o: Quad, v: real)
    requires ConcentratedAt(f, o, v)
    ensures Sum4(f) == v
  {
    Sum3Concentrated(f, o, v, 1);
    Sum3Concentrated(f, o, v, 2);
    Sum3Concentrated(f, o, v, 3);
  }

  /** Under the identity only the term x = o survives. */
  lemma TermIdentity(c: Tensor4, o: Quad, x: Quad)
    ensures Term(c, Identity3(), o, x) == if x == o then At4(c, o) else 0.0
  {
    var I := Identity3();
    if x != o {
      if o.i != x.i { assert At(I, o.i, x.i) == 0.0; }
      else if o.j != x.j { assert At(I, o.j, x.j) == 0.0; }
      else if o.k != x.k { assert At(I, o.k, x.k) == 0.0; }
      else { assert At(I, o.l, x.l) == 0.0; }
    }
  }

  /** Rotating by the identity changes nothing. */
  lemma RotateIdentity(c: Tensor4)
    ensures Rotate(c, Identity3()) == c
  {
    forall o: Quad ensures At4(Rotate(c, Identity3()), o) == At4(c, o) {
      var f := TermsOf(c, Identity3(), o);
      forall x: Quad ensures f(x) == if x == o then At4(c, o) else 0.0 {
        TermIdentity(c, o, x);
      }
      Sum4Concentrated(f, o, At4(c, o));
    }
    TensorExt(Rotate(c, Identity3()), c);
  }

  /** Compressing a tensor with the major symmetry gives a symmetric matrix. */
  lemma CompressSymmetric(t: Tensor4)
    requires FullySymmetric(t)
    ensures Symmetric6(Compress(t))
  {
    forall p: VIx, q: VIx ensures At6(Compress(t), p, q) == At6(Compress(t), q, p) {
      var x := Quad(VoigtMap(p).0, VoigtMap(p).1, VoigtMap(q).0, VoigtMap(q).1);
      assert At4(t, x) == At4(t, Quad(x.k, x.l, x.i, x.j));
    }
  }

  // transform_elasticity's shape dispatch

  /** A numpy array: its shape and its entries in order. */
  datatype NdArray = NdArray(shape: seq<nat>, data: seq<real>)

  function ShapeSize(shape: seq<nat>): nat
  {
    if |shape| == 0 then 1 else shape[0] * ShapeSize(shape[1..])
  }

  lemma ShapeSizes()
    ensures ShapeSize([6, 6]) == 36 && ShapeSize([3, 3, 3, 3]) == 81
  {
    assert [6, 6][1..] == [6] && [6][1..] == [];
    assert [3, 3, 3, 3][1..] == [3, 3, 3] && [3, 3, 3][1..] == [3, 3];
    assert [3, 3][1..] == [3] && [3][1..] == [];
  }

  /** The entries fill the shape; the two shapes the code accepts then hold a
      6x6 matrix and a 3x3x3x3 tensor. */
  predicate WellShaped(a: NdArray)
    ensures WellShaped(a) && a.shape == [6, 6] ==> |a.data| == 36
    ensures WellShaped(a) && a.shape == [3, 3, 3, 3] ==> |a.data| == 81
  {
    ShapeSizes();
    |a.data| == ShapeSize(a.shape)
  }

  /** What `transform_elasticity` returns: a 6x6 matrix is expanded, rotated
      and compressed again (the compression may fail its symmetry assertions);
      a 3x3x3x3 tensor is rotated; any other shape is a ValueError. */
  ghost function Transformed(c: NdArray, R: Mat3): Result<NdArray>
    requires WellShaped(c)
  {
    if c.shape == [6, 6] then
      match CompressChecked(Rotate(Expand(c.data), R))
      case Ok(C) => Ok(NdArray([6, 6], C))
      case Err(e) => Err(e)
    else if c.shape == [3, 3, 3, 3] then
      Ok(NdArray([3, 3, 3, 3], Rotate(c.data, R)))
    else
      Err(ValueError)
  }

  method TransformElasticity(c: NdArray, R: Mat3) returns (r: Result<NdArray>)
    requires WellShaped(c)
    ensures r == Transformed(c, R)
  {
    if c.shape == [6, 6] {
      var t := MatrixToTensor(c.data);
      var cp := RotateTensor(t, R);
      var m := TensorToMatrix(cp);
      match m
      case Ok(C) => r := Ok(NdArray([6, 6], C));
      case Err(e) => r := Err(e);
    } else if c.shape == [3, 3, 3, 3] {
      var cp := RotateTensor(c.data, R);
      r := Ok(NdArray([3, 3, 3, 3], cp));
    } else {
      r := Err(ValueError);
    }
  }

  /** Only the two accepted shapes give a result, and the result keeps the
      shape of the input. */
  lemma TransformedShapes(c: NdArray, R: Mat3)
    requires WellShaped(c)
    ensures Transformed(c, R) == Err(ValueError) <==> c.shape != [6, 6] && c.shape != [3, 3, 3, 3]
    ensures Transformed(c, R).Ok? ==> Transformed(c, R).value.shape == c.shape
  {
  }

  /** A symmetric 6x6 matrix transforms without tripping an assertion into a
      symmetric 6x6 matrix, and a fully symmetric tensor into one. */
  lemma TransformedSymmetric(c: NdArray, R: Mat3)
    requires WellShaped(c)
    requires c.shape == [6, 6] ==> Symmetric6(c.data)
    requires c.shape == [3, 3, 3, 3] ==> FullySymmetric(c.data)
    ensures c.shape == [6, 6] ==>
      Transformed(c, R).Ok? && Symmetric6(Transformed(c, R).value.data)
    ensures c.shape == [3, 3, 3, 3] ==> FullySymmetric(Transformed(c, R).value.data)
  {
    if c.shape == [6, 6] {
      ExpandSymmetric(c.data);
      var t := Rotate(Expand(c.data), R);
      RotatePreservesSymmetry(Expand(c.data), R);
      SymmetricPassesChecks(t);
      CompressSymmetric(t);
    } else if c.shape == [3, 3, 3, 3] {
      RotatePreservesSymmetry(c.data, R);
    }
  }

  /** The identity rotation returns a symmetric 6x6 matrix or any 3x3x3x3
      tensor unchanged. */
  lemma TransformedIdentity(c: NdArray)
    requires WellShaped(c)
    requires c.shape == [6, 6] ==> Symmetric6(c.data)
    ensures c.shape == [6, 6] || c.shape == [3, 3, 3, 3] ==>
      Transformed(c, Identity3()) == Ok(c)
  {
    if c.shape == [6, 6] {
      RotateIdentity(Expand(c.data));
      MatrixTensorRoundTrip(c.data);
    } else if c.shape == [3, 3, 3, 3] {
      RotateIdentity(c.data);
    }
  }
}
