/** `Cij_symmetry`: for each crystal class, the sparsity pattern of its 6x6
    elastic-constant matrix. Entry k (or -k) says that C[p, q] is (minus) the
    k-th independent constant; 0 says that C[p, q] vanishes. */
module CijSymmetry {
  import opened Voigt
  import opened Outcomes

  datatype CrystalClass =
    | Cubic | TrigonalHigh | TrigonalLow | TetragonalHigh | TetragonalLow
    | Orthorhombic | Monoclinic | Triclinic

  /** The dictionary key of each class. */
  function KeyOf(c: CrystalClass): string
  {
    match c
    case Cubic => "cubic"
    case TrigonalHigh => "trigonal_high"
    case TrigonalLow => "trigonal_low"
    case TetragonalHigh => "tetragonal_high"
    case TetragonalLow => "tetragonal_low"
    case Orthorhombic => "orthorhombic"
    case Monoclinic => "monoclinic"
    case Triclinic => "triclinic"
  }

  /** Six rows of six entries, as the table is written. */
  type Pattern = m: seq<seq<int>> | |m| == 6 && forall r :: 0 <= r < 6 ==> |m[r]| == 6
    witness seq(6, r => seq(6, k => 0))

  function Entry(m: Pattern, p: VIx, q: VIx): int
  {
    m[p - 1][q - 1]
  }

  predicate PatternSymmetric(m: Pattern)
  {
    forall p: VIx, q: VIx :: Entry(m, p, q) == Entry(m, q, p)
  }

  function CubicTable(): Pattern
  {
    [[1, 7, 7, 0, 0, 0],
     [7, 1, 7, 0, 0, 0],
     [7, 7, 1, 0, 0, 0],
     [0, 0, 0, 4, 0, 0],
     [0, 0, 0, 0, 4, 0],
     [0, 0, 0, 0, 0, 4]]
  }

  function TrigonalHighTable(): Pattern
  {
    [[1, 7, 8, 9, 10, 0],
     [7, 1, 8, 0, -9, 0],
     [8, 8, 3, 0, 0, 0],
     [9, -9, 0, 4, 0, 0],
     [10, 0, 0, 0, 4, 0],
     [0, 0, 0, 0, 0, 6]]
  }

  function TrigonalLowTable(): Pattern
  {
    [[1, 7, 8, 9, 10, 0],
     [7, 1, 8, -9, -10, 0],
     [8, 8, 3, 0, 0, 0],
     [9, -9, 0, 4, 0, -10],
     [10, -10, 0, 0, 4, 9],
     [0, 0, 0, -10, 9, 6]]
  }

  function TetragonalHighTable(): Pattern
  {
    [[1, 7, 8, 0, 0, 0],
     [7, 1, 8, 0, 0, 0],
     [8, 8, 3, 0, 0, 0],
     [0, 0, 0, 4, 0, 0],
     [0, 0, 0, 0, 4, 0],
     [0, 0, 0, 0, 0, 6]]
  }

  function TetragonalLowTable(): Pattern
  {
    [[1, 7, 8, 0, 0, 11],
     [7, 1, 8, 0, 0, -11],
     [8, 8, 3, 0, 0, 0],
     [0, 0, 0, 4, 0, 0],
     [0, 0, 0, 0, 4, 0],
     [11, -11, 0, 0, 0, 6]]
  }

  function OrthorhombicTable(): Pattern
  {
    [[1, 7, 8, 0, 0, 0],
     [7, 2, 12, 0, 0, 0],
     [8, 12, 3, 0, 0, 0],
     [0, 0, 0, 4, 0, 0],
     [0, 0, 0, 0, 5, 0],
     [0, 0, 0, 0, 0, 6]]
  }

  function MonoclinicTable(): Pattern
  {
    [[1, 7, 8, 0, 10, 0],
     [7, 2, 12, 0, 14, 0],
     [8, 12, 3, 0, 17, 0],
     [0, 0, 0, 4, 0, 20],
     [10, 14, 17, 0, 5, 0],
     [0, 0, 0, 20, 0, 6]]
  }

  function TriclinicTable(): Pattern
  {
    [[1, 7, 8, 9, 10, 11],
     [7, 2, 12, 13, 14, 15],
     [8, 12, 3, 16, 17, 18],
     [9, 13, 16, 4, 19, 20],
     [10, 14, 17, 19, 5, 21],
     [11, 15, 18, 20, 21, 6]]
  }

  function Table(c: CrystalClass): Pattern
  {
    match c
    case Cubic => CubicTable()
    case TrigonalHigh => TrigonalHighTable()
    case TrigonalLow => TrigonalLowTable()
    case TetragonalHigh => TetragonalHighTable()
    case TetragonalLow => TetragonalLowTable()
    case Orthorhombic => OrthorhombicTable()
    case Monoclinic => MonoclinicTable()
    case Triclinic => TriclinicTable()
  }

  /** Dictionary lookup `Cij_symmetry[key]`; `None` is the KeyError. */
  function Lookup(key: string): Option<Pattern>
  {
    if key == "cubic" then Some(Table(Cubic))
    else if key == "trigonal_high" then Some(Table(TrigonalHigh))
    else if key == "trigonal_low" then Some(Table(TrigonalLow))
    else if key == "tetragonal_high" then Some(Table(TetragonalHigh))
    else if key == "tetragonal_low" then Some(Table(TetragonalLow))
    else if key == "orthorhombic" then Some(Table(Orthorhombic))
    else if key == "monoclinic" then Some(Table(Monoclinic))
    else if key == "triclinic" then Some(Table(Triclinic))
    else None
  }

  /** Each class name looks up that class's table. */
  lemma LookupOfKey(c: CrystalClass)
    ensures Lookup(KeyOf(c)) == Some(Table(c))
  {
    match c
    case Cubic =>
    case TrigonalHigh =>
    case TrigonalLow =>
    case TetragonalHigh =>
    case TetragonalLow =>
    case Orthorhombic =>
    case Monoclinic =>
    case Triclinic =>
  }

  /** Any other key is a KeyError. */
  lemma LookupOnlyKeys(key: string)
    requires Lookup(key).Some?
    ensures exists c :: KeyOf(c) == key && Lookup(key) == Some(Table(c))
  {
    if key == "cubic" { assert KeyOf(Cubic) == key; }
    else if key == "trigonal_high" { assert KeyOf(TrigonalHigh) == key; }
    else if key == "trigonal_low" { assert KeyOf(TrigonalLow) == key; }
    else if key == "tetragonal_high" { assert KeyOf(TetragonalHigh) == key; }
    else if key == "tetragonal_low" { assert KeyOf(TetragonalLow) == key; }
    else if key == "orthorhombic" { assert KeyOf(Orthorhombic) == key; }
    else if key == "monoclinic" { assert KeyOf(Monoclinic) == key; }
    else { assert KeyOf(Triclinic) == key; }
  }

  /** Enumerates the 15 pairs p < q, checking each against the table. */
  lemma UpperPairs(t: Pattern, p: VIx, q: VIx)
    requires t == CubicTable() || t == TrigonalLowTable() || t == TetragonalHighTable()
          || t == TetragonalLowTable() || t == OrthorhombicTable() || t == MonoclinicTable()
          || t == TriclinicTable()
    requires p < q
    ensures Entry(t, p, q) == Entry(t, q, p)
  {
    if p == 1 {
      if q == 2 {} else if q == 3 {} else if q == 4 {} else if q == 5 {} else {}
    } else if p == 2 {
      if q == 3 {} else if q == 4 {} else if q == 5 {} else {}
    } else if p == 3 {
      if q == 4 {} else if q == 5 {} else {}
    } else if p == 4 {
      if q == 5 {} else {}
    }
  }

  lemma SymmetricByCases(t: Pattern)
    requires forall p: VIx, q: VIx :: p < q ==> Entry(t, p, q) == Entry(t, q, p)
    ensures PatternSymmetric(t)
  {
  }

  /** Every table except `trigonal_high` is a symmetric pattern. */
  lemma TablesSymmetric(c: CrystalClass)
    requires c != TrigonalHigh
    ensures PatternSymmetric(Table(c))
  {
    var t := Table(c);
    forall p: VIx, q: VIx | p < q ensures Entry(t, p, q) == Entry(t, q, p) {
      UpperPairs(t, p, q);
    }
    SymmetricByCases(t);
  }

  /** `trigonal_high` is not symmetric: C[2,5] = -9 but C[5,2] = 0, and
      C[4,2] = -9 but C[2,4] = 0. */
  lemma TrigonalHighAsymmetric()
    ensures Entry(Table(TrigonalHigh), 2, 5) == -9 && Entry(Table(TrigonalHigh), 5, 2) == 0
    ensures Entry(Table(TrigonalHigh), 4, 2) == -9 && Entry(Table(TrigonalHigh), 2, 4) == 0
    ensures !PatternSymmetric(Table(TrigonalHigh))
  {
    assert Entry(Table(TrigonalHigh), 2, 5) != Entry(Table(TrigonalHigh), 5, 2);
  }

}
