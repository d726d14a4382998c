/** The tetragonal-film script (tetragonal_checker.py): every film is taken
    to be tetragonal, so the relations are chosen by the substrate's
    symmetry alone. */
module TetragonalChecker {
  import opened Crystal
  import opened Geometry
  import opened Table
  import LatticeMatcher

  /** What the script divides by: both a always, the film's c against
      cubic and hexagonal substrates, and the substrate's c when it is
      hexagonal. Substrates of any other symmetry are skipped. */
  predicate Ready(f: Material, s: Material)
  {
    match s.sym
    case Cubic => Positive(f) && s.a > 0.0
    case Tetragonal => f.a > 0.0 && s.a > 0.0
    case Hexagonal => Positive(f) && Positive(s)
    case Other(_) => true
  }

  /** Cubic substrate (cubic_sub): the direct relation, and the tetragonal
      a-plane on cubic (110). The c ratio is rounded against the film's c but
      its mismatch multiplies the film's a (tetragonal_checker.py:49); the
      line is guarded by the film's c/a test and the a mismatch, and the c
      mismatch is never tested. There is no 45° relation. */
  function CubicSub(sqrt: real -> real, f: Material, s: Material): (t: seq<Candidate>)
    requires IsSqrt(sqrt) && Positive(f) && s.a > 0.0
    ensures |t| == 2 && FromPair(t, f, s)
  {
    var a := Measure(s.a, f.a);
    var c := CrossMeasure(Diagonal(sqrt, s.a), f.c, f.a);
    [ OneAxis(f, Plain, s, Plain, a),
      TwoAxis(f, APlane, s, F110, a, c, true, [RatioCheck(sqrt, f.c, f.a), Abs(a.mismatch)]) ]
  }

  lemma CubicSubRows(sqrt: real -> real, f: Material, s: Material, tol: real)
    requires IsSqrt(sqrt) && Positive(f) && s.a > 0.0
    ensures var rows := Select(CubicSub(sqrt, f, s), tol);
            var a := Measure(s.a, f.a);
            var c := CrossMeasure(Diagonal(sqrt, s.a), f.c, f.a);
            AllFrom(rows, f, s) && LabelsAmong(rows, [(Plain, Plain), (APlane, F110)])
            && (Reports(rows, Plain, Plain, a, None) <==> Accepts(a, tol))
            && (Reports(rows, APlane, F110, a, Some(c))
                <==> RatioCheck(sqrt, f.c, f.a) < tol && Accepts(a, tol))
  {
    var t := CubicSub(sqrt, f, s);
    SelectShape(t, tol, f, s);
    SelectSingledOut(t, tol, 0);
    PassesExpanded(t[0], tol);
    SelectSingledOut(t, tol, 1);
    PassesExpanded(t[1], tol);
  }

  /** Tetragonal substrate (tetragonal_sub): only the direct relation. */
  function TetragonalSub(f: Material, s: Material): (t: seq<Candidate>)
    requires f.a > 0.0 && s.a > 0.0
    ensures |t| == 1 && FromPair(t, f, s)
  {
    Direct(f, s)
  }

  /** Hexagonal substrate (hexagonal_sub): the canonical matcher's relations
      for a tetragonal film on a hexagonal substrate. */
  function HexagonalSub(sqrt: real -> real, f: Material, s: Material): (t: seq<Candidate>)
    requires IsSqrt(sqrt) && Positive(f) && Positive(s)
    ensures |t| == 2 && FromPair(t, f, s)
  {
    LatticeMatcher.TetragonalOnHexagonal(sqrt, f, s)
  }

  /** On a hexagonal substrate both lines need the a mismatch, the a-plane
      line the c mismatch and the r-plane line the mismatch of √(c² + 3a²). */
  lemma HexagonalSubRows(sqrt: real -> real, f: Material, s: Material, tol: real)
    requires IsSqrt(sqrt) && Positive(f) && Positive(s)
    ensures var rows := Select(HexagonalSub(sqrt, f, s), tol);
            var a := Measure(s.a, f.a);
            var c := Measure(s.c, f.c);
            var cr := Measure(RPlaneLength(sqrt, s.a, s.c), f.c);
            AllFrom(rows, f, s) && LabelsAmong(rows, [(APlane, APlane), (APlane, RPlane)])
            && (Reports(rows, APlane, APlane, a, Some(c)) <==> Accepts(a, tol) && Accepts(c, tol))
            && (Reports(rows, APlane, RPlane, a, Some(cr)) <==> Accepts(a, tol) && Accepts(cr, tol))
  {
    LatticeMatcher.TetragonalOnHexagonalRows(sqrt, f, s, tol);
  }

  /** search_film_file: the relations for one film against one substrate,
      chosen by the substrate's symmetry. */
  function Relations(sqrt: real -> real, f: Material, s: Material): (t: seq<Candidate>)
    requires IsSqrt(sqrt) && Ready(f, s)
    ensures |t| <= 2 && FromPair(t, f, s)
    ensures s.sym.Other? ==> t == []
  {
    match s.sym
    case Cubic => CubicSub(sqrt, f, s)
    case Tetragonal => TetragonalSub(f, s)
    case Hexagonal => HexagonalSub(sqrt, f, s)
    case Other(_) => []
  }

  /** Changing a film's symmetry changes only that column of its lines. */
  lemma IgnoresFilmSym(sqrt: real -> real, f: Material, s: Material, x: Sym, tol: real)
    requires IsSqrt(sqrt) && Ready(f, s)
    ensures Select(Relations(sqrt, f.(sym := x), s), tol) == WithFilmSym(Select(Relations(sqrt, f, s), tol), x)
  {
    assert Relations(sqrt, f.(sym := x), s) == RelabelFilm(Relations(sqrt, f, s), x);
    SelectRelabel(Relations(sqrt, f, s), tol, x);
  }
}
