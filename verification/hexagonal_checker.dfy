/** The hexagonal-film script (hexagonal_checker.py): every film is taken to
    be hexagonal, so the relations are chosen by the substrate's symmetry
    alone. */
module HexagonalChecker {
  import opened Crystal
  import opened Geometry
  import opened Table
  import LatticeMatcher

  /** What the script divides by: both a always, and both c when the
      substrate is tetragonal. Substrates of any other symmetry are
      skipped. */
  predicate Ready(f: Material, s: Material)
  {
    match s.sym
    case Cubic => f.a > 0.0 && s.a > 0.0
    case Tetragonal => Positive(f) && Positive(s)
    case Hexagonal => f.a > 0.0 && s.a > 0.0
    case Other(_) => true
  }

  /** Cubic substrate (cubic_sub): the basal plane on cubic (111), and the
      a-plane and r-plane on cubic (110), with the canonical matcher's axes:
      each mismatch divides by √2 and then multiplies by a
      (hexagonal_checker.py:58-61), and the c ratio is rounded against the
      film's a. Each (110) line is guarded only by the a mismatch and a c/a
      test: the film's own c/a, or the substrate's r-plane side against the
      film's a. */
  function CubicSub(sqrt: real -> real, f: Material, s: Material): (t: seq<Candidate>)
    requires IsSqrt(sqrt) && f.a > 0.0 && s.a > 0.0
    ensures |t| == 3 && FromPair(t, f, s)
  {
    var rp := RPlaneLength(sqrt, s.a, s.c);
    var p := SkewedMeasure(sqrt, s.a, f.a, f.a);
    var a := Measure(s.a, f.a);
    var c := SkewedMeasure(sqrt, s.a, f.a, f.c);
    var cr := SkewedMeasure(sqrt, s.a, rp, rp);
    [ OneAxis(f, Plain, s, F111, p),
      TwoAxis(f, APlane, s, F110, a, c, true, [Abs(a.mismatch), RatioCheck(sqrt, f.c, f.a)]),
      TwoAxis(f, RPlane, s, F110, a, cr, true, [Abs(a.mismatch), RatioCheck(sqrt, rp, f.a)]) ]
  }

  lemma CubicSubRows(sqrt: real -> real, f: Material, s: Material, tol: real)
    requires IsSqrt(sqrt) && f.a > 0.0 && s.a > 0.0
    ensures var rows := Select(CubicSub(sqrt, f, s), tol);
            var rp := RPlaneLength(sqrt, s.a, s.c);
            var p := SkewedMeasure(sqrt, s.a, f.a, f.a);
            var a := Measure(s.a, f.a);
            var c := SkewedMeasure(sqrt, s.a, f.a, f.c);
            var cr := SkewedMeasure(sqrt, s.a, rp, rp);
            AllFrom(rows, f, s) && LabelsAmong(rows, [(Plain, F111), (APlane, F110), (RPlane, F110)])
            && (Reports(rows, Plain, F111, p, None) <==> Accepts(p, tol))
            && (Reports(rows, APlane, F110, a, Some(c))
                <==> Accepts(a, tol) && RatioCheck(sqrt, f.c, f.a) < tol)
            && (Reports(rows, RPlane, F110, a, Some(cr))
                <==> Accepts(a, tol) && RatioCheck(sqrt, rp, f.a) < tol)
  {
    var t := CubicSub(sqrt, f, s);
    SelectShape(t, tol, f, s);
    SelectSingledOut(t, tol, 0);
    PassesExpanded(t[0], tol);
    SelectSingledOut(t, tol, 1);
    PassesExpanded(t[1], tol);
    SelectSingledOut(t, tol, 2);
    PassesExpanded(t[2], tol);
  }

  /** Tetragonal substrate (tetragonal_sub): the canonical matcher's
      relations for a hexagonal film on a tetragonal substrate, with the
      r-plane side √(c² + 3a²) taken from the film. */
  function TetragonalSub(sqrt: real -> real, f: Material, s: Material): (t: seq<Candidate>)
    requires IsSqrt(sqrt) && Positive(f) && Positive(s)
    ensures |t| == 2 && FromPair(t, f, s)
  {
    LatticeMatcher.HexagonalOnTetragonal(sqrt, f, s)
  }

  /** On a tetragonal substrate both lines need the a mismatch, and the c
      mismatch or that of the film's r-plane side. */
  lemma TetragonalSubRows(sqrt: real -> real, f: Material, s: Material, tol: real)
    requires IsSqrt(sqrt) && Positive(f) && Positive(s)
    ensures var rows := Select(TetragonalSub(sqrt, f, s), tol);
            var a := Measure(s.a, f.a);
            var c := Measure(s.c, f.c);
            var cr := Measure(s.c, RPlaneLength(sqrt, f.a, f.c));
            AllFrom(rows, f, s) && LabelsAmong(rows, [(APlane, APlane), (RPlane, APlane)])
            && (Reports(rows, APlane, APlane, a, Some(c)) <==> Accepts(a, tol) && Accepts(c, tol))
            && (Reports(rows, RPlane, APlane, a, Some(cr)) <==> Accepts(a, tol) && Accepts(cr, tol))
  {
    LatticeMatcher.HexagonalOnTetragonalRows(sqrt, f, s, tol);
  }

  /** Hexagonal substrate (hexagonal_sub): only the direct relation. */
  function HexagonalSub(f: Material, s: Material): (t: seq<Candidate>)
    requires f.a > 0.0 && s.a > 0.0
    ensures |t| == 1 && FromPair(t, f, s)
  {
    Direct(f, s)
  }

  /** search_film_file: the relations for one film against one substrate,
      chosen by the substrate's symmetry. */
  function Relations(sqrt: real -> real, f: Material, s: Material): (t: seq<Candidate>)
    requires IsSqrt(sqrt) && Ready(f, s)
    ensures |t| <= 3 && FromPair(t, f, s)
    ensures s.sym.Other? ==> t == []
  {
    match s.sym
    case Cubic => CubicSub(sqrt, f, s)
    case Tetragonal => TetragonalSub(sqrt, f, s)
    case Hexagonal => HexagonalSub(f, s)
    case Other(_) => []
  }

  /** Changing a film's symmetry changes only that column of its lines. */
  lemma IgnoresFilmSym(sqrt: real -> real, f: Material, s: Material, x: Sym, tol: real)
    requires IsSqrt(sqrt) && Ready(f, s)
    ensures Select(Relations(sqrt, f.(sym := x), s), tol) == WithFilmSym(Select(Relations(sqrt, f, s), tol), x)
  {
    assert Relations(sqrt, f.(sym := x), s) == RelabelFilm(Relations(sqrt, f, s), x);
    SelectRelabel(Relations(sqrt, f, s), tol, x);
  }
}
