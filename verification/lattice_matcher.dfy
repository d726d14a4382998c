/** The canonical matcher (lattice_matcher.py): for each film and substrate
    pair, the orientation relations its two symmetries admit, each with the
    tests that decide whether its line is written. */
module LatticeMatcher {
  import opened Crystal
  import opened Commensurate
  import opened Geometry
  import opened Table

  // ---- cubic film ----------------------------------------------------------

  /** Cubic film on cubic substrate, and tetragonal film on tetragonal
      substrate: square face on square face, and turned 45°. */
  function SquareFaces(sqrt: real -> real, f: Material, s: Material): (t: seq<Candidate>)
    requires IsSqrt(sqrt) && f.a > 0.0 && s.a > 0.0
    ensures |t| == 2 && FromPair(t, f, s)
  {
    [ OneAxis(f, Plain, s, Plain, Measure(s.a, f.a)),
      OneAxis(f, Rot45, s, Plain, Measure(Diagonal(sqrt, s.a), f.a)) ]
  }

  lemma SquareFacesRows(sqrt: real -> real, f: Material, s: Material, tol: real)
    requires IsSqrt(sqrt) && f.a > 0.0 && s.a > 0.0
    ensures var rows := Select(SquareFaces(sqrt, f, s), tol);
            var a := Measure(s.a, f.a);
            var d := Measure(Diagonal(sqrt, s.a), f.a);
            AllFrom(rows, f, s) && LabelsAmong(rows, [(Plain, Plain), (Rot45, Plain)])
            && (Reports(rows, Plain, Plain, a, None) <==> Accepts(a, tol))
            && (Reports(rows, Rot45, Plain, d, None) <==> Accepts(d, tol))
  {
    var t := SquareFaces(sqrt, f, s);
    SelectShape(t, tol, f, s);
    SelectSingledOut(t, tol, 0);
    PassesExpanded(t[0], tol);
    SelectSingledOut(t, tol, 1);
    PassesExpanded(t[1], tol);
  }

  /** Cubic film on tetragonal substrate: the two square-face relations, and
      cubic (110) on the tetragonal a-plane when the substrate's c/a is near √2. */
  function CubicOnTetragonal(sqrt: real -> real, f: Material, s: Material): (t: seq<Candidate>)
    requires IsSqrt(sqrt) && f.a > 0.0 && Positive(s)
    ensures |t| == 3 && FromPair(t, f, s)
  {
    var a := Measure(s.a, f.a);
    var c := Measure(s.c, Diagonal(sqrt, f.a));
    [ OneAxis(f, Plain, s, Plain, a),
      OneAxis(f, Rot45, s, Plain, Measure(Diagonal(sqrt, s.a), f.a)),
      TwoAxis(f, F110, s, APlane, a, c, true, [RatioCheck(sqrt, s.c, s.a), Abs(c.mismatch), Abs(a.mismatch)]) ]
  }

  lemma CubicOnTetragonalRows(sqrt: real -> real, f: Material, s: Material, tol: real)
    requires IsSqrt(sqrt) && f.a > 0.0 && Positive(s)
    ensures var rows := Select(CubicOnTetragonal(sqrt, f, s), tol);
            var a := Measure(s.a, f.a);
            var d := Measure(Diagonal(sqrt, s.a), f.a);
            var c := Measure(s.c, Diagonal(sqrt, f.a));
            AllFrom(rows, f, s) && LabelsAmong(rows, [(Plain, Plain), (Rot45, Plain), (F110, APlane)])
            && (Reports(rows, Plain, Plain, a, None) <==> Accepts(a, tol))
            && (Reports(rows, Rot45, Plain, d, None) <==> Accepts(d, tol))
            && (Reports(rows, F110, APlane, a, Some(c))
                <==> RatioCheck(sqrt, s.c, s.a) < tol && Accepts(c, tol) && Accepts(a, tol))
  {
    var t := CubicOnTetragonal(sqrt, f, s);
    SelectShape(t, tol, f, s);
    SelectSingledOut(t, tol, 0);
    PassesExpanded(t[0], tol);
    SelectSingledOut(t, tol, 1);
    PassesExpanded(t[1], tol);
    SelectSingledOut(t, tol, 2);
    PassesExpanded(t[2], tol);
  }

  /** Cubic film on hexagonal substrate: cubic (111) on the basal plane, and
      cubic (110) on the a-plane and on the r-plane. The two (110) lines test
      the c mismatch for being non-zero rather than below the tolerance. */
  function CubicOnHexagonal(sqrt: real -> real, f: Material, s: Material): (t: seq<Candidate>)
    requires IsSqrt(sqrt) && f.a > 0.0 && Positive(s)
    ensures |t| == 3 && FromPair(t, f, s)
  {
    var a := Measure(s.a, f.a);
    var c := Measure(s.c, Diagonal(sqrt, f.a));
    var rp := RPlaneLength(sqrt, s.a, s.c);
    var cr := Measure(rp, Diagonal(sqrt, f.a));
    [ OneAxis(f, F111, s, Plain, Measure(s.a, Diagonal(sqrt, f.a))),
      TwoAxis(f, F110, s, APlane, a, c, c.mismatch != 0.0, [RatioCheck(sqrt, s.c, s.a), Abs(a.mismatch)]),
      TwoAxis(f, F110, s, RPlane, a, cr, cr.mismatch != 0.0, [RatioCheck(sqrt, rp, s.a), Abs(a.mismatch)]) ]
  }

  lemma CubicOnHexagonalRows(sqrt: real -> real, f: Material, s: Material, tol: real)
    requires IsSqrt(sqrt) && f.a > 0.0 && Positive(s)
    ensures var rows := Select(CubicOnHexagonal(sqrt, f, s), tol);
            var a := Measure(s.a, f.a);
            var p := Measure(s.a, Diagonal(sqrt, f.a));
            var c := Measure(s.c, Diagonal(sqrt, f.a));
            var rp := RPlaneLength(sqrt, s.a, s.c);
            var cr := Measure(rp, Diagonal(sqrt, f.a));
            AllFrom(rows, f, s) && LabelsAmong(rows, [(F111, Plain), (F110, APlane), (F110, RPlane)])
            && (Reports(rows, F111, Plain, p, None) <==> Accepts(p, tol))
            && (Reports(rows, F110, APlane, a, Some(c))
                <==> RatioCheck(sqrt, s.c, s.a) < tol && c.mismatch != 0.0 && Accepts(a, tol))
            && (Reports(rows, F110, RPlane, a, Some(cr))
                <==> RatioCheck(sqrt, rp, s.a) < tol && cr.mismatch != 0.0 && Accepts(a, tol))
  {
    var t := CubicOnHexagonal(sqrt, f, s);
    SelectShape(t, tol, f, s);
    SelectSingledOut(t, tol, 0);
    PassesExpanded(t[0], tol);
    SelectSingledOut(t, tol, 1);
    PassesExpanded(t[1], tol);
    SelectSingledOut(t, tol, 2);
    PassesExpanded(t[2], tol);
  }

  /** Consequence of the truthiness test: a substrate whose c is an exact
      multiple of √2 times the film's a never gets the a-plane line, however
      large the tolerance. */
  lemma CubicOnHexagonalExactCSuppressed(sqrt: real -> real, f: Material, s: Material, tol: real, n: int)
    requires IsSqrt(sqrt) && f.a > 0.0 && Positive(s)
    requires n >= 1 && s.c == n as real * Diagonal(sqrt, f.a)
    ensures !Labelled(Select(CubicOnHexagonal(sqrt, f, s), tol), F110, APlane)
  {
    ExactMultiple(s.c, Diagonal(sqrt, f.a), n);
    CubicOnHexagonalClosed(sqrt, f, s, tol);
  }

  /** The a-plane line is absent whenever the c mismatch is exactly zero. */
  lemma CubicOnHexagonalClosed(sqrt: real -> real, f: Material, s: Material, tol: real)
    requires IsSqrt(sqrt) && f.a > 0.0 && Positive(s)
    requires Measure(s.c, Diagonal(sqrt, f.a)).mismatch == 0.0
    ensures !Labelled(Select(CubicOnHexagonal(sqrt, f, s), tol), F110, APlane)
  {
    var t := CubicOnHexagonal(sqrt, f, s);
    assert !t[1].gate;
    SelectSingledOut(t, tol, 1);
  }

  // ---- tetragonal film -----------------------------------------------------

  /** Tetragonal film on cubic substrate: the square-face relations, and the
      tetragonal a-plane on cubic (110). The c ratio is rounded against the
      film's c but its mismatch multiplies the film's a. */
  function TetragonalOnCubic(sqrt: real -> real, f: Material, s: Material): (t: seq<Candidate>)
    requires IsSqrt(sqrt) && Positive(f) && s.a > 0.0
    ensures |t| == 3 && FromPair(t, f, s)
  {
    var a := Measure(s.a, f.a);
    var c := CrossMeasure(Diagonal(sqrt, s.a), f.c, f.a);
    [ OneAxis(f, Plain, s, Plain, a),
      OneAxis(f, Rot45, s, Plain, Measure(Diagonal(sqrt, s.a), f.a)),
      TwoAxis(f, APlane, s, F110, a, c, true, [RatioCheck(sqrt, f.c, f.a), Abs(c.mismatch), Abs(a.mismatch)]) ]
  }

  lemma TetragonalOnCubicRows(sqrt: real -> real, f: Material, s: Material, tol: real)
    requires IsSqrt(sqrt) && Positive(f) && s.a > 0.0
    ensures var rows := Select(TetragonalOnCubic(sqrt, f, s), tol);
            var a := Measure(s.a, f.a);
            var d := Measure(Diagonal(sqrt, s.a), f.a);
            var c := CrossMeasure(Diagonal(sqrt, s.a), f.c, f.a);
            AllFrom(rows, f, s) && LabelsAmong(rows, [(Plain, Plain), (Rot45, Plain), (APlane, F110)])
            && (Reports(rows, Plain, Plain, a, None) <==> Accepts(a, tol))
            && (Reports(rows, Rot45, Plain, d, None) <==> Accepts(d, tol))
            && (Reports(rows, APlane, F110, a, Some(c))
                <==> RatioCheck(sqrt, f.c, f.a) < tol && Accepts(c, tol) && Accepts(a, tol))
  {
    var t := TetragonalOnCubic(sqrt, f, s);
    var c := CrossMeasure(Diagonal(sqrt, s.a), f.c, f.a);
    SelectShape(t, tol, f, s);
    SelectSingledOut(t, tol, 0);
    PassesExpanded(t[0], tol);
    SelectSingledOut(t, tol, 1);
    PassesExpanded(t[1], tol);
    SelectSingledOut(t, tol, 2);
    PassesExpanded(t[2], tol);
  }

  /** Tetragonal film on hexagonal substrate: the tetragonal a-plane on the
      hexagonal a-plane and on the r-plane, whose c side is √(c² + 3a²). */
  function TetragonalOnHexagonal(sqrt: real -> real, f: Material, s: Material): (t: seq<Candidate>)
    requires IsSqrt(sqrt) && Positive(f) && Positive(s)
    ensures |t| == 2 && FromPair(t, f, s)
  {
    var a := Measure(s.a, f.a);
    var c := Measure(s.c, f.c);
    var cr := Measure(RPlaneLength(sqrt, s.a, s.c), f.c);
    [ TwoAxis(f, APlane, s, APlane, a, c, true, [Abs(a.mismatch), Abs(c.mismatch)]),
      TwoAxis(f, APlane, s, RPlane, a, cr, true, [Abs(a.mismatch), Abs(cr.mismatch)]) ]
  }

  lemma TetragonalOnHexagonalRows(sqrt: real -> real, f: Material, s: Material, tol: real)
    requires IsSqrt(sqrt) && Positive(f) && Positive(s)
    ensures var rows := Select(TetragonalOnHexagonal(sqrt, f, s), tol);
            var a := Measure(s.a, f.a);
            var c := Measure(s.c, f.c);
            var rp := RPlaneLength(sqrt, s.a, s.c);
            var cr := Measure(rp, f.c);
            AllFrom(rows, f, s) && LabelsAmong(rows, [(APlane, APlane), (APlane, RPlane)])
            && (Reports(rows, APlane, APlane, a, Some(c))
                <==> Accepts(a, tol) && Accepts(c, tol))
            && (Reports(rows, APlane, RPlane, a, Some(cr))
                <==> Accepts(a, tol) && Accepts(cr, tol))
  {
    var t := TetragonalOnHexagonal(sqrt, f, s);
    SelectShape(t, tol, f, s);
    SelectSingledOut(t, tol, 0);
    PassesExpanded(t[0], tol);
    SelectSingledOut(t, tol, 1);
    PassesExpanded(t[1], tol);
  }

  // ---- hexagonal film ------------------------------------------------------

  /** Hexagonal film on cubic substrate: the basal plane on cubic (111), and
      the a-plane and r-plane on cubic (110). Every mismatch here divides by
      √2 and then multiplies by a; the r-plane side is built from the
      substrate's constants; the c ratio is rounded against the film's a; and
      the r-plane line tests the c mismatch twice and its own never. */
  function HexagonalOnCubic(sqrt: real -> real, f: Material, s: Material): (t: seq<Candidate>)
    requires IsSqrt(sqrt) && f.a > 0.0 && s.a > 0.0
    ensures |t| == 3 && FromPair(t, f, s)
  {
    var rp := RPlaneLength(sqrt, s.a, s.c);
    var p := SkewedMeasure(sqrt, s.a, f.a, f.a);
    var a := Measure(s.a, f.a);
    var c := SkewedMeasure(sqrt, s.a, f.a, f.c);
    var cr := SkewedMeasure(sqrt, s.a, rp, rp);
    [ OneAxis(f, Plain, s, F111, p),
      TwoAxis(f, APlane, s, F110, a, c, true, [RatioCheck(sqrt, f.c, f.a), Abs(c.mismatch), Abs(a.mismatch)]),
      TwoAxis(f, RPlane, s, F110, a, cr, true, [RatioCheck(sqrt, rp, f.a), Abs(c.mismatch), Abs(c.mismatch)]) ]
  }

  lemma HexagonalOnCubicRows(sqrt: real -> real, f: Material, s: Material, tol: real)
    requires IsSqrt(sqrt) && f.a > 0.0 && s.a > 0.0
    ensures var rows := Select(HexagonalOnCubic(sqrt, f, s), tol);
            var rp := RPlaneLength(sqrt, s.a, s.c);
            var p := SkewedMeasure(sqrt, s.a, f.a, f.a);
            var a := Measure(s.a, f.a);
            var c := SkewedMeasure(sqrt, s.a, f.a, f.c);
            var cr := SkewedMeasure(sqrt, s.a, rp, rp);
            AllFrom(rows, f, s) && LabelsAmong(rows, [(Plain, F111), (APlane, F110), (RPlane, F110)])
            && (Reports(rows, Plain, F111, p, None)
                <==> Accepts(p, tol))
            && (Reports(rows, APlane, F110, a, Some(c))
                <==> RatioCheck(sqrt, f.c, f.a) < tol && Accepts(c, tol) && Accepts(a, tol))
            && (Reports(rows, RPlane, F110, a, Some(cr))
                <==> RatioCheck(sqrt, rp, f.a) < tol && Accepts(c, tol))
  {
    var t := HexagonalOnCubic(sqrt, f, s);
    var rp := RPlaneLength(sqrt, s.a, s.c);
    SelectShape(t, tol, f, s);
    SelectSingledOut(t, tol, 0);
    PassesExpanded(t[0], tol);
    SelectSingledOut(t, tol, 1);
    PassesExpanded(t[1], tol);
    SelectSingledOut(t, tol, 2);
    PassesExpanded(t[2], tol);
  }

  /** Hexagonal film on tetragonal substrate: the hexagonal a-plane and
      r-plane on the tetragonal a-plane; the r-plane side is the film's. */
  function HexagonalOnTetragonal(sqrt: real -> real, f: Material, s: Material): (t: seq<Candidate>)
    requires IsSqrt(sqrt) && Positive(f) && Positive(s)
    ensures |t| == 2 && FromPair(t, f, s)
  {
    var a := Measure(s.a, f.a);
    var c := Measure(s.c, f.c);
    var cr := Measure(s.c, RPlaneLength(sqrt, f.a, f.c));
    [ TwoAxis(f, APlane, s, APlane, a, c, true, [Abs(a.mismatch), Abs(c.mismatch)]),
      TwoAxis(f, RPlane, s, APlane, a, cr, true, [Abs(a.mismatch), Abs(cr.mismatch)]) ]
  }

  lemma HexagonalOnTetragonalRows(sqrt: real -> real, f: Material, s: Material, tol: real)
    requires IsSqrt(sqrt) && Positive(f) && Positive(s)
    ensures var rows := Select(HexagonalOnTetragonal(sqrt, f, s), tol);
            var rp := RPlaneLength(sqrt, f.a, f.c);
            var a := Measure(s.a, f.a);
            var c := Measure(s.c, f.c);
            var cr := Measure(s.c, rp);
            AllFrom(rows, f, s) && LabelsAmong(rows, [(APlane, APlane), (RPlane, APlane)])
            && (Reports(rows, APlane, APlane, a, Some(c))
                <==> Accepts(a, tol) && Accepts(c, tol))
            && (Reports(rows, RPlane, APlane, a, Some(cr))
                <==> Accepts(a, tol) && Accepts(cr, tol))
  {
    var t := HexagonalOnTetragonal(sqrt, f, s);
    SelectShape(t, tol, f, s);
    SelectSingledOut(t, tol, 0);
    PassesExpanded(t[0], tol);
    SelectSingledOut(t, tol, 1);
    PassesExpanded(t[1], tol);
  }

  // ---- dispatch ------------------------------------------------------------

  /** How many relations each symmetry pair admits. */
  function RelationCount(fs: Sym, ss: Sym): (n: nat)
    ensures n <= 3
    ensures fs.Other? || ss.Other? ==> n == 0
  {
    match (fs, ss)
    case (Cubic, Cubic) => 2
    case (Cubic, Tetragonal) => 3
    case (Cubic, Hexagonal) => 3
    case (Tetragonal, Cubic) => 3
    case (Tetragonal, Tetragonal) => 2
    case (Tetragonal, Hexagonal) => 2
    case (Hexagonal, Cubic) => 3
    case (Hexagonal, Tetragonal) => 2
    case (Hexagonal, Hexagonal) => 1
    case _ => 0
  }

  /** The constants the pair's relations divide by are positive: both a
      always; the substrate's c when a cubic film meets a tetragonal or
      hexagonal substrate; the film's c when a tetragonal film meets a cubic
      substrate; both c when tetragonal meets hexagonal. A hexagonal film on
      a cubic substrate only multiplies its c, and a pair with any other
      symmetry code is never compared. */
  predicate Ready(f: Material, s: Material)
  {
    match (f.sym, s.sym)
    case (Cubic, Cubic) => f.a > 0.0 && s.a > 0.0
    case (Cubic, Tetragonal) => f.a > 0.0 && Positive(s)
    case (Cubic, Hexagonal) => f.a > 0.0 && Positive(s)
    case (Tetragonal, Cubic) => Positive(f) && s.a > 0.0
    case (Tetragonal, Tetragonal) => f.a > 0.0 && s.a > 0.0
    case (Tetragonal, Hexagonal) => Positive(f) && Positive(s)
    case (Hexagonal, Cubic) => f.a > 0.0 && s.a > 0.0
    case (Hexagonal, Tetragonal) => Positive(f) && Positive(s)
    case (Hexagonal, Hexagonal) => f.a > 0.0 && s.a > 0.0
    case _ => true
  }

  /** check_film_file and the three film functions: the relations of a film
      and substrate pair, chosen by the film's symmetry and then the
      substrate's, as many as the pair admits; a pair with any other symmetry
      code has none. */
  function Relations(sqrt: real -> real, f: Material, s: Material): (t: seq<Candidate>)
    requires IsSqrt(sqrt) && Ready(f, s)
    ensures |t| == RelationCount(f.sym, s.sym) && FromPair(t, f, s)
  {
    match (f.sym, s.sym)
    case (Cubic, Cubic) => SquareFaces(sqrt, f, s)
    case (Cubic, Tetragonal) => CubicOnTetragonal(sqrt, f, s)
    case (Cubic, Hexagonal) => CubicOnHexagonal(sqrt, f, s)
    case (Tetragonal, Cubic) => TetragonalOnCubic(sqrt, f, s)
    case (Tetragonal, Tetragonal) => SquareFaces(sqrt, f, s)
    case (Tetragonal, Hexagonal) => TetragonalOnHexagonal(sqrt, f, s)
    case (Hexagonal, Cubic) => HexagonalOnCubic(sqrt, f, s)
    case (Hexagonal, Tetragonal) => HexagonalOnTetragonal(sqrt, f, s)
    case (Hexagonal, Hexagonal) => Direct(f, s)
    case _ => []
  }
}
