/** The cubic-film script (cubic_checker.py): every film is taken to be cubic,
    so the relations are chosen by the substrate's symmetry alone. */
module CubicChecker {
  import opened Crystal
  import opened Geometry
  import opened Table
  import Commensurate

  /** What the script divides by: both a always, and the substrate's c when
      it is tetragonal or hexagonal. Substrates of any other symmetry are
      skipped. */
  predicate Ready(f: Material, s: Material)
  {
    match s.sym
    case Cubic => f.a > 0.0 && s.a > 0.0
    case Tetragonal => f.a > 0.0 && Positive(s)
    case Hexagonal => f.a > 0.0 && Positive(s)
    case Other(_) => true
  }

  /** Cubic substrate (cubic_sub): only the direct relation. */
  function CubicSub(f: Material, s: Material): (t: seq<Candidate>)
    requires f.a > 0.0 && s.a > 0.0
    ensures |t| == 1 && FromPair(t, f, s)
  {
    Direct(f, s)
  }

  /** A film of a = 5.6605 on a cubic substrate of a = 5.6533 at the script's
      8% tolerance: the ratio rounds to 1, the mismatch is about −0.00127 and
      the direct line is written. */
  lemma CubicSubExample(f: Material, s: Material)
    requires f.a == 5.6605 && s.a == 5.6533
    ensures var x := Measure(s.a, f.a);
            x.rounded == 1.0 && -0.0013 < x.mismatch < -0.0012
            && Reports(Select(CubicSub(f, s), ScriptTolerance), Plain, Plain, x, None)
  {
    var x := Measure(s.a, f.a);
    assert Commensurate.Round(f.a / s.a) == 1;
    assert x.rounded == 1.0;
    DirectRows(f, s, ScriptTolerance);
  }

  /** Tetragonal substrate (tetragonal_sub): the direct relation, and cubic
      (110) on the tetragonal a-plane. The (110) line is guarded by the
      substrate's c/a test and the a mismatch only; its c mismatch is
      reported but never tested. It is written twice, once tab-separated and
      once comma-separated (cubic_checker.py:61-62). */
  function TetragonalSub(sqrt: real -> real, f: Material, s: Material): (t: seq<Candidate>)
    requires IsSqrt(sqrt) && f.a > 0.0 && Positive(s)
    ensures |t| == 3 && FromPair(t, f, s)
  {
    var a := Measure(s.a, f.a);
    var c := Measure(s.c, Diagonal(sqrt, f.a));
    var plane := TwoAxis(f, F110, s, APlane, a, c, true, [RatioCheck(sqrt, s.c, s.a), Abs(a.mismatch)]);
    [ OneAxis(f, Plain, s, Plain, a), plane, plane ]
  }

  /** On a tetragonal substrate the direct line is written exactly when the a
      mismatch passes, and the (110) line appears twice when the substrate's
      c/a is near √2 and the a mismatch passes, and not at all otherwise. */
  lemma TetragonalSubRows(sqrt: real -> real, f: Material, s: Material, tol: real)
    requires IsSqrt(sqrt) && f.a > 0.0 && Positive(s)
    ensures var rows := Select(TetragonalSub(sqrt, f, s), tol);
            var a := Measure(s.a, f.a);
            var c := Measure(s.c, Diagonal(sqrt, f.a));
            var plane := Row(f, F110, s, APlane, a, Some(c));
            var written := RatioCheck(sqrt, s.c, s.a) < tol && Accepts(a, tol);
            AllFrom(rows, f, s) && LabelsAmong(rows, [(Plain, Plain), (F110, APlane)])
            && (Reports(rows, Plain, Plain, a, None) <==> Accepts(a, tol))
            && multiset(rows)[plane] == (if written then 2 else 0)
  {
    var t := TetragonalSub(sqrt, f, s);
    var a := Measure(s.a, f.a);
    var direct := Row(f, Plain, s, Plain, a, None);
    SelectShape(t, tol, f, s);
    SelectThree(t[0], t[1], t[2], tol);
    PassesExpanded(t[0], tol);
    PassesExpanded(t[1], tol);
    assert direct in Select(t, tol) <==> Accepts(a, tol);
  }

  /** The r-plane axis as cubic_checker.py:77 computes it: ratio and rounded
      ratio are those of the r-plane side against √2 times the film's a, but
      the mismatch multiplies the rounded ratio of the a-plane c axis. */
  function StaleAxis(subRef: real, filmRef: real, staleRounded: real): Axis
    requires subRef > 0.0 && filmRef > 0.0
  {
    var x := Measure(subRef, filmRef);
    Axis(Mismatch(subRef, filmRef, staleRounded), x.rounded, x.original)
  }

  /** The reported r-plane mismatch agrees with the one its own ratio would
      give exactly when the two rounded ratios coincide. */
  lemma StaleAxisAgrees(subRef: real, filmRef: real, staleRounded: real)
    requires subRef > 0.0 && filmRef > 0.0
    ensures var x := StaleAxis(subRef, filmRef, staleRounded);
            x.mismatch == Measure(subRef, filmRef).mismatch <==> staleRounded == x.rounded
  {
    var own := Measure(subRef, filmRef).rounded;
    assert Measure(subRef, filmRef).mismatch == Mismatch(subRef, filmRef, own);
    MismatchInjective(subRef, filmRef, staleRounded, own);
  }

  /** Hexagonal substrate (hexagonal_sub): cubic (111) on the basal plane,
      comparing the substrate's a with √2 times the film's a, and cubic (110)
      on the a-plane and on the r-plane, each guarded by the a mismatch and a
      c/a test. The r-plane axis carries the stale mismatch of StaleAxis. */
  function HexagonalSub(sqrt: real -> real, f: Material, s: Material): (t: seq<Candidate>)
    requires IsSqrt(sqrt) && f.a > 0.0 && Positive(s)
    ensures |t| == 3 && FromPair(t, f, s)
  {
    var a := Measure(s.a, f.a);
    var c := Measure(s.c, Diagonal(sqrt, f.a));
    var rp := RPlaneLength(sqrt, s.a, s.c);
    var cr := StaleAxis(rp, Diagonal(sqrt, f.a), c.rounded);
    [ OneAxis(f, F111, s, Plain, Measure(s.a, Diagonal(sqrt, f.a))),
      TwoAxis(f, F110, s, APlane, a, c, true, [Abs(a.mismatch), RatioCheck(sqrt, s.c, s.a)]),
      TwoAxis(f, F110, s, RPlane, a, cr, true, [Abs(a.mismatch), RatioCheck(sqrt, rp, s.a)]) ]
  }

  lemma HexagonalSubRows(sqrt: real -> real, f: Material, s: Material, tol: real)
    requires IsSqrt(sqrt) && f.a > 0.0 && Positive(s)
    ensures var rows := Select(HexagonalSub(sqrt, f, s), tol);
            var p := Measure(s.a, Diagonal(sqrt, f.a));
            var a := Measure(s.a, f.a);
            var c := Measure(s.c, Diagonal(sqrt, f.a));
            var rp := RPlaneLength(sqrt, s.a, s.c);
            var cr := StaleAxis(rp, Diagonal(sqrt, f.a), c.rounded);
            AllFrom(rows, f, s) && LabelsAmong(rows, [(F111, Plain), (F110, APlane), (F110, RPlane)])
            && (Reports(rows, F111, Plain, p, None) <==> Accepts(p, tol))
            && (Reports(rows, F110, APlane, a, Some(c))
                <==> Accepts(a, tol) && RatioCheck(sqrt, s.c, s.a) < tol)
            && (Reports(rows, F110, RPlane, a, Some(cr))
                <==> Accepts(a, tol) && RatioCheck(sqrt, rp, s.a) < tol)
  {
    var t := HexagonalSub(sqrt, f, s);
    SelectShape(t, tol, f, s);
    SelectSingledOut(t, tol, 0);
    PassesExpanded(t[0], tol);
    SelectSingledOut(t, tol, 1);
    PassesExpanded(t[1], tol);
    SelectSingledOut(t, tol, 2);
    PassesExpanded(t[2], tol);
  }

  /** search_film_file: the relations for one film against one substrate,
      chosen by the substrate's symmetry; the film's own symmetry is only
      copied into the lines. */
  function Relations(sqrt: real -> real, f: Material, s: Material): (t: seq<Candidate>)
    requires IsSqrt(sqrt) && Ready(f, s)
    ensures |t| <= 3 && FromPair(t, f, s)
    ensures s.sym.Other? ==> t == []
  {
    match s.sym
    case Cubic => CubicSub(f, s)
    case Tetragonal => TetragonalSub(sqrt, f, s)
    case Hexagonal => HexagonalSub(sqrt, f, s)
    case Other(_) => []
  }

  /** A film row of any symmetry, even an unknown one, is matched as if it
      were cubic: changing its symmetry changes only that column of the lines. */
  lemma IgnoresFilmSym(sqrt: real -> real, f: Material, s: Material, x: Sym, tol: real)
    requires IsSqrt(sqrt) && Ready(f, s)
    ensures Select(Relations(sqrt, f.(sym := x), s), tol) == WithFilmSym(Select(Relations(sqrt, f, s), tol), x)
  {
    assert Relations(sqrt, f.(sym := x), s) == RelabelFilm(Relations(sqrt, f, s), x);
    SelectRelabel(Relations(sqrt, f, s), tol, x);
  }
}
