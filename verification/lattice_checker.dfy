/** The first script (LatticeChecker.py): one relation per symmetry pair,
    chosen by the film's symmetry and then the substrate's, and none for a
    tetragonal film on a hexagonal substrate or the reverse. */
module LatticeChecker {
  import opened Crystal
  import opened Geometry
  import opened Table

  /** What the script divides by for each pair: the two a constants, except
      for the pairs it passes over and for unknown symmetry codes. */
  predicate Ready(f: Material, s: Material)
  {
    match (f.sym, s.sym)
    case (Tetragonal, Hexagonal) => true
    case (Hexagonal, Tetragonal) => true
    case _ => f.sym.Other? || s.sym.Other? || (f.a > 0.0 && s.a > 0.0)
  }

  /** Cubic film on hexagonal substrate: only cubic (111) on the basal plane,
      the substrate's a against √2 times the film's a. */
  function CubicOnHexagonal(sqrt: real -> real, f: Material, s: Material): (t: seq<Candidate>)
    requires IsSqrt(sqrt) && f.a > 0.0 && s.a > 0.0
    ensures |t| == 1 && FromPair(t, f, s)
  {
    [ OneAxis(f, F111, s, Plain, Measure(s.a, Diagonal(sqrt, f.a))) ]
  }

  lemma CubicOnHexagonalRows(sqrt: real -> real, f: Material, s: Material, tol: real)
    requires IsSqrt(sqrt) && f.a > 0.0 && s.a > 0.0
    ensures var rows := Select(CubicOnHexagonal(sqrt, f, s), tol);
            var p := Measure(s.a, Diagonal(sqrt, f.a));
            AllFrom(rows, f, s) && LabelsAmong(rows, [(F111, Plain)])
            && (Reports(rows, F111, Plain, p, None) <==> Accepts(p, tol))
  {
    var t := CubicOnHexagonal(sqrt, f, s);
    SelectShape(t, tol, f, s);
    SelectSingledOut(t, tol, 0);
    PassesExpanded(t[0], tol);
  }

  /** Hexagonal film on cubic substrate: only the basal plane on cubic
      (111), √2 times the substrate's a against the film's a, with the
      denominator fully parenthesised. */
  function HexagonalOnCubic(sqrt: real -> real, f: Material, s: Material): (t: seq<Candidate>)
    requires IsSqrt(sqrt) && f.a > 0.0 && s.a > 0.0
    ensures |t| == 1 && FromPair(t, f, s)
  {
    [ OneAxis(f, Plain, s, F111, Measure(Diagonal(sqrt, s.a), f.a)) ]
  }

  lemma HexagonalOnCubicRows(sqrt: real -> real, f: Material, s: Material, tol: real)
    requires IsSqrt(sqrt) && f.a > 0.0 && s.a > 0.0
    ensures var rows := Select(HexagonalOnCubic(sqrt, f, s), tol);
            var p := Measure(Diagonal(sqrt, s.a), f.a);
            AllFrom(rows, f, s) && LabelsAmong(rows, [(Plain, F111)])
            && (Reports(rows, Plain, F111, p, None) <==> Accepts(p, tol))
  {
    var t := HexagonalOnCubic(sqrt, f, s);
    SelectShape(t, tol, f, s);
    SelectSingledOut(t, tol, 0);
    PassesExpanded(t[0], tol);
  }

  /** cubic_film, tetragonal_film and hexagonal_film: the one relation of a
      symmetry pair, if any; so a pair yields at most one line, and none at
      all when either code is unknown or the pair is tetragonal with
      hexagonal. */
  function Relations(sqrt: real -> real, f: Material, s: Material): (t: seq<Candidate>)
    requires IsSqrt(sqrt) && Ready(f, s)
    ensures |t| <= 1 && FromPair(t, f, s)
    ensures f.sym.Other? || s.sym.Other? ==> t == []
    ensures (f.sym, s.sym) == (Tetragonal, Hexagonal) || (f.sym, s.sym) == (Hexagonal, Tetragonal) ==> t == []
  {
    match (f.sym, s.sym)
    case (Cubic, Cubic) => Direct(f, s)
    case (Cubic, Tetragonal) => Direct(f, s)
    case (Cubic, Hexagonal) => CubicOnHexagonal(sqrt, f, s)
    case (Tetragonal, Cubic) => Direct(f, s)
    case (Tetragonal, Tetragonal) => Direct(f, s)
    case (Hexagonal, Cubic) => HexagonalOnCubic(sqrt, f, s)
    case (Hexagonal, Hexagonal) => Direct(f, s)
    case _ => []
  }
}
