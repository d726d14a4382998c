/** The threshold calculator (threshold_calculator.py): for every substrate
    row, the windows (1 − tol)·x … (1 + tol)·x around the lengths a film
    would have to match, one output line per orientation. */
module Threshold {
  import opened Crystal
  import opened Geometry
  import opened Table
  import opened Flatten

  /** One output line: the substrate's own line with its a window, an
      orientation line with an a window and a c window, or the cubic (111)
      line with only the window of the face diagonal. */
  datatype Line =
    | Summary(comp: string, sym: Sym, a: Bounds)
    | Oriented(sym: Sym, face: Face, a: Bounds, c: Bounds)
    | Diagonal111(sym: Sym, c: Bounds)

  function LineSym(l: Line): Sym
  {
    match l
    case Summary(_, sym, _) => sym
    case Oriented(sym, _, _, _) => sym
    case Diagonal111(sym, _) => sym
  }

  /** How many lines a substrate of each symmetry gets. */
  function LineCount(sym: Sym): (n: nat)
    ensures n <= 3
    ensures n == 0 <==> sym.Other?
  {
    match sym
    case Cubic => 3
    case Tetragonal => 2
    case Hexagonal => 3
    case Other(_) => 0
  }

  /** cubic_sub, tetragonal_sub and hexagonal_sub, chosen by the symmetry
      code; rows of any other code write nothing. */
  function SubstrateLines(sqrt: real -> real, s: Material, tol: real): (ls: seq<Line>)
    requires IsSqrt(sqrt)
    ensures |ls| == LineCount(s.sym)
    ensures forall i :: 0 <= i < |ls| ==> LineSym(ls[i]) == s.sym
    ensures ls != [] ==> ls[0] == Summary(s.comp, s.sym, Around(s.a, tol))
    ensures (s.sym.Tetragonal? || s.sym.Hexagonal?) ==>
              ls[1] == Oriented(s.sym, APlane, Around(s.a, tol), Around(s.c, tol))
    ensures s.sym.Hexagonal? ==> ls[2].Oriented? && ls[2].face == RPlane && ls[2].a == Around(s.a, tol)
  {
    var a := Around(s.a, tol);
    match s.sym
    case Cubic =>
      var d := Around(Diagonal(sqrt, s.a), tol);
      [Summary(s.comp, s.sym, a), Oriented(s.sym, F110, a, d), Diagonal111(s.sym, d)]
    case Tetragonal =>
      [Summary(s.comp, s.sym, a), Oriented(s.sym, APlane, a, Around(s.c, tol))]
    case Hexagonal =>
      [Summary(s.comp, s.sym, a),
       Oriented(s.sym, APlane, a, Around(s.c, tol)),
       Oriented(s.sym, RPlane, a, Around(RPlaneLength(sqrt, s.a, s.c), tol))]
    case Other(_) => []
  }

  /** A window of a positive length brackets it, is centred on it and is
      2·tol times as wide as it; a tolerance of zero or less admits
      nothing. */
  lemma AroundBrackets(x: real, tol: real)
    requires x > 0.0
    ensures var b := Around(x, tol);
            b.max + b.min == 2.0 * x && b.max - b.min == 2.0 * (tol * x)
            && (tol > 0.0 ==> b.min < x < b.max)
            && (tol <= 0.0 ==> forall y :: !Inside(y, b))
  {
    var b := Around(x, tol);
    assert b.max == x + tol * x;
    assert b.min == x - tol * x;
    if tol > 0.0 {
      ProductPositive(tol, x);
    } else {
      ProductNonNegative(-tol, x);
      assert (-tol) * x == -(tol * x);
    }
  }

  /** A larger tolerance widens every window of a non-negative length. */
  lemma AroundNested(x: real, tol1: real, tol2: real, y: real)
    requires x >= 0.0 && tol1 <= tol2
    requires Inside(y, Around(x, tol1))
    ensures Inside(y, Around(x, tol2))
  {
    var d := (tol2 - tol1) * x;
    ProductNonNegative(tol2 - tol1, x);
    assert UpperValue(x, tol2) == UpperValue(x, tol1) + d;
    assert LowerValue(x, tol2) == LowerValue(x, tol1) - d;
  }

  /** For tolerances below a third, a film length lies inside the window of
      a substrate length exactly when a matcher comparing the two accepts at
      a rounded ratio of one: the windows list the films that match one to
      one. */
  lemma InsideIsUnitMatch(x: real, y: real, tol: real)
    requires x > 0.0 && y > 0.0 && 3.0 * tol < 1.0
    ensures Inside(y, Around(x, tol)) <==> Accepts(Measure(x, y), tol) && Measure(x, y).rounded == 1.0
  {
    UnitWindow(x, y, tol);
  }

  /** The substrate's own line lists exactly the films whose direct line the
      matchers write at a rounded ratio of one. */
  lemma SummaryIsDirect(sqrt: real -> real, s: Material, f: Material, tol: real)
    requires IsSqrt(sqrt) && s.a > 0.0 && f.a > 0.0 && 3.0 * tol < 1.0
    requires !s.sym.Other?
    ensures var x := Measure(s.a, f.a);
            Inside(f.a, SubstrateLines(sqrt, s, tol)[0].a)
            <==> Reports(Select(Direct(f, s), tol), Plain, Plain, x, None) && x.rounded == 1.0
  {
    InsideIsUnitMatch(s.a, f.a, tol);
    DirectRows(f, s, tol);
  }

  /** The hexagonal r-plane line's c window lists exactly the lengths that
      match the r-plane side √(c² + 3a²) one to one. */
  lemma RPlaneWindow(sqrt: real -> real, s: Material, y: real, tol: real)
    requires IsSqrt(sqrt) && s.sym.Hexagonal? && s.a > 0.0 && y > 0.0 && 3.0 * tol < 1.0
    ensures var ls := SubstrateLines(sqrt, s, tol);
            var rp := RPlaneLength(sqrt, s.a, s.c);
            ls[2].Oriented? && ls[2].face == RPlane
            && (Inside(y, ls[2].c) <==> Accepts(Measure(rp, y), tol) && Measure(rp, y).rounded == 1.0)
  {
    InsideIsUnitMatch(RPlaneLength(sqrt, s.a, s.c), y, tol);
  }

  /** The cubic (110) and (111) lines share the window of the face diagonal
      √2·a, which lists exactly the lengths that match it one to one. */
  lemma DiagonalWindow(sqrt: real -> real, s: Material, y: real, tol: real)
    requires IsSqrt(sqrt) && s.sym.Cubic? && s.a > 0.0 && y > 0.0 && 3.0 * tol < 1.0
    ensures var ls := SubstrateLines(sqrt, s, tol);
            var d := Diagonal(sqrt, s.a);
            ls[1].Oriented? && ls[1].face == F110 && ls[1].a == ls[0].a && ls[2].Diagonal111?
            && ls[1].c == ls[2].c
            && (Inside(y, ls[2].c) <==> Accepts(Measure(d, y), tol) && Measure(d, y).rounded == 1.0)
  {
    InsideIsUnitMatch(Diagonal(sqrt, s.a), y, tol);
  }

  /** The lines of each substrate, as one function of substrate and
      tolerance. */
  function LinesOf(sqrt: real -> real): (Material, real) -> seq<Line>
    requires IsSqrt(sqrt)
  {
    (s: Material, tol: real) => SubstrateLines(sqrt, s, tol)
  }

  /** check_substrate_file: the lines of every substrate, in file order. */
  function SubstrateFile(sqrt: real -> real, subs: seq<Material>, tol: real): seq<Line>
    requires IsSqrt(sqrt)
  {
    Across(LinesOf(sqrt), subs, tol)
  }

  /** The file keeps the substrates' order. */
  lemma SubstrateFileAppend(sqrt: real -> real, subs1: seq<Material>, subs2: seq<Material>, tol: real)
    requires IsSqrt(sqrt)
    ensures SubstrateFile(sqrt, subs1 + subs2, tol) == SubstrateFile(sqrt, subs1, tol) + SubstrateFile(sqrt, subs2, tol)
  {
    AcrossAppend(LinesOf(sqrt), subs1, subs2, tol);
  }

  /** Every line of the file is a line of some substrate row, and every line
      of every row is in the file. */
  lemma SubstrateFileMembers(sqrt: real -> real, subs: seq<Material>, tol: real, l: Line)
    requires IsSqrt(sqrt)
    ensures l in SubstrateFile(sqrt, subs, tol)
        <==> exists j :: 0 <= j < |subs| && l in SubstrateLines(sqrt, subs[j], tol)
  {
    AcrossMembers(LinesOf(sqrt), subs, tol, l);
  }

  /** Each substrate row contributes at most three lines, and a file of
      unknown symmetry codes only writes nothing. */
  lemma SubstrateFileLength(sqrt: real -> real, subs: seq<Material>, tol: real)
    requires IsSqrt(sqrt)
    ensures |SubstrateFile(sqrt, subs, tol)| <= 3 * |subs|
    ensures (forall j :: 0 <= j < |subs| ==> subs[j].sym.Other?) ==> SubstrateFile(sqrt, subs, tol) == []
  {
    AcrossLength(LinesOf(sqrt), subs, tol, 3);
    if forall j :: 0 <= j < |subs| ==> subs[j].sym.Other? {
      AcrossLength(LinesOf(sqrt), subs, tol, 0);
    }
  }
}
