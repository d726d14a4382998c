/** Records shared by every part of the lattice-matching model: optional
    values, crystal symmetry codes, material rows, orientation labels and the
    match records the matchers emit in place of the lines they write. */
module Crystal {

  datatype Option<+T> = None | Some(value: T)

  /** The symmetry column of a material row. Codes other than "C", "T" and
      "H" are kept verbatim, since some variants print them unchecked. */
  datatype Sym = Cubic | Tetragonal | Hexagonal | Other(code: string)

  /** Maps the text of the symmetry column onto a symmetry. */
  function ParseSym(code: string): (s: Sym)
    ensures s.Other? <==> code != "C" && code != "T" && code != "H"
    ensures s.Other? ==> s.code == code
  {
    if code == "C" then Cubic
    else if code == "T" then Tetragonal
    else if code == "H" then Hexagonal
    else Other(code)
  }

  /** One row of a film or substrate table: composition, symmetry and the
      two lattice constants (the c column is present in every row). */
  datatype Material = Material(comp: string, sym: Sym, a: real, c: real)

  /** Both lattice constants positive. */
  predicate Positive(m: Material)
  {
    m.a > 0.0 && m.c > 0.0
  }

  /** The parenthesised suffix a relation appends to a symmetry label:
      none, "(45 deg)", "(110)", "(111)", "(a-plane)" or "(r-plane)". */
  datatype Face = Plain | Rot45 | F110 | F111 | APlane | RPlane

  /** Mismatch, rounded ratio and original ratio of one compared axis. */
  datatype Axis = Axis(mismatch: real, rounded: real, original: real)

  /** One written match line: film and substrate composition with their
      labels, the primary axis and, for two-axis relations, the c axis. */
  datatype Match = Match(
    film: string, filmSym: Sym, filmFace: Face,
    sub: string, subSym: Sym, subFace: Face,
    primary: Axis, secondary: Option<Axis>)

  /** The match a pair reports under a relation. */
  function Row(f: Material, ff: Face, s: Material, sf: Face, p: Axis, q: Option<Axis>): Match
  {
    Match(f.comp, f.sym, ff, s.comp, s.sym, sf, p, q)
  }

  /** A conditional write: the row when the test passes, nothing otherwise. */
  function Emit<T>(test: bool, m: T): (rows: seq<T>)
    ensures |rows| <= 1
    ensures m in rows <==> test
    ensures forall x :: x in rows ==> x == m
  {
    if test then [m] else []
  }

  /** Some row of `rows` carries these labels and these axes. */
  predicate Reports(rows: seq<Match>, ff: Face, sf: Face, p: Axis, q: Option<Axis>)
  {
    exists m :: m in rows && m.filmFace == ff && m.subFace == sf && m.primary == p && m.secondary == q
  }

  /** Some row of `rows` carries these labels. */
  predicate Labelled(rows: seq<Match>, ff: Face, sf: Face)
  {
    exists m :: m in rows && m.filmFace == ff && m.subFace == sf
  }

  /** Every row names this film and this substrate. */
  predicate AllFrom(rows: seq<Match>, f: Material, s: Material)
  {
    forall m :: m in rows ==> m.film == f.comp && m.filmSym == f.sym && m.sub == s.comp && m.subSym == s.sym
  }
}
