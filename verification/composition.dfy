/** The composition calculator (composition_calculator.py): for every
    substrate row, the reference alloys whose lattice constant lies inside
    the substrate's tolerance windows, one output line per window hit. */
module Composition {
  import opened Crystal
  import opened Geometry
  import opened Threshold
  import opened Alloys
  import opened Flatten
  import opened Subsequence

  /** One output line: the reference row, the film label ("C" plain, "C (45
      deg)" rotated, or "C (111)"), and the substrate's composition and
      symmetry with the " (45 deg)" suffix the tetragonal lines append. */
  datatype Pick = Pick(ref: Reference, film: Face, sub: string, subSym: Sym, subFace: Face)

  function Proposal(r: Reference, film: Face, s: Material, subFace: Face): Pick
  {
    Pick(r, film, s.comp, s.sym, subFace)
  }

  /** The hexagonal window: √2 times each end of the a window, so the bounds
      are taken before the diagonal. */
  function BasalWindow(sqrt: real -> real, x: real, tol: real): Bounds
    requires IsSqrt(sqrt)
  {
    Bounds(Diagonal(sqrt, UpperValue(x, tol)), Diagonal(sqrt, LowerValue(x, tol)))
  }

  /** cubic_sub, tetragonal_sub and hexagonal_sub for one reference row, chosen
      by the substrate's symmetry code: the a window and then the window of
      √2·a on cubic and tetragonal substrates, the √2-scaled a window on
      hexagonal ones, nothing for any other code. */
  function RefPicks(sqrt: real -> real, s: Material, r: Reference, tol: real): (ps: seq<Pick>)
    requires IsSqrt(sqrt)
    ensures |ps| <= 2
    ensures s.sym.Hexagonal? ==> |ps| <= 1
    ensures s.sym.Other? ==> ps == []
    ensures forall p :: p in ps ==> p.ref == r && p.sub == s.comp && p.subSym == s.sym
  {
    var direct := Inside(r.a, Around(s.a, tol));
    var rotated := Inside(r.a, Around(Diagonal(sqrt, s.a), tol));
    match s.sym
    case Cubic =>
      Emit(direct, Proposal(r, Plain, s, Plain)) + Emit(rotated, Proposal(r, Rot45, s, Plain))
    case Tetragonal =>
      Emit(direct, Proposal(r, Plain, s, Plain)) + Emit(rotated, Proposal(r, Rot45, s, Rot45))
    case Hexagonal =>
      Emit(Inside(r.a, BasalWindow(sqrt, s.a, tol)), Proposal(r, F111, s, Plain))
    case Other(_) => []
  }

  /** Scaling a window by √2 at both ends is the window of √2·x. */
  lemma BasalIsDiagonalWindow(sqrt: real -> real, x: real, y: real, tol: real)
    requires IsSqrt(sqrt)
    ensures Inside(y, BasalWindow(sqrt, x, tol)) <==> Inside(y, Around(Diagonal(sqrt, x), tol))
  {
    var r := Root2(sqrt);
    assert Diagonal(sqrt, UpperValue(x, tol)) == r * ((1.0 + tol) * x);
    assert Diagonal(sqrt, LowerValue(x, tol)) == r * ((1.0 - tol) * x);
    assert Diagonal(sqrt, x) == r * x;
    assert r * ((1.0 + tol) * x) == (1.0 + tol) * (r * x);
    assert r * ((1.0 - tol) * x) == (1.0 - tol) * (r * x);
  }

  /** Which lines a reference row gets: the plain line exactly when its a is
      inside the a window of a cubic or tetragonal substrate, the rotated
      line exactly when it is inside the window of √2·a, with the substrate
      label rotated on tetragonal substrates only, and the (111) line
      exactly when it is inside the window of √2·a of a hexagonal substrate.
      No other line is written. */
  lemma RefPicksMeaning(sqrt: real -> real, s: Material, r: Reference, tol: real)
    requires IsSqrt(sqrt)
    ensures var ps := RefPicks(sqrt, s, r, tol);
            var square := s.sym.Cubic? || s.sym.Tetragonal?;
            var rotFace := if s.sym.Tetragonal? then Rot45 else Plain;
            (Proposal(r, Plain, s, Plain) in ps <==> square && Inside(r.a, Around(s.a, tol)))
            && (Proposal(r, Rot45, s, rotFace) in ps
                <==> square && Inside(r.a, Around(Diagonal(sqrt, s.a), tol)))
            && (Proposal(r, F111, s, Plain) in ps
                <==> s.sym.Hexagonal? && Inside(r.a, Around(Diagonal(sqrt, s.a), tol)))
            && (forall p :: p in ps ==>
                  p == Proposal(r, Plain, s, Plain) || p == Proposal(r, Rot45, s, rotFace)
                  || p == Proposal(r, F111, s, Plain))
  {
    BasalIsDiagonalWindow(sqrt, s.a, r.a, tol);
  }

  /** The windows are those the threshold calculator prints for the same
      substrate: the a window of its own line, and for cubic substrates the
      window of its (111) line. */
  lemma SameWindowsAsThreshold(sqrt: real -> real, s: Material, r: Reference, tol: real)
    requires IsSqrt(sqrt) && (s.sym.Cubic? || s.sym.Tetragonal?)
    ensures var ps := RefPicks(sqrt, s, r, tol);
            var ls := SubstrateLines(sqrt, s, tol);
            (Proposal(r, Plain, s, Plain) in ps <==> Inside(r.a, ls[0].a))
            && (s.sym.Cubic? ==> ls[2].Diagonal111? && (Proposal(r, Rot45, s, Plain) in ps <==> Inside(r.a, ls[2].c)))
  {
    RefPicksMeaning(sqrt, s, r, tol);
  }

  /** For tolerances below a third, the plain line lists exactly the alloys
      a matcher comparing a constants accepts at a rounded ratio of one, and
      the rotated line those it accepts against √2·a at a rounded ratio of
      one. */
  lemma PicksAreUnitMatches(sqrt: real -> real, s: Material, r: Reference, tol: real)
    requires IsSqrt(sqrt) && (s.sym.Cubic? || s.sym.Tetragonal?)
    requires s.a > 0.0 && r.a > 0.0 && 3.0 * tol < 1.0
    ensures var ps := RefPicks(sqrt, s, r, tol);
            var rotFace := if s.sym.Tetragonal? then Rot45 else Plain;
            var m := Measure(s.a, r.a);
            var d := Measure(Diagonal(sqrt, s.a), r.a);
            (Proposal(r, Plain, s, Plain) in ps <==> Accepts(m, tol) && m.rounded == 1.0)
            && (Proposal(r, Rot45, s, rotFace) in ps <==> Accepts(d, tol) && d.rounded == 1.0)
  {
    RefPicksMeaning(sqrt, s, r, tol);
    InsideIsUnitMatch(s.a, r.a, tol);
    InsideIsUnitMatch(Diagonal(sqrt, s.a), r.a, tol);
  }

  /** A larger tolerance keeps every line of a reference row and its order. */
  lemma RefPicksMonotone(sqrt: real -> real, s: Material, r: Reference, tol1: real, tol2: real)
    requires IsSqrt(sqrt) && s.a >= 0.0 && tol1 <= tol2
    ensures IsSubseq(RefPicks(sqrt, s, r, tol1), RefPicks(sqrt, s, r, tol2))
  {
    var d := Diagonal(sqrt, s.a);
    assert d >= 0.0;
    if Inside(r.a, Around(s.a, tol1)) {
      AroundNested(s.a, tol1, tol2, r.a);
    }
    if Inside(r.a, Around(d, tol1)) {
      AroundNested(d, tol1, tol2, r.a);
    }
    BasalIsDiagonalWindow(sqrt, s.a, r.a, tol1);
    BasalIsDiagonalWindow(sqrt, s.a, r.a, tol2);
    var ps1, ps2 := RefPicks(sqrt, s, r, tol1), RefPicks(sqrt, s, r, tol2);
    match s.sym
    case Cubic =>
      EmitSubseq(Inside(r.a, Around(s.a, tol1)), Inside(r.a, Around(s.a, tol2)), Proposal(r, Plain, s, Plain));
      EmitSubseq(Inside(r.a, Around(d, tol1)), Inside(r.a, Around(d, tol2)), Proposal(r, Rot45, s, Plain));
      SubseqConcat(Emit(Inside(r.a, Around(s.a, tol1)), Proposal(r, Plain, s, Plain)),
                   Emit(Inside(r.a, Around(s.a, tol2)), Proposal(r, Plain, s, Plain)),
                   Emit(Inside(r.a, Around(d, tol1)), Proposal(r, Rot45, s, Plain)),
                   Emit(Inside(r.a, Around(d, tol2)), Proposal(r, Rot45, s, Plain)));
    case Tetragonal =>
      EmitSubseq(Inside(r.a, Around(s.a, tol1)), Inside(r.a, Around(s.a, tol2)), Proposal(r, Plain, s, Plain));
      EmitSubseq(Inside(r.a, Around(d, tol1)), Inside(r.a, Around(d, tol2)), Proposal(r, Rot45, s, Rot45));
      SubseqConcat(Emit(Inside(r.a, Around(s.a, tol1)), Proposal(r, Plain, s, Plain)),
                   Emit(Inside(r.a, Around(s.a, tol2)), Proposal(r, Plain, s, Plain)),
                   Emit(Inside(r.a, Around(d, tol1)), Proposal(r, Rot45, s, Rot45)),
                   Emit(Inside(r.a, Around(d, tol2)), Proposal(r, Rot45, s, Rot45)));
    case Hexagonal =>
      EmitSubseq(Inside(r.a, BasalWindow(sqrt, s.a, tol1)), Inside(r.a, BasalWindow(sqrt, s.a, tol2)),
                 Proposal(r, F111, s, Plain));
    case Other(_) =>
      EmptyIsSubseq(ps2);
  }

  /** A conditional write whose test only gets weaker keeps its line. */
  lemma EmitSubseq<T>(test1: bool, test2: bool, m: T)
    requires test1 ==> test2
    ensures IsSubseq(Emit(test1, m), Emit(test2, m))
  {
    if test1 {
      SubseqReflexive([m]);
    } else {
      EmptyIsSubseq(Emit(test2, m));
    }
  }

  /** The lines of every reference row against one substrate, as one
      function of reference row and substrate. */
  function PicksOf(sqrt: real -> real, tol: real): (Reference, Material) -> seq<Pick>
    requires IsSqrt(sqrt)
  {
    (r: Reference, s: Material) => RefPicks(sqrt, s, r, tol)
  }

  /** check_substrate_file: substrate-major, reference-minor. */
  function CompositionFile(sqrt: real -> real, subs: seq<Material>, refs: seq<Reference>, tol: real): seq<Pick>
    requires IsSqrt(sqrt)
  {
    Grid(PicksOf(sqrt, tol), refs, subs)
  }

  /** The file keeps the substrates' order. */
  lemma CompositionFileAppend(sqrt: real -> real, subs1: seq<Material>, subs2: seq<Material>,
                              refs: seq<Reference>, tol: real)
    requires IsSqrt(sqrt)
    ensures CompositionFile(sqrt, subs1 + subs2, refs, tol)
         == CompositionFile(sqrt, subs1, refs, tol) + CompositionFile(sqrt, subs2, refs, tol)
  {
    GridAppend(PicksOf(sqrt, tol), refs, subs1, subs2);
  }

  /** A substrate's lines keep the reference table's order. */
  lemma CompositionFileRefs(sqrt: real -> real, s: Material, refs1: seq<Reference>, refs2: seq<Reference>, tol: real)
    requires IsSqrt(sqrt)
    ensures CompositionFile(sqrt, [s], refs1 + refs2, tol)
         == CompositionFile(sqrt, [s], refs1, tol) + CompositionFile(sqrt, [s], refs2, tol)
  {
    var pair := PicksOf(sqrt, tol);
    AcrossAppend(pair, refs1, refs2, s);
    OneSubstrate(sqrt, s, refs1 + refs2, tol);
    OneSubstrate(sqrt, s, refs1, tol);
    OneSubstrate(sqrt, s, refs2, tol);
  }

  /** The file of one substrate is its pass over the reference table. */
  lemma OneSubstrate(sqrt: real -> real, s: Material, refs: seq<Reference>, tol: real)
    requires IsSqrt(sqrt)
    ensures CompositionFile(sqrt, [s], refs, tol) == Across(PicksOf(sqrt, tol), refs, s)
  {
    var pair := PicksOf(sqrt, tol);
    var blocks := PassBlocks(pair, refs, [s]);
    assert blocks == [Across(pair, refs, s)];
    assert Concat(blocks) == blocks[0] + Concat(blocks[1..]);
    assert blocks[1..] == [];
  }

  /** A line is in the file exactly when some reference row gets it from
      some substrate. */
  lemma CompositionFileMembers(sqrt: real -> real, subs: seq<Material>, refs: seq<Reference>, tol: real, p: Pick)
    requires IsSqrt(sqrt)
    ensures p in CompositionFile(sqrt, subs, refs, tol)
        <==> exists i, j :: 0 <= i < |refs| && 0 <= j < |subs| && p in RefPicks(sqrt, subs[j], refs[i], tol)
  {
    GridMembers(PicksOf(sqrt, tol), refs, subs, p);
  }

  /** At most two lines per reference row and substrate, at most one on
      hexagonal substrates, and none from substrates of unknown symmetry. */
  lemma CompositionFileLength(sqrt: real -> real, subs: seq<Material>, refs: seq<Reference>, tol: real)
    requires IsSqrt(sqrt)
    ensures |CompositionFile(sqrt, subs, refs, tol)| <= 2 * |refs| * |subs|
    ensures (forall j :: 0 <= j < |subs| ==> subs[j].sym.Hexagonal?)
            ==> |CompositionFile(sqrt, subs, refs, tol)| <= |refs| * |subs|
    ensures (forall j :: 0 <= j < |subs| ==> subs[j].sym.Other?) ==> CompositionFile(sqrt, subs, refs, tol) == []
  {
    var pair := PicksOf(sqrt, tol);
    forall i, j | 0 <= i < |refs| && 0 <= j < |subs|
      ensures |pair(refs[i], subs[j])| <= 2
      ensures subs[j].sym.Hexagonal? ==> |pair(refs[i], subs[j])| <= 1
      ensures subs[j].sym.Other? ==> |pair(refs[i], subs[j])| == 0
    {
      assert pair(refs[i], subs[j]) == RefPicks(sqrt, subs[j], refs[i], tol);
    }
    GridLength(pair, refs, subs, 2);
    if forall j :: 0 <= j < |subs| ==> subs[j].sym.Hexagonal? {
      GridLength(pair, refs, subs, 1);
    }
    if forall j :: 0 <= j < |subs| ==> subs[j].sym.Other? {
      GridLength(pair, refs, subs, 0);
      assert |Grid(pair, refs, subs)| == 0;
    }
  }

  /** A larger tolerance keeps every line of the file, in order. */
  lemma CompositionFileMonotone(sqrt: real -> real, subs: seq<Material>, refs: seq<Reference>, tol1: real, tol2: real)
    requires IsSqrt(sqrt) && tol1 <= tol2
    requires forall j :: 0 <= j < |subs| ==> subs[j].a >= 0.0
    ensures IsSubseq(CompositionFile(sqrt, subs, refs, tol1), CompositionFile(sqrt, subs, refs, tol2))
  {
    forall i, j | 0 <= i < |refs| && 0 <= j < |subs|
      ensures IsSubseq(PicksOf(sqrt, tol1)(refs[i], subs[j]), PicksOf(sqrt, tol2)(refs[i], subs[j]))
    {
      RefPicksMonotone(sqrt, subs[j], refs[i], tol1, tol2);
    }
    GridSubseq(PicksOf(sqrt, tol1), PicksOf(sqrt, tol2), refs, subs);
  }

  /** Every line of a file read from the generated table carries a
      well-formed reference row. */
  lemma CompositionFileWellFormed(sqrt: real -> real, subs: seq<Material>, refs: seq<Reference>, tol: real, p: Pick)
    requires IsSqrt(sqrt)
    requires forall i :: 0 <= i < |refs| ==> WellFormed(refs[i])
    requires p in CompositionFile(sqrt, subs, refs, tol)
    ensures WellFormed(p.ref) && p.ref.a > 0.0
  {
    CompositionFileMembers(sqrt, subs, refs, tol, p);
  }
}
