/** The iteration every matcher script performs: for each substrate row in
    order, every film row in order, and for each pair the lines its
    relations write. The five scripts differ only in their relation tables. */
module Sweep {
  import opened Crystal
  import opened Geometry
  import opened Table
  import opened Subsequence
  import opened Flatten
  import LatticeMatcher
  import CubicChecker
  import TetragonalChecker
  import HexagonalChecker
  import LatticeChecker

  /** Which script's relation table is used. */
  datatype Script = Matcher | CubicFilms | TetragonalFilms | HexagonalFilms | FirstChecker

  /** The pair's constants are as the script's arithmetic needs them. */
  predicate Ready(v: Script, f: Material, s: Material)
  {
    match v
    case Matcher => LatticeMatcher.Ready(f, s)
    case CubicFilms => CubicChecker.Ready(f, s)
    case TetragonalFilms => TetragonalChecker.Ready(f, s)
    case HexagonalFilms => HexagonalChecker.Ready(f, s)
    case FirstChecker => LatticeChecker.Ready(f, s)
  }

  /** The script's relations for one pair. */
  function Candidates(v: Script, sqrt: real -> real, f: Material, s: Material): (t: seq<Candidate>)
    requires IsSqrt(sqrt) && Ready(v, f, s)
    ensures |t| <= 3 && FromPair(t, f, s)
    ensures s.sym.Other? ==> t == []
    ensures v == FirstChecker ==> |t| <= 1
  {
    match v
    case Matcher => LatticeMatcher.Relations(sqrt, f, s)
    case CubicFilms => CubicChecker.Relations(sqrt, f, s)
    case TetragonalFilms => TetragonalChecker.Relations(sqrt, f, s)
    case HexagonalFilms => HexagonalChecker.Relations(sqrt, f, s)
    case FirstChecker => LatticeChecker.Relations(sqrt, f, s)
  }

  /** The lines one pair contributes. */
  function PairRows(v: Script, sqrt: real -> real, f: Material, s: Material, tol: real): (rows: seq<Match>)
    requires IsSqrt(sqrt) && Ready(v, f, s)
    ensures |rows| <= 3 && AllFrom(rows, f, s)
    ensures s.sym.Other? ==> rows == []
    ensures v == FirstChecker ==> |rows| <= 1
  {
    SelectShape(Candidates(v, sqrt, f, s), tol, f, s);
    Select(Candidates(v, sqrt, f, s), tol)
  }

  /** The matcher and the first script skip film rows of unknown symmetry. */
  lemma UnknownFilmSkipped(v: Script, sqrt: real -> real, f: Material, s: Material, tol: real)
    requires IsSqrt(sqrt) && Ready(v, f, s)
    requires v == Matcher || v == FirstChecker
    requires f.sym.Other?
    ensures PairRows(v, sqrt, f, s, tol) == []
  {
    if v == Matcher {
      assert |LatticeMatcher.Relations(sqrt, f, s)| == 0;
    }
  }

  /** Every film is ready against this substrate. */
  predicate FilmsReady(v: Script, films: seq<Material>, s: Material)
  {
    forall i :: 0 <= i < |films| ==> Ready(v, films[i], s)
  }

  /** Every film is ready against every substrate. */
  predicate AllReady(v: Script, films: seq<Material>, subs: seq<Material>)
  {
    forall j :: 0 <= j < |subs| ==> FilmsReady(v, films, subs[j])
  }

  /** The lines of each pair, as one function of film and substrate. */
  function Lines(v: Script, sqrt: real -> real, tol: real): (Material, Material) -> seq<Match>
    requires IsSqrt(sqrt)
  {
    (f: Material, s: Material) => if Ready(v, f, s) then PairRows(v, sqrt, f, s, tol) else []
  }

  /** The relations of each pair, as one function of film and substrate. */
  function Choices(v: Script, sqrt: real -> real): (Material, Material) -> seq<Candidate>
    requires IsSqrt(sqrt)
  {
    (f: Material, s: Material) => if Ready(v, f, s) then Candidates(v, sqrt, f, s) else []
  }

  /** A ready pair's lines are the lines its relations select. */
  lemma LinesOf(v: Script, sqrt: real -> real, tol: real, f: Material, s: Material)
    requires IsSqrt(sqrt) && Ready(v, f, s)
    ensures Lines(v, sqrt, tol)(f, s) == PairRows(v, sqrt, f, s, tol)
  {
  }

  /** Every pair writes at most three lines, at most one for the first
      script, and none against a substrate of unknown symmetry. */
  lemma LinesBound(v: Script, sqrt: real -> real, tol: real, f: Material, s: Material)
    requires IsSqrt(sqrt)
    ensures |Lines(v, sqrt, tol)(f, s)| <= 3
    ensures v == FirstChecker ==> |Lines(v, sqrt, tol)(f, s)| <= 1
    ensures s.sym.Other? ==> Lines(v, sqrt, tol)(f, s) == []
  {
  }

  /** check_film_file / search_film_file: one substrate against every film,
      in film order. */
  function FilmPass(v: Script, sqrt: real -> real, films: seq<Material>, s: Material, tol: real): seq<Match>
    requires IsSqrt(sqrt) && FilmsReady(v, films, s)
  {
    Across(Lines(v, sqrt, tol), films, s)
  }

  /** lattice_check: every substrate in order, each against every film. */
  function Run(v: Script, sqrt: real -> real, films: seq<Material>, subs: seq<Material>, tol: real): seq<Match>
    requires IsSqrt(sqrt) && AllReady(v, films, subs)
  {
    Grid(Lines(v, sqrt, tol), films, subs)
  }

  /** The relations of the whole run, in the order the run visits them;
      none of them depends on the tolerance. */
  function AllCandidates(v: Script, sqrt: real -> real, films: seq<Material>, subs: seq<Material>): seq<Candidate>
    requires IsSqrt(sqrt) && AllReady(v, films, subs)
  {
    Grid(Choices(v, sqrt), films, subs)
  }

  /** The whole output is the selection, at this tolerance, of one
      tolerance-independent list of relations. */
  lemma RunIsSelect(v: Script, sqrt: real -> real, films: seq<Material>, subs: seq<Material>, tol: real)
    requires IsSqrt(sqrt) && AllReady(v, films, subs)
    ensures Run(v, sqrt, films, subs, tol) == Select(AllCandidates(v, sqrt, films, subs), tol)
  {
    forall f: Material, s: Material
      ensures Lines(v, sqrt, tol)(f, s) == Select(Choices(v, sqrt)(f, s), tol)
    {
    }
    GridSelect(Choices(v, sqrt), Lines(v, sqrt, tol), films, subs, tol);
  }

  /** Raising the tolerance never removes a line: the output at tol1 is the
      output at tol2 with some lines deleted, in the same order. */
  lemma RunMonotone(v: Script, sqrt: real -> real, films: seq<Material>, subs: seq<Material>, tol1: real, tol2: real)
    requires IsSqrt(sqrt) && AllReady(v, films, subs)
    requires tol1 <= tol2
    ensures IsSubseq(Run(v, sqrt, films, subs, tol1), Run(v, sqrt, films, subs, tol2))
  {
    RunIsSelect(v, sqrt, films, subs, tol1);
    RunIsSelect(v, sqrt, films, subs, tol2);
    SelectMonotone(AllCandidates(v, sqrt, films, subs), tol1, tol2);
  }

  /** Substrate-major order: the lines of the first substrates come first. */
  lemma RunSubstrates(v: Script, sqrt: real -> real, films: seq<Material>,
                      subs1: seq<Material>, subs2: seq<Material>, tol: real)
    requires IsSqrt(sqrt) && AllReady(v, films, subs1) && AllReady(v, films, subs2)
    ensures AllReady(v, films, subs1 + subs2)
    ensures Run(v, sqrt, films, subs1 + subs2, tol) == Run(v, sqrt, films, subs1, tol) + Run(v, sqrt, films, subs2, tol)
  {
    var subs := subs1 + subs2;
    forall j | 0 <= j < |subs|
      ensures FilmsReady(v, films, subs[j])
    {
      if j < |subs1| {
        assert subs[j] == subs1[j];
      } else {
        assert subs[j] == subs2[j - |subs1|];
      }
    }
    GridAppend(Lines(v, sqrt, tol), films, subs1, subs2);
  }

  /** Film-minor order: for one substrate the lines of the first films come
      first. */
  lemma FilmPassFilms(v: Script, sqrt: real -> real, films1: seq<Material>,
                      films2: seq<Material>, s: Material, tol: real)
    requires IsSqrt(sqrt) && FilmsReady(v, films1, s) && FilmsReady(v, films2, s)
    ensures FilmsReady(v, films1 + films2, s)
    ensures FilmPass(v, sqrt, films1 + films2, s, tol) == FilmPass(v, sqrt, films1, s, tol) + FilmPass(v, sqrt, films2, s, tol)
  {
    var films := films1 + films2;
    forall i | 0 <= i < |films|
      ensures Ready(v, films[i], s)
    {
      if i < |films1| {
        assert films[i] == films1[i];
      } else {
        assert films[i] == films2[i - |films1|];
      }
    }
    AcrossAppend(Lines(v, sqrt, tol), films1, films2, s);
  }

  /** A line is written for one substrate exactly when some film's pair
      writes it. */
  lemma FilmPassMembers(v: Script, sqrt: real -> real, films: seq<Material>, s: Material, tol: real, m: Match)
    requires IsSqrt(sqrt) && FilmsReady(v, films, s)
    ensures m in FilmPass(v, sqrt, films, s, tol)
        <==> exists i :: 0 <= i < |films| && m in PairRows(v, sqrt, films[i], s, tol)
  {
    AcrossMembers(Lines(v, sqrt, tol), films, s, m);
  }

  /** A line is in the output exactly when some pair of one film and one
      substrate writes it: every substrate is paired with every film. */
  lemma RunMembers(v: Script, sqrt: real -> real, films: seq<Material>, subs: seq<Material>, tol: real, m: Match)
    requires IsSqrt(sqrt) && AllReady(v, films, subs)
    ensures m in Run(v, sqrt, films, subs, tol)
        <==> exists i, j :: 0 <= i < |films| && 0 <= j < |subs| && m in PairRows(v, sqrt, films[i], subs[j], tol)
  {
    GridMembers(Lines(v, sqrt, tol), films, subs, m);
    forall i, j | 0 <= i < |films| && 0 <= j < |subs|
      ensures m in Lines(v, sqrt, tol)(films[i], subs[j]) <==> m in PairRows(v, sqrt, films[i], subs[j], tol)
    {
      LinesOf(v, sqrt, tol, films[i], subs[j]);
    }
  }

  /** One substrate against n films writes at most 3n lines, at most n for
      the first script, and none for a substrate of unknown symmetry. */
  lemma FilmPassLength(v: Script, sqrt: real -> real, films: seq<Material>, s: Material, tol: real)
    requires IsSqrt(sqrt) && FilmsReady(v, films, s)
    ensures |FilmPass(v, sqrt, films, s, tol)| <= 3 * |films|
    ensures v == FirstChecker ==> |FilmPass(v, sqrt, films, s, tol)| <= |films|
    ensures s.sym.Other? ==> FilmPass(v, sqrt, films, s, tol) == []
  {
    var pair := Lines(v, sqrt, tol);
    forall i | 0 <= i < |films|
      ensures |pair(films[i], s)| <= 3
      ensures v == FirstChecker ==> |pair(films[i], s)| <= 1
      ensures s.sym.Other? ==> |pair(films[i], s)| <= 0
    {
      LinesBound(v, sqrt, tol, films[i], s);
    }
    AcrossLength(pair, films, s, 3);
    if v == FirstChecker {
      AcrossLength(pair, films, s, 1);
    }
    if s.sym.Other? {
      AcrossLength(pair, films, s, 0);
    }
  }

  /** The whole run writes at most three lines per pair, at most one per pair
      for the first script. */
  lemma RunLength(v: Script, sqrt: real -> real, films: seq<Material>, subs: seq<Material>, tol: real)
    requires IsSqrt(sqrt) && AllReady(v, films, subs)
    ensures |Run(v, sqrt, films, subs, tol)| <= 3 * |films| * |subs|
    ensures v == FirstChecker ==> |Run(v, sqrt, films, subs, tol)| <= |films| * |subs|
  {
    var pair := Lines(v, sqrt, tol);
    forall i, j | 0 <= i < |films| && 0 <= j < |subs|
      ensures |pair(films[i], subs[j])| <= 3
      ensures v == FirstChecker ==> |pair(films[i], subs[j])| <= 1
    {
      LinesBound(v, sqrt, tol, films[i], subs[j]);
    }
    GridLength(pair, films, subs, 3);
    if v == FirstChecker {
      GridLength(pair, films, subs, 1);
    }
  }
}
