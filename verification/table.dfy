/** Orientation relations as data. Each relation a symmetry pair admits is a
    candidate line together with the tests guarding its write: a
    tolerance-independent gate and a list of values that must each lie below
    the tolerance. Selecting the candidates that pass, in order, gives the
    lines a matcher writes for the pair. */
module Table {
  import opened Crystal
  import opened Geometry
  import opened Subsequence
  import opened Flatten

  /** The tolerance the four older scripts fix (8%); the matcher takes it
      from its command line. */
  const ScriptTolerance: real := 0.08

  datatype Candidate = Candidate(row: Match, gate: bool, tests: seq<real>)

  /** A relation compared on one axis, written when its mismatch is below tol. */
  function OneAxis(f: Material, ff: Face, s: Material, sf: Face, x: Axis): Candidate
  {
    Candidate(Row(f, ff, s, sf, x, None), true, [Abs(x.mismatch)])
  }

  /** A relation compared on two axes, reporting the second as the c columns. */
  function TwoAxis(f: Material, ff: Face, s: Material, sf: Face, p: Axis, q: Axis,
                   gate: bool, tests: seq<real>): Candidate
  {
    Candidate(Row(f, ff, s, sf, p, Some(q)), gate, tests)
  }

  /** The write happens: the gate holds and every tested value is below tol. */
  predicate Passes(c: Candidate, tol: real)
  {
    c.gate && forall i :: 0 <= i < |c.tests| ==> c.tests[i] < tol
  }

  /** Passes spelled out for candidates with up to three tests. */
  lemma PassesExpanded(c: Candidate, tol: real)
    ensures |c.tests| == 1 ==> (Passes(c, tol) <==> c.gate && c.tests[0] < tol)
    ensures |c.tests| == 2 ==> (Passes(c, tol) <==> c.gate && c.tests[0] < tol && c.tests[1] < tol)
    ensures |c.tests| == 3 ==> (Passes(c, tol) <==> c.gate && c.tests[0] < tol && c.tests[1] < tol && c.tests[2] < tol)
  {
    if |c.tests| == 3 && c.gate && c.tests[0] < tol && c.tests[1] < tol && c.tests[2] < tol {
      forall i | 0 <= i < 3 ensures c.tests[i] < tol {
        if i == 2 {
          assert c.tests[i] == c.tests[2];
        }
      }
    }
  }

  /** The lines written for a list of candidates, in candidate order. */
  function Select(t: seq<Candidate>, tol: real): (rows: seq<Match>)
    ensures |rows| <= |t|
  {
    if t == [] then []
    else (if Passes(t[0], tol) then [t[0].row] else []) + Select(t[1..], tol)
  }

  /** A line is written exactly when some candidate carrying it passes. */
  lemma {:induction false} SelectMembers(t: seq<Candidate>, tol: real, m: Match)
    ensures m in Select(t, tol) <==> exists i :: 0 <= i < |t| && t[i].row == m && Passes(t[i], tol)
    decreases |t|
  {
    if t != [] {
      SelectMembers(t[1..], tol, m);
      if m in Select(t[1..], tol) {
        var i :| 0 <= i < |t[1..]| && t[1..][i].row == m && Passes(t[1..][i], tol);
        assert t[i + 1].row == m && Passes(t[i + 1], tol);
      }
      if exists i :: 0 <= i < |t| && t[i].row == m && Passes(t[i], tol) {
        var i :| 0 <= i < |t| && t[i].row == m && Passes(t[i], tol);
        if i > 0 {
          assert t[1..][i - 1] == t[i];
        }
      }
    }
  }

  /** Selection distributes over concatenation of candidate lists. */
  lemma {:induction false} SelectConcat(t1: seq<Candidate>, t2: seq<Candidate>, tol: real)
    ensures Select(t1 + t2, tol) == Select(t1, tol) + Select(t2, tol)
    decreases |t1|
  {
    if t1 == [] {
      assert t1 + t2 == t2;
    } else {
      assert (t1 + t2)[0] == t1[0];
      assert (t1 + t2)[1..] == t1[1..] + t2;
      SelectConcat(t1[1..], t2, tol);
    }
  }

  /** The lines of each block of candidates, block by block. */
  function SelectEach(tss: seq<seq<Candidate>>, tol: real): (rss: seq<seq<Match>>)
    ensures |rss| == |tss|
    ensures forall i :: 0 <= i < |tss| ==> rss[i] == Select(tss[i], tol)
  {
    seq(|tss|, i requires 0 <= i < |tss| => Select(tss[i], tol))
  }

  /** Selecting from blocks laid end to end writes each block's lines in
      block order. */
  lemma {:induction false} SelectFlatten(tss: seq<seq<Candidate>>, tol: real)
    ensures Select(Concat(tss), tol) == Concat(SelectEach(tss, tol))
    decreases |tss|
  {
    if tss != [] {
      SelectFlatten(tss[1..], tol);
      SelectConcat(tss[0], Concat(tss[1..]), tol);
      assert SelectEach(tss, tol)[1..] == SelectEach(tss[1..], tol);
    }
  }

  /** A pass whose every block is the selection of a block of candidates is
      the selection of the pass over the candidates. */
  lemma AcrossSelect<A, B>(cand: (A, B) -> seq<Candidate>, pair: (A, B) -> seq<Match>, xs: seq<A>, y: B, tol: real)
    requires forall x :: pair(x, y) == Select(cand(x, y), tol)
    ensures Across(pair, xs, y) == Select(Across(cand, xs, y), tol)
  {
    SelectFlatten(Blocks(cand, xs, y), tol);
    assert SelectEach(Blocks(cand, xs, y), tol) == Blocks(pair, xs, y);
  }

  /** The same for a whole grid of pairs. */
  lemma GridSelect<A, B>(cand: (A, B) -> seq<Candidate>, pair: (A, B) -> seq<Match>, xs: seq<A>, ys: seq<B>, tol: real)
    requires forall x, y :: pair(x, y) == Select(cand(x, y), tol)
    ensures Grid(pair, xs, ys) == Select(Grid(cand, xs, ys), tol)
  {
    forall j | 0 <= j < |ys|
      ensures Across(pair, xs, ys[j]) == Select(Across(cand, xs, ys[j]), tol)
    {
      AcrossSelect(cand, pair, xs, ys[j], tol);
    }
    SelectFlatten(PassBlocks(cand, xs, ys), tol);
    assert SelectEach(PassBlocks(cand, xs, ys), tol) == PassBlocks(pair, xs, ys);
  }

  /** Raising the tolerance never removes a line: every test that passes at
      tol1 passes at any larger tol2, and the candidates do not depend on it. */
  lemma {:induction false} SelectMonotone(t: seq<Candidate>, tol1: real, tol2: real)
    requires tol1 <= tol2
    ensures IsSubseq(Select(t, tol1), Select(t, tol2))
    decreases |t|
  {
    if t == [] {
      EmptyIsSubseq<Match>([]);
    } else {
      SelectMonotone(t[1..], tol1, tol2);
      var head1 := if Passes(t[0], tol1) then [t[0].row] else [];
      var head2 := if Passes(t[0], tol2) then [t[0].row] else [];
      if Passes(t[0], tol1) {
        SubseqReflexive(head1);
      } else {
        EmptyIsSubseq(head2);
      }
      SubseqConcat(head1, head2, Select(t[1..], tol1), Select(t[1..], tol2));
    }
  }

  /** No two candidates carry the same pair of labels. */
  predicate DistinctLabels(t: seq<Candidate>)
  {
    forall i, j :: 0 <= i < j < |t| ==>
      !(t[i].row.filmFace == t[j].row.filmFace && t[i].row.subFace == t[j].row.subFace)
  }

  /** When labels single out candidate k, the lines carry those labels (and
      k's axes) exactly when candidate k passes. */
  lemma SelectSingledOut(t: seq<Candidate>, tol: real, k: int)
    requires 0 <= k < |t|
    requires DistinctLabels(t)
    ensures Labelled(Select(t, tol), t[k].row.filmFace, t[k].row.subFace) <==> Passes(t[k], tol)
    ensures Reports(Select(t, tol), t[k].row.filmFace, t[k].row.subFace, t[k].row.primary, t[k].row.secondary)
        <==> Passes(t[k], tol)
  {
    var m := t[k].row;
    SelectMembers(t, tol, m);
    forall x | x in Select(t, tol) && x.filmFace == m.filmFace && x.subFace == m.subFace
      ensures Passes(t[k], tol) && x == m
    {
      SelectMembers(t, tol, x);
      var i :| 0 <= i < |t| && t[i].row == x && Passes(t[i], tol);
      assert i == k;
    }
  }

  /** Every written line is the line of some candidate. */
  lemma SelectFrom(t: seq<Candidate>, tol: real, m: Match)
    requires m in Select(t, tol)
    ensures exists i :: 0 <= i < |t| && t[i].row == m
  {
    SelectMembers(t, tol, m);
  }

  /** The pair of labels of each candidate, in order. */
  function LabelsOf(t: seq<Candidate>): (labels: seq<(Face, Face)>)
    ensures |labels| == |t|
    ensures forall i :: 0 <= i < |t| ==> labels[i] == (t[i].row.filmFace, t[i].row.subFace)
  {
    seq(|t|, i requires 0 <= i < |t| => (t[i].row.filmFace, t[i].row.subFace))
  }

  /** Every row carries one of the listed label pairs. */
  predicate LabelsAmong(rows: seq<Match>, labels: seq<(Face, Face)>)
  {
    forall m :: m in rows ==> (m.filmFace, m.subFace) in labels
  }

  /** Every candidate names this film and this substrate. */
  predicate FromPair(t: seq<Candidate>, f: Material, s: Material)
  {
    forall i :: 0 <= i < |t| ==>
      t[i].row.film == f.comp && t[i].row.filmSym == f.sym && t[i].row.sub == s.comp && t[i].row.subSym == s.sym
  }

  /** The written rows carry only labels of the candidates, and name the pair
      the candidates name. */
  lemma SelectShape(t: seq<Candidate>, tol: real, f: Material, s: Material)
    requires FromPair(t, f, s)
    ensures LabelsAmong(Select(t, tol), LabelsOf(t))
    ensures AllFrom(Select(t, tol), f, s)
  {
    forall m | m in Select(t, tol)
      ensures (m.filmFace, m.subFace) in LabelsOf(t)
      ensures m.film == f.comp && m.filmSym == f.sym && m.sub == s.comp && m.subSym == s.sym
    {
      SelectMembers(t, tol, m);
      var i :| 0 <= i < |t| && t[i].row == m && Passes(t[i], tol);
      assert LabelsOf(t)[i] == (m.filmFace, m.subFace);
    }
  }

  /** Selection from a literal list of three candidates, one conditional
      write after another. */
  lemma SelectThree(c0: Candidate, c1: Candidate, c2: Candidate, tol: real)
    ensures Select([c0, c1, c2], tol)
         == Emit(Passes(c0, tol), c0.row) + Emit(Passes(c1, tol), c1.row) + Emit(Passes(c2, tol), c2.row)
  {
    assert [c0, c1, c2][1..] == [c1, c2];
    assert [c1, c2][1..] == [c2];
    assert [c2][1..] == [];
    assert Select([c2], tol) == Emit(Passes(c2, tol), c2.row) + Select([], tol);
    assert Select([c1, c2], tol) == Emit(Passes(c1, tol), c1.row) + Select([c2], tol);
    assert Select([c0, c1, c2], tol) == Emit(Passes(c0, tol), c0.row) + Select([c1, c2], tol);
  }

  // ---- the direct relation ---------------------------------------------------

  /** The relation every pair of like faces admits: the substrate's a against
      the film's a, neither turned. */
  function Direct(f: Material, s: Material): (t: seq<Candidate>)
    requires f.a > 0.0 && s.a > 0.0
    ensures |t| == 1 && FromPair(t, f, s)
  {
    [ OneAxis(f, Plain, s, Plain, Measure(s.a, f.a)) ]
  }

  /** The direct line is the only line, and it is written exactly when the a
      mismatch is below the tolerance. */
  lemma DirectRows(f: Material, s: Material, tol: real)
    requires f.a > 0.0 && s.a > 0.0
    ensures var rows := Select(Direct(f, s), tol);
            var a := Measure(s.a, f.a);
            AllFrom(rows, f, s) && |rows| <= 1 && LabelsAmong(rows, [(Plain, Plain)])
            && (Reports(rows, Plain, Plain, a, None) <==> Accepts(a, tol))
  {
    var t := Direct(f, s);
    SelectShape(t, tol, f, s);
    SelectSingledOut(t, tol, 0);
    PassesExpanded(t[0], tol);
  }

  // ---- film symmetry as a label only -----------------------------------------

  /** The same lines with the film's symmetry column replaced by x. */
  function WithFilmSym(rows: seq<Match>, x: Sym): (out: seq<Match>)
    ensures |out| == |rows|
    ensures forall i :: 0 <= i < |rows| ==> out[i] == rows[i].(filmSym := x)
  {
    seq(|rows|, i requires 0 <= i < |rows| => rows[i].(filmSym := x))
  }

  /** The same candidates with the film's symmetry column replaced by x. */
  function RelabelFilm(t: seq<Candidate>, x: Sym): (out: seq<Candidate>)
    ensures |out| == |t|
    ensures forall i :: 0 <= i < |t| ==> out[i] == t[i].(row := t[i].row.(filmSym := x))
  {
    seq(|t|, i requires 0 <= i < |t| => t[i].(row := t[i].row.(filmSym := x)))
  }

  /** Relabelling the candidates relabels the written lines and writes
      nothing more or less, since the tests do not read the label. */
  lemma {:induction false} SelectRelabel(t: seq<Candidate>, tol: real, x: Sym)
    ensures Select(RelabelFilm(t, x), tol) == WithFilmSym(Select(t, tol), x)
    decreases |t|
  {
    if t != [] {
      var r := RelabelFilm(t, x);
      assert r[1..] == RelabelFilm(t[1..], x);
      SelectRelabel(t[1..], tol, x);
      assert Passes(r[0], tol) == Passes(t[0], tol);
      var head := if Passes(t[0], tol) then [t[0].row] else [];
      var rest := Select(t[1..], tol);
      assert WithFilmSym(head + rest, x) == WithFilmSym(head, x) + WithFilmSym(rest, x);
    }
  }
}
