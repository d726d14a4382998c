# Lattice matching of epitaxial films and substrates

The repository screens pairs of crystalline materials for epitaxial lattice
matches. A material row has a composition, a symmetry code ("C" cubic, "T"
tetragonal, "H" hexagonal) and the lattice constants a and c. For a film on
a substrate, every orientation relation the two symmetries admit compares a
substrate length with a film length. The ratio of the two is rounded to a
commensurate order n or 1/n. The mismatch is `(sub − rounded·film)/sub`. A
match line is written when the mismatch, and any further tests of the
relation, are below the tolerance.

This Dafny project models the following parts.

- **Five matcher scripts.**
  - The canonical matcher: `LatticeMatcher`, modelling `lattice_matcher.py`.
  - Three single-symmetry film scripts: `CubicChecker`, `TetragonalChecker`
    and `HexagonalChecker`.
  - The first script: `LatticeChecker`, modelling `LatticeChecker.py`.
  - Each script's relation table is a function. It returns the relations of
    one pair as candidates: the line, a tolerance-free gate, and the values
    that must each be below the tolerance (`Table`).
  - The written lines are the selection of the passing candidates. The
    iteration, substrate-major and film-minor, is one function shared by all
    five scripts (`Sweep`).
  - The helpers `round_ratio`/`ratio_cal` have the same body in all five
    scripts and are modelled once (`Commensurate.RoundRatio`).
  - The same holds for `ratio_check` (`Geometry.RatioCheck`) and for the
    mismatch expression (`Geometry.Mismatch`).
- **The threshold calculator** (`Threshold`). It computes the tolerance
  windows (1 − tol)·x … (1 + tol)·x that it prints for each substrate.
- **The composition calculator** (`Composition`). It selects the rows of the
  III-V reference table whose lattice constant lies strictly inside a
  substrate's windows.
- **The III-V table generator** (`Alloys`). It runs four nested loops over
  whole percentages of P/As/Sb and Al/Ga/In and computes the weighted
  average of nine binary lattice constants. `Alloys.Enumerate` is the loop
  nest as a method whose invariants pin down the row of every visited tuple.

The square root of the host library is a parameter `sqrt` that satisfies
`Geometry.IsSqrt`: it is non-negative, and its square gives back a
non-negative argument. The tolerance is a parameter. Lengths are exact reals.
Python 2's `round` is `Commensurate.Round`, which rounds halves away from
zero.

Several formulas in the source look unintended. The model keeps them as
written and proves what they amount to:

- the truthiness test on the c mismatch (lattice_matcher.py:103,105);
- the cross ratio of tetragonal films on cubic (110)
  (lattice_matcher.py:124, tetragonal_checker.py:49);
- the lost parentheses `/numpy.sqrt(2.0)*sub_a`
  (lattice_matcher.py:176-179, hexagonal_checker.py:58-61);
- the doubled c test (lattice_matcher.py:184);
- the line written twice (cubic_checker.py:61-62);
- the stale rounded ratio (cubic_checker.py:77).

## Model

| member | source | states |
|---|---|---|
| Crystal.ParseSym | lattice_matcher.py:33-39 | only the codes "C", "T" and "H" name a symmetry; every other code is kept as unknown |
| Crystal.Emit | lattice_matcher.py:65-66 | a guarded write produces the line exactly when its test holds, and nothing else |
| Commensurate.Round | lattice_matcher.py:216-218 | Python 2 `round`: the result is within one half of x, and halves go away from zero |
| Commensurate.RoundOne | lattice_matcher.py:218 | every ratio from 1/2 up to, but not including, 3/2 rounds to 1 |
| Commensurate.RoundRatio | lattice_matcher.py:210-219 | round_ratio: a ratio of at least 1 is rounded, a smaller one is replaced by 1 over its rounded inverse; what the result is, is stated by Commensurate.RoundRatioNearest |
| Commensurate.RoundRatioNearest | lattice_matcher.py:210-219 | a positive ratio of at least 1 becomes the nearest whole n ≥ 1; a smaller one becomes 1/n for the whole n nearest its inverse, so it lies in (0,1] |
| Commensurate.ReciprocalOfWhole | lattice_matcher.py:216 | 1/n for a whole n ≥ 1 lies in (0,1] and inverts back to n |
| Commensurate.FixesCommensurate | lattice_matcher.py:215-219 | n and 1/n are left unchanged for every whole n ≥ 1 |
| Commensurate.RoundRatioIdempotent | lattice_matcher.py:215-219 | rounding an already rounded ratio changes nothing |
| Commensurate.RoundRatioExamples | lattice_matcher.py:215-219 | 1.0, 2.9 and 0.33 round to 1, 3 and 1/3 |
| Geometry.Root2 | lattice_matcher.py:227 | √2 is positive and squares to 2 (with Geometry.Root2Squared) |
| Geometry.Diagonal | lattice_matcher.py:60 | √2·x is positive for positive x and non-zero for non-zero x |
| Geometry.DiagonalSquared | lattice_matcher.py:60 | the square of √2·x is 2x² |
| Geometry.RPlaneLength | lattice_matcher.py:100 | √(c² + 3a²) is non-negative, and positive when a is non-zero |
| Geometry.RPlaneLengthSquared | lattice_matcher.py:100 | the square of the r-plane side is c² + 3a² |
| Geometry.RatioCheck | lattice_matcher.py:221-228 | \|c/(√2·a) − 1\| is never negative |
| Geometry.RatioCheckZero | lattice_matcher.py:227-228 | the c/a test reads zero exactly when c = √2·a |
| Geometry.RatioCheckIsWindow | lattice_matcher.py:227-228 | for a > 0 the c/a test is below tol exactly when c lies strictly inside the tolerance window of √2·a |
| Geometry.Mismatch | lattice_matcher.py:63 | the signed fractional mismatch of a substrate length against rounded·film; its meaning is stated by Geometry.MismatchMeaning and Geometry.MismatchWindow |
| Geometry.MismatchMeaning | lattice_matcher.py:63 | mismatch·sub = sub − rounded·film; the mismatch is zero exactly when the two coincide, and positive exactly when the substrate is longer |
| Geometry.MismatchInjective | lattice_matcher.py:63 | against a non-zero film length, two rounded ratios give the same mismatch only when they are equal |
| Geometry.SkewedMismatch | lattice_matcher.py:176-179 | the mismatch as the hexagonal-on-cubic lines parenthesise it; Geometry.SkewedIsScaled relates it to the intended one |
| Geometry.SkewedIsScaled | lattice_matcher.py:176-179 | the unparenthesised `(√2·a − r·f)/√2·a` equals the intended mismatch against √2·a multiplied by a² |
| Geometry.Measure | lattice_matcher.py:59-63 | the original ratio, rounded ratio and mismatch of one axis; Geometry.MeasureMeaning states what the three are |
| Geometry.CrossMeasure | lattice_matcher.py:118-124 | an axis whose ratio and mismatch use different film lengths; Geometry.CrossMeasureMeaning states the relation |
| Geometry.SkewedMeasure | lattice_matcher.py:168-179 | an axis against √2·sub_a with the skewed mismatch; Geometry.SkewedMeasureMeaning states the relation |
| Geometry.MeasureMeaning | lattice_matcher.py:59-63 | original ratio × film = substrate, the rounded ratio is its commensurate rounding, and the mismatch compares the substrate with that many film lengths |
| Geometry.CrossMeasureMeaning | lattice_matcher.py:118-124 | the ratio is taken against one film length (film c) while the mismatch multiplies another (film a) |
| Geometry.SkewedMeasureMeaning | lattice_matcher.py:168-179 | the ratio √2·a/ref is rounded as usual, and its mismatch is the intended one scaled by a² |
| Geometry.ExactMultiple | lattice_matcher.py:59-63 | a substrate length of exactly n film lengths has ratio n, rounded ratio n and mismatch 0 |
| Geometry.ScaledWindow | lattice_matcher.py:65 | \|m\| < tol, where m·d = d − x, holds exactly when x lies strictly inside (1 ± tol)·d |
| Geometry.MismatchWindow | lattice_matcher.py:63-65 | \|(s − x)/s\| < tol holds exactly when x lies strictly inside (1 ± tol)·s |
| Geometry.MismatchIsWindow | lattice_matcher.py:63-65 | a mismatch is below tol in magnitude exactly when rounded·film lies strictly inside (1 ± tol)·sub |
| Geometry.UpperValue | threshold_calculator.py:118-128 | upper_value, the top (1 + tol)·x of a window; Threshold.AroundBrackets and Geometry.MismatchWindow state what the window holds |
| Geometry.LowerValue | threshold_calculator.py:130-140 | lower_value, the bottom (1 − tol)·x of a window; stated by the same two lemmas |
| Geometry.InWindow | threshold_calculator.py:118-140 | y lies strictly between lower_value and upper_value of the reference length, the one window test every calculator shares |
| Geometry.WindowThirds | threshold_calculator.py:127-139 | for tol < 1/3 the window of x lies between 2x/3 and 4x/3 |
| Geometry.NarrowWindow | threshold_calculator.py:127-139 | for tol < 1/3, a length inside the window of x is within a factor of 3/2 of x, both ways |
| Geometry.UnitRatio | lattice_matcher.py:215-219 | a length inside a window of less than a third has a rounded ratio of exactly 1 |
| Geometry.UnitWindow | lattice_matcher.py:59-65 | for tol < 1/3, y lies inside the window of x exactly when the matcher accepts the axis (x, y) at rounded ratio 1 |
| Table.PassesExpanded | lattice_matcher.py:84 | a relation's line is written exactly when its gate holds and each of its tests is below tol |
| Table.Select | lattice_matcher.py:65-68 | the lines of a relation list, one guarded write per relation, are never more than the relations |
| Table.SelectMembers | lattice_matcher.py:65-68 | a line is written exactly when some relation carrying it passes |
| Table.SelectMonotone | lattice_matcher.py:65-207 | every test has the form value < tol, so the lines at a smaller tolerance are a subsequence of those at a larger one |
| Table.SelectSingledOut | lattice_matcher.py:65-68 | when its labels single out one relation, the line with those labels is written exactly when that relation passes |
| Table.SelectShape | lattice_matcher.py:65-68 | every written line names the pair and carries the labels of one of the pair's relations |
| Table.SelectThree | cubic_checker.py:59-62 | three guarded writes in a row produce the written ones in order |
| Table.Direct | lattice_matcher.py:204-208 | the direct relation compares the two a constants, with plain faces |
| Table.DirectRows | lattice_matcher.py:204-208 | the direct line is the only line, and it is written exactly when the a mismatch is below tol |
| Table.SelectRelabel | cubic_checker.py:19-25 | changing the film's symmetry column of the relations changes only that column of the written lines |
| LatticeMatcher.SquareFaces | lattice_matcher.py:57-68 | cubic on cubic and tetragonal on tetragonal: two relations of the pair |
| LatticeMatcher.SquareFacesRows | lattice_matcher.py:57-68 | the plain line is written iff the a mismatch is below tol, and the 45° line iff the mismatch of √2·sub_a against film_a is below tol |
| LatticeMatcher.CubicOnTetragonal | lattice_matcher.py:69-85 | three relations of the pair |
| LatticeMatcher.CubicOnTetragonalRows | lattice_matcher.py:69-85 | the plain and 45° lines as above; the (110)/a-plane line iff the substrate c/a test, \|mismatch_c\| and \|mismatch_a\| are all below tol |
| LatticeMatcher.CubicOnHexagonal | lattice_matcher.py:86-106 | three relations of the pair |
| LatticeMatcher.CubicOnHexagonalRows | lattice_matcher.py:86-106 | the (111) line iff sub_a against √2·film_a passes; each (110) line iff its c/a test passes, its c mismatch is non-zero (truthiness) and the a mismatch passes |
| LatticeMatcher.CubicOnHexagonalClosed | lattice_matcher.py:103-104 | an exactly zero c mismatch suppresses the a-plane line at every tolerance |
| LatticeMatcher.CubicOnHexagonalExactCSuppressed | lattice_matcher.py:103-104 | a substrate c of exactly n·√2·film_a never gets the a-plane line |
| LatticeMatcher.TetragonalOnCubic | lattice_matcher.py:114-130 | three relations of the pair |
| LatticeMatcher.TetragonalOnCubicRows | lattice_matcher.py:114-130 | the plain and 45° lines as for cubic films; the a-plane/(110) line iff the film c/a test, the cross c mismatch (ratio from film_c, product with film_a) and the a mismatch all pass |
| LatticeMatcher.TetragonalOnHexagonal | lattice_matcher.py:143-157 | two relations of the pair |
| LatticeMatcher.TetragonalOnHexagonalRows | lattice_matcher.py:143-157 | the a-plane line iff the a and c mismatches pass; the r-plane line iff the a mismatch and that of √(c² + 3a²) of the substrate pass |
| LatticeMatcher.HexagonalOnCubic | lattice_matcher.py:165-185 | three relations of the pair |
| LatticeMatcher.HexagonalOnCubicRows | lattice_matcher.py:165-185 | the (111) line iff the skewed basal mismatch passes; the a-plane line iff the film c/a, skewed c and a tests pass; the r-plane line iff its c/a test and the a-plane's skewed c mismatch pass, its own mismatch never being tested |
| LatticeMatcher.HexagonalOnTetragonal | lattice_matcher.py:186-201 | two relations of the pair |
| LatticeMatcher.HexagonalOnTetragonalRows | lattice_matcher.py:186-201 | both lines need the a mismatch, plus the c mismatch, or that of the film's r-plane side against sub_c |
| LatticeMatcher.RelationCount | lattice_matcher.py:51-208 | at most 3 relations per pair, none when either code is unknown |
| LatticeMatcher.Ready | lattice_matcher.py:51-208 | the constants each symmetry pair divides by are positive: both a for every pair of known codes, sub_c for C on T and C on H, film_c for T on C, both c for T on H and H on T; nothing for unknown codes |
| LatticeMatcher.Relations | lattice_matcher.py:33-39 | dispatch by film symmetry, then substrate symmetry: 2, 3, 3, 3, 2, 2, 3, 2 and 1 relations for C-C … H-H |
| CubicChecker.CubicSub | cubic_checker.py:42-48 | on a cubic substrate, only the direct relation |
| CubicChecker.CubicSubExample | cubic_checker.py:42-48 | film a 5.6605 on substrate a 5.6533 at 8%: rounds to 1, mismatch ≈ −0.00127, and the line is written |
| CubicChecker.TetragonalSub | cubic_checker.py:50-62 | on a tetragonal substrate, the direct relation and the (110) relation entered twice |
| CubicChecker.TetragonalSubRows | cubic_checker.py:50-62 | the direct line iff the a mismatch passes; the (110) line appears exactly twice when the c/a test and the a mismatch pass (mismatch_c untested), and never otherwise |
| CubicChecker.StaleAxis | cubic_checker.py:77 | the r-plane axis as the script computes it, with the a-plane rounded ratio; CubicChecker.StaleAxisAgrees states when it agrees with its own |
| CubicChecker.StaleAxisAgrees | cubic_checker.py:77 | the r-plane mismatch, computed with the a-plane's rounded ratio, agrees with its own exactly when the two rounded ratios are equal |
| CubicChecker.HexagonalSub | cubic_checker.py:64-84 | on a hexagonal substrate, three relations |
| CubicChecker.HexagonalSubRows | cubic_checker.py:64-84 | the (111) line iff sub_a against √2·film_a passes; each (110) line iff the a mismatch and its c/a test (sub_c, or √(c² + 3a²)) pass |
| CubicChecker.Ready | cubic_checker.py:42-84 | both a always, and sub_c on tetragonal and hexagonal substrates (cubic_checker.py:57, 76); nothing for unknown substrate codes |
| CubicChecker.Relations | cubic_checker.py:17-25 | dispatch on substrate symmetry only, at most 3 relations, none for unknown codes |
| CubicChecker.IgnoresFilmSym | cubic_checker.py:17-25 | the film's symmetry is never inspected: changing it changes only that column of the lines |
| TetragonalChecker.CubicSub | tetragonal_checker.py:42-53 | on a cubic substrate, the direct relation and the a-plane/(110) relation, with no 45° relation |
| TetragonalChecker.CubicSubRows | tetragonal_checker.py:42-53 | the direct line iff the a mismatch passes; the (110) line iff the film c/a test and the a mismatch pass, the cross c mismatch going untested |
| TetragonalChecker.TetragonalSub | tetragonal_checker.py:56-62 | on a tetragonal substrate, only the direct relation |
| TetragonalChecker.HexagonalSub | tetragonal_checker.py:64-78 | on a hexagonal substrate, the two relations of the canonical matcher |
| TetragonalChecker.HexagonalSubRows | tetragonal_checker.py:64-78 | the a-plane line needs the a and c mismatches; the r-plane line needs the a mismatch and that of √(sub_c² + 3·sub_a²) |
| TetragonalChecker.Ready | tetragonal_checker.py:42-78 | both a always, film_c on cubic and hexagonal substrates, sub_c on hexagonal ones; nothing for unknown substrate codes |
| TetragonalChecker.Relations | tetragonal_checker.py:17-25 | dispatch on substrate symmetry only, at most 2 relations, none for unknown codes |
| TetragonalChecker.IgnoresFilmSym | tetragonal_checker.py:17-25 | the film's symmetry only fills its column of the lines |
| HexagonalChecker.CubicSub | hexagonal_checker.py:47-67 | on a cubic substrate, three relations |
| HexagonalChecker.CubicSubRows | hexagonal_checker.py:47-67 | the (111) line iff the skewed basal mismatch passes; the a-plane line iff the a mismatch and the film c/a test pass; the r-plane line iff the a mismatch and the test of √(sub_c² + 3·sub_a²) against film_a pass |
| HexagonalChecker.TetragonalSub | hexagonal_checker.py:69-84 | on a tetragonal substrate, the two relations of the canonical matcher |
| HexagonalChecker.TetragonalSubRows | hexagonal_checker.py:69-84 | both lines need the a mismatch, plus the c mismatch, or that of the film's √(c² + 3a²) |
| HexagonalChecker.HexagonalSub | hexagonal_checker.py:86-92 | on a hexagonal substrate, only the direct relation |
| HexagonalChecker.Ready | hexagonal_checker.py:47-92 | both a always, and both c on tetragonal substrates; nothing for unknown substrate codes |
| HexagonalChecker.Relations | hexagonal_checker.py:17-25 | dispatch on substrate symmetry only, at most 3 relations, none for unknown codes |
| HexagonalChecker.IgnoresFilmSym | hexagonal_checker.py:17-25 | the film's symmetry only fills its column of the lines |
| LatticeChecker.CubicOnHexagonal | LatticeChecker.py:61-67 | a cubic film on a hexagonal substrate gets the (111) relation only |
| LatticeChecker.CubicOnHexagonalRows | LatticeChecker.py:61-67 | that line is written iff sub_a against √2·film_a passes |
| LatticeChecker.HexagonalOnCubic | LatticeChecker.py:89-97 | a hexagonal film on a cubic substrate gets the basal/(111) relation only |
| LatticeChecker.HexagonalOnCubicRows | LatticeChecker.py:89-97 | that line is written iff the properly parenthesised mismatch of √2·sub_a against film_a passes |
| LatticeChecker.Relations | LatticeChecker.py:44-107 | at most one relation per pair; none for T on H, H on T, or unknown codes |
| Sweep.Candidates | lattice_matcher.py:27-39 | each script's relations for a pair: at most 3, at most 1 for the first script, none for unknown substrate codes |
| Sweep.PairRows | lattice_matcher.py:33-39 | the lines of one pair name that pair, at most 3 (1 for the first script) |
| Sweep.UnknownFilmSkipped | lattice_matcher.py:33-39 | the canonical matcher and the first script write nothing for a film of unknown symmetry |
| Sweep.FilmPass | lattice_matcher.py:27-39 | check_film_file: one substrate against every film in turn; its order, members and length are stated by Sweep.FilmPassFilms, Sweep.FilmPassMembers and Sweep.FilmPassLength |
| Sweep.Run | lattice_matcher.py:41-49 | lattice_check: every substrate against the film pass; stated by Sweep.RunIsSelect, Sweep.RunMembers, Sweep.RunSubstrates, Sweep.RunLength and Sweep.RunMonotone |
| Sweep.RunIsSelect | lattice_matcher.py:41-49 | the whole output is the selection, at the tolerance, of every pair's relations in visiting order |
| Sweep.RunMonotone | lattice_matcher.py:57-207 | raising the tolerance never removes a line and keeps the order |
| Sweep.RunSubstrates | lattice_matcher.py:41-49 | substrate-major: the output for subs1 + subs2 is that of subs1 followed by that of subs2 |
| Sweep.FilmPassFilms | lattice_matcher.py:27-39 | film-minor: for one substrate, the lines of earlier films come first |
| Sweep.FilmPassMembers | lattice_matcher.py:27-39 | a line is written for a substrate exactly when some film's pair writes it |
| Sweep.RunMembers | LatticeChecker.py:31-42 | a line is in the output exactly when some film and substrate pair writes it, since every substrate is paired with every film (the film file is rewound) |
| Sweep.FilmPassLength | lattice_matcher.py:27-39 | one substrate against n films: at most 3n lines, at most n for the first script, none for unknown codes |
| Sweep.RunLength | lattice_matcher.py:41-49 | at most 3 lines per pair, at most 1 per pair for the first script |
| Threshold.LineCount | threshold_calculator.py:37-44 | 3, 2 and 3 lines for C, T and H substrates, and none for unknown codes |
| Threshold.SubstrateLines | threshold_calculator.py:46-116 | a substrate gets LineCount lines carrying its symmetry, the first with its a window; on T and H substrates the a-plane line carries the a and c windows; on H substrates the r-plane line carries the a window (its c window is Threshold.RPlaneWindow) |
| Threshold.AroundBrackets | threshold_calculator.py:118-140 | upper + lower = 2x and upper − lower = 2·tol·x; for tol > 0 lower < x < upper; for tol ≤ 0 the window is empty |
| Threshold.AroundNested | threshold_calculator.py:118-140 | a larger tolerance widens the window of a non-negative length |
| Threshold.InsideIsUnitMatch | threshold_calculator.py:127-139 | for tol < 1/3, a length lies in a window exactly when the matcher accepts it at rounded ratio 1 |
| Threshold.SummaryIsDirect | threshold_calculator.py:61-65 | a substrate's own line lists exactly the films whose direct line the matchers write at rounded ratio 1 |
| Threshold.DiagonalWindow | threshold_calculator.py:61-67 | cubic (110) and (111) share the window of √2·a, which lists the lengths that match it one to one |
| Threshold.RPlaneWindow | threshold_calculator.py:108-116 | the hexagonal r-plane window of √(c² + 3a²) lists the lengths that match it one to one |
| Threshold.SubstrateFile | threshold_calculator.py:25-44 | check_substrate_file: the lines of every substrate row in turn; stated by the three Threshold.SubstrateFile lemmas below |
| Threshold.SubstrateFileAppend | threshold_calculator.py:37-44 | the output follows the order of the input rows |
| Threshold.SubstrateFileMembers | threshold_calculator.py:37-44 | a line is in the file exactly when some substrate row gets it |
| Threshold.SubstrateFileLength | threshold_calculator.py:37-44 | at most 3 lines per substrate; rows of unknown codes only write nothing |
| Composition.RefPicks | composition_calculator.py:44-125 | at most 2 lines per reference row and substrate, at most 1 on hexagonal ones, none for unknown codes, each naming the row and the substrate |
| Composition.RefPicksMeaning | composition_calculator.py:59-125 | plain line iff a_ref is strictly inside the a window (C or T); 45° line iff inside the √2·a window, with the substrate label rotated on T only; (111) line iff inside √2 times the a window (H); no other line |
| Composition.BasalIsDiagonalWindow | composition_calculator.py:122 | √2·lower_value(a) < y < √2·upper_value(a) is the window of √2·a |
| Composition.SameWindowsAsThreshold | composition_calculator.py:59-68 | the windows are those the threshold calculator prints for the same substrate |
| Composition.PicksAreUnitMatches | composition_calculator.py:59-101 | for tol < 1/3, the plain and 45° lines list exactly the alloys the matcher accepts at rounded ratio 1 |
| Composition.RefPicksMonotone | composition_calculator.py:64-122 | a larger tolerance keeps every line of a reference row, in order |
| Composition.CompositionFile | composition_calculator.py:23-42 | check_substrate_file: every substrate row against every reference row; stated by the Composition.CompositionFile lemmas below |
| Composition.CompositionFileAppend | composition_calculator.py:36-42 | substrate-major: the file for subs1 + subs2 is that of subs1 followed by that of subs2 |
| Composition.CompositionFileRefs | composition_calculator.py:63 | reference-minor: a substrate's lines keep the reference table's order |
| Composition.CompositionFileMembers | composition_calculator.py:36-125 | a line is in the file exactly when some reference row gets it from some substrate |
| Composition.CompositionFileLength | composition_calculator.py:36-125 | at most 2 lines per reference row and substrate, 1 for all-hexagonal substrates, none for all-unknown ones |
| Composition.CompositionFileMonotone | composition_calculator.py:64-122 | larger tolerances give a superset of lines, in order |
| Composition.CompositionFileWellFormed | composition_calculator.py:63-125 | picks from well-formed reference rows carry well-formed rows with a > 0 |
| Alloys.VisitedIsAlloy | iii_v_calculator.py:29-34 | every visited tuple has y_Sb, x_In ≥ 0, and each group of three sums to 100 |
| Alloys.LatticeConstant | iii_v_calculator.py:36-38 | Vegard's-law blend of the nine binaries, weighted by the group-V and group-III percentages, over 10000; bounded by Alloys.LatticeConstantBounds and pinned at the corners by Alloys.BinaryCorners |
| Alloys.LatticeConstantBounds | iii_v_calculator.py:17-38 | a is a convex combination of the nine constants, so 5.4505 ≤ a ≤ 6.4794 |
| Alloys.BlendBounds | iii_v_calculator.py:36-38 | a blend with non-negative weights summing to 100 lies between 100·lo and 100·hi |
| Alloys.GroupCorner | iii_v_calculator.py:36-38 | with one group-III element at 100%, its group blend is 100 times that binary |
| Alloys.BinaryCorners | iii_v_calculator.py:36-38 | at the nine pure-binary corners, a equals that binary's constant |
| Alloys.RowOf | iii_v_calculator.py:39 | the stored row: six fractions and a; Alloys.RowWellFormed and Alloys.Enumerate state its contents |
| Alloys.RowWellFormed | iii_v_calculator.py:39 | each stored row has fractions that are non-negative and sum to 1 per group, and a within the bounds |
| Alloys.PairsBeforeClosed | iii_v_calculator.py:29-32 | the number of pairs (p, q) with p < n and p + q ≤ 100 is n(203 − n)/2 |
| Alloys.AllPairs | iii_v_calculator.py:27-32 | 5151 pairs per group, and 5151² = 26532801 rows, the preallocated size |
| Alloys.IndexOrder | iii_v_calculator.py:29-40 | lexicographic order of (y_P, y_As, x_Al, x_Ga) is row order |
| Alloys.IndexInjective | iii_v_calculator.py:29-40 | distinct tuples go to distinct rows |
| Alloys.IndexInTable | iii_v_calculator.py:27-40 | every visited tuple's row index lies inside the preallocated table |
| Alloys.FillGa | iii_v_calculator.py:32-40 | the x_Ga loop writes the rows of every tuple up to the next x_Al, in order |
| Alloys.FillAl | iii_v_calculator.py:31-40 | the x_Al loop writes the rows of every tuple up to the next y_As |
| Alloys.FillAs | iii_v_calculator.py:30-40 | the y_As loop writes the rows of every tuple up to the next y_P |
| Alloys.Enumerate | iii_v_calculator.py:27-40 | exactly 26532801 rows, all well formed, the row at each visited tuple's index being that tuple's six fractions and a |

## Left out

- File I/O is not modelled. This covers argument parsing, `genfromtxt`,
  `line.split` and `float()` parsing, header lines, output-file naming and
  the `.format`/`%` row text. Lines are modelled as records; the
  composition calculator's film labels ("C", "C (45 deg)", "C (111)") are
  faces, and the " (45 deg)" substrate suffix is `subFace`.
- The module-level `tolerance` and `matches_file` globals become a
  parameter and a returned sequence. The older scripts' fixed 8% is
  `Table.ScriptTolerance`.
- `film_file.seek(0)` in LatticeChecker.py is not modelled. Each pass over
  the films is a pass over the same sequence.
- `numpy.sqrt` is the parameter `sqrt`, constrained by `Geometry.IsSqrt`.
- Floating point is not modelled. Lengths are exact reals, with no claims
  about rounding error, float32 storage or printing.
- Materialising the numpy array and `savez_compressed` are left out.
  `Alloys.Enumerate` builds the rows as a sequence.
- Division by zero is excluded by preconditions. The four scripts that read
  their tables with `numpy.genfromtxt` divide numpy floats: a zero divisor
  gives inf or nan with a runtime warning and the run continues (a nan
  mismatch fails every `< tolerance` test but passes the truthiness test of
  the cubic-on-hexagonal a-plane line). LatticeChecker.py reads its
  constants with `float()` and raises ZeroDivisionError. The model excludes
  zero divisors in every script, so none of these inf/nan outcomes is
  modelled. A negative constant is not a lattice constant and gives
  meaningless ratios, so it is excluded as well. Each script's `Ready`
  predicate requires, per symmetry pair, exactly the constants that pair's
  branch divides by to be positive. Constants a branch only multiplies, or
  never reads, are unconstrained: film c for a hexagonal film on a cubic
  substrate, both c for C on C, T on T and H on H, and every constant when
  a symmetry code the script dispatches on is unknown. The a constants are
  required positive rather than only non-zero.
- `Commensurate.RoundRatio` requires a positive ratio for the same reason.
  Negative ratios arise only from negative lattice constants.
- Python 2's string comparison of `genfromtxt` byte strings is taken to
  match the symmetry codes exactly (`Crystal.ParseSym`).
- The composition calculator's hexagonal window is √2 times the substrate's
  a window. It compares √2·a_sub with the alloy's a. LatticeChecker.py's
  cubic-on-hexagonal relation compares a_sub with √2·a_film. The model
  keeps the code's direction (`Composition.BasalIsDiagonalWindow`).
- `Composition.RefPicks` uses only the substrate's a. The c value that
  `tetragonal_sub` and `hexagonal_sub` receive is ignored there too.
