/** The arithmetic every matcher shares: the square root the host library
    supplies, the reference lengths built from it, the c/a closeness test,
    the signed fractional mismatch and the tolerance test applied to it.
    The functions carry only sign facts; what they compute is stated by the
    lemmas after them, so that proofs about the matchers do not drag products
    and quotients along. */
module Geometry {
  import opened Commensurate
  import opened Crystal

  // ---- real arithmetic -------------------------------------------------------

  function Sq(x: real): real
  {
    x * x
  }

  lemma SqNonNegative(x: real)
    ensures Sq(x) >= 0.0
  {
  }

  lemma SqPositive(x: real)
    requires x != 0.0
    ensures Sq(x) > 0.0
  {
    assert Sq(x) / x == x;
  }

  lemma ProductPositive(x: real, y: real)
    requires x > 0.0 && y > 0.0
    ensures x * y > 0.0
  {
  }

  lemma ProductNonNegative(x: real, y: real)
    requires x >= 0.0 && y > 0.0
    ensures x * y >= 0.0
  {
    if x > 0.0 {
      ProductPositive(x, y);
    }
  }

  /** Dividing and multiplying back by the same non-zero number. */
  lemma DivMul(x: real, y: real)
    requires y != 0.0
    ensures (x / y) * y == x
  {
  }

  lemma Cancel(p: real, q: real, y: real)
    requires y != 0.0 && p * y == q * y
    ensures p == q
  {
    assert (p - q) * y == 0.0;
  }

  /** Multiplying by a positive number keeps strict order, both ways. */
  lemma ScaleLess(p: real, q: real, s: real)
    requires s > 0.0
    ensures p < q <==> p * s < q * s
  {
    assert q * s - p * s == (q - p) * s;
    if p < q {
      ProductPositive(q - p, s);
    } else {
      ProductNonNegative(p - q, s);
    }
  }

  function Abs(x: real): (r: real)
    ensures r >= 0.0 && (r == x || r == -x)
  {
    if x < 0.0 then -x else x
  }

  // ---- square roots and reference lengths ------------------------------------

  /** `sqrt` behaves as the library square root on the non-negative reals. */
  ghost predicate IsSqrt(sqrt: real -> real)
  {
    forall x :: 0.0 <= x ==> 0.0 <= sqrt(x) && Sq(sqrt(x)) == x
  }

  /** The root of a positive number is positive. */
  lemma SqrtPositive(sqrt: real -> real, x: real)
    requires IsSqrt(sqrt)
    requires x > 0.0
    ensures sqrt(x) > 0.0 && Sq(sqrt(x)) == x
  {
    assert Sq(0.0) == 0.0;
  }

  /** √2, the face diagonal of a unit square. */
  function Root2(sqrt: real -> real): (r: real)
    requires IsSqrt(sqrt)
    ensures r > 0.0
  {
    SqrtPositive(sqrt, 2.0);
    sqrt(2.0)
  }

  lemma Root2Squared(sqrt: real -> real)
    requires IsSqrt(sqrt)
    ensures Sq(Root2(sqrt)) == 2.0
  {
    SqrtPositive(sqrt, 2.0);
  }

  /** √2·x, the face diagonal of a square of side x. */
  function Diagonal(sqrt: real -> real, x: real): (d: real)
    requires IsSqrt(sqrt)
    ensures x > 0.0 ==> d > 0.0
    ensures x != 0.0 ==> d != 0.0
  {
    var r := Root2(sqrt);
    if x > 0.0 then ProductPositive(r, x); r * x
    else if x < 0.0 then ProductPositive(r, -x); r * x
    else r * x
  }

  /** The diagonal of a square of side x is the length whose square is 2x². */
  lemma DiagonalSquared(sqrt: real -> real, x: real)
    requires IsSqrt(sqrt)
    ensures Sq(Diagonal(sqrt, x)) == 2.0 * Sq(x)
  {
    var r := Root2(sqrt);
    Root2Squared(sqrt);
    assert Sq(r * x) == Sq(r) * Sq(x);
  }

  /** c² + 3a², the square of the r-plane side length of a hexagonal cell;
      positive whenever a is not zero. */
  function RPlaneSquare(a: real, c: real): (q: real)
    ensures q >= 0.0
    ensures a != 0.0 ==> q > 0.0
  {
    SqNonNegative(c);
    if a != 0.0 then SqPositive(a); Sq(c) + 3.0 * Sq(a) else Sq(c) + 3.0 * Sq(a)
  }

  /** √(c² + 3a²), the r-plane side length of a hexagonal cell. */
  function RPlaneLength(sqrt: real -> real, a: real, c: real): (r: real)
    requires IsSqrt(sqrt)
    ensures r >= 0.0
    ensures a != 0.0 ==> r > 0.0
  {
    if a != 0.0 then SqrtPositive(sqrt, RPlaneSquare(a, c)); sqrt(RPlaneSquare(a, c))
    else sqrt(RPlaneSquare(a, c))
  }

  lemma RPlaneLengthSquared(sqrt: real -> real, a: real, c: real)
    requires IsSqrt(sqrt)
    ensures Sq(RPlaneLength(sqrt, a, c)) == Sq(c) + 3.0 * Sq(a)
  {
  }

  // ---- the c/a test ----------------------------------------------------------

  /** ratio_check: how far c/a is from √2, as a non-negative fraction. */
  function RatioCheck(sqrt: real -> real, c: real, a: real): (off: real)
    requires IsSqrt(sqrt)
    requires a != 0.0
    ensures off >= 0.0
  {
    Abs(c / Diagonal(sqrt, a) - 1.0)
  }

  /** The c/a test reads zero exactly when c is √2·a. */
  lemma RatioCheckZero(sqrt: real -> real, c: real, a: real)
    requires IsSqrt(sqrt)
    requires a != 0.0
    ensures RatioCheck(sqrt, c, a) == 0.0 <==> c == Diagonal(sqrt, a)
  {
    var d := Diagonal(sqrt, a);
    DivMul(c, d);
    if c / d == 1.0 {
      assert c == 1.0 * d;
    }
  }

  // ---- mismatches ------------------------------------------------------------

  /** The signed fractional mismatch of a substrate length and a rounded
      multiple of a film length. */
  function Mismatch(subRef: real, filmRef: real, rounded: real): real
    requires subRef != 0.0
  {
    (subRef - rounded * filmRef) / subRef
  }

  /** The mismatch is the gap between the substrate length and the rounded
      multiple of the film length, as a fraction of the substrate length; it is
      zero exactly when they coincide and positive exactly when the substrate
      is longer. */
  lemma MismatchMeaning(subRef: real, filmRef: real, rounded: real)
    requires subRef > 0.0
    ensures Mismatch(subRef, filmRef, rounded) * subRef == subRef - rounded * filmRef
    ensures Mismatch(subRef, filmRef, rounded) == 0.0 <==> subRef == rounded * filmRef
    ensures Mismatch(subRef, filmRef, rounded) > 0.0 <==> subRef > rounded * filmRef
  {
    var m := Mismatch(subRef, filmRef, rounded);
    DivMul(subRef - rounded * filmRef, subRef);
    ScaleLess(0.0, m, subRef);
    if m == 0.0 {
      assert m * subRef == 0.0;
    }
  }

  /** Against a non-zero film length, different rounded ratios give
      different mismatches. */
  lemma MismatchInjective(subRef: real, filmRef: real, r1: real, r2: real)
    requires subRef > 0.0 && filmRef != 0.0
    ensures Mismatch(subRef, filmRef, r1) == Mismatch(subRef, filmRef, r2) <==> r1 == r2
  {
    MismatchMeaning(subRef, filmRef, r1);
    MismatchMeaning(subRef, filmRef, r2);
    if Mismatch(subRef, filmRef, r1) == Mismatch(subRef, filmRef, r2) {
      Cancel(r1, r2, filmRef);
    }
  }

  /** The mismatch as written where a denominator lost its parentheses:
      `(√2·a − r·f) / √2·a` evaluates as `((√2·a − r·f) / √2) · a`. */
  function SkewedMismatch(sqrt: real -> real, subA: real, rounded: real, filmRef: real): real
    requires IsSqrt(sqrt)
  {
    var s2 := Root2(sqrt);
    ((s2 * subA - rounded * filmRef) / s2) * subA
  }

  /** The skewed mismatch is the intended mismatch against √2·a scaled by a². */
  lemma SkewedIsScaled(sqrt: real -> real, subA: real, rounded: real, filmRef: real)
    requires IsSqrt(sqrt) && subA > 0.0
    ensures SkewedMismatch(sqrt, subA, rounded, filmRef)
         == Mismatch(Diagonal(sqrt, subA), filmRef, rounded) * subA * subA
  {
    var s2 := Root2(sqrt);
    var d := Diagonal(sqrt, subA);
    var gap := d - rounded * filmRef;
    var q := gap / d;
    var p := gap / s2;
    DivMul(gap, d);
    DivMul(gap, s2);
    assert (q * subA) * s2 == q * d;
    Cancel(q * subA, p, s2);
  }

  /** For positive x and y the quotient x/y is positive and multiplies back. */
  lemma Quotient(x: real, y: real)
    requires x > 0.0 && y > 0.0
    ensures x / y > 0.0 && (x / y) * y == x
  {
  }

  // ---- measured axes ---------------------------------------------------------

  /** One axis compared the usual way: the original ratio of the two
      reference lengths, its commensurate rounding and the mismatch. */
  function Measure(subRef: real, filmRef: real): Axis
    requires subRef > 0.0 && filmRef > 0.0
  {
    Quotient(subRef, filmRef);
    var original := subRef / filmRef;
    var rounded := RoundRatio(original);
    Axis(Mismatch(subRef, filmRef, rounded), rounded, original)
  }

  /** The original ratio times the film length is the substrate length; the
      rounded ratio is its supercell order; the mismatch compares the
      substrate length with that many film lengths. */
  lemma MeasureMeaning(subRef: real, filmRef: real)
    requires subRef > 0.0 && filmRef > 0.0
    ensures var x := Measure(subRef, filmRef);
            x.original * filmRef == subRef
            && x.rounded == RoundRatio(x.original) && IsCommensurate(x.rounded)
            && x.mismatch * subRef == subRef - x.rounded * filmRef
  {
    Quotient(subRef, filmRef);
    RoundRatioNearest(subRef / filmRef);
    MismatchMeaning(subRef, filmRef, RoundRatio(subRef / filmRef));
  }

  /** An axis whose ratio is taken against one film length while its
      mismatch is taken against another: the rounded ratio is that of
      subRef/ratioRef, but the mismatch compares it with filmRef. */
  function CrossMeasure(subRef: real, ratioRef: real, filmRef: real): Axis
    requires subRef > 0.0 && ratioRef > 0.0
  {
    Quotient(subRef, ratioRef);
    var original := subRef / ratioRef;
    var rounded := RoundRatio(original);
    Axis(Mismatch(subRef, filmRef, rounded), rounded, original)
  }

  lemma CrossMeasureMeaning(subRef: real, ratioRef: real, filmRef: real)
    requires subRef > 0.0 && ratioRef > 0.0
    ensures var x := CrossMeasure(subRef, ratioRef, filmRef);
            x.original * ratioRef == subRef
            && x.rounded == RoundRatio(x.original) && IsCommensurate(x.rounded)
            && x.mismatch * subRef == subRef - x.rounded * filmRef
  {
    Quotient(subRef, ratioRef);
    RoundRatioNearest(subRef / ratioRef);
    MismatchMeaning(subRef, filmRef, RoundRatio(subRef / ratioRef));
  }

  /** An axis of the substrate length √2·a whose mismatch is computed with
      the lost parentheses of SkewedMismatch: the ratio is √2·a/ratioRef and
      its rounding multiplies filmRef. */
  function SkewedMeasure(sqrt: real -> real, subA: real, ratioRef: real, filmRef: real): Axis
    requires IsSqrt(sqrt) && subA > 0.0 && ratioRef > 0.0
  {
    var d := Diagonal(sqrt, subA);
    Quotient(d, ratioRef);
    var original := d / ratioRef;
    var rounded := RoundRatio(original);
    Axis(SkewedMismatch(sqrt, subA, rounded, filmRef), rounded, original)
  }

  lemma SkewedMeasureMeaning(sqrt: real -> real, subA: real, ratioRef: real, filmRef: real)
    requires IsSqrt(sqrt) && subA > 0.0 && ratioRef > 0.0
    ensures var x := SkewedMeasure(sqrt, subA, ratioRef, filmRef);
            x.original * ratioRef == Diagonal(sqrt, subA)
            && x.rounded == RoundRatio(x.original) && IsCommensurate(x.rounded)
            && x.mismatch == Mismatch(Diagonal(sqrt, subA), filmRef, x.rounded) * subA * subA
  {
    var d := Diagonal(sqrt, subA);
    Quotient(d, ratioRef);
    RoundRatioNearest(d / ratioRef);
    SkewedIsScaled(sqrt, subA, RoundRatio(d / ratioRef), filmRef);
  }

  /** A substrate length that is exactly n film lengths is measured as the
      ratio n with no mismatch. */
  lemma ExactMultiple(subRef: real, filmRef: real, n: int)
    requires filmRef > 0.0 && n >= 1
    requires subRef == n as real * filmRef
    ensures subRef > 0.0
    ensures Measure(subRef, filmRef).original == n as real
    ensures Measure(subRef, filmRef).rounded == n as real
    ensures Measure(subRef, filmRef).mismatch == 0.0
  {
    var k := n as real;
    ProductPositive(k, filmRef);
    DivMul(subRef, filmRef);
    Cancel(subRef / filmRef, k, filmRef);
    FixesCommensurate(n);
    assert subRef - k * filmRef == 0.0;
  }

  // ---- tolerance windows -----------------------------------------------------

  /** The tolerance test on an axis. */
  predicate Accepts(x: Axis, tol: real)
  {
    Abs(x.mismatch) < tol
  }

  /** upper_value: the top of the tolerance window around x. */
  function UpperValue(x: real, tol: real): real
  {
    (1.0 + tol) * x
  }

  /** lower_value: the bottom of the tolerance window around x. */
  function LowerValue(x: real, tol: real): real
  {
    (1.0 - tol) * x
  }

  /** The maximum and minimum accepted value of one length. */
  datatype Bounds = Bounds(max: real, min: real)

  /** upper_value and lower_value of one length. */
  function Around(x: real, tol: real): Bounds
  {
    Bounds(UpperValue(x, tol), LowerValue(x, tol))
  }

  /** y lies strictly between the two bounds. */
  predicate Inside(y: real, b: Bounds)
  {
    b.min < y < b.max
  }

  /** x lies strictly inside the tolerance window (1 ± tol)·ref. */
  predicate InWindow(x: real, ref: real, tol: real)
  {
    Inside(x, Around(ref, tol))
  }

  /** A mismatch m with m·d = d − x is below tol in magnitude exactly when x
      lies in the window around d. */
  lemma ScaledWindow(m: real, d: real, x: real, tol: real)
    requires d > 0.0 && m * d == d - x
    ensures Abs(m) < tol <==> InWindow(x, d, tol)
  {
    ScaleLess(m, tol, d);
    ScaleLess(-tol, m, d);
    assert UpperValue(d, tol) == d + tol * d;
    assert LowerValue(d, tol) == d - tol * d;
    assert (-tol) * d == -(tol * d);
  }

  /** |(s − x)/s| < tol holds exactly when x lies in the window around s. */
  lemma MismatchWindow(subRef: real, x: real, tol: real)
    requires subRef > 0.0
    ensures Abs((subRef - x) / subRef) < tol <==> InWindow(x, subRef, tol)
  {
    DivMul(subRef - x, subRef);
    ScaledWindow((subRef - x) / subRef, subRef, x, tol);
  }

  /** A mismatch is below tol in magnitude exactly when the rounded multiple
      of the film length falls strictly inside the tolerance window of the
      substrate length. */
  lemma MismatchIsWindow(subRef: real, filmRef: real, rounded: real, tol: real)
    requires subRef > 0.0
    ensures Abs(Mismatch(subRef, filmRef, rounded)) < tol <==> InWindow(rounded * filmRef, subRef, tol)
  {
    MismatchMeaning(subRef, filmRef, rounded);
    ScaledWindow(Mismatch(subRef, filmRef, rounded), subRef, rounded * filmRef, tol);
  }

  /** For a > 0 the c/a test passes exactly when c lies in the tolerance
      window around √2·a. */
  lemma RatioCheckIsWindow(sqrt: real -> real, c: real, a: real, tol: real)
    requires IsSqrt(sqrt)
    requires a > 0.0
    ensures RatioCheck(sqrt, c, a) < tol <==> InWindow(c, Diagonal(sqrt, a), tol)
  {
    var d := Diagonal(sqrt, a);
    var u := c / d;
    DivMul(c, d);
    assert (1.0 - u) * d == d - u * d;
    assert Abs(u - 1.0) == Abs(1.0 - u);
    ScaledWindow(1.0 - u, d, c, tol);
  }

  /** A window of less than a third lies between two thirds and four thirds
      of its centre. */
  lemma WindowThirds(x: real, tol: real)
    requires x > 0.0 && 3.0 * tol < 1.0
    ensures 2.0 * x < 3.0 * LowerValue(x, tol) && 3.0 * UpperValue(x, tol) < 4.0 * x
  {
    ProductPositive(1.0 - 3.0 * tol, x);
  }

  /** Inside a window of less than a third, each length is less than one and
      a half times the other. */
  lemma NarrowWindow(x: real, y: real, tol: real)
    requires x > 0.0 && y > 0.0 && 3.0 * tol < 1.0
    requires InWindow(y, x, tol)
    ensures x < 1.5 * y && y < 1.5 * x
  {
    WindowThirds(x, tol);
  }

  /** A length inside a window of less than a third around x is near enough
      to x that the ratio x/y rounds to one. */
  lemma UnitRatio(x: real, y: real, tol: real)
    requires x > 0.0 && y > 0.0 && 3.0 * tol < 1.0
    requires InWindow(y, x, tol)
    ensures RoundRatio(x / y) == 1.0
  {
    NarrowWindow(x, y, tol);
    var r := x / y;
    DivMul(x, y);
    assert r * y == x;
    if r >= 1.0 {
      ScaleLess(r, 1.5, y);
      assert r < 1.5;
      RoundOne(r);
    } else {
      var inv := 1.0 / r;
      assert inv * r == 1.0;
      assert inv * x == y by {
        assert inv * x == inv * (r * y);
        assert inv * (r * y) == (inv * r) * y;
      }
      ScaleLess(inv, 1.5, x);
      RoundOne(inv);
    }
  }

  /** For tolerances below a third, y lies in the window around x exactly
      when comparing x with y accepts at a rounded ratio of one. */
  lemma UnitWindow(x: real, y: real, tol: real)
    requires x > 0.0 && y > 0.0 && 3.0 * tol < 1.0
    ensures InWindow(y, x, tol) <==> Accepts(Measure(x, y), tol) && Measure(x, y).rounded == 1.0
  {
    var m := Measure(x, y);
    assert m.rounded == RoundRatio(x / y);
    assert m.mismatch == Mismatch(x, y, m.rounded);
    MismatchIsWindow(x, y, 1.0, tol);
    assert 1.0 * y == y;
    if InWindow(y, x, tol) {
      UnitRatio(x, y, tol);
    }
  }
}
