/** The reference table of the III-V calculator (iii_v_calculator.py): every
    quaternary alloy (Al,Ga,In)(P,As,Sb) in whole percentages, with its
    lattice constant the composition-weighted average of the nine binary
    compounds' constants. */
module Alloys {

  // ---- the nine binary compounds --------------------------------------------

  const AlP: real := 5.4510
  const GaP: real := 5.4505
  const InP: real := 5.8686
  const AlAs: real := 5.6605
  const GaAs: real := 5.6533
  const InAs: real := 6.0584
  const AlSb: real := 6.1355
  const GaSb: real := 6.0950
  const InSb: real := 6.4794

  /** The smallest and largest of the nine constants (GaP and InSb). */
  const Lowest: real := GaP
  const Highest: real := InSb

  /** The number of rows preallocated for the table. */
  const TableSize: nat := 26532801

  /** Number of pairs (p, q) of whole percentages with p + q <= 100. */
  const PairCount: nat := 5151

  // ---- compositions ------------------------------------------------------------

  /** The four loop variables: group-V percentages of P and As and group-III
      percentages of Al and Ga; Sb and In make up the rest. */
  datatype Percent = Percent(yP: int, yAs: int, xAl: int, xGa: int)

  function YSb(t: Percent): int
  {
    100 - t.yP - t.yAs
  }

  function XIn(t: Percent): int
  {
    100 - t.xAl - t.xGa
  }

  /** The tuples the four loops visit. */
  predicate Visited(t: Percent)
  {
    0 <= t.yP <= 100 && 0 <= t.yAs <= 100 - t.yP && 0 <= t.xAl <= 100 && 0 <= t.xGa <= 100 - t.xAl
  }

  /** A visited tuple describes an alloy: all six percentages are whole and
      non-negative and each group sums to 100. */
  lemma VisitedIsAlloy(t: Percent)
    requires Visited(t)
    ensures YSb(t) >= 0 && XIn(t) >= 0
    ensures t.yP + t.yAs + YSb(t) == 100 && t.xAl + t.xGa + XIn(t) == 100
  {
  }

  /** w1·v1 + w2·v2 + w3·v3: three values weighted by percentages. */
  function Blend(w1: real, w2: real, w3: real, v1: real, v2: real, v3: real): real
  {
    w1 * v1 + w2 * v2 + w3 * v3
  }

  /** The group-III blend of the three compounds of one group-V element. */
  function GroupSum(t: Percent, aAl: real, aGa: real, aIn: real): real
  {
    Blend(t.xAl as real, t.xGa as real, XIn(t) as real, aAl, aGa, aIn)
  }

  /** The lattice constant of a composition: each binary's constant weighted
      by the product of its two percentages, over 100². */
  function LatticeConstant(t: Percent): real
  {
    Blend(t.yP as real, t.yAs as real, YSb(t) as real,
          GroupSum(t, AlP, GaP, InP), GroupSum(t, AlAs, GaAs, InAs), GroupSum(t, AlSb, GaSb, InSb)) / 10000.0
  }

  /** One table row: the six fractions Al, Ga, In, P, As, Sb, then a. */
  datatype Reference = Reference(xAl: real, xGa: real, xIn: real, yP: real, yAs: real, ySb: real, a: real)

  function RowOf(t: Percent): Reference
  {
    Reference(t.xAl as real / 100.0, t.xGa as real / 100.0, XIn(t) as real / 100.0,
              t.yP as real / 100.0, t.yAs as real / 100.0, YSb(t) as real / 100.0,
              LatticeConstant(t))
  }

  /** What every row of the table satisfies: the fractions of each group are
      non-negative and sum to one, and a lies between the smallest and the
      largest binary constant. */
  predicate WellFormed(r: Reference)
  {
    r.xAl >= 0.0 && r.xGa >= 0.0 && r.xIn >= 0.0 && r.xAl + r.xGa + r.xIn == 1.0
    && r.yP >= 0.0 && r.yAs >= 0.0 && r.ySb >= 0.0 && r.yP + r.yAs + r.ySb == 1.0
    && Lowest <= r.a <= Highest
  }

  // ---- the lattice constant is a convex combination -----------------------------

  /** Weights summing to 100 scale a common value by 100. */
  lemma WeightedSum(a: real, b: real, c: real, k: real)
    requires a + b + c == 100.0
    ensures a * k + b * k + c * k == 100.0 * k
  {
    assert a * k + b * k + c * k == (a + b + c) * k;
  }

  /** Scaling by a non-negative weight keeps order. */
  lemma ScaleDown(w: real, lo: real, v: real)
    requires w >= 0.0 && lo <= v
    ensures w * lo <= w * v
  {
    assert w * v - w * lo == w * (v - lo);
  }

  lemma ScaleUp(w: real, v: real, hi: real)
    requires w >= 0.0 && v <= hi
    ensures w * v <= w * hi
  {
    assert w * hi - w * v == w * (hi - v);
  }

  lemma AddLess(a1: real, a2: real, a3: real, b1: real, b2: real, b3: real)
    requires a1 <= b1 && a2 <= b2 && a3 <= b3
    ensures a1 + a2 + a3 <= b1 + b2 + b3
  {
  }

  lemma BlendLow(w1: real, w2: real, w3: real, v1: real, v2: real, v3: real, lo: real)
    requires w1 >= 0.0 && w2 >= 0.0 && w3 >= 0.0 && w1 + w2 + w3 == 100.0
    requires lo <= v1 && lo <= v2 && lo <= v3
    ensures 100.0 * lo <= Blend(w1, w2, w3, v1, v2, v3)
  {
    ScaleDown(w1, lo, v1);
    ScaleDown(w2, lo, v2);
    ScaleDown(w3, lo, v3);
    WeightedSum(w1, w2, w3, lo);
    AddLess(w1 * lo, w2 * lo, w3 * lo, w1 * v1, w2 * v2, w3 * v3);
  }

  lemma BlendHigh(w1: real, w2: real, w3: real, v1: real, v2: real, v3: real, hi: real)
    requires w1 >= 0.0 && w2 >= 0.0 && w3 >= 0.0 && w1 + w2 + w3 == 100.0
    requires v1 <= hi && v2 <= hi && v3 <= hi
    ensures Blend(w1, w2, w3, v1, v2, v3) <= 100.0 * hi
  {
    ScaleUp(w1, v1, hi);
    ScaleUp(w2, v2, hi);
    ScaleUp(w3, v3, hi);
    WeightedSum(w1, w2, w3, hi);
    AddLess(w1 * v1, w2 * v2, w3 * v3, w1 * hi, w2 * hi, w3 * hi);
  }

  /** A blend with non-negative weights summing to 100 lies between 100
      times any lower and 100 times any upper bound of its values. */
  lemma BlendBounds(w1: real, w2: real, w3: real, v1: real, v2: real, v3: real, lo: real, hi: real)
    requires w1 >= 0.0 && w2 >= 0.0 && w3 >= 0.0 && w1 + w2 + w3 == 100.0
    requires lo <= v1 <= hi && lo <= v2 <= hi && lo <= v3 <= hi
    ensures 100.0 * lo <= Blend(w1, w2, w3, v1, v2, v3) <= 100.0 * hi
  {
    BlendLow(w1, w2, w3, v1, v2, v3, lo);
    BlendHigh(w1, w2, w3, v1, v2, v3, hi);
  }

  /** Every visited composition's constant lies between GaP's and InSb's. */
  lemma LatticeConstantBounds(t: Percent)
    requires Visited(t)
    ensures Lowest <= LatticeConstant(t) <= Highest
  {
    var wAl, wGa, wIn := t.xAl as real, t.xGa as real, XIn(t) as real;
    BlendBounds(wAl, wGa, wIn, AlP, GaP, InP, Lowest, Highest);
    BlendBounds(wAl, wGa, wIn, AlAs, GaAs, InAs, Lowest, Highest);
    BlendBounds(wAl, wGa, wIn, AlSb, GaSb, InSb, Lowest, Highest);
    var sP, sAs, sSb := GroupSum(t, AlP, GaP, InP), GroupSum(t, AlAs, GaAs, InAs), GroupSum(t, AlSb, GaSb, InSb);
    BlendBounds(t.yP as real, t.yAs as real, YSb(t) as real, sP, sAs, sSb, 100.0 * Lowest, 100.0 * Highest);
  }

  /** A blend of a single value weighs it by 100. */
  lemma PureBlend(v1: real, v2: real, v3: real)
    ensures Blend(100.0, 0.0, 0.0, v1, v2, v3) == 100.0 * v1
    ensures Blend(0.0, 100.0, 0.0, v1, v2, v3) == 100.0 * v2
    ensures Blend(0.0, 0.0, 100.0, v1, v2, v3) == 100.0 * v3
  {
  }

  /** The group-III blend with one group-III element at 100% is 100 times
      that element's compound. */
  function Pick3(t: Percent, v1: real, v2: real, v3: real): real
  {
    if t.xAl == 100 then v1 else if t.xGa == 100 then v2 else v3
  }

  /** The nine corners of the composition square: one element of each group
      at 100%. */
  predicate Corner(t: Percent)
  {
    Visited(t) && (t.yP == 100 || t.yAs == 100 || YSb(t) == 100)
    && (t.xAl == 100 || t.xGa == 100 || XIn(t) == 100)
  }

  /** The binary compound a corner describes. */
  function Binary(t: Percent): real
  {
    if t.yP == 100 then Pick3(t, AlP, GaP, InP)
    else if t.yAs == 100 then Pick3(t, AlAs, GaAs, InAs)
    else Pick3(t, AlSb, GaSb, InSb)
  }

  lemma GroupCorner(t: Percent, v1: real, v2: real, v3: real)
    requires Corner(t)
    ensures GroupSum(t, v1, v2, v3) == 100.0 * Pick3(t, v1, v2, v3)
  {
    PureBlend(v1, v2, v3);
    if t.xAl == 100 {
      assert t.xAl as real == 100.0 && t.xGa as real == 0.0 && XIn(t) as real == 0.0;
      assert GroupSum(t, v1, v2, v3) == Blend(100.0, 0.0, 0.0, v1, v2, v3);
    } else if t.xGa == 100 {
      assert t.xAl as real == 0.0 && t.xGa as real == 100.0 && XIn(t) as real == 0.0;
      assert GroupSum(t, v1, v2, v3) == Blend(0.0, 100.0, 0.0, v1, v2, v3);
    } else {
      assert t.xAl as real == 0.0 && t.xGa as real == 0.0 && XIn(t) as real == 100.0;
      assert GroupSum(t, v1, v2, v3) == Blend(0.0, 0.0, 100.0, v1, v2, v3);
    }
  }

  /** At each of the nine corners the alloy is a binary compound and has
      exactly that compound's constant. */
  lemma BinaryCorners(t: Percent)
    requires Corner(t)
    ensures LatticeConstant(t) == Binary(t)
  {
    var sP, sAs, sSb := GroupSum(t, AlP, GaP, InP), GroupSum(t, AlAs, GaAs, InAs), GroupSum(t, AlSb, GaSb, InSb);
    var total := Blend(t.yP as real, t.yAs as real, YSb(t) as real, sP, sAs, sSb);
    assert LatticeConstant(t) == total / 10000.0;
    PureBlend(sP, sAs, sSb);
    if t.yP == 100 {
      assert t.yP as real == 100.0 && t.yAs as real == 0.0 && YSb(t) as real == 0.0;
      assert total == Blend(100.0, 0.0, 0.0, sP, sAs, sSb) == 100.0 * sP;
      GroupCorner(t, AlP, GaP, InP);
    } else if t.yAs == 100 {
      assert t.yP as real == 0.0 && t.yAs as real == 100.0 && YSb(t) as real == 0.0;
      assert total == Blend(0.0, 100.0, 0.0, sP, sAs, sSb) == 100.0 * sAs;
      GroupCorner(t, AlAs, GaAs, InAs);
    } else {
      assert t.yP as real == 0.0 && t.yAs as real == 0.0 && YSb(t) as real == 100.0;
      assert total == Blend(0.0, 0.0, 100.0, sP, sAs, sSb) == 100.0 * sSb;
      GroupCorner(t, AlSb, GaSb, InSb);
    }
  }

  /** Every row the table stores satisfies WellFormed. */
  lemma RowWellFormed(t: Percent)
    requires Visited(t)
    ensures WellFormed(RowOf(t))
  {
    LatticeConstantBounds(t);
  }

  // ---- table layout --------------------------------------------------------------

  /** The number of pairs (p, q) with p < n and p + q <= 100. */
  function PairsBefore(n: nat): nat
    requires n <= 101
  {
    if n == 0 then 0 else PairsBefore(n - 1) + (102 - n)
  }

  /** The closed form n(203 − n)/2; in particular all 5151 pairs come
      before 101. */
  lemma {:induction false} PairsBeforeClosed(n: nat)
    requires n <= 101
    ensures 2 * PairsBefore(n) == n * (203 - n)
  {
    if n > 0 {
      PairsBeforeClosed(n - 1);
      assert (n - 1) * (203 - (n - 1)) + 2 * (102 - n) == n * (203 - n);
    }
  }

  lemma AllPairs()
    ensures PairsBefore(101) == PairCount
    ensures PairCount * PairCount == TableSize
  {
    PairsBeforeClosed(101);
  }

  /** More leading values, more pairs before. */
  lemma {:induction false} PairsBeforeMonotone(m: nat, n: nat)
    requires m <= n <= 101
    ensures PairsBefore(m) <= PairsBefore(n)
    decreases n - m
  {
    if m < n {
      PairsBeforeMonotone(m, n - 1);
    }
  }

  /** The position of (p, q) in the lexicographic order of the pairs. */
  function PairIndex(p: nat, q: int): int
    requires p <= 101
  {
    PairsBefore(p) + q
  }

  /** The row a tuple is written to: group-V pair major, group-III pair
      minor. */
  function Index(t: Percent): int
    requires 0 <= t.yP <= 101 && 0 <= t.xAl <= 101
  {
    PairIndex(t.yP, t.yAs) * PairCount + PairIndex(t.xAl, t.xGa)
  }

  /** Strict lexicographic order on (yP, yAs, xAl, xGa). */
  predicate Before(t: Percent, u: Percent)
  {
    t.yP < u.yP
    || (t.yP == u.yP && (t.yAs < u.yAs
    || (t.yAs == u.yAs && (t.xAl < u.xAl
    || (t.xAl == u.xAl && t.xGa < u.xGa)))))
  }

  /** The tuples the loops pass through, including the ones where an inner
      loop has just finished. */
  predicate Reached(u: Percent)
  {
    0 <= u.yP <= 101 && 0 <= u.yAs <= 101 - u.yP && 0 <= u.xAl <= 101 && 0 <= u.xGa <= 101 - u.xAl
  }

  /** A visited pair sits before every pair with a larger leading value. */
  lemma PairIndexOrder(p1: nat, q1: int, p2: nat, q2: int)
    requires p1 <= 100 && 0 <= q1 <= 100 - p1
    requires p2 <= 101 && 0 <= q2 <= 101 - p2
    requires p1 < p2 || (p1 == p2 && q1 < q2)
    ensures 0 <= PairIndex(p1, q1) < PairIndex(p2, q2)
  {
    if p1 < p2 {
      PairsBeforeMonotone(p1 + 1, p2);
    }
  }

  /** Lexicographic order is row order: the loops write rows in the order of
      (yP, yAs, xAl, xGa). */
  lemma IndexOrder(t: Percent, u: Percent)
    requires Visited(t) && Reached(u) && Before(t, u)
    ensures 0 <= Index(t) < Index(u)
  {
    PairIndexOrder(t.xAl, t.xGa, 101, 0);
    AllPairs();
    if t.yP == u.yP && t.yAs == u.yAs {
      PairIndexOrder(t.xAl, t.xGa, u.xAl, u.xGa);
    } else {
      PairIndexOrder(t.yP, t.yAs, u.yP, u.yAs);
      assert 0 <= PairIndex(u.xAl, u.xGa);
    }
  }

  /** Distinct visited tuples go to distinct rows, all inside the table. */
  lemma IndexInjective(t: Percent, u: Percent)
    requires Visited(t) && Visited(u) && t != u
    ensures Index(t) != Index(u)
  {
    if Before(t, u) {
      IndexOrder(t, u);
    } else {
      IndexOrder(u, t);
    }
  }

  lemma IndexInTable(t: Percent)
    requires Visited(t)
    ensures 0 <= Index(t) < TableSize
  {
    IndexOrder(t, Percent(101, 0, 0, 0));
    AllPairs();
  }

  // ---- the enumeration ---------------------------------------------------------

  /** The rows written so far are those of every visited tuple before cur,
      each at its own index, and all of them well formed. */
  ghost predicate Filled(rows: seq<Reference>, cur: Percent)
  {
    (forall k :: 0 <= k < |rows| ==> WellFormed(rows[k]))
    && (forall t :: Visited(t) && Before(t, cur) ==> 0 <= Index(t) < |rows| && rows[Index(t)] == RowOf(t))
  }

  /** Writing the row of the current tuple moves on to the next group-III
      percentage. */
  lemma FillStep(rows: seq<Reference>, cur: Percent)
    requires Visited(cur) && |rows| == Index(cur) && Filled(rows, cur)
    ensures var next := cur.(xGa := cur.xGa + 1);
            |rows + [RowOf(cur)]| == Index(next) && Filled(rows + [RowOf(cur)], next)
  {
    var rows' := rows + [RowOf(cur)];
    var next := cur.(xGa := cur.xGa + 1);
    RowWellFormed(cur);
    forall t | Visited(t) && Before(t, next)
      ensures 0 <= Index(t) < |rows'| && rows'[Index(t)] == RowOf(t)
    {
      if t != cur {
        assert Before(t, cur);
      }
    }
  }

  /** The group-III pairs of one leading value run out where the next
      leading value starts. */
  lemma PairCarry(p: nat)
    requires p <= 100
    ensures PairIndex(p, 101 - p) == PairIndex(p + 1, 0)
  {
  }

  /** Finishing the Ga loop moves on to the next Al percentage. */
  lemma FillCarryGa(rows: seq<Reference>, cur: Percent)
    requires Reached(cur) && cur.xAl <= 100 && cur.xGa == 101 - cur.xAl
    requires |rows| == Index(cur) && Filled(rows, cur)
    ensures var next := cur.(xAl := cur.xAl + 1, xGa := 0);
            |rows| == Index(next) && Filled(rows, next)
  {
    PairCarry(cur.xAl);
    var next := cur.(xAl := cur.xAl + 1, xGa := 0);
    forall t | Visited(t) && Before(t, next)
      ensures Before(t, cur)
    {
    }
  }

  /** Finishing the Al loop moves on to the next As percentage. */
  lemma FillCarryAl(rows: seq<Reference>, cur: Percent)
    requires Reached(cur) && cur.yP <= 100 && cur.yAs <= 100 - cur.yP && cur.xAl == 101 && cur.xGa == 0
    requires |rows| == Index(cur) && Filled(rows, cur)
    ensures var next := Percent(cur.yP, cur.yAs + 1, 0, 0);
            |rows| == Index(next) && Filled(rows, next)
  {
    AllPairs();
    var next := Percent(cur.yP, cur.yAs + 1, 0, 0);
    forall t | Visited(t) && Before(t, next)
      ensures Before(t, cur)
    {
    }
  }

  /** Finishing the As loop moves on to the next P percentage. */
  lemma FillCarryAs(rows: seq<Reference>, cur: Percent)
    requires 0 <= cur.yP <= 100 && cur.yAs == 101 - cur.yP && cur.xAl == 0 && cur.xGa == 0
    requires |rows| == Index(cur) && Filled(rows, cur)
    ensures var next := Percent(cur.yP + 1, 0, 0, 0);
            |rows| == Index(next) && Filled(rows, next)
  {
    PairCarry(cur.yP);
    var next := Percent(cur.yP + 1, 0, 0, 0);
    forall t | Visited(t) && Before(t, next)
      ensures Before(t, cur)
    {
    }
  }

  /** The innermost loop, over the Ga percentage: writes the row of every
      tuple with these yP, yAs and xAl. */
  method FillGa(rows0: seq<Reference>, yP: int, yAs: int, xAl: int) returns (rows: seq<Reference>)
    requires 0 <= yP <= 100 && 0 <= yAs <= 100 - yP && 0 <= xAl <= 100
    requires |rows0| == Index(Percent(yP, yAs, xAl, 0)) && Filled(rows0, Percent(yP, yAs, xAl, 0))
    ensures |rows| == Index(Percent(yP, yAs, xAl + 1, 0)) && Filled(rows, Percent(yP, yAs, xAl + 1, 0))
  {
    rows := rows0;
    var xGa := 0;
    while xGa < 101 - xAl
      invariant 0 <= xGa <= 101 - xAl
      invariant |rows| == Index(Percent(yP, yAs, xAl, xGa)) && Filled(rows, Percent(yP, yAs, xAl, xGa))
    {
      FillStep(rows, Percent(yP, yAs, xAl, xGa));
      rows := rows + [RowOf(Percent(yP, yAs, xAl, xGa))];
      xGa := xGa + 1;
    }
    FillCarryGa(rows, Percent(yP, yAs, xAl, xGa));
  }

  /** The loop over the Al percentage: writes the row of every tuple with
      these yP and yAs. */
  method FillAl(rows0: seq<Reference>, yP: int, yAs: int) returns (rows: seq<Reference>)
    requires 0 <= yP <= 100 && 0 <= yAs <= 100 - yP
    requires |rows0| == Index(Percent(yP, yAs, 0, 0)) && Filled(rows0, Percent(yP, yAs, 0, 0))
    ensures |rows| == Index(Percent(yP, yAs + 1, 0, 0)) && Filled(rows, Percent(yP, yAs + 1, 0, 0))
  {
    rows := rows0;
    var xAl := 0;
    while xAl < 101
      invariant 0 <= xAl <= 101
      invariant |rows| == Index(Percent(yP, yAs, xAl, 0)) && Filled(rows, Percent(yP, yAs, xAl, 0))
    {
      rows := FillGa(rows, yP, yAs, xAl);
      xAl := xAl + 1;
    }
    FillCarryAl(rows, Percent(yP, yAs, xAl, 0));
  }

  /** The loop over the As percentage: writes the row of every tuple with
      this yP. */
  method FillAs(rows0: seq<Reference>, yP: int) returns (rows: seq<Reference>)
    requires 0 <= yP <= 100
    requires |rows0| == Index(Percent(yP, 0, 0, 0)) && Filled(rows0, Percent(yP, 0, 0, 0))
    ensures |rows| == Index(Percent(yP + 1, 0, 0, 0)) && Filled(rows, Percent(yP + 1, 0, 0, 0))
  {
    rows := rows0;
    var yAs := 0;
    while yAs < 101 - yP
      invariant 0 <= yAs <= 101 - yP
      invariant |rows| == Index(Percent(yP, yAs, 0, 0)) && Filled(rows, Percent(yP, yAs, 0, 0))
    {
      rows := FillAl(rows, yP, yAs);
      yAs := yAs + 1;
    }
    FillCarryAs(rows, Percent(yP, yAs, 0, 0));
  }

  /** The four loops: exactly TableSize rows, the row of every visited tuple
      at its index, so the preallocated array is filled exactly, and every
      row well formed. */
  method Enumerate() returns (rows: seq<Reference>)
    ensures |rows| == TableSize
    ensures forall k :: 0 <= k < |rows| ==> WellFormed(rows[k])
    ensures forall t :: Visited(t) ==> 0 <= Index(t) < |rows| && rows[Index(t)] == RowOf(t)
  {
    rows := [];
    var yP := 0;
    while yP < 101
      invariant 0 <= yP <= 101
      invariant |rows| == Index(Percent(yP, 0, 0, 0)) && Filled(rows, Percent(yP, 0, 0, 0))
    {
      rows := FillAs(rows, yP);
      yP := yP + 1;
    }
    AllPairs();
    forall t | Visited(t)
      ensures Before(t, Percent(101, 0, 0, 0))
    {
    }
  }
}
