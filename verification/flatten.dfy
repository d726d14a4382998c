/** Concatenation of a sequence of sequences, the shape of every sweep the
    scripts make: one block of lines per row, the blocks in row order. */
module Flatten {
  import opened Subsequence

  function Concat<T>(xss: seq<seq<T>>): seq<T>
    decreases |xss|
  {
    if xss == [] then [] else xss[0] + Concat(xss[1..])
  }

  /** Concatenating two runs of blocks concatenates their outputs. */
  lemma {:induction false} ConcatAppend<T>(a: seq<seq<T>>, b: seq<seq<T>>)
    ensures Concat(a + b) == Concat(a) + Concat(b)
    decreases |a|
  {
    if a == [] {
      assert a + b == b;
    } else {
      assert (a + b)[1..] == a[1..] + b;
      ConcatAppend(a[1..], b);
    }
  }

  /** An element is in the output exactly when some block holds it. */
  lemma {:induction false} ConcatMembers<T>(xss: seq<seq<T>>, x: T)
    ensures x in Concat(xss) <==> exists i :: 0 <= i < |xss| && x in xss[i]
    decreases |xss|
  {
    if xss != [] {
      ConcatMembers(xss[1..], x);
      if exists i :: 0 <= i < |xss| && x in xss[i] {
        var i :| 0 <= i < |xss| && x in xss[i];
        if i > 0 {
          assert xss[1..][i - 1] == xss[i];
        }
      }
      if x in Concat(xss[1..]) {
        var i :| 0 <= i < |xss[1..]| && x in xss[1..][i];
        assert xss[1..][i] == xss[i + 1];
      }
    }
  }

  /** Blocks of at most k elements give at most k elements per block. */
  lemma {:induction false} ConcatLength<T>(xss: seq<seq<T>>, k: nat)
    requires forall i :: 0 <= i < |xss| ==> |xss[i]| <= k
    ensures |Concat(xss)| <= k * |xss|
    decreases |xss|
  {
    if xss != [] {
      assert forall i :: 0 <= i < |xss[1..]| ==> xss[1..][i] == xss[i + 1];
      ConcatLength(xss[1..], k);
      assert k * |xss| == k * |xss[1..]| + k by {
        assert |xss| == |xss[1..]| + 1;
      }
    }
  }

  /** Dropping elements block by block drops elements of the output. */
  lemma {:induction false} ConcatSubseq<T>(xss: seq<seq<T>>, yss: seq<seq<T>>)
    requires |xss| == |yss|
    requires forall i :: 0 <= i < |xss| ==> IsSubseq(xss[i], yss[i])
    ensures IsSubseq(Concat(xss), Concat(yss))
    decreases |xss|
  {
    if xss == [] {
      EmptyIsSubseq(Concat(yss));
    } else {
      assert forall i :: 0 <= i < |xss[1..]| ==> xss[1..][i] == xss[i + 1] && yss[1..][i] == yss[i + 1];
      ConcatSubseq(xss[1..], yss[1..]);
      assert IsSubseq(xss[0], yss[0]);
      SubseqConcat(xss[0], yss[0], Concat(xss[1..]), Concat(yss[1..]));
    }
  }

  /** The blocks of y paired with each element of `xs`, in order. */
  function Blocks<A, B, T>(pair: (A, B) -> seq<T>, xs: seq<A>, y: B): (ls: seq<seq<T>>)
    ensures |ls| == |xs|
    ensures forall i :: 0 <= i < |xs| ==> ls[i] == pair(xs[i], y)
  {
    seq(|xs|, i requires 0 <= i < |xs| => pair(xs[i], y))
  }

  /** The output of y paired with every element of `xs`, in order. */
  function Across<A, B, T>(pair: (A, B) -> seq<T>, xs: seq<A>, y: B): seq<T>
  {
    Concat(Blocks(pair, xs, y))
  }

  /** One pass per element of `ys`, in order. */
  function PassBlocks<A, B, T>(pair: (A, B) -> seq<T>, xs: seq<A>, ys: seq<B>): (ls: seq<seq<T>>)
    ensures |ls| == |ys|
    ensures forall j :: 0 <= j < |ys| ==> ls[j] == Across(pair, xs, ys[j])
  {
    seq(|ys|, j requires 0 <= j < |ys| => Across(pair, xs, ys[j]))
  }

  /** The output of every pair, `ys`-major and `xs`-minor. */
  function Grid<A, B, T>(pair: (A, B) -> seq<T>, xs: seq<A>, ys: seq<B>): seq<T>
  {
    Concat(PassBlocks(pair, xs, ys))
  }

  /** Splitting the row splits a pass at the same place. */
  lemma AcrossAppend<A, B, T>(pair: (A, B) -> seq<T>, xs1: seq<A>, xs2: seq<A>, y: B)
    ensures Across(pair, xs1 + xs2, y) == Across(pair, xs1, y) + Across(pair, xs2, y)
  {
    var xs := xs1 + xs2;
    assert forall i :: 0 <= i < |xs| ==> xs[i] == (if i < |xs1| then xs1[i] else xs2[i - |xs1|]);
    assert Blocks(pair, xs, y) == Blocks(pair, xs1, y) + Blocks(pair, xs2, y);
    ConcatAppend(Blocks(pair, xs1, y), Blocks(pair, xs2, y));
  }

  /** Splitting the column splits the grid at the same place. */
  lemma GridAppend<A, B, T>(pair: (A, B) -> seq<T>, xs: seq<A>, ys1: seq<B>, ys2: seq<B>)
    ensures Grid(pair, xs, ys1 + ys2) == Grid(pair, xs, ys1) + Grid(pair, xs, ys2)
  {
    var ys := ys1 + ys2;
    assert forall j :: 0 <= j < |ys| ==> ys[j] == (if j < |ys1| then ys1[j] else ys2[j - |ys1|]);
    assert PassBlocks(pair, xs, ys) == PassBlocks(pair, xs, ys1) + PassBlocks(pair, xs, ys2);
    ConcatAppend(PassBlocks(pair, xs, ys1), PassBlocks(pair, xs, ys2));
  }

  lemma AcrossMembers<A, B, T>(pair: (A, B) -> seq<T>, xs: seq<A>, y: B, x: T)
    ensures x in Across(pair, xs, y) <==> exists i :: 0 <= i < |xs| && x in pair(xs[i], y)
  {
    ConcatMembers(Blocks(pair, xs, y), x);
  }

  /** An element is in the grid exactly when some pair's block holds it. */
  lemma GridMembers<A, B, T>(pair: (A, B) -> seq<T>, xs: seq<A>, ys: seq<B>, x: T)
    ensures x in Grid(pair, xs, ys)
        <==> exists i, j :: 0 <= i < |xs| && 0 <= j < |ys| && x in pair(xs[i], ys[j])
  {
    ConcatMembers(PassBlocks(pair, xs, ys), x);
    if x in Grid(pair, xs, ys) {
      var j :| 0 <= j < |ys| && x in Across(pair, xs, ys[j]);
      AcrossMembers(pair, xs, ys[j], x);
    }
    if exists i, j :: 0 <= i < |xs| && 0 <= j < |ys| && x in pair(xs[i], ys[j]) {
      var i, j :| 0 <= i < |xs| && 0 <= j < |ys| && x in pair(xs[i], ys[j]);
      AcrossMembers(pair, xs, ys[j], x);
    }
  }

  lemma AcrossLength<A, B, T>(pair: (A, B) -> seq<T>, xs: seq<A>, y: B, k: nat)
    requires forall i :: 0 <= i < |xs| ==> |pair(xs[i], y)| <= k
    ensures |Across(pair, xs, y)| <= k * |xs|
  {
    ConcatLength(Blocks(pair, xs, y), k);
  }

  /** Blocks of at most k elements give at most k elements per pair. */
  lemma GridLength<A, B, T>(pair: (A, B) -> seq<T>, xs: seq<A>, ys: seq<B>, k: nat)
    requires forall i, j :: 0 <= i < |xs| && 0 <= j < |ys| ==> |pair(xs[i], ys[j])| <= k
    ensures |Grid(pair, xs, ys)| <= k * |xs| * |ys|
  {
    forall j | 0 <= j < |ys|
      ensures |Across(pair, xs, ys[j])| <= k * |xs|
    {
      AcrossLength(pair, xs, ys[j], k);
    }
    ConcatLength(PassBlocks(pair, xs, ys), k * |xs|);
  }

  /** Pair outputs that only drop elements give a pass that only drops
      elements. */
  lemma AcrossSubseq<A, B, T>(pair1: (A, B) -> seq<T>, pair2: (A, B) -> seq<T>, xs: seq<A>, y: B)
    requires forall i :: 0 <= i < |xs| ==> IsSubseq(pair1(xs[i], y), pair2(xs[i], y))
    ensures IsSubseq(Across(pair1, xs, y), Across(pair2, xs, y))
  {
    ConcatSubseq(Blocks(pair1, xs, y), Blocks(pair2, xs, y));
  }

  /** Pair outputs that only drop elements give a grid that only drops
      elements. */
  lemma GridSubseq<A, B, T>(pair1: (A, B) -> seq<T>, pair2: (A, B) -> seq<T>, xs: seq<A>, ys: seq<B>)
    requires forall i, j :: 0 <= i < |xs| && 0 <= j < |ys| ==> IsSubseq(pair1(xs[i], ys[j]), pair2(xs[i], ys[j]))
    ensures IsSubseq(Grid(pair1, xs, ys), Grid(pair2, xs, ys))
  {
    forall j | 0 <= j < |ys|
      ensures IsSubseq(Across(pair1, xs, ys[j]), Across(pair2, xs, ys[j]))
    {
      AcrossSubseq(pair1, pair2, xs, ys[j]);
    }
    ConcatSubseq(PassBlocks(pair1, xs, ys), PassBlocks(pair2, xs, ys));
  }
}
