/**
 * The sequence operations the layer is assembled from: boolean masks,
 * gathers by index, prefixes, sums, and the shapes of dense feature tensors.
 */
module Seqs {

  /** One feature row: a point or a box. */
  type Row = seq<real>

  /** The point rows of one object in one frame. */
  type Cloud = seq<Row>

  /** Point feature that holds the class (points are [x, y, z, class, range, ...]). */
  const POINT_CLASS: nat := 3

  /** Box column that holds the class (CENTER_XYZ_DXDYDZ_PHI.CLASS). */
  const BOX_CLASS: nat := 7

  /** Box columns that give the geometry: x, y, z, dx, dy, dz, phi. */
  const GEOMETRY: nat := 7

  /** Every box row is wide enough to hold the geometry and the class. */
  predicate BoxRows(rows: seq<Row>)
  {
    forall i :: 0 <= i < |rows| ==> |rows[i]| > BOX_CLASS
  }

  function Min(a: int, b: int): int
  {
    if a <= b then a else b
  }

  /** The indices 0, 1, ..., n - 1. */
  function Range(n: nat): (r: seq<nat>)
    ensures |r| == n
  {
    seq(n, k => k)
  }

  predicate InRange(ix: seq<nat>, n: nat)
  {
    forall k :: 0 <= k < |ix| ==> ix[k] < n
  }

  predicate Increasing(ix: seq<nat>)
  {
    forall k, l :: 0 <= k < l < |ix| ==> ix[k] < ix[l]
  }

  predicate Distinct<T(==)>(xs: seq<T>)
  {
    forall k, l :: 0 <= k < l < |xs| ==> xs[k] != xs[l]
  }

  /** `p` lists each of 0, ..., n - 1 exactly once. */
  predicate IsPermutation(p: seq<nat>, n: nat)
  {
    |p| == n && InRange(p, n) && Distinct(p)
  }

  /** The elements of `xs` at the positions `ix`, in the order of `ix` (a gather). */
  function Gather<T>(xs: seq<T>, ix: seq<nat>): seq<T>
    requires InRange(ix, |xs|)
  {
    seq(|ix|, k requires 0 <= k < |ix| => xs[ix[k]])
  }

  lemma GatherGather<T>(xs: seq<T>, a: seq<nat>, b: seq<nat>)
    requires InRange(a, |xs|) && InRange(b, |a|)
    ensures InRange(Gather(a, b), |xs|)
    ensures Gather(Gather(xs, a), b) == Gather(xs, Gather(a, b))
  {
  }

  lemma GatherAppend<T>(xs: seq<T>, a: seq<nat>, b: seq<nat>)
    requires InRange(a, |xs|) && InRange(b, |xs|)
    ensures InRange(a + b, |xs|)
    ensures Gather(xs, a + b) == Gather(xs, a) + Gather(xs, b)
  {
  }

  lemma GatherRange<T>(xs: seq<T>, n: nat)
    requires n <= |xs|
    ensures InRange(Range(n), |xs|)
    ensures Gather(xs, Range(n)) == xs[..n]
  {
  }

  /** The positions at which `m` is true, in increasing order. */
  function TrueIndices(m: seq<bool>): (r: seq<nat>)
    ensures InRange(r, |m|) && Increasing(r) && |r| <= |m|
    ensures forall i :: 0 <= i < |m| ==> (m[i] <==> i in r)
    decreases |m|
  {
    if m == [] then []
    else TrueIndices(m[..|m| - 1]) + (if m[|m| - 1] then [|m| - 1] else [])
  }

  /** A boolean mask along the first axis: the elements of `xs` where `m` is true, in order. */
  function Mask<T>(xs: seq<T>, m: seq<bool>): (r: seq<T>)
    requires |m| == |xs|
    ensures |r| <= |xs|
    decreases |xs|
  {
    if xs == [] then []
    else
      var n := |xs| - 1;
      Mask(xs[..n], m[..n]) + (if m[n] then [xs[n]] else [])
  }

  /** A mask keeps exactly the elements at the mask's true positions, in order. */
  lemma {:induction false} MaskGather<T>(xs: seq<T>, m: seq<bool>)
    requires |m| == |xs|
    ensures Mask(xs, m) == Gather(xs, TrueIndices(m))
    decreases |xs|
  {
    if xs != [] {
      var n := |xs| - 1;
      var front := TrueIndices(m[..n]);
      var last: seq<nat> := if m[n] then [n] else [];
      MaskGather(xs[..n], m[..n]);
      assert Gather(xs[..n], front) == Gather(xs, front);
      assert Gather(xs, last) == if m[n] then [xs[n]] else [];
      GatherAppend(xs, front, last);
    }
  }

  /** `sub` consists of the elements of `xs` at the increasing positions `ix`. */
  ghost predicate Picks<T>(sub: seq<T>, xs: seq<T>, ix: seq<nat>)
  {
    |ix| == |sub| && InRange(ix, |xs|) && Increasing(ix) &&
    forall k :: 0 <= k < |ix| ==> sub[k] == xs[ix[k]]
  }

  /** `sub` is an order-preserving subsequence of `xs`. */
  ghost predicate IsSubsequence<T>(sub: seq<T>, xs: seq<T>)
  {
    exists ix :: Picks(sub, xs, ix)
  }

  function Sum(xs: seq<real>): real
    decreases |xs|
  {
    if xs == [] then 0.0 else Sum(xs[..|xs| - 1]) + xs[|xs| - 1]
  }

  lemma {:induction false} SumAppend(a: seq<real>, b: seq<real>)
    ensures Sum(a + b) == Sum(a) + Sum(b)
    decreases |b|
  {
    if b == [] {
      assert a + b == a;
    } else {
      assert (a + b)[..|a + b| - 1] == a + b[..|b| - 1];
      SumAppend(a, b[..|b| - 1]);
    }
  }

  /** The rows of several row lists, one list after the other (a reshape that merges two axes). */
  function Flatten<T>(xss: seq<seq<T>>): (r: seq<T>)
    ensures |r| == 0 <==> forall k :: 0 <= k < |xss| ==> xss[k] == []
    decreases |xss|
  {
    if xss == [] then [] else Flatten(xss[..|xss| - 1]) + xss[|xss| - 1]
  }

  /** A property of every element of every list holds of every element of their flattening. */
  lemma {:induction false} FlattenAll<T>(xss: seq<seq<T>>, p: T -> bool)
    requires forall k, i :: 0 <= k < |xss| && 0 <= i < |xss[k]| ==> p(xss[k][i])
    ensures forall i :: 0 <= i < |Flatten(xss)| ==> p(Flatten(xss)[i])
    decreases |xss|
  {
    if xss != [] {
      FlattenAll(xss[..|xss| - 1], p);
    }
  }

  /** A zero row of the given width (the padding `to_tensor` inserts). */
  function Zeros(width: nat): (r: Row)
    ensures |r| == width && forall k :: 0 <= k < width ==> r[k] == 0.0
  {
    seq(width, _ => 0.0)
  }

  predicate Widths(rows: seq<Row>, width: nat)
  {
    forall i :: 0 <= i < |rows| ==> |rows[i]| == width
  }

  /** `x` is a dense [s[0], s[1], s[2]] tensor. */
  predicate Dense3(x: seq<seq<Row>>, s: seq<nat>)
  {
    |s| == 3 && |x| == s[0] &&
    forall f :: 0 <= f < |x| ==> |x[f]| == s[1] && Widths(x[f], s[2])
  }

  /** `x` is a dense [s[0], s[1], s[2], s[3]] tensor. */
  predicate Dense4(x: seq<seq<seq<Row>>>, s: seq<nat>)
  {
    |s| == 4 && |x| == s[0] &&
    forall f :: 0 <= f < |x| ==>
      |x[f]| == s[1] &&
      forall j :: 0 <= j < |x[f]| ==> |x[f][j]| == s[2] && Widths(x[f][j], s[3])
  }
}
