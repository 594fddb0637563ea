/**
 * Dense tensors as nested stacks that carry their full shape, so that the
 * size of an empty axis is still known (as a static TensorFlow shape is).
 */
module Tensors {
  import opened Seqs

  datatype Tensor = Scalar(value: real) | Stack(dims: seq<nat>, items: seq<Tensor>)

  function Shape(t: Tensor): seq<nat>
  {
    match t
    case Scalar(_) => []
    case Stack(d, _) => d
  }

  function Rank(t: Tensor): nat
  {
    |Shape(t)|
  }

  /** Rectangular: the first axis has as many items as `dims` says, each of the remaining shape. */
  predicate WellFormed(t: Tensor)
    decreases t
  {
    match t
    case Scalar(_) => true
    case Stack(d, items) =>
      |d| >= 1 && d[0] == |items| &&
      forall i :: 0 <= i < |items| ==> Shape(items[i]) == d[1..] && WellFormed(items[i])
  }

  function Vector(t: Tensor): (v: Row)
    requires WellFormed(t) && Rank(t) == 1
    ensures |v| == Shape(t)[0]
  {
    seq(|t.items|, i requires 0 <= i < |t.items| =>
      assert WellFormed(t.items[i]) && Shape(t.items[i]) == [];
      t.items[i].value)
  }

  function Matrix(t: Tensor): (x: seq<Row>)
    requires WellFormed(t) && Rank(t) == 2
    ensures |x| == Shape(t)[0] && Widths(x, Shape(t)[1])
  {
    seq(|t.items|, i requires 0 <= i < |t.items| => Vector(t.items[i]))
  }

  function Cube(t: Tensor): (x: seq<seq<Row>>)
    requires WellFormed(t) && Rank(t) == 3
    ensures Dense3(x, Shape(t))
  {
    seq(|t.items|, i requires 0 <= i < |t.items| => Matrix(t.items[i]))
  }

  function Hyper(t: Tensor): (x: seq<seq<seq<Row>>>)
    requires WellFormed(t) && Rank(t) == 4
    ensures Dense4(x, Shape(t))
  {
    seq(|t.items|, i requires 0 <= i < |t.items| => Cube(t.items[i]))
  }

  function FromVector(v: Row): (t: Tensor)
    ensures WellFormed(t) && Shape(t) == [|v|] && Vector(t) == v
  {
    Stack([|v|], seq(|v|, i requires 0 <= i < |v| => Scalar(v[i])))
  }

  function FromMatrix(x: seq<Row>, width: nat): (t: Tensor)
    requires Widths(x, width)
    ensures WellFormed(t) && Shape(t) == [|x|, width] && Matrix(t) == x
  {
    var t := Stack([|x|, width], seq(|x|, i requires 0 <= i < |x| => FromVector(x[i])));
    assert forall i :: 0 <= i < |x| ==> Shape(t.items[i]) == t.dims[1..];
    t
  }

  function FromCube(x: seq<seq<Row>>, s: seq<nat>): (t: Tensor)
    requires Dense3(x, s)
    ensures WellFormed(t) && Shape(t) == s && Cube(t) == x
  {
    var t := Stack(s, seq(|x|, f requires 0 <= f < |x| => FromMatrix(x[f], s[2])));
    assert forall f :: 0 <= f < |x| ==> Shape(t.items[f]) == s[1..];
    t
  }
}
