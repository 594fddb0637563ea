/**
 * Choosing the objects to paste: the `get_random_transformation` step of the
 * RandomCopyPaste layer. The random paste count and the random shuffle are
 * inputs; the 3D IoU operator is a function parameter.
 */
module Selection {
  import opened Wrappers
  import opened Seqs

  /**
   * Object point clouds and object boxes, frame-major: `clouds[f][j]` and
   * `boxes[f][j]` belong to object `j` in frame `f` (the object axis is axis 1).
   */
  datatype Objects = Objects(clouds: seq<seq<Cloud>>, boxes: seq<seq<Row>>)
  {
    /** At least one frame; every frame of both parts has the same object count. */
    predicate Shaped()
    {
      |clouds| == |boxes| >= 1 &&
      forall f :: 0 <= f < |boxes| ==> |clouds[f]| == |boxes[f]| == |boxes[0]| && BoxRows(boxes[f])
    }

    function Count(): nat
      requires Shaped()
    {
      |boxes[0]|
    }

    /** `tf.gather` along the object axis, applied to both parts. */
    function Gather(ix: seq<nat>): (r: Objects)
      requires Shaped() && InRange(ix, Count())
      ensures r.Shaped() && |r.boxes| == |boxes| && r.Count() == |ix|
    {
      Objects(seq(|clouds|, f requires 0 <= f < |clouds| => Seqs.Gather(clouds[f], ix)),
              seq(|boxes|, f requires 0 <= f < |boxes| => Seqs.Gather(boxes[f], ix)))
    }

    /** `tf.boolean_mask` along the object axis, applied to both parts. */
    function Mask(m: seq<bool>): (r: Objects)
      requires Shaped() && |m| == Count()
      ensures r.Shaped() && |r.boxes| == |boxes| && r.Count() == |TrueIndices(m)|
    {
      var r := Objects(seq(|clouds|, f requires 0 <= f < |clouds| => Seqs.Mask(clouds[f], m)),
                       seq(|boxes|, f requires 0 <= f < |boxes| => Seqs.Mask(boxes[f], m)));
      assert r.Shaped() && r.Count() == |TrueIndices(m)| by {
        forall f | 0 <= f < |boxes|
          ensures |r.clouds[f]| == |r.boxes[f]| == |TrueIndices(m)| && BoxRows(r.boxes[f])
        {
          MaskGather(clouds[f], m);
          MaskGather(boxes[f], m);
        }
      }
      r
    }

    /** The slice `[:, :k]` along the object axis, applied to both parts. */
    function Take(k: nat): (r: Objects)
      requires Shaped()
      ensures r.Shaped() && |r.boxes| == |boxes| && r.Count() == Min(k, Count())
    {
      var c := Min(k, Count());
      Objects(seq(|clouds|, f requires 0 <= f < |clouds| => clouds[f][..c]),
              seq(|boxes|, f requires 0 <= f < |boxes| => boxes[f][..c]))
    }
  }

  /** Python truthiness of `label_index`: `None` and `0` are both false. */
  predicate Truthy(labelIndex: Option<int>)
  {
    labelIndex.Some? && labelIndex.value != 0
  }

  /** Which boxes have the given class. */
  function LabelMask(boxes: seq<Row>, labelIndex: int): (m: seq<bool>)
    requires BoxRows(boxes)
    ensures |m| == |boxes|
  {
    seq(|boxes|, j requires 0 <= j < |boxes| => boxes[j][BOX_CLASS] == labelIndex as real)
  }

  /** `shuffle(c)` is a permutation of `0 .. c - 1` for every `c` (a shuffled `tf.range(c)`). */
  ghost predicate Shuffles(shuffle: nat -> seq<nat>)
  {
    forall c: nat :: IsPermutation(shuffle(c), c)
  }

  /** The geometry columns of a box, the part the IoU operator reads. */
  function Geometry(box: Row): Row
    requires |box| >= GEOMETRY
  {
    box[..GEOMETRY]
  }

  /** The pairwise IoU matrix of two box lists. */
  function IouMatrix(a: seq<Row>, b: seq<Row>, iou: (Row, Row) -> real): seq<seq<real>>
  {
    seq(|a|, i requires 0 <= i < |a| => seq(|b|, j requires 0 <= j < |b| => iou(a[i], b[j])))
  }

  /** Row `i` of a matrix with every entry right of the diagonal set to zero. */
  function Lower(row: seq<real>, i: nat): seq<real>
  {
    seq(|row|, j requires 0 <= j < |row| => if j <= i then row[j] else 0.0)
  }

  /** `tf.linalg.band_part(m, -1, 0)`: the lower triangle with the diagonal. */
  function LowerTriangle(m: seq<seq<real>>): seq<seq<real>>
  {
    seq(|m|, i requires 0 <= i < |m| => Lower(m[i], i))
  }

  /**
   * The overlap test on frame 0: one flag per compared candidate, true when its
   * row of the lower-triangular IoU matrix over the existing boxes followed by
   * the compared boxes sums to at most 1.
   */
  function NonOverlapMask(existing: seq<Row>, compared: seq<Row>, iou: (Row, Row) -> real): (keep: seq<bool>)
    requires BoxRows(existing) && BoxRows(compared)
    ensures |keep| == |compared|
  {
    var all := existing + compared;
    var geometry := seq(|all|, i requires 0 <= i < |all| => Geometry(all[i]));
    var lower := LowerTriangle(IouMatrix(geometry, geometry, iou));
    var sums := seq(|compared|, c requires 0 <= c < |compared| => Sum(lower[|existing| + c]));
    seq(|sums|, c requires 0 <= c < |sums| => sums[c] <= 1.0)
  }

  /** The sum of the IoU of `box` with each box of `others`. */
  function IouTotal(box: Row, others: seq<Row>, iou: (Row, Row) -> real): real
    requires BoxRows(others)
  {
    Sum(seq(|others|, j requires 0 <= j < |others| => iou(box, Geometry(others[j]))))
  }

  lemma {:induction false} LowerSum(row: seq<real>, i: nat)
    requires i < |row|
    ensures Sum(Lower(row, i)) == Sum(row[..i + 1])
    decreases |row|
  {
    var n := |row| - 1;
    if n == i {
      assert Lower(row, i) == row[..i + 1];
    } else {
      assert Lower(row, i)[..n] == Lower(row[..n], i);
      LowerSum(row[..n], i);
      assert row[..n][..i + 1] == row[..i + 1];
    }
  }

  /**
   * The overlap rule: compared candidate `c` is kept exactly when its IoU with
   * every existing box, with every earlier compared candidate (kept or not) and
   * with itself adds up to at most 1.
   */
  lemma OverlapRule(existing: seq<Row>, compared: seq<Row>, iou: (Row, Row) -> real, c: nat)
    requires BoxRows(existing) && BoxRows(compared) && c < |compared|
    ensures var x := Geometry(compared[c]);
      NonOverlapMask(existing, compared, iou)[c] <==>
        IouTotal(x, existing, iou) + IouTotal(x, compared[..c], iou) + iou(x, x) <= 1.0
  {
    var all := existing + compared;
    var geometry := seq(|all|, i requires 0 <= i < |all| => Geometry(all[i]));
    var m := IouMatrix(geometry, geometry, iou);
    var i := |existing| + c;
    var x := Geometry(compared[c]);
    var a := seq(|existing|, j requires 0 <= j < |existing| => iou(x, Geometry(existing[j])));
    var b := seq(c, j requires 0 <= j < c => iou(x, Geometry(compared[..c][j])));
    assert geometry[i] == x;
    LowerSum(m[i], i);
    assert m[i][..i + 1] == a + b + [iou(x, x)] by {
      forall j | 0 <= j < i + 1
        ensures m[i][..i + 1][j] == (a + b + [iou(x, x)])[j]
      {
        assert m[i][j] == iou(x, geometry[j]);
        if j < |existing| {
          assert all[j] == existing[j];
        } else if j < i {
          assert all[j] == compared[..c][j - |existing|];
        }
      }
    }
    SumAppend(a + b, [iou(x, x)]);
    SumAppend(a, b);
    assert Sum([iou(x, x)]) == iou(x, x) by {
      assert [iou(x, x)][..0] == [];
    }
  }

  /**
   * The objects to paste (`get_random_transformation`), step by step as the
   * layer does it: label filter, shuffle, keep at most `5 * n`, drop the
   * overlapping ones, keep at most `n`. Every step is applied to the clouds and
   * the boxes alike.
   */
  function SelectObjects(existing: seq<seq<Row>>, objects: Objects, labelIndex: Option<int>, n: nat,
                         shuffle: nat -> seq<nat>, iou: (Row, Row) -> real): (r: Objects)
    requires objects.Shaped() && |existing| >= 1 && BoxRows(existing[0]) && Shuffles(shuffle)
    ensures r.Shaped() && |r.boxes| == |objects.boxes| && r.Count() <= n
  {
    var filtered :=
      if Truthy(labelIndex) then objects.Mask(LabelMask(objects.boxes[0], labelIndex.value)) else objects;
    assert IsPermutation(shuffle(filtered.Count()), filtered.Count());
    var shuffled := filtered.Gather(shuffle(filtered.Count()));
    var compared := shuffled.Take(5 * n);
    var keep := NonOverlapMask(existing[0], compared.boxes[0], iou);
    compared.Mask(keep).Take(n)
  }

  // A reference definition of the same selection on object indices.

  /** The objects that pass the label filter, in their original order. */
  function Candidates(objects: Objects, labelIndex: Option<int>): (c: seq<nat>)
    requires objects.Shaped()
    ensures InRange(c, objects.Count()) && Increasing(c)
  {
    if Truthy(labelIndex) then TrueIndices(LabelMask(objects.boxes[0], labelIndex.value))
    else Range(objects.Count())
  }

  /** The shuffled candidates that are compared for overlap. */
  function Compared(objects: Objects, labelIndex: Option<int>, n: nat, shuffle: nat -> seq<nat>): (e: seq<nat>)
    requires objects.Shaped() && Shuffles(shuffle)
    ensures InRange(e, objects.Count())
  {
    var c := Candidates(objects, labelIndex);
    assert IsPermutation(shuffle(|c|), |c|);
    var s := Seqs.Gather(c, shuffle(|c|));
    s[..Min(5 * n, |s|)]
  }

  /** The overlap flags of the compared candidates. */
  function Keep(existing: seq<seq<Row>>, objects: Objects, labelIndex: Option<int>, n: nat,
                shuffle: nat -> seq<nat>, iou: (Row, Row) -> real): (keep: seq<bool>)
    requires objects.Shaped() && |existing| >= 1 && BoxRows(existing[0]) && Shuffles(shuffle)
    ensures |keep| == |Compared(objects, labelIndex, n, shuffle)|
  {
    var e := Compared(objects, labelIndex, n, shuffle);
    NonOverlapMask(existing[0], Seqs.Gather(objects.boxes[0], e), iou)
  }

  /** The indices of the selected objects. */
  function SelectionIndices(existing: seq<seq<Row>>, objects: Objects, labelIndex: Option<int>, n: nat,
                            shuffle: nat -> seq<nat>, iou: (Row, Row) -> real): (sel: seq<nat>)
    requires objects.Shaped() && |existing| >= 1 && BoxRows(existing[0]) && Shuffles(shuffle)
    ensures InRange(sel, objects.Count())
  {
    var compared := Compared(objects, labelIndex, n, shuffle);
    var kept := Seqs.Mask(compared, Keep(existing, objects, labelIndex, n, shuffle, iou));
    MaskGather(compared, Keep(existing, objects, labelIndex, n, shuffle, iou));
    kept[..Min(n, |kept|)]
  }

  lemma MaskIsGather(o: Objects, m: seq<bool>)
    requires o.Shaped() && |m| == o.Count()
    ensures o.Mask(m) == o.Gather(TrueIndices(m))
  {
    forall f | 0 <= f < |o.boxes|
      ensures o.Mask(m).clouds[f] == Seqs.Gather(o.clouds[f], TrueIndices(m))
      ensures o.Mask(m).boxes[f] == Seqs.Gather(o.boxes[f], TrueIndices(m))
    {
      MaskGather(o.clouds[f], m);
      MaskGather(o.boxes[f], m);
    }
  }

  lemma TakeIsGather(o: Objects, k: nat)
    requires o.Shaped()
    ensures InRange(Range(Min(k, o.Count())), o.Count())
    ensures o.Take(k) == o.Gather(Range(Min(k, o.Count())))
  {
    var c := Min(k, o.Count());
    forall f | 0 <= f < |o.boxes|
      ensures o.Take(k).clouds[f] == Seqs.Gather(o.clouds[f], Range(c))
      ensures o.Take(k).boxes[f] == Seqs.Gather(o.boxes[f], Range(c))
    {
      GatherRange(o.clouds[f], c);
      GatherRange(o.boxes[f], c);
    }
  }

  lemma GatherAll(o: Objects)
    requires o.Shaped()
    ensures InRange(Range(o.Count()), o.Count())
    ensures o.Gather(Range(o.Count())) == o
  {
    TakeIsGather(o, o.Count());
    forall f | 0 <= f < |o.boxes|
      ensures o.clouds[f][..o.Count()] == o.clouds[f] && o.boxes[f][..o.Count()] == o.boxes[f]
    {
    }
  }

  lemma GatherGatherObjects(o: Objects, a: seq<nat>, b: seq<nat>)
    requires o.Shaped() && InRange(a, o.Count()) && InRange(b, |a|)
    ensures InRange(Seqs.Gather(a, b), o.Count())
    ensures o.Gather(a).Gather(b) == o.Gather(Seqs.Gather(a, b))
  {
    forall f | 0 <= f < |o.boxes|
      ensures o.Gather(a).Gather(b).clouds[f] == Seqs.Gather(o.clouds[f], Seqs.Gather(a, b))
      ensures o.Gather(a).Gather(b).boxes[f] == Seqs.Gather(o.boxes[f], Seqs.Gather(a, b))
    {
      GatherGather(o.clouds[f], a, b);
      GatherGather(o.boxes[f], a, b);
    }
  }

  /**
   * Alignment: the layer's step-by-step selection is one gather of the object
   * axis by `SelectionIndices`, the same for clouds and boxes, so the i-th
   * pasted cloud is the cloud of the i-th pasted box in every frame.
   */
  lemma SelectionAligned(existing: seq<seq<Row>>, objects: Objects, labelIndex: Option<int>, n: nat,
                         shuffle: nat -> seq<nat>, iou: (Row, Row) -> real)
    requires objects.Shaped() && |existing| >= 1 && BoxRows(existing[0]) && Shuffles(shuffle)
    ensures var sel := SelectionIndices(existing, objects, labelIndex, n, shuffle, iou);
      SelectObjects(existing, objects, labelIndex, n, shuffle, iou) == objects.Gather(sel)
  {
    var o := objects;
    var c := Candidates(o, labelIndex);
    // the label filter
    var filtered :=
      if Truthy(labelIndex) then o.Mask(LabelMask(o.boxes[0], labelIndex.value)) else o;
    if Truthy(labelIndex) {
      MaskIsGather(o, LabelMask(o.boxes[0], labelIndex.value));
    } else {
      GatherAll(o);
    }
    assert filtered == o.Gather(c);
    // the shuffle
    var p := shuffle(|c|);
    assert IsPermutation(p, |c|);
    var shuffled := filtered.Gather(p);
    GatherGatherObjects(o, c, p);
    var s := Seqs.Gather(c, p);
    assert shuffled == o.Gather(s);
    // at most five times the paste count
    var k := Min(5 * n, |s|);
    var compared := shuffled.Take(5 * n);
    TakeIsGather(shuffled, 5 * n);
    GatherGatherObjects(o, s, Range(k));
    GatherRange(s, k);
    var e := Compared(o, labelIndex, n, shuffle);
    assert e == s[..k];
    assert compared == o.Gather(e);
    // the overlap test
    var keep := NonOverlapMask(existing[0], compared.boxes[0], iou);
    assert keep == Keep(existing, o, labelIndex, n, shuffle, iou);
    var masked := compared.Mask(keep);
    MaskIsGather(compared, keep);
    GatherGatherObjects(o, e, TrueIndices(keep));
    var kept := Seqs.Mask(e, keep);
    MaskGather(e, keep);
    assert masked == o.Gather(kept);
    // at most the paste count
    TakeIsGather(masked, n);
    GatherGatherObjects(o, kept, Range(Min(n, |kept|)));
    GatherRange(kept, Min(n, |kept|));
  }

  /**
   * Count bounds: only the first min(5 * n, #candidates) shuffled candidates
   * are compared, and at most `n` of them are selected.
   */
  lemma SelectionBounds(existing: seq<seq<Row>>, objects: Objects, labelIndex: Option<int>, n: nat,
                        shuffle: nat -> seq<nat>, iou: (Row, Row) -> real)
    requires objects.Shaped() && |existing| >= 1 && BoxRows(existing[0]) && Shuffles(shuffle)
    ensures var c := Candidates(objects, labelIndex);
      Compared(objects, labelIndex, n, shuffle) == Seqs.Gather(c, shuffle(|c|))[..Min(5 * n, |c|)]
    ensures |SelectionIndices(existing, objects, labelIndex, n, shuffle, iou)| <= n
    ensures |SelectionIndices(existing, objects, labelIndex, n, shuffle, iou)|
            <= |Compared(objects, labelIndex, n, shuffle)|
  {
    var c := Candidates(objects, labelIndex);
    assert IsPermutation(shuffle(|c|), |c|);
  }

  /**
   * Order and the overlap rule: the selection is the first min(n, #kept)
   * compared candidates whose overlap flag is set, in compared order.
   */
  lemma SelectionInOrder(existing: seq<seq<Row>>, objects: Objects, labelIndex: Option<int>, n: nat,
                         shuffle: nat -> seq<nat>, iou: (Row, Row) -> real)
    requires objects.Shaped() && |existing| >= 1 && BoxRows(existing[0]) && Shuffles(shuffle)
    ensures var e := Compared(objects, labelIndex, n, shuffle);
      var ix := TrueIndices(Keep(existing, objects, labelIndex, n, shuffle, iou));
      var sel := SelectionIndices(existing, objects, labelIndex, n, shuffle, iou);
      |sel| == Min(n, |ix|) && Picks(sel, e, ix[..|sel|])
    ensures IsSubsequence(SelectionIndices(existing, objects, labelIndex, n, shuffle, iou),
                          Compared(objects, labelIndex, n, shuffle))
  {
    var e := Compared(objects, labelIndex, n, shuffle);
    var ix := TrueIndices(Keep(existing, objects, labelIndex, n, shuffle, iou));
    var keep := Keep(existing, objects, labelIndex, n, shuffle, iou);
    var sel := SelectionIndices(existing, objects, labelIndex, n, shuffle, iou);
    MaskGather(e, keep);
    var kept := Seqs.Mask(e, keep);
    assert sel == kept[..|sel|];
    assert Picks(sel, e, ix[..|sel|]);
  }

  /**
   * Label filtering: with a truthy label index the candidates are exactly the
   * objects whose frame-0 class equals it; with `None` or `0` every object is a
   * candidate.
   */
  lemma CandidatesByLabel(objects: Objects, labelIndex: Option<int>)
    requires objects.Shaped()
    ensures Truthy(labelIndex) ==>
      forall j :: 0 <= j < objects.Count() ==>
        (j in Candidates(objects, labelIndex) <==> objects.boxes[0][j][BOX_CLASS] == labelIndex.value as real)
    ensures !Truthy(labelIndex) ==> Candidates(objects, labelIndex) == Range(objects.Count())
  {
  }

  /** Every compared object is a candidate, and none is compared twice. */
  lemma ComparedAreCandidates(objects: Objects, labelIndex: Option<int>, n: nat, shuffle: nat -> seq<nat>)
    requires objects.Shaped() && Shuffles(shuffle)
    ensures var e := Compared(objects, labelIndex, n, shuffle);
      Distinct(e) && forall i :: 0 <= i < |e| ==> e[i] in Candidates(objects, labelIndex)
  {
    var c := Candidates(objects, labelIndex);
    var p := shuffle(|c|);
    assert IsPermutation(p, |c|);
    var s := Seqs.Gather(c, p);
    forall k, l | 0 <= k < l < |s|
      ensures s[k] != s[l]
    {
      assert p[k] != p[l];
      if p[k] < p[l] {
        assert c[p[k]] < c[p[l]];
      } else {
        assert c[p[l]] < c[p[k]];
      }
    }
    var e := Compared(objects, labelIndex, n, shuffle);
    assert e == s[..Min(5 * n, |s|)];
    forall i | 0 <= i < |e|
      ensures e[i] in c
    {
      assert e[i] == c[p[i]];
    }
  }

  /**
   * What is selected: distinct objects, each one a candidate, so with a truthy
   * label index each has that class in frame 0.
   */
  lemma SelectedObjects(existing: seq<seq<Row>>, objects: Objects, labelIndex: Option<int>, n: nat,
                        shuffle: nat -> seq<nat>, iou: (Row, Row) -> real)
    requires objects.Shaped() && |existing| >= 1 && BoxRows(existing[0]) && Shuffles(shuffle)
    ensures var sel := SelectionIndices(existing, objects, labelIndex, n, shuffle, iou);
      Distinct(sel) &&
      (forall k :: 0 <= k < |sel| ==> sel[k] in Candidates(objects, labelIndex)) &&
      (Truthy(labelIndex) ==>
        forall k :: 0 <= k < |sel| ==> objects.boxes[0][sel[k]][BOX_CLASS] == labelIndex.value as real)
  {
    var e := Compared(objects, labelIndex, n, shuffle);
    var ix := TrueIndices(Keep(existing, objects, labelIndex, n, shuffle, iou));
    var sel := SelectionIndices(existing, objects, labelIndex, n, shuffle, iou);
    ComparedAreCandidates(objects, labelIndex, n, shuffle);
    SelectionInOrder(existing, objects, labelIndex, n, shuffle, iou);
    forall k, l | 0 <= k < l < |sel|
      ensures sel[k] != sel[l]
    {
      assert ix[k] < ix[l];
    }
    forall k | 0 <= k < |sel|
      ensures sel[k] in Candidates(objects, labelIndex)
    {
      assert sel[k] == e[ix[k]];
    }
    CandidatesByLabel(objects, labelIndex);
  }
}
