/**
 * Merging the selected objects into the scene frame by frame: the
 * `augment_point_clouds_bounding_boxes` step of the RandomCopyPaste layer.
 * The point-in-box test is a function parameter.
 */
module Merge {
  import opened Seqs

  /** The leading point features the point-in-box test reads: x, y, z. */
  const XYZ: nat := 3

  /** Every point row is wide enough to hold the class feature. */
  predicate PointRows(rows: seq<Row>)
  {
    forall i :: 0 <= i < |rows| ==> |rows[i]| > POINT_CLASS
  }

  /** `is_within_any_box3d` for one point: its x, y, z lie inside one of `boxes`. */
  predicate WithinAny(point: Row, boxes: seq<Row>, within: (Row, Row) -> bool)
    requires |point| >= XYZ && BoxRows(boxes)
  {
    exists j :: 0 <= j < |boxes| && within(point[..XYZ], boxes[j][..GEOMETRY])
  }

  /** Which rows have a positive entry in `column`. */
  function PositiveMask(rows: seq<Row>, column: nat): (m: seq<bool>)
    requires forall i :: 0 <= i < |rows| ==> |rows[i]| > column
    ensures |m| == |rows|
  {
    seq(|rows|, i requires 0 <= i < |rows| => rows[i][column] > 0.0)
  }

  /** The rows with a positive entry in `column`, in their original order. */
  function KeptPositive(rows: seq<Row>, column: nat): (r: seq<Row>)
    requires forall i :: 0 <= i < |rows| ==> |rows[i]| > column
    ensures |r| <= |rows|
  {
    Mask(rows, PositiveMask(rows, column))
  }

  /** The kept rows are exactly the rows with a positive entry in `column`, in order. */
  lemma KeptPositivePicks(rows: seq<Row>, column: nat)
    requires forall i :: 0 <= i < |rows| ==> |rows[i]| > column
    ensures var ix := TrueIndices(PositiveMask(rows, column));
      Picks(KeptPositive(rows, column), rows, ix) &&
      forall i :: 0 <= i < |rows| ==> (i in ix <==> rows[i][column] > 0.0)
  {
    MaskGather(rows, PositiveMask(rows, column));
  }

  /** `is_within_any_box3d` over one frame: which points lie inside some pasted box. */
  function InPastedBoxes(points: seq<Row>, pastedBoxes: seq<Row>, within: (Row, Row) -> bool): (m: seq<bool>)
    requires PointRows(points) && BoxRows(pastedBoxes)
    ensures |m| == |points|
  {
    seq(|points|, i requires 0 <= i < |points| => WithinAny(points[i], pastedBoxes, within))
  }

  /** Which background points are kept: outside every pasted box and with a positive class. */
  function BackgroundMask(points: seq<Row>, pastedBoxes: seq<Row>, within: (Row, Row) -> bool): (m: seq<bool>)
    requires PointRows(points) && BoxRows(pastedBoxes)
    ensures |m| == |points|
  {
    seq(|points|, i requires 0 <= i < |points| =>
      !WithinAny(points[i], pastedBoxes, within) && points[i][POINT_CLASS] > 0.0)
  }

  /** The kept background points of one frame, in their original order. */
  function KeptBackground(points: seq<Row>, pastedBoxes: seq<Row>, within: (Row, Row) -> bool): (r: seq<Row>)
    requires PointRows(points) && BoxRows(pastedBoxes)
    ensures |r| <= |points|
  {
    Mask(points, BackgroundMask(points, pastedBoxes, within))
  }

  /**
   * The kept background points are exactly the scene points outside every
   * pasted box with a positive class, in their original order.
   */
  lemma KeptBackgroundPicks(points: seq<Row>, pastedBoxes: seq<Row>, within: (Row, Row) -> bool)
    requires PointRows(points) && BoxRows(pastedBoxes)
    ensures var ix := TrueIndices(BackgroundMask(points, pastedBoxes, within));
      Picks(KeptBackground(points, pastedBoxes, within), points, ix) &&
      forall i :: 0 <= i < |points| ==>
        (i in ix <==> !WithinAny(points[i], pastedBoxes, within) && points[i][POINT_CLASS] > 0.0)
  {
    MaskGather(points, BackgroundMask(points, pastedBoxes, within));
  }

  /** The pasted points of one frame with a positive class: object after object, each in order. */
  function PastedPoints(pastedClouds: seq<Cloud>): (r: seq<Row>)
    requires forall j :: 0 <= j < |pastedClouds| ==> PointRows(pastedClouds[j])
    ensures PointRows(Flatten(pastedClouds))
    ensures |r| <= |Flatten(pastedClouds)|
  {
    assert forall k, i :: 0 <= k < |pastedClouds| && 0 <= i < |pastedClouds[k]| ==>
      |pastedClouds[k][i]| > POINT_CLASS by {
      forall k, i | 0 <= k < |pastedClouds| && 0 <= i < |pastedClouds[k]|
        ensures |pastedClouds[k][i]| > POINT_CLASS
      {
        assert PointRows(pastedClouds[k]);
      }
    }
    FlattenAll(pastedClouds, (row: Row) => |row| > POINT_CLASS);
    KeptPositive(Flatten(pastedClouds), POINT_CLASS)
  }

  /**
   * The kept pasted points are exactly the flattened object points with a
   * positive class, in order.
   */
  lemma PastedPointsPicks(pastedClouds: seq<Cloud>)
    requires forall j :: 0 <= j < |pastedClouds| ==> PointRows(pastedClouds[j])
    ensures PointRows(Flatten(pastedClouds))
    ensures var rows := Flatten(pastedClouds);
      var ix := TrueIndices(PositiveMask(rows, POINT_CLASS));
      Picks(PastedPoints(pastedClouds), rows, ix) &&
      forall i :: 0 <= i < |rows| ==> (i in ix <==> rows[i][POINT_CLASS] > 0.0)
  {
    assert |PastedPoints(pastedClouds)| <= |Flatten(pastedClouds)|;
    KeptPositivePicks(Flatten(pastedClouds), POINT_CLASS);
  }

  /** One frame before padding: the pasted points with a positive class, then the kept background. */
  function PointsFrame(points: seq<Row>, pastedClouds: seq<Cloud>, pastedBoxes: seq<Row>,
                       within: (Row, Row) -> bool): seq<Row>
    requires PointRows(points) && BoxRows(pastedBoxes)
    requires forall j :: 0 <= j < |pastedClouds| ==> PointRows(pastedClouds[j])
  {
    PastedPoints(pastedClouds) + KeptBackground(points, pastedBoxes, within)
  }

  /** One frame of boxes before padding: pasted then existing boxes with a positive class. */
  function BoxesFrame(boxes: seq<Row>, pastedBoxes: seq<Row>): seq<Row>
    requires BoxRows(boxes) && BoxRows(pastedBoxes)
  {
    KeptPositive(pastedBoxes, BOX_CLASS) + KeptPositive(boxes, BOX_CLASS)
  }

  /** `to_tensor` on one frame: cut to `count` rows, or padded with zero rows of `width`. */
  function Fit(rows: seq<Row>, count: nat, width: nat): (r: seq<Row>)
    ensures |r| == count
    ensures forall i :: 0 <= i < count ==> r[i] == if i < |rows| then rows[i] else Zeros(width)
  {
    if |rows| >= count then rows[..count]
    else rows + seq(count - |rows|, _ => Zeros(width))
  }

  /** `tf.ragged.stack(frames).to_tensor(shape)`: every frame fitted to the dense shape. */
  function ToDense(frames: seq<seq<Row>>, shape: seq<nat>): seq<seq<Row>>
    requires |shape| == 3
  {
    seq(|frames|, f requires 0 <= f < |frames| => Fit(frames[f], shape[1], shape[2]))
  }

  /**
   * The scene points and the pasted objects agree with the static point shape
   * [frames, points, features]: at least one frame, the class feature present,
   * pasted rows as wide as scene rows, one pasted frame per scene frame.
   */
  predicate PointsShaped(points: seq<seq<Row>>, shape: seq<nat>, pastedClouds: seq<seq<Cloud>>,
                         pastedBoxes: seq<seq<Row>>)
  {
    Dense3(points, shape) && shape[0] >= 1 && shape[2] > POINT_CLASS &&
    |pastedClouds| == shape[0] && |pastedBoxes| == shape[0] &&
    (forall f :: 0 <= f < shape[0] ==> BoxRows(pastedBoxes[f])) &&
    forall f, j :: 0 <= f < shape[0] && 0 <= j < |pastedClouds[f]| ==> Widths(pastedClouds[f][j], shape[2])
  }

  /** The scene boxes and the pasted boxes agree with the static box shape [frames, boxes, columns]. */
  predicate BoxesShaped(boxes: seq<seq<Row>>, shape: seq<nat>, pastedBoxes: seq<seq<Row>>)
  {
    Dense3(boxes, shape) && shape[2] > BOX_CLASS && |pastedBoxes| == shape[0] &&
    forall f :: 0 <= f < shape[0] ==> Widths(pastedBoxes[f], shape[2])
  }

  lemma PicksWidths(sub: seq<Row>, rows: seq<Row>, ix: seq<nat>, width: nat)
    requires Picks(sub, rows, ix) && Widths(rows, width)
    ensures Widths(sub, width)
  {
  }

  lemma FlattenPointRows(clouds: seq<Cloud>, width: nat)
    requires width > POINT_CLASS
    requires forall j :: 0 <= j < |clouds| ==> Widths(clouds[j], width)
    ensures PointRows(Flatten(clouds)) && Widths(Flatten(clouds), width)
  {
    FlattenAll(clouds, (row: Row) => |row| == width);
  }

  /** Every row of a merged frame is as wide as the scene's rows. */
  lemma PointsFrameWidths(points: seq<Row>, pastedClouds: seq<Cloud>, pastedBoxes: seq<Row>,
                          within: (Row, Row) -> bool, width: nat)
    requires width > POINT_CLASS && Widths(points, width) && BoxRows(pastedBoxes)
    requires forall j :: 0 <= j < |pastedClouds| ==> Widths(pastedClouds[j], width)
    ensures forall j :: 0 <= j < |pastedClouds| ==> PointRows(pastedClouds[j])
    ensures Widths(PointsFrame(points, pastedClouds, pastedBoxes, within), width)
  {
    FlattenPointRows(pastedClouds, width);
    var rows := Flatten(pastedClouds);
    PastedPointsPicks(pastedClouds);
    KeptBackgroundPicks(points, pastedBoxes, within);
    PicksWidths(PastedPoints(pastedClouds), rows, TrueIndices(PositiveMask(rows, POINT_CLASS)), width);
    PicksWidths(KeptBackground(points, pastedBoxes, within), points,
                TrueIndices(BackgroundMask(points, pastedBoxes, within)), width);
  }

  lemma BoxesFrameWidths(boxes: seq<Row>, pastedBoxes: seq<Row>, width: nat)
    requires width > BOX_CLASS && Widths(boxes, width) && Widths(pastedBoxes, width)
    ensures Widths(BoxesFrame(boxes, pastedBoxes), width)
  {
    KeptPositivePicks(boxes, BOX_CLASS);
    KeptPositivePicks(pastedBoxes, BOX_CLASS);
    PicksWidths(KeptPositive(boxes, BOX_CLASS), boxes, TrueIndices(PositiveMask(boxes, BOX_CLASS)), width);
    PicksWidths(KeptPositive(pastedBoxes, BOX_CLASS), pastedBoxes,
                TrueIndices(PositiveMask(pastedBoxes, BOX_CLASS)), width);
  }

  lemma ToDenseShape(frames: seq<seq<Row>>, shape: seq<nat>)
    requires |shape| == 3 && |frames| == shape[0]
    requires forall f :: 0 <= f < |frames| ==> Widths(frames[f], shape[2])
    ensures Dense3(ToDense(frames, shape), shape)
  {
    var r := ToDense(frames, shape);
    forall f, i | 0 <= f < |r| && 0 <= i < |r[f]|
      ensures |r[f][i]| == shape[2]
    {
      assert r[f] == Fit(frames[f], shape[1], shape[2]);
    }
  }

  /** Scene points and pasted objects of a valid point shape can be read frame by frame. */
  lemma PointsShapedReadable(points: seq<seq<Row>>, shape: seq<nat>, pastedClouds: seq<seq<Cloud>>,
                             pastedBoxes: seq<seq<Row>>)
    requires PointsShaped(points, shape, pastedClouds, pastedBoxes)
    ensures PointFramesReadable(points, pastedClouds, pastedBoxes)
  {
    forall f | 0 <= f < |points|
      ensures PointRows(points[f])
      ensures forall j :: 0 <= j < |pastedClouds[f]| ==> PointRows(pastedClouds[f][j])
    {
      assert Widths(points[f], shape[2]);
      forall j | 0 <= j < |pastedClouds[f]|
        ensures PointRows(pastedClouds[f][j])
      {
        assert Widths(pastedClouds[f][j], shape[2]);
      }
    }
  }

  /** Scene boxes and pasted boxes of a valid box shape can be read frame by frame. */
  lemma BoxesShapedReadable(boxes: seq<seq<Row>>, shape: seq<nat>, pastedBoxes: seq<seq<Row>>)
    requires BoxesShaped(boxes, shape, pastedBoxes)
    ensures BoxFramesReadable(boxes, pastedBoxes)
  {
    forall f | 0 <= f < |boxes|
      ensures BoxRows(boxes[f]) && BoxRows(pastedBoxes[f])
    {
      assert Widths(boxes[f], shape[2]);
      assert Widths(pastedBoxes[f], shape[2]);
    }
  }

  /** The merged points of every frame, in the input's dense shape. */
  function MergedPoints(points: seq<seq<Row>>, shape: seq<nat>, pastedClouds: seq<seq<Cloud>>,
                        pastedBoxes: seq<seq<Row>>, within: (Row, Row) -> bool): (r: seq<seq<Row>>)
    requires PointsShaped(points, shape, pastedClouds, pastedBoxes)
    ensures Dense3(r, shape)
  {
    PointsShapedReadable(points, shape, pastedClouds, pastedBoxes);
    var frames := PointsFrames(points, pastedClouds, pastedBoxes, within);
    forall f | 0 <= f < shape[0]
      ensures Widths(frames[f], shape[2])
    {
      PointsFrameWidths(points[f], pastedClouds[f], pastedBoxes[f], within, shape[2]);
    }
    ToDenseShape(frames, shape);
    ToDense(frames, shape)
  }

  /** The merged boxes of every frame, in the input's dense shape. */
  function MergedBoxes(boxes: seq<seq<Row>>, shape: seq<nat>, pastedBoxes: seq<seq<Row>>): (r: seq<seq<Row>>)
    requires BoxesShaped(boxes, shape, pastedBoxes)
    ensures Dense3(r, shape)
  {
    BoxesShapedReadable(boxes, shape, pastedBoxes);
    var frames := BoxesFrames(boxes, pastedBoxes);
    forall f | 0 <= f < shape[0]
      ensures Widths(frames[f], shape[2])
    {
      BoxesFrameWidths(boxes[f], pastedBoxes[f], shape[2]);
    }
    ToDenseShape(frames, shape);
    ToDense(frames, shape)
  }

  lemma PointsFrameFromMask(points: seq<Row>, pastedClouds: seq<Cloud>, pastedBoxes: seq<Row>,
                            within: (Row, Row) -> bool, inPastedBoxes: seq<bool>)
    requires PointRows(points) && BoxRows(pastedBoxes)
    requires forall j :: 0 <= j < |pastedClouds| ==> PointRows(pastedClouds[j])
    requires inPastedBoxes == InPastedBoxes(points, pastedBoxes, within)
    ensures PastedPoints(pastedClouds) +
            Mask(points, seq(|points|, i requires 0 <= i < |points| =>
              !inPastedBoxes[i] && points[i][POINT_CLASS] > 0.0))
            == PointsFrame(points, pastedClouds, pastedBoxes, within)
  {
    assert seq(|points|, i requires 0 <= i < |points| => !inPastedBoxes[i] && points[i][POINT_CLASS] > 0.0)
      == BackgroundMask(points, pastedBoxes, within);
  }

  /** A frame whose rows are wide enough for every column the merge reads. */
  predicate FrameReadable(points: seq<Row>, boxes: seq<Row>, pastedClouds: seq<Cloud>, pastedBoxes: seq<Row>)
  {
    PointRows(points) && BoxRows(boxes) && BoxRows(pastedBoxes) &&
    forall j :: 0 <= j < |pastedClouds| ==> PointRows(pastedClouds[j])
  }

  /** Every point frame and its pasted objects are wide enough for the point merge. */
  predicate PointFramesReadable(points: seq<seq<Row>>, pastedClouds: seq<seq<Cloud>>, pastedBoxes: seq<seq<Row>>)
  {
    |pastedClouds| == |pastedBoxes| == |points| &&
    forall f :: 0 <= f < |points| ==>
      PointRows(points[f]) && BoxRows(pastedBoxes[f]) &&
      forall j :: 0 <= j < |pastedClouds[f]| ==> PointRows(pastedClouds[f][j])
  }

  /** Every box frame and its pasted boxes are wide enough for the box merge. */
  predicate BoxFramesReadable(boxes: seq<seq<Row>>, pastedBoxes: seq<seq<Row>>)
  {
    |pastedBoxes| == |boxes| && forall f :: 0 <= f < |boxes| ==> BoxRows(boxes[f]) && BoxRows(pastedBoxes[f])
  }

  predicate FramesReadable(points: seq<seq<Row>>, boxes: seq<seq<Row>>, pastedClouds: seq<seq<Cloud>>,
                           pastedBoxes: seq<seq<Row>>)
  {
    |boxes| == |points| && PointFramesReadable(points, pastedClouds, pastedBoxes) &&
    BoxFramesReadable(boxes, pastedBoxes)
  }

  /** The merged point frames before padding. */
  function PointsFrames(points: seq<seq<Row>>, pastedClouds: seq<seq<Cloud>>, pastedBoxes: seq<seq<Row>>,
                        within: (Row, Row) -> bool): (r: seq<seq<Row>>)
    requires PointFramesReadable(points, pastedClouds, pastedBoxes)
    ensures |r| == |points|
  {
    seq(|points|, f requires 0 <= f < |points| => PointsFrame(points[f], pastedClouds[f], pastedBoxes[f], within))
  }

  /** The merged box frames before padding. */
  function BoxesFrames(boxes: seq<seq<Row>>, pastedBoxes: seq<seq<Row>>): (r: seq<seq<Row>>)
    requires BoxFramesReadable(boxes, pastedBoxes)
    ensures |r| == |boxes|
  {
    seq(|boxes|, f requires 0 <= f < |boxes| => BoxesFrame(boxes[f], pastedBoxes[f]))
  }

  /**
   * The frame loop: for each frame, the pasted points with a positive class
   * followed by the background points outside every pasted box with a positive
   * class, and likewise the pasted then the existing boxes with a positive class.
   */
  method MergeFrames(points: seq<seq<Row>>, boxes: seq<seq<Row>>, pastedClouds: seq<seq<Cloud>>,
                     pastedBoxes: seq<seq<Row>>, within: (Row, Row) -> bool)
    returns (pointsList: seq<seq<Row>>, boxesList: seq<seq<Row>>)
    requires FramesReadable(points, boxes, pastedClouds, pastedBoxes)
    ensures pointsList == PointsFrames(points, pastedClouds, pastedBoxes, within)
    ensures boxesList == BoxesFrames(boxes, pastedBoxes)
  {
    var numFrames := |points|;
    pointsList := [];
    boxesList := [];
    for f := 0 to numFrames
      invariant pointsList == PointsFrames(points, pastedClouds, pastedBoxes, within)[..f]
      invariant boxesList == BoxesFrames(boxes, pastedBoxes)[..f]
    {
      var pointsFrame, boxesFrame := MergeFrame(points[f], boxes[f], pastedClouds[f], pastedBoxes[f], within);
      assert pointsFrame == PointsFrames(points, pastedClouds, pastedBoxes, within)[f];
      assert boxesFrame == BoxesFrames(boxes, pastedBoxes)[f];
      pointsList := pointsList + [pointsFrame];
      boxesList := boxesList + [boxesFrame];
    }
    assert PointsFrames(points, pastedClouds, pastedBoxes, within)[..numFrames]
      == PointsFrames(points, pastedClouds, pastedBoxes, within);
    assert BoxesFrames(boxes, pastedBoxes)[..numFrames]
      == BoxesFrames(boxes, pastedBoxes);
  }

  /** The body of the frame loop. */
  method MergeFrame(points: seq<Row>, boxes: seq<Row>, pastedClouds: seq<Cloud>, pastedBoxes: seq<Row>,
                    within: (Row, Row) -> bool)
    returns (pointsFrame: seq<Row>, boxesFrame: seq<Row>)
    requires FrameReadable(points, boxes, pastedClouds, pastedBoxes)
    ensures pointsFrame == PointsFrame(points, pastedClouds, pastedBoxes, within)
    ensures boxesFrame == BoxesFrame(boxes, pastedBoxes)
  {
    var inPastedBoxes := InPastedBoxes(points, pastedBoxes, within);
    var existingMask := seq(|points|, i requires 0 <= i < |points| =>
      !inPastedBoxes[i] && points[i][POINT_CLASS] > 0.0);
    var existingPoints := Mask(points, existingMask);
    var pastePoints := PastedPoints(pastedClouds);
    PointsFrameFromMask(points, pastedClouds, pastedBoxes, within, inPastedBoxes);
    pointsFrame := pastePoints + existingPoints;
    var existingBoxes := KeptPositive(boxes, BOX_CLASS);
    var pasteBoxes := KeptPositive(pastedBoxes, BOX_CLASS);
    boxesFrame := pasteBoxes + existingBoxes;
  }

  /**
   * `augment_point_clouds_bounding_boxes`: merge every frame, then stack the
   * frames back into the input's dense shapes.
   */
  method AugmentFrames(points: seq<seq<Row>>, pointsShape: seq<nat>, boxes: seq<seq<Row>>, boxesShape: seq<nat>,
                       pastedClouds: seq<seq<Cloud>>, pastedBoxes: seq<seq<Row>>, within: (Row, Row) -> bool)
    returns (newPoints: seq<seq<Row>>, newBoxes: seq<seq<Row>>)
    requires PointsShaped(points, pointsShape, pastedClouds, pastedBoxes)
    requires BoxesShaped(boxes, boxesShape, pastedBoxes) && boxesShape[0] == pointsShape[0]
    ensures newPoints == MergedPoints(points, pointsShape, pastedClouds, pastedBoxes, within)
    ensures newBoxes == MergedBoxes(boxes, boxesShape, pastedBoxes)
    ensures Dense3(newPoints, pointsShape) && Dense3(newBoxes, boxesShape)
  {
    PointsShapedReadable(points, pointsShape, pastedClouds, pastedBoxes);
    BoxesShapedReadable(boxes, boxesShape, pastedBoxes);
    var pointsList, boxesList := MergeFrames(points, boxes, pastedClouds, pastedBoxes, within);
    newPoints := ToDense(pointsList, pointsShape);
    newBoxes := ToDense(boxesList, boxesShape);
  }

  /**
   * Layout of a merged point frame: the kept pasted points first, then the
   * kept background points, then zero rows, cut to the original point count.
   */
  lemma MergedPointsLayout(points: seq<seq<Row>>, shape: seq<nat>, pastedClouds: seq<seq<Cloud>>,
                           pastedBoxes: seq<seq<Row>>, within: (Row, Row) -> bool, f: nat, i: nat)
    requires PointsShaped(points, shape, pastedClouds, pastedBoxes) && f < shape[0] && i < shape[1]
    ensures forall j :: 0 <= j < |pastedClouds[f]| ==> PointRows(pastedClouds[f][j])
    ensures var pasted := PastedPoints(pastedClouds[f]);
      var background := KeptBackground(points[f], pastedBoxes[f], within);
      MergedPoints(points, shape, pastedClouds, pastedBoxes, within)[f][i] ==
        if i < |pasted| then pasted[i]
        else if i < |pasted| + |background| then background[i - |pasted|]
        else Zeros(shape[2])
  {
    PointsFrameWidths(points[f], pastedClouds[f], pastedBoxes[f], within, shape[2]);
  }

  lemma FlattenMember(xss: seq<Cloud>, i: nat)
    requires i < |Flatten(xss)|
    ensures exists k :: 0 <= k < |xss| && Flatten(xss)[i] in xss[k]
    decreases |xss|
  {
    var n := |xss| - 1;
    var front := Flatten(xss[..n]);
    if i < |front| {
      FlattenMember(xss[..n], i);
      var k :| 0 <= k < n && front[i] in xss[..n][k];
      assert Flatten(xss)[i] in xss[k];
    } else {
      assert Flatten(xss)[i] == xss[n][i - |front|];
    }
  }

  /**
   * What a merged point frame holds: every row is zero padding, or a point with
   * a positive class that is either a pasted object point of that frame or a
   * scene point of that frame outside every pasted box.
   */
  lemma MergedPointsRows(points: seq<seq<Row>>, shape: seq<nat>, pastedClouds: seq<seq<Cloud>>,
                         pastedBoxes: seq<seq<Row>>, within: (Row, Row) -> bool, f: nat, i: nat)
    requires PointsShaped(points, shape, pastedClouds, pastedBoxes) && f < shape[0] && i < shape[1]
    ensures var row := MergedPoints(points, shape, pastedClouds, pastedBoxes, within)[f][i];
      row == Zeros(shape[2]) ||
      (|row| == shape[2] && row[POINT_CLASS] > 0.0 &&
        ((exists j :: 0 <= j < |pastedClouds[f]| && row in pastedClouds[f][j]) ||
         (row in points[f] && !WithinAny(row, pastedBoxes[f], within))))
  {
    var row := MergedPoints(points, shape, pastedClouds, pastedBoxes, within)[f][i];
    MergedPointsLayout(points, shape, pastedClouds, pastedBoxes, within, f, i);
    PointsFrameWidths(points[f], pastedClouds[f], pastedBoxes[f], within, shape[2]);
    var pasted := PastedPoints(pastedClouds[f]);
    var background := KeptBackground(points[f], pastedBoxes[f], within);
    var rows := Flatten(pastedClouds[f]);
    PastedPointsPicks(pastedClouds[f]);
    KeptBackgroundPicks(points[f], pastedBoxes[f], within);
    if i < |pasted| {
      var ix := TrueIndices(PositiveMask(rows, POINT_CLASS));
      assert row == rows[ix[i]] && ix[i] in ix;
      FlattenMember(pastedClouds[f], ix[i]);
    } else if i < |pasted| + |background| {
      var ix := TrueIndices(BackgroundMask(points[f], pastedBoxes[f], within));
      var k := i - |pasted|;
      assert row == points[f][ix[k]] && ix[k] in ix;
    }
  }

  /**
   * Layout of a merged box frame: the pasted boxes with a positive class, then
   * the scene boxes with a positive class, then zero rows, cut to the original
   * box count.
   */
  lemma MergedBoxesLayout(boxes: seq<seq<Row>>, shape: seq<nat>, pastedBoxes: seq<seq<Row>>, f: nat, i: nat)
    requires BoxesShaped(boxes, shape, pastedBoxes) && f < shape[0] && i < shape[1]
    ensures var pasted := KeptPositive(pastedBoxes[f], BOX_CLASS);
      var existing := KeptPositive(boxes[f], BOX_CLASS);
      MergedBoxes(boxes, shape, pastedBoxes)[f][i] ==
        if i < |pasted| then pasted[i]
        else if i < |pasted| + |existing| then existing[i - |pasted|]
        else Zeros(shape[2])
  {
  }

  /**
   * What a merged box frame holds: every row is zero padding, or a box with a
   * positive class taken from the pasted boxes or the scene boxes of that frame.
   */
  lemma MergedBoxesRows(boxes: seq<seq<Row>>, shape: seq<nat>, pastedBoxes: seq<seq<Row>>, f: nat, i: nat)
    requires BoxesShaped(boxes, shape, pastedBoxes) && f < shape[0] && i < shape[1]
    ensures var row := MergedBoxes(boxes, shape, pastedBoxes)[f][i];
      row == Zeros(shape[2]) ||
      (row[BOX_CLASS] > 0.0 && (row in pastedBoxes[f] || row in boxes[f]))
  {
    var row := MergedBoxes(boxes, shape, pastedBoxes)[f][i];
    MergedBoxesLayout(boxes, shape, pastedBoxes, f, i);
    var pasted := KeptPositive(pastedBoxes[f], BOX_CLASS);
    var existing := KeptPositive(boxes[f], BOX_CLASS);
    KeptPositivePicks(pastedBoxes[f], BOX_CLASS);
    KeptPositivePicks(boxes[f], BOX_CLASS);
    if i < |pasted| {
      var ix := TrueIndices(PositiveMask(pastedBoxes[f], BOX_CLASS));
      assert row == pastedBoxes[f][ix[i]] && ix[i] in ix;
    } else if i < |pasted| + |existing| {
      var ix := TrueIndices(PositiveMask(boxes[f], BOX_CLASS));
      var k := i - |pasted|;
      assert row == boxes[f][ix[k]] && ix[k] in ix;
    }
  }
}
