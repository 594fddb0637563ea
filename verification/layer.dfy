/**
 * The RandomCopyPaste layer: construction and configuration, the random draw
 * of the paste count, `_augment` on one example dictionary and `call` with its
 * dispatch between unbatched (rank 3) and batched (rank 4) inputs.
 *
 * An example is a dictionary from key to dense tensor. The IoU operator and
 * the point-in-box test are function parameters; the random draws are values.
 */
module CopyPaste {
  import opened Wrappers
  import opened Seqs
  import opened Tensors
  import Selection
  import Merge

  /** The dictionary keys the layer reads. */
  const POINT_CLOUDS: string := "point_clouds"
  const BOUNDING_BOXES: string := "bounding_boxes"
  const OBJECT_POINT_CLOUDS: string := "object_point_clouds"
  const OBJECT_BOUNDING_BOXES: string := "object_bounding_boxes"

  /** The keys `get_config` reports. */
  const LABEL_INDEX_KEY: string := "label_index"
  const MIN_PASTE_KEY: string := "min_paste_bounding_boxes"
  const MAX_PASTE_KEY: string := "max_paste_bounding_boxes"

  datatype Error =
    | NegativeLabelIndex
    | NegativeMinPaste
    | NegativeMaxPaste
    | MaxBelowMin
    | MissingKey(key: string)
    | ShapeMismatch
    | UnsupportedRank
    | EmptyBatch

  /** The layer's configuration: label filter and paste-count bounds. */
  datatype Layer = Layer(labelIndex: Option<int>, minPaste: int, maxPaste: int)

  /** The arguments the constructor accepts. */
  predicate ValidArgs(labelIndex: Option<int>, minPaste: int, maxPaste: int)
  {
    !(Selection.Truthy(labelIndex) && labelIndex.value < 0) && 0 <= minPaste <= maxPaste
  }

  predicate ValidLayer(layer: Layer)
  {
    ValidArgs(layer.labelIndex, layer.minPaste, layer.maxPaste)
  }

  /**
   * The constructor: the checks run in order and the first failing one is
   * reported; a layer is built exactly from acceptable arguments.
   */
  function NewLayer(labelIndex: Option<int>, minPaste: int, maxPaste: int): (r: Result<Layer, Error>)
    ensures r.Success? <==> ValidArgs(labelIndex, minPaste, maxPaste)
    ensures r.Success? ==> r.value == Layer(labelIndex, minPaste, maxPaste) && ValidLayer(r.value)
    ensures r.Failure? ==>
      (r.error == NegativeLabelIndex <==> Selection.Truthy(labelIndex) && labelIndex.value < 0) &&
      (r.error == NegativeMinPaste ==> minPaste < 0) &&
      (r.error == NegativeMaxPaste ==> maxPaste < 0 <= minPaste) &&
      (r.error == MaxBelowMin ==> 0 <= maxPaste < minPaste) &&
      r.error in {NegativeLabelIndex, NegativeMinPaste, NegativeMaxPaste, MaxBelowMin}
  {
    if Selection.Truthy(labelIndex) && labelIndex.value < 0 then Failure(NegativeLabelIndex)
    else if minPaste < 0 then Failure(NegativeMinPaste)
    else if maxPaste < 0 then Failure(NegativeMaxPaste)
    else if maxPaste < minPaste then Failure(MaxBelowMin)
    else Success(Layer(labelIndex, minPaste, maxPaste))
  }

  /** The layer built from the constructor's default arguments: no label filter, 0 to 10 boxes. */
  const DEFAULT_LAYER: Layer := Layer(None, 0, 10)

  /** Calling the constructor without arguments succeeds and gives the default layer. */
  lemma DefaultLayer()
    ensures NewLayer(None, 0, 10) == Success(DEFAULT_LAYER) && ValidLayer(DEFAULT_LAYER)
    ensures GetConfig(DEFAULT_LAYER) == map[LABEL_INDEX_KEY := NoneValue, MIN_PASTE_KEY := Int(0), MAX_PASTE_KEY := Int(10)]
  {
  }

  /** A configuration value: an integer or `None`. */
  datatype Value = Int(i: int) | NoneValue

  function OptionValue(o: Option<int>): Value
  {
    match o
    case None => NoneValue
    case Some(v) => Int(v)
  }

  function ValueOption(v: Value): Option<int>
  {
    match v
    case NoneValue => None
    case Int(i) => Some(i)
  }

  /** `get_config`: the three constructor arguments under their keyword names. */
  function GetConfig(layer: Layer): (config: map<string, Value>)
    ensures config.Keys == {LABEL_INDEX_KEY, MIN_PASTE_KEY, MAX_PASTE_KEY}
    ensures config[MIN_PASTE_KEY].Int? && config[MAX_PASTE_KEY].Int?
  {
    map[LABEL_INDEX_KEY := OptionValue(layer.labelIndex),
        MIN_PASTE_KEY := Int(layer.minPaste),
        MAX_PASTE_KEY := Int(layer.maxPaste)]
  }

  /** Passing a layer's configuration back to the constructor rebuilds the same layer. */
  lemma ConfigRoundTrip(labelIndex: Option<int>, minPaste: int, maxPaste: int)
    requires NewLayer(labelIndex, minPaste, maxPaste).Success?
    ensures var config := GetConfig(NewLayer(labelIndex, minPaste, maxPaste).value);
      config[LABEL_INDEX_KEY] == OptionValue(labelIndex) &&
      config[MIN_PASTE_KEY] == Int(minPaste) && config[MAX_PASTE_KEY] == Int(maxPaste) &&
      NewLayer(ValueOption(config[LABEL_INDEX_KEY]), config[MIN_PASTE_KEY].i, config[MAX_PASTE_KEY].i)
        == NewLayer(labelIndex, minPaste, maxPaste)
  {
    var config := GetConfig(NewLayer(labelIndex, minPaste, maxPaste).value);
    assert ValueOption(OptionValue(labelIndex)) == labelIndex;
  }

  /** The random inputs of one augmentation: a uniform number and a shuffle per size. */
  datatype Draw = Draw(uniform: real, shuffle: nat -> seq<nat>)

  /** A draw the random generators can produce: `uniform` in [0, 1), every shuffle a permutation. */
  ghost predicate Fair(draw: Draw)
  {
    0.0 <= draw.uniform < 1.0 && Selection.Shuffles(draw.shuffle)
  }

  ghost predicate FairDraws(draws: nat -> Draw)
  {
    forall i: nat :: Fair(draws(i))
  }

  /** The value the uniform draw gives before truncation, in [lo, hi) (just lo when lo == hi). */
  function Uniform(lo: int, hi: int, u: real): real
  {
    lo as real + u * (hi - lo) as real
  }

  lemma UniformBelow(lo: int, hi: int, u: real)
    requires lo < hi && 0.0 <= u < 1.0
    ensures lo as real <= Uniform(lo, hi, u) < hi as real
  {
    var d := (hi - lo) as real;
    assert 0.0 <= u * d < d;
  }

  lemma FloorWithin(x: real, lo: int, hi: int)
    requires lo as real <= x < hi as real
    ensures lo <= x.Floor < hi
  {
  }

  /**
   * The paste count: a uniform number in [min, max) truncated to an integer.
   * It lies in [min, max], and reaches max only when min == max.
   */
  function PasteCount(layer: Layer, u: real): (n: nat)
    requires ValidLayer(layer) && 0.0 <= u < 1.0
    ensures layer.minPaste <= n <= layer.maxPaste
    ensures n < layer.maxPaste || n == layer.minPaste
  {
    var x := Uniform(layer.minPaste, layer.maxPaste, u);
    if layer.minPaste == layer.maxPaste then
      assert x == layer.minPaste as real;
      FloorWithin(x, layer.minPaste, layer.minPaste + 1);
      x.Floor
    else
      UniformBelow(layer.minPaste, layer.maxPaste, u);
      FloorWithin(x, layer.minPaste, layer.maxPaste);
      x.Floor
  }

  /** The decoded example: scene points and boxes with their static shapes, and the object pool. */
  datatype Scene = Scene(points: seq<seq<Row>>, pointsShape: seq<nat>,
                         boxes: seq<seq<Row>>, boxesShape: seq<nat>,
                         objects: Selection.Objects)
  {
    /**
     * Shapes the layer can run on: [frames, points, features] points with the
     * class feature, [frames, boxes, columns] boxes with the class column, and
     * objects over the same frames with rows as wide as the scene's.
     */
    predicate Valid()
    {
      Dense3(points, pointsShape) && Dense3(boxes, boxesShape) &&
      pointsShape[0] >= 1 && boxesShape[0] == pointsShape[0] &&
      pointsShape[2] > POINT_CLASS && boxesShape[2] > BOX_CLASS &&
      objects.Shaped() && |objects.boxes| == pointsShape[0] &&
      (forall f, j :: 0 <= f < |objects.clouds| && 0 <= j < |objects.clouds[f]| ==>
        Widths(objects.clouds[f][j], pointsShape[2])) &&
      forall f :: 0 <= f < |objects.boxes| ==> Widths(objects.boxes[f], boxesShape[2])
    }
  }

  /** Every entry of the dictionary is a rectangular tensor. */
  predicate Dense(entries: map<string, Tensor>)
  {
    forall k :: k in entries ==> WellFormed(entries[k])
  }

  /** The keys are kept, and so is every entry other than the point clouds and boxes. */
  predicate OthersKept(before: map<string, Tensor>, after: map<string, Tensor>)
  {
    after.Keys == before.Keys &&
    forall k :: k in before && k != POINT_CLOUDS && k != BOUNDING_BOXES ==> k in after && after[k] == before[k]
  }

  /**
   * The shapes of point clouds, boxes, object clouds and object boxes agree:
   * ranks 3, 3, 4, 3; one frame count of at least one; one object count; the
   * class feature and class column present; matching row widths.
   */
  predicate ShapesAgree(p: seq<nat>, b: seq<nat>, op: seq<nat>, ob: seq<nat>)
  {
    |p| == 3 && |b| == 3 && |op| == 4 && |ob| == 3 &&
    p[0] >= 1 && b[0] == p[0] && op[0] == p[0] && ob[0] == p[0] && op[1] == ob[1] &&
    p[2] > POINT_CLASS && b[2] > BOX_CLASS && op[3] == p[2] && ob[2] == b[2]
  }

  predicate HasKeys(entries: map<string, Tensor>)
  {
    POINT_CLOUDS in entries && BOUNDING_BOXES in entries &&
    OBJECT_POINT_CLOUDS in entries && OBJECT_BOUNDING_BOXES in entries
  }

  /** Reading the four inputs of `_augment`: a missing key or a shape TensorFlow rejects is an error. */
  function DecodeScene(entries: map<string, Tensor>): (r: Result<Scene, Error>)
    requires Dense(entries)
    ensures r.Success? <==>
      HasKeys(entries) &&
      ShapesAgree(Shape(entries[POINT_CLOUDS]), Shape(entries[BOUNDING_BOXES]),
                  Shape(entries[OBJECT_POINT_CLOUDS]), Shape(entries[OBJECT_BOUNDING_BOXES]))
    ensures r.Success? ==>
      r.value.Valid() &&
      r.value.pointsShape == Shape(entries[POINT_CLOUDS]) && r.value.boxesShape == Shape(entries[BOUNDING_BOXES])
    ensures r.Failure? ==> (r.error.MissingKey? && r.error.key !in entries) || r.error == ShapeMismatch
  {
    if POINT_CLOUDS !in entries then Failure(MissingKey(POINT_CLOUDS))
    else if BOUNDING_BOXES !in entries then Failure(MissingKey(BOUNDING_BOXES))
    else if OBJECT_POINT_CLOUDS !in entries then Failure(MissingKey(OBJECT_POINT_CLOUDS))
    else if OBJECT_BOUNDING_BOXES !in entries then Failure(MissingKey(OBJECT_BOUNDING_BOXES))
    else
      var pc, bb := entries[POINT_CLOUDS], entries[BOUNDING_BOXES];
      var opc, obb := entries[OBJECT_POINT_CLOUDS], entries[OBJECT_BOUNDING_BOXES];
      if !ShapesAgree(Shape(pc), Shape(bb), Shape(opc), Shape(obb)) then Failure(ShapeMismatch)
      else
        var scene := Scene(Cube(pc), Shape(pc), Cube(bb), Shape(bb), Selection.Objects(Hyper(opc), Cube(obb)));
        SceneValid(scene, Shape(opc), Shape(obb));
        Success(scene)
  }

  lemma SceneValid(scene: Scene, op: seq<nat>, ob: seq<nat>)
    requires Dense3(scene.points, scene.pointsShape) && Dense3(scene.boxes, scene.boxesShape)
    requires Dense4(scene.objects.clouds, op) && Dense3(scene.objects.boxes, ob)
    requires ShapesAgree(scene.pointsShape, scene.boxesShape, op, ob)
    ensures scene.Valid()
  {
    var o := scene.objects;
    forall f | 0 <= f < |o.boxes|
      ensures |o.clouds[f]| == |o.boxes[f]| == |o.boxes[0]| && BoxRows(o.boxes[f])
    {
      assert Widths(o.boxes[f], ob[2]);
    }
  }

  /**
   * `get_random_transformation`: the objects to paste, chosen from the pool
   * with the scene's boxes as the existing boxes and the drawn paste count.
   */
  function Transformation(layer: Layer, scene: Scene, draw: Draw, iou: (Row, Row) -> real): (pasted: Selection.Objects)
    requires ValidLayer(layer) && Fair(draw) && scene.Valid()
    ensures pasted.Shaped() && |pasted.boxes| == |scene.objects.boxes| && pasted.Count() <= layer.maxPaste
    ensures Merge.PointsShaped(scene.points, scene.pointsShape, pasted.clouds, pasted.boxes)
    ensures Merge.BoxesShaped(scene.boxes, scene.boxesShape, pasted.boxes)
  {
    assert Widths(scene.boxes[0], scene.boxesShape[2]);
    var n := PasteCount(layer, draw.uniform);
    var pasted := Selection.SelectObjects(scene.boxes, scene.objects, layer.labelIndex, n, draw.shuffle, iou);
    PastedShapes(layer, scene, draw, iou, n);
    pasted
  }

  /**
   * The transformation is the selection of the objects module with the scene's
   * boxes as the existing boxes and the drawn paste count, that is one gather
   * of the pool's clouds and boxes by the selected positions.
   */
  lemma TransformationIsSelection(layer: Layer, scene: Scene, draw: Draw, iou: (Row, Row) -> real)
    requires ValidLayer(layer) && Fair(draw) && scene.Valid()
    ensures BoxRows(scene.boxes[0])
    ensures var n := PasteCount(layer, draw.uniform);
      var sel := Selection.SelectionIndices(scene.boxes, scene.objects, layer.labelIndex, n, draw.shuffle, iou);
      Transformation(layer, scene, draw, iou)
        == Selection.SelectObjects(scene.boxes, scene.objects, layer.labelIndex, n, draw.shuffle, iou)
        == scene.objects.Gather(sel) &&
      |sel| <= n
  {
    assert Widths(scene.boxes[0], scene.boxesShape[2]);
    var n := PasteCount(layer, draw.uniform);
    Selection.SelectionAligned(scene.boxes, scene.objects, layer.labelIndex, n, draw.shuffle, iou);
    Selection.SelectionBounds(scene.boxes, scene.objects, layer.labelIndex, n, draw.shuffle, iou);
  }

  /** The pasted objects are pool objects, so their rows are as wide as the scene's. */
  lemma PastedShapes(layer: Layer, scene: Scene, draw: Draw, iou: (Row, Row) -> real, n: nat)
    requires ValidLayer(layer) && Fair(draw) && scene.Valid()
    requires BoxRows(scene.boxes[0])
    ensures var pasted := Selection.SelectObjects(scene.boxes, scene.objects, layer.labelIndex, n, draw.shuffle, iou);
      Merge.PointsShaped(scene.points, scene.pointsShape, pasted.clouds, pasted.boxes) &&
      Merge.BoxesShaped(scene.boxes, scene.boxesShape, pasted.boxes)
  {
    var o := scene.objects;
    var sel := Selection.SelectionIndices(scene.boxes, o, layer.labelIndex, n, draw.shuffle, iou);
    Selection.SelectionAligned(scene.boxes, o, layer.labelIndex, n, draw.shuffle, iou);
    GatherWidths(o, sel, scene.pointsShape[2], scene.boxesShape[2]);
  }

  /** Gathering objects keeps the widths of their point rows and box rows. */
  lemma GatherWidths(o: Selection.Objects, ix: seq<nat>, pointWidth: nat, boxWidth: nat)
    requires o.Shaped() && InRange(ix, o.Count())
    requires forall f, j :: 0 <= f < |o.clouds| && 0 <= j < |o.clouds[f]| ==> Widths(o.clouds[f][j], pointWidth)
    requires forall f :: 0 <= f < |o.boxes| ==> Widths(o.boxes[f], boxWidth)
    ensures var g := o.Gather(ix);
      (forall f, j :: 0 <= f < |g.clouds| && 0 <= j < |g.clouds[f]| ==> Widths(g.clouds[f][j], pointWidth)) &&
      forall f :: 0 <= f < |g.boxes| ==> Widths(g.boxes[f], boxWidth)
  {
    var g := o.Gather(ix);
    forall f, j | 0 <= f < |g.clouds| && 0 <= j < |g.clouds[f]|
      ensures Widths(g.clouds[f][j], pointWidth)
    {
      assert g.clouds[f][j] == o.clouds[f][ix[j]];
    }
    forall f | 0 <= f < |g.boxes|
      ensures Widths(g.boxes[f], boxWidth)
    {
      assert forall j :: 0 <= j < |ix| ==> g.boxes[f][j] == o.boxes[f][ix[j]];
    }
  }

  /**
   * `_augment` as a value: on success the point clouds and bounding boxes are
   * replaced by their augmented versions of the same shape and every other
   * entry is left as it was; it fails exactly when the inputs cannot be read.
   */
  function Augmented(layer: Layer, entries: map<string, Tensor>, draw: Draw,
                     iou: (Row, Row) -> real, within: (Row, Row) -> bool): (r: Result<map<string, Tensor>, Error>)
    requires ValidLayer(layer) && Fair(draw) && Dense(entries)
    ensures r.Success? <==> DecodeScene(entries).Success?
    ensures r.Failure? ==> r.error == DecodeScene(entries).error
    ensures r.Success? ==>
      Dense(r.value) && OthersKept(entries, r.value) &&
      Shape(r.value[POINT_CLOUDS]) == Shape(entries[POINT_CLOUDS]) &&
      Shape(r.value[BOUNDING_BOXES]) == Shape(entries[BOUNDING_BOXES])
  {
    match DecodeScene(entries)
    case Failure(e) => Failure(e)
    case Success(scene) =>
      var pasted := Transformation(layer, scene, draw, iou);
      var points := Merge.MergedPoints(scene.points, scene.pointsShape, pasted.clouds, pasted.boxes, within);
      var boxes := Merge.MergedBoxes(scene.boxes, scene.boxesShape, pasted.boxes);
      UpdateDense(entries, FromCube(points, scene.pointsShape), FromCube(boxes, scene.boxesShape));
      UpdateOthers(entries, FromCube(points, scene.pointsShape), FromCube(boxes, scene.boxesShape));
      Success(entries[POINT_CLOUDS := FromCube(points, scene.pointsShape)]
                     [BOUNDING_BOXES := FromCube(boxes, scene.boxesShape)])
  }

  /**
   * A decoded scene holds the contents of the four input tensors: the point
   * clouds and boxes per frame and the object pool.
   */
  lemma DecodedContents(entries: map<string, Tensor>)
    requires Dense(entries) && DecodeScene(entries).Success?
    ensures HasKeys(entries)
    ensures Rank(entries[POINT_CLOUDS]) == 3 && Rank(entries[BOUNDING_BOXES]) == 3
    ensures Rank(entries[OBJECT_POINT_CLOUDS]) == 4 && Rank(entries[OBJECT_BOUNDING_BOXES]) == 3
    ensures var scene := DecodeScene(entries).value;
      scene.points == Cube(entries[POINT_CLOUDS]) && scene.boxes == Cube(entries[BOUNDING_BOXES]) &&
      scene.objects.clouds == Hyper(entries[OBJECT_POINT_CLOUDS]) &&
      scene.objects.boxes == Cube(entries[OBJECT_BOUNDING_BOXES])
  {
  }

  /**
   * On success, `_augment` replaces the point clouds and boxes by the merged
   * frames of the decoded scene and its transformation.
   */
  lemma AugmentedIsMerge(layer: Layer, entries: map<string, Tensor>, draw: Draw,
                         iou: (Row, Row) -> real, within: (Row, Row) -> bool)
    requires ValidLayer(layer) && Fair(draw) && Dense(entries) && DecodeScene(entries).Success?
    ensures Augmented(layer, entries, draw, iou, within).Success?
    ensures var scene := DecodeScene(entries).value;
      var pasted := Transformation(layer, scene, draw, iou);
      var r := Augmented(layer, entries, draw, iou, within).value;
      Rank(r[POINT_CLOUDS]) == 3 && Rank(r[BOUNDING_BOXES]) == 3 &&
      Cube(r[POINT_CLOUDS]) == Merge.MergedPoints(scene.points, scene.pointsShape, pasted.clouds, pasted.boxes, within) &&
      Cube(r[BOUNDING_BOXES]) == Merge.MergedBoxes(scene.boxes, scene.boxesShape, pasted.boxes)
  {
  }

  /** Item `i` along the first axis exists. */
  predicate HasItem(t: Tensor, i: nat)
  {
    t.Stack? && i < |t.items|
  }

  /**
   * The unbatched dictionary of batch element `i`: the four inputs indexed in
   * order, a missing object key or a too-short first axis being an error.
   */
  function ElementEntries(entries: map<string, Tensor>, i: nat): (r: Result<map<string, Tensor>, Error>)
    requires Dense(entries) && POINT_CLOUDS in entries && BOUNDING_BOXES in entries
    requires HasItem(entries[POINT_CLOUDS], i)
    ensures r.Success? ==>
      Dense(r.value) && r.value.Keys == {POINT_CLOUDS, BOUNDING_BOXES, OBJECT_POINT_CLOUDS, OBJECT_BOUNDING_BOXES} &&
      r.value[POINT_CLOUDS] == entries[POINT_CLOUDS].items[i] &&
      HasItem(entries[BOUNDING_BOXES], i) && r.value[BOUNDING_BOXES] == entries[BOUNDING_BOXES].items[i] &&
      OBJECT_POINT_CLOUDS in entries && HasItem(entries[OBJECT_POINT_CLOUDS], i) &&
      r.value[OBJECT_POINT_CLOUDS] == entries[OBJECT_POINT_CLOUDS].items[i] &&
      OBJECT_BOUNDING_BOXES in entries && HasItem(entries[OBJECT_BOUNDING_BOXES], i) &&
      r.value[OBJECT_BOUNDING_BOXES] == entries[OBJECT_BOUNDING_BOXES].items[i]
    ensures r.Success? <==>
      HasItem(entries[BOUNDING_BOXES], i) &&
      OBJECT_POINT_CLOUDS in entries && HasItem(entries[OBJECT_POINT_CLOUDS], i) &&
      OBJECT_BOUNDING_BOXES in entries && HasItem(entries[OBJECT_BOUNDING_BOXES], i)
    ensures r.Failure? ==> (r.error.MissingKey? && r.error.key !in entries) || r.error == ShapeMismatch
  {
    var pc, bb := entries[POINT_CLOUDS], entries[BOUNDING_BOXES];
    if !HasItem(bb, i) then Failure(ShapeMismatch)
    else if OBJECT_POINT_CLOUDS !in entries then Failure(MissingKey(OBJECT_POINT_CLOUDS))
    else if !HasItem(entries[OBJECT_POINT_CLOUDS], i) then Failure(ShapeMismatch)
    else if OBJECT_BOUNDING_BOXES !in entries then Failure(MissingKey(OBJECT_BOUNDING_BOXES))
    else if !HasItem(entries[OBJECT_BOUNDING_BOXES], i) then Failure(ShapeMismatch)
    else
      Success(map[POINT_CLOUDS := pc.items[i], BOUNDING_BOXES := bb.items[i],
                  OBJECT_POINT_CLOUDS := entries[OBJECT_POINT_CLOUDS].items[i],
                  OBJECT_BOUNDING_BOXES := entries[OBJECT_BOUNDING_BOXES].items[i]])
  }

  /** The entries a batched `call` needs before its loop: rank-4 point clouds and boxes. */
  predicate Batched(entries: map<string, Tensor>)
  {
    Dense(entries) && POINT_CLOUDS in entries && BOUNDING_BOXES in entries &&
    Rank(entries[POINT_CLOUDS]) == 4 && Rank(entries[BOUNDING_BOXES]) == 4
  }

  /** One iteration of the batch loop: element `i` augmented on its own with draw `i`. */
  function AugmentElement(layer: Layer, entries: map<string, Tensor>, draws: nat -> Draw,
                          iou: (Row, Row) -> real, within: (Row, Row) -> bool, i: nat)
    : (r: Result<map<string, Tensor>, Error>)
    requires ValidLayer(layer) && FairDraws(draws) && Batched(entries)
    requires i < Shape(entries[POINT_CLOUDS])[0]
    ensures r.Success? ==>
      POINT_CLOUDS in r.value && BOUNDING_BOXES in r.value &&
      WellFormed(r.value[POINT_CLOUDS]) && Shape(r.value[POINT_CLOUDS]) == Shape(entries[POINT_CLOUDS])[1..] &&
      WellFormed(r.value[BOUNDING_BOXES]) && Shape(r.value[BOUNDING_BOXES]) == Shape(entries[BOUNDING_BOXES])[1..]
    ensures r.Failure? ==> (r.error.MissingKey? && r.error.key !in entries) || r.error == ShapeMismatch
  {
    assert WellFormed(entries[POINT_CLOUDS]);
    match ElementEntries(entries, i)
    case Failure(e) => Failure(e)
    case Success(element) =>
      assert Fair(draws(i));
      assert WellFormed(entries[BOUNDING_BOXES]);
      Augmented(layer, element, draws(i), iou, within)
  }

  /** The values of a sequence of results in order, or the first error among them. */
  function Collect<T, E>(rs: seq<Result<T, E>>): (r: Result<seq<T>, E>)
    ensures r.Success? ==> |r.value| == |rs| && forall i :: 0 <= i < |rs| ==> rs[i] == Success(r.value[i])
    ensures r.Failure? ==> exists i :: 0 <= i < |rs| && rs[i] == Failure(r.error)
    decreases |rs|
  {
    if rs == [] then Success([])
    else
      var n := |rs| - 1;
      match Collect(rs[..n])
      case Failure(e) => Failure(e)
      case Success(vs) =>
        match rs[n]
        case Failure(e) => Failure(e)
        case Success(v) =>
          assert forall i :: 0 <= i < n ==> rs[..n][i] == rs[i];
          Success(vs + [v])
  }

  /** Once a prefix holds an error, the results after it do not matter: that error stands. */
  lemma {:induction false} CollectStands<T, E>(rs: seq<Result<T, E>>, k: nat)
    requires k <= |rs| && Collect(rs[..k]).Failure?
    ensures Collect(rs) == Collect(rs[..k])
    decreases |rs|
  {
    if k < |rs| {
      var n := |rs| - 1;
      assert rs[..n][..k] == rs[..k];
      CollectStands(rs[..n], k);
    } else {
      assert rs[..k] == rs;
    }
  }

  /** The outcome of every iteration of the batch loop, each taken on its own. */
  function ElementResults(layer: Layer, entries: map<string, Tensor>, draws: nat -> Draw,
                          iou: (Row, Row) -> real, within: (Row, Row) -> bool, k: nat)
    : (rs: seq<Result<map<string, Tensor>, Error>>)
    requires ValidLayer(layer) && FairDraws(draws) && Batched(entries)
    requires k <= Shape(entries[POINT_CLOUDS])[0]
    ensures |rs| == k
  {
    seq(k, i requires 0 <= i < k => AugmentElement(layer, entries, draws, iou, within, i))
  }

  /** The first `k` iterations of the batch loop; the first error stops the loop. */
  function BatchResults(layer: Layer, entries: map<string, Tensor>, draws: nat -> Draw,
                        iou: (Row, Row) -> real, within: (Row, Row) -> bool, k: nat)
    : (r: Result<seq<map<string, Tensor>>, Error>)
    requires ValidLayer(layer) && FairDraws(draws) && Batched(entries)
    requires k <= Shape(entries[POINT_CLOUDS])[0]
    ensures r.Success? ==>
      |r.value| == k &&
      forall i :: 0 <= i < k ==> AugmentElement(layer, entries, draws, iou, within, i) == Success(r.value[i])
    ensures r.Failure? ==>
      exists i :: 0 <= i < k && AugmentElement(layer, entries, draws, iou, within, i) == Failure(r.error)
  {
    var rs := ElementResults(layer, entries, draws, iou, within, k);
    var r := Collect(rs);
    assert r.Failure? ==> exists i :: 0 <= i < k && rs[i] == Failure(r.error);
    r
  }

  /** One more iteration of the batch loop: it runs only if the earlier ones succeeded. */
  lemma BatchStep(layer: Layer, entries: map<string, Tensor>, draws: nat -> Draw,
                  iou: (Row, Row) -> real, within: (Row, Row) -> bool, k: nat)
    requires ValidLayer(layer) && FairDraws(draws) && Batched(entries)
    requires k < Shape(entries[POINT_CLOUDS])[0]
    ensures BatchResults(layer, entries, draws, iou, within, k + 1) ==
      match BatchResults(layer, entries, draws, iou, within, k)
      case Failure(e) => Failure(e)
      case Success(results) =>
        match AugmentElement(layer, entries, draws, iou, within, k)
        case Failure(e) => Failure(e)
        case Success(m) => Success(results + [m])
  {
    var rs := ElementResults(layer, entries, draws, iou, within, k + 1);
    assert rs[..k] == ElementResults(layer, entries, draws, iou, within, k);
    assert rs[k] == AugmentElement(layer, entries, draws, iou, within, k);
  }

  /** Once an iteration fails, the rest of the loop does not run and the error stands. */
  lemma BatchFailureStands(layer: Layer, entries: map<string, Tensor>, draws: nat -> Draw,
                           iou: (Row, Row) -> real, within: (Row, Row) -> bool, k: nat, m: nat)
    requires ValidLayer(layer) && FairDraws(draws) && Batched(entries)
    requires k <= m <= Shape(entries[POINT_CLOUDS])[0]
    requires BatchResults(layer, entries, draws, iou, within, k).Failure?
    ensures BatchResults(layer, entries, draws, iou, within, m) == BatchResults(layer, entries, draws, iou, within, k)
  {
    var rs := ElementResults(layer, entries, draws, iou, within, m);
    assert rs[..k] == ElementResults(layer, entries, draws, iou, within, k);
    CollectStands(rs, k);
  }

  /** `tf.concat` along a new batch axis of per-element tensors of shape `itemShape`. */
  function StackBatch(itemShape: seq<nat>, items: seq<Tensor>): (t: Tensor)
    requires forall i :: 0 <= i < |items| ==> WellFormed(items[i]) && Shape(items[i]) == itemShape
    ensures WellFormed(t) && Shape(t) == [|items|] + itemShape && t.items == items
  {
    var t := Stack([|items|] + itemShape, items);
    assert ([|items|] + itemShape)[1..] == itemShape;
    t
  }

  /**
   * The batched branch of `call`: every element augmented, the results
   * stacked back along the batch axis; an empty batch is an error.
   */
  function CalledBatch(layer: Layer, entries: map<string, Tensor>, draws: nat -> Draw,
                       iou: (Row, Row) -> real, within: (Row, Row) -> bool): (r: Result<map<string, Tensor>, Error>)
    requires ValidLayer(layer) && FairDraws(draws) && Batched(entries)
    ensures r.Success? ==>
      Dense(r.value) && OthersKept(entries, r.value) &&
      Shape(r.value[POINT_CLOUDS]) == Shape(entries[POINT_CLOUDS]) &&
      Shape(r.value[BOUNDING_BOXES]) == [Shape(entries[POINT_CLOUDS])[0]] + Shape(entries[BOUNDING_BOXES])[1..]
    ensures r.Failure? ==> r.error != UnsupportedRank
    ensures var batch := Shape(entries[POINT_CLOUDS])[0];
      (r.Failure? <==> batch == 0 || BatchResults(layer, entries, draws, iou, within, batch).Failure?) &&
      (batch == 0 ==> r == Failure(EmptyBatch)) &&
      (batch > 0 && r.Failure? ==> r.error == BatchResults(layer, entries, draws, iou, within, batch).error)
  {
    var pc, bb := entries[POINT_CLOUDS], entries[BOUNDING_BOXES];
    var batch := Shape(pc)[0];
    if batch == 0 then Failure(EmptyBatch)
    else
      match BatchResults(layer, entries, draws, iou, within, batch)
      case Failure(e) => Failure(e)
      case Success(results) =>
        BatchItems(layer, entries, draws, iou, within, results);
        Success(Stacked(entries, Column(results, POINT_CLOUDS), Column(results, BOUNDING_BOXES)))
  }

  /**
   * The dictionary with its point clouds and boxes replaced by the stacks of
   * the per-element results, one per element of the batch.
   */
  function Stacked(entries: map<string, Tensor>, pointsList: seq<Tensor>, boxesList: seq<Tensor>)
    : (r: map<string, Tensor>)
    requires Batched(entries)
    requires |pointsList| == |boxesList| == Shape(entries[POINT_CLOUDS])[0] > 0
    requires forall i :: 0 <= i < |pointsList| ==>
      WellFormed(pointsList[i]) && Shape(pointsList[i]) == Shape(entries[POINT_CLOUDS])[1..] &&
      WellFormed(boxesList[i]) && Shape(boxesList[i]) == Shape(entries[BOUNDING_BOXES])[1..]
    ensures Dense(r) && OthersKept(entries, r)
    ensures Shape(r[POINT_CLOUDS]) == Shape(entries[POINT_CLOUDS])
    ensures Shape(r[BOUNDING_BOXES]) == [Shape(entries[POINT_CLOUDS])[0]] + Shape(entries[BOUNDING_BOXES])[1..]
    ensures r[POINT_CLOUDS].items == pointsList && r[BOUNDING_BOXES].items == boxesList
  {
    var pc, bb := entries[POINT_CLOUDS], entries[BOUNDING_BOXES];
    var points := StackBatch(Shape(pc)[1..], pointsList);
    var boxes := StackBatch(Shape(bb)[1..], boxesList);
    assert Shape(pc) == [|pointsList|] + Shape(pc)[1..];
    UpdateDense(entries, points, boxes);
    UpdateOthers(entries, points, boxes);
    entries[POINT_CLOUDS := points][BOUNDING_BOXES := boxes]
  }

  /**
   * The entry under `key`, or a placeholder scalar when there is none. At its
   * uses the key is always present (a successful `_augment` result keeps the
   * point clouds and boxes), so the placeholder never reaches an output.
   */
  function Field(m: map<string, Tensor>, key: string): Tensor
  {
    if key in m then m[key] else Scalar(0.0)
  }

  /** The entries under `key` of a sequence of dictionaries, in order. */
  function Column(ms: seq<map<string, Tensor>>, key: string): (c: seq<Tensor>)
    ensures |c| == |ms|
    ensures forall i :: 0 <= i < |ms| && key in ms[i] ==> c[i] == ms[i][key]
  {
    seq(|ms|, i requires 0 <= i < |ms| => Field(ms[i], key))
  }

  lemma ColumnAppend(ms: seq<map<string, Tensor>>, m: map<string, Tensor>, key: string)
    ensures Column(ms + [m], key) == Column(ms, key) + [Field(m, key)]
  {
  }

  /** The per-element results can be stacked: each has the shape of its slice of the batch. */
  lemma BatchItems(layer: Layer, entries: map<string, Tensor>, draws: nat -> Draw,
                   iou: (Row, Row) -> real, within: (Row, Row) -> bool, results: seq<map<string, Tensor>>)
    requires ValidLayer(layer) && FairDraws(draws) && Batched(entries)
    requires BatchResults(layer, entries, draws, iou, within, Shape(entries[POINT_CLOUDS])[0]) == Success(results)
    ensures var points, boxes := Column(results, POINT_CLOUDS), Column(results, BOUNDING_BOXES);
      forall i :: 0 <= i < |results| ==>
        WellFormed(points[i]) && Shape(points[i]) == Shape(entries[POINT_CLOUDS])[1..] &&
        WellFormed(boxes[i]) && Shape(boxes[i]) == Shape(entries[BOUNDING_BOXES])[1..]
  {
    forall i | 0 <= i < |results|
      ensures POINT_CLOUDS in results[i] && BOUNDING_BOXES in results[i]
      ensures WellFormed(results[i][POINT_CLOUDS]) && Shape(results[i][POINT_CLOUDS]) == Shape(entries[POINT_CLOUDS])[1..]
      ensures WellFormed(results[i][BOUNDING_BOXES])
      ensures Shape(results[i][BOUNDING_BOXES]) == Shape(entries[BOUNDING_BOXES])[1..]
    {
      assert AugmentElement(layer, entries, draws, iou, within, i) == Success(results[i]);
    }
  }

  /** Replacing entries by dense tensors keeps the dictionary dense. */
  lemma UpdateDense(entries: map<string, Tensor>, points: Tensor, boxes: Tensor)
    requires Dense(entries) && WellFormed(points) && WellFormed(boxes)
    ensures Dense(entries[POINT_CLOUDS := points][BOUNDING_BOXES := boxes])
  {
  }

  /** Replacing the point clouds and boxes keeps the keys and every other entry. */
  lemma UpdateOthers(entries: map<string, Tensor>, points: Tensor, boxes: Tensor)
    requires POINT_CLOUDS in entries && BOUNDING_BOXES in entries
    ensures var updated := entries[POINT_CLOUDS := points][BOUNDING_BOXES := boxes];
      OthersKept(entries, updated) && updated[POINT_CLOUDS] == points && updated[BOUNDING_BOXES] == boxes
  {
  }

  /**
   * `call`: rank-3 inputs are augmented directly with draw 0; rank-4 inputs
   * are augmented element by element; any other ranks are an error.
   */
  function Called(layer: Layer, entries: map<string, Tensor>, draws: nat -> Draw,
                  iou: (Row, Row) -> real, within: (Row, Row) -> bool): (r: Result<map<string, Tensor>, Error>)
    requires ValidLayer(layer) && FairDraws(draws) && Dense(entries)
    ensures r.Success? ==>
      POINT_CLOUDS in entries && BOUNDING_BOXES in entries &&
      Rank(entries[POINT_CLOUDS]) == Rank(entries[BOUNDING_BOXES]) >= 3 &&
      Dense(r.value) && OthersKept(entries, r.value) &&
      Shape(r.value[POINT_CLOUDS]) == Shape(entries[POINT_CLOUDS]) &&
      Shape(r.value[BOUNDING_BOXES]) == [Shape(entries[POINT_CLOUDS])[0]] + Shape(entries[BOUNDING_BOXES])[1..]
  {
    if POINT_CLOUDS !in entries then Failure(MissingKey(POINT_CLOUDS))
    else if BOUNDING_BOXES !in entries then Failure(MissingKey(BOUNDING_BOXES))
    else
      var pc, bb := entries[POINT_CLOUDS], entries[BOUNDING_BOXES];
      if Rank(pc) == 3 && Rank(bb) == 3 then
        assert Fair(draws(0));
        var r := Augmented(layer, entries, draws(0), iou, within);
        assert r.Success? ==> Shape(bb) == [Shape(pc)[0]] + Shape(bb)[1..];
        r
      else if Rank(pc) == 4 && Rank(bb) == 4 then CalledBatch(layer, entries, draws, iou, within)
      else Failure(UnsupportedRank)
  }

  /**
   * `call` rejects exactly the inputs whose point clouds and boxes are present
   * but are neither both of rank 3 nor both of rank 4.
   */
  lemma CallRejectsRanks(layer: Layer, entries: map<string, Tensor>, draws: nat -> Draw,
                         iou: (Row, Row) -> real, within: (Row, Row) -> bool)
    requires ValidLayer(layer) && FairDraws(draws) && Dense(entries)
    ensures Called(layer, entries, draws, iou, within) == Failure(UnsupportedRank) <==>
      POINT_CLOUDS in entries && BOUNDING_BOXES in entries &&
      !(Rank(entries[POINT_CLOUDS]) == Rank(entries[BOUNDING_BOXES]) == 3) &&
      !(Rank(entries[POINT_CLOUDS]) == Rank(entries[BOUNDING_BOXES]) == 4)
  {
    if POINT_CLOUDS in entries && BOUNDING_BOXES in entries {
      var pc, bb := entries[POINT_CLOUDS], entries[BOUNDING_BOXES];
      if Rank(pc) == 3 && Rank(bb) == 3 {
        assert Fair(draws(0));
        var r := Augmented(layer, entries, draws(0), iou, within);
        assert r.Failure? ==> r.error != UnsupportedRank;
      }
    }
  }

  /**
   * `call` dispatches on rank: rank-3 inputs go straight to `_augment` with
   * draw 0, rank-4 inputs through the batch loop, and it succeeds on no other rank.
   */
  lemma CallDispatch(layer: Layer, entries: map<string, Tensor>, draws: nat -> Draw,
                     iou: (Row, Row) -> real, within: (Row, Row) -> bool)
    requires ValidLayer(layer) && FairDraws(draws) && Dense(entries)
    ensures Called(layer, entries, draws, iou, within).Success? ==>
      POINT_CLOUDS in entries && BOUNDING_BOXES in entries &&
      (Rank(entries[POINT_CLOUDS]) == Rank(entries[BOUNDING_BOXES]) == 3 ||
       Rank(entries[POINT_CLOUDS]) == Rank(entries[BOUNDING_BOXES]) == 4)
    ensures Fair(draws(0))
    ensures (POINT_CLOUDS in entries && BOUNDING_BOXES in entries &&
             Rank(entries[POINT_CLOUDS]) == Rank(entries[BOUNDING_BOXES]) == 3) ==>
      Called(layer, entries, draws, iou, within) == Augmented(layer, entries, draws(0), iou, within)
    ensures (POINT_CLOUDS in entries && BOUNDING_BOXES in entries &&
             Rank(entries[POINT_CLOUDS]) == Rank(entries[BOUNDING_BOXES]) == 4) ==>
      Batched(entries) && Called(layer, entries, draws, iou, within) == CalledBatch(layer, entries, draws, iou, within)
  {
    assert Fair(draws(0));
    CallRejectsRanks(layer, entries, draws, iou, within);
  }

  /**
   * A batched call augments every element independently: element `i` of the
   * output point clouds and boxes is the `_augment` result of element `i` of
   * the inputs with draw `i`, and the batch size is kept.
   */
  lemma CallElementwise(layer: Layer, entries: map<string, Tensor>, draws: nat -> Draw,
                        iou: (Row, Row) -> real, within: (Row, Row) -> bool, i: nat)
    requires ValidLayer(layer) && FairDraws(draws) && Batched(entries)
    requires CalledBatch(layer, entries, draws, iou, within).Success? && i < Shape(entries[POINT_CLOUDS])[0]
    ensures ElementEntries(entries, i).Success? && Fair(draws(i))
    ensures var out := CalledBatch(layer, entries, draws, iou, within).value;
      var element := Augmented(layer, ElementEntries(entries, i).value, draws(i), iou, within);
      element.Success? &&
      |out[POINT_CLOUDS].items| == |out[BOUNDING_BOXES].items| == Shape(entries[POINT_CLOUDS])[0] &&
      out[POINT_CLOUDS].items[i] == element.value[POINT_CLOUDS] &&
      out[BOUNDING_BOXES].items[i] == element.value[BOUNDING_BOXES]
  {
    assert Fair(draws(i));
    var batch := Shape(entries[POINT_CLOUDS])[0];
    var results := BatchResults(layer, entries, draws, iou, within, batch).value;
    assert AugmentElement(layer, entries, draws, iou, within, i) == Success(results[i]);
  }

  /**
   * The loop of the batched `call`: each element is copied into a fresh
   * dictionary and augmented in place; the augmented point clouds and boxes
   * are collected in order, and the first error ends the loop.
   */
  method AugmentBatch(layer: Layer, entries: map<string, Tensor>, draws: nat -> Draw,
                      iou: (Row, Row) -> real, within: (Row, Row) -> bool)
    returns (error: Option<Error>, pointCloudsList: seq<Tensor>, boundingBoxesList: seq<Tensor>)
    requires ValidLayer(layer) && FairDraws(draws) && Batched(entries)
    ensures match BatchResults(layer, entries, draws, iou, within, Shape(entries[POINT_CLOUDS])[0])
      case Failure(e) => error == Some(e)
      case Success(results) =>
        error == None &&
        pointCloudsList == Column(results, POINT_CLOUDS) &&
        boundingBoxesList == Column(results, BOUNDING_BOXES)
  {
    var batch := Shape(entries[POINT_CLOUDS])[0];
    pointCloudsList, boundingBoxesList := [], [];
    ghost var results: seq<map<string, Tensor>> := [];
    for i := 0 to batch
      invariant BatchResults(layer, entries, draws, iou, within, i) == Success(results)
      invariant pointCloudsList == Column(results, POINT_CLOUDS)
      invariant boundingBoxesList == Column(results, BOUNDING_BOXES)
    {
      assert WellFormed(entries[POINT_CLOUDS]) && WellFormed(entries[BOUNDING_BOXES]);
      BatchStep(layer, entries, draws, iou, within, i);
      var element := ElementEntries(entries, i);
      if element.Failure? {
        BatchFailureStands(layer, entries, draws, iou, within, i + 1, batch);
        return Some(element.error), pointCloudsList, boundingBoxesList;
      }
      var example := new Example(element.value);
      assert Fair(draws(i));
      var elementError := example.Augment(layer, draws(i), iou, within);
      assert AugmentElement(layer, entries, draws, iou, within, i)
        == Augmented(layer, element.value, draws(i), iou, within);
      if elementError.Some? {
        BatchFailureStands(layer, entries, draws, iou, within, i + 1, batch);
        return elementError, pointCloudsList, boundingBoxesList;
      }
      ColumnAppend(results, example.entries, POINT_CLOUDS);
      ColumnAppend(results, example.entries, BOUNDING_BOXES);
      pointCloudsList := pointCloudsList + [Field(example.entries, POINT_CLOUDS)];
      boundingBoxesList := boundingBoxesList + [Field(example.entries, BOUNDING_BOXES)];
      results := results + [example.entries];
    }
    error := None;
  }

  /** A dictionary of tensors updated in place. */
  class Example {
    var entries: map<string, Tensor>

    constructor (entries: map<string, Tensor>)
      ensures this.entries == entries
    {
      this.entries := entries;
    }

    /**
     * `_augment`: draw the transformation, merge it frame by frame, then
     * update the dictionary's point clouds and bounding boxes. On an error the
     * dictionary is left unchanged.
     */
    method Augment(layer: Layer, draw: Draw, iou: (Row, Row) -> real, within: (Row, Row) -> bool)
      returns (error: Option<Error>)
      requires ValidLayer(layer) && Fair(draw) && Dense(entries)
      modifies this
      ensures match Augmented(layer, old(entries), draw, iou, within)
        case Success(m) => entries == m && error == None
        case Failure(e) => entries == old(entries) && error == Some(e)
    {
      var decoded := DecodeScene(entries);
      if decoded.Failure? {
        return Some(decoded.error);
      }
      var scene := decoded.value;
      var pasted := Transformation(layer, scene, draw, iou);
      var points, boxes := Merge.AugmentFrames(scene.points, scene.pointsShape, scene.boxes, scene.boxesShape,
                                               pasted.clouds, pasted.boxes, within);
      entries := entries[POINT_CLOUDS := FromCube(points, scene.pointsShape)]
                        [BOUNDING_BOXES := FromCube(boxes, scene.boxesShape)];
      error := None;
    }

    /**
     * `call`: dispatch on the ranks of the point clouds and boxes; in the
     * batched case augment a fresh dictionary per element and overwrite the
     * point clouds and boxes with the stacked results.
     */
    method Call(layer: Layer, draws: nat -> Draw, iou: (Row, Row) -> real, within: (Row, Row) -> bool)
      returns (error: Option<Error>)
      requires ValidLayer(layer) && FairDraws(draws) && Dense(entries)
      modifies this
      ensures match Called(layer, old(entries), draws, iou, within)
        case Success(m) => entries == m && error == None
        case Failure(e) => entries == old(entries) && error == Some(e)
    {
      if POINT_CLOUDS !in entries {
        return Some(MissingKey(POINT_CLOUDS));
      }
      if BOUNDING_BOXES !in entries {
        return Some(MissingKey(BOUNDING_BOXES));
      }
      var pointClouds, boundingBoxes := entries[POINT_CLOUDS], entries[BOUNDING_BOXES];
      if Rank(pointClouds) == 3 && Rank(boundingBoxes) == 3 {
        assert Fair(draws(0));
        error := Augment(layer, draws(0), iou, within);
      } else if Rank(pointClouds) == 4 && Rank(boundingBoxes) == 4 {
        var batch := Shape(pointClouds)[0];
        var pointCloudsList, boundingBoxesList;
        error, pointCloudsList, boundingBoxesList := AugmentBatch(layer, entries, draws, iou, within);
        if error.Some? {
          return;
        }
        if batch == 0 {
          return Some(EmptyBatch);
        }
        ghost var results := BatchResults(layer, entries, draws, iou, within, batch).value;
        BatchItems(layer, entries, draws, iou, within, results);
        entries := Stacked(entries, pointCloudsList, boundingBoxesList);
        error := None;
      } else {
        error := Some(UnsupportedRank);
      }
    }
  }
}
