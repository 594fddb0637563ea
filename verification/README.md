# RandomCopyPaste — a Dafny model

This project models the `RandomCopyPaste` preprocessing layer of KerasCV. The layer works on
3D point-cloud scenes (Waymo format). Each scene holds:

- point clouds, `[frame, point, feature]`;
- bounding boxes, `[frame, box, column]`;
- a bank of candidate objects, each with its own point clouds and boxes for every frame.

The layer picks a random number of objects from the bank. Optionally it keeps only one class
first. It then drops candidates whose boxes overlap the scene's boxes or earlier candidates.
It pastes the chosen objects into every frame:

- background points that fall inside a pasted box are removed;
- the result is padded or cut back to the original tensor shapes.

Batched input (rank 4) is augmented element by element. Any other rank is rejected.

The project has six modules:

- `Wrappers`: `Option` and `Result`.
- `Seqs`: sequence helpers. These are the masking, gathering, summing and flattening that the
  tensor operations reduce to: `boolean_mask`, `gather`, `reduce_sum` and ragged stacking.
- `Tensors`: a nested tensor that carries its own shape. Empty dimensions keep their size, as
  they do in TensorFlow.
- `Selection`: `get_random_transformation`, written as pure functions. The random shuffle and
  the 3D IoU operator are parameters.
- `Merge`: `augment_point_clouds_bounding_boxes`. It is a method with the per-frame loop, plus
  the functions that specify it. The point-in-box test is a parameter.
- `CopyPaste`: the layer's constructor and configuration, `_augment` and `call`.
  - `Example` is a class that holds the input dictionary. Its `Augment` and `Call` methods
    update that dictionary in place, as the source does.
  - `AugmentBatch` is the batch loop.
  - Each method is proved against a pure function: `Augmented`, `Called` or `BatchResults`.

Error conditions are `Result` failures. The source raises in these cases:

- a failed constructor check;
- a missing dictionary key;
- tensors whose shapes do not fit together;
- an unsupported rank;
- an empty batch.

## Model

| member | source | states |
|---|---|---|
| CopyPaste.NewLayer | keras_cv/layers/preprocessing_3d/waymo/random_copy_paste.py:71-84 | A layer is built exactly when the arguments pass all four checks, and it then holds the given arguments. A label index of 0 is falsy and is not checked. Otherwise the error names a failed check: a negative label index is reported exactly when the index is truthy and negative; a negative minimum; a negative maximum while the minimum is non-negative; a maximum below a non-negative minimum. |
| CopyPaste.DefaultLayer | keras_cv/layers/preprocessing_3d/waymo/random_copy_paste.py:63-91 | The constructor's defaults (no label index, 0 to 10 boxes) pass its checks. They give the layer `DEFAULT_LAYER`, whose configuration reports `None`, 0 and 10. |
| CopyPaste.GetConfig | keras_cv/layers/preprocessing_3d/waymo/random_copy_paste.py:86-91 | The configuration has exactly the three keys `label_index`, `min_paste_bounding_boxes` and `max_paste_bounding_boxes`. Both paste bounds are integers. |
| CopyPaste.ConfigRoundTrip | keras_cv/layers/preprocessing_3d/waymo/random_copy_paste.py:82-91 | The configuration reports the constructor's arguments. Building a layer from the reported configuration gives back the same layer. |
| CopyPaste.UniformBelow | keras_cv/layers/preprocessing_3d/waymo/random_copy_paste.py:102-107 | The uniform draw between the paste bounds lies in [min, max). |
| CopyPaste.PasteCount | keras_cv/layers/preprocessing_3d/waymo/random_copy_paste.py:102-110 | The number of boxes to paste lies between the two bounds. It reaches the maximum only when the minimum equals the maximum, because the uniform draw excludes its upper end. |
| Seqs.TrueIndices | keras_cv/layers/preprocessing_3d/waymo/random_copy_paste.py:117-122 | The positions a boolean mask selects are in range and increasing. A position is selected exactly when its flag is true. |
| Seqs.MaskGather | keras_cv/layers/preprocessing_3d/waymo/random_copy_paste.py:154-159 | `boolean_mask` along an axis is the gather by the positions of the true flags. |
| Selection.Objects.Mask | keras_cv/layers/preprocessing_3d/waymo/random_copy_paste.py:117-122 | Masking the object axis, applied to clouds and boxes alike, keeps the frame count and leaves one object per true flag. |
| Selection.Objects.Take | keras_cv/layers/preprocessing_3d/waymo/random_copy_paste.py:138-143 | Slicing the object axis keeps clouds and boxes aligned and keeps the first min(k, count) objects. |
| Selection.CandidatesByLabel | keras_cv/layers/preprocessing_3d/waymo/random_copy_paste.py:112-122 | With a truthy label index, the candidates are exactly the objects whose frame-0 box class equals it. Otherwise, including a label index of 0, every object is a candidate. |
| Selection.ComparedAreCandidates | keras_cv/layers/preprocessing_3d/waymo/random_copy_paste.py:123-143 | The objects compared for overlap are distinct candidates, because the shuffle is a permutation. |
| Selection.SelectionBounds | keras_cv/layers/preprocessing_3d/waymo/random_copy_paste.py:123-165 | The compared objects are the first min(5 × count, candidates) shuffled candidates. At most `count` objects are selected, and never more than were compared. |
| Selection.LowerSum | keras_cv/layers/preprocessing_3d/waymo/random_copy_paste.py:150-151 | A row of the lower-triangular IoU matrix sums to the row's prefix up to and including the diagonal. |
| Selection.NonOverlapMask | keras_cv/layers/preprocessing_3d/waymo/random_copy_paste.py:144-153 | There is one keep flag per compared box. |
| Selection.OverlapRule | keras_cv/layers/preprocessing_3d/waymo/random_copy_paste.py:144-153 | A compared box is kept exactly when its IoU totals stay at most 1. The total is taken with every existing box of frame 0, with every earlier compared box and with itself. |
| Selection.SelectionInOrder | keras_cv/layers/preprocessing_3d/waymo/random_copy_paste.py:154-165 | The selection is the first min(count, kept) non-overlapping compared objects, in shuffled order. |
| Selection.SelectedObjects | keras_cv/layers/preprocessing_3d/waymo/random_copy_paste.py:112-165 | The selected objects are distinct candidates. With a truthy label index they all have that class. |
| Selection.SelectionAligned | keras_cv/layers/preprocessing_3d/waymo/random_copy_paste.py:112-165 | Filtering, shuffling, cutting, masking and taking, applied the same way to clouds and boxes, amount to one gather of the object axis by the selected positions. Pasted cloud j therefore belongs to pasted box j in every frame. |
| Selection.SelectObjects | keras_cv/layers/preprocessing_3d/waymo/random_copy_paste.py:112-165 | The chosen objects keep the bank's frame count and stay aligned. There are at most `count` of them. |
| CopyPaste.Transformation | keras_cv/layers/preprocessing_3d/waymo/random_copy_paste.py:93-169 | The transformation holds at most `max_paste_bounding_boxes` aligned objects over the scene's frames. Their rows are as wide as the scene's points and boxes. |
| CopyPaste.TransformationIsSelection | keras_cv/layers/preprocessing_3d/waymo/random_copy_paste.py:101-169 | The transformation is the object selection with the scene's boxes as the existing boxes and the drawn paste count. It is one gather of the pool's clouds and boxes by at most that many selected positions. |
| Merge.KeptBackgroundPicks | keras_cv/layers/preprocessing_3d/waymo/random_copy_paste.py:185-191 | The background points that are kept are exactly those outside every pasted box of the frame and with a positive class feature, in their original order. |
| Merge.PastedPointsPicks | keras_cv/layers/preprocessing_3d/waymo/random_copy_paste.py:192-198 | The pasted points are exactly the points of the pasted clouds with a positive class feature, in order. |
| Merge.KeptPositivePicks | keras_cv/layers/preprocessing_3d/waymo/random_copy_paste.py:203-219 | The kept box rows are exactly those with a positive class column, in order. |
| Merge.PointsFrameFromMask | keras_cv/layers/preprocessing_3d/waymo/random_copy_paste.py:178-201 | Computing the in-pasted-box mask first, and then masking with it and the class test, gives the frame's merged points. |
| Merge.Fit | keras_cv/layers/preprocessing_3d/waymo/random_copy_paste.py:226-231 | `to_tensor` with a fixed shape keeps row i when it exists. Missing rows become rows of zeros, and rows past the shape are dropped. |
| Merge.MergedPoints | keras_cv/layers/preprocessing_3d/waymo/random_copy_paste.py:184-201 | The merged point clouds are dense with exactly the original point-cloud shape. |
| Merge.MergedBoxes | keras_cv/layers/preprocessing_3d/waymo/random_copy_paste.py:203-231 | The merged boxes are dense with exactly the original box shape. |
| Merge.MergedPointsLayout | keras_cv/layers/preprocessing_3d/waymo/random_copy_paste.py:184-201 | In every frame, the rows are the pasted points first, then the kept background points, then zero padding. |
| Merge.MergedPointsRows | keras_cv/layers/preprocessing_3d/waymo/random_copy_paste.py:184-231 | Every output point row is zero padding or has a positive class. It comes from a pasted cloud of the frame, or it is an original point outside every pasted box. |
| Merge.MergedBoxesLayout | keras_cv/layers/preprocessing_3d/waymo/random_copy_paste.py:203-231 | In every frame, the rows are the pasted boxes with a positive class first, then the existing boxes with a positive class, then zero padding. |
| Merge.MergedBoxesRows | keras_cv/layers/preprocessing_3d/waymo/random_copy_paste.py:203-231 | Every output box row is zero padding, or a pasted or existing box of that frame with a positive class. |
| Merge.MergeFrame | keras_cv/layers/preprocessing_3d/waymo/random_copy_paste.py:185-224 | One loop iteration produces that frame's merged points and merged boxes. |
| Merge.MergeFrames | keras_cv/layers/preprocessing_3d/waymo/random_copy_paste.py:181-225 | The frame loop builds the lists of per-frame merged points and boxes, in frame order. |
| Merge.AugmentFrames | keras_cv/layers/preprocessing_3d/waymo/random_copy_paste.py:171-232 | The method returns the merged points and boxes. These are fitted back to the original shapes. |
| CopyPaste.DecodeScene | keras_cv/layers/preprocessing_3d/waymo/random_copy_paste.py:234-245 | Reading a scene succeeds exactly when the four keys are present and the shapes fit together. Otherwise it reports a key that is missing, or a shape mismatch. |
| CopyPaste.Augmented | keras_cv/layers/preprocessing_3d/waymo/random_copy_paste.py:234-254 | `_augment` succeeds exactly when the scene can be read, and fails with the same error. On success the result has the same keys and shapes. Every entry except the point clouds and boxes is unchanged. |
| CopyPaste.DecodedContents | keras_cv/layers/preprocessing_3d/waymo/random_copy_paste.py:235-239 | A readable scene holds the contents of the four input tensors: point clouds and boxes of rank 3, object clouds of rank 4 and object boxes of rank 3. |
| CopyPaste.AugmentedIsMerge | keras_cv/layers/preprocessing_3d/waymo/random_copy_paste.py:240-254 | A successful `_augment` replaces the point clouds by the merged points, and the boxes by the merged boxes. Both are computed from the read scene and its transformation. |
| CopyPaste.Example.Augment | keras_cv/layers/preprocessing_3d/waymo/random_copy_paste.py:234-254 | The dictionary is updated in place to the `_augment` result. On an error it is left as it was and the error is returned. |
| CopyPaste.ElementEntries | keras_cv/layers/preprocessing_3d/waymo/random_copy_paste.py:267-272 | The per-element dictionary has exactly the four keys. Each holds element i of the batched tensor. It succeeds exactly when the bounding boxes, the object point clouds and the object bounding boxes all hold element i. An error reports a missing key or a tensor without element i. |
| CopyPaste.AugmentElement | keras_cv/layers/preprocessing_3d/waymo/random_copy_paste.py:267-273 | On success, an augmented batch element has the element's point-cloud and box shapes, without the batch axis. |
| CopyPaste.Collect | keras_cv/layers/preprocessing_3d/waymo/random_copy_paste.py:266-279 | The loop yields every element's value in order when all succeed. Otherwise it yields an error of one of the elements. |
| CopyPaste.CollectStands | keras_cv/layers/preprocessing_3d/waymo/random_copy_paste.py:266-279 | Once an element fails, later elements do not change the outcome, because the first error ends the loop. |
| CopyPaste.BatchResults | keras_cv/layers/preprocessing_3d/waymo/random_copy_paste.py:266-279 | After k iterations the loop has either every element's `_augment` result in order, or the error of a failing element. |
| CopyPaste.BatchStep | keras_cv/layers/preprocessing_3d/waymo/random_copy_paste.py:266-279 | An iteration keeps an earlier error. Otherwise it stops at element k's error, or appends element k's result. |
| CopyPaste.BatchFailureStands | keras_cv/layers/preprocessing_3d/waymo/random_copy_paste.py:266-279 | An error raised at some iteration is the loop's final outcome. |
| CopyPaste.AugmentBatch | keras_cv/layers/preprocessing_3d/waymo/random_copy_paste.py:263-279 | The batch loop returns the first failing element's error, or the per-element point clouds and boxes in batch order. |
| CopyPaste.StackBatch | keras_cv/layers/preprocessing_3d/waymo/random_copy_paste.py:274-282 | Concatenating the items along a new leading axis gives shape [n] + item shape, with the items in order. |
| CopyPaste.Stacked | keras_cv/layers/preprocessing_3d/waymo/random_copy_paste.py:281-283 | The point clouds and boxes are replaced by the stacked per-element results. They keep the batch shape and every other entry. |
| CopyPaste.CalledBatch | keras_cv/layers/preprocessing_3d/waymo/random_copy_paste.py:262-283 | A successful batched call keeps the point-cloud shape and every other entry. The boxes keep their per-element shape but take the point clouds' batch size, because the loop runs over the point-cloud batch only. It fails exactly when the batch is empty (EmptyBatch) or some element fails, and then it returns the first failing element's error. Its errors are never a rank error. |
| CopyPaste.CallElementwise | keras_cv/layers/preprocessing_3d/waymo/random_copy_paste.py:266-282 | A successful batched call keeps the batch size. Output element i is `_augment` of input element i. |
| CopyPaste.Called | keras_cv/layers/preprocessing_3d/waymo/random_copy_paste.py:256-292 | `call` succeeds only when the point clouds and boxes are present and of one rank, at least 3. The output keeps the point-cloud shape and every other entry. The boxes keep their shape after the leading axis, and the leading axis takes the point clouds' size. |
| CopyPaste.CallDispatch | keras_cv/layers/preprocessing_3d/waymo/random_copy_paste.py:258-283 | `call` succeeds only on both-rank-3 or both-rank-4 inputs. A rank-3 call is `_augment` with draw 0. A rank-4 call is the batch loop followed by the stacking. |
| CopyPaste.CallRejectsRanks | keras_cv/layers/preprocessing_3d/waymo/random_copy_paste.py:258-292 | `call` fails with a rank error exactly when the point clouds and boxes are present but are neither both rank 3 nor both rank 4. |
| CopyPaste.Example.Call | keras_cv/layers/preprocessing_3d/waymo/random_copy_paste.py:256-292 | The dictionary is updated in place to the `call` result. On an error it is left as it was and the error is returned. |

## Left out

- Floating point: features, coordinates and IoU values are Dafny `real`s, not float32.
- CopyPaste.PasteCount: assumes the uniform draw stays below the maximum. With float32 rounding, `min + u*(max-min)` can round up to `max` when u is very close to 1. The model's count then never equals a maximum above the minimum, and the source's can in that corner case.
- CopyPaste.PasteCount: the count is an unbounded integer. The source casts the float32 draw to int32 (random_copy_paste.py:108-110), and that cast has no defined result above 2^31 − 1. Before that cast, `random.uniform` computes in float32, which holds every integer exactly only up to 2^24 = 16777216. The model's count agrees with the source's only for bounds up to 2^24. Above that, `minval` itself rounds, and the source's count can fall below the minimum: with both bounds 16777217 the source yields 16777216, while the model yields 16777217.
- Selection.SelectionBounds: the compare count min(5 × count, candidates) is computed on unbounded integers. The source multiplies in int32 (random_copy_paste.py:133-136), so from a count of 429496730 upward the product wraps to a negative number. The slice `[:, :k]` then counts from the end, so a pool smaller than the wrapped magnitude is cut to nothing and no object is compared. The model's cut, and everything proved about the selection, holds for counts up to 429496729.
- `iou_3d` and `is_within_any_box3d` are custom TensorFlow operations. They are function parameters here: `iou` over two 7-column box geometries, and `within` over a point's x, y, z and one box's 7 geometry columns. "Any box" is an existential over the frame's pasted boxes.
- Randomness is an input. A `Draw` holds the uniform number in [0, 1) and a permutation for every size. A batched call uses draw i for element i, and a rank-3 call uses draw 0. The layer's seed generator is not modelled.
- Merge.MergeFrame: checks the point-in-box mask frame by frame inside the loop. The source computes it for all frames at once before the loop. The values are the same.
- CopyPaste.DecodeScene: requires the object clouds and object boxes to hold the same number of objects, and reports `ShapeMismatch` otherwise. The source also runs when the label index is falsy and the clouds hold fewer objects than the boxes. There the shuffle ranges over the clouds' object count, so the gather of the boxes stays in range and drops the extra boxes. Both tensors come from one object-grouping step upstream, so their object counts agree in practice; that uneven case is not modelled.
- The pasted objects' clouds must have one entry per frame of the scene. Where TensorFlow would fail on shapes that do not fit together, the model reports `ShapeMismatch`. It does not reproduce TensorFlow's error messages.
- A missing dictionary key is reported as `MissingKey`. For `_augment` the keys are checked in the order point clouds, bounding boxes, object point clouds, object boxes. The source fails later, inside TensorFlow, on the `None` values it reads.
- The key strings and the `CENTER_XYZ_DXDYDZ_PHI.CLASS` column come from the base layer and the bounding-box format. `base_augmentation_layer_3d.py` and the box-format module are not part of this model.
- Selection.Candidates: the class docstring (random_copy_paste.py:54-55) says that without a label index only valid boxes, of class other than 0, are used. The code at lines 112-122 applies no class filter when the label index is falsy, and the model follows the code. Every pool object is then a candidate, class 0 included (`Selection.CandidatesByLabel`); the docstring's class filter is not modelled.
- CopyPaste.CalledBatch: the class docstring (random_copy_paste.py:46-48) promises outputs of the same shape as the inputs. The code loops over the point clouds' batch only (lines 263-282), so boxes with a larger batch come back with the point clouds' batch size. The model follows the code.
- Tensors are rectangular (`Dense`). Ragged inputs are not modelled.
- A batch of size 0 gives `EmptyBatch`, because `tf.concat` of an empty list raises.
- Graph-mode execution, `**kwargs` passed to the Keras base layer, and the base class's own `call` dispatch are not modelled.
- The DenseNet backbone and squeeze-and-excite tests are unrelated to this layer and are not part of this model.
