# Layout model: box loss, transformer encoder structure, early stopping

This project models, in Dafny, three parts of a PyTorch layout-generation model:

- **Box geometry and the masked box loss** (`script/criterion.py`), module `Criterion`, covering:
  - conversion between centre/size boxes `(cx, cy, w, h)` and corner boxes `(x0, y0, x1, y1)`;
  - the pairwise IoU and union matrices of `box_iou`;
  - the pairwise generalized IoU of `generalized_box_iou`, including its rejection of boxes whose corners are out of order;
  - `MutiLoss.forward`: it keeps the masked positions of a flattened batch of boxes (with `masked_select`'s broadcasting of a length-1 side), and returns the L1 distance plus the sum of (1 − GIoU) over the kept pairs, both divided by `num_boxes`.

  Tensor arithmetic is done over exact reals. A division by zero gives a distinct non-finite value, as torch gives `inf` or `NaN`.
- **The structure of the transformer encoder** (`model/language_model.py`), module `LanguageModel`, covering:
  - the `MLP` dimension chain and where its ReLUs sit;
  - `_get_clones`;
  - the layer norm's parameters;
  - the residual wiring of `SublayerConnection`;
  - the two connections of `EncoderLayer`;
  - `Encoder` folding over its cloned layers and then normalising once;
  - the masking step of `attention`;
  - the `d_model % h == 0` precondition of `MultiHeadAttention`, and its head split and merge;
  - the `TokenEmbedding` lookup;
  - the layout of `LanguageModel.forward`: class, box and image embeddings concatenated into `mix_net`, then positions, encoder, generator and sigmoid.

  Learned weights are data (`Linear`, `LayerNorm`, `TokenEmbedding`). Standardisation, softmax, square roots and the sigmoid are parameters, gathered in the `Numerics` datatype; the model assumes only that they preserve widths. `MLP.forward`, `Encoder.forward` and `MultiHeadAttention.forward` are methods. The last is a method of the class `MultiHeadAttention`, since it stores the attention weights in the field `attn`. Inside the encoder, self-attention is the value-level `MultiHeadAttend`, which does not record them.
- **The bookkeeping of `train2.py`**, module `Training`:
  - the early-stopping epoch loop of `main`, with `best_perform`, `stop_count` and `last_epoch`, plus the checkpoint files it saves and removes;
  - the per-sample mask filter and dictionary merge of `get_result_print`.

  The evaluation loss of every epoch is an input.

`wrappers.dfy` holds the `Option` and `Result` datatypes that the other modules use for failures. `tensors.dfy` (module `Tensors`) holds the rank-two shapes and the row flattening that the loss and the encoder share.

## Model

| member | source | states |
|---|---|---|
| Criterion.CenterToCorners | script/criterion.py:7-11 | the corner box has width `w` and height `h` and is centred on `(cx, cy)`; its corners are ordered exactly when `w >= 0` and `h >= 0` |
| Criterion.CornersToCenter | script/criterion.py:14-18 | the centre box spans exactly the given corners; its sizes are non-negative exactly when the corners are ordered |
| Criterion.CenterCornerRoundTrip | script/criterion.py:7-18 | converting a centre box to corners and back gives the same box |
| Criterion.CornerCenterRoundTrip | script/criterion.py:7-18 | converting a corner box to centre form and back gives the same box |
| Criterion.Quotient | script/criterion.py:33 | a division is finite exactly when the divisor is not zero, and then times the divisor gives the dividend |
| Criterion.Sum | script/criterion.py:83 | a tensor sum is finite exactly when every term is |
| Criterion.OverlapFacts | script/criterion.py:25-55 | for ordered boxes, the clamped overlap width and height lie between 0 and each box's own; the enclosing width and height cover both boxes minus their overlap |
| Criterion.IntersectionWithinAreas | script/criterion.py:22-29 | for ordered boxes, the intersection is at least 0 and at most each box's area |
| Criterion.IntersectionWithinFirst | script/criterion.py:22-29 | for ordered boxes, the intersection is between 0 and the first box's area |
| Criterion.UnionBounds | script/criterion.py:22-31 | for ordered boxes, `area1 + area2 - inter` is at least each area and at least the intersection |
| Criterion.IouWithinUnitInterval | script/criterion.py:31-33 | for ordered boxes, IoU is finite exactly when the union is positive, and then lies in [0, 1] |
| Criterion.EnclosingCoversUnion | script/criterion.py:51-55 | for ordered boxes, the enclosing box's area is at least the union |
| Criterion.GiouBounds | script/criterion.py:49-57 | for ordered boxes, GIoU is finite exactly when the union is positive, and then −1 ≤ GIoU ≤ IoU ≤ 1 |
| Criterion.GiouSymmetric | script/criterion.py:21-57 | IoU and GIoU do not depend on the order of the two boxes |
| Criterion.InterSymmetric | script/criterion.py:25-29 | the intersection does not depend on the order of the two boxes |
| Criterion.EnclosingSymmetric | script/criterion.py:51-55 | the enclosing area does not depend on the order of the two boxes |
| Criterion.GiouOfItself | script/criterion.py:21-57 | an ordered box of positive area has IoU 1 and GIoU 1 with itself |
| Criterion.BoxIou | script/criterion.py:21-34 | `box_iou` returns two N×M matrices: entry (i, j) is the IoU, respectively the union, of box i of the first list and box j of the second |
| Criterion.BoxIouTransposed | script/criterion.py:21-34 | swapping the two box lists transposes both matrices |
| Criterion.GeneralizedBoxIou | script/criterion.py:36-57 | the assertions fail exactly when some box of either list has `x1 < x0` or `y1 < y0`; otherwise the result is the N×M matrix of pairwise GIoU |
| Criterion.GeneralizedBoxIouTransposed | script/criterion.py:36-57 | swapping the two box lists fails in the same cases and otherwise transposes the matrix |
| Criterion.Count | script/criterion.py:71-79 | the number of kept positions is at most the mask's length |
| Criterion.Select | script/criterion.py:74-78 | selecting with a mask keeps as many entries as the mask has true entries |
| Criterion.KeptFromFacts | script/criterion.py:74-78 | the kept indices are strictly increasing and are exactly the positions whose mask entry is true |
| Criterion.SelectAt | script/criterion.py:74-78 | entry k of the selection is the input at the k-th kept index |
| Criterion.SelectKeepsMarkedInOrder | script/criterion.py:71-79 | the selection keeps exactly the entries whose mask is true, in their original order, and has `Count(mask)` entries |
| Criterion.SelectAppend | script/criterion.py:71-79 | selecting from a concatenation concatenates the selections |
| Criterion.SelectUniform | script/criterion.py:71-79 | an all-true mask keeps everything and an all-false mask keeps nothing |
| Criterion.SelectQuad | script/criterion.py:71-75 | the four coordinates of one row, under four copies of its mask entry, are kept whole or dropped whole |
| Criterion.SelectCoordsStep | script/criterion.py:71-75 | selecting the coordinates of a row list peels off the first row |
| Criterion.RowsOfQuad | script/criterion.py:75-79 | regrouping into rows of four splits off the first four coordinates as one row |
| Criterion.BroadcastSelectCases | script/criterion.py:74-78 | `masked_select` with row broadcasting: an aligned mask selects row by row, a one-entry mask keeps every row or none, and a one-row tensor is kept once for every true mask entry |
| Criterion.OneEntryMaskBroadcast | script/criterion.py:71-79 | with a one-entry mask, two equally long box tensors agree in shape, and all their rows are kept when the entry is true and none otherwise |
| Criterion.SelectRepeat4 | script/criterion.py:71-79 | `masked_select` on the flattened coordinates with the mask repeated four times keeps `4 * Count(mask)` values, and regrouping them in fours gives the rows the mask keeps |
| Criterion.MaskedRows | script/criterion.py:71-79 | the rows `masked_select(...).reshape(-1, 4)` yields are the row-level selection of the mask |
| Criterion.L1Sum | script/criterion.py:82-83 | the summed absolute coordinate difference is at least zero |
| Criterion.L1SumZeroIff | script/criterion.py:82-83 | the L1 sum is zero exactly when the two row lists are equal |
| Criterion.ToCorners | script/criterion.py:85 | every row is converted to corner form, position by position |
| Criterion.Diag | script/criterion.py:85 | `torch.diag` of a square matrix gives entry (i, i) at position i |
| Criterion.MutiLoss | script/criterion.py:66-89 | the loss fails with a shape mismatch exactly when a box tensor does not broadcast against the mask (their row counts differ and neither is 1) or broadcasting leaves different numbers of kept predictions and targets; it fails as `generalized_box_iou`'s assertion does exactly when a kept prediction or target has negative width or height |
| Criterion.LossOfKeptRows | script/criterion.py:82-88 | on the kept rows, the loss fails exactly when a row has negative width or height |
| Criterion.PairGiou | script/criterion.py:85 | a well-defined pair of rows has a finite GIoU in [−1, 1] |
| Criterion.PairedGiouLossSum | script/criterion.py:85-86 | summing `1 - GIoU` over the pairs gives `PairedGiouLoss` as a finite value |
| Criterion.PairedGiouLossBounds | script/criterion.py:85-86 | the summed `1 - GIoU` of n well-defined pairs lies in [0, 2n] |
| Criterion.GiouLossIsPaired | script/criterion.py:85-86 | the diagonal of the pairwise GIoU matrix gives the pairwise `1 - GIoU` sum divided by `num_boxes` |
| Criterion.LossOfKeptRowsValue | script/criterion.py:82-88 | with a non-zero count and well-defined pairs, the loss is `L1Sum / num_boxes + PairedGiouLoss / num_boxes` |
| Criterion.UnitWeights | script/criterion.py:63-88 | with both weights 1, the weighted total is the plain sum of the two terms |
| Criterion.MutiLossValue | script/criterion.py:66-89 | with a non-zero count and well-defined kept pairs, the loss is the L1 term plus the GIoU term over the masked rows |
| Criterion.PositiveBoxAgainstItself | script/criterion.py:21-57 | a box with positive width and height has a positive union and GIoU 1 with itself |
| Criterion.PairedGiouLossOfItself | script/criterion.py:85-86 | pairs whose GIoU is 1 contribute a total of zero |
| Criterion.MutiLossOfIdenticalBoxes | script/criterion.py:66-89 | identical predictions and targets whose kept boxes have positive width and height give a loss of exactly 0 |
| Criterion.MutiLossNonNegative | script/criterion.py:66-89 | with a positive count and well-defined kept pairs, the loss is finite and at least zero |
| Criterion.MutiLossWithZeroCount | script/criterion.py:83-86 | with `num_boxes == 0`, every loss that passes the shape and corner checks is non-finite |
| LanguageModel.ApplyLinear | model/language_model.py:22 | a linear layer maps `inDim` values to `outDim` values |
| LanguageModel.LinearRows | model/language_model.py:22 | a linear layer applied at every position gives a matrix of width `outDim` |
| LanguageModel.Relu | model/language_model.py:26 | ReLU keeps non-negative entries and turns negative entries into 0 |
| LanguageModel.MlpDims | model/language_model.py:19-22 | for `num_layers` ≥ 1 there are exactly `num_layers` (in, out) pairs, and one pair otherwise; the first reads `input_dim`, the last writes `output_dim`, and every interior boundary is `hidden_dim` |
| LanguageModel.MlpBuiltIsChained | model/language_model.py:16-22 | a freshly built MLP has at least one layer; each layer writes the width the next one reads; the first reads `input_dim` and the last writes `output_dim` |
| LanguageModel.MlpPrefix | model/language_model.py:24-27 | after k layers, the value has the width of layer k's output |
| LanguageModel.MlpApply | model/language_model.py:24-27 | the MLP's output has the last layer's output width |
| LanguageModel.MlpForward | model/language_model.py:24-27 | the loop over the layers computes `MlpApply` |
| LanguageModel.MlpActivations | model/language_model.py:26 | after each layer before `num_layers - 1` every value is at least 0; after any later layer the value is that layer's raw output |
| LanguageModel.MlpRows | model/language_model.py:24-27 | an MLP applied at every position keeps the positions and gives the last layer's width |
| LanguageModel.Clones | model/language_model.py:30-31 | `_get_clones(module, N)` gives N entries, each equal to the module |
| LanguageModel.FreshLayerNorm | model/language_model.py:34-39 | a new layer norm has `features` gains equal to 1 and `features` shifts equal to 0 |
| LanguageModel.Normalize | model/language_model.py:41-44 | the layer norm keeps the width of a position |
| LanguageModel.NormalizeRows | model/language_model.py:41-44 | the layer norm keeps the shape of a sequence |
| LanguageModel.MaskedFill | model/language_model.py:147-148 | score (i, j) becomes −1e9 exactly when its broadcast mask entry is 0, and every other score is unchanged |
| LanguageModel.MaskedFillIdempotent | model/language_model.py:147-148 | masking twice is the same as masking once |
| LanguageModel.MaskedFillIgnoresMasked | model/language_model.py:147-148 | the scores at masked positions do not affect the result |
| LanguageModel.MaskedFillAllowAll | model/language_model.py:147-148 | a mask with no zero entry leaves the scores unchanged, whatever its broadcast shape |
| LanguageModel.MaskKeyBroadcast | model/language_model.py:147-148 | mask rows of a single entry act as that entry repeated for every key |
| LanguageModel.MaskBroadcast | model/language_model.py:147-170 | a single mask row acts as that row repeated for every query |
| LanguageModel.MaskScores | model/language_model.py:147-148 | with no mask the scores are unchanged; with a mask they are the masked fill |
| LanguageModel.Column | model/language_model.py:144 | column c has one entry per row, namely that row's entry c |
| LanguageModel.MatMul | model/language_model.py:144-152 | the product of an (n × m) and an (m × cols) matrix is an (n × cols) matrix |
| LanguageModel.Scores | model/language_model.py:143-144 | score (i, j) is query i dot key j, times `1/sqrt(d_k)` |
| LanguageModel.Attention | model/language_model.py:142-152 | `attention` returns a (queries × d_v) output, and weights whose row i is the softmax of the masked scores of query i |
| LanguageModel.AttentionIgnoresMaskedKeys | model/language_model.py:142-152 | the attention weights do not depend on keys at masked positions |
| LanguageModel.Head | model/language_model.py:173 | head i of a sample is columns `i*d_k .. i*d_k + d_k - 1` of every position |
| LanguageModel.Columns | model/language_model.py:173 | a column range of every row is a matrix of that many columns |
| LanguageModel.SplitHeads | model/language_model.py:173 | `view(..., h, d_k).transpose(1, 2)` gives h heads; head i is `Head(x, h, d_k, i)` |
| LanguageModel.FlattenBlock | model/language_model.py:178 | block i of w entries of the flattened rows is row i |
| LanguageModel.FlattenBlocks | model/language_model.py:178 | every block i of w entries of the flattened rows is row i |
| LanguageModel.MergeHeads | model/language_model.py:178 | `transpose(1, 2).contiguous().view(..., h * d_k)` gives a (len × h·d_k) matrix |
| LanguageModel.MergedBlock | model/language_model.py:178 | in the merged tensor, columns `i*d_k .. i*d_k + d_k - 1` of position s are head i's row s |
| LanguageModel.HeadsAt | model/language_model.py:178 | the merged row at position s has width h·d_k, and block i of it is head i's row s |
| LanguageModel.SplitThenMerge | model/language_model.py:173-178 | merging the split heads gives back the tensor |
| LanguageModel.MergeThenSplit | model/language_model.py:173-178 | splitting the merged heads gives back the heads |
| LanguageModel.HeadDim | model/language_model.py:160-161 | the head width exists exactly when `h > 0` and `d_model % h == 0`, and then `d_k * h == d_model`; `h == 0` and a remainder fail with distinct errors |
| LanguageModel.MultiHeadAttend | model/language_model.py:167-180 | the output has shape (len × d_model); the weights are h (queries × keys) matrices; head i's weights are `attention` on head i of the projected query, key and value |
| LanguageModel.MultiHeadIgnoresMaskedKeys | model/language_model.py:167-180 | no head's attention weights depend on keys at masked positions |
| LanguageModel.MultiHeadAttention.constructor | model/language_model.py:158-164 | the module holds the given h, d_k and projections, and `attn` starts as `None` |
| LanguageModel.MultiHeadAttention.Create | model/language_model.py:158-164 | construction fails exactly when `HeadDim` fails, with its error; otherwise the module is fresh, `h * d_k == d_model`, it holds four clones of the projection, and `attn` is `None` |
| LanguageModel.MultiHeadAttention.Forward | model/language_model.py:167-180 | each sample's output is `MultiHeadAttend`'s output, and `attn` then holds every sample's attention weights |
| LanguageModel.FeedForwardApply | model/language_model.py:190-191 | the position-wise feed-forward block maps a position to `w_2`'s output width |
| LanguageModel.FeedForwardIsMlp | model/language_model.py:183-191 | the feed-forward block computes the same as a two-layer `MLP` of `w_1` and `w_2` |
| LanguageModel.FeedForwardRows | model/language_model.py:190-191 | the feed-forward block keeps the shape of a sequence |
| LanguageModel.RunSublayer | model/language_model.py:138-140 | either sublayer keeps the shape of its input |
| LanguageModel.SublayerConnection | model/language_model.py:72-73 | the output keeps the input's shape; entry (i, c) is the unnormalised input plus the sublayer's value on the normalised input |
| LanguageModel.SublayerConnectionResidual | model/language_model.py:72-73 | a sublayer contributing zeros leaves the input unchanged |
| LanguageModel.MakeEncoderLayer | model/language_model.py:130-135 | a new layer holds the given blocks and exactly two sublayer connections, each with a fresh layer norm |
| LanguageModel.MakeEncoderLayerOk | model/language_model.py:130-135 | a layer made from well-formed blocks is well formed |
| LanguageModel.EncoderLayerForward | model/language_model.py:137-140 | an encoder layer keeps the shape of its input |
| LanguageModel.EncoderLayerWiring | model/language_model.py:137-140 | connection 0 adds self-attention with query = key = value = the normalised input; connection 1 adds the feed-forward block applied to the normalised output of connection 0 |
| LanguageModel.MakeEncoder | model/language_model.py:116-119 | `Encoder(layer, N)` holds N copies of the layer and a fresh layer norm of the layer's size |
| LanguageModel.ApplyLayers | model/language_model.py:122-123 | running a list of layers keeps the shape |
| LanguageModel.LayersOkAppend | model/language_model.py:122-123 | two lists of well-formed layers make a well-formed list |
| LanguageModel.ApplyLayersAppend | model/language_model.py:122-123 | running `a + b` is running `a`, then `b` on its output, with the same mask |
| LanguageModel.Iterate | model/language_model.py:122-123 | applying a layer n times keeps the shape |
| LanguageModel.ClonedLayersIterate | model/language_model.py:118-123 | an encoder of N clones applies its layer N times in succession, always under the same mask |
| LanguageModel.EncoderApply | model/language_model.py:121-124 | the encoder keeps the shape of its input |
| LanguageModel.EncoderForward | model/language_model.py:121-124 | the loop over the layers, followed by the final norm once, computes `EncoderApply` |
| LanguageModel.EmbedRow | model/language_model.py:58-59 | an embedded token has `d_model` values |
| LanguageModel.Embed | model/language_model.py:58-59 | the lookup succeeds exactly when every id is in the vocabulary; row i is then the table row of token i scaled by `sqrt(d_model)` |
| LanguageModel.InVocabAppend | model/language_model.py:58-59 | a concatenation is in the vocabulary exactly when both parts are |
| LanguageModel.EmbedAppend | model/language_model.py:58-59 | the lookup is position-wise: embedding a concatenation concatenates the embeddings, and fails exactly when one part fails |
| LanguageModel.Concat3 | model/language_model.py:104 | `torch.cat(..., dim=-1)` of three width-d tensors gives width 3·d, with the three rows side by side in order |
| LanguageModel.AddPositions | model/language_model.py:106 | the positional encoding adds table row i to position i and keeps the shape |
| LanguageModel.MixInput | model/language_model.py:83-105 | `mix_net`'s input has width 3·d_model, which is the width of its first layer; its columns are the class embedding, then the box embedding, then the image features |
| LanguageModel.LanguageModelForward | model/language_model.py:101-108 | the forward pass succeeds exactly when the labels are in the vocabulary, the shapes fit, the sequence fits the position table and the mask fits; it then gives 4 values per position |
| LanguageModel.ForwardSample | model/language_model.py:105-108 | `mix_net`, positions, encoder, generator and sigmoid give 4 values per position |
| LanguageModel.Mixed | model/language_model.py:105 | `mix_net` brings every position back to `d_model` values |
| LanguageModel.Generate | model/language_model.py:108 | the generator followed by the sigmoid gives 4 values per position |
| Training.BestIsMinimum | train2.py:119-142 | `best_perform` is infinite exactly before the first epoch; afterwards it is one of the losses seen and at most every one of them |
| Training.ImprovesIff | train2.py:141-143 | an epoch improves exactly when its loss is strictly below every earlier loss; an equal loss does not improve |
| Training.BestNeverIncreases | train2.py:141-142 | after the first epoch, `best_perform` never goes up |
| Training.StreakBound | train2.py:119-151 | the first epoch always improves, so a run of k epochs ends in at most k − 1 non-improving epochs in a row |
| Training.BestEpoch | train2.py:141-142 | the epoch whose loss is `best_perform` lies within the epochs run |
| Training.BestCheckpointSaved | train2.py:145-146 | the best epoch's checkpoint is always among the files kept |
| Training.StaleCheckpointKept | train2.py:145-146 | with losses 1.0, 2.0, 0.5 the checkpoints of epochs 1 and 3 are both kept |
| Training.SavedKeepingBestIsBest | train2.py:145-146 | with the corrected bookkeeping, exactly one checkpoint is kept, the best epoch's |
| Training.EarlyStopping | train2.py:119-151 | `best_perform`, the kept checkpoints and `stop_count` follow the per-epoch definitions; `stop_count` stays within 0..6; a stop happens exactly at the seventh non-improving epoch in a row, with `last_epoch` set to that epoch; without a stop, exactly `n_epochs` epochs run and `last_epoch == n_epochs` |
| Training.StopNeedsEightEpochs | train2.py:147-151 | an early stop needs at least eight epochs |
| Training.MergeFramework | train2.py:34-37 | the merged dictionary has the base keys plus `'bboxes'`; `'bboxes'` holds the new entry, overriding any base value; every other key keeps its base value |
| Training.ScaledCorners | train2.py:30-31 | the reported boxes are the kept predictions, converted to corners and scaled, one per kept row and in order |
| Training.GetResultPrint | train2.py:23-43 | sample 0's predictions and targets are what `masked_select` keeps after broadcasting against its mask; when the lengths agree, exactly the rows the mask marks, in order, `Count(mask)` of each; the dictionary is the merge of the scaled corner boxes into the base |

## Left out

- Logging, TensorBoard, the painter, `nn.DataParallel`, the optimizer, the scheduler, gradient clipping, dataset loading and the accuracy and confusion-matrix reports are not part of this model.
- `train` and `evaluate` are not modelled: `Training.EarlyStopping` takes the evaluation loss of every epoch as an input. `MULTModel` is not part of this model.
- Checkpoint files are modelled as a set of epoch numbers: `_p` files are saved and removed, with none present before the run. The state dictionary's content is not modelled. The final `_f` checkpoint (train2.py:153) is not modelled.
- Training.EarlyStopping: evaluation losses are exact reals. A `NaN` loss, which never compares below `best_perform`, is not modelled.
- Floating point is not modelled: boxes and losses are exact reals. Torch's `inf` and `NaN` are a single `NonFinite` value, and nothing is stated about how they propagate beyond "not finite".
- `box_area` is taken to be `(x1 - x0) * (y1 - y0)`.
- Layer-norm standardisation (mean and standard deviation with `eps`), softmax, square roots, `1/sqrt(d_k)` and the sigmoid are parameters. Only their width preservation is assumed, and nothing is proved about their values.
- Linear layers, layer norms and embedding tables are arbitrary data of the stated shapes. Xavier initialisation and autograd are not modelled.
- Dropout is the identity (evaluation mode), in `SublayerConnection`, `attention`, the feed-forward block and the positional encoding.
- `PositionalEncoding` is modelled as a fixed table added position-wise. model/position_encoding.py is not part of this model.
- `build_backbone` is not part of this model: its per-position image features are an input of `LanguageModel.LanguageModelForward`.
- `make_model` (model/language_model.py:195-209) is covered only through its parts (`MakeEncoder`, `MakeEncoderLayer`, `MultiHeadAttention.Create`), not as one function.
- The language model works on one sample; only `MultiHeadAttention.Forward` carries the batch axis. Torch's shape errors become preconditions or, in `LanguageModelForward` and `Embed`, a `None` result.
- LanguageModel.Embed: `tokens.long()` truncation of non-integer ids is not modelled; ids are integers.
- LanguageModel.HeadDim: `h` is a natural number, so a negative head count is not modelled. With `d_model = 0` the head width is 0, and what `1/sqrt(0)` then gives is left to the square-root parameter.
- LanguageModel.MergeHeads: its own contract states only the shape; the layout is stated by `MergedBlock`, `HeadsAt`, `SplitThenMerge` and `MergeThenSplit`.
- LanguageModel.LanguageModelForward: states when the forward pass succeeds and the output's shape, not its values. The values are fixed by `ForwardSample` and the lemmas about its parts.
- Criterion.LossOfKeptRowsValue: states the value with both weights at 1, as `__init__` sets them (`UnitWeights`).
- Criterion.MutiLossValue: states the value with both weights at 1, as `__init__` sets them (`UnitWeights`).
- Criterion.MutiLoss: `num_boxes` is used with no guard, as in the code. A zero count is not excluded by a precondition, and no zero-count fallback is invented: the result is non-finite (`MutiLossWithZeroCount`).
- Criterion.MutiLoss: when broadcasting leaves different numbers of kept predictions and targets (possible only with a one-entry mask and box tensors of different lengths), torch would broadcast once more in `l1_loss` or fail there, and take the diagonal of a non-square GIoU matrix; the model reports a shape mismatch instead.
- LanguageModel.EncoderLayerForward: the source's self-attention call goes through `MultiHeadAttention.forward`, which overwrites that module's `attn` field; the encoder layers here call the value-level `MultiHeadAttend`, so the attention weights are not recorded on the layer's attention module.
- Training.GetResultPrint: `box_cxcywh_to_xyxy` (imported from a module outside this model) is taken to be the same conversion as `tensor_cxcywh_to_xyxy`. `scale` is a parameter. The logging of `name` and `labels` appears only as the requirement that both keys exist.

## Findings

| source | as written | input that shows it | evidently intended | confidence | as-written member | corrected member |
|---|---|---|---|---|---|---|
| train2.py:141-146 | an improving epoch saves its own `_p` checkpoint and removes only the checkpoint of the epoch just before it | evaluation losses 1.0, 2.0, 0.5: epoch 3 removes the (absent) file of epoch 2, so the stale best checkpoint of epoch 1 stays beside that of epoch 3 | an improvement replaces the previous best checkpoint, so only the best epoch's file is kept | medium, not executed | Training.StaleCheckpointKept | Training.SavedKeepingBestIsBest |
