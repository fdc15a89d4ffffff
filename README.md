# Token-embedding pooling (fastembed-rs `src/pooling.rs`)

This project models the pooling step of an embedding pipeline. An encoder gives
one embedding per token: a tensor of shape (batch, sequence length, hidden). The
pooler turns it into one embedding per batch row, of shape (batch, hidden).
There are two strategies, named by the `Pooling` enum:

- **CLS pooling** takes the embedding at sequence position 0 of every row.
- **Mean pooling** weights every token embedding by its attention-mask entry
  and sums over the sequence axis. It divides by the sum of the mask, and a
  zero sum is clamped to 1 first. A fully masked row therefore pools to the
  zero vector instead of a division by zero.

Modules:

- `MaskedAverage` (`masked_average.dfy`) holds the arithmetic for one batch row
  and one hidden index. It defines the weighted sum, the mask total, the zero
  clamp and the resulting `MaskedMean`. It also defines an independent
  reference, `ArithMean(Selected(v, w))`: the plain mean of the values at the
  positions whose mask entry is 1. The lemmas connect the two.
- `Pooling` (`pooling.dfy`) holds the tensors and the two operations. `Cls`
  models `cls`. `MeanPool` models `mean` stage by stage: `ExpandMask` (insert
  axis, broadcast, cast), `Multiply`, `SumOverSequence`, `ClampZeros` and
  `Divide`. Its contract proves that the staged tensor computation equals the
  row-level `MaskedMean` at every entry. The tensor-level properties follow
  from that.

Tensors carry their shape explicitly (`Shape3`, `Tensor2`), so that a tensor
with an empty batch still has a sequence length. `f32` values are modelled as
`real`, and the mask cast `x as f32` as `x as real`. The source panics in two
places: the slice at position 0 when the sequence axis is empty, and the
`expect` on a failed broadcast. Both are modelled as an `Err` result, and the
contracts say exactly when each happens.

Mean pooling uses ndarray's `broadcast` to fit the mask to the embeddings. Each
mask axis must equal the embeddings' axis or be 1, and an axis of length 1 is
repeated; any other mismatch fails. `Broadcastable` and `MaskRow` model that
rule. `MeanBroadcastsSingleMaskRow` states its effect on the batch axis and
`MeanBroadcastsSingleMaskColumn` its effect on the sequence axis. Mask entries
other than 0 and 1 are not rejected. They act as arbitrary integer weights, and
`MeanPool`'s contract covers them.

## Model

| member | source | states |
|---|---|---|
| `MaskedAverage.Total` | src/pooling.rs:35 | the sum of one row's mask entries, the denominator before the clamp |
| `MaskedAverage.WeightedSum` | src/pooling.rs:34 | the sum of one column's values, each multiplied by its mask entry, the numerator |
| `MaskedAverage.MaskedMean` | src/pooling.rs:34-37 | the value mean pooling gives for one column and one mask row: the weighted sum over the clamped mask total |
| `MaskedAverage.Clamped` | src/pooling.rs:36 | the clamped denominator is never zero; a nonzero sum is kept and a zero sum becomes 1 |
| `MaskedAverage.Selected` | src/pooling.rs:34 | the values kept for a mask row are no more than the inputs and are all drawn from them |
| `MaskedAverage.ValidCount` | src/pooling.rs:35 | the number of valid positions is at most the row length, and it is zero exactly when no mask entry is 1 |
| `MaskedAverage.SelectedLength` | src/pooling.rs:34-35 | one value is selected per position whose mask entry is 1 |
| `MaskedAverage.TotalIsValidCount` | src/pooling.rs:35 | under a 0/1 mask, the mask sum equals the number of valid tokens |
| `MaskedAverage.WeightedSumIsSelectedSum` | src/pooling.rs:34 | under a 0/1 mask, the masked sum equals the sum of the embeddings at exactly the valid positions |
| `MaskedAverage.SumAppend` | src/pooling.rs:34-35 | a sum over a concatenation is the sum of the two parts |
| `MaskedAverage.ZeroMaskContributesNothing` | src/pooling.rs:34-35 | an all-zero mask row gives a zero masked sum and a zero mask sum |
| `MaskedAverage.MaskedMeanIsMeanOfValid` | src/pooling.rs:34-37 | with a 0/1 mask marking at least one token valid, the pooled value is the arithmetic mean of the valid tokens' values |
| `MaskedAverage.MaskedMeanOfFullyMaskedIsZero` | src/pooling.rs:36-37 | a fully masked row pools to 0, because the clamp turns the zero denominator into 1 |
| `MaskedAverage.MaskedMeanScalesBack` | src/pooling.rs:36-37 | for any weights, the pooled value times a nonzero mask sum gives back the masked sum; with a zero mask sum it is the masked sum itself |
| `MaskedAverage.MaskedMeanIgnoresPadding` | src/pooling.rs:34-35 | appending a position with mask 0, whatever its value, leaves the pooled value unchanged |
| `MaskedAverage.ConstantMaskScales` | src/pooling.rs:34-35 | a mask row weighting every position by c scales the weighted sum by c, and its total is c times the length |
| `MaskedAverage.MaskedMeanOfConstantMask` | src/pooling.rs:34-37 | a nonempty row whose positions all carry the same nonzero weight pools to the plain mean of its values |
| `MaskedAverage.MaskedMeanOfSingleToken` | src/pooling.rs:34-37 | a single token with mask 1 pools to its own value |
| `Pooling.Cls` | src/pooling.rs:13-17 | fails exactly when the sequence length is 0; otherwise the result has shape (batch, hidden) and entry (b, h) is the embedding at (b, 0, h) |
| `Pooling.ClsReadsOnlyFirstPosition` | src/pooling.rs:16 | two inputs that agree at position 0 of every row give the same CLS result |
| `Pooling.Broadcastable` | src/pooling.rs:30-31 | the mask broadcasts exactly when each of its axes equals the embeddings' axis or is 1 |
| `Pooling.BroadcastIndex` | src/pooling.rs:30-31 | a broadcast axis reads in range; an axis whose length equals the target's reads the same index |
| `Pooling.MaskRow` | src/pooling.rs:28-31 | the broadcast mask row has the sequence length; it is the mask's own row when the shapes are equal; a one-row mask supplies its single row to every batch row, and a one-column mask repeats row b's entry at every position |
| `Pooling.ExpandMask` | src/pooling.rs:28-32 | succeeds exactly when each mask axis equals the embeddings' or is 1; the result has the embeddings' shape and repeats the mask value, as a real, across the hidden axis |
| `Pooling.Multiply` | src/pooling.rs:34 | the element-wise product keeps the shape and multiplies entry by entry |
| `Pooling.SumOverSequence` | src/pooling.rs:34-35 | summing over the sequence axis gives shape (batch, hidden), with each entry the sum of its column |
| `Pooling.ClampZeros` | src/pooling.rs:36 | every entry is its clamped value: a zero becomes 1 and any other entry is kept, so no entry is zero |
| `Pooling.Divide` | src/pooling.rs:37 | each quotient times its divisor gives back the dividend |
| `Pooling.MeanPool` | src/pooling.rs:24-38 | fails exactly when the mask does not broadcast to the embeddings; otherwise the result has shape (batch, hidden) and entry (b, h) is the masked mean of column (b, h) under the broadcast mask row b |
| `Pooling.EntryIsMaskedMean` | src/pooling.rs:34-37 | the pipeline's numerator over its clamped denominator at (b, h) equals the row-level masked mean, and the denominator is nonzero |
| `Pooling.SumOfProducts` | src/pooling.rs:34 | summing embedding-times-mask products over the sequence gives the weighted sum |
| `Pooling.SumOfWeights` | src/pooling.rs:35 | summing the mask entries cast to reals gives the mask total |
| `Pooling.MaskSumIsValidTokenCount` | src/pooling.rs:28-35 | the mask sum at (b, h) is the total of mask row b for every h; under a 0/1 mask it is the number of valid tokens |
| `Pooling.MeanIsAverageOfValidTokens` | src/pooling.rs:34-37 | under a 0/1 mask with a valid token in row b, entry (b, h) is the arithmetic mean of the embeddings at the valid positions |
| `Pooling.FullyMaskedRowPoolsToZero` | src/pooling.rs:36-37 | a row whose mask is all zeros pools to the zero vector |
| `Pooling.MeanIgnoresAppendedPadding` | src/pooling.rs:34-35 | appending a position masked out in row b, with any embedding, leaves pooled row b unchanged |
| `Pooling.MeanBroadcastsSingleMaskColumn` | src/pooling.rs:28-37 | with a one-column mask whose entry for row b is nonzero, entry (b, h) is the plain mean of the whole column (b, h) |
| `Pooling.AppendedColumn` | src/pooling.rs:34 | a column of the extended embeddings is the old column plus the appended entry |
| `Pooling.AppendedMaskRow` | src/pooling.rs:35 | a row of the extended mask is the old row plus 0 |
| `Pooling.MeanOfSingleTokenIsCls` | src/pooling.rs:13-37 | with sequence length 1 and mask 1 in row b, mean pooling and CLS pooling give the same row |
| `Pooling.MeanBroadcastsSingleMaskRow` | src/pooling.rs:28-31 | a one-row mask gives the same result as that row repeated for every batch row |
| `Pooling.SampleColumnMean` | src/pooling.rs:34-37 | under mask [1, 1, 0] a three-token column pools to the mean of its first two values |
| `Pooling.SampleMeanPool` | src/pooling.rs:24-38 | embeddings [[1,2],[3,4],[5,6]] with mask [1,1,0] pool to [2, 3] |
| `Pooling.SampleMeanPoolEntry` | src/pooling.rs:24-38 | each entry of the [1,1,0] sample is the mean of its column's first two values: 2 and 3 |
| `Pooling.SampleCls` | src/pooling.rs:13-17 | CLS pooling of the same embeddings gives [1, 2] |
| `Pooling.SampleFullyMasked` | src/pooling.rs:24-38 | the same embeddings with mask [0,0,0] pool to [0, 0] |
| `Pooling.SampleShapeMismatch` | src/pooling.rs:28-31 | embeddings of shape (2, 3, 4) with a mask of shape (2, 5) are refused with a shape error |

## Left out

- `f32` arithmetic: rounding, NaN and infinity propagation, and the rounding of large `i64` mask values in the `as f32` cast. Values are reals, so the model keeps the algebra but not the rounding. Only the zero clamp prevents division by zero.
- Embedding tensors of rank other than 3. The input type is a fixed rank-3 tensor, so a rank mismatch cannot be expressed.
- ndarray's storage details: views versus owned arrays, dynamic dimensions and the copy made by `to_owned`. The model works on values.
- ndarray's check that the broadcast shape's element count fits in `isize`. It is not modelled, and such a broadcast succeeds in the model.
- The panic message text and the process abort. A panic is modelled as an `Err` result that names the failing shape.
- The external reference implementation cited in the comments.
- The `Pooling` enum (src/pooling.rs:4-7): a bare two-variant tag with no behaviour in this file, and no code here dispatches on it. The model names the two operations, `Cls` and `MeanPool`, directly; the caller that picks one is not part of this model.
