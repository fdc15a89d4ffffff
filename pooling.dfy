/**
 Pooling of per-token embeddings into one embedding per batch row.

 Token embeddings are a rank-3 tensor of shape (batch, seqLen, hidden); the
 attention mask is a rank-2 integer tensor; a pooled result is a rank-2 tensor
 of shape (batch, hidden). Tensors carry their shape explicitly, so that a
 tensor with an empty batch still has a sequence length and a hidden size.
 Floats are modelled as reals: the algebra is kept, rounding is not.
 */
module Pooling {
  import opened MaskedAverage

  /** Why an operation could not produce a result (the source panics). */
  datatype PoolError =
    | IndexOutOfBounds(seqLen: nat)
    | IncompatibleShapes(maskRows: nat, maskCols: nat, target: Shape3)

  datatype Result<T> = Ok(value: T) | Err(error: PoolError)

  datatype Shape3 = Shape3(batch: nat, seqLen: nat, hidden: nat)

  /** A rank-3 tensor of reals with its shape. */
  datatype Tensor3 = Tensor3(shape: Shape3, data: seq<seq<seq<real>>>)
  {
    predicate Valid()
    {
      && |data| == shape.batch
      && (forall b :: 0 <= b < |data| ==> |data[b]| == shape.seqLen)
      && (forall b, l :: 0 <= b < |data| && 0 <= l < |data[b]| ==> |data[b][l]| == shape.hidden)
    }
  }

  /** A rank-2 tensor with its shape. */
  datatype Tensor2<T> = Tensor2(rows: nat, cols: nat, data: seq<seq<T>>)
  {
    predicate Valid()
    {
      && |data| == rows
      && (forall b :: 0 <= b < |data| ==> |data[b]| == cols)
    }
  }

  /** The values one hidden index takes along the sequence axis of one batch row. */
  function Column(e: Tensor3, b: nat, h: nat): (c: seq<real>)
    requires e.Valid() && b < e.shape.batch && h < e.shape.hidden
    ensures |c| == e.shape.seqLen
    ensures forall l :: 0 <= l < |c| ==> c[l] == e.data[b][l][h]
  {
    seq(e.shape.seqLen, l requires 0 <= l < e.shape.seqLen => e.data[b][l][h])
  }

  // ---------------------------------------------------------------------
  // CLS pooling
  // ---------------------------------------------------------------------

  /**
   CLS pooling: the embedding at sequence position 0 of every batch row.
   Reading position 0 of an empty sequence axis is an out-of-bounds error.
   */
  function Cls(e: Tensor3): (r: Result<Tensor2<real>>)
    requires e.Valid()
    ensures r.Ok? <==> e.shape.seqLen >= 1
    ensures r.Err? ==> r.error == IndexOutOfBounds(e.shape.seqLen)
    ensures r.Ok? ==> r.value.Valid() && r.value.rows == e.shape.batch && r.value.cols == e.shape.hidden
    ensures r.Ok? ==> forall b, h :: 0 <= b < e.shape.batch && 0 <= h < e.shape.hidden ==>
                        r.value.data[b][h] == e.data[b][0][h]
  {
    if e.shape.seqLen == 0 then Err(IndexOutOfBounds(0))
    else
      Ok(Tensor2(e.shape.batch, e.shape.hidden,
        seq(e.shape.batch, b requires 0 <= b < e.shape.batch => e.data[b][0])))
  }

  /** CLS pooling reads nothing but position 0: tensors that agree there pool alike. */
  lemma ClsReadsOnlyFirstPosition(e: Tensor3, f: Tensor3)
    requires e.Valid() && f.Valid() && e.shape == f.shape && e.shape.seqLen >= 1
    requires forall b :: 0 <= b < e.shape.batch ==> e.data[b][0] == f.data[b][0]
    ensures Cls(e) == Cls(f)
  {
    var r, s := Cls(e).value, Cls(f).value;
    assert r.data == s.data by {
      forall b | 0 <= b < e.shape.batch ensures r.data[b] == s.data[b] {
        assert |r.data[b]| == |s.data[b]| == e.shape.hidden;
        forall h | 0 <= h < e.shape.hidden ensures r.data[b][h] == s.data[b][h] {
          assert r.data[b][h] == e.data[b][0][h] == f.data[b][0][h] == s.data[b][h];
        }
      }
    }
  }

  // ---------------------------------------------------------------------
  // Mean pooling, stage by stage
  // ---------------------------------------------------------------------

  /**
   Whether a mask of shape (rows, cols), lifted to (rows, cols, 1), broadcasts
   to `target`: each axis must equal the target's or be 1. The inserted axis
   has length 1 and always broadcasts.
   */
  predicate Broadcastable(m: Tensor2<int>, target: Shape3)
  {
    && (m.rows == target.batch || m.rows == 1)
    && (m.cols == target.seqLen || m.cols == 1)
  }

  /** The index a broadcast axis of length `dim` reads for target index `i`. */
  function BroadcastIndex(dim: nat, target: nat, i: nat): (j: nat)
    requires dim == target || dim == 1
    requires i < target
    ensures j < dim
    ensures dim == target ==> j == i
  {
    if dim == target then i else 0
  }

  /** The mask row that batch row `b` is weighted by after broadcasting. */
  function MaskRow(m: Tensor2<int>, target: Shape3, b: nat): (w: seq<int>)
    requires m.Valid() && Broadcastable(m, target) && b < target.batch
    ensures |w| == target.seqLen
    ensures m.rows == target.batch && m.cols == target.seqLen ==> w == m.data[b]
    ensures m.rows == 1 ==> forall l :: 0 <= l < |w| ==> w[l] == m.data[0][BroadcastIndex(m.cols, target.seqLen, l)]
    ensures m.cols == 1 ==> forall l :: 0 <= l < |w| ==> w[l] == m.data[BroadcastIndex(m.rows, target.batch, b)][0]
  {
    var bi := BroadcastIndex(m.rows, target.batch, b);
    seq(target.seqLen, l requires 0 <= l < target.seqLen =>
      m.data[bi][BroadcastIndex(m.cols, target.seqLen, l)])
  }

  /**
   The mask lifted to a third axis, broadcast to the embeddings' shape and
   converted to reals. Broadcasting fails, rather than truncating or padding,
   when an axis differs and is not 1.
   */
  function ExpandMask(m: Tensor2<int>, target: Shape3): (r: Result<Tensor3>)
    requires m.Valid()
    ensures r.Ok? <==> Broadcastable(m, target)
    ensures r.Err? ==> r.error == IncompatibleShapes(m.rows, m.cols, target)
    ensures r.Ok? ==> r.value.Valid() && r.value.shape == target
    ensures r.Ok? ==> forall b, l, h :: 0 <= b < target.batch && 0 <= l < target.seqLen && 0 <= h < target.hidden ==>
                        r.value.data[b][l][h] == MaskRow(m, target, b)[l] as real
  {
    if !Broadcastable(m, target) then Err(IncompatibleShapes(m.rows, m.cols, target))
    else
      Ok(Tensor3(target,
        seq(target.batch, b requires 0 <= b < target.batch =>
          var w := MaskRow(m, target, b);
          seq(target.seqLen, l requires 0 <= l < target.seqLen =>
            seq(target.hidden, h => w[l] as real)))))
  }

  /** Element-wise product of two tensors of one shape. */
  function Multiply(a: Tensor3, c: Tensor3): (r: Tensor3)
    requires a.Valid() && c.Valid() && a.shape == c.shape
    ensures r.Valid() && r.shape == a.shape
    ensures forall b, l, h :: 0 <= b < a.shape.batch && 0 <= l < a.shape.seqLen && 0 <= h < a.shape.hidden ==>
              r.data[b][l][h] == a.data[b][l][h] * c.data[b][l][h]
  {
    var s := a.shape;
    Tensor3(s,
      seq(s.batch, b requires 0 <= b < s.batch =>
        seq(s.seqLen, l requires 0 <= l < s.seqLen =>
          seq(s.hidden, h requires 0 <= h < s.hidden => a.data[b][l][h] * c.data[b][l][h]))))
  }

  /** Sum over the sequence axis: shape (batch, seqLen, hidden) becomes (batch, hidden). */
  function SumOverSequence(t: Tensor3): (r: Tensor2<real>)
    requires t.Valid()
    ensures r.Valid() && r.rows == t.shape.batch && r.cols == t.shape.hidden
    ensures forall b, h :: 0 <= b < t.shape.batch && 0 <= h < t.shape.hidden ==>
              r.data[b][h] == Sum(Column(t, b, h))
  {
    Tensor2(t.shape.batch, t.shape.hidden,
      seq(t.shape.batch, b requires 0 <= b < t.shape.batch =>
        seq(t.shape.hidden, h requires 0 <= h < t.shape.hidden => Sum(Column(t, b, h)))))
  }

  /** Replace every zero entry with 1, leaving the others as they are. */
  function ClampZeros(t: Tensor2<real>): (r: Tensor2<real>)
    requires t.Valid()
    ensures r.Valid() && r.rows == t.rows && r.cols == t.cols
    ensures forall b, h :: 0 <= b < t.rows && 0 <= h < t.cols ==> r.data[b][h] == Clamped(t.data[b][h])
    ensures forall b, h :: 0 <= b < t.rows && 0 <= h < t.cols ==> r.data[b][h] != 0.0
  {
    Tensor2(t.rows, t.cols,
      seq(t.rows, b requires 0 <= b < t.rows =>
        seq(t.cols, h requires 0 <= h < t.cols => Clamped(t.data[b][h]))))
  }

  /** Element-wise division by a tensor of one shape with no zero entry. */
  function Divide(n: Tensor2<real>, d: Tensor2<real>): (r: Tensor2<real>)
    requires n.Valid() && d.Valid() && n.rows == d.rows && n.cols == d.cols
    requires forall b, h :: 0 <= b < d.rows && 0 <= h < d.cols ==> d.data[b][h] != 0.0
    ensures r.Valid() && r.rows == n.rows && r.cols == n.cols
    ensures forall b, h :: 0 <= b < n.rows && 0 <= h < n.cols ==>
              r.data[b][h] * d.data[b][h] == n.data[b][h]
  {
    Tensor2(n.rows, n.cols,
      seq(n.rows, b requires 0 <= b < n.rows =>
        seq(n.cols, h requires 0 <= h < n.cols => n.data[b][h] / d.data[b][h])))
  }

  /**
   Mean pooling: the mask-weighted sum of the token embeddings over the
   sequence axis, divided by the mask total with zero totals clamped to 1.
   Every entry is the row-level masked mean of its column under its
   (broadcast) mask row; it fails exactly when the mask does not broadcast.
   */
  function MeanPool(e: Tensor3, m: Tensor2<int>): (r: Result<Tensor2<real>>)
    requires e.Valid() && m.Valid()
    ensures r.Ok? <==> Broadcastable(m, e.shape)
    ensures r.Err? ==> r.error == IncompatibleShapes(m.rows, m.cols, e.shape)
    ensures r.Ok? ==> r.value.Valid() && r.value.rows == e.shape.batch && r.value.cols == e.shape.hidden
    ensures r.Ok? ==> forall b, h :: 0 <= b < e.shape.batch && 0 <= h < e.shape.hidden ==>
                        r.value.data[b][h] == MaskedMean(Column(e, b, h), MaskRow(m, e.shape, b))
  {
    match ExpandMask(m, e.shape)
    case Err(err) => Err(err)
    case Ok(expanded) =>
      var sumEmbeddings := SumOverSequence(Multiply(e, expanded));
      var sumMask := SumOverSequence(expanded);
      var result := Divide(sumEmbeddings, ClampZeros(sumMask));
      assert forall b, h :: 0 <= b < e.shape.batch && 0 <= h < e.shape.hidden ==>
               result.data[b][h] == MaskedMean(Column(e, b, h), MaskRow(m, e.shape, b)) by {
        forall b, h | 0 <= b < e.shape.batch && 0 <= h < e.shape.hidden
          ensures result.data[b][h] == MaskedMean(Column(e, b, h), MaskRow(m, e.shape, b))
        {
          EntryIsMaskedMean(e, m, expanded, b, h);
        }
      }
      Ok(result)
  }

  /** The pipeline's numerator and denominator at (b, h) are the row-level sums. */
  lemma EntryIsMaskedMean(e: Tensor3, m: Tensor2<int>, expanded: Tensor3, b: nat, h: nat)
    requires e.Valid() && m.Valid() && ExpandMask(m, e.shape) == Ok(expanded)
    requires b < e.shape.batch && h < e.shape.hidden
    ensures var d := ClampZeros(SumOverSequence(expanded)).data[b][h];
            d != 0.0 &&
            SumOverSequence(Multiply(e, expanded)).data[b][h] / d
              == MaskedMean(Column(e, b, h), MaskRow(m, e.shape, b))
  {
    var v, w := Column(e, b, h), MaskRow(m, e.shape, b);
    SumOfProducts(Column(Multiply(e, expanded), b, h), v, w);
    SumOfWeights(Column(expanded, b, h), w);
  }

  /** Summing value-times-weight products gives the weighted sum. */
  lemma {:induction false} SumOfProducts(p: seq<real>, v: seq<real>, w: seq<int>)
    requires |p| == |v| == |w|
    requires forall l :: 0 <= l < |p| ==> p[l] == v[l] * (w[l] as real)
    ensures Sum(p) == WeightedSum(v, w)
  {
    if |p| > 0 {
      var n := |p| - 1;
      SumOfProducts(p[..n], v[..n], w[..n]);
    }
  }

  /** Summing the weights converted to reals gives the mask total. */
  lemma {:induction false} SumOfWeights(p: seq<real>, w: seq<int>)
    requires |p| == |w|
    requires forall l :: 0 <= l < |p| ==> p[l] == w[l] as real
    ensures Sum(p) == Total(w) as real
  {
    if |p| > 0 {
      var n := |p| - 1;
      SumOfWeights(p[..n], w[..n]);
    }
  }

  // ---------------------------------------------------------------------
  // Properties of mean pooling
  // ---------------------------------------------------------------------

  /**
   The denominator of mean pooling at (b, h) is the total of the batch row's
   mask, the same for every hidden index; under a 0/1 mask it is the number
   of valid tokens.
   */
  lemma MaskSumIsValidTokenCount(e: Tensor3, m: Tensor2<int>, b: nat, h: nat)
    requires e.Valid() && m.Valid() && Broadcastable(m, e.shape)
    requires b < e.shape.batch && h < e.shape.hidden
    ensures SumOverSequence(ExpandMask(m, e.shape).value).data[b][h] == Total(MaskRow(m, e.shape, b)) as real
    ensures IsBinary(MaskRow(m, e.shape, b)) ==>
              SumOverSequence(ExpandMask(m, e.shape).value).data[b][h] == ValidCount(MaskRow(m, e.shape, b)) as real
  {
    var expanded := ExpandMask(m, e.shape).value;
    var w := MaskRow(m, e.shape, b);
    SumOfWeights(Column(expanded, b, h), w);
    if IsBinary(w) {
      TotalIsValidCount(w);
    }
  }

  /**
   Under a 0/1 mask, a batch row with at least one valid token pools to the
   arithmetic mean of the embeddings at exactly its valid positions.
   */
  lemma MeanIsAverageOfValidTokens(e: Tensor3, m: Tensor2<int>, b: nat, h: nat)
    requires e.Valid() && m.Valid() && Broadcastable(m, e.shape)
    requires b < e.shape.batch && h < e.shape.hidden
    requires IsBinary(MaskRow(m, e.shape, b))
    requires exists l :: 0 <= l < e.shape.seqLen && MaskRow(m, e.shape, b)[l] == 1
    ensures |Selected(Column(e, b, h), MaskRow(m, e.shape, b))| > 0
    ensures MeanPool(e, m).Ok?
    ensures MeanPool(e, m).value.data[b][h] == ArithMean(Selected(Column(e, b, h), MaskRow(m, e.shape, b)))
  {
    MaskedMeanIsMeanOfValid(Column(e, b, h), MaskRow(m, e.shape, b));
  }

  /** A batch row whose mask is all zeros pools to the zero vector. */
  lemma FullyMaskedRowPoolsToZero(e: Tensor3, m: Tensor2<int>, b: nat)
    requires e.Valid() && m.Valid() && Broadcastable(m, e.shape)
    requires b < e.shape.batch
    requires forall l :: 0 <= l < e.shape.seqLen ==> MaskRow(m, e.shape, b)[l] == 0
    ensures MeanPool(e, m).Ok?
    ensures forall h :: 0 <= h < e.shape.hidden ==> MeanPool(e, m).value.data[b][h] == 0.0
  {
    forall h | 0 <= h < e.shape.hidden ensures MeanPool(e, m).value.data[b][h] == 0.0 {
      MaskedMeanOfFullyMaskedIsZero(Column(e, b, h), MaskRow(m, e.shape, b));
    }
  }

  /**
   Appending one sequence position to every batch row leaves the pooled row
   b unchanged when the appended position is masked out in row b, whatever
   embedding it carries and whatever the other rows' mask says there.
   */
  lemma MeanIgnoresAppendedPadding(e: Tensor3, m: Tensor2<int>, e': Tensor3, m': Tensor2<int>, b: nat)
    requires e.Valid() && m.Valid() && e'.Valid() && m'.Valid()
    requires m.rows == e.shape.batch && m.cols == e.shape.seqLen
    requires e'.shape == Shape3(e.shape.batch, e.shape.seqLen + 1, e.shape.hidden)
    requires m'.rows == m.rows && m'.cols == m.cols + 1
    requires forall i :: 0 <= i < e.shape.batch ==> e'.data[i][..e.shape.seqLen] == e.data[i]
    requires forall i :: 0 <= i < m.rows ==> m'.data[i][..m.cols] == m.data[i]
    requires b < e.shape.batch && m'.data[b][m.cols] == 0
    ensures MeanPool(e, m).Ok? && MeanPool(e', m').Ok?
    ensures MeanPool(e', m').value.data[b] == MeanPool(e, m).value.data[b]
  {
    var r, r' := MeanPool(e, m).value, MeanPool(e', m').value;
    forall h | 0 <= h < e.shape.hidden ensures r'.data[b][h] == r.data[b][h] {
      var v, w, x := Column(e, b, h), MaskRow(m, e.shape, b), e'.data[b][e.shape.seqLen][h];
      AppendedColumn(e, e', b, h);
      AppendedMaskRow(m, m', e.shape, e'.shape, b);
      assert r'.data[b][h] == MaskedMean(v + [x], w + [0]);
      MaskedMeanIgnoresPadding(v, w, x);
    }
    assert r'.data[b] == r.data[b];
  }

  /** A column of the extended tensor is the old column plus the new entry. */
  lemma AppendedColumn(e: Tensor3, e': Tensor3, b: nat, h: nat)
    requires e.Valid() && e'.Valid()
    requires e'.shape == Shape3(e.shape.batch, e.shape.seqLen + 1, e.shape.hidden)
    requires b < e.shape.batch && h < e.shape.hidden
    requires e'.data[b][..e.shape.seqLen] == e.data[b]
    ensures Column(e', b, h) == Column(e, b, h) + [e'.data[b][e.shape.seqLen][h]]
  {
    var L := e.shape.seqLen;
    forall l | 0 <= l < L ensures Column(e', b, h)[l] == Column(e, b, h)[l] {
      assert e'.data[b][..L][l] == e'.data[b][l];
    }
  }

  /** A row of the extended mask, matching the extended shape, is the old row plus 0. */
  lemma AppendedMaskRow(m: Tensor2<int>, m': Tensor2<int>, s: Shape3, s': Shape3, b: nat)
    requires m.Valid() && m'.Valid()
    requires m.rows == s.batch && m.cols == s.seqLen
    requires s' == Shape3(s.batch, s.seqLen + 1, s.hidden)
    requires m'.rows == m.rows && m'.cols == m.cols + 1
    requires b < s.batch && m'.data[b][..m.cols] == m.data[b] && m'.data[b][m.cols] == 0
    ensures MaskRow(m', s', b) == MaskRow(m, s, b) + [0]
  {
    assert m'.data[b] == m'.data[b][..m.cols] + [m'.data[b][m.cols]];
  }

  /**
   With a single sequence position marked valid in row b, mean pooling and
   CLS pooling give the same row.
   */
  lemma MeanOfSingleTokenIsCls(e: Tensor3, m: Tensor2<int>, b: nat)
    requires e.Valid() && m.Valid() && Broadcastable(m, e.shape)
    requires e.shape.seqLen == 1 && b < e.shape.batch
    requires MaskRow(m, e.shape, b)[0] == 1
    ensures MeanPool(e, m).Ok? && Cls(e).Ok?
    ensures MeanPool(e, m).value.data[b] == Cls(e).value.data[b]
  {
    var mean, cls := MeanPool(e, m).value, Cls(e).value;
    forall h | 0 <= h < e.shape.hidden ensures mean.data[b][h] == cls.data[b][h] {
      var x := e.data[b][0][h];
      assert Column(e, b, h) == [x];
      assert MaskRow(m, e.shape, b) == [1];
      assert mean.data[b][h] == MaskedMean([x], [1]);
      MaskedMeanOfSingleToken(x);
    }
    assert mean.data[b] == cls.data[b];
  }

  /**
   A one-column mask is repeated along the sequence axis: a nonzero entry in
   row b weights every token equally, so row b pools to the plain mean of all
   its token embeddings.
   */
  lemma MeanBroadcastsSingleMaskColumn(e: Tensor3, m: Tensor2<int>, b: nat, h: nat)
    requires e.Valid() && m.Valid()
    requires m.cols == 1 && m.rows == e.shape.batch
    requires b < e.shape.batch && h < e.shape.hidden && e.shape.seqLen >= 1
    requires m.data[b][0] != 0
    ensures MeanPool(e, m).Ok?
    ensures MeanPool(e, m).value.data[b][h] == ArithMean(Column(e, b, h))
  {
    MaskedMeanOfConstantMask(Column(e, b, h), MaskRow(m, e.shape, b), m.data[b][0]);
  }

  /** A single mask row is applied to every batch row, as if it were repeated. */
  lemma MeanBroadcastsSingleMaskRow(e: Tensor3, m: Tensor2<int>, full: Tensor2<int>)
    requires e.Valid() && m.Valid() && full.Valid()
    requires m.rows == 1 && m.cols == e.shape.seqLen
    requires full.rows == e.shape.batch && full.cols == e.shape.seqLen
    requires forall b :: 0 <= b < full.rows ==> full.data[b] == m.data[0]
    ensures MeanPool(e, m) == MeanPool(e, full)
  {
    var r, s := MeanPool(e, m).value, MeanPool(e, full).value;
    assert r.data == s.data by {
      forall b | 0 <= b < e.shape.batch ensures r.data[b] == s.data[b] {
        assert MaskRow(m, e.shape, b) == MaskRow(full, e.shape, b);
      }
    }
  }

  // ---------------------------------------------------------------------
  // Worked scenarios: one sentence of three tokens, hidden size 2
  // ---------------------------------------------------------------------

  function SampleEmbeddings(): (e: Tensor3)
    ensures e.Valid()
  {
    Tensor3(Shape3(1, 3, 2), [[[1.0, 2.0], [3.0, 4.0], [5.0, 6.0]]])
  }

  /** Under mask [1, 1, 0] a column pools to the mean of its first two values. */
  lemma SampleColumnMean(v: seq<real>)
    requires |v| == 3
    ensures MaskedMean(v, [1, 1, 0]) == (v[0] + v[1]) / 2.0
  {
    assert [1, 1, 0][..2] == [1, 1] && [1, 1][..1] == [1] && [1][..0] == [];
    assert Total([1, 1, 0]) == 2;
    assert v[..2][..1] == [v[0]] && [v[0]][..0] == [];
    assert WeightedSum(v[..2][..1], [1]) == v[0];
    assert WeightedSum(v[..2], [1, 1]) == v[0] + v[1];
    assert WeightedSum(v, [1, 1, 0]) == v[0] + v[1];
  }

  /** Mask [1, 1, 0] averages the first two tokens: [2, 3]. */
  lemma SampleMeanPool(e: Tensor3, m: Tensor2<int>)
    requires e == SampleEmbeddings() && m == Tensor2(1, 3, [[1, 1, 0]])
    ensures MeanPool(e, m) == Ok(Tensor2(1, 2, [[2.0, 3.0]]))
  {
    SampleMeanPoolEntry(e, m, 0);
    SampleMeanPoolEntry(e, m, 1);
    SingleRowOfTwo(MeanPool(e, m).value);
  }

  /** Entry h of the sample under mask [1, 1, 0] is the mean of its column's first two values. */
  lemma SampleMeanPoolEntry(e: Tensor3, m: Tensor2<int>, h: nat)
    requires e == SampleEmbeddings() && m == Tensor2(1, 3, [[1, 1, 0]]) && h < 2
    ensures MeanPool(e, m).Ok? && MeanPool(e, m).value.data[0][h] == [2.0, 3.0][h]
  {
    assert MaskRow(m, e.shape, 0) == [1, 1, 0];
    var column := if h == 0 then [1.0, 3.0, 5.0] else [2.0, 4.0, 6.0];
    assert Column(e, 0, h) == column;
    SampleColumnMean(column);
  }

  /** A valid 1-by-2 tensor is determined by its two entries. */
  lemma SingleRowOfTwo(t: Tensor2<real>)
    requires t.Valid() && t.rows == 1 && t.cols == 2
    ensures t == Tensor2(1, 2, [[t.data[0][0], t.data[0][1]]])
  {
    assert t.data[0] == [t.data[0][0], t.data[0][1]];
  }

  /** CLS pooling of the sample is the first token's embedding: [1, 2]. */
  lemma SampleCls(e: Tensor3)
    requires e == SampleEmbeddings()
    ensures Cls(e) == Ok(Tensor2(1, 2, [[1.0, 2.0]]))
  {
    SingleRowOfTwo(Cls(e).value);
  }

  /** Mask [0, 0, 0] pools to the zero vector. */
  lemma SampleFullyMasked(e: Tensor3, m: Tensor2<int>)
    requires e == SampleEmbeddings() && m == Tensor2(1, 3, [[0, 0, 0]])
    ensures MeanPool(e, m) == Ok(Tensor2(1, 2, [[0.0, 0.0]]))
  {
    assert MaskRow(m, e.shape, 0) == [0, 0, 0];
    FullyMaskedRowPoolsToZero(e, m, 0);
    SingleRowOfTwo(MeanPool(e, m).value);
  }

  /** Embeddings of shape (2, 3, 4) with a mask of shape (2, 5) are refused. */
  lemma SampleShapeMismatch(e: Tensor3, m: Tensor2<int>)
    requires e.Valid() && m.Valid()
    requires e.shape == Shape3(2, 3, 4) && m.rows == 2 && m.cols == 5
    ensures MeanPool(e, m) == Err(IncompatibleShapes(2, 5, Shape3(2, 3, 4)))
  {
  }
}
