/**
 Row-level arithmetic behind mean pooling. For one batch row and one hidden
 index, mean pooling sees a column of token values `v` (one per sequence
 position) and the attention-mask row `w` (one integer weight per position).
 This module defines the weighted sum and the mask total that the pooler
 divides, the zero clamp, and an independent reference: the plain arithmetic
 mean of the values at the positions whose mask entry is 1.
 */
module MaskedAverage {

  /** Sum of a sequence of reals, accumulated along the sequence. */
  function Sum(s: seq<real>): real
  {
    if |s| == 0 then 0.0 else Sum(s[..|s| - 1]) + s[|s| - 1]
  }

  /** Sum of the mask weights of one row. */
  function Total(w: seq<int>): int
  {
    if |w| == 0 then 0 else Total(w[..|w| - 1]) + w[|w| - 1]
  }

  /** Sum of the values, each multiplied by its mask weight. */
  function WeightedSum(v: seq<real>, w: seq<int>): real
    requires |v| == |w|
  {
    if |v| == 0 then 0.0
    else WeightedSum(v[..|v| - 1], w[..|w| - 1]) + v[|v| - 1] * (w[|w| - 1] as real)
  }

  /** The clamp applied to the mask total before dividing: zero becomes one. */
  function Clamped(d: real): (r: real)
    ensures r != 0.0
    ensures d != 0.0 ==> r == d
    ensures d == 0.0 ==> r == 1.0
  {
    if d == 0.0 then 1.0 else d
  }

  /** The value mean pooling produces for one column under one mask row. */
  function MaskedMean(v: seq<real>, w: seq<int>): real
    requires |v| == |w|
  {
    WeightedSum(v, w) / Clamped(Total(w) as real)
  }

  /** A mask row whose entries are all 0 or 1, as a tokenizer produces. */
  predicate IsBinary(w: seq<int>)
  {
    forall l :: 0 <= l < |w| ==> w[l] == 0 || w[l] == 1
  }

  /** The values at exactly the positions whose mask entry is 1, in order. */
  function Selected(v: seq<real>, w: seq<int>): (r: seq<real>)
    requires |v| == |w|
    ensures |r| <= |v|
    ensures forall x :: x in r ==> x in v
  {
    if |v| == 0 then []
    else Selected(v[..|v| - 1], w[..|w| - 1]) + (if w[|w| - 1] == 1 then [v[|v| - 1]] else [])
  }

  /** Number of positions whose mask entry is 1. */
  function ValidCount(w: seq<int>): (n: nat)
    ensures n <= |w|
    ensures n == 0 <==> forall l :: 0 <= l < |w| ==> w[l] != 1
  {
    if |w| == 0 then 0
    else
      var prefix := w[..|w| - 1];
      assert forall l :: 0 <= l < |prefix| ==> prefix[l] == w[l];
      ValidCount(prefix) + (if w[|w| - 1] == 1 then 1 else 0)
  }

  /** The arithmetic mean of a non-empty sequence. */
  function ArithMean(s: seq<real>): real
    requires |s| > 0
  {
    Sum(s) / (|s| as real)
  }

  /** Selecting keeps one value per valid position. */
  lemma {:induction false} SelectedLength(v: seq<real>, w: seq<int>)
    requires |v| == |w|
    ensures |Selected(v, w)| == ValidCount(w)
  {
    if |v| > 0 {
      SelectedLength(v[..|v| - 1], w[..|w| - 1]);
    }
  }

  /** Under a 0/1 mask the mask total is the number of valid positions. */
  lemma {:induction false} TotalIsValidCount(w: seq<int>)
    requires IsBinary(w)
    ensures Total(w) == ValidCount(w)
  {
    if |w| > 0 {
      var prefix := w[..|w| - 1];
      assert IsBinary(prefix) by {
        forall l | 0 <= l < |prefix| ensures prefix[l] == 0 || prefix[l] == 1 {
          assert prefix[l] == w[l];
        }
      }
      TotalIsValidCount(prefix);
    }
  }

  /** Under a 0/1 mask the weighted sum is the sum of the selected values. */
  lemma {:induction false} WeightedSumIsSelectedSum(v: seq<real>, w: seq<int>)
    requires |v| == |w|
    requires IsBinary(w)
    ensures WeightedSum(v, w) == Sum(Selected(v, w))
  {
    if |v| > 0 {
      var n := |v| - 1;
      var pv, pw := v[..n], w[..n];
      assert IsBinary(pw) by {
        forall l | 0 <= l < |pw| ensures pw[l] == 0 || pw[l] == 1 {
          assert pw[l] == w[l];
        }
      }
      WeightedSumIsSelectedSum(pv, pw);
      var tail := if w[n] == 1 then [v[n]] else [];
      assert Selected(v, w) == Selected(pv, pw) + tail;
      SumAppend(Selected(pv, pw), tail);
      if w[n] == 1 {
        assert Sum(tail) == v[n] by { assert tail[..0] == []; }
      } else {
        assert w[n] == 0 && Sum(tail) == 0.0;
      }
    }
  }

  /** Summing a concatenation sums the parts. */
  lemma {:induction false} SumAppend(s: seq<real>, t: seq<real>)
    ensures Sum(s + t) == Sum(s) + Sum(t)
  {
    if |t| > 0 {
      var n := |t| - 1;
      assert (s + t)[..|s + t| - 1] == s + t[..n];
      SumAppend(s, t[..n]);
    } else {
      assert s + t == s;
    }
  }

  /** A mask row of zeros contributes nothing to the sum or the total. */
  lemma {:induction false} ZeroMaskContributesNothing(v: seq<real>, w: seq<int>)
    requires |v| == |w|
    requires forall l :: 0 <= l < |w| ==> w[l] == 0
    ensures WeightedSum(v, w) == 0.0
    ensures Total(w) == 0
  {
    if |v| > 0 {
      var n := |v| - 1;
      assert forall l :: 0 <= l < n ==> w[..n][l] == w[l];
      ZeroMaskContributesNothing(v[..n], w[..n]);
    }
  }

  /**
   With a 0/1 mask that marks at least one position valid, mean pooling is
   the arithmetic mean of the values at exactly the valid positions.
   */
  lemma MaskedMeanIsMeanOfValid(v: seq<real>, w: seq<int>)
    requires |v| == |w|
    requires IsBinary(w)
    requires exists l :: 0 <= l < |w| && w[l] == 1
    ensures |Selected(v, w)| == ValidCount(w) > 0
    ensures MaskedMean(v, w) == ArithMean(Selected(v, w))
  {
    SelectedLength(v, w);
    TotalIsValidCount(w);
    WeightedSumIsSelectedSum(v, w);
  }

  /** A row whose mask is all zeros pools to 0, not to a division by zero. */
  lemma MaskedMeanOfFullyMaskedIsZero(v: seq<real>, w: seq<int>)
    requires |v| == |w|
    requires forall l :: 0 <= l < |w| ==> w[l] == 0
    ensures MaskedMean(v, w) == 0.0
  {
    ZeroMaskContributesNothing(v, w);
  }

  /**
   Whatever the weights, the pooled value times the clamped total gives back
   the weighted sum; when the total is zero the pooled value is the weighted
   sum itself.
   */
  lemma MaskedMeanScalesBack(v: seq<real>, w: seq<int>)
    requires |v| == |w|
    ensures Total(w) != 0 ==> MaskedMean(v, w) * (Total(w) as real) == WeightedSum(v, w)
    ensures Total(w) == 0 ==> MaskedMean(v, w) == WeightedSum(v, w)
  {
  }

  /** Appending a padding position (mask 0), whatever its value, changes nothing. */
  lemma MaskedMeanIgnoresPadding(v: seq<real>, w: seq<int>, x: real)
    requires |v| == |w|
    ensures MaskedMean(v + [x], w + [0]) == MaskedMean(v, w)
  {
    assert (v + [x])[..|v|] == v;
    assert (w + [0])[..|w|] == w;
  }

  /** Under a mask row that weights every position by `c`, the sums scale by `c`. */
  lemma {:induction false} ConstantMaskScales(v: seq<real>, w: seq<int>, c: int)
    requires |v| == |w|
    requires forall l :: 0 <= l < |w| ==> w[l] == c
    ensures WeightedSum(v, w) == (c as real) * Sum(v)
    ensures Total(w) == c * |w|
  {
    if |v| > 0 {
      var n := |v| - 1;
      assert forall l :: 0 <= l < n ==> w[..n][l] == w[l];
      ConstantMaskScales(v[..n], w[..n], c);
    }
  }

  /**
   A mask row that gives every position the same nonzero weight pools to the
   plain arithmetic mean of all the values.
   */
  lemma MaskedMeanOfConstantMask(v: seq<real>, w: seq<int>, c: int)
    requires |v| == |w| > 0
    requires c != 0
    requires forall l :: 0 <= l < |w| ==> w[l] == c
    ensures MaskedMean(v, w) == ArithMean(v)
  {
    ConstantMaskScales(v, w, c);
    var k, n := c as real, |v| as real;
    assert Total(w) as real == k * n;
    assert Clamped(Total(w) as real) == k * n;
    CancelCommonFactor(k, Sum(v), n);
  }

  /** A nonzero factor common to numerator and denominator cancels. */
  lemma CancelCommonFactor(k: real, s: real, n: real)
    requires k != 0.0 && n != 0.0
    ensures (k * s) / (k * n) == s / n
  {
    var q := s / n;
    assert q * n == s;
    assert (k * s) == q * (k * n);
  }

  /** A single valid token pools to its own value. */
  lemma MaskedMeanOfSingleToken(x: real)
    ensures MaskedMean([x], [1]) == x
  {
    assert [x][..0] == [];
    assert [1][..0] == [];
    assert Total([1]) == 1;
    assert WeightedSum([x], [1]) == x;
  }
}
