/**
 * The transformer encoder of model/language_model.py, per sample: a tensor of
 * shape (seq_len, width) is a `Mat`, a list of rows. What is modelled is
 * structure — layer dimensions, where ReLU is applied, the head split and
 * merge, the score mask, the residual wiring, the order of the layers and the
 * concatenation of the embeddings. The numerical kernels (softmax, layer
 * normalisation, square roots, sigmoid) are parameters.
 */
module LanguageModel {
  import opened Wrappers
  import opened Tensors

  type Vec = seq<real>
  type Mat = seq<Vec>

  /**
   * The numerical kernels the encoder calls and this model leaves open:
   * `standardize(x, eps)` is `(x - mean) / (std + eps)` over the last axis,
   * `softmax` is taken over the last axis, `sqrt` is `math.sqrt` of a width,
   * `invSqrt(d)` is `1 / math.sqrt(d)` and `sigmoid` is applied per entry.
   * Only that the vector kernels keep the width is assumed of them.
   */
  datatype Numerics = Numerics(standardize: (Vec, real) -> Vec, softmax: Vec -> Vec,
                               sqrt: nat -> real, invSqrt: nat -> real, sigmoid: real -> real)
  {
    ghost predicate Valid() {
      (forall v, eps :: |standardize(v, eps)| == |v|) && (forall v :: |softmax(v)| == |v|)
    }
  }

  // ---------------------------------------------------------------------
  // Linear layers and ReLU
  // ---------------------------------------------------------------------

  /** `nn.Linear(inDim, outDim)` with its parameters: y = W x + b. */
  datatype Linear = Linear(inDim: nat, outDim: nat, weight: Mat, bias: Vec)

  predicate LinearOk(l: Linear) {
    IsMatrix(l.weight, l.outDim, l.inDim) && |l.bias| == l.outDim
  }

  function Dot(a: Vec, b: Vec): real
    requires |a| == |b|
  {
    if |a| == 0 then 0.0 else a[0] * b[0] + Dot(a[1..], b[1..])
  }

  function ApplyLinear(l: Linear, x: Vec): (y: Vec)
    requires LinearOk(l) && |x| == l.inDim
    ensures |y| == l.outDim
  {
    seq(l.outDim, j requires 0 <= j < l.outDim => Dot(l.weight[j], x) + l.bias[j])
  }

  /** A linear layer applied to every row (the last axis) of a tensor. */
  function LinearRows(l: Linear, x: Mat): (y: Mat)
    requires LinearOk(l) && Rect(x, l.inDim)
    ensures IsMatrix(y, |x|, l.outDim)
  {
    seq(|x|, i requires 0 <= i < |x| => ApplyLinear(l, x[i]))
  }

  /** `F.relu`: negative entries become zero, the others are kept. */
  function Relu(v: Vec): (r: Vec)
    ensures |r| == |v|
    ensures forall i :: 0 <= i < |v| ==> r[i] >= 0.0 && (v[i] >= 0.0 ==> r[i] == v[i]) && (v[i] < 0.0 ==> r[i] == 0.0)
  {
    seq(|v|, i requires 0 <= i < |v| => if v[i] < 0.0 then 0.0 else v[i])
  }

  // ---------------------------------------------------------------------
  // MLP (lines 13-27)
  // ---------------------------------------------------------------------

  function Repeat<T>(x: T, n: nat): (r: seq<T>)
    ensures |r| == n && forall i :: 0 <= i < n ==> r[i] == x
  {
    if n == 0 then [] else [x] + Repeat(x, n - 1)
  }

  function Zip<A, B>(a: seq<A>, b: seq<B>): (r: seq<(A, B)>)
    requires |a| == |b|
    ensures |r| == |a| && forall i :: 0 <= i < |a| ==> r[i] == (a[i], b[i])
  {
    if |a| == 0 then [] else [(a[0], b[0])] + Zip(a[1..], b[1..])
  }

  /** `num_layers - 1` as a list length: Python repeats a list zero times for
      any count below one. */
  function HiddenCount(numLayers: int): nat {
    if numLayers <= 1 then 0 else numLayers - 1
  }

  /** The (in, out) pairs `zip([input_dim] + h, h + [output_dim])` where
      `h = [hidden_dim] * (num_layers - 1)`: one layer per requested layer
      (one layer when fewer than one is asked for), the first reads
      `inputDim`, the last writes `outputDim`, every interior boundary is
      `hiddenDim`, so consecutive layers agree on the width between them. */
  function MlpDims(inputDim: nat, hiddenDim: nat, outputDim: nat, numLayers: int): (d: seq<(nat, nat)>)
    ensures |d| == if numLayers <= 1 then 1 else numLayers
    ensures d[0].0 == inputDim && d[|d| - 1].1 == outputDim
    ensures forall i :: 0 <= i < |d| - 1 ==> d[i].1 == hiddenDim
    ensures forall i :: 1 <= i < |d| ==> d[i].0 == hiddenDim
  {
    var h := Repeat(hiddenDim, HiddenCount(numLayers));
    var ins, outs := [inputDim] + h, h + [outputDim];
    assert forall i :: 0 <= i < |h| ==> outs[i] == hiddenDim && ins[i + 1] == hiddenDim;
    Zip(ins, outs)
  }

  /** An `MLP` module: its `num_layers` attribute and its list of layers. */
  datatype Mlp = Mlp(numLayers: int, layers: seq<Linear>)

  /** The MLP `__init__` builds from the four arguments. */
  predicate MlpBuiltAs(m: Mlp, inputDim: nat, hiddenDim: nat, outputDim: nat, numLayers: int) {
    var d := MlpDims(inputDim, hiddenDim, outputDim, numLayers);
    && m.numLayers == numLayers && |m.layers| == |d|
    && forall i :: 0 <= i < |d| ==> LinearOk(m.layers[i]) && m.layers[i].inDim == d[i].0 && m.layers[i].outDim == d[i].1
  }

  /** Every layer is well formed and writes the width the next one reads. */
  predicate Chained(layers: seq<Linear>) {
    && (forall i :: 0 <= i < |layers| ==> LinearOk(layers[i]))
    && (forall i :: 0 <= i < |layers| - 1 ==> layers[i].outDim == layers[i + 1].inDim)
  }

  predicate MlpAccepts(m: Mlp, x: Vec) {
    |m.layers| > 0 && Chained(m.layers) && |x| == m.layers[0].inDim
  }

  /** A freshly built MLP is chained and reads `inputDim` and writes `outputDim`. */
  lemma MlpBuiltIsChained(m: Mlp, inputDim: nat, hiddenDim: nat, outputDim: nat, numLayers: int)
    requires MlpBuiltAs(m, inputDim, hiddenDim, outputDim, numLayers)
    ensures Chained(m.layers) && |m.layers| > 0
    ensures m.layers[0].inDim == inputDim && m.layers[|m.layers| - 1].outDim == outputDim
  {
    var d := MlpDims(inputDim, hiddenDim, outputDim, numLayers);
    forall i | 0 <= i < |d| - 1
      ensures m.layers[i].outDim == m.layers[i + 1].inDim
    {
      assert d[i].1 == hiddenDim == d[i + 1].0;
    }
  }

  /** After layer `i` of `m`: ReLU unless it is layer `num_layers - 1` or later. */
  function Activate(m: Mlp, i: nat, v: Vec): Vec {
    if i < m.numLayers - 1 then Relu(v) else v
  }

  /** The value of `x` after the first `k` iterations of the loop in `MLP.forward`. */
  function MlpPrefix(m: Mlp, x: Vec, k: nat): (y: Vec)
    requires MlpAccepts(m, x) && k <= |m.layers|
    ensures |y| == if k == 0 then |x| else m.layers[k - 1].outDim
  {
    if k == 0 then x
    else Activate(m, k - 1, ApplyLinear(m.layers[k - 1], MlpPrefix(m, x, k - 1)))
  }

  function MlpApply(m: Mlp, x: Vec): (y: Vec)
    requires MlpAccepts(m, x)
    ensures |y| == m.layers[|m.layers| - 1].outDim
  {
    MlpPrefix(m, x, |m.layers|)
  }

  /** `MLP.forward`. */
  method MlpForward(m: Mlp, x: Vec) returns (y: Vec)
    requires MlpAccepts(m, x)
    ensures y == MlpApply(m, x)
    ensures |y| == m.layers[|m.layers| - 1].outDim
  {
    y := x;
    for i := 0 to |m.layers|
      invariant y == MlpPrefix(m, x, i)
    {
      var z := ApplyLinear(m.layers[i], y);
      if i < m.numLayers - 1 {
        y := Relu(z);
      } else {
        y := z;
      }
    }
  }

  /** ReLU placement: the output of every layer before layer `num_layers - 1`
      is non-negative, and the output of layer `num_layers - 1` (the last
      layer of a freshly built MLP) is the raw affine value. */
  lemma MlpActivations(m: Mlp, x: Vec, k: nat)
    requires MlpAccepts(m, x) && 0 < k <= |m.layers|
    ensures k - 1 < m.numLayers - 1 ==> forall j :: 0 <= j < |MlpPrefix(m, x, k)| ==> MlpPrefix(m, x, k)[j] >= 0.0
    ensures k - 1 >= m.numLayers - 1 ==> MlpPrefix(m, x, k) == ApplyLinear(m.layers[k - 1], MlpPrefix(m, x, k - 1))
  {
  }

  /** An MLP applied to every position of a sequence. */
  function MlpRows(m: Mlp, x: Mat): (y: Mat)
    requires |m.layers| > 0 && Chained(m.layers) && Rect(x, m.layers[0].inDim)
    ensures IsMatrix(y, |x|, m.layers[|m.layers| - 1].outDim)
  {
    seq(|x|, i requires 0 <= i < |x| => MlpApply(m, x[i]))
  }

  // ---------------------------------------------------------------------
  // _get_clones (lines 30-31)
  // ---------------------------------------------------------------------

  /** `_get_clones(module, N)`: N copies, each equal to the module it was
      copied from (as values, deep copies are indistinguishable from it). */
  function Clones<T>(module_: T, n: nat): (r: seq<T>)
    ensures |r| == n && forall i :: 0 <= i < n ==> r[i] == module_
  {
    Repeat(module_, n)
  }

  // ---------------------------------------------------------------------
  // LayerNorm (lines 34-44)
  // ---------------------------------------------------------------------

  const LAYER_NORM_EPS: real := 0.000001

  /** `LayerNorm(features)` with its gain `a_2` and shift `b_2`. */
  datatype LayerNorm = LayerNorm(features: nat, gain: Vec, shift: Vec)

  predicate LayerNormOk(n: LayerNorm, features: nat) {
    n.features == features && |n.gain| == features && |n.shift| == features
  }

  /** The parameters `__init__` gives a fresh layer norm: gain one, shift zero. */
  function FreshLayerNorm(features: nat): (n: LayerNorm)
    ensures LayerNormOk(n, features)
    ensures forall i :: 0 <= i < features ==> n.gain[i] == 1.0 && n.shift[i] == 0.0
  {
    LayerNorm(features, Repeat(1.0, features), Repeat(0.0, features))
  }

  /** `LayerNorm.forward` on one position: gain times the standardised row plus shift. */
  function Normalize(nm: Numerics, n: LayerNorm, x: Vec): (y: Vec)
    requires nm.Valid() && LayerNormOk(n, |x|)
    ensures |y| == |x|
  {
    var z := nm.standardize(x, LAYER_NORM_EPS);
    seq(|x|, i requires 0 <= i < |x| => n.gain[i] * z[i] + n.shift[i])
  }

  function NormalizeRows(nm: Numerics, n: LayerNorm, x: Mat): (y: Mat)
    requires nm.Valid() && Rect(x, n.features) && LayerNormOk(n, n.features)
    ensures IsMatrix(y, |x|, n.features)
  {
    seq(|x|, i requires 0 <= i < |x| => Normalize(nm, n, x[i]))
  }

  // ---------------------------------------------------------------------
  // Score masking in `attention` (lines 142-152)
  // ---------------------------------------------------------------------

  /** The value `masked_fill` writes where the mask is 0. */
  const MASK_FILL: real := -1000000000.0

  /** A mask for a (queries x keys) score matrix, broadcast as torch
      broadcasts it: one row for all queries, as the (batch, 1, seq) source
      mask is, or one row per query; and in every row one entry for all keys
      or one entry per key. */
  type Mask = seq<seq<int>>

  predicate MaskFits(mask: Mask, queries: nat, keys: nat) {
    && (|mask| == 1 || |mask| == queries)
    && (Rect(mask, keys) || Rect(mask, 1))
  }

  /** The mask entry that broadcasting pairs with score (i, j). */
  function MaskAt(mask: Mask, i: nat, j: nat): int
    requires |mask| == 1 || i < |mask|
    requires forall r :: 0 <= r < |mask| ==> |mask[r]| == 1 || j < |mask[r]|
  {
    var row := if |mask| == 1 then mask[0] else mask[i];
    if |row| == 1 then row[0] else row[j]
  }

  /** `scores.masked_fill(mask == 0, -1e9)`: exactly the entries whose mask is
      0 become -1e9, every other entry is unchanged. */
  function MaskedFill(scores: Mat, keys: nat, mask: Mask): (r: Mat)
    requires Rect(scores, keys) && MaskFits(mask, |scores|, keys)
    ensures IsMatrix(r, |scores|, keys)
    ensures forall i, j :: 0 <= i < |scores| && 0 <= j < keys ==>
              (MaskAt(mask, i, j) == 0 ==> r[i][j] == MASK_FILL) && (MaskAt(mask, i, j) != 0 ==> r[i][j] == scores[i][j])
  {
    seq(|scores|, i requires 0 <= i < |scores| =>
      seq(keys, j requires 0 <= j < keys => if MaskAt(mask, i, j) == 0 then MASK_FILL else scores[i][j]))
  }

  /** Masking twice is masking once. */
  lemma MaskedFillIdempotent(scores: Mat, keys: nat, mask: Mask)
    requires Rect(scores, keys) && MaskFits(mask, |scores|, keys)
    ensures MaskedFill(MaskedFill(scores, keys, mask), keys, mask) == MaskedFill(scores, keys, mask)
  {
    var once := MaskedFill(scores, keys, mask);
    var twice := MaskedFill(once, keys, mask);
    forall i | 0 <= i < |scores|
      ensures twice[i] == once[i]
    {
      assert |twice[i]| == |once[i]|;
    }
  }

  /** What the scores held at masked positions does not matter. */
  lemma MaskedFillIgnoresMasked(s1: Mat, s2: Mat, keys: nat, mask: Mask)
    requires Rect(s1, keys) && Rect(s2, keys) && |s1| == |s2| && MaskFits(mask, |s1|, keys)
    requires forall i, j :: 0 <= i < |s1| && 0 <= j < keys && MaskAt(mask, i, j) != 0 ==> s1[i][j] == s2[i][j]
    ensures MaskedFill(s1, keys, mask) == MaskedFill(s2, keys, mask)
  {
    var r1, r2 := MaskedFill(s1, keys, mask), MaskedFill(s2, keys, mask);
    forall i | 0 <= i < |s1|
      ensures r1[i] == r2[i]
    {
      assert |r1[i]| == |r2[i]|;
    }
  }

  /** A mask of all non-zero entries changes nothing. */
  lemma MaskedFillAllowAll(scores: Mat, keys: nat, mask: Mask)
    requires Rect(scores, keys) && MaskFits(mask, |scores|, keys)
    requires forall r, j :: 0 <= r < |mask| && 0 <= j < |mask[r]| ==> mask[r][j] != 0
    ensures MaskedFill(scores, keys, mask) == scores
  {
    var r := MaskedFill(scores, keys, mask);
    forall i | 0 <= i < |scores|
      ensures r[i] == scores[i]
    {
      assert |r[i]| == |scores[i]|;
    }
  }

  /** A mask whose rows have one entry acts as each row's entry repeated for
      every key. */
  lemma MaskKeyBroadcast(scores: Mat, keys: nat, mask: Mask)
    requires Rect(scores, keys) && MaskFits(mask, |scores|, keys) && Rect(mask, 1)
    ensures MaskFits(seq(|mask|, r requires 0 <= r < |mask| => Repeat(mask[r][0], keys)), |scores|, keys)
    ensures MaskedFill(scores, keys, mask) ==
            MaskedFill(scores, keys, seq(|mask|, r requires 0 <= r < |mask| => Repeat(mask[r][0], keys)))
  {
    var wide := seq(|mask|, r requires 0 <= r < |mask| => Repeat(mask[r][0], keys));
    var r1, r2 := MaskedFill(scores, keys, mask), MaskedFill(scores, keys, wide);
    forall i | 0 <= i < |scores|
      ensures r1[i] == r2[i]
    {
      assert |r1[i]| == |r2[i]|;
    }
  }

  /** A one-row mask acts as that row repeated for every query. */
  lemma MaskBroadcast(scores: Mat, keys: nat, row: seq<int>)
    requires Rect(scores, keys) && |row| == keys && |scores| > 0
    ensures MaskFits([row], |scores|, keys) && MaskFits(Repeat(row, |scores|), |scores|, keys)
    ensures MaskedFill(scores, keys, [row]) == MaskedFill(scores, keys, Repeat(row, |scores|))
  {
    var r1, r2 := MaskedFill(scores, keys, [row]), MaskedFill(scores, keys, Repeat(row, |scores|));
    forall i | 0 <= i < |scores|
      ensures r1[i] == r2[i]
    {
      assert |r1[i]| == |r2[i]|;
    }
  }

  /** The optional mask of `attention`: no mask leaves the scores unchanged. */
  function MaskScores(scores: Mat, keys: nat, mask: Option<Mask>): (r: Mat)
    requires Rect(scores, keys) && (mask.Some? ==> MaskFits(mask.value, |scores|, keys))
    ensures IsMatrix(r, |scores|, keys)
    ensures mask.None? ==> r == scores
    ensures mask.Some? ==> r == MaskedFill(scores, keys, mask.value)
  {
    match mask
    case None => scores
    case Some(m) => MaskedFill(scores, keys, m)
  }

  /** Column `c` of a matrix whose rows all have more than `c` entries. */
  function Column(m: Mat, c: nat): (col: Vec)
    requires forall i :: 0 <= i < |m| ==> c < |m[i]|
    ensures |col| == |m| && forall i :: 0 <= i < |m| ==> col[i] == m[i][c]
  {
    seq(|m|, i requires 0 <= i < |m| => m[i][c])
  }

  /** `torch.matmul(a, b)` for an (n x m) and an (m x cols) matrix. */
  function MatMul(a: Mat, b: Mat, cols: nat): (r: Mat)
    requires Rect(a, |b|) && Rect(b, cols)
    ensures IsMatrix(r, |a|, cols)
  {
    seq(|a|, i requires 0 <= i < |a| => seq(cols, c requires 0 <= c < cols => Dot(a[i], Column(b, c))))
  }

  /** `query @ key^T * (1 / sqrt(d_k))`, before masking. */
  function Scores(nm: Numerics, q: Mat, k: Mat, dK: nat): (r: Mat)
    requires Rect(q, dK) && Rect(k, dK)
    ensures IsMatrix(r, |q|, |k|)
    ensures forall i, j :: 0 <= i < |q| && 0 <= j < |k| ==> r[i][j] == Dot(q[i], k[j]) * nm.invSqrt(dK)
  {
    seq(|q|, i requires 0 <= i < |q| => seq(|k|, j requires 0 <= j < |k| => Dot(q[i], k[j]) * nm.invSqrt(dK)))
  }

  /** `attention(query, key, value, mask)`: the weighted values and the
      attention weights `p_attn`, one softmax row per query over the masked
      scores (dropout is the identity). */
  function Attention(nm: Numerics, q: Mat, k: Mat, v: Mat, dK: nat, dV: nat, mask: Option<Mask>): (r: (Mat, Mat))
    requires nm.Valid() && Rect(q, dK) && Rect(k, dK) && |k| == |v| && Rect(v, dV)
    requires mask.Some? ==> MaskFits(mask.value, |q|, |k|)
    ensures IsMatrix(r.0, |q|, dV) && IsMatrix(r.1, |q|, |k|)
    ensures forall i :: 0 <= i < |q| ==> r.1[i] == nm.softmax(MaskScores(Scores(nm, q, k, dK), |k|, mask)[i])
  {
    var masked := MaskScores(Scores(nm, q, k, dK), |k|, mask);
    var p := seq(|q|, i requires 0 <= i < |q| => nm.softmax(masked[i]));
    (MatMul(p, v, dV), p)
  }

  /** The attention weights do not depend on the keys at positions that the
      mask hides from every query. */
  lemma AttentionIgnoresMaskedKeys(nm: Numerics, q: Mat, k1: Mat, k2: Mat, v: Mat, dK: nat, dV: nat, mask: Mask)
    requires nm.Valid() && Rect(q, dK) && Rect(k1, dK) && Rect(k2, dK) && |k1| == |k2| == |v| && Rect(v, dV)
    requires MaskFits(mask, |q|, |k1|)
    requires forall i, j :: 0 <= i < |q| && 0 <= j < |k1| && MaskAt(mask, i, j) != 0 ==> k1[j] == k2[j]
    ensures Attention(nm, q, k1, v, dK, dV, Some(mask)).1 == Attention(nm, q, k2, v, dK, dV, Some(mask)).1
  {
    var s1, s2 := Scores(nm, q, k1, dK), Scores(nm, q, k2, dK);
    MaskedFillIgnoresMasked(s1, s2, |k1|, mask);
  }

  // ---------------------------------------------------------------------
  // Head split and merge (lines 160-162, 173, 178)
  // ---------------------------------------------------------------------

  lemma MulMonotone(a: nat, b: nat, c: nat)
    requires a <= b
    ensures a * c <= b * c
  {
  }

  /** A column of a row of width `h * d_k` lies in head `c / d_k`. */
  lemma ColumnHead(c: nat, h: nat, dK: nat)
    requires c < h * dK
    ensures dK > 0 && c / dK < h && (c / dK) * dK + c % dK == c
  {
    if c / dK >= h {
      MulMonotone(h, c / dK, dK);
    }
  }

  /** Head `i` ends within a row of width `h * d_k`. */
  lemma HeadEnd(i: nat, h: nat, dK: nat)
    requires i < h
    ensures i * dK + dK <= h * dK
  {
    MulMonotone(i + 1, h, dK);
    assert (i + 1) * dK == i * dK + dK;
  }

  /** Head `i` of one sample: columns `i * d_k .. i * d_k + d_k - 1` of every position. */
  function Head(x: Mat, h: nat, dK: nat, i: nat): (m: Mat)
    requires Rect(x, h * dK) && i < h
    ensures i * dK + dK <= h * dK
    ensures IsMatrix(m, |x|, dK)
    ensures forall s :: 0 <= s < |x| ==> m[s] == x[s][i * dK .. i * dK + dK]
  {
    HeadEnd(i, h, dK);
    Columns(x, h * dK, i * dK, i * dK + dK)
  }

  /** Columns `lo .. hi - 1` of every row of a matrix of width `w`. */
  function Columns(x: Mat, w: nat, lo: nat, hi: nat): (m: Mat)
    requires Rect(x, w) && lo <= hi <= w
    ensures IsMatrix(m, |x|, hi - lo)
    ensures forall s :: 0 <= s < |x| ==> m[s] == x[s][lo .. hi]
  {
    seq(|x|, s requires 0 <= s < |x| => x[s][lo .. hi])
  }

  /** `view(n_batch, -1, h, d_k).transpose(1, 2)` on one sample: head `i` of
      position `s` holds columns `i * d_k .. i * d_k + d_k - 1` of row `s`. */
  function SplitHeads(x: Mat, h: nat, dK: nat): (r: seq<Mat>)
    requires Rect(x, h * dK)
    ensures |r| == h && forall i :: 0 <= i < h ==> r[i] == Head(x, h, dK, i)
  {
    seq(h, i requires 0 <= i < h => Head(x, h, dK, i))
  }

  /** `h` heads, each a (len x d_k) matrix. */
  predicate HeadsFit(y: seq<Mat>, h: nat, len: nat, dK: nat) {
    |y| == h && forall i :: 0 <= i < h ==> |y[i]| == len && Rect(y[i], dK)
  }

  lemma MulSucc(n: nat, w: nat)
    requires n > 0
    ensures n * w == w + (n - 1) * w
  {
  }

  lemma {:induction false} FlattenLength(rows: seq<Vec>, w: nat)
    requires Rect(rows, w)
    ensures |Flatten(rows)| == |rows| * w
  {
    if |rows| > 0 {
      FlattenLength(rows[1..], w);
      MulSucc(|rows|, w);
    }
  }

  /** The `i`-th block of `w` entries of flattened rows of width `w` is row `i`. */
  lemma {:induction false} FlattenBlock(rows: seq<Vec>, w: nat, i: nat)
    requires Rect(rows, w) && i < |rows|
    ensures |Flatten(rows)| == |rows| * w
    ensures i * w + w <= |rows| * w && Flatten(rows)[i * w .. i * w + w] == rows[i]
  {
    var rest := rows[1..];
    FlattenLength(rows, w);
    FlattenLength(rest, w);
    MulSucc(|rows|, w);
    assert Flatten(rows) == rows[0] + Flatten(rest);
    if i > 0 {
      FlattenBlock(rest, w, i - 1);
      var j := (i - 1) * w;
      MulSucc(i, w);
      assert Flatten(rows)[i * w .. i * w + w] == Flatten(rest)[j .. j + w];
    }
  }

  /** Rows of width `w` flattened: the `i`-th block of `w` entries is row `i`. */
  lemma FlattenBlocks(rows: seq<Vec>, w: nat)
    requires Rect(rows, w)
    ensures |Flatten(rows)| == |rows| * w
    ensures forall i :: 0 <= i < |rows| ==> i * w + w <= |rows| * w && Flatten(rows)[i * w .. i * w + w] == rows[i]
  {
    FlattenLength(rows, w);
    forall i | 0 <= i < |rows|
      ensures i * w + w <= |rows| * w && Flatten(rows)[i * w .. i * w + w] == rows[i]
    {
      FlattenBlock(rows, w, i);
    }
  }

  /** `transpose(1, 2).contiguous().view(n_batch, -1, h * d_k)` on one sample:
      position `s` is the rows of the heads at `s` laid side by side, so columns
      `i * d_k .. i * d_k + d_k - 1` are head `i`. */
  function MergeHeads(y: seq<Mat>, h: nat, dK: nat, len: nat): (r: Mat)
    requires HeadsFit(y, h, len, dK)
    ensures IsMatrix(r, len, h * dK)
  {
    seq(len, s requires 0 <= s < len => HeadsAt(y, h, dK, len, s))
  }

  /** In the merged tensor, columns `i * d_k .. i * d_k + d_k - 1` of position
      `s` are head `i` at `s`. */
  lemma MergedBlock(y: seq<Mat>, h: nat, dK: nat, len: nat, s: nat, i: nat)
    requires HeadsFit(y, h, len, dK) && s < len && i < h
    ensures i * dK + dK <= h * dK && MergeHeads(y, h, dK, len)[s][i * dK .. i * dK + dK] == y[i][s]
  {
    assert MergeHeads(y, h, dK, len)[s] == HeadsAt(y, h, dK, len, s);
  }

  /** The flattened rows of all heads at position `s`. */
  function HeadsAt(y: seq<Mat>, h: nat, dK: nat, len: nat, s: nat): (row: Vec)
    requires HeadsFit(y, h, len, dK) && s < len
    ensures |row| == h * dK
    ensures forall i :: 0 <= i < h ==> i * dK + dK <= h * dK && row[i * dK .. i * dK + dK] == y[i][s]
  {
    var rows := seq(h, i requires 0 <= i < h => y[i][s]);
    assert Rect(rows, dK) by {
      forall i | 0 <= i < h
        ensures |rows[i]| == dK
      {
        assert Rect(y[i], dK);
      }
    }
    FlattenBlocks(rows, dK);
    Flatten(rows)
  }

  /** Merging the split heads gives back the tensor. */
  lemma SplitThenMerge(x: Mat, h: nat, dK: nat)
    requires Rect(x, h * dK)
    ensures MergeHeads(SplitHeads(x, h, dK), h, dK, |x|) == x
  {
    var y := SplitHeads(x, h, dK);
    var m := MergeHeads(y, h, dK, |x|);
    forall s | 0 <= s < |x|
      ensures m[s] == x[s]
    {
      forall c | 0 <= c < h * dK
        ensures m[s][c] == x[s][c]
      {
        ColumnHead(c, h, dK);
        var i, k := c / dK, c % dK;
        MergedBlock(y, h, dK, |x|, s, i);
        assert m[s][i * dK .. i * dK + dK] == y[i][s] == x[s][i * dK .. i * dK + dK];
        assert m[s][i * dK .. i * dK + dK][k] == m[s][c];
      }
    }
  }

  /** Splitting the merged heads gives back the heads. */
  lemma MergeThenSplit(y: seq<Mat>, h: nat, dK: nat, len: nat)
    requires HeadsFit(y, h, len, dK)
    ensures SplitHeads(MergeHeads(y, h, dK, len), h, dK) == y
  {
    var r := SplitHeads(MergeHeads(y, h, dK, len), h, dK);
    forall i | 0 <= i < h
      ensures r[i] == y[i]
    {
      forall s | 0 <= s < len
        ensures r[i][s] == y[i][s]
      {
        MergedBlock(y, h, dK, len, s, i);
      }
    }
  }

  // ---------------------------------------------------------------------
  // MultiHeadAttention (lines 157-180)
  // ---------------------------------------------------------------------

  datatype ConfigError = ZeroHeads | HeadsDoNotDivide

  /** `assert d_model % h == 0; d_k = d_model // h`: the check fails for zero
      heads (Python's modulo by zero) and for a head count that does not
      divide the model width; otherwise the heads tile the width exactly. */
  function HeadDim(h: nat, dModel: nat): (r: Result<nat, ConfigError>)
    ensures r.Ok? <==> h > 0 && dModel % h == 0
    ensures r.Ok? ==> r.value * h == dModel
    ensures h == 0 ==> r == Err(ZeroHeads)
    ensures h > 0 && dModel % h != 0 ==> r == Err(HeadsDoNotDivide)
  {
    if h == 0 then Err(ZeroHeads)
    else if dModel % h != 0 then Err(HeadsDoNotDivide)
    else Ok(dModel / h)
  }

  /** The parameters of a `MultiHeadAttention` module. */
  datatype MhaParams = MhaParams(h: nat, dK: nat, linear: seq<Linear>)

  /** Four (d_model x d_model) projections and `h * d_k == d_model`. */
  predicate MhaOk(p: MhaParams, dModel: nat) {
    && p.h * p.dK == dModel && |p.linear| == 4
    && forall i :: 0 <= i < 4 ==> LinearOk(p.linear[i]) && p.linear[i].inDim == dModel && p.linear[i].outDim == dModel
  }

  predicate AttendFits(dModel: nat, query: Mat, key: Mat, value: Mat, mask: Option<Mask>) {
    && Rect(query, dModel) && Rect(key, dModel) && Rect(value, dModel) && |key| == |value|
    && (mask.Some? ==> MaskFits(mask.value, |query|, |key|))
  }

  /** `MultiHeadAttention.forward` on one sample: the output and the attention
      weights of every head. Projections 0, 1 and 2 make query, key and value,
      each is split into heads, every head attends under the same mask, the
      heads are merged and `linear[-1]` (projection 3) is applied. */
  function MultiHeadAttend(nm: Numerics, p: MhaParams, query: Mat, key: Mat, value: Mat, mask: Option<Mask>): (r: (Mat, seq<Mat>))
    requires nm.Valid() && MhaOk(p, p.h * p.dK) && AttendFits(p.h * p.dK, query, key, value, mask)
    ensures IsMatrix(r.0, |query|, p.h * p.dK)
    ensures HeadsFit(r.1, p.h, |query|, |key|)
    ensures forall i :: 0 <= i < p.h ==>
              r.1[i] == Attention(nm, Head(LinearRows(p.linear[0], query), p.h, p.dK, i),
                                  Head(LinearRows(p.linear[1], key), p.h, p.dK, i),
                                  Head(LinearRows(p.linear[2], value), p.h, p.dK, i), p.dK, p.dK, mask).1
  {
    var qs := SplitHeads(LinearRows(p.linear[0], query), p.h, p.dK);
    var ks := SplitHeads(LinearRows(p.linear[1], key), p.h, p.dK);
    var vs := SplitHeads(LinearRows(p.linear[2], value), p.h, p.dK);
    var heads := seq(p.h, i requires 0 <= i < p.h => Attention(nm, qs[i], ks[i], vs[i], p.dK, p.dK, mask));
    var merged := MergeHeads(seq(p.h, i requires 0 <= i < p.h => heads[i].0), p.h, p.dK, |query|);
    (LinearRows(p.linear[3], merged), seq(p.h, i requires 0 <= i < p.h => heads[i].1))
  }

  /** No head's attention weights depend on the keys at positions that the
      mask hides from every query. */
  lemma MultiHeadIgnoresMaskedKeys(nm: Numerics, p: MhaParams, query: Mat, key1: Mat, key2: Mat, value: Mat, mask: Mask)
    requires nm.Valid() && MhaOk(p, p.h * p.dK)
    requires AttendFits(p.h * p.dK, query, key1, value, Some(mask)) && AttendFits(p.h * p.dK, query, key2, value, Some(mask))
    requires forall i, j :: 0 <= i < |query| && 0 <= j < |key1| && MaskAt(mask, i, j) != 0 ==> key1[j] == key2[j]
    ensures MultiHeadAttend(nm, p, query, key1, value, Some(mask)).1 == MultiHeadAttend(nm, p, query, key2, value, Some(mask)).1
  {
    var r1, r2 := MultiHeadAttend(nm, p, query, key1, value, Some(mask)), MultiHeadAttend(nm, p, query, key2, value, Some(mask));
    var q, v := LinearRows(p.linear[0], query), LinearRows(p.linear[2], value);
    var k1, k2 := LinearRows(p.linear[1], key1), LinearRows(p.linear[1], key2);
    forall hd | 0 <= hd < p.h
      ensures r1.1[hd] == r2.1[hd]
    {
      var K1, K2 := Head(k1, p.h, p.dK, hd), Head(k2, p.h, p.dK, hd);
      forall i, j | 0 <= i < |query| && 0 <= j < |key1| && MaskAt(mask, i, j) != 0
        ensures K1[j] == K2[j]
      {
        assert k1[j] == ApplyLinear(p.linear[1], key1[j]);
        assert k2[j] == ApplyLinear(p.linear[1], key2[j]);
      }
      AttentionIgnoresMaskedKeys(nm, Head(q, p.h, p.dK, hd), K1, K2, Head(v, p.h, p.dK, hd), p.dK, p.dK, mask);
    }
  }

  /** The per-sample mask of a batch, if any. */
  function MaskOf(mask: Option<seq<Mask>>, b: nat): Option<Mask>
    requires mask.Some? ==> b < |mask.value|
  {
    if mask.Some? then Some(mask.value[b]) else None
  }

  /** Query, key, value and mask of a batch fit a model of width `dModel`. */
  predicate BatchFits(dModel: nat, query: seq<Mat>, key: seq<Mat>, value: seq<Mat>, mask: Option<seq<Mask>>) {
    && |key| == |query| && |value| == |query| && (mask.Some? ==> |mask.value| == |query|)
    && forall b :: 0 <= b < |query| ==> AttendFits(dModel, query[b], key[b], value[b], MaskOf(mask, b))
  }

  /** The `MultiHeadAttention` module; `forward` records the attention weights
      of its last call in `attn`. */
  class MultiHeadAttention {
    const h: nat
    const dK: nat
    const linear: seq<Linear>
    var attn: Option<seq<seq<Mat>>>

    ghost predicate Valid() {
      MhaOk(MhaParams(h, dK, linear), h * dK)
    }

    function Params(): MhaParams {
      MhaParams(h, dK, linear)
    }

    constructor (h: nat, dK: nat, linear: seq<Linear>)
      ensures this.h == h && this.dK == dK && this.linear == linear && attn == None
    {
      this.h, this.dK, this.linear := h, dK, linear;
      attn := None;
    }

    /** `MultiHeadAttention(h, d_model)`: fails as `HeadDim` does, and
        otherwise holds four clones of the (d_model x d_model) projection and
        no recorded attention. */
    static method Create(h: nat, dModel: nat, proto: Linear) returns (r: Result<MultiHeadAttention, ConfigError>)
      requires LinearOk(proto) && proto.inDim == dModel && proto.outDim == dModel
      ensures r.Ok? <==> HeadDim(h, dModel).Ok?
      ensures r.Err? ==> r.error == HeadDim(h, dModel).error
      ensures r.Ok? ==> fresh(r.value) && r.value.Valid() && r.value.h == h && r.value.h * r.value.dK == dModel
      ensures r.Ok? ==> r.value.linear == Clones(proto, 4) && r.value.attn == None
    {
      var dK := HeadDim(h, dModel);
      if dK.Err? {
        return Err(dK.error);
      }
      var m := new MultiHeadAttention(h, dK.value, Clones(proto, 4));
      return Ok(m);
    }

    /** `MultiHeadAttention.forward` on a batch: every sample is attended as
        `MultiHeadAttend` says, and the weights of all samples are stored. */
    method Forward(nm: Numerics, query: seq<Mat>, key: seq<Mat>, value: seq<Mat>, mask: Option<seq<Mask>>) returns (out: seq<Mat>)
      requires nm.Valid() && Valid() && BatchFits(h * dK, query, key, value, mask)
      modifies this
      ensures |out| == |query| && attn.Some? && |attn.value| == |query|
      ensures forall b :: 0 <= b < |query| ==>
                out[b] == MultiHeadAttend(nm, Params(), query[b], key[b], value[b], MaskOf(mask, b)).0 &&
                attn.value[b] == MultiHeadAttend(nm, Params(), query[b], key[b], value[b], MaskOf(mask, b)).1
    {
      var p := Params();
      var results := seq(|query|, b requires 0 <= b < |query| =>
                       MultiHeadAttend(nm, p, query[b], key[b], value[b], MaskOf(mask, b)));
      out := seq(|query|, b requires 0 <= b < |query| => results[b].0);
      attn := Some(seq(|query|, b requires 0 <= b < |query| => results[b].1));
    }
  }

  // ---------------------------------------------------------------------
  // PositionWiseFeedForward (lines 183-191)
  // ---------------------------------------------------------------------

  datatype FeedForward = FeedForward(w1: Linear, w2: Linear)

  predicate FeedForwardOk(f: FeedForward, dModel: nat) {
    && LinearOk(f.w1) && LinearOk(f.w2)
    && f.w1.inDim == dModel && f.w1.outDim == f.w2.inDim && f.w2.outDim == dModel
  }

  /** `w_2(relu(w_1(x)))` on one position (dropout is the identity). */
  function FeedForwardApply(f: FeedForward, x: Vec): (y: Vec)
    requires LinearOk(f.w1) && LinearOk(f.w2) && f.w1.outDim == f.w2.inDim && |x| == f.w1.inDim
    ensures |y| == f.w2.outDim
  {
    ApplyLinear(f.w2, Relu(ApplyLinear(f.w1, x)))
  }

  /** The feed-forward block is a two-layer `MLP`: ReLU after the first layer only. */
  lemma FeedForwardIsMlp(f: FeedForward, x: Vec)
    requires LinearOk(f.w1) && LinearOk(f.w2) && f.w1.outDim == f.w2.inDim && |x| == f.w1.inDim
    ensures MlpAccepts(Mlp(2, [f.w1, f.w2]), x)
    ensures FeedForwardApply(f, x) == MlpApply(Mlp(2, [f.w1, f.w2]), x)
  {
    var m := Mlp(2, [f.w1, f.w2]);
    assert MlpPrefix(m, x, 1) == Relu(ApplyLinear(f.w1, x));
  }

  function FeedForwardRows(f: FeedForward, x: Mat, dModel: nat): (y: Mat)
    requires FeedForwardOk(f, dModel) && Rect(x, dModel)
    ensures IsMatrix(y, |x|, dModel)
  {
    seq(|x|, i requires 0 <= i < |x| => FeedForwardApply(f, x[i]))
  }

  // ---------------------------------------------------------------------
  // SublayerConnection (lines 66-73)
  // ---------------------------------------------------------------------

  /** The two kinds of sublayer an encoder layer passes to its connections:
      self-attention with `q = k = v` under a mask, and the feed-forward block. */
  datatype Sublayer = SelfAttention(attn: MhaParams, mask: Option<Mask>) | PositionWise(ffn: FeedForward)

  predicate SublayerFits(s: Sublayer, dModel: nat, len: nat) {
    match s
    case SelfAttention(p, mask) => MhaOk(p, dModel) && (mask.Some? ==> MaskFits(mask.value, len, len))
    case PositionWise(f) => FeedForwardOk(f, dModel)
  }

  /** Calling the sublayer on `x`; the self-attention lambda of
      `EncoderLayer.forward` passes its argument as query, key and value. */
  function RunSublayer(nm: Numerics, s: Sublayer, x: Mat, dModel: nat): (y: Mat)
    requires nm.Valid() && SublayerFits(s, dModel, |x|) && Rect(x, dModel)
    ensures IsMatrix(y, |x|, dModel)
  {
    match s
    case SelfAttention(p, mask) => MultiHeadAttend(nm, p, x, x, x, mask).0
    case PositionWise(f) => FeedForwardRows(f, x, dModel)
  }

  /** `x + dropout(sublayer(norm(x)))` with dropout the identity: the
      sublayer sees the normalised input and its output is added to the
      unnormalised input, keeping the shape. */
  function SublayerConnection(nm: Numerics, norm: LayerNorm, x: Mat, s: Sublayer): (y: Mat)
    requires nm.Valid() && LayerNormOk(norm, norm.features) && Rect(x, norm.features) && SublayerFits(s, norm.features, |x|)
    ensures IsMatrix(y, |x|, norm.features)
    ensures forall i, c :: 0 <= i < |x| && 0 <= c < norm.features ==>
              y[i][c] == x[i][c] + RunSublayer(nm, s, NormalizeRows(nm, norm, x), norm.features)[i][c]
  {
    var z := RunSublayer(nm, s, NormalizeRows(nm, norm, x), norm.features);
    seq(|x|, i requires 0 <= i < |x| => seq(norm.features, c requires 0 <= c < norm.features => x[i][c] + z[i][c]))
  }

  /** A sublayer that contributes zeros leaves the input as it was: the
      connection is a residual one. */
  lemma SublayerConnectionResidual(nm: Numerics, norm: LayerNorm, x: Mat, s: Sublayer)
    requires nm.Valid() && LayerNormOk(norm, norm.features) && Rect(x, norm.features) && SublayerFits(s, norm.features, |x|)
    requires forall i, c :: 0 <= i < |x| && 0 <= c < norm.features ==>
               RunSublayer(nm, s, NormalizeRows(nm, norm, x), norm.features)[i][c] == 0.0
    ensures SublayerConnection(nm, norm, x, s) == x
  {
    var y := SublayerConnection(nm, norm, x, s);
    forall i | 0 <= i < |x|
      ensures y[i] == x[i]
    {
      assert |y[i]| == |x[i]|;
    }
  }

  // ---------------------------------------------------------------------
  // EncoderLayer (lines 129-140)
  // ---------------------------------------------------------------------

  /** An `EncoderLayer`: its width, its attention and feed-forward blocks and
      the layer norms of its sublayer connections. */
  datatype EncoderLayer = EncoderLayer(size: nat, selfAttn: MhaParams, ffn: FeedForward, sublayer: seq<LayerNorm>)

  /** `EncoderLayer(size, self_attn, fnn, dropout)`: two clones of a fresh
      sublayer connection. */
  function MakeEncoderLayer(size: nat, selfAttn: MhaParams, ffn: FeedForward): (l: EncoderLayer)
    ensures l.size == size && l.selfAttn == selfAttn && l.ffn == ffn
    ensures |l.sublayer| == 2 && l.sublayer[0] == l.sublayer[1] == FreshLayerNorm(size)
  {
    EncoderLayer(size, selfAttn, ffn, Clones(FreshLayerNorm(size), 2))
  }

  predicate EncoderLayerOk(l: EncoderLayer, dModel: nat) {
    && l.size == dModel && |l.sublayer| == 2
    && LayerNormOk(l.sublayer[0], dModel) && LayerNormOk(l.sublayer[1], dModel)
    && MhaOk(l.selfAttn, dModel) && FeedForwardOk(l.ffn, dModel)
  }

  /** A freshly made layer is well formed whenever its blocks are. */
  lemma MakeEncoderLayerOk(size: nat, selfAttn: MhaParams, ffn: FeedForward)
    requires MhaOk(selfAttn, size) && FeedForwardOk(ffn, size)
    ensures EncoderLayerOk(MakeEncoderLayer(size, selfAttn, ffn), size)
  {
  }

  predicate MaskFitsLen(mask: Option<Mask>, len: nat) {
    mask.Some? ==> MaskFits(mask.value, len, len)
  }

  /** `EncoderLayer.forward`: connection 0 around self-attention, then
      connection 1 around the feed-forward block. */
  function EncoderLayerForward(nm: Numerics, l: EncoderLayer, x: Mat, mask: Option<Mask>): (y: Mat)
    requires nm.Valid() && EncoderLayerOk(l, l.size) && Rect(x, l.size) && MaskFitsLen(mask, |x|)
    ensures IsMatrix(y, |x|, l.size)
  {
    var afterAttn := SublayerConnection(nm, l.sublayer[0], x, SelfAttention(l.selfAttn, mask));
    SublayerConnection(nm, l.sublayer[1], afterAttn, PositionWise(l.ffn))
  }

  /** The wiring of an encoder layer: entry (i, c) is the input plus the
      self-attention output (q = k = v = the normalised input), plus the
      feed-forward output on the normalised sum. */
  lemma EncoderLayerWiring(nm: Numerics, l: EncoderLayer, x: Mat, mask: Option<Mask>, i: nat, c: nat)
    requires nm.Valid() && EncoderLayerOk(l, l.size) && Rect(x, l.size) && MaskFitsLen(mask, |x|)
    requires i < |x| && c < l.size
    ensures var n0 := NormalizeRows(nm, l.sublayer[0], x);
            var a := MultiHeadAttend(nm, l.selfAttn, n0, n0, n0, mask).0;
            var mid := SublayerConnection(nm, l.sublayer[0], x, SelfAttention(l.selfAttn, mask));
            && mid[i][c] == x[i][c] + a[i][c]
            && EncoderLayerForward(nm, l, x, mask)[i][c]
               == mid[i][c] + FeedForwardRows(l.ffn, NormalizeRows(nm, l.sublayer[1], mid), l.size)[i][c]
  {
  }

  // ---------------------------------------------------------------------
  // Encoder (lines 115-124)
  // ---------------------------------------------------------------------

  datatype Encoder = Encoder(layers: seq<EncoderLayer>, norm: LayerNorm)

  /** `Encoder(encoder_layer, N)`: N clones of the layer and a fresh layer norm. */
  function MakeEncoder(layer: EncoderLayer, n: nat): (e: Encoder)
    ensures |e.layers| == n && (forall i :: 0 <= i < n ==> e.layers[i] == layer)
    ensures e.norm == FreshLayerNorm(layer.size)
  {
    Encoder(Clones(layer, n), FreshLayerNorm(layer.size))
  }

  predicate LayersOk(layers: seq<EncoderLayer>, dModel: nat) {
    forall i :: 0 <= i < |layers| ==> EncoderLayerOk(layers[i], dModel)
  }

  predicate EncoderOk(e: Encoder, dModel: nat) {
    LayerNormOk(e.norm, dModel) && LayersOk(e.layers, dModel)
  }

  /** The layers applied in list order, all under the same mask. */
  function ApplyLayers(nm: Numerics, layers: seq<EncoderLayer>, x: Mat, mask: Option<Mask>, dModel: nat): (y: Mat)
    requires nm.Valid() && LayersOk(layers, dModel) && Rect(x, dModel) && MaskFitsLen(mask, |x|)
    ensures IsMatrix(y, |x|, dModel)
    decreases |layers|
  {
    if |layers| == 0 then x
    else ApplyLayers(nm, layers[1..], EncoderLayerForward(nm, layers[0], x, mask), mask, dModel)
  }

  lemma LayersOkAppend(a: seq<EncoderLayer>, b: seq<EncoderLayer>, dModel: nat)
    requires LayersOk(a, dModel) && LayersOk(b, dModel)
    ensures LayersOk(a + b, dModel)
  {
    forall i | 0 <= i < |a + b|
      ensures EncoderLayerOk((a + b)[i], dModel)
    {
      if i >= |a| {
        assert (a + b)[i] == b[i - |a|];
      }
    }
  }

  /** Running two lists of layers one after the other is running their
      concatenation: the first list's layers come first. */
  lemma {:induction false} ApplyLayersAppend(nm: Numerics, a: seq<EncoderLayer>, b: seq<EncoderLayer>, x: Mat, mask: Option<Mask>, dModel: nat)
    requires nm.Valid() && LayersOk(a, dModel) && LayersOk(b, dModel) && Rect(x, dModel) && MaskFitsLen(mask, |x|)
    ensures LayersOk(a + b, dModel)
    ensures ApplyLayers(nm, a + b, x, mask, dModel) == ApplyLayers(nm, b, ApplyLayers(nm, a, x, mask, dModel), mask, dModel)
  {
    LayersOkAppend(a, b, dModel);
    if |a| == 0 {
      assert a + b == b;
    } else {
      var y := EncoderLayerForward(nm, a[0], x, mask);
      assert (a + b)[0] == a[0];
      assert (a + b)[1..] == a[1..] + b;
      ApplyLayersAppend(nm, a[1..], b, y, mask, dModel);
    }
  }

  /** `n` layers, each run once on what the previous one returned. */
  function Iterate(nm: Numerics, l: EncoderLayer, n: nat, x: Mat, mask: Option<Mask>): (y: Mat)
    requires nm.Valid() && EncoderLayerOk(l, l.size) && Rect(x, l.size) && MaskFitsLen(mask, |x|)
    ensures IsMatrix(y, |x|, l.size)
  {
    if n == 0 then x else EncoderLayerForward(nm, l, Iterate(nm, l, n - 1, x, mask), mask)
  }

  /** An encoder of N clones applies its layer N times. */
  lemma {:induction false} ClonedLayersIterate(nm: Numerics, l: EncoderLayer, n: nat, x: Mat, mask: Option<Mask>)
    requires nm.Valid() && EncoderLayerOk(l, l.size) && Rect(x, l.size) && MaskFitsLen(mask, |x|)
    ensures LayersOk(Clones(l, n), l.size)
    ensures ApplyLayers(nm, Clones(l, n), x, mask, l.size) == Iterate(nm, l, n, x, mask)
  {
    if n > 0 {
      ClonedLayersIterate(nm, l, n - 1, x, mask);
      assert Clones(l, n) == Clones(l, n - 1) + [l];
      ApplyLayersAppend(nm, Clones(l, n - 1), [l], x, mask, l.size);
      var y := ApplyLayers(nm, Clones(l, n - 1), x, mask, l.size);
      assert ApplyLayers(nm, [l], y, mask, l.size) == EncoderLayerForward(nm, l, y, mask);
    }
  }

  /** `Encoder.forward` as a value: the layers, then the final norm once. */
  function EncoderApply(nm: Numerics, e: Encoder, x: Mat, mask: Option<Mask>): (y: Mat)
    requires nm.Valid() && EncoderOk(e, e.norm.features) && Rect(x, e.norm.features) && MaskFitsLen(mask, |x|)
    ensures IsMatrix(y, |x|, e.norm.features)
  {
    NormalizeRows(nm, e.norm, ApplyLayers(nm, e.layers, x, mask, e.norm.features))
  }

  /** `Encoder.forward`. */
  method EncoderForward(nm: Numerics, e: Encoder, x: Mat, mask: Option<Mask>) returns (y: Mat)
    requires nm.Valid() && EncoderOk(e, e.norm.features) && Rect(x, e.norm.features) && MaskFitsLen(mask, |x|)
    ensures y == EncoderApply(nm, e, x, mask)
    ensures IsMatrix(y, |x|, e.norm.features)
  {
    var d := e.norm.features;
    y := x;
    for i := 0 to |e.layers|
      invariant IsMatrix(y, |x|, d)
      invariant ApplyLayers(nm, e.layers[i..], y, mask, d) == ApplyLayers(nm, e.layers, x, mask, d)
    {
      assert e.layers[i..][1..] == e.layers[i + 1..];
      y := EncoderLayerForward(nm, e.layers[i], y, mask);
    }
    y := NormalizeRows(nm, e.norm, y);
  }

  // ---------------------------------------------------------------------
  // TokenEmbedding (lines 49-59)
  // ---------------------------------------------------------------------

  /** `nn.Embedding(vocab_size, d_model)` with its table. */
  datatype TokenEmbedding = TokenEmbedding(vocab: nat, dModel: nat, table: Mat)

  predicate TokenEmbeddingOk(t: TokenEmbedding) {
    IsMatrix(t.table, t.vocab, t.dModel)
  }

  predicate InVocab(t: TokenEmbedding, tokens: seq<int>) {
    forall i :: 0 <= i < |tokens| ==> 0 <= tokens[i] < t.vocab
  }

  /** Row `id` of the table scaled by `sqrt(d_model)`. */
  function EmbedRow(nm: Numerics, t: TokenEmbedding, id: int): (row: Vec)
    requires TokenEmbeddingOk(t) && 0 <= id < t.vocab
    ensures |row| == t.dModel
  {
    seq(t.dModel, c requires 0 <= c < t.dModel => t.table[id][c] * nm.sqrt(t.dModel))
  }

  /** `TokenEmbedding.forward`: the lookup fails unless every id is in
      `0 .. vocab_size - 1`; otherwise position `i` is row `tokens[i]` of the
      table scaled by `sqrt(d_model)`. */
  function Embed(nm: Numerics, t: TokenEmbedding, tokens: seq<int>): (r: Option<Mat>)
    requires TokenEmbeddingOk(t)
    ensures r.Some? <==> InVocab(t, tokens)
    ensures r.Some? ==> IsMatrix(r.value, |tokens|, t.dModel)
    ensures r.Some? ==> forall i, c :: 0 <= i < |tokens| && 0 <= c < t.dModel ==>
                          r.value[i][c] == t.table[tokens[i]][c] * nm.sqrt(t.dModel)
  {
    if !InVocab(t, tokens) then None
    else Some(seq(|tokens|, i requires 0 <= i < |tokens| => EmbedRow(nm, t, tokens[i])))
  }

  lemma InVocabAppend(t: TokenEmbedding, a: seq<int>, b: seq<int>)
    ensures InVocab(t, a + b) <==> InVocab(t, a) && InVocab(t, b)
  {
    var ab := a + b;
    assert forall i :: 0 <= i < |a| ==> ab[i] == a[i];
    assert forall i :: 0 <= i < |b| ==> ab[|a| + i] == b[i];
  }

  /** The lookup is position-wise: embedding a concatenation concatenates the
      embeddings, and it fails when either part does. */
  lemma EmbedAppend(nm: Numerics, t: TokenEmbedding, a: seq<int>, b: seq<int>)
    requires TokenEmbeddingOk(t)
    ensures Embed(nm, t, a + b).Some? <==> Embed(nm, t, a).Some? && Embed(nm, t, b).Some?
    ensures Embed(nm, t, a + b).Some? ==> Embed(nm, t, a + b).value == Embed(nm, t, a).value + Embed(nm, t, b).value
  {
    InVocabAppend(t, a, b);
    var ab := a + b;
    if InVocab(t, ab) {
      var r, ra, rb := Embed(nm, t, ab).value, Embed(nm, t, a).value, Embed(nm, t, b).value;
      forall i | 0 <= i < |ab|
        ensures r[i] == (ra + rb)[i]
      {
        assert r[i] == EmbedRow(nm, t, ab[i]);
        if i < |a| {
          assert ab[i] == a[i] && ra[i] == EmbedRow(nm, t, a[i]);
        } else {
          assert ab[i] == b[i - |a|] && rb[i - |a|] == EmbedRow(nm, t, b[i - |a|]);
        }
      }
      assert r == ra + rb;
    }
  }

  // ---------------------------------------------------------------------
  // LanguageModel (lines 78-109)
  // ---------------------------------------------------------------------

  /** `torch.cat((a, b, c), dim=-1)` for three tensors of width `d`: every
      position is the three rows side by side, in that order. */
  function Concat3(a: Mat, b: Mat, c: Mat, d: nat): (r: Mat)
    requires |a| == |b| == |c| && Rect(a, d) && Rect(b, d) && Rect(c, d)
    ensures IsMatrix(r, |a|, 3 * d)
    ensures forall i :: 0 <= i < |a| ==> r[i][..d] == a[i] && r[i][d .. 2 * d] == b[i] && r[i][2 * d ..] == c[i]
  {
    var r := seq(|a|, i requires 0 <= i < |a| => a[i] + b[i] + c[i]);
    assert forall i :: 0 <= i < |a| ==> r[i][..d] == a[i] && r[i][d .. 2 * d] == b[i] && r[i][2 * d ..] == c[i];
    r
  }

  /** `PositionalEncoding`: a fixed table of at least `seq_len` rows added to
      the input (dropout is the identity). */
  function AddPositions(table: Mat, x: Mat, dModel: nat): (y: Mat)
    requires Rect(table, dModel) && Rect(x, dModel) && |x| <= |table|
    ensures IsMatrix(y, |x|, dModel)
    ensures forall i, c :: 0 <= i < |x| && 0 <= c < dModel ==> y[i][c] == x[i][c] + table[i][c]
  {
    seq(|x|, i requires 0 <= i < |x| => seq(dModel, c requires 0 <= c < dModel => x[i][c] + table[i][c]))
  }

  /** The modules `LanguageModel.__init__` creates; the image backbone is
      not part of this model, its output is an input of `Forward`. */
  datatype LanguageModelNet = LanguageModelNet(
    dModel: nat, dFeedforward: nat, encoder: Encoder, bboxEmbed: Mlp,
    classEmbed: TokenEmbedding, positions: Mat, mixNet: Mlp, generator: Mlp)

  /** The shapes `__init__` gives its modules. */
  predicate LanguageModelOk(m: LanguageModelNet) {
    && MlpBuiltAs(m.bboxEmbed, 4, m.dFeedforward, m.dModel, 3)
    && TokenEmbeddingOk(m.classEmbed) && m.classEmbed.dModel == m.dModel
    && MlpBuiltAs(m.mixNet, 3 * m.dModel, m.dFeedforward, m.dModel, 3)
    && MlpBuiltAs(m.generator, m.dModel, m.dModel, 4, 3)
    && EncoderOk(m.encoder, m.dModel) && m.encoder.norm.features == m.dModel
    && Rect(m.positions, m.dModel)
  }

  /** One sample of a batch: class labels, boxes (one row of four per
      position) and the backbone's image features. */
  predicate SampleFits(m: LanguageModelNet, labels: seq<int>, bbox: Mat, img: Mat) {
    && InVocab(m.classEmbed, labels)
    && |bbox| == |labels| && Rect(bbox, 4)
    && |img| == |labels| && Rect(img, m.dModel)
  }

  /** The input of `mix_net`: class, box and image embeddings concatenated in
      that order, `3 * d_model` features per position, which is the width the
      first layer of `mix_net` reads. */
  function MixInput(nm: Numerics, m: LanguageModelNet, labels: seq<int>, bbox: Mat, img: Mat): (x: Mat)
    requires LanguageModelOk(m) && SampleFits(m, labels, bbox, img)
    ensures IsMatrix(x, |labels|, 3 * m.dModel) && m.mixNet.layers[0].inDim == 3 * m.dModel
    ensures forall i :: 0 <= i < |labels| ==>
              && x[i][..m.dModel] == Embed(nm, m.classEmbed, labels).value[i]
              && x[i][m.dModel .. 2 * m.dModel] == MlpApply(m.bboxEmbed, bbox[i])
              && x[i][2 * m.dModel ..] == img[i]
  {
    MlpBuiltIsChained(m.bboxEmbed, 4, m.dFeedforward, m.dModel, 3);
    MlpBuiltIsChained(m.mixNet, 3 * m.dModel, m.dFeedforward, m.dModel, 3);
    var classes := Embed(nm, m.classEmbed, labels).value;
    var boxes := MlpRows(m.bboxEmbed, bbox);
    Concat3(classes, boxes, img, m.dModel)
  }

  /** `LanguageModel.forward` on one sample: it fails on an unknown class id,
      a shape that does not fit, a sequence longer than the position table or
      a mask that does not fit; otherwise every position gets four values,
      the sigmoid of the generator's output. */
  function LanguageModelForward(nm: Numerics, m: LanguageModelNet, labels: seq<int>, bbox: Mat, img: Mat, mask: Option<Mask>): (r: Option<Mat>)
    requires nm.Valid() && LanguageModelOk(m)
    ensures r.Some? <==> SampleFits(m, labels, bbox, img) && |labels| <= |m.positions| && MaskFitsLen(mask, |labels|)
    ensures r.Some? ==> IsMatrix(r.value, |labels|, 4)
  {
    if !(SampleFits(m, labels, bbox, img) && |labels| <= |m.positions| && MaskFitsLen(mask, |labels|)) then None
    else Some(ForwardSample(nm, m, labels, bbox, img, mask))
  }

  /** The layers of `LanguageModel.forward` on a sample that fits: `mix_net`
      on the concatenated embeddings, the positions added, the encoder, the
      generator and the sigmoid of every value. */
  function ForwardSample(nm: Numerics, m: LanguageModelNet, labels: seq<int>, bbox: Mat, img: Mat, mask: Option<Mask>): (y: Mat)
    requires nm.Valid() && LanguageModelOk(m) && SampleFits(m, labels, bbox, img)
    requires |labels| <= |m.positions| && MaskFitsLen(mask, |labels|)
    ensures IsMatrix(y, |labels|, 4)
  {
    var mixed := Mixed(nm, m, labels, bbox, img);
    Generate(nm, m, EncoderApply(nm, m.encoder, AddPositions(m.positions, mixed, m.dModel), mask))
  }

  /** `mix_net` applied to the concatenated embeddings. */
  function Mixed(nm: Numerics, m: LanguageModelNet, labels: seq<int>, bbox: Mat, img: Mat): (x: Mat)
    requires LanguageModelOk(m) && SampleFits(m, labels, bbox, img)
    ensures IsMatrix(x, |labels|, m.dModel)
  {
    MlpBuiltIsChained(m.mixNet, 3 * m.dModel, m.dFeedforward, m.dModel, 3);
    MlpRows(m.mixNet, MixInput(nm, m, labels, bbox, img))
  }

  /** The generator, then the sigmoid of every value. */
  function Generate(nm: Numerics, m: LanguageModelNet, encoded: Mat): (y: Mat)
    requires LanguageModelOk(m) && Rect(encoded, m.dModel)
    ensures IsMatrix(y, |encoded|, 4)
  {
    MlpBuiltIsChained(m.generator, m.dModel, m.dModel, 4, 3);
    var out := MlpRows(m.generator, encoded);
    seq(|out|, i requires 0 <= i < |out| => seq(4, c requires 0 <= c < 4 => nm.sigmoid(out[i][c])))
  }
}
