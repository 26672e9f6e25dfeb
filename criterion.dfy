/**
 * Box geometry and the masked L1 + generalized-IoU box loss (`MutiLoss`) of
 * script/criterion.py, over exact reals.
 *
 * Tensors of boxes are sequences of four-field records: a row of a tensor in
 * centre form (cx, cy, w, h) is a `CenterBox`, a row in corner form
 * (x0, y0, x1, y1) a `CornerBox`.  A tensor element is a `Float`: a finite
 * real, or the infinity/NaN that a division by zero produces.
 */
module Criterion {
  import opened Wrappers
  import opened Tensors

  // ---------------------------------------------------------------------
  // Tensor scalars
  // ---------------------------------------------------------------------

  /** A tensor element: a finite real, or the infinity/NaN that a division by
      zero produces and that every later arithmetic operation keeps. */
  datatype Float = Finite(val: real) | NonFinite

  /** Tensor division `n / d`: finite exactly when `d` is not zero. */
  function Quotient(n: real, d: real): (r: Float)
    ensures r.Finite? <==> d != 0.0
    ensures r.Finite? ==> r.val * d == n
  {
    if d == 0.0 then NonFinite else Finite(n / d)
  }

  function Minus(a: Float, b: Float): Float {
    if a.Finite? && b.Finite? then Finite(a.val - b.val) else NonFinite
  }

  function Plus(a: Float, b: Float): Float {
    if a.Finite? && b.Finite? then Finite(a.val + b.val) else NonFinite
  }

  function Scale(c: real, a: Float): Float {
    if a.Finite? then Finite(c * a.val) else NonFinite
  }

  function DivideBy(a: Float, d: real): Float {
    if a.Finite? then Quotient(a.val, d) else NonFinite
  }

  /** `.sum()` of a one-dimensional tensor: finite exactly when every element is. */
  function Sum(xs: seq<Float>): (r: Float)
    ensures r.Finite? <==> forall i :: 0 <= i < |xs| ==> xs[i].Finite?
  {
    if |xs| == 0 then Finite(0.0)
    else
      var rest := Sum(xs[1..]);
      assert forall i :: 1 <= i < |xs| ==> xs[i] == xs[1..][i - 1];
      Plus(xs[0], rest)
  }

  // ---------------------------------------------------------------------
  // Box formats (lines 7-18)
  // ---------------------------------------------------------------------

  datatype CenterBox = CenterBox(cx: real, cy: real, w: real, h: real)

  datatype CornerBox = CornerBox(x0: real, y0: real, x1: real, y1: real)

  /** What the assertions of `generalized_box_iou` demand of a box. */
  predicate CornersOrdered(b: CornerBox) {
    b.x1 >= b.x0 && b.y1 >= b.y0
  }

  predicate AllOrdered(bs: seq<CornerBox>) {
    forall i :: 0 <= i < |bs| ==> CornersOrdered(bs[i])
  }

  /** `tensor_cxcywh_to_xyxy` on one row: the corner box has the centre and
      the extent of the centre box, and its corners are ordered exactly when
      the width and height are not negative. */
  function CenterToCorners(c: CenterBox): (b: CornerBox)
    ensures b.x1 - b.x0 == c.w && b.y1 - b.y0 == c.h
    ensures b.x0 + b.x1 == 2.0 * c.cx && b.y0 + b.y1 == 2.0 * c.cy
    ensures CornersOrdered(b) <==> c.w >= 0.0 && c.h >= 0.0
  {
    CornerBox(c.cx - 0.5 * c.w, c.cy - 0.5 * c.h, c.cx + 0.5 * c.w, c.cy + 0.5 * c.h)
  }

  /** `tensor_xyxy_to_cxcywh` on one row: half the extent either side of the
      centre gives back the corners. */
  function CornersToCenter(b: CornerBox): (c: CenterBox)
    ensures c.cx - 0.5 * c.w == b.x0 && c.cx + 0.5 * c.w == b.x1
    ensures c.cy - 0.5 * c.h == b.y0 && c.cy + 0.5 * c.h == b.y1
    ensures c.w >= 0.0 && c.h >= 0.0 <==> CornersOrdered(b)
  {
    CenterBox((b.x0 + b.x1) / 2.0, (b.y0 + b.y1) / 2.0, b.x1 - b.x0, b.y1 - b.y0)
  }

  lemma CenterCornerRoundTrip(c: CenterBox)
    ensures CornersToCenter(CenterToCorners(c)) == c
  {
  }

  lemma CornerCenterRoundTrip(b: CornerBox)
    ensures CenterToCorners(CornersToCenter(b)) == b
  {
  }

  // ---------------------------------------------------------------------
  // IoU and generalized IoU of one pair of boxes (lines 21-57)
  // ---------------------------------------------------------------------

  /** torchvision's `box_area`, taken as (x1 - x0) * (y1 - y0). */
  function Area(b: CornerBox): real {
    Width(b) * Height(b)
  }

  function Width(b: CornerBox): real {
    b.x1 - b.x0
  }

  function Height(b: CornerBox): real {
    b.y1 - b.y0
  }

  function Max(a: real, b: real): real {
    if a >= b then a else b
  }

  function Min(a: real, b: real): real {
    if a <= b then a else b
  }

  /** `.clamp(min=0)` */
  function ClampLow(v: real): real {
    if v < 0.0 then 0.0 else v
  }

  function InterWidth(b1: CornerBox, b2: CornerBox): real {
    ClampLow(Min(b1.x1, b2.x1) - Max(b1.x0, b2.x0))
  }

  function InterHeight(b1: CornerBox, b2: CornerBox): real {
    ClampLow(Min(b1.y1, b2.y1) - Max(b1.y0, b2.y0))
  }

  function Inter(b1: CornerBox, b2: CornerBox): real {
    InterWidth(b1, b2) * InterHeight(b1, b2)
  }

  function Union(b1: CornerBox, b2: CornerBox): real {
    Area(b1) + Area(b2) - Inter(b1, b2)
  }

  function Iou(b1: CornerBox, b2: CornerBox): Float {
    Quotient(Inter(b1, b2), Union(b1, b2))
  }

  function EnclosingWidth(b1: CornerBox, b2: CornerBox): real {
    ClampLow(Max(b1.x1, b2.x1) - Min(b1.x0, b2.x0))
  }

  function EnclosingHeight(b1: CornerBox, b2: CornerBox): real {
    ClampLow(Max(b1.y1, b2.y1) - Min(b1.y0, b2.y0))
  }

  /** Area of the smallest axis-aligned box holding both boxes. */
  function EnclosingArea(b1: CornerBox, b2: CornerBox): real {
    EnclosingWidth(b1, b2) * EnclosingHeight(b1, b2)
  }

  function Giou(b1: CornerBox, b2: CornerBox): Float {
    var area := EnclosingArea(b1, b2);
    Minus(Iou(b1, b2), Quotient(area - Union(b1, b2), area))
  }

  lemma ProductNonNegative(a: real, b: real)
    requires 0.0 <= a && 0.0 <= b
    ensures 0.0 <= a * b
  {
  }

  lemma ProductMonotone(a: real, b: real, c: real, d: real)
    requires 0.0 <= a <= c && 0.0 <= b <= d
    ensures a * b <= c * d
  {
    ProductNonNegative(c - a, b);
    ProductNonNegative(c, d - b);
  }

  lemma FractionWithinUnit(n: real, d: real)
    requires 0.0 <= n <= d && d > 0.0
    ensures 0.0 <= n / d <= 1.0
  {
    var q := n / d;
    assert q * d == n;
    assert (1.0 - q) * d == d - n;
  }

  /** Area bound behind "the enclosing box covers the union": with overlaps
      wi, hi and enclosing extents wc, hc on the two axes. */
  lemma CoverBound(w1: real, h1: real, w2: real, h2: real, wi: real, hi: real, wc: real, hc: real)
    requires 0.0 <= wi <= w1 && wi <= w2 && 0.0 <= hi <= h1 && hi <= h2
    requires wc >= w1 + w2 - wi && hc >= h1 + h2 - hi
    ensures wc * hc >= w1 * h1 + w2 * h2 - wi * hi
  {
    var cw, ch := w1 + w2 - wi, h1 + h2 - hi;
    ProductMonotone(cw, ch, wc, hc);
    assert cw * ch == w1 * h1 + w2 * h2 - wi * hi + (w1 - wi) * (h2 - hi) + (w2 - wi) * (h1 - hi);
    ProductNonNegative(w1 - wi, h2 - hi);
    ProductNonNegative(w2 - wi, h1 - hi);
  }

  /** One axis of two ordered boxes: the clamped overlap fits in either
      interval and the enclosing interval covers both minus their overlap. */
  lemma IntervalFacts(a0: real, a1: real, b0: real, b1: real)
    requires a0 <= a1 && b0 <= b1
    ensures 0.0 <= ClampLow(Min(a1, b1) - Max(a0, b0)) <= a1 - a0
    ensures ClampLow(Min(a1, b1) - Max(a0, b0)) <= b1 - b0
    ensures ClampLow(Max(a1, b1) - Min(a0, b0))
            >= (a1 - a0) + (b1 - b0) - ClampLow(Min(a1, b1) - Max(a0, b0))
  {
  }

  /** `IntervalFacts` on both axes of two ordered boxes. */
  lemma OverlapFacts(b1: CornerBox, b2: CornerBox)
    requires CornersOrdered(b1) && CornersOrdered(b2)
    ensures 0.0 <= InterWidth(b1, b2) <= Width(b1) && InterWidth(b1, b2) <= Width(b2)
    ensures 0.0 <= InterHeight(b1, b2) <= Height(b1) && InterHeight(b1, b2) <= Height(b2)
    ensures EnclosingWidth(b1, b2) >= Width(b1) + Width(b2) - InterWidth(b1, b2)
    ensures EnclosingHeight(b1, b2) >= Height(b1) + Height(b2) - InterHeight(b1, b2)
  {
    IntervalFacts(b1.x0, b1.x1, b2.x0, b2.x1);
    IntervalFacts(b1.y0, b1.y1, b2.y0, b2.y1);
  }

  /** The clamped intersection is never negative and fits inside each box. */
  lemma IntersectionWithinAreas(b1: CornerBox, b2: CornerBox)
    requires CornersOrdered(b1) && CornersOrdered(b2)
    ensures 0.0 <= Inter(b1, b2) <= Area(b1)
    ensures Inter(b1, b2) <= Area(b2)
  {
    IntersectionWithinFirst(b1, b2);
    IntersectionWithinFirst(b2, b1);
    InterSymmetric(b1, b2);
  }

  lemma IntersectionWithinFirst(b1: CornerBox, b2: CornerBox)
    requires CornersOrdered(b1) && CornersOrdered(b2)
    ensures 0.0 <= Inter(b1, b2) <= Area(b1)
  {
    OverlapFacts(b1, b2);
    var wi, hi := InterWidth(b1, b2), InterHeight(b1, b2);
    ProductNonNegative(wi, hi);
    ProductMonotone(wi, hi, Width(b1), Height(b1));
  }

  /** The union is at least either area and at least the intersection. */
  lemma UnionBounds(b1: CornerBox, b2: CornerBox)
    requires CornersOrdered(b1) && CornersOrdered(b2)
    ensures Union(b1, b2) >= Area(b1) >= 0.0 && Union(b1, b2) >= Area(b2) >= 0.0
    ensures Union(b1, b2) >= Inter(b1, b2)
  {
    IntersectionWithinAreas(b1, b2);
    ProductNonNegative(Width(b1), Height(b1));
    ProductNonNegative(Width(b2), Height(b2));
  }

  /** For ordered boxes the IoU is defined exactly when the union is not
      zero, and then lies in [0, 1]. */
  lemma IouWithinUnitInterval(b1: CornerBox, b2: CornerBox)
    requires CornersOrdered(b1) && CornersOrdered(b2)
    ensures Iou(b1, b2).Finite? <==> Union(b1, b2) > 0.0
    ensures Iou(b1, b2).Finite? ==> 0.0 <= Iou(b1, b2).val <= 1.0
  {
    UnionBounds(b1, b2);
    IntersectionWithinAreas(b1, b2);
    if Union(b1, b2) > 0.0 {
      FractionWithinUnit(Inter(b1, b2), Union(b1, b2));
    }
  }

  /** The enclosing box contains both boxes, so its area is at least the union. */
  lemma EnclosingCoversUnion(b1: CornerBox, b2: CornerBox)
    requires CornersOrdered(b1) && CornersOrdered(b2)
    ensures EnclosingArea(b1, b2) >= Union(b1, b2)
  {
    var wi, hi := InterWidth(b1, b2), InterHeight(b1, b2);
    var wc, hc := EnclosingWidth(b1, b2), EnclosingHeight(b1, b2);
    OverlapFacts(b1, b2);
    CoverBound(Width(b1), Height(b1), Width(b2), Height(b2), wi, hi, wc, hc);
  }

  /** For ordered boxes the GIoU is defined exactly when the union is not
      zero, and then -1 <= GIoU <= IoU <= 1. */
  lemma GiouBounds(b1: CornerBox, b2: CornerBox)
    requires CornersOrdered(b1) && CornersOrdered(b2)
    ensures Giou(b1, b2).Finite? <==> Union(b1, b2) > 0.0
    ensures Giou(b1, b2).Finite? ==>
              -1.0 <= Giou(b1, b2).val <= Iou(b1, b2).val <= 1.0
  {
    IouWithinUnitInterval(b1, b2);
    EnclosingCoversUnion(b1, b2);
    if Union(b1, b2) > 0.0 {
      var a, u := EnclosingArea(b1, b2), Union(b1, b2);
      FractionWithinUnit(a - u, a);
      assert Giou(b1, b2).val == Iou(b1, b2).val - (a - u) / a;
    }
  }

  /** IoU and GIoU do not depend on the order of the two boxes. */
  lemma GiouSymmetric(b1: CornerBox, b2: CornerBox)
    ensures Iou(b1, b2) == Iou(b2, b1)
    ensures Giou(b1, b2) == Giou(b2, b1)
  {
    InterSymmetric(b1, b2);
    EnclosingSymmetric(b1, b2);
    assert Union(b2, b1) == Union(b1, b2);
  }

  lemma InterSymmetric(b1: CornerBox, b2: CornerBox)
    ensures Inter(b1, b2) == Inter(b2, b1)
  {
    assert InterWidth(b2, b1) == InterWidth(b1, b2);
    assert InterHeight(b2, b1) == InterHeight(b1, b2);
  }

  lemma EnclosingSymmetric(b1: CornerBox, b2: CornerBox)
    ensures EnclosingArea(b1, b2) == EnclosingArea(b2, b1)
  {
    assert EnclosingWidth(b2, b1) == EnclosingWidth(b1, b2);
    assert EnclosingHeight(b2, b1) == EnclosingHeight(b1, b2);
  }

  /** A box of positive area overlaps itself completely: IoU = GIoU = 1. */
  lemma GiouOfItself(b: CornerBox)
    requires CornersOrdered(b) && Area(b) > 0.0
    ensures Iou(b, b) == Finite(1.0)
    ensures Giou(b, b) == Finite(1.0)
  {
    assert InterWidth(b, b) == b.x1 - b.x0 && InterHeight(b, b) == b.y1 - b.y0;
    assert EnclosingWidth(b, b) == b.x1 - b.x0 && EnclosingHeight(b, b) == b.y1 - b.y0;
    assert Inter(b, b) == Area(b);
    assert EnclosingArea(b, b) == Area(b);
    assert Union(b, b) == Area(b);
  }

  // ---------------------------------------------------------------------
  // Pairwise matrices (lines 21-57)
  // ---------------------------------------------------------------------

  /** `box_iou`: the N x M matrices of pairwise IoU and union. */
  function BoxIou(boxes1: seq<CornerBox>, boxes2: seq<CornerBox>): (r: (seq<seq<Float>>, seq<seq<real>>))
    ensures IsMatrix(r.0, |boxes1|, |boxes2|) && IsMatrix(r.1, |boxes1|, |boxes2|)
    ensures forall i, j :: 0 <= i < |boxes1| && 0 <= j < |boxes2| ==>
              r.0[i][j] == Iou(boxes1[i], boxes2[j]) && r.1[i][j] == Union(boxes1[i], boxes2[j])
  {
    var inter := seq(|boxes1|, i requires 0 <= i < |boxes1| =>
                   seq(|boxes2|, j requires 0 <= j < |boxes2| => Inter(boxes1[i], boxes2[j])));
    var union := seq(|boxes1|, i requires 0 <= i < |boxes1| =>
                   seq(|boxes2|, j requires 0 <= j < |boxes2| =>
                     Area(boxes1[i]) + Area(boxes2[j]) - inter[i][j]));
    var iou := seq(|boxes1|, i requires 0 <= i < |boxes1| =>
                 seq(|boxes2|, j requires 0 <= j < |boxes2| => Quotient(inter[i][j], union[i][j])));
    (iou, union)
  }

  /** Both box lists of a call to `box_iou` give transposed matrices when swapped. */
  lemma BoxIouTransposed(boxes1: seq<CornerBox>, boxes2: seq<CornerBox>)
    ensures forall i, j :: 0 <= i < |boxes1| && 0 <= j < |boxes2| ==>
              BoxIou(boxes1, boxes2).0[i][j] == BoxIou(boxes2, boxes1).0[j][i] &&
              BoxIou(boxes1, boxes2).1[i][j] == BoxIou(boxes2, boxes1).1[j][i]
  {
    var r, t := BoxIou(boxes1, boxes2), BoxIou(boxes2, boxes1);
    forall i, j | 0 <= i < |boxes1| && 0 <= j < |boxes2|
      ensures r.0[i][j] == t.0[j][i] && r.1[i][j] == t.1[j][i]
    {
      GiouSymmetric(boxes1[i], boxes2[j]);
      InterSymmetric(boxes1[i], boxes2[j]);
    }
  }

  datatype LossError = DegenerateBoxes | ShapeMismatch

  /** `generalized_box_iou`: fails its assertions on any box whose corners are
      out of order; otherwise the N x M matrix of pairwise GIoU. */
  function GeneralizedBoxIou(boxes1: seq<CornerBox>, boxes2: seq<CornerBox>): (r: Result<seq<seq<Float>>, LossError>)
    ensures r.Ok? <==> AllOrdered(boxes1) && AllOrdered(boxes2)
    ensures r.Err? ==> r.error == DegenerateBoxes
    ensures r.Ok? ==> IsMatrix(r.value, |boxes1|, |boxes2|)
    ensures r.Ok? ==> forall i, j :: 0 <= i < |boxes1| && 0 <= j < |boxes2| ==>
                        r.value[i][j] == Giou(boxes1[i], boxes2[j])
  {
    if !AllOrdered(boxes1) || !AllOrdered(boxes2) then Err(DegenerateBoxes)
    else
      var iouUnion := BoxIou(boxes1, boxes2);
      Ok(seq(|boxes1|, i requires 0 <= i < |boxes1| =>
           seq(|boxes2|, j requires 0 <= j < |boxes2| =>
             var area := EnclosingArea(boxes1[i], boxes2[j]);
             Minus(iouUnion.0[i][j], Quotient(area - iouUnion.1[i][j], area)))))
  }

  /** Swapping the arguments of `generalized_box_iou` transposes its matrix. */
  lemma GeneralizedBoxIouTransposed(boxes1: seq<CornerBox>, boxes2: seq<CornerBox>)
    ensures GeneralizedBoxIou(boxes1, boxes2).Ok? == GeneralizedBoxIou(boxes2, boxes1).Ok?
    ensures GeneralizedBoxIou(boxes1, boxes2).Ok? ==>
              forall i, j :: 0 <= i < |boxes1| && 0 <= j < |boxes2| ==>
                GeneralizedBoxIou(boxes1, boxes2).value[i][j] == GeneralizedBoxIou(boxes2, boxes1).value[j][i]
  {
    if GeneralizedBoxIou(boxes1, boxes2).Ok? {
      forall i, j | 0 <= i < |boxes1| && 0 <= j < |boxes2|
        ensures GeneralizedBoxIou(boxes1, boxes2).value[i][j] == GeneralizedBoxIou(boxes2, boxes1).value[j][i]
      {
        GiouSymmetric(boxes1[i], boxes2[j]);
      }
    }
  }

  // ---------------------------------------------------------------------
  // Mask selection (lines 71-79)
  // ---------------------------------------------------------------------

  function Count(keep: seq<bool>): (n: nat)
    ensures n <= |keep|
  {
    if |keep| == 0 then 0 else (if keep[0] then 1 else 0) + Count(keep[1..])
  }

  /** `torch.masked_select` of a flat tensor by an aligned boolean mask. */
  function Select<T>(xs: seq<T>, keep: seq<bool>): (r: seq<T>)
    requires |xs| == |keep|
    ensures |r| == Count(keep)
  {
    if |xs| == 0 then [] else (if keep[0] then [xs[0]] else []) + Select(xs[1..], keep[1..])
  }

  /** Positions `off + i` of the true entries `keep[i]`, in increasing order. */
  function KeptFrom(keep: seq<bool>, off: nat): seq<nat> {
    if |keep| == 0 then [] else (if keep[0] then [off] else []) + KeptFrom(keep[1..], off + 1)
  }

  function KeptIndices(keep: seq<bool>): seq<nat> {
    KeptFrom(keep, 0)
  }

  lemma {:induction false} KeptFromFacts(keep: seq<bool>, off: nat)
    ensures |KeptFrom(keep, off)| == Count(keep)
    ensures forall a, b :: 0 <= a < b < |KeptFrom(keep, off)| ==> KeptFrom(keep, off)[a] < KeptFrom(keep, off)[b]
    ensures forall k :: 0 <= k < |KeptFrom(keep, off)| ==> off <= KeptFrom(keep, off)[k] < off + |keep|
    ensures forall i :: i in KeptFrom(keep, off) <==> off <= i < off + |keep| && keep[i - off]
  {
    if |keep| > 0 {
      KeptFromFacts(keep[1..], off + 1);
      var rest := KeptFrom(keep[1..], off + 1);
      assert KeptFrom(keep, off) == (if keep[0] then [off] else []) + rest;
      forall i
        ensures i in KeptFrom(keep, off) <==> off <= i < off + |keep| && keep[i - off]
      {
        if i != off && off <= i < off + |keep| {
          assert keep[i - off] == keep[1..][i - (off + 1)];
        }
      }
    }
  }

  lemma {:induction false} SelectAt<T>(xs: seq<T>, keep: seq<bool>, off: nat)
    requires |xs| == |keep|
    ensures |Select(xs, keep)| == |KeptFrom(keep, off)|
    ensures forall k :: 0 <= k < |Select(xs, keep)| ==>
              off <= KeptFrom(keep, off)[k] < off + |xs| && Select(xs, keep)[k] == xs[KeptFrom(keep, off)[k] - off]
  {
    KeptFromFacts(keep, off);
    if |xs| > 0 {
      SelectAt(xs[1..], keep[1..], off + 1);
      KeptFromFacts(keep[1..], off + 1);
      var s, ks := Select(xs[1..], keep[1..]), KeptFrom(keep[1..], off + 1);
      forall k | 0 <= k < |Select(xs, keep)|
        ensures Select(xs, keep)[k] == xs[KeptFrom(keep, off)[k] - off]
      {
        if keep[0] && k == 0 {
        } else {
          var k' := if keep[0] then k - 1 else k;
          assert Select(xs, keep)[k] == s[k'];
          assert KeptFrom(keep, off)[k] == ks[k'];
          assert s[k'] == xs[1..][ks[k'] - (off + 1)];
        }
      }
    }
  }

  /** `masked_select` keeps exactly the entries whose mask is true, in their
      original order: the i-th kept entry is the one at the i-th true position. */
  lemma SelectKeepsMarkedInOrder<T>(xs: seq<T>, keep: seq<bool>)
    requires |xs| == |keep|
    ensures |Select(xs, keep)| == |KeptIndices(keep)| == Count(keep)
    ensures forall a, b :: 0 <= a < b < |KeptIndices(keep)| ==> KeptIndices(keep)[a] < KeptIndices(keep)[b]
    ensures forall i :: i in KeptIndices(keep) <==> 0 <= i < |keep| && keep[i]
    ensures forall k :: 0 <= k < |Select(xs, keep)| ==>
              KeptIndices(keep)[k] < |xs| && Select(xs, keep)[k] == xs[KeptIndices(keep)[k]]
  {
    KeptFromFacts(keep, 0);
    SelectAt(xs, keep, 0);
  }

  lemma {:induction false} SelectAppend<T>(xs1: seq<T>, k1: seq<bool>, xs2: seq<T>, k2: seq<bool>)
    requires |xs1| == |k1| && |xs2| == |k2|
    ensures Select(xs1 + xs2, k1 + k2) == Select(xs1, k1) + Select(xs2, k2)
  {
    if |xs1| > 0 {
      assert (xs1 + xs2)[1..] == xs1[1..] + xs2;
      assert (k1 + k2)[1..] == k1[1..] + k2;
      SelectAppend(xs1[1..], k1[1..], xs2, k2);
    } else {
      assert xs1 + xs2 == xs2 && k1 + k2 == k2;
    }
  }

  lemma {:induction false} SelectUniform<T>(xs: seq<T>, keep: seq<bool>)
    requires |xs| == |keep|
    ensures (forall i :: 0 <= i < |keep| ==> keep[i]) ==> Select(xs, keep) == xs
    ensures (forall i :: 0 <= i < |keep| ==> !keep[i]) ==> Select(xs, keep) == []
  {
    if |xs| > 0 {
      SelectUniform(xs[1..], keep[1..]);
      assert forall i :: 0 <= i < |keep| - 1 ==> keep[1..][i] == keep[i + 1];
      assert xs == [xs[0]] + xs[1..];
    }
  }

  /** A box tensor viewed as its flat list of coordinates. */
  function Coords(bs: seq<CenterBox>): (r: seq<real>)
    ensures |r| == 4 * |bs|
  {
    if |bs| == 0 then [] else Quad(bs[0]) + Coords(bs[1..])
  }

  function Quad(b: CenterBox): seq<real> {
    [b.cx, b.cy, b.w, b.h]
  }

  /** `mask.unsqueeze(-1).repeat(1, 4)` viewed flat: every entry four times. */
  function Repeat4(m: seq<bool>): (r: seq<bool>)
    ensures |r| == 4 * |m|
  {
    if |m| == 0 then [] else [m[0], m[0], m[0], m[0]] + Repeat4(m[1..])
  }

  /** `reshape(-1, 4)` of a flat list of coordinates. */
  function Rows(xs: seq<real>): (r: seq<CenterBox>)
    requires |xs| % 4 == 0
    ensures |r| == |xs| / 4
    decreases |xs|
  {
    if |xs| == 0 then [] else [CenterBox(xs[0], xs[1], xs[2], xs[3])] + Rows(xs[4..])
  }

  /** Four equal mask entries keep all four coordinates of a box or none. */
  lemma SelectQuad(b: CenterBox, k: bool)
    ensures Select(Quad(b), [k, k, k, k]) == if k then Quad(b) else []
  {
    SelectUniform(Quad(b), [k, k, k, k]);
  }

  lemma CoordsRepeatCons(rows: seq<CenterBox>, mask: seq<bool>)
    requires |rows| == |mask| > 0
    ensures Coords(rows) == Quad(rows[0]) + Coords(rows[1..])
    ensures Repeat4(mask) == [mask[0], mask[0], mask[0], mask[0]] + Repeat4(mask[1..])
  {
  }

  /** Selecting from the coordinates of a non-empty box list by the repeated
      mask: the first box's four coordinates or nothing, then the rest. */
  lemma SelectCoordsStep(rows: seq<CenterBox>, mask: seq<bool>)
    requires |rows| == |mask| > 0
    ensures Select(Coords(rows), Repeat4(mask)) ==
              (if mask[0] then Quad(rows[0]) else []) + Select(Coords(rows[1..]), Repeat4(mask[1..]))
  {
    var k := mask[0];
    CoordsRepeatCons(rows, mask);
    SelectQuad(rows[0], k);
    SelectAppend(Quad(rows[0]), [k, k, k, k], Coords(rows[1..]), Repeat4(mask[1..]));
  }

  lemma RowsOfQuad(b: CenterBox, tail: seq<real>)
    requires |tail| % 4 == 0
    ensures Rows(Quad(b) + tail) == [b] + Rows(tail)
  {
    var all := Quad(b) + tail;
    assert all[4..] == tail;
  }

  lemma {:induction false} SelectRepeat4(rows: seq<CenterBox>, mask: seq<bool>)
    requires |rows| == |mask|
    ensures |Select(Coords(rows), Repeat4(mask))| == 4 * Count(mask)
    ensures Rows(Select(Coords(rows), Repeat4(mask))) == Select(rows, mask)
  {
    if |rows| > 0 {
      SelectCoordsStep(rows, mask);
      SelectRepeat4(rows[1..], mask[1..]);
      var tail := Select(Coords(rows[1..]), Repeat4(mask[1..]));
      assert Select(rows, mask) == (if mask[0] then [rows[0]] else []) + Select(rows[1..], mask[1..]);
      if mask[0] {
        RowsOfQuad(rows[0], tail);
      } else {
        assert [] + tail == tail;
      }
    }
  }

  /** The boxes that `masked_select(boxes, mask.unsqueeze(-1).repeat(1, 4)).reshape(-1, 4)`
      keeps: exactly the rows whose mask entry is true. */
  function MaskedRows(rows: seq<CenterBox>, mask: seq<bool>): (r: seq<CenterBox>)
    requires |rows| == |mask|
    ensures r == Select(rows, mask)
  {
    SelectRepeat4(rows, mask);
    Rows(Select(Coords(rows), Repeat4(mask)))
  }

  /** Two lengths of the row axis that `masked_select` can broadcast against
      each other: equal, or one of them 1. */
  predicate Broadcasts(n: nat, m: nat) {
    n == m || n == 1 || m == 1
  }

  /** The length both sides are stretched to. */
  function BroadcastLength(n: nat, m: nat): (l: nat)
    requires Broadcasts(n, m)
    ensures (n == 1 ==> l == m) && (n != 1 ==> l == n)
  {
    if n == 1 then m else n
  }

  /** A sequence of length `n`, or of length 1 repeated `n` times. */
  function Expand<T>(xs: seq<T>, n: nat): (r: seq<T>)
    requires |xs| == n || |xs| == 1
    ensures |r| == n && forall i :: 0 <= i < n ==> r[i] == (if |xs| == n then xs[i] else xs[0])
  {
    if |xs| == n then xs else seq(n, i => xs[0])
  }

  /** `masked_select` of a tensor of rows by a mask over rows, after torch has
      broadcast the two to a common number of rows. */
  function BroadcastSelect<T>(xs: seq<T>, keep: seq<bool>): seq<T>
    requires Broadcasts(|xs|, |keep|)
  {
    var n := BroadcastLength(|xs|, |keep|);
    Select(Expand(xs, n), Expand(keep, n))
  }

  /** The three broadcasting cases: an aligned mask selects row by row, a
      one-entry mask keeps every row or none, and a one-row tensor is kept
      once for every true mask entry. */
  lemma BroadcastSelectCases<T>(xs: seq<T>, keep: seq<bool>)
    requires Broadcasts(|xs|, |keep|)
    ensures |xs| == |keep| ==> BroadcastSelect(xs, keep) == Select(xs, keep)
    ensures |keep| == 1 ==> BroadcastSelect(xs, keep) == (if keep[0] then xs else [])
    ensures |xs| == 1 ==> |BroadcastSelect(xs, keep)| == Count(keep)
    ensures |xs| == 1 ==> forall k :: 0 <= k < |BroadcastSelect(xs, keep)| ==> BroadcastSelect(xs, keep)[k] == xs[0]
  {
    var n := BroadcastLength(|xs|, |keep|);
    if |keep| == 1 {
      SelectUniform(Expand(xs, n), Expand(keep, n));
      assert Expand(xs, n) == xs;
    }
    if |xs| == 1 {
      assert Expand(keep, n) == keep;
      SelectKeepsMarkedInOrder(Expand(xs, n), keep);
    }
  }

  // ---------------------------------------------------------------------
  // The loss (lines 60-88)
  // ---------------------------------------------------------------------

  const L1_WEIGHT: real := 1.0
  const GIOU_WEIGHT: real := 1.0

  function Abs(x: real): real {
    if x < 0.0 then -x else x
  }

  function RowL1(p: CenterBox, t: CenterBox): real {
    Abs(p.cx - t.cx) + Abs(p.cy - t.cy) + Abs(p.w - t.w) + Abs(p.h - t.h)
  }

  /** `F.l1_loss(p, t, reduction='none').sum()`: all four absolute
      differences of every row, added up; never negative. */
  function L1Sum(p: seq<CenterBox>, t: seq<CenterBox>): (r: real)
    requires |p| == |t|
    ensures r >= 0.0
  {
    if |p| == 0 then 0.0 else RowL1(p[0], t[0]) + L1Sum(p[1..], t[1..])
  }

  /** The summed L1 distance vanishes exactly on identical box lists. */
  lemma {:induction false} L1SumZeroIff(p: seq<CenterBox>, t: seq<CenterBox>)
    requires |p| == |t|
    ensures L1Sum(p, t) == 0.0 <==> p == t
  {
    if |p| > 0 {
      L1SumZeroIff(p[1..], t[1..]);
      assert p == [p[0]] + p[1..] && t == [t[0]] + t[1..];
      if p == t {
        assert p[1..] == t[1..];
      }
    }
  }

  function ToCorners(bs: seq<CenterBox>): (r: seq<CornerBox>)
    ensures |r| == |bs| && forall i :: 0 <= i < |bs| ==> r[i] == CenterToCorners(bs[i])
  {
    seq(|bs|, i requires 0 <= i < |bs| => CenterToCorners(bs[i]))
  }

  /** `torch.diag` of a square matrix. */
  function Diag(m: seq<seq<Float>>): (d: seq<Float>)
    requires forall i :: 0 <= i < |m| ==> |m[i]| == |m|
    ensures |d| == |m| && forall i :: 0 <= i < |m| ==> d[i] == m[i][i]
  {
    seq(|m|, i requires 0 <= i < |m| => m[i][i])
  }

  predicate NonNegativeSizes(bs: seq<CenterBox>) {
    forall i :: 0 <= i < |bs| ==> bs[i].w >= 0.0 && bs[i].h >= 0.0
  }

  /** The rows of a box tensor that the mask keeps. */
  function Kept(boxes: seq<seq<CenterBox>>, seqMask: seq<seq<bool>>): seq<CenterBox>
    requires Broadcasts(|Flatten(boxes)|, |Flatten(seqMask)|)
  {
    BroadcastSelect(Flatten(boxes), Flatten(seqMask))
  }

  /** Both box tensors broadcast against the mask and keep as many
      predictions as targets. */
  predicate ShapesAgree(boxes: seq<seq<CenterBox>>, boxesTrg: seq<seq<CenterBox>>, seqMask: seq<seq<bool>>) {
    && Broadcasts(|Flatten(boxes)|, |Flatten(seqMask)|)
    && Broadcasts(|Flatten(boxesTrg)|, |Flatten(seqMask)|)
    && |Kept(boxes, seqMask)| == |Kept(boxesTrg, seqMask)|
  }

  /** A one-entry mask is broadcast over every row: when it is true, all rows
      of two equally long box tensors take part in the loss, otherwise none. */
  lemma OneEntryMaskBroadcast(boxes: seq<seq<CenterBox>>, boxesTrg: seq<seq<CenterBox>>, b: bool)
    requires |Flatten(boxes)| == |Flatten(boxesTrg)|
    ensures ShapesAgree(boxes, boxesTrg, [[b]])
    ensures Kept(boxes, [[b]]) == (if b then Flatten(boxes) else [])
    ensures Kept(boxesTrg, [[b]]) == (if b then Flatten(boxesTrg) else [])
  {
    assert Flatten([[b]]) == [b] + Flatten<bool>([]);
    BroadcastSelectCases(Flatten(boxes), [b]);
    BroadcastSelectCases(Flatten(boxesTrg), [b]);
  }

  /** `MutiLoss.forward`: the weighted sum of the mean L1 distance and the mean
      (1 - GIoU) over the masked positions, both divided by `numBoxes`.
      A shape mismatch or a kept box of negative width or height fails. */
  function MutiLoss(boxes: seq<seq<CenterBox>>, boxesTrg: seq<seq<CenterBox>>,
                    numBoxes: real, seqMask: seq<seq<bool>>): (r: Result<Float, LossError>)
    ensures r == Err(ShapeMismatch) <==> !ShapesAgree(boxes, boxesTrg, seqMask)
    ensures r == Err(DegenerateBoxes) <==>
              ShapesAgree(boxes, boxesTrg, seqMask) &&
              !(NonNegativeSizes(Kept(boxes, seqMask)) && NonNegativeSizes(Kept(boxesTrg, seqMask)))
  {
    if !ShapesAgree(boxes, boxesTrg, seqMask) then Err(ShapeMismatch)
    else
      var mask := Flatten(seqMask);
      var flat, flatTrg := Flatten(boxes), Flatten(boxesTrg);
      var n, nTrg := BroadcastLength(|flat|, |mask|), BroadcastLength(|flatTrg|, |mask|);
      LossOfKeptRows(MaskedRows(Expand(flat, n), Expand(mask, n)),
                     MaskedRows(Expand(flatTrg, nTrg), Expand(mask, nTrg)), numBoxes)
  }

  /** The reductions of `MutiLoss.forward` once the masked rows are selected. */
  function LossOfKeptRows(pred: seq<CenterBox>, trg: seq<CenterBox>, numBoxes: real): (r: Result<Float, LossError>)
    requires |pred| == |trg|
    ensures r.Err? <==> !(NonNegativeSizes(pred) && NonNegativeSizes(trg))
    ensures r.Err? ==> r.error == DegenerateBoxes
  {
    var lossL1 := Quotient(L1Sum(pred, trg), numBoxes);
    match GeneralizedBoxIou(ToCorners(pred), ToCorners(trg))
    case Err(e) => Err(e)
    case Ok(g) =>
      Ok(Plus(Scale(L1_WEIGHT, lossL1), Scale(GIOU_WEIGHT, GiouLoss(g, numBoxes))))
  }

  /** `(1 - torch.diag(giou)).sum() / num_boxes` for a square GIoU matrix. */
  function GiouLoss(g: seq<seq<Float>>, numBoxes: real): Float
    requires forall i :: 0 <= i < |g| ==> |g[i]| == |g|
  {
    var diag := Diag(g);
    DivideBy(Sum(seq(|diag|, i requires 0 <= i < |diag| => Minus(Finite(1.0), diag[i]))), numBoxes)
  }

  /** A prediction row and its target row have sizes of at least zero and a
      union that is not zero, so their GIoU is a finite number. */
  predicate PairWellDefined(c: CenterBox, d: CenterBox) {
    c.w >= 0.0 && c.h >= 0.0 && d.w >= 0.0 && d.h >= 0.0 &&
    Union(CenterToCorners(c), CenterToCorners(d)) > 0.0
  }

  /** Every kept pair of rows is well defined. */
  predicate PairsWellDefined(p: seq<CenterBox>, t: seq<CenterBox>)
    requires |p| == |t|
  {
    forall i :: 0 <= i < |p| ==> PairWellDefined(p[i], t[i])
  }

  /** The GIoU of a well-defined pair of rows, as a number in [-1, 1]. */
  function PairGiou(c: CenterBox, d: CenterBox): (v: real)
    requires PairWellDefined(c, d)
    ensures Giou(CenterToCorners(c), CenterToCorners(d)) == Finite(v) && -1.0 <= v <= 1.0
  {
    GiouBounds(CenterToCorners(c), CenterToCorners(d));
    Giou(CenterToCorners(c), CenterToCorners(d)).val
  }

  /** Sum of (1 - GIoU) over corresponding rows of two box lists, the
      reference for the diagonal of the pairwise matrix. */
  function PairedGiouLoss(p: seq<CenterBox>, t: seq<CenterBox>): real
    requires |p| == |t| && PairsWellDefined(p, t)
  {
    if |p| == 0 then 0.0
    else
      assert forall i :: 0 <= i < |p| - 1 ==> p[1..][i] == p[i + 1] && t[1..][i] == t[i + 1];
      1.0 - PairGiou(p[0], t[0]) + PairedGiouLoss(p[1..], t[1..])
  }

  lemma {:induction false} PairedGiouLossSum(p: seq<CenterBox>, t: seq<CenterBox>, xs: seq<Float>)
    requires |p| == |t| == |xs| && PairsWellDefined(p, t)
    requires forall i :: 0 <= i < |xs| ==> xs[i] == Minus(Finite(1.0), Giou(CenterToCorners(p[i]), CenterToCorners(t[i])))
    ensures Sum(xs) == Finite(PairedGiouLoss(p, t))
  {
    if |p| > 0 {
      assert PairsWellDefined(p[1..], t[1..]) by {
        assert forall i :: 0 <= i < |p| - 1 ==> p[1..][i] == p[i + 1] && t[1..][i] == t[i + 1];
      }
      var p', t', xs' := p[1..], t[1..], xs[1..];
      forall i | 0 <= i < |xs'|
        ensures xs'[i] == Minus(Finite(1.0), Giou(CenterToCorners(p'[i]), CenterToCorners(t'[i])))
      {
        assert xs'[i] == xs[i + 1] && p'[i] == p[i + 1] && t'[i] == t[i + 1];
      }
      PairedGiouLossSum(p', t', xs');
      var v := PairGiou(p[0], t[0]);
      assert xs[0] == Finite(1.0 - v);
      assert Sum(xs) == Plus(xs[0], Sum(xs'));
    }
  }

  /** Each term 1 - GIoU lies in [0, 2]. */
  lemma {:induction false} PairedGiouLossBounds(p: seq<CenterBox>, t: seq<CenterBox>)
    requires |p| == |t| && PairsWellDefined(p, t)
    ensures 0.0 <= PairedGiouLoss(p, t) <= 2.0 * |p| as real
  {
    if |p| > 0 {
      assert PairsWellDefined(p[1..], t[1..]) by {
        assert forall i :: 0 <= i < |p| - 1 ==> p[1..][i] == p[i + 1] && t[1..][i] == t[i + 1];
      }
      PairedGiouLossBounds(p[1..], t[1..]);
      var v := PairGiou(p[0], t[0]);
      assert PairedGiouLoss(p, t) == 1.0 - v + PairedGiouLoss(p[1..], t[1..]);
    }
  }

  /** The diagonal of the pairwise GIoU matrix pairs row i of the
      predictions with row i of the targets. */
  lemma GiouLossIsPaired(pred: seq<CenterBox>, trg: seq<CenterBox>, numBoxes: real)
    requires |pred| == |trg| && PairsWellDefined(pred, trg)
    ensures GeneralizedBoxIou(ToCorners(pred), ToCorners(trg)).Ok?
    ensures GiouLoss(GeneralizedBoxIou(ToCorners(pred), ToCorners(trg)).value, numBoxes) ==
              Quotient(PairedGiouLoss(pred, trg), numBoxes)
  {
    var c1, c2 := ToCorners(pred), ToCorners(trg);
    assert AllOrdered(c1) && AllOrdered(c2);
    var g := GeneralizedBoxIou(c1, c2);
    var diag := Diag(g.value);
    var xs := seq(|diag|, i requires 0 <= i < |diag| => Minus(Finite(1.0), diag[i]));
    PairedGiouLossSum(pred, trg, xs);
  }

  /** Where every kept pair is well defined and the count is not zero, the
      loss is the L1 sum plus the sum of (1 - GIoU) of corresponding rows,
      over the count (both weights are 1). */
  lemma LossOfKeptRowsValue(pred: seq<CenterBox>, trg: seq<CenterBox>, numBoxes: real)
    requires |pred| == |trg| && numBoxes != 0.0 && PairsWellDefined(pred, trg)
    ensures LossOfKeptRows(pred, trg, numBoxes) ==
              Ok(Finite(L1Sum(pred, trg) / numBoxes + PairedGiouLoss(pred, trg) / numBoxes))
  {
    GiouLossIsPaired(pred, trg, numBoxes);
    var l1, giou := L1Sum(pred, trg) / numBoxes, PairedGiouLoss(pred, trg) / numBoxes;
    assert Quotient(L1Sum(pred, trg), numBoxes) == Finite(l1);
    assert LossOfKeptRows(pred, trg, numBoxes) ==
             Ok(Plus(Scale(L1_WEIGHT, Finite(l1)), Scale(GIOU_WEIGHT, Finite(giou))));
    UnitWeights(l1, giou);
  }

  /** With both weights 1 the weighted sum is the plain sum. */
  lemma UnitWeights(a: real, b: real)
    ensures Plus(Scale(L1_WEIGHT, Finite(a)), Scale(GIOU_WEIGHT, Finite(b))) == Finite(a + b)
  {
  }

  /** `MutiLoss.forward` in terms of the kept rows (see `LossOfKeptRowsValue`). */
  lemma MutiLossValue(boxes: seq<seq<CenterBox>>, boxesTrg: seq<seq<CenterBox>>,
                      numBoxes: real, seqMask: seq<seq<bool>>)
    requires ShapesAgree(boxes, boxesTrg, seqMask) && numBoxes != 0.0
    requires PairsWellDefined(Kept(boxes, seqMask), Kept(boxesTrg, seqMask))
    ensures MutiLoss(boxes, boxesTrg, numBoxes, seqMask) ==
              Ok(Finite(L1Sum(Kept(boxes, seqMask), Kept(boxesTrg, seqMask)) / numBoxes
                        + PairedGiouLoss(Kept(boxes, seqMask), Kept(boxesTrg, seqMask)) / numBoxes))
  {
    LossOfKeptRowsValue(Kept(boxes, seqMask), Kept(boxesTrg, seqMask), numBoxes);
  }

  lemma QuotientNonNegative(n: real, d: real)
    requires n >= 0.0 && d > 0.0
    ensures n / d >= 0.0
  {
  }

  /** A box of positive width and height overlaps itself with GIoU 1. */
  lemma PositiveBoxAgainstItself(c: CenterBox)
    requires c.w > 0.0 && c.h > 0.0
    ensures Union(CenterToCorners(c), CenterToCorners(c)) > 0.0
    ensures Giou(CenterToCorners(c), CenterToCorners(c)) == Finite(1.0)
  {
    var b := CenterToCorners(c);
    assert Area(b) == c.w * c.h;
    assert Area(b) > 0.0;
    GiouOfItself(b);
    UnionBounds(b, b);
  }

  lemma {:induction false} PairedGiouLossOfItself(p: seq<CenterBox>)
    requires PairsWellDefined(p, p)
    requires forall i :: 0 <= i < |p| ==> Giou(CenterToCorners(p[i]), CenterToCorners(p[i])) == Finite(1.0)
    ensures PairedGiouLoss(p, p) == 0.0
  {
    if |p| > 0 {
      assert forall i :: 0 <= i < |p| - 1 ==> p[1..][i] == p[i + 1];
      PairedGiouLossOfItself(p[1..]);
    }
  }

  /** Identical predictions and targets whose kept boxes all have positive
      width and height give a loss of exactly zero. */
  lemma MutiLossOfIdenticalBoxes(boxes: seq<seq<CenterBox>>, numBoxes: real, seqMask: seq<seq<bool>>)
    requires Broadcasts(|Flatten(boxes)|, |Flatten(seqMask)|) && numBoxes != 0.0
    requires forall i :: 0 <= i < |Kept(boxes, seqMask)| ==>
               Kept(boxes, seqMask)[i].w > 0.0 && Kept(boxes, seqMask)[i].h > 0.0
    ensures MutiLoss(boxes, boxes, numBoxes, seqMask) == Ok(Finite(0.0))
  {
    var pred := Kept(boxes, seqMask);
    forall i | 0 <= i < |pred|
      ensures PairWellDefined(pred[i], pred[i])
      ensures Giou(CenterToCorners(pred[i]), CenterToCorners(pred[i])) == Finite(1.0)
    {
      PositiveBoxAgainstItself(pred[i]);
    }
    LossOfKeptRowsValue(pred, pred, numBoxes);
    L1SumZeroIff(pred, pred);
    PairedGiouLossOfItself(pred);
  }

  /** With a positive count and well-defined kept pairs the loss is a finite
      value of at least zero. */
  lemma MutiLossNonNegative(boxes: seq<seq<CenterBox>>, boxesTrg: seq<seq<CenterBox>>,
                            numBoxes: real, seqMask: seq<seq<bool>>)
    requires ShapesAgree(boxes, boxesTrg, seqMask) && numBoxes > 0.0
    requires PairsWellDefined(Kept(boxes, seqMask), Kept(boxesTrg, seqMask))
    ensures MutiLoss(boxes, boxesTrg, numBoxes, seqMask).Ok?
    ensures MutiLoss(boxes, boxesTrg, numBoxes, seqMask).value.Finite?
    ensures MutiLoss(boxes, boxesTrg, numBoxes, seqMask).value.val >= 0.0
  {
    var pred, trg := Kept(boxes, seqMask), Kept(boxesTrg, seqMask);
    MutiLossValue(boxes, boxesTrg, numBoxes, seqMask);
    PairedGiouLossBounds(pred, trg);
    QuotientNonNegative(L1Sum(pred, trg), numBoxes);
    QuotientNonNegative(PairedGiouLoss(pred, trg), numBoxes);
  }

  /** `num_boxes` is used unguarded: with a count of zero every loss that gets
      past the assertions is infinite or NaN. */
  lemma MutiLossWithZeroCount(boxes: seq<seq<CenterBox>>, boxesTrg: seq<seq<CenterBox>>, seqMask: seq<seq<bool>>)
    requires ShapesAgree(boxes, boxesTrg, seqMask)
    requires NonNegativeSizes(Kept(boxes, seqMask))
    requires NonNegativeSizes(Kept(boxesTrg, seqMask))
    ensures MutiLoss(boxes, boxesTrg, 0.0, seqMask) == Ok(NonFinite)
  {
  }
}
