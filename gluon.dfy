/** The geometry and tensor helpers of yolo_modules/yolo_gluon.py:
    rectangle IoU, contiguous batch sharding, the inverse sigmoid, the
    ltrb -> (y, x, h, w) label conversion and per-channel white balance. */
module Gluon {
  import opened Numerics

  /** A box as left, top, right, bottom, in image-fraction units. */
  datatype Ltrb = Ltrb(l: real, t: real, r: real, b: real)

  /** A box as centre y, centre x, height, width. */
  datatype Yxhw = Yxhw(y: real, x: real, h: real, w: real)

  predicate WellFormed(p: Ltrb) {
    p.l <= p.r && p.t <= p.b
  }

  /** `(r - l) * (b - t)`, the area get_iou gives the predicted boxes. */
  function Area(p: Ltrb): real {
    (p.r - p.l) * (p.b - p.t)
  }

  /** The centre/size form of an ltrb box, as nd_label_batch_ltrb2yxhw and
      predict compute it: y = (t + b) / 2, x = (l + r) / 2, h = b - t, w = r - l. */
  function ToYxhw(p: Ltrb): Yxhw {
    Yxhw((p.t + p.b) / 2.0, (p.l + p.r) / 2.0, p.b - p.t, p.r - p.l)
  }

  /** The ltrb form of a (y, x, h, w) target, as get_iou builds it in mode 2. */
  function ToLtrb(c: Yxhw): Ltrb {
    Ltrb(c.x - c.w / 2.0, c.y - c.h / 2.0, c.x + c.w / 2.0, c.y + c.h / 2.0)
  }

  /** The two conversions are inverse to each other, both ways round. */
  lemma ToYxhwToLtrb(c: Yxhw)
    ensures ToYxhw(ToLtrb(c)) == c
  {
  }

  lemma ToLtrbToYxhw(p: Ltrb)
    ensures ToLtrb(ToYxhw(p)) == p
  {
  }

  /** Width and height of the overlap, each clamped at zero. */
  function OverlapWidth(p: Ltrb, q: Ltrb): real {
    Max(Min(p.r, q.r) - Max(p.l, q.l), 0.0)
  }

  function OverlapHeight(p: Ltrb, q: Ltrb): real {
    Max(Min(p.b, q.b) - Max(p.t, q.t), 0.0)
  }

  /** The intersection area `iw * ih` of get_iou. */
  function Intersection(p: Ltrb, q: Ltrb): real {
    OverlapWidth(p, q) * OverlapHeight(p, q)
  }

  lemma MulMonotone(a: real, b: real, c: real, d: real)
    requires 0.0 <= a <= c && 0.0 <= b <= d
    ensures a * b <= c * d
  {
    assert a * b <= c * b;
    assert c * b <= c * d;
  }

  /** The overlap of two well-formed boxes is no larger than either box. */
  lemma IntersectionBounded(p: Ltrb, q: Ltrb)
    requires WellFormed(p) && WellFormed(q)
    ensures 0.0 <= Intersection(p, q) <= Area(p)
    ensures Intersection(p, q) <= Area(q)
  {
    MulMonotone(OverlapWidth(p, q), OverlapHeight(p, q), p.r - p.l, p.b - p.t);
    MulMonotone(OverlapWidth(p, q), OverlapHeight(p, q), q.r - q.l, q.b - q.t);
  }

  /** Intersection over union of two ltrb boxes: `inters / (area_p + area_t -
      inters)`. This is what get_iou means in both of its modes; mode 2
      computes exactly this (IouMode2), mode 1 as written does not (see
      IouMode1AsWritten). Boxes of positive area on the predicted side are
      required, as the anchors always are, so that the ratio is defined. */
  function Iou(p: Ltrb, q: Ltrb): (iou: real)
    requires WellFormed(p) && WellFormed(q) && Area(p) > 0.0
    ensures 0.0 <= iou <= 1.0
  {
    IntersectionBounded(p, q);
    IouWith(p, q, Area(q))
  }

  /** The IoU of p and q when q's area is taken to be areaQ. */
  function IouWith(p: Ltrb, q: Ltrb, areaQ: real): (iou: real)
    requires WellFormed(p) && WellFormed(q) && Area(p) > 0.0 && Intersection(p, q) <= areaQ
    ensures 0.0 <= iou <= 1.0
  {
    IntersectionBounded(p, q);
    IouRatio(Intersection(p, q), Area(p), areaQ)
  }

  /** `inters / (area_p + area_t - inters)` for an overlap no larger than
      either area: a fraction between 0 and 1. */
  function IouRatio(inters: real, areaP: real, areaT: real): (r: real)
    requires 0.0 <= inters <= areaP && inters <= areaT && areaP > 0.0
    ensures 0.0 <= r <= 1.0
  {
    FractionBounded(inters, areaP + areaT - inters);
    inters / (areaP + areaT - inters)
  }

  lemma FractionBounded(a: real, u: real)
    requires 0.0 <= a <= u && u > 0.0
    ensures 0.0 <= a / u <= 1.0
  {
    var q := a / u;
    assert q * u == a;
  }

  lemma AreaOfToLtrb(c: Yxhw)
    ensures Area(ToLtrb(c)) == c.h * c.w
    ensures c.h >= 0.0 && c.w >= 0.0 ==> WellFormed(ToLtrb(c))
  {
    var q := ToLtrb(c);
    assert q.r - q.l == c.w && q.b - q.t == c.h;
  }

  /** get_iou with mode 2: the target is (class, cy, cx, h, w) and is turned
      into ltrb first; its area is taken as h * w. This is the IoU of the
      predicted box with the target's box. */
  function IouMode2(predict: Ltrb, target: Yxhw): (iou: real)
    requires WellFormed(predict) && Area(predict) > 0.0
    requires target.h >= 0.0 && target.w >= 0.0
    ensures WellFormed(ToLtrb(target))
    ensures iou == Iou(predict, ToLtrb(target))
  {
    TargetOverlap(predict, target);
    IouWith(predict, ToLtrb(target), target.h * target.w)
  }

  /** The overlap of a predicted box with a target box is bounded by both
      areas, the target's being h * w. */
  lemma TargetOverlap(predict: Ltrb, target: Yxhw)
    requires WellFormed(predict) && target.h >= 0.0 && target.w >= 0.0
    ensures WellFormed(ToLtrb(target)) && Area(ToLtrb(target)) == target.h * target.w
    ensures 0.0 <= Intersection(predict, ToLtrb(target)) <= Area(predict)
    ensures Intersection(predict, ToLtrb(target)) <= target.h * target.w
  {
    AreaOfToLtrb(target);
    IntersectionBounded(predict, ToLtrb(target));
  }

  /** IoU does not depend on the order of its arguments. */
  lemma IouSymmetric(p: Ltrb, q: Ltrb)
    requires WellFormed(p) && WellFormed(q) && Area(p) > 0.0 && Area(q) > 0.0
    ensures Iou(p, q) == Iou(q, p)
  {
    assert OverlapWidth(p, q) == OverlapWidth(q, p);
    assert OverlapHeight(p, q) == OverlapHeight(q, p);
  }

  /** A box of positive area has IoU 1 with itself. */
  lemma IouSelf(p: Ltrb)
    requires WellFormed(p) && Area(p) > 0.0
    ensures Iou(p, p) == 1.0
  {
    assert Intersection(p, p) == Area(p);
  }

  /** Boxes that are apart horizontally or vertically have IoU 0. */
  lemma IouDisjoint(p: Ltrb, q: Ltrb)
    requires WellFormed(p) && WellFormed(q) && Area(p) > 0.0
    requires p.r <= q.l || q.r <= p.l || p.b <= q.t || q.b <= p.t
    ensures Intersection(p, q) == 0.0
    ensures Iou(p, q) == 0.0
  {
    if p.r <= q.l || q.r <= p.l {
      assert OverlapWidth(p, q) == 0.0;
    } else {
      assert OverlapHeight(p, q) == 0.0;
    }
    IntersectionBounded(p, q);
    assert Intersection(p, q) == 0.0;
  }

  /** get_iou with mode 1 AS WRITTEN: the target is (class, l, t, r, b) but its
      area is still taken as `target[3] * target[4]`, that is r * b, instead of
      (r - l) * (b - t). */
  function IouMode1AsWritten(predict: Ltrb, target: Ltrb): real
    requires Area(predict) + target.r * target.b - Intersection(predict, target) != 0.0
  {
    Intersection(predict, target) / (Area(predict) + target.r * target.b - Intersection(predict, target))
  }

  /** A box compared with itself in mode 1 does not score 1: the box
      (0.5, 0.5, 1, 1) gets 0.25 / (0.25 + 1 - 0.25) = 1/4, where Iou gives 1. */
  lemma IouMode1AsWrittenMisscoresIdenticalBox()
    ensures IouMode1AsWritten(Ltrb(0.5, 0.5, 1.0, 1.0), Ltrb(0.5, 0.5, 1.0, 1.0)) == 0.25
    ensures Iou(Ltrb(0.5, 0.5, 1.0, 1.0), Ltrb(0.5, 0.5, 1.0, 1.0)) == 1.0
  {
    var p := Ltrb(0.5, 0.5, 1.0, 1.0);
    assert Intersection(p, p) == 0.25;
  }

  // ---------------------------------------------------------------------
  // split_render_data

  /** First index of shard `i` when `bs` items go to `k` devices:
      `int(i * batch_size / len(ctx))`. */
  function ShardStart(i: nat, bs: nat, k: nat): nat
    requires k > 0
  {
    (i * bs) / k
  }

  lemma ShardStartMonotone(i: nat, bs: nat, k: nat)
    requires k > 0
    ensures ShardStart(i, bs, k) <= ShardStart(i + 1, bs, k)
  {
    MulLe(i, i + 1, bs);
    DivMonotone(i * bs, (i + 1) * bs, k);
  }

  lemma DivMonotone(a: nat, b: nat, k: nat)
    requires k > 0 && a <= b
    ensures a / k <= b / k
  {
    var qa, qb := a / k, b / k;
    assert qa * k <= a;
    assert b < (qb + 1) * k;
    assert qa * k < (qb + 1) * k;
  }

  lemma ShardStartBounded(i: nat, bs: nat, k: nat)
    requires k > 0 && i <= k
    ensures ShardStart(i, bs, k) <= bs
    ensures i == k ==> ShardStart(i, bs, k) == bs
  {
    MulLe(i, k, bs);
    DivMonotone(i * bs, k * bs, k);
    DivModUnique(k * bs, k, bs, 0);
  }

  /** The shards laid end to end. */
  function Concat<T>(shards: seq<seq<T>>): seq<T> {
    if shards == [] then [] else Concat(shards[..|shards| - 1]) + shards[|shards| - 1]
  }

  /** The slice of the batch that device `i` of `k` receives. */
  function Shard<T>(batch: seq<T>, i: nat, k: nat): (shard: seq<T>)
    requires i < k
    ensures ShardStart(i, |batch|, k) <= ShardStart(i + 1, |batch|, k) <= |batch|
    ensures shard == batch[ShardStart(i, |batch|, k)..ShardStart(i + 1, |batch|, k)]
  {
    ShardStartMonotone(i, |batch|, k);
    ShardStartBounded(i + 1, |batch|, k);
    batch[ShardStart(i, |batch|, k)..ShardStart(i + 1, |batch|, k)]
  }

  lemma ConcatAppend<T>(shards: seq<seq<T>>, x: seq<T>)
    ensures Concat(shards + [x]) == Concat(shards) + x
  {
    assert (shards + [x])[..|shards|] == shards;
  }

  lemma SliceJoin<T>(s: seq<T>, a: nat, b: nat)
    requires a <= b <= |s|
    ensures s[..a] + s[a..b] == s[..b]
  {
  }

  /** split_render_data: one contiguous slice of the batch per device, from
      ShardStart(i) to ShardStart(i + 1); laid end to end the slices give the
      batch back. Only the number of devices matters here; moving a slice to
      its device is not modelled. */
  method SplitRenderData<T>(batch: seq<T>, numDevices: nat) returns (shards: seq<seq<T>>)
    ensures |shards| == numDevices
    ensures forall i :: 0 <= i < numDevices ==> shards[i] == Shard(batch, i, numDevices)
    ensures numDevices > 0 ==> Concat(shards) == batch
  {
    shards := [];
    if numDevices == 0 {
      return;
    }
    var bs := |batch|;
    for i := 0 to numDevices
      invariant |shards| == i
      invariant forall j :: 0 <= j < i ==> shards[j] == Shard(batch, j, numDevices)
      invariant ShardStart(i, bs, numDevices) <= bs
      invariant Concat(shards) == batch[..ShardStart(i, bs, numDevices)]
    {
      var shard := Shard(batch, i, numDevices);
      ConcatAppend(shards, shard);
      SliceJoin(batch, ShardStart(i, bs, numDevices), ShardStart(i + 1, bs, numDevices));
      shards := shards + [shard];
    }
    ShardStartBounded(numDevices, bs, numDevices);
    assert batch[..bs] == batch;
  }

  // ---------------------------------------------------------------------
  // nd_inv_sigmoid

  /** nd_inv_sigmoid: `-log(1/x - 1)`, defined on the open interval (0, 1). */
  function InvSigmoid(t: Transcendentals, x: real): real
    requires 0.0 < x < 1.0
  {
    -t.log(1.0 / x - 1.0)
  }

  /** The network's sigmoid undoes nd_inv_sigmoid on (0, 1) ... */
  lemma SigmoidOfInvSigmoid(t: Transcendentals, p: real)
    requires Lawful(t) && 0.0 < p < 1.0
    ensures Sigmoid(t, InvSigmoid(t, p)) == p
  {
    var u := 1.0 / p - 1.0;
    assert u > 0.0;
    assert t.exp(-InvSigmoid(t, p)) == u;
  }

  /** ... and nd_inv_sigmoid undoes the sigmoid everywhere. */
  lemma InvSigmoidOfSigmoid(t: Transcendentals, x: real)
    requires Lawful(t)
    ensures InvSigmoid(t, Sigmoid(t, x)) == x
  {
    var e := t.exp(-x);
    assert 1.0 / Sigmoid(t, x) - 1.0 == e;
    assert t.log(e) == -x;
  }

  // ---------------------------------------------------------------------
  // nd_label_batch_ltrb2yxhw

  /** Field `f` (0 to 3) of a centre/size box. */
  function Field(c: Yxhw, f: nat): real
    requires f < 4
  {
    if f == 0 then c.y else if f == 1 then c.x else if f == 2 then c.h else c.w
  }

  /** nd_label_batch_ltrb2yxhw: a zero array of the same shape whose fields 0-3
      of every object are the (y, x, h, w) form of the object's ltrb fields
      0-3; all other fields stay 0. */
  method LabelBatchLtrbToYxhw(batch: array3<real>) returns (out: array3<real>)
    requires batch.Length2 >= 4
    ensures fresh(out)
    ensures out.Length0 == batch.Length0 && out.Length1 == batch.Length1 && out.Length2 == batch.Length2
    ensures FieldsConverted(batch, out, 4)
  {
    out := new real[batch.Length0, batch.Length1, batch.Length2]((b, o, f) => 0.0);
    ConvertField(batch, out, 0);
    ConvertField(batch, out, 1);
    ConvertField(batch, out, 2);
    ConvertField(batch, out, 3);
  }

  /** One of the four slice assignments of nd_label_batch_ltrb2yxhw: field f
      of every object gets its centre (f < 2) or size (f >= 2) coordinate. */
  method ConvertField(batch: array3<real>, out: array3<real>, f: nat)
    requires batch.Length2 >= 4 && f < 4 && out != batch
    requires out.Length0 == batch.Length0 && out.Length1 == batch.Length1 && out.Length2 == batch.Length2
    requires FieldsConverted(batch, out, f)
    modifies out
    ensures FieldsConverted(batch, out, f + 1)
  {
    if f == 0 {
      forall b, o | 0 <= b < batch.Length0 && 0 <= o < batch.Length1 {
        out[b, o, 0] := (batch[b, o, 1] + batch[b, o, 3]) / 2.0;
      }
    } else if f == 1 {
      forall b, o | 0 <= b < batch.Length0 && 0 <= o < batch.Length1 {
        out[b, o, 1] := (batch[b, o, 0] + batch[b, o, 2]) / 2.0;
      }
    } else if f == 2 {
      forall b, o | 0 <= b < batch.Length0 && 0 <= o < batch.Length1 {
        out[b, o, 2] := batch[b, o, 3] - batch[b, o, 1];
      }
    } else {
      forall b, o | 0 <= b < batch.Length0 && 0 <= o < batch.Length1 {
        out[b, o, 3] := batch[b, o, 2] - batch[b, o, 0];
      }
    }
  }

  /** The ltrb box held in fields 0-3 of object o of image b. */
  function BoxOf(batch: array3<real>, b: nat, o: nat): Ltrb
    requires b < batch.Length0 && o < batch.Length1 && batch.Length2 >= 4
    reads batch
  {
    Ltrb(batch[b, o, 0], batch[b, o, 1], batch[b, o, 2], batch[b, o, 3])
  }

  /** Fields 0 to done - 1 of every object of `out` hold the (y, x, h, w) form
      of the same object's box in `batch`; every other field is 0. */
  ghost predicate FieldsConverted(batch: array3<real>, out: array3<real>, done: nat)
    requires batch.Length2 >= 4 && done <= 4
    requires out.Length0 == batch.Length0 && out.Length1 == batch.Length1 && out.Length2 == batch.Length2
    reads batch, out
  {
    forall b, o, f :: 0 <= b < out.Length0 && 0 <= o < out.Length1 && 0 <= f < out.Length2 ==>
      out[b, o, f] == if f < done then Field(ToYxhw(BoxOf(batch, b, o)), f) else 0.0
  }

  // ---------------------------------------------------------------------
  // nd_white_balance

  /** nd_white_balance: multiplies channel i of an (N, 3, H, W) image batch by
      bgr[i], in place. Its assertion (3 weights, 3 channels) is the `ok`
      result; when it fails nothing is changed. */
  method WhiteBalance(img: array4<real>, bgr: seq<real>) returns (ok: bool)
    modifies img
    ensures ok <==> |bgr| == 3 && img.Length1 == 3
    ensures !ok ==> forall b, c, y, x :: 0 <= b < img.Length0 && 0 <= c < img.Length1 && 0 <= y < img.Length2 && 0 <= x < img.Length3 ==>
      img[b, c, y, x] == old(img[b, c, y, x])
    ensures ok ==> forall b, c, y, x :: 0 <= b < img.Length0 && 0 <= c < 3 && 0 <= y < img.Length2 && 0 <= x < img.Length3 ==>
      img[b, c, y, x] == old(img[b, c, y, x]) * bgr[c]
  {
    ok := |bgr| == 3 && img.Length1 == 3;
    if !ok {
      return;
    }
    for i := 0 to 3
      invariant forall b, c, y, x :: 0 <= b < img.Length0 && 0 <= c < 3 && 0 <= y < img.Length2 && 0 <= x < img.Length3 ==>
        img[b, c, y, x] == if c < i then old(img[b, c, y, x]) * bgr[c] else old(img[b, c, y, x])
    {
      forall b, y, x | 0 <= b < img.Length0 && 0 <= y < img.Length2 && 0 <= x < img.Length3 {
        img[b, i, y, x] := img[b, i, y, x] * bgr[i];
      }
    }
  }
}
