/** Decoding of the network output (car_and_LP3/YOLO.py, _yxhw_to_ltrb, the
    top-1 selection of predict, LP_pose_activation) as functions, with the
    round trips that tie them to the encoder. */
module Decoder {
  import opened Numerics
  import opened Gluon
  import opened Grid
  import opened Encoder

  /** _yxhw_to_ltrb at one slot: the decoded box in ltrb form. */
  function DecodeBox(t: Transcendentals, cfg: Config, sl: Slot, raw: BoxTarget): Ltrb
    requires Lawful(t) && cfg.height > 0 && cfg.width > 0
  {
    ToLtrb(DecodeYxhw(t, cfg, sl, raw))
  }

  /** The centre and size _yxhw_to_ltrb decodes at one slot: centre
      (sigmoid(ty) * s + y) / H and (sigmoid(tx) * s + x) / W, size
      exp(th) * h and exp(tw) * w. */
  function DecodeYxhw(t: Transcendentals, cfg: Config, sl: Slot, raw: BoxTarget): Yxhw
    requires Lawful(t) && cfg.height > 0 && cfg.width > 0
  {
    Yxhw(DecodeCentre(Sigmoid(t, raw.ty), sl.s, sl.y, cfg.height as real),
         DecodeCentre(Sigmoid(t, raw.tx), sl.s, sl.x, cfg.width as real),
         t.exp(raw.th) * sl.h, t.exp(raw.tw) * sl.w)
  }

  /** The decoded centre along one axis: the sigmoid offset sg scaled by the
      stride s, added to the cell origin, normalised by the image size. */
  function DecodeCentre(sg: real, s: real, origin: real, size: real): real
    requires size > 0.0
  {
    (sg * s + origin) / size
  }

  /** Whatever the network outputs, the decoded box at slot e is centred
      strictly inside the slot's cell and has positive size. */
  lemma DecodedCentreInCell(t: Transcendentals, cfg: Config, pos: Position, raw: BoxTarget)
    requires Lawful(t) && ValidConfig(cfg) && OnGrid(cfg, pos)
    ensures var step := Step(cfg, pos.level) as real;
      var c := ToYxhw(DecodeBox(t, cfg, SlotAt(cfg, pos), raw));
      && pos.row as real * step / cfg.height as real < c.y < (pos.row as real + 1.0) * step / cfg.height as real
      && pos.col as real * step / cfg.width as real < c.x < (pos.col as real + 1.0) * step / cfg.width as real
      && c.h > 0.0 && c.w > 0.0
  {
    var s := Step(cfg, pos.level) as real;
    var a := cfg.anchors[pos.level][pos.anchor];
    var sl := SlotAt(cfg, pos);
    SlotAtIsCellOrigin(cfg, pos);
    ToYxhwToLtrb(DecodeYxhw(t, cfg, sl, raw));
    CellDecodes(Sigmoid(t, raw.ty), Sigmoid(t, raw.tx), t.exp(raw.th), t.exp(raw.tw),
                sl, pos.row as real, pos.col as real, cfg.height as real, cfg.width as real);
  }

  /** The decoded box of cell (k, j), for given activations: offsets in
      (0, 1) put the centre strictly inside the cell, and positive size
      factors give a positive size. */
  lemma CellDecodes(sy: real, sx: real, eh: real, ew: real, sl: Slot, k: real, j: real, hh: real, ww: real)
    requires 0.0 < sy < 1.0 && 0.0 < sx < 1.0 && eh > 0.0 && ew > 0.0
    requires sl.s > 0.0 && sl.y == k * sl.s && sl.x == j * sl.s && sl.h > 0.0 && sl.w > 0.0
    requires hh > 0.0 && ww > 0.0
    ensures k * sl.s / hh < DecodeCentre(sy, sl.s, sl.y, hh) < (k + 1.0) * sl.s / hh
    ensures j * sl.s / ww < DecodeCentre(sx, sl.s, sl.x, ww) < (j + 1.0) * sl.s / ww
    ensures eh * sl.h > 0.0 && ew * sl.w > 0.0
  {
    OffsetInCell(sy, sl.s, k, sl.y, hh);
    OffsetInCell(sx, sl.s, j, sl.x, ww);
    PositiveProduct(eh, sl.h);
    PositiveProduct(ew, sl.w);
  }

  lemma PositiveProduct(a: real, b: real)
    requires a > 0.0 && b > 0.0
    ensures a * b > 0.0
  {
  }

  /** A sigmoid offset sg in (0, 1) from the origin of cell k, of stride s,
      stays strictly inside cell k. */
  lemma OffsetInCell(sg: real, s: real, k: real, y: real, size: real)
    requires 0.0 < sg < 1.0 && s > 0.0 && size > 0.0 && y == k * s
    ensures k * s / size < DecodeCentre(sg, s, y, size) < (k + 1.0) * s / size
  {
    var a := sg * s;
    PositiveProduct(sg, s);
    PositiveProduct(1.0 - sg, s);
    assert (1.0 - sg) * s == s - a;
    assert a + y < y + s;
    assert (k + 1.0) * s == y + s;
    DivStrict(y, a + y, size);
    DivStrict(a + y, y + s, size);
  }

  lemma DivStrict(a: real, b: real, c: real)
    requires a < b && c > 0.0
    ensures a / c < b / c
  {
    var qa, qb := a / c, b / c;
    assert qa * c == a && qb * c == b;
  }

  /** Decoding an offset target recovers the coordinate c it encodes, when
      the anchor sits at the centre (k + 0.5) * s / size of cell k. */
  lemma CentreRoundTrip(c: real, k: real, s: real, size: real)
    requires s > 0.0 && size > 0.0
    ensures DecodeCentre(CentreOffset(c, (k + 0.5) * s / size, size, s), s, k * s, size) == c
  {
    var cA := (k + 0.5) * s / size;
    assert cA * size == (k + 0.5) * s;
    var u := (c - cA) * size;
    var o := CentreOffset(c, cA, size, s);
    assert (u / s) * s == u;
    assert o * s + k * s == u + (k + 0.5) * s;
    assert u + (k + 0.5) * s == c * size;
  }

  /** Decoding the box target of an object at any slot gives the object's
      box back, provided its centre offsets were not clipped, that is, the
      object centre lies inside the slot's cell away from the cell edges
      (offsets within [0.0001, 0.9999]). The size part needs no such
      condition. */
  lemma DecodeEncodeBox(t: Transcendentals, cfg: Config, pos: Position, row: seq<real>)
    requires Lawful(t) && ValidConfig(cfg) && OnGrid(cfg, pos)
    requires |row| >= 5 && row[3] > 0.0 && row[4] > 0.0
    requires ClipLow <= OffsetY(cfg, pos, row) <= ClipHigh && ClipLow <= OffsetX(cfg, pos, row) <= ClipHigh
    ensures ToYxhw(DecodeBox(t, cfg, SlotAt(cfg, pos), EncodeBox(t, cfg, pos, row))) == ObjectBox(row)
  {
    var r := EncodeBox(t, cfg, pos, row);
    OffsetsCentred(cfg, pos, row);
    DecodesTo(t, cfg, pos, r, ObjectBox(row));
    ToYxhwToLtrb(DecodeYxhw(t, cfg, SlotAt(cfg, pos), r));
  }

  /** Any box target whose activations are the centre offsets of a box from
      the centre of the slot's cell and the ratios of its size to the slot's
      anchor decodes, at that slot, to the box. */
  lemma DecodesTo(t: Transcendentals, cfg: Config, pos: Position, r: BoxTarget, box: Yxhw)
    requires Lawful(t) && ValidConfig(cfg) && OnGrid(cfg, pos)
    requires var s := Step(cfg, pos.level) as real;
      var hh, ww := cfg.height as real, cfg.width as real;
      && Sigmoid(t, r.ty) == CentreOffset(box.y, (pos.row as real + 0.5) * s / hh, hh, s)
      && Sigmoid(t, r.tx) == CentreOffset(box.x, (pos.col as real + 0.5) * s / ww, ww, s)
    requires var a := cfg.anchors[pos.level][pos.anchor];
      t.exp(r.th) == box.h / a.h && t.exp(r.tw) == box.w / a.w
    ensures DecodeYxhw(t, cfg, SlotAt(cfg, pos), r) == box
  {
    var s := Step(cfg, pos.level) as real;
    var a := cfg.anchors[pos.level][pos.anchor];
    var sl := SlotAt(cfg, pos);
    SlotAtIsCellOrigin(cfg, pos);
    AxisRoundTrip(Sigmoid(t, r.ty), box.y, pos.row as real, s, cfg.height as real, sl.s, sl.y);
    AxisRoundTrip(Sigmoid(t, r.tx), box.x, pos.col as real, s, cfg.width as real, sl.s, sl.x);
    RatioTimes(t.exp(r.th), sl.h, a.h, box.h);
    RatioTimes(t.exp(r.tw), sl.w, a.w, box.w);
  }

  /** A size ratio times the anchor size it was taken against is the size. */
  lemma RatioTimes(ratio: real, slotSize: real, anchorSize: real, v: real)
    requires anchorSize > 0.0 && slotSize == anchorSize && ratio == v / anchorSize
    ensures ratio * slotSize == v
  {
  }

  /** One axis of the box round trip: an offset measured from the centre of
      cell k, with stride s, decodes from the cell origin k * s back to the
      coordinate c. */
  lemma AxisRoundTrip(sg: real, c: real, k: real, s: real, size: real, slotStride: real, origin: real)
    requires s > 0.0 && size > 0.0 && slotStride == s && origin == k * s
    requires sg == CentreOffset(c, (k + 0.5) * s / size, size, s)
    ensures DecodeCentre(sg, slotStride, origin, size) == c
  {
    CentreRoundTrip(c, k, s, size);
  }

  /** The centre offsets measure from the centre of the slot's cell. */
  lemma OffsetsCentred(cfg: Config, pos: Position, row: seq<real>)
    requires ValidConfig(cfg) && OnGrid(cfg, pos) && |row| >= 5
    ensures var s := Step(cfg, pos.level) as real;
      var hh, ww := cfg.height as real, cfg.width as real;
      && OffsetY(cfg, pos, row) == CentreOffset(row[1], (pos.row as real + 0.5) * s / hh, hh, s)
      && OffsetX(cfg, pos, row) == CentreOffset(row[2], (pos.col as real + 0.5) * s / ww, ww, s)
  {
    BoxAtCentred(cfg, pos);
  }

  // ---------------------------------------------------------------------
  // Top-1 selection

  /** One image of the network's car output, per slot: score logit, box
      target, rotation and class channels. */
  datatype ImageOutput = ImageOutput(score: seq<real>, box: seq<BoxTarget>, rotate: seq<real>, cls: seq<seq<real>>)

  predicate Shaped(cfg: Config, out: ImageOutput)
    requires ValidConfig(cfg)
  {
    && |out.score| == SlotCount(cfg) && |out.box| == SlotCount(cfg)
    && |out.rotate| == SlotCount(cfg) && |out.cls| == SlotCount(cfg)
  }

  /** A detection as predict returns it: score, centre, size, rotation and
      class channels. */
  datatype Detection = Detection(score: real, y: real, x: real, h: real, w: real, rotate: real, cls: seq<real>)

  /** nd.sigmoid over a vector of logits. */
  function Sigmoids(t: Transcendentals, logits: seq<real>): (s: seq<real>)
    requires Lawful(t)
    ensures |s| == |logits|
  {
    seq(|logits|, i requires 0 <= i < |logits| => Sigmoid(t, logits[i]))
  }

  /** The slot predict picks, the argmax of the sigmoid scores, is the argmax
      of the raw logits: the sigmoid is strictly increasing, so it changes
      neither the maximum nor the first index holding it. */
  lemma TopSlotIsLargestLogit(t: Transcendentals, logits: seq<real>)
    requires Lawful(t) && |logits| > 0
    ensures ArgMax(Sigmoids(t, logits)) == ArgMax(logits)
  {
    var s := Sigmoids(t, logits);
    var k := ArgMax(logits);
    forall i | 0 <= i < |s| ensures s[i] <= s[k] && (i < k ==> s[i] < s[k]) {
      if logits[i] < logits[k] {
        SigmoidStrictlyIncreasing(t, logits[i], logits[k]);
      } else {
        assert logits[i] == logits[k] && i >= k;
        assert s[i] == Sigmoid(t, logits[k]);
      }
    }
    ArgMaxUnique(s, k);
  }

  /** The detection at slot e: its score through the sigmoid, its decoded box
      in centre/size form (y = (t + b) / 2, x = (l + r) / 2, h = b - t,
      w = r - l), its rotation and class channels as output. */
  function DetectionAt(t: Transcendentals, cfg: Config, out: ImageOutput, e: nat): Detection
    requires Lawful(t) && ValidConfig(cfg) && Shaped(cfg, out) && e < SlotCount(cfg)
  {
    var c := ToYxhw(DecodeBox(t, cfg, TableEntry(cfg, e), out.box[e]));
    Detection(Sigmoid(t, out.score[e]), c.y, c.x, c.h, c.w, out.rotate[e], out.cls[e])
  }

  /** predict for one image: the detection at the slot of highest score. */
  function PredictImage(t: Transcendentals, cfg: Config, out: ImageOutput): Detection
    requires Lawful(t) && ValidConfig(cfg) && Shaped(cfg, out)
  {
    SlotCountPositive(cfg);
    DetectionAt(t, cfg, out, ArgMax(Sigmoids(t, out.score)))
  }

  /** Encoder and decoder agree end to end: if the network reproduces an
      object's targets at the object's slot and scores that slot above every
      other, predict returns the object's box, rotation and class
      distribution (its centre exactly when the offsets were not clipped). */
  lemma PredictRecoversObject(t: Transcendentals, cfg: Config, row: seq<real>, out: ImageOutput)
    requires Lawful(t) && ValidConfig(cfg) && CarRow(cfg, row) && row[0] >= 0.0 && Shaped(cfg, out)
    requires var e := BestSlot(cfg, row);
      var pos := PositionOf(cfg, e);
      && ClipLow <= OffsetY(cfg, pos, row) <= ClipHigh && ClipLow <= OffsetX(cfg, pos, row) <= ClipHigh
      && out.box[e] == EncodeBox(t, cfg, pos, row)
      && out.rotate[e] == row[5] && out.cls[e] == row[6..]
      && forall k :: 0 <= k < SlotCount(cfg) && k != e ==> out.score[k] < out.score[e]
    ensures var d := PredictImage(t, cfg, out);
      d.y == row[1] && d.x == row[2] && d.h == row[3] && d.w == row[4] &&
      d.rotate == row[5] && d.cls == row[6..]
  {
    var e := BestSlot(cfg, row);
    SlotCountPositive(cfg);
    TopSlotIsLargestLogit(t, out.score);
    ArgMaxUnique(out.score, e);
    DecodeEncodeBox(t, cfg, PositionOf(cfg, e), row);
  }

  // ---------------------------------------------------------------------
  // Plate pose

  /** LP_pose_activation: X and Y times 1000, exp(z) * 1000, and each rotation
      (sigmoid(r) - 0.5) * 2 * r_max, converted from degrees to radians. */
  function DecodePose(t: Transcendentals, cfg: Config, raw: seq<real>): (pose: seq<real>)
    requires Lawful(t) && ValidConfig(cfg) && |raw| == 6
    ensures |pose| == 6
  {
    [raw[0] * 1000.0, raw[1] * 1000.0, t.exp(raw[2]) * 1000.0,
     DecodeRotation(t, cfg, raw[3], 0), DecodeRotation(t, cfg, raw[4], 1), DecodeRotation(t, cfg, raw[5], 2)]
  }

  /** X and Y are scaled by 1000 and Z is exp(Z) scaled by 1000. */
  lemma PoseHead(t: Transcendentals, cfg: Config, raw: seq<real>)
    requires Lawful(t) && ValidConfig(cfg) && |raw| == 6
    ensures var pose := DecodePose(t, cfg, raw);
      pose[0] == raw[0] * 1000.0 && pose[1] == raw[1] * 1000.0 && pose[2] == t.exp(raw[2]) * 1000.0
  {
  }

  /** Rotation i from its logit: (sigmoid - 0.5) * 2 * r_max degrees, in
      radians. */
  function DecodeRotation(t: Transcendentals, cfg: Config, logit: real, i: nat): real
    requires Lawful(t) && ValidConfig(cfg) && i < 3
  {
    DegToRad((Sigmoid(t, logit) - 0.5) * 2.0 * cfg.lpRMax[i])
  }

  /** The rotation decoding undoes the rotation encoding: the rotation r,
      divided by the range k = m * 2 * pi / 180 and shifted by 0.5, comes back
      from (v - 0.5) * 2 * m * pi / 180. */
  lemma RotationRoundTrip(r: real, m: real, k: real, v: real, sg: real)
    requires m != 0.0 && k == m * 2.0 * Pi / 180.0 && v == r / k + 0.5 && sg == v
    ensures DegToRad((sg - 0.5) * 2.0 * m) == r
  {
    assert k != 0.0;
    var q := r / k;
    assert q * k == r;
    assert q * 2.0 * m * Pi / 180.0 == q * k;
  }

  /** LP_pose_activation undoes the pose encoding of _find_best_LP: the
      decoded pose is the plate's X, Y, Z and three rotations. */
  lemma DecodeEncodePose(t: Transcendentals, cfg: Config, row: seq<real>)
    requires Lawful(t) && ValidConfig(cfg) && PlateRow(cfg, row) && row[0] >= 0.0
    ensures DecodePose(t, cfg, EncodePose(t, cfg, row)) == row[1..7]
  {
    PositionDecodes(t, cfg, row);
    RotationDecodes(t, cfg, row, 0);
    RotationDecodes(t, cfg, row, 1);
    RotationDecodes(t, cfg, row, 2);
    SixFrom(DecodePose(t, cfg, EncodePose(t, cfg, row)), row);
  }

  /** X, Y and Z of a plate survive encoding and decoding. */
  lemma PositionDecodes(t: Transcendentals, cfg: Config, row: seq<real>)
    requires Lawful(t) && ValidConfig(cfg) && PlateRow(cfg, row) && row[0] >= 0.0
    ensures var d := DecodePose(t, cfg, EncodePose(t, cfg, row));
      d[0] == row[1] && d[1] == row[2] && d[2] == row[3]
  {
    assert row[3] / 1000.0 > 0.0;
  }

  /** A six-vector that agrees entry by entry with row[1..7] is row[1..7]. */
  lemma SixFrom(d: seq<real>, row: seq<real>)
    requires |d| == 6 && |row| >= 7
    requires d[0] == row[1] && d[1] == row[2] && d[2] == row[3]
    requires d[3] == row[4] && d[4] == row[5] && d[5] == row[6]
    ensures d == row[1..7]
  {
  }

  /** Rotation i of a plate survives encoding and decoding. */
  lemma RotationDecodes(t: Transcendentals, cfg: Config, row: seq<real>, i: nat)
    requires Lawful(t) && ValidConfig(cfg) && PlateRow(cfg, row) && row[0] >= 0.0 && i < 3
    ensures DecodePose(t, cfg, EncodePose(t, cfg, row))[3 + i] == row[4 + i]
  {
    var p := EncodePose(t, cfg, row);
    EncodedRotation(t, cfg, row, i);
    DecodedRotation(t, cfg, p, i);
    RotationInverse(t, cfg, row[4 + i], i);
  }

  /** Decoding an encoded rotation angle (radians strictly inside
      (-r_max, r_max) degrees) gives the angle back. */
  lemma RotationInverse(t: Transcendentals, cfg: Config, r: real, i: nat)
    requires Lawful(t) && ValidConfig(cfg) && i < 3 && 0.0 < r / RMaxRad(cfg, i) + 0.5 < 1.0
    ensures DecodeRotation(t, cfg, EncodeRotation(t, cfg, r, i), i) == r
  {
    var v := r / RMaxRad(cfg, i) + 0.5;
    SigmoidOfInvSigmoid(t, v);
    RotationRoundTrip(r, cfg.lpRMax[i], RMaxRad(cfg, i), v, Sigmoid(t, EncodeRotation(t, cfg, r, i)));
  }

  lemma EncodedRotation(t: Transcendentals, cfg: Config, row: seq<real>, i: nat)
    requires Lawful(t) && ValidConfig(cfg) && PlateRow(cfg, row) && row[0] >= 0.0 && i < 3
    ensures EncodePose(t, cfg, row)[3 + i] == EncodeRotation(t, cfg, row[4 + i], i)
  {
  }

  lemma DecodedRotation(t: Transcendentals, cfg: Config, raw: seq<real>, i: nat)
    requires Lawful(t) && ValidConfig(cfg) && |raw| == 6 && i < 3
    ensures DecodePose(t, cfg, raw)[3 + i] == DecodeRotation(t, cfg, raw[3 + i], i)
  {
  }

  /** Rotation i of the decoded pose is `data` in radians, for `data` the
      angle in degrees that LP_pose_activation computes first. */
  lemma DecodedRotationDegrees(t: Transcendentals, cfg: Config, raw: seq<real>, i: nat, data: real)
    requires Lawful(t) && ValidConfig(cfg) && |raw| == 6 && i < 3
    requires data == (Sigmoid(t, raw[i + 3]) - 0.5) * 2.0 * cfg.lpRMax[i]
    ensures DecodePose(t, cfg, raw)[3 + i] == DegToRad(data)
  {
    DecodedRotation(t, cfg, raw, i);
  }

  /** One image of the plate head's output: score logit and raw 6-D pose per
      cell. */
  datatype PlateOutput = PlateOutput(score: seq<real>, pose: seq<seq<real>>)

  predicate PlateShaped(out: PlateOutput) {
    && |out.score| > 0 && |out.pose| == |out.score|
    && forall c :: 0 <= c < |out.pose| ==> |out.pose[c]| == 6
  }

  /** The plate part of predict for one image: the sigmoid score of the best
      cell followed by its activated pose. */
  function PredictPlate(t: Transcendentals, cfg: Config, out: PlateOutput): (pred: seq<real>)
    requires Lawful(t) && ValidConfig(cfg) && PlateShaped(out)
    ensures |pred| == 7
  {
    var best := ArgMax(Sigmoids(t, out.score));
    [Sigmoid(t, out.score[best])] + DecodePose(t, cfg, out.pose[best])
  }

  /** If the plate head reproduces a plate's pose target at the plate's cell
      and scores that cell above every other, predict returns the plate's
      pose. */
  lemma PredictRecoversPlate(t: Transcendentals, cfg: Config, row: seq<real>, out: PlateOutput)
    requires Lawful(t) && ValidConfig(cfg) && PlateRow(cfg, row) && row[0] >= 0.0 && PlateShaped(out)
    requires var c := PlateCell(row[7], row[8]);
      && c < |out.score| && out.pose[c] == EncodePose(t, cfg, row)
      && forall k :: 0 <= k < |out.score| && k != c ==> out.score[k] < out.score[c]
    ensures PredictPlate(t, cfg, out)[1..] == row[1..7]
  {
    var c := PlateCell(row[7], row[8]);
    TopSlotIsLargestLogit(t, out.score);
    ArgMaxUnique(out.score, c);
    DecodeEncodePose(t, cfg, row);
  }
}
